/** The indicator container: one dot per item, each offset from the centre
    by its distance in items from the current index. */
module PageIndicator {
  import opened IndicatorStyle
  import opened DotViews

  datatype Option<T> = None | Some(value: T)

  /** Width and height of a view, in points. */
  datatype Size = Size(width: real, height: real)

  /** The indicator's inputs. `currentIndex` is the value read through the
      host's binding; nothing here produces a new value for it. */
  datatype DotPageIndicator = DotPageIndicator(
    currentIndex: int,
    totalItems: int,
    hasContent: Option<int -> bool>,
    style: DotPageIndicatorStyle)

  /** The initialiser: the style defaults to the `default` preset and the
      content closure to none; arguments are stored unchanged. */
  function Create(
    currentIndex: int,
    totalItems: int,
    style: DotPageIndicatorStyle := Default(),
    hasContent: Option<int -> bool> := None
  ): (ind: DotPageIndicator)
    ensures ind.currentIndex == currentIndex && ind.totalItems == totalItems
    ensures ind.style == style && ind.hasContent == hasContent
  {
    DotPageIndicator(currentIndex, totalItems, hasContent, style)
  }

  /** Whether the item at `index` has content; without a closure every item
      counts as having content. */
  function ContentAt(ind: DotPageIndicator, index: int): (r: bool)
    ensures ind.hasContent.None? ==> r
    ensures ind.hasContent.Some? ==> r == ind.hasContent.value(index)
  {
    match ind.hasContent
    case None => true
    case Some(f) => f(index)
  }

  /** Signed offset of dot `index` from the centre. The scroll direction is
      not consulted. */
  function GetDotPosition(ind: DotPageIndicator, index: int): (r: real)
    ensures index == ind.currentIndex ==> r == 0.0
    ensures ind.style.dotSpacing > 0.0 ==> (r > 0.0 <==> index < ind.currentIndex)
    ensures ind.style.dotSpacing > 0.0 ==> (r < 0.0 <==> index > ind.currentIndex)
  {
    (ind.currentIndex - index) as real * ind.style.dotSpacing
  }

  /** Neighbouring dots sit exactly one spacing apart. */
  lemma ConsecutiveOffsets(ind: DotPageIndicator, index: int)
    ensures GetDotPosition(ind, index) - GetDotPosition(ind, index + 1) == ind.style.dotSpacing
  {
  }

  /** Reversing the scroll direction moves no dot. */
  lemma OffsetIgnoresScrollDirection(ind: DotPageIndicator, index: int, dir: ScrollDirection)
    ensures GetDotPosition(ind.(style := ind.style.(scrollDirection := dir)), index)
              == GetDotPosition(ind, index)
  {
  }

  /** The indicator's frame: `indicatorWidth` across the primary axis and
      room for `visibleDots` spacings along it. */
  function FrameSize(style: DotPageIndicatorStyle): (r: Size)
    ensures style.orientation == Vertical ==>
              r.width == style.indicatorWidth &&
              r.height == style.visibleDots as real * style.dotSpacing
    ensures style.orientation == Horizontal ==>
              r.width == style.visibleDots as real * style.dotSpacing &&
              r.height == style.indicatorWidth
  {
    Size(
      if style.orientation == Vertical then style.indicatorWidth
      else style.visibleDots as real * style.dotSpacing,
      if style.orientation == Vertical then style.visibleDots as real * style.dotSpacing
      else style.indicatorWidth)
  }

  /** Switching orientation swaps the frame's width and height. */
  lemma FrameSizeSwaps(style: DotPageIndicatorStyle)
    ensures var v := FrameSize(style.(orientation := Vertical));
      FrameSize(style.(orientation := Horizontal)) == Size(v.height, v.width)
  {
  }

  /** Centre coordinate along the primary axis of a viewport. */
  function CenterPosition(style: DotPageIndicatorStyle, viewport: Size): (r: real)
    ensures style.orientation == Vertical ==> r == viewport.height / 2.0
    ensures style.orientation == Horizontal ==> r == viewport.width / 2.0
  {
    if style.orientation == Vertical then viewport.height / 2.0 else viewport.width / 2.0
  }

  /** Inside the indicator's own frame the centre lies half the visible
      dots' extent along the primary axis, in either orientation. */
  lemma CenterOfFrame(style: DotPageIndicatorStyle)
    ensures CenterPosition(style, FrameSize(style))
              == style.visibleDots as real * style.dotSpacing / 2.0
  {
  }

  /** The dot that the container builds for `index`: never empty, offset by
      its position, with content as the closure (or its default) says. */
  function MakeDot(ind: DotPageIndicator, center: real, index: int): (d: DotView)
    ensures !d.isEmpty && d.style == ind.style && d.centerY == center
    ensures d.hasContent == ContentAt(ind, index)
    ensures d.currentY == GetDotPosition(ind, index)
  {
    DotView(ContentAt(ind, index), false, center, GetDotPosition(ind, index), ind.style)
  }

  /** The container never asks a dot for its progress with a zero spacing:
      with a zero spacing every offset is 0, so every dot is selected. */
  lemma MadeDotScaleDefined(ind: DotPageIndicator, center: real, index: int)
    ensures ScaleDefined(MakeDot(ind, center, index))
  {
  }

  /** With a spacing of at least one point, the dot at `index` is selected
      exactly when `index` is the current index. */
  lemma DotSelectedIff(ind: DotPageIndicator, center: real, index: int)
    requires ind.style.dotSpacing >= 1.0
    ensures IsSelected(MakeDot(ind, center, index)) <==> index == ind.currentIndex
  {
  }

  /** One dot per item, for indices 0 up to `totalItems - 1` in order. A
      negative count has no range to iterate. */
  function Dots(ind: DotPageIndicator, viewport: Size): (r: seq<DotView>)
    requires ind.totalItems >= 0
    ensures |r| == ind.totalItems
    ensures forall i :: 0 <= i < |r| ==>
              r[i] == MakeDot(ind, CenterPosition(ind.style, viewport), i)
  {
    seq(ind.totalItems, i requires 0 <= i < ind.totalItems =>
      MakeDot(ind, CenterPosition(ind.style, viewport), i))
  }

  /** Number of selected dots in a list: zero exactly when no dot in the
      list is selected. */
  function CountSelected(dots: seq<DotView>): (n: nat)
    ensures n <= |dots|
    ensures n == 0 <==> forall i :: 0 <= i < |dots| ==> !IsSelected(dots[i])
  {
    if |dots| == 0 then 0
    else CountSelected(dots[..|dots| - 1]) + (if IsSelected(dots[|dots| - 1]) then 1 else 0)
  }

  /** If exactly the dot at position `k` (if any) is selected, the count is
      one when `k` is in range and zero otherwise. */
  lemma {:induction false} CountSelectedOnlyAt(dots: seq<DotView>, k: int)
    requires forall i :: 0 <= i < |dots| ==> (IsSelected(dots[i]) <==> i == k)
    ensures CountSelected(dots) == if 0 <= k < |dots| then 1 else 0
  {
    if |dots| > 0 {
      var prefix := dots[..|dots| - 1];
      assert forall i :: 0 <= i < |prefix| ==> prefix[i] == dots[i];
      CountSelectedOnlyAt(prefix, k);
    }
  }

  /** With a spacing of at least one point, the dot of the current index is
      the only selected one, and no dot is selected when the current index
      is out of range. */
  lemma ExactlyOneSelected(ind: DotPageIndicator, viewport: Size)
    requires ind.totalItems >= 0 && ind.style.dotSpacing >= 1.0
    ensures forall i :: 0 <= i < ind.totalItems ==>
              (IsSelected(Dots(ind, viewport)[i]) <==> i == ind.currentIndex)
    ensures CountSelected(Dots(ind, viewport))
              == if 0 <= ind.currentIndex < ind.totalItems then 1 else 0
  {
    var dots := Dots(ind, viewport);
    var center := CenterPosition(ind.style, viewport);
    forall i | 0 <= i < ind.totalItems
      ensures IsSelected(dots[i]) <==> i == ind.currentIndex
    {
      DotSelectedIff(ind, center, i);
    }
    CountSelectedOnlyAt(dots, ind.currentIndex);
  }

  /** What the indicator hands to the renderer: its frame, the centre
      coordinate measured in that frame, and the rendered dots. */
  datatype IndicatorLayout = IndicatorLayout(frame: Size, center: real, dots: seq<RenderedDot>)

  /** The body of the indicator, with the geometry reader reporting the
      indicator's own frame. */
  function Layout(ind: DotPageIndicator): (r: IndicatorLayout)
    requires ind.totalItems >= 0
    ensures r.frame == FrameSize(ind.style)
    ensures r.center == ind.style.visibleDots as real * ind.style.dotSpacing / 2.0
    ensures |r.dots| == ind.totalItems
    ensures forall i :: 0 <= i < |r.dots| ==>
              ScaleDefined(MakeDot(ind, r.center, i)) &&
              r.dots[i] == Render(MakeDot(ind, r.center, i))
    // A corollary of the previous clause through Render's and MakeDot's
    // contracts, restated for callers.
    ensures forall i :: 0 <= i < |r.dots| ==>
              r.dots[i].offsetX == 0.0 &&
              r.dots[i].offsetY == GetDotPosition(ind, i) &&
              r.dots[i].width == r.dots[i].height == ind.style.dotSize
  {
    var frame := FrameSize(ind.style);
    CenterOfFrame(ind.style);
    var dots := Dots(ind, frame);
    IndicatorLayout(frame, CenterPosition(ind.style, frame),
      seq(|dots|, i requires 0 <= i < |dots| =>
        MadeDotScaleDefined(ind, CenterPosition(ind.style, frame), i);
        Render(dots[i])))
  }

  /** With a spacing of at least one point, the rendered dot of the current
      index carries the selected colour, scale and opacity, and every other
      rendered dot the content colour and a scale and opacity within the
      normal ranges. */
  lemma LayoutHighlightsCurrentDot(ind: DotPageIndicator, i: int)
    requires ind.totalItems >= 0 && ind.style.dotSpacing >= 1.0
    requires 0 <= i < ind.totalItems
    ensures var dot := Layout(ind).dots[i];
      if i == ind.currentIndex then
        dot.fill == ind.style.selectedDotColor &&
        dot.scale == ind.style.selectedDotScale &&
        dot.opacity == ind.style.selectedDotOpacity
      else
        dot.fill == (if ContentAt(ind, i) then ind.style.activeDotColor else ind.style.inactiveDotColor) &&
        ind.style.normalDotScale <= dot.scale <= ind.style.normalDotScale + 0.2 &&
        ind.style.normalDotOpacity <= dot.opacity <= ind.style.normalDotOpacity + 0.4
  {
    var r := Layout(ind);
    DotSelectedIff(ind, r.center, i);
  }

  /** The preview's configuration: ten items, the third current, the
      default style. */
  lemma PreviewScenario(center: real)
    ensures var ind := Create(2, 10);
      GetDotPosition(ind, 0) == 24.0 &&
      GetDotPosition(ind, 2) == 0.0 && IsSelected(MakeDot(ind, center, 2)) &&
      GetDotPosition(ind, 5) == -36.0 && Progress(MakeDot(ind, center, 5)) == 0.0
  {
  }
}
