/** One dot of the indicator: its visual state derived from its offset. */
module DotViews {
  import opened IndicatorStyle

  function Abs(x: real): (r: real)
    ensures r >= 0.0 && (r == x || r == -x)
  {
    if x < 0.0 then -x else x
  }

  function Max(a: real, b: real): (r: real)
    ensures r >= a && r >= b && (r == a || r == b)
  {
    if a < b then b else a
  }

  /** The inputs of one dot: whether its item has content, whether it is
      drawn empty, the container's centre coordinate and the dot's signed
      offset from that centre. */
  datatype DotView = DotView(
    hasContent: bool,
    isEmpty: bool,
    centerY: real,
    currentY: real,
    style: DotPageIndicatorStyle)

  /** Distance from the centre; the centre term cancels, leaving the size
      of the offset. */
  function DistanceFromCenter(d: DotView): (r: real)
    ensures r >= 0.0
    ensures r == Abs(d.currentY)
  {
    Abs(d.centerY - (d.currentY + d.centerY))
  }

  /** A dot is selected when it lies less than one point from the centre. */
  predicate IsSelected(d: DotView)
  {
    DistanceFromCenter(d) < 1.0
  }

  /** Selection depends on the offset alone, strictly within one point. */
  lemma IsSelectedIff(d: DotView)
    ensures IsSelected(d) <==> -1.0 < d.currentY < 1.0
  {
  }

  /** Closeness to the centre: 1 at the centre, falling linearly to 0 at
      three dot spacings and staying 0 beyond. */
  function Progress(d: DotView): (r: real)
    requires d.style.dotSpacing != 0.0
    ensures r >= 0.0
    ensures d.currentY == 0.0 ==> r == 1.0
    ensures d.style.dotSpacing > 0.0 ==> r <= 1.0
    ensures d.style.dotSpacing > 0.0 ==>
              (r == 0.0 <==> DistanceFromCenter(d) >= d.style.dotSpacing * 3.0)
  {
    var maxDistance := d.style.dotSpacing * 3.0;
    RatioBounds(DistanceFromCenter(d), maxDistance);
    Max(0.0, 1.0 - DistanceFromCenter(d) / maxDistance)
  }

  /** A non-negative distance over a positive maximum is non-negative, and
      reaches 1 exactly when the distance reaches the maximum. */
  lemma RatioBounds(x: real, m: real)
    requires m != 0.0
    ensures x >= 0.0 && m > 0.0 ==> x / m >= 0.0 && (x / m >= 1.0 <==> x >= m)
  {
  }

  /** Only the lower bound is enforced: with a negative spacing every dot
      off the centre has progress above 1. */
  lemma ProgressAboveOneForNegativeSpacing(d: DotView)
    requires d.style.dotSpacing < 0.0 && d.currentY != 0.0
    ensures Progress(d) > 1.0
  {
    assert DistanceFromCenter(d) > 0.0;
    assert DistanceFromCenter(d) / (d.style.dotSpacing * 3.0) < 0.0;
  }

  /** Moving a dot further from the centre never raises its progress. */
  lemma ProgressNonIncreasing(a: DotView, b: DotView)
    requires a.style.dotSpacing == b.style.dotSpacing > 0.0
    requires DistanceFromCenter(a) <= DistanceFromCenter(b)
    ensures Progress(a) >= Progress(b)
  {
    var m := a.style.dotSpacing * 3.0;
    var da, db := DistanceFromCenter(a), DistanceFromCenter(b);
    assert db / m - da / m == (db - da) / m;
    assert (db - da) / m >= 0.0;
  }

  /** The fill colour: clear when empty, else the selected colour, else the
      active or inactive colour according to content. */
  function DotColor(d: DotView): (r: Color)
    ensures d.isEmpty ==> r == Clear
    ensures !d.isEmpty && IsSelected(d) ==> r == d.style.selectedDotColor
    ensures !d.isEmpty && !IsSelected(d) && d.hasContent ==> r == d.style.activeDotColor
    ensures !d.isEmpty && !IsSelected(d) && !d.hasContent ==> r == d.style.inactiveDotColor
  {
    if d.isEmpty then Clear
    else if IsSelected(d) then d.style.selectedDotColor
    else if d.hasContent then d.style.activeDotColor
    else d.style.inactiveDotColor
  }

  /** Progress is only evaluated for a visible, unselected dot. */
  predicate ScaleDefined(d: DotView)
  {
    d.isEmpty || IsSelected(d) || d.style.dotSpacing != 0.0
  }

  /** The scale factor: 0 when empty, the selected scale when selected, and
      otherwise the normal scale raised by up to 0.2 near the centre. */
  function ScaleEffect(d: DotView): (r: real)
    requires ScaleDefined(d)
    ensures d.isEmpty ==> r == 0.0
    ensures !d.isEmpty && IsSelected(d) ==> r == d.style.selectedDotScale
    ensures !d.isEmpty && !IsSelected(d) && d.style.dotSpacing > 0.0 ==>
              d.style.normalDotScale <= r <= d.style.normalDotScale + 0.2
    ensures !d.isEmpty && !IsSelected(d) && d.style.dotSpacing > 0.0 ==>
              (r == d.style.normalDotScale <==>
               DistanceFromCenter(d) >= d.style.dotSpacing * 3.0)
  {
    if d.isEmpty then 0.0
    else if IsSelected(d) then d.style.selectedDotScale
    else d.style.normalDotScale + Progress(d) * 0.2
  }

  /** The opacity: 0 when empty, the selected opacity when selected, and
      otherwise the normal opacity raised by up to 0.4 near the centre. */
  function Opacity(d: DotView): (r: real)
    requires ScaleDefined(d)
    ensures d.isEmpty ==> r == 0.0
    ensures !d.isEmpty && IsSelected(d) ==> r == d.style.selectedDotOpacity
    ensures !d.isEmpty && !IsSelected(d) && d.style.dotSpacing > 0.0 ==>
              d.style.normalDotOpacity <= r <= d.style.normalDotOpacity + 0.4
    ensures !d.isEmpty && !IsSelected(d) && d.style.dotSpacing > 0.0 ==>
              (r == d.style.normalDotOpacity <==>
               DistanceFromCenter(d) >= d.style.dotSpacing * 3.0)
  {
    if d.isEmpty then 0.0
    else if IsSelected(d) then d.style.selectedDotOpacity
    else d.style.normalDotOpacity + Progress(d) * 0.4
  }

  /** An unselected visible dot's scale and opacity rise together: the
      opacity gain is always twice the scale gain. */
  lemma ScaleAndOpacityMoveTogether(d: DotView)
    requires !d.isEmpty && !IsSelected(d) && d.style.dotSpacing != 0.0
    ensures Opacity(d) - d.style.normalDotOpacity
              == 2.0 * (ScaleEffect(d) - d.style.normalDotScale)
  {
  }

  /** An empty dot is invisible whatever its offset and content. */
  lemma EmptyDotInvisible(d: DotView)
    requires d.isEmpty
    ensures DotColor(d) == Clear && ScaleEffect(d) == 0.0 && Opacity(d) == 0.0
  {
  }

  /** Selection dominates content: a visible selected dot looks the same
      whether or not its item has content. */
  lemma SelectedIgnoresContent(d: DotView, hasContent: bool)
    requires !d.isEmpty && IsSelected(d)
    ensures var e := d.(hasContent := hasContent);
      DotColor(e) == DotColor(d) == d.style.selectedDotColor &&
      ScaleEffect(e) == ScaleEffect(d) == d.style.selectedDotScale &&
      Opacity(e) == Opacity(d) == d.style.selectedDotOpacity
  {
  }

  /** What a dot hands to the renderer: a circle of the dot size with this
      fill, scale and opacity, displaced by (offsetX, offsetY). */
  datatype RenderedDot = RenderedDot(
    fill: Color,
    width: real,
    height: real,
    scale: real,
    opacity: real,
    offsetX: real,
    offsetY: real)

  /** The body of a dot. The offset always moves the dot along y, whatever
      the style's orientation. */
  function Render(d: DotView): (r: RenderedDot)
    requires ScaleDefined(d)
    ensures r.width == r.height == d.style.dotSize
    ensures r.offsetX == 0.0 && r.offsetY == d.currentY
    ensures r.fill == DotColor(d) && r.scale == ScaleEffect(d) && r.opacity == Opacity(d)
  {
    RenderedDot(DotColor(d), d.style.dotSize, d.style.dotSize,
                ScaleEffect(d), Opacity(d), 0.0, d.currentY)
  }

  /** Orientation does not move a dot off the y axis. */
  lemma RenderIgnoresOrientation(d: DotView, o: Orientation)
    requires ScaleDefined(d)
    ensures Render(d.(style := d.style.(orientation := o))) == Render(d)
  {
  }
}
