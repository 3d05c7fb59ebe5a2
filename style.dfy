/** The immutable style record of the dot page indicator, its defaulted
    initialiser and the three named presets. */
module IndicatorStyle {

  /** Axis along which the dots are stacked. */
  datatype Orientation = Vertical | Horizontal

  /** Scroll direction; stored in the style but read by nothing else. */
  datatype ScrollDirection = Natural | Reversed

  /** The colour values the widget names. Colours are never inspected, only
      chosen, so a colour is the expression that produced it. */
  datatype Color =
    | Clear
    | Primary
    | Secondary
    | White
    | Black
    | WithOpacity(base: Color, alpha: real)

  /** A type-erased fill: either a material or a plain colour. */
  datatype ShapeStyle = UltraThinMaterial | ColorFill(color: Color)

  /** One style configuration; every field is set once by Init. */
  datatype DotPageIndicatorStyle = DotPageIndicatorStyle(
    orientation: Orientation,
    scrollDirection: ScrollDirection,
    dotSpacing: real,
    dotSize: real,
    visibleDots: int,
    indicatorWidth: real,
    verticalPadding: real,
    horizontalPadding: real,
    backgroundCornerRadius: real,
    backgroundColor: ShapeStyle,
    selectedDotColor: Color,
    activeDotColor: Color,
    inactiveDotColor: Color,
    selectedDotScale: real,
    normalDotScale: real,
    selectedDotOpacity: real,
    normalDotOpacity: real,
    animationResponse: real,
    animationDampingFraction: real)

  /** The initialiser: every argument is optional, and each one is stored
      unchanged in the field of the same name, without validation. */
  function Init(
    orientation: Orientation := Vertical,
    scrollDirection: ScrollDirection := Natural,
    dotSpacing: real := 12.0,
    dotSize: real := 6.0,
    visibleDots: int := 7,
    indicatorWidth: real := 20.0,
    verticalPadding: real := 8.0,
    horizontalPadding: real := 4.0,
    backgroundCornerRadius: real := 20.0,
    backgroundColor: ShapeStyle := UltraThinMaterial,
    selectedDotColor: Color := Primary,
    activeDotColor: Color := WithOpacity(Primary, 0.4),
    inactiveDotColor: Color := WithOpacity(Secondary, 0.2),
    selectedDotScale: real := 1.4,
    normalDotScale: real := 0.8,
    selectedDotOpacity: real := 1.0,
    normalDotOpacity: real := 0.2,
    animationResponse: real := 0.3,
    animationDampingFraction: real := 0.8
  ): (s: DotPageIndicatorStyle)
    ensures s.orientation == orientation && s.scrollDirection == scrollDirection
    ensures s.dotSpacing == dotSpacing && s.dotSize == dotSize
    ensures s.visibleDots == visibleDots && s.indicatorWidth == indicatorWidth
    ensures s.verticalPadding == verticalPadding && s.horizontalPadding == horizontalPadding
    ensures s.backgroundCornerRadius == backgroundCornerRadius
    ensures s.backgroundColor == backgroundColor
    ensures s.selectedDotColor == selectedDotColor
    ensures s.activeDotColor == activeDotColor
    ensures s.inactiveDotColor == inactiveDotColor
    ensures s.selectedDotScale == selectedDotScale && s.normalDotScale == normalDotScale
    ensures s.selectedDotOpacity == selectedDotOpacity && s.normalDotOpacity == normalDotOpacity
    ensures s.animationResponse == animationResponse
    ensures s.animationDampingFraction == animationDampingFraction
  {
    DotPageIndicatorStyle(
      orientation, scrollDirection, dotSpacing, dotSize, visibleDots,
      indicatorWidth, verticalPadding, horizontalPadding, backgroundCornerRadius,
      backgroundColor, selectedDotColor, activeDotColor, inactiveDotColor,
      selectedDotScale, normalDotScale, selectedDotOpacity, normalDotOpacity,
      animationResponse, animationDampingFraction)
  }

  /** No clamping or validation: every style value, however degenerate, is
      what Init returns when given that value's own fields. */
  lemma InitAcceptsEveryStyle(s: DotPageIndicatorStyle)
    ensures Init(
      s.orientation, s.scrollDirection, s.dotSpacing, s.dotSize, s.visibleDots,
      s.indicatorWidth, s.verticalPadding, s.horizontalPadding,
      s.backgroundCornerRadius, s.backgroundColor, s.selectedDotColor,
      s.activeDotColor, s.inactiveDotColor, s.selectedDotScale,
      s.normalDotScale, s.selectedDotOpacity, s.normalDotOpacity,
      s.animationResponse, s.animationDampingFraction) == s
  {
  }

  /** The `default` preset: Init with no arguments. */
  function Default(): (s: DotPageIndicatorStyle)
    ensures s.orientation == Vertical && s.scrollDirection == Natural
    ensures s.dotSpacing == 12.0 && s.dotSize == 6.0
    ensures s.visibleDots == 7 && s.indicatorWidth == 20.0
    ensures s.verticalPadding == 8.0 && s.horizontalPadding == 4.0
    ensures s.backgroundCornerRadius == 20.0
    ensures s.backgroundColor == UltraThinMaterial
    ensures s.selectedDotColor == Primary
    ensures s.activeDotColor == WithOpacity(Primary, 0.4)
    ensures s.inactiveDotColor == WithOpacity(Secondary, 0.2)
    ensures s.selectedDotScale == 1.4 && s.normalDotScale == 0.8
    ensures s.selectedDotOpacity == 1.0 && s.normalDotOpacity == 0.2
    ensures s.animationResponse == 0.3 && s.animationDampingFraction == 0.8
  {
    Init()
  }

  /** The `minimal` preset: the default style with smaller paddings, a
      smaller corner radius and a clear background. */
  function Minimal(): (s: DotPageIndicatorStyle)
    ensures s == Default().(
      verticalPadding := 4.0,
      horizontalPadding := 2.0,
      backgroundCornerRadius := 10.0,
      backgroundColor := ColorFill(Clear))
  {
    Init(verticalPadding := 4.0, horizontalPadding := 2.0,
         backgroundCornerRadius := 10.0, backgroundColor := ColorFill(Clear))
  }

  /** The `dark` preset: the default style with a translucent black
      background and white dots; no numeric field differs. */
  function Dark(): (s: DotPageIndicatorStyle)
    ensures s == Default().(
      backgroundColor := ColorFill(WithOpacity(Black, 0.6)),
      selectedDotColor := White,
      activeDotColor := WithOpacity(White, 0.6),
      inactiveDotColor := WithOpacity(White, 0.3))
  {
    Init(backgroundColor := ColorFill(WithOpacity(Black, 0.6)),
         selectedDotColor := White,
         activeDotColor := WithOpacity(White, 0.6),
         inactiveDotColor := WithOpacity(White, 0.3))
  }

  /** Every preset is a vertical indicator with natural scroll direction,
      and all three share the dot geometry and the dot scales and opacities. */
  lemma PresetsShareLayout(s: DotPageIndicatorStyle)
    requires s == Default() || s == Minimal() || s == Dark()
    ensures s.orientation == Vertical && s.scrollDirection == Natural
    ensures s.dotSpacing == 12.0 && s.dotSize == 6.0 && s.visibleDots == 7
    ensures s.indicatorWidth == 20.0
    ensures s.selectedDotScale == 1.4 && s.normalDotScale == 0.8
    ensures s.selectedDotOpacity == 1.0 && s.normalDotOpacity == 0.2
  {
  }
}
