# DotPageIndicator in Dafny

A model of the logic inside the SwiftUI dot page indicator: a column of
dots inside a frame that is tall or wide according to the orientation (see
below), one per item of a paged collection, in which the dot of the
current page sits at the centre and is drawn larger and more opaque, and
its neighbours fade out over three dot spacings.

Three modules follow the three core source files, all of which are pure:

- `IndicatorStyle` (`style.dfy`): the immutable style record
  `DotPageIndicatorStyle`, its `Orientation` and `ScrollDirection` enums, the
  initialiser `Init` with the source's default arguments (Dafny default
  parameter values), and the presets `Default`, `Minimal` and `Dark`.
- `DotViews` (`dot_view.dfy`): one dot's inputs (`DotView`) and the values
  derived from them: distance from the centre, selection, progress, colour,
  scale, opacity and the rendered circle.
- `PageIndicator` (`page_indicator.dfy`): the container: the per-index
  offset, the default for the optional content closure, the list of dots
  over `0..<totalItems`, the frame size and the centre coordinate.

`CGFloat` and `Double` are modelled as `real`, `Int` as `int`. Colours and
shape styles are small datatypes that name the expressions the source uses
(`.primary.opacity(0.4)` is `WithOpacity(Primary, 0.4)`); they are only ever
chosen, never computed with. `currentIndex`, which the source reads through
a binding, is a plain field of the `DotPageIndicator` value: no function of
the model maps an indicator to one with a different `currentIndex`, so the
indicator only reads it.

The container passes each dot its centre and offset under the labels
`centerPosition:` and `currentPosition:`
(`Sources/DotPageIndicator/DotPageIndicator.swift:49-50`), while the dot
stores them as `centerY` and `currentY`
(`Sources/DotPageIndicator/DotView.swift:12,15`); the model reads the labels
as those two fields (`MakeDot` fills `centerY` and `currentY`).

Where the source's own comments promise more than its code does, the model
follows the code:

- the comments on `ScrollDirection`
  (`Sources/DotPageIndicator/DotPageIndicatorStyle.swift:13-14`) describe a
  reversed direction running bottom to top or right to left, but
  `getDotPosition` (`Sources/DotPageIndicator/DotPageIndicator.swift:73-76`)
  never reads `scrollDirection`, and the dot's `.offset(y:)`
  (`Sources/DotPageIndicator/DotView.swift:42`) moves it along y in either
  orientation (`OffsetIgnoresScrollDirection`, `RenderIgnoresOrientation`);
- the doc comment on `progress` (`Sources/DotPageIndicator/DotView.swift:30`)
  calls it a value in 0-1, but the code (line 33) only takes `max(0, …)`, so
  for a negative spacing progress exceeds 1 away from the centre, and the
  upper bound is proved for a positive spacing only.

## Model

| member | source | states |
|---|---|---|
| IndicatorStyle.Init | Sources/DotPageIndicator/DotPageIndicatorStyle.swift:75-115 | every argument lands unchanged in the field of the same name; the default arguments are those of the initialiser |
| IndicatorStyle.InitAcceptsEveryStyle | Sources/DotPageIndicator/DotPageIndicatorStyle.swift:96-114 | nothing is validated or clamped: every style value is what the initialiser makes of its own fields |
| IndicatorStyle.Default | Sources/DotPageIndicator/DotPageIndicatorStyle.swift:76-121 | the `default` preset (lines 119-121) is the argument-less initialiser, so with the default arguments of lines 76-94 it is vertical, natural, spacing 12, size 6, 7 visible dots, width 20, paddings 8/4, radius 20, scales 1.4/0.8, opacities 1.0/0.2, animation 0.3/0.8, with the default colours |
| IndicatorStyle.Minimal | Sources/DotPageIndicator/DotPageIndicatorStyle.swift:125-132 | the minimal preset equals the default except vertical padding 4, horizontal padding 2, corner radius 10 and a clear background |
| IndicatorStyle.Dark | Sources/DotPageIndicator/DotPageIndicatorStyle.swift:136-143 | the dark preset equals the default except the background and the three dot colours; no numeric field differs |
| IndicatorStyle.PresetsShareLayout | Sources/DotPageIndicator/DotPageIndicatorStyle.swift:119-143 | all three presets are vertical with natural scroll direction and share the dot geometry, scales and opacities |
| DotViews.DistanceFromCenter | Sources/DotPageIndicator/DotView.swift:21-23 | the distance is non-negative and equals the absolute offset whatever the centre coordinate |
| DotViews.IsSelected | Sources/DotPageIndicator/DotView.swift:26-28 | a dot is selected when its distance from the centre is strictly below 1 |
| DotViews.IsSelectedIff | Sources/DotPageIndicator/DotView.swift:26-28 | a dot is selected exactly when its offset lies strictly between -1 and 1 |
| DotViews.Progress | Sources/DotPageIndicator/DotView.swift:31-34 | progress is never negative; it is 1 at the centre; for a positive spacing it is at most 1 and is 0 exactly when the distance reaches three spacings |
| DotViews.ProgressAboveOneForNegativeSpacing | Sources/DotPageIndicator/DotView.swift:30-34 | despite the "(0-1)" doc comment, a negative spacing gives progress above 1 at every non-zero offset, since only `max(0, …)` is applied |
| DotViews.ProgressNonIncreasing | Sources/DotPageIndicator/DotView.swift:31-34 | for a positive spacing, a dot further from the centre never has a larger progress |
| DotViews.DotColor | Sources/DotPageIndicator/DotView.swift:46-50 | an empty dot is clear; a visible selected dot takes the selected colour; a visible unselected dot takes the active colour with content and the inactive colour without |
| DotViews.ScaleEffect | Sources/DotPageIndicator/DotView.swift:53-57 | an empty dot has scale 0, a visible selected dot the selected scale; for a positive spacing a visible unselected dot's scale lies in [normal, normal + 0.2] and equals the normal scale exactly from three spacings out |
| DotViews.Opacity | Sources/DotPageIndicator/DotView.swift:60-64 | an empty dot has opacity 0, a visible selected dot the selected opacity; for a positive spacing a visible unselected dot's opacity lies in [normal, normal + 0.4] and equals the normal opacity exactly from three spacings out |
| DotViews.ScaleAndOpacityMoveTogether | Sources/DotPageIndicator/DotView.swift:53-64 | for a visible unselected dot the opacity gain over normal is twice the scale gain over normal |
| DotViews.EmptyDotInvisible | Sources/DotPageIndicator/DotView.swift:46-64 | an empty dot is clear with scale 0 and opacity 0, whatever its selection or content |
| DotViews.SelectedIgnoresContent | Sources/DotPageIndicator/DotView.swift:46-64 | a visible selected dot has the selected colour, scale and opacity whether or not its item has content |
| DotViews.Render | Sources/DotPageIndicator/DotView.swift:36-43 | the circle is dotSize square with the derived fill, scale and opacity, offset by the dot's offset along y and not at all along x |
| DotViews.RenderIgnoresOrientation | Sources/DotPageIndicator/DotView.swift:42 | changing the orientation changes nothing about a rendered dot |
| PageIndicator.Create | Sources/DotPageIndicator/DotPageIndicator.swift:26-36 | the arguments are stored unchanged; the style defaults to the default preset and the content closure to none |
| PageIndicator.ContentAt | Sources/DotPageIndicator/DotPageIndicator.swift:47 | without a content closure every item has content; with one, the closure decides |
| PageIndicator.GetDotPosition | Sources/DotPageIndicator/DotPageIndicator.swift:73-76 | the current index's dot has offset 0; for a positive spacing earlier indices lie on the positive side and later ones on the negative side |
| PageIndicator.ConsecutiveOffsets | Sources/DotPageIndicator/DotPageIndicator.swift:74 | the offsets of consecutive indices differ by exactly one spacing |
| PageIndicator.OffsetIgnoresScrollDirection | Sources/DotPageIndicator/DotPageIndicator.swift:73-76 | the scroll direction does not affect any offset |
| PageIndicator.FrameSize | Sources/DotPageIndicator/DotPageIndicator.swift:60-63 | vertical: width is indicatorWidth and height visibleDots times spacing; horizontal: the two are swapped |
| PageIndicator.FrameSizeSwaps | Sources/DotPageIndicator/DotPageIndicator.swift:61-62 | the horizontal frame is the vertical frame with width and height exchanged |
| PageIndicator.CenterPosition | Sources/DotPageIndicator/DotPageIndicator.swift:40-42 | the centre is half the viewport's height when vertical and half its width when horizontal |
| PageIndicator.CenterOfFrame | Sources/DotPageIndicator/DotPageIndicator.swift:40-42 | measured in the indicator's own frame the centre is half of visibleDots times spacing in both orientations |
| PageIndicator.MakeDot | Sources/DotPageIndicator/DotPageIndicator.swift:46-52 | each dot is built non-empty, with the container's centre, its own offset, the container's style and its item's content flag |
| PageIndicator.MadeDotScaleDefined | Sources/DotPageIndicator/DotPageIndicator.swift:46-52 | a dot built by the container never needs progress with a zero spacing, because a zero spacing puts every dot at offset 0, which is selected |
| PageIndicator.DotSelectedIff | Sources/DotPageIndicator/DotPageIndicator.swift:73-76 | with a spacing of at least 1, a dot is selected exactly when its index is the current index |
| PageIndicator.Dots | Sources/DotPageIndicator/DotPageIndicator.swift:45-52 | exactly totalItems dots are built, for indices 0 to totalItems - 1 in order, none for a count of 0 |
| PageIndicator.CountSelected | Sources/DotPageIndicator/DotPageIndicator.swift:45-52 | counting helper over the dots the container builds: the number of selected dots never exceeds the number of dots, and is zero exactly when no dot is selected |
| PageIndicator.CountSelectedOnlyAt | Sources/DotPageIndicator/DotPageIndicator.swift:45-52 | counting helper: when only position k can be selected, the count is 1 if k is in range and 0 otherwise |
| PageIndicator.ExactlyOneSelected | Sources/DotPageIndicator/DotPageIndicator.swift:45-52 | with a spacing of at least 1, exactly one dot is selected when the current index is in range and none otherwise, and it is the current index's dot |
| PageIndicator.Layout | Sources/DotPageIndicator/DotPageIndicator.swift:38-71 | the body's frame is the style's frame, the centre is half the visible extent, and there is one rendered dot per item, in index order, each the rendering of the dot the container builds for that index (dotSize square, offset along y by its position) |
| PageIndicator.LayoutHighlightsCurrentDot | Sources/DotPageIndicator/DotPageIndicator.swift:45-52 | with a spacing of at least 1, the current index's rendered dot has the selected colour, scale and opacity, and every other rendered dot the active or inactive colour by content, a scale in [normal, normal + 0.2] and an opacity in [normal, normal + 0.4] |
| PageIndicator.PreviewScenario | Sources/DotPageIndicator/DotPageIndicator.swift:81-82 | with ten items, index 2 current and the default style, dot 0 sits at 24, dot 2 at 0 and selected, dot 5 at -36 with progress 0 |

## Left out

- Rendering and layout by SwiftUI (`GeometryReader`, `ZStack`, `Circle`, `.frame`, `.clipped`, `.padding`, `.background`): framework calls; only the numbers passed to them are modelled, and the geometry reader is taken to report the indicator's own frame.
- The paddings, corner radius and background fill are stored in the style but their effect on the drawn view is not modelled, being framework layout.
- The spring animation keyed on `currentIndex`: time-based easing done by the framework; `animationResponse` and `animationDampingFraction` are only stored.
- The `dotPageIndicator(currentIndex:totalItems:style:hasContent:alignment:)` overlay helper, an extension on `View` in `Sources/DotPageIndicator/Extensions/View+DotPageIndicator.swift`: pure view composition with no logic of its own.
- The `#Preview` block and its Previous/Next buttons: demo UI; only its configuration appears, in `PreviewScenario`.
- `eraseToAnyShapeStyle`: a wrapper over a framework type.
- Colour values: modelled by the expression that names them, compared only by which field is chosen.
- Progress: requires a non-zero spacing; the floating-point result of dividing by zero is not modelled, nor rounding in general, since everything is over `real`. In Swift a visible, unselected dot at zero spacing gets `max(0, 1 - ∞) = 0` as progress, hence the normal scale and opacity; the container never builds such a dot (MadeDotScaleDefined).
- ScaleEffect: inherits Progress's exclusion through ScaleDefined, so a visible, unselected dot at zero spacing is outside its precondition.
- Opacity: inherits Progress's exclusion through ScaleDefined, as ScaleEffect does.
- Render: inherits Progress's exclusion through ScaleDefined, as ScaleEffect does.
- RenderIgnoresOrientation: inherits Progress's exclusion through ScaleDefined, as ScaleEffect does.
- GetDotPosition: does not model the trap Swift raises when `currentIndex - index` overflows a 64-bit `Int`, nor the rounding of its conversion to `CGFloat`.
- Dots: a negative `totalItems` is excluded by its precondition, because the range `0..<totalItems` traps in Swift.
