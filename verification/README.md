# BarChart axis geometry

A model of the coordinate-system overlay of the BarChart SwiftUI package: where the
category (X) axis and the value (Y) axis put their gridlines and labels. The model
covers `CoordinateSystemView`, `XAxisView` and `YAxisView` in
`Sources/BarChart/CoordinateSystemView.swift`. Every view computation becomes a pure
function over exact `real` coordinates.

- **Category axis.** Each visible label's entry is looked up by equality in the full
  data, and the first match wins. The layout's `barCentre` for that full-data index is
  the x of a vertical gridline. The gridline runs from the top of the frame to the
  bottom. The label's horizontal offset is that x minus half the frame width.
- **Value axis.** A label value maps to the pixel height `(value − scaledMin) × pixelsRatio`.
  The gridline at that height runs from the left edge to the label column. The label's
  vertical offset is `(height − y) − height/2`. The gridline for value 0 is solid;
  all others use the configured dash.
- **Visibility.** The overlay draws both axes when the Y axis has formatted labels,
  and nothing otherwise.

The collaborators the view calls are fields of the `XAxis` and `YAxis` datatypes.
Their code is not part of this model.

| collaborator in the source | in the model |
|---|---|
| `xAxis.data` | `XAxis.data: seq<E>` |
| `xAxis.chartEntry(at:)` | `XAxis.chartEntry: nat -> Option<E>` |
| `xAxis.layout?.barCentre(at:)` | `XAxis.layout: Option<BarLayout>`, `BarLayout.barCentre: nat -> real` |
| `formattedLabels()` | `labels: seq<string>` |
| `yAxis.scaler?.scaledMin` | `YAxis.scaledMin: Option<real>` |
| `yAxis.pixelsRatio()` | `YAxis.pixelsRatio: Option<real>` |
| `yAxis.labelValue(at:)` | `YAxis.labelValue: nat -> Option<real>` |
| `maxLabelWidth`, `gridlineDash` | fields of the same names |

Modules: `Optional` (the `Option` type), `Geometry` (points, sizes, segments),
`Lookup` (first-match search), `XAxisGeometry`, `YAxisGeometry`, `CoordinateSystem`
(the overlay), and `Scenarios` (worked instances on concrete charts).

Two behaviours of the source that the model keeps as written:

- `horizontalGridlineY` has no degenerate-range outcome. A missing scaler, ratio or
  label value gives gridline height 0
  (`Sources/BarChart/CoordinateSystemView.swift:132-134`). The model does the same.
- `barCentre` receives the full-data index that `firstIndex(where:)` finds for the
  label's entry, not the visible index
  (`Sources/BarChart/CoordinateSystemView.swift:94-96`). The model does the same;
  `XAxisGeometry.GridlineUsesFullDataIndex` and
  `Scenarios.WindowedLabelUsesFullDataPosition` state it.

## Model

| member | source | states |
|---|---|---|
| CoordinateSystem.CoordinateSystemBody | Sources/BarChart/CoordinateSystemView.swift:19-29 | both axes are drawn exactly when the Y axis has formatted labels, otherwise nothing; when drawn, each axis has one mark per its own formatted label |
| Lookup.FirstIndex | Sources/BarChart/CoordinateSystemView.swift:95 | the search answers nothing exactly when the entry does not occur; otherwise it answers a position holding the entry, with no earlier position holding it |
| Lookup.FirstIndexIsUnique | Sources/BarChart/CoordinateSystemView.swift:95 | any position that is the first occurrence is the one the search answers |
| Lookup.FirstIndexOfDistinct | Sources/BarChart/CoordinateSystemView.swift:95 | in data without repetitions, searching for the entry at position k answers k |
| XAxisGeometry.FullIndex | Sources/BarChart/CoordinateSystemView.swift:94-95 | the full-data index of visible label i is present exactly when label i has an entry and that entry occurs in the full data; it is then the entry's first occurrence |
| XAxisGeometry.VerticalGridlineX | Sources/BarChart/CoordinateSystemView.swift:93-98 | the gridline x is the bar centre at the first full-data occurrence of the label's entry; it is 0 when there is no layout, no entry, or the entry is not in the data |
| XAxisGeometry.VerticalGridlinePoints | Sources/BarChart/CoordinateSystemView.swift:100-103 | the gridline is vertical at the gridline x and spans y = 0 to the frame height |
| XAxisGeometry.XLabelHorizontalOffset | Sources/BarChart/CoordinateSystemView.swift:87-91 | the label offset plus half the frame width is the gridline's x, so the label is centred under its gridline |
| XAxisGeometry.XMarksUpTo | Sources/BarChart/CoordinateSystemView.swift:72-84 | building marks for indices 0..n-1 yields n marks, the i-th for index i |
| XAxisGeometry.XAxisMarks | Sources/BarChart/CoordinateSystemView.swift:71-85 | one mark per formatted label in order: label text i, the configured dash, a vertical gridline at the label's bar from top to bottom, the label centred under it and pushed down by the caller's label offset |
| XAxisGeometry.XLabelOffsetOnMiss | Sources/BarChart/CoordinateSystemView.swift:87-98 | with no layout, no entry, or an entry missing from the data, the gridline falls back to x = 0 and the label to minus half the frame width |
| XAxisGeometry.GridlineUsesFullDataIndex | Sources/BarChart/CoordinateSystemView.swift:93-98 | for a windowed view of data without repetitions, visible label j's gridline is the bar centre at j's full-data position `positions[j]`, which need not be j |
| XAxisGeometry.GridlinesIncreaseAcrossVisibleLabels | Sources/BarChart/CoordinateSystemView.swift:93-98 | if the visible entries keep the full data's order and bar centres increase with the index, the visible gridlines run strictly left to right |
| XAxisGeometry.EqualEntriesShareGridline | Sources/BarChart/CoordinateSystemView.swift:94-95 | two visible labels with equal entries get the same gridline |
| YAxisGeometry.HorizontalGridlineY | Sources/BarChart/CoordinateSystemView.swift:131-136 | the gridline height is the label value's distance above the chart minimum times the pixel ratio; it is 0 when the minimum, the ratio or the value is missing |
| YAxisGeometry.HorizontalGridlinePointsAt | Sources/BarChart/CoordinateSystemView.swift:143-146 | a gridline at height y is horizontal at y and runs from x = 0 to the frame width less the label column |
| YAxisGeometry.HorizontalGridlinePoints | Sources/BarChart/CoordinateSystemView.swift:138-141 | label i's gridline is horizontal at label i's height and stops where the label column begins |
| YAxisGeometry.GridlineDash | Sources/BarChart/CoordinateSystemView.swift:114 | the dash is either empty or the configured one; it is empty exactly when the label value is present and 0, or the configured dash is itself empty; a missing value keeps the configured dash |
| YAxisGeometry.YLabelVerticalOffset | Sources/BarChart/CoordinateSystemView.swift:125-129 | the label offset is half the frame height minus the gridline height, which puts the label level with its gridline |
| YAxisGeometry.YMarksUpTo | Sources/BarChart/CoordinateSystemView.swift:111-122 | building marks for indices 0..n-1 yields n marks, the i-th for index i |
| YAxisGeometry.YAxisMarks | Sources/BarChart/CoordinateSystemView.swift:110-123 | one mark per formatted label in order: label text i, a horizontal gridline at label i's height up to the label column, the label level with it, and label i's dash: solid exactly at value 0, the configured dash otherwise |
| YAxisGeometry.GridlineAtChartMinimum | Sources/BarChart/CoordinateSystemView.swift:131-136 | a label equal to the chart minimum has its gridline at height 0 |
| YAxisGeometry.GridlineYRoundTrip | Sources/BarChart/CoordinateSystemView.swift:131-136 | with a non-zero ratio, minimum + height / ratio gives back the label value |
| YAxisGeometry.GridlineYMonotone | Sources/BarChart/CoordinateSystemView.swift:131-136 | with a positive ratio, a larger label value gets a gridline at least as high |
| YAxisGeometry.YLabelCentredAtMidHeight | Sources/BarChart/CoordinateSystemView.swift:125-129 | a gridline at half the frame height gives the label offset 0 |
| YAxisGeometry.YLabelAtBottomEdge | Sources/BarChart/CoordinateSystemView.swift:125-136 | a gridline at height 0, which includes every missing-input case, gives the label offset half the frame height |
| YAxisGeometry.YLabelsRiseWithValue | Sources/BarChart/CoordinateSystemView.swift:125-136 | with a positive ratio, a larger value's label has a smaller downward offset, so the flip keeps labels in value order |
| Scenarios.WindowedLabelUsesFullDataPosition | Sources/BarChart/CoordinateSystemView.swift:93-98 | full data A..E with B and D visible: label 1 (D) is at bar 3's centre, 262.5, not at bar 1's |
| Scenarios.CategoryLabelOffset | Sources/BarChart/CoordinateSystemView.swift:87-91 | in a 300-wide frame, the label of the bar centred at 187.5 has offset 37.5 |
| Scenarios.OnlyZeroGridlineIsSolid | Sources/BarChart/CoordinateSystemView.swift:111-136 | values −10, 0, 10, 20 over minimum −10 at ratio 3 give gridlines at 0, 30, 60, 90, and only value 0's gridline is solid |
| Scenarios.MidValueLabelIsCentred | Sources/BarChart/CoordinateSystemView.swift:125-136 | in a 200-high frame, minimum 0 and ratio 2, value 50 has its gridline at 100 and its label offset 0 |

## Left out

- `Sources/BarChart/BarChartCell.swift` is not part of this model. It only chooses a gradient or colour fill, sets a frame width and applies a fixed flip, so it has no geometry to state.
- SwiftUI rendering is out of scope. This covers `ZStack`/`VStack`/`HStack`/`ForEach` layout, `Path` drawing, `StrokeStyle` (line width 1.5, round cap), the label font and colour, and the gridline colour. The model keeps only the computed points, dashes, label texts and offsets.
- The `isInverted` rotation of gridlines (180° about the centre and about the y-axis) is a rendering transform. It is left out with the rest of the drawing.
- The internals of `XAxis`, `YAxis`, the scaler, the bar layout, `pixelsRatio()` and the label formatter are not part of this model. They are fields of the axis datatypes, and no definition of them is assumed.
- The layout's `barCentre(at:)` is modelled as answering for every index once a layout exists. Only the layout itself is optional.
- `CGFloat` and `Double` are floating point. The model computes with exact reals, so rounding, NaN and infinities are not modelled.
- The `@ObservedObject` re-rendering when the axis objects change is left out. Each function is one evaluation over one snapshot of the axes and the frame.
