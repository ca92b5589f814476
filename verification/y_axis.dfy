/** The value (Y) axis: one horizontal gridline per formatted label, at the pixel
    height of the label's value above the chart minimum, with the label beside it.

    Gridline y values are in the gridline's own coordinates, where y grows with the
    value. The renderer mirrors each gridline vertically before drawing it, so on
    screen a larger y is higher up. That mirroring is a rendering transform and is
    not modelled here; label offsets are screen offsets from the frame's centre,
    growing downward. */
module YAxisGeometry {
  import opened Optional
  import opened Geometry

  /** What the Y axis object supplies to the view.
      `scaledMin` is the scaler's lower bound (absent without a scaler);
      `pixelsRatio` is pixels per unit of value (absent when the axis cannot
      compute it); `labelValue(i)` is the value behind label `i` (absent for an
      index it does not know); `labels` are the formatted labels;
      `maxLabelWidth` is the width reserved for the label column. */
  datatype YAxis = YAxis(
    scaledMin: Option<real>,
    pixelsRatio: Option<real>,
    labelValue: nat -> Option<real>,
    labels: seq<string>,
    maxLabelWidth: real,
    gridlineDash: seq<real>)

  /** All three inputs of the value-to-pixel map are available for label `i`. */
  predicate Scalable(ay: YAxis, i: nat) {
    ay.scaledMin.Some? && ay.pixelsRatio.Some? && ay.labelValue(i).Some?
  }

  /** The pixel height of label `i`'s gridline above the chart minimum: the
      label value's distance from the minimum, in pixels; 0 when the minimum,
      the ratio or the value is missing. */
  function HorizontalGridlineY(ay: YAxis, i: nat): (y: real)
    ensures Scalable(ay, i) ==>
              y == (ay.labelValue(i).value - ay.scaledMin.value) * ay.pixelsRatio.value
    ensures !Scalable(ay, i) ==> y == 0.0
  {
    match (ay.scaledMin, ay.pixelsRatio, ay.labelValue(i))
    case (Some(chartMin), Some(ratio), Some(value)) => (value - chartMin) * ratio
    case _ => 0.0
  }

  /** A gridline at height `y`: from the left edge to where the label column begins. */
  function HorizontalGridlinePointsAt(ay: YAxis, frame: Size, y: real): (s: Segment)
    ensures s.IsHorizontal() && s.start.y == y
    ensures s.start.x == 0.0
    ensures s.end.x + ay.maxLabelWidth == frame.width
  {
    Segment(Point(0.0, y), Point(frame.width - ay.maxLabelWidth, y))
  }

  /** The gridline of label `i`: horizontal at the label's pixel height, stopping
      short of the label column. */
  function HorizontalGridlinePoints(ay: YAxis, frame: Size, i: nat): (s: Segment)
    ensures s.IsHorizontal() && s.start.y == HorizontalGridlineY(ay, i)
    ensures s.start.x == 0.0
    ensures s.end.x + ay.maxLabelWidth == frame.width
  {
    HorizontalGridlinePointsAt(ay, frame, HorizontalGridlineY(ay, i))
  }

  /** The baseline at value 0 is drawn solid; every other gridline, including
      one whose value is missing, uses the configured dash. */
  function GridlineDash(ay: YAxis, i: nat): (d: seq<real>)
    ensures d == [] || d == ay.gridlineDash
    ensures d == [] <==> ay.labelValue(i) == Some(0.0) || ay.gridlineDash == []
  {
    if ay.labelValue(i) == Some(0.0) then [] else ay.gridlineDash
  }

  /** The label's vertical offset from the frame's centre. The gridline's y is
      mirrored on screen while label offsets grow downward from the centre, so the
      height is flipped and re-centred: the label sits level with its mirrored
      gridline. */
  function YLabelVerticalOffset(ay: YAxis, frame: Size, i: nat): (dy: real)
    ensures dy == frame.height / 2.0 - HorizontalGridlinePoints(ay, frame, i).end.y
  {
    var gridlineY := HorizontalGridlineY(ay, i);
    (frame.height - gridlineY) - frame.height / 2.0
  }

  /** Everything the view draws for one value label. */
  datatype YMark = YMark(gridline: Segment, dash: seq<real>, text: string, labelOffsetY: real)

  function YMarkAt(ay: YAxis, frame: Size, i: nat): YMark
    requires i < |ay.labels|
  {
    YMark(HorizontalGridlinePoints(ay, frame, i),
          GridlineDash(ay, i),
          ay.labels[i],
          YLabelVerticalOffset(ay, frame, i))
  }

  /** The marks for labels 0 .. n-1, built in index order. */
  function YMarksUpTo(ay: YAxis, frame: Size, n: nat): (ms: seq<YMark>)
    requires n <= |ay.labels|
    ensures |ms| == n
    ensures forall i :: 0 <= i < n ==> ms[i] == YMarkAt(ay, frame, i)
  {
    if n == 0 then []
    else YMarksUpTo(ay, frame, n - 1) + [YMarkAt(ay, frame, n - 1)]
  }

  /** One mark per formatted label, in label order: the i-th carries the i-th
      label level with a horizontal gridline at the label value's pixel height,
      solid exactly at value 0. */
  function YAxisMarks(ay: YAxis, frame: Size): (ms: seq<YMark>)
    ensures |ms| == |ay.labels|
    ensures forall i :: 0 <= i < |ms| ==>
              && ms[i].text == ay.labels[i]
              && ms[i].gridline.IsHorizontal()
              && ms[i].gridline.start.y == HorizontalGridlineY(ay, i)
              && ms[i].gridline.start.x == 0.0
              && ms[i].gridline.end.x + ay.maxLabelWidth == frame.width
              && ms[i].labelOffsetY == frame.height / 2.0 - ms[i].gridline.start.y
              && ms[i].dash == GridlineDash(ay, i)
              && (ms[i].dash == [] <==> ay.labelValue(i) == Some(0.0) || ay.gridlineDash == [])
  {
    YMarksUpTo(ay, frame, |ay.labels|)
  }

  /** A label at the chart minimum sits on the bottom gridline, y = 0. */
  lemma GridlineAtChartMinimum(ay: YAxis, i: nat)
    requires Scalable(ay, i)
    requires ay.labelValue(i).value == ay.scaledMin.value
    ensures HorizontalGridlineY(ay, i) == 0.0
  {
  }

  /** With a non-zero ratio the label value can be read back off its gridline. */
  lemma GridlineYRoundTrip(ay: YAxis, i: nat)
    requires Scalable(ay, i)
    requires ay.pixelsRatio.value != 0.0
    ensures ay.scaledMin.value + HorizontalGridlineY(ay, i) / ay.pixelsRatio.value
            == ay.labelValue(i).value
  {
  }

  /** With a positive ratio, a larger value gets a higher gridline. */
  lemma GridlineYMonotone(ay: YAxis, i: nat, j: nat)
    requires Scalable(ay, i) && Scalable(ay, j)
    requires ay.pixelsRatio.value > 0.0
    requires ay.labelValue(i).value <= ay.labelValue(j).value
    ensures HorizontalGridlineY(ay, i) <= HorizontalGridlineY(ay, j)
  {
  }

  /** A gridline at mid-height puts its label at the frame's centre. */
  lemma YLabelCentredAtMidHeight(ay: YAxis, frame: Size, i: nat)
    requires HorizontalGridlineY(ay, i) == frame.height / 2.0
    ensures YLabelVerticalOffset(ay, frame, i) == 0.0
  {
  }

  /** A gridline at y = 0, which includes every label whose value, minimum or
      ratio is missing, puts its label half a frame below the centre. */
  lemma YLabelAtBottomEdge(ay: YAxis, frame: Size, i: nat)
    requires HorizontalGridlineY(ay, i) == 0.0
    ensures YLabelVerticalOffset(ay, frame, i) == frame.height / 2.0
  {
  }

  /** With a positive ratio, a larger value's label sits higher on screen, that is
      at a smaller downward offset: the flip keeps labels in value order. */
  lemma YLabelsRiseWithValue(ay: YAxis, frame: Size, i: nat, j: nat)
    requires Scalable(ay, i) && Scalable(ay, j)
    requires ay.pixelsRatio.value > 0.0
    requires ay.labelValue(i).value <= ay.labelValue(j).value
    ensures YLabelVerticalOffset(ay, frame, j) <= YLabelVerticalOffset(ay, frame, i)
  {
  }
}
