/** The category (X) axis: one vertical gridline per formatted label, placed at the
    centre of the bar that shows the label's entry, with the label centred under it. */
module XAxisGeometry {
  import opened Optional
  import opened Geometry
  import opened Lookup

  /** The bar-layout engine, reduced to the one question the axis asks it: the
      x-coordinate of the centre of the bar at a given index of the full data. */
  datatype BarLayout = BarLayout(barCentre: nat -> real)

  /** What the X axis object supplies to the view.
      `data` is the full, unfiltered sequence of entries; `chartEntry(i)` is the
      entry behind the i-th visible label (absent when the axis has none);
      `layout` is absent until a layout has been computed; `labels` are the
      formatted labels, one per visible entry. */
  datatype XAxis<E> = XAxis(
    data: seq<E>,
    chartEntry: nat -> Option<E>,
    layout: Option<BarLayout>,
    labels: seq<string>,
    gridlineDash: seq<real>)

  /** Where the entry behind visible label `i` sits in the full data: the first
      entry equal to it, found by equality and not by position. */
  function FullIndex<E(==)>(ax: XAxis<E>, i: nat): (r: Option<nat>)
    ensures r.Some? <==> ax.chartEntry(i).Some? && ax.chartEntry(i).value in ax.data
    ensures r.Some? ==> IsFirstIndex(ax.data, ax.chartEntry(i).value, r.value)
  {
    match ax.chartEntry(i)
    case None => None
    case Some(e) => FirstIndex(ax.data, e)
  }

  /** The x-coordinate of the gridline for visible label `i`: the centre of the
      bar of its entry's first occurrence in the full data, or 0 when there is no
      entry, the entry is not in the data, or there is no layout. */
  function VerticalGridlineX<E(==)>(ax: XAxis<E>, i: nat): (x: real)
    ensures forall k :: ax.layout.Some? && ax.chartEntry(i).Some?
                        && IsFirstIndex(ax.data, ax.chartEntry(i).value, k)
                        ==> x == ax.layout.value.barCentre(k)
    ensures ax.layout.None? || ax.chartEntry(i).None? || ax.chartEntry(i).value !in ax.data
            ==> x == 0.0
  {
    match (FullIndex(ax, i), ax.layout)
    case (Some(k), Some(layout)) => layout.barCentre(k)
    case _ => 0.0
  }

  /** The gridline of visible label `i` runs straight down the frame at the
      gridline x, from the top edge to the bottom edge. */
  function VerticalGridlinePoints<E(==)>(ax: XAxis<E>, frame: Size, i: nat): (s: Segment)
    ensures s.IsVertical()
    ensures s.start.x == VerticalGridlineX(ax, i)
    ensures s.start.y == 0.0 && s.end.y == frame.height
  {
    var x := VerticalGridlineX(ax, i);
    Segment(Point(x, 0.0), Point(x, frame.height))
  }

  /** The label's horizontal offset is measured from the frame's centre, so it
      lands exactly under its gridline. */
  function XLabelHorizontalOffset<E(==)>(ax: XAxis<E>, frame: Size, i: nat): (dx: real)
    ensures dx + frame.width / 2.0 == VerticalGridlinePoints(ax, frame, i).end.x
  {
    VerticalGridlineX(ax, i) - frame.width / 2.0
  }

  /** Everything the view draws for one visible label. */
  datatype XMark = XMark(gridline: Segment, dash: seq<real>, text: string, labelOffset: Point)

  function XMarkAt<E(==)>(ax: XAxis<E>, frame: Size, labelOffsetY: real, i: nat): XMark
    requires i < |ax.labels|
  {
    XMark(VerticalGridlinePoints(ax, frame, i),
          ax.gridlineDash,
          ax.labels[i],
          Point(XLabelHorizontalOffset(ax, frame, i), labelOffsetY))
  }

  /** The marks for visible labels 0 .. n-1, built in index order. */
  function XMarksUpTo<E(==)>(ax: XAxis<E>, frame: Size, labelOffsetY: real, n: nat): (ms: seq<XMark>)
    requires n <= |ax.labels|
    ensures |ms| == n
    ensures forall i :: 0 <= i < n ==> ms[i] == XMarkAt(ax, frame, labelOffsetY, i)
  {
    if n == 0 then []
    else XMarksUpTo(ax, frame, labelOffsetY, n - 1) + [XMarkAt(ax, frame, labelOffsetY, n - 1)]
  }

  /** One mark per formatted label, in label order: the i-th carries the i-th
      label, centred under a vertical gridline at the bar of its entry, pushed
      down by `labelOffsetY`, and every gridline uses the configured dash. */
  function XAxisMarks<E(==)>(ax: XAxis<E>, frame: Size, labelOffsetY: real): (ms: seq<XMark>)
    ensures |ms| == |ax.labels|
    ensures forall i :: 0 <= i < |ms| ==>
              && ms[i].text == ax.labels[i]
              && ms[i].dash == ax.gridlineDash
              && ms[i].gridline.IsVertical()
              && ms[i].gridline.start.x == VerticalGridlineX(ax, i)
              && ms[i].gridline.start.y == 0.0
              && ms[i].gridline.end.y == frame.height
              && ms[i].labelOffset.x + frame.width / 2.0 == ms[i].gridline.start.x
              && ms[i].labelOffset.y == labelOffsetY
  {
    XMarksUpTo(ax, frame, labelOffsetY, |ax.labels|)
  }

  /** When the lookup misses, or there is no layout, the gridline falls back to
      x = 0 and its label to minus half the frame width. */
  lemma XLabelOffsetOnMiss<E>(ax: XAxis<E>, frame: Size, i: nat)
    requires ax.layout.None? || ax.chartEntry(i).None? || ax.chartEntry(i).value !in ax.data
    ensures VerticalGridlinePoints(ax, frame, i).start.x == 0.0
    ensures XLabelHorizontalOffset(ax, frame, i) == -frame.width / 2.0
  {
  }

  /** `visible` keeps entries of `data` in their relative order: `positions[j]` is
      where `visible[j]` sits in `data`, and the positions strictly increase. */
  predicate IsOrderedSelection<E(==)>(visible: seq<E>, data: seq<E>, positions: seq<nat>) {
    && |positions| == |visible|
    && (forall j :: 0 <= j < |positions| ==> positions[j] < |data| && data[positions[j]] == visible[j])
    && (forall j, k :: 0 <= j < k < |positions| ==> positions[j] < positions[k])
  }

  /** The axis shows exactly the entries of `visible`, label by label. */
  predicate ShowsVisible<E(==)>(ax: XAxis<E>, visible: seq<E>) {
    forall j :: 0 <= j < |visible| ==> ax.chartEntry(j) == Some(visible[j])
  }

  /** Bar centres move right as the full-data index grows. */
  predicate IncreasingCentres(layout: BarLayout, n: nat) {
    forall j, k :: 0 <= j < k < n ==> layout.barCentre(j) < layout.barCentre(k)
  }

  /** With a windowed view of data without repetitions, the gridline of visible
      label `j` is the centre of bar `positions[j]` -- the full-data index, not `j`. */
  lemma GridlineUsesFullDataIndex<E>(ax: XAxis<E>, visible: seq<E>, positions: seq<nat>, j: nat)
    requires Distinct(ax.data)
    requires IsOrderedSelection(visible, ax.data, positions)
    requires ShowsVisible(ax, visible)
    requires ax.layout.Some?
    requires j < |visible|
    ensures VerticalGridlineX(ax, j) == ax.layout.value.barCentre(positions[j])
  {
  }

  /** Under the same conditions and a layout whose centres increase with the
      index, the gridlines of the visible labels run strictly left to right. */
  lemma GridlinesIncreaseAcrossVisibleLabels<E>(ax: XAxis<E>, visible: seq<E>, positions: seq<nat>, j: nat, k: nat)
    requires Distinct(ax.data)
    requires IsOrderedSelection(visible, ax.data, positions)
    requires ShowsVisible(ax, visible)
    requires ax.layout.Some? && IncreasingCentres(ax.layout.value, |ax.data|)
    requires j < k < |visible|
    ensures VerticalGridlineX(ax, j) < VerticalGridlineX(ax, k)
  {
  }

  /** Two visible labels whose entries are equal share one gridline, because the
      lookup always answers the first occurrence. */
  lemma EqualEntriesShareGridline<E>(ax: XAxis<E>, j: nat, k: nat)
    requires ax.chartEntry(j) == ax.chartEntry(k)
    ensures VerticalGridlineX(ax, j) == VerticalGridlineX(ax, k)
  {
  }
}
