/** Worked instances of the axis geometry on concrete charts. */
module Scenarios {
  import opened Optional
  import opened Geometry
  import opened XAxisGeometry
  import opened YAxisGeometry

  /** Four bars evenly spread over a 300-wide frame: centres 37.5, 112.5, 187.5, 262.5. */
  function FourBarLayout(): BarLayout {
    BarLayout(k => 37.5 + 75.0 * (k as real))
  }

  /** Full data A..E, of which only B and D are visible. */
  function WindowedAxis(): XAxis<char> {
    var visible := ['B', 'D'];
    XAxis(['A', 'B', 'C', 'D', 'E'],
          (i: nat) => if i < |visible| then Some(visible[i]) else None,
          Some(FourBarLayout()),
          ["B", "D"],
          [5.0, 5.0])
  }

  /** Visible label 1 (entry D) is placed at the centre of bar 3, the position of D
      in the full data, and not at bar 1. */
  lemma WindowedLabelUsesFullDataPosition()
    ensures VerticalGridlineX(WindowedAxis(), 1) == FourBarLayout().barCentre(3) == 262.5
    ensures VerticalGridlineX(WindowedAxis(), 1) != FourBarLayout().barCentre(1)
  {
  }

  /** In a 300-wide frame, a label whose gridline is at 187.5 is offset 37.5 right
      of the centre. */
  lemma CategoryLabelOffset()
    ensures var ax := XAxis(['a', 'b', 'c', 'd'], (i: nat) => if i < 4 then Some("abcd"[i]) else None,
                            Some(FourBarLayout()), ["a", "b", "c", "d"], []);
            XLabelHorizontalOffset(ax, Size(300.0, 200.0), 2) == 37.5
  {
  }

  /** Values -10, 0, 10, 20 over a minimum of -10 at 3 pixels per unit: gridlines
      at 0, 30, 60, 90, and only the one for value 0 is solid. */
  function FourValueAxis(): YAxis {
    var values := [-10.0, 0.0, 10.0, 20.0];
    YAxis(Some(-10.0), Some(3.0),
          (i: nat) => if i < |values| then Some(values[i]) else None,
          ["-10", "0", "10", "20"], 40.0, [4.0, 2.0])
  }

  lemma OnlyZeroGridlineIsSolid()
    ensures forall i :: 0 <= i < 4 ==> HorizontalGridlineY(FourValueAxis(), i) == 30.0 * (i as real)
    ensures forall i :: 0 <= i < 4 ==> (GridlineDash(FourValueAxis(), i) == [] <==> i == 1)
  {
  }

  /** Frame 300 x 200, minimum 0, two pixels per unit: value 50 sits at height 100,
      the middle of the frame, and its label is centred. */
  lemma MidValueLabelIsCentred()
    ensures var ay := YAxis(Some(0.0), Some(2.0), i => Some(50.0), ["50"], 40.0, []);
            HorizontalGridlineY(ay, 0) == 100.0
            && YLabelVerticalOffset(ay, Size(300.0, 200.0), 0) == 0.0
  {
  }
}
