/** The coordinate system overlay: both axes, or nothing at all. */
module CoordinateSystem {
  import opened Geometry
  import opened XAxisGeometry
  import opened YAxisGeometry

  /** What the overlay draws: nothing, or the Y-axis marks and the X-axis marks. */
  datatype Overlay = Hidden | Shown(yMarks: seq<YMark>, xMarks: seq<XMark>)

  /** Both axes are drawn exactly when the Y axis has formatted labels; the X
      axis's own labels play no part in that decision. When drawn, each axis has
      one mark per its own formatted label, and `labelOffsetY` pushes the X labels
      below the plotted area. */
  function CoordinateSystemBody<E(==)>(ax: XAxis<E>, ay: YAxis, frame: Size, labelOffsetY: real): (o: Overlay)
    ensures o.Shown? <==> |ay.labels| > 0
    ensures o.Shown? ==> |o.yMarks| == |ay.labels| && |o.xMarks| == |ax.labels|
    ensures o.Shown? ==> o.yMarks == YAxisMarks(ay, frame)
    ensures o.Shown? ==> o.xMarks == XAxisMarks(ax, frame, labelOffsetY)
  {
    if |ay.labels| == 0 then Hidden
    else Shown(YAxisMarks(ay, frame), XAxisMarks(ax, frame, labelOffsetY))
  }
}
