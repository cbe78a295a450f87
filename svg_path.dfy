/** SVG path commands for the line charts of the product card and the detail page. */
module SvgPath {

  /** An absolute `M x y` or `L x y` command. */
  datatype Command = MoveTo(x: real, y: real) | LineTo(x: real, y: real)

  /** A polyline: one command per point, a move for the first and a line for the rest. */
  predicate IsPolyline(cmds: seq<Command>)
  {
    forall i :: 0 <= i < |cmds| ==> (cmds[i].MoveTo? <==> i == 0)
  }
}
