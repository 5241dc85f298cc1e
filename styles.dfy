/** Brushes and pens, reduced to what the diagram distinguishes. */
module Styles {

  /** Qt's named global colours the diagram uses, and RGB triples (`QColor(r, g, b)`). */
  datatype Color = Black | DarkGray | DarkGreen | DarkRed | DarkBlue | Red | LightGray
                 | Rgb(r: nat, g: nat, b: nat)

  /** The line end style; a `QPen` built without one has a square cap. */
  datatype Cap = SquareCap | RoundCap

  /** A solid pen: `QPen(color, width)` or `QPen(color, width, Qt::SolidLine, cap)`. */
  datatype Pen = Pen(color: Color, width: nat, cap: Cap)
}
