/** The host geometry values the library reads: `UIEdgeInsets`, `CGPoint`, `CGSize`. */
module Geometry {
  datatype EdgeInsets = EdgeInsets(top: real, left: real, bottom: real, right: real)
  datatype Point = Point(x: real, y: real)
  datatype Size = Size(width: real, height: real)

  const ZeroInsets: EdgeInsets := EdgeInsets(0.0, 0.0, 0.0, 0.0)
  const ZeroPoint: Point := Point(0.0, 0.0)
  const ZeroSize: Size := Size(0.0, 0.0)

  /** Swift's `abs` on `CGFloat`. */
  function Abs(x: real): (r: real)
    ensures r >= 0.0
    ensures r == x || r == -x
  {
    if x < 0.0 then -x else x
  }
}
