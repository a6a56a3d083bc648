/** Integer geometry of the reference square (the "YOLO square") and of tracked boxes:
    placement at the frame centre, recentring onto a box, the inclusive containment test
    and the classification of an outside point into arrow directions. */
module Geometry {

  /** Side length, in pixels, of the reference square. */
  const SquareSize: int := 250

  datatype Point = Point(x: int, y: int)

  /** A box as the tracker reports it: top-left corner plus width and height. Width and
      height are not required to be positive: nothing in the program rejects a degenerate box. */
  datatype Box = Box(x: int, y: int, w: int, h: int)

  /** The reference square, given by its top-left and bottom-right corners. */
  datatype Region = Region(topLeft: Point, bottomRight: Point)

  /** Which arrow(s) the program draws for a point outside the square. */
  datatype Side = Left | Right | Top | Bottom

  /** Python's `a // b` for a positive divisor: the quotient rounded towards minus infinity. */
  function FloorDiv(a: int, b: int): (q: int)
    requires b > 0
    ensures b * q <= a < b * q + b
  {
    a / b
  }

  function Width(r: Region): int {
    r.bottomRight.x - r.topLeft.x
  }

  function Height(r: Region): int {
    r.bottomRight.y - r.topLeft.y
  }

  /** Centre of a box, `(x + w // 2, y + h // 2)`. */
  function Center(b: Box): (c: Point)
    ensures 2 * (c.x - b.x) <= b.w < 2 * (c.x - b.x) + 2
    ensures 2 * (c.y - b.y) <= b.h < 2 * (c.y - b.y) + 2
  {
    Point(b.x + FloorDiv(b.w, 2), b.y + FloorDiv(b.h, 2))
  }

  /** Centre of the square, `((tl + br) // 2)` on each axis. */
  function Midpoint(r: Region): Point {
    Point(FloorDiv(r.topLeft.x + r.bottomRight.x, 2), FloorDiv(r.topLeft.y + r.bottomRight.y, 2))
  }

  /** The square placed at the centre of a `width` x `height` frame. Its side is
      `SquareSize`, and the margins left and right (top and bottom) are equal except that an
      odd leftover pixel goes to the right (bottom) margin. */
  function TrackingArea(width: int, height: int): (r: Region)
    ensures Width(r) == SquareSize && Height(r) == SquareSize
    ensures 0 <= (width - r.bottomRight.x) - r.topLeft.x <= 1
    ensures 0 <= (height - r.bottomRight.y) - r.topLeft.y <= 1
  {
    var tlx := FloorDiv(width - SquareSize, 2);
    var tly := FloorDiv(height - SquareSize, 2);
    Region(Point(tlx, tly), Point(tlx + SquareSize, tly + SquareSize))
  }

  /** Shifts the square by the offset between its centre and the box's centre. The result is
      a pure translation of `r` (same size) whose centre is exactly the box's centre. */
  function Recenter(r: Region, b: Box): (r': Region)
    ensures Width(r') == Width(r) && Height(r') == Height(r)
    ensures r'.topLeft.x - r.topLeft.x == r'.bottomRight.x - r.bottomRight.x
    ensures r'.topLeft.y - r.topLeft.y == r'.bottomRight.y - r.bottomRight.y
    ensures Midpoint(r') == Center(b)
  {
    var c := Center(b);
    var m := Midpoint(r);
    var dx := c.x - m.x;
    var dy := c.y - m.y;
    Region(Point(r.topLeft.x + dx, r.topLeft.y + dy),
           Point(r.bottomRight.x + dx, r.bottomRight.y + dy))
  }

  /** The containment test: inclusive on all four bounds. */
  predicate Contains(r: Region, p: Point) {
    && r.topLeft.x <= p.x <= r.bottomRight.x
    && r.topLeft.y <= p.y <= r.bottomRight.y
  }

  /** The arrow directions for point `p`: LEFT when left of the square, otherwise RIGHT when
      right of it; independently TOP when above, otherwise BOTTOM when below. No arrow is
      drawn exactly when the point is inside, whatever the shape of `r`. */
  function OutsideSides(r: Region, p: Point): (s: set<Side>)
    ensures !(Left in s && Right in s) && !(Top in s && Bottom in s)
    ensures s == {} <==> Contains(r, p)
    ensures Left in s <==> p.x < r.topLeft.x
    ensures Top in s <==> p.y < r.topLeft.y
    ensures Right in s ==> p.x > r.bottomRight.x
    ensures Bottom in s ==> p.y > r.bottomRight.y
    ensures r.topLeft.x <= r.bottomRight.x ==> (Right in s <==> p.x > r.bottomRight.x)
    ensures r.topLeft.y <= r.bottomRight.y ==> (Bottom in s <==> p.y > r.bottomRight.y)
  {
    var horizontal :=
      if p.x < r.topLeft.x then {Left}
      else if p.x > r.bottomRight.x then {Right}
      else {};
    var vertical :=
      if p.y < r.topLeft.y then {Top}
      else if p.y > r.bottomRight.y then {Bottom}
      else {};
    horizontal + vertical
  }

  /** On the 640 x 640 working frame the square spans (195,195)-(445,445). */
  lemma WorkingFrameArea()
    ensures TrackingArea(640, 640) == Region(Point(195, 195), Point(445, 445))
  {
  }

  /** A centre lying exactly on an edge or corner of the square counts as inside. */
  lemma EdgesAreInside(r: Region, p: Point)
    requires r.topLeft.x <= r.bottomRight.x && r.topLeft.y <= r.bottomRight.y
    requires p.x == r.topLeft.x || p.x == r.bottomRight.x
    requires p.y == r.topLeft.y || p.y == r.bottomRight.y
    ensures Contains(r, p)
    ensures OutsideSides(r, p) == {}
  {
  }
}
