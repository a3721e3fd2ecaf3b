/**
 The integer part of placing the two points of one trial on the Size x Size
 attention grid (env.go, NewPoint).

 A third point, Point3, is sampled elsewhere in polar coordinates with
 floating-point arithmetic; here it is an input. Its offset from (Size, Size)
 is the displacement (xDist, yDist). For each axis the code computes a
 half-open window [min, max) of starting coordinates, draws Point from the
 window and sets Point2 = Point + displacement. Both points must then lie on
 the grid, since Point indexes the Size x Size Attn tensor.
 */
module Placement {

  datatype Point = Point(x: int, y: int)

  /** The half-open integer interval [lo, hi). */
  datatype Window = Window(lo: int, hi: int) {

    predicate Contains(v: int) {
      lo <= v < hi
    }

    predicate NonEmpty() {
      lo < hi
    }
  }

  /** Coordinate `v` lies on an axis of `size` cells. */
  predicate OnAxis(size: int, v: int) {
    0 <= v < size
  }

  /** Point `p` lies on the `size` x `size` grid. */
  predicate OnGrid(size: int, p: Point) {
    OnAxis(size, p.x) && OnAxis(size, p.y)
  }

  /** Both `v` and `v + d` lie on an axis of `size` cells. */
  predicate SpanOnAxis(size: int, v: int, d: int) {
    OnAxis(size, v) && OnAxis(size, v + d)
  }

  /** Absolute value of an integer; env.go takes it through float64, which is exact for grid-sized values. */
  function Abs(n: int): (r: nat)
    ensures r == n || r == -n
  {
    if n < 0 then -n else n
  }

  /**
   The window of starting coordinates for displacement `d` on one axis: the
   reference reading of the three sign cases. It holds exactly the coordinates
   from which both the start and the displaced end stay on the axis, and it is
   empty exactly when the displacement is at least a full axis long.
   */
  function AxisWindow(size: int, d: int): (w: Window)
    ensures forall v :: w.Contains(v) <==> SpanOnAxis(size, v, d)
    ensures w.NonEmpty() <==> -size < d < size
  {
    if d > 0 then Window(0, size - d)
    else if d < 0 then Window(-d, size)
    else Window(0, size)
  }

  /**
   The window computation as env.go writes it: both bounds start at zero
   and three independent `if` statements assign them. Exactly one of them fires,
   so the result is the reference window.
   */
  method AxisWindowAsWritten(size: int, d: int) returns (w: Window)
    ensures w == AxisWindow(size, d)
    ensures d > 0 ==> w.lo == 0
    ensures d < 0 ==> w.hi == size
  {
    var hi := 0;
    var lo := 0;
    if d > 0 {
      hi := size - d;
      lo := 0;
    }
    if d < 0 {
      hi := size;
      lo := Abs(d);
    }
    if d == 0 {
      lo := 0;
      hi := size;
    }
    w := Window(lo, hi);
  }

  /**
   The displacement of Point3 from the corner (Size, Size). The placement
   window on an axis is non-empty exactly when Point3 lies strictly between 0
   and 2 * Size on that axis.
   */
  function Displacement(size: int, p3: Point): (d: Point)
    ensures p3 == Point(size + d.x, size + d.y)
    ensures AxisWindow(size, d.x).NonEmpty() <==> 0 < p3.x < 2 * size
    ensures AxisWindow(size, d.y).NonEmpty() <==> 0 < p3.y < 2 * size
  {
    Point(p3.x - size, p3.y - size)
  }

  /**
   The four branches of the bearing computation. Each names the half-planes
   of the displacement it covers; the angle each branch computes is floating
   point and is not modelled.
   */
  datatype Branch = UpperRight | UpperLeft | LowerRight | LowerLeft {

    /** The branch covers displacements with a non-negative x component. */
    predicate Right() {
      UpperRight? || LowerRight?
    }

    /** The branch covers displacements with a non-negative y component. */
    predicate Upper() {
      UpperRight? || UpperLeft?
    }
  }

  /**
   The reference branch choice: it depends only on the signs of the
   displacement, and the branch is determined by which half-planes hold.
   */
  function Quadrant(dx: int, dy: int): (b: Branch)
    ensures b.Right() <==> dx >= 0
    ensures b.Upper() <==> dy >= 0
  {
    if dx >= 0 then (if dy >= 0 then UpperRight else LowerRight)
    else (if dy >= 0 then UpperLeft else LowerLeft)
  }

  /**
   The branch chain as written: the first test reads the recomputed
   differences (xDistance, yDistance), the later tests read the original
   displacement (xDist, yDist).
   */
  function BranchAsWritten(xDistance: int, yDistance: int, xDist: int, yDist: int): Branch
  {
    if xDistance >= 0 && yDistance >= 0 then UpperRight
    else if xDist < 0 && yDist >= 0 then UpperLeft
    else if xDist >= 0 && yDist < 0 then LowerRight
    else LowerLeft
  }

  /**
   When the recomputed differences have the same signs as the displacement,
   the chain as written picks the reference branch of the displacement.
   */
  lemma BranchSameSignsAgree(xDistance: int, yDistance: int, xDist: int, yDist: int)
    requires (xDistance >= 0 <==> xDist >= 0) && (yDistance >= 0 <==> yDist >= 0)
    ensures BranchAsWritten(xDistance, yDistance, xDist, yDist) == Quadrant(xDist, yDist)
  {
  }

  /** In particular, when the recomputed differences equal the displacement, the chain as written picks the reference branch. */
  lemma BranchAsWrittenAgrees(dx: int, dy: int)
    ensures BranchAsWritten(dx, dy, dx, dy) == Quadrant(dx, dy)
  {
    BranchSameSignsAgree(dx, dy, dx, dy);
  }

  /** With operands of different signs the chain can pick another branch: xDistance = -1, xDist = 1, yDistance = yDist = 0. */
  lemma BranchNeedsEqualOperands()
    ensures BranchAsWritten(-1, 0, 1, 0) != Quadrant(-1, 0)
  {
  }

  /** The integer state NewPoint leaves behind. */
  datatype PointPair = PointPair(point: Point, point2: Point, xDistance: int, yDistance: int, branch: Branch)

  /** The shape given to the Attn tensor at configuration: Size rows by Size columns. */
  function AttnShape(size: int): seq<int> {
    [size, size]
  }

  /** `idx` addresses a cell of a tensor with shape `shape`. */
  predicate IndexInShape(idx: seq<int>, shape: seq<int>) {
    |idx| == |shape| && forall i :: 0 <= i < |idx| ==> 0 <= idx[i] < shape[i]
  }

  /** The draws of Point that NewPoint can make for Point3: one coordinate inside each axis window. */
  predicate DrawFits(size: int, p3: Point, x: int, y: int) {
    var d := Displacement(size, p3);
    AxisWindow(size, d.x).Contains(x) && AxisWindow(size, d.y).Contains(y)
  }

  /**
   NewPoint with the random draw of Point supplied as (x, y). Both points land
   on the grid, so the write into Attn at [Point.Y, Point.X] is in bounds;
   Point2 - Point is exactly the displacement; and the branch taken is the
   reference branch of the displacement.
   */
  function NewPoint(size: int, p3: Point, x: int, y: int): (pl: PointPair)
    requires DrawFits(size, p3, x, y)
    ensures pl.point == Point(x, y)
    ensures OnGrid(size, pl.point) && OnGrid(size, pl.point2)
    ensures IndexInShape([pl.point.y, pl.point.x], AttnShape(size))
    ensures pl.point2.x - pl.point.x == p3.x - size && pl.point2.y - pl.point.y == p3.y - size
    ensures pl.xDistance == p3.x - size && pl.yDistance == p3.y - size
    ensures pl.branch == Quadrant(p3.x - size, p3.y - size)
  {
    var d := Displacement(size, p3);
    var point := Point(x, y);
    var point2 := Point(point.x + d.x, point.y + d.y);
    var xDistance := point2.x - point.x;
    var yDistance := point2.y - point.y;
    BranchAsWrittenAgrees(d.x, d.y);
    PointPair(point, point2, xDistance, yDistance, BranchAsWritten(xDistance, yDistance, d.x, d.y))
  }

  /** A draw exists exactly when both windows are non-empty, that is, when the displacement is shorter than the grid on both axes. */
  lemma DrawExistsIff(size: int, p3: Point)
    ensures (exists x, y :: DrawFits(size, p3, x, y)) <==> -size < p3.x - size < size && -size < p3.y - size < size
  {
    var d := Displacement(size, p3);
    var wx, wy := AxisWindow(size, d.x), AxisWindow(size, d.y);
    if wx.NonEmpty() && wy.NonEmpty() {
      assert DrawFits(size, p3, wx.lo, wy.lo);
    }
  }

  /** The fixed centre of the polar sampling of Point3. */
  const PolarCentre := 8

  /** The window on one axis is non-empty when Point3 lies `k` cells from the polar centre on that axis. */
  predicate OffsetFits(size: int, k: int) {
    AxisWindow(size, Displacement(size, Point(PolarCentre + k, PolarCentre + k)).x).NonEmpty()
  }

  /**
   For Size >= 4 the polar sampling draws a distance in [2, Size - 1) and
   truncates its projections, so Point3 lies at most Size - 2 cells from the
   centre on each axis (at Size 2 and 3 it can reach further). For any
   Size >= 2, every offset of at most Size - 2 leaves a non-empty window
   exactly when 7 <= Size <= 9; for any other Size some such offset makes the
   window empty.
   */
  lemma CentredOffsetsFitIff(size: int)
    requires 2 <= size
    ensures (forall k :: -(size - 2) <= k <= size - 2 ==> OffsetFits(size, k)) <==> 7 <= size <= 9
  {
    if !(7 <= size <= 9) {
      if size > 9 {
        assert !OffsetFits(size, -(size - 2));
      } else {
        assert !OffsetFits(size, size - 2);
      }
    }
  }

  /** Concrete sizes outside the safe range: offset -8 at Size 10 and offset 4 at Size 6 leave empty windows. */
  lemma UnsafeSizes()
    ensures !OffsetFits(10, -8) && !OffsetFits(6, 4)
  {
  }
}
