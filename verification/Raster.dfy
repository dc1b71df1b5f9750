/** What lines and circles on the frame buffer are (kernel/fb.c). */
module RasterSpec {

  const WIDTH: nat := 128
  const HEIGHT: nat := 128

  datatype Point = Point(x: int, y: int)

  predicate InBounds(p: Point) { 0 <= p.x < WIDTH && 0 <= p.y < HEIGHT }

  function Index(p: Point): (i: nat)
    requires InBounds(p)
    ensures i < WIDTH * HEIGHT
  {
    p.y * WIDTH + p.x
  }

  /** Pixel i is one of the points. */
  ghost predicate Hit(pts: seq<Point>, i: nat) {
    exists k: nat :: k < |pts| && InBounds(pts[k]) && Index(pts[k]) == i
  }

  /** The points that are in bounds have the colour, and the other pixels are as before. */
  ghost predicate Painted(was: seq<nat>, now: seq<nat>, pts: seq<Point>, color: nat) {
    && |now| == |was|
    && forall i: nat :: i < |was| ==> now[i] == if Hit(pts, i) then color else was[i]
  }

  lemma PaintOne(was: seq<nat>, now: seq<nat>, pts: seq<Point>, p: Point, color: nat)
    requires Painted(was, now, pts, color) && |was| == WIDTH * HEIGHT
    ensures Painted(was, if InBounds(p) then now[Index(p) := color] else now, pts + [p], color)
  {
    var next := if InBounds(p) then now[Index(p) := color] else now;
    forall i: nat | i < |was|
      ensures next[i] == if Hit(pts + [p], i) then color else was[i]
    {
      HitMore(pts, p, i);
    }
  }

  lemma HitMore(pts: seq<Point>, p: Point, i: nat)
    ensures Hit(pts + [p], i) <==> Hit(pts, i) || (InBounds(p) && Index(p) == i)
  {
    if Hit(pts, i) {
      var k: nat :| k < |pts| && InBounds(pts[k]) && Index(pts[k]) == i;
      assert (pts + [p])[k] == pts[k];
    }
    if InBounds(p) && Index(p) == i {
      assert (pts + [p])[|pts|] == p;
    }
  }

  function Abs(a: int): (r: nat) { if a < 0 then 0 - a else a }

  /** How far v is from a0 in the direction of a1. */
  function Along(a0: int, a1: int, v: int): (d: int) { if a1 >= a0 then v - a0 else a0 - v }

  // ----- lines -----

  /** After a steps along the longer axis and b across, the point is within half a pixel of
      the ideal line; far and near are the lengths of the line along and across. */
  ghost predicate HalfPixel(far: nat, near: nat, a: nat, b: int) {
    b >= 0 && 0 <= 2 * (far * b - a * near) + far <= 2 * far
  }

  /** Pixel k of a line. */
  ghost predicate OnLine(p: Point, x0: int, y0: int, x1: int, y1: int, k: nat) {
    if Abs(x1 - x0) > Abs(y1 - y0) then
      Along(x0, x1, p.x) == k && HalfPixel(Abs(x1 - x0), Abs(y1 - y0), k, Along(y0, y1, p.y))
    else
      Along(y0, y1, p.y) == k && HalfPixel(Abs(y1 - y0), Abs(x1 - x0), k, Along(x0, x1, p.x))
  }

  ghost predicate Adjacent(p: Point, q: Point) { Abs(q.x - p.x) <= 1 && Abs(q.y - p.y) <= 1 }

  /** The first pixels of a line: it starts at the first end, and has no gaps. */
  ghost predicate Path(pts: seq<Point>, x0: int, y0: int, x1: int, y1: int) {
    && (pts != [] ==> pts[0] == Point(x0, y0))
    && (forall k: nat :: k < |pts| ==> OnLine(pts[k], x0, y0, x1, y1, k))
    && (forall k: nat :: 0 < k < |pts| ==> Adjacent(pts[k - 1], pts[k]))
  }

  /** The pixels of a line from (x0, y0) to (x1, y1): one for each step along the longer
      axis, both ends exact, each within half a pixel, and no gaps. */
  ghost predicate IsLine(pts: seq<Point>, x0: int, y0: int, x1: int, y1: int) {
    && |pts| == (if Abs(x1 - x0) > Abs(y1 - y0) then Abs(x1 - x0) else Abs(y1 - y0)) + 1
    && Path(pts, x0, y0, x1, y1) && pts[|pts| - 1] == Point(x1, y1)
  }

  /** p can be the next pixel. */
  ghost predicate Follows(pts: seq<Point>, p: Point, x0: int, y0: int) {
    if pts == [] then p == Point(x0, y0) else Adjacent(pts[|pts| - 1], p)
  }

  lemma PathStep(pts: seq<Point>, p: Point, x0: int, y0: int, x1: int, y1: int)
    requires Path(pts, x0, y0, x1, y1) && Follows(pts, p, x0, y0) && OnLine(p, x0, y0, x1, y1, |pts|)
    ensures Path(pts + [p], x0, y0, x1, y1)
  {}

  lemma FollowsStep(pts: seq<Point>, p: Point, q: Point, x0: int, y0: int)
    requires Adjacent(p, q)
    ensures Follows(pts + [p], q, x0, y0)
  {}

  // ----- the error term -----

  /** The error term of the loop after a steps along and b across. */
  ghost predicate ErrIs(err: int, far: nat, near: nat, a: nat, b: nat) {
    err == far / 2 - a * near + far * b && 0 <= err < far
  }

  lemma ErrStart(far: nat, near: nat)
    requires far > 0
    ensures ErrIs(far / 2, far, near, 0, 0)
  {}

  lemma ErrStep(err: int, far: nat, near: nat, a: nat, b: nat)
    requires ErrIs(err, far, near, a, b) && near <= far
    ensures err - near >= 0 ==> ErrIs(err - near, far, near, a + 1, b)
    ensures err - near < 0 ==> ErrIs(err - near + far, far, near, a + 1, b + 1)
  {
    assert (a + 1) * near == a * near + near;
    assert far * (b + 1) == far * b + far;
  }

  lemma ErrHalf(err: int, far: nat, near: nat, a: nat, b: nat)
    requires ErrIs(err, far, near, a, b)
    ensures HalfPixel(far, near, a, b)
  {
    var d := far * b - a * near;
    assert err == far / 2 + d;
  }

  lemma Multiple(far: nat, e: int)
    ensures e >= 1 ==> far * e >= far
    ensures e <= -1 ==> far * e + far <= 0
  {
    assert far * e == far * (e - 1) + far;
    assert far * e == far * (e + 1) - far;
    if e >= 1 { assert far * (e - 1) >= 0; }
    if e <= -1 { assert far * (e + 1) <= 0; }
  }

  /** At the far end the steps across are exactly the line's. */
  lemma ErrEnd(err: int, far: nat, near: nat, b: nat)
    requires ErrIs(err, far, near, far, b)
    ensures b == near
  {
    assert far * b - far * near == far * (b - near);
    Multiple(far, b - near);
  }

  // ----- circles -----

  function Eight(cx: int, cy: int, x: int, y: int): (ps: seq<Point>) {
    [Point(cx + x, cy + y), Point(cx + y, cy + x), Point(cx - y, cy + x), Point(cx - x, cy + y),
     Point(cx - x, cy - y), Point(cx - y, cy - x), Point(cx + y, cy - x), Point(cx + x, cy - y)]
  }

  /** The points of all octants, where xs gives the x for each y of one octant. */
  ghost function Octants(cx: int, cy: int, xs: seq<int>): (ps: seq<Point>) {
    if xs == [] then [] else Octants(cx, cy, xs[..|xs| - 1]) + Eight(cx, cy, xs[|xs| - 1], |xs| - 1)
  }

  lemma OctantsStep(cx: int, cy: int, xs: seq<int>, x: int)
    ensures Octants(cx, cy, xs + [x]) == Octants(cx, cy, xs) + Eight(cx, cy, x, |xs|)
  {
    assert (xs + [x])[..|xs|] == xs;
  }

  /** One x further on is outside. */
  ghost predicate TooWide(x: int, y: int, r: int) { (x + 1) * (x + 1) + y * y + 2 * y > r * r }

  /** The largest x for this y. */
  ghost predicate Largest(x: int, y: int, r: int) { x * x + y * y + 2 * y <= r * r && TooWide(x, y, r) }

  /** The x of each y of an octant. */
  ghost predicate Rows(xs: seq<int>, r: int) {
    forall y: nat :: y < |xs| ==> y <= xs[y] && Largest(xs[y], y, r)
  }

  /** The loop's variables. */
  ghost predicate CircleAt(err: int, x: int, y: nat, r: int) {
    && (x >= y ==> err == x * x + y * y + 2 * y - r * r && err <= 0)
    && (if r < 0 then x == r && y == 0 else x >= -1 && TooWide(x, y, r))
  }

  lemma CircleStart(r: int)
    ensures CircleAt(0, r, 0, r)
  {}

  lemma CircleRow(err: int, x: int, y: nat, r: int)
    requires CircleAt(err, x, y, r) && x >= y
    ensures Largest(x, y, r) && err <= 0
  {}

  lemma CircleStep(err: int, x: int, y: nat, r: int)
    requires CircleAt(err, x, y, r) && x >= y
    ensures var e := err + (2 * (y + 1) + 1);
      if e <= 0 then CircleAt(e, x, y + 1, r) else CircleAt(e - (2 * (x - 1) + 1), x - 1, y + 1, r)
  {
    var e := err + (2 * (y + 1) + 1);
    assert e == x * x + (y + 1) * (y + 1) + 2 * (y + 1) - r * r;
    assert (x - 1) * (x - 1) == x * x - (2 * (x - 1) + 1);
  }

  /** When the octant ends, every y that has an x has been drawn. */
  lemma CircleEnd(err: int, x: int, y: nat, r: int, z: nat)
    requires CircleAt(err, x, y, r) && x < y && r >= 0 && z >= y
    ensures 2 * z * z + 2 * z > r * r
  {
    Squares(x + 1, y);
    Squares(y, z);
  }

  lemma Squares(a: nat, b: nat)
    requires a <= b
    ensures a * a <= b * b
  {}

  lemma CircleRowCount(x: int, y: nat, r: int)
    requires Largest(x, y, r) && x >= y
    ensures 2 * y * y + 2 * y <= r * r
  {
    Squares(y, x);
  }

  /** Every point drawn lies inside the circle, and the pixel diagonally further out lies
      outside it. */
  lemma InsideAndOut(x: int, y: int, r: int)
    requires Largest(x, y, r) && y >= 0
    ensures x * x + y * y <= r * r < (x + 1) * (x + 1) + (y + 1) * (y + 1)
  {
    assert (y + 1) * (y + 1) == y * y + 2 * y + 1;
  }
}

/** The line and circle drawing of the frame buffer (kernel/fb.c). */
module Raster {
  import opened Common
  import opened RasterSpec

  class Frame {
    const mem: array<nat>

    constructor ()
      ensures fresh(mem) && mem.Length == WIDTH * HEIGHT
    {
      mem := new nat[WIDTH * HEIGHT](_ => 0);
    }

    /** fb_draw_pixel: a point out of bounds is not drawn. */
    method DrawPixel(x: int, y: int, color: nat, ghost was: seq<nat>, ghost pts: seq<Point>)
      requires mem.Length == WIDTH * HEIGHT == |was| && Painted(was, mem[..], pts, color)
      modifies mem
      ensures Painted(was, mem[..], pts + [Point(x, y)], color)
    {
      PaintOne(was, mem[..], pts, Point(x, y), color);
      ghost var now := mem[..];
      if !(x < 0 || x >= WIDTH || y < 0 || y >= HEIGHT) {
        mem[y * WIDTH + x] := color;
        assert mem[..] == now[Index(Point(x, y)) := color];
      }
    }

    /** fb_draw_line */
    method DrawLine(x0: int, y0: int, x1: int, y1: int, color: nat) returns (ghost pts: seq<Point>)
      requires mem.Length == WIDTH * HEIGHT
      modifies mem
      ensures Painted(old(mem[..]), mem[..], pts, color) && IsLine(pts, x0, y0, x1, y1)
    {
      var dx, dy := x1 - x0, y1 - y0;
      var sx, sy := if dx >= 0 then 1 else -1, if dy >= 0 then 1 else -1;
      dx, dy := if dx >= 0 then dx else -dx, if dy >= 0 then dy else -dy;
      if dx > dy {
        pts := Flat(x0, y0, x1, y1, dx, dy, sx, sy, color);
      } else {
        pts := Steep(x0, y0, x1, y1, dx, dy, sx, sy, color);
      }
    }

    /** The branch for lines that are wider than high. */
    method Flat(x0: int, y0: int, x1: int, y1: int, dx: nat, dy: nat, sx: int, sy: int, color: nat)
      returns (ghost pts: seq<Point>)
      requires mem.Length == WIDTH * HEIGHT && dx == Abs(x1 - x0) > dy == Abs(y1 - y0)
      requires sx == (if x1 >= x0 then 1 else -1) && sy == if y1 >= y0 then 1 else -1
      modifies mem
      ensures Painted(old(mem[..]), mem[..], pts, color) && IsLine(pts, x0, y0, x1, y1)
    {
      ghost var was := mem[..];
      pts := [];
      var err, y, x := dx / 2, y0, x0;
      ghost var a, b := 0, 0;
      ErrStart(dx, dy);
      while x != x1
        invariant Painted(was, mem[..], pts, color) && Path(pts, x0, y0, x1, y1) && Follows(pts, Point(x, y), x0, y0)
        invariant a <= dx && |pts| == a && Along(x0, x1, x) == a && Along(y0, y1, y) == b && ErrIs(err, dx, dy, a, b)
        decreases dx - a
      {
        ErrHalf(err, dx, dy, a, b);
        ErrStep(err, dx, dy, a, b);
        DrawPixel(x, y, color, was, pts);
        PathStep(pts, Point(x, y), x0, y0, x1, y1);
        ghost var p, pts0 := Point(x, y), pts;
        pts := pts + [p];
        err := err - dy;
        if err < 0 {
          y, b, err := y + sy, b + 1, err + dx;
        }
        x, a := x + sx, a + 1;
        FollowsStep(pts0, p, Point(x, y), x0, y0);
      }
      ErrEnd(err, dx, dy, b);
      ErrHalf(err, dx, dy, a, b);
      DrawPixel(x1, y1, color, was, pts);
      PathStep(pts, Point(x1, y1), x0, y0, x1, y1);
      pts := pts + [Point(x1, y1)];
    }

    /** The branch for the others. */
    method Steep(x0: int, y0: int, x1: int, y1: int, dx: nat, dy: nat, sx: int, sy: int, color: nat)
      returns (ghost pts: seq<Point>)
      requires mem.Length == WIDTH * HEIGHT && dx == Abs(x1 - x0) <= dy == Abs(y1 - y0)
      requires sx == (if x1 >= x0 then 1 else -1) && sy == if y1 >= y0 then 1 else -1
      modifies mem
      ensures Painted(old(mem[..]), mem[..], pts, color) && IsLine(pts, x0, y0, x1, y1)
    {
      ghost var was := mem[..];
      pts := [];
      var err, x, y := dy / 2, x0, y0;
      ghost var a, b := 0, 0;
      if dy > 0 { ErrStart(dy, dx); }
      while y != y1
        invariant Painted(was, mem[..], pts, color) && Path(pts, x0, y0, x1, y1) && Follows(pts, Point(x, y), x0, y0)
        invariant a <= dy && |pts| == a && Along(y0, y1, y) == a && Along(x0, x1, x) == b
        invariant dy > 0 ==> ErrIs(err, dy, dx, a, b)
        decreases dy - a
      {
        ErrHalf(err, dy, dx, a, b);
        ErrStep(err, dy, dx, a, b);
        DrawPixel(x, y, color, was, pts);
        PathStep(pts, Point(x, y), x0, y0, x1, y1);
        ghost var p, pts0 := Point(x, y), pts;
        pts := pts + [p];
        err := err - dx;
        if err < 0 {
          x, b, err := x + sx, b + 1, err + dy;
        }
        y, a := y + sy, a + 1;
        FollowsStep(pts0, p, Point(x, y), x0, y0);
      }
      if dy > 0 {
        ErrEnd(err, dy, dx, b);
        ErrHalf(err, dy, dx, a, b);
      }
      DrawPixel(x1, y1, color, was, pts);
      PathStep(pts, Point(x1, y1), x0, y0, x1, y1);
      pts := pts + [Point(x1, y1)];
    }

    /** fb_draw_circle: for each y of an octant the largest x that fits, in all eight octants. */
    method DrawCircle(cx: int, cy: int, r: int, color: nat) returns (ghost pts: seq<Point>, ghost xs: seq<int>)
      requires mem.Length == WIDTH * HEIGHT
      modifies mem
      ensures Painted(old(mem[..]), mem[..], pts, color) && pts == Octants(cx, cy, xs) && Rows(xs, r)
      ensures if r < 0 then xs == [] else forall y: nat :: y < |xs| <==> 2 * y * y + 2 * y <= r * r
    {
      ghost var was := mem[..];
      pts, xs := [], [];
      var x, y: nat, err := r, 0, 0;
      CircleStart(r);
      while x >= y
        invariant Painted(was, mem[..], pts, color) && pts == Octants(cx, cy, xs) && |xs| == y && Rows(xs, r)
        invariant CircleAt(err, x, y, r)
        decreases x - y
      {
        CircleRow(err, x, y, r);
        CircleStep(err, x, y, r);
        OctantsStep(cx, cy, xs, x);
        pts := EightPixels(cx, cy, x, y, color, was, pts);
        xs := xs + [x];
        y := y + 1;
        if err <= 0 {
          err := err + (2 * y + 1);
        }
        if err > 0 {
          x := x - 1;
          err := err - (2 * x + 1);
        }
      }
      if r >= 0 {
        forall z: nat
          ensures z < |xs| <==> 2 * z * z + 2 * z <= r * r
        {
          if z < |xs| { CircleRowCount(xs[z], z, r); } else { CircleEnd(err, x, y, r, z); }
        }
      }
    }

    /** The eight reflections of a point. */
    method EightPixels(cx: int, cy: int, x: int, y: int, color: nat, ghost was: seq<nat>, ghost pts0: seq<Point>)
      returns (ghost pts: seq<Point>)
      requires mem.Length == WIDTH * HEIGHT == |was| && Painted(was, mem[..], pts0, color)
      modifies mem
      ensures Painted(was, mem[..], pts, color) && pts == pts0 + Eight(cx, cy, x, y)
    {
      pts := FourPixels(Point(cx + x, cy + y), Point(cx + y, cy + x), Point(cx - y, cy + x), Point(cx - x, cy + y),
          color, was, pts0);
      pts := FourPixels(Point(cx - x, cy - y), Point(cx - y, cy - x), Point(cx + y, cy - x), Point(cx + x, cy - y),
          color, was, pts);
      Regroup(pts0, Eight(cx, cy, x, y)[..4], Eight(cx, cy, x, y)[4..]);
      assert Eight(cx, cy, x, y) == Eight(cx, cy, x, y)[..4] + Eight(cx, cy, x, y)[4..];
    }

    method FourPixels(p: Point, q: Point, r: Point, t: Point, color: nat, ghost was: seq<nat>, ghost pts0: seq<Point>)
      returns (ghost pts: seq<Point>)
      requires mem.Length == WIDTH * HEIGHT == |was| && Painted(was, mem[..], pts0, color)
      modifies mem
      ensures Painted(was, mem[..], pts, color) && pts == pts0 + [p, q, r, t]
    {
      DrawPixel(p.x, p.y, color, was, pts0);
      DrawPixel(q.x, q.y, color, was, pts0 + [p]);
      DrawPixel(r.x, r.y, color, was, pts0 + [p] + [q]);
      DrawPixel(t.x, t.y, color, was, pts0 + [p] + [q] + [r]);
      pts := pts0 + [p] + [q] + [r] + [t];
    }
  }
}
