/**
 * Model of src/app/tool_utils.rs: the editing tool selector and the
 * integer line rasteriser `get_line_points` that pen strokes are built on.
 * Pixel stamping (`draw_line`), colour conversion and the float
 * widget-to-image mapping are not part of this model.
 */
module ToolUtils {

  /** The editing tool that pointer drags drive. */
  datatype Tool = None | Pen | Crop

  type Point = (int, int)

  const I32Min: int := -0x8000_0000
  const I32Max: int := 0x7FFF_FFFF

  predicate IsI32(v: int) { I32Min <= v <= I32Max }

  /**
   * Coordinates strictly inside (-2^28, 2^28) keep every intermediate value of
   * the rasteriser, `2 * err` included, inside the range of an i32.
   */
  const CoordBound: int := 0x1000_0000

  predicate InCoordRange(v: int) { -CoordBound < v < CoordBound }

  function Abs(v: int): int { if v < 0 then -v else v }

  function Max(a: int, b: int): int { if a < b then b else a }

  function Min(a: int, b: int): int { if a < b then a else b }

  /** The unit step from `a` toward `b` as the source computes it (`-1` when they are equal). */
  function StepToward(a: int, b: int): int { if a < b then 1 else -1 }

  predicate Between(v: int, a: int, b: int) { Min(a, b) <= v <= Max(a, b) }

  /** Every point lies in the bounding box of the two endpoints. */
  predicate InBox(r: seq<Point>, x0: int, y0: int, x1: int, y1: int) {
    forall k :: 0 <= k < |r| ==> Between(r[k].0, x0, x1) && Between(r[k].1, y0, y1)
  }

  /** `q` follows `p` by 0 or `sx` in x and 0 or `sy` in y, and is not `p` itself. */
  predicate IsStep(p: Point, q: Point, sx: int, sy: int) {
    (q.0 == p.0 || q.0 == p.0 + sx) && (q.1 == p.1 || q.1 == p.1 + sy) && p != q
  }

  /** Consecutive points are neighbours in the direction (sx, sy): no gaps and no repeats. */
  predicate ConnectedSteps(r: seq<Point>, sx: int, sy: int) {
    forall k :: 0 <= k < |r| - 1 ==> IsStep(r[k], r[k + 1], sx, sy)
  }

  /**
   * `a * b` by repeated addition. The loop's error term is a product of the
   * step counts and the deltas; keeping it behind this recursive definition
   * keeps non-linear arithmetic out of the loop's proof, and MulIsProduct
   * connects it to `*` where a lemma needs the arithmetic.
   */
  function Mul(a: nat, b: int): int {
    if a == 0 then 0 else Mul(a - 1, b) + b
  }

  lemma {:induction false} MulIsProduct(a: nat, b: int)
    ensures Mul(a, b) == a * b
  {
    if a > 0 {
      MulIsProduct(a - 1, b);
    }
  }

  lemma MulMonotone(a: int, b: int, c: nat)
    requires a <= b
    ensures a * c <= b * c
  {
  }

  /**
   * The rasteriser's error term after `i` steps along x and `j` steps along y:
   * it is the signed distance of the point from the ideal line (scaled), and
   * its bounds keep that distance within half the dominant delta, a tie
   * leaving the other axis behind.
   */
  predicate ErrFormula(dx: int, dy: int, i: nat, j: nat, err: int) {
    err == Mul(j + 1, dx) - Mul(i + 1, dy)
  }

  predicate ErrBounds(dx: int, dy: int, i: int, j: int, err: int) {
    && 0 <= i <= dx && 0 <= j <= dy
    && (dx > dy ==> -dx <= 2 * (err - dx + dy) < dx)
    && (dy > dx ==> -dy < 2 * (err - dx + dy) <= dy)
    && (dx == dy ==> err == 0)
    && (dx >= dy ==> j <= i)
    && (dy >= dx ==> i <= j)
  }

  /** Once one coordinate has reached its end, the error term stops it from moving further. */
  lemma NoOvershoot(dx: int, dy: int, i: nat, j: nat, err: int)
    requires ErrFormula(dx, dy, i, j, err)
    requires 0 <= i <= dx && 0 <= j <= dy
    ensures i == dx && j < dy ==> 2 * err <= -dy
    ensures j == dy && i < dx ==> 2 * err >= dx
  {
    MulIsProduct(j + 1, dx);
    MulIsProduct(i + 1, dy);
    if i == dx && j < dy {
      MulMonotone(j + 1, dy, dx);
      assert err == (j + 1) * dx - dx * dy - dy;
    }
    if j == dy && i < dx {
      MulMonotone(i + 1, dx, dy);
      assert err == dy * dx + dx - (i + 1) * dy;
    }
  }

  /**
   * One iteration of the loop from a point that is not the end point: it
   * never overshoots either end coordinate, it always moves, the dominant
   * axis always advances, and the bounds on the error term are kept.
   */
  lemma StepKeepsBounds(dx: int, dy: int, i: nat, j: nat, err: int, stepX: bool, stepY: bool, i': nat, j': nat, err': int)
    requires ErrBounds(dx, dy, i, j, err)
    requires i == dx && j < dy ==> 2 * err <= -dy
    requires j == dy && i < dx ==> 2 * err >= dx
    requires !(i == dx && j == dy)
    requires stepX == (2 * err > -dy) && stepY == (2 * err < dx)
    requires i' == (if stepX then i + 1 else i) && j' == (if stepY then j + 1 else j)
    requires err' == err - (if stepX then dy else 0) + (if stepY then dx else 0)
    ensures ErrBounds(dx, dy, i', j', err')
    ensures Max(i', j') == Max(i, j) + 1
  {
  }

  /**
   * The loop state after `i` steps along x and `j` along y: the current point
   * (x, y) and the error term that goes with it.
   */
  predicate AtStep(x0: int, y0: int, x1: int, y1: int, i: nat, j: nat, err: int, x: int, y: int) {
    var ok := ErrFormula(Abs(x1 - x0), Abs(y1 - y0), i, j, err)
    && ErrBounds(Abs(x1 - x0), Abs(y1 - y0), i, j, err)
    && x == (if x0 < x1 then x0 + i else x0 - i)
    && y == (if y0 < y1 then y0 + j else y0 - j); ok
  }

  lemma AtEnd(x0: int, y0: int, x1: int, y1: int, i: nat, j: nat, err: int)
    requires AtStep(x0, y0, x1, y1, i, j, err, x1, y1)
    ensures i == Abs(x1 - x0) && j == Abs(y1 - y0)
  {
  }

  /**
   * `p` is where the `k`-th point of the line from (x0, y0) to (x1, y1) must
   * be: `k` steps from the start along the dominant axis, and along the other
   * axis at the offset nearest the ideal line, a tie going to the offset
   * nearer the start.
   */
  predicate NearLine(p: Point, x0: int, y0: int, x1: int, y1: int, k: nat) {
    var dx, dy := Abs(x1 - x0), Abs(y1 - y0);
    var a, b := Abs(p.0 - x0), Abs(p.1 - y0);
    var d := 2 * (Mul(b, dx) - Mul(a, dy));
    && (dx >= dy ==> a == k) && (dy >= dx ==> b == k)
    && (dx > dy ==> -dx <= d < dx)
    && (dy > dx ==> -dy < d <= dy)
  }

  /** The loop's current point is the point its step count calls for. */
  lemma AtStepNearLine(x0: int, y0: int, x1: int, y1: int, i: nat, j: nat, err: int, x: int, y: int)
    requires AtStep(x0, y0, x1, y1, i, j, err, x, y)
    ensures NearLine((x, y), x0, y0, x1, y1, Max(i, j))
  {
    var dx, dy := Abs(x1 - x0), Abs(y1 - y0);
    assert Mul(j + 1, dx) == Mul(j, dx) + dx;
    assert Mul(i + 1, dy) == Mul(i, dy) + dy;
  }

  /**
   * The `k`-th point of the line from (x0, y0) to (x1, y1) in closed form:
   * the dominant axis moves `k`, and the other axis moves its share of `k`
   * rounded to the nearest whole step, halves rounded toward the start.
   */
  function LinePoint(x0: int, y0: int, x1: int, y1: int, k: nat): Point {
    var dx, dy := Abs(x1 - x0), Abs(y1 - y0);
    var a := if dx >= dy then k else (2 * k * dx + dy - 1) / (2 * dy);
    var b := if dy >= dx then k else (2 * k * dy + dx - 1) / (2 * dx);
    (if x0 < x1 then x0 + a else x0 - a, if y0 < y1 then y0 + b else y0 - b)
  }

  lemma DivUnique(n: int, m: int, q: int)
    requires m > 0 && m * q <= n < m * q + m
    ensures n / m == q
  {
    var r := n / m;
    MulStepsApart(q, r, m);
    MulStepsApart(r, q, m);
  }

  /** Distinct whole multiples of `c` are at least `c` apart. */
  lemma MulStepsApart(a: int, b: int, c: nat)
    ensures a < b ==> a * c + c <= b * c
  {
    if a < b {
      MulMonotone(a + 1, b, c);
    }
  }

  /**
   * Along the other axis, an offset `m` whose distance from the ideal line
   * has the bounds NearLine gives is the rounded share of `k` that
   * LinePoint computes (`dk` is the dominant delta, `dm` the other one).
   */
  lemma RoundedShare(k: nat, m: nat, dk: int, dm: int)
    requires dk > dm >= 0
    requires -dk <= 2 * (Mul(m, dk) - Mul(k, dm)) < dk
    ensures m == (2 * k * dm + dk - 1) / (2 * dk)
  {
    MulIsProduct(m, dk);
    MulIsProduct(k, dm);
    DoubleProduct(k, dm);
    DoubleProduct(dk, m);
    DivUnique(2 * k * dm + dk - 1, 2 * dk, m);
  }

  lemma DoubleProduct(a: int, b: int)
    ensures (2 * a) * b == 2 * (a * b) == 2 * (b * a)
  {
  }

  /** A point inside the box that lies where the `k`-th point must be is the closed-form point. */
  lemma NearLineIsLinePoint(p: Point, x0: int, y0: int, x1: int, y1: int, k: nat)
    requires NearLine(p, x0, y0, x1, y1, k)
    requires Between(p.0, x0, x1) && Between(p.1, y0, y1)
    ensures p == LinePoint(x0, y0, x1, y1, k)
  {
    var dx, dy := Abs(x1 - x0), Abs(y1 - y0);
    var a, b := Abs(p.0 - x0), Abs(p.1 - y0);
    if dx > dy {
      RoundedShare(a, b, dx, dy);
    } else if dy > dx {
      RoundedShare(b, a, dy, dx);
    }
  }

  /**
   * One pass through the loop body from a point other than (x1, y1): the next
   * point is a neighbour in the direction of the end point, the dominant axis
   * always advances, `2 * err` fits in an i32, and the loop state is kept.
   */
  lemma LoopStep(x0: int, y0: int, x1: int, y1: int,
                 i: nat, j: nat, err: int, x: int, y: int,
                 stepX: bool, stepY: bool, i': nat, j': nat, err': int, x': int, y': int)
    requires InCoordRange(x0) && InCoordRange(y0) && InCoordRange(x1) && InCoordRange(y1)
    requires AtStep(x0, y0, x1, y1, i, j, err, x, y)
    requires (x, y) != (x1, y1)
    requires stepX == (2 * err > -Abs(y1 - y0)) && stepY == (2 * err < Abs(x1 - x0))
    requires
      && i' == (if stepX then i + 1 else i)
      && j' == (if stepY then j + 1 else j)
      && err' == err - (if stepX then Abs(y1 - y0) else 0) + (if stepY then Abs(x1 - x0) else 0)
      && x' == (if stepX then x + StepToward(x0, x1) else x)
      && y' == (if stepY then y + StepToward(y0, y1) else y)
    ensures IsI32(2 * err)
    ensures AtStep(x0, y0, x1, y1, i', j', err', x', y')
    ensures Between(x', x0, x1) && Between(y', y0, y1)
    ensures IsStep((x, y), (x', y'), StepToward(x0, x1), StepToward(y0, y1))
    ensures Max(i', j') == Max(i, j) + 1
    ensures i' + j' > i + j
  {
    var dx, dy := Abs(x1 - x0), Abs(y1 - y0);
    NoOvershoot(dx, dy, i, j, err);
    StepKeepsBounds(dx, dy, i, j, err, stepX, stepY, i', j', err');
  }

  /**
   * What the loop has produced so far: a path from (x0, y0) to the current
   * point (x, y), inside the box, that has not passed through (x1, y1) before
   * and whose `k`-th point lies where the `k`-th point of the line must be.
   */
  predicate PathSoFar(result: seq<Point>, x0: int, y0: int, x1: int, y1: int, x: int, y: int) {
    var ok := |result| > 0
    && result[0] == (x0, y0)
    && result[|result| - 1] == (x, y)
    && (forall k :: 0 <= k < |result| - 1 ==> result[k] != (x1, y1))
    && ConnectedSteps(result, StepToward(x0, x1), StepToward(y0, y1))
    && InBox(result, x0, y0, x1, y1)
    && (forall k :: 0 <= k < |result| ==> NearLine(result[k], x0, y0, x1, y1, k)); ok
  }

  lemma PathExtends(result: seq<Point>, x0: int, y0: int, x1: int, y1: int, x: int, y: int, x': int, y': int)
    requires PathSoFar(result, x0, y0, x1, y1, x, y)
    requires (x, y) != (x1, y1)
    requires IsStep((x, y), (x', y'), StepToward(x0, x1), StepToward(y0, y1))
    requires Between(x', x0, x1) && Between(y', y0, y1)
    requires NearLine((x', y'), x0, y0, x1, y1, |result|)
    ensures PathSoFar(result + [(x', y')], x0, y0, x1, y1, x', y')
  {
  }

  /** The loop invariant: the error term and the step counts, and the path they produced. */
  predicate LoopState(result: seq<Point>, x0: int, y0: int, x1: int, y1: int,
                      i: nat, j: nat, err: int, x: int, y: int) {
    AtStep(x0, y0, x1, y1, i, j, err, x, y) && |result| == Max(i, j) + 1 && PathSoFar(result, x0, y0, x1, y1, x, y)
  }

  /** Before the first pass: no steps taken, the error term at `dx - dy`, and only the start point produced. */
  lemma LoopStart(x0: int, y0: int, x1: int, y1: int)
    ensures LoopState([(x0, y0)], x0, y0, x1, y1, 0, 0, Abs(x1 - x0) - Abs(y1 - y0), x0, y0)
  {
    var dx, dy := Abs(x1 - x0), Abs(y1 - y0);
    assert ErrFormula(dx, dy, 0, 0, dx - dy);
    AtStepNearLine(x0, y0, x1, y1, 0, 0, dx - dy, x0, y0);
  }

  /** One pass through the loop body, for the state and for the path produced so far. */
  lemma LoopBody(result: seq<Point>, x0: int, y0: int, x1: int, y1: int,
                 i: nat, j: nat, err: int, x: int, y: int,
                 stepX: bool, stepY: bool, i': nat, j': nat, err': int, x': int, y': int)
    requires InCoordRange(x0) && InCoordRange(y0) && InCoordRange(x1) && InCoordRange(y1)
    requires LoopState(result, x0, y0, x1, y1, i, j, err, x, y)
    requires (x, y) != (x1, y1)
    requires stepX == (2 * err > -Abs(y1 - y0)) && stepY == (2 * err < Abs(x1 - x0))
    requires
      && i' == (if stepX then i + 1 else i)
      && j' == (if stepY then j + 1 else j)
      && err' == err - (if stepX then Abs(y1 - y0) else 0) + (if stepY then Abs(x1 - x0) else 0)
      && x' == (if stepX then x + StepToward(x0, x1) else x)
      && y' == (if stepY then y + StepToward(y0, y1) else y)
    ensures LoopState(result + [(x', y')], x0, y0, x1, y1, i', j', err', x', y')
    ensures i' + j' > i + j
  {
    LoopStep(x0, y0, x1, y1, i, j, err, x, y, stepX, stepY, i', j', err', x', y');
    AtStepNearLine(x0, y0, x1, y1, i', j', err', x', y');
    PathExtends(result, x0, y0, x1, y1, x, y, x', y');
  }

  /**
   * When the loop stops at (x1, y1), the path it produced is the whole line:
   * one point per step of the dominant axis, each the closed-form point for
   * its position.
   */
  lemma PathIsLine(result: seq<Point>, x0: int, y0: int, x1: int, y1: int, i: nat, j: nat, err: int)
    requires LoopState(result, x0, y0, x1, y1, i, j, err, x1, y1)
    ensures |result| == Max(Abs(x1 - x0), Abs(y1 - y0)) + 1
    ensures result[0] == (x0, y0)
    ensures result[|result| - 1] == (x1, y1)
    ensures forall k :: 0 <= k < |result| - 1 ==> result[k] != (x1, y1)
    ensures ConnectedSteps(result, StepToward(x0, x1), StepToward(y0, y1))
    ensures InBox(result, x0, y0, x1, y1)
    ensures forall k :: 0 <= k < |result| ==> result[k] == LinePoint(x0, y0, x1, y1, k)
  {
    AtEnd(x0, y0, x1, y1, i, j, err);
    forall k | 0 <= k < |result|
      ensures result[k] == LinePoint(x0, y0, x1, y1, k)
    {
      NearLineIsLinePoint(result[k], x0, y0, x1, y1, k);
    }
  }

  /**
   * The Bresenham loop of `get_line_points`: the points from (x0, y0) to
   * (x1, y1), both included, stepping the dominant axis on every iteration.
   * The source's `loop` pushes the current point and then stops if it is the
   * end point; here the first push is made before the loop and every later
   * push at the end of the body, which produces the same sequence. Every
   * point is the one LinePoint gives for its position in the output.
   */
  method GetLinePoints(x0: int, y0: int, x1: int, y1: int) returns (result: seq<Point>)
    requires InCoordRange(x0) && InCoordRange(y0) && InCoordRange(x1) && InCoordRange(y1)
    ensures |result| == Max(Abs(x1 - x0), Abs(y1 - y0)) + 1
    ensures result[0] == (x0, y0)
    ensures result[|result| - 1] == (x1, y1)
    ensures forall k :: 0 <= k < |result| - 1 ==> result[k] != (x1, y1)
    ensures ConnectedSteps(result, StepToward(x0, x1), StepToward(y0, y1))
    ensures InBox(result, x0, y0, x1, y1)
    ensures forall k :: 0 <= k < |result| ==> result[k] == LinePoint(x0, y0, x1, y1, k)
  {
    var dx: int := Abs(x1 - x0);
    var dy: int := Abs(y1 - y0);
    var sx := StepToward(x0, x1);
    var sy := StepToward(y0, y1);
    var x, y := x0, y0;
    var err := dx - dy;
    // steps taken so far along each axis
    ghost var i: nat, j: nat := 0, 0;
    LoopStart(x0, y0, x1, y1);

    result := [(x, y)];
    while !(x == x1 && y == y1)
      invariant LoopState(result, x0, y0, x1, y1, i, j, err, x, y)
      decreases dx - i + dy - j
    {
      ghost var pi, pj, perr, px, py := i, j, err, x, y;
      var e2 := 2 * err;
      if e2 > -dy {
        err := err - dy;
        x := x + sx;
        i := i + 1;
      }
      if e2 < dx {
        err := err + dx;
        y := y + sy;
        j := j + 1;
      }
      LoopBody(result, x0, y0, x1, y1, pi, pj, perr, px, py, e2 > -dy, e2 < dx, i, j, err, x, y);
      result := result + [(x, y)];
    }
    PathIsLine(result, x0, y0, x1, y1, i, j, err);
  }

  /** `b` is reached from `a` by moving in the direction of the unit step `s` (or not at all). */
  predicate Toward(a: int, b: int, s: int) { if s > 0 then a <= b else b <= a }

  /** Distance travelled in the direction (sx, sy), counted along both axes. */
  function Progress(p: Point, sx: int, sy: int): int {
    (if sx > 0 then p.0 else -p.0) + (if sy > 0 then p.1 else -p.1)
  }

  /**
   * Along a connected path every later point is further in the direction
   * (sx, sy) than every earlier one: x moves monotonically toward x1, y toward
   * y1, and each step adds at least one to the progress.
   */
  lemma {:induction false} StepsAreMonotone(r: seq<Point>, sx: int, sy: int, k: nat, l: nat)
    requires sx == 1 || sx == -1
    requires sy == 1 || sy == -1
    requires ConnectedSteps(r, sx, sy)
    requires k <= l < |r|
    ensures Toward(r[k].0, r[l].0, sx) && Toward(r[k].1, r[l].1, sy)
    ensures Progress(r[l], sx, sy) >= Progress(r[k], sx, sy) + (l - k)
    decreases l - k
  {
    if k < l {
      StepsAreMonotone(r, sx, sy, k, l - 1);
      assert IsStep(r[l - 1], r[l], sx, sy);
    }
  }

  /** A connected path never visits a point twice. */
  lemma NoRepeatedPoints(r: seq<Point>, sx: int, sy: int)
    requires sx == 1 || sx == -1
    requires sy == 1 || sy == -1
    requires ConnectedSteps(r, sx, sy)
    ensures forall k, l :: 0 <= k < l < |r| ==> r[k] != r[l]
  {
    forall k, l | 0 <= k < l < |r|
      ensures r[k] != r[l]
    {
      StepsAreMonotone(r, sx, sy, k, l);
    }
  }

  /** A connected path that stays on the row `y` and starts at (x0, y) walks it one column per point. */
  lemma {:induction false} RowWalk(r: seq<Point>, x0: int, y: int, n: nat)
    requires ConnectedSteps(r, 1, -1)
    requires forall k :: 0 <= k < |r| ==> r[k].1 == y
    requires |r| > 0 && r[0] == (x0, y)
    requires n < |r|
    ensures r[n] == (x0 + n, y)
  {
    if n > 0 {
      RowWalk(r, x0, y, n - 1);
      assert IsStep(r[n - 1], r[n], 1, -1);
    }
  }

  /**
   * The line along a row, from left to right: the points (x0, y), (x0 + 1, y),
   * ..., (x1, y) in order. With x0 == x1 this is the single point (x0, y).
   */
  method RowLinePoints(x0: int, x1: int, y: int) returns (result: seq<Point>)
    requires InCoordRange(x0) && InCoordRange(x1) && InCoordRange(y)
    requires x0 <= x1
    ensures |result| == x1 - x0 + 1
    ensures forall k :: 0 <= k < |result| ==> result[k] == (x0 + k, y)
  {
    result := GetLinePoints(x0, y, x1, y);
    assert StepToward(y, y) == -1;
    forall k | 0 <= k < |result|
      ensures result[k] == (x0 + k, y)
    {
      RowWalk(result, x0, y, k);
    }
  }

  /** From (0, 0) to (5, 0) the rasteriser yields the six points of the row, in order. */
  method FiveStepExample() returns (result: seq<Point>)
    ensures result == [(0, 0), (1, 0), (2, 0), (3, 0), (4, 0), (5, 0)]
  {
    result := RowLinePoints(0, 5, 0);
  }

  /**
   * From (0, 0) to (4, 2) the rasteriser steps x every time and y every
   * other time, the tie at x = 1 keeping y at 0.
   */
  method ShallowLineExample() returns (result: seq<Point>)
    ensures result == [(0, 0), (1, 0), (2, 1), (3, 1), (4, 2)]
  {
    result := GetLinePoints(0, 0, 4, 2);
    assert |result| == 5;
    assert result[1] == LinePoint(0, 0, 4, 2, 1) == (1, 0);
    assert result[2] == LinePoint(0, 0, 4, 2, 2) == (2, 1);
    assert result[3] == LinePoint(0, 0, 4, 2, 3) == (3, 1);
    FiveElements(result);
  }

  lemma FiveElements(r: seq<Point>)
    requires |r| == 5
    ensures r == [r[0], r[1], r[2], r[3], r[4]]
  {
  }

  /** Equal endpoints yield the single point. */
  method SinglePointLine(x: int, y: int) returns (result: seq<Point>)
    requires InCoordRange(x) && InCoordRange(y)
    ensures result == [(x, y)]
  {
    result := GetLinePoints(x, y, x, y);
  }
}
