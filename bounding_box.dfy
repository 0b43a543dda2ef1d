// packages/wasm-utils/src/bounding-box.ts: axis-aligned bounding boxes kept
// as six numbers [xMin, xMax, yMin, yMax, zMin, zMax] in a mutable array.
module BoundingBox {
  import opened JsCommon

  /** `Number.MAX_VALUE`, the largest finite double, as an exact number. */
  const MaxValue: real :=
    179769313486231570814527423731704356798070567525844996598917476803157260780028538760589558632766878171540458953514382464234321326889464182768467546703537516986049910576551282076245490090389328944075868508455133942304583236903222948165808559332123348274797826204144723168738177180919299881250404026184124858368.0

  type Vec3 = (real, real, real)

  /** The empty box: every min at `MAX_VALUE` and every max at `-MAX_VALUE`. */
  const InitBounds: seq<real> := [MaxValue, -MaxValue, MaxValue, -MaxValue, MaxValue, -MaxValue]

  /** Coordinate `axis` (0, 1 or 2) of a point. */
  function Coord(p: Vec3, axis: int): real
    requires 0 <= axis < 3
  {
    if axis == 0 then p.0 else if axis == 1 then p.1 else p.2
  }

  /** A finite coordinate: no JavaScript number lies outside [-MAX_VALUE, MAX_VALUE]. */
  predicate InRange(p: Vec3) {
    forall axis :: 0 <= axis < 3 ==> -MaxValue <= Coord(p, axis) <= MaxValue
  }

  /** Every axis has its min at or below its max. */
  predicate WellOrdered(b: seq<real>)
    requires |b| == 6
  {
    b[0] <= b[1] && b[2] <= b[3] && b[4] <= b[5]
  }

  /** The point lies in the box on every axis. */
  predicate ContainsPoint(b: seq<real>, p: Vec3)
    requires |b| == 6
  {
    forall axis :: 0 <= axis < 3 ==> b[2 * axis] <= Coord(p, axis) <= b[2 * axis + 1]
  }

  /** `createBounds()`: a fresh copy of the empty box. */
  method CreateBounds() returns (bounds: array<real>)
    ensures fresh(bounds) && bounds[..] == InitBounds
    ensures forall p :: InRange(p) ==> AddedPoint(bounds[..], p) == [p.0, p.0, p.1, p.1, p.2, p.2]
  {
    bounds := new real[6];
    bounds[0], bounds[1] := MaxValue, -MaxValue;
    bounds[2], bounds[3] := MaxValue, -MaxValue;
    bounds[4], bounds[5] := MaxValue, -MaxValue;
    assert bounds[..] == InitBounds;
    forall p | InRange(p) ensures AddedPoint(bounds[..], p) == [p.0, p.0, p.1, p.1, p.2, p.2] {
      AddToEmpty(p);
    }
  }

  /** The box after `addPoint(bounds, x, y, z)`, as a value. */
  function AddedPoint(b: seq<real>, p: Vec3): (r: seq<real>)
    requires |b| == 6
    ensures |r| == 6
  {
    [if b[0] < p.0 then b[0] else p.0, if b[1] > p.0 then b[1] else p.0,
     if b[2] < p.1 then b[2] else p.1, if b[3] > p.1 then b[3] else p.1,
     if b[4] < p.2 then b[4] else p.2, if b[5] > p.2 then b[5] else p.2]
  }

  /**
   * After adding a point, the box contains it, no min went up and no max went
   * down, and each new bound is the old bound or the point's coordinate.
   */
  lemma AddedPointGrows(b: seq<real>, p: Vec3)
    requires |b| == 6
    ensures ContainsPoint(AddedPoint(b, p), p) && WellOrdered(AddedPoint(b, p))
    ensures forall i :: 0 <= i < 3 ==>
      var r := AddedPoint(b, p);
      r[2 * i] == Min(b[2 * i], Coord(p, i)) && r[2 * i + 1] == Max(b[2 * i + 1], Coord(p, i))
    ensures forall q :: ContainsPoint(b, q) ==> ContainsPoint(AddedPoint(b, p), q)
  {
  }

  /** Adding a finite point to the empty box gives the degenerate box at that point. */
  lemma AddToEmpty(p: Vec3)
    requires InRange(p)
    ensures AddedPoint(InitBounds, p) == [p.0, p.0, p.1, p.1, p.2, p.2]
  {
    assert -MaxValue <= Coord(p, 0) <= MaxValue;
    assert -MaxValue <= Coord(p, 1) <= MaxValue;
    assert -MaxValue <= Coord(p, 2) <= MaxValue;
  }

  lemma AddToEmptyAt(p: Vec3, i: int)
    requires InRange(p) && 0 <= i < 6
    ensures AddedPoint(InitBounds, p)[i] == Coord(p, i / 2)
  {
    AddToEmpty(p);
    var e := [p.0, p.0, p.1, p.1, p.2, p.2];
    if i < 2 { assert i / 2 == 0; } else if i < 4 { assert i / 2 == 1; } else { assert i / 2 == 2; }
    assert e[i] == Coord(p, i / 2);
  }

  /** Adding points is order-independent, and adding a point twice changes nothing. */
  lemma AddedPointCommutes(b: seq<real>, p: Vec3, q: Vec3)
    requires |b| == 6
    ensures AddedPoint(AddedPoint(b, p), q) == AddedPoint(AddedPoint(b, q), p)
    ensures AddedPoint(AddedPoint(b, p), p) == AddedPoint(b, p)
  {
  }

  /** The box of a list of points, added one after another to `b`. */
  function AddedPoints(b: seq<real>, ps: seq<Vec3>): (r: seq<real>)
    requires |b| == 6
    ensures |r| == 6
    decreases |ps|
  {
    if ps == [] then b else AddedPoints(AddedPoint(b, ps[0]), ps[1..])
  }

  /** The box of a list of points contains every one of them. */
  lemma {:induction false} AddedPointsContain(b: seq<real>, ps: seq<Vec3>)
    requires |b| == 6
    ensures forall k :: 0 <= k < |ps| ==> ContainsPoint(AddedPoints(b, ps), ps[k])
    decreases |ps|
  {
    if ps != [] {
      var b' := AddedPoint(b, ps[0]);
      AddedPointGrows(b, ps[0]);
      AddedPointsContain(b', ps[1..]);
      ContainedStays(b', ps[1..], ps[0]);
      forall k | 1 <= k < |ps| ensures ContainsPoint(AddedPoints(b, ps), ps[k]) {
        assert ps[k] == ps[1..][k - 1];
      }
    }
  }

  /** Each bound of the box of a list of points is the starting bound or a coordinate of one of the points. */
  lemma {:induction false} AddedPointsAttained(b: seq<real>, ps: seq<Vec3>, i: int)
    requires |b| == 6 && 0 <= i < 6
    ensures AddedPoints(b, ps)[i] == b[i]
      || exists k :: 0 <= k < |ps| && AddedPoints(b, ps)[i] == Coord(ps[k], i / 2)
    decreases |ps|
  {
    if ps != [] {
      var b' := AddedPoint(b, ps[0]);
      assert b'[i] == b[i] || b'[i] == Coord(ps[0], i / 2);
      AddedPointsAttained(b', ps[1..], i);
      if AddedPoints(b, ps)[i] != b'[i] {
        var k :| 0 <= k < |ps[1..]| && AddedPoints(b', ps[1..])[i] == Coord(ps[1..][k], i / 2);
        assert ps[1..][k] == ps[k + 1];
      }
    }
  }

  /**
   * Starting from the empty box, every bound of the box of a non-empty list
   * of finite points is a coordinate of one of them: with
   * `AddedPointsContain`, it is the tightest box around them.
   */
  lemma EmptyBoxTight(ps: seq<Vec3>, i: int)
    requires ps != [] && 0 <= i < 6
    requires forall k :: 0 <= k < |ps| ==> InRange(ps[k])
    ensures exists k :: 0 <= k < |ps| && AddedPoints(InitBounds, ps)[i] == Coord(ps[k], i / 2)
  {
    AddToEmptyAt(ps[0], i);
    FirstPointTight(InitBounds, ps, i);
  }

  lemma FirstPointTight(b: seq<real>, ps: seq<Vec3>, i: int)
    requires |b| == 6 && ps != [] && 0 <= i < 6
    requires AddedPoint(b, ps[0])[i] == Coord(ps[0], i / 2)
    ensures exists k :: 0 <= k < |ps| && AddedPoints(b, ps)[i] == Coord(ps[k], i / 2)
  {
    var b' := AddedPoint(b, ps[0]);
    assert AddedPoints(b, ps) == AddedPoints(b', ps[1..]);
    AddedPointsAttained(b', ps[1..], i);
    if AddedPoints(b', ps[1..])[i] != b'[i] {
      var k :| 0 <= k < |ps[1..]| && AddedPoints(b', ps[1..])[i] == Coord(ps[1..][k], i / 2);
      assert ps[1..][k] == ps[k + 1];
    }
  }

  /** A point the box already contains stays contained as more points are added. */
  lemma {:induction false} ContainedStays(b: seq<real>, ps: seq<Vec3>, q: Vec3)
    requires |b| == 6 && ContainsPoint(b, q)
    ensures ContainsPoint(AddedPoints(b, ps), q)
    decreases |ps|
  {
    if ps != [] {
      AddedPointGrows(b, ps[0]);
      ContainedStays(AddedPoint(b, ps[0]), ps[1..], q);
    }
  }

  /** `addPoint(bounds, x, y, z)`: widens the box in place to take the point in, and returns it. */
  method AddPoint(bounds: array<real>, x: real, y: real, z: real) returns (r: array<real>)
    requires bounds.Length == 6
    modifies bounds
    ensures r == bounds && bounds[..] == AddedPoint(old(bounds[..]), (x, y, z))
  {
    var xMin, xMax, yMin, yMax, zMin, zMax := bounds[0], bounds[1], bounds[2], bounds[3], bounds[4], bounds[5];
    bounds[0] := if xMin < x then xMin else x;
    bounds[1] := if xMax > x then xMax else x;
    bounds[2] := if yMin < y then yMin else y;
    bounds[3] := if yMax > y then yMax else y;
    bounds[4] := if zMin < z then zMin else z;
    bounds[5] := if zMax > z then zMax else z;
    r := bounds;
  }

  /** The corner picking bound `ix` on x, `2 + iy` on y and `4 + iz` on z. */
  function Corner(b: seq<real>, ix: int, iy: int, iz: int): Vec3
    requires |b| == 6 && 0 <= ix < 2 && 0 <= iy < 2 && 0 <= iz < 2
  {
    (b[ix], b[2 + iy], b[4 + iz])
  }

  /** Corner number `n`, read as the three bits `ix iy iz`. */
  function CornerAt(b: seq<real>, n: int): Vec3
    requires |b| == 6 && 0 <= n < 8
  {
    Corner(b, n / 4, (n / 2) % 2, n % 2)
  }

  lemma CornerAtBits(b: seq<real>, ix: int, iy: int, iz: int)
    requires |b| == 6 && 0 <= ix < 2 && 0 <= iy < 2 && 0 <= iz < 2
    ensures CornerAt(b, 4 * ix + 2 * iy + iz) == Corner(b, ix, iy, iz)
  {
    var n := 4 * ix + 2 * iy + iz;
    assert n / 4 == ix && (n / 2) % 2 == iy && n % 2 == iz by {
      if ix == 0 {
        if iy == 0 { if iz == 0 { assert n == 0; } else { assert n == 1; } }
        else { if iz == 0 { assert n == 2; } else { assert n == 3; } }
      } else {
        if iy == 0 { if iz == 0 { assert n == 4; } else { assert n == 5; } }
        else { if iz == 0 { assert n == 6; } else { assert n == 7; } }
      }
    }
  }

  /**
   * `getCorners(bounds)`: the eight corners, x slowest and z fastest, so that
   * corner `4·ix + 2·iy + iz` takes min or max on each axis as its bits say.
   */
  method GetCorners(bounds: seq<real>) returns (corners: array<Vec3>)
    requires |bounds| == 6
    ensures fresh(corners) && corners.Length == 8
    ensures forall ix, iy, iz :: 0 <= ix < 2 && 0 <= iy < 2 && 0 <= iz < 2 ==>
      corners[4 * ix + 2 * iy + iz] == Corner(bounds, ix, iy, iz)
  {
    corners := new Vec3[8](_ => (0.0, 0.0, 0.0));
    var count := 0;
    for ix := 0 to 2
      invariant count == 4 * ix
      invariant forall n :: 0 <= n < count ==> corners[n] == CornerAt(bounds, n)
    {
      for iy := 2 to 4
        invariant count == 4 * ix + 2 * (iy - 2)
        invariant forall n :: 0 <= n < count ==> corners[n] == CornerAt(bounds, n)
      {
        for iz := 4 to 6
          invariant count == 4 * ix + 2 * (iy - 2) + (iz - 4)
          invariant forall n :: 0 <= n < count ==> corners[n] == CornerAt(bounds, n)
        {
          CornerAtBits(bounds, ix, iy - 2, iz - 4);
          corners[count] := (bounds[ix], bounds[iy], bounds[iz]);
          count := count + 1;
        }
      }
    }
    forall ix, iy, iz | 0 <= ix < 2 && 0 <= iy < 2 && 0 <= iz < 2
      ensures corners[4 * ix + 2 * iy + iz] == Corner(bounds, ix, iy, iz)
    {
      CornerAtBits(bounds, ix, iy, iz);
    }
  }

  /** Every corner of a well-ordered box lies in the box. */
  lemma CornersInside(b: seq<real>, ix: int, iy: int, iz: int)
    requires |b| == 6 && WellOrdered(b) && 0 <= ix < 2 && 0 <= iy < 2 && 0 <= iz < 2
    ensures ContainsPoint(b, Corner(b, ix, iy, iz))
  {
    var c := Corner(b, ix, iy, iz);
    assert Coord(c, 0) == b[ix] && Coord(c, 1) == b[2 + iy] && Coord(c, 2) == b[4 + iz];
  }

  /**
   * `getLength(bounds, index)`: the box's extent along an axis. Any index
   * other than 0, 1 or 2 reads past the six numbers and yields NaN.
   */
  function GetLength(bounds: seq<real>, index: int): (r: Num)
    requires |bounds| == 6
    ensures r.Fin? <==> 0 <= index < 3
    ensures r.Fin? ==> bounds[2 * index] + r.r == bounds[2 * index + 1]
  {
    if 0 <= index < 3 then Fin(bounds[index * 2 + 1] - bounds[index * 2]) else NonFinite
  }

  /** A box holding at least one point has no negative extent; the empty box has a negative one. */
  lemma LengthSign(b: seq<real>, p: Vec3, index: int)
    requires |b| == 6 && 0 <= index < 3
    ensures GetLength(AddedPoint(b, p), index).r >= 0.0
    ensures GetLength(InitBounds, index).r < 0.0
  {
    AddedPointGrows(b, p);
  }
}
