// packages/transfer-function-editor/lib/Points.ts: the curve extension
// helper and the sorted list of control points.
module Points {
  import opened JsCommon
  import Point

  /** A point as an `[x, y]` pair. */
  type Pair = (real, real)

  /** Where the original points start inside the extended list. */
  function Lead(points: seq<Pair>, clampEnds: bool): nat
    requires |points| >= 1
  {
    if clampEnds || points[0].0 > 0.0 then 1 else 0
  }

  /**
   * `extendPoints`: the curve is extended to the ends of [0, 1]. Without
   * points it is flat at 1, a single point is stretched flat across, and two
   * or more points are kept as a contiguous run, either wrapped by ends at
   * y = 0 (`clampEnds`) or continued flat to x = 0 and x = 1 when they do not
   * already reach that far.
   */
  function ExtendPoints(points: seq<Pair>, clampEnds: bool): (r: seq<Pair>)
    ensures |r| >= 2
  {
    if |points| == 0 then [(0.0, 1.0), (1.0, 1.0)]
    else if |points| == 1 then [(0.0, points[0].1), (1.0, points[0].1)]
    else
      var head, tail := points[0], points[|points| - 1];
      if clampEnds then [(head.0, 0.0)] + points + [(tail.0, 0.0)]
      else
        (if head.0 > 0.0 then [(0.0, head.1)] else [])
        + points
        + (if tail.0 < 1.0 then [(1.0, tail.1)] else [])
  }

  /** The shape `extendPoints` promises, stated over any input. */
  lemma ExtendPointsShape(points: seq<Pair>, clampEnds: bool)
    ensures |points| == 0 ==> ExtendPoints(points, clampEnds) == [(0.0, 1.0), (1.0, 1.0)]
    ensures |points| == 1 ==>
      ExtendPoints(points, clampEnds) == [(0.0, points[0].1), (1.0, points[0].1)]
    ensures |points| >= 2 ==>
      var r, k := ExtendPoints(points, clampEnds), Lead(points, clampEnds);
      k + |points| <= |r| && r[k..k + |points|] == points
    ensures |points| >= 2 && clampEnds ==>
      var r := ExtendPoints(points, clampEnds);
      |r| == |points| + 2 &&
      r[0] == (points[0].0, 0.0) && r[|r| - 1] == (points[|points| - 1].0, 0.0)
    ensures |points| >= 2 && !clampEnds ==>
      |ExtendPoints(points, clampEnds)|
        == |points| + (if points[0].0 > 0.0 then 1 else 0)
                    + (if points[|points| - 1].0 < 1.0 then 1 else 0)
    ensures !clampEnds ==>
      var r := ExtendPoints(points, clampEnds);
      r[0].0 <= 0.0 && r[|r| - 1].0 >= 1.0 &&
      (|points| >= 1 ==> r[0].1 == points[0].1 && r[|r| - 1].1 == points[|points| - 1].1)
  {
  }

  // ---------------------------------------------------------------------
  // The sorted container. Each `Point` object the container owns is a record
  // whose `id` stands for the object's identity.

  datatype PointRec = PointRec(id: nat, x: real, y: real)

  predicate SortedByX(s: seq<PointRec>) {
    forall i, j :: 0 <= i < j < |s| ==> s[i].x <= s[j].x
  }

  predicate IdsBelow(s: seq<PointRec>, n: nat) {
    forall k :: 0 <= k < |s| ==> s[k].id < n
  }

  /** Every element of a rearranged list already had an identity below `n`. */
  lemma IdsBelowSame(a: seq<PointRec>, b: seq<PointRec>, n: nat)
    requires IdsBelow(b, n) && forall e :: e in a ==> e in b
    ensures IdsBelow(a, n)
  {
    forall k | 0 <= k < |a| ensures a[k].id < n {
      assert a[k] in b;
    }
  }

  predicate UniqueIds(s: seq<PointRec>) {
    forall i, j :: 0 <= i < j < |s| ==> s[i].id != s[j].id
  }

  /**
   * Places `p` after every element of a sorted list whose x does not exceed
   * its own: where a stable sort puts an element that was pushed last.
   */
  function InsertByX(s: seq<PointRec>, p: PointRec): (r: seq<PointRec>)
    ensures multiset(r) == multiset(s) + multiset{p}
  {
    if s == [] then [p]
    else if s[0].x <= p.x then
      assert s == [s[0]] + s[1..];
      [s[0]] + InsertByX(s[1..], p)
    else [p] + s
  }

  /** Inserting into a sorted list keeps it sorted. */
  lemma {:induction false} InsertSorted(s: seq<PointRec>, p: PointRec)
    requires SortedByX(s)
    ensures SortedByX(InsertByX(s, p))
  {
    if s != [] && s[0].x <= p.x {
      InsertSorted(s[1..], p);
      var rest := InsertByX(s[1..], p);
      MultisetSameElements(rest, s[1..] + [p]);
      forall j | 0 <= j < |rest| ensures s[0].x <= rest[j].x {
        assert rest[j] in s[1..] + [p];
      }
    }
  }

  /**
   * `list.sort((a, b) => a.x - b.x)`. ECMAScript requires a stable sort, and a
   * stable sort has exactly one possible result, the one insertion sort gives.
   */
  function StableSortByX(s: seq<PointRec>): (r: seq<PointRec>)
    ensures SortedByX(r) && multiset(r) == multiset(s)
  {
    if s == [] then []
    else
      var init := StableSortByX(s[..|s| - 1]);
      assert s == s[..|s| - 1] + [s[|s| - 1]];
      InsertSorted(init, s[|s| - 1]);
      InsertByX(init, s[|s| - 1])
  }

  lemma {:induction false} InsertAfterAll(s: seq<PointRec>, p: PointRec)
    requires forall i :: 0 <= i < |s| ==> s[i].x <= p.x
    ensures InsertByX(s, p) == s + [p]
  {
    if s != [] {
      InsertAfterAll(s[1..], p);
    }
  }

  /** Sorting a list that is already sorted leaves it as it is. */
  lemma {:induction false} SortSorted(s: seq<PointRec>)
    requires SortedByX(s)
    ensures StableSortByX(s) == s
  {
    if s != [] {
      var init := s[..|s| - 1];
      SortSorted(init);
      InsertAfterAll(init, s[|s| - 1]);
      assert init + [s[|s| - 1]] == s;
    }
  }

  /** Pushing and then sorting a sorted list inserts after the equal keys. */
  lemma PushThenSort(s: seq<PointRec>, p: PointRec)
    requires SortedByX(s)
    ensures StableSortByX(s + [p]) == InsertByX(s, p)
  {
    assert (s + [p])[..|s + [p]| - 1] == s;
    SortSorted(s);
  }

  lemma MultisetSameElements(a: seq<PointRec>, b: seq<PointRec>)
    requires multiset(a) == multiset(b)
    ensures forall e :: e in a <==> e in b
  {
    forall e ensures e in a <==> e in b {
      assert e in a <==> e in multiset(a);
      assert e in b <==> e in multiset(b);
    }
  }

  lemma {:induction false} InsertUnique(s: seq<PointRec>, p: PointRec)
    requires UniqueIds(s)
    requires forall i :: 0 <= i < |s| ==> s[i].id != p.id
    ensures UniqueIds(InsertByX(s, p))
  {
    if s != [] && s[0].x <= p.x {
      InsertUnique(s[1..], p);
      var rest := InsertByX(s[1..], p);
      MultisetSameElements(rest, s[1..] + [p]);
      forall j | 0 <= j < |rest| ensures rest[j].id != s[0].id {
        assert rest[j] in s[1..] + [p];
      }
    }
  }

  /** Sorting never makes two entries share an id. */
  lemma {:induction false} SortUnique(s: seq<PointRec>)
    requires UniqueIds(s)
    ensures UniqueIds(StableSortByX(s))
  {
    if s != [] {
      var init := s[..|s| - 1];
      SortUnique(init);
      var sorted := StableSortByX(init);
      MultisetSameElements(sorted, init);
      forall i | 0 <= i < |sorted| ensures sorted[i].id != s[|s| - 1].id {
        assert sorted[i] in init;
      }
      InsertUnique(sorted, s[|s| - 1]);
    }
  }

  /** The list with every record of object `id` dropped: `filter((p) => p !== point)`. */
  function Without(s: seq<PointRec>, id: nat): (r: seq<PointRec>)
    ensures forall e :: e in r <==> e in s && e.id != id
  {
    if s == [] then []
    else
      var rest := Without(s[1..], id);
      assert forall e :: e in s <==> e == s[0] || e in s[1..];
      if s[0].id == id then rest else [s[0]] + rest
  }

  /** Dropping records keeps the order by x. */
  lemma {:induction false} WithoutSorted(s: seq<PointRec>, id: nat)
    requires SortedByX(s)
    ensures SortedByX(Without(s, id))
  {
    if s != [] {
      WithoutSorted(s[1..], id);
      var rest := Without(s[1..], id);
      if s[0].id != id {
        forall j | 0 <= j < |rest| ensures s[0].x <= rest[j].x {
          var k :| 0 <= k < |s[1..]| && s[1..][k] == rest[j];
          assert s[k + 1] == rest[j];
        }
      }
    }
  }

  /** Dropping records keeps the identities unique. */
  lemma {:induction false} WithoutUnique(s: seq<PointRec>, id: nat)
    requires UniqueIds(s)
    ensures UniqueIds(Without(s, id))
  {
    if s != [] {
      WithoutUnique(s[1..], id);
      var rest := Without(s[1..], id);
      if s[0].id != id {
        forall j | 0 <= j < |rest| ensures s[0].id != rest[j].id {
          var k :| 0 <= k < |s[1..]| && s[1..][k] == rest[j];
          assert s[k + 1] == rest[j];
        }
      }
    }
  }

  /** Sets the x (respectively y) coordinate of object `id`. */
  function WithX(s: seq<PointRec>, id: nat, x: real): (r: seq<PointRec>)
    ensures |r| == |s|
    ensures forall i :: 0 <= i < |s| ==>
      r[i] == if s[i].id == id then s[i].(x := x) else s[i]
  {
    seq(|s|, i requires 0 <= i < |s| => if s[i].id == id then s[i].(x := x) else s[i])
  }

  /** Changing a y keeps the order by x, the identities and their bound. */
  lemma WithYKeeps(s: seq<PointRec>, id: nat, y: real, n: nat)
    requires SortedByX(s) && UniqueIds(s) && IdsBelow(s, n)
    ensures var r := WithY(s, id, y); SortedByX(r) && UniqueIds(r) && IdsBelow(r, n)
  {
  }

  function WithY(s: seq<PointRec>, id: nat, y: real): (r: seq<PointRec>)
    ensures |r| == |s|
    ensures forall i :: 0 <= i < |s| ==>
      r[i] == if s[i].id == id then s[i].(y := y) else s[i]
  {
    seq(|s|, i requires 0 <= i < |s| => if s[i].id == id then s[i].(y := y) else s[i])
  }

  /** The records `addPoints(ps)` creates on `s`, numbering new objects from `next`. */
  function CreateAll(s: seq<PointRec>, ps: seq<Pair>, next: nat): seq<PointRec>
    decreases |ps|
  {
    if ps == [] then s
    else CreateAll(InsertByX(s, PointRec(next, ps[0].0, ps[0].1)), ps[1..], next + 1)
  }

  lemma {:induction false} CreateAllShape(s: seq<PointRec>, ps: seq<Pair>, next: nat)
    ensures |CreateAll(s, ps, next)| == |s| + |ps|
    ensures forall e :: e in CreateAll(s, ps, next) ==> e in s || next <= e.id < next + |ps|
    ensures SortedByX(s) ==> SortedByX(CreateAll(s, ps, next))
    decreases |ps|
  {
    if ps != [] {
      var p := PointRec(next, ps[0].0, ps[0].1);
      var s' := InsertByX(s, p);
      CreateAllShape(s', ps[1..], next + 1);
      if SortedByX(s) { InsertSorted(s, p); }
      MultisetSameElements(s', s + [p]);
      assert |s'| == |multiset(s')|;
    }
  }

  lemma CreateAllStep(s: seq<PointRec>, ps: seq<Pair>, i: nat, next: nat)
    requires i < |ps|
    ensures CreateAll(s, ps[i..], next)
         == CreateAll(InsertByX(s, PointRec(next, ps[i].0, ps[i].1)), ps[i + 1..], next + 1)
  {
    assert ps[i..][1..] == ps[i + 1..];
  }

  /** The identities `first`, `first + 1`, ... of `n` consecutively created objects. */
  function IdRange(first: nat, n: nat): (r: seq<nat>)
    ensures |r| == n && forall k :: 0 <= k < n ==> r[k] == first + k
  {
    if n == 0 then [] else IdRange(first, n - 1) + [first + n - 1]
  }

  lemma CreateKeepsValid(s: seq<PointRec>, p: PointRec)
    requires SortedByX(s) && UniqueIds(s) && IdsBelow(s, p.id)
    ensures StableSortByX(s + [p]) == InsertByX(s, p)
    ensures SortedByX(InsertByX(s, p)) && UniqueIds(InsertByX(s, p))
    ensures IdsBelow(InsertByX(s, p), p.id + 1)
  {
    PushThenSort(s, p);
    InsertSorted(s, p);
    InsertUnique(s, p);
    InsertIdsBelow(s, p, p.id + 1);
  }

  lemma {:induction false} InsertIdsBelow(s: seq<PointRec>, p: PointRec, n: nat)
    requires IdsBelow(s, n) && p.id < n
    ensures IdsBelow(InsertByX(s, p), n)
  {
    if s != [] && s[0].x <= p.x {
      InsertIdsBelow(s[1..], p, n);
    }
  }

  class Points {
    var pts: seq<PointRec>
    /** The identity the next created point object gets. */
    var nextId: nat
    /** The `detail` of every 'updated' event dispatched so far, oldest first. */
    var dispatched: seq<seq<PointRec>>

    ghost predicate Valid()
      reads this
    {
      SortedByX(pts) && UniqueIds(pts) && IdsBelow(pts, nextId)
    }

    constructor ()
      ensures Valid() && pts == [] && nextId == 0 && dispatched == []
    {
      pts, nextId, dispatched := [], 0, [];
    }

    /** `createPoint`: a new, unclamped point is pushed and the list sorted by x. */
    method CreatePoint(x: real, y: real) returns (id: nat)
      requires Valid()
      modifies this
      ensures Valid()
      ensures id == old(nextId) && nextId == id + 1
      ensures pts == InsertByX(old(pts), PointRec(id, x, y))
      ensures dispatched == old(dispatched)
    {
      id := nextId;
      var p := PointRec(id, x, y);
      var current := pts;
      CreateKeepsValid(current, p);
      var sorted := StableSortByX(current + [p]);
      assert sorted == InsertByX(current, p);
      pts := sorted;
      nextId := nextId + 1;
    }

    /** `addPoint`: creates a point and dispatches 'updated'. */
    method AddPoint(x: real, y: real) returns (id: nat)
      requires Valid()
      modifies this
      ensures Valid()
      ensures id == old(nextId)
      ensures pts == InsertByX(old(pts), PointRec(id, x, y))
      ensures dispatched == old(dispatched) + [pts]
    {
      id := CreatePoint(x, y);
      dispatched := dispatched + [pts];
    }

    /** `addPoints`: creates the points in order, dispatching nothing. */
    method AddPoints(ps: seq<Pair>) returns (ids: seq<nat>)
      requires Valid()
      modifies this
      ensures Valid()
      ensures pts == CreateAll(old(pts), ps, old(nextId))
      ensures ids == IdRange(old(nextId), |ps|)
      ensures nextId == old(nextId) + |ps|
      ensures dispatched == old(dispatched)
    {
      ids := [];
      var i := 0;
      ghost var goal := CreateAll(pts, ps, nextId);
      assert ps[0..] == ps;
      while i < |ps|
        invariant 0 <= i <= |ps|
        invariant Valid()
        invariant nextId == old(nextId) + i
        invariant CreateAll(pts, ps[i..], nextId) == goal
        invariant ids == IdRange(old(nextId), i)
        invariant dispatched == old(dispatched)
      {
        CreateAllStep(pts, ps, i, nextId);
        var id := CreatePoint(ps[i].0, ps[i].1);
        ids := ids + [id];
        i := i + 1;
      }
      assert ps[i..] == [];
      assert CreateAll(pts, ps[i..], nextId) == pts;
    }

    /** `deletePoint`: drops the object from the list. */
    method DeletePoint(id: nat)
      requires Valid()
      modifies this
      ensures Valid() && pts == Without(old(pts), id)
      ensures nextId == old(nextId) && dispatched == old(dispatched)
    {
      WithoutSorted(pts, id);
      WithoutUnique(pts, id);
      pts := Without(pts, id);
    }

    /** `setPoints`: every current point is deleted, then the new ones are created. */
    method SetPoints(ps: seq<Pair>) returns (ids: seq<nat>)
      requires Valid()
      modifies this
      ensures Valid()
      ensures pts == CreateAll([], ps, old(nextId))
      ensures |pts| == |ps| && forall e :: e in pts ==> e.id >= old(nextId)
      ensures dispatched == old(dispatched)
    {
      var copy := pts;
      var i := 0;
      while i < |copy|
        invariant 0 <= i <= |copy| && Valid()
        invariant pts == copy[i..] && nextId == old(nextId)
        invariant dispatched == old(dispatched)
      {
        assert copy[i..] == [copy[i]] + copy[i + 1..];
        assert forall e :: e in copy[i + 1..] ==> e.id != copy[i].id by {
          forall k | i + 1 <= k < |copy| ensures copy[k].id != copy[i].id {
            assert copy[i..][0] == copy[i] && copy[i..][k - i] == copy[k];
          }
        }
        WithoutHead(copy[i], copy[i + 1..]);
        DeletePoint(copy[i].id);
        i := i + 1;
      }
      ids := AddPoints(ps);
      CreateAllShape([], ps, old(nextId));
    }

    /** `removePoint`: drops the object and dispatches 'updated'. */
    method RemovePoint(id: nat)
      requires Valid()
      modifies this
      ensures Valid() && pts == Without(old(pts), id)
      ensures nextId == old(nextId)
      ensures dispatched == old(dispatched) + [pts]
    {
      DeletePoint(id);
      dispatched := dispatched + [pts];
    }

    /**
     * The listener each created point carries: the list is sorted again and
     * 'updated' dispatched. It also fires for a point already removed.
     */
    method PointUpdated()
      requires Valid()
      modifies this
      ensures Valid() && pts == old(pts) && nextId == old(nextId)
      ensures dispatched == old(dispatched) + [pts]
    {
      SortSorted(pts);
      pts := StableSortByX(pts);
      dispatched := dispatched + [pts];
    }

    /** `point.x = newX` on an object this list created: the clamped x, then the listener. */
    method SetPointX(id: nat, newX: real)
      requires Valid() && id < nextId
      modifies this
      ensures Valid()
      ensures pts == StableSortByX(WithX(old(pts), id, Point.Clamp01(newX)))
      ensures |pts| == |old(pts)| && nextId == old(nextId)
      ensures dispatched == old(dispatched) + [pts]
    {
      var moved := WithX(pts, id, Point.Clamp01(newX));
      assert UniqueIds(moved);
      SortUnique(moved);
      MultisetSameElements(StableSortByX(moved), moved);
      IdsBelowSame(StableSortByX(moved), moved, nextId);
      assert |multiset(StableSortByX(moved))| == |multiset(moved)|;
      pts := StableSortByX(moved);
      dispatched := dispatched + [pts];
    }

    /** `point.y = newY`: the clamped y; the order by x is unchanged. */
    method SetPointY(id: nat, newY: real)
      requires Valid() && id < nextId
      modifies this
      ensures Valid()
      ensures pts == WithY(old(pts), id, Point.Clamp01(newY))
      ensures nextId == old(nextId)
      ensures dispatched == old(dispatched) + [pts]
    {
      var moved := WithY(pts, id, Point.Clamp01(newY));
      WithYKeeps(pts, id, Point.Clamp01(newY), nextId);
      SortSorted(moved);
      pts := StableSortByX(moved);
      dispatched := dispatched + [pts];
    }

    /** `point.setPosition(x, y)`: both setters, then one more 'updated' from the point. */
    method SetPointPosition(id: nat, newX: real, newY: real)
      requires Valid() && id < nextId
      modifies this
      ensures Valid()
      ensures pts == WithY(StableSortByX(WithX(old(pts), id, Point.Clamp01(newX))), id, Point.Clamp01(newY))
      ensures nextId == old(nextId)
      ensures |dispatched| == |old(dispatched)| + 3 && dispatched[|dispatched| - 1] == pts
    {
      SetPointX(id, newX);
      SetPointY(id, newY);
      PointUpdated();
    }
  }

  lemma WithoutHead(x: PointRec, s: seq<PointRec>)
    requires forall e :: e in s ==> e.id != x.id
    ensures Without([x] + s, x.id) == s
  {
    assert ([x] + s)[1..] == s;
    WithoutKeeps(s, x.id);
  }

  lemma {:induction false} WithoutKeeps(s: seq<PointRec>, id: nat)
    requires forall e :: e in s ==> e.id != id
    ensures Without(s, id) == s
  {
    if s != [] {
      WithoutKeeps(s[1..], id);
    }
  }
}
