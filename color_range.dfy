// packages/transfer-function-editor/lib/ColorRange.ts: the two-point colour
// range of the transfer-function editor, kept in a `Points` list.
module ColorRange {
  import opened JsCommon
  import Point
  import Points

  type PointRec = Points.PointRec

  /** The x values of a list of points, in list order. */
  function Xs(s: seq<PointRec>): (xs: seq<real>)
    ensures |xs| == |s| && forall i :: 0 <= i < |s| ==> xs[i] == s[i].x
  {
    seq(|s|, i requires 0 <= i < |s| => s[i].x)
  }

  /** The two sorted points after the first `done` of them got their new x. */
  function Assigned(sp: seq<PointRec>, cs: (real, real), done: nat): (r: seq<PointRec>)
    requires |sp| == 2
  {
    [sp[0].(x := if done > 0 then cs.0 else sp[0].x),
     sp[1].(x := if done > 1 then cs.1 else sp[1].x)]
  }

  /** `s` holds the two points of `t`, in either order. */
  predicate SamePair(s: seq<PointRec>, t: seq<PointRec>)
    requires |t| == 2
  {
    s == t || s == [t[1], t[0]]
  }

  lemma SortPair(a: PointRec, b: PointRec)
    ensures Points.StableSortByX([a, b]) == if a.x <= b.x then [a, b] else [b, a]
  {
    assert [a, b][..1] == [a];
    assert [a][..0] == [];
  }

  lemma InitialPoints()
    ensures Points.CreateAll([], [(0.0, 0.0), (1.0, 0.0)], 0)
         == [Points.PointRec(0, 0.0, 0.0), Points.PointRec(1, 1.0, 0.0)]
  {
    var ps: seq<Points.Pair> := [(0.0, 0.0), (1.0, 0.0)];
    var r0, r1 := Points.PointRec(0, 0.0, 0.0), Points.PointRec(1, 1.0, 0.0);
    assert ps[1..] == [(1.0, 0.0)] && ps[1..][1..] == [];
    assert Points.InsertByX([r0], r1) == [r0] + Points.InsertByX([], r1) == [r0, r1];
    assert Points.CreateAll([], ps, 0) == Points.CreateAll([r0], ps[1..], 1);
    assert Points.CreateAll([r0], ps[1..], 1) == Points.CreateAll([r0, r1], [], 2);
  }

  /** Moving one point of a pair and sorting again keeps the pair, with the moved point. */
  lemma {:induction false} AssignStep(current: seq<PointRec>, sp: seq<PointRec>, cs: (real, real), i: nat, v: real)
    requires |sp| == 2 && i < 2 && sp[0].id != sp[1].id
    requires v == if i == 0 then cs.0 else cs.1
    requires SamePair(current, Assigned(sp, cs, i))
    ensures SamePair(Points.StableSortByX(Points.WithX(current, sp[i].id, v)), Assigned(sp, cs, i + 1))
  {
    var asg := Assigned(sp, cs, i);
    var next := Assigned(sp, cs, i + 1);
    AssignedNext(sp, cs, i, v);
    if current == asg {
      WithXPair(asg[0], asg[1], sp[i].id, v);
      SortPair(next[0], next[1]);
    } else {
      WithXPair(asg[1], asg[0], sp[i].id, v);
      SortPair(next[1], next[0]);
    }
  }

  /** Assigning the i-th point changes that point's x and nothing else. */
  lemma AssignedNext(sp: seq<PointRec>, cs: (real, real), i: nat, v: real)
    requires |sp| == 2 && i < 2 && sp[0].id != sp[1].id
    requires v == if i == 0 then cs.0 else cs.1
    ensures var asg, next := Assigned(sp, cs, i), Assigned(sp, cs, i + 1);
      |asg| == 2 && asg[0].id == sp[0].id && asg[1].id == sp[1].id &&
      next == [if asg[0].id == sp[i].id then asg[0].(x := v) else asg[0],
               if asg[1].id == sp[i].id then asg[1].(x := v) else asg[1]]
  {
  }

  /** `WithX` on a two-element list, written out. */
  lemma WithXPair(a: PointRec, b: PointRec, id: nat, v: real)
    ensures Points.WithX([a, b], id, v)
         == [if a.id == id then a.(x := v) else a, if b.id == id then b.(x := v) else b]
  {
  }

  lemma SortedPairXs(s: seq<PointRec>, t: seq<PointRec>)
    requires |t| == 2 && SamePair(s, t) && Points.SortedByX(s)
    ensures Xs(s) == [Min(t[0].x, t[1].x), Max(t[0].x, t[1].x)]
  {
    assert s[0].x <= s[1].x;
    assert Xs(s) == [s[0].x, s[1].x];
  }

  class ColorRange {
    const points: Points.Points
    var batchUpdated: bool
    /** The `detail` (the colour range) of every 'updated' event dispatched so far. */
    var dispatched: seq<seq<real>>

    /** The list holds exactly the two points of the range. */
    ghost predicate PointsOk()
      reads this, points
    {
      points.Valid() && |points.pts| == 2
    }

    ghost predicate Valid()
      reads this, points
    {
      PointsOk() && !batchUpdated
    }

    /** Two points, at x = 0 and x = 1 on the y = 0 line. */
    constructor ()
      ensures Valid() && fresh(points)
      ensures points.pts == [Points.PointRec(0, 0.0, 0.0), Points.PointRec(1, 1.0, 0.0)]
      ensures dispatched == [] && points.dispatched == []
    {
      var list := new Points.Points();
      var ps: seq<Points.Pair> := [(0.0, 0.0), (1.0, 0.0)];
      var _ := list.AddPoints(ps);
      InitialPoints();
      points := list;
      batchUpdated := false;
      dispatched := [];
    }

    /** `getPoints`: a sorted copy of the points, which is the list itself. */
    function GetPoints(): (r: seq<PointRec>)
      reads this, points
      requires PointsOk()
      ensures r == points.pts
    {
      Points.SortSorted(points.pts);
      Points.StableSortByX(points.pts)
    }

    /** `getColorRange`: the two x values, ascending. */
    function GetColorRange(): (r: seq<real>)
      reads this, points
      requires PointsOk()
      ensures |r| == 2 && r[0] <= r[1]
      ensures r == Xs(points.pts)
    {
      Xs(GetPoints())
    }

    /**
     * `setColorRange`: under the batch flag the i-th sorted point gets
     * normalized[i] (clamped by the point's setter, and each move re-sorts
     * the list and makes it dispatch), then one 'updated' is dispatched.
     */
    method SetColorRange(normalized: (real, real))
      requires Valid()
      modifies this, points
      ensures Valid()
      ensures var c0, c1 := Point.Clamp01(normalized.0), Point.Clamp01(normalized.1);
        GetColorRange() == [Min(c0, c1), Max(c0, c1)]
      ensures dispatched == old(dispatched) + [GetColorRange()]
      ensures |points.dispatched| == |old(points.dispatched)| + 2
    {
      batchUpdated := true;
      var sortedPoints := GetPoints();
      var cs := (Point.Clamp01(normalized.0), Point.Clamp01(normalized.1));
      var i := 0;
      while i < |sortedPoints|
        invariant 0 <= i <= 2 && |sortedPoints| == 2
        invariant points.Valid() && |points.pts| == 2 && batchUpdated
        invariant sortedPoints[0].id != sortedPoints[1].id
        invariant sortedPoints[0].id < points.nextId && sortedPoints[1].id < points.nextId
        invariant SamePair(points.pts, Assigned(sortedPoints, cs, i))
        invariant dispatched == old(dispatched)
        invariant |points.dispatched| == |old(points.dispatched)| + i
      {
        AssignSorted(sortedPoints, normalized, cs, i);
        i := i + 1;
      }
      EndBatch(sortedPoints, cs);
    }

    /** The end of `setColorRange`: the batch flag drops and the range dispatches once. */
    method EndBatch(sp: seq<PointRec>, cs: (real, real))
      requires |sp| == 2 && points.Valid() && |points.pts| == 2
      requires SamePair(points.pts, Assigned(sp, cs, 2))
      modifies this
      ensures Valid()
      ensures GetColorRange() == [Min(cs.0, cs.1), Max(cs.0, cs.1)]
      ensures dispatched == old(dispatched) + [GetColorRange()]
    {
      batchUpdated := false;
      SortedPairXs(points.pts, Assigned(sp, cs, 2));
      dispatched := dispatched + [GetColorRange()];
    }

    /** One turn of the loop in `setColorRange`: the i-th sorted point takes its new x. */
    method AssignSorted(sp: seq<PointRec>, normalized: (real, real), cs: (real, real), i: nat)
      requires |sp| == 2 && i < 2 && sp[0].id != sp[1].id
      requires cs == (Point.Clamp01(normalized.0), Point.Clamp01(normalized.1))
      requires points.Valid() && |points.pts| == 2 && batchUpdated
      requires sp[0].id < points.nextId && sp[1].id < points.nextId
      requires SamePair(points.pts, Assigned(sp, cs, i))
      modifies this, points
      ensures points.Valid() && |points.pts| == 2 && batchUpdated
      ensures points.nextId == old(points.nextId)
      ensures SamePair(points.pts, Assigned(sp, cs, i + 1))
      ensures dispatched == old(dispatched)
      ensures |points.dispatched| == |old(points.dispatched)| + 1
    {
      var value := if i == 0 then normalized.0 else normalized.1;
      AssignStep(points.pts, sp, cs, i, Point.Clamp01(value));
      points.SetPointX(sp[i].id, value);
      PointListener();
    }

    /** The listener put on each of the two points: it dispatches unless batched. */
    method PointListener()
      requires points.Valid() && |points.pts| == 2
      modifies this
      ensures batchUpdated == old(batchUpdated)
      ensures dispatched == if batchUpdated then old(dispatched)
                            else old(dispatched) + [Xs(points.pts)]
    {
      if !batchUpdated {
        dispatched := dispatched + [Xs(points.pts)];
      }
    }

    /**
     * `setPosition(x, y)` on one point, heard by the list and by the range:
     * the x setter, the y setter and `setPosition` itself each dispatch
     * 'updated', the list sorts, and the range dispatches after each.
     */
    method SetPosition(id: nat, newX: real, newY: real)
      requires Valid() && (id == points.pts[0].id || id == points.pts[1].id)
      modifies this, points
      ensures Valid() && points.nextId == old(points.nextId)
      ensures points.pts == Points.WithY(Points.StableSortByX(
                Points.WithX(old(points.pts), id, Point.Clamp01(newX))), id, Point.Clamp01(newY))
      ensures var r := GetColorRange(); dispatched == old(dispatched) + [r, r, r]
      ensures |points.dispatched| == |old(points.dispatched)| + 3
    {
      assert id < points.nextId;
      points.SetPointX(id, newX);
      PointListener();
      ghost var r := Xs(points.pts);
      ghost var afterX := points.pts;
      points.SetPointY(id, newY);
      XsWithY(afterX, id, Point.Clamp01(newY));
      assert Xs(points.pts) == r;
      PointListener();
      points.PointUpdated();
      PointListener();
      assert dispatched == old(dispatched) + [r, r, r];
    }

    /**
     * `ColorControlPoint.movePoint`: the drag moves the point to the
     * clamped (x, y), then the point is put back on the y = 0 line at its
     * own x. Six point events, and the range dispatches after each.
     * `dragX`, `dragY` are the pointer's normalized position plus the grab
     * offset; clamping them before the setters clamp changes nothing.
     */
    method MovePoint(id: nat, dragX: real, dragY: real)
      requires Valid() && (id == points.pts[0].id || id == points.pts[1].id)
      modifies this, points
      ensures Valid()
      ensures points.pts == Points.WithY(Points.StableSortByX(
                Points.WithX(old(points.pts), id, Point.Clamp01(dragX))), id, 0.0)
      ensures var r := GetColorRange(); dispatched == old(dispatched) + [r, r, r, r, r, r]
      ensures |points.dispatched| == |old(points.dispatched)| + 6
    {
      ghost var before := points.pts;
      ghost var cx, cy := Point.Clamp01(dragX), Point.Clamp01(dragY);
      ghost var sorted := Points.StableSortByX(Points.WithX(before, id, cx));
      SetPosition(id, dragX, dragY);
      ghost var r := GetColorRange();
      ghost var mid := dispatched;
      assert mid == old(dispatched) + [r, r, r];
      IdKept(before, id, cx, cy);
      var x := PairX(points.pts, id);
      SecondPosition(before, id, cx, cy);
      Point.Clamp01Idempotent(dragX);
      assert Point.Clamp01(x) == cx;
      SetPosition(id, x, 0.0);
      assert points.pts == Points.WithY(sorted, id, 0.0);
      XsWithY(sorted, id, cy);
      XsWithY(sorted, id, 0.0);
      assert GetColorRange() == r;
      assert dispatched == mid + [r, r, r];
      ThreeAndThree(old(dispatched), r);
    }
  }

  /** The x of the point with the given id, in a pair holding it. */
  function PairX(s: seq<PointRec>, id: nat): (x: real)
    requires |s| == 2 && (s[0].id == id || s[1].id == id)
    ensures exists k :: 0 <= k < 2 && s[k].id == id && s[k].x == x
  {
    if s[0].id == id then s[0].x else s[1].x
  }

  /** Moving and sorting a pair keeps the moved point in it. */
  lemma IdKept(s: seq<PointRec>, id: nat, x: real, y: real)
    requires |s| == 2 && (s[0].id == id || s[1].id == id)
    ensures var t := Points.WithY(Points.StableSortByX(Points.WithX(s, id, x)), id, y);
      |t| == 2 && (t[0].id == id || t[1].id == id)
  {
    var w := Points.WithX(s, id, x);
    var sorted := Points.StableSortByX(w);
    Points.MultisetSameElements(sorted, w);
    var k :| 0 <= k < 2 && w[k].id == id;
    assert w[k] in sorted;
  }

  lemma ThreeAndThree(d: seq<seq<real>>, r: seq<real>)
    ensures d + [r, r, r] + [r, r, r] == d + [r, r, r, r, r, r]
  {
  }

  /** Setting a y leaves every x where it was. */
  lemma XsWithY(s: seq<PointRec>, id: nat, y: real)
    ensures Xs(Points.WithY(s, id, y)) == Xs(s)
  {
  }

  /** `WithX` with the x the point already has changes nothing. */
  lemma WithOwnX(s: seq<PointRec>, id: nat, x: real)
    requires forall k :: 0 <= k < |s| && s[k].id == id ==> s[k].x == x
    ensures Points.WithX(s, id, x) == s
  {
  }

  /**
   * After the drag put the point at (cx, cy), putting it at (its own x, 0)
   * gives the list the drag sorted, with the point on y = 0.
   */
  lemma SecondPosition(s: seq<PointRec>, id: nat, cx: real, cy: real)
    requires Points.SortedByX(Points.WithY(Points.StableSortByX(Points.WithX(s, id, cx)), id, cy))
    ensures var sorted := Points.StableSortByX(Points.WithX(s, id, cx));
      var moved := Points.WithY(sorted, id, cy);
      (forall k :: 0 <= k < |moved| && moved[k].id == id ==> moved[k].x == cx) &&
      Points.WithY(Points.StableSortByX(Points.WithX(moved, id, cx)), id, 0.0)
        == Points.WithY(sorted, id, 0.0)
  {
    var sorted := Points.StableSortByX(Points.WithX(s, id, cx));
    var moved := Points.WithY(sorted, id, cy);
    DraggedX(s, id, cx, sorted);
    WithOwnX(moved, id, cx);
    Points.SortSorted(moved);
    WithYTwice(sorted, id, cy, 0.0);
  }

  /** After the drag and the sort, the dragged point's x is the one it was given. */
  lemma DraggedX(s: seq<PointRec>, id: nat, cx: real, sorted: seq<PointRec>)
    requires sorted == Points.StableSortByX(Points.WithX(s, id, cx))
    ensures forall k :: 0 <= k < |sorted| && sorted[k].id == id ==> sorted[k].x == cx
  {
    var w := Points.WithX(s, id, cx);
    Points.MultisetSameElements(sorted, w);
    forall k | 0 <= k < |sorted| && sorted[k].id == id
      ensures sorted[k].x == cx
    {
      assert sorted[k] in w;
    }
  }

  /** Setting a point's y twice leaves the second value. */
  lemma WithYTwice(s: seq<PointRec>, id: nat, y1: real, y2: real)
    ensures Points.WithY(Points.WithY(s, id, y1), id, y2) == Points.WithY(s, id, y2)
  {
  }
}
