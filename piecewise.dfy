// packages/transfer-function-editor/lib/PiecewiseUtils.ts: the helpers that
// turn the editor's points into vtk.js piecewise-function nodes, plus the
// small array and colour helpers beside them.
module PiecewiseUtils {
  import opened JsCommon
  import Points

  type Pair = Points.Pair

  /** The nudge that keeps the end points apart from their neighbours. */
  const Epsilon: real := 0.00000001

  // ---------------------------------------------------------------------
  // `windowPointsForSort`. A point is a mutable `[x, y]` array: the
  // extended list shares the caller's arrays, so nudging its ends nudges
  // the caller's first and last point whenever they are not extended.

  class Vertex {
    var x: real
    var y: real

    constructor (x0: real, y0: real)
      ensures x == x0 && y == y0
    {
      x, y := x0, y0;
    }
  }

  /** The coordinates the arrays hold. */
  function Coords(s: seq<Vertex>): (r: seq<Pair>)
    reads s
    ensures |r| == |s|
  {
    if s == [] then [] else [(s[0].x, s[0].y)] + Coords(s[1..])
  }

  /** Entry `i` of the coordinates is what array `i` holds. */
  lemma {:induction false} CoordsIndex(s: seq<Vertex>, i: int)
    requires 0 <= i < |s|
    ensures Coords(s)[i] == (s[i].x, s[i].y)
  {
    if i > 0 {
      CoordsIndex(s[1..], i - 1);
    }
  }

  /** Arrays holding `ps` entry by entry have the coordinates `ps`. */
  lemma CoordsOf(s: seq<Vertex>, ps: seq<Pair>)
    requires |s| == |ps| && forall i :: 0 <= i < |s| ==> s[i].x == ps[i].0 && s[i].y == ps[i].1
    ensures Coords(s) == ps
  {
    forall i | 0 <= i < |s| ensures Coords(s)[i] == ps[i] {
      CoordsIndex(s, i);
    }
  }

  lemma CoordsSingle(v: Vertex)
    ensures Coords([v]) == [(v.x, v.y)]
  {
    assert [v][1..] == [];
  }

  lemma {:induction false} CoordsAppend(a: seq<Vertex>, b: seq<Vertex>)
    ensures Coords(a + b) == Coords(a) + Coords(b)
  {
    if a == [] {
      assert a + b == b;
    } else {
      assert (a + b)[1..] == a[1..] + b;
      CoordsAppend(a[1..], b);
    }
  }

  /** The list `windowPointsForSort` describes: the ends moved outwards by `Epsilon`. */
  function Windowed(e: seq<Pair>): (w: seq<Pair>)
    requires |e| >= 2
    ensures |w| == |e| && w[1..|w| - 1] == e[1..|e| - 1]
    ensures w[0] == (e[0].0 - Epsilon, e[0].1)
    ensures w[|w| - 1] == (e[|e| - 1].0 + Epsilon, e[|e| - 1].1)
  {
    [(e[0].0 - Epsilon, e[0].1)] + e[1..|e| - 1] + [(e[|e| - 1].0 + Epsilon, e[|e| - 1].1)]
  }

  /**
   * The arrays `extendPoints` returns: two new arrays for a list of fewer than
   * two, otherwise the caller's arrays themselves, after a new array `a` when
   * `lead` and before a new array `b` when `trail`.
   */
  function Extension(points: seq<Vertex>, a: Vertex, b: Vertex, lead: bool, trail: bool): (r: seq<Vertex>)
    ensures |r| >= 2
  {
    if |points| < 2 then [a, b]
    else (if lead then [a] else []) + points + (if trail then [b] else [])
  }

  /** A run of two or more arrays gets a new first array when it starts right of 0. */
  function Lead(points: seq<Vertex>): bool
    reads points
  {
    |points| >= 2 && points[0].x > 0.0
  }

  /** A run of two or more arrays gets a new last array when it ends left of 1. */
  function Trail(points: seq<Vertex>): bool
    reads points
  {
    |points| >= 2 && points[|points| - 1].x < 1.0
  }

  /** The y of the array `extendPoints` puts first: the first point's, or 1 for no points. */
  function FirstY(points: seq<Vertex>): real
    reads points
  {
    if |points| == 0 then 1.0 else points[0].y
  }

  function LastY(points: seq<Vertex>): real
    reads points
  {
    if |points| == 0 then 1.0 else points[|points| - 1].y
  }

  /**
   * `extendPoints(points)` on arrays: the result is made of the caller's
   * arrays and two new ones, `a` at (0, FirstY) and `b` at (1, LastY), as
   * `Extension` lays them out.
   */
  method ExtendVertices(points: seq<Vertex>) returns (r: seq<Vertex>, ghost a: Vertex, ghost b: Vertex)
    ensures fresh(a) && fresh(b)
    ensures a.x == 0.0 && a.y == FirstY(points) && b.x == 1.0 && b.y == LastY(points)
    ensures r == Extension(points, a, b, Lead(points), Trail(points))
  {
    var start := new Vertex(0.0, FirstY(points));
    var end := new Vertex(1.0, LastY(points));
    a, b := start, end;
    if |points| < 2 {
      r := [start, end];
    } else {
      var front: seq<Vertex> := if points[0].x > 0.0 then [start] else [];
      var back: seq<Vertex> := if points[|points| - 1].x < 1.0 then [end] else [];
      r := front + points + back;
    }
  }

  /** The arrays `ExtendVertices` returns hold the list `extendPoints` computes. */
  lemma ExtensionCoords(points: seq<Vertex>, a: Vertex, b: Vertex)
    requires a.x == 0.0 && a.y == FirstY(points) && b.x == 1.0 && b.y == LastY(points)
    ensures Coords(Extension(points, a, b, Lead(points), Trail(points)))
         == Points.ExtendPoints(Coords(points), false)
  {
    var cs := Coords(points);
    if |points| < 2 {
      if |points| == 1 {
        CoordsIndex(points, 0);
      }
      CoordsOf([a, b], Points.ExtendPoints(cs, false));
    } else {
      var front: seq<Vertex> := if Lead(points) then [a] else [];
      var back: seq<Vertex> := if Trail(points) then [b] else [];
      CoordsIndex(points, 0);
      CoordsIndex(points, |points| - 1);
      CoordsSingle(a);
      CoordsSingle(b);
      CoordsConcat(front, points, back);
      ExtendRunCoords(cs, Coords(front), Coords(back));
    }
  }

  /** The first and last arrays of an extension. */
  lemma ExtensionEnds(points: seq<Vertex>, a: Vertex, b: Vertex, lead: bool, trail: bool)
    ensures var r := Extension(points, a, b, lead, trail);
      r[0] == (if |points| < 2 || lead then a else points[0]) &&
      r[|r| - 1] == (if |points| < 2 || trail then b else points[|points| - 1])
  {
    if |points| >= 2 {
      var front: seq<Vertex> := if lead then [a] else [];
      var back: seq<Vertex> := if trail then [b] else [];
      var r := front + points + back;
      assert r[0] == if lead then a else points[0];
      assert r[|r| - 1] == if trail then b else points[|points| - 1];
    }
  }

  /** The caller's run sits inside the extension, after `a` when `lead`. */
  lemma ExtensionRun(points: seq<Vertex>, a: Vertex, b: Vertex, lead: bool, trail: bool)
    requires |points| >= 2
    ensures var r, k := Extension(points, a, b, lead, trail), if lead then 1 else 0;
      k + |points| <= |r| && r[k..k + |points|] == points
  {
    var front: seq<Vertex> := if lead then [a] else [];
    var back: seq<Vertex> := if trail then [b] else [];
    var r := front + points + back;
    assert r[|front|..|front| + |points|] == points;
  }

  /** Extending distinct arrays with two new ones repeats no array. */
  lemma ExtensionDistinct(points: seq<Vertex>, a: Vertex, b: Vertex, lead: bool, trail: bool)
    requires Distinct(points) && a != b && a !in points && b !in points
    ensures Distinct(Extension(points, a, b, lead, trail))
  {
    if |points| >= 2 {
      var front: seq<Vertex> := if lead then [a] else [];
      var back: seq<Vertex> := if trail then [b] else [];
      DistinctJoin(front, points, back);
    }
  }

  lemma DistinctJoin(f: seq<Vertex>, m: seq<Vertex>, b: seq<Vertex>)
    requires |f| <= 1 && |b| <= 1 && Distinct(m)
    requires forall v :: v in f ==> v !in m && v !in b
    requires forall v :: v in b ==> v !in m
    ensures Distinct(f + m + b)
  {
    var r := f + m + b;
    var n := |f| + |m|;
    assert |r| <= n + 1;
    forall i, j | 0 <= i < j < |r| ensures r[i] != r[j] {
      if j < n {
        assert r[j] == m[j - |f|];
        if i < |f| {
          assert r[i] == f[i] && f[i] in f;
        } else {
          assert r[i] == m[i - |f|];
        }
      } else if i < n {
        assert r[j] == b[j - n] && b[j - n] in b;
        if i < |f| {
          assert r[i] == f[i] && f[i] in f;
        } else {
          assert r[i] == m[i - |f|] && m[i - |f|] in m;
        }
      }
    }
  }

  lemma ExtendRunCoords(cs: seq<Pair>, ef: seq<Pair>, eb: seq<Pair>)
    requires |cs| >= 2
    requires ef == if cs[0].0 > 0.0 then [(0.0, cs[0].1)] else []
    requires eb == if cs[|cs| - 1].0 < 1.0 then [(1.0, cs[|cs| - 1].1)] else []
    ensures Points.ExtendPoints(cs, false) == ef + cs + eb
  {
  }

  lemma CoordsConcat(a: seq<Vertex>, b: seq<Vertex>, c: seq<Vertex>)
    ensures Coords(a + b + c) == Coords(a) + Coords(b) + Coords(c)
  {
    CoordsAppend(a, b);
    CoordsAppend(a + b, c);
  }

  /**
   * `windowPointsForSort`: the extended list with its first x moved down and
   * its last x moved up by `Epsilon`, written into the arrays themselves.
   * The arrays are those `Extension` lays out (so the caller's first or last
   * array is the one nudged when no new array is put before or after it), and
   * every array holds its extended coordinates, shifted once for each end it
   * sits at. No other array of the caller's changes; with fewer than two
   * points none does.
   */
  method WindowPointsForSort(points: seq<Vertex>) returns (r: seq<Vertex>, ghost a: Vertex, ghost b: Vertex)
    modifies points
    ensures fresh(a) && fresh(b) && a != b
    ensures r == Extension(points, a, b, old(Lead(points)), old(Trail(points)))
    ensures r[0] != r[|r| - 1]
    ensures var e := Points.ExtendPoints(old(Coords(points)), false);
      |r| == |e| &&
      forall i :: 0 <= i < |r| ==>
        r[i].y == e[i].1 &&
        r[i].x == e[i].0 - (if r[i] == r[0] then Epsilon else 0.0)
                         + (if r[i] == r[|r| - 1] then Epsilon else 0.0)
    ensures forall v :: v in points && v != r[0] && v != r[|r| - 1] ==> v.x == old(v.x) && v.y == old(v.y)
    ensures |points| < 2 ==> forall v :: v in points ==> v.x == old(v.x) && v.y == old(v.y)
  {
    ghost var e := Points.ExtendPoints(Coords(points), false);
    r, a, b := ExtendVertices(points);
    assert |r| == |e| && forall i :: 0 <= i < |r| ==> r[i].x == e[i].0 && r[i].y == e[i].1 by {
      ExtensionCoords(points, a, b);
      CoordsValues(r, e);
    }
    assert r[0] != r[|r| - 1] by {
      EndsApart(points, a, b);
    }
    assert (r[0] == a || r[0] in points) && (r[|r| - 1] == b || r[|r| - 1] in points)
        && (|points| < 2 ==> r[0] == a && r[|r| - 1] == b) by {
      ExtensionEnds(points, a, b, Lead(points), Trail(points));
    }
    Nudge(r, e);
  }

  /** The extension never starts and ends with the same array. */
  lemma EndsApart(points: seq<Vertex>, a: Vertex, b: Vertex)
    requires a != b && a !in points && b !in points
    ensures var r := Extension(points, a, b, Lead(points), Trail(points));
      r[0] != r[|r| - 1]
  {
    ExtensionEnds(points, a, b, Lead(points), Trail(points));
  }

  /** Arrays whose coordinates are `e` hold `e` entry by entry. */
  lemma CoordsValues(r: seq<Vertex>, e: seq<Pair>)
    requires Coords(r) == e
    ensures forall i :: 0 <= i < |r| ==> r[i].x == e[i].0 && r[i].y == e[i].1
  {
    forall i | 0 <= i < |r| ensures r[i].x == e[i].0 && r[i].y == e[i].1 {
      CoordsIndex(r, i);
    }
  }

  /** Moves the first array's x down and the last array's x up by `Epsilon`. */
  method Nudge(r: seq<Vertex>, ghost e: seq<Pair>)
    requires |r| == |e| >= 2 && r[0] != r[|r| - 1]
    requires forall i :: 0 <= i < |r| ==> r[i].x == e[i].0 && r[i].y == e[i].1
    modifies r[0], r[|r| - 1]
    ensures forall i :: 0 <= i < |r| ==>
      r[i].y == e[i].1 &&
      r[i].x == e[i].0 - (if r[i] == r[0] then Epsilon else 0.0)
                       + (if r[i] == r[|r| - 1] then Epsilon else 0.0)
  {
    var first, last := r[0], r[|r| - 1];
    label Before:
    first.x := first.x - Epsilon;
    last.x := last.x + Epsilon;
    forall i | 0 <= i < |r|
      ensures r[i].y == e[i].1
      ensures r[i].x == e[i].0 - (if r[i] == first then Epsilon else 0.0)
                               + (if r[i] == last then Epsilon else 0.0)
    {
      assert old@Before(r[i].x) == e[i].0 && old@Before(r[i].y) == e[i].1;
    }
  }

  /** With no array repeated at an end, the arrays hold exactly the windowed list. */
  lemma WindowedCoords(r: seq<Vertex>, e: seq<Pair>)
    requires |r| == |e| >= 2 && Distinct(r)
    requires forall i :: 0 <= i < |r| ==>
      r[i].y == e[i].1 &&
      r[i].x == e[i].0 - (if r[i] == r[0] then Epsilon else 0.0)
                       + (if r[i] == r[|r| - 1] then Epsilon else 0.0)
    ensures Coords(r) == Windowed(e)
  {
    CoordsOf(r, Windowed(e));
  }

  /** Two lists of distinct arrays with no array in common join into one. */
  lemma DistinctAppend(a: seq<Vertex>, b: seq<Vertex>)
    requires Distinct(a) && Distinct(b)
    requires forall v :: v in b ==> v !in a
    ensures Distinct(a + b)
  {
    var r := a + b;
    forall i, j | 0 <= i < j < |r| ensures r[i] != r[j] {
      if j >= |a| && i < |a| {
        assert r[j] == b[j - |a|] && b[j - |a|] in b;
        assert r[i] == a[i] && a[i] in a;
      } else if i >= |a| {
        assert r[i] == b[i - |a|] && r[j] == b[j - |a|];
      }
    }
  }

  /** No array appears twice. */
  ghost predicate Distinct(s: seq<Vertex>) {
    forall i, j :: 0 <= i < j < |s| ==> s[i] != s[j]
  }

  // ---------------------------------------------------------------------
  // `getNodes`: the points, plus a point at y = 1 wherever a segment meets
  // that line, windowed and mapped into the data range.

  /** `findY1Intercepts`'s test: one end of the segment is at or below 1, the other at or above. */
  predicate CrossesOne(p1: Pair, p2: Pair) {
    (p1.1 <= 1.0 && p2.1 >= 1.0) || (p1.1 >= 1.0 && p2.1 <= 1.0)
  }

  /**
   * The interpolation `findY1Intercepts` performs, in JavaScript numbers: a
   * flat segment divides 0 by 0.
   */
  function InterceptAsWritten(p1: Pair, p2: Pair): (x: Num)
    ensures x.Fin? <==> p1.1 != p2.1
  {
    MulAdd(Div(1.0 - p1.1, p2.1 - p1.1), p2.0 - p1.0, p1.0)
  }

  /** The intercepts as the loop collects them, one per crossing segment, in order. */
  function Y1InterceptsAsWritten(points: seq<Pair>): (xs: seq<Num>)
    ensures |xs| <= |points|
  {
    if |points| < 2 then []
    else
      (if CrossesOne(points[0], points[1]) then [InterceptAsWritten(points[0], points[1])] else [])
      + Y1InterceptsAsWritten(points[1..])
  }

  /** A segment lying along y = 1 passes the test and yields NaN. */
  lemma FlatSegmentGivesNaN()
    ensures Y1InterceptsAsWritten([(0.0, 1.0), (1.0, 1.0)]) == [NonFinite]
  {
    var ps: seq<Pair> := [(0.0, 1.0), (1.0, 1.0)];
    assert ps[1..] == [(1.0, 1.0)];
  }

  /** A segment that really meets y = 1 at a single point. */
  predicate Meets(p1: Pair, p2: Pair) {
    CrossesOne(p1, p2) && p1.1 != p2.1
  }

  /** Where the segment meets y = 1. */
  function Intercept(p1: Pair, p2: Pair): real
    requires p1.1 != p2.1
  {
    p1.0 + (1.0 - p1.1) / (p2.1 - p1.1) * (p2.0 - p1.0)
  }

  /** The intercept of a meeting segment lies on it: between its two x values. */
  lemma InterceptBetween(p1: Pair, p2: Pair)
    requires Meets(p1, p2)
    ensures Min(p1.0, p2.0) <= Intercept(p1, p2) <= Max(p1.0, p2.0)
  {
    var t := (1.0 - p1.1) / (p2.1 - p1.1);
    if p1.1 < p2.1 {
      UnitRatio(1.0 - p1.1, p2.1 - p1.1);
    } else {
      NegativeUnitRatio(1.0 - p1.1, p2.1 - p1.1);
    }
    BetweenEnds(p1.0, t, p2.0 - p1.0);
  }

  lemma UnitRatio(n: real, m: real)
    requires 0.0 <= n <= m && m > 0.0
    ensures 0.0 <= n / m <= 1.0
  {
  }

  lemma NegativeUnitRatio(n: real, m: real)
    requires m <= n <= 0.0 && m < 0.0
    ensures 0.0 <= n / m <= 1.0
  {
    var q := n / m;
    assert q * m == n;
  }

  /** A fraction `t` of the way along from `a` by `d` stays between `a` and `a + d`. */
  lemma BetweenEnds(a: real, t: real, d: real)
    requires 0.0 <= t <= 1.0
    ensures Min(a, a + d) <= a + t * d <= Max(a, a + d)
  {
    if d >= 0.0 {
      assert t * d <= 1.0 * d;
      assert 0.0 * d <= t * d;
    } else {
      assert t * (-d) <= 1.0 * (-d);
      assert 0.0 * (-d) <= t * (-d);
    }
  }

  /** The corrected intercepts: flat segments along y = 1 are skipped. */
  function Y1Intercepts(points: seq<Pair>): (xs: seq<real>)
    ensures |xs| <= |points|
  {
    if |points| < 2 then []
    else
      (if Meets(points[0], points[1]) then [Intercept(points[0], points[1])] else [])
      + Y1Intercepts(points[1..])
  }

  /** An intercept of segment `i` is in the list exactly when that segment meets y = 1. */
  lemma {:induction false} Y1InterceptsMembers(points: seq<Pair>, x: real)
    ensures x in Y1Intercepts(points) <==>
      exists i :: 0 <= i < |points| - 1 && Meets(points[i], points[i + 1])
                  && x == Intercept(points[i], points[i + 1])
  {
    if |points| >= 2 {
      var rest := points[1..];
      Y1InterceptsMembers(rest, x);
      if x in Y1Intercepts(rest) {
        var i :| 0 <= i < |rest| - 1 && Meets(rest[i], rest[i + 1]) && x == Intercept(rest[i], rest[i + 1]);
        assert points[i + 1] == rest[i] && points[i + 2] == rest[i + 1];
      }
      if exists i :: 0 <= i < |points| - 1 && Meets(points[i], points[i + 1])
                     && x == Intercept(points[i], points[i + 1]) {
        var i :| 0 <= i < |points| - 1 && Meets(points[i], points[i + 1])
                 && x == Intercept(points[i], points[i + 1]);
        if i > 0 {
          assert rest[i - 1] == points[i] && rest[i] == points[i + 1];
        }
      }
    }
  }

  /** The finite values of a list, in order. */
  function Finite(s: seq<Num>): (r: seq<real>)
    ensures |r| <= |s|
  {
    if s == [] then []
    else (if s[0].Fin? then [s[0].r] else []) + Finite(s[1..])
  }

  /** The correction drops exactly the NaN the flat segments produced. */
  lemma {:induction false} InterceptsAgree(points: seq<Pair>)
    ensures Finite(Y1InterceptsAsWritten(points)) == Y1Intercepts(points)
  {
    if |points| >= 2 {
      InterceptsAgree(points[1..]);
      var head := if CrossesOne(points[0], points[1]) then [InterceptAsWritten(points[0], points[1])] else [];
      FiniteConcat(head, Y1InterceptsAsWritten(points[1..]));
      if Meets(points[0], points[1]) {
        InterceptAsWrittenFinite(points[0], points[1]);
        assert head == [Fin(Intercept(points[0], points[1]))];
        assert head[1..] == [];
      } else if head != [] {
        assert head[1..] == [];
      }
    }
  }

  /** Off flat segments the JavaScript arithmetic computes the intercept. */
  lemma InterceptAsWrittenFinite(p1: Pair, p2: Pair)
    requires p1.1 != p2.1
    ensures InterceptAsWritten(p1, p2) == Fin(Intercept(p1, p2))
  {
    var a, b := 1.0 - p1.1, p2.1 - p1.1;
    var k, c := p2.0 - p1.0, p1.0;
    assert Div(a, b) == Fin(a / b);
    assert Intercept(p1, p2) == c + a / b * k;
  }

  lemma {:induction false} FiniteConcat(a: seq<Num>, b: seq<Num>)
    ensures Finite(a + b) == Finite(a) + Finite(b)
  {
    if a != [] {
      assert (a + b)[1..] == a[1..] + b;
      FiniteConcat(a[1..], b);
      var h := if a[0].Fin? then [a[0].r] else [];
      assert Finite(a + b) == h + Finite(a[1..] + b);
      assert Finite(a) == h + Finite(a[1..]);
    } else {
      assert a + b == b;
    }
  }

  /** `findY1Intercepts`, with the correction: a loop over the segments. */
  method FindY1Intercepts(points: seq<Pair>) returns (xs: seq<real>)
    ensures xs == Y1Intercepts(points)
  {
    xs := [];
    var i := 0;
    while i + 1 < |points|
      invariant 0 <= i <= |points|
      invariant xs + Y1Intercepts(points[i..]) == Y1Intercepts(points)
    {
      var point1, point2 := points[i], points[i + 1];
      ghost var rest := points[i + 1..];
      assert points[i..][1..] == rest;
      var found := if Meets(point1, point2) then [Intercept(point1, point2)] else [];
      assert Y1Intercepts(points[i..]) == found + Y1Intercepts(rest);
      assert xs + found + Y1Intercepts(rest) == Y1Intercepts(points);
      xs := xs + found;
      i := i + 1;
    }
  }

  /** A vtk.js piecewise-function node. */
  datatype Node = Node(x: real, y: real, midpoint: real, sharpness: real)

  /**
   * One windowed point as a node: x is taken from [0, 1] into the data range,
   * y is capped at 1, and every node has midpoint 0.5 and sharpness 0.
   */
  function ToNode(range: (real, real), p: Pair): (n: Node)
    ensures n.midpoint == 0.5 && n.sharpness == 0.0
    ensures n.y <= 1.0 && (p.1 <= 1.0 ==> n.y == p.1) && (p.1 > 1.0 ==> n.y == 1.0)
    ensures range.0 != range.1 ==> (n.x - range.0) / (range.1 - range.0) == p.0
    ensures p.0 == 0.0 ==> n.x == range.0
    ensures p.0 == 1.0 ==> n.x == range.1
  {
    var delta := range.1 - range.0;
    Node(range.0 + delta * p.0, Min(p.1, 1.0), 0.5, 0.0)
  }

  function NodesOf(range: (real, real), ps: seq<Pair>): (ns: seq<Node>)
    ensures |ns| == |ps| && forall i :: 0 <= i < |ps| ==> ns[i] == ToNode(range, ps[i])
  {
    seq(|ps|, i requires 0 <= i < |ps| => ToNode(range, ps[i]))
  }

  /** Each intercept as the point `[x, 1]`. */
  function OnLine(xs: seq<real>): (ps: seq<Pair>)
    ensures |ps| == |xs| && forall i :: 0 <= i < |xs| ==> ps[i] == (xs[i], 1.0)
  {
    seq(|xs|, i requires 0 <= i < |xs| => (xs[i], 1.0))
  }

  /** What `getNodes` returns for the values `ps`. */
  function NodesSpec(range: (real, real), ps: seq<Pair>): seq<Node> {
    NodesOf(range, Windowed(Points.ExtendPoints(ps + OnLine(Y1Intercepts(ps)), false)))
  }

  /** New arrays `[x, 1]`, one per intercept. */
  method OnLineVertices(xs: seq<real>) returns (vs: seq<Vertex>)
    ensures Coords(vs) == OnLine(xs)
    ensures Distinct(vs) && forall i :: 0 <= i < |vs| ==> fresh(vs[i])
  {
    vs := [];
    var i := 0;
    while i < |xs|
      invariant 0 <= i <= |xs| && |vs| == i
      invariant forall k :: 0 <= k < i ==> vs[k].x == xs[k] && vs[k].y == 1.0 && fresh(vs[k])
      invariant Distinct(vs)
    {
      var v := new Vertex(xs[i], 1.0);
      vs := vs + [v];
      i := i + 1;
    }
    CoordsOf(vs, OnLine(xs));
  }

  /** The points followed by a new array `[x, 1]` for every intercept. */
  method WithIntercepts(points: seq<Vertex>) returns (w: seq<Vertex>)
    ensures Coords(w) == Coords(points) + OnLine(Y1Intercepts(Coords(points)))
    ensures |points| <= |w| && w[..|points|] == points
    ensures forall i :: |points| <= i < |w| ==> fresh(w[i])
    ensures Distinct(points) ==> Distinct(w)
  {
    var cs := Coords(points);
    var xs := FindY1Intercepts(cs);
    var extra := OnLineVertices(xs);
    w := points + extra;
    CoordsAppend(points, extra);
    assert w[..|points|] == points;
    if Distinct(points) {
      forall v | v in extra ensures v !in points {
        var i :| 0 <= i < |extra| && extra[i] == v;
        assert fresh(extra[i]);
      }
      DistinctAppend(points, extra);
    }
  }

  /**
   * `getNodes`: the intercept points are appended to the points, the list is
   * extended and windowed (nudging the arrays at its ends, which may be the
   * caller's), and every point becomes a node. For a list of distinct arrays
   * the nodes are those `NodesSpec` describes for the values passed in.
   */
  method GetNodes(range: (real, real), points: seq<Vertex>) returns (nodes: seq<Node>)
    modifies points
    ensures Distinct(points) ==> nodes == NodesSpec(range, old(Coords(points)))
  {
    ghost var cs := Coords(points);
    var w := WithIntercepts(points);
    ghost var e := Points.ExtendPoints(Coords(w), false);
    assert forall i :: 0 <= i < |w| ==> w[i] in points || fresh(w[i]) by {
      forall i | 0 <= i < |points| ensures w[i] in points {
        assert w[..|points|][i] == w[i];
      }
    }
    ghost var lead, trail := Lead(w), Trail(w);
    var windowed, a, b := WindowPointsForSort(w);
    if Distinct(points) {
      ExtensionDistinct(w, a, b, lead, trail);
      WindowedCoords(windowed, e);
    }
    nodes := NodesOf(range, Coords(windowed));
  }

  // ---------------------------------------------------------------------
  // `arrayEquals`

  /** `arrayEquals`: false on a length mismatch, otherwise true exactly when every entry is equal. */
  method ArrayEquals<T(==)>(a: seq<T>, b: seq<T>) returns (r: bool)
    ensures r <==> a == b
  {
    if |a| != |b| {
      return false;
    }
    var i := 0;
    while i < |a|
      invariant 0 <= i <= |a|
      invariant a[..i] == b[..i]
    {
      if a[i] != b[i] {
        return false;
      }
      assert a[..i + 1] == a[..i] + [a[i]];
      assert b[..i + 1] == b[..i] + [b[i]];
      i := i + 1;
    }
    assert a == a[..i] && b == b[..i];
    return true;
  }

  // ---------------------------------------------------------------------
  // `rgbaToHexa`

  predicate IsHexDigit(c: char) {
    '0' <= c <= '9' || 'a' <= c <= 'f'
  }

  function HexDigit(d: nat): (c: char)
    requires d < 16
    ensures IsHexDigit(c)
  {
    if d < 10 then ('0' as int + d) as char else ('a' as int + d - 10) as char
  }

  function DigitValue(c: char): (d: nat)
    requires IsHexDigit(c)
    ensures d < 16
  {
    if c <= '9' then c as int - '0' as int else c as int - 'a' as int + 10
  }

  lemma DigitRoundTrip(d: nat)
    requires d < 16
    ensures DigitValue(HexDigit(d)) == d
  {
  }

  /** `n.toString(16)` for a natural number: lower-case hexadecimal digits, no leading zeros. */
  function NatToHex(n: nat): (s: string)
    ensures |s| >= 1 && forall i :: 0 <= i < |s| ==> IsHexDigit(s[i])
    ensures s[|s| - 1] == HexDigit(n % 16)
  {
    if n < 16 then [HexDigit(n)] else NatToHex(n / 16) + [HexDigit(n % 16)]
  }

  /** `comp.toString(16)` for an integer: a minus sign before the digits of a negative. */
  function IntToHex(i: int): (s: string)
    ensures |s| >= 1
  {
    if i < 0 then "-" + NatToHex(-i) else NatToHex(i)
  }

  /** The number a string of hexadecimal digits denotes. */
  function HexValue(s: string): nat
    requires forall i :: 0 <= i < |s| ==> IsHexDigit(s[i])
  {
    if s == [] then 0 else HexValue(s[..|s| - 1]) * 16 + DigitValue(s[|s| - 1])
  }

  /** Reading the digits of `toString(16)` back gives the number. */
  lemma {:induction false} NatToHexRoundTrip(n: nat)
    ensures HexValue(NatToHex(n)) == n
  {
    var s := NatToHex(n);
    DigitRoundTrip(n % 16);
    if n < 16 {
      assert s[..0] == [];
    } else {
      assert s[..|s| - 1] == NatToHex(n / 16);
      NatToHexRoundTrip(n / 16);
    }
  }

  /** One component: `Math.floor(c * 255)` in hexadecimal, padded with "0" and cut to its last two characters. */
  function ComponentHex(c: real): (h: string)
    ensures |h| == 2
  {
    var padded := "0" + IntToHex(Floor(c * 255.0));
    padded[|padded| - 2..]
  }

  /** `rgbaToHexa`: '#' followed by two characters per component. */
  function RgbaToHexa(rgba: seq<real>): (s: string)
    ensures |s| == 1 + 2 * |rgba| && s[0] == '#'
  {
    JoinMapLength(ComponentHex, rgba);
    "#" + JoinMap(ComponentHex, rgba)
  }

  /** `xs.map(f).join('')`. */
  function JoinMap(f: real -> string, xs: seq<real>): string {
    if xs == [] then "" else f(xs[0]) + JoinMap(f, xs[1..])
  }

  lemma {:induction false} JoinMapLength(f: real -> string, xs: seq<real>)
    requires forall x :: |f(x)| == 2
    ensures |JoinMap(f, xs)| == 2 * |xs|
  {
    if xs != [] {
      JoinMapLength(f, xs[1..]);
    }
  }

  /** Component `i` is written at positions 1 + 2i and 2 + 2i. */
  lemma ComponentAt(rgba: seq<real>, i: int)
    requires 0 <= i < |rgba|
    ensures RgbaToHexa(rgba)[1 + 2 * i..3 + 2 * i] == ComponentHex(rgba[i])
  {
    var cs := JoinMap(ComponentHex, rgba);
    JoinMapAt(ComponentHex, rgba, i);
    SliceAfter("#", cs, 1 + 2 * i, 2);
  }

  lemma {:induction false} JoinMapAt(f: real -> string, xs: seq<real>, i: int)
    requires forall x :: |f(x)| == 2
    requires 0 <= i < |xs|
    ensures |JoinMap(f, xs)| == 2 * |xs|
    ensures JoinMap(f, xs)[2 * i..2 * i + 2] == f(xs[i])
  {
    JoinMapLength(f, xs);
    var first, rest := f(xs[0]), JoinMap(f, xs[1..]);
    assert JoinMap(f, xs) == first + rest;
    JoinMapLength(f, xs[1..]);
    if i == 0 {
      assert (first + rest)[..2] == first;
    } else {
      JoinMapAt(f, xs[1..], i - 1);
      assert xs[1..][i - 1] == xs[i];
      SliceAfter(first, rest, 2 * i, 2);
    }
  }

  /** A slice that starts after `x` is a slice of `y`. */
  lemma SliceAfter<T>(x: seq<T>, y: seq<T>, k: int, n: nat)
    requires |x| <= k && k + n <= |x| + |y|
    ensures (x + y)[k..k + n] == y[k - |x|..k - |x| + n]
  {
  }

  lemma HexValuePair(x: char, y: char)
    requires IsHexDigit(x) && IsHexDigit(y)
    ensures HexValue([x, y]) == DigitValue(x) * 16 + DigitValue(y)
  {
    assert [x][..0] == [];
    assert HexValue([x]) == DigitValue(x);
    assert [x, y][..1] == [x];
    assert HexValue([x, y]) == HexValue([x]) * 16 + DigitValue(y);
  }

  lemma DivMod16(n: int, q: int, r: int)
    requires n == 16 * q + r && 0 <= r < 16
    ensures n / 16 == q && n % 16 == r
  {
  }

  /** The last two hexadecimal digits of `n` denote `n` modulo 256. */
  lemma LastTwoDigits(n: nat)
    ensures (n / 16 % 16) * 16 + n % 16 == n % 256
  {
    var q, r := n / 256, n % 256;
    DivMod16(n, 16 * q + r / 16, r % 16);
    DivMod16(16 * q + r / 16, q, r / 16);
  }

  /**
   * A component whose scaled value is not negative is written as two
   * hexadecimal digits denoting that value modulo 256; for a component in
   * [0, 1] that is the value itself.
   */
  lemma ComponentHexValue(c: real)
    requires Floor(c * 255.0) >= 0
    ensures var h := ComponentHex(c);
      IsHexDigit(h[0]) && IsHexDigit(h[1]) && HexValue(h) == Floor(c * 255.0) % 256
    ensures 0.0 <= c <= 1.0 ==> HexValue(ComponentHex(c)) == Floor(c * 255.0)
  {
    var n: nat := Floor(c * 255.0);
    var h := ComponentHex(c);
    var digits := NatToHex(n);
    assert h == ("0" + digits)[|digits| - 1..];
    assert h[1] == HexDigit(n % 16);
    DigitRoundTrip(n % 16);
    if n < 16 {
      assert h[0] == '0';
      assert h == [HexDigit(0), HexDigit(n % 16)];
      DigitRoundTrip(0);
    } else {
      var high := NatToHex(n / 16);
      assert digits == high + [HexDigit(n % 16)];
      assert h[0] == high[|high| - 1] == HexDigit(n / 16 % 16);
      DigitRoundTrip(n / 16 % 16);
      LastTwoDigits(n);
    }
    assert h == [h[0], h[1]];
    HexValuePair(h[0], h[1]);
    if 0.0 <= c <= 1.0 {
      assert c * 255.0 <= 255.0;
    }
  }

  // ---------------------------------------------------------------------
  // `logTransform`

  /** `v === 0 ? 0 : Math.log(v)`, with the logarithm supplied: a negative count gives NaN. */
  function LogOf(v: real, ln: real -> real): (l: Num)
    ensures v == 0.0 ==> l == Fin(0.0)
    ensures v < 0.0 <==> l == NonFinite
  {
    if v == 0.0 then Fin(0.0) else if v < 0.0 then NonFinite else Fin(ln(v))
  }

  function Logs(h: seq<real>, ln: real -> real): (ls: seq<Num>)
    ensures |ls| == |h| && forall i :: 0 <= i < |h| ==> ls[i] == LogOf(h[i], ln)
  {
    seq(|h|, i requires 0 <= i < |h| => LogOf(h[i], ln))
  }

  /** `loged.filter(Boolean)`: the finite logarithms that are not 0, in order. */
  function Truthy(ls: seq<Num>): (t: seq<real>)
    ensures forall x :: x in t ==> x != 0.0 && Fin(x) in ls
    ensures forall i :: 0 <= i < |ls| && ls[i].Fin? && ls[i].r != 0.0 ==> ls[i].r in t
  {
    if ls == [] then []
    else
      var rest := Truthy(ls[1..]);
      assert forall i :: 1 <= i < |ls| ==> ls[i] == ls[1..][i - 1];
      if ls[0].Fin? && ls[0].r != 0.0 then [ls[0].r] + rest else rest
  }

  function SeqMin(s: seq<real>): (m: real)
    requires s != []
    ensures m in s && forall x :: x in s ==> m <= x
  {
    if |s| == 1 then s[0]
    else
      var m := SeqMin(s[1..]);
      assert forall x :: x in s ==> x == s[0] || x in s[1..];
      Min(s[0], m)
  }

  function SeqMax(s: seq<real>): (m: real)
    requires s != []
    ensures m in s && forall x :: x in s ==> x <= m
  {
    if |s| == 1 then s[0]
    else
      var m := SeqMax(s[1..]);
      assert forall x :: x in s ==> x == s[0] || x in s[1..];
      Max(s[0], m)
  }

  /**
   * `(v - min) / delta` for one logarithm. With no truthy logarithm, `min` is
   * +Infinity and `max` -Infinity; a zero spread divides 0 by 0.
   */
  function Scaled(l: Num, t: seq<real>): Num {
    if l == Fin(0.0) then Fin(0.0)
    else if l.NonFinite? || t == [] then NonFinite
    else Div(l.r - SeqMin(t), SeqMax(t) - SeqMin(t))
  }

  /** `logTransform`: no histogram gives no values; each count maps through its logarithm. */
  function LogTransform(histogram: Option<seq<real>>, ln: real -> real): (r: seq<Num>)
    ensures histogram.None? ==> r == []
    ensures histogram.Some? ==> |r| == |histogram.value|
  {
    match histogram
    case None => []
    case Some(h) =>
      var ls := Logs(h, ln);
      var t := Truthy(ls);
      seq(|h|, i requires 0 <= i < |h| => Scaled(ls[i], t))
  }

  /** `logTransform` on a histogram: each count goes through its logarithm and the truthy logarithms' range. */
  lemma LogTransformAt(h: seq<real>, ln: real -> real, i: int)
    requires 0 <= i < |h|
    ensures LogTransform(Some(h), ln)[i] == Scaled(LogOf(h[i], ln), Truthy(Logs(h, ln)))
  {
  }

  /** Zeros stay 0, negative counts become NaN, and a count whose logarithm is 0 gives 0. */
  lemma LogTransformZeros(h: seq<real>, ln: real -> real, i: int)
    requires 0 <= i < |h|
    ensures h[i] == 0.0 ==> LogTransform(Some(h), ln)[i] == Fin(0.0)
    ensures h[i] < 0.0 ==> LogTransform(Some(h), ln)[i] == NonFinite
    ensures h[i] > 0.0 && ln(h[i]) == 0.0 ==> LogTransform(Some(h), ln)[i] == Fin(0.0)
  {
    LogTransformAt(h, ln, i);
  }

  /**
   * A positive count whose logarithm is not 0 lands in [0, 1], the smallest
   * such logarithm at 0 and the largest at 1, when those logarithms are not
   * all equal, and is NaN when they are.
   */
  lemma LogTransformRange(h: seq<real>, ln: real -> real, i: int)
    requires 0 <= i < |h| && h[i] > 0.0 && ln(h[i]) != 0.0
    ensures Truthy(Logs(h, ln)) != []
    ensures var r, t := LogTransform(Some(h), ln)[i], Truthy(Logs(h, ln));
      (SeqMin(t) == SeqMax(t) ==> r == NonFinite) &&
      (SeqMin(t) < SeqMax(t) ==>
        r.Fin? && 0.0 <= r.r <= 1.0 &&
        (ln(h[i]) == SeqMin(t) ==> r.r == 0.0) &&
        (ln(h[i]) == SeqMax(t) ==> r.r == 1.0))
  {
    var ls := Logs(h, ln);
    var t := Truthy(ls);
    var v := ln(h[i]);
    assert ls[i] == LogOf(h[i], ln) == Fin(v);
    assert v in t;
    LogTransformAt(h, ln, i);
    ScaledRange(v, t);
  }

  /** A truthy logarithm scaled by the range of all of them. */
  lemma ScaledRange(v: real, t: seq<real>)
    requires v in t && v != 0.0
    ensures var lo, hi, r := SeqMin(t), SeqMax(t), Scaled(Fin(v), t);
      (lo == hi ==> r == NonFinite) &&
      (lo < hi ==> r.Fin? && 0.0 <= r.r <= 1.0 && (v == lo ==> r.r == 0.0) && (v == hi ==> r.r == 1.0))
  {
    var lo, hi := SeqMin(t), SeqMax(t);
    assert lo <= v <= hi;
    if lo < hi {
      RatioFacts(v - lo, hi - lo);
      assert Scaled(Fin(v), t) == Fin((v - lo) / (hi - lo));
    }
  }

  lemma RatioFacts(n: real, m: real)
    requires 0.0 <= n <= m && m > 0.0
    ensures 0.0 <= n / m <= 1.0
    ensures n == 0.0 ==> n / m == 0.0
    ensures n == m ==> n / m == 1.0
  {
    UnitRatio(n, m);
  }
}
