// packages/io/src/transformBounds.ts: a box is carried through a 4×4 matrix
// by transforming its minimum and maximum corners and taking the box of the
// two images. The matrix product (`vec3.transformMat4` of gl-matrix) is a
// parameter of the model.
module TransformBounds {
  import opened JsCommon
  import BoundingBox

  type Vec3 = BoundingBox.Vec3

  /**
   * `computeCornerPoints(bounds, point1, point2)`: the minimum corner is
   * written to `point1` and the maximum corner to `point2`, which wins when
   * both name the same array; `point1` is returned.
   */
  method ComputeCornerPoints(bounds: seq<real>, point1: array<real>, point2: array<real>)
    returns (r: array<real>)
    requires |bounds| == 6 && point1.Length == 3 && point2.Length == 3
    modifies point1, point2
    ensures r == point1
    ensures point2[..] == [bounds[1], bounds[3], bounds[5]]
    ensures point1 != point2 ==> point1[..] == [bounds[0], bounds[2], bounds[4]]
  {
    point1[0] := bounds[0];
    point1[1] := bounds[2];
    point1[2] := bounds[4];

    point2[0] := bounds[1];
    point2[1] := bounds[3];
    point2[2] := bounds[5];
    r := point1;
  }

  /** The box spanned by two points: per axis, the smaller and the larger coordinate. */
  function BoundsOf(p: seq<real>, q: seq<real>): (b: seq<real>)
    requires |p| >= 3 && |q| >= 3
    ensures |b| == 6
  {
    [Min(p[0], q[0]), Max(p[0], q[0]), Min(p[1], q[1]), Max(p[1], q[1]), Min(p[2], q[2]), Max(p[2], q[2])]
  }

  /**
   * The box of two points does not depend on their order, is well ordered,
   * contains both points, and each of its bounds is a coordinate of one of them.
   */
  lemma BoundsOfProperties(p: seq<real>, q: seq<real>)
    requires |p| >= 3 && |q| >= 3
    ensures BoundsOf(p, q) == BoundsOf(q, p)
    ensures BoundingBox.WellOrdered(BoundsOf(p, q))
    ensures BoundingBox.ContainsPoint(BoundsOf(p, q), (p[0], p[1], p[2]))
    ensures BoundingBox.ContainsPoint(BoundsOf(p, q), (q[0], q[1], q[2]))
    ensures forall i :: 0 <= i < 6 ==> BoundsOf(p, q)[i] in {p[i / 2], q[i / 2]}
  {
    var b := BoundsOf(p, q);
    forall i | 0 <= i < 6 ensures b[i] in {p[i / 2], q[i / 2]} {
      if i < 2 { assert i / 2 == 0; } else if i < 4 { assert i / 2 == 1; } else { assert i / 2 == 2; }
    }
  }

  /**
   * `computeBoundsFromPoints(point1, point2, bounds)`: writes the box of the
   * two points into `bounds` and returns it.
   */
  method ComputeBoundsFromPoints(point1: seq<real>, point2: seq<real>, bounds: array<real>)
    returns (r: array<real>)
    requires |point1| >= 3 && |point2| >= 3 && bounds.Length == 6
    modifies bounds
    ensures r == bounds && bounds[..] == BoundsOf(point1, point2)
  {
    bounds[0] := Min(point1[0], point2[0]);
    bounds[1] := Max(point1[0], point2[0]);
    bounds[2] := Min(point1[1], point2[1]);
    bounds[3] := Max(point1[1], point2[1]);
    bounds[4] := Min(point1[2], point2[2]);
    bounds[5] := Max(point1[2], point2[2]);
    r := bounds;
  }

  function AsSeq(v: Vec3): (s: seq<real>)
    ensures |s| == 3
  {
    [v.0, v.1, v.2]
  }

  /**
   * `transformBounds(matrix, bounds)`: the box of the images of the minimum
   * and maximum corners under `apply`, which stands for
   * `vec3.transformMat4(out, point, matrix)`. Whatever the transform, the
   * result is well ordered and holds both transformed corners.
   */
  method TransformBoundsOf(apply: Vec3 -> Vec3, bounds: seq<real>) returns (r: array<real>)
    requires |bounds| == 6
    ensures fresh(r)
    ensures r[..] == BoundsOf(AsSeq(apply((bounds[0], bounds[2], bounds[4]))),
                              AsSeq(apply((bounds[1], bounds[3], bounds[5]))))
    ensures BoundingBox.WellOrdered(r[..])
    ensures BoundingBox.ContainsPoint(r[..], apply((bounds[0], bounds[2], bounds[4])))
    ensures BoundingBox.ContainsPoint(r[..], apply((bounds[1], bounds[3], bounds[5])))
  {
    var in1 := new real[3];
    var in2 := new real[3];
    var _ := ComputeCornerPoints(bounds, in1, in2);
    var out1 := apply((in1[0], in1[1], in1[2]));
    var out2 := apply((in2[0], in2[1], in2[2]));
    var target := new real[6];
    r := ComputeBoundsFromPoints(AsSeq(out1), AsSeq(out2), target);
    BoundsOfProperties(AsSeq(out1), AsSeq(out2));
  }
}
