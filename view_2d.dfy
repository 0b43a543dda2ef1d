// packages/viewer/typescript/src/view-2d.ts: the 2D view actor. It shows one
// slice of an image across one axis: it picks the thinnest axis of a new
// image, computes the world position of the slice and the index of that
// slice in the built image, and forwards what it learns to the actors it
// spawned. Messages sent to spawned actors are appended to an outbox; the
// image's world bounds and the built image are inputs.
module View2d {
  import opened JsCommon

  datatype Axis = X | Y | Z

  /** `axisToIndex`. */
  function AxisIndex(axis: Axis): (k: nat)
    ensures k < 3
  {
    match axis
    case X => 0
    case Y => 1
    case Z => 2
  }

  function Abs(x: real): (a: real)
    ensures a >= 0.0 && (a == x || a == -x)
  {
    if x < 0.0 then -x else x
  }

  /** The extent of bounds `[xmin, xmax, ymin, ymax, zmin, zmax]` along an axis. */
  function SizeAlong(bounds: seq<real>, axis: Axis): real
    requires |bounds| == 6
  {
    var k := AxisIndex(axis);
    Abs(bounds[2 * k + 1] - bounds[2 * k])
  }

  /**
   * `computeMinSizeAxis` as written: x or y when that size is strictly
   * below both others, z otherwise, including when x and y tie below z.
   */
  function ComputeMinSizeAxis(bounds: seq<real>): (a: Axis)
    requires |bounds| == 6
    ensures a == X <==> SizeAlong(bounds, X) < SizeAlong(bounds, Y) && SizeAlong(bounds, X) < SizeAlong(bounds, Z)
    ensures a == Y <==> SizeAlong(bounds, Y) < SizeAlong(bounds, X) && SizeAlong(bounds, Y) < SizeAlong(bounds, Z)
  {
    var xSize := Abs(bounds[1] - bounds[0]);
    var ySize := Abs(bounds[3] - bounds[2]);
    var zSize := Abs(bounds[5] - bounds[4]);
    if xSize < ySize && xSize < zSize then X
    else if ySize < xSize && ySize < zSize then Y
    else Z
  }

  /** An image as wide as it is high and deeper than both is sliced across its longest axis. */
  lemma MinSizeAxisPicksLongest()
    ensures var bounds := [0.0, 1.0, 0.0, 1.0, 0.0, 5.0];
      ComputeMinSizeAxis(bounds) == Z && SizeAlong(bounds, Z) > SizeAlong(bounds, X)
  {
  }

  /**
   * The axis `computeMinSizeAxis` evidently means: one of least size,
   * preferring z, then x, on ties.
   */
  function MinSizeAxis(bounds: seq<real>): (a: Axis)
    requires |bounds| == 6
    ensures SizeAlong(bounds, a) <= SizeAlong(bounds, X) && SizeAlong(bounds, a) <= SizeAlong(bounds, Y)
    ensures SizeAlong(bounds, a) <= SizeAlong(bounds, Z)
    ensures a == X ==> SizeAlong(bounds, X) < SizeAlong(bounds, Z)
    ensures a == Y ==> SizeAlong(bounds, Y) < SizeAlong(bounds, Z) && SizeAlong(bounds, Y) < SizeAlong(bounds, X)
  {
    var xSize := Abs(bounds[1] - bounds[0]);
    var ySize := Abs(bounds[3] - bounds[2]);
    var zSize := Abs(bounds[5] - bounds[4]);
    if zSize <= xSize && zSize <= ySize then Z
    else if xSize <= ySize then X
    else Y
  }

  /** The corrected choice agrees with the code as written except where x and y tie below z. */
  lemma MinSizeAxisAgrees(bounds: seq<real>)
    requires |bounds| == 6
    ensures !(SizeAlong(bounds, X) == SizeAlong(bounds, Y) < SizeAlong(bounds, Z)) ==>
      MinSizeAxis(bounds) == ComputeMinSizeAxis(bounds)
  {
  }

  /** The lower world bound along an axis. */
  function Lo(bounds: seq<real>, axis: Axis): real
    requires |bounds| == 6
  {
    bounds[2 * AxisIndex(axis)]
  }

  /** The upper world bound along an axis. */
  function Hi(bounds: seq<real>, axis: Axis): real
    requires |bounds| == 6
  {
    bounds[2 * AxisIndex(axis) + 1]
  }

  /** The world position of the slice: `min + width * slice` along the axis. */
  function SlicePosition(bounds: seq<real>, axis: Axis, slice: real): (pos: real)
    requires |bounds| == 6
    ensures 0.0 <= slice <= 1.0 && Lo(bounds, axis) <= Hi(bounds, axis) ==> Lo(bounds, axis) <= pos <= Hi(bounds, axis)
    ensures slice == 0.0 ==> pos == Lo(bounds, axis)
    ensures slice == 1.0 ==> pos == Hi(bounds, axis)
  {
    var lo, hi := Lo(bounds, axis), Hi(bounds, axis);
    assert 0.0 <= slice <= 1.0 && lo <= hi ==> lo <= lo + (hi - lo) * slice <= hi by {
      if 0.0 <= slice <= 1.0 && lo <= hi {
        Within(lo, hi, slice);
      }
    }
    lo + (hi - lo) * slice
  }

  lemma MulNonNegative(a: real, b: real)
    requires a >= 0.0 && b >= 0.0
    ensures a * b >= 0.0
  {
  }

  lemma Within(lo: real, hi: real, slice: real)
    requires 0.0 <= slice <= 1.0 && lo <= hi
    ensures lo <= lo + (hi - lo) * slice <= hi
  {
    MulNonNegative(hi - lo, slice);
    MulNonNegative(hi - lo, 1.0 - slice);
    assert (hi - lo) * (1.0 - slice) == (hi - lo) - (hi - lo) * slice;
  }

  /**
   * The image builder's first step: the bounds along the axis collapse to
   * the slice's world position, written in place; the other axes keep theirs.
   */
  method CollapseToSlice(worldBounds: array<real>, axis: Axis, slice: real) returns (pos: real)
    requires worldBounds.Length == 6
    modifies worldBounds
    ensures pos == SlicePosition(old(worldBounds[..]), axis, slice)
    ensures worldBounds[2 * AxisIndex(axis)] == pos && worldBounds[2 * AxisIndex(axis) + 1] == pos
    ensures forall i :: 0 <= i < 6 && i / 2 != AxisIndex(axis) ==> worldBounds[i] == old(worldBounds[i])
  {
    var k := AxisIndex(axis);
    pos := SlicePosition(worldBounds[..], axis, slice);
    worldBounds[2 * k] := pos;
    worldBounds[2 * k + 1] := pos;
  }

  /**
   * The index of the slice in the built image: 0 for a 2D image; otherwise
   * the rounded position of the slice along the built image's extent,
   * clamped to the image. `None` is NaN, which an empty axis, or a zero
   * spacing with the slice at the origin, gives.
   */
  function SliceIndex(dimension: nat, size: seq<nat>, spacing: seq<real>, origin: seq<real>, axis: Axis, pos: real): (r: Option<int>)
    requires dimension != 2 ==> AxisIndex(axis) < |size| && AxisIndex(axis) < |spacing| && AxisIndex(axis) < |origin|
    ensures dimension == 2 ==> r == Some(0)
    ensures dimension != 2 ==>
      r == IndexAlong(size[AxisIndex(axis)], spacing[AxisIndex(axis)], origin[AxisIndex(axis)], pos)
  {
    if dimension == 2 then Some(0)
    else
      var k := AxisIndex(axis);
      IndexAlong(size[k], spacing[k], origin[k], pos)
  }

  /**
   * The index of world position `pos` along an axis of `size` voxels of
   * the given spacing starting at `origin`: rounded, then clamped to the
   * voxels. `None` is NaN: an empty axis gives 0 times an infinity or
   * NaN, and a zero spacing with `pos` at the origin gives 0 / 0. A zero
   * spacing elsewhere gives an infinity, which the clamp sends to the
   * last voxel or the first.
   */
  function IndexAlong(size: nat, spacing: real, origin: real, pos: real): (r: Option<int>)
    ensures r.None? <==> size == 0 || (spacing == 0.0 && pos == origin)
    ensures r.Some? ==> 0 <= r.value <= size - 1
    ensures size > 0 && spacing == 0.0 && pos > origin ==> r == Some(size - 1)
    ensures size > 0 && spacing == 0.0 && pos < origin ==> r == Some(0)
  {
    if size == 0 then None
    else if spacing == 0.0 then
      if pos > origin then Some(size - 1)
      else if pos < origin then Some(0)
      else None
    else Some(ClampToSize(Round(size as real * ((pos - origin) / (spacing * size as real))), size))
  }

  /** The slice at the start of voxel `j` of the built image has index `j`. */
  lemma IndexOfVoxel(size: nat, spacing: real, origin: real, j: nat)
    requires spacing != 0.0 && j < size
    ensures IndexAlong(size, spacing, origin, origin + j as real * spacing) == Some(j)
  {
    var n := size as real;
    assert spacing * n != 0.0;
    var pos := origin + j as real * spacing;
    var x := size as real * ((pos - origin) / (spacing * size as real));
    ScaleCancel(j as real, spacing, n, origin);
    assert x == j as real;
    assert Round(x) == j;
    assert ClampToSize(Round(x), size) == j;
    assert IndexAlong(size, spacing, origin, pos) == Some(ClampToSize(Round(x), size));
  }

  lemma ScaleCancel(x: real, s: real, n: real, o: real)
    requires s != 0.0 && n != 0.0
    ensures n * (((o + x * s) - o) / (s * n)) == x
  {
    assert (o + x * s) - o == x * s;
    assert (x * s) / (s * n) == x / n;
  }

  /** A message to a spawned actor. */
  datatype Message<I, C, B> = SetCamera(camera: C) | AxisMessage(axis: Axis) | SetImage(image: I) | ImageBuilt(builtImage: B, sliceIndex: Option<int>)

  /** The state of the view: waiting, finding the default axis of a new image, building the slice image, or stopped by an error. */
  datatype ViewState = Idle | FindingNewImageDefaults | BuildingImage | Stopped(error: string)

  /** `Object.values(spawned).forEach((actor) => send(actor, m))`. */
  function SendAll<A, M>(spawned: seq<(string, A)>, m: M): (r: seq<(A, M)>)
    ensures |r| == |spawned|
    ensures forall i :: 0 <= i < |spawned| ==> r[i] == (spawned[i].1, m)
  {
    seq(|spawned|, i requires 0 <= i < |spawned| => (spawned[i].1, m))
  }

  /** The spawned actors are keyed `'0'`, `'1'`, ... in spawning order. */
  predicate CountKeyed<A>(spawned: seq<(string, A)>) {
    forall i :: 0 <= i < |spawned| ==> spawned[i].0 == NatToString(i)
  }

  /** A new child's key, the number of children so far, is not yet taken, so the child is added last. */
  lemma NewChildAppended<A>(spawned: seq<(string, A)>, child: A)
    requires CountKeyed(spawned)
    ensures Put(spawned, NatToString(|spawned|), child) == spawned + [(NatToString(|spawned|), child)]
    ensures CountKeyed(spawned + [(NatToString(|spawned|), child)])
  {
    NextKeyAbsent(spawned);
    PutKeys(spawned, NatToString(|spawned|), child);
    CountKeyedAppend(spawned, child);
  }

  lemma CountKeyedAppend<A>(spawned: seq<(string, A)>, child: A)
    requires CountKeyed(spawned)
    ensures CountKeyed(spawned + [(NatToString(|spawned|), child)])
  {
    var grown := spawned + [(NatToString(|spawned|), child)];
    assert forall i :: 0 <= i < |spawned| ==> grown[i] == spawned[i];
  }

  /** The id of the next child is not yet in use. */
  lemma NextKeyAbsent<A>(spawned: seq<(string, A)>)
    requires CountKeyed(spawned)
    ensures !HasKey(spawned, NatToString(|spawned|))
  {
    forall i | 0 <= i < |spawned| ensures spawned[i].0 != NatToString(|spawned|) {
      NatToStringInjective(i, |spawned|);
    }
  }

  class View2dActor<A, I, C, B> {
    var slice: real
    var axis: Axis
    var scale: nat
    var image: Option<I>
    var spawned: seq<(string, A)>
    var camera: Option<C>
    var state: ViewState
    /** Messages sent to spawned actors, oldest first. */
    var outbox: seq<(A, Message<I, C, B>)>

    ghost predicate Valid()
      reads this
    {
      CountKeyed(spawned) && (state == FindingNewImageDefaults || state == BuildingImage ==> image.Some?)
    }

    /** The initial context: the middle slice across z at scale 0, with no image, camera or children. */
    constructor()
      ensures Valid()
      ensures slice == 0.5 && axis == Z && scale == 0 && image.None? && spawned == [] && camera.None?
      ensures state == Idle && outbox == []
    {
      slice := 0.5;
      axis := Z;
      scale := 0;
      image := None;
      spawned := [];
      camera := None;
      state := Idle;
      outbox := [];
    }

    /** `createChild`: the child is told the camera (when there is one) and the axis, and stored under the count of children. */
    method CreateChild(child: A)
      requires Valid()
      modifies this
      ensures Valid()
      ensures spawned == old(spawned) + [(NatToString(|old(spawned)|), child)]
      ensures outbox == old(outbox) + (if camera.Some? then [(child, SetCamera(camera.value))] else []) + [(child, AxisMessage(axis))]
      ensures slice == old(slice) && axis == old(axis) && scale == old(scale) && image == old(image)
      ensures camera == old(camera) && state == old(state)
    {
      outbox := outbox + (if camera.Some? then [(child, SetCamera(camera.value))] else []) + [(child, AxisMessage(axis))];
      NewChildAppended(spawned, child);
      spawned := Put(spawned, NatToString(|spawned|), child);
    }

    /** `setImage`: the view moves to the new image's coarsest scale and middle slice, tells its children and looks for the default axis. */
    method SetImageOf(newImage: I, coarsestScale: nat)
      requires Valid()
      modifies this
      ensures Valid()
      ensures old(state).Stopped? ==> unchanged(this)
      ensures !old(state).Stopped? ==>
        image == Some(newImage) && scale == coarsestScale && slice == 0.5 &&
        outbox == old(outbox) + SendAll(spawned, SetImage(newImage)) && state == FindingNewImageDefaults
      ensures axis == old(axis) && spawned == old(spawned) && camera == old(camera)
    {
      if state.Stopped? {
        return;
      }
      image := Some(newImage);
      scale := coarsestScale;
      slice := 0.5;
      outbox := outbox + SendAll(spawned, SetImage(newImage));
      state := FindingNewImageDefaults;
    }

    /** Entering `buildingImage`, which fails with 'No image available' before any image was set. */
    method StartBuilding()
      requires CountKeyed(spawned)
      modifies this
      ensures Valid()
      ensures state == if image.Some? then BuildingImage else Stopped("No image available")
      ensures slice == old(slice) && axis == old(axis) && scale == old(scale) && image == old(image)
      ensures spawned == old(spawned) && camera == old(camera) && outbox == old(outbox)
    {
      if image.Some? {
        state := BuildingImage;
      } else {
        state := Stopped("No image available");
      }
    }

    /** `setSlice`: the slice is stored and the slice image rebuilt. */
    method SetSlice(s: real)
      requires Valid()
      modifies this
      ensures Valid()
      ensures old(state).Stopped? ==> unchanged(this)
      ensures !old(state).Stopped? ==>
        slice == s && state == if image.Some? then BuildingImage else Stopped("No image available")
      ensures axis == old(axis) && scale == old(scale) && image == old(image)
      ensures spawned == old(spawned) && camera == old(camera) && outbox == old(outbox)
    {
      if state.Stopped? {
        return;
      }
      slice := s;
      StartBuilding();
    }

    /** `setScale`: the scale is stored and the slice image rebuilt. */
    method SetScale(s: nat)
      requires Valid()
      modifies this
      ensures Valid()
      ensures old(state).Stopped? ==> unchanged(this)
      ensures !old(state).Stopped? ==>
        scale == s && state == if image.Some? then BuildingImage else Stopped("No image available")
      ensures axis == old(axis) && slice == old(slice) && image == old(image)
      ensures spawned == old(spawned) && camera == old(camera) && outbox == old(outbox)
    {
      if state.Stopped? {
        return;
      }
      scale := s;
      StartBuilding();
    }

    /** `setCamera`: the camera is stored and forwarded to every child. */
    method SetCameraOf(c: C)
      requires Valid()
      modifies this
      ensures Valid()
      ensures old(state).Stopped? ==> unchanged(this)
      ensures !old(state).Stopped? ==> camera == Some(c) && outbox == old(outbox) + SendAll(spawned, SetCamera(c))
      ensures slice == old(slice) && axis == old(axis) && scale == old(scale) && image == old(image)
      ensures spawned == old(spawned) && state == old(state)
    {
      if state.Stopped? {
        return;
      }
      camera := Some(c);
      outbox := outbox + SendAll(spawned, SetCamera(c));
    }

    /**
     * The default axis is found from the coarsest world bounds by
     * `computeMinSizeAxis` as written: the children are told it and the
     * slice image is built. It is an axis of least size unless x and y tie
     * below z.
     */
    method DefaultAxisFound(worldBounds: seq<real>)
      requires Valid() && state == FindingNewImageDefaults && |worldBounds| == 6
      modifies this
      ensures Valid()
      ensures axis == ComputeMinSizeAxis(worldBounds)
      ensures !(SizeAlong(worldBounds, X) == SizeAlong(worldBounds, Y) < SizeAlong(worldBounds, Z)) ==>
        axis == MinSizeAxis(worldBounds)
      ensures outbox == old(outbox) + SendAll(spawned, AxisMessage(axis))
      ensures state == BuildingImage
      ensures slice == old(slice) && scale == old(scale) && image == old(image)
      ensures spawned == old(spawned) && camera == old(camera)
    {
      axis := ComputeMinSizeAxis(worldBounds);
      MinSizeAxisAgrees(worldBounds);
      outbox := outbox + SendAll(spawned, AxisMessage(axis));
      state := BuildingImage;
    }

    /** The slice image is built: every child is sent it with the slice index. */
    method SliceImageBuilt(builtImage: B, sliceIndex: Option<int>)
      requires Valid() && state == BuildingImage
      modifies this
      ensures Valid()
      ensures outbox == old(outbox) + SendAll(spawned, ImageBuilt(builtImage, sliceIndex))
      ensures slice == old(slice) && axis == old(axis) && scale == old(scale) && image == old(image)
      ensures spawned == old(spawned) && camera == old(camera) && state == old(state)
    {
      outbox := outbox + SendAll(spawned, ImageBuilt(builtImage, sliceIndex));
    }
  }
}
