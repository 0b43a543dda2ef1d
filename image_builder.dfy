// packages/viewer/src/image-builder.ts: the actor that builds the image of
// one slice. On entry it asks its worker for the image inside normalized
// bounds that are the whole image except along the slice axis, where they
// collapse to the slice; once the built image arrives it finds the index of
// the slice inside it and reports both to its parent. `cancel` ends it at
// any time. Requests to the worker and messages to the parent are appended
// to outboxes; the index-to-world matrices, which only place the built
// image's origin relative to the whole image, are reduced to that offset.
module ImageBuilder {
  import opened JsCommon
  import D = DimensionUtils

  /** `AxisType`: the image axes `I`, `J`, `K`. */
  datatype AxisType = I | J | K

  /** `axisToIndex`. */
  function AxisIndex(axis: AxisType): (k: nat)
    ensures k < 3
  {
    match axis
    case I => 0
    case J => 1
    case K => 2
  }

  /** The whole image in normalized coordinates: `[0, 1, 0, 1, 0, 1]`. */
  const UnitBounds: seq<real> := [0.0, 1.0, 0.0, 1.0, 0.0, 1.0]

  /**
   * The normalized bounds the builder requests: the pair of the slice axis
   * set to the slice, the other pairs left at `[0, 1]`.
   */
  function NormalizedSliceBounds(axis: AxisType, slice: real): (r: seq<real>)
    ensures |r| == 6
    ensures forall i :: 0 <= i < 6 && i / 2 == AxisIndex(axis) ==> r[i] == slice
    ensures forall i :: 0 <= i < 6 && i / 2 != AxisIndex(axis) ==> r[i] == UnitBounds[i]
  {
    var k := AxisIndex(axis);
    UnitBounds[2 * k := slice][2 * k + 1 := slice]
  }

  /**
   * For a slice in `[0, 1]` the requested bounds lie inside the whole image,
   * are flat along the slice axis and full along the other two.
   */
  lemma SliceBoundsInsideImage(axis: AxisType, slice: real)
    requires 0.0 <= slice <= 1.0
    ensures var b := NormalizedSliceBounds(axis, slice);
      forall i :: 0 <= i < 6 ==> 0.0 <= b[i] <= 1.0
    ensures var b := NormalizedSliceBounds(axis, slice);
      forall k :: 0 <= k < 3 ==> b[2 * k + 1] - b[2 * k] == if k == AxisIndex(axis) then 0.0 else 1.0
  {
    var b := NormalizedSliceBounds(axis, slice);
    forall k | 0 <= k < 3
      ensures b[2 * k + 1] - b[2 * k] == if k == AxisIndex(axis) then 0.0 else 1.0
    {
      assert (2 * k) / 2 == k && (2 * k + 1) / 2 == k;
    }
  }

  /**
   * The entry action of `building`: a fresh `[0, 1, 0, 1, 0, 1]` whose pair
   * for the slice axis is overwritten with the slice.
   */
  method WriteNormalizedBounds(axis: AxisType, slice: real) returns (bounds: array<real>)
    ensures fresh(bounds)
    ensures bounds[..] == NormalizedSliceBounds(axis, slice)
  {
    bounds := new real[6];
    bounds[0], bounds[1], bounds[2], bounds[3], bounds[4], bounds[5] := 0.0, 1.0, 0.0, 1.0, 0.0, 1.0;
    if axis == I {
      bounds[0] := slice;
      bounds[1] := slice;
    } else if axis == J {
      bounds[2] := slice;
      bounds[3] := slice;
    } else if axis == K {
      bounds[4] := slice;
      bounds[5] := slice;
    }
    assert bounds[..] == NormalizedSliceBounds(axis, slice);
  }

  /** `arrayShape.get(dim) ?? 1`: the size of the whole image along the axis, 1 when it has none. */
  function AxisSize(arrayShape: seq<(D.Dimension, nat)>, dim: D.Dimension): (n: nat)
    ensures Get(arrayShape, dim).Some? ==> n == Get(arrayShape, dim).value
    ensures Get(arrayShape, dim).None? ==> n == 1
  {
    match Get(arrayShape, dim)
    case Some(n) => n
    case None => 1
  }

  /** `axisToDim`: the array dimension of an image axis. */
  function AxisDim(axis: AxisType): D.Dimension {
    match axis
    case I => D.X
    case J => D.Y
    case K => D.Z
  }

  /**
   * `findSliceIndex`: 0 for a 2-D image; otherwise the slice's index in the
   * whole image, `slice * axisSize`, made relative to the built image by
   * subtracting the index of its origin, rounded and clamped to the built
   * image's size along the axis.
   */
  function FindSliceIndex(dimension: nat, builtSize: seq<nat>, arrayShape: seq<(D.Dimension, nat)>,
                          builtOriginIndex: real, slice: real, axis: AxisType): (r: int)
    requires dimension != 2 ==> AxisIndex(axis) < |builtSize|
    ensures dimension == 2 ==> r == 0
    ensures dimension != 2 ==>
      r == IndexInBuilt(AxisSize(arrayShape, AxisDim(axis)), builtOriginIndex, slice, builtSize[AxisIndex(axis)])
  {
    if dimension == 2 then 0
    else IndexInBuilt(AxisSize(arrayShape, AxisDim(axis)), builtOriginIndex, slice, builtSize[AxisIndex(axis)])
  }

  /**
   * The index, in a built image of `builtSize` voxels along the axis whose
   * origin lies `builtOriginIndex` voxels into the whole image, of the slice
   * `slice` of an axis of `axisSize` voxels: within the built image, and the
   * rounded offset itself whenever that lies within it.
   */
  function IndexInBuilt(axisSize: nat, builtOriginIndex: real, slice: real, builtSize: nat): (r: int)
    ensures 0 <= r && (builtSize > 0 ==> r < builtSize)
    ensures 0 <= Round(slice * axisSize as real - builtOriginIndex) < builtSize ==>
      r == Round(slice * axisSize as real - builtOriginIndex)
  {
    var fullImageSliceIndex := slice * axisSize as real;
    ClampToSize(Round(fullImageSliceIndex - builtOriginIndex), builtSize)
  }

  /**
   * When the built image is the whole image along the axis, the last slice
   * (`slice` 1, which `Math.round` would place one past the end) is the
   * last index, and the first slice is index 0.
   */
  lemma WholeImageEnds(dimension: nat, builtSize: seq<nat>, arrayShape: seq<(D.Dimension, nat)>, axis: AxisType)
    requires dimension != 2 && AxisIndex(axis) < |builtSize|
    requires builtSize[AxisIndex(axis)] == AxisSize(arrayShape, AxisDim(axis)) > 0
    ensures FindSliceIndex(dimension, builtSize, arrayShape, 0.0, 0.0, axis) == 0
    ensures FindSliceIndex(dimension, builtSize, arrayShape, 0.0, 1.0, axis) == builtSize[AxisIndex(axis)] - 1
  {
    var n := builtSize[AxisIndex(axis)];
    assert Round(1.0 * n as real - 0.0) == n;
    assert IndexInBuilt(n, 0.0, 1.0, n) == n - 1;
  }

  /** Moving the slice further along the axis never moves its index back. */
  lemma SliceIndexMonotone(dimension: nat, builtSize: seq<nat>, arrayShape: seq<(D.Dimension, nat)>,
                           builtOriginIndex: real, s: real, t: real, axis: AxisType)
    requires dimension != 2 && AxisIndex(axis) < |builtSize|
    requires s <= t
    ensures FindSliceIndex(dimension, builtSize, arrayShape, builtOriginIndex, s, axis)
         <= FindSliceIndex(dimension, builtSize, arrayShape, builtOriginIndex, t, axis)
  {
    IndexInBuiltMonotone(AxisSize(arrayShape, AxisDim(axis)), builtOriginIndex, s, t, builtSize[AxisIndex(axis)]);
  }

  lemma IndexInBuiltMonotone(axisSize: nat, builtOriginIndex: real, s: real, t: real, builtSize: nat)
    requires s <= t
    ensures IndexInBuilt(axisSize, builtOriginIndex, s, builtSize) <= IndexInBuilt(axisSize, builtOriginIndex, t, builtSize)
  {
    var n := axisSize as real;
    var x, y := s * n - builtOriginIndex, t * n - builtOriginIndex;
    MulLeft(s, t, n);
    RoundMonotone(x, y);
    ClampMonotone(Round(x), Round(y), builtSize);
  }

  lemma MulLeft(s: real, t: real, n: real)
    requires s <= t && n >= 0.0
    ensures s * n <= t * n
  {
    assert t * n - s * n == (t - s) * n;
  }

  lemma ClampMonotone(i: int, j: int, size: nat)
    requires i <= j
    ensures ClampToSize(i, size) <= ClampToSize(j, size)
  {
  }

  /** The states of the builder; `done` is final. */
  datatype BuilderState = Building | FindingSliceIndex | Done

  /** `imageBuilt`, sent to the parent once the slice index is known. */
  datatype ParentMessage<B> = ImageBuilt(builtImage: B, sliceIndex: int)

  /** `buildImageInImageSpace`, sent to the worker on entry. */
  datatype WorkerRequest = BuildImageInImageSpace(scale: nat, normalizedImageBounds: seq<real>)

  class ImageBuilderActor<B> {
    var slice: real
    var axis: AxisType
    var scale: nat
    var builtImage: Option<B>
    var state: BuilderState
    /** Requests sent to the worker, oldest first. */
    var requests: seq<WorkerRequest>
    /** Messages sent to the parent, oldest first. */
    var outbox: seq<ParentMessage<B>>

    /** Past `building`, a built image is held. */
    ghost predicate Valid()
      reads this
    {
      state == FindingSliceIndex ==> builtImage.Some?
    }

    /** Created from its input, the builder enters `building` and asks the worker for the slice's bounds at its scale. */
    constructor(slice: real, axis: AxisType, scale: nat)
      ensures Valid()
      ensures this.slice == slice && this.axis == axis && this.scale == scale
      ensures state == Building && builtImage == None && outbox == []
      ensures requests == [BuildImageInImageSpace(scale, NormalizedSliceBounds(axis, slice))]
    {
      this.slice := slice;
      this.axis := axis;
      this.scale := scale;
      builtImage := None;
      state := Building;
      outbox := [];
      var bounds := WriteNormalizedBounds(axis, slice);
      requests := [BuildImageInImageSpace(scale, bounds[..])];
    }

    /** `builtImage` from the worker: stored, and the builder goes on to find the slice index; ignored in other states. */
    method BuiltImageArrived(image: B)
      requires Valid()
      modifies this
      ensures Valid()
      ensures old(state) == Building ==> state == FindingSliceIndex && builtImage == Some(image)
      ensures old(state) != Building ==> state == old(state) && builtImage == old(builtImage)
      ensures slice == old(slice) && axis == old(axis) && scale == old(scale)
      ensures requests == old(requests) && outbox == old(outbox)
    {
      if state == Building {
        builtImage := Some(image);
        state := FindingSliceIndex;
      }
    }

    /**
     * `findSliceIndex` done: the parent is sent the built image with the
     * slice's index in it, and the builder is done. The built image's
     * dimension and size, the whole image's array shape at the scale and
     * the index offset of the built image's origin are inputs.
     */
    method SliceIndexFound(dimension: nat, builtSize: seq<nat>, arrayShape: seq<(D.Dimension, nat)>, builtOriginIndex: real)
      requires Valid()
      requires dimension != 2 ==> AxisIndex(axis) < |builtSize|
      modifies this
      ensures Valid()
      ensures slice == old(slice) && axis == old(axis) && scale == old(scale)
      ensures builtImage == old(builtImage) && requests == old(requests)
      ensures old(state) == FindingSliceIndex ==>
        (state == Done &&
         outbox == old(outbox) + [ImageBuilt(builtImage.value, FindSliceIndex(dimension, builtSize, arrayShape, builtOriginIndex, slice, axis))])
      ensures old(state) != FindingSliceIndex ==> state == old(state) && outbox == old(outbox)
    {
      if state == FindingSliceIndex {
        var index := FindSliceIndex(dimension, builtSize, arrayShape, builtOriginIndex, slice, axis);
        outbox := outbox + [ImageBuilt(builtImage.value, index)];
        state := Done;
      }
    }

    /** `cancel`: from any state straight to the final `done`, sending nothing. */
    method Cancel()
      requires Valid()
      modifies this
      ensures Valid()
      ensures state == Done
      ensures slice == old(slice) && axis == old(axis) && scale == old(scale)
      ensures builtImage == old(builtImage) && requests == old(requests) && outbox == old(outbox)
    {
      state := Done;
    }
  }
}
