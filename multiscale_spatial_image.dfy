// packages/io/src/MultiscaleSpatialImage.ts: the index-space bookkeeping of a
// multiscale image: box inflation, clamping requested bounds to the image,
// the containment test and the per-scale cache of built images, the chunk
// indices a region needs, voxel and byte counts, and the direction padding.
// Building the pixel data (a worker call) and the gl-matrix transforms are
// not part of this model; the world-to-index transform is a parameter.
module MultiscaleSpatialImage {
  import opened JsCommon
  import opened DimensionUtils
  import BoundingBox
  import TransformBounds

  /** An inclusive index range `[min, max]`. */
  type Range = (real, real)

  /** A `Map<Dimension, [number, number]>` of index bounds. */
  type DimBounds = seq<(Dimension, Range)>

  /** The itk-wasm component types. */
  datatype ComponentType = Int8 | UInt8 | Int16 | UInt16 | Int32 | UInt32 | Int64 | UInt64 | Float32 | Float64

  /**
   * `BYTES_PER_ELEMENT` of the typed array `componentTypeToTypedArray` maps a
   * component type to; the 64-bit integer types have no entry.
   */
  function BytesPerElement(ct: ComponentType): (n: Option<nat>)
    ensures n.Some? <==> ct !in {Int64, UInt64}
    ensures n.Some? ==> n.value in {1, 2, 4, 8}
  {
    match ct
    case Int8 => Some(1)
    case UInt8 => Some(1)
    case Int16 => Some(2)
    case UInt16 => Some(2)
    case Int32 => Some(4)
    case UInt32 => Some(4)
    case Float32 => Some(4)
    case Float64 => Some(8)
    case _ => None
  }

  datatype ImageType = ImageType(dimension: nat, componentType: ComponentType, components: nat)

  // ---------------------------------------------------------------------
  // inflate and the index extent

  /** The box after `inflate(bounds, delta)`, as a value. */
  function Inflated(b: seq<real>, delta: real): (r: seq<real>)
    requires |b| == 6
    ensures |r| == 6
  {
    [b[0] - delta, b[1] + delta, b[2] - delta, b[3] + delta, b[4] - delta, b[5] + delta]
  }

  /** `inflate(bounds, delta)`: every min moves down and every max up by `delta`, in place. */
  method Inflate(bounds: array<real>, delta: real) returns (r: array<real>)
    requires bounds.Length == 6
    modifies bounds
    ensures r == bounds && bounds[..] == Inflated(old(bounds[..]), delta)
  {
    bounds[0] := bounds[0] - delta;
    bounds[1] := bounds[1] + delta;
    bounds[2] := bounds[2] - delta;
    bounds[3] := bounds[3] + delta;
    bounds[4] := bounds[4] - delta;
    bounds[5] := bounds[5] + delta;
    r := bounds;
  }

  /**
   * Inflating by `delta` lengthens every axis by `2·delta`, inflations add
   * up, and a non-negative inflation keeps every point of the box inside.
   */
  lemma InflatedProperties(b: seq<real>, d1: real, d2: real, p: BoundingBox.Vec3)
    requires |b| == 6
    ensures forall i :: 0 <= i < 3 ==>
      BoundingBox.GetLength(Inflated(b, d1), i).r == BoundingBox.GetLength(b, i).r + 2.0 * d1
    ensures Inflated(Inflated(b, d1), d2) == Inflated(b, d1 + d2)
    ensures d1 >= 0.0 && BoundingBox.ContainsPoint(b, p) ==> BoundingBox.ContainsPoint(Inflated(b, d1), p)
  {
  }

  /** `getIndexBounds(scale)` on the scale's array shape: every dimension of size `n` spans `[0, n − 1]`. */
  function GetIndexBounds(arrayShape: seq<(Dimension, int)>): (r: DimBounds)
    ensures |r| == |arrayShape|
  {
    if arrayShape == [] then []
    else [(arrayShape[0].0, (0.0, (arrayShape[0].1 - 1) as real))] + GetIndexBounds(arrayShape[1..])
  }

  /** The index bounds hold `[0, n − 1]` for every dimension of size `n`, and no other dimension. */
  lemma {:induction false} GetIndexBoundsGet(arrayShape: seq<(Dimension, int)>, d: Dimension)
    ensures Get(GetIndexBounds(arrayShape), d) ==
      match Get(arrayShape, d) case Some(n) => Some((0.0, (n - 1) as real)) case None => None
    decreases |arrayShape|
  {
    if arrayShape != [] && arrayShape[0].0 != d {
      var rest := GetIndexBounds(arrayShape[1..]);
      assert GetIndexBounds(arrayShape)[1..] == rest;
      GetIndexBoundsGet(arrayShape[1..], d);
    }
  }

  /** The range a map of bounds holds for `d`, or `dflt` where it has none. */
  function RangeOr(m: DimBounds, d: Dimension, dflt: Range): Range {
    match Get(m, d)
    case Some(r) => r
    case None => dflt
  }

  /** The index range `getIndexExtent` starts from: `[0, n − 1]`, or [0, 1] where the shape lacks `d`. */
  function IndexRange(arrayShape: seq<(Dimension, int)>, d: Dimension): Range {
    if HasKey(arrayShape, d) then (0.0, (Get(arrayShape, d).value - 1) as real) else (0.0, 1.0)
  }

  /** Completing a map with a default leaves the range of a listed dimension as the map or the default gives it. */
  lemma EnsuredRange(dflt: Range, dims: seq<Dimension>, m: DimBounds, d: Dimension)
    requires d in dims
    ensures RangeOr(EnsuredDims(dflt, dims, m), d, dflt) == RangeOr(m, d, dflt)
  {
    EnsuredDimsGet(dflt, dims, m, d);
  }

  /**
   * `getIndexExtent(scale)`: the x, y and z index bounds, [0, 1] for a
   * dimension the image lacks, each inflated by half a voxel.
   */
  method GetIndexExtent(arrayShape: seq<(Dimension, int)>) returns (bounds: array<real>)
    ensures fresh(bounds)
    ensures bounds[..] == Inflated(IndexRanges(arrayShape), 0.5)
  {
    var full := GetIndexBounds(arrayShape);
    var imageBounds := EnsuredDims((0.0, 1.0), XYZ, full);
    var x := RangeOr(imageBounds, X, (0.0, 1.0));
    var y := RangeOr(imageBounds, Y, (0.0, 1.0));
    var z := RangeOr(imageBounds, Z, (0.0, 1.0));
    ExtentRanges(arrayShape, imageBounds);
    bounds := NewBox(x, y, z);
    bounds := Inflate(bounds, 0.5);
  }

  /** The array `[x[0], x[1], y[0], y[1], z[0], z[1]]`. */
  method NewBox(x: Range, y: Range, z: Range) returns (b: array<real>)
    ensures fresh(b) && b[..] == [x.0, x.1, y.0, y.1, z.0, z.1]
  {
    b := new real[] [x.0, x.1, y.0, y.1, z.0, z.1];
  }

  /** The x, y and z ranges of the extent are the index ranges along those axes. */
  lemma ExtentRanges(arrayShape: seq<(Dimension, int)>, imageBounds: DimBounds)
    requires imageBounds == EnsuredDims((0.0, 1.0), XYZ, GetIndexBounds(arrayShape))
    ensures RangeOr(imageBounds, X, (0.0, 1.0)) == IndexRange(arrayShape, X) &&
      RangeOr(imageBounds, Y, (0.0, 1.0)) == IndexRange(arrayShape, Y) &&
      RangeOr(imageBounds, Z, (0.0, 1.0)) == IndexRange(arrayShape, Z)
  {
    ExtentRange(arrayShape, XYZ, X);
    ExtentRange(arrayShape, XYZ, Y);
    ExtentRange(arrayShape, XYZ, Z);
  }

  /** The x, y and z index ranges, flattened into a box. */
  function IndexRanges(arrayShape: seq<(Dimension, int)>): (b: seq<real>)
    ensures |b| == 6
  {
    [IndexRange(arrayShape, X).0, IndexRange(arrayShape, X).1,
     IndexRange(arrayShape, Y).0, IndexRange(arrayShape, Y).1,
     IndexRange(arrayShape, Z).0, IndexRange(arrayShape, Z).1]
  }

  /**
   * The extent of an axis spans as many voxels as the image has along it,
   * or two where it lacks the axis, and starts half a voxel before index 0.
   */
  /** The range `getIndexExtent` reads for x, y or z before inflating it. */
  lemma ExtentRange(arrayShape: seq<(Dimension, int)>, dims: seq<Dimension>, d: Dimension)
    requires d in dims
    ensures RangeOr(EnsuredDims((0.0, 1.0), dims, GetIndexBounds(arrayShape)), d, (0.0, 1.0)) == IndexRange(arrayShape, d)
  {
    EnsuredRange((0.0, 1.0), dims, GetIndexBounds(arrayShape), d);
    IndexBoundsRange(arrayShape, d);
  }

  lemma IndexBoundsRange(arrayShape: seq<(Dimension, int)>, d: Dimension)
    ensures RangeOr(GetIndexBounds(arrayShape), d, (0.0, 1.0)) == IndexRange(arrayShape, d)
  {
    GetIndexBoundsGet(arrayShape, d);
    if HasKey(arrayShape, d) {
      assert Get(GetIndexBounds(arrayShape), d) == Some(IndexRange(arrayShape, d));
    }
  }

  lemma IndexExtentLength(arrayShape: seq<(Dimension, int)>, d: Dimension)
    ensures var r := IndexRange(arrayShape, d);
      var b := Inflated([r.0, r.1, r.0, r.1, r.0, r.1], 0.5);
      b[0] == -0.5 &&
      BoundingBox.GetLength(b, 0).r == if HasKey(arrayShape, d) then Get(arrayShape, d).value as real else 2.0
  {
  }

  // ---------------------------------------------------------------------
  // Clamping requested bounds to the image

  /** `Math.min(max, Math.max(min, v))`: where `min > max`, `max` wins. */
  function ClampIndex(v: real, lo: real, hi: real): (c: real)
    ensures lo <= hi ==> lo <= c <= hi
    ensures c <= hi
  {
    Min(hi, Max(lo, v))
  }

  /** A requested range clamped into a full range and rounded outwards to whole indices. */
  function ClampRange(full: Range, b: Range): Range {
    (Floor(ClampIndex(b.0, full.0, full.1)) as real, Ceil(ClampIndex(b.1, full.0, full.1)) as real)
  }

  /** The full bounds with every one of c, x, y, z and t present, [0, 1] by default. */
  function FullCXYZT(full: DimBounds): DimBounds {
    EnsuredDims((0.0, 1.0), CXYZT, full)
  }

  /** The range the full bounds give a dimension once completed. */
  function FullRange(full: DimBounds, d: Dimension): Range {
    RangeOr(FullCXYZT(full), d, (0.0, 1.0))
  }

  /**
   * The bounds the two clamping functions build from an index box: x, y
   * and z clamped into the full bounds, then c and t copied from them.
   */
  function Clamped(indexBounds: seq<real>, full: DimBounds): (r: DimBounds)
    requires |indexBounds| == 6
    ensures Keys(r) == [X, Y, Z, C, T]
  {
    [(X, ClampRange(FullRange(full, X), (indexBounds[0], indexBounds[1]))),
     (Y, ClampRange(FullRange(full, Y), (indexBounds[2], indexBounds[3]))),
     (Z, ClampRange(FullRange(full, Z), (indexBounds[4], indexBounds[5]))),
     (C, FullRange(full, C)),
     (T, FullRange(full, T))]
  }

  /** `ensureBoundsCXYZT({ indexBounds, fullIndexBounds })`. */
  function EnsureBoundsCXYZT(indexBounds: seq<real>, fullIndexBounds: DimBounds): (r: DimBounds)
    requires |indexBounds| == 6
    ensures Keys(r) == [X, Y, Z, C, T]
  {
    Clamped(indexBounds, fullIndexBounds)
  }

  /**
   * `worldBoundsToIndexBounds({ bounds, fullIndexBounds, worldToIndex })`:
   * without bounds, the completed full bounds; otherwise the world box carried
   * to index space by `worldToIndex` and clamped.
   */
  method WorldBoundsToIndexBounds(bounds: Option<seq<real>>, fullIndexBounds: DimBounds,
                                  worldToIndex: BoundingBox.Vec3 -> BoundingBox.Vec3)
    returns (r: DimBounds)
    requires bounds.Some? ==> |bounds.value| == 6
    ensures bounds.None? ==> r == FullCXYZT(fullIndexBounds)
    ensures bounds.Some? ==> r == Clamped(IndexBox(worldToIndex, bounds.value), fullIndexBounds)
  {
    if bounds.None? {
      return FullCXYZT(fullIndexBounds);
    }
    var imageBounds := TransformBounds.TransformBoundsOf(worldToIndex, bounds.value);
    r := Clamped(imageBounds[..], fullIndexBounds);
  }

  /**
   * The index-space box of a world box: the two corners carried by
   * `worldToIndex`, then ordered per axis. It is always well ordered.
   */
  function IndexBox(worldToIndex: BoundingBox.Vec3 -> BoundingBox.Vec3, b: seq<real>): (ib: seq<real>)
    requires |b| == 6
    ensures |ib| == 6 && BoundingBox.WellOrdered(ib)
  {
    TransformBounds.BoundsOfProperties(TransformBounds.AsSeq(worldToIndex((b[0], b[2], b[4]))),
                                       TransformBounds.AsSeq(worldToIndex((b[1], b[3], b[5]))));
    TransformBounds.BoundsOf(TransformBounds.AsSeq(worldToIndex((b[0], b[2], b[4]))),
                             TransformBounds.AsSeq(worldToIndex((b[1], b[3], b[5]))))
  }

  /** A full range of whole indices, in order. */
  predicate WholeRange(r: Range) {
    r.0.Floor as real == r.0 && r.1.Floor as real == r.1 && r.0 <= r.1
  }

  /** A range inside another. */
  predicate Covers(outer: Range, inner: Range) {
    outer.0 <= inner.0 && inner.1 <= outer.1
  }

  /** The clamped minimum, rounded down, stays inside a full range of whole indices. */
  lemma ClampFloorInside(full: Range, v: real)
    requires WholeRange(full)
    ensures full.0 <= Floor(ClampIndex(v, full.0, full.1)) as real <= full.1
  {
    var c := ClampIndex(v, full.0, full.1);
    var k := full.0.Floor;
    assert k as real <= c;
    assert k <= c.Floor;
  }

  /** The clamped maximum, rounded up, stays inside a full range of whole indices. */
  lemma ClampCeilInside(full: Range, v: real)
    requires WholeRange(full)
    ensures full.0 <= Ceil(ClampIndex(v, full.0, full.1)) as real <= full.1
  {
    var c := ClampIndex(v, full.0, full.1);
    var k := full.1.Floor;
    assert -c >= -(k as real);
    assert (-c).Floor >= -k;
  }

  /** A whole index inside the full range is its own clamp, either way rounded. */
  lemma ClampWhole(full: Range, v: real)
    requires full.0 <= v <= full.1 && v.Floor as real == v
    ensures Floor(ClampIndex(v, full.0, full.1)) as real == v
    ensures Ceil(ClampIndex(v, full.0, full.1)) as real == v
  {
    assert ClampIndex(v, full.0, full.1) == v;
    assert (-v).Floor == -(v.Floor);
  }

  /**
   * Clamping places a range inside a full range of whole indices, keeps it in
   * order when it was, and leaves a range of whole indices already inside alone.
   */
  lemma ClampRangeInside(full: Range, b: Range)
    requires WholeRange(full)
    ensures Covers(full, ClampRange(full, b))
    ensures b.0 <= b.1 ==> ClampRange(full, b).0 <= ClampRange(full, b).1
    ensures WholeRange(b) && Covers(full, b) ==> ClampRange(full, b) == b
  {
    ClampFloorInside(full, b.0);
    ClampCeilInside(full, b.1);
    if WholeRange(b) && Covers(full, b) {
      ClampWhole(full, b.0);
      ClampWhole(full, b.1);
    }
  }

  /**
   * The clamped bounds: x, y and z inside the full bounds (completed with
   * [0, 1]) and in order when the index box was, c and t copied from the full
   * bounds.
   */
  lemma ClampedInside(indexBounds: seq<real>, full: DimBounds)
    requires |indexBounds| == 6
    requires forall d :: WholeRange(FullRange(full, d))
    ensures var r := Clamped(indexBounds, full);
      forall i :: 0 <= i < 3 ==>
        Covers(FullRange(full, r[i].0), r[i].1) &&
        (indexBounds[2 * i] <= indexBounds[2 * i + 1] ==> r[i].1.0 <= r[i].1.1)
    ensures var r := Clamped(indexBounds, full);
      r[3].1 == FullRange(full, C) && r[4].1 == FullRange(full, T)
  {
    ClampRangeInside(FullRange(full, X), (indexBounds[0], indexBounds[1]));
    ClampRangeInside(FullRange(full, Y), (indexBounds[2], indexBounds[3]));
    ClampRangeInside(FullRange(full, Z), (indexBounds[4], indexBounds[5]));
  }

  /** The completed full bounds keep the given ranges and give each missing dimension [0, 1]. */
  lemma FullRangeOf(full: DimBounds, d: Dimension)
    ensures FullRange(full, d) == if HasKey(full, d) then Get(full, d).value else (0.0, 1.0)
  {
    EnsuredDimsGet((0.0, 1.0), CXYZT, full, d);
    assert CXYZT[CxyztIndex(d)] == d;
  }

  // ---------------------------------------------------------------------
  // Containment and the image cache

  /** The tested bounds have the entry's dimension and its range covers the tested one. */
  predicate EntryCovers(tested: DimBounds, e: (Dimension, Range)) {
    HasKey(tested, e.0) && Covers(e.1, Get(tested, e.0).value)
  }

  /**
   * `isContained(benchmarkBounds, testedBounds)`: the benchmark's dimensions
   * are checked in order and the first that fails decides; a dimension the
   * tested bounds lack throws when it is reached.
   */
  function IsContained(benchmark: DimBounds, tested: DimBounds): (r: Result<bool>)
    decreases |benchmark|
  {
    if benchmark == [] then Ok(true)
    else
      match Get(tested, benchmark[0].0)
      case None => Err("Dimension not found")
      case Some(t) =>
        if Covers(benchmark[0].1, t) then IsContained(benchmark[1..], tested) else Ok(false)
  }

  /**
   * It holds exactly when every benchmark range covers the tested one, and it
   * throws exactly when a dimension is missing before any range fails.
   */
  lemma {:induction false} IsContainedSpec(benchmark: DimBounds, tested: DimBounds)
    ensures IsContained(benchmark, tested) == Ok(true) <==>
      forall i :: 0 <= i < |benchmark| ==> EntryCovers(tested, benchmark[i])
    ensures IsContained(benchmark, tested).Err? <==>
      exists i :: 0 <= i < |benchmark| && !HasKey(tested, benchmark[i].0) &&
        forall j :: 0 <= j < i ==> EntryCovers(tested, benchmark[j])
    ensures IsContained(benchmark, tested).Err? ==> IsContained(benchmark, tested).msg == "Dimension not found"
    decreases |benchmark|
  {
    if benchmark != [] {
      var rest := benchmark[1..];
      IsContainedSpec(rest, tested);
      assert forall i :: 1 <= i < |benchmark| ==> benchmark[i] == rest[i - 1];
      if EntryCovers(tested, benchmark[0]) && IsContained(rest, tested).Err? {
        var i :| 0 <= i < |rest| && !HasKey(tested, rest[i].0) &&
          forall j :: 0 <= j < i ==> EntryCovers(tested, rest[j]);
        assert forall j :: 1 <= j < i + 1 ==> benchmark[j] == rest[j - 1];
        assert !HasKey(tested, benchmark[i + 1].0);
      }
    }
  }

  /** Bounds with distinct dimensions contain themselves. */
  lemma IsContainedReflexive(b: DimBounds)
    requires UniqueKeys(b)
    ensures IsContained(b, b) == Ok(true)
  {
    forall i | 0 <= i < |b| ensures EntryCovers(b, b[i]) {
      GetEntry(b, i);
    }
    IsContainedSpec(b, b);
  }

  /** Containment is transitive: bounds that hold a request also hold every narrower one. */
  lemma IsContainedTransitive(a: DimBounds, b: DimBounds, c: DimBounds)
    requires IsContained(a, b) == Ok(true) && IsContained(b, c) == Ok(true)
    ensures IsContained(a, c) == Ok(true)
  {
    IsContainedSpec(a, b);
    IsContainedSpec(b, c);
    forall i | 0 <= i < |a| ensures EntryCovers(c, a[i]) {
      assert EntryCovers(b, a[i]);
      var v := Get(b, a[i].0).value;
      var j :| 0 <= j < |b| && b[j] == (a[i].0, v);
      assert EntryCovers(c, b[j]);
    }
    IsContainedSpec(a, c);
  }

  datatype CacheEntry<Img> = CacheEntry(bounds: DimBounds, image: Img)

  /**
   * `imagesAtScale.find(...)?.image`: the image of the first entry whose
   * bounds contain the request; a containment test that throws ends the search.
   */
  function FindIn<Img>(entries: seq<CacheEntry<Img>>, bounds: DimBounds): (r: Result<Option<Img>>)
    decreases |entries|
  {
    if entries == [] then Ok(None)
    else
      match IsContained(entries[0].bounds, bounds)
      case Err(e) => Err(e)
      case Ok(true) => Ok(Some(entries[0].image))
      case Ok(false) => FindIn(entries[1..], bounds)
  }

  /** The image found is that of the first entry whose bounds hold the request; none is found when none does. */
  lemma {:induction false} FindInSpec<Img>(entries: seq<CacheEntry<Img>>, bounds: DimBounds)
    ensures FindIn(entries, bounds) == Ok(None) <==>
      forall i :: 0 <= i < |entries| ==> IsContained(entries[i].bounds, bounds) == Ok(false)
    ensures FindIn(entries, bounds).Ok? && FindIn(entries, bounds).value.Some? ==>
      exists i :: 0 <= i < |entries| && entries[i].image == FindIn(entries, bounds).value.value &&
        IsContained(entries[i].bounds, bounds) == Ok(true) &&
        forall j :: 0 <= j < i ==> IsContained(entries[j].bounds, bounds) == Ok(false)
    decreases |entries|
  {
    if entries != [] {
      var rest := entries[1..];
      FindInSpec(rest, bounds);
      assert forall i :: 1 <= i < |entries| ==> entries[i] == rest[i - 1];
      if IsContained(entries[0].bounds, bounds) == Ok(false) && FindIn(rest, bounds).Ok? && FindIn(rest, bounds).value.Some? {
        var i :| 0 <= i < |rest| && rest[i].image == FindIn(rest, bounds).value.value &&
          IsContained(rest[i].bounds, bounds) == Ok(true) &&
          forall j :: 0 <= j < i ==> IsContained(rest[j].bounds, bounds) == Ok(false);
        assert forall j :: 1 <= j < i + 1 ==> entries[j] == rest[j - 1];
        assert entries[i + 1] == rest[i];
      }
    }
  }

  /** What a lookup finds among a single entry: its image when its bounds hold the request. */
  function StoredFind<Img>(bounds: DimBounds, image: Img, request: DimBounds): Result<Option<Img>> {
    match IsContained(bounds, request)
    case Ok(true) => Ok(Some(image))
    case Ok(false) => Ok(None)
    case Err(e) => Err(e)
  }

  lemma FindInSingle<Img>(e: CacheEntry<Img>, request: DimBounds)
    ensures FindIn([e], request) == StoredFind(e.bounds, e.image, request)
  {
    assert [e][1..] == [];
  }

  /** The `ImageCache` map from scale to its cached images. */
  class ImageCache<Img> {
    var entries: map<int, seq<CacheEntry<Img>>>

    constructor ()
      ensures entries == map[]
    {
      entries := map[];
    }

    /** `findImageInBounds({ cache, scale, bounds })`: a scale without entries finds nothing. */
    function FindImageInBounds(scale: int, bounds: DimBounds): (r: Result<Option<Img>>)
      reads this
      ensures scale !in entries ==> r == Ok(None)
      ensures scale in entries ==> r == FindIn(entries[scale], bounds)
    {
      FindIn(if scale in entries then entries[scale] else [], bounds)
    }

    /**
     * `storeImage({ cache, scale, bounds, image })`: the scale's list becomes
     * this one entry, so a later lookup at that scale finds the image exactly
     * when its bounds hold the request; other scales are untouched.
     */
    method StoreImage(scale: int, bounds: DimBounds, image: Img)
      modifies this
      ensures entries == old(entries)[scale := [CacheEntry(bounds, image)]]
      ensures forall request :: FindImageInBounds(scale, request) == StoredFind(bounds, image, request)
      ensures UniqueKeys(bounds) ==> FindImageInBounds(scale, bounds) == Ok(Some(image))
    {
      entries := entries[scale := [CacheEntry(bounds, image)]];
      forall request ensures FindImageInBounds(scale, request) == StoredFind(bounds, image, request) {
        FindInSingle(CacheEntry(bounds, image), request);
      }
      if UniqueKeys(bounds) {
        IsContainedReflexive(bounds);
      }
    }
  }

  // ---------------------------------------------------------------------
  // Chunk indices of a region

  /** The c chunks of one x, y, z chunk: `[h, i, j, k, 0]` for h below `cEnd`. */
  function CRun(k: int, j: int, i: int, cEnd: int): seq<seq<int>>
    decreases cEnd
  {
    if cEnd <= 0 then [] else CRun(k, j, i, cEnd - 1) + [[cEnd - 1, i, j, k, 0]]
  }

  function XRun(k: int, j: int, xs: int, xe: int, cEnd: int): seq<seq<int>>
    decreases xe - xs
  {
    if xe <= xs then [] else XRun(k, j, xs, xe - 1, cEnd) + CRun(k, j, xe - 1, cEnd)
  }

  function YRun(k: int, ys: int, ye: int, xs: int, xe: int, cEnd: int): seq<seq<int>>
    decreases ye - ys
  {
    if ye <= ys then [] else YRun(k, ys, ye - 1, xs, xe, cEnd) + XRun(k, ye - 1, xs, xe, cEnd)
  }

  /** All chunk indices of the region, z slowest, then y, then x, then c. */
  function ZRun(zs: int, ze: int, ys: int, ye: int, xs: int, xe: int, cEnd: int): seq<seq<int>>
    decreases ze - zs
  {
    if ze <= zs then [] else ZRun(zs, ze - 1, ys, ye, xs, xe, cEnd) + YRun(ze - 1, ys, ye, xs, xe, cEnd)
  }

  /** A chunk index `[c, x, y, z, t]` of the box, with t = 0. */
  predicate InBox(idx: seq<int>, zs: int, ze: int, ys: int, ye: int, xs: int, xe: int, cEnd: int) {
    |idx| == 5 && 0 <= idx[0] < cEnd && xs <= idx[1] < xe && ys <= idx[2] < ye && zs <= idx[3] < ze && idx[4] == 0
  }

  lemma {:induction false} CRunMembers(k: int, j: int, i: int, cEnd: int, idx: seq<int>)
    ensures idx in CRun(k, j, i, cEnd) <==> InBox(idx, k, k + 1, j, j + 1, i, i + 1, cEnd)
    decreases cEnd
  {
    if cEnd > 0 {
      CRunMembers(k, j, i, cEnd - 1, idx);
      var last := [cEnd - 1, i, j, k, 0];
      if |idx| == 5 && idx[0] == cEnd - 1 && idx[1] == i && idx[2] == j && idx[3] == k && idx[4] == 0 {
        assert idx == last;
      }
    }
  }

  lemma {:induction false} XRunMembers(k: int, j: int, xs: int, xe: int, cEnd: int, idx: seq<int>)
    ensures idx in XRun(k, j, xs, xe, cEnd) <==> InBox(idx, k, k + 1, j, j + 1, xs, xe, cEnd)
    decreases xe - xs
  {
    if xe > xs {
      XRunMembers(k, j, xs, xe - 1, cEnd, idx);
      CRunMembers(k, j, xe - 1, cEnd, idx);
    }
  }

  lemma {:induction false} YRunMembers(k: int, ys: int, ye: int, xs: int, xe: int, cEnd: int, idx: seq<int>)
    ensures idx in YRun(k, ys, ye, xs, xe, cEnd) <==> InBox(idx, k, k + 1, ys, ye, xs, xe, cEnd)
    decreases ye - ys
  {
    if ye > ys {
      YRunMembers(k, ys, ye - 1, xs, xe, cEnd, idx);
      XRunMembers(k, ye - 1, xs, xe, cEnd, idx);
    }
  }

  /** The enumeration holds exactly the chunk indices of the box. */
  lemma {:induction false} ZRunMembers(zs: int, ze: int, ys: int, ye: int, xs: int, xe: int, cEnd: int, idx: seq<int>)
    ensures idx in ZRun(zs, ze, ys, ye, xs, xe, cEnd) <==> InBox(idx, zs, ze, ys, ye, xs, xe, cEnd)
    decreases ze - zs
  {
    if ze > zs {
      ZRunMembers(zs, ze - 1, ys, ye, xs, xe, cEnd, idx);
      YRunMembers(ze - 1, ys, ye, xs, xe, cEnd, idx);
    }
  }

  /** `indexBounds.get(dim)?.[0] ?? 0`. */
  function StartOf(indexBounds: DimBounds, d: Dimension): real {
    match Get(indexBounds, d)
    case Some(r) => r.0
    case None => 0.0
  }

  /** `(indexBounds.get(dim)?.[1] ?? 0) + 1`: one past the last index. */
  function EndOf(indexBounds: DimBounds, d: Dimension): real {
    (match Get(indexBounds, d) case Some(r) => r.1 case None => 0.0) + 1.0
  }

  /** `chunkSizeWith1.get(dim)`: the chunk size, 1 where none is given. */
  function ChunkSizeWith1(chunkSize: seq<(Dimension, int)>, d: Dimension): (s: int)
    ensures s == match Get(chunkSize, d) case Some(v) => v case None => 1
  {
    EnsuredDimsGet(1, CXYZT, chunkSize, d);
    assert CXYZT[CxyztIndex(d)] == d;
    match Get(EnsuredDims(1, CXYZT, chunkSize), d)
    case Some(v) => v
    case None => 1
  }

  predicate PositiveSizes(chunkSize: seq<(Dimension, int)>) {
    forall i :: 0 <= i < |chunkSize| ==> chunkSize[i].1 > 0
  }

  lemma PositiveSize(chunkSize: seq<(Dimension, int)>, d: Dimension)
    requires PositiveSizes(chunkSize)
    ensures ChunkSizeWith1(chunkSize, d) > 0
  {
    var v := Get(chunkSize, d);
    if v.Some? {
      var i :| 0 <= i < |chunkSize| && chunkSize[i] == (d, v.value);
    }
  }

  /** `Math.floor(start / size)`: the first chunk along an axis. */
  function FirstChunk(indexBounds: DimBounds, chunkSize: seq<(Dimension, int)>, d: Dimension): int
    requires PositiveSizes(chunkSize)
  {
    PositiveSize(chunkSize, d);
    Floor(StartOf(indexBounds, d) / ChunkSizeWith1(chunkSize, d) as real)
  }

  /** `Math.ceil(end / size)`: one past the last chunk along an axis. */
  function EndChunk(indexBounds: DimBounds, chunkSize: seq<(Dimension, int)>, d: Dimension): int
    requires PositiveSizes(chunkSize)
  {
    PositiveSize(chunkSize, d);
    Ceil(EndOf(indexBounds, d) / ChunkSizeWith1(chunkSize, d) as real)
  }

  /** `chunkCount.get('c') ?? 1`. */
  function ComponentChunks(chunkCount: seq<(Dimension, int)>): int {
    match Get(chunkCount, C)
    case Some(n) => n
    case None => 1
  }

  /** The chunk indices `buildImage` requests for a region, as one list. */
  function ChunkIndicesOf(indexBounds: DimBounds, chunkSize: seq<(Dimension, int)>,
                          chunkCount: seq<(Dimension, int)>): seq<seq<int>>
    requires PositiveSizes(chunkSize)
  {
    ZRun(FirstChunk(indexBounds, chunkSize, Z), EndChunk(indexBounds, chunkSize, Z),
         FirstChunk(indexBounds, chunkSize, Y), EndChunk(indexBounds, chunkSize, Y),
         FirstChunk(indexBounds, chunkSize, X), EndChunk(indexBounds, chunkSize, X),
         ComponentChunks(chunkCount))
  }

  /**
   * The chunk-index loops of `buildImage`: z outermost and c innermost.
   * Chunk sizes are positive, as valid array metadata has them.
   */
  method ChunkIndices(indexBounds: DimBounds, chunkSize: seq<(Dimension, int)>, chunkCount: seq<(Dimension, int)>)
    returns (chunkIndices: seq<seq<int>>)
    requires PositiveSizes(chunkSize)
    ensures chunkIndices == ChunkIndicesOf(indexBounds, chunkSize, chunkCount)
  {
    var zs, ze := FirstChunk(indexBounds, chunkSize, Z), EndChunk(indexBounds, chunkSize, Z);
    var ys, ye := FirstChunk(indexBounds, chunkSize, Y), EndChunk(indexBounds, chunkSize, Y);
    var xs, xe := FirstChunk(indexBounds, chunkSize, X), EndChunk(indexBounds, chunkSize, X);
    chunkIndices := ChunkRegion(zs, ze, ys, ye, xs, xe, ComponentChunks(chunkCount));
  }

  /** The z loop over the chunk ranges of a region. */
  method ChunkRegion(zs: int, ze: int, ys: int, ye: int, xs: int, xe: int, ce: int)
    returns (chunkIndices: seq<seq<int>>)
    ensures chunkIndices == ZRun(zs, ze, ys, ye, xs, xe, ce)
  {
    chunkIndices := [];
    var k := zs;
    while k < ze
      invariant zs <= k && (k <= ze || k == zs)
      invariant chunkIndices == ZRun(zs, k, ys, ye, xs, xe, ce)
      decreases ze - k
    {
      chunkIndices := AppendYRun(chunkIndices, k, ys, ye, xs, xe, ce);
      k := k + 1;
    }
    assert ZRun(zs, k, ys, ye, xs, xe, ce) == ZRun(zs, ze, ys, ye, xs, xe, ce);
  }

  /**
   * The region's chunk indices are exactly the `[c, x, y, z, 0]` with z, y and
   * x from `floor(start / size)` below `ceil((max + 1) / size)` and c from 0
   * below the c chunk count.
   */
  lemma ChunkIndicesMembers(indexBounds: DimBounds, chunkSize: seq<(Dimension, int)>,
                            chunkCount: seq<(Dimension, int)>, idx: seq<int>)
    requires PositiveSizes(chunkSize)
    ensures idx in ChunkIndicesOf(indexBounds, chunkSize, chunkCount) <==>
      InBox(idx, FirstChunk(indexBounds, chunkSize, Z), EndChunk(indexBounds, chunkSize, Z),
                 FirstChunk(indexBounds, chunkSize, Y), EndChunk(indexBounds, chunkSize, Y),
                 FirstChunk(indexBounds, chunkSize, X), EndChunk(indexBounds, chunkSize, X),
                 ComponentChunks(chunkCount))
  {
    ZRunMembers(FirstChunk(indexBounds, chunkSize, Z), EndChunk(indexBounds, chunkSize, Z),
                FirstChunk(indexBounds, chunkSize, Y), EndChunk(indexBounds, chunkSize, Y),
                FirstChunk(indexBounds, chunkSize, X), EndChunk(indexBounds, chunkSize, X),
                ComponentChunks(chunkCount), idx);
  }

  /** The y loop for one z chunk. */
  method AppendYRun(acc: seq<seq<int>>, k: int, ys: int, ye: int, xs: int, xe: int, ce: int)
    returns (r: seq<seq<int>>)
    ensures r == acc + YRun(k, ys, ye, xs, xe, ce)
  {
    r := acc;
    var j := ys;
    while j < ye
      invariant ys <= j && (j <= ye || j == ys)
      invariant r == acc + YRun(k, ys, j, xs, xe, ce)
      decreases ye - j
    {
      AppendAssoc(acc, YRun(k, ys, j, xs, xe, ce), XRun(k, j, xs, xe, ce));
      r := AppendXRun(r, k, j, xs, xe, ce);
      j := j + 1;
    }
    assert YRun(k, ys, j, xs, xe, ce) == YRun(k, ys, ye, xs, xe, ce);
  }

  /** The x loop for one y chunk. */
  method AppendXRun(acc: seq<seq<int>>, k: int, j: int, xs: int, xe: int, ce: int)
    returns (r: seq<seq<int>>)
    ensures r == acc + XRun(k, j, xs, xe, ce)
  {
    r := acc;
    var i := xs;
    while i < xe
      invariant xs <= i && (i <= xe || i == xs)
      invariant r == acc + XRun(k, j, xs, i, ce)
      decreases xe - i
    {
      AppendAssoc(acc, XRun(k, j, xs, i, ce), CRun(k, j, i, ce));
      r := AppendCRun(r, k, j, i, ce);
      i := i + 1;
    }
    assert XRun(k, j, xs, i, ce) == XRun(k, j, xs, xe, ce);
  }

  /** The c loop for one x chunk; the t chunk is always 0. */
  method AppendCRun(acc: seq<seq<int>>, k: int, j: int, i: int, ce: int)
    returns (r: seq<seq<int>>)
    ensures r == acc + CRun(k, j, i, ce)
  {
    r := acc;
    var h := 0;
    while h < ce
      invariant 0 <= h && (h <= ce || h == 0)
      invariant r == acc + CRun(k, j, i, h)
      decreases ce - h
    {
      AppendAssoc(acc, CRun(k, j, i, h), [[h, i, j, k, 0]]);
      r := r + [[h, i, j, k, 0]];
      h := h + 1;
    }
    assert CRun(k, j, i, h) == CRun(k, j, i, ce);
  }

  // ---------------------------------------------------------------------
  // Voxel and byte counts

  /** The x, y and z sizes the shape has, in that order: `XYZ.map(get).filter(nonNullable)`. */
  function PresentSizes(arrayShape: seq<(Dimension, int)>): (s: seq<int>)
    ensures |s| <= 3
  {
    (if HasKey(arrayShape, X) then [Get(arrayShape, X).value] else [])
    + (if HasKey(arrayShape, Y) then [Get(arrayShape, Y).value] else [])
    + (if HasKey(arrayShape, Z) then [Get(arrayShape, Z).value] else [])
  }

  /** `reduce((voxels, dimSize) => voxels * dimSize, 1)`. */
  function Product(s: seq<real>): real
    decreases |s|
  {
    if s == [] then 1.0 else Product(s[..|s| - 1]) * s[|s| - 1]
  }

  function AsReals(s: seq<int>): (r: seq<real>)
    ensures |r| == |s| && forall i :: 0 <= i < |s| ==> r[i] == s[i] as real
  {
    seq(|s|, i requires 0 <= i < |s| => s[i] as real)
  }

  /** The number of voxels of a range of inclusive bounds. */
  function Span(r: Range): real {
    r.1 - r.0 + 1.0
  }

  /**
   * `getVoxelCount(image, scale, bounds)`: without bounds, the product of the
   * x, y and z sizes the shape has; with bounds, the product of the spans of
   * the clamped x, y and z index ranges.
   */
  method GetVoxelCount(arrayShape: seq<(Dimension, int)>, bounds: Option<seq<real>>,
                       worldToIndex: BoundingBox.Vec3 -> BoundingBox.Vec3)
    returns (count: real)
    requires bounds.Some? ==> |bounds.value| == 6
    ensures bounds.None? ==> count == Product(AsReals(PresentSizes(arrayShape)))
    ensures bounds.Some? ==>
      count == VoxelsIn(Clamped(IndexBox(worldToIndex, bounds.value), GetIndexBounds(arrayShape)))
  {
    if bounds.None? {
      return Product(AsReals(PresentSizes(arrayShape)));
    }
    var indexBounds := WorldBoundsToIndexBounds(bounds, GetIndexBounds(arrayShape), worldToIndex);
    count := Product([Span(indexBounds[0].1), Span(indexBounds[1].1), Span(indexBounds[2].1)]);
  }

  /** The product of the spans of the x, y and z ranges of clamped bounds. */
  function VoxelsIn(r: DimBounds): real
    requires |r| == 5
  {
    Product([Span(r[0].1), Span(r[1].1), Span(r[2].1)])
  }

  /**
   * Once clamped, a well-ordered request counts at least one voxel and no
   * more than the full x, y and z ranges (completed with [0, 1]) hold.
   */
  lemma VoxelsInBounds(ib: seq<real>, full: DimBounds)
    requires |ib| == 6 && BoundingBox.WellOrdered(ib)
    requires forall d :: WholeRange(FullRange(full, d))
    ensures 1.0 <= VoxelsIn(Clamped(ib, full))
    ensures VoxelsIn(Clamped(ib, full)) <= Product([Span(FullRange(full, X)), Span(FullRange(full, Y)), Span(FullRange(full, Z))])
  {
    var fx, fy, fz := FullRange(full, X), FullRange(full, Y), FullRange(full, Z);
    var x, y, z := ClampRange(fx, (ib[0], ib[1])), ClampRange(fy, (ib[2], ib[3])), ClampRange(fz, (ib[4], ib[5]));
    assert WholeRange(fx) && WholeRange(fy) && WholeRange(fz);
    assert ib[0] <= ib[1] && ib[2] <= ib[3] && ib[4] <= ib[5];
    ClampRangeInside(fx, (ib[0], ib[1]));
    ClampRangeInside(fy, (ib[2], ib[3]));
    ClampRangeInside(fz, (ib[4], ib[5]));
    var r := Clamped(ib, full);
    assert r[0].1 == x && r[1].1 == y && r[2].1 == z;
    var v := VoxelsIn(r);
    assert v == Product([Span(x), Span(y), Span(z)]);
    ProductMonotone(Span(x), Span(y), Span(z), Span(fx), Span(fy), Span(fz));
  }

  lemma Product3(a: real, b: real, c: real)
    ensures Product([a, b, c]) == a * b * c
  {
    assert [a, b, c][..2] == [a, b] && [a, b][..1] == [a] && [a][..0] == [];
    assert Product([a]) == a;
    assert Product([a, b]) == a * b;
  }

  lemma ProductMonotone(a: real, b: real, c: real, a': real, b': real, c': real)
    requires 1.0 <= a <= a' && 1.0 <= b <= b' && 1.0 <= c <= c'
    ensures 1.0 <= Product([a, b, c]) <= Product([a', b', c'])
  {
    Product3(a, b, c);
    Product3(a', b', c');
    MulMonotone3(a, b, c, a', b', c');
  }

  lemma MulMonotone3(a: real, b: real, c: real, a': real, b': real, c': real)
    requires 1.0 <= a <= a' && 1.0 <= b <= b' && 1.0 <= c <= c'
    ensures 1.0 <= a * b * c <= a' * b' * c'
  {
    var ab, ab' := a * b, a' * b';
    MulMono(b, 1.0, a);
    MulMono(b, a, a');
    MulMono(a', b, b');
    assert 1.0 <= ab <= ab';
    MulMono(c, ab, ab');
    MulMono(ab', c, c');
    assert ab * c <= ab' * c';
    MulMono(c, 1.0, ab);
    assert 1.0 <= ab * c;
  }

  lemma MulMono(x: real, y: real, y': real)
    requires x >= 0.0 && y <= y'
    ensures y * x <= y' * x && x * y <= x * y'
  {
  }

  /**
   * `getBytes(image, voxelCount)`: element size × components × voxels; a
   * component type without a typed array makes the lookup throw.
   */
  function GetBytes(imageType: ImageType, voxelCount: real): (r: Result<real>)
    ensures r.Ok? <==> BytesPerElement(imageType.componentType).Some?
    ensures r.Ok? ==>
      r.value == (BytesPerElement(imageType.componentType).value * imageType.components) as real * voxelCount
  {
    match BytesPerElement(imageType.componentType)
    case None => Err("TypeError: Cannot read properties of undefined (reading 'prototype')")
    case Some(n) => Ok(n as real * imageType.components as real * voxelCount)
  }

  // ---------------------------------------------------------------------
  // Direction

  /** Element `i` of a typed array: `undefined` past the end becomes NaN. */
  function At(d: seq<real>, i: nat): Num {
    if i < |d| then Fin(d[i]) else NonFinite
  }

  /**
   * `ensure3dDirection(d)`: a copy of the first nine entries of a 3D
   * direction, or a 2D direction padded with the z axis.
   */
  function Ensure3dDirection(d: seq<real>): (r: seq<Num>)
    ensures |r| == 9
    ensures |d| >= 9 ==> forall i :: 0 <= i < 9 ==> r[i] == Fin(d[i])
    ensures |d| < 9 ==> r[2] == r[5] == r[6] == r[7] == Fin(0.0) && r[8] == Fin(1.0)
    ensures |d| < 9 ==> r[0] == At(d, 0) && r[1] == At(d, 1) && r[3] == At(d, 2) && r[4] == At(d, 3)
  {
    if |d| >= 9 then [Fin(d[0]), Fin(d[1]), Fin(d[2]), Fin(d[3]), Fin(d[4]), Fin(d[5]), Fin(d[6]), Fin(d[7]), Fin(d[8])]
    else [At(d, 0), At(d, 1), Fin(0.0), At(d, 2), At(d, 3), Fin(0.0), Fin(0.0), Fin(0.0), Fin(1.0)]
  }

  /** The 2D identity pads to the 3D identity, and a 3D direction is copied as it is. */
  lemma Ensure3dIdentity(d: seq<real>)
    ensures Ensure3dDirection([1.0, 0.0, 0.0, 1.0]) ==
      [Fin(1.0), Fin(0.0), Fin(0.0), Fin(0.0), Fin(1.0), Fin(0.0), Fin(0.0), Fin(0.0), Fin(1.0)]
    ensures |d| == 9 ==> Ensure3dDirection(d) == seq(9, i requires 0 <= i < 9 => Fin(d[i]))
  {
  }

  // ---------------------------------------------------------------------
  // The image object

  /** The spatial dimensions of an image of the given dimension: `['x', 'y', 'z'].slice(0, dimension)`. */
  function SpatialDims(dimension: nat): (s: seq<Dimension>)
    ensures |s| == if dimension < 3 then dimension else 3
    ensures s == [X, Y, Z][..|s|]
  {
    if dimension < 3 then [X, Y, Z][..dimension] else [X, Y, Z]
  }

  class MultiscaleImage<Img> {
    /** One shape per scale, finest first. */
    const arrayShapes: seq<seq<(Dimension, int)>>
    const name: string
    const imageType: ImageType
    const spatialDims: seq<Dimension>
    const cachedImages: ImageCache<Img>

    /** The constructor, for a component type that has a typed array. */
    constructor (arrayShapes: seq<seq<(Dimension, int)>>, imageType: ImageType, name: string := "Image")
      requires BytesPerElement(imageType.componentType).Some?
      ensures this.arrayShapes == arrayShapes && this.imageType == imageType && this.name == name
      ensures spatialDims == SpatialDims(imageType.dimension)
      ensures fresh(cachedImages) && cachedImages.entries == map[]
    {
      this.arrayShapes := arrayShapes;
      this.name := name;
      this.imageType := imageType;
      spatialDims := SpatialDims(imageType.dimension);
      cachedImages := new ImageCache();
    }

    /** `coarsestScale`: the index of the last scale. */
    function CoarsestScale(): (s: int)
      ensures s + 1 == |arrayShapes|
    {
      |arrayShapes| - 1
    }
  }

  /** `new MultiscaleSpatialImage(...)`, which throws for an unsupported component type. */
  method NewImage<Img>(arrayShapes: seq<seq<(Dimension, int)>>, imageType: ImageType, name: string)
    returns (r: Result<MultiscaleImage<Img>>)
    ensures r.Err? <==> BytesPerElement(imageType.componentType).None?
    ensures r.Err? ==> r.msg == "Unsupported component type"
    ensures r.Ok? ==> fresh(r.value) && r.value.imageType == imageType && r.value.cachedImages.entries == map[]
  {
    if BytesPerElement(imageType.componentType).None? {
      return Err("Unsupported component type");
    }
    var image := new MultiscaleImage(arrayShapes, imageType, name);
    r := Ok(image);
  }
}
