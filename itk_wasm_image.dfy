// packages/io/src/ItkWasmMultiscaleSpatialImage.ts: an in-memory itk-wasm
// image seen as a multiscale image with one scale made of one chunk. The
// dimension list, the coordinate arrays and the chunk maps are built here;
// the pixel buffer is handed on as it is. Float32 rounding of the coordinate
// arrays is not modelled: coordinates are JavaScript numbers.
module ItkWasmImage {
  import opened JsCommon
  import opened DimensionUtils
  import MultiscaleSpatialImage

  type Bytes = seq<bv8>

  /** `image.size[k]`: undefined past the end. */
  function SizeAt(size: seq<nat>, k: nat): Option<nat> {
    if k < |size| then Some(size[k]) else None
  }

  /** `image.origin[k]` or `image.spacing[k]`: undefined, and NaN in arithmetic, past the end. */
  function NumAt(v: seq<real>, k: nat): Num {
    if k < |v| then Fin(v[k]) else NonFinite
  }

  // ---------------------------------------------------------------------
  // Dimensions

  /**
   * The `dims` of `imageToScaleInfo`: `['y', 'x']`, with 'c' pushed for a
   * multi-component image and 'z' put in front for a 3D one.
   */
  method ImageDims(dimension: nat, components: nat) returns (dims: seq<Dimension>)
    ensures dims == ImageDimsOf(dimension, components)
  {
    dims := [Y, X];
    if components > 1 {
      dims := dims + [C];
    }
    if dimension == 3 {
      dims := [Z] + dims;
    }
  }

  function ImageDimsOf(dimension: nat, components: nat): seq<Dimension> {
    (if dimension == 3 then [Z] else []) + [Y, X] + (if components > 1 then [C] else [])
  }

  /**
   * The dimensions are distinct; 'y' and 'x' are always there, 'c' exactly
   * for more than one component, and then last, 'z' exactly in 3D, and then
   * first; 't' never.
   */
  lemma ImageDimsShape(dimension: nat, components: nat)
    ensures var dims := ImageDimsOf(dimension, components);
      Distinct(dims) && Y in dims && X in dims && T !in dims &&
      (C in dims <==> components > 1) && (Z in dims <==> dimension == 3) &&
      (components > 1 ==> dims[|dims| - 1] == C) && (dimension == 3 ==> dims[0] == Z) &&
      |dims| == 2 + (if dimension == 3 then 1 else 0) + (if components > 1 then 1 else 0)
  {
  }

  /** `[...dims].reverse()`: the dimension order the coordinate arrays expect. */
  function Reversed<T>(s: seq<T>): (r: seq<T>)
    ensures |r| == |s| && forall k :: 0 <= k < |s| ==> r[k] == s[|s| - 1 - k]
  {
    if s == [] then [] else Reversed(s[1..]) + [s[0]]
  }

  /** The reversed image dimensions: 'c' first when present, then x, y and z. */
  lemma ReversedImageDims(dimension: nat, components: nat)
    ensures Reversed(ImageDimsOf(dimension, components)) ==
      (if components > 1 then [C] else []) + [X, Y] + (if dimension == 3 then [Z] else [])
  {
    var dims := ImageDimsOf(dimension, components);
    var expected := (if components > 1 then [C] else []) + [X, Y] + (if dimension == 3 then [Z] else []);
    assert |Reversed(dims)| == |expected|;
    forall k | 0 <= k < |expected| ensures Reversed(dims)[k] == expected[k] {
      assert Reversed(dims)[k] == dims[|dims| - 1 - k];
    }
  }

  // ---------------------------------------------------------------------
  // Chunk maps

  /** `sizeCXYZTElements`: components, the x and y sizes, the z size in 3D or 1, and 1 for t. */
  function SizeCxyzt(dimension: nat, components: nat, size: seq<nat>): seq<Option<nat>> {
    [Some(components), SizeAt(size, 0), SizeAt(size, 1), if dimension == 3 then SizeAt(size, 2) else Some(1), Some(1)]
  }

  /** JavaScript truthiness of a map value: undefined and 0 are falsy. */
  predicate Falsy(v: Option<Option<nat>>) {
    v.None? || v.value.None? || v.value.value == 0
  }

  /** The entry of a `toDimensionMap(CXYZT, values)` map for each of the five dimensions. */
  lemma CxyztMap<V>(values: seq<V>, d: Dimension)
    requires |values| == 5
    ensures Get(ToDimensionMap(CXYZT, values), d) == Some(Some(values[CxyztIndex(d)]))
  {
    assert Distinct(CXYZT);
    assert CXYZT[CxyztIndex(d)] == d;
    ToDimensionMapGet(CXYZT, values, CxyztIndex(d));
  }

  /** `chunkCount`: one chunk along every dimension of the image. */
  function ChunkCount(dims: seq<Dimension>): Result<seq<(Dimension, Option<Option<nat>>)>> {
    OrderBy(dims, ToDimensionMap(CXYZT, [Some(1), Some(1), Some(1), Some(1), Some(1)]), Falsy)
  }

  /** `arrayShape`, and `chunkSize` which is built from a copy of the same sizes. */
  function ArrayShape(dimension: nat, components: nat, size: seq<nat>): Result<seq<(Dimension, Option<Option<nat>>)>> {
    OrderBy(ImageDimsOf(dimension, components), ToDimensionMap(CXYZT, SizeCxyzt(dimension, components, size)), Falsy)
  }

  /** Where every listed dimension has a truthy value, `orderBy` keeps them all, in order. */
  lemma OrderByCxyzt(dims: seq<Dimension>, values: seq<Option<nat>>, k: int)
    requires Distinct(dims) && |values| == 5 && 0 <= k < |dims|
    requires forall j :: 0 <= j < |dims| ==> !Falsy(Some(values[CxyztIndex(dims[j])]))
    ensures var r := OrderBy(dims, ToDimensionMap(CXYZT, values), Falsy);
      r.Ok? && Keys(r.value) == dims && Get(r.value, dims[k]) == Some(Some(values[CxyztIndex(dims[k])]))
  {
    var m := ToDimensionMap(CXYZT, values);
    forall j | 0 <= j < |dims| ensures Found(m, Falsy, dims[j]) {
      CxyztMap(values, dims[j]);
    }
    OrderedErrors(dims, m, Falsy);
    OrderByKeeps(dims, m, Falsy, k);
    CxyztMap(values, dims[k]);
  }

  /** The chunk count is 1 along every dimension of the image, in the image's dimension order. */
  lemma ChunkCountIsOne(dims: seq<Dimension>, k: int)
    requires Distinct(dims) && 0 <= k < |dims|
    ensures ChunkCount(dims).Ok? && Keys(ChunkCount(dims).value) == dims
    ensures Get(ChunkCount(dims).value, dims[k]) == Some(Some(Some(1)))
  {
    var ones := [Some(1), Some(1), Some(1), Some(1), Some(1)];
    forall j | 0 <= j < |dims| ensures !Falsy(Some(ones[CxyztIndex(dims[j])])) {
      assert ones[CxyztIndex(dims[j])] == Some(1);
    }
    OrderByCxyzt(dims, ones, k);
  }

  /** `orderBy` over a `toDimensionMap(CXYZT, values)` map succeeds exactly when every listed value is truthy. */
  lemma OrderByCxyztOk(dims: seq<Dimension>, values: seq<Option<nat>>)
    requires |values| == 5
    ensures OrderBy(dims, ToDimensionMap(CXYZT, values), Falsy).Ok? <==>
      forall j :: 0 <= j < |dims| ==> !Falsy(Some(values[CxyztIndex(dims[j])]))
  {
    var m := ToDimensionMap(CXYZT, values);
    forall j | 0 <= j < |dims| ensures Found(m, Falsy, dims[j]) <==> !Falsy(Some(values[CxyztIndex(dims[j])])) {
      CxyztMap(values, dims[j]);
    }
    OrderedErrors(dims, m, Falsy);
  }

  /** The value listed for `d` in `sizeCXYZTElements` is present and non-zero. */
  predicate Truthy(values: seq<Option<nat>>, d: Dimension)
    requires |values| == 5
  {
    !Falsy(Some(values[CxyztIndex(d)]))
  }

  /** The sizes `arrayShape` needs: x and y, and z for a 3D image, present and non-zero. */
  predicate SizesPresent(dimension: nat, size: seq<nat>) {
    |size| >= 2 && size[0] > 0 && size[1] > 0 && (dimension == 3 ==> |size| >= 3 && size[2] > 0)
  }

  /** The array shape exists exactly when every size it lists is present and non-zero. */
  lemma ArrayShapeOk(dimension: nat, components: nat, size: seq<nat>)
    ensures ArrayShape(dimension, components, size).Ok? <==> SizesPresent(dimension, size)
  {
    var dims := ImageDimsOf(dimension, components);
    var values := SizeCxyzt(dimension, components, size);
    OrderByCxyztOk(dims, values);
    if SizesPresent(dimension, size) {
      AllTruthy(dimension, components, size);
    } else {
      SomeFalsy(dimension, components, size);
    }
  }

  lemma AllTruthy(dimension: nat, components: nat, size: seq<nat>)
    requires SizesPresent(dimension, size)
    ensures var dims := ImageDimsOf(dimension, components);
      forall j :: 0 <= j < |dims| ==> Truthy(SizeCxyzt(dimension, components, size), dims[j])
  {
    var dims := ImageDimsOf(dimension, components);
    ImageDimsShape(dimension, components);
    forall j | 0 <= j < |dims| ensures Truthy(SizeCxyzt(dimension, components, size), dims[j]) {
      assert dims[j] in dims;
    }
  }

  lemma SomeFalsy(dimension: nat, components: nat, size: seq<nat>)
    requires !SizesPresent(dimension, size)
    ensures var dims := ImageDimsOf(dimension, components);
      exists j :: 0 <= j < |dims| && !Truthy(SizeCxyzt(dimension, components, size), dims[j])
  {
    var dims := ImageDimsOf(dimension, components);
    ImageDimsShape(dimension, components);
    var d := if |size| < 1 || size[0] == 0 then X else if |size| < 2 || size[1] == 0 then Y else Z;
    assert !Truthy(SizeCxyzt(dimension, components, size), d);
    var j :| 0 <= j < |dims| && dims[j] == d;
  }

  /**
   * The array shape (and the chunk size, the same map) lists the image's
   * dimensions in order and gives each the size `sizeCXYZTElements` holds
   * for it: x and y the first two sizes, z the third in 3D, c the component
   * count.
   */
  lemma ArrayShapeAt(dimension: nat, components: nat, size: seq<nat>, d: Dimension)
    requires ArrayShape(dimension, components, size).Ok?
    requires d == X || d == Y || (d == Z && dimension == 3) || (d == C && components > 1)
    ensures Keys(ArrayShape(dimension, components, size).value) == ImageDimsOf(dimension, components)
    ensures Get(ArrayShape(dimension, components, size).value, d) == Some(Some(SizeCxyzt(dimension, components, size)[CxyztIndex(d)]))
  {
    var dims := ImageDimsOf(dimension, components);
    var values := SizeCxyzt(dimension, components, size);
    ImageDimsShape(dimension, components);
    OrderByCxyztOk(dims, values);
    var k :| 0 <= k < |dims| && dims[k] == d;
    OrderByCxyzt(dims, values, k);
  }

  // ---------------------------------------------------------------------
  // Coordinates

  /** Coordinate `i` along spatial axis `k`: `origin[k] + i · spacing[k]`. */
  function AxisCoords(size: seq<nat>, origin: seq<real>, spacing: seq<real>, k: nat): (cs: seq<Num>)
    ensures |cs| == if k < |size| then size[k] else 0
  {
    var n := if k < |size| then size[k] else 0;
    seq(n, i requires 0 <= i < n =>
      if k < |origin| && k < |spacing| then Fin(origin[k] + i as real * spacing[k]) else NonFinite)
  }

  /** The component coordinates `0, 1, …, components - 1`. */
  function ComponentCoords(components: nat): seq<Num> {
    seq(components, c requires 0 <= c < components => Fin(c as real))
  }

  /** The arrays set by the spatial loop for `dims[start..upTo]`, later entries overwriting earlier ones. */
  function SpatialCoords(base: map<Dimension, seq<Num>>, dims: seq<Dimension>, start: nat, upTo: nat,
                         size: seq<nat>, origin: seq<real>, spacing: seq<real>): map<Dimension, seq<Num>>
    requires start <= upTo <= |dims|
    decreases upTo
  {
    if upTo == start then base
    else SpatialCoords(base, dims, start, upTo - 1, size, origin, spacing)[dims[upTo - 1] := AxisCoords(size, origin, spacing, upTo - 1 - start)]
  }

  /** The arrays `new Coords(image, dims)` holds. */
  function CoordsOf(dims: seq<Dimension>, components: nat, size: seq<nat>, origin: seq<real>, spacing: seq<real>)
    : map<Dimension, seq<Num>>
  {
    var withC: map<Dimension, seq<Num>> := if |dims| > 0 && dims[0] == C then map[C := ComponentCoords(components)] else map[];
    var start := if |dims| > 0 && dims[0] == C then 1 else 0;
    SpatialCoords(withC, dims, start, |dims|, size, origin, spacing)
  }

  lemma {:induction false} SpatialCoordsKeys(base: map<Dimension, seq<Num>>, dims: seq<Dimension>, start: nat, upTo: nat,
                                             size: seq<nat>, origin: seq<real>, spacing: seq<real>, d: Dimension)
    requires start <= upTo <= |dims|
    ensures d in SpatialCoords(base, dims, start, upTo, size, origin, spacing) <==> d in base || d in dims[start..upTo]
    decreases upTo
  {
    if upTo > start {
      SpatialCoordsKeys(base, dims, start, upTo - 1, size, origin, spacing, d);
      assert dims[start..upTo] == dims[start..upTo - 1] + [dims[upTo - 1]];
    }
  }

  lemma {:induction false} SpatialCoordsAt(base: map<Dimension, seq<Num>>, dims: seq<Dimension>, start: nat, upTo: nat,
                                           size: seq<nat>, origin: seq<real>, spacing: seq<real>, k: int)
    requires start <= k < upTo <= |dims| && Distinct(dims)
    ensures dims[k] in SpatialCoords(base, dims, start, upTo, size, origin, spacing)
    ensures SpatialCoords(base, dims, start, upTo, size, origin, spacing)[dims[k]] == AxisCoords(size, origin, spacing, k - start)
    decreases upTo
  {
    if k < upTo - 1 {
      SpatialCoordsAt(base, dims, start, upTo - 1, size, origin, spacing, k);
    }
  }

  /**
   * For distinct dimensions: the coordinates exist exactly for the listed
   * dimensions; a leading 'c' holds `0 … components - 1`; the spatial
   * dimension at position `start + k` takes size, origin and spacing `k`.
   */
  lemma CoordsMeaning(dims: seq<Dimension>, components: nat, size: seq<nat>, origin: seq<real>, spacing: seq<real>, k: int)
    requires Distinct(dims)
    ensures forall d :: d in CoordsOf(dims, components, size, origin, spacing) <==> d in dims
    ensures |dims| > 0 && dims[0] == C ==> CoordsOf(dims, components, size, origin, spacing)[C] == ComponentCoords(components)
    ensures var start := if |dims| > 0 && dims[0] == C then 1 else 0;
      start <= k < |dims| ==> CoordsOf(dims, components, size, origin, spacing)[dims[k]] == AxisCoords(size, origin, spacing, k - start)
  {
    var hasC := |dims| > 0 && dims[0] == C;
    var withC: map<Dimension, seq<Num>> := if hasC then map[C := ComponentCoords(components)] else map[];
    var start := if hasC then 1 else 0;
    forall d ensures d in CoordsOf(dims, components, size, origin, spacing) <==> d in dims {
      SpatialCoordsKeys(withC, dims, start, |dims|, size, origin, spacing, d);
      if hasC {
        assert dims == [C] + dims[1..];
      }
    }
    if start <= k < |dims| {
      SpatialCoordsAt(withC, dims, start, |dims|, size, origin, spacing, k);
    }
    if hasC {
      SpatialCoordsKeep(withC, dims, 1, |dims|, size, origin, spacing, C);
    }
  }

  /** A key the loop never writes keeps its value. */
  lemma {:induction false} SpatialCoordsKeep(base: map<Dimension, seq<Num>>, dims: seq<Dimension>, start: nat, upTo: nat,
                                             size: seq<nat>, origin: seq<real>, spacing: seq<real>, d: Dimension)
    requires start <= upTo <= |dims| && d in base && forall j :: start <= j < upTo ==> dims[j] != d
    ensures d in SpatialCoords(base, dims, start, upTo, size, origin, spacing)
    ensures SpatialCoords(base, dims, start, upTo, size, origin, spacing)[d] == base[d]
    decreases upTo
  {
    if upTo > start {
      SpatialCoordsKeep(base, dims, start, upTo - 1, size, origin, spacing, d);
    }
  }

  /** The `Coords` object of an itk-wasm image: every array is built by the constructor. */
  class Coords {
    var coords: map<Dimension, seq<Num>>

    /**
     * `new Coords(image, dims)`: a leading 'c' gets the component indices,
     * then each following dimension takes the next spatial size, origin and
     * spacing of the image.
     */
    constructor (dims: seq<Dimension>, components: nat, size: seq<nat>, origin: seq<real>, spacing: seq<real>)
      ensures coords == CoordsOf(dims, components, size, origin, spacing)
    {
      var m: map<Dimension, seq<Num>> := map[];
      var spatialDimIndex := 0;
      if |dims| > 0 && dims[0] == C {
        spatialDimIndex := 1;
        var coord := FillComponents(components);
        m := m[C := coord];
      }
      var spatialIndex := 0;
      var d := spatialDimIndex;
      while d < |dims|
        invariant spatialDimIndex <= d <= |dims|
        invariant spatialIndex == d - spatialDimIndex
        invariant m == SpatialCoords(if spatialDimIndex == 1 then map[C := ComponentCoords(components)] else map[],
                                     dims, spatialDimIndex, d, size, origin, spacing)
      {
        var coord := FillAxis(size, origin, spacing, spatialIndex);
        m := m[dims[d] := coord];
        spatialIndex := spatialIndex + 1;
        d := d + 1;
      }
      coords := m;
    }

    /** `get(coord)`: the array, or undefined for a dimension the image lacks. */
    function Get(d: Dimension): (r: Option<seq<Num>>)
      reads this
      ensures r.Some? <==> Has(d)
      ensures r.Some? ==> r.value == coords[d]
    {
      if d in coords then Some(coords[d]) else None
    }

    /** `has(coord)`. */
    predicate Has(d: Dimension)
      reads this
    {
      d in coords
    }
  }

  /** The loop filling the component array with `0 … components - 1`. */
  method FillComponents(components: nat) returns (coord: seq<Num>)
    ensures coord == ComponentCoords(components)
  {
    var a := new Num[components];
    var c := 0;
    while c < components
      invariant 0 <= c <= components
      invariant forall j :: 0 <= j < c ==> a[j] == Fin(j as real)
    {
      a[c] := Fin(c as real);
      c := c + 1;
    }
    coord := a[..];
  }

  /** The loop filling one spatial axis: `origin + i · spacing`. */
  method FillAxis(size: seq<nat>, origin: seq<real>, spacing: seq<real>, k: nat) returns (coord: seq<Num>)
    ensures coord == AxisCoords(size, origin, spacing, k)
  {
    var n := if k < |size| then size[k] else 0;
    var a := new Num[n];
    var i := 0;
    while i < n
      invariant 0 <= i <= n
      invariant forall j :: 0 <= j < i ==> a[j] == (if k < |origin| && k < |spacing| then Fin(origin[k] + j as real * spacing[k]) else NonFinite)
    {
      a[i] := if k < |origin| && k < |spacing| then Fin(origin[k] + i as real * spacing[k]) else NonFinite;
      i := i + 1;
    }
    coord := a[..];
    assert forall j :: 0 <= j < n ==> coord[j] == AxisCoords(size, origin, spacing, k)[j];
  }

  // ---------------------------------------------------------------------
  // The scale information and the chunk data

  /** What `imageToScaleInfo` returns. */
  datatype ScaleInfo = ScaleInfo(
    dims: seq<Dimension>,
    coords: Coords,
    chunkCount: seq<(Dimension, Option<Option<nat>>)>,
    chunkSize: seq<(Dimension, Option<Option<nat>>)>,
    arrayShape: seq<(Dimension, Option<Option<nat>>)>,
    direction: seq<seq<Num>>)

  /**
   * `imageToScaleInfo(image)`: the dimensions, the coordinates over the
   * reversed dimensions, one chunk per dimension whose size is the array
   * shape, and the direction reversed into z, y, x rows. An image with a
   * zero or missing size makes `orderBy` throw.
   */
  method ImageToScaleInfo(dimension: nat, components: nat, size: seq<nat>, origin: seq<real>,
                          spacing: seq<real>, direction: seq<real>)
    returns (r: Result<ScaleInfo>)
    ensures r.Err? <==> ArrayShape(dimension, components, size).Err?
    ensures r.Err? ==> r.msg == ArrayShape(dimension, components, size).msg
    ensures r.Ok? ==> r.value.dims == ImageDimsOf(dimension, components)
    ensures r.Ok? ==> r.value.chunkSize == r.value.arrayShape == ArrayShape(dimension, components, size).value
    ensures r.Ok? ==> Ok(r.value.chunkCount) == ChunkCount(r.value.dims)
    ensures r.Ok? ==>
      r.value.coords.coords == CoordsOf(Reversed(ImageDimsOf(dimension, components)), components, size, origin, spacing)
    ensures r.Ok? ==> Flatten(r.value.direction) == Reversed(MultiscaleSpatialImage.Ensure3dDirection(direction))
    ensures r.Ok? ==> |r.value.direction| == 3 && forall k :: 0 <= k < 3 ==> |r.value.direction[k]| == 3
  {
    var dims := ImageDims(dimension, components);
    var coords := new Coords(Reversed(dims), components, size, origin, spacing);
    var chunkCount := ChunkCount(dims);
    var chunkSize := ArrayShape(dimension, components, size);
    ImageDimsShape(dimension, components);
    ChunkCountIsOne(dims, 0);
    if chunkSize.Err? {
      r := Err(chunkSize.msg);
    } else {
      var rows := Chunk(3, Reversed(MultiscaleSpatialImage.Ensure3dDirection(direction)));
      ChunkRows(rows, Reversed(MultiscaleSpatialImage.Ensure3dDirection(direction)));
      r := Ok(ScaleInfo(dims, coords, chunkCount.value, chunkSize.value, chunkSize.value, rows));
    }
  }

  /** Nine values cut into pieces of three give three rows of three. */
  lemma ChunkRows(rows: seq<seq<Num>>, values: seq<Num>)
    requires |values| == 9 && Flatten(rows) == values
    requires forall k :: 0 <= k < |rows| - 1 ==> |rows[k]| == 3
    requires rows != [] ==> 0 < |rows[|rows| - 1]| <= 3
    ensures |rows| == 3 && forall k :: 0 <= k < 3 ==> |rows[k]| == 3
  {
    FlattenLength(rows);
    assert |rows| == 3;
    FlattenFull(rows[..2]);
    assert |Flatten(rows)| == |Flatten(rows[..2])| + |rows[2]|;
  }

  lemma {:induction false} FlattenLength<T>(rows: seq<seq<T>>)
    requires forall k :: 0 <= k < |rows| - 1 ==> |rows[k]| == 3
    requires rows != [] ==> 0 < |rows[|rows| - 1]| <= 3
    ensures rows != [] ==> 3 * (|rows| - 1) < |Flatten(rows)| <= 3 * |rows|
    ensures rows == [] ==> |Flatten(rows)| == 0
    decreases |rows|
  {
    if |rows| > 1 {
      var init := rows[..|rows| - 1];
      FlattenLength(init);
      assert |Flatten(init)| == 3 * |init| by {
        FlattenFull(init);
      }
    }
  }

  lemma {:induction false} FlattenFull<T>(rows: seq<seq<T>>)
    requires forall k :: 0 <= k < |rows| ==> |rows[k]| == 3
    ensures |Flatten(rows)| == 3 * |rows|
    decreases |rows|
  {
    if rows != [] {
      FlattenFull(rows[..|rows| - 1]);
    }
  }

  /** `getChunksImpl`: the whole pixel buffer as the one chunk; no data throws. */
  function GetChunks(data: Option<Bytes>): (r: Result<seq<Bytes>>)
    ensures r.Err? <==> data.None?
    ensures r.Err? ==> r.msg == "Image data is null"
    ensures r.Ok? ==> r.value == [data.value]
  {
    if data.None? then Err("Image data is null") else Ok([data.value])
  }
}
