// packages/io/src/dimensionUtils.ts: maps keyed by the image dimensions
// c, x, y, z and t, kept as insertion-ordered records like the JavaScript
// `Map`s they model. `createBounds` is the same as the one of bounding-box.ts
// and is modelled once, as BoundingBox.CreateBounds.
module DimensionUtils {
  import opened JsCommon

  datatype Dimension = C | X | Y | Z | T

  /** The viewer's indexing order `CXYZT`. */
  const CXYZT: seq<Dimension> := [C, X, Y, Z, T]

  /** The spatial dimensions `XYZ`. */
  const XYZ: seq<Dimension> := [X, Y, Z]

  function DimName(d: Dimension): string {
    match d
    case C => "c"
    case X => "x"
    case Y => "y"
    case Z => "z"
    case T => "t"
  }

  /** Position of a dimension in `CXYZT`: what `CXYZT.indexOf(dim)` gives. */
  function CxyztIndex(d: Dimension): (i: nat)
    ensures i < 5 && CXYZT[i] == d
  {
    match d
    case C => 0
    case X => 1
    case Y => 2
    case Z => 3
    case T => 4
  }

  predicate Distinct(dims: seq<Dimension>) {
    forall i, j :: 0 <= i < j < |dims| ==> dims[i] != dims[j]
  }

  /** `new Map(entries)`: the entries written in order, so a repeated key keeps its first place and its last value. */
  function FromEntries<V>(acc: seq<(Dimension, V)>, es: seq<(Dimension, V)>): seq<(Dimension, V)>
    decreases |es|
  {
    if es == [] then acc else FromEntries(Put(acc, es[0].0, es[0].1), es[1..])
  }

  /** Entries whose keys are distinct and new are simply appended. */
  lemma {:induction false} FromEntriesAppend<V>(acc: seq<(Dimension, V)>, es: seq<(Dimension, V)>)
    requires UniqueKeys(es)
    requires forall i :: 0 <= i < |es| ==> !HasKey(acc, es[i].0)
    ensures FromEntries(acc, es) == acc + es
    decreases |es|
  {
    if es != [] {
      PutKeys(acc, es[0].0, es[0].1);
      var acc' := acc + [es[0]];
      var rest := es[1..];
      assert forall a :: 0 <= a < |rest| ==> rest[a] == es[a + 1];
      NotInAppended(acc, es);
      FromEntriesAppend(acc', rest);
      assert acc' + rest == acc + es;
    }
  }

  lemma NotInAppended<V>(acc: seq<(Dimension, V)>, es: seq<(Dimension, V)>)
    requires es != [] && UniqueKeys(es)
    requires forall i :: 0 <= i < |es| ==> !HasKey(acc, es[i].0)
    ensures forall i :: 1 <= i < |es| ==> !HasKey(acc + [es[0]], es[i].0)
  {
    forall i | 1 <= i < |es| ensures !HasKey(acc + [es[0]], es[i].0) {
      assert !HasKey(acc, es[i].0);
      assert es[0].0 != es[i].0;
      assert forall j :: 0 <= j < |acc| ==> (acc + [es[0]])[j] == acc[j];
    }
  }

  /** With unique keys, each entry is the one `get` finds for its key. */
  lemma {:induction false} GetEntry<V>(m: seq<(Dimension, V)>, i: int)
    requires UniqueKeys(m) && 0 <= i < |m|
    ensures Get(m, m[i].0) == Some(m[i].1)
    decreases i
  {
    if i > 0 {
      assert m[0].0 != m[i].0;
      assert m[1..][i - 1] == m[i];
      assert UniqueKeys(m[1..]) by {
        assert forall a :: 0 <= a < |m[1..]| ==> m[1..][a] == m[a + 1];
      }
      GetEntry(m[1..], i - 1);
    }
  }

  /**
   * `ensuredDims(defaultValue, dims, dimMap)`: a copy of the map in which
   * every listed dimension the map lacks is set to the default.
   */
  function EnsuredDims<V>(defaultValue: V, dims: seq<Dimension>, dimMap: seq<(Dimension, V)>)
    : (r: seq<(Dimension, V)>)
    decreases |dims|
  {
    if dims == [] then dimMap
    else
      var d := dims[0];
      var v := match Get(dimMap, d) case Some(w) => w case None => defaultValue;
      EnsuredDims(defaultValue, dims[1..], Put(dimMap, d, v))
  }

  /**
   * Every value the map had is kept, each listed dimension it lacked gets the
   * default, and no other dimension appears; the map's own keys keep their
   * places at the front.
   */
  lemma {:induction false} EnsuredDimsGet<V>(defaultValue: V, dims: seq<Dimension>,
                                             dimMap: seq<(Dimension, V)>, k: Dimension)
    ensures Get(EnsuredDims(defaultValue, dims, dimMap), k) ==
      if HasKey(dimMap, k) then Get(dimMap, k)
      else if k in dims then Some(defaultValue)
      else None
    ensures |dimMap| <= |EnsuredDims(defaultValue, dims, dimMap)|
      && Keys(EnsuredDims(defaultValue, dims, dimMap))[..|dimMap|] == Keys(dimMap)
    decreases |dims|
  {
    if dims != [] {
      var d := dims[0];
      var v := match Get(dimMap, d) case Some(w) => w case None => defaultValue;
      var m' := Put(dimMap, d, v);
      EnsuredDimsGet(defaultValue, dims[1..], m', k);
      PutGet(dimMap, d, v, k);
      PutKeys(dimMap, d, v);
      assert HasKey(m', k) <==> Get(m', k).Some?;
      assert k in dims <==> k == d || k in dims[1..];
      var r := EnsuredDims(defaultValue, dims, dimMap);
      assert Keys(r)[..|m'|] == Keys(m');
      if !HasKey(dimMap, d) {
        assert Keys(m') == Keys(dimMap) + [d];
      }
      assert Keys(r)[..|dimMap|] == Keys(m')[..|dimMap|];
    }
  }

  /** The entries `[dims[i], values[i]]`; an index past the array's end reads `undefined`. */
  function Zip<V>(dims: seq<Dimension>, values: seq<V>): (es: seq<(Dimension, Option<V>)>)
    ensures Keys(es) == dims
  {
    seq(|dims|, i requires 0 <= i < |dims| => (dims[i], if i < |values| then Some(values[i]) else None))
  }

  /** `toDimensionMap(dims, array)`: `new Map(dims.map((dim, i) => [dim, values[i]]))`. */
  function ToDimensionMap<V>(dims: seq<Dimension>, values: seq<V>): seq<(Dimension, Option<V>)> {
    FromEntries([], Zip(dims, values))
  }

  /** For distinct dimensions, the map takes them in order and maps `dims[i]` to `values[i]`. */
  lemma ToDimensionMapGet<V>(dims: seq<Dimension>, values: seq<V>, i: int)
    requires Distinct(dims) && 0 <= i < |dims|
    ensures Keys(ToDimensionMap(dims, values)) == dims
    ensures Get(ToDimensionMap(dims, values), dims[i]) == Some(if i < |values| then Some(values[i]) else None)
  {
    var es := Zip(dims, values);
    assert UniqueKeys(es);
    FromEntriesAppend([], es);
    assert [] + es == es;
    GetEntry(es, i);
  }

  /** Where `orderBy` finds every listed dimension present and truthy, the entries it makes. */
  function Ordered<V>(dims: seq<Dimension>, m: seq<(Dimension, V)>, falsy: V -> bool)
    : (r: Result<seq<(Dimension, V)>>)
    ensures r.Ok? ==> Keys(r.value) == dims
    ensures r.Ok? ==> forall i :: 0 <= i < |dims| ==> Some(r.value[i].1) == Get(m, dims[i])
    decreases |dims|
  {
    if dims == [] then Ok([])
    else
      var d := dims[0];
      match Get(m, d)
      case None => Err(NotFound(d))
      case Some(v) =>
        if falsy(v) then Err(NotFound(d))
        else match Ordered(dims[1..], m, falsy)
          case Err(e) => Err(e)
          case Ok(rest) => Ok([(d, v)] + rest)
  }

  /** The message thrown for a missing dimension; a `Map` interpolates as "[object Map]". */
  function NotFound(d: Dimension): string {
    "Dimension " + DimName(d) + " not found in map [object Map]"
  }

  predicate Found<V>(m: seq<(Dimension, V)>, falsy: V -> bool, d: Dimension) {
    HasKey(m, d) && !falsy(Get(m, d).value)
  }

  /**
   * `orderBy(dims)(map)`: a new map holding only the listed dimensions, in
   * the listed order; the first listed dimension that is absent or holds a
   * falsy value makes it throw. `falsy` is JavaScript's truthiness test on the
   * value type.
   */
  function OrderBy<V>(dims: seq<Dimension>, m: seq<(Dimension, V)>, falsy: V -> bool)
    : (r: Result<seq<(Dimension, V)>>)
  {
    match Ordered(dims, m, falsy)
    case Err(e) => Err(e)
    case Ok(es) => Ok(FromEntries([], es))
  }

  /** It succeeds exactly when every listed dimension is found, and otherwise names the first one missing. */
  lemma {:induction false} OrderedErrors<V>(dims: seq<Dimension>, m: seq<(Dimension, V)>, falsy: V -> bool)
    ensures Ordered(dims, m, falsy).Ok? <==> forall i :: 0 <= i < |dims| ==> Found(m, falsy, dims[i])
    ensures Ordered(dims, m, falsy).Err? ==>
      exists i :: 0 <= i < |dims| && !Found(m, falsy, dims[i])
        && Ordered(dims, m, falsy).msg == NotFound(dims[i])
        && forall j :: 0 <= j < i ==> Found(m, falsy, dims[j])
    decreases |dims|
  {
    if dims != [] {
      OrderedErrors(dims[1..], m, falsy);
      assert forall i :: 1 <= i < |dims| ==> dims[i] == dims[1..][i - 1];
      if Found(m, falsy, dims[0]) && Ordered(dims[1..], m, falsy).Err? {
        var i :| 0 <= i < |dims[1..]| && !Found(m, falsy, dims[1..][i])
          && Ordered(dims[1..], m, falsy).msg == NotFound(dims[1..][i])
          && forall j :: 0 <= j < i ==> Found(m, falsy, dims[1..][j]);
        assert forall j :: 1 <= j < i + 1 ==> dims[j] == dims[1..][j - 1];
        assert Ordered(dims, m, falsy).msg == NotFound(dims[i + 1]);
      }
    }
  }

  /** On success, for distinct dimensions, the result lists exactly `dims`, in order, with the map's values. */
  lemma OrderByKeeps<V>(dims: seq<Dimension>, m: seq<(Dimension, V)>, falsy: V -> bool, i: int)
    requires Distinct(dims) && OrderBy(dims, m, falsy).Ok? && 0 <= i < |dims|
    ensures Keys(OrderBy(dims, m, falsy).value) == dims
    ensures Get(OrderBy(dims, m, falsy).value, dims[i]) == Get(m, dims[i])
  {
    var es := Ordered(dims, m, falsy).value;
    assert UniqueKeys(es) by {
      assert forall a :: 0 <= a < |es| ==> es[a].0 == Keys(es)[a];
    }
    FromEntriesAppend([], es);
    assert [] + es == es;
    GetEntry(es, i);
  }

  /** The concatenation of a list of pieces. */
  function Flatten<T>(pieces: seq<seq<T>>): seq<T>
    decreases |pieces|
  {
    if pieces == [] then [] else Flatten(pieces[..|pieces| - 1]) + pieces[|pieces| - 1]
  }

  lemma FlattenSnoc<T>(pieces: seq<seq<T>>, piece: seq<T>)
    ensures Flatten(pieces + [piece]) == Flatten(pieces) + piece
  {
    assert (pieces + [piece])[..|pieces|] == pieces;
  }

  /**
   * `chunk(chunkSize, array)`: consecutive slices of `chunkSize` elements,
   * the last one shorter when the length is not a multiple. A size of zero or
   * less never advances, so the source only returns for an empty array then.
   */
  method Chunk<T>(chunkSize: int, values: seq<T>) returns (chunks: seq<seq<T>>)
    requires chunkSize > 0 || values == []
    ensures Flatten(chunks) == values
    ensures forall k :: 0 <= k < |chunks| - 1 ==> |chunks[k]| == chunkSize
    ensures chunks != [] ==> 0 < |chunks[|chunks| - 1]| <= chunkSize
    ensures values == [] <==> chunks == []
  {
    chunks := [];
    var i := 0;
    while i < |values|
      invariant 0 <= i && (i < |values| ==> Flatten(chunks) == values[..i])
      invariant i >= |values| ==> Flatten(chunks) == values
      invariant forall k :: 0 <= k < |chunks| - 1 ==> |chunks[k]| == chunkSize
      invariant chunks != [] ==> 0 < |chunks[|chunks| - 1]| <= chunkSize
      invariant chunks != [] ==> i >= |values| || |chunks[|chunks| - 1]| == chunkSize
      invariant i == 0 <==> chunks == []
      decreases |values| - i
    {
      var end := if i + chunkSize <= |values| then i + chunkSize else |values|;
      var piece := values[i..end];
      FlattenSnoc(chunks, piece);
      assert values[..i] + values[i..end] == values[..end];
      chunks := chunks + [piece];
      i := i + chunkSize;
    }
  }

  /** A JavaScript value that may be null or undefined. */
  datatype Nullable<T> = Undefined | Null | Value(value: T)

  /** `nonNullable(value)`: `value != null`, which loose equality makes false for undefined too. */
  function NonNullable<T>(x: Nullable<T>): (b: bool)
    ensures b <==> !(x == Undefined || x == Null)
  {
    x.Value?
  }
}
