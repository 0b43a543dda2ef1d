// packages/io/src/ZarrMultiscaleSpatialImage.ts: recognising a Zarr URL, the
// OME-NGFF 0.4 `coordinateTransformations` composition (scale and
// translation steps folded into one scale and one translation per axis), the
// default scales of a pyramid without transforms, the lazily built coordinate
// arrays, the chunk counts, and the chunk keys of the Zarr v2 storage
// specification ("chunk keys", `dimension_separator`). Fetching, decompressing
// and validating the metadata are not part of this model.
module ZarrMultiscale {
  import opened JsCommon
  import opened DimensionUtils

  // ---------------------------------------------------------------------
  // isZarr: `/zarr((\/)[\w-]+\/?)?$/`

  /** A character of the class `[\w-]`. */
  predicate WordChar(c: char) {
    'a' <= c <= 'z' || 'A' <= c <= 'Z' || '0' <= c <= '9' || c == '_' || c == '-'
  }

  /** A non-empty run of `[\w-]`: the nested image name. */
  predicate IsName(t: string) {
    |t| >= 1 && forall k :: 0 <= k < |t| ==> WordChar(t[k])
  }

  /** What may follow "zarr" up to the end: nothing, or "/" and a name with an optional "/". */
  predicate ZarrTail(t: string) {
    t == "" ||
    (|t| >= 2 && t[0] == '/' && (IsName(t[1..]) || (t[|t| - 1] == '/' && IsName(t[1..|t| - 1]))))
  }

  /** The pattern matches starting at position `i`. */
  predicate MatchesAt(url: string, i: int) {
    0 <= i && i + 4 <= |url| && url[i..i + 4] == "zarr" && ZarrTail(url[i + 4..])
  }

  /** `isZarr(url)`: the pattern matches somewhere in the URL. */
  predicate IsZarr(url: string) {
    exists i :: 0 <= i <= |url| && MatchesAt(url, i)
  }

  /** The number of `[\w-]` characters at the end of `s`. */
  function TrailingNameLength(s: string): (n: nat)
    ensures n <= |s|
    ensures forall k :: |s| - n <= k < |s| ==> WordChar(s[k])
    ensures n < |s| ==> !WordChar(s[|s| - n - 1])
    decreases |s|
  {
    if s == [] || !WordChar(s[|s| - 1]) then 0 else TrailingNameLength(s[..|s| - 1]) + 1
  }

  /**
   * The match decided from the end of the URL: it ends with "zarr", or, once
   * one trailing "/" is dropped, with "zarr/" and a name.
   */
  predicate ZarrByEnd(url: string) {
    EndsWith(url, "zarr") || NameAfterZarr(WithoutTrailingSlash(url))
  }

  function WithoutTrailingSlash(url: string): (s: string)
    ensures s == url || (url == s + "/")
  {
    if |url| > 0 && url[|url| - 1] == '/' then url[..|url| - 1] else url
  }

  /** `s` ends with "zarr/" and a name. */
  predicate NameAfterZarr(s: string) {
    var n := TrailingNameLength(s);
    n >= 1 && EndsWith(s[..|s| - n], "zarr/")
  }

  lemma {:induction false} TrailingName(p: string, name: string)
    requires IsName(name) && (p == [] || !WordChar(p[|p| - 1]))
    ensures TrailingNameLength(p + name) == |name|
    decreases |name|
  {
    var s := p + name;
    assert s[..|s| - 1] == p + name[..|name| - 1];
    if |name| > 1 {
      TrailingName(p, name[..|name| - 1]);
    } else {
      assert s[..|s| - 1] == p;
    }
  }

  /** A URL made of a part ending in "zarr/", a name and an optional "/" is decided by its end. */
  lemma EndAfterName(p: string, name: string, slash: string)
    requires EndsWith(p, "zarr/") && IsName(name) && (slash == "" || slash == "/")
    ensures ZarrByEnd(p + name + slash)
  {
    var url := p + name + slash;
    var s := WithoutTrailingSlash(url);
    if slash == "" {
      assert url[|url| - 1] == name[|name| - 1];
    } else {
      assert url[..|url| - 1] == p + name;
    }
    assert s == p + name;
    assert p[|p| - 1] == '/';
    TrailingName(p, name);
    assert s[..|s| - |name|] == p;
  }

  /** Such a URL matches where "zarr/" starts. */
  lemma MatchBeforeName(p: string, name: string, slash: string)
    requires EndsWith(p, "zarr/") && IsName(name) && (slash == "" || slash == "/")
    ensures MatchesAt(p + name + slash, |p| - 5)
  {
    var url := p + name + slash;
    var i := |p| - 5;
    assert url[i..i + 4] == p[i..i + 4] == "zarr";
    var t := url[i + 4..];
    assert t == "/" + name + slash;
    if slash == "" {
      assert t[1..] == name;
    } else {
      assert t[1..|t| - 1] == name;
    }
  }

  lemma MatchDecidedByEnd(url: string, i: int)
    requires MatchesAt(url, i)
    ensures ZarrByEnd(url)
  {
    var t := url[i + 4..];
    if t == "" {
      assert url[|url| - 4..] == url[i..i + 4];
    } else {
      var p := url[..i + 5];
      assert p[|p| - 5..] == url[i..i + 5] == "zarr/";
      if IsName(t[1..]) {
        assert url == p + t[1..] + "";
        EndAfterName(p, t[1..], "");
      } else {
        assert url == p + t[1..|t| - 1] + "/";
        EndAfterName(p, t[1..|t| - 1], "/");
      }
    }
  }

  lemma ByEndFindsMatch(url: string)
    requires ZarrByEnd(url)
    ensures IsZarr(url)
  {
    if EndsWith(url, "zarr") {
      assert MatchesAt(url, |url| - 4);
    } else {
      var s := WithoutTrailingSlash(url);
      var slash := if s == url then "" else "/";
      var n := TrailingNameLength(s);
      var p := s[..|s| - n];
      var name := s[|s| - n..];
      assert IsName(name);
      assert url == p + name + slash;
      MatchBeforeName(p, name, slash);
    }
  }

  /** Searching for the pattern anywhere and deciding it from the end agree. */
  lemma IsZarrByEnd(url: string)
    ensures IsZarr(url) <==> ZarrByEnd(url)
  {
    if IsZarr(url) {
      var i :| 0 <= i <= |url| && MatchesAt(url, i);
      MatchDecidedByEnd(url, i);
    }
    if ZarrByEnd(url) {
      ByEndFindsMatch(url);
    }
  }

  /** A store ending in "zarr" and a nested image name, with or without a trailing "/", is recognised. */
  lemma NestedImageIsZarr(base: string, name: string)
    requires EndsWith(base, "zarr") && IsName(name)
    ensures IsZarr(base + "/" + name) && IsZarr(base + "/" + name + "/")
  {
    var i := |base| - 4;
    assert (base + "/" + name)[i..i + 4] == "zarr" && (base + "/" + name)[i + 4..] == "/" + name;
    assert MatchesAt(base + "/" + name, i);
    assert (base + "/" + name + "/")[i..i + 4] == "zarr" && (base + "/" + name + "/")[i + 4..] == "/" + name + "/";
    assert MatchesAt(base + "/" + name + "/", i);
  }

  /** A store URL ending in "zarr", and a nested image with a trailing "/", are recognised. */
  lemma IsZarrExamples()
    ensures IsZarr("https://example.com/image.zarr")
    ensures IsZarr("s3/image.zarr/image-1/")
  {
    assert MatchesAt("https://example.com/image.zarr", 26);
    assert "s3/image.zarr/image-1/" == "s3/image.zarr/" + "image-1" + "/";
    MatchBeforeName("s3/image.zarr/", "image-1", "/");
  }

  /** A store URL with only a trailing "/" is not recognised. */
  lemma StoreWithSlashNotZarr()
    ensures !IsZarr("a.zarr/")
  {
    var url := "a.zarr/";
    assert url[6] == '/';
    assert !EndsWith(url, "zarr");
    assert WithoutTrailingSlash(url) == "a." + "zarr";
    TrailingName("a.", "zarr");
    assert !NameAfterZarr("a." + "zarr");
    IsZarrByEnd(url);
  }

  /** Two nested levels below the store are not recognised. */
  lemma TwoLevelsNotZarr()
    ensures !IsZarr("a.zarr/b/c")
  {
    var url := "a.zarr/b/c";
    assert url[9] == 'c';
    assert !EndsWith(url, "zarr");
    assert WithoutTrailingSlash(url) == "a.zarr/b/" + "c";
    TrailingName("a.zarr/b/", "c");
    assert "a.zarr/b/"[4] == 'r';
    assert !NameAfterZarr("a.zarr/b/" + "c");
    IsZarrByEnd(url);
  }

  /** "zarr" followed by an extension is not recognised. */
  lemma ExtensionNotZarr()
    ensures !IsZarr("a.zarr.json")
  {
    var url := "a.zarr.json";
    assert url[10] == 'n';
    assert !EndsWith(url, "zarr");
    assert WithoutTrailingSlash(url) == "a.zarr." + "json";
    TrailingName("a.zarr.", "json");
    assert "a.zarr."[6] == '.';
    assert !NameAfterZarr("a.zarr." + "json");
    IsZarrByEnd(url);
  }

  // ---------------------------------------------------------------------
  // Coordinate transformations

  /** `a * b` on JavaScript numbers: NaN and the infinities propagate. */
  function NMul(a: Num, b: Num): (r: Num)
    ensures r.Fin? <==> a.Fin? && b.Fin?
  {
    if a.Fin? && b.Fin? then Fin(a.r * b.r) else NonFinite
  }

  /** `a + b` on JavaScript numbers. */
  function NAdd(a: Num, b: Num): (r: Num)
    ensures r.Fin? <==> a.Fin? && b.Fin?
  {
    if a.Fin? && b.Fin? then Fin(a.r + b.r) else NonFinite
  }

  /** `v[i]`, where reading past the end gives `undefined` and arithmetic on it NaN. */
  function At(v: seq<Num>, i: nat): Num {
    if i < |v| then v[i] else NonFinite
  }

  /** A `coordinateTransformations` entry. */
  datatype Transform = Scale(scale: seq<Num>) | Translation(translation: seq<Num>)

  /** The per-axis scale and translation the fold carries. */
  datatype Composed = Composed(scale: seq<Num>, translation: seq<Num>)

  /** The fold's start: scale all 1, translation all 0. */
  function Identity(dimCount: nat): (c: Composed)
    ensures |c.scale| == |c.translation| == dimCount
    ensures forall i :: 0 <= i < dimCount ==> c.scale[i] == Fin(1.0) && c.translation[i] == Fin(0.0)
  {
    Composed(seq(dimCount, _ => Fin(1.0)), seq(dimCount, _ => Fin(0.0)))
  }

  /**
   * One step of the `composeTransforms` reduce: a scale multiplies the scale
   * and the translation, a translation adds to the translation only.
   */
  function Step(acc: Composed, t: Transform): (r: Composed)
    ensures |r.scale| == |acc.scale| && |r.translation| == |acc.translation|
  {
    match t
    case Scale(s) =>
      Composed(seq(|acc.scale|, i requires 0 <= i < |acc.scale| => NMul(acc.scale[i], At(s, i))),
               seq(|acc.translation|, i requires 0 <= i < |acc.translation| => NMul(acc.translation[i], At(s, i))))
    case Translation(tr) =>
      Composed(acc.scale,
               seq(|acc.translation|, i requires 0 <= i < |acc.translation| => NAdd(acc.translation[i], At(tr, i))))
  }

  function ComposeFrom(acc: Composed, ts: seq<Transform>): (r: Composed)
    ensures |r.scale| == |acc.scale| && |r.translation| == |acc.translation|
    decreases |ts|
  {
    if ts == [] then acc else ComposeFrom(Step(acc, ts[0]), ts[1..])
  }

  /** `composeTransforms(transforms, dimCount)`. */
  function ComposeTransforms(ts: seq<Transform>, dimCount: nat): (r: Composed)
    ensures |r.scale| == |r.translation| == dimCount
    ensures ts == [] ==> r == Identity(dimCount)
  {
    ComposeFrom(Identity(dimCount), ts)
  }

  /** Axis `i` of a composed transform applied to a coordinate: `x · scale + translation`. */
  function Apply(c: Composed, i: nat, x: Num): Num
    requires i < |c.scale| && i < |c.translation|
  {
    NAdd(NMul(x, c.scale[i]), c.translation[i])
  }

  /** Axis `i` of one transform applied to a coordinate. */
  function ApplyOne(t: Transform, i: nat, x: Num): Num {
    match t
    case Scale(s) => NMul(x, At(s, i))
    case Translation(tr) => NAdd(x, At(tr, i))
  }

  /** The transforms applied one after the other, first to last. */
  function ApplyAll(ts: seq<Transform>, i: nat, x: Num): Num
    decreases |ts|
  {
    if ts == [] then x else ApplyAll(ts[1..], i, ApplyOne(ts[0], i, x))
  }

  lemma StepMeaning(acc: Composed, t: Transform, i: nat, x: Num)
    requires i < |acc.scale| && i < |acc.translation|
    ensures Apply(Step(acc, t), i, x) == ApplyOne(t, i, Apply(acc, i, x))
  {
    match t
    case Scale(s) =>
      if x.Fin? && acc.scale[i].Fin? && acc.translation[i].Fin? && At(s, i).Fin? {
        var a, b, k := acc.scale[i].r, acc.translation[i].r, At(s, i).r;
        assert x.r * (a * k) + b * k == (x.r * a + b) * k;
      }
    case Translation(tr) =>
      if x.Fin? && acc.scale[i].Fin? && acc.translation[i].Fin? && At(tr, i).Fin? {
        assert x.r * acc.scale[i].r + (acc.translation[i].r + At(tr, i).r) ==
          (x.r * acc.scale[i].r + acc.translation[i].r) + At(tr, i).r;
      }
  }

  lemma {:induction false} ComposeFromMeaning(acc: Composed, ts: seq<Transform>, i: nat, x: Num)
    requires i < |acc.scale| && i < |acc.translation|
    ensures Apply(ComposeFrom(acc, ts), i, x) == ApplyAll(ts, i, Apply(acc, i, x))
    decreases |ts|
  {
    if ts != [] {
      StepMeaning(acc, ts[0], i, x);
      ComposeFromMeaning(Step(acc, ts[0]), ts[1..], i, x);
    }
  }

  /**
   * The composed scale and translation map every coordinate exactly as the
   * transforms do when applied in order.
   */
  lemma ComposeMeaning(ts: seq<Transform>, dimCount: nat, i: nat, x: Num)
    requires i < dimCount
    ensures Apply(ComposeTransforms(ts, dimCount), i, x) == ApplyAll(ts, i, x)
  {
    ComposeFromMeaning(Identity(dimCount), ts, i, x);
    assert Apply(Identity(dimCount), i, x) == x;
  }

  /** Composing a concatenation continues the fold of its first part. */
  lemma {:induction false} ComposeAppend(acc: Composed, a: seq<Transform>, b: seq<Transform>)
    ensures ComposeFrom(acc, a + b) == ComposeFrom(ComposeFrom(acc, a), b)
    decreases |a|
  {
    if a == [] {
      assert a + b == b;
    } else {
      assert (a + b)[0] == a[0] && (a + b)[1..] == a[1..] + b;
      ComposeAppend(Step(acc, a[0]), a[1..], b);
    }
  }

  /** `getComposedTransformation`: an image or dataset without transforms composes none. */
  function GetComposedTransformation(transforms: Option<seq<Transform>>, dimCount: nat): Composed {
    ComposeTransforms(if transforms.Some? then transforms.value else [], dimCount)
  }

  /**
   * `computeTransform(image, dataset, dimCount)`: the dataset's composed
   * scale and translation, then the image's, folded again.
   */
  function ComputeTransform(imageTransforms: Option<seq<Transform>>, datasetTransforms: Option<seq<Transform>>,
                            dimCount: nat): (r: Composed)
    ensures |r.scale| == |r.translation| == dimCount
  {
    var global := GetComposedTransformation(imageTransforms, dimCount);
    var dataset := GetComposedTransformation(datasetTransforms, dimCount);
    ComposeTransforms([Scale(dataset.scale), Translation(dataset.translation),
                       Scale(global.scale), Translation(global.translation)], dimCount)
  }

  /** The computed transform applies the dataset's transforms first and then the image's. */
  lemma ComputeTransformMeaning(imageTransforms: seq<Transform>, datasetTransforms: seq<Transform>,
                                dimCount: nat, i: nat, x: Num)
    requires i < dimCount
    ensures Apply(ComputeTransform(Some(imageTransforms), Some(datasetTransforms), dimCount), i, x) ==
      ApplyAll(imageTransforms, i, ApplyAll(datasetTransforms, i, x))
  {
    var global := ComposeTransforms(imageTransforms, dimCount);
    var dataset := ComposeTransforms(datasetTransforms, dimCount);
    var steps := [Scale(dataset.scale), Translation(dataset.translation), Scale(global.scale), Translation(global.translation)];
    ComposeMeaning(steps, dimCount, i, x);
    ComposeMeaning(datasetTransforms, dimCount, i, x);
    ComposeMeaning(imageTransforms, dimCount, i, Apply(dataset, i, x));
    var x1 := ApplyOne(steps[0], i, x);
    var x2 := ApplyOne(steps[1], i, x1);
    var x3 := ApplyOne(steps[2], i, x2);
    var x4 := ApplyOne(steps[3], i, x3);
    assert ApplyAll(steps, i, x) == ApplyAll(steps[1..], i, x1);
    assert steps[1..][1..] == steps[2..] && steps[2..][1..] == steps[3..] && steps[3..][1..] == [];
    assert ApplyAll(steps[1..], i, x1) == ApplyAll(steps[2..], i, x2);
    assert ApplyAll(steps[2..], i, x2) == ApplyAll(steps[3..], i, x3);
    assert ApplyAll(steps, i, x) == x4;
    assert At(dataset.scale, i) == dataset.scale[i] && At(dataset.translation, i) == dataset.translation[i];
    assert At(global.scale, i) == global.scale[i] && At(global.translation, i) == global.translation[i];
    assert x2 == Apply(dataset, i, x);
    assert x4 == Apply(global, i, x2);
  }

  // ---------------------------------------------------------------------
  // ensureScaleTransforms

  /** A multiscales dataset entry: its path and its own transforms, if any. */
  datatype Dataset = Dataset(path: string, coordinateTransformations: Option<seq<Transform>>)

  /** A dataset with the `shape` of its `.zarray`. */
  datatype DatasetWithArray = DatasetWithArray(dataset: Dataset, shape: seq<nat>)

  /** `targetSize.map((target, idx) => target / shape[idx])`. */
  function ScaleTo(target: seq<nat>, shape: seq<nat>): (s: seq<Num>)
    ensures |s| == |target|
  {
    seq(|target|, i requires 0 <= i < |target| => if i < |shape| then Div(target[i] as real, shape[i] as real) else NonFinite)
  }

  predicate HasTransforms(ds: seq<DatasetWithArray>) {
    exists k :: 0 <= k < |ds| && ds[k].dataset.coordinateTransformations.Some?
  }

  /**
   * `ensureScaleTransforms(datasets)`: unchanged when any dataset has
   * transforms; otherwise each gets the one scale that stretches it to the
   * first dataset's shape. With no dataset at all, reading the first throws.
   */
  function EnsureScaleTransforms(ds: seq<DatasetWithArray>): (r: Result<seq<DatasetWithArray>>)
    ensures HasTransforms(ds) ==> r == Ok(ds)
    ensures r.Err? <==> ds == []
    ensures r.Ok? && !HasTransforms(ds) ==> |r.value| == |ds| && forall k :: 0 <= k < |ds| ==>
      r.value[k] == DatasetWithArray(
        Dataset(ds[k].dataset.path, Some([Scale(ScaleTo(ds[0].shape, ds[k].shape))])), ds[k].shape)
  {
    if HasTransforms(ds) then Ok(ds)
    else if ds == [] then Err("TypeError: Cannot read properties of undefined (reading 'pixelArrayMetadata')")
    else
      Ok(seq(|ds|, k requires 0 <= k < |ds| =>
        DatasetWithArray(ds[k].dataset.(coordinateTransformations := Some([Scale(ScaleTo(ds[0].shape, ds[k].shape))])),
                         ds[k].shape)))
  }

  /**
   * Without transforms, every dataset's extent along an axis scales to the
   * first dataset's extent, and the first dataset's scale is all 1.
   */
  lemma EnsuredScalesMatchFinest(ds: seq<DatasetWithArray>, k: int, i: nat)
    requires ds != [] && !HasTransforms(ds) && 0 <= k < |ds|
    requires i < |ds[0].shape| && i < |ds[k].shape| && ds[k].shape[i] != 0
    ensures var ts := EnsureScaleTransforms(ds).value[k].dataset.coordinateTransformations.value;
      ApplyAll(ts, i, Fin(ds[k].shape[i] as real)) == Fin(ds[0].shape[i] as real)
    ensures ds[0].shape[i] != 0 ==>
      EnsureScaleTransforms(ds).value[0].dataset.coordinateTransformations.value == [Scale(ScaleTo(ds[0].shape, ds[0].shape))] &&
      ScaleTo(ds[0].shape, ds[0].shape)[i] == Fin(1.0)
  {
    var ts := [Scale(ScaleTo(ds[0].shape, ds[k].shape))];
    assert ts[1..] == [];
    var q := Div(ds[0].shape[i] as real, ds[k].shape[i] as real);
    assert q.r * ds[k].shape[i] as real == ds[0].shape[i] as real;
  }

  // ---------------------------------------------------------------------
  // Axis names and coordinate arrays

  /** An `axes` entry: a plain name (NGFF 0.3) or an object with a name (0.4). */
  datatype Axis = AxisName(d: Dimension) | AxisObject(name: Dimension)

  const TCZYX: seq<Dimension> := [T, C, Z, Y, X]

  /** `typeof axis === 'object' ? axis.name : axis`. */
  function AxisNameOf(a: Axis): Dimension {
    match a
    case AxisName(d) => d
    case AxisObject(n) => n
  }

  /** `getAxisNames(image)`: the axes' names, or TCZYX when the metadata has none. */
  function GetAxisNames(axes: Option<seq<Axis>>): (names: seq<Dimension>)
    ensures axes.None? ==> names == TCZYX
    ensures axes.Some? ==> |names| == |axes.value| && forall k :: 0 <= k < |names| ==>
      names[k] == AxisNameOf(axes.value[k])
  {
    if axes.None? then TCZYX
    else seq(|axes.value|, k requires 0 <= k < |axes.value| => AxisNameOf(axes.value[k]))
  }

  /** `axes.indexOf(dim)`: the first position of `dim`, or -1. */
  function IndexOf(axes: seq<Dimension>, d: Dimension): (k: int)
    ensures -1 <= k < |axes|
    ensures k >= 0 ==> axes[k] == d && forall j :: 0 <= j < k ==> axes[j] != d
    ensures k == -1 <==> d !in axes
    decreases |axes|
  {
    if axes == [] then -1
    else if axes[0] == d then 0
    else
      var k := IndexOf(axes[1..], d);
      if k == -1 then -1 else k + 1
  }

  /**
   * The coordinate array `makeCoords` builds for an axis: `i · spacing + origin`
   * for every index below the axis size; an axis the image lacks gets an
   * empty array.
   */
  function CoordsOf(axes: seq<Dimension>, shape: seq<nat>, transform: Composed, d: Dimension): (cs: seq<Num>)
    requires |transform.scale| == |transform.translation| == |axes|
  {
    var k := IndexOf(axes, d);
    if k < 0 then []
    else
      var n := if k < |shape| then shape[k] else 0;
      seq(n, i requires 0 <= i < n => NAdd(NMul(Fin(i as real), transform.scale[k]), transform.translation[k]))
  }

  /** The coordinates of an axis start at the origin and step by the spacing. */
  lemma CoordsEvenlySpaced(axes: seq<Dimension>, shape: seq<nat>, transform: Composed, d: Dimension, i: nat)
    requires |transform.scale| == |transform.translation| == |axes|
    requires d in axes
    requires var k := IndexOf(axes, d); transform.scale[k].Fin? && transform.translation[k].Fin?
    requires i + 1 < |CoordsOf(axes, shape, transform, d)|
    ensures var k := IndexOf(axes, d); var cs := CoordsOf(axes, shape, transform, d);
      cs[0] == transform.translation[k] &&
      cs[i + 1].r - cs[i].r == transform.scale[k].r
  {
  }

  /** The object `makeCoords` returns: coordinate arrays built on first use and kept. */
  class Coords {
    const axes: seq<Dimension>
    const shape: seq<nat>
    const transform: Composed
    /** The arrays built so far. */
    var coords: map<Dimension, seq<Num>>

    ghost predicate Valid()
      reads this
    {
      |transform.scale| == |transform.translation| == |axes| &&
      forall d :: d in coords ==> coords[d] == CoordsOf(axes, shape, transform, d)
    }

    /**
     * `makeCoords({ shape, multiscaleImage, dataset })`: nothing is built yet;
     * the spacing and origin are the image and dataset transforms computed together.
     */
    constructor (shape: seq<nat>, axes: Option<seq<Axis>>, imageTransforms: Option<seq<Transform>>,
                 datasetTransforms: Option<seq<Transform>>)
      ensures Valid() && coords == map[]
      ensures this.axes == GetAxisNames(axes) && this.shape == shape
      ensures transform == ComputeTransform(imageTransforms, datasetTransforms, |GetAxisNames(axes)|)
    {
      this.axes := GetAxisNames(axes);
      this.shape := shape;
      transform := ComputeTransform(imageTransforms, datasetTransforms, |GetAxisNames(axes)|);
      coords := map[];
    }

    /** `has(dim)`: whether the image has the axis. */
    function Has(d: Dimension): (b: bool)
      reads this
      ensures b <==> IndexOf(axes, d) >= 0
    {
      d in axes
    }

    /**
     * `get(dim)`: the axis's coordinates; the first call fills the array in
     * a loop and keeps it, later calls return the kept array.
     */
    method Get(d: Dimension) returns (cs: seq<Num>)
      requires Valid()
      modifies this
      ensures Valid()
      ensures cs == CoordsOf(axes, shape, transform, d)
      ensures d in old(coords) ==> coords == old(coords)
      ensures d !in old(coords) ==> coords == old(coords)[d := cs]
    {
      if d !in coords {
        var k := IndexOf(axes, d);
        var n := if k >= 0 && k < |shape| then shape[k] else 0;
        var spacing := if k >= 0 then transform.scale[k] else NonFinite;
        var origin := if k >= 0 then transform.translation[k] else NonFinite;
        var values := new Num[n];
        var i := 0;
        while i < n
          invariant 0 <= i <= n
          invariant coords == old(coords)
          invariant forall j :: 0 <= j < i ==> values[j] == NAdd(NMul(Fin(j as real), spacing), origin)
        {
          values[i] := NAdd(NMul(Fin(i as real), spacing), origin);
          i := i + 1;
        }
        assert values[..] == CoordsOf(axes, shape, transform, d);
        coords := coords[d := values[..]];
      }
      cs := coords[d];
    }
  }

  // ---------------------------------------------------------------------
  // Scale information

  /** `Math.ceil(a / b)` on JavaScript numbers. */
  function CeilDiv(a: Num, b: Num): (r: Num)
    ensures r.Fin? <==> a.Fin? && b.Fin? && b.r != 0.0
  {
    if a.Fin? && b.Fin? && b.r != 0.0 then Fin(Ceil(a.r / b.r) as real) else NonFinite
  }

  /** `m.get(dim)!` read as a number: a missing or `undefined` value becomes NaN in arithmetic. */
  function NumberAt(m: seq<(Dimension, Option<nat>)>, d: Dimension): Num {
    var v := SizeOf(m, d);
    if v.Some? then Fin(v.value as real) else NonFinite
  }

  /** `m.get(dim)`, with a missing key and an `undefined` value alike read as absent. */
  function SizeOf(m: seq<(Dimension, Option<nat>)>, d: Dimension): (v: Option<nat>)
    ensures v.Some? <==> Get(m, d).Some? && Get(m, d).value.Some?
    ensures v.Some? ==> v == Get(m, d).value
  {
    var g := Get(m, d);
    if g.Some? then g.value else None
  }

  /** A component range or a direction: arrays of number arrays. */
  type Rows = seq<seq<real>>

  /** What a scale's `.zattrs` gives; all absent when it is not fetched. */
  datatype ScaleZattrs = ScaleZattrs(arrayDimensions: Option<seq<Dimension>>, ranges: Option<Rows>, direction: Option<Rows>)

  /** The fields of the multiscale image `createScaledImageInfo` reads. */
  datatype ImageMeta = ImageMeta(name: Option<string>, axes: Option<seq<Axis>>, ranges: Option<Rows>, direction: Option<Rows>)

  /** The scale information `createScaledImageInfo` builds from the metadata. */
  datatype ScaledImageInfo = ScaledImageInfo(
    dims: seq<Dimension>,
    name: Option<string>,
    chunkSize: seq<(Dimension, Option<nat>)>,
    arrayShape: seq<(Dimension, Option<nat>)>,
    chunkCount: seq<(Dimension, Option<Num>)>,
    ranges: Option<Rows>,
    direction: Option<Rows>,
    pixelArrayPath: string)

  /** `a ?? b`, with `None` for `null` and `undefined`. */
  function Coalesce<T>(a: Option<T>, b: Option<T>): (r: Option<T>)
    ensures a.Some? ==> r == a
    ensures a.None? ==> r == b
  {
    if a.Some? then a else b
  }

  /** `toDimensionMap(dims, dims.map(dim => Math.ceil(arrayShape.get(dim)! / chunkSize.get(dim)!)))`. */
  function ChunkCountOf(dims: seq<Dimension>, arrayShape: seq<(Dimension, Option<nat>)>,
                        chunkSize: seq<(Dimension, Option<nat>)>): seq<(Dimension, Option<Num>)>
  {
    ToDimensionMap(dims, seq(|dims|, k requires 0 <= k < |dims| =>
      CeilDiv(NumberAt(arrayShape, dims[k]), NumberAt(chunkSize, dims[k]))))
  }

  /**
   * `createScaledImageInfo`: the dimensions come from `_ARRAY_DIMENSIONS`
   * when the dataset's attributes give them, else from the axis names; the
   * chunk count of a dimension is `ceil(size / chunk size)`. The name is the
   * image's; the ranges and the direction are the scale's when its
   * attributes give them, else the image's.
   */
  function CreateScaledImageInfo(scaleZattrs: ScaleZattrs, image: ImageMeta,
                                 shape: seq<nat>, chunks: seq<nat>, path: string): (info: ScaledImageInfo)
    ensures info.dims == if scaleZattrs.arrayDimensions.Some? then scaleZattrs.arrayDimensions.value
                         else GetAxisNames(image.axes)
    ensures info.arrayShape == ToDimensionMap(info.dims, shape) && info.chunkSize == ToDimensionMap(info.dims, chunks)
    ensures info.chunkCount == ChunkCountOf(info.dims, info.arrayShape, info.chunkSize)
    ensures info.name == image.name && info.pixelArrayPath == path
    ensures scaleZattrs.ranges.Some? ==> info.ranges == scaleZattrs.ranges
    ensures scaleZattrs.ranges.None? ==> info.ranges == image.ranges
    ensures scaleZattrs.direction.Some? ==> info.direction == scaleZattrs.direction
    ensures scaleZattrs.direction.None? ==> info.direction == image.direction
  {
    var dims := Coalesce(scaleZattrs.arrayDimensions, Some(GetAxisNames(image.axes))).value;
    var chunkSize := ToDimensionMap(dims, chunks);
    var arrayShape := ToDimensionMap(dims, shape);
    ScaledImageInfo(dims, image.name, chunkSize, arrayShape, ChunkCountOf(dims, arrayShape, chunkSize),
                    Coalesce(scaleZattrs.ranges, image.ranges), Coalesce(scaleZattrs.direction, image.direction), path)
  }

  lemma MulStrict(x: real, y: real, b: real)
    requires x < y && b > 0.0
    ensures x * b < y * b
  {
  }

  /** `ceil(a / b)` chunks of size `b` are the fewest that cover `a`. */
  lemma CeilCovers(a: nat, b: nat)
    requires b > 0
    ensures var c := Ceil(a as real / b as real); (c - 1) * b < a <= c * b
  {
    var q := a as real / b as real;
    assert q * b as real == a as real;
    CeilBelow(a, b, q, Ceil(q));
    CeilAbove(a, b, q, Ceil(q));
  }

  /** One chunk fewer than the ceiling does not cover `a`. */
  lemma CeilBelow(a: nat, b: nat, q: real, c: int)
    requires b > 0 && q * b as real == a as real && c as real - 1.0 < q
    ensures (c - 1) * b < a
  {
    MulStrict(c as real - 1.0, q, b as real);
    CastMul(c - 1, b);
    assert (c - 1) as real == c as real - 1.0;
  }

  /** The ceiling's number of chunks covers `a`. */
  lemma CeilAbove(a: nat, b: nat, q: real, c: int)
    requires b > 0 && q * b as real == a as real && q <= c as real
    ensures a <= c * b
  {
    if q < c as real {
      MulStrict(q, c as real, b as real);
    }
    CastMul(c, b);
  }

  /** Converting a product of integers to a real multiplies the converted factors. */
  lemma {:induction false} CastMul(x: int, y: nat)
    ensures (x * y) as real == x as real * y as real
  {
    if y > 0 {
      CastMul(x, y - 1);
      assert x * y == x * (y - 1) + x;
    }
  }

  lemma ChunkCountAt(dims: seq<Dimension>, shape: seq<nat>, chunks: seq<nat>, k: int)
    requires Distinct(dims) && 0 <= k < |dims| && k < |shape| && k < |chunks| && chunks[k] > 0
    ensures Get(ChunkCountOf(dims, ToDimensionMap(dims, shape), ToDimensionMap(dims, chunks)), dims[k]) ==
      Some(Some(Fin(Ceil(shape[k] as real / chunks[k] as real) as real)))
  {
    var arrayShape := ToDimensionMap(dims, shape);
    var chunkSize := ToDimensionMap(dims, chunks);
    var counts := seq(|dims|, j requires 0 <= j < |dims| =>
      CeilDiv(NumberAt(arrayShape, dims[j]), NumberAt(chunkSize, dims[j])));
    assert NumberAt(arrayShape, dims[k]) == Fin(shape[k] as real) by {
      ToDimensionMapGet(dims, shape, k);
    }
    assert NumberAt(chunkSize, dims[k]) == Fin(chunks[k] as real) by {
      ToDimensionMapGet(dims, chunks, k);
    }
    assert counts[k] == Fin(Ceil(shape[k] as real / chunks[k] as real) as real);
    ToDimensionMapGet(dims, counts, k);
  }

  lemma InfoKeys(dims: seq<Dimension>, shape: seq<nat>, chunks: seq<nat>)
    requires Distinct(dims) && dims != []
    ensures var info := CreateScaledImageInfo(ScaleZattrs(Some(dims), None, None), ImageMeta(None, None, None, None), shape, chunks, "");
      Keys(info.chunkCount) == Keys(info.arrayShape) == Keys(info.chunkSize) == dims
  {
    var arrayShape := ToDimensionMap(dims, shape);
    var chunkSize := ToDimensionMap(dims, chunks);
    var counts := seq(|dims|, j requires 0 <= j < |dims| =>
      CeilDiv(NumberAt(arrayShape, dims[j]), NumberAt(chunkSize, dims[j])));
    ToDimensionMapGet(dims, chunks, 0);
    ToDimensionMapGet(dims, shape, 0);
    ToDimensionMapGet(dims, counts, 0);
  }

  /**
   * With distinct dimensions, the three maps have the dimensions as keys in
   * order, and a dimension's chunk count is the least number of chunks that
   * covers its size.
   */
  lemma ChunkCountCovers(dims: seq<Dimension>, shape: seq<nat>, chunks: seq<nat>, k: int)
    requires Distinct(dims) && 0 <= k < |dims| && k < |shape| && k < |chunks| && chunks[k] > 0
    ensures var info := CreateScaledImageInfo(ScaleZattrs(Some(dims), None, None), ImageMeta(None, None, None, None), shape, chunks, "");
      Keys(info.chunkCount) == Keys(info.arrayShape) == Keys(info.chunkSize) == dims &&
      exists count: int :: Get(info.chunkCount, dims[k]) == Some(Some(Fin(count as real))) &&
        (count - 1) * chunks[k] < shape[k] <= count * chunks[k]
  {
    InfoKeys(dims, shape, chunks);
    ChunkCountAt(dims, shape, chunks, k);
    CeilCovers(shape[k], chunks[k]);
  }

  /**
   * The image's dimension is the number of x, y and z sizes above 1, and it
   * has `arrayShape.get('c') ?? 1` components.
   */
  function SpatialDimension(arrayShape: seq<(Dimension, Option<nat>)>): (n: nat)
    ensures n <= 3
  {
    (if SizeAbove1(arrayShape, X) then 1 else 0) + (if SizeAbove1(arrayShape, Y) then 1 else 0)
      + (if SizeAbove1(arrayShape, Z) then 1 else 0)
  }

  /** `dim && dim > 1` for the size of a dimension. */
  predicate SizeAbove1(arrayShape: seq<(Dimension, Option<nat>)>, d: Dimension) {
    var v := SizeOf(arrayShape, d);
    v.Some? && v.value > 1
  }

  function Components(arrayShape: seq<(Dimension, Option<nat>)>): (n: nat)
    ensures n == if SizeOf(arrayShape, C).Some? then SizeOf(arrayShape, C).value else 1
  {
    var v := SizeOf(arrayShape, C);
    if v.Some? then v.value else 1
  }

  /** An image with a single z slice counts two spatial dimensions. */
  lemma SingleSliceIsTwoDimensional(x: nat, y: nat, components: nat)
    requires x > 1 && y > 1
    ensures SpatialDimension([(C, Some(components)), (Z, Some(1)), (Y, Some(y)), (X, Some(x))]) == 2
    ensures Components([(C, Some(components)), (Z, Some(1)), (Y, Some(y)), (X, Some(x))]) == components
  {
    var m := [(C, Some(components)), (Z, Some(1)), (Y, Some(y)), (X, Some(x))];
    assert m[1..] == [(Z, Some(1)), (Y, Some(y)), (X, Some(x))];
    assert m[1..][1..] == [(Y, Some(y)), (X, Some(x))];
    assert m[1..][1..][1..] == [(X, Some(x))];
    assert Get(m[1..][1..][1..], X) == Some(Some(x));
    assert Get(m[1..][1..], Y) == Some(Some(y)) && Get(m[1..][1..], X) == Some(Some(x));
    assert Get(m[1..], Z) == Some(Some(1)) && Get(m[1..], Y) == Some(Some(y)) && Get(m[1..], X) == Some(Some(x));
    assert Get(m, Z) == Some(Some(1)) && Get(m, Y) == Some(Some(y)) && Get(m, X) == Some(Some(x));
  }

  const MaxConcurrency: nat := 1000

  /** The request queue's concurrency: `Math.min(hardwareConcurrency, maxConcurrency ?? 1000)`. */
  function Concurrency(hardwareConcurrency: int, maxConcurrency: Option<int>): (n: int)
    ensures n <= hardwareConcurrency
    ensures maxConcurrency.None? ==> n <= MaxConcurrency && (hardwareConcurrency <= 1000 ==> n == hardwareConcurrency)
    ensures maxConcurrency.Some? ==> n <= maxConcurrency.value
  {
    if maxConcurrency.Some? then Min(hardwareConcurrency as real, maxConcurrency.value as real).Floor
    else Min(hardwareConcurrency as real, MaxConcurrency as real).Floor
  }

  // ---------------------------------------------------------------------
  // Chunk keys

  /** `String(index[k])`; an index array too short reads `undefined`. */
  function IndexText(index: seq<int>, k: nat): string {
    if k < |index| then IntToString(index[k]) else "undefined"
  }

  /** Each dimension's index followed by the separator, in `dims` order. */
  function Pieces(dims: seq<Dimension>, index: seq<int>, sep: string): string
    decreases |dims|
  {
    if dims == [] then "" else Pieces(dims[..|dims| - 1], index, sep) + IndexText(index, CxyztIndex(dims[|dims| - 1])) + sep
  }

  /** The chunk key the loop builds: the base, "/", the pieces, with the last character cut. */
  function ChunkKey(base: string, dims: seq<Dimension>, index: seq<int>, sep: string): string {
    var path := base + "/" + Pieces(dims, index, sep);
    path[..|path| - 1]
  }

  /** The indices in `dims` order joined by the separator. */
  function Joined(dims: seq<Dimension>, index: seq<int>, sep: string): string
    requires dims != []
    decreases |dims|
  {
    if |dims| == 1 then IndexText(index, CxyztIndex(dims[0]))
    else Joined(dims[..|dims| - 1], index, sep) + sep + IndexText(index, CxyztIndex(dims[|dims| - 1]))
  }

  lemma {:induction false} PiecesJoined(dims: seq<Dimension>, index: seq<int>, sep: string)
    requires dims != []
    ensures Pieces(dims, index, sep) == Joined(dims, index, sep) + sep
    decreases |dims|
  {
    if |dims| == 1 {
      assert dims[..0] == [];
    } else {
      PiecesJoined(dims[..|dims| - 1], index, sep);
    }
  }

  /**
   * With a one-character separator, the key is the base, "/", and the
   * indices in `dims` order joined by the separator; with no dimensions the
   * "/" is cut and the key is the base.
   */
  lemma ChunkKeyJoins(base: string, dims: seq<Dimension>, index: seq<int>, sep: string)
    requires |sep| == 1
    ensures dims == [] ==> ChunkKey(base, dims, index, sep) == base
    ensures dims != [] ==> ChunkKey(base, dims, index, sep) == base + "/" + Joined(dims, index, sep)
  {
    if dims != [] {
      PiecesJoined(dims, index, sep);
      var j := base + "/" + Joined(dims, index, sep);
      assert base + "/" + Pieces(dims, index, sep) == j + sep;
      assert (j + sep)[..|j + sep| - 1] == j;
    } else {
      assert (base + "/")[..|base|] == base;
    }
  }

  /** `const { dimension_separator: dimSeparator = '.' }`. */
  function Separator(dimensionSeparator: Option<string>): string {
    if dimensionSeparator.Some? then dimensionSeparator.value else "."
  }

  lemma PiecesSnoc(dims: seq<Dimension>, dd: int, index: seq<int>, sep: string)
    requires 0 <= dd < |dims|
    ensures Pieces(dims[..dd + 1], index, sep) == Pieces(dims[..dd], index, sep) + IndexText(index, CxyztIndex(dims[dd])) + sep
  {
    assert dims[..dd + 1][..dd] == dims[..dd];
  }

  /** The inner loop of `getChunksImpl`: one chunk's key. */
  method BuildChunkKey(chunkPathBase: string, dims: seq<Dimension>, index: seq<int>, sep: string)
    returns (chunkPath: string)
    ensures chunkPath == ChunkKey(chunkPathBase, dims, index, sep)
  {
    var prefix := chunkPathBase + "/";
    chunkPath := prefix;
    var dd := 0;
    while dd < |dims|
      invariant 0 <= dd <= |dims|
      invariant chunkPath == prefix + Pieces(dims[..dd], index, sep)
    {
      var text := IndexText(index, CxyztIndex(dims[dd]));
      PiecesSnoc(dims, dd, index, sep);
      AppendAssoc(prefix, Pieces(dims[..dd], index, sep) + text, sep);
      AppendAssoc(prefix, Pieces(dims[..dd], index, sep), text);
      chunkPath := chunkPath + text + sep;
      dd := dd + 1;
    }
    assert dims[..dd] == dims;
    chunkPath := chunkPath[..|chunkPath| - 1];
  }

  /** The key-building loops of `getChunksImpl`: one key per chunk index array. */
  method ChunkPaths(chunkPathBase: string, dims: seq<Dimension>, dimensionSeparator: Option<string>,
                    cxyztArray: seq<seq<int>>)
    returns (chunkPaths: seq<string>)
    ensures |chunkPaths| == |cxyztArray|
    ensures forall n :: 0 <= n < |cxyztArray| ==>
      chunkPaths[n] == ChunkKey(chunkPathBase, dims, cxyztArray[n], Separator(dimensionSeparator))
  {
    var sep := Separator(dimensionSeparator);
    chunkPaths := [];
    var index := 0;
    while index < |cxyztArray|
      invariant 0 <= index <= |cxyztArray|
      invariant |chunkPaths| == index
      invariant forall n :: 0 <= n < index ==> chunkPaths[n] == ChunkKey(chunkPathBase, dims, cxyztArray[n], sep)
    {
      var chunkPath := BuildChunkKey(chunkPathBase, dims, cxyztArray[index], sep);
      chunkPaths := chunkPaths + [chunkPath];
      index := index + 1;
    }
  }
}
