// packages/viewer/src/image.ts: the image actor that keeps, per component,
// the data range seen so far, the color range and opacity points chosen by
// the user, and their counterparts normalized to the data range, plus the
// color map name. The context arrays may have holes, because some actions
// write at an index past the end; a hole is a `Missing` slot.
module ViewerImage {
  import opened JsCommon

  /** A JavaScript array element: a hole (or `undefined`) or a value. */
  datatype Slot<T> = Missing | Present(value: T)

  /** A data range `[min, max]`, as reported with a built image. */
  type DataRange = (real, real)

  /** A color range `[lo, hi]`; after a division by a zero-width range its bounds may be NaN or infinite. */
  type Range = (Num, Num)

  /** An opacity point `[x, y]`. */
  type Point = (Num, Num)

  const DefaultColorMap := "Viridis (matplotlib)"

  /** `bound * delta + dataRange[0]`: a normalized bound mapped into the data range. */
  function Denormalize(b: Num, data: DataRange): (r: Num)
    ensures r.Fin? <==> b.Fin?
    ensures b.Fin? ==> r.r == b.r * (data.1 - data.0) + data.0
  {
    MulAdd(b, data.1 - data.0, data.0)
  }

  /** `(bound - dataRange[0]) / delta`: a data-space bound normalized to the data range. */
  function Normalize(b: Num, data: DataRange): (r: Num)
    ensures r.Fin? <==> b.Fin? && data.1 != data.0
    ensures r.Fin? ==> r.r * (data.1 - data.0) + data.0 == b.r
  {
    match b
    case Fin(x) => Div(x - data.0, data.1 - data.0)
    case NonFinite => NonFinite
  }

  /** On a data range of non-zero width, normalizing and mapping back are inverse to each other. */
  lemma NormalizeRoundTrip(b: Num, data: DataRange)
    requires data.1 != data.0
    ensures Normalize(Denormalize(b, data), data) == b
    ensures Denormalize(Normalize(b, data), data) == b
  {
    var delta := data.1 - data.0;
    if b.Fin? {
      var m := Denormalize(b, data);
      assert m.Fin? && m.r == b.r * delta + data.0;
      var n := Normalize(m, data);
      assert n.Fin? && n.r * delta + data.0 == m.r;
      MulCancel(n.r, b.r, delta);
    }
  }

  lemma MulCancel(x: real, y: real, d: real)
    requires d != 0.0 && x * d == y * d
    ensures x == y
  {
    assert (x - y) * d == 0.0;
  }

  /** On a zero-width data range every bound normalizes to NaN or an infinity, and every finite normalized bound maps to the range's value. */
  lemma FlatDataRange(b: Num, data: DataRange)
    requires data.1 == data.0
    ensures Normalize(b, data) == NonFinite
    ensures b.Fin? ==> Denormalize(b, data) == Fin(data.0)
  {
  }

  /** `computeColorRange(dataRange, normalizedRange)`. */
  function ColorRangeOf(data: DataRange, normalized: Range): (r: Range)
    ensures r.0 == Denormalize(normalized.0, data) && r.1 == Denormalize(normalized.1, data)
  {
    (Denormalize(normalized.0, data), Denormalize(normalized.1, data))
  }

  /** `computeNormalizedColorRange(dataRange, colorRange)`. */
  function NormalizedColorRangeOf(data: DataRange, color: Range): (r: Range)
    ensures r.0 == Normalize(color.0, data) && r.1 == Normalize(color.1, data)
  {
    (Normalize(color.0, data), Normalize(color.1, data))
  }

  /** The two range conversions undo each other when the data range has non-zero width. */
  lemma ColorRangeRoundTrip(data: DataRange, r: Range)
    requires data.1 != data.0
    ensures NormalizedColorRangeOf(data, ColorRangeOf(data, r)) == r
    ensures ColorRangeOf(data, NormalizedColorRangeOf(data, r)) == r
  {
    NormalizeRoundTrip(r.0, data);
    NormalizeRoundTrip(r.1, data);
  }

  /** `computeOpacityPoints(dataRange, normalizedPoints)`: x is mapped into the data range, y kept. */
  function OpacityPointsOf(data: DataRange, points: seq<Point>): (r: seq<Point>)
    ensures |r| == |points|
    ensures forall i :: 0 <= i < |points| ==> r[i] == (Denormalize(points[i].0, data), points[i].1)
  {
    seq(|points|, i requires 0 <= i < |points| => (Denormalize(points[i].0, data), points[i].1))
  }

  /** `computeNormalizedOpacityPoints(dataRange, opacityPoints)`: x is normalized, y kept. */
  function NormalizedOpacityPointsOf(data: DataRange, points: seq<Point>): (r: seq<Point>)
    ensures |r| == |points|
    ensures forall i :: 0 <= i < |points| ==> r[i] == (Normalize(points[i].0, data), points[i].1)
  {
    seq(|points|, i requires 0 <= i < |points| => (Normalize(points[i].0, data), points[i].1))
  }

  /** The two point conversions undo each other when the data range has non-zero width. */
  lemma OpacityPointsRoundTrip(data: DataRange, points: seq<Point>)
    requires data.1 != data.0
    ensures NormalizedOpacityPointsOf(data, OpacityPointsOf(data, points)) == points
    ensures OpacityPointsOf(data, NormalizedOpacityPointsOf(data, points)) == points
  {
    forall i | 0 <= i < |points|
      ensures NormalizedOpacityPointsOf(data, OpacityPointsOf(data, points))[i] == points[i]
      ensures OpacityPointsOf(data, NormalizedOpacityPointsOf(data, points))[i] == points[i]
    {
      NormalizeRoundTrip(points[i].0, data);
    }
  }

  /** `NORMALIZED_RANGE_DEFAULT`. */
  const NormalizedRangeDefault: Range := (Fin(0.2), Fin(0.8))

  /** `NORMALIZED_OPACITY_POINTS_DEFAULT`. */
  const NormalizedOpacityPointsDefault: seq<Point> := [(Fin(0.2), Fin(0.1)), (Fin(0.8), Fin(0.8))]

  /**
   * The `builtImage` data ranges: each reported range is widened by the
   * range already held for its component (a component seen for the first
   * time takes the reported range as it is), so ranges only grow.
   */
  function GrowRanges(held: seq<DataRange>, ranges: seq<DataRange>): (r: seq<DataRange>)
    ensures |r| == |ranges|
    ensures forall c :: 0 <= c < |ranges| ==> r[c].0 <= ranges[c].0 && ranges[c].1 <= r[c].1
    ensures forall c :: 0 <= c < |ranges| && c < |held| ==> r[c].0 <= held[c].0 && held[c].1 <= r[c].1
    ensures forall c :: 0 <= c < |ranges| ==>
      (r[c].0 == ranges[c].0 || (c < |held| && r[c].0 == held[c].0)) &&
      (r[c].1 == ranges[c].1 || (c < |held| && r[c].1 == held[c].1))
  {
    seq(|ranges|, c requires 0 <= c < |ranges| =>
      if c < |held| then (Min(ranges[c].0, held[c].0), Max(ranges[c].1, held[c].1)) else ranges[c])
  }

  /** Reporting the same ranges again changes nothing. */
  lemma GrowRangesIdempotent(held: seq<DataRange>, ranges: seq<DataRange>)
    ensures GrowRanges(GrowRanges(held, ranges), ranges) == GrowRanges(held, ranges)
  {
    var once := GrowRanges(held, ranges);
    var twice := GrowRanges(once, ranges);
    forall c | 0 <= c < |ranges| ensures twice[c] == once[c] {
      assert twice[c] == (Min(ranges[c].0, once[c].0), Max(ranges[c].1, once[c].1));
    }
  }

  /** JavaScript `a[i] = v`: writing past the end leaves holes up to `i`. */
  function WriteSlot<T>(s: seq<Slot<T>>, i: nat, v: T): (r: seq<Slot<T>>)
    ensures |r| == if i < |s| then |s| else i + 1
    ensures r[i] == Present(v)
    ensures forall j :: 0 <= j < |r| && j != i ==> r[j] == if j < |s| then s[j] else Missing
  {
    if i < |s| then s[i := Present(v)]
    else s + seq(i - |s|, _ => Missing) + [Present(v)]
  }

  /** Every component below `n` has a value in `s`. */
  predicate Covers<T>(s: seq<Slot<T>>, n: nat) {
    n <= |s| && forall c :: 0 <= c < n ==> s[c].Present?
  }

  /** `updateColorRanges`: each component's color range from its normalized range. */
  function ColorRangesOf(data: seq<DataRange>, normalized: seq<Slot<Range>>): (r: seq<Slot<Range>>)
    requires Covers(normalized, |data|)
    ensures |r| == |data| && Covers(r, |data|)
    ensures forall c :: 0 <= c < |data| ==> r[c].value == ColorRangeOf(data[c], normalized[c].value)
  {
    seq(|data|, c requires 0 <= c < |data| => Present(ColorRangeOf(data[c], normalized[c].value)))
  }

  /** `updateNormalizedColorRanges`: each component's normalized range from its color range. */
  function NormalizedColorRangesOf(data: seq<DataRange>, color: seq<Slot<Range>>): (r: seq<Slot<Range>>)
    requires Covers(color, |data|)
    ensures |r| == |data| && Covers(r, |data|)
    ensures forall c :: 0 <= c < |data| ==> r[c].value == NormalizedColorRangeOf(data[c], color[c].value)
  {
    seq(|data|, c requires 0 <= c < |data| => Present(NormalizedColorRangeOf(data[c], color[c].value)))
  }

  /** `updateOpacityPoints`: each component's points from its normalized points. */
  function OpacityPointsAll(data: seq<DataRange>, normalized: seq<Slot<seq<Point>>>): (r: seq<Slot<seq<Point>>>)
    requires Covers(normalized, |data|)
    ensures |r| == |data| && Covers(r, |data|)
    ensures forall c :: 0 <= c < |data| ==> r[c].value == OpacityPointsOf(data[c], normalized[c].value)
  {
    seq(|data|, c requires 0 <= c < |data| => Present(OpacityPointsOf(data[c], normalized[c].value)))
  }

  /** `updateNormalizedOpacityPoints`: each component's normalized points from its points. */
  function NormalizedOpacityPointsAll(data: seq<DataRange>, points: seq<Slot<seq<Point>>>): (r: seq<Slot<seq<Point>>>)
    requires Covers(points, |data|)
    ensures |r| == |data| && Covers(r, |data|)
    ensures forall c :: 0 <= c < |data| ==> r[c].value == NormalizedOpacityPointsOf(data[c], points[c].value)
  {
    seq(|data|, c requires 0 <= c < |data| => Present(NormalizedOpacityPointsOf(data[c], points[c].value)))
  }

  /** The value held for component `c`, or the default computed from its data range when there is none. */
  function KeepOrDefault<T>(s: seq<Slot<T>>, c: nat, fallback: T): (r: T)
    ensures c < |s| && s[c].Present? ==> r == s[c].value
    ensures !(c < |s| && s[c].Present?) ==> r == fallback
  {
    if c < |s| && s[c].Present? then s[c].value else fallback
  }

  /** `builtImage`'s second step: color ranges set by the user are kept, missing ones start at the default. */
  function InitColorRanges(data: seq<DataRange>, color: seq<Slot<Range>>): (r: seq<Slot<Range>>)
    ensures |r| == |data| && Covers(r, |data|)
    ensures forall c :: 0 <= c < |data| ==>
      r[c].value == KeepOrDefault(color, c, ColorRangeOf(data[c], NormalizedRangeDefault))
  {
    seq(|data|, c requires 0 <= c < |data| => Present(KeepOrDefault(color, c, ColorRangeOf(data[c], NormalizedRangeDefault))))
  }

  /** `builtImage`'s second step: opacity points set by the user are kept, missing ones start at the default. */
  function InitOpacityPoints(data: seq<DataRange>, points: seq<Slot<seq<Point>>>): (r: seq<Slot<seq<Point>>>)
    ensures |r| == |data| && Covers(r, |data|)
    ensures forall c :: 0 <= c < |data| ==>
      r[c].value == KeepOrDefault(points, c, OpacityPointsOf(data[c], NormalizedOpacityPointsDefault))
  {
    seq(|data|, c requires 0 <= c < |data| => Present(KeepOrDefault(points, c, OpacityPointsOf(data[c], NormalizedOpacityPointsDefault))))
  }

  /** `ensureComponentDefaults`: one color map per data range; a missing or empty name becomes the default map. */
  function ColorMapsWithDefaults(n: nat, colorMaps: seq<string>): (r: seq<string>)
    ensures |r| == n
    ensures forall c :: 0 <= c < n ==> r[c] != ""
    ensures forall c :: 0 <= c < n && c < |colorMaps| && colorMaps[c] != "" ==> r[c] == colorMaps[c]
    ensures forall c :: 0 <= c < n && !(c < |colorMaps| && colorMaps[c] != "") ==> r[c] == DefaultColorMap
  {
    seq(n, c requires 0 <= c < n => if c < |colorMaps| && colorMaps[c] != "" then colorMaps[c] else DefaultColorMap)
  }

  /** Filling in the defaults twice is the same as once. */
  lemma ColorMapDefaultsIdempotent(n: nat, colorMaps: seq<string>)
    ensures ColorMapsWithDefaults(n, ColorMapsWithDefaults(n, colorMaps)) == ColorMapsWithDefaults(n, colorMaps)
  {
    var once := ColorMapsWithDefaults(n, colorMaps);
    assert forall c :: 0 <= c < n ==> ColorMapsWithDefaults(n, once)[c] == once[c];
  }

  /**
   * The `colorMap` event: `[...maps.slice(0, c), name, ...maps.slice(c + 1)]`.
   * A slice bound past the end stops at the end, so a component past the
   * end puts the name last.
   */
  function SetColorMap(colorMaps: seq<string>, component: nat, name: string): (r: seq<string>)
    ensures component < |colorMaps| ==> r == colorMaps[component := name]
    ensures component >= |colorMaps| ==> r == colorMaps + [name]
  {
    var n := |colorMaps|;
    colorMaps[..if component < n then component else n] + [name] + colorMaps[if component + 1 < n then component + 1 else n..]
  }

  class Image {
    var dataRanges: seq<DataRange>
    var colorRanges: seq<Slot<Range>>
    var normalizedColorRanges: seq<Slot<Range>>
    var colorMaps: seq<string>
    var opacityPoints: seq<Slot<seq<Point>>>
    var normalizedOpacityPoints: seq<Slot<seq<Point>>>

    /**
     * Every component with a data range has a color range, a normalized
     * color range, opacity points and normalized opacity points, so that the
     * update actions never read a hole.
     */
    ghost predicate Valid()
      reads this
    {
      Covers(colorRanges, |dataRanges|) && Covers(normalizedColorRanges, |dataRanges|) &&
      Covers(opacityPoints, |dataRanges|) && Covers(normalizedOpacityPoints, |dataRanges|)
    }

    /** The initial context: every per-component array empty. */
    constructor()
      ensures Valid()
      ensures dataRanges == [] && colorRanges == [] && normalizedColorRanges == [] && colorMaps == []
      ensures opacityPoints == [] && normalizedOpacityPoints == []
    {
      dataRanges := [];
      colorRanges := [];
      normalizedColorRanges := [];
      colorMaps := [];
      opacityPoints := [];
      normalizedOpacityPoints := [];
    }

    /**
     * `builtImage`: the data ranges grow by the reported ranges (an image
     * without ranges leaves them as they are), missing color ranges and
     * opacity points are initialised from the defaults, the normalized
     * values are recomputed and the color maps completed.
     */
    method BuiltImage(ranges: Option<seq<DataRange>>)
      requires Valid()
      modifies this
      ensures Valid()
      ensures dataRanges == if ranges.None? then old(dataRanges) else GrowRanges(old(dataRanges), ranges.value)
      ensures colorRanges == InitColorRanges(dataRanges, old(colorRanges))
      ensures opacityPoints == InitOpacityPoints(dataRanges, old(opacityPoints))
      ensures normalizedColorRanges == NormalizedColorRangesOf(dataRanges, colorRanges)
      ensures normalizedOpacityPoints == NormalizedOpacityPointsAll(dataRanges, opacityPoints)
      ensures colorMaps == ColorMapsWithDefaults(|dataRanges|, old(colorMaps))
    {
      if ranges.Some? {
        dataRanges := GrowRanges(dataRanges, ranges.value);
      }
      colorRanges := InitColorRanges(dataRanges, colorRanges);
      opacityPoints := InitOpacityPoints(dataRanges, opacityPoints);
      normalizedColorRanges := NormalizedColorRangesOf(dataRanges, colorRanges);
      normalizedOpacityPoints := NormalizedOpacityPointsAll(dataRanges, opacityPoints);
      colorMaps := ColorMapsWithDefaults(|dataRanges|, colorMaps);
    }

    /** `colorRange`: the component's color range is written and the normalized ranges recomputed. */
    method SetColorRange(range: Range, component: nat)
      requires Valid()
      modifies this
      ensures Valid()
      ensures colorRanges == WriteSlot(old(colorRanges), component, range)
      ensures normalizedColorRanges == NormalizedColorRangesOf(dataRanges, colorRanges)
      ensures dataRanges == old(dataRanges) && colorMaps == old(colorMaps)
      ensures opacityPoints == old(opacityPoints) && normalizedOpacityPoints == old(normalizedOpacityPoints)
    {
      colorRanges := WriteSlot(colorRanges, component, range);
      normalizedColorRanges := NormalizedColorRangesOf(dataRanges, colorRanges);
    }

    /** `normalizedColorRange`: the component's normalized range is written and the color ranges recomputed. */
    method SetNormalizedColorRange(range: Range, component: nat)
      requires Valid()
      modifies this
      ensures Valid()
      ensures normalizedColorRanges == WriteSlot(old(normalizedColorRanges), component, range)
      ensures colorRanges == ColorRangesOf(dataRanges, normalizedColorRanges)
      ensures dataRanges == old(dataRanges) && colorMaps == old(colorMaps)
      ensures opacityPoints == old(opacityPoints) && normalizedOpacityPoints == old(normalizedOpacityPoints)
    {
      normalizedColorRanges := WriteSlot(normalizedColorRanges, component, range);
      colorRanges := ColorRangesOf(dataRanges, normalizedColorRanges);
    }

    /** `opacityPoints`: the component's points are written and the normalized points recomputed. */
    method SetOpacityPoints(points: seq<Point>, component: nat)
      requires Valid()
      modifies this
      ensures Valid()
      ensures opacityPoints == WriteSlot(old(opacityPoints), component, points)
      ensures normalizedOpacityPoints == NormalizedOpacityPointsAll(dataRanges, opacityPoints)
      ensures dataRanges == old(dataRanges) && colorMaps == old(colorMaps)
      ensures colorRanges == old(colorRanges) && normalizedColorRanges == old(normalizedColorRanges)
    {
      opacityPoints := WriteSlot(opacityPoints, component, points);
      normalizedOpacityPoints := NormalizedOpacityPointsAll(dataRanges, opacityPoints);
    }

    /** `normalizedOpacityPoints`: the component's normalized points are written and the points recomputed. */
    method SetNormalizedOpacityPoints(points: seq<Point>, component: nat)
      requires Valid()
      modifies this
      ensures Valid()
      ensures normalizedOpacityPoints == WriteSlot(old(normalizedOpacityPoints), component, points)
      ensures opacityPoints == OpacityPointsAll(dataRanges, normalizedOpacityPoints)
      ensures dataRanges == old(dataRanges) && colorMaps == old(colorMaps)
      ensures colorRanges == old(colorRanges) && normalizedColorRanges == old(normalizedColorRanges)
    {
      normalizedOpacityPoints := WriteSlot(normalizedOpacityPoints, component, points);
      opacityPoints := OpacityPointsAll(dataRanges, normalizedOpacityPoints);
    }

    /** `colorMap`: the component's color map name is replaced; nothing else changes. */
    method SetColorMapOf(name: string, component: nat)
      requires Valid()
      modifies this
      ensures Valid()
      ensures colorMaps == SetColorMap(old(colorMaps), component, name)
      ensures dataRanges == old(dataRanges)
      ensures colorRanges == old(colorRanges) && normalizedColorRanges == old(normalizedColorRanges)
      ensures opacityPoints == old(opacityPoints) && normalizedOpacityPoints == old(normalizedOpacityPoints)
    {
      colorMaps := SetColorMap(colorMaps, component, name);
    }
  }

  /**
   * After a `colorRange` event for a component with a data range of
   * non-zero width, the component's normalized range maps back to exactly
   * the range the user chose.
   */
  lemma ColorRangeEventRoundTrip(data: seq<DataRange>, color: seq<Slot<Range>>, range: Range, component: nat)
    requires Covers(color, |data|) && component < |data| && data[component].1 != data[component].0
    ensures var written := WriteSlot(color, component, range);
      ColorRangeOf(data[component], NormalizedColorRangesOf(data, written)[component].value) == range
  {
    ColorRangeRoundTrip(data[component], range);
  }

  /**
   * After a `normalizedColorRange` event for a component with a data range
   * of non-zero width, the component's color range normalizes back to
   * exactly the range the user chose.
   */
  lemma NormalizedColorRangeEventRoundTrip(data: seq<DataRange>, normalized: seq<Slot<Range>>, range: Range, component: nat)
    requires Covers(normalized, |data|) && component < |data| && data[component].1 != data[component].0
    ensures var written := WriteSlot(normalized, component, range);
      NormalizedColorRangeOf(data[component], ColorRangesOf(data, written)[component].value) == range
  {
    ColorRangeRoundTrip(data[component], range);
  }
}
