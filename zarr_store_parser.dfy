// packages/io/src/ZarrStoreParser.ts: a store wrapper that hands back the
// Zarr metadata documents (`.zattrs`, `.zgroup`, `.zarray`) parsed as JSON and
// every other item, such as a chunk, as the raw bytes. The wrapped store's
// lookup and the text decoding plus `JSON.parse` are parameters of the model.
module ZarrStoreParser {
  import opened JsCommon

  type Bytes = seq<bv8>

  /** What `getItem` resolves to: a parsed JSON document or the raw bytes. */
  datatype Item<J> = Json(document: J) | Raw(data: Bytes)

  /** `isMetadata(item)`: the key ends with one of the three metadata file names. */
  predicate IsMetadata(item: string) {
    EndsWith(item, ".zattrs") || EndsWith(item, ".zgroup") || EndsWith(item, ".zarray")
  }

  /** A key whose last character is a digit, as every chunk key's is, is not metadata. */
  lemma ChunkKeyNotMetadata(item: string)
    requires |item| > 0 && '0' <= item[|item| - 1] <= '9'
    ensures !IsMetadata(item)
  {
    EndsWithLast(item, ".zattrs");
    EndsWithLast(item, ".zgroup");
    EndsWithLast(item, ".zarray");
  }

  lemma EndsWithLast(s: string, suffix: string)
    requires |suffix| > 0
    ensures EndsWith(s, suffix) ==> |s| > 0 && s[|s| - 1] == suffix[|suffix| - 1]
  {
    if EndsWith(s, suffix) {
      assert s[|s| - |suffix|..][|suffix| - 1] == s[|s| - 1];
    }
  }

  /** Metadata names are recognised at the end of any path, but not in its middle. */
  lemma IsMetadataExamples()
    ensures IsMetadata("image.zarr/.zattrs") && IsMetadata("image.zarr/0/.zarray") && IsMetadata(".zgroup")
    ensures !IsMetadata("image.zarr/.zarray/0.0") && !IsMetadata("image.zarr/zattrs")
  {
    assert "image.zarr/.zattrs"[11..] == ".zattrs";
    assert "image.zarr/0/.zarray"[13..] == ".zarray";
    assert "image.zarr/zattrs"[10..] == "/zattrs";
    ChunkKeyNotMetadata("image.zarr/.zarray/0.0");
  }

  /**
   * `new ZarrStoreParser(store)`: `getItem` is the wrapped store's lookup,
   * which fails with a message when the item cannot be fetched, and
   * `toJson` decodes the bytes as text and parses them, failing on text that
   * is not JSON.
   */
  datatype Parser<J> = Parser(getItem: string -> Result<Bytes>, toJson: Bytes -> Result<J>) {

    /**
     * `getItem(item)`: the wrapped store is asked for the same key; metadata
     * comes back parsed, anything else as the bytes the store returned.
     */
    function GetItem(item: string): (r: Result<Item<J>>)
      ensures getItem(item).Err? ==> r == Err(getItem(item).msg)
      ensures getItem(item).Ok? && IsMetadata(item) ==>
        (r.Ok? <==> toJson(getItem(item).value).Ok?) &&
        (r.Ok? ==> r.value == Json(toJson(getItem(item).value).value))
      ensures getItem(item).Ok? && !IsMetadata(item) ==> r == Ok(Raw(getItem(item).value))
    {
      match getItem(item)
      case Err(e) => Err(e)
      case Ok(data) =>
        if IsMetadata(item) then
          match toJson(data)
          case Ok(document) => Ok(Json(document))
          case Err(e) => Err(e)
        else Ok(Raw(data))
    }
  }

  /** Chunks pass through untouched: the parser returns exactly the wrapped store's bytes. */
  lemma ChunksPassThrough<J>(p: Parser<J>, item: string, data: Bytes)
    requires p.getItem(item) == Ok(data) && |item| > 0 && '0' <= item[|item| - 1] <= '9'
    ensures p.GetItem(item) == Ok(Raw(data))
  {
    ChunkKeyNotMetadata(item);
  }
}
