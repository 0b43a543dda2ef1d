// packages/remote-image/itk_viewer_remote_image/remote_zarr.py: the codec
// that exposes a Zarr store to remote callers through three closures, and the
// `get_store` service that resolves an image path to a store. The filesystem,
// the path mapping and the format detection come in as parameters.
module RemoteZarr {
  import opened JsCommon

  type Bytes = seq<bv8>

  /** A Zarr store: a mutable mapping from keys to stored values. */
  class ZarrStore {
    var entries: map<string, Bytes>

    constructor (entries: map<string, Bytes>)
      ensures this.entries == entries
    {
      this.entries := entries;
    }
  }

  /**
   * `encode_zarr_store(store)`: the interface object with its two marker
   * fields; its three closures share the wrapped store.
   */
  class EncodedStore {
    const rintf: bool
    const rtype: string
    const store: ZarrStore

    constructor (store: ZarrStore)
      ensures this.store == store && rintf && rtype == "zarr-store"
    {
      this.store := store;
      rintf := true;
      rtype := "zarr-store";
    }

    /** `getItem(key)`: `store[key]`, or KeyError for a key the store lacks. */
    function GetItem(key: string): (r: Result<Bytes>)
      reads store
      ensures r.Ok? <==> key in store.entries
      ensures r.Ok? ==> r.value == store.entries[key]
    {
      if key in store.entries then Ok(store.entries[key]) else Err("KeyError: '" + key + "'")
    }

    /** `setItem(key, value)`: writes through to the wrapped store. */
    method SetItem(key: string, value: Bytes)
      modifies store
      ensures store.entries == old(store.entries)[key := value]
      ensures ContainsItem(key) && GetItem(key) == Ok(value)
      ensures forall k :: k != key ==> GetItem(k) == old(GetItem(k))
    {
      store.entries := store.entries[key := value];
    }

    /** `containsItem(key)`: `key in store`. */
    function ContainsItem(key: string): (b: bool)
      reads store
      ensures b <==> GetItem(key).Ok?
    {
      key in store.entries
    }
  }

  /** What `detect_cli_io_backend` reports for a path. */
  datatype Backend = NgffZarr | OtherBackend(name: string)

  /** The store `get_store` hands back. */
  datatype StoreRef =
    | DirectoryStore(path: string)
      /** The path converted to a multiscale image in an in-memory store with '/' separators. */
    | ConvertedStore(path: string, backend: Backend, dimensionSeparator: string)

  class RemoteZarr {
    /** The lines printed so far. */
    var printed: seq<string>

    constructor ()
      ensures printed == []
    {
      printed := [];
    }

    /**
     * `get_store(image_path)`: the mapped path must be a URL or exist on disk,
     * else 'File not found' is printed and raised; an OME-Zarr path is opened
     * as a directory store, anything else is converted into a memory store.
     */
    method GetStore(imagePath: string, mapPath: string -> string, pathExists: string -> bool,
                    backendOf: string -> Backend)
      returns (r: Result<StoreRef>)
      modifies this
      ensures var mapped := mapPath(imagePath);
        var missing := !Contains(mapped, "://") && !pathExists(mapped);
        (missing ==>
           r == Err("File not found: " + mapped + "\n") &&
           printed == old(printed) + ["get_store: " + imagePath, "File not found: " + mapped + "\n"]) &&
        (!missing ==>
           printed == old(printed) + ["get_store: " + imagePath] && r.Ok? && r.value.path == mapped) &&
        (!missing && backendOf(mapped) == NgffZarr ==>
           r == Ok(DirectoryStore(mapped))) &&
        (!missing && backendOf(mapped) != NgffZarr ==>
           r.Ok? && r.value.ConvertedStore? && r.value.dimensionSeparator == "/")
    {
      printed := printed + ["get_store: " + imagePath];
      var mapped := mapPath(imagePath);
      if !Contains(mapped, "://") && !pathExists(mapped) {
        printed := printed + ["File not found: " + mapped + "\n"];
        return Err("File not found: " + mapped + "\n");
      }
      var backend := backendOf(mapped);
      if backend == NgffZarr {
        return Ok(DirectoryStore(mapped));
      }
      r := Ok(ConvertedStore(mapped, backend, "/"));
    }
  }
}
