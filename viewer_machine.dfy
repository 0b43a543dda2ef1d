// packages/viewer/src/viewer-machine.ts: the viewer actor. It keeps the
// viewports by name, the images by name and a counter for the ids of the
// viewports it spawns itself, and forwards images to every viewport. The
// `setImage` messages sent to viewports are appended to an outbox; the actor
// a `createViewport` event spawns is a parameter.
module ViewerMachine {
  import opened JsCommon

  /** A viewer id: the decimal digits of a count. */
  predicate IsId(s: string) {
    |s| >= 1 && forall i :: 0 <= i < |s| ==> '0' <= s[i] <= '9'
  }

  /** `String(Number(lastId) + 1)`: the id after `lastId`. */
  function NextId(lastId: string): (r: string)
    requires IsId(lastId)
    ensures IsId(r) && DigitsValue(r) == DigitsValue(lastId) + 1
  {
    DigitsValueOfString(DigitsValue(lastId) + 1);
    NatToString(DigitsValue(lastId) + 1)
  }

  /** `lastId` after `k` `createViewport` events, starting from `'0'`. */
  function IdAfter(k: nat): (id: string)
    ensures IsId(id)
  {
    if k == 0 then "0" else NextId(IdAfter(k - 1))
  }

  /** The `k`-th spawned viewport gets id `String(k)`. */
  lemma {:induction false} IdAfterIsCount(k: nat)
    ensures IdAfter(k) == NatToString(k)
  {
    if k > 0 {
      IdAfterIsCount(k - 1);
      DigitsValueOfString(k - 1);
    }
  }

  /** No two spawned viewports share an id. */
  lemma IdsDistinct(i: nat, j: nat)
    requires i != j
    ensures IdAfter(i) != IdAfter(j)
  {
    IdAfterIsCount(i);
    IdAfterIsCount(j);
    NatToStringInjective(i, j);
  }

  /** One `setImage` message per viewport, in the viewports' order. */
  function Broadcast<V, I>(viewports: seq<(string, V)>, image: I): (r: seq<(V, I)>)
    ensures |r| == |viewports|
    ensures forall i :: 0 <= i < |viewports| ==> r[i] == (viewports[i].1, image)
  {
    seq(|viewports|, i requires 0 <= i < |viewports| => (viewports[i].1, image))
  }

  /** `name = 'image'`: the key an image is stored under. */
  function ImageKey(name: Option<string>): string {
    if name.Some? then name.value else "image"
  }

  /** `Object.values(images).at(-1)`: the image stored under the last key. */
  function LastImage<I>(images: seq<(string, I)>): I
    requires images != []
  {
    images[|images| - 1].1
  }

  class Viewer<V, I> {
    var lastId: string
    var viewports: seq<(string, V)>
    var images: seq<(string, I)>
    /** `setImage` messages sent to viewports, oldest first. */
    var outbox: seq<(V, I)>

    ghost predicate Valid()
      reads this
    {
      IsId(lastId) && UniqueKeys(viewports) && UniqueKeys(images)
    }

    /** The initial context: `lastId` is `'0'` and there are no viewports or images. */
    constructor()
      ensures Valid()
      ensures lastId == "0" && viewports == [] && images == [] && outbox == []
    {
      lastId := "0";
      viewports := [];
      images := [];
      outbox := [];
    }

    /** `addViewport`: the viewport is stored under its name, replacing any viewport of that name. */
    method AddViewport(name: string, viewport: V)
      requires Valid()
      modifies this
      ensures Valid()
      ensures viewports == Put(old(viewports), name, viewport)
      ensures lastId == old(lastId) && images == old(images) && outbox == old(outbox)
    {
      PutUnique(viewports, name, viewport);
      viewports := Put(viewports, name, viewport);
    }

    /** `createViewport`: the counter is incremented and the spawned viewport is stored under the new id. */
    method CreateViewport(spawned: V)
      requires Valid()
      modifies this
      ensures Valid()
      ensures lastId == NextId(old(lastId))
      ensures viewports == Put(old(viewports), lastId, spawned)
      ensures images == old(images) && outbox == old(outbox)
    {
      lastId := NextId(lastId);
      PutUnique(viewports, lastId, spawned);
      viewports := Put(viewports, lastId, spawned);
    }

    /** `sendImageToViewports`: every viewport is sent the image. */
    method SendImageToViewports(image: I)
      modifies this
      ensures outbox == old(outbox) + Broadcast(viewports, image)
      ensures lastId == old(lastId) && viewports == old(viewports) && images == old(images)
    {
      outbox := outbox + Broadcast(viewports, image);
    }

    /**
     * `setImage` as written: the image is stored under its name, then the
     * viewports are sent the image stored under the LAST key, which is not
     * the image just set when an earlier name is set again.
     */
    method SetImage(image: I, name: Option<string>)
      requires Valid()
      modifies this
      ensures Valid()
      ensures images == Put(old(images), ImageKey(name), image)
      ensures outbox == old(outbox) + Broadcast(viewports, LastImage(images))
      ensures lastId == old(lastId) && viewports == old(viewports)
    {
      PutUnique(images, ImageKey(name), image);
      images := Put(images, ImageKey(name), image);
      SendImageToViewports(LastImage(images));
    }

    /** `setImage` as evidently intended: the viewports are sent the image just set. */
    method SetImageCorrected(image: I, name: Option<string>)
      requires Valid()
      modifies this
      ensures Valid()
      ensures images == Put(old(images), ImageKey(name), image)
      ensures outbox == old(outbox) + Broadcast(viewports, image)
      ensures lastId == old(lastId) && viewports == old(viewports)
    {
      PutUnique(images, ImageKey(name), image);
      images := Put(images, ImageKey(name), image);
      SendImageToViewports(image);
    }
  }

  /** Under a new name the image is stored last, so the code as written does broadcast the image just set. */
  lemma NewNameBroadcastsImage<I>(images: seq<(string, I)>, name: Option<string>, image: I)
    requires !HasKey(images, ImageKey(name))
    ensures LastImage(Put(images, ImageKey(name), image)) == image
  {
    PutKeys(images, ImageKey(name), image);
  }

  /**
   * Setting image `"a"` again while `"b"` was stored after it broadcasts the
   * image stored under `"b"`, not the one just set.
   */
  lemma ResetNameBroadcastsOtherImage()
    ensures var images := Put([("a", 1), ("b", 2)], "a", 3);
      Get(images, "a") == Some(3) && LastImage(images) == 2
  {
    assert Put([("a", 1), ("b", 2)], "a", 3) == [("a", 3), ("b", 2)];
  }

  /** The corrected `setImage` always stores the image under its name and sends exactly that image. */
  lemma CorrectedStoresAndSends<V, I>(viewports: seq<(string, V)>, images: seq<(string, I)>, name: Option<string>, image: I)
    ensures Get(Put(images, ImageKey(name), image), ImageKey(name)) == Some(image)
    ensures forall i :: 0 <= i < |viewports| ==> Broadcast(viewports, image)[i].1 == image
  {
    PutGet(images, ImageKey(name), image, ImageKey(name));
  }
}
