// packages/remote-viewport/src/remote-machine.ts: the client side of a
// remote renderer. It keeps the renderer state the client wants as a record
// (`rendererState`), queues every change as `[key, value]` entries, and a
// command loop hands the queue over to the sender in batches. It also turns
// frame-rate complaints into a change of image scale, guarded by the
// memory budget. The network, the renderer and the viewport actor are
// outside the model: their answers are method parameters, and what the
// renderer has applied is a ghost record.
module RemoteMachine {
  import opened JsCommon

  /** A value of the renderer state. Scales are integers, matrices are their 16 entries. */
  datatype Value =
    | Number(x: real)
    | Integer(n: int)
    | Matrix(m: seq<real>)
    | Size(width: real, height: real)
    | Text(s: string)
    | Bounds(b: seq<real>)

  /** `RendererEntries`: a renderer state, or a queue of changes, as `[key, value]` pairs. */
  type Entries = seq<(string, Value)>

  /** `MAX_IMAGE_BYTES_DEFAULT`: 4000 MB. */
  const MaxImageBytesDefault: real := 4000.0 * 1000.0 * 1000.0

  /** `mat4.create()`: the 4 × 4 identity. */
  const Identity: seq<real> := [1.0, 0.0, 0.0, 0.0, 0.0, 1.0, 0.0, 0.0, 0.0, 0.0, 1.0, 0.0, 0.0, 0.0, 0.0, 1.0]

  /** The initial `rendererState`. */
  const InitialRendererState: Entries := [
    ("density", Number(30.0)),
    ("cameraPose", Matrix(Identity)),
    ("renderSize", Size(1.0, 1.0)),
    ("normalizedClipBounds", Bounds([0.0, 1.0, 0.0, 1.0, 0.0, 1.0]))
  ]

  /** The value of the last entry for `key` in a list of changes. */
  function Latest(changes: Entries, key: string): (r: Option<Value>)
    ensures r.Some? <==> HasKey(changes, key)
    decreases |changes|
  {
    if changes == [] then None
    else if changes[|changes| - 1].0 == key then
      assert HasKey(changes, key) by { assert changes[|changes| - 1].0 == key; }
      Some(changes[|changes| - 1].1)
    else
      var init := changes[..|changes| - 1];
      assert HasKey(changes, key) <==> HasKey(init, key) by {
        if HasKey(changes, key) {
          var i :| 0 <= i < |changes| && changes[i].0 == key;
          assert init[i].0 == key;
        }
        if HasKey(init, key) {
          var i :| 0 <= i < |init| && init[i].0 == key;
          assert changes[i].0 == key;
        }
      }
      Latest(init, key)
  }

  /** `{...state, ...changes}`: the changes written over the state one entry at a time. */
  function Overlay(state: Entries, changes: Entries): Entries
    decreases |changes|
  {
    if changes == [] then state
    else
      var last := changes[|changes| - 1];
      Put(Overlay(state, changes[..|changes| - 1]), last.0, last.1)
  }

  /** After the overlay each key holds its latest change, or its old value when it was not changed. */
  lemma {:induction false} OverlayGet(state: Entries, changes: Entries, key: string)
    ensures Get(Overlay(state, changes), key) ==
      if HasKey(changes, key) then Latest(changes, key) else Get(state, key)
    decreases |changes|
  {
    if changes != [] {
      var last := changes[|changes| - 1];
      OverlayGet(state, changes[..|changes| - 1], key);
      PutGet(Overlay(state, changes[..|changes| - 1]), last.0, last.1, key);
    }
  }

  /** An overlay never duplicates a key. */
  lemma {:induction false} OverlayUnique(state: Entries, changes: Entries)
    requires UniqueKeys(state)
    ensures UniqueKeys(Overlay(state, changes))
    decreases |changes|
  {
    if changes != [] {
      var last := changes[|changes| - 1];
      OverlayUnique(state, changes[..|changes| - 1]);
      PutUnique(Overlay(state, changes[..|changes| - 1]), last.0, last.1);
    }
  }

  /** In a list of changes with one entry per key, the latest change of a key is its only one. */
  lemma {:induction false} LatestUnique(changes: Entries, key: string)
    requires UniqueKeys(changes)
    ensures Latest(changes, key) == Get(changes, key)
    decreases |changes|
  {
    if changes != [] {
      var init := changes[..|changes| - 1];
      assert UniqueKeys(init);
      LatestUnique(init, key);
      if changes[|changes| - 1].0 == key {
        assert forall i :: 0 <= i < |init| ==> init[i].0 != key;
        GetAbsent(changes, init, key);
      } else {
        GetInit(changes, key);
      }
    }
  }

  lemma {:induction false} GetAbsent(changes: Entries, init: Entries, key: string)
    requires changes != [] && init == changes[..|changes| - 1]
    requires forall i :: 0 <= i < |init| ==> init[i].0 != key
    requires changes[|changes| - 1].0 == key
    ensures Get(changes, key) == Some(changes[|changes| - 1].1)
    decreases |changes|
  {
    if |changes| > 1 {
      assert changes[0].0 != key;
      GetAbsent(changes[1..], init[1..], key);
    }
  }

  lemma {:induction false} GetInit(changes: Entries, key: string)
    requires changes != [] && changes[|changes| - 1].0 != key
    ensures Get(changes, key) == Get(changes[..|changes| - 1], key)
    decreases |changes|
  {
    if |changes| > 1 && changes[0].0 != key {
      GetInit(changes[1..], key);
      assert changes[1..][..|changes[1..]| - 1] == changes[..|changes| - 1][1..];
    }
  }

  /** The latest change in two lists of changes, one after the other. */
  lemma {:induction false} LatestAppend(first: Entries, second: Entries, key: string)
    ensures Latest(first + second, key) ==
      if HasKey(second, key) then Latest(second, key) else Latest(first, key)
    decreases |second|
  {
    if second == [] {
      assert first + second == first;
    } else {
      assert (first + second)[..|first + second| - 1] == first + second[..|second| - 1];
      LatestAppend(first, second[..|second| - 1], key);
    }
  }

  /** Two records that answer every lookup alike. */
  ghost predicate SameGets(a: Entries, b: Entries) {
    forall key :: Get(a, key) == Get(b, key)
  }

  /** Applying two batches of changes one after the other is applying them together. */
  lemma OverlayConcat(state: Entries, first: Entries, second: Entries)
    ensures SameGets(Overlay(state, first + second), Overlay(Overlay(state, first), second))
  {
    forall key ensures Get(Overlay(state, first + second), key) == Get(Overlay(Overlay(state, first), second), key) {
      OverlayGet(state, first + second, key);
      OverlayGet(Overlay(state, first), second, key);
      OverlayGet(state, first, key);
      LatestAppend(first, second, key);
    }
  }

  /** The same changes applied to records that answer alike give records that answer alike. */
  lemma OverlaySame(a: Entries, b: Entries, changes: Entries)
    requires SameGets(a, b)
    ensures SameGets(Overlay(a, changes), Overlay(b, changes))
  {
    forall key ensures Get(Overlay(a, changes), key) == Get(Overlay(b, changes), key) {
      OverlayGet(a, changes, key);
      OverlayGet(b, changes, key);
    }
  }

  /** Replaying a whole record on an empty one reproduces it. */
  lemma OverlayEntries(state: Entries)
    requires UniqueKeys(state)
    ensures SameGets(Overlay([], state), state)
  {
    forall key ensures Get(Overlay([], state), key) == Get(state, key) {
      OverlayGet([], state, key);
      LatestUnique(state, key);
    }
  }

  /** New changes join the pending commands and the renderer state alike. */
  lemma PendingGrows(delivered: Entries, pending: Entries, state: Entries, changes: Entries)
    requires SameGets(Overlay(delivered, pending), state)
    ensures SameGets(Overlay(delivered, pending + changes), Overlay(state, changes))
  {
    OverlayConcat(delivered, pending, changes);
    OverlaySame(Overlay(delivered, pending), state, changes);
  }

  /** Once a staged batch is applied, what remains pending is the queue. */
  lemma SentBatch(delivered: Entries, staged: Entries, queued: Entries, state: Entries)
    requires SameGets(Overlay(delivered, staged + queued), state)
    ensures SameGets(Overlay(Overlay(delivered, staged), queued), state)
  {
    OverlayConcat(delivered, staged, queued);
  }

  /** `rendererState.imageScale`, when it is set. */
  function ImageScaleOf(state: Entries): (r: Option<int>)
    ensures r.Some? ==> Get(state, "imageScale") == Some(Integer(r.value))
  {
    var v := Get(state, "imageScale");
    if v.Some? && v.value.Integer? then Some(v.value.n) else None
  }

  /**
   * `getTargetScale`: one scale coarser on `slowFps`, one finer on
   * `fastFps`, kept within `[0, coarsestScale]`. Without an image in the
   * viewport, or without a current scale, it throws.
   */
  function GetTargetScale(coarsestScale: Option<nat>, imageScale: Option<int>, slow: bool): (r: Result<int>)
    ensures r.Err? <==> coarsestScale.None? || imageScale.None?
    ensures coarsestScale.None? ==> r == Err("Image not found")
    ensures r.Ok? ==> 0 <= r.value <= coarsestScale.value
    ensures r.Ok? ==>
      var target := imageScale.value + (if slow then 1 else -1);
      0 <= target <= coarsestScale.value ==> r.value == target
  {
    if coarsestScale.None? then Err("Image not found")
    else if imageScale.None? then Err("imageScale not found")
    else
      var scaleChange := if slow then 1 else -1;
      var targetScale := imageScale.value + scaleChange;
      var upper := if coarsestScale.value < targetScale then coarsestScale.value else targetScale;
      Ok(if 0 < upper then upper else 0)
  }

  /**
   * From a scale within range, a slow frame rate never moves to a finer
   * scale, a fast one never to a coarser, and either moves by at most one.
   */
  lemma TargetScaleSteps(coarsestScale: nat, imageScale: int, slow: bool)
    requires 0 <= imageScale <= coarsestScale
    ensures var r := GetTargetScale(Some(coarsestScale), Some(imageScale), slow).value;
      (slow ==> imageScale <= r <= imageScale + 1) && (!slow ==> imageScale - 1 <= r <= imageScale)
  {
  }

  /**
   * The `updatingScale` guard: a requested scale goes ahead unless it is
   * the current one or the image at that scale exceeds the memory budget.
   */
  function ScaleUpdate(requested: int, current: Option<int>, imageBytes: real, maxImageBytes: real): (r: Option<int>)
    ensures r.Some? <==> current != Some(requested) && imageBytes <= maxImageBytes
    ensures r.Some? ==> r.value == requested
  {
    if current == Some(requested) then None
    else if imageBytes > maxImageBytes then None
    else Some(requested)
  }

  /** The `updateRenderer` change `sendingToRenderer` raises for a new image scale. */
  function ImageChanges(imageName: string, imageScale: int): Entries {
    [("image", Text(imageName)), ("imageScale", Integer(imageScale))]
  }

  /** Once a scale is applied, asking for it again goes no further. */
  lemma ScaleUpdateSettles(state: Entries, imageName: string, imageScale: int, imageBytes: real, maxImageBytes: real)
    ensures ScaleUpdate(imageScale, ImageScaleOf(Overlay(state, ImageChanges(imageName, imageScale))), imageBytes, maxImageBytes).None?
  {
    var changes := ImageChanges(imageName, imageScale);
    OverlayGet(state, changes, "imageScale");
    assert changes[1].0 == "imageScale";
  }

  datatype Connection = Disconnected | Connecting | Online

  /** The states of the command loop, which runs while online. */
  datatype CommandLoop = SendingCommands | Idle

  class Remote {
    var rendererState: Entries
    var queuedRendererCommands: Entries
    var stagedRendererCommands: Entries
    var connection: Connection
    var commandLoop: CommandLoop
    var maxImageBytes: real
    /** What the renderer has applied of the commands sent to it. */
    ghost var delivered: Entries

    /** The commands not yet applied by the renderer: the staged batch while it is being sent, then the queue. */
    ghost function Pending(): Entries
      reads this
    {
      if commandLoop == SendingCommands then stagedRendererCommands + queuedRendererCommands
      else queuedRendererCommands
    }

    /**
     * The renderer state has one entry per key; the queue is empty while
     * the loop idles; nothing is staged before going online; and once
     * online, the renderer, after applying the pending commands in order,
     * holds exactly `rendererState`.
     */
    ghost predicate Valid()
      reads this
    {
      UniqueKeys(rendererState) &&
      (connection != Online ==> stagedRendererCommands == []) &&
      (connection == Online && commandLoop == Idle ==> queuedRendererCommands == []) &&
      (connection == Online ==> SameGets(Overlay(delivered, Pending()), rendererState))
    }

    /** The initial context: density 30, identity pose, 1 × 1 render size, the whole image clipped; nothing queued. */
    constructor()
      ensures Valid()
      ensures rendererState == InitialRendererState
      ensures queuedRendererCommands == [] && stagedRendererCommands == []
      ensures connection == Disconnected && maxImageBytes == MaxImageBytesDefault
    {
      rendererState := InitialRendererState;
      queuedRendererCommands := [];
      stagedRendererCommands := [];
      connection := Disconnected;
      commandLoop := SendingCommands;
      maxImageBytes := MaxImageBytesDefault;
      delivered := [];
    }

    /** The effect of `updateRenderer` with `changes`. */
    twostate predicate Updated(changes: Entries)
      reads this
    {
      rendererState == Overlay(old(rendererState), changes) &&
      connection == old(connection) && maxImageBytes == old(maxImageBytes) && delivered == old(delivered) &&
      (if old(connection) == Online && old(commandLoop) == Idle then
         stagedRendererCommands == old(queuedRendererCommands) + changes &&
         queuedRendererCommands == [] && commandLoop == SendingCommands
       else
         stagedRendererCommands == old(stagedRendererCommands) &&
         queuedRendererCommands == old(queuedRendererCommands) + changes &&
         commandLoop == old(commandLoop))
    }

    /**
     * `updateRenderer`: the changes are written over the renderer state and
     * appended to the queue, connected or not; the raised `sendCommands`
     * makes an idle command loop stage the queue and send it.
     */
    method UpdateRenderer(changes: Entries)
      requires Valid()
      modifies this
      ensures Valid()
      ensures Updated(changes)
    {
      OverlayUnique(rendererState, changes);
      if connection == Online {
        PendingGrows(delivered, Pending(), rendererState, changes);
      }
      ghost var pending := Pending() + changes;
      if connection == Online && commandLoop == Idle {
        stagedRendererCommands := queuedRendererCommands + changes;
        queuedRendererCommands := [];
        commandLoop := SendingCommands;
        assert Pending() == pending;
      } else {
        queuedRendererCommands := queuedRendererCommands + changes;
        AppendAssoc(stagedRendererCommands, old(queuedRendererCommands), changes);
        assert connection == Online ==> Pending() == pending;
      }
      rendererState := Overlay(rendererState, changes);
    }

    /** `cameraPoseUpdated`: raised as an `updateRenderer` of the camera pose. */
    method CameraPoseUpdated(pose: seq<real>)
      requires Valid()
      modifies this
      ensures Valid()
      ensures Updated([("cameraPose", Matrix(pose))])
    {
      UpdateRenderer([("cameraPose", Matrix(pose))]);
    }

    /** `setResolution`: raised as an `updateRenderer` of the render size. */
    method SetResolution(width: real, height: real)
      requires Valid()
      modifies this
      ensures Valid()
      ensures Updated([("renderSize", Size(width, height))])
    {
      UpdateRenderer([("renderSize", Size(width, height))]);
    }

    /** `connect`: a disconnected client starts connecting; the server configuration is not modelled. */
    method Connect()
      requires Valid()
      modifies this
      ensures Valid()
      ensures old(connection) == Disconnected ==> connection == Connecting
      ensures old(connection) != Disconnected ==> connection == old(connection)
      ensures rendererState == old(rendererState) && queuedRendererCommands == old(queuedRendererCommands)
      ensures stagedRendererCommands == old(stagedRendererCommands) && commandLoop == old(commandLoop)
      ensures maxImageBytes == old(maxImageBytes) && delivered == old(delivered)
    {
      if connection == Disconnected {
        connection := Connecting;
      }
    }

    /**
     * The connection is made: the queue becomes every entry of the renderer
     * state, and the client goes online with the command loop sending.
     */
    method Connected()
      requires Valid()
      modifies this
      ensures Valid()
      ensures old(connection) == Connecting ==>
        connection == Online && commandLoop == SendingCommands &&
        queuedRendererCommands == old(rendererState) && delivered == []
      ensures old(connection) != Connecting ==>
        connection == old(connection) && commandLoop == old(commandLoop) &&
        queuedRendererCommands == old(queuedRendererCommands) && delivered == old(delivered)
      ensures rendererState == old(rendererState) && stagedRendererCommands == old(stagedRendererCommands)
      ensures maxImageBytes == old(maxImageBytes)
    {
      if connection == Connecting {
        queuedRendererCommands := rendererState;
        connection := Online;
        commandLoop := SendingCommands;
        delivered := [];
        OverlayEntries(rendererState);
        assert Pending() == rendererState;
      }
    }

    /**
     * The sender has sent the staged commands: the loop idles, and when
     * more commands were queued meanwhile it at once stages them and sends
     * again.
     */
    method CommandsSent()
      requires Valid()
      modifies this
      ensures Valid()
      ensures old(connection) == Online && old(commandLoop) == SendingCommands ==>
        delivered == Overlay(old(delivered), old(stagedRendererCommands)) &&
        queuedRendererCommands == [] &&
        (old(queuedRendererCommands) != [] ==>
          stagedRendererCommands == old(queuedRendererCommands) && commandLoop == SendingCommands) &&
        (old(queuedRendererCommands) == [] ==>
          stagedRendererCommands == old(stagedRendererCommands) && commandLoop == Idle)
      ensures !(old(connection) == Online && old(commandLoop) == SendingCommands) ==>
        delivered == old(delivered) && queuedRendererCommands == old(queuedRendererCommands) &&
        stagedRendererCommands == old(stagedRendererCommands) && commandLoop == old(commandLoop)
      ensures rendererState == old(rendererState) && connection == old(connection)
      ensures maxImageBytes == old(maxImageBytes)
    {
      if connection == Online && commandLoop == SendingCommands {
        ghost var queued := queuedRendererCommands;
        SentBatch(delivered, stagedRendererCommands, queued, rendererState);
        delivered := Overlay(delivered, stagedRendererCommands);
        if queuedRendererCommands != [] {
          stagedRendererCommands := queuedRendererCommands;
          queuedRendererCommands := [];
          assert queued + [] == queued;
          assert Pending() == queued;
        } else {
          commandLoop := Idle;
          assert Pending() == queued;
        }
        assert SameGets(Overlay(delivered, Pending()), rendererState);
      }
    }

    /**
     * A new image scale asked for by `setImage` (the coarsest scale) or
     * `setImageScale`: when the guard lets it through, the renderer is
     * told the image's name and the scale. The bytes of the image at that
     * scale are an input.
     */
    method ImageScaleRequested(requested: int, imageBytes: real, imageName: string)
      requires Valid()
      modifies this
      ensures Valid()
      ensures ScaleUpdate(requested, ImageScaleOf(old(rendererState)), imageBytes, old(maxImageBytes)).Some? ==>
        Updated(ImageChanges(imageName, requested))
      ensures ScaleUpdate(requested, ImageScaleOf(old(rendererState)), imageBytes, old(maxImageBytes)).None? ==>
        rendererState == old(rendererState) && queuedRendererCommands == old(queuedRendererCommands) &&
        stagedRendererCommands == old(stagedRendererCommands) && commandLoop == old(commandLoop) &&
        connection == old(connection) && maxImageBytes == old(maxImageBytes) && delivered == old(delivered)
    {
      var output := ScaleUpdate(requested, ImageScaleOf(rendererState), imageBytes, maxImageBytes);
      if output.Some? {
        UpdateRenderer(ImageChanges(imageName, output.value));
      }
    }
  }
}
