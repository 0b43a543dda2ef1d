// packages/remote-viewport/src/remote-viewport.ts: the command sender of
// the remote viewport. A staged batch of renderer-state changes becomes the
// list of commands sent to the renderer in three passes: each change is
// translated (the camera pose into the renderer's frame, the image and its
// scale into a `loadImage` command), every `loadImage` is followed by the
// current camera pose, and only the last command of each type is kept. The
// matrix maths of the camera pose is kept symbolic: a `LookAt` payload
// records the matrices it is computed from.
module RemoteViewport {
  import opened JsCommon
  import D = DimensionUtils
  import RemoteMachine

  /** What a command carries. */
  datatype Payload =
    | Plain(value: RemoteMachine.Value)
    | LookAt(toRendererCoordinateSystem: seq<real>, cameraPose: RemoteMachine.Value)
    | LoadImage(imagePath: Option<RemoteMachine.Value>, multiresolutionLevel: Option<RemoteMachine.Value>,
                channels: seq<int>, region: seq<Option<int>>)

  /** `Command`: a type and its payload. */
  type Command = (string, Payload)

  /** The parts of the remote machine's context the sender reads. */
  datatype SenderContext = SenderContext(
    toRendererCoordinateSystem: seq<real>,
    imageIndexClipBounds: Option<seq<(D.Dimension, (int, int))>>,
    rendererState: RemoteMachine.Entries)

  /**
   * `Array.from({ length: cDelta + 1 }, (_, i) => i + lo)`: the channels
   * `lo` to `hi`, none when the range is empty.
   */
  function Channels(lo: int, hi: int): (r: seq<int>)
    ensures |r| == if hi < lo then 0 else hi - lo + 1
    ensures forall i :: 0 <= i < |r| ==> r[i] == lo + i
    ensures forall c :: c in r <==> lo <= c <= hi
  {
    var n := if hi < lo then 0 else hi - lo + 1;
    var r := seq(n, i requires 0 <= i < n => i + lo);
    assert forall c :: lo <= c <= hi ==> c in r by {
      forall c | lo <= c <= hi
        ensures c in r
      {
        assert r[c - lo] == c;
      }
    }
    assert forall c :: c in r ==> lo <= c <= hi by {
      forall c | c in r
        ensures lo <= c <= hi
      {
        var i :| 0 <= i < |r| && r[i] == c;
      }
    }
    r
  }

  /** `XYZ.flatMap((dim) => imageIndexClipBounds.get(dim))`: each spatial range, or a hole where it is missing. */
  function Region(bounds: seq<(D.Dimension, (int, int))>): (r: seq<Option<int>>)
    ensures 3 <= |r| <= 6
    ensures |r| == 6 <==> HasKey(bounds, D.X) && HasKey(bounds, D.Y) && HasKey(bounds, D.Z)
    ensures |r| == 6 ==> r == [Some(Get(bounds, D.X).value.0), Some(Get(bounds, D.X).value.1),
                               Some(Get(bounds, D.Y).value.0), Some(Get(bounds, D.Y).value.1),
                               Some(Get(bounds, D.Z).value.0), Some(Get(bounds, D.Z).value.1)]
  {
    RegionOf(bounds, D.X) + RegionOf(bounds, D.Y) + RegionOf(bounds, D.Z)
  }

  function RegionOf(bounds: seq<(D.Dimension, (int, int))>, dim: D.Dimension): (r: seq<Option<int>>)
    ensures Get(bounds, dim).Some? ==> r == [Some(Get(bounds, dim).value.0), Some(Get(bounds, dim).value.1)]
    ensures Get(bounds, dim).None? ==> r == [None]
  {
    match Get(bounds, dim)
    case Some(range) => [Some(range.0), Some(range.1)]
    case None => [None]
  }

  /**
   * `makeLoadImageCommand`: the image comes from the command when it is an
   * `image` change, otherwise from the renderer state, and likewise the
   * scale; the channels are the `c` range of the clip bounds, `[0, 0]` by
   * default. It throws without clip bounds.
   */
  function MakeLoadImageCommand(command: (string, RemoteMachine.Value), context: SenderContext): (r: Result<Command>)
    ensures r.Err? <==> context.imageIndexClipBounds.None?
    ensures r.Err? ==> r.msg == "No image index clip bounds"
    ensures r.Ok? ==> r.value.0 == "loadImage" && r.value.1.LoadImage?
    ensures r.Ok? ==> (r.value.1.imagePath ==
      if command.0 == "image" then Some(command.1) else Get(context.rendererState, "image"))
    ensures r.Ok? ==> (r.value.1.multiresolutionLevel ==
      if command.0 == "imageScale" then Some(command.1) else Get(context.rendererState, "imageScale"))
    ensures r.Ok? ==>
      var range := Get(context.imageIndexClipBounds.value, D.C);
      (range.Some? ==> r.value.1.channels == Channels(range.value.0, range.value.1)) &&
      (range.None? ==> r.value.1.channels == [0]) &&
      r.value.1.region == Region(context.imageIndexClipBounds.value)
  {
    if context.imageIndexClipBounds.None? then Err("No image index clip bounds")
    else
      var bounds := context.imageIndexClipBounds.value;
      var imagePath := if command.0 == "image" then Some(command.1) else Get(context.rendererState, "image");
      var level := if command.0 == "imageScale" then Some(command.1) else Get(context.rendererState, "imageScale");
      var channelRange := match Get(bounds, D.C) case Some(range) => range case None => (0, 0);
      Ok(("loadImage", LoadImage(imagePath, level, Channels(channelRange.0, channelRange.1), Region(bounds))))
  }

  /** The first pass on one change: the camera pose is translated, the image and its scale load the image, the rest pass. */
  function Translate(command: (string, RemoteMachine.Value), context: SenderContext): (r: Result<Command>)
    ensures command.0 == "cameraPose" ==>
      r == Ok(("cameraPose", LookAt(context.toRendererCoordinateSystem, command.1)))
    ensures command.0 == "image" || command.0 == "imageScale" ==>
      r == MakeLoadImageCommand(command, context)
    ensures command.0 !in {"cameraPose", "image", "imageScale"} ==> r == Ok((command.0, Plain(command.1)))
  {
    if command.0 == "cameraPose" then Ok(("cameraPose", LookAt(context.toRendererCoordinateSystem, command.1)))
    else if command.0 == "image" || command.0 == "imageScale" then MakeLoadImageCommand(command, context)
    else Ok((command.0, Plain(command.1)))
  }

  /** `commands.map(...)`: every change translated, or the first error thrown. */
  function TranslateAll(commands: RemoteMachine.Entries, context: SenderContext): (r: Result<seq<Command>>)
    ensures r.Err? <==> exists i :: 0 <= i < |commands| && Translate(commands[i], context).Err?
    ensures r.Ok? ==> (|r.value| == |commands| &&
      forall i :: 0 <= i < |commands| ==> Ok(r.value[i]) == Translate(commands[i], context))
  {
    if commands == [] then Ok([])
    else
      var head := Translate(commands[0], context);
      var rest := TranslateAll(commands[1..], context);
      assert forall i :: 1 <= i < |commands| ==> commands[i] == commands[1..][i - 1];
      if head.Err? then Err(head.msg)
      else if rest.Err? then Err(rest.msg)
      else Ok([head.value] + rest.value)
  }

  /** The camera pose sent after each `loadImage`: the current pose in the renderer's frame. */
  function PoseCommand(context: SenderContext): Command
    requires HasKey(context.rendererState, "cameraPose")
  {
    ("cameraPose", LookAt(context.toRendererCoordinateSystem, Get(context.rendererState, "cameraPose").value))
  }

  /** Every `loadImage` is immediately followed by a `cameraPose`. */
  predicate PoseAfterEachLoad(commands: seq<Command>) {
    forall i :: 0 <= i < |commands| && commands[i].0 == "loadImage" ==>
      i + 1 < |commands| && commands[i + 1].0 == "cameraPose"
  }

  /** Every `loadImage` is followed, somewhere later, by a `cameraPose`. */
  predicate PoseLaterThanEachLoad(commands: seq<Command>) {
    forall p :: 0 <= p < |commands| && commands[p].0 == "loadImage" ==>
      exists q :: p < q < |commands| && commands[q].0 == "cameraPose"
  }

  /** The second pass, `flatMap`: a `loadImage` is followed by the current camera pose; other commands stay alone. */
  function AddPoses(commands: seq<Command>, context: SenderContext): (r: seq<Command>)
    requires HasKey(context.rendererState, "cameraPose")
    ensures PoseAfterEachLoad(r)
    ensures forall c :: c in commands ==> c in r
    ensures forall c :: c in r ==> c in commands || c == PoseCommand(context)
  {
    if commands == [] then []
    else
      var head := if commands[0].0 == "loadImage" then [commands[0], PoseCommand(context)] else [commands[0]];
      var rest := AddPoses(commands[1..], context);
      assert forall c :: c in commands ==> c == commands[0] || c in commands[1..];
      var r := head + rest;
      assert forall i :: |head| <= i < |r| ==> r[i] == rest[i - |head|];
      r
  }

  /** The command types of a list. */
  function Types(commands: seq<Command>): set<string> {
    set c | c in commands :: c.0
  }

  /**
   * Reference for the third pass: keep a command exactly when no later
   * command has its type, in the original order.
   */
  function LastOfType(commands: seq<Command>): seq<Command> {
    if commands == [] then []
    else (if commands[0].0 in Types(commands[1..]) then [] else [commands[0]]) + LastOfType(commands[1..])
  }

  /**
   * The third pass, `reduceRight`: from the last command back, a command
   * is prepended to the kept ones unless its type was already seen.
   */
  function Dedupe(commands: seq<Command>, kept: seq<Command>, seen: set<string>): seq<Command>
    decreases |commands|
  {
    if commands == [] then kept
    else
      var command := commands[|commands| - 1];
      var init := commands[..|commands| - 1];
      if command.0 in seen then Dedupe(init, kept, seen)
      else Dedupe(init, [command] + kept, seen + {command.0})
  }

  /** The fold computes the reference: the last command of each type, in order. */
  lemma {:induction false} DedupeIsLastOfType(commands: seq<Command>, kept: seq<Command>, seen: set<string>)
    requires seen == Types(kept) && LastOfType(kept) == kept
    ensures Dedupe(commands, kept, seen) == LastOfType(commands + kept)
    decreases |commands|
  {
    if commands == [] {
      assert commands + kept == kept;
    } else {
      var command := commands[|commands| - 1];
      var init := commands[..|commands| - 1];
      assert commands + kept == init + ([command] + kept);
      if command.0 in seen {
        DedupeIsLastOfType(init, kept, seen);
        DropShadowed(init, command, kept);
      } else {
        var kept' := [command] + kept;
        assert kept'[1..] == kept;
        assert Types(kept') == seen + {command.0};
        DedupeIsLastOfType(init, kept', seen + {command.0});
      }
    }
  }

  /** A command whose type occurs later is dropped wherever it stands. */
  lemma {:induction false} DropShadowed(a: seq<Command>, command: Command, b: seq<Command>)
    requires command.0 in Types(b)
    ensures LastOfType(a + ([command] + b)) == LastOfType(a + b)
    decreases |a|
  {
    if a == [] {
      assert a + ([command] + b) == [command] + b && ([command] + b)[1..] == b;
      assert a + b == b;
    } else {
      assert (a + ([command] + b))[1..] == a[1..] + ([command] + b);
      assert (a + b)[1..] == a[1..] + b;
      assert Types(a[1..] + ([command] + b)) == Types(a[1..] + b);
      DropShadowed(a[1..], command, b);
    }
  }

  /** The kept commands have exactly the types of the input. */
  lemma {:induction false} LastOfTypeTypes(commands: seq<Command>)
    ensures Types(LastOfType(commands)) == Types(commands)
  {
    if commands != [] {
      LastOfTypeTypes(commands[1..]);
      assert commands == [commands[0]] + commands[1..];
      assert Types(commands) == {commands[0].0} + Types(commands[1..]);
      var head := if commands[0].0 in Types(commands[1..]) then [] else [commands[0]];
      assert Types(head + LastOfType(commands[1..])) == Types(head) + Types(LastOfType(commands[1..]));
    }
  }

  /** No two kept commands share a type. */
  lemma {:induction false} LastOfTypeUnique(commands: seq<Command>)
    ensures var r := LastOfType(commands);
      forall p, q :: 0 <= p < q < |r| ==> r[p].0 != r[q].0
  {
    if commands != [] {
      LastOfTypeUnique(commands[1..]);
      LastOfTypeTypes(commands[1..]);
      var rest := LastOfType(commands[1..]);
      var head := if commands[0].0 in Types(commands[1..]) then [] else [commands[0]];
      var r := head + rest;
      assert forall p :: |head| <= p < |r| ==> r[p] == rest[p - |head|];
      assert forall q :: 0 <= q < |rest| ==> rest[q].0 in Types(rest);
    }
  }

  /** Position `i` holds the last command of its type. */
  ghost predicate IsLast(commands: seq<Command>, i: int)
    requires 0 <= i < |commands|
  {
    forall j :: i < j < |commands| ==> commands[j].0 != commands[i].0
  }

  /** A command is kept exactly when it stands at the last position of its type. */
  lemma {:induction false} LastOfTypeMembers(commands: seq<Command>, c: Command)
    ensures c in LastOfType(commands) <==> exists i :: 0 <= i < |commands| && commands[i] == c && IsLast(commands, i)
  {
    if commands != [] {
      var rest := commands[1..];
      LastOfTypeMembers(rest, c);
      var shadowed := commands[0].0 in Types(rest);
      assert shadowed <==> exists j :: 1 <= j < |commands| && commands[j].0 == commands[0].0 by {
        if shadowed {
          var d :| d in rest && d.0 == commands[0].0;
          var k :| 0 <= k < |rest| && rest[k] == d;
          assert commands[k + 1].0 == commands[0].0;
        }
      }
      assert IsLast(commands, 0) <==> !shadowed;
      forall i | 1 <= i < |commands|
        ensures IsLast(commands, i) <==> IsLast(rest, i - 1)
      {
        assert forall j :: i < j < |commands| ==> commands[j] == rest[j - 1];
      }
      if exists i :: 0 <= i < |commands| && commands[i] == c && IsLast(commands, i) {
        var i :| 0 <= i < |commands| && commands[i] == c && IsLast(commands, i);
        if i > 0 {
          assert rest[i - 1] == c && IsLast(rest, i - 1);
        }
      }
      if exists i :: 0 <= i < |rest| && rest[i] == c && IsLast(rest, i) {
        var i :| 0 <= i < |rest| && rest[i] == c && IsLast(rest, i);
        assert commands[i + 1] == c && IsLast(commands, i + 1);
      }
    }
  }

  /** The position of the last command of type `t`, or -1 when there is none. */
  function LastIndex(commands: seq<Command>, t: string): (r: int)
    ensures -1 <= r < |commands|
    ensures r == -1 <==> t !in Types(commands)
    ensures r >= 0 ==> commands[r].0 == t && forall j :: r < j < |commands| ==> commands[j].0 != t
  {
    if commands == [] then -1
    else if commands[|commands| - 1].0 == t then |commands| - 1
    else
      var init := commands[..|commands| - 1];
      var r := LastIndex(init, t);
      assert forall c :: c in commands ==> c in init || c == commands[|commands| - 1];
      assert forall c :: c in init ==> c in commands;
      r
  }

  /** Dropping the first command shifts the last position of every type that occurs after it. */
  lemma LastIndexTail(commands: seq<Command>, t: string)
    requires commands != [] && t in Types(commands[1..])
    ensures LastIndex(commands, t) == LastIndex(commands[1..], t) + 1
  {
    var rest := commands[1..];
    var k := LastIndex(rest, t);
    var r := LastIndex(commands, t);
    assert commands[k + 1] == rest[k];
  }

  /** `kept` lists its types in the order of their last positions in `commands`. */
  predicate KeptInOrder(commands: seq<Command>, kept: seq<Command>) {
    forall p, q :: 0 <= p < q < |kept| ==> LastIndex(commands, kept[p].0) < LastIndex(commands, kept[q].0)
  }

  /** The kept commands stand in the order of their types' last positions in the input. */
  lemma {:induction false} LastOfTypeOrder(commands: seq<Command>)
    ensures KeptInOrder(commands, LastOfType(commands))
  {
    if commands != [] {
      var rest := commands[1..];
      LastOfTypeOrder(rest);
      LastOfTypeTypes(rest);
      ShiftKept(commands, LastOfType(rest));
      if commands[0].0 !in Types(rest) {
        PrependKept(commands, LastOfType(rest));
      }
    }
  }

  /** An order of types after the first command is kept when the first command is put back. */
  lemma ShiftKept(commands: seq<Command>, kept: seq<Command>)
    requires commands != [] && KeptInOrder(commands[1..], kept)
    requires Types(kept) <= Types(commands[1..])
    ensures KeptInOrder(commands, kept)
  {
    forall p | 0 <= p < |kept|
      ensures LastIndex(commands, kept[p].0) == LastIndex(commands[1..], kept[p].0) + 1
    {
      assert kept[p] in kept;
      LastIndexTail(commands, kept[p].0);
    }
  }

  /** A first command whose type does not recur comes before every later type. */
  lemma PrependKept(commands: seq<Command>, kept: seq<Command>)
    requires commands != [] && commands[0].0 !in Types(commands[1..])
    requires KeptInOrder(commands, kept) && Types(kept) <= Types(commands[1..])
    ensures KeptInOrder(commands, [commands[0]] + kept)
  {
    var r := [commands[0]] + kept;
    assert commands[0] in commands;
    assert LastIndex(commands, commands[0].0) == 0;
    forall p, q | 0 <= p < q < |r|
      ensures LastIndex(commands, r[p].0) < LastIndex(commands, r[q].0)
    {
      assert r[q] == kept[q - 1] && r[q] in kept;
      var t := r[q].0;
      assert t in Types(commands[1..]);
      var d :| d in commands[1..] && d.0 == t;
      assert d in commands;
      assert t != commands[0].0;
      if p > 0 {
        assert r[p] == kept[p - 1];
      }
    }
  }

  /** If every `loadImage` is immediately followed by a camera pose, every kept `loadImage` is followed by a kept camera pose. */
  lemma {:induction false} KeptLoadFollowedByPose(commands: seq<Command>)
    requires PoseAfterEachLoad(commands)
    ensures PoseLaterThanEachLoad(LastOfType(commands))
  {
    if commands != [] {
      var rest := commands[1..];
      assert PoseAfterEachLoad(rest) by {
        forall i | 0 <= i < |rest| && rest[i].0 == "loadImage"
          ensures i + 1 < |rest| && rest[i + 1].0 == "cameraPose"
        {
          assert commands[i + 1] == rest[i];
        }
      }
      KeptLoadFollowedByPose(rest);
      if commands[0].0 !in Types(rest) {
        if commands[0].0 == "loadImage" {
          assert rest[0] in rest;
          LastOfTypeTypes(rest);
        }
        PrependPoseLater(commands[0], LastOfType(rest));
        assert LastOfType(commands) == [commands[0]] + LastOfType(rest);
      } else {
        assert LastOfType(commands) == LastOfType(rest);
      }
    }
  }

  /** Putting a command in front keeps every load followed by a pose, when a load in front has a pose after it. */
  lemma PrependPoseLater(command: Command, kept: seq<Command>)
    requires PoseLaterThanEachLoad(kept)
    requires command.0 == "loadImage" ==> "cameraPose" in Types(kept)
    ensures PoseLaterThanEachLoad([command] + kept)
  {
    var r := [command] + kept;
    forall p | 0 <= p < |r| && r[p].0 == "loadImage"
      ensures exists q :: p < q < |r| && r[q].0 == "cameraPose"
    {
      if p == 0 {
        var d :| d in kept && d.0 == "cameraPose";
        var k :| 0 <= k < |kept| && kept[k] == d;
        assert r[k + 1].0 == "cameraPose";
      } else {
        assert kept[p - 1] == r[p];
        var q' :| p - 1 < q' < |kept| && kept[q'].0 == "cameraPose";
        assert r[q' + 1].0 == "cameraPose";
      }
    }
  }

  /**
   * `commandSender`: the staged changes translated, each `loadImage`
   * followed by the camera pose, and reduced to the last command of each
   * type; an error when a translation throws.
   */
  function SendCommands(commands: RemoteMachine.Entries, context: SenderContext): (r: Result<seq<Command>>)
    requires HasKey(context.rendererState, "cameraPose")
    ensures r.Err? <==> TranslateAll(commands, context).Err?
  {
    match TranslateAll(commands, context)
    case Err(msg) => Err(msg)
    case Ok(translated) => Ok(Dedupe(AddPoses(translated, context), [], {}))
  }

  /**
   * What reaches the renderer: one command per type, the last of that type
   * in the translated batch, and a `loadImage` is always followed by a
   * camera pose.
   */
  lemma SentCommands(commands: RemoteMachine.Entries, context: SenderContext)
    requires HasKey(context.rendererState, "cameraPose")
    requires SendCommands(commands, context).Ok?
    ensures var expanded := AddPoses(TranslateAll(commands, context).value, context);
      var sent := SendCommands(commands, context).value;
      sent == LastOfType(expanded) &&
      Types(sent) == Types(expanded) &&
      (forall p, q :: 0 <= p < q < |sent| ==> sent[p].0 != sent[q].0) &&
      KeptInOrder(expanded, sent) &&
      PoseLaterThanEachLoad(sent)
  {
    var expanded := AddPoses(TranslateAll(commands, context).value, context);
    assert Types([]) == {};
    DedupeIsLastOfType(expanded, [], {});
    assert expanded + [] == expanded;
    LastOfTypeTypes(expanded);
    LastOfTypeUnique(expanded);
    LastOfTypeOrder(expanded);
    KeptLoadFollowedByPose(expanded);
  }
}
