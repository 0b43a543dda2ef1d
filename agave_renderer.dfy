// packages/agave-renderer/itk_viewer_agave_renderer/renderer.py: the Agave
// renderer service's event dispatch, with a policy for event types it does not
// know. The Agave client is reduced to the log of calls made on it.
module AgaveRenderer {
  import opened JsCommon

  /** How `handle_unknown_event` reacts to an event type it does not know. */
  datatype UnknownEventAction = Error | Warning | Ignore

  /** An event payload, as it arrives decoded from JSON. */
  datatype Json =
    | JNull
    | JBool(b: bool)
    | JNum(n: real)
    | JStr(s: string)
    | JList(items: seq<Json>)
    | JDict(entries: seq<(string, Json)>)

  /** One call made on the Agave client, with the arguments it received. */
  datatype DeviceCall =
    | SetResolution(width: int, height: int)
    | Density(value: Json)
    | Eye(x: Json, y: Json, z: Json)
    | Up(x: Json, y: Json, z: Json)
    | Target(x: Json, y: Json, z: Json)
    | RenderIterations(value: Json)

  /**
   * What handling events produced: the client calls in order, the lines
   * printed, and the message of the exception that ended the handling, if one
   * was raised.
   */
  datatype Effects = Effects(calls: seq<DeviceCall>, printed: seq<string>, raised: Option<string>)

  const NoEffects := Effects([], [], None)

  /** The message both the raised exception and the printed warning carry. */
  function UnknownMessage(eventType: string): string {
    "Unknown event type: " + eventType
  }

  /** `payload[key]`: a dictionary entry, a KeyError, or a TypeError for a non-dictionary. */
  function Subscript(payload: Json, key: string): (r: Result<Json>)
    ensures r.Ok? <==> payload.JDict? && HasKey(payload.entries, key)
    ensures r.Ok? ==> Get(payload.entries, key) == Some(r.value)
  {
    match payload
    case JDict(entries) =>
      (match Get(entries, key)
       case Some(v) => Ok(v)
       case None => Err("KeyError: '" + key + "'"))
    case _ => Err("TypeError: object is not subscriptable")
  }

  /**
   * `v[0], v[1], v[2]`: the first three items of a list, or the first three
   * one-character strings of a string; shorter ones raise IndexError, other
   * values raise when indexed by 0.
   */
  function FirstThree(v: Json): (r: Result<(Json, Json, Json)>)
    ensures v.JList? && |v.items| >= 3 ==> r == Ok((v.items[0], v.items[1], v.items[2]))
    ensures v.JList? && |v.items| < 3 ==> r.Err?
    ensures !v.JList? && !v.JStr? ==> r.Err?
  {
    match v
    case JList(items) =>
      if |items| >= 3 then Ok((items[0], items[1], items[2])) else Err("IndexError: list index out of range")
    case JStr(s) =>
      if |s| >= 3 then Ok((JStr([s[0]]), JStr([s[1]]), JStr([s[2]]))) else Err("IndexError: string index out of range")
    case JDict(_) => Err("KeyError: 0")
    case _ => Err("TypeError: object is not subscriptable")
  }

  /** The calls made on the client, in order, followed by what `b` did after `a`. */
  function Then(a: Effects, b: Effects): Effects
    requires a.raised.None?
  {
    Effects(a.calls + b.calls, a.printed + b.printed, b.raised)
  }

  /**
   * The 'cameraPose' case: eye, up and target are looked up and sent in that
   * order, so a missing or short entry raises after the earlier ones were sent.
   */
  function CameraPose(payload: Json): (e: Effects)
    ensures e.printed == [] && |e.calls| <= 3
  {
    match Subscript(payload, "eye")
    case Err(m) => Effects([], [], Some(m))
    case Ok(eye) =>
      match FirstThree(eye)
      case Err(m) => Effects([], [], Some(m))
      case Ok(e3) =>
        var sentEye := Eye(e3.0, e3.1, e3.2);
        match Subscript(payload, "up")
        case Err(m) => Effects([sentEye], [], Some(m))
        case Ok(up) =>
          match FirstThree(up)
          case Err(m) => Effects([sentEye], [], Some(m))
          case Ok(u3) =>
            var sentUp := Up(u3.0, u3.1, u3.2);
            match Subscript(payload, "target")
            case Err(m) => Effects([sentEye, sentUp], [], Some(m))
            case Ok(target) =>
              match FirstThree(target)
              case Err(m) => Effects([sentEye, sentUp], [], Some(m))
              case Ok(t3) => Effects([sentEye, sentUp, Target(t3.0, t3.1, t3.2)], [], None)
  }

  /** The pose is applied whole exactly when all three entries are there and have three coordinates. */
  lemma CameraPoseRaises(payload: Json)
    ensures CameraPose(payload).raised.None? <==>
      forall key | key in ["eye", "up", "target"] ::
        Subscript(payload, key).Ok? && FirstThree(Subscript(payload, key).value).Ok?
    ensures CameraPose(payload).raised.None? ==> |CameraPose(payload).calls| == 3
  {
  }

  /** `handle_unknown_event`: raise, print one warning, or do nothing. */
  function HandleUnknown(action: UnknownEventAction, eventType: string): (e: Effects)
    ensures e.calls == []
    ensures e.raised.Some? <==> action == Error
    ensures e.raised.Some? ==> e.raised.value == UnknownMessage(eventType)
    ensures e.printed == if action == Warning then [UnknownMessage(eventType)] else []
  {
    match action
    case Error => Effects([], [], Some(UnknownMessage(eventType)))
    case Warning => Effects([], [UnknownMessage(eventType)], None)
    case Ignore => NoEffects
  }

  predicate Known(eventType: string) {
    eventType in {"density", "cameraPose", "renderIterations"}
  }

  /** One pass of the loop in `update_renderer`. */
  function HandleEvent(action: UnknownEventAction, eventType: string, payload: Json): Effects {
    match eventType
    case "density" => Effects([Density(payload)], [], None)
    case "cameraPose" => CameraPose(payload)
    case "renderIterations" => Effects([RenderIterations(payload)], [], None)
    case _ => HandleUnknown(action, eventType)
  }

  /** The effects of a run of handled events: one after another, up to the first that raised. */
  function Chain(es: seq<Effects>): (e: Effects)
    ensures es == [] ==> e == NoEffects
  {
    if es == [] then NoEffects
    else if es[0].raised.Some? then es[0]
    else Then(es[0], Chain(es[1..]))
  }

  /** A run is chained as its prefix, then the rest unless the prefix raised. */
  lemma {:induction false} ChainAppend(a: seq<Effects>, b: seq<Effects>)
    ensures Chain(a + b) == if Chain(a).raised.Some? then Chain(a) else Then(Chain(a), Chain(b))
  {
    if a == [] {
      assert a + b == b;
    } else {
      assert (a + b)[0] == a[0] && (a + b)[1..] == a[1..] + b;
      ChainAppend(a[1..], b);
      if a[0].raised.None? {
        var rest := Chain(a[1..]);
        if rest.raised.None? {
          AppendAssoc(a[0].calls, rest.calls, Chain(b).calls);
          AppendAssoc(a[0].printed, rest.printed, Chain(b).printed);
        }
      }
    }
  }

  /** A run grows by one: its effects are added unless the run already raised. */
  lemma ChainStep(hs: seq<Effects>, i: int)
    requires 0 <= i < |hs| && Chain(hs[..i]).raised.None?
    ensures Chain(hs[..i + 1]) == Then(Chain(hs[..i]), hs[i])
  {
    ChainAppend(hs[..i], [hs[i]]);
    assert hs[..i] + [hs[i]] == hs[..i + 1];
    assert [hs[i]][1..] == [];
    if hs[i].raised.None? {
      assert Then(hs[i], NoEffects) == hs[i];
    }
  }

  /** Once a prefix raised, the rest of the run changes nothing. */
  lemma ChainStops(hs: seq<Effects>, i: int)
    requires 0 <= i <= |hs| && Chain(hs[..i]).raised.Some?
    ensures Chain(hs) == Chain(hs[..i])
  {
    ChainAppend(hs[..i], hs[i..]);
    assert hs[..i] + hs[i..] == hs;
  }

  /** Each event handled on its own. */
  function Handled(action: UnknownEventAction, events: seq<(string, Json)>): (r: seq<Effects>)
    ensures |r| == |events|
    ensures forall i :: 0 <= i < |events| ==> r[i] == HandleEvent(action, events[i].0, events[i].1)
  {
    seq(|events|, i requires 0 <= i < |events| => HandleEvent(action, events[i].0, events[i].1))
  }

  /** `update_renderer` on a whole list: events one at a time until one raises. */
  function Batch(action: UnknownEventAction, events: seq<(string, Json)>): Effects {
    Chain(Handled(action, events))
  }

  /** The events are handled in list order: a batch is its prefix, then the rest unless the prefix raised. */
  lemma BatchAppend(action: UnknownEventAction, a: seq<(string, Json)>, b: seq<(string, Json)>)
    ensures Batch(action, a + b) ==
      if Batch(action, a).raised.Some? then Batch(action, a) else Then(Batch(action, a), Batch(action, b))
  {
    HandledAppend(action, a, b);
    ChainAppend(Handled(action, a), Handled(action, b));
  }

  lemma HandledAppend(action: UnknownEventAction, a: seq<(string, Json)>, b: seq<(string, Json)>)
    ensures Handled(action, a + b) == Handled(action, a) + Handled(action, b)
  {
    var h, ha, hb := Handled(action, a + b), Handled(action, a), Handled(action, b);
    forall k | 0 <= k < |h| ensures h[k] == (ha + hb)[k] {
      if k < |a| {
        assert (a + b)[k] == a[k];
      } else {
        assert (a + b)[k] == b[k - |a|];
      }
    }
  }

  /** The batch grows by one event: its effects are added unless the batch already raised. */
  lemma BatchStep(action: UnknownEventAction, events: seq<(string, Json)>, i: int)
    requires 0 <= i < |events| && Batch(action, events[..i]).raised.None?
    ensures Batch(action, events[..i + 1])
         == Then(Batch(action, events[..i]), HandleEvent(action, events[i].0, events[i].1))
  {
    BatchAppend(action, events[..i], [events[i]]);
    assert events[..i] + [events[i]] == events[..i + 1];
    var e := HandleEvent(action, events[i].0, events[i].1);
    assert Handled(action, [events[i]]) == [e];
    assert [e][1..] == [];
    if e.raised.None? {
      assert Then(e, NoEffects) == e;
    }
  }

  /** Once a prefix raised, the later events change nothing. */
  lemma BatchStops(action: UnknownEventAction, events: seq<(string, Json)>, i: int)
    requires 0 <= i <= |events| && Batch(action, events[..i]).raised.Some?
    ensures Batch(action, events) == Batch(action, events[..i])
  {
    BatchAppend(action, events[..i], events[i..]);
    assert events[..i] + events[i..] == events;
  }

  /**
   * Under the Error policy an unknown event type raises with its name, and no
   * event after it reaches the client.
   */
  lemma UnknownUnderError(events: seq<(string, Json)>, i: int)
    requires 0 <= i < |events| && !Known(events[i].0)
    requires Batch(Error, events[..i]).raised.None?
    ensures Batch(Error, events).raised == Some(UnknownMessage(events[i].0))
    ensures Batch(Error, events) == Batch(Error, events[..i + 1])
  {
    BatchStep(Error, events, i);
    BatchStops(Error, events, i + 1);
  }

  /** Under the other two policies an unknown event type never stops the batch. */
  lemma UnknownOtherwise(action: UnknownEventAction, events: seq<(string, Json)>, i: int)
    requires action != Error && 0 <= i < |events| && !Known(events[i].0)
    requires Batch(action, events[..i]).raised.None?
    ensures Batch(action, events[..i + 1]).raised.None?
    ensures Batch(action, events[..i + 1]).calls == Batch(action, events[..i]).calls
  {
    BatchStep(action, events, i);
  }

  class Renderer {
    var width: int
    var height: int
    var unknownEventAction: UnknownEventAction
    /** Whether `setup` has created the client (`self.agave`). */
    var hasClient: bool
    /** The calls made on the current client, oldest first. */
    var calls: seq<DeviceCall>
    /** The lines printed to standard output, oldest first. */
    var printed: seq<string>

    constructor (width: int := 500, height: int := 400, unknownEventAction: UnknownEventAction := Warning)
      ensures this.width == width && this.height == height
      ensures this.unknownEventAction == unknownEventAction
      ensures !hasClient && calls == [] && printed == []
    {
      this.width, this.height := width, height;
      this.unknownEventAction := unknownEventAction;
      hasClient, calls, printed := false, [], [];
    }

    /** `setup`: a new client, whose resolution is set to the renderer's size. */
    method Setup()
      modifies this
      ensures hasClient && calls == [SetResolution(width, height)]
      ensures width == old(width) && height == old(height) && printed == old(printed)
      ensures unknownEventAction == old(unknownEventAction)
    {
      hasClient := true;
      calls := [SetResolution(width, height)];
    }

    /** `handle_unknown_event`, returning the message of what it raises. */
    method HandleUnknownEvent(eventType: string) returns (raised: Option<string>)
      modifies this
      ensures raised == HandleUnknown(unknownEventAction, eventType).raised
      ensures printed == old(printed) + HandleUnknown(unknownEventAction, eventType).printed
      ensures calls == old(calls) && hasClient == old(hasClient)
      ensures unknownEventAction == old(unknownEventAction)
      ensures width == old(width) && height == old(height)
    {
      match unknownEventAction
      case Error =>
        raised := Some(UnknownMessage(eventType));
      case Warning =>
        printed := printed + [UnknownMessage(eventType)];
        raised := None;
      case Ignore =>
        raised := None;
    }

    /** One pass of the loop in `update_renderer`, returning the message of what it raises. */
    method HandleOne(eventType: string, payload: Json) returns (raised: Option<string>)
      modifies this
      ensures var e := HandleEvent(unknownEventAction, eventType, payload);
        calls == old(calls) + e.calls && printed == old(printed) + e.printed && raised == e.raised
      ensures hasClient == old(hasClient) && unknownEventAction == old(unknownEventAction)
      ensures width == old(width) && height == old(height)
    {
      match eventType
      case "density" =>
        calls := calls + [Density(payload)];
        raised := None;
      case "cameraPose" =>
        raised := SendCameraPose(payload);
      case "renderIterations" =>
        calls := calls + [RenderIterations(payload)];
        raised := None;
      case _ =>
        raised := HandleUnknownEvent(eventType);
    }

    /** The 'cameraPose' case: eye, up and target go to the client one after the other. */
    method SendCameraPose(payload: Json) returns (raised: Option<string>)
      modifies this
      ensures calls == old(calls) + CameraPose(payload).calls
      ensures raised == CameraPose(payload).raised
      ensures printed == old(printed) && hasClient == old(hasClient)
      ensures unknownEventAction == old(unknownEventAction)
      ensures width == old(width) && height == old(height)
    {
      var eye := Subscript(payload, "eye");
      if eye.Err? { return Some(eye.msg); }
      var e3 := FirstThree(eye.value);
      if e3.Err? { return Some(e3.msg); }
      calls := calls + [Eye(e3.value.0, e3.value.1, e3.value.2)];
      var up := Subscript(payload, "up");
      if up.Err? { return Some(up.msg); }
      var u3 := FirstThree(up.value);
      if u3.Err? { return Some(u3.msg); }
      calls := calls + [Up(u3.value.0, u3.value.1, u3.value.2)];
      var target := Subscript(payload, "target");
      if target.Err? { return Some(target.msg); }
      var t3 := FirstThree(target.value);
      if t3.Err? { return Some(t3.msg); }
      calls := calls + [Target(t3.value.0, t3.value.1, t3.value.2)];
      raised := None;
    }

    /** The loop of `update_renderer` at an event, after the earlier events ran without raising. */
    method HandleAt(eventType: string, payload: Json, ghost hs: seq<Effects>, ghost i: int,
                    ghost calls0: seq<DeviceCall>, ghost printed0: seq<string>)
      returns (raised: Option<string>)
      requires 0 <= i < |hs| && hs[i] == HandleEvent(unknownEventAction, eventType, payload)
      requires Chain(hs[..i]).raised.None?
      requires calls == calls0 + Chain(hs[..i]).calls && printed == printed0 + Chain(hs[..i]).printed
      modifies this
      ensures calls == calls0 + Chain(hs[..i + 1]).calls && printed == printed0 + Chain(hs[..i + 1]).printed
      ensures raised == Chain(hs[..i + 1]).raised
      ensures hasClient == old(hasClient) && unknownEventAction == old(unknownEventAction)
      ensures width == old(width) && height == old(height)
    {
      ghost var before := Chain(hs[..i]);
      raised := HandleOne(eventType, payload);
      ChainStep(hs, i);
      AppendAssoc(calls0, before.calls, hs[i].calls);
      AppendAssoc(printed0, before.printed, hs[i].printed);
    }

    /**
     * `update_renderer(events)`: each event in order changes the client or
     * goes to `handle_unknown_event`; the first exception ends the call. Before
     * `setup` the client attribute does not exist yet.
     */
    method UpdateRenderer(events: seq<(string, Json)>) returns (raised: Option<string>)
      modifies this
      ensures !old(hasClient) ==>
        raised == Some("AttributeError: 'Renderer' object has no attribute 'agave'") &&
        calls == old(calls) && printed == old(printed)
      ensures old(hasClient) ==>
        var b := Batch(unknownEventAction, events);
        calls == old(calls) + b.calls && printed == old(printed) + b.printed && raised == b.raised
      ensures hasClient == old(hasClient) && unknownEventAction == old(unknownEventAction)
      ensures width == old(width) && height == old(height)
    {
      if !hasClient {
        return Some("AttributeError: 'Renderer' object has no attribute 'agave'");
      }
      ghost var hs := Handled(unknownEventAction, events);
      var i := 0;
      while i < |events|
        invariant 0 <= i <= |events|
        invariant hasClient && unknownEventAction == old(unknownEventAction)
        invariant width == old(width) && height == old(height)
        invariant Chain(hs[..i]).raised.None?
        invariant calls == old(calls) + Chain(hs[..i]).calls
        invariant printed == old(printed) + Chain(hs[..i]).printed
      {
        var (eventType, payload) := events[i];
        raised := HandleAt(eventType, payload, hs, i, old(calls), old(printed));
        if raised.Some? {
          ChainStops(hs, i + 1);
          assert Batch(unknownEventAction, events) == Chain(hs);
          return;
        }
        i := i + 1;
      }
      assert hs[..i] == hs;
      raised := None;
    }
  }
}
