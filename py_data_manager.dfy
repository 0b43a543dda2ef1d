// packages/viewer/python/itkviewer/data_manager.py: the data manager's
// lifecycle machine (idle, loading, running, shutting down), written with the
// python-statemachine library, and the configuration it keeps.
module PyDataManager {
  import opened JsCommon
  import ViewerModel

  /** The four states shared by the data manager and the viewer machines. */
  datatype MachineState = Idle | Loading | Running | ShuttingDown

  /** The transition events `load`, `run` and `shutdown`. */
  datatype Transition = Load | Run | Shutdown

  /** The outcome of sending an event: done, or `TransitionNotAllowed` raised. */
  datatype Outcome = Done | NotAllowed(event: string, state: MachineState)

  function EventName(t: Transition): string {
    match t
    case Load => "load"
    case Run => "run"
    case Shutdown => "shutdown"
  }

  /** The transition table: `idle.to(loading)`, `loading.to(running)`, `running.to(shutting_down)`. */
  function Next(s: MachineState, t: Transition): Option<MachineState> {
    match (s, t)
    case (Idle, Load) => Some(Loading)
    case (Loading, Run) => Some(Running)
    case (Running, Shutdown) => Some(ShuttingDown)
    case _ => None
  }

  /** How far along the lifecycle a state is. */
  function Rank(s: MachineState): nat {
    match s
    case Idle => 0
    case Loading => 1
    case Running => 2
    case ShuttingDown => 3
  }

  /**
   * The table has exactly three edges, each one step forward, so no state is
   * ever re-entered and shutting down is final.
   */
  lemma NextOneStepForward(s: MachineState, t: Transition)
    ensures Next(s, t).Some? ==> Rank(Next(s, t).value) == Rank(s) + 1
    ensures Next(s, t).Some? <==> (s, t) in {(Idle, Load), (Loading, Run), (Running, Shutdown)}
    ensures Next(ShuttingDown, t).None?
  {
  }

  /** The number of successful transitions is the rank of the state reached. */
  function Replay(s: MachineState, ts: seq<Transition>): (r: MachineState)
    decreases |ts|
  {
    if ts == [] then s
    else match Next(s, ts[0])
      case Some(n) => Replay(n, ts[1..])
      case None => Replay(s, ts[1..])
  }

  lemma {:induction false} ReplayNeverBack(s: MachineState, ts: seq<Transition>)
    ensures Rank(Replay(s, ts)) >= Rank(s)
    ensures Rank(Replay(s, ts)) <= Rank(s) + |ts|
    decreases |ts|
  {
    if ts != [] {
      NextOneStepForward(s, ts[0]);
      match Next(s, ts[0])
      case Some(n) => ReplayNeverBack(n, ts[1..]);
      case None => ReplayNeverBack(s, ts[1..]);
    }
  }

  class DataManagerMachine {
    var state: MachineState
    /** `self.data_manager`; `None` while the attribute was never set. */
    var dataManager: Option<ViewerModel.DataManager>

    /** A configuration is loaded only when one is passed. */
    constructor (config: Option<ViewerModel.DataManager>)
      ensures state == Idle && dataManager == config
    {
      state := Idle;
      dataManager := config;
    }

    /**
     * Sends `load`, `run` or `shutdown`: the state moves along the table, or
     * `TransitionNotAllowed` is raised and the state stays.
     */
    method Fire(t: Transition) returns (o: Outcome)
      modifies this
      ensures Next(old(state), t).Some? ==> o == Done && state == Next(old(state), t).value
      ensures Next(old(state), t).None? ==> o == NotAllowed(EventName(t), old(state)) && state == old(state)
      ensures dataManager == old(dataManager)
    {
      match Next(state, t)
      case Some(n) =>
        state := n;
        o := Done;
      case None =>
        o := NotAllowed(EventName(t), state);
    }

    /** `send(event)` by name: the machine declares no event besides its three transitions. */
    method Send(event: string) returns (o: Outcome)
      modifies this
      ensures event !in {"load", "run", "shutdown"} ==>
        o == NotAllowed(event, old(state)) && state == old(state)
      ensures dataManager == old(dataManager)
    {
      if event == "load" {
        o := Fire(Load);
      } else if event == "run" {
        o := Fire(Run);
      } else if event == "shutdown" {
        o := Fire(Shutdown);
      } else {
        o := NotAllowed(event, state);
      }
    }

    /** The `config` getter: always an empty mapping, whatever was loaded. */
    function Config(): (c: seq<(string, string)>)
      ensures c == []
    {
      []
    }

    /** `load_config` (also the `config` setter): the configuration is stored. */
    method LoadConfig(config: ViewerModel.DataManager)
      modifies this
      ensures dataManager == Some(config) && state == old(state)
    {
      dataManager := Some(config);
    }
  }
}
