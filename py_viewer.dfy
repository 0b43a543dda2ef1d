// packages/viewer/python/itkviewer/viewer.py: the viewer's lifecycle machine,
// which drives its data manager's machine through the same states from its
// entry hooks.
module PyViewer {
  import opened JsCommon
  import ViewerModel
  import opened PyDataManager

  class ViewerMachine {
    var state: MachineState
    var viewer: ViewerModel.Viewer
    var dataManagerMachine: DataManagerMachine

    /** The data manager machine was built from the viewer's own data manager. */
    ghost predicate Built()
      reads this, dataManagerMachine
    {
      dataManagerMachine.dataManager == viewer.dataManager
    }

    /** `ViewerMachine(config)`: the given viewer, or a default one, and a fresh data manager machine. */
    constructor (config: Option<ViewerModel.Viewer>)
      ensures state == Idle && fresh(dataManagerMachine)
      ensures viewer == if config.Some? then config.value else ViewerModel.DefaultViewer()
      ensures dataManagerMachine.state == Idle && Built()
    {
      var v := if config.Some? then config.value else ViewerModel.DefaultViewer();
      state := Idle;
      viewer := v;
      dataManagerMachine := new DataManagerMachine(v.dataManager);
    }

    /** The `config` setter: the viewer is replaced and a new data manager machine built from it. */
    method SetConfig(config: ViewerModel.Viewer)
      modifies this
      ensures viewer == config && state == old(state)
      ensures fresh(dataManagerMachine) && dataManagerMachine.state == Idle && Built()
    {
      viewer := config;
      dataManagerMachine := new DataManagerMachine(config.dataManager);
    }

    /**
     * The `config` getter: the data manager's `config` (always `{}`) is
     * assigned to `viewer.dataManager`, which validation turns into a default
     * `DataManager`, and the viewer is returned.
     */
    method GetConfig() returns (v: ViewerModel.Viewer)
      modifies this
      ensures viewer == old(viewer).(dataManager := Some(ViewerModel.DefaultDataManager()))
      ensures v == viewer && viewer.dataManager.value.images == []
      ensures state == old(state) && dataManagerMachine == old(dataManagerMachine)
    {
      assert dataManagerMachine.Config() == [];
      viewer := viewer.(dataManager := Some(ViewerModel.DefaultDataManager()));
      v := viewer;
    }

    /**
     * Sends `load`, `run` or `shutdown`. The library sets the new state before
     * the entry hook runs, so a hook that raises leaves the viewer in the new
     * state: entering loading sends `load` to the data manager, entering
     * running sends `run`, and shutting down has no hook.
     */
    method Fire(t: Transition) returns (o: Outcome)
      modifies this, dataManagerMachine
      ensures dataManagerMachine == old(dataManagerMachine) && viewer == old(viewer)
      ensures Next(old(state), t).None? ==>
        o == NotAllowed(EventName(t), old(state)) && state == old(state)
        && dataManagerMachine.state == old(dataManagerMachine.state)
      ensures Next(old(state), t).Some? ==> state == Next(old(state), t).value
      ensures Next(old(state), t).Some? && t != Shutdown ==>
        var inner := Next(old(dataManagerMachine.state), t);
        (inner.Some? ==> o == Done && dataManagerMachine.state == inner.value) &&
        (inner.None? ==> o == NotAllowed(EventName(t), old(dataManagerMachine.state))
                         && dataManagerMachine.state == old(dataManagerMachine.state))
      ensures Next(old(state), t).Some? && t == Shutdown ==>
        o == Done && dataManagerMachine.state == old(dataManagerMachine.state)
    {
      match Next(state, t)
      case None =>
        o := NotAllowed(EventName(t), state);
      case Some(n) =>
        state := n;
        if t == Shutdown {
          o := Done;
        } else {
          o := dataManagerMachine.Fire(t);
        }
    }

    /**
     * `SetImage`: allowed only while running, where it stays; its action sends
     * 'SetImage' to the data manager, which declares no such event and raises.
     */
    method SetImage() returns (o: Outcome)
      modifies this, dataManagerMachine
      ensures state == old(state) && viewer == old(viewer)
      ensures dataManagerMachine == old(dataManagerMachine)
      ensures dataManagerMachine.state == old(dataManagerMachine.state)
      ensures old(state) != Running ==> o == NotAllowed("SetImage", old(state))
      ensures old(state) == Running ==> o == NotAllowed("SetImage", old(dataManagerMachine.state))
    {
      if state != Running {
        return NotAllowed("SetImage", state);
      }
      o := dataManagerMachine.Send("SetImage");
    }
  }

  /**
   * Driven from a new viewer, the two machines stay in step through loading
   * and running, and shut down with the data manager left running.
   */
  method Lifecycle(config: Option<ViewerModel.Viewer>) returns (vm: ViewerMachine)
    ensures vm.state == ShuttingDown && vm.dataManagerMachine.state == Running
  {
    vm := new ViewerMachine(config);
    var o := vm.Fire(Load);
    assert vm.state == Loading && vm.dataManagerMachine.state == Loading;
    o := vm.Fire(Run);
    assert vm.state == Running && vm.dataManagerMachine.state == Running;
    o := vm.Fire(Shutdown);
  }
}
