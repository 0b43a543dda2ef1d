// packages/transfer-function-editor/lib/utils.ts: `createOrGates`, a shared
// list of flags whose OR is handed to one function after every change.
module OrGates {

  /** `gates.some((flag) => flag)`: true exactly when some flag is set. */
  function AnyOn(gates: seq<bool>): (on: bool)
    ensures on <==> exists i :: 0 <= i < |gates| && gates[i]
  {
    if gates == [] then false
    else gates[0] || AnyOn(gates[1..])
  }

  /**
   * What `createOrGates(gatedFunc)` closes over: the flags, and the argument
   * of every call to `gatedFunc` so far, oldest first.
   */
  class OrGates {
    var gates: seq<bool>
    var calls: seq<bool>

    constructor ()
      ensures gates == [] && calls == []
    {
      gates, calls := [], [];
    }

    /** `updateFunc`: the gated function receives the OR of all flags. */
    method Update()
      modifies this
      ensures gates == old(gates)
      ensures calls == old(calls) + [AnyOn(gates)]
    {
      calls := calls + [AnyOn(gates)];
    }

    /**
     * `createGate`: the new gate claims the next index, starts switched off
     * through its own setter, and that index is what the setter closes over.
     */
    method CreateGate() returns (index: nat)
      modifies this
      ensures index == |old(gates)|
      ensures gates == old(gates) + [false]
      ensures calls == old(calls) + [AnyOn(gates)]
    {
      index := |gates|;
      gates := gates + [false];
      Update();
    }

    /** The setter of gate `index`: only that flag changes, then the OR is passed on. */
    method SetGate(index: nat, isOn: bool)
      requires index < |gates|
      modifies this
      ensures gates == old(gates)[index := isOn]
      ensures calls == old(calls) + [AnyOn(gates)]
    {
      gates := gates[index := isOn];
      Update();
    }
  }

  /** The OR after one setter call: the new flag, or any other flag left on. */
  lemma {:induction false} SetGateOn(gates: seq<bool>, index: nat, isOn: bool)
    requires index < |gates|
    ensures AnyOn(gates[index := isOn])
        <==> isOn || exists j :: 0 <= j < |gates| && j != index && gates[j]
  {
    var g := gates[index := isOn];
    if isOn {
      assert g[index];
    } else {
      forall j | 0 <= j < |gates| && j != index ensures g[j] == gates[j] {
      }
    }
  }
}
