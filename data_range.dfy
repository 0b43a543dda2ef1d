// packages/transfer-function-editor/lib/DataRange.ts: `createDataRange`, the
// data range the editor's normalised [0, 1] axis stands for.
module DataRange {

  class DataRange {
    /** The captured `range` variable, `[start, end]`. */
    var range: (real, real)
    /** The `detail` of every 'updated' event dispatched so far. */
    var dispatched: seq<(real, real)>

    /** The range starts as [0, 1]. */
    constructor ()
      ensures range == (0.0, 1.0) && dispatched == []
    {
      range, dispatched := (0.0, 1.0), [];
    }

    /** `setRange`: the range is replaced and dispatched with 'updated'. */
    method SetRange(newRange: (real, real))
      modifies this
      ensures range == newRange
      ensures dispatched == old(dispatched) + [newRange]
    {
      range := newRange;
      dispatched := dispatched + [range];
    }

    /**
     * `toDataSpace`: the affine map taking 0 to the start and 1 to the end;
     * on the initial range it is the identity.
     */
    function ToDataSpace(x: real): (d: real)
      reads this
      ensures x == 0.0 ==> d == range.0
      ensures x == 1.0 ==> d == range.1
      ensures range == (0.0, 1.0) ==> d == x
      ensures range.0 != range.1 ==> (d - range.0) / (range.1 - range.0) == x
    {
      var (start, end) := range;
      var width := end - start;
      x * width + start
    }

    /** On an ascending range the map keeps the order of its arguments. */
    lemma ToDataSpaceMonotone(x: real, y: real)
      requires range.0 <= range.1 && x <= y
      ensures ToDataSpace(x) <= ToDataSpace(y)
    {
      assert (y - x) * (range.1 - range.0) >= 0.0;
    }
  }
}
