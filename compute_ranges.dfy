// packages/io/src/analyze/ComputeRanges.worker.js: one worker's share of the
// data-range computation. The pixel values are cut into `numberOfSplits`
// contiguous splits; the worker walks its split and hands value i to the
// range helper of component `i % numberOfComponents`. A range helper is
// modelled by the list of values handed to it, and its `getRange` is a
// parameter of the model.
module ComputeRanges {
  import opened JsCommon

  /** `Math.floor(values.length / numberOfSplits) * split`. */
  function SplitStart(n: nat, numberOfSplits: nat, split: nat): nat
    requires numberOfSplits > 0
  {
    (n / numberOfSplits) * split
  }

  /** The last split runs to the end of the values; every other one is as long as the first. */
  function SplitEnd(n: nat, numberOfSplits: nat, split: nat): (end: nat)
    requires numberOfSplits > 0 && split < numberOfSplits
    ensures SplitStart(n, numberOfSplits, split) <= end <= n
  {
    var q := n / numberOfSplits;
    assert q * numberOfSplits <= n;
    MulMono(q, split + 1, numberOfSplits);
    MulMono(q, split, split + 1);
    if split == numberOfSplits - 1 then n else q * (split + 1)
  }

  /** The first split starts at 0, the last ends at the end, and each next split starts where the previous one ends. */
  lemma SplitsChain(n: nat, numberOfSplits: nat, split: nat)
    requires numberOfSplits > 0 && split < numberOfSplits
    ensures split == 0 ==> SplitStart(n, numberOfSplits, split) == 0
    ensures split == numberOfSplits - 1 ==> SplitEnd(n, numberOfSplits, split) == n
    ensures split + 1 < numberOfSplits ==> SplitEnd(n, numberOfSplits, split) == SplitStart(n, numberOfSplits, split + 1)
  {
  }

  lemma MulMono(q: nat, a: nat, b: nat)
    requires a <= b
    ensures q * a <= q * b
  {
  }

  /** The splits cover the values without overlap: every position lies in exactly one of them. */
  lemma SplitsPartition(n: nat, numberOfSplits: nat, i: nat)
    requires numberOfSplits > 0 && i < n
    ensures exists s :: 0 <= s < numberOfSplits && SplitStart(n, numberOfSplits, s) <= i < SplitEnd(n, numberOfSplits, s)
    ensures forall s, t ::
      (0 <= s < numberOfSplits && 0 <= t < numberOfSplits &&
       SplitStart(n, numberOfSplits, s) <= i < SplitEnd(n, numberOfSplits, s) &&
       SplitStart(n, numberOfSplits, t) <= i < SplitEnd(n, numberOfSplits, t)) ==> s == t
  {
    var s := SplitContaining(n, numberOfSplits, i);
    forall s, t | 0 <= s < numberOfSplits && 0 <= t < numberOfSplits &&
      SplitStart(n, numberOfSplits, s) <= i < SplitEnd(n, numberOfSplits, s) &&
      SplitStart(n, numberOfSplits, t) <= i < SplitEnd(n, numberOfSplits, t)
      ensures s == t
    {
      if s < t {
        SplitsOrdered(n, numberOfSplits, s, t);
      } else if t < s {
        SplitsOrdered(n, numberOfSplits, t, s);
      }
    }
  }

  /** The split a position falls in: the last one past its start, otherwise the position divided by the split length. */
  lemma SplitContaining(n: nat, numberOfSplits: nat, i: nat) returns (s: nat)
    requires numberOfSplits > 0 && i < n
    ensures s < numberOfSplits && SplitStart(n, numberOfSplits, s) <= i < SplitEnd(n, numberOfSplits, s)
  {
    var q := n / numberOfSplits;
    var last := numberOfSplits - 1;
    if i >= q * last {
      s := last;
    } else {
      assert q > 0;
      s := i / q;
      assert q * s <= i < q * (s + 1) by {
        assert i == q * s + i % q && 0 <= i % q < q;
      }
      if s >= last {
        MulMono(q, last, s);
      }
    }
  }

  /** An earlier split ends no later than a later one starts. */
  lemma SplitsOrdered(n: nat, numberOfSplits: nat, s: nat, t: nat)
    requires s < t < numberOfSplits
    ensures SplitEnd(n, numberOfSplits, s) <= SplitStart(n, numberOfSplits, t)
  {
    MulMono(n / numberOfSplits, s + 1, t);
  }

  /** The values at positions `lo .. hi-1` whose position modulo `k` is `c`, in order. */
  function Assigned<V>(values: seq<V>, lo: nat, hi: nat, c: nat, k: nat): seq<V>
    requires k > 0 && hi <= |values|
    decreases hi
  {
    if hi <= lo then []
    else Assigned(values, lo, hi - 1, c, k) + (if (hi - 1) % k == c then [values[hi - 1]] else [])
  }

  /** A value reaches a helper exactly when its position belongs to that helper's component. */
  lemma {:induction false} AssignedMembership<V>(values: seq<V>, lo: nat, hi: nat, c: nat, k: nat)
    requires k > 0 && hi <= |values|
    ensures forall x :: x in Assigned(values, lo, hi, c, k) <==>
      exists i :: lo <= i < hi && i % k == c && values[i] == x
    decreases hi
  {
    if hi > lo {
      AssignedMembership(values, lo, hi - 1, c, k);
    }
  }

  /** Sum of the helper log lengths of components `0 .. m-1`. */
  function TotalAssigned<V>(values: seq<V>, lo: nat, hi: nat, k: nat, m: nat): nat
    requires k > 0 && hi <= |values|
  {
    if m == 0 then 0 else TotalAssigned(values, lo, hi, k, m - 1) + |Assigned(values, lo, hi, m - 1, k)|
  }

  /** Nothing is lost or duplicated: the helpers together receive each value of the split once. */
  lemma {:induction false} TotalIsSplitLength<V>(values: seq<V>, lo: nat, hi: nat, k: nat)
    requires k > 0 && lo <= hi <= |values|
    ensures TotalAssigned(values, lo, hi, k, k) == hi - lo
    decreases hi
  {
    if hi > lo {
      TotalIsSplitLength(values, lo, hi - 1, k);
      TotalStep(values, lo, hi, k, k);
    } else {
      TotalEmpty(values, lo, hi, k, k);
    }
  }

  lemma {:induction false} TotalEmpty<V>(values: seq<V>, lo: nat, hi: nat, k: nat, m: nat)
    requires k > 0 && hi <= lo && hi <= |values|
    ensures TotalAssigned(values, lo, hi, k, m) == 0
  {
    if m > 0 {
      TotalEmpty(values, lo, hi, k, m - 1);
    }
  }

  /** Extending the split by one position adds one value to the total over components `0 .. m-1` exactly when its component is among them. */
  lemma {:induction false} TotalStep<V>(values: seq<V>, lo: nat, hi: nat, k: nat, m: nat)
    requires k > 0 && lo < hi <= |values| && m <= k
    ensures TotalAssigned(values, lo, hi, k, m) ==
      TotalAssigned(values, lo, hi - 1, k, m) + (if (hi - 1) % k < m then 1 else 0)
  {
    if m > 0 {
      TotalStep(values, lo, hi, k, m - 1);
    }
  }

  /** The worker's answer: the helpers' ranges, one per component, or the error JavaScript raises. */
  function RangesOf<V, R>(values: seq<V>, lo: nat, hi: nat, k: nat, getRange: seq<V> -> R): (r: Result<seq<R>>)
    requires hi <= |values|
    ensures r.Err? <==> k == 0 && lo < hi
    ensures r.Ok? ==> |r.value| == k
  {
    if k == 0 then
      if lo < hi then Err("TypeError: Cannot read properties of undefined (reading 'add')") else Ok([])
    else Ok(seq(k, c requires 0 <= c < k => getRange(Assigned(values, lo, hi, c, k))))
  }

  /**
   * `computeRanges({split, numberOfSplits, values, numberOfComponents})`:
   * one helper per component collects the values of this split whose
   * position belongs to its component, and the worker returns each helper's
   * range. Without components the first value has no helper to go to.
   */
  method ComputeRangesOf<V, R>(split: nat, numberOfSplits: nat, values: seq<V>, numberOfComponents: nat,
                               getRange: seq<V> -> R) returns (r: Result<seq<R>>)
    requires numberOfSplits > 0 && split < numberOfSplits
    ensures r == RangesOf(values, SplitStart(|values|, numberOfSplits, split), SplitEnd(|values|, numberOfSplits, split), numberOfComponents, getRange)
  {
    var start := SplitStart(|values|, numberOfSplits, split);
    var end := SplitEnd(|values|, numberOfSplits, split);
    if numberOfComponents == 0 {
      if start < end {
        return Err("TypeError: Cannot read properties of undefined (reading 'add')");
      }
      return Ok([]);
    }
    var helpers := new seq<V>[numberOfComponents](_ => []);
    var i := start;
    while i < end
      invariant start <= i <= end
      invariant forall c :: 0 <= c < numberOfComponents ==> helpers[c] == Assigned(values, start, i, c, numberOfComponents)
    {
      var c := i % numberOfComponents;
      helpers[c] := helpers[c] + [values[i]];
      i := i + 1;
    }
    var ranges := seq(numberOfComponents, c requires 0 <= c < numberOfComponents reads helpers => getRange(helpers[c]));
    var expected := RangesOf(values, start, end, numberOfComponents, getRange).value;
    assert forall c :: 0 <= c < numberOfComponents ==> ranges[c] == getRange(Assigned(values, start, end, c, numberOfComponents)) == expected[c];
    assert ranges == expected;
    r := Ok(ranges);
  }
}
