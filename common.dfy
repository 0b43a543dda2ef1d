// Shared vocabulary for the model: optional values, results carrying the
// message of a thrown exception, JavaScript numbers that may have become
// non-finite, JavaScript's rounding helpers, and insertion-ordered records
// (JavaScript objects with string keys and `Map`s keep their keys in the order
// they were first inserted).
module JsCommon {

  datatype Option<T> = None | Some(value: T)

  /** A computation that either yields a value or raises with a message. */
  datatype Result<T> = Ok(value: T) | Err(msg: string)

  /**
   * A JavaScript number as far as the model needs to follow it: a finite real,
   * or NaN / +Infinity / -Infinity, which every arithmetic step the model
   * performs on them propagates and which are therefore not told apart.
   */
  datatype Num = Fin(r: real) | NonFinite

  /** JavaScript `a / b`: division by zero yields NaN or an infinity. */
  function Div(a: real, b: real): (q: Num)
    ensures q.Fin? <==> b != 0.0
    ensures q.Fin? ==> q.r * b == a
  {
    if b == 0.0 then NonFinite else Fin(a / b)
  }

  /** JavaScript `n * k + c` on a possibly non-finite `n` and finite `k`, `c`. */
  function MulAdd(n: Num, k: real, c: real): (r: Num)
    ensures r.Fin? <==> n.Fin?
    ensures n.Fin? ==> r.r - c == n.r * k
  {
    match n
    case Fin(x) => Fin(x * k + c)
    case NonFinite => NonFinite
  }

  function Min(a: real, b: real): (m: real)
    ensures m <= a && m <= b && (m == a || m == b)
  {
    if a <= b then a else b
  }

  function Max(a: real, b: real): (m: real)
    ensures m >= a && m >= b && (m == a || m == b)
  {
    if a >= b then a else b
  }

  /** `Math.max(lo, Math.min(hi, v))`: the clamp idiom used throughout the viewer. */
  function Clamp(v: real, lo: real, hi: real): (c: real)
    ensures lo <= hi ==> lo <= c <= hi
    ensures lo <= v <= hi ==> c == v
  {
    Max(lo, Min(hi, v))
  }

  /** `Math.floor` on a finite number. */
  function Floor(x: real): (f: int)
    ensures f as real <= x < f as real + 1.0
  {
    x.Floor
  }

  /** `Math.ceil` on a finite number. */
  function Ceil(x: real): (c: int)
    ensures c as real - 1.0 < x <= c as real
  {
    -((-x).Floor)
  }

  /** `Math.round`: halves round towards +Infinity. */
  function Round(x: real): (n: int)
    ensures x - 0.5 < n as real <= x + 0.5
  {
    (x + 0.5).Floor
  }

  /** `Math.round` never decreases when its argument grows. */
  lemma RoundMonotone(x: real, y: real)
    requires x <= y
    ensures Round(x) <= Round(y)
  {
  }

  /**
   * `Math.max(0, Math.min(index, size - 1))`: an index clamped into `size`
   * slots, 0 when there are none.
   */
  function ClampToSize(index: int, size: nat): (r: int)
    ensures 0 <= r && (size > 0 ==> r <= size - 1)
    ensures 0 <= index < size ==> r == index
    ensures size > 0 && index >= size ==> r == size - 1
    ensures index < 0 ==> r == 0
  {
    var upper := if index < size - 1 then index else size - 1;
    if upper < 0 then 0 else upper
  }

  /** Decimal digits of a natural number, as `String(n)` prints it. */
  function NatToString(n: nat): (s: string)
    ensures |s| >= 1
    ensures forall i :: 0 <= i < |s| ==> '0' <= s[i] <= '9'
  {
    var d := [(('0' as int) + n % 10) as char];
    if n < 10 then d else NatToString(n / 10) + d
  }

  /** The value of a string of decimal digits. */
  function DigitsValue(s: string): nat
    requires forall i :: 0 <= i < |s| ==> '0' <= s[i] <= '9'
  {
    if s == [] then 0 else DigitsValue(s[..|s| - 1]) * 10 + (s[|s| - 1] as int - '0' as int)
  }

  /** `Number(String(n)) == n`: printing a count and reading it back gives the count. */
  lemma {:induction false} DigitsValueOfString(n: nat)
    ensures DigitsValue(NatToString(n)) == n
  {
    var s := NatToString(n);
    if n >= 10 {
      assert s[..|s| - 1] == NatToString(n / 10);
      DigitsValueOfString(n / 10);
    } else {
      assert s[..|s| - 1] == [];
    }
  }

  /** Distinct counts print as distinct ids. */
  lemma NatToStringInjective(m: nat, n: nat)
    requires m != n
    ensures NatToString(m) != NatToString(n)
  {
    DigitsValueOfString(m);
    DigitsValueOfString(n);
  }

  /** `String(i)` for an integer: a minus sign precedes negatives. */
  function IntToString(i: int): (s: string)
    ensures |s| >= 1
  {
    if i < 0 then "-" + NatToString(-i) else NatToString(i)
  }

  predicate EndsWith(s: string, suffix: string) {
    |suffix| <= |s| && s[|s| - |suffix|..] == suffix
  }

  /** `s.indexOf(sub) !== -1`, `s.find(sub) != -1` and `sub in s`. */
  predicate Contains(s: string, sub: string) {
    exists i :: 0 <= i <= |s| && OccursAt(s, sub, i)
  }

  predicate OccursAt(s: string, sub: string, i: int) {
    0 <= i <= |s| - |sub| && s[i..i + |sub|] == sub
  }

  // ---------------------------------------------------------------------
  // Insertion-ordered records. A record is a sequence of (key, value)
  // entries whose keys are unique; writing an existing key replaces its
  // value where it stands, writing a new key appends it. This is how a
  // JavaScript `Map`, a string-keyed object and `{...a, ...b}` behave.

  predicate UniqueKeys<K(==), V>(m: seq<(K, V)>) {
    forall i, j :: 0 <= i < j < |m| ==> m[i].0 != m[j].0
  }

  predicate HasKey<K(==), V>(m: seq<(K, V)>, k: K) {
    exists i :: 0 <= i < |m| && m[i].0 == k
  }

  function Keys<K, V>(m: seq<(K, V)>): (ks: seq<K>)
    ensures |ks| == |m| && forall i :: 0 <= i < |m| ==> ks[i] == m[i].0
  {
    if m == [] then [] else [m[0].0] + Keys(m[1..])
  }

  /** `m.get(k)`: the value of the first entry with key `k`. */
  function Get<K(==), V>(m: seq<(K, V)>, k: K): (r: Option<V>)
    ensures r.Some? <==> HasKey(m, k)
    ensures r.Some? ==> exists i :: 0 <= i < |m| && m[i] == (k, r.value)
  {
    if m == [] then None
    else if m[0].0 == k then Some(m[0].1)
    else
      var r := Get(m[1..], k);
      assert r.Some? ==> exists i :: 0 <= i < |m[1..]| && m[1..][i] == (k, r.value);
      assert forall i :: 1 <= i < |m| ==> m[i] == m[1..][i - 1];
      r
  }

  /** `m.set(k, v)` / `obj[k] = v` on a record. */
  function Put<K(==), V>(m: seq<(K, V)>, k: K, v: V): (r: seq<(K, V)>)
    ensures |r| == if HasKey(m, k) then |m| else |m| + 1
  {
    if m == [] then [(k, v)]
    else if m[0].0 == k then [(k, v)] + m[1..]
    else
      assert HasKey(m, k) <==> HasKey(m[1..], k) by { HasKeyTail(m, k); }
      [m[0]] + Put(m[1..], k, v)
  }

  lemma HasKeyTail<K, V>(m: seq<(K, V)>, k: K)
    requires m != [] && m[0].0 != k
    ensures HasKey(m, k) <==> HasKey(m[1..], k)
  {
    if HasKey(m, k) {
      var i :| 0 <= i < |m| && m[i].0 == k;
      assert m[1..][i - 1].0 == k;
    }
    if HasKey(m[1..], k) {
      var i :| 0 <= i < |m[1..]| && m[1..][i].0 == k;
      assert m[i + 1].0 == k;
    }
  }

  /** Reading back a written key gives the written value; every other key is untouched. */
  lemma {:induction false} PutGet<K, V>(m: seq<(K, V)>, k: K, v: V, k': K)
    ensures Get(Put(m, k, v), k') == if k' == k then Some(v) else Get(m, k')
  {
    if m != [] && m[0].0 != k {
      PutGet(m[1..], k, v, k');
    }
  }

  /** Overwriting keeps every key where it stood; a new key goes last. */
  lemma {:induction false} PutKeys<K, V>(m: seq<(K, V)>, k: K, v: V)
    ensures HasKey(m, k) ==> Keys(Put(m, k, v)) == Keys(m)
    ensures !HasKey(m, k) ==> Put(m, k, v) == m + [(k, v)]
  {
    if m != [] && m[0].0 != k {
      HasKeyTail(m, k);
      PutKeys(m[1..], k, v);
    }
  }

  /** Every key of a written record was already there or is the written one. */
  lemma {:induction false} PutKeyOrigin<K, V>(m: seq<(K, V)>, k: K, v: V, j: int)
    requires 0 <= j < |Put(m, k, v)|
    ensures Put(m, k, v)[j].0 == k || HasKey(m, Put(m, k, v)[j].0)
  {
    if m != [] && m[0].0 != k && j > 0 {
      PutKeyOrigin(m[1..], k, v, j - 1);
      var key := Put(m, k, v)[j].0;
      if key != k {
        var i :| 0 <= i < |m[1..]| && m[1..][i].0 == key;
        assert m[i + 1].0 == key;
      }
    }
  }

  /** Writing a key never duplicates it. */
  lemma {:induction false} PutUnique<K, V>(m: seq<(K, V)>, k: K, v: V)
    requires UniqueKeys(m)
    ensures UniqueKeys(Put(m, k, v))
  {
    if m != [] && m[0].0 != k {
      PutUnique(m[1..], k, v);
      var rest := Put(m[1..], k, v);
      forall j | 0 <= j < |rest| ensures rest[j].0 != m[0].0 {
        PutKeyOrigin(m[1..], k, v, j);
        if rest[j].0 != k {
          var i :| 0 <= i < |m[1..]| && m[1..][i].0 == rest[j].0;
          assert m[i + 1].0 == rest[j].0;
        }
      }
    } else if m != [] {
      assert forall j :: 1 <= j < |m| ==> m[j].0 != k;
    }
  }

  /** Regrouping a concatenation; the solver is spared finding it itself. */
  lemma AppendAssoc<T>(a: seq<T>, b: seq<T>, c: seq<T>)
    ensures (a + b) + c == a + (b + c)
  {
  }

  /** `Object.values(m)`: the values in key order. */
  function Values<K, V>(m: seq<(K, V)>): (vs: seq<V>)
    ensures |vs| == |m| && forall i :: 0 <= i < |m| ==> vs[i] == m[i].1
  {
    if m == [] then [] else [m[0].1] + Values(m[1..])
  }
}
