// lib/Point.ts: a control point of the transfer-function editor whose
// coordinates are normalised to [0, 1] by its setters.
module Point {
  import opened JsCommon

  /** `clamp0to1`: the identity on [0, 1], 0 below it, 1 above it. */
  function Clamp01(v: real): (c: real)
    ensures 0.0 <= c <= 1.0
    ensures 0.0 <= v <= 1.0 ==> c == v
    ensures v < 0.0 ==> c == 0.0
    ensures v > 1.0 ==> c == 1.0
  {
    Clamp(v, 0.0, 1.0)
  }

  /** Clamping twice is clamping once. */
  lemma Clamp01Idempotent(v: real)
    ensures Clamp01(Clamp01(v)) == Clamp01(v)
  {
  }

  class Point {
    var x: real
    var y: real
    /** The `detail` of every 'updated' event dispatched so far, oldest first. */
    var updates: seq<(real, real)>

    /** The constructor stores the coordinates as given, without clamping. */
    constructor (x0: real, y0: real)
      ensures x == x0 && y == y0 && updates == []
    {
      x, y, updates := x0, y0, [];
    }

    method SetX(newX: real)
      modifies this
      ensures x == Clamp01(newX) && y == old(y)
      ensures updates == old(updates) + [(x, y)]
    {
      x := Clamp01(newX);
      updates := updates + [(x, y)];
    }

    method SetY(newY: real)
      modifies this
      ensures y == Clamp01(newY) && x == old(x)
      ensures updates == old(updates) + [(x, y)]
    {
      y := Clamp01(newY);
      updates := updates + [(x, y)];
    }

    /** Both setters run, each dispatching, and then one more event is dispatched. */
    method SetPosition(newX: real, newY: real)
      modifies this
      ensures x == Clamp01(newX) && y == Clamp01(newY)
      ensures updates == old(updates) + [(x, old(y)), (x, y), (x, y)]
    {
      SetX(newX);
      SetY(newY);
      updates := updates + [(x, y)];
    }
  }
}
