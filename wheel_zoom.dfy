// packages/transfer-function-editor/lib/WheelZoom.ts: the wheel handler that
// zooms the editor's horizontal view box about the pointer.
module WheelZoom {
  import opened JsCommon

  const ScaleSensitivity: real := 1.1

  /** What the handler does with one wheel event. */
  datatype Outcome =
    | NotConsumed
      /** The event is consumed and the view box set to (left, right). */
    | SetViewBox(left: real, right: real)

  /** Scrolling down zooms out by 1.1; any other wheel motion zooms in by 1/1.1. */
  function ScaleFactor(deltaY: real): (f: real)
    ensures deltaY > 0.0 ==> f == ScaleSensitivity
    ensures deltaY <= 0.0 ==> f * ScaleSensitivity == 1.0
  {
    if deltaY > 0.0 then ScaleSensitivity else 1.0 / ScaleSensitivity
  }

  /**
   * The handler for a wheel event with vertical motion `deltaY`, the pointer at
   * normalised `targetX`, and the view box `(left, right)`.
   */
  function Zoom(deltaY: real, targetX: real, left: real, right: real): (o: Outcome)
    ensures o.SetViewBox? ==> 0.0 <= o.left && o.right <= 1.0
    ensures o.NotConsumed? <==> NewLeft(deltaY, targetX, left) == left
                                && NewRight(deltaY, targetX, left, right) == right
  {
    var newLeft := NewLeft(deltaY, targetX, left);
    var newRight := NewRight(deltaY, targetX, left, right);
    if newLeft == left && newRight == right then NotConsumed
    else SetViewBox(newLeft, newRight)
  }

  /** The left edge moves away from (out) or towards (in) the pointer, but not below 0. */
  function NewLeft(deltaY: real, targetX: real, left: real): (l: real)
    ensures l >= 0.0
  {
    Max(0.0, left - Max(0.0, targetX - left) * (ScaleFactor(deltaY) - 1.0))
  }

  /** The right edge keeps the scaled width from the new left edge, but not beyond 1. */
  function NewRight(deltaY: real, targetX: real, left: real, right: real): (r: real)
    ensures r <= 1.0
  {
    Min(1.0, (right - left) * ScaleFactor(deltaY) + NewLeft(deltaY, targetX, left))
  }

  /** A view box inside [0, 1] with the pointer inside [0, 1] stays a view box inside [0, 1]. */
  lemma ZoomWellOrdered(deltaY: real, targetX: real, left: real, right: real)
    requires 0.0 <= left <= right <= 1.0 && targetX <= 1.0
    ensures var o := Zoom(deltaY, targetX, left, right);
      o.SetViewBox? ==> 0.0 <= o.left <= o.right <= 1.0
  {
    var f := ScaleFactor(deltaY);
    var m := Max(0.0, targetX - left);
    assert m <= 1.0 - left;
    if deltaY > 0.0 {
      assert m * (f - 1.0) >= 0.0;
    } else {
      assert f == 10.0 / 11.0;
      assert m * (f - 1.0) >= -(1.0 - left) / 11.0;
    }
    assert (right - left) * f >= 0.0;
  }

  /**
   * Away from the edges of [0, 1] the zoom is about the pointer: the width
   * scales by the factor and the pointer keeps its distance ratio to both edges.
   */
  lemma ZoomAboutPointer(deltaY: real, targetX: real, left: real, right: real)
    requires left <= targetX
    requires left - (targetX - left) * (ScaleFactor(deltaY) - 1.0) >= 0.0
    requires (right - left) * ScaleFactor(deltaY) + NewLeft(deltaY, targetX, left) <= 1.0
    ensures var f, l, r := ScaleFactor(deltaY), NewLeft(deltaY, targetX, left),
                           NewRight(deltaY, targetX, left, right);
      r - l == (right - left) * f &&
      targetX - l == (targetX - left) * f &&
      r - targetX == (right - targetX) * f
  {
  }
}
