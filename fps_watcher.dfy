// packages/viewer/src/fps-watcher.ts: the frame-rate watcher. It collects
// render times; once 30 are in, it judges their mean: slower than 15 frames
// a second sends `slowFps` to its parent, faster than 30 frames a second
// sends `fastFps`. Judging starts a fresh batch of samples. The transient
// `judge`, `slow` and `fast` states all lead straight back to `sample`, so
// one `newSample` event is modelled as the whole run of transitions it
// sets off; messages to the parent are appended to an outbox.
module FpsWatcher {
  /** `SAMPLE_SIZE`. */
  const SampleSize: nat := 30

  /** `SLOW_FRAME_TIME = 1 / SLOW_FPS`, in seconds. */
  const SlowFrameTime: real := 1.0 / 15.0

  /** `FAST_FRAME_TIME = 1 / FAST_FPS`, in seconds. */
  const FastFrameTime: real := 1.0 / 30.0

  /** `samples.reduce((a, b) => a + b)`, left to right. */
  function Sum(samples: seq<real>): real {
    if samples == [] then 0.0 else Sum(samples[..|samples| - 1]) + samples[|samples| - 1]
  }

  /** `samples.reduce((a, b) => a + b) / samples.length`: the arithmetic mean. */
  function Mean(samples: seq<real>): (m: real)
    requires samples != []
    ensures m * |samples| as real == Sum(samples)
  {
    Sum(samples) / |samples| as real
  }

  /** A sum of terms each above `t` is above `|s| * t`. */
  lemma {:induction false} SumAbove(samples: seq<real>, t: real)
    requires samples != []
    requires forall i :: 0 <= i < |samples| ==> samples[i] > t
    ensures Sum(samples) > |samples| as real * t
    decreases |samples|
  {
    var init := samples[..|samples| - 1];
    if init != [] {
      SumAbove(init, t);
    }
  }

  /** A sum of terms each below `t` is below `|s| * t`. */
  lemma {:induction false} SumBelow(samples: seq<real>, t: real)
    requires samples != []
    requires forall i :: 0 <= i < |samples| ==> samples[i] < t
    ensures Sum(samples) < |samples| as real * t
    decreases |samples|
  {
    var init := samples[..|samples| - 1];
    if init != [] {
      SumBelow(init, t);
    }
  }

  /** The mean is above every lower bound of the samples. */
  lemma MeanAbove(samples: seq<real>, t: real)
    requires samples != []
    requires forall i :: 0 <= i < |samples| ==> samples[i] > t
    ensures Mean(samples) > t
  {
    SumAbove(samples, t);
    ScaleLess(t, Mean(samples), |samples| as real);
  }

  /** The mean is below every upper bound of the samples. */
  lemma MeanBelow(samples: seq<real>, t: real)
    requires samples != []
    requires forall i :: 0 <= i < |samples| ==> samples[i] < t
    ensures Mean(samples) < t
  {
    SumBelow(samples, t);
    ScaleLess(Mean(samples), t, |samples| as real);
  }

  lemma ScaleLess(a: real, b: real, n: real)
    requires n > 0.0 && n * a < n * b
    ensures a < b
  {
  }

  /** What judging an average leads to. */
  datatype Verdict = Slow | Fast | Steady

  /** The `judge` guards in order: `checkSlow` (above the slow frame time), then `checkFast` (below the fast one). */
  function Judge(average: real): (v: Verdict)
    ensures v == Slow <==> average > SlowFrameTime
    ensures v == Fast <==> average < FastFrameTime
  {
    if average > SlowFrameTime then Slow
    else if average < FastFrameTime then Fast
    else Steady
  }

  /** The messages sent to the parent. */
  datatype ParentMessage = SlowFps | FastFps

  /** The entry action of `slow` or `fast`: the message it sends, if any. */
  function Sent(v: Verdict): seq<ParentMessage> {
    match v
    case Slow => [SlowFps]
    case Fast => [FastFps]
    case Steady => []
  }

  /** A batch in which every frame took longer than a fifteenth of a second sends `slowFps`. */
  lemma EverySlowFrameSendsSlow(samples: seq<real>)
    requires |samples| == SampleSize
    requires forall i :: 0 <= i < |samples| ==> samples[i] > SlowFrameTime
    ensures Sent(Judge(Mean(samples))) == [SlowFps]
  {
    MeanAbove(samples, SlowFrameTime);
  }

  /** A batch in which every frame took less than a thirtieth of a second sends `fastFps`. */
  lemma EveryFastFrameSendsFast(samples: seq<real>)
    requires |samples| == SampleSize
    requires forall i :: 0 <= i < |samples| ==> samples[i] < FastFrameTime
    ensures Sent(Judge(Mean(samples))) == [FastFps]
  {
    MeanBelow(samples, FastFrameTime);
  }

  class Watcher {
    var samples: seq<real>
    var average: real
    /** Messages sent to the parent, oldest first. */
    var outbox: seq<ParentMessage>

    /** Resting in `sample`, the watcher holds fewer samples than a batch. */
    ghost predicate Valid()
      reads this
    {
      |samples| < SampleSize
    }

    /** The initial context: no samples, average 0. */
    constructor()
      ensures Valid()
      ensures samples == [] && average == 0.0 && outbox == []
    {
      samples := [];
      average := 0.0;
      outbox := [];
    }

    /**
     * `newSample`: the render time is appended; when that completes a
     * batch, the average becomes the batch's mean, `slowFps` or `fastFps`
     * is sent as it judges, and leaving `judge` empties the samples.
     */
    method NewSample(renderTime: real)
      requires Valid()
      modifies this
      ensures Valid()
      ensures |old(samples)| + 1 < SampleSize ==>
        samples == old(samples) + [renderTime] && average == old(average) && outbox == old(outbox)
      ensures |old(samples)| + 1 == SampleSize ==>
        samples == [] && average == Mean(old(samples) + [renderTime]) &&
        outbox == old(outbox) + Sent(Judge(average))
    {
      samples := samples + [renderTime];
      if |samples| >= SampleSize {
        average := Mean(samples);
        if average > SlowFrameTime {
          outbox := outbox + [SlowFps];
        } else if average < FastFrameTime {
          outbox := outbox + [FastFps];
        }
        samples := [];
      }
    }
  }
}
