// packages/viewer/src/fps-watcher-machine.ts: the three-sample variant of
// the frame-rate watcher. Its samples are frames per second; once three are
// in it judges their mean against 1/15 and 1/60, then starts a fresh batch.
// Its `slow` and `fast` states send nothing, so the verdict shows only in
// the state the machine passes through, which `NewSample` returns.
module FpsWatcherMachine {
  import FpsWatcher

  /** `SAMPLE_SIZE`. */
  const SampleSize: nat := 3

  /** `SLOW_FRAME_TIME = 1 / SLOW_FPS`. */
  const SlowFrameTime: real := 1.0 / 15.0

  /** `FAST_FRAME_TIME = 1 / FAST_FPS`. */
  const FastFrameTime: real := 1.0 / 60.0

  /**
   * The `judge` guards in order: `checkSlow` (average below the slow frame
   * time) first, then `checkFast` (average above the fast frame time).
   */
  function Judge(average: real): (v: FpsWatcher.Verdict)
    ensures v == FpsWatcher.Slow <==> average < SlowFrameTime
    ensures v == FpsWatcher.Fast <==> average >= SlowFrameTime
    ensures v != FpsWatcher.Steady
  {
    if average < SlowFrameTime then FpsWatcher.Slow
    else if average > FastFrameTime then FpsWatcher.Fast
    else FpsWatcher.Steady
  }

  /**
   * The two guards overlap: an average between 1/60 and 1/15 satisfies
   * both, and `slow` wins because it is checked first.
   */
  lemma SlowCheckedFirst()
    ensures var average := 1.0 / 30.0;
      average < SlowFrameTime && average > FastFrameTime && Judge(average) == FpsWatcher.Slow
  {
  }

  /** A batch whose every sample is above 1/15 is judged fast. */
  lemma HighSamplesJudgedFast(samples: seq<real>)
    requires |samples| == SampleSize
    requires forall i :: 0 <= i < |samples| ==> samples[i] > SlowFrameTime
    ensures Judge(FpsWatcher.Mean(samples)) == FpsWatcher.Fast
  {
    FpsWatcher.MeanAbove(samples, SlowFrameTime);
  }

  /** A batch whose every sample is below 1/15 is judged slow. */
  lemma LowSamplesJudgedSlow(samples: seq<real>)
    requires |samples| == SampleSize
    requires forall i :: 0 <= i < |samples| ==> samples[i] < SlowFrameTime
    ensures Judge(FpsWatcher.Mean(samples)) == FpsWatcher.Slow
  {
    FpsWatcher.MeanBelow(samples, SlowFrameTime);
  }

  class Watcher {
    var samples: seq<real>
    var average: real

    /** Resting in `sample`, the watcher holds fewer samples than a batch. */
    ghost predicate Valid()
      reads this
    {
      |samples| < SampleSize
    }

    /** The initial context: no samples, average 0. */
    constructor()
      ensures Valid()
      ensures samples == [] && average == 0.0
    {
      samples := [];
      average := 0.0;
    }

    /**
     * `newSample`: the value is appended; when that completes a batch, the
     * average becomes the batch's mean, the machine passes through `slow`
     * or `fast` as it judges, sending nothing, and leaving `judge` empties
     * the samples. `judged` is the verdict, if a batch was judged.
     */
    method NewSample(fps: real) returns (judged: FpsWatcher.Verdict, batchDone: bool)
      requires Valid()
      modifies this
      ensures Valid()
      ensures batchDone <==> |old(samples)| + 1 == SampleSize
      ensures !batchDone ==> samples == old(samples) + [fps] && average == old(average)
      ensures batchDone ==>
        samples == [] && average == FpsWatcher.Mean(old(samples) + [fps]) && judged == Judge(average)
    {
      samples := samples + [fps];
      judged, batchDone := FpsWatcher.Steady, false;
      if |samples| >= SampleSize {
        average := FpsWatcher.Mean(samples);
        batchDone := true;
        if average < SlowFrameTime {
          judged := FpsWatcher.Slow;
        } else if average > FastFrameTime {
          judged := FpsWatcher.Fast;
        }
        samples := [];
      }
    }
  }
}
