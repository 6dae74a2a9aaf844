// Frame pacing in the stream loop: frames closer together than the target
// interval are waited out, every (skip + 1)-th frame read is processed, the
// skip count adapts to slow frames, and a frame-rate sample is taken after
// each processed frame.

module Pacing {
  import opened Common

  /** One pass of the stream loop as the clock and the camera see it: the
      time at the top of the pass, whether a frame could be read, the time
      after processing, and whether the quit key was pressed then. */
  datatype Tick = Tick(start: real, readOk: bool, finish: real, quit: bool)

  /** The loop's counters: prev_time, frame_count and skip_count. */
  datatype Pace = Pace(prev: real, frameCount: int, skipCount: int)

  /** What a pass does with its frame. */
  datatype Stage = Wait | ReadFailed | Skipped | Process

  /** The target interval between frames, 1 / max_fps (1/30 when unset);
      None when max_fps is 0 and the division raises. */
  function TargetInterval(maxFps: Option<int>): (t: Option<real>)
    ensures maxFps.None? ==> t == Some(1.0 / 30.0)
    ensures maxFps.Some? ==> (t.None? <==> maxFps.value == 0)
    ensures maxFps.Some? && maxFps.value > 0 ==> t.Some? && t.value > 0.0
  {
    match maxFps
    case None => Some(1.0 / 30.0)
    case Some(n) => if n == 0 then None else Some(1.0 / n as real)
  }

  /** The skip count after a processed frame that came `elapsed` seconds
      after the previous one: one more (at most 2) when the frame was more
      than two intervals late, one less when it was early. */
  function Adjusted(skip: int, elapsed: real, target: real): (r: int)
    ensures 0 <= skip <= 2 ==> 0 <= r <= 2
    ensures skip >= 0 ==> r >= 0
  {
    if elapsed > 2.0 * target && skip < 2 then skip + 1
    else if elapsed < target * 0.8 && skip > 0 then skip - 1
    else skip
  }

  /** The part of a pass before the frame is processed. */
  function Gate(p: Pace, t: Tick, target: real): (Pace, Stage)
    requires p.skipCount >= 0
  {
    var elapsed := t.start - p.prev;
    if elapsed < target then (p, Wait)
    else if !t.readOk then (p, ReadFailed)
    else
      var n := p.frameCount + 1;
      if n % (p.skipCount + 1) != 0 then (p.(frameCount := n), Skipped)
      else (p.(frameCount := n, skipCount := Adjusted(p.skipCount, t.start - p.prev, target)), Process)
  }

  /** The frame-rate sample after a processed frame; None when no time has
      passed and 1 / 0 raises (the pass is then abandoned). */
  function Sample(p: Pace, finish: real): Option<real>
  {
    if finish == p.prev then None else Some(1.0 / (finish - p.prev))
  }

  /** One pass: the new counters, the stage, the sample taken and whether
      the loop ends. */
  datatype Pass = Pass(pace: Pace, stage: Stage, sample: Option<real>, quit: bool)

  function Step(p: Pace, t: Tick, target: real): (s: Pass)
    requires p.skipCount >= 0
    ensures s.pace.skipCount >= 0
  {
    var (g, stage) := Gate(p, t, target);
    if stage != Process then Pass(g, stage, None, false)
    else
      match Sample(g, t.finish)
      case None => Pass(g, Process, None, false)
      case Some(fps) => Pass(g.(prev := t.finish), Process, Some(fps), t.quit)
  }

  /** The passes over `ticks` until the quit key: final counters, the
      numbers of the processed frames and the samples, in order. */
  datatype Run = Run(pace: Pace, processed: seq<int>, samples: seq<real>, quit: bool)

  function Stream(p: Pace, ticks: seq<Tick>, target: real): Run
    requires p.skipCount >= 0
    decreases |ticks|
  {
    if ticks == [] then Run(p, [], [], false)
    else
      var s := Step(p, ticks[0], target);
      if s.quit then Run(s.pace, [s.pace.frameCount], [s.sample.value], true)
      else
        var r := Stream(s.pace, ticks[1..], target);
        Run(r.pace,
            (if s.stage == Process then [s.pace.frameCount] else []) + r.processed,
            (if s.sample.Some? then [s.sample.value] else []) + r.samples,
            r.quit)
  }

  /** The frame number a pass contributes to the processed list. */
  function ProcessedBy(s: Pass): seq<int>
  {
    if s.stage == Process then [s.pace.frameCount] else []
  }

  /** The sample a pass contributes. */
  function SampledBy(s: Pass): seq<real>
  {
    if s.sample.Some? then [s.sample.value] else []
  }

  /** A run with the frames and samples of earlier passes put in front. */
  function After(processed: seq<int>, samples: seq<real>, r: Run): Run
  {
    Run(r.pace, processed + r.processed, samples + r.samples, r.quit)
  }

  /** The run over a non-empty list of passes, seen from the first pass. */
  lemma StreamFirst(p: Pace, ticks: seq<Tick>, target: real, processed: seq<int>, samples: seq<real>)
    requires p.skipCount >= 0 && ticks != []
    ensures var s := Step(p, ticks[0], target);
      s.quit ==> s.stage == Process && s.sample.Some?
    ensures var s := Step(p, ticks[0], target);
      s.quit ==> After(processed, samples, Stream(p, ticks, target))
                 == Run(s.pace, processed + ProcessedBy(s), samples + SampledBy(s), true)
    ensures var s := Step(p, ticks[0], target);
      !s.quit ==> After(processed, samples, Stream(p, ticks, target))
                  == After(processed + ProcessedBy(s), samples + SampledBy(s), Stream(s.pace, ticks[1..], target))
  {
    var s := Step(p, ticks[0], target);
    var whole := Stream(p, ticks, target);
    if s.quit {
      QuitProcessed(p, ticks[0], target);
      assert whole == Run(s.pace, [s.pace.frameCount], [s.sample.value], true);
    } else {
      var r := Stream(s.pace, ticks[1..], target);
      assert whole == Run(r.pace, ProcessedBy(s) + r.processed, SampledBy(s) + r.samples, r.quit);
      assert processed + (ProcessedBy(s) + r.processed) == processed + ProcessedBy(s) + r.processed;
      assert samples + (SampledBy(s) + r.samples) == samples + SampledBy(s) + r.samples;
    }
  }

  /** A pass ends the loop only after a processed frame with a sample. */
  lemma QuitProcessed(p: Pace, t: Tick, target: real)
    requires p.skipCount >= 0
    ensures var s := Step(p, t, target); s.quit ==> s.stage == Process && s.sample.Some?
  {
  }

  /** The counters at the start of process_stream. */
  function Start(now: real): Pace
  {
    Pace(now, 0, 0)
  }

  // ---------------------------------------------------------------------
  // Properties

  /** A pass keeps the skip count in [0, 2] and the frame count from going
      down; only a frame that was read moves the frame count, by one. */
  lemma StepBounds(p: Pace, t: Tick, target: real)
    requires 0 <= p.skipCount <= 2
    ensures var s := Step(p, t, target);
      && 0 <= s.pace.skipCount <= 2
      && s.pace.frameCount == p.frameCount + (if s.stage == Skipped || s.stage == Process then 1 else 0)
  {
  }

  /** The skip count never goes down: a frame reaches the adjustment only
      after waiting out at least one target interval, so it is never early
      enough (under 0.8 of an interval) for the decrease to apply. */
  lemma SkipNeverDecreases(p: Pace, t: Tick, target: real)
    requires p.skipCount >= 0 && target > 0.0
    ensures Step(p, t, target).pace.skipCount >= p.skipCount
  {
  }

  /** Only every (skip + 1)-th frame read is processed. */
  lemma ProcessedFrames(p: Pace, t: Tick, target: real)
    requires p.skipCount >= 0
    ensures var s := Step(p, t, target);
      s.stage == Process ==> s.pace.frameCount % (p.skipCount + 1) == 0
    ensures var s := Step(p, t, target);
      s.stage == Skipped ==> s.pace.frameCount % (p.skipCount + 1) != 0
  {
  }

  /** Over a whole run from fresh counters the skip count stays in [0, 2],
      never decreases, and every sample comes from a processed frame. */
  lemma {:induction false} StreamBounds(p: Pace, ticks: seq<Tick>, target: real)
    requires 0 <= p.skipCount <= 2 && target > 0.0
    ensures var r := Stream(p, ticks, target);
      p.skipCount <= r.pace.skipCount <= 2 && |r.samples| <= |r.processed|
    decreases |ticks|
  {
    if ticks != [] {
      var s := Step(p, ticks[0], target);
      StepBounds(p, ticks[0], target);
      SkipNeverDecreases(p, ticks[0], target);
      if !s.quit {
        StreamBounds(s.pace, ticks[1..], target);
      }
    }
  }

  /** Positive samples: when the clock moves forward across each processed
      frame, every frame-rate sample is positive. */
  lemma SamplePositive(p: Pace, t: Tick, target: real)
    requires p.skipCount >= 0 && target >= 0.0 && t.finish > t.start
    ensures var s := Step(p, t, target); s.sample.Some? ==> s.sample.value > 0.0
  {
    var (g, stage) := Gate(p, t, target);
    if stage == Process {
      assert t.finish - g.prev > 0.0;
    }
  }
}
