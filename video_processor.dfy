// The per-camera processor: its fields, the alarm steps run on them, the
// crop, the gesture test, the frame step and the stream loop, and the
// status it reports. The alarm steps are proved against the functions of
// module Alarm, the stream loop against those of module Pacing.

module VideoProcessing {
  import opened Common
  import opened Config
  import opened Alarm
  import opened Roi
  import opened Detection
  import opened Pacing
  import opened Fps
  import opened Grid

  /** The mixer channel of a camera. It is busy from a play() until stop()
      is called; `log` records the calls made on it. A sound that ends by
      itself frees the channel outside the processor's code, so the episode
      lemmas of module Alarm take the busy flag at each poll as an input. */
  class AudioChannel {
    var busy: bool
    ghost var log: seq<AudioCall>

    constructor()
      ensures !busy && log == []
    {
      busy := false;
      log := [];
    }

    method Play(tier: int, loops: int)
      modifies this
      ensures busy && log == old(log) + [AudioCall.Play(tier, loops)]
    {
      busy := true;
      log := log + [AudioCall.Play(tier, loops)];
    }

    method Stop()
      modifies this
      ensures !busy && log == old(log) + [AudioCall.Stop]
    {
      busy := false;
      log := log + [AudioCall.Stop];
    }
  }

  /** What the processor reports in get_status. */
  datatype Status = Status(status: string, fps: real, detectionTime: real, alarmLevel: nat)

  /** One frame as the stream loop hands it on: its size, the first hand the
      classifier finds in its region (if any), and the clock when the frame
      step reads it. */
  datatype FrameInput = FrameInput(width: int, height: int, hand: Option<Hand>, now: real)

  /** What a frame step can change: the alarm fields, the time of the last
      positive detection, the smoothed distance, the cached crop, and the
      channel's busy flag and call log. */
  datatype Engine = Engine(episode: Episode, lastDetection: real, lastDistance: Option<real>,
                           crop: Option<Crop>, busy: bool, calls: seq<AudioCall>)

  /** The configuration a frame step reads: the camera's region, the
      detection interval, the smoothing factor, the gesture threshold and the
      trigger list. */
  datatype Tuning = Tuning(roi: Rect, interval: real, factor: real, threshold: real, triggers: seq<int>)

  /** _process_frame on values: the crop is computed once and then kept;
      before the detection interval has passed nothing else changes; after
      it, a pinch runs the alarm step at the frame's time and anything else
      resets the alarm. The channel's log only grows. */
  function FrameStep(e: Engine, frame: FrameInput, tn: Tuning): (e': Engine)
    ensures e'.crop == (if e.crop.Some? then e.crop else Some(CropOf(tn.roi, frame.width, frame.height)))
    ensures !ShouldDetect(frame.now, e.lastDetection, tn.interval) ==> e' == e.(crop := e'.crop)
    ensures e.calls <= e'.calls
  {
    var crop := if e.crop.Some? then e.crop else Some(CropOf(tn.roi, frame.width, frame.height));
    if !ShouldDetect(frame.now, e.lastDetection, tn.interval) then e.(crop := crop)
    else
      var v := Detect(e.lastDistance, frame.hand, tn.factor, tn.threshold);
      var p := if v.pinched then OnGesture(e.episode, frame.now, tn.triggers, e.busy) else OnReset(e.episode);
      Engine(p.episode, if v.pinched then frame.now else e.lastDetection, v.last, crop, p.busy, e.calls + p.calls)
  }

  /** The frame steps of the passes of process_stream over `ticks`, the i-th
      pass reading `frames[i]`: only a pass that processes its frame puts it
      through the frame step; waiting, failed reads and skipped frames leave
      the engine alone. */
  function Passes(p: Pace, ticks: seq<Tick>, frames: seq<FrameInput>, target: real, e: Engine, tn: Tuning): Engine
    requires p.skipCount >= 0 && |frames| == |ticks|
    decreases |ticks|
  {
    if ticks == [] then e
    else
      var s := Step(p, ticks[0], target);
      var e' := if s.stage == Process then FrameStep(e, frames[0], tn) else e;
      if s.quit then e' else Passes(s.pace, ticks[1..], frames[1..], target, e', tn)
  }

  /** The passes over a non-empty list, seen from the first pass. */
  lemma PassesFirst(p: Pace, ticks: seq<Tick>, frames: seq<FrameInput>, target: real, e: Engine, tn: Tuning)
    requires p.skipCount >= 0 && |frames| == |ticks| && ticks != []
    ensures var s := Step(p, ticks[0], target);
      var e' := if s.stage == Process then FrameStep(e, frames[0], tn) else e;
      Passes(p, ticks, frames, target, e, tn) == if s.quit then e' else Passes(s.pace, ticks[1..], frames[1..], target, e', tn)
  {
  }

  /** A frame past the detection interval in which no hand is found ends
      the episode and stops the channel, keeping the smoothed distance. */
  lemma FrameStepNoHand(e: Engine, frame: FrameInput, tn: Tuning)
    requires ShouldDetect(frame.now, e.lastDetection, tn.interval) && frame.hand.None?
    ensures var e' := FrameStep(e, frame, tn);
      && e'.episode == Idle && !e'.busy && e'.calls == e.calls + [Stop]
      && e'.lastDistance == e.lastDistance && e'.lastDetection == e.lastDetection
  {
  }

  /** Over a whole run the channel's log only grows, and a run whose passes
      process no frame leaves the engine as it was. */
  lemma {:induction false} PassesCallsGrow(p: Pace, ticks: seq<Tick>, frames: seq<FrameInput>, target: real, e: Engine, tn: Tuning)
    requires p.skipCount >= 0 && |frames| == |ticks|
    ensures e.calls <= Passes(p, ticks, frames, target, e, tn).calls
    ensures Stream(p, ticks, target).processed == [] ==> Passes(p, ticks, frames, target, e, tn) == e
    decreases |ticks|
  {
    if ticks != [] {
      var s := Step(p, ticks[0], target);
      var e' := if s.stage == Process then FrameStep(e, frames[0], tn) else e;
      if !s.quit {
        PassesCallsGrow(s.pace, ticks[1..], frames[1..], target, e', tn);
      }
    }
  }

  class VideoProcessor {
    const cameraId: nat
    const config: SystemConfig
    var detectionStartTime: real
    var lastDetection: real
    var alarmActive: bool
    var playedSounds: set<int>
    const fpsCounter: FPSCounter
    const gridOverlay: GridOverlay
    const channel: AudioChannel
    /** _cached_roi_coords; None when the attribute is absent. */
    var cachedCrop: Option<Crop>
    /** _last_distance; None when the attribute is absent. */
    var lastDistance: Option<real>
    /** The width and height the opened capture reports; None when it is not open. */
    var frameSize: Option<(int, int)>

    ghost predicate Valid()
      reads this, config, fpsCounter
    {
      cameraId < |config.cameras| && fpsCounter.Valid()
    }

    /** The alarm fields as an episode. */
    function State(): Episode
      reads this
    {
      Episode(detectionStartTime, alarmActive, playedSounds)
    }

    /** The fields a frame step changes, with the channel. */
    ghost function EngineState(): Engine
      reads this, channel
    {
      Engine(State(), lastDetection, lastDistance, cachedCrop, channel.busy, channel.log)
    }

    /** The settings the frame step reads from the shared configuration. */
    function CurrentTuning(): Tuning
      reads this, config
      requires cameraId < |config.cameras|
    {
      Tuning(config.cameras[cameraId].roi, config.detectionInterval, config.smoothFactor,
             config.gestureThreshold, config.alarmTriggers)
    }

    /** A processor for a configured camera starts with no episode, no
        alarm, nothing played, an empty frame-rate window, an idle channel
        and nothing cached. */
    constructor(cameraId: nat, config: SystemConfig, frameSize: Option<(int, int)>)
      requires cameraId < |config.cameras|
      ensures this.cameraId == cameraId && this.config == config && this.frameSize == frameSize
      ensures State() == Idle && detectionStartTime == 0.0 && !alarmActive && playedSounds == {}
      ensures lastDetection == 0.0 && cachedCrop.None? && lastDistance.None?
      ensures fresh(fpsCounter) && fresh(channel) && fresh(gridOverlay)
      ensures fpsCounter.history == [] && !channel.busy && channel.log == []
      ensures Valid()
    {
      this.cameraId := cameraId;
      this.config := config;
      this.frameSize := frameSize;
      detectionStartTime := 0.0;
      lastDetection := 0.0;
      alarmActive := false;
      playedSounds := {};
      fpsCounter := new FPSCounter();
      gridOverlay := new GridOverlay(cameraId);
      channel := new AudioChannel();
      cachedCrop := None;
      lastDistance := None;
    }

    // -------------------------------------------------------------------
    // The alarm

    /** _trigger_alarm: an idle channel starts the tier's sound, looping
        when `continuous`; a busy channel is left alone. */
    method TriggerAlarm(tier: int, continuous: bool)
      modifies channel
      ensures channel.busy
      ensures channel.log == old(channel.log) + (if old(channel.busy) then [] else [AudioCall.Play(tier, if continuous then -1 else 0)])
    {
      if !channel.busy {
        var loops := if continuous then -1 else 0;
        channel.Play(tier, loops);
      }
    }

    /** _update_alarm_state at time `now`: the step OnGesture describes, on
        the fields and the channel. */
    method UpdateAlarmState(now: real)
      modifies this`detectionStartTime, this`alarmActive, this`playedSounds, channel
      ensures var p := OnGesture(old(State()), now, config.alarmTriggers, old(channel.busy));
        && State() == p.episode
        && channel.busy == p.busy
        && channel.log == old(channel.log) + p.calls
    {
      ghost var e := State();
      if detectionStartTime == 0.0 {
        detectionStartTime := now;
        playedSounds := {};
      }
      assert detectionStartTime == EpisodeStart(e, now) && playedSounds == PlayedBefore(e);
      ghost var t := RunTriggers(e, now, config.alarmTriggers, channel.busy);
      TriggerLoop(now - detectionStartTime, config.alarmTriggers);
      assert playedSounds == t.played && alarmActive == t.active;
    }

    /** The trigger loop of _update_alarm_state for the duration d: the
        configured thresholds in ascending order, each as Consider says. */
    method TriggerLoop(d: real, triggers: seq<int>)
      modifies this`alarmActive, this`playedSounds, channel
      ensures var t := Escalate(Sort(triggers), d, LastOrZero(triggers), Tally(old(playedSounds), old(alarmActive), old(channel.busy), [], []));
        && playedSounds == t.played && alarmActive == t.active
        && channel.busy == t.busy && channel.log == old(channel.log) + t.calls
    {
      var tiers := Sort(triggers);
      assert |tiers| == |triggers| by { SortLength(triggers); }
      ghost var last := LastOrZero(triggers);
      ghost var t0 := Tally(playedSounds, alarmActive, channel.busy, [], []);
      ghost var t := t0;
      ghost var log0 := channel.log;
      var i := 0;
      assert tiers[0..] == tiers;
      while i < |tiers|
        invariant 0 <= i <= |tiers|
        invariant t == Tally(playedSounds, alarmActive, channel.busy, t.calls, t.fired)
        invariant channel.log == log0 + t.calls
        invariant Escalate(tiers[i..], d, last, t) == Escalate(tiers, d, last, t0)
      {
        assert tiers[i..][1..] == tiers[i + 1..];
        var k := tiers[i];
        t := ConsiderTier(k, d, k == triggers[|triggers| - 1], last, t, log0);
        i := i + 1;
      }
      assert tiers[i..] == [];
    }

    /** One pass of the trigger loop for threshold k, on the fields and the
        channel, as Consider describes it. */
    method ConsiderTier(k: int, d: real, continuous: bool, ghost last: int, ghost t: Tally, ghost log0: seq<AudioCall>)
      returns (ghost t': Tally)
      requires continuous == (k == last)
      requires t == Tally(playedSounds, alarmActive, channel.busy, t.calls, t.fired)
      requires channel.log == log0 + t.calls
      modifies this`alarmActive, this`playedSounds, channel
      ensures t' == Consider(k, d, last, t)
      ensures t' == Tally(playedSounds, alarmActive, channel.busy, t'.calls, t'.fired)
      ensures channel.log == log0 + t'.calls
    {
      t' := Consider(k, d, last, t);
      if d >= k as real && k !in playedSounds {
        alarmActive := true;
        TriggerAlarm(k, continuous);
        playedSounds := playedSounds + {k};
      }
    }

    /** _reset_alarm: the episode ends and the channel is stopped. */
    method ResetAlarm()
      modifies this`detectionStartTime, this`alarmActive, this`playedSounds, channel
      ensures State() == OnReset(old(State())).episode
      ensures !channel.busy && channel.log == old(channel.log) + [AudioCall.Stop]
    {
      detectionStartTime := 0.0;
      alarmActive := false;
      playedSounds := {};
      channel.Stop();
    }

    /** get_detection_duration at time `now`. */
    function GetDetectionDuration(now: real): (d: real)
      reads this
      ensures d == DetectionTime(State(), now)
      ensures detectionStartTime <= 0.0 ==> d == 0.0
    {
      if detectionStartTime > 0.0 then now - detectionStartTime else 0.0
    }

    /** get_alarm_status, written on the fields as the source does. The
        trigger list is indexed only when an alarm is active with something
        played. Its ensures ties it to StatusOf and StatusText of module
        Alarm, the same status on an Episode value, which the lemmas about a
        held pinch (StatusWhileHeld, ResetStatus) are stated with. */
    function GetAlarmStatus(): (s: string)
      reads this, config
      requires alarmActive && playedSounds != {} ==> |config.alarmTriggers| > 0
      ensures s == StatusText(StatusOf(State(), config.alarmTriggers))
    {
      if alarmActive && playedSounds != {} then
        var lastPlayed := MaxOf(playedSounds);
        if lastPlayed == config.alarmTriggers[|config.alarmTriggers| - 1] then
          "持续报警 (" + IntToString(lastPlayed) + "秒)"
        else "报警触发 (" + IntToString(lastPlayed) + "秒)"
      else if detectionStartTime > 0.0 then "检测中"
      else "无报警"
    }

    /** get_status at time `now`. */
    function GetStatus(now: real): (st: Status)
      reads this, config, fpsCounter
      requires alarmActive && playedSounds != {} ==> |config.alarmTriggers| > 0
      ensures st.alarmLevel == AlarmLevel(State()) && st.detectionTime == DetectionTime(State(), now)
      ensures st.fps == Mean(fpsCounter.history)
    {
      Status(GetAlarmStatus(), fpsCounter.GetAverage(), GetDetectionDuration(now), |playedSounds|)
    }

    // -------------------------------------------------------------------
    // The region of interest and the gesture test

    /** _safe_crop on a w-by-h frame: the cached crop when there is one,
        otherwise the crop of the camera's region, which is then cached. */
    method SafeCrop(w: int, h: int) returns (c: Crop)
      requires Valid()
      modifies this`cachedCrop
      ensures old(cachedCrop).Some? ==> c == old(cachedCrop).value && cachedCrop == old(cachedCrop)
      ensures old(cachedCrop).None? ==> c == CropOf(config.cameras[cameraId].roi, w, h)
      ensures cachedCrop == Some(c)
    {
      if cachedCrop.None? {
        var roi := config.cameras[cameraId].roi;
        var x1 := Max(0, Min(roi.x, w - 1));
        var y1 := Max(0, Min(roi.y, h - 1));
        var x2 := Min(x1 + roi.w, w);
        var y2 := Min(y1 + roi.h, h);
        cachedCrop := Some(Crop(y1, y2, x1, x2));
      }
      c := cachedCrop.value;
    }

    /** update_roi: the cached crop is dropped first; a region with a
        negative corner or an empty size is refused; otherwise, when the
        capture is open, a region reaching past the picture is adjusted in
        the shared configuration, and the answer is true. */
    method UpdateRoi() returns (ok: bool)
      requires Valid()
      modifies this`cachedCrop, config`cameras
      ensures cachedCrop.None?
      ensures ok <==> Acceptable(old(config.cameras[cameraId].roi))
      ensures ok && frameSize.Some? ==>
        config.cameras == old(config.cameras)[cameraId := old(config.cameras[cameraId]).(roi := Adjust(old(config.cameras[cameraId].roi), frameSize.value.0, frameSize.value.1))]
      ensures !ok || frameSize.None? ==> config.cameras == old(config.cameras)
      ensures Valid()
    {
      cachedCrop := None;
      var cam := config.cameras[cameraId];
      var roi := cam.roi;
      if roi.x < 0 || roi.y < 0 || roi.w <= 0 || roi.h <= 0 {
        return false;
      }
      if frameSize.Some? {
        var (frameWidth, frameHeight) := frameSize.value;
        if roi.x + roi.w > frameWidth || roi.y + roi.h > frameHeight {
          var x := Min(roi.x, frameWidth - 1);
          var y := Min(roi.y, frameHeight - 1);
          var w := Min(roi.w, frameWidth - x);
          var h := Min(roi.h, frameHeight - y);
          config.cameras := config.cameras[cameraId := cam.(roi := Rect(x, y, w, h))];
        }
      }
      return true;
    }

    /** _detect_gesture for the first hand found (if any). */
    method DetectGesture(hand: Option<Hand>) returns (pinched: bool)
      modifies this`lastDistance
      ensures Verdict(pinched, lastDistance) == Detect(old(lastDistance), hand, config.smoothFactor, config.gestureThreshold)
    {
      if hand.None? {
        return false;
      }
      var hd := hand.value;
      var distance := AbsReal(hd.thumbX - hd.pinkyX) + AbsReal(hd.thumbY - hd.pinkyY);
      assert distance == Distance(hd);
      if lastDistance.None? {
        lastDistance := Some(distance);
      } else {
        distance := config.smoothFactor * distance + (1.0 - config.smoothFactor) * lastDistance.value;
        lastDistance := Some(distance);
      }
      assert distance == Smooth(old(lastDistance), Distance(hd), config.smoothFactor);
      return distance < config.gestureThreshold;
    }

    /** _process_frame for a frame of the given size at time `now`: the
        crop is taken; once the detection interval has passed since the last
        positive detection the classifier is consulted, and a pinch runs the
        alarm step while anything else resets the alarm. */
    method ProcessFrame(frame: FrameInput)
      requires Valid()
      modifies this, channel
      ensures Valid()
      ensures old(cachedCrop).Some? ==> cachedCrop == old(cachedCrop)
      ensures old(cachedCrop).None? ==> cachedCrop == Some(CropOf(config.cameras[cameraId].roi, frame.width, frame.height))
      ensures !ShouldDetect(frame.now, old(lastDetection), config.detectionInterval) ==>
        && State() == old(State()) && lastDetection == old(lastDetection) && lastDistance == old(lastDistance)
        && channel.log == old(channel.log) && channel.busy == old(channel.busy)
      ensures ShouldDetect(frame.now, old(lastDetection), config.detectionInterval) ==>
        var v := Detect(old(lastDistance), frame.hand, config.smoothFactor, config.gestureThreshold);
        var p := if v.pinched then OnGesture(old(State()), frame.now, config.alarmTriggers, old(channel.busy)) else OnReset(old(State()));
        && lastDistance == v.last
        && lastDetection == (if v.pinched then frame.now else old(lastDetection))
        && State() == p.episode && channel.busy == p.busy && channel.log == old(channel.log) + p.calls
      ensures frameSize == old(frameSize)
      ensures EngineState() == FrameStep(old(EngineState()), frame, CurrentTuning())
    {
      ghost var e, busy, log := State(), channel.busy, channel.log;
      ghost var v := Detect(lastDistance, frame.hand, config.smoothFactor, config.gestureThreshold);
      var _ := SafeCrop(frame.width, frame.height);
      if frame.now - lastDetection >= config.detectionInterval {
        var pinched := DetectGesture(frame.hand);
        assert pinched == v.pinched && lastDistance == v.last;
        if pinched {
          lastDetection := frame.now;
          UpdateAlarmState(frame.now);
          assert State() == OnGesture(e, frame.now, config.alarmTriggers, busy).episode;
        } else {
          ResetAlarm();
          assert State() == OnReset(e).episode;
        }
      }
    }

    // -------------------------------------------------------------------
    // The stream loop

    /** The start of a pass of process_stream with the counters `p`: wait
        for the target interval, read a frame, count it, skip all but every
        (skip + 1)-th frame, and adjust the skip count for a processed one.
        This is the loop's own code; the function Gate of module Pacing is
        its specification, which the run-level lemmas there are about. */
    method Admit(p: Pace, t: Tick, target: real) returns (g: Pace, stage: Stage)
      requires p.skipCount >= 0
      ensures (g, stage) == Gate(p, t, target)
    {
      var elapsed := t.start - p.prev;
      if elapsed < target {
        return p, Wait;
      }
      if !t.readOk {
        return p, ReadFailed;
      }
      var frameCount := p.frameCount + 1;
      if frameCount % (p.skipCount + 1) != 0 {
        return p.(frameCount := frameCount), Skipped;
      }
      var skipCount := p.skipCount;
      if elapsed > 2.0 * target && skipCount < 2 {
        skipCount := skipCount + 1;
      } else if elapsed < target * 0.8 && skipCount > 0 {
        skipCount := skipCount - 1;
      }
      return Pace(p.prev, frameCount, skipCount), Process;
    }

    /** One pass of the loop of process_stream with the counters `p`: the
        pass waits, fails to read, skips the frame, or adjusts the skip count
        and puts `frame` through the frame step, then samples the frame rate
        into the window. */
    method PassOnce(p: Pace, t: Tick, target: real, frame: FrameInput) returns (s: Pacing.Pass)
      requires Valid() && p.skipCount >= 0
      modifies this, channel, fpsCounter
      ensures Valid()
      ensures s == Step(p, t, target)
      ensures fpsCounter.samples == old(fpsCounter.samples) + (if s.sample.Some? then [s.sample.value] else [])
      ensures EngineState() == if s.stage == Process then FrameStep(old(EngineState()), frame, CurrentTuning()) else old(EngineState())
    {
      var g, stage := Admit(p, t, target);
      if stage != Process {
        return Pacing.Pass(g, stage, None, false);
      }
      ProcessFrame(frame);
      s := TakeSample(g, t);
    }

    /** The frame-rate sample after a processed frame: 1 / (finish - prev)
        goes into the window and `finish` becomes the previous time; when no
        time has passed the division raises and the pass is abandoned. */
    method TakeSample(g: Pace, t: Tick) returns (s: Pacing.Pass)
      requires fpsCounter.Valid()
      modifies fpsCounter
      ensures fpsCounter.Valid()
      ensures Sample(g, t.finish).None? ==> s == Pacing.Pass(g, Process, None, false)
      ensures Sample(g, t.finish).Some? ==> s == Pacing.Pass(g.(prev := t.finish), Process, Sample(g, t.finish), t.quit)
      ensures fpsCounter.samples == old(fpsCounter.samples) + (if s.sample.Some? then [s.sample.value] else [])
    {
      if t.finish == g.prev {
        return Pacing.Pass(g, Process, None, false);
      }
      var fps := 1.0 / (t.finish - g.prev);
      fpsCounter.Update(fps);
      return Pacing.Pass(g.(prev := t.finish), Process, Some(fps), t.quit);
    }

    /** process_stream from time `now` over the passes `ticks`, the i-th
        pass reading the frame `frames[i]`: the counters evolve as Stream
        says, each processed frame goes through the frame step, and each
        sample goes into the frame-rate window. A max_fps of 0 makes the
        target interval raise before the loop starts. */
    method ProcessStream(now: real, ticks: seq<Tick>, frames: seq<FrameInput>) returns (run: Pacing.Run)
      requires Valid() && |frames| == |ticks|
      modifies this, channel, fpsCounter
      ensures Valid()
      ensures TargetInterval(config.maxFps).None? ==> run == Pacing.Run(Start(now), [], [], false)
      ensures TargetInterval(config.maxFps).Some? ==> run == Stream(Start(now), ticks, TargetInterval(config.maxFps).value)
      ensures fpsCounter.samples == old(fpsCounter.samples) + run.samples
      ensures TargetInterval(config.maxFps).None? ==> EngineState() == old(EngineState())
      ensures TargetInterval(config.maxFps).Some? ==>
        EngineState() == Passes(Start(now), ticks, frames, TargetInterval(config.maxFps).value, old(EngineState()), CurrentTuning())
    {
      var interval := TargetInterval(config.maxFps);
      if interval.None? {
        return Pacing.Run(Start(now), [], [], false);
      }
      var target := interval.value;
      var pace := Start(now);
      var processed: seq<int> := [];
      var samples: seq<real> := [];
      ghost var whole := Stream(pace, ticks, target);
      ghost var samples0 := fpsCounter.samples;
      ghost var tn := CurrentTuning();
      ghost var final := Passes(pace, ticks, frames, target, EngineState(), tn);
      var i := 0;
      assert ticks[0..] == ticks && frames[0..] == frames;
      assert whole == After([], [], Stream(pace, ticks[0..], target));
      while i < |ticks|
        invariant 0 <= i <= |ticks| && pace.skipCount >= 0
        invariant Valid() && fpsCounter.samples == samples0 + samples
        invariant TargetInterval(config.maxFps) == interval
        invariant whole == After(processed, samples, Stream(pace, ticks[i..], target))
        invariant CurrentTuning() == tn
        invariant Passes(pace, ticks[i..], frames[i..], target, EngineState(), tn) == final
      {
        assert ticks[i..][0] == ticks[i] && ticks[i..][1..] == ticks[i + 1..];
        assert frames[i..][0] == frames[i] && frames[i..][1..] == frames[i + 1..];
        StreamFirst(pace, ticks[i..], target, processed, samples);
        PassesFirst(pace, ticks[i..], frames[i..], target, EngineState(), tn);
        var s := PassOnce(pace, ticks[i], target, frames[i]);
        processed := processed + ProcessedBy(s);
        samples := samples + SampledBy(s);
        if s.quit {
          return Pacing.Run(s.pace, processed, samples, true);
        }
        pace := s.pace;
        i := i + 1;
      }
      assert ticks[i..] == [];
      return Pacing.Run(pace, processed, samples, false);
    }
  }

  /** The alarm of a running processor, poll by poll: the status the status
      panel shows after a held pinch follows the episode's duration. */
  lemma StatusOfHeldPinch(polls: seq<(real, bool)>, triggers: seq<int>)
    requires polls != [] && polls[0].0 > 0.0 && TimesAscending(polls)
    requires |triggers| > 0 && Ascending(triggers) && forall k :: k in triggers ==> k > 0
    ensures var f := Hold(Idle, polls, triggers);
      var d := polls[|polls| - 1].0 - polls[0].0;
      StatusText(StatusOf(f, triggers)) ==
        if Last(triggers) as real <= d then "持续报警 (" + IntToString(Last(triggers)) + "秒)"
        else if Reached(triggers, d) != {} then "报警触发 (" + IntToString(MaxOf(Reached(triggers, d))) + "秒)"
        else "检测中"
  {
    StatusWhileHeld(polls, triggers);
  }
}
