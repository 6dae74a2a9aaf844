// The alarm escalation state machine of a video processor, on values.
//
// A detection episode starts at the first positive detection poll; every
// trigger threshold (in seconds) that the episode's duration reaches fires
// once per episode, the last threshold of the configured list playing in a
// loop; a negative poll ends the episode. The class VideoProcessor (module
// VideoProcessing) runs exactly these steps on its fields, and its methods
// are proved against the functions here.

module Alarm {
  import opened Common

  /** One call on a camera's audio channel: `play(sound, loops)` or `stop()`.
      `loops` is -1 (repeat until stopped) or 0 (play once). */
  datatype AudioCall = Play(tier: int, loops: int) | Stop

  /** The part of a video processor that the escalation works on:
      `start` is detection_start_time (0 = no episode), `active` is
      alarm_active, `played` is played_sounds. */
  datatype Episode = Episode(start: real, active: bool, played: set<int>)

  /** The state of a fresh processor, and the state after any reset. */
  const Idle := Episode(0.0, false, {})

  // ---------------------------------------------------------------------
  // sorted(): the trigger list is walked in ascending order

  predicate Ascending(s: seq<int>)
  {
    forall i, j :: 0 <= i < j < |s| ==> s[i] <= s[j]
  }

  predicate StrictlyAscending(s: seq<int>)
  {
    forall i, j :: 0 <= i < j < |s| ==> s[i] < s[j]
  }

  function Insert(x: int, s: seq<int>): (r: seq<int>)
    requires Ascending(s)
    ensures |r| == |s| + 1 && (r[0] == x || (|s| > 0 && r[0] == s[0]))
    ensures Ascending(r) && multiset(r) == multiset(s) + multiset{x}
  {
    if s == [] || x <= s[0] then [x] + s
    else
      var rest := Insert(x, s[1..]);
      assert s == [s[0]] + s[1..];
      assert forall j :: 0 <= j < |rest| ==> s[0] <= rest[0] <= rest[j];
      [s[0]] + rest
  }

  /** Python's sorted() on a list of ints: an ascending permutation. */
  function Sort(s: seq<int>): (r: seq<int>)
    ensures Ascending(r) && multiset(r) == multiset(s)
  {
    if s == [] then []
    else
      assert s == [s[0]] + s[1..];
      Insert(s[0], Sort(s[1..]))
  }

  // ---------------------------------------------------------------------
  // _update_alarm_state: one positive detection poll

  /** The thresholds of `tiers` that a detection lasting `d` seconds has reached. */
  function Reached(tiers: seq<int>, d: real): set<int>
  {
    set k | k in tiers && k as real <= d
  }

  /** The loops argument _trigger_alarm passes for a tier: -1 for the last
      configured trigger, 0 otherwise. */
  function LoopsFor(tier: int, last: int): int
  {
    if tier == last then -1 else 0
  }

  /** What the trigger loop has produced so far: the played set, the
      alarm_active flag, whether the channel is busy, the calls made on the
      channel, and the tiers fired, in the order they fired. */
  datatype Tally = Tally(played: set<int>, active: bool, busy: bool, calls: seq<AudioCall>, fired: seq<int>)

  /** One iteration of the trigger loop for threshold k. A reached threshold
      that has not been played yet sets alarm_active, asks the channel to play
      (which it does only when idle, and then it is busy) and is recorded as
      played whether or not a sound started. */
  function Consider(k: int, d: real, last: int, t: Tally): Tally
  {
    if k as real <= d && k !in t.played then
      Tally(t.played + {k}, true, true,
            if t.busy then t.calls else t.calls + [Play(k, LoopsFor(k, last))],
            t.fired + [k])
    else t
  }

  /** The trigger loop over the remaining thresholds `tiers`. */
  function Escalate(tiers: seq<int>, d: real, last: int, t: Tally): Tally
  {
    if tiers == [] then t else Escalate(tiers[1..], d, last, Consider(tiers[0], d, last, t))
  }

  /** The result of one positive poll: the new episode, whether the channel
      is busy afterwards, the calls made on it, and the tiers fired. */
  datatype Poll = Poll(episode: Episode, busy: bool, calls: seq<AudioCall>, fired: seq<int>)

  /** detection_start_time after a positive poll: `now` when no episode was running. */
  function EpisodeStart(e: Episode, now: real): real
  {
    if e.start == 0.0 then now else e.start
  }

  /** played_sounds as the trigger loop finds it: cleared when a new episode starts. */
  function PlayedBefore(e: Episode): set<int>
  {
    if e.start == 0.0 then {} else e.played
  }

  /** The last element of the configured (unsorted) trigger list: the looping tier.
      When the list is empty no threshold fires, so the placeholder 0 is never looked at. */
  function LastOrZero(triggers: seq<int>): int
  {
    if |triggers| > 0 then triggers[|triggers| - 1] else 0
  }

  /** The trigger loop of _update_alarm_state: sorted(triggers), walked from a record
      holding the (possibly cleared) played set and the channel's busy flag. */
  function RunTriggers(e: Episode, now: real, triggers: seq<int>, busy: bool): Tally
  {
    Escalate(Sort(triggers), now - EpisodeStart(e, now), LastOrZero(triggers), Tally(PlayedBefore(e), e.active, busy, [], []))
  }

  /** _update_alarm_state at time `now`, with the configured trigger list
      `triggers` and the channel's busy flag. */
  function OnGesture(e: Episode, now: real, triggers: seq<int>, busy: bool): Poll
  {
    var t := RunTriggers(e, now, triggers, busy);
    Poll(Episode(EpisodeStart(e, now), t.active, t.played), t.busy, t.calls, t.fired)
  }

  /** _reset_alarm: the episode is cleared and the channel is stopped,
      whatever the state was. */
  function OnReset(e: Episode): (p: Poll)
    ensures p.episode == Idle && p.calls == [Stop] && !p.busy && p.fired == []
  {
    Poll(Idle, false, [Stop], [])
  }

  // ---------------------------------------------------------------------
  // Properties of the trigger loop

  /** Walking the list adds exactly the reached thresholds to the played set. */
  lemma {:induction false} EscalatePlayed(tiers: seq<int>, d: real, last: int, t: Tally)
    ensures Escalate(tiers, d, last, t).played == t.played + Reached(tiers, d)
    decreases |tiers|
  {
    if tiers != [] {
      var t' := Consider(tiers[0], d, last, t);
      EscalatePlayed(tiers[1..], d, last, t');
      assert Reached(tiers, d) == Reached([tiers[0]], d) + Reached(tiers[1..], d) by {
        assert tiers == [tiers[0]] + tiers[1..];
      }
    }
  }

  /** The tiers fired in one loop are exactly the reached thresholds that had
      not been played, each fired once, and they extend the earlier record. */
  lemma {:induction false} EscalateFired(tiers: seq<int>, d: real, last: int, t: Tally)
    requires forall i :: 0 <= i < |t.fired| ==> t.fired[i] in t.played
    requires forall i, j :: 0 <= i < j < |t.fired| ==> t.fired[i] != t.fired[j]
    ensures var r := Escalate(tiers, d, last, t);
      && |r.fired| >= |t.fired| && r.fired[..|t.fired|] == t.fired
      && (forall i :: |t.fired| <= i < |r.fired| ==> r.fired[i] in Reached(tiers, d) - t.played)
      && (forall k :: k in Reached(tiers, d) - t.played ==> k in r.fired[|t.fired|..])
      && (forall i, j :: 0 <= i < j < |r.fired| ==> r.fired[i] != r.fired[j])
    decreases |tiers|
  {
    if tiers != [] {
      var t' := Consider(tiers[0], d, last, t);
      EscalateFired(tiers[1..], d, last, t');
      var r := Escalate(tiers, d, last, t);
      assert tiers == [tiers[0]] + tiers[1..];
      assert Reached(tiers, d) == Reached([tiers[0]], d) + Reached(tiers[1..], d);
      assert r.fired[..|t'.fired|] == t'.fired;
      forall k | k in Reached(tiers, d) - t.played
        ensures k in r.fired[|t.fired|..]
      {
        if k in t'.played {
          assert t'.fired == t.fired + [k];
          assert r.fired[|t.fired|] == k;
        } else {
          assert k in r.fired[|t'.fired|..];
        }
      }
    }
  }

  /** alarm_active and the busy flag are raised exactly when something fired. */
  lemma {:induction false} EscalateFlags(tiers: seq<int>, d: real, last: int, t: Tally)
    ensures var r := Escalate(tiers, d, last, t);
      && |r.fired| >= |t.fired|
      && r.active == (t.active || |r.fired| > |t.fired|)
      && r.busy == (t.busy || |r.fired| > |t.fired|)
    decreases |tiers|
  {
    if tiers != [] {
      EscalateFlags(tiers[1..], d, last, Consider(tiers[0], d, last, t));
    }
  }

  /** At most one sound is started per loop: the first tier fired, and only
      when the channel was idle; every later tier finds the channel busy. */
  lemma {:induction false} EscalateCalls(tiers: seq<int>, d: real, last: int, t: Tally)
    ensures var r := Escalate(tiers, d, last, t);
      && |r.fired| >= |t.fired|
      && r.calls == t.calls + (if t.busy || |r.fired| == |t.fired| then []
                               else [Play(r.fired[|t.fired|], LoopsFor(r.fired[|t.fired|], last))])
    decreases |tiers|
  {
    if tiers != [] {
      var t' := Consider(tiers[0], d, last, t);
      EscalateCalls(tiers[1..], d, last, t');
      EscalateFlags(tiers[1..], d, last, t');
      var r := Escalate(tiers, d, last, t);
      if |t'.fired| > |t.fired| {
        assert r.fired[|t.fired|] == tiers[0] by {
          PrefixKept(tiers[1..], d, last, t');
        }
      }
    }
  }

  /** The trigger loop only appends to the record of fired tiers. */
  lemma {:induction false} PrefixKept(tiers: seq<int>, d: real, last: int, t: Tally)
    ensures var r := Escalate(tiers, d, last, t);
      |r.fired| >= |t.fired| && r.fired[..|t.fired|] == t.fired
    decreases |tiers|
  {
    if tiers != [] {
      var t' := Consider(tiers[0], d, last, t);
      PrefixKept(tiers[1..], d, last, t');
    }
  }

  /** Over an ascending list the tiers fire in strictly ascending order. */
  lemma {:induction false} EscalateAscending(tiers: seq<int>, d: real, last: int, t: Tally)
    requires Ascending(tiers) && StrictlyAscending(t.fired)
    requires forall i :: 0 <= i < |t.fired| ==> t.fired[i] in t.played
    requires forall i, j :: 0 <= i < |t.fired| && 0 <= j < |tiers| ==> t.fired[i] <= tiers[j]
    ensures StrictlyAscending(Escalate(tiers, d, last, t).fired)
    decreases |tiers|
  {
    if tiers != [] {
      var t' := Consider(tiers[0], d, last, t);
      assert forall i, j :: 0 <= i < |t'.fired| && 0 <= j < |tiers[1..]| ==> t'.fired[i] <= tiers[1..][j] by {
        forall i, j | 0 <= i < |t'.fired| && 0 <= j < |tiers[1..]|
          ensures t'.fired[i] <= tiers[1..][j]
        {
          assert tiers[1..][j] == tiers[j + 1];
          if i < |t.fired| { assert t'.fired[i] == t.fired[i]; }
        }
      }
      EscalateAscending(tiers[1..], d, last, t');
    }
  }

  // ---------------------------------------------------------------------
  // Properties of one positive poll

  /** The last element of the configured trigger list: the looping tier. */
  function Last(triggers: seq<int>): int
    requires |triggers| > 0
  {
    triggers[|triggers| - 1]
  }

  /** Sorting keeps the length. */
  lemma SortLength(s: seq<int>)
    ensures |Sort(s)| == |s|
  {
    assert |multiset(Sort(s))| == |multiset(s)|;
  }

  lemma SortedReached(triggers: seq<int>, d: real)
    ensures Reached(Sort(triggers), d) == Reached(triggers, d)
  {
    var s := Sort(triggers);
    assert forall k :: k in s <==> k in multiset(s);
    assert forall k :: k in triggers <==> k in multiset(triggers);
  }

  /** The first positive poll of an episode sets its start to `now` and
      empties the played set; later polls keep the start. Either way the
      played set gains exactly the thresholds reached by the duration. */
  lemma GesturePlayed(e: Episode, now: real, triggers: seq<int>, busy: bool)
    ensures var p := OnGesture(e, now, triggers, busy);
      && p.episode.start == (if e.start == 0.0 then now else e.start)
      && p.episode.played == (if e.start == 0.0 then {} else e.played) + Reached(triggers, now - p.episode.start)
  {
    var d := now - EpisodeStart(e, now);
    EscalatePlayed(Sort(triggers), d, LastOrZero(triggers), Tally(PlayedBefore(e), e.active, busy, [], []));
    SortedReached(triggers, d);
  }

  /** The tiers fired by one poll are the newly reached thresholds, each
      once, in ascending order, even when the duration jumped past several. */
  lemma GestureFired(e: Episode, now: real, triggers: seq<int>, busy: bool)
    ensures var p := OnGesture(e, now, triggers, busy);
      && StrictlyAscending(p.fired)
      && (forall k :: k in p.fired <==> k in Reached(triggers, now - p.episode.start) - PlayedBefore(e))
  {
    var d := now - EpisodeStart(e, now);
    var t0 := Tally(PlayedBefore(e), e.active, busy, [], []);
    var r := Escalate(Sort(triggers), d, LastOrZero(triggers), t0);
    assert OnGesture(e, now, triggers, busy).fired == r.fired;
    assert OnGesture(e, now, triggers, busy).episode.start == EpisodeStart(e, now);
    FreshFired(Sort(triggers), d, LastOrZero(triggers), t0);
    SortedReached(triggers, d);
  }

  /** EscalateFired and EscalateAscending for a loop that starts with an
      empty record, stated on membership. */
  lemma FreshFired(tiers: seq<int>, d: real, last: int, t: Tally)
    requires t.fired == [] && Ascending(tiers)
    ensures var r := Escalate(tiers, d, last, t);
      && StrictlyAscending(r.fired)
      && (forall k :: k in r.fired <==> k in Reached(tiers, d) - t.played)
  {
    var r := Escalate(tiers, d, last, t);
    EscalateFired(tiers, d, last, t);
    assert r.fired[|t.fired|..] == r.fired;
    EscalateAscending(tiers, d, last, t);
  }

  /** alarm_active is raised exactly when the poll fires a tier, and a poll
      never lowers it. */
  lemma GestureActive(e: Episode, now: real, triggers: seq<int>, busy: bool)
    ensures var p := OnGesture(e, now, triggers, busy);
      p.episode.active == (e.active || p.fired != [])
  {
    var d := now - EpisodeStart(e, now);
    EscalateFlags(Sort(triggers), d, LastOrZero(triggers), Tally(PlayedBefore(e), e.active, busy, [], []));
  }

  /** The channel is asked to play only when it was idle, and then only the
      lowest newly reached tier, looping exactly when that tier is the last
      element of the configured list; a busy channel gets no call at all. */
  lemma GestureAudio(e: Episode, now: real, triggers: seq<int>, busy: bool)
    ensures var p := OnGesture(e, now, triggers, busy);
      && p.busy == (busy || p.fired != [])
      && p.calls == (if busy || p.fired == [] then []
                     else [Play(p.fired[0], if p.fired[0] == Last(triggers) then -1 else 0)])
  {
    var d := now - EpisodeStart(e, now);
    var t := Tally(PlayedBefore(e), e.active, busy, [], []);
    EscalateFlags(Sort(triggers), d, LastOrZero(triggers), t);
    EscalateCalls(Sort(triggers), d, LastOrZero(triggers), t);
    var r := RunTriggers(e, now, triggers, busy);
    assert r == Escalate(Sort(triggers), d, LastOrZero(triggers), t);
    if r.fired != [] {
      assert r.fired[0] in r.fired;
      FreshFired(Sort(triggers), d, LastOrZero(triggers), t);
      SortedReached(triggers, d);
      assert r.fired[0] in Reached(triggers, d);
      assert LastOrZero(triggers) == Last(triggers);
    }
  }

  // ---------------------------------------------------------------------
  // get_alarm_status, get_detection_duration and the alarm level

  /** The status get_alarm_status reports, before it is rendered as text. */
  datatype AlarmStatus = Continuous(tier: int) | Triggered(tier: int) | Tracking | NoAlarm

  /** A set of ints that is not empty has a greatest element. */
  lemma {:induction false} MaxWitness(s: set<int>) returns (top: int)
    requires s != {}
    ensures top in s && forall x :: x in s ==> x <= top
    decreases |s|
  {
    var y := Pick(s);
    var rest := s - {y};
    if rest == {} {
      top := y;
    } else {
      var m := MaxWitness(rest);
      top := if y > m then y else m;
    }
    forall x | x in s ensures x <= top {
      if x != y { assert x in rest; }
    }
  }

  lemma MaxExists(s: set<int>)
    requires s != {}
    ensures exists m :: m in s && forall x :: x in s ==> x <= m
  {
    var top := MaxWitness(s);
  }

  lemma Pick(s: set<int>) returns (y: int)
    requires s != {}
    ensures y in s
  {
    NoMemberEmpty(s);
    y :| y in s;
  }

  /** Python's max() of a non-empty set of ints. */
  function MaxOf(s: set<int>): (m: int)
    requires s != {}
    ensures m in s && forall x :: x in s ==> x <= m
  {
    MaxExists(s);
    var m :| m in s && forall x :: x in s ==> x <= m;
    m
  }

  /** get_alarm_status. The trigger list is indexed only when an alarm is
      active with something played, so only then must it be non-empty. */
  function StatusOf(e: Episode, triggers: seq<int>): AlarmStatus
    requires e.active && e.played != {} ==> |triggers| > 0
  {
    if e.active && e.played != {} then
      var top := MaxOf(e.played);
      if top == Last(triggers) then Continuous(top) else Triggered(top)
    else if e.start > 0.0 then Tracking
    else NoAlarm
  }

  /** The text get_alarm_status returns for a status. */
  function StatusText(st: AlarmStatus): string
  {
    match st
    case Continuous(t) => "持续报警 (" + IntToString(t) + "秒)"
    case Triggered(t) => "报警触发 (" + IntToString(t) + "秒)"
    case Tracking => "检测中"
    case NoAlarm => "无报警"
  }

  /** alarm_level: the number of tiers played this episode. */
  function AlarmLevel(e: Episode): nat
  {
    |e.played|
  }

  /** get_detection_duration: 0 when no episode is running. */
  function DetectionTime(e: Episode, now: real): real
  {
    if e.start > 0.0 then now - e.start else 0.0
  }

  /** After a reset the processor reports no alarm, level 0 and no detection time. */
  lemma ResetStatus(e: Episode, triggers: seq<int>, now: real)
    ensures var i := OnReset(e).episode;
      StatusOf(i, triggers) == NoAlarm && AlarmLevel(i) == 0 && DetectionTime(i, now) == 0.0
  {
  }

  /** Over an ascending trigger list, the highest reached threshold is the
      looping one exactly when the duration has reached the last trigger. */
  lemma {:induction false} ContinuousIff(triggers: seq<int>, d: real)
    requires |triggers| > 0 && Ascending(triggers) && Reached(triggers, d) != {}
    ensures MaxOf(Reached(triggers, d)) == Last(triggers) <==> Last(triggers) as real <= d
  {
    var top := MaxOf(Reached(triggers, d));
    if Last(triggers) as real <= d {
      assert Last(triggers) in Reached(triggers, d);
      assert forall k :: k in triggers ==> k <= Last(triggers);
    }
  }

  // ---------------------------------------------------------------------
  // An episode: positive polls one after another

  /** Positive polls at the given times, each with the channel's busy flag at
      that moment (a sound may have finished between two polls). */
  function Hold(e: Episode, polls: seq<(real, bool)>, triggers: seq<int>): Episode
    decreases |polls|
  {
    if polls == [] then e
    else Hold(OnGesture(e, polls[0].0, triggers, polls[0].1).episode, polls[1..], triggers)
  }

  predicate TimesAscending(polls: seq<(real, bool)>)
  {
    forall i, j :: 0 <= i < j < |polls| ==> polls[i].0 <= polls[j].0
  }

  /** The episode state a running episode has after a duration d. */
  ghost predicate Tracks(e: Episode, triggers: seq<int>, d: real)
  {
    e.start > 0.0 && e.played == Reached(triggers, d) && e.active == (e.played != {})
  }

  lemma ReachedMonotone(triggers: seq<int>, d1: real, d2: real)
    requires d1 <= d2
    ensures Reached(triggers, d1) <= Reached(triggers, d2)
  {
  }

  /** One more positive poll of a running episode keeps it tracking. */
  lemma GestureTracks(e: Episode, now: real, triggers: seq<int>, busy: bool, d: real)
    requires Tracks(e, triggers, d) && d <= now - e.start
    ensures Tracks(OnGesture(e, now, triggers, busy).episode, triggers, now - e.start)
  {
    GesturePlayed(e, now, triggers, busy);
    GestureActive(e, now, triggers, busy);
    GestureFired(e, now, triggers, busy);
    ReachedMonotone(triggers, d, now - e.start);
    var p := OnGesture(e, now, triggers, busy);
    if p.fired != [] {
      assert p.fired[0] in p.fired;
    } else {
      forall k ensures k in p.episode.played <==> k in e.played {
        assert k in Reached(triggers, now - e.start) - e.played ==> k in p.fired;
      }
    }
  }

  /** While the gesture is held, the played set is exactly the thresholds the
      episode's duration has reached: no tier is skipped when the duration
      jumps, none fires twice, and alarm_active says whether any fired. */
  lemma {:induction false} HoldTracks(e: Episode, polls: seq<(real, bool)>, triggers: seq<int>, d: real)
    requires Tracks(e, triggers, d) && TimesAscending(polls)
    requires polls != [] ==> d <= polls[0].0 - e.start
    ensures var f := Hold(e, polls, triggers);
      f.start == e.start && Tracks(f, triggers, if polls == [] then d else polls[|polls| - 1].0 - e.start)
    decreases |polls|
  {
    if polls != [] {
      var p := OnGesture(e, polls[0].0, triggers, polls[0].1);
      GestureTracks(e, polls[0].0, triggers, polls[0].1, d);
      GesturePlayed(e, polls[0].0, triggers, polls[0].1);
      HoldTracks(p.episode, polls[1..], triggers, polls[0].0 - e.start);
    }
  }

  /** An episode that starts from no alarm at a positive time `polls[0].0`:
      after the last poll, played_sounds is {t in triggers : t <= duration}. */
  lemma EpisodeFiresReached(polls: seq<(real, bool)>, triggers: seq<int>)
    requires polls != [] && polls[0].0 > 0.0 && TimesAscending(polls)
    requires forall k :: k in triggers ==> k > 0
    ensures var f := Hold(Idle, polls, triggers);
      f.start == polls[0].0 && Tracks(f, triggers, polls[|polls| - 1].0 - polls[0].0)
  {
    var p := OnGesture(Idle, polls[0].0, triggers, polls[0].1);
    FirstPoll(polls[0].0, triggers, polls[0].1);
    HoldTracks(p.episode, polls[1..], triggers, 0.0);
  }

  lemma HeadIn(s: seq<int>)
    ensures |s| > 0 ==> s[0] in s
  {
  }

  /** The first positive poll after no alarm starts the episode at `now`
      and, with positive thresholds, fires nothing. */
  lemma FirstPoll(now: real, triggers: seq<int>, busy: bool)
    requires now > 0.0 && forall k :: k in triggers ==> k > 0
    ensures var p := OnGesture(Idle, now, triggers, busy);
      p.episode.start == now && p.fired == [] && Tracks(p.episode, triggers, 0.0)
  {
    var p := OnGesture(Idle, now, triggers, busy);
    GesturePlayed(Idle, now, triggers, busy);
    GestureActive(Idle, now, triggers, busy);
    GestureFired(Idle, now, triggers, busy);
    assert Reached(triggers, 0.0) == {} by {
      forall k ensures k in Reached(triggers, 0.0) <==> k in {} {}
    }
    assert now - p.episode.start == 0.0;
    assert forall k :: k !in p.fired;
    HeadIn(p.fired);
  }

  /** The status while the gesture is held: tracking until the first
      threshold, then the highest reached tier, continuous once the last one
      is reached; the alarm level counts the thresholds reached. */
  lemma StatusWhileHeld(polls: seq<(real, bool)>, triggers: seq<int>)
    requires polls != [] && polls[0].0 > 0.0 && TimesAscending(polls)
    requires |triggers| > 0 && Ascending(triggers) && forall k :: k in triggers ==> k > 0
    ensures var f := Hold(Idle, polls, triggers);
      var d := polls[|polls| - 1].0 - polls[0].0;
      && AlarmLevel(f) == |Reached(triggers, d)|
      && StatusOf(f, triggers) ==
           if Last(triggers) as real <= d then Continuous(Last(triggers))
           else if Reached(triggers, d) != {} then Triggered(MaxOf(Reached(triggers, d)))
           else Tracking
  {
    var d := polls[|polls| - 1].0 - polls[0].0;
    var f := Hold(Idle, polls, triggers);
    var reached := Reached(triggers, d);
    EpisodeFiresReached(polls, triggers);
    assert f.played == reached && f.active == (reached != {}) && f.start > 0.0;
    assert Last(triggers) as real <= d ==> Last(triggers) in reached;
    if reached != {} {
      ContinuousIff(triggers, d);
      var top := MaxOf(reached);
      assert StatusOf(f, triggers) == if top == Last(triggers) then Continuous(top) else Triggered(top);
    } else {
      assert StatusOf(f, triggers) == Tracking;
    }
  }
}
