/**
 * The progress timer of useStoryTimer.
 *
 * Wall-clock reads are the parameter `now` (milliseconds). The periodic
 * interval callback is `Tick(now)`, delivered by the scheduler; a cleared
 * interval delivers nothing. The hook's effect re-runs when its key, pause
 * flag or duration changes, always after the previous run's cleanup: that is
 * `Effect`, which calls `Clear()` and then `RunEffect` (the effect body).
 *
 * TimerState and the step functions are the specification; StoryTimer is the
 * hook's refs and progress state.
 */
module Timer {
  import opened StoryTypes

  /** The restart key: the current story's id, or undefined. */
  type Key = Option<string>

  /** `Math.min` */
  function Min(a: real, b: real): real
  {
    if a <= b then a else b
  }

  /** `Math.min(elapsed / duration, 1)` for a positive duration. */
  function ProgressOf(elapsed: int, duration: int): (p: real)
    requires duration > 0
    ensures p <= 1.0
    ensures elapsed >= 0 ==> 0.0 <= p
    ensures p == 1.0 <==> elapsed >= duration
  {
    DivAtLeastOne(elapsed as real, duration as real);
    Min(elapsed as real / duration as real, 1.0)
  }

  lemma DivAtLeastOne(e: real, d: real)
    requires d > 0.0
    ensures e / d >= 1.0 <==> e >= d
  {
    var q := e / d;
    assert q * d == e;
    assert (q - 1.0) * d == e - d;
  }

  lemma ProgressMonotone(e1: int, e2: int, duration: int)
    requires duration > 0 && e1 <= e2
    ensures ProgressOf(e1, duration) <= ProgressOf(e2, duration)
  {
    var d := duration as real;
    assert e2 as real / d - e1 as real / d == (e2 - e1) as real / d;
  }

  datatype TimerState = TimerState(
    elapsed: int,          // elapsedRef: playback time banked by earlier runs
    startTime: int,        // startTimeRef: when the current run started (never zeroed)
    intervalActive: bool,  // intervalRef is not null
    hasCompleted: bool,    // hasCompletedRef
    prevKey: Key,          // prevKeyRef
    progress: real,        // the published progress
    tickDuration: int      // the duration the running interval callback closed over
  )

  /** The refs and state on mount. */
  function Initial(key: Key): TimerState
  {
    TimerState(0, 0, false, false, key, 0.0, 0)
  }

  /** A running interval has a positive duration and has not completed. */
  predicate Armed(s: TimerState)
  {
    s.intervalActive ==> s.tickDuration > 0 && !s.hasCompleted
  }

  /** Armed, no negative banked time, and the published progress lies in [0, 1]. */
  predicate ValidState(s: TimerState)
  {
    Armed(s) && s.elapsed >= 0 && 0.0 <= s.progress <= 1.0
  }

  /** clear: stop the interval, if any. */
  function Cleared(s: TimerState): (r: TimerState)
    ensures !r.intervalActive
    ensures Armed(s) ==> Armed(r)
    ensures ValidState(s) ==> ValidState(r)
  {
    s.(intervalActive := false)
  }

  /** reset: zero progress, banked time and the completion flag; the interval keeps running. */
  function ResetState(s: TimerState): (r: TimerState)
    ensures Armed(s) ==> Armed(r)
    ensures ValidState(s) ==> ValidState(r)
  {
    s.(progress := 0.0, elapsed := 0, hasCompleted := false)
  }

  /** The effect body, on whatever state the cleanup left. */
  function EffectBody(s: TimerState, key: Key, isPaused: bool, duration: int, now: int): (r: TimerState)
    requires duration > 0
    ensures Armed(s) ==> Armed(r)
    ensures ValidState(s) && now >= s.startTime ==> ValidState(r)
  {
    var s1 :=
      if s.prevKey != key then s.(progress := 0.0, elapsed := 0, hasCompleted := false, prevKey := key)
      else s;
    if isPaused then
      var banked :=
        if s1.intervalActive then s1.elapsed + (now - s1.startTime)
        else if s1.startTime > 0 then s1.elapsed + (now - s1.startTime)
        else s1.elapsed;
      s1.(elapsed := banked, intervalActive := false, progress := ProgressOf(banked, duration))
    else if s1.hasCompleted then
      s1
    else
      s1.(startTime := now, intervalActive := true, tickDuration := duration)
  }

  /** A run of the effect: the previous run's cleanup, then the body. */
  function Rerun(s: TimerState, key: Key, isPaused: bool, duration: int, now: int): (r: TimerState)
    requires duration > 0
    ensures Armed(r)
    ensures ValidState(s) && now >= s.startTime ==> ValidState(r)
    ensures r.prevKey == key
  {
    EffectBody(Cleared(s), key, isPaused, duration, now)
  }

  /** One interval callback: the new state and whether onComplete was called. */
  function TickStep(s: TimerState, now: int): (r: (TimerState, bool))
    requires Armed(s)
    ensures Armed(r.0)
    ensures ValidState(s) && now >= s.startTime ==> ValidState(r.0)
    ensures !s.intervalActive ==> r == (s, false)
    ensures s.intervalActive ==>
      (r.1 <==> !s.hasCompleted && s.elapsed + (now - s.startTime) >= s.tickDuration)
    ensures r.1 ==> !s.hasCompleted && r.0.hasCompleted && !r.0.intervalActive
    ensures r.0.prevKey == s.prevKey && r.0.elapsed == s.elapsed && r.0.startTime == s.startTime
  {
    if !s.intervalActive then
      (s, false)
    else
      var p := ProgressOf(s.elapsed + (now - s.startTime), s.tickDuration);
      if p >= 1.0 && !s.hasCompleted then
        (s.(progress := p, hasCompleted := true, intervalActive := false), true)
      else
        (s.(progress := p), false)
  }

  // ---------------------------------------------------------------------
  // Properties of single steps

  /** A new key starts a fresh epoch: zero progress, nothing banked, not completed. */
  lemma KeyChangeStartsEpoch(s: TimerState, key: Key, duration: int, now: int)
    requires duration > 0 && key != s.prevKey
    ensures var r := Rerun(s, key, false, duration, now);
      && r.prevKey == key && r.elapsed == 0 && r.progress == 0.0 && !r.hasCompleted
      && r.intervalActive && r.startTime == now && r.tickDuration == duration
  {
  }

  /**
   * A paused run leaves no interval and publishes min(elapsed / duration, 1),
   * where elapsed is the banked time plus `now - startTime` whenever startTime
   * is positive. After the cleanup the interval is always gone, so it is the
   * "cleanup already cleared it" branch that banks the time.
   */
  lemma PausedRunFreezes(s: TimerState, key: Key, duration: int, now: int)
    requires duration > 0
    ensures var r := Rerun(s, key, true, duration, now);
      var banked := if key != s.prevKey then 0 else s.elapsed;
      && !r.intervalActive
      && r.elapsed == banked + (if s.startTime > 0 then now - s.startTime else 0)
      && r.progress == ProgressOf(r.elapsed, duration)
  {
  }

  /** Once completed, a run with the same key starts no interval, paused or not. */
  lemma CompletedStartsNoInterval(s: TimerState, isPaused: bool, duration: int, now: int)
    requires duration > 0 && s.hasCompleted
    ensures var r := Rerun(s, s.prevKey, isPaused, duration, now);
      !r.intervalActive && r.hasCompleted
  {
  }

  /** clear leaves no interval and is idempotent; it touches nothing else. */
  lemma ClearIdempotent(s: TimerState)
    ensures !Cleared(s).intervalActive
    ensures Cleared(Cleared(s)) == Cleared(s)
    ensures Cleared(s).(intervalActive := s.intervalActive) == s
  {
  }

  /**
   * reset does not stop a running interval, and does not move startTime:
   * the next tick counts from the old run start with nothing banked.
   */
  lemma ResetKeepsInterval(s: TimerState, now: int)
    requires Armed(s) && s.intervalActive
    ensures var r := ResetState(s);
      && r.intervalActive && r.progress == 0.0 && r.elapsed == 0 && !r.hasCompleted
      && TickStep(r, now).0.progress == ProgressOf(now - s.startTime, s.tickDuration)
  {
  }

  /** For a fixed running state, the tick's progress is non-decreasing in `now`. */
  lemma TickMonotoneInNow(s: TimerState, now1: int, now2: int)
    requires Armed(s) && s.intervalActive && now1 <= now2
    ensures TickStep(s, now1).0.progress <= TickStep(s, now2).0.progress
  {
    ProgressMonotone(s.elapsed + (now1 - s.startTime), s.elapsed + (now2 - s.startTime), s.tickDuration);
  }

  /** Two successive ticks publish non-decreasing progress. */
  lemma SuccessiveTicksNonDecreasing(s: TimerState, now1: int, now2: int)
    requires Armed(s) && now1 <= now2
    requires TickStep(s, now1).0.intervalActive
    ensures TickStep(s, now1).0.progress <= TickStep(TickStep(s, now1).0, now2).0.progress
  {
    var s1 := TickStep(s, now1).0;
    ProgressMonotone(s1.elapsed + (now1 - s1.startTime), s1.elapsed + (now2 - s1.startTime), s1.tickDuration);
  }

  /**
   * Pause fidelity on the clean path: pausing a running timer publishes
   * exactly what a tick at that instant would, resuming banks it, and ticks
   * after the resume continue from that value, never below it.
   */
  lemma PauseResumeFidelity(s: TimerState, tPause: int, tResume: int, tTick: int)
    requires Armed(s) && s.intervalActive && s.startTime > 0
    requires s.startTime <= tPause <= tResume <= tTick
    ensures var d := s.tickDuration;
      var paused := Rerun(s, s.prevKey, true, d, tPause);
      var resumed := Rerun(paused, s.prevKey, false, d, tResume);
      && paused.progress == TickStep(s, tPause).0.progress
      && resumed.intervalActive && resumed.elapsed == paused.elapsed && resumed.startTime == tResume
      && TickStep(resumed, tResume).0.progress == paused.progress
      && paused.progress <= TickStep(resumed, tTick).0.progress
  {
    var d := s.tickDuration;
    var paused := Rerun(s, s.prevKey, true, d, tPause);
    var resumed := Rerun(paused, s.prevKey, false, d, tResume);
    ProgressMonotone(paused.elapsed, resumed.elapsed + (tTick - tResume), d);
  }

  /**
   * The stale path: startTime is never zeroed, so a run while already paused
   * banks the old run's time a second time. Here a story ran from 1000 to
   * 2000 (paused at 0.2); a re-run at 3000 with the same key while still
   * paused publishes 0.6, and a new key at 3000 while paused starts the new
   * story at 0.4 instead of 0.
   */
  lemma PausedRerunBanksStaleTime()
    ensures var running := TimerState(0, 1000, true, false, Some("a"), 0.0, 5000);
      var paused := Rerun(running, Some("a"), true, 5000, 2000);
      && paused.elapsed == 1000 && paused.progress == 0.2
      && Rerun(paused, Some("a"), true, 5000, 3000).elapsed == 3000
      && Rerun(paused, Some("a"), true, 5000, 3000).progress == 0.6
      && Rerun(paused, Some("b"), true, 5000, 3000).elapsed == 2000
      && Rerun(paused, Some("b"), true, 5000, 3000).progress == 0.4
  {
  }

  // ---------------------------------------------------------------------
  // Runs of events: completion fires at most once per key

  datatype TimerEvent =
    | TickAt(now: int)
    | EffectRun(key: Key, isPaused: bool, duration: int, now: int)
    | ResetCall

  predicate PositiveDurations(evs: seq<TimerEvent>)
  {
    forall i :: 0 <= i < |evs| ==> (evs[i].EffectRun? ==> evs[i].duration > 0)
  }

  /** One event: the new state and whether onComplete was called. */
  function Step(s: TimerState, e: TimerEvent): (r: (TimerState, bool))
    requires Armed(s) && (e.EffectRun? ==> e.duration > 0)
    ensures Armed(r.0)
  {
    match e
    case TickAt(now) => TickStep(s, now)
    case EffectRun(key, isPaused, duration, now) => (Rerun(s, key, isPaused, duration, now), false)
    case ResetCall => (ResetState(s), false)
  }

  /** The state after a run of events, and how many times onComplete was called. */
  function Replay(s: TimerState, evs: seq<TimerEvent>): (TimerState, nat)
    requires Armed(s) && PositiveDurations(evs)
    decreases |evs|
  {
    if evs == [] then (s, 0)
    else
      var (s1, fired) := Step(s, evs[0]);
      var (s2, n) := Replay(s1, evs[1..]);
      (s2, n + if fired then 1 else 0)
  }

  /** Events that keep the epoch: ticks, and effect runs with the same key. */
  predicate SameEpoch(evs: seq<TimerEvent>, key: Key)
  {
    forall i :: 0 <= i < |evs| ==> (evs[i].TickAt? || (evs[i].EffectRun? && evs[i].key == key))
  }

  /**
   * Without a key change or a reset, onComplete is called at most once
   * however many ticks and effect runs follow, and never again once it has
   * been called.
   */
  lemma {:induction false} CompletesAtMostOnce(s: TimerState, evs: seq<TimerEvent>)
    requires Armed(s) && PositiveDurations(evs) && SameEpoch(evs, s.prevKey)
    ensures Replay(s, evs).1 <= if s.hasCompleted then 0 else 1
    decreases |evs|
  {
    if evs != [] {
      var (s1, fired) := Step(s, evs[0]);
      assert s1.prevKey == s.prevKey;
      assert s.hasCompleted ==> s1.hasCompleted && !fired;
      assert fired ==> s1.hasCompleted;
      assert PositiveDurations(evs[1..]) by {
        forall i | 0 <= i < |evs[1..]| ensures evs[1..][i].EffectRun? ==> evs[1..][i].duration > 0 {
          assert evs[1..][i] == evs[i + 1];
        }
      }
      assert SameEpoch(evs[1..], s.prevKey) by {
        forall i | 0 <= i < |evs[1..]|
          ensures evs[1..][i].TickAt? || (evs[1..][i].EffectRun? && evs[1..][i].key == s.prevKey)
        {
          assert evs[1..][i] == evs[i + 1];
        }
      }
      CompletesAtMostOnce(s1, evs[1..]);
    }
  }

  /** A new key re-arms completion: the next epoch can complete again. */
  lemma NewKeyRearms(s: TimerState, key: Key, duration: int, now: int)
    requires duration > 0 && key != s.prevKey && s.hasCompleted
    ensures var r := Rerun(s, key, false, duration, now);
      r.intervalActive && !r.hasCompleted && TickStep(r, now + duration).1
  {
  }

  // ---------------------------------------------------------------------
  // The hook's refs and state

  class StoryTimer {
    var elapsed: int
    var startTime: int
    var intervalActive: bool
    var hasCompleted: bool
    var prevKey: Key
    var progress: real
    var tickDuration: int

    function State(): TimerState
      reads this
    {
      TimerState(elapsed, startTime, intervalActive, hasCompleted, prevKey, progress, tickDuration)
    }

    ghost predicate Valid()
      reads this
    {
      ValidState(State())
    }

    constructor (key: Key)
      ensures State() == Initial(key) && Valid()
    {
      elapsed, startTime, intervalActive, hasCompleted := 0, 0, false, false;
      prevKey, progress, tickDuration := key, 0.0, 0;
    }

    method Clear()
      modifies this
      ensures State() == Cleared(old(State()))
    {
      if intervalActive {
        intervalActive := false;
      }
    }

    /** reset: the clear() call is commented out in the hook, so a running interval survives. */
    method Reset()
      modifies this
      ensures State() == ResetState(old(State()))
    {
      progress := 0.0;
      elapsed := 0;
      hasCompleted := false;
    }

    /** The effect body on [key, isPaused, duration]. */
    method RunEffect(key: Key, isPaused: bool, duration: int, now: int)
      requires duration > 0
      modifies this
      ensures State() == EffectBody(old(State()), key, isPaused, duration, now)
    {
      if prevKey != key {
        progress := 0.0;
        elapsed := 0;
        hasCompleted := false;
        prevKey := key;
      }
      if isPaused {
        if intervalActive {
          elapsed := elapsed + (now - startTime);
          Clear();
        } else if startTime > 0 {
          elapsed := elapsed + (now - startTime);
        }
        progress := Min(elapsed as real / duration as real, 1.0);
        return;
      }
      if hasCompleted {
        return;
      }
      startTime := now;
      intervalActive := true;
      tickDuration := duration;
    }

    /** A re-run of the effect: the previous run's cleanup, then the body. */
    method Effect(key: Key, isPaused: bool, duration: int, now: int)
      requires Valid() && duration > 0 && now >= startTime
      modifies this
      ensures Valid()
      ensures State() == Rerun(old(State()), key, isPaused, duration, now)
    {
      Clear();
      RunEffect(key, isPaused, duration, now);
    }

    /** One interval callback; `completed` says whether onComplete was called. */
    method Tick(now: int) returns (completed: bool)
      requires Valid() && now >= startTime
      modifies this
      ensures Valid()
      ensures (State(), completed) == TickStep(old(State()), now)
    {
      completed := false;
      if !intervalActive {
        return;
      }
      var newProgress := Min((elapsed + (now - startTime)) as real / tickDuration as real, 1.0);
      progress := newProgress;
      if newProgress >= 1.0 && !hasCompleted {
        hasCompleted := true;
        Clear();
        completed := true;
      }
    }
  }
}
