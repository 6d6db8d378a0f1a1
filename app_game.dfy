/** The game session of the canonical version.

    A session generates its levels, then a lookahead scheduler, re-armed
    every 25 ms, schedules each beat's voices on the audio clock slightly
    ahead of time and queues a visual callback for the moment the beat
    sounds. The visual callback carries the level the beat belongs to. After
    the last beat of the last level, a finish callback is queued one tempo
    later; the visual update is still allowed once the session has finished,
    so the last beat of the last level lights its cell. */
module AppGame {
  import opened Settings
  import opened Randomness
  import opened Pattern
  import opened Timeline
  import opened Levels
  import opened Display

  datatype State = Idle | Playing | Paused | Finished

  /** A queued `setTimeout` callback other than the scheduler's own tick. */
  datatype Deferred =
    | Visual(delayMs: real, level: int, beat: int)
    | Finish(delayMs: real)

  /** `Math.max(0, (time - now) * 1000)`: milliseconds until `time`, never negative. */
  function Delay(time: real, now: real): (ms: real)
    ensures ms >= 0.0
    ensures ms >= (time - now) * 1000.0
    ensures ms == 0.0 || ms == (time - now) * 1000.0
  {
    if (time - now) * 1000.0 > 0.0 then (time - now) * 1000.0 else 0.0
  }

  /** The visual callback `scheduleBeat` queues for the beat at clock `c`. */
  function VisualFor(c: Clock, total: int, now: real): seq<Deferred> {
    if c.level > total then [] else [Visual(Delay(c.time, now), c.level, c.beat)]
  }

  /** The finish callback `nextNote` queues when leaving `c` passes the last level. */
  function FinishFor(c: Clock, tempo: real, total: int): seq<Deferred> {
    if Wraps(c) && c.level + 1 > total then [Finish(tempo * 1000.0)] else []
  }

  /** The callbacks one scheduler iteration queues from clock `c`. */
  function BeatDeferred(c: Clock, tempo: real, total: int, now: real): seq<Deferred> {
    VisualFor(c, total, now) + FinishFor(c, tempo, total)
  }

  /** The callbacks `n` scheduler iterations from `c` queue. */
  function TickDeferred(c: Clock, tempo: real, total: int, now: real, n: nat): seq<Deferred>
    requires InPhase(c)
  {
    if n == 0 then [] else TickDeferred(c, tempo, total, now, n - 1) + BeatDeferred(Steps(c, tempo, n - 1), tempo, total, now)
  }

  /** Number of finish callbacks in `ds`. */
  function Finishes(ds: seq<Deferred>): nat {
    if ds == [] then 0 else Finishes(ds[..|ds| - 1]) + (if ds[|ds| - 1].Finish? then 1 else 0)
  }

  lemma FinishesAppend(a: seq<Deferred>, b: seq<Deferred>)
    ensures Finishes(a + b) == Finishes(a) + Finishes(b)
    decreases |b|
  {
    if b == [] {
      assert a + b == a;
    } else {
      assert (a + b)[..|a + b| - 1] == a + b[..|b| - 1];
      assert (a + b)[|a + b| - 1] == b[|b| - 1];
      FinishesAppend(a, b[..|b| - 1]);
    }
  }

  /** The first session clock: level 1, beat 0, half a second after `start`. */
  function SessionStart(start: real): Clock {
    Clock(start + LeadIn, 0, 1)
  }

  /** The step leaving session step `k` queues the finish callback exactly
      when `k` is the last beat of the last level. */
  lemma FinishOnStep(start: real, tempo: real, total: int, k: nat)
    requires total >= 1 && k < 16 * total
    ensures Finishes(FinishFor(Steps(SessionStart(start), tempo, k), tempo, total)) == if k == 16 * total - 1 then 1 else 0
  {
    StepsClosedForm(SessionStart(start), tempo, k);
    var s := Steps(SessionStart(start), tempo, k);
    assert s.beat == k % 16 && s.level == 1 + k / 16;
    if k == 16 * total - 1 {
      Split16(total - 1, 15);
      var f := FinishFor(s, tempo, total);
      assert f == [Finish(tempo * 1000.0)];
      assert f[..0] == [];
    } else {
      assert k == 16 * (k / 16) + k % 16;
      assert FinishFor(s, tempo, total) == [];
    }
  }

  /** A visual callback is never a finish. */
  lemma VisualNotFinish(c: Clock, total: int, now: real)
    ensures Finishes(VisualFor(c, total, now)) == 0
  {
    if c.level <= total {
      assert VisualFor(c, total, now)[..0] == [];
    }
  }

  /** One more scheduler iteration adds the finishes of its step's finish
      callback and nothing else. */
  lemma FinishesStep(c: Clock, tempo: real, total: int, now: real, n: nat)
    requires InPhase(c) && n > 0
    ensures Finishes(TickDeferred(c, tempo, total, now, n))
         == Finishes(TickDeferred(c, tempo, total, now, n - 1)) + Finishes(FinishFor(Steps(c, tempo, n - 1), tempo, total))
  {
    var s := Steps(c, tempo, n - 1);
    var before, visual, finish := TickDeferred(c, tempo, total, now, n - 1), VisualFor(s, total, now), FinishFor(s, tempo, total);
    assert TickDeferred(c, tempo, total, now, n) == before + (visual + finish);
    FinishesAppend(before, visual + finish);
    FinishesAppend(visual, finish);
    VisualNotFinish(s, total, now);
  }

  /** Before the last beat of the last level, no finish is queued; the step
      leaving the last beat of the last level queues exactly one. */
  lemma {:induction false} FinishOnlyAtEnd(start: real, tempo: real, total: int, now: real, n: nat)
    requires total >= 1 && n <= 16 * total
    ensures Finishes(TickDeferred(SessionStart(start), tempo, total, now, n)) == if n == 16 * total then 1 else 0
  {
    if n > 0 {
      var c := SessionStart(start);
      FinishOnlyAtEnd(start, tempo, total, now, n - 1);
      var before := Finishes(TickDeferred(c, tempo, total, now, n - 1));
      assert before == if n - 1 == 16 * total then 1 else 0;
      FinishOnStep(start, tempo, total, n - 1);
      var step := Finishes(FinishFor(Steps(c, tempo, n - 1), tempo, total));
      assert step == if n == 16 * total then 1 else 0;
      FinishesStep(c, tempo, total, now, n);
      assert Finishes(TickDeferred(c, tempo, total, now, n)) == before + step;
    }
  }

  /** The callbacks queued by the first `m` iterations come first among those
      of the first `n`. */
  lemma {:induction false} TickDeferredPrefix(c: Clock, tempo: real, total: int, now: real, m: nat, n: nat)
    requires InPhase(c) && m <= n
    ensures TickDeferred(c, tempo, total, now, m) <= TickDeferred(c, tempo, total, now, n)
    decreases n - m
  {
    if m < n {
      TickDeferredPrefix(c, tempo, total, now, m, n - 1);
    }
  }

  /** Session step `k` queues the visual callback of level `1 + k / 16`,
      beat `k % 16`, due at its own time. */
  lemma StepVisual(start: real, tempo: real, total: int, now: real, k: nat)
    requires k < 16 * total
    ensures VisualFor(Steps(SessionStart(start), tempo, k), total, now)
         == [Visual(Delay(start + LeadIn + k as real * tempo, now), 1 + k / 16, k % 16)]
  {
    StepsClosedForm(SessionStart(start), tempo, k);
    assert k / 16 < total by {
      assert k == 16 * (k / 16) + k % 16;
    }
  }

  /** Every beat of every level queues its visual callback, the last beat of
      the last level included: step `k` of the session carries level
      `1 + k / 16` and beat `k % 16`. */
  lemma SessionVisuals(start: real, tempo: real, total: int, now: real, k: nat)
    requires k < 16 * total
    ensures Visual(Delay(start + LeadIn + k as real * tempo, now), 1 + k / 16, k % 16)
      in TickDeferred(SessionStart(start), tempo, total, now, 16 * total)
  {
    var c := SessionStart(start);
    var s := Steps(c, tempo, k);
    var v := Visual(Delay(start + LeadIn + k as real * tempo, now), 1 + k / 16, k % 16);
    StepVisual(start, tempo, total, now, k);
    var before := TickDeferred(c, tempo, total, now, k);
    var upto := TickDeferred(c, tempo, total, now, k + 1);
    assert upto == before + ([v] + FinishFor(s, tempo, total));
    assert upto[|before|] == v;
    TickDeferredPrefix(c, tempo, total, now, k + 1, 16 * total);
    var all := TickDeferred(c, tempo, total, now, 16 * total);
    assert |before| < |upto| <= |all|;
    assert all[|before|] == v;
  }

  /** Every beat of the session sounds, in order, and nothing sounds after
      the last beat of the last level. */
  lemma SessionAudio(start: real, tempo: real, total: int, k: nat)
    ensures var c := Steps(SessionStart(start), tempo, k);
      BeatAudio(c, tempo, total)
        == if k < 16 * total then BeatTriggers(k % 16, start + LeadIn + k as real * tempo, tempo) else []
  {
    StepsClosedForm(SessionStart(start), tempo, k);
    if k < 16 * total {
      assert 1 + k / 16 <= total;
    } else {
      assert 1 + k / 16 > total;
    }
  }

  /** The callbacks of `m + n` iterations are those of the first `m`, then
      those of `n` more from where the first `m` left the clock. */
  lemma {:induction false} TickDeferredSplit(c: Clock, tempo: real, total: int, now: real, m: nat, n: nat)
    requires InPhase(c)
    ensures TickDeferred(c, tempo, total, now, m + n)
         == TickDeferred(c, tempo, total, now, m) + TickDeferred(Steps(c, tempo, m), tempo, total, now, n)
  {
    if n > 0 {
      TickDeferredSplit(c, tempo, total, now, m, n - 1);
      StepsCompose(c, tempo, m, n - 1);
      var k: nat := m + n - 1;
      var s := Steps(c, tempo, m);
      var first, rest := TickDeferred(c, tempo, total, now, m), TickDeferred(s, tempo, total, now, n - 1);
      var before, last := TickDeferred(c, tempo, total, now, k), BeatDeferred(Steps(c, tempo, k), tempo, total, now);
      assert before == first + rest by {
        assert k == m + (n - 1);
      }
      assert TickDeferred(s, tempo, total, now, n) == rest + last by {
        assert Steps(s, tempo, n - 1) == Steps(c, tempo, k);
      }
      assert TickDeferred(c, tempo, total, now, m + n) == before + last by {
        assert m + n - 1 == k;
      }
      Extend(first, rest, last, TickDeferred(s, tempo, total, now, n), before, TickDeferred(c, tempo, total, now, m + n));
    }
  }

  /** What a queued callback does when it runs, without the delay it waits:
      the level and beat of a visual update, or the finish. */
  function Label(d: Deferred): Deferred {
    match d
    case Visual(_, level, beat) => Visual(0.0, level, beat)
    case Finish(ms) => Finish(ms)
  }

  function Labels(ds: seq<Deferred>): seq<Deferred> {
    seq(|ds|, i requires 0 <= i < |ds| => Label(ds[i]))
  }

  lemma LabelsAppend(a: seq<Deferred>, b: seq<Deferred>)
    ensures Labels(a + b) == Labels(a) + Labels(b)
  {
    assert forall i :: 0 <= i < |a + b| ==> Labels(a + b)[i] == (Labels(a) + Labels(b))[i];
  }

  /** Dropping the delays keeps every finish. */
  lemma {:induction false} FinishesLabels(ds: seq<Deferred>)
    ensures Finishes(Labels(ds)) == Finishes(ds)
    decreases |ds|
  {
    if ds != [] {
      assert Labels(ds)[..|ds| - 1] == Labels(ds[..|ds| - 1]);
      FinishesLabels(ds[..|ds| - 1]);
    }
  }

  /** The audio time the scheduler runs against sets only the delays of the
      callbacks it queues: which visual updates, for which level and beat,
      and which finishes, do not depend on it. */
  lemma {:induction false} LabelsNow(c: Clock, tempo: real, total: int, now1: real, now2: real, n: nat)
    requires InPhase(c)
    ensures Labels(TickDeferred(c, tempo, total, now1, n)) == Labels(TickDeferred(c, tempo, total, now2, n))
  {
    if n > 0 {
      LabelsNow(c, tempo, total, now1, now2, n - 1);
      var s := Steps(c, tempo, n - 1);
      LabelsAppend(TickDeferred(c, tempo, total, now1, n - 1), BeatDeferred(s, tempo, total, now1));
      LabelsAppend(TickDeferred(c, tempo, total, now2, n - 1), BeatDeferred(s, tempo, total, now2));
      assert Labels(BeatDeferred(s, tempo, total, now1)) == Labels(BeatDeferred(s, tempo, total, now2));
    }
  }

  /** In particular the number of finishes queued does not depend on it. */
  lemma FinishesNow(c: Clock, tempo: real, total: int, now1: real, now2: real, n: nat)
    requires InPhase(c)
    ensures Finishes(TickDeferred(c, tempo, total, now1, n)) == Finishes(TickDeferred(c, tempo, total, now2, n))
  {
    LabelsNow(c, tempo, total, now1, now2, n);
    FinishesLabels(TickDeferred(c, tempo, total, now1, n));
    FinishesLabels(TickDeferred(c, tempo, total, now2, n));
  }

  /** Fewer than sixteen iterations from the first beat of a level never
      wrap, so they queue no finish. */
  lemma {:induction false} QuietLevel(c: Clock, tempo: real, total: int, now: real, r: nat)
    requires InPhase(c) && c.beat == 0 && r < 16
    ensures Finishes(TickDeferred(c, tempo, total, now, r)) == 0
  {
    if r > 0 {
      QuietLevel(c, tempo, total, now, r - 1);
      StepsClosedForm(c, tempo, r - 1);
      assert FinishFor(Steps(c, tempo, r - 1), tempo, total) == [];
      FinishesStep(c, tempo, total, now, r);
    }
  }

  /** A finish has been queued exactly when the scheduler has moved past the
      last beat of the last level, and exactly one until it has moved past
      the level after that. */
  lemma SessionFinishQueued(start: real, tempo: real, total: int, now: real, n: nat)
    requires total >= 1
    ensures Finishes(TickDeferred(SessionStart(start), tempo, total, now, n)) >= 1 <==> n >= 16 * total
    ensures n < 16 * total + 16 ==>
      Finishes(TickDeferred(SessionStart(start), tempo, total, now, n)) == if n >= 16 * total then 1 else 0
  {
    var c := SessionStart(start);
    if n <= 16 * total {
      FinishOnlyAtEnd(start, tempo, total, now, n);
    } else {
      var r: nat := n - 16 * total;
      FinishesSplit(c, tempo, total, now, 16 * total, r);
      FinishOnlyAtEnd(start, tempo, total, now, 16 * total);
      if r < 16 {
        NextLevel(start, tempo, total);
        QuietLevel(Steps(c, tempo, 16 * total), tempo, total, now, r);
      }
    }
  }

  /** The finishes of `m + n` iterations are those of the first `m` and
      those of `n` more. */
  lemma FinishesSplit(c: Clock, tempo: real, total: int, now: real, m: nat, n: nat)
    requires InPhase(c)
    ensures Finishes(TickDeferred(c, tempo, total, now, m + n))
         == Finishes(TickDeferred(c, tempo, total, now, m)) + Finishes(TickDeferred(Steps(c, tempo, m), tempo, total, now, n))
  {
    TickDeferredSplit(c, tempo, total, now, m, n);
    FinishesAppend(TickDeferred(c, tempo, total, now, m), TickDeferred(Steps(c, tempo, m), tempo, total, now, n));
  }

  /** Sixteen beats per level in, the clock is at the first beat of the
      level after the last. */
  lemma NextLevel(start: real, tempo: real, total: int)
    requires total >= 1
    ensures Steps(SessionStart(start), tempo, 16 * total).beat == 0
  {
    StepsCount(SessionStart(start), tempo, 16 * total);
    Split16(total, 0);
  }

  /** Once the scheduler has moved past the last beat of the last level,
      every beat of every level has queued its visual update, whatever audio
      time the ticks ran against. */
  lemma SessionLabels(start: real, tempo: real, total: int, now: real, n: nat, k: nat)
    requires k < 16 * total <= n
    ensures Visual(0.0, 1 + k / 16, k % 16) in Labels(TickDeferred(SessionStart(start), tempo, total, now, n))
  {
    var c := SessionStart(start);
    var v := Visual(Delay(start + LeadIn + k as real * tempo, now), 1 + k / 16, k % 16);
    SessionVisuals(start, tempo, total, now, k);
    TickDeferredPrefix(c, tempo, total, now, 16 * total, n);
    var all := TickDeferred(c, tempo, total, now, n);
    assert v in all;
    var i :| 0 <= i < |all| && all[i] == v;
    assert Labels(all)[i] == Visual(0.0, 1 + k / 16, k % 16);
  }

  /** `handleVisuals(level, beat)` in session state `st`: it acts while
      playing or after finishing, for a level within the session. */
  function VisualEffect(st: State, total: int, levels: seq<LevelPlan>, s: Screen, level: int, beat: int): (r: Screen)
    ensures st != Playing && st != Finished ==> r == s
    ensures level > total ==> r == s
  {
    if (st == Playing || st == Finished) && level <= total then BeatScreen(s, levels, total, level, beat) else s
  }

  /** The last beat of the last level lights the last cell, whether its
      callback runs before or after the finish callback. */
  lemma LastCellLit(start: real, tempo: real, total: int, now: real, st: State, levels: seq<LevelPlan>, s: Screen)
    requires total >= 1 && (st == Playing || st == Finished)
    ensures Visual(Delay(start + LeadIn + (16 * total - 1) as real * tempo, now), total, 15)
      in TickDeferred(SessionStart(start), tempo, total, now, 16 * total)
    ensures VisualEffect(st, total, levels, s, total, 15).active[7]
  {
    var k: nat := 16 * total - 1;
    Split16(total - 1, 15);
    assert 1 + k / 16 == total && k % 16 == 15;
    var v := Visual(Delay(start + LeadIn + k as real * tempo, now), 1 + k / 16, k % 16);
    assert v == Visual(Delay(start + LeadIn + (16 * total - 1) as real * tempo, now), total, 15);
    SessionVisuals(start, tempo, total, now, k);
    LitCells(15);
  }

  /** `n` iterations of the scheduler loop from clock `c0`, against the
      audio time `now`, have brought the clock to `c` and extended the logs
      `played0` and `deferred0` to `played` and `deferred`; each of them
      started before `now + 0.1`. */
  ghost predicate Progress(c0: Clock, tempo: real, total: int, now: real, n: nat, c: Clock,
                           played0: seq<Trigger>, played: seq<Trigger>,
                           deferred0: seq<Deferred>, deferred: seq<Deferred>)
    requires InPhase(c0)
  {
    && c == Steps(c0, tempo, n)
    && played == played0 + TickAudio(c0, tempo, total, n)
    && deferred == deferred0 + TickDeferred(c0, tempo, total, now, n)
    && (forall k :: 0 <= k < n ==> Steps(c0, tempo, k).time < now + Lookahead)
  }

  /** One more iteration, from a clock still before `now + 0.1`. */
  lemma ProgressStep(c0: Clock, tempo: real, total: int, now: real, n: nat, c: Clock,
                     played0: seq<Trigger>, played: seq<Trigger>,
                     deferred0: seq<Deferred>, deferred: seq<Deferred>)
    requires InPhase(c0) && Progress(c0, tempo, total, now, n, c, played0, played, deferred0, deferred)
    requires c.time < now + Lookahead
    ensures InPhase(c)
    ensures Progress(c0, tempo, total, now, n + 1, Timeline.NextNote(c, tempo),
                     played0, played + BeatAudio(c, tempo, total),
                     deferred0, deferred + BeatDeferred(c, tempo, total, now))
  {
    Extend(played0, TickAudio(c0, tempo, total, n), BeatAudio(c, tempo, total),
      TickAudio(c0, tempo, total, n + 1), played, played + BeatAudio(c, tempo, total));
    Extend(deferred0, TickDeferred(c0, tempo, total, now, n), BeatDeferred(c, tempo, total, now),
      TickDeferred(c0, tempo, total, now, n + 1), deferred, deferred + BeatDeferred(c, tempo, total, now));
  }

  function TimerSet(id: Option<nat>): set<nat> {
    if id.Some? then {id.value} else {}
  }

  /** The game session. */
  class Game {
    const rng: RandomSource
    const panel: Panel
    var state: State
    var params: Params
    var tempo: real
    var currentLevel: int
    var currentBeat: int
    var nextNoteTime: real
    var pauseTime: real
    var levels: seq<LevelPlan>
    /** The voices handed to the synthesis engine, in order. */
    var played: seq<Trigger>
    /** Visual and finish callbacks waiting to run. */
    var deferred: seq<Deferred>
    /** Handles of pending scheduler ticks. */
    var ticks: set<nat>
    /** The handle held in `timerId`. */
    var timerId: Option<nat>
    /** The next handle `setTimeout` returns. */
    var handles: nat

    ghost predicate Valid()
      reads this, panel
    {
      && rng.Valid()
      && panel.Valid()
      && tempo == Tempo(params.speed)
      && 0 <= currentBeat < BeatsPerLevel
      && (forall h :: h in ticks ==> h < handles)
      && (timerId.Some? ==> timerId.value < handles)
    }

    /** At most one scheduler tick is pending, the one `timerId` holds, and
        none unless the session is playing. */
    predicate SingleTick()
      reads this
    {
      ticks <= TimerSet(timerId) && (state != Playing ==> ticks == {})
    }

    /** The beat clock: the next beat's time, beat index and level. */
    function ClockNow(): Timeline.Clock
      reads this
    {
      Timeline.Clock(nextNoteTime, currentBeat, currentLevel)
    }

    /** `n` scheduler iterations ran from clock `c0` against the audio time
        `now`, starting from the logs `played0` and `deferred0`. */
    ghost predicate Ran(c0: Timeline.Clock, played0: seq<Trigger>, deferred0: seq<Deferred>, now: real, n: nat)
      reads this
      requires InPhase(c0)
    {
      && Progress(c0, tempo, params.totalLevels, now, n, ClockNow(), played0, played, deferred0, deferred)
      && nextNoteTime >= now + Lookahead
    }

    constructor (rng: RandomSource)
      requires rng.Valid()
      ensures Valid() && SingleTick()
      ensures this.rng == rng && fresh(panel)
      ensures state == Idle && params == Defaults && tempo == 0.4
      ensures currentLevel == 0 && currentBeat == 0 && nextNoteTime == 0.0
      ensures levels == [] && played == [] && deferred == []
      ensures ticks == {} && timerId == None
    {
      this.rng := rng;
      panel := new Panel();
      state := Idle;
      params := Defaults;
      tempo := Tempo(2);
      currentLevel, currentBeat := 0, 0;
      nextNoteTime, pauseTime := 0.0, 0.0;
      levels, played, deferred := [], [], [];
      ticks, timerId, handles := {}, None, 0;
    }

    /** `setParams`: supplied fields replace the current ones, and the tempo
        follows the speed. */
    method SetParams(patch: Patch)
      requires Valid()
      modifies this`params, this`tempo
      ensures Valid()
      ensures params == Merge(old(params), patch)
      ensures tempo == Tempo(params.speed)
    {
      params := Merge(params, patch);
      tempo := Tempo(params.speed);
    }

    /** `stop`: back to idle, cancelling the tick `timerId` holds. */
    method Stop()
      requires Valid()
      modifies this`state, this`ticks
      ensures Valid()
      ensures state == Idle
      ensures ticks == old(ticks) - TimerSet(timerId)
      ensures old(SingleTick()) ==> ticks == {}
    {
      state := Idle;
      ticks := ticks - TimerSet(timerId);
    }

    /** `pause`: only a playing session pauses; it records the audio time and
        cancels the pending tick, leaving the beat clock where it is. */
    method Pause(now: real)
      requires Valid()
      modifies this`state, this`pauseTime, this`ticks
      ensures Valid()
      ensures old(state) == Playing ==> state == Paused && pauseTime == now && ticks == old(ticks) - TimerSet(timerId)
      ensures old(state) != Playing ==> state == old(state) && pauseTime == old(pauseTime) && ticks == old(ticks)
      ensures old(SingleTick()) ==> SingleTick()
    {
      if state == Playing {
        state := Paused;
        pauseTime := now;
        ticks := ticks - TimerSet(timerId);
      }
    }

    /** `scheduler`: while playing, schedules every beat that falls before
        `now + 0.1`, advancing the clock after each, then re-arms its tick. */
    method Scheduler(now: real) returns (ghost n: nat)
      requires Valid()
      modifies this`nextNoteTime, this`currentBeat, this`currentLevel, this`played, this`deferred
      modifies this`ticks, this`timerId, this`handles
      ensures Valid()
      ensures state != Playing ==> n == 0 && unchanged(this)
      ensures state == Playing ==> Ran(old(ClockNow()), old(played), old(deferred), now, n)
      ensures state == Playing ==> ticks == old(ticks) + {old(handles)} && timerId == Some(old(handles))
      ensures state == Playing && n > 0 ==> nextNoteTime < now + Lookahead + tempo
      ensures old(nextNoteTime) >= now + Lookahead ==> n == 0
      ensures old(ticks) == {} ==> SingleTick()
    {
      n := 0;
      if state != Playing {
        return;
      }
      n := ScheduleDue(now);
      timerId := Some(handles);
      ticks := ticks + {handles};
      handles := handles + 1;
    }

    /** The loop of `scheduler`. */
    method ScheduleDue(now: real) returns (ghost n: nat)
      requires Valid()
      modifies this`nextNoteTime, this`currentBeat, this`currentLevel, this`played, this`deferred
      ensures Valid()
      ensures Ran(old(ClockNow()), old(played), old(deferred), now, n)
      ensures n > 0 ==> nextNoteTime < now + Lookahead + tempo
      ensures old(nextNoteTime) >= now + Lookahead ==> n == 0
    {
      n := 0;
      ghost var c0 := ClockNow();
      ghost var played0, deferred0 := played, deferred;
      while nextNoteTime < now + Lookahead
        invariant Valid()
        invariant Progress(c0, tempo, params.totalLevels, now, n, ClockNow(), played0, played, deferred0, deferred)
        invariant n > 0 ==> nextNoteTime < now + Lookahead + tempo
        decreases Budget(nextNoteTime, now + Lookahead, tempo)
      {
        BudgetDecreases(nextNoteTime, now + Lookahead, tempo);
        ProgressStep(c0, tempo, params.totalLevels, now, n, ClockNow(), played0, played, deferred0, deferred);
        ScheduleNext(now);
        n := n + 1;
      }
    }

    /** One iteration of the loop of `scheduler`: the current beat, then the
        clock moves on. */
    method ScheduleNext(now: real)
      requires Valid()
      modifies this`nextNoteTime, this`currentBeat, this`currentLevel, this`played, this`deferred
      ensures Valid()
      ensures ClockNow() == Timeline.NextNote(old(ClockNow()), tempo)
      ensures played == old(played) + BeatAudio(old(ClockNow()), tempo, params.totalLevels)
      ensures deferred == old(deferred) + BeatDeferred(old(ClockNow()), tempo, params.totalLevels, now)
    {
      ScheduleBeat(currentBeat, nextNoteTime, now);
      NextNote();
    }

    /** `nextNote`: one tempo later, the next beat, wrapping into the next
        level; passing the last level queues the finish one tempo later. */
    method NextNote()
      requires Valid()
      modifies this`nextNoteTime, this`currentBeat, this`currentLevel, this`deferred
      ensures Valid()
      ensures ClockNow() == Timeline.NextNote(old(ClockNow()), tempo)
      ensures deferred == old(deferred) + FinishFor(old(ClockNow()), tempo, params.totalLevels)
    {
      nextNoteTime := nextNoteTime + tempo;
      currentBeat := currentBeat + 1;
      if currentBeat >= BeatsPerLevel {
        currentBeat := 0;
        currentLevel := currentLevel + 1;
        if currentLevel > params.totalLevels {
          deferred := deferred + [Finish(tempo * 1000.0)];
        }
      }
    }

    /** `scheduleBeat`: the beat's voices and its visual callback, carrying
        the level current now; nothing once past the last level. */
    method ScheduleBeat(beat: int, time: real, now: real)
      requires Valid() && 0 <= beat < BeatsPerLevel
      modifies this`played, this`deferred
      ensures Valid()
      ensures played == old(played) + BeatAudio(Timeline.Clock(time, beat, currentLevel), tempo, params.totalLevels)
      ensures deferred == old(deferred) + VisualFor(Timeline.Clock(time, beat, currentLevel), params.totalLevels, now)
    {
      if currentLevel > params.totalLevels {
        return;
      }
      var level := currentLevel;
      played := played + BeatTriggers(beat, time, tempo);
      deferred := deferred + [Visual(Delay(time, now), level, beat)];
    }

    /** `generateLevels`: one level per level number, in order, each drawing
        after the one before. */
    method GenerateLevels()
      requires Valid() && Usable(params)
      modifies this`levels, rng
      ensures Valid()
      ensures Drawn(levels, rng.used) == AppLevels(params, rng.draw, old(rng.used), 0)
    {
      levels := MakeAppLevels(params, rng);
    }

    /** `start`: fresh levels, level 1, beat 0, the first beat half a second
        from now, then the scheduler, which finds nothing due yet and arms
        its tick. */
    method Start(now: real)
      requires Valid() && Usable(params)
      modifies this, rng
      ensures Valid()
      ensures params == old(params) && tempo == old(tempo)
      ensures state == Playing && currentLevel == 1 && currentBeat == 0 && nextNoteTime == now + LeadIn
      ensures Drawn(levels, rng.used) == AppLevels(params, rng.draw, old(rng.used), 0)
      ensures played == old(played) && deferred == old(deferred) && pauseTime == old(pauseTime)
      ensures ticks == old(ticks) + {old(handles)} && timerId == Some(old(handles))
      ensures old(ticks) == {} ==> SingleTick()
    {
      GenerateLevels();
      currentLevel := 1;
      currentBeat := 0;
      nextNoteTime := now + LeadIn;
      state := Playing;
      ghost var n := Scheduler(now);
    }

    /** `restart`: stop, then start again unless the parameters are to be
        chosen anew. */
    method Restart(now: real, resetParams: bool)
      requires Valid() && (!resetParams ==> Usable(params))
      modifies this, rng
      ensures Valid() && params == old(params)
      ensures resetParams ==> state == Idle && ticks == old(ticks) - TimerSet(old(timerId))
      ensures resetParams ==> ClockNow() == old(ClockNow()) && levels == old(levels) && rng.used == old(rng.used)
      ensures !resetParams ==> state == Playing && currentLevel == 1 && currentBeat == 0 && nextNoteTime == now + LeadIn
      ensures !resetParams ==> Drawn(levels, rng.used) == AppLevels(params, rng.draw, old(rng.used), 0)
      ensures !resetParams ==> ticks == old(ticks) - TimerSet(old(timerId)) + {old(handles)} && timerId == Some(old(handles))
      ensures resetParams ==> timerId == old(timerId)
      ensures params == old(params) && played == old(played) && deferred == old(deferred) && pauseTime == old(pauseTime)
      ensures old(SingleTick()) ==> SingleTick()
    {
      Stop();
      if !resetParams {
        Start(now);
      }
    }

    /** `resume`: only a paused session resumes; the next beat moves later by
        the time spent paused, and the scheduler runs at once. */
    method Resume(now: real) returns (ghost n: nat)
      requires Valid()
      modifies this`state, this`nextNoteTime, this`currentBeat, this`currentLevel, this`played, this`deferred
      modifies this`ticks, this`timerId, this`handles
      ensures Valid()
      ensures old(state) != Paused ==> n == 0 && unchanged(this)
      ensures old(state) == Paused ==> (
        && state == Playing
        && Ran(old(ClockNow()).(time := old(nextNoteTime) + (now - pauseTime)), old(played), old(deferred), now, n)
        && ticks == old(ticks) + {old(handles)} && timerId == Some(old(handles)))
      ensures old(SingleTick()) ==> SingleTick()
    {
      n := 0;
      if state == Paused {
        state := Playing;
        nextNoteTime := nextNoteTime + (now - pauseTime);
        n := Scheduler(now);
      }
    }

    /** `finishGame`: stops the session, marks it finished and shows the
        completion message. */
    method FinishGame()
      requires Valid()
      modifies this`state, this`ticks, panel
      ensures Valid()
      ensures state == Finished && ticks == old(ticks) - TimerSet(timerId)
      ensures panel.status == Complete
      ensures panel.levelText == old(panel.levelText) && panel.totalText == old(panel.totalText)
      ensures panel.View() == old(panel.View()).(status := Complete)
      ensures old(SingleTick()) ==> ticks == {}
    {
      Stop();
      state := Finished;
      panel.ShowComplete();
    }

    /** `handleVisuals`: the beat's screen update, while playing or finished,
        for a level within the session. */
    method HandleVisuals(level: int, beat: int)
      requires Valid()
      modifies panel, panel.cells, panel.active
      ensures Valid()
      ensures panel.View() == VisualEffect(state, params.totalLevels, levels, old(panel.View()), level, beat)
    {
      if state != Playing && state != Finished {
        return;
      }
      if level > params.totalLevels {
        return;
      }
      panel.ShowBeat(levels, params.totalLevels, level, beat);
    }

    /** The scheduler tick with handle `h` fires. */
    method Tick(h: nat, now: real) returns (ghost n: nat)
      requires Valid() && h in ticks
      modifies this`nextNoteTime, this`currentBeat, this`currentLevel, this`played, this`deferred
      modifies this`ticks, this`timerId, this`handles
      ensures Valid()
      ensures state != Playing ==> (
        && n == 0 && ticks == old(ticks) - {h} && ClockNow() == old(ClockNow())
        && played == old(played) && deferred == old(deferred) && timerId == old(timerId))
      ensures state == Playing ==> (
        && Ran(old(ClockNow()), old(played), old(deferred), now, n)
        && ticks == old(ticks) - {h} + {old(handles)} && timerId == Some(old(handles)))
      ensures old(SingleTick()) ==> SingleTick()
    {
      ticks := ticks - {h};
      assert old(SingleTick()) ==> ticks == {};
      n := Scheduler(now);
    }

    /** Queued callback `k` fires: a visual update or the finish. */
    method Deliver(k: nat)
      requires Valid() && k < |deferred|
      modifies this`deferred, this`state, this`ticks, panel, panel.cells, panel.active
      ensures Valid()
      ensures deferred == old(deferred[..k] + deferred[k + 1..])
      ensures old(deferred[k]).Visual? ==> (
        && state == old(state) && ticks == old(ticks)
        && panel.View() == VisualEffect(state, params.totalLevels, levels, old(panel.View()),
                                        old(deferred[k]).level, old(deferred[k]).beat))
      ensures old(deferred[k]).Finish? ==> (
        && state == Finished && ticks == old(ticks) - TimerSet(timerId)
        && panel.View() == old(panel.View()).(status := Complete))
      ensures old(SingleTick()) ==> SingleTick()
    {
      var d := deferred[k];
      deferred := deferred[..k] + deferred[k + 1..];
      match d
      case Visual(_, level, beat) => HandleVisuals(level, beat);
      case Finish(_) => FinishGame();
    }
  }

  /** The audio time of session step `k` grows with `k`. */
  lemma LaterStep(start: real, tempo: real, j: nat, k: nat)
    requires tempo > 0.0 && j <= k
    ensures start + LeadIn + j as real * tempo <= start + LeadIn + k as real * tempo
  {
    assert k as real * tempo - j as real * tempo == (k - j) as real * tempo;
  }

  /** One more tick, of `n` iterations from where `steps` iterations from
      `c0` left the clock: the voices are those of `steps + n` iterations. */
  lemma TickPlays(c0: Clock, tempo: real, total: int, steps: nat, n: nat,
                  played0: seq<Trigger>, played1: seq<Trigger>, played2: seq<Trigger>)
    requires InPhase(c0)
    requires played1 == played0 + TickAudio(c0, tempo, total, steps)
    requires played2 == played1 + TickAudio(Steps(c0, tempo, steps), tempo, total, n)
    ensures played2 == played0 + TickAudio(c0, tempo, total, steps + n)
  {
    TickAudioSplit(c0, tempo, total, steps, n);
    var early, late := TickAudio(c0, tempo, total, steps), TickAudio(Steps(c0, tempo, steps), tempo, total, n);
    Extend(played0, early, late, TickAudio(c0, tempo, total, steps + n), played1, played2);
  }

  /** The same tick, run against its own audio time `now`: the callbacks
      are those of `steps + n` iterations against `start`, up to the delays. */
  lemma TickQueues(c0: Clock, tempo: real, total: int, start: real, now: real, steps: nat, n: nat,
                   deferred0: seq<Deferred>, deferred1: seq<Deferred>, deferred2: seq<Deferred>)
    requires InPhase(c0)
    requires Labels(deferred1) == Labels(deferred0) + Labels(TickDeferred(c0, tempo, total, start, steps))
    requires deferred2 == deferred1 + TickDeferred(Steps(c0, tempo, steps), tempo, total, now, n)
    ensures Labels(deferred2) == Labels(deferred0) + Labels(TickDeferred(c0, tempo, total, start, steps + n))
  {
    var c := Steps(c0, tempo, steps);
    TickDeferredSplit(c0, tempo, total, start, steps, n);
    var before, here, there := TickDeferred(c0, tempo, total, start, steps), TickDeferred(c, tempo, total, now, n), TickDeferred(c, tempo, total, start, n);
    LabelsNow(c, tempo, total, now, start, n);
    LabelsAppend(deferred1, here);
    LabelsAppend(before, there);
    Extend(Labels(deferred0), Labels(before), Labels(there), Labels(TickDeferred(c0, tempo, total, start, steps + n)),
      Labels(deferred1), Labels(deferred2));
  }

  /** What the callbacks queued by `steps` iterations of a session, up to
      their delays, add to the log `deferred0`. */
  lemma SessionOutcome(start: real, tempo: real, total: int, steps: nat, deferred0: seq<Deferred>, deferred: seq<Deferred>)
    requires total >= 1
    requires Labels(deferred) == Labels(deferred0) + Labels(TickDeferred(SessionStart(start), tempo, total, start, steps))
    ensures Finishes(deferred) == Finishes(deferred0) + Finishes(TickDeferred(SessionStart(start), tempo, total, start, steps))
    ensures Finishes(deferred) >= Finishes(deferred0) + 1 <==> steps >= 16 * total
    ensures steps < 16 * total + 16 ==> Finishes(deferred) == Finishes(deferred0) + if steps >= 16 * total then 1 else 0
    ensures steps >= 16 * total ==> forall k :: 0 <= k < 16 * total ==> Visual(0.0, 1 + k / 16, k % 16) in Labels(deferred)
  {
    var run := TickDeferred(SessionStart(start), tempo, total, start, steps);
    LabelsAppend(deferred0, run);
    FinishesLabels(deferred);
    FinishesLabels(deferred0 + run);
    FinishesAppend(deferred0, run);
    SessionFinishQueued(start, tempo, total, start, steps);
    if steps >= 16 * total {
      forall k | 0 <= k < 16 * total
        ensures Visual(0.0, 1 + k / 16, k % 16) in Labels(deferred)
      {
        SessionLabels(start, tempo, total, start, steps, k);
      }
    }
  }

  /** When the last beat of the last level sounds. */
  function LastBeatTime(start: real, tempo: real, total: int): real {
    start + LeadIn + (16 * total - 1) as real * tempo
  }

  /** A clock that has moved beyond `now + 0.1`, when the last beat of the
      last level is due before then, has moved past that beat. */
  lemma CoversLastBeat(start: real, tempo: real, total: int, steps: nat, now: real)
    requires tempo > 0.0
    requires Steps(SessionStart(start), tempo, steps).time >= now + Lookahead
    ensures now + Lookahead > LastBeatTime(start, tempo, total) ==> steps >= 16 * total
  {
    StepsTime(SessionStart(start), tempo, steps);
    if steps < 16 * total {
      LaterStep(start, tempo, steps, 16 * total - 1);
    }
  }

  /** The pending tick of a session fires at audio time `now`, after
      `steps` iterations from the first beat `c0`: the session is then
      `steps + n` iterations in, up to the delays of what it queued. */
  method SessionTick(g: Game, now: real, ghost start: real, ghost steps: nat,
                     ghost played0: seq<Trigger>, ghost deferred0: seq<Deferred>) returns (ghost n: nat)
    requires g.Valid() && g.state == Playing && g.timerId.Some? && g.timerId.value in g.ticks
    requires g.ClockNow() == Steps(SessionStart(start), g.tempo, steps)
    requires g.played == played0 + TickAudio(SessionStart(start), g.tempo, g.params.totalLevels, steps)
    requires Labels(g.deferred)
          == Labels(deferred0) + Labels(TickDeferred(SessionStart(start), g.tempo, g.params.totalLevels, start, steps))
    modifies g`nextNoteTime, g`currentBeat, g`currentLevel, g`played, g`deferred, g`ticks, g`timerId, g`handles
    ensures g.Valid() && g.timerId.Some? && g.timerId.value in g.ticks
    ensures g.ClockNow() == Steps(SessionStart(start), g.tempo, steps + n)
    ensures g.played == played0 + TickAudio(SessionStart(start), g.tempo, g.params.totalLevels, steps + n)
    ensures Labels(g.deferred)
         == Labels(deferred0) + Labels(TickDeferred(SessionStart(start), g.tempo, g.params.totalLevels, start, steps + n))
    ensures g.nextNoteTime >= now + Lookahead
  {
    ghost var c0, tempo, total := SessionStart(start), g.tempo, g.params.totalLevels;
    ghost var c, played1, deferred1 := g.ClockNow(), g.played, g.deferred;
    n := g.Tick(g.timerId.value, now);
    assert g.ClockNow() == Steps(c, tempo, n);
    StepsCompose(c0, tempo, steps, n);
    TickPlays(c0, tempo, total, steps, n, played0, played1, g.played);
    TickQueues(c0, tempo, total, start, now, steps, n, deferred0, deferred1, g.deferred);
  }

  /** The pending tick of a session fires at each audio time of `nows` in
      turn, from the first beat on. */
  method SessionTicks(g: Game, start: real, nows: seq<real>) returns (ghost steps: nat)
    requires g.Valid() && g.state == Playing && g.timerId.Some? && g.timerId.value in g.ticks
    requires g.ClockNow() == SessionStart(start)
    modifies g`nextNoteTime, g`currentBeat, g`currentLevel, g`played, g`deferred, g`ticks, g`timerId, g`handles
    ensures g.Valid() && g.timerId.Some? && g.timerId.value in g.ticks
    ensures g.ClockNow() == Steps(SessionStart(start), g.tempo, steps)
    ensures g.played == old(g.played) + TickAudio(SessionStart(start), g.tempo, g.params.totalLevels, steps)
    ensures Labels(g.deferred)
         == Labels(old(g.deferred)) + Labels(TickDeferred(SessionStart(start), g.tempo, g.params.totalLevels, start, steps))
    ensures |nows| > 0 ==> g.nextNoteTime >= nows[|nows| - 1] + Lookahead
  {
    ghost var c0, tempo, total := SessionStart(start), g.tempo, g.params.totalLevels;
    ghost var played0, deferred0 := g.played, g.deferred;
    assert g.played == played0 + TickAudio(c0, tempo, total, 0);
    LabelsAppend(deferred0, []);
    assert g.deferred == deferred0 + TickDeferred(c0, tempo, total, start, 0);
    steps := 0;
    var i := 0;
    while i < |nows|
      invariant 0 <= i <= |nows|
      invariant g.Valid() && g.timerId.Some? && g.timerId.value in g.ticks
      invariant g.ClockNow() == Steps(c0, tempo, steps)
      invariant g.played == played0 + TickAudio(c0, tempo, total, steps)
      invariant Labels(g.deferred) == Labels(deferred0) + Labels(TickDeferred(c0, tempo, total, start, steps))
      invariant i > 0 ==> g.nextNoteTime >= nows[i - 1] + Lookahead
    {
      ghost var n := SessionTick(g, nows[i], start, steps, played0, deferred0);
      steps := steps + n;
      i := i + 1;
    }
  }

  /** A session driven by its scheduler ticks alone: `start` at audio time
      `start`, then the pending tick fires at each audio time of `nows` in
      turn, with no queued callback run in between. Across all those ticks
      the clock has taken `steps` steps from the first beat, every voice of
      those steps has been played, and the callbacks queued are those of one
      run of `steps` iterations, up to their delays. A finish is queued once
      the ticks have reached past the last beat of the last level, which they
      have once the last of them runs within 0.1 s of that beat. */
  method PlayTicks(g: Game, start: real, nows: seq<real>) returns (ghost steps: nat)
    requires g.Valid() && Usable(g.params) && g.params.totalLevels >= 1
    modifies g, g.rng
    ensures g.Valid() && g.state == Playing && g.params == old(g.params) && g.tempo == old(g.tempo)
    ensures g.timerId.Some? && g.timerId.value in g.ticks
    ensures g.ClockNow() == Steps(SessionStart(start), g.tempo, steps)
    ensures g.played == old(g.played) + TickAudio(SessionStart(start), g.tempo, g.params.totalLevels, steps)
    ensures Labels(g.deferred)
         == Labels(old(g.deferred)) + Labels(TickDeferred(SessionStart(start), g.tempo, g.params.totalLevels, start, steps))
    ensures Finishes(g.deferred)
         == Finishes(old(g.deferred)) + Finishes(TickDeferred(SessionStart(start), g.tempo, g.params.totalLevels, start, steps))
    ensures Finishes(g.deferred) >= Finishes(old(g.deferred)) + 1 <==> steps >= 16 * g.params.totalLevels
    ensures steps < 16 * g.params.totalLevels + 16 ==>
      Finishes(g.deferred) == Finishes(old(g.deferred)) + if steps >= 16 * g.params.totalLevels then 1 else 0
    ensures steps >= 16 * g.params.totalLevels ==>
      forall k :: 0 <= k < 16 * g.params.totalLevels ==> Visual(0.0, 1 + k / 16, k % 16) in Labels(g.deferred)
    ensures |nows| > 0 && nows[|nows| - 1] + Lookahead > LastBeatTime(start, g.tempo, g.params.totalLevels)
      ==> steps >= 16 * g.params.totalLevels
  {
    ghost var deferred0 := g.deferred;
    g.Start(start);
    ghost var tempo, total := g.tempo, g.params.totalLevels;
    steps := SessionTicks(g, start, nows);
    SessionOutcome(start, tempo, total, steps, deferred0, g.deferred);
    if |nows| > 0 {
      CoversLastBeat(start, tempo, total, steps, nows[|nows| - 1]);
    }
  }
}
