/** The game session of the earlier version.

    It shares the tempo table, the voice pattern, the beat clock and the
    screen with the canonical version, and differs from it in eight ways:
    the grid is sampled with replacement; the visual callback carries only
    the beat and reads the level when it fires; passing the last level
    finishes the session at once, inside the scheduler loop; the visual
    update acts only while playing; `pause` leaves the pending tick in
    place; `finishGame` does not stop the session, so the tick stays armed;
    `start` calls a method that does not exist right after entering the
    playing state, so as written it never reaches the scheduler; and the
    parameters have no pool type, so the session pool always comes from the
    animals. */
module OldGame {
  import opened Settings
  import opened Randomness
  import opened Pattern
  import opened Timeline
  import opened Levels
  import opened Display
  import AppGame

  /** A queued visual callback: the beat it was scheduled for; the level is
      read from the session when it fires. */
  datatype LiveVisual = LiveVisual(delayMs: real, beat: int)

  /** Does leaving clock `c` finish the session, i.e. wrap into a level past
      the last one? */
  predicate FinishStep(c: Clock, total: int) {
    Wraps(c) && c.level + 1 > total
  }

  /** The visual callback `scheduleBeat` queues for the beat at clock `c`. */
  function LiveFor(c: Clock, total: int, now: real): seq<LiveVisual> {
    if c.level > total then [] else [LiveVisual(AppGame.Delay(c.time, now), c.beat)]
  }

  /** The callbacks `n` scheduler iterations from `c` queue. */
  function TickLive(c: Clock, tempo: real, total: int, now: real, n: nat): seq<LiveVisual>
    requires InPhase(c)
  {
    if n == 0 then [] else TickLive(c, tempo, total, now, n - 1) + LiveFor(Steps(c, tempo, n - 1), total, now)
  }

  /** Did one of the first `n` iterations from `c` finish the session? */
  predicate FinishedWithin(c: Clock, tempo: real, total: int, n: nat)
    requires InPhase(c)
  {
    n > 0 && (FinishedWithin(c, tempo, total, n - 1) || FinishStep(Steps(c, tempo, n - 1), total))
  }

  /** A session finishes exactly when the scheduler has moved past the last
      beat of the last level. */
  lemma {:induction false} SessionFinishes(start: real, tempo: real, total: int, n: nat)
    requires total >= 1
    ensures FinishedWithin(AppGame.SessionStart(start), tempo, total, n) <==> n >= 16 * total
  {
    var c := AppGame.SessionStart(start);
    if n > 0 {
      SessionFinishes(start, tempo, total, n - 1);
      var k := n - 1;
      StepsClosedForm(c, tempo, k);
      if k == 16 * total - 1 {
        assert k % 16 == 15 && k / 16 == total - 1;
      } else if k < 16 * total - 1 {
        assert k == 16 * (k / 16) + k % 16;
        assert !FinishStep(Steps(c, tempo, k), total);
      }
    }
  }

  /** `handleVisuals(level, beat)` in session state `st`: it acts only while
      playing, for a level within the session. */
  function OldVisualEffect(st: AppGame.State, total: int, levels: seq<LevelPlan>, s: Screen, level: int, beat: int): (r: Screen)
    ensures st != AppGame.Playing ==> r == s
    ensures level > total ==> r == s
  {
    if st == AppGame.Playing && level <= total then BeatScreen(s, levels, total, level, beat) else s
  }

  /** The last beat of the last level queues its callback, the last one of
      the session, carrying beat 15. */
  lemma LastLiveQueued(start: real, tempo: real, total: int, now: real)
    requires total >= 1
    ensures |TickLive(AppGame.SessionStart(start), tempo, total, now, 16 * total)| == 16 * total
    ensures TickLive(AppGame.SessionStart(start), tempo, total, now, 16 * total)[16 * total - 1]
         == LiveVisual(AppGame.Delay(start + LeadIn + (16 * total - 1) as real * tempo, now), 15)
  {
    var c := AppGame.SessionStart(start);
    var k: nat := 16 * total - 1;
    Split16(total - 1, 15);
    StepsClosedForm(c, tempo, k);
    LiveCount(start, tempo, total, now, k);
    var last := Steps(c, tempo, k);
    var v := LiveVisual(AppGame.Delay(start + LeadIn + k as real * tempo, now), 15);
    assert last == Timeline.Clock(start + LeadIn + k as real * tempo, 15, total);
    assert LiveFor(last, total, now) == [v];
    var before := TickLive(c, tempo, total, now, k);
    assert TickLive(c, tempo, total, now, 16 * total) == before + [v];
    assert (before + [v])[k] == v;
  }

  /** The iteration leaving the last beat of the last level is the one that
      finishes the session, and it moves the level past the last one. */
  lemma LastStepFinishes(start: real, tempo: real, total: int)
    requires total >= 1
    ensures FinishedWithin(AppGame.SessionStart(start), tempo, total, 16 * total)
    ensures !FinishedWithin(AppGame.SessionStart(start), tempo, total, 16 * total - 1)
    ensures Steps(AppGame.SessionStart(start), tempo, 16 * total).level == total + 1
  {
    Split16(total, 0);
    StepsClosedForm(AppGame.SessionStart(start), tempo, 16 * total);
    SessionFinishes(start, tempo, total, 16 * total);
    SessionFinishes(start, tempo, total, 16 * total - 1);
  }

  /** The last beat of the last level never lights its cell. Its callback is
      queued by the iteration that also finishes the session, so when it
      fires the session has finished and the level it reads is past the last
      one; the screen keeps beat 14's lit cell and the last cell stays dark. */
  lemma LastCellDark(start: real, tempo: real, total: int, now: real, levels: seq<LevelPlan>, s: Screen)
    requires total >= 1 && s.active == Lit(14)
    ensures |TickLive(AppGame.SessionStart(start), tempo, total, now, 16 * total)| == 16 * total
    ensures TickLive(AppGame.SessionStart(start), tempo, total, now, 16 * total)[16 * total - 1]
         == LiveVisual(AppGame.Delay(start + LeadIn + (16 * total - 1) as real * tempo, now), 15)
    ensures FinishedWithin(AppGame.SessionStart(start), tempo, total, 16 * total)
    ensures !FinishedWithin(AppGame.SessionStart(start), tempo, total, 16 * total - 1)
    ensures Steps(AppGame.SessionStart(start), tempo, 16 * total).level == total + 1
    ensures OldVisualEffect(AppGame.Finished, total, levels, s, total + 1, 15) == s
    ensures !s.active[7]
  {
    LastLiveQueued(start, tempo, total, now);
    LastStepFinishes(start, tempo, total);
  }

  /** Every beat before the session ends queues exactly one callback. */
  lemma {:induction false} LiveCount(start: real, tempo: real, total: int, now: real, n: nat)
    requires n <= 16 * total
    ensures |TickLive(AppGame.SessionStart(start), tempo, total, now, n)| == n
  {
    if n > 0 {
      LiveCount(start, tempo, total, now, n - 1);
      StepsClosedForm(AppGame.SessionStart(start), tempo, n - 1);
      assert 1 + (n - 1) / 16 <= total;
    }
  }

  /** The callbacks of `m + n` iterations are those of the first `m`, then
      those of `n` more from where the first `m` left the clock. */
  lemma {:induction false} TickLiveSplit(c: Clock, tempo: real, total: int, now: real, m: nat, n: nat)
    requires InPhase(c)
    ensures TickLive(c, tempo, total, now, m + n)
         == TickLive(c, tempo, total, now, m) + TickLive(Steps(c, tempo, m), tempo, total, now, n)
  {
    if n > 0 {
      TickLiveSplit(c, tempo, total, now, m, n - 1);
      StepsCompose(c, tempo, m, n - 1);
      var k: nat := m + n - 1;
      var s := Steps(c, tempo, m);
      var first, rest := TickLive(c, tempo, total, now, m), TickLive(s, tempo, total, now, n - 1);
      var before, last := TickLive(c, tempo, total, now, k), LiveFor(Steps(c, tempo, k), total, now);
      assert before == first + rest by {
        assert k == m + (n - 1);
      }
      assert TickLive(s, tempo, total, now, n) == rest + last by {
        assert Steps(s, tempo, n - 1) == Steps(c, tempo, k);
      }
      assert TickLive(c, tempo, total, now, m + n) == before + last by {
        assert m + n - 1 == k;
      }
      Extend(first, rest, last, TickLive(s, tempo, total, now, n), before, TickLive(c, tempo, total, now, m + n));
    }
  }

  /** The session has finished within `m + n` iterations exactly when it had
      within the first `m` or within the `n` after them. */
  lemma {:induction false} FinishedWithinSplit(c: Clock, tempo: real, total: int, m: nat, n: nat)
    requires InPhase(c)
    ensures FinishedWithin(c, tempo, total, m + n)
        <==> FinishedWithin(c, tempo, total, m) || FinishedWithin(Steps(c, tempo, m), tempo, total, n)
  {
    if n > 0 {
      FinishedWithinSplit(c, tempo, total, m, n - 1);
      StepsCompose(c, tempo, m, n - 1);
      assert m + n - 1 == m + (n - 1);
    }
  }

  /** The beats the queued callbacks carry. */
  function Beats(ls: seq<LiveVisual>): seq<int> {
    seq(|ls|, i requires 0 <= i < |ls| => ls[i].beat)
  }

  lemma BeatsAppend(a: seq<LiveVisual>, b: seq<LiveVisual>)
    ensures Beats(a + b) == Beats(a) + Beats(b)
  {
    assert forall i :: 0 <= i < |a + b| ==> Beats(a + b)[i] == (Beats(a) + Beats(b))[i];
  }

  /** Beats 0 to 15 over and over, `n` of them. */
  function BeatCycle(n: nat): seq<int> {
    seq(n, k => k % 16)
  }

  /** Whatever the audio time, the callbacks of a session carry the beats of
      the session in order, one for every beat of every level, and there are
      none after the last level. */
  lemma {:induction false} LiveBeats(start: real, tempo: real, total: int, now: real, n: nat)
    requires total >= 1
    ensures Beats(TickLive(AppGame.SessionStart(start), tempo, total, now, n)) == BeatCycle(Min(n, 16 * total))
  {
    if n > 0 {
      LiveBeats(start, tempo, total, now, n - 1);
      var c, k := AppGame.SessionStart(start), n - 1;
      var s := Steps(c, tempo, k);
      StepsClosedForm(c, tempo, k);
      var before, here := TickLive(c, tempo, total, now, k), LiveFor(s, total, now);
      assert TickLive(c, tempo, total, now, n) == before + here;
      BeatsAppend(before, here);
      assert k == 16 * (k / 16) + k % 16;
      if k < 16 * total {
        assert Beats(here) == [k % 16];
        assert BeatCycle(n) == BeatCycle(k) + [k % 16];
      } else {
        assert here == [];
      }
    }
  }

  /** `n` iterations of the scheduler loop from clock `c0`, against the
      audio time `now`, have brought the clock to `c`, extended the logs
      `played0` and `deferred0` to `played` and `deferred`, and taken the
      state and status line from `state0` and `status0` to `st` and `status`;
      each iteration started before `now + 0.1`. */
  ghost predicate Progress(c0: Clock, tempo: real, total: int, now: real, n: nat, c: Clock,
                           played0: seq<Trigger>, played: seq<Trigger>,
                           deferred0: seq<LiveVisual>, deferred: seq<LiveVisual>,
                           state0: AppGame.State, st: AppGame.State, status0: Status, status: Status)
    requires InPhase(c0)
  {
    && c == Steps(c0, tempo, n)
    && played == played0 + TickAudio(c0, tempo, total, n)
    && deferred == deferred0 + TickLive(c0, tempo, total, now, n)
    && st == (if FinishedWithin(c0, tempo, total, n) then AppGame.Finished else state0)
    && status == (if FinishedWithin(c0, tempo, total, n) then Complete else status0)
    && (forall k :: 0 <= k < n ==> Steps(c0, tempo, k).time < now + Lookahead)
  }

  /** One more iteration, from a clock still before `now + 0.1`. */
  lemma ProgressStep(c0: Clock, tempo: real, total: int, now: real, n: nat, c: Clock,
                     played0: seq<Trigger>, played: seq<Trigger>,
                     deferred0: seq<LiveVisual>, deferred: seq<LiveVisual>,
                     state0: AppGame.State, st: AppGame.State, status0: Status, status: Status)
    requires InPhase(c0)
    requires Progress(c0, tempo, total, now, n, c, played0, played, deferred0, deferred, state0, st, status0, status)
    requires c.time < now + Lookahead
    ensures InPhase(c)
    ensures Progress(c0, tempo, total, now, n + 1, Timeline.NextNote(c, tempo),
                     played0, played + BeatAudio(c, tempo, total),
                     deferred0, deferred + LiveFor(c, total, now),
                     state0, if FinishStep(c, total) then AppGame.Finished else st,
                     status0, if FinishStep(c, total) then Complete else status)
  {
    Extend(played0, TickAudio(c0, tempo, total, n), BeatAudio(c, tempo, total),
      TickAudio(c0, tempo, total, n + 1), played, played + BeatAudio(c, tempo, total));
    Extend(deferred0, TickLive(c0, tempo, total, now, n), LiveFor(c, total, now),
      TickLive(c0, tempo, total, now, n + 1), deferred, deferred + LiveFor(c, total, now));
  }

  /** The game session, earlier version. */
  class Game {
    const rng: RandomSource
    const panel: Panel
    var state: AppGame.State
    var params: Params
    var tempo: real
    var currentLevel: int
    var currentBeat: int
    var nextNoteTime: real
    var pauseTime: real
    var levels: seq<LevelPlan>
    /** The voices handed to the synthesis engine, in order. */
    var played: seq<Trigger>
    /** Visual callbacks waiting to run. */
    var deferred: seq<LiveVisual>
    /** Handles of pending scheduler ticks. */
    var ticks: set<nat>
    /** The handle held in `timerId`. */
    var timerId: Option<nat>
    /** The next handle `setTimeout` returns. */
    var handles: nat

    ghost predicate Valid()
      reads this, panel
    {
      && rng.Valid()
      && panel.Valid()
      && tempo == Tempo(params.speed)
      && 0 <= currentBeat < BeatsPerLevel
      && (forall h :: h in ticks ==> h < handles)
      && (timerId.Some? ==> timerId.value < handles)
    }

    /** The beat clock: the next beat's time, beat index and level. */
    function ClockNow(): Timeline.Clock
      reads this
    {
      Timeline.Clock(nextNoteTime, currentBeat, currentLevel)
    }

    /** `n` scheduler iterations ran from clock `c0` against the audio time
        `now`, starting from the state `state0`, the status line `status0` and
        the logs `played0` and `deferred0`. */
    ghost predicate Ran(c0: Timeline.Clock, state0: AppGame.State, status0: Status,
                        played0: seq<Trigger>, deferred0: seq<LiveVisual>, now: real, n: nat)
      reads this, panel
      requires InPhase(c0)
    {
      && Progress(c0, tempo, params.totalLevels, now, n, ClockNow(), played0, played, deferred0, deferred,
                  state0, state, status0, panel.status)
      && nextNoteTime >= now + Lookahead
    }

    constructor (rng: RandomSource)
      requires rng.Valid()
      ensures Valid()
      ensures this.rng == rng && fresh(panel)
      ensures state == AppGame.Idle && params == Defaults && tempo == 0.4
      ensures currentLevel == 0 && currentBeat == 0 && nextNoteTime == 0.0
      ensures levels == [] && played == [] && deferred == []
      ensures ticks == {} && timerId == None
    {
      this.rng := rng;
      panel := new Panel();
      state := AppGame.Idle;
      params := Defaults;
      tempo := Tempo(2);
      currentLevel, currentBeat := 0, 0;
      nextNoteTime, pauseTime := 0.0, 0.0;
      levels, played, deferred := [], [], [];
      ticks, timerId, handles := {}, None, 0;
    }

    /** `setParams`: supplied fields replace the current ones, and the tempo
        follows the speed. */
    method SetParams(patch: Patch)
      requires Valid()
      modifies this`params, this`tempo
      ensures Valid()
      ensures params == Merge(old(params), patch)
      ensures tempo == Tempo(params.speed)
    {
      params := Merge(params, patch);
      tempo := Tempo(params.speed);
    }

    /** `stop`: back to idle, cancelling the tick `timerId` holds. */
    method Stop()
      requires Valid()
      modifies this`state, this`ticks
      ensures Valid()
      ensures state == AppGame.Idle
      ensures ticks == old(ticks) - AppGame.TimerSet(timerId)
    {
      state := AppGame.Idle;
      ticks := ticks - AppGame.TimerSet(timerId);
    }

    /** `pause`: only a playing session pauses; it records the audio time and
        leaves the pending tick and the beat clock where they are. */
    method Pause(now: real)
      requires Valid()
      modifies this`state, this`pauseTime
      ensures Valid()
      ensures old(state) == AppGame.Playing ==> state == AppGame.Paused && pauseTime == now
      ensures old(state) != AppGame.Playing ==> state == old(state) && pauseTime == old(pauseTime)
    {
      if state == AppGame.Playing {
        state := AppGame.Paused;
        pauseTime := now;
      }
    }

    /** `scheduler`: while playing, schedules every beat that falls before
        `now + 0.1`, advancing the clock after each, then re-arms its tick,
        even when one of those beats finished the session. */
    method Scheduler(now: real) returns (ghost n: nat)
      requires Valid()
      modifies this`nextNoteTime, this`currentBeat, this`currentLevel, this`played, this`deferred
      modifies this`state, panel, this`ticks, this`timerId, this`handles
      ensures Valid()
      ensures old(state) != AppGame.Playing ==> n == 0 && unchanged(this) && unchanged(panel)
      ensures old(state) == AppGame.Playing ==> (
        && Ran(old(ClockNow()), old(state), old(panel.status), old(played), old(deferred), now, n)
        && ticks == old(ticks) + {old(handles)} && timerId == Some(old(handles)))
      ensures panel.levelText == old(panel.levelText) && panel.totalText == old(panel.totalText)
      ensures old(nextNoteTime) >= now + Lookahead ==> n == 0
    {
      n := 0;
      if state != AppGame.Playing {
        return;
      }
      n := ScheduleDue(now);
      timerId := Some(handles);
      ticks := ticks + {handles};
      handles := handles + 1;
    }

    /** The loop of `scheduler`. */
    method ScheduleDue(now: real) returns (ghost n: nat)
      requires Valid()
      modifies this`nextNoteTime, this`currentBeat, this`currentLevel, this`played, this`deferred
      modifies this`state, panel
      ensures Valid()
      ensures Ran(old(ClockNow()), old(state), old(panel.status), old(played), old(deferred), now, n)
      ensures panel.levelText == old(panel.levelText) && panel.totalText == old(panel.totalText)
      ensures old(nextNoteTime) >= now + Lookahead ==> n == 0
    {
      n := 0;
      ghost var c0 := ClockNow();
      ghost var state0, status0 := state, panel.status;
      ghost var played0, deferred0 := played, deferred;
      while nextNoteTime < now + Lookahead
        invariant Valid()
        invariant Progress(c0, tempo, params.totalLevels, now, n, ClockNow(), played0, played, deferred0, deferred,
                           state0, state, status0, panel.status)
        invariant panel.levelText == old(panel.levelText) && panel.totalText == old(panel.totalText)
        decreases Budget(nextNoteTime, now + Lookahead, tempo)
      {
        BudgetDecreases(nextNoteTime, now + Lookahead, tempo);
        ProgressStep(c0, tempo, params.totalLevels, now, n, ClockNow(), played0, played, deferred0, deferred,
                     state0, state, status0, panel.status);
        ScheduleNext(now);
        n := n + 1;
      }
    }

    /** One iteration of the loop of `scheduler`: the current beat, then the
        clock moves on, finishing the session when it passes the last level. */
    method ScheduleNext(now: real)
      requires Valid()
      modifies this`nextNoteTime, this`currentBeat, this`currentLevel, this`played, this`deferred
      modifies this`state, panel
      ensures Valid()
      ensures ClockNow() == Timeline.NextNote(old(ClockNow()), tempo)
      ensures played == old(played) + BeatAudio(old(ClockNow()), tempo, params.totalLevels)
      ensures deferred == old(deferred) + LiveFor(old(ClockNow()), params.totalLevels, now)
      ensures state == if FinishStep(old(ClockNow()), params.totalLevels) then AppGame.Finished else old(state)
      ensures panel.status == if FinishStep(old(ClockNow()), params.totalLevels) then Complete else old(panel.status)
      ensures panel.levelText == old(panel.levelText) && panel.totalText == old(panel.totalText)
    {
      ScheduleBeat(currentBeat, nextNoteTime, now);
      NextNote();
    }

    /** `nextNote`: one tempo later, the next beat, wrapping into the next
        level; passing the last level finishes the session on the spot. */
    method NextNote()
      requires Valid()
      modifies this`nextNoteTime, this`currentBeat, this`currentLevel, this`state, panel
      ensures Valid()
      ensures ClockNow() == Timeline.NextNote(old(ClockNow()), tempo)
      ensures state == if FinishStep(old(ClockNow()), params.totalLevels) then AppGame.Finished else old(state)
      ensures panel.status == if FinishStep(old(ClockNow()), params.totalLevels) then Complete else old(panel.status)
      ensures panel.levelText == old(panel.levelText) && panel.totalText == old(panel.totalText)
    {
      nextNoteTime := nextNoteTime + tempo;
      currentBeat := currentBeat + 1;
      if currentBeat >= BeatsPerLevel {
        currentBeat := 0;
        currentLevel := currentLevel + 1;
        if currentLevel > params.totalLevels {
          FinishGame();
        }
      }
    }

    /** `scheduleBeat`: the beat's voices and its visual callback; nothing
        once past the last level. */
    method ScheduleBeat(beat: int, time: real, now: real)
      requires Valid() && 0 <= beat < BeatsPerLevel
      modifies this`played, this`deferred
      ensures Valid()
      ensures played == old(played) + BeatAudio(Timeline.Clock(time, beat, currentLevel), tempo, params.totalLevels)
      ensures deferred == old(deferred) + LiveFor(Timeline.Clock(time, beat, currentLevel), params.totalLevels, now)
    {
      if currentLevel > params.totalLevels {
        return;
      }
      played := played + BeatTriggers(beat, time, tempo);
      deferred := deferred + [LiveVisual(AppGame.Delay(time, now), beat)];
    }

    /** `generateLevels`: one sampled level per level number, in order. */
    method GenerateLevels()
      requires Valid() && Usable(params)
      modifies this`levels, rng
      ensures Valid()
      ensures Drawn(levels, rng.used) == OldLevels(params, rng.draw, old(rng.used), 0)
    {
      levels := MakeOldLevels(params, rng);
    }

    /** `start` as written: fresh levels, level 1, beat 0, the first beat half
        a second from now and the playing state, after which the call of an
        undefined method aborts it, before the scheduler runs. No tick is
        armed and nothing is scheduled. */
    method StartAsWritten(now: real)
      requires Valid() && Usable(params)
      modifies this`levels, this`currentLevel, this`currentBeat, this`nextNoteTime, this`state, rng
      ensures Valid()
      ensures state == AppGame.Playing && currentLevel == 1 && currentBeat == 0 && nextNoteTime == now + LeadIn
      ensures Drawn(levels, rng.used) == OldLevels(params, rng.draw, old(rng.used), 0)
      ensures ticks == old(ticks) && timerId == old(timerId)
      ensures played == old(played) && deferred == old(deferred)
    {
      ghost var u0 := rng.used;
      GenerateLevels();
      ghost var session := Drawn(levels, rng.used);
      assert session == OldLevels(params, rng.draw, u0, 0);
      currentLevel := 1;
      currentBeat := 0;
      nextNoteTime := now + LeadIn;
      state := AppGame.Playing;
      assert Drawn(levels, rng.used) == session;
    }

    /** `start` with the undefined call dropped: as `StartAsWritten`, then the
        scheduler, which finds nothing due yet and arms its tick. */
    method Start(now: real)
      requires Valid() && Usable(params)
      modifies this, rng, panel
      ensures Valid()
      ensures params == old(params) && tempo == old(tempo)
      ensures state == AppGame.Playing && currentLevel == 1 && currentBeat == 0 && nextNoteTime == now + LeadIn
      ensures Drawn(levels, rng.used) == OldLevels(params, rng.draw, old(rng.used), 0)
      ensures played == old(played) && deferred == old(deferred) && pauseTime == old(pauseTime)
      ensures ticks == old(ticks) + {old(handles)} && timerId == Some(old(handles))
      ensures panel.View() == old(panel.View())
    {
      StartAsWritten(now);
      ghost var n := Scheduler(now);
    }

    /** `restart`: stop, then start again unless the parameters are to be
        chosen anew. */
    method Restart(now: real, resetParams: bool)
      requires Valid() && (!resetParams ==> Usable(params))
      modifies this, rng, panel
      ensures Valid() && params == old(params)
      ensures resetParams ==> state == AppGame.Idle && ticks == old(ticks) - AppGame.TimerSet(old(timerId))
      ensures resetParams ==> ClockNow() == old(ClockNow()) && levels == old(levels) && rng.used == old(rng.used)
      ensures !resetParams ==> state == AppGame.Playing && currentLevel == 1 && currentBeat == 0 && nextNoteTime == now + LeadIn
      ensures !resetParams ==> Drawn(levels, rng.used) == OldLevels(params, rng.draw, old(rng.used), 0)
      ensures !resetParams ==> ticks == old(ticks) - AppGame.TimerSet(old(timerId)) + {old(handles)} && timerId == Some(old(handles))
      ensures resetParams ==> timerId == old(timerId)
      ensures played == old(played) && deferred == old(deferred) && pauseTime == old(pauseTime)
      ensures panel.View() == old(panel.View())
    {
      Stop();
      if !resetParams {
        Start(now);
      }
    }

    /** `resume`: only a paused session resumes; the next beat moves later by
        the time spent paused, and the scheduler runs at once. */
    method Resume(now: real) returns (ghost n: nat)
      requires Valid()
      modifies this`state, this`nextNoteTime, this`currentBeat, this`currentLevel, this`played, this`deferred
      modifies panel, this`ticks, this`timerId, this`handles
      ensures Valid()
      ensures old(state) != AppGame.Paused ==> n == 0 && unchanged(this) && unchanged(panel)
      ensures old(state) == AppGame.Paused ==> (
        && Ran(old(ClockNow()).(time := old(nextNoteTime) + (now - pauseTime)), AppGame.Playing, old(panel.status),
               old(played), old(deferred), now, n)
        && ticks == old(ticks) + {old(handles)} && timerId == Some(old(handles)))
    {
      n := 0;
      if state == AppGame.Paused {
        state := AppGame.Playing;
        nextNoteTime := nextNoteTime + (now - pauseTime);
        n := Scheduler(now);
      }
    }

    /** `finishGame`: marks the session finished and shows the completion
        message; the pending tick stays. */
    method FinishGame()
      modifies this`state, panel
      ensures state == AppGame.Finished
      ensures panel.status == Complete
      ensures panel.levelText == old(panel.levelText) && panel.totalText == old(panel.totalText)
      ensures panel.View() == old(panel.View()).(status := Complete)
    {
      state := AppGame.Finished;
      panel.ShowComplete();
    }

    /** `handleVisuals`: the beat's screen update, only while playing and for
        a level within the session. */
    method HandleVisuals(level: int, beat: int)
      requires Valid()
      modifies panel, panel.cells, panel.active
      ensures Valid()
      ensures panel.View() == OldVisualEffect(state, params.totalLevels, levels, old(panel.View()), level, beat)
    {
      if state != AppGame.Playing {
        return;
      }
      if level > params.totalLevels {
        return;
      }
      panel.ShowBeat(levels, params.totalLevels, level, beat);
    }

    /** The scheduler tick with handle `h` fires; a tick left pending by
        `pause` finds the session paused and does nothing. */
    method Tick(h: nat, now: real) returns (ghost n: nat)
      requires Valid() && h in ticks
      modifies this`nextNoteTime, this`currentBeat, this`currentLevel, this`played, this`deferred
      modifies this`state, panel, this`ticks, this`timerId, this`handles
      ensures Valid()
      ensures old(state) != AppGame.Playing ==> (
        && n == 0 && ticks == old(ticks) - {h} && ClockNow() == old(ClockNow()) && timerId == old(timerId)
        && state == old(state) && played == old(played) && deferred == old(deferred) && unchanged(panel))
      ensures old(state) == AppGame.Playing ==> (
        && Ran(old(ClockNow()), old(state), old(panel.status), old(played), old(deferred), now, n)
        && ticks == old(ticks) - {h} + {old(handles)} && timerId == Some(old(handles)))
    {
      ticks := ticks - {h};
      n := Scheduler(now);
    }

    /** Queued callback `k` fires: the visual update of its beat, for the
        level the session is on now. */
    method Deliver(k: nat)
      requires Valid() && k < |deferred|
      modifies this`deferred, panel, panel.cells, panel.active
      ensures Valid()
      ensures deferred == old(deferred[..k] + deferred[k + 1..])
      ensures panel.View() == OldVisualEffect(state, params.totalLevels, levels, old(panel.View()),
                                              currentLevel, old(deferred[k]).beat)
    {
      var d := deferred[k];
      deferred := deferred[..k] + deferred[k + 1..];
      HandleVisuals(currentLevel, d.beat);
    }
  }

  /** One more tick of a session, of `n` iterations from where `steps`
      iterations left the clock: its callbacks carry the beats that follow. */
  lemma TickBeats(start: real, tempo: real, total: int, now: real, steps: nat, n: nat,
                  deferred0: seq<LiveVisual>, deferred1: seq<LiveVisual>, deferred2: seq<LiveVisual>)
    requires total >= 1
    requires Beats(deferred1) == Beats(deferred0) + BeatCycle(Min(steps, 16 * total))
    requires deferred2 == deferred1 + TickLive(Steps(AppGame.SessionStart(start), tempo, steps), tempo, total, now, n)
    ensures Beats(deferred2) == Beats(deferred0) + BeatCycle(Min(steps + n, 16 * total))
  {
    var c := AppGame.SessionStart(start);
    var early, late := TickLive(c, tempo, total, now, steps), TickLive(Steps(c, tempo, steps), tempo, total, now, n);
    TickLiveSplit(c, tempo, total, now, steps, n);
    LiveBeats(start, tempo, total, now, steps);
    LiveBeats(start, tempo, total, now, steps + n);
    BeatsAppend(early, late);
    BeatsAppend(deferred1, late);
    Extend(Beats(deferred0), BeatCycle(Min(steps, 16 * total)), Beats(late), BeatCycle(Min(steps + n, 16 * total)),
      Beats(deferred1), Beats(deferred2));
  }

  /** A tick of a session still playing after `steps` iterations finishes it
      exactly when it takes the session past the last beat of the last level. */
  lemma TickFinishes(start: real, tempo: real, total: int, steps: nat, n: nat)
    requires total >= 1 && steps < 16 * total
    ensures FinishedWithin(Steps(AppGame.SessionStart(start), tempo, steps), tempo, total, n) <==> steps + n >= 16 * total
  {
    FinishedWithinSplit(AppGame.SessionStart(start), tempo, total, steps, n);
    SessionFinishes(start, tempo, total, steps);
    SessionFinishes(start, tempo, total, steps + n);
  }

  /** The pending tick of a session, if there is one, fires at audio time
      `now`, after `steps` iterations from the first beat. A session
      finishes inside the iteration leaving the last beat of the last level;
      its tick still fires once more after that, and does nothing. */
  method SessionTick(g: Game, now: real, ghost start: real, ghost steps: nat, ghost status0: Status,
                     ghost played0: seq<Trigger>, ghost deferred0: seq<LiveVisual>) returns (ghost n: nat)
    requires g.Valid() && g.params.totalLevels >= 1
    requires g.ClockNow() == Steps(AppGame.SessionStart(start), g.tempo, steps)
    requires g.state == if steps >= 16 * g.params.totalLevels then AppGame.Finished else AppGame.Playing
    requires g.panel.status == if steps >= 16 * g.params.totalLevels then Complete else status0
    requires steps < 16 * g.params.totalLevels ==> g.timerId.Some? && g.timerId.value in g.ticks
    requires g.played == played0 + TickAudio(AppGame.SessionStart(start), g.tempo, g.params.totalLevels, steps)
    requires Beats(g.deferred) == Beats(deferred0) + BeatCycle(Min(steps, 16 * g.params.totalLevels))
    modifies g`nextNoteTime, g`currentBeat, g`currentLevel, g`played, g`deferred
    modifies g`state, g.panel, g`ticks, g`timerId, g`handles
    ensures g.Valid()
    ensures g.ClockNow() == Steps(AppGame.SessionStart(start), g.tempo, steps + n)
    ensures g.state == if steps + n >= 16 * g.params.totalLevels then AppGame.Finished else AppGame.Playing
    ensures g.panel.status == if steps + n >= 16 * g.params.totalLevels then Complete else status0
    ensures steps + n < 16 * g.params.totalLevels ==> g.timerId.Some? && g.timerId.value in g.ticks
    ensures g.played == played0 + TickAudio(AppGame.SessionStart(start), g.tempo, g.params.totalLevels, steps + n)
    ensures Beats(g.deferred) == Beats(deferred0) + BeatCycle(Min(steps + n, 16 * g.params.totalLevels))
    ensures now + Lookahead > AppGame.LastBeatTime(start, g.tempo, g.params.totalLevels) ==> steps + n >= 16 * g.params.totalLevels
  {
    n := 0;
    if g.timerId.None? || g.timerId.value !in g.ticks {
      return;
    }
    ghost var c0, tempo, total := AppGame.SessionStart(start), g.tempo, g.params.totalLevels;
    ghost var c, played1, deferred1, playing := g.ClockNow(), g.played, g.deferred, g.state == AppGame.Playing;
    n := g.Tick(g.timerId.value, now);
    if playing {
      assert g.ClockNow() == Steps(c, tempo, n);
      StepsCompose(c0, tempo, steps, n);
      AppGame.TickPlays(c0, tempo, total, steps, n, played0, played1, g.played);
      TickBeats(start, tempo, total, now, steps, n, deferred0, deferred1, g.deferred);
      TickFinishes(start, tempo, total, steps, n);
      AppGame.CoversLastBeat(start, tempo, total, steps + n, now);
    }
  }

  /** The pending tick of a session fires at each audio time of `nows` in
      turn, from the first beat on. */
  method SessionTicks(g: Game, start: real, nows: seq<real>) returns (ghost steps: nat)
    requires g.Valid() && g.params.totalLevels >= 1
    requires g.state == AppGame.Playing && g.timerId.Some? && g.timerId.value in g.ticks
    requires g.ClockNow() == AppGame.SessionStart(start)
    modifies g`nextNoteTime, g`currentBeat, g`currentLevel, g`played, g`deferred
    modifies g`state, g.panel, g`ticks, g`timerId, g`handles
    ensures g.Valid()
    ensures g.ClockNow() == Steps(AppGame.SessionStart(start), g.tempo, steps)
    ensures g.state == if steps >= 16 * g.params.totalLevels then AppGame.Finished else AppGame.Playing
    ensures g.panel.status == if steps >= 16 * g.params.totalLevels then Complete else old(g.panel.status)
    ensures g.played == old(g.played) + TickAudio(AppGame.SessionStart(start), g.tempo, g.params.totalLevels, steps)
    ensures Beats(g.deferred) == Beats(old(g.deferred)) + BeatCycle(Min(steps, 16 * g.params.totalLevels))
    ensures |nows| > 0 && nows[|nows| - 1] + Lookahead > AppGame.LastBeatTime(start, g.tempo, g.params.totalLevels)
      ==> steps >= 16 * g.params.totalLevels
  {
    ghost var c0, tempo, total := AppGame.SessionStart(start), g.tempo, g.params.totalLevels;
    ghost var played0, deferred0, status0 := g.played, g.deferred, g.panel.status;
    assert g.played == played0 + TickAudio(c0, tempo, total, 0);
    assert Beats(g.deferred) == Beats(deferred0) + BeatCycle(Min(0, 16 * total));
    steps := 0;
    var i := 0;
    while i < |nows|
      invariant 0 <= i <= |nows|
      invariant g.Valid()
      invariant g.ClockNow() == Steps(c0, tempo, steps)
      invariant g.state == if steps >= 16 * total then AppGame.Finished else AppGame.Playing
      invariant g.panel.status == if steps >= 16 * total then Complete else status0
      invariant steps < 16 * total ==> g.timerId.Some? && g.timerId.value in g.ticks
      invariant g.played == played0 + TickAudio(c0, tempo, total, steps)
      invariant Beats(g.deferred) == Beats(deferred0) + BeatCycle(Min(steps, 16 * total))
      invariant i > 0 && nows[i - 1] + Lookahead > AppGame.LastBeatTime(start, tempo, total) ==> steps >= 16 * total
    {
      ghost var n := SessionTick(g, nows[i], start, steps, status0, played0, deferred0);
      steps := steps + n;
      i := i + 1;
    }
  }

  /** A session driven by its scheduler ticks alone, with `start` corrected:
      `start` at audio time `start`, then the pending tick, while there is
      one, fires at each audio time of `nows` in turn, with no queued
      callback run in between. The clock has taken `steps` steps from the
      first beat and every voice of those steps has been played; one visual
      callback was queued for every beat of every level reached, carrying
      beats 0 to 15 in turn. The session has finished exactly when the ticks
      have reached past the last beat of the last level, which they have once
      the last of them runs within 0.1 s of that beat. */
  method PlayTicks(g: Game, start: real, nows: seq<real>) returns (ghost steps: nat)
    requires g.Valid() && Usable(g.params) && g.params.totalLevels >= 1
    modifies g, g.rng, g.panel
    ensures g.Valid() && g.params == old(g.params) && g.tempo == old(g.tempo)
    ensures g.ClockNow() == Steps(AppGame.SessionStart(start), g.tempo, steps)
    ensures g.played == old(g.played) + TickAudio(AppGame.SessionStart(start), g.tempo, g.params.totalLevels, steps)
    ensures Beats(g.deferred) == Beats(old(g.deferred)) + BeatCycle(Min(steps, 16 * g.params.totalLevels))
    ensures g.state == if steps >= 16 * g.params.totalLevels then AppGame.Finished else AppGame.Playing
    ensures g.panel.status == if steps >= 16 * g.params.totalLevels then Complete else old(g.panel.status)
    ensures |nows| > 0 && nows[|nows| - 1] + Lookahead > AppGame.LastBeatTime(start, g.tempo, g.params.totalLevels)
      ==> g.state == AppGame.Finished
  {
    g.Start(start);
    steps := SessionTicks(g, start, nows);
  }

  /** A new session started as written: it is playing, yet no tick is
      pending and nothing is queued, so no beat is ever scheduled unless the
      session is paused and resumed. */
  method StalledStart(draw: nat -> real, now: real) returns (g: Game)
    requires Unit(draw)
    ensures g.state == AppGame.Playing && g.ticks == {} && g.played == [] && g.deferred == []
  {
    var rng := new RandomSource(draw);
    g := new Game(rng);
    assert Usable(g.params);
    g.StartAsWritten(now);
  }
}
