/** The beat clock the lookahead scheduler advances.

    A clock is the audio time of the next unscheduled beat, the beat index
    within the level (0-15) and the 1-based level, which passes the number of
    levels once the last beat of the last level has been scheduled. */
module Timeline {
  import opened Pattern

  /** Beats in one level: 8 preparation beats, then 8 action beats. */
  const BeatsPerLevel: nat := 16

  /** How far ahead of the audio clock beats are scheduled, in seconds. */
  const Lookahead: real := 0.1

  /** Delay between starting a game and its first beat, in seconds. */
  const LeadIn: real := 0.5

  datatype Clock = Clock(time: real, beat: int, level: int)

  predicate InPhase(c: Clock) {
    0 <= c.beat < BeatsPerLevel
  }

  /** Does advancing from `c` complete a level? */
  predicate Wraps(c: Clock) {
    c.beat + 1 >= BeatsPerLevel
  }

  /** Quotient and remainder of a step count by the beats of a level. */
  lemma Split16(q: int, r: int)
    requires 0 <= r < BeatsPerLevel
    ensures (16 * q + r) / 16 == q && (16 * q + r) % 16 == r
  {
  }

  /** The counters after one call of `nextNote`. */
  function NextNote(c: Clock, tempo: real): (r: Clock)
    requires InPhase(c)
    ensures InPhase(r)
    ensures r.time == c.time + tempo
  {
    if c.beat + 1 >= BeatsPerLevel then Clock(c.time + tempo, 0, c.level + 1)
    else Clock(c.time + tempo, c.beat + 1, c.level)
  }

  /** The counters after `n` calls of `nextNote`. */
  function Steps(c: Clock, tempo: real, n: nat): (r: Clock)
    requires InPhase(c)
    ensures InPhase(r)
  {
    if n == 0 then c else NextNote(Steps(c, tempo, n - 1), tempo)
  }

  /** After `n` beats the time has moved by `n` tempos, the beat by `n`
      modulo 16, and the level once for every 16 beats crossed. */
  lemma {:induction false} StepsClosedForm(c: Clock, tempo: real, n: nat)
    requires InPhase(c)
    ensures Steps(c, tempo, n)
         == Clock(c.time + n as real * tempo, (c.beat + n) % 16, c.level + (c.beat + n) / 16)
  {
    StepsTime(c, tempo, n);
    StepsCount(c, tempo, n);
  }

  /** Each call of `nextNote` adds one tempo to the time. */
  lemma {:induction false} StepsTime(c: Clock, tempo: real, n: nat)
    requires InPhase(c)
    ensures Steps(c, tempo, n).time == c.time + n as real * tempo
  {
    if n > 0 {
      StepsTime(c, tempo, n - 1);
      assert (n - 1) as real * tempo + tempo == n as real * tempo;
    }
  }

  /** Each call of `nextNote` moves the beat on by one, modulo 16, and the
      level on when the beat wraps. */
  lemma {:induction false} StepsCount(c: Clock, tempo: real, n: nat)
    requires InPhase(c)
    ensures Steps(c, tempo, n).beat == (c.beat + n) % 16
    ensures Steps(c, tempo, n).level == c.level + (c.beat + n) / 16
  {
    if n > 0 {
      StepsCount(c, tempo, n - 1);
      var m := c.beat + n - 1;
      NextBeat(m);
      assert c.beat + n == m + 1;
    }
  }

  /** `m` calls of `nextNote` followed by `n` more are `m + n` calls: a
      run of the scheduler may be cut into consecutive ticks anywhere. */
  lemma {:induction false} StepsCompose(c: Clock, tempo: real, m: nat, n: nat)
    requires InPhase(c)
    ensures Steps(Steps(c, tempo, m), tempo, n) == Steps(c, tempo, m + n)
  {
    if n > 0 {
      StepsCompose(c, tempo, m, n - 1);
      assert m + n - 1 == m + (n - 1);
    }
  }

  /** One beat more: the beat index moves on by one within the level, or
      wraps to 0 and moves the level on. */
  lemma NextBeat(m: nat)
    ensures m % 16 == 15 ==> (m + 1) % 16 == 0 && (m + 1) / 16 == m / 16 + 1
    ensures m % 16 != 15 ==> (m + 1) % 16 == m % 16 + 1 && (m + 1) / 16 == m / 16
  {
    var q, r := m / 16, m % 16;
    assert m == 16 * q + r;
    if r == 15 {
      Split16(q + 1, 0);
      assert m + 1 == 16 * (q + 1) + 0;
    } else {
      Split16(q, r + 1);
      assert m + 1 == 16 * q + (r + 1);
    }
  }

  /** Sixteen beats bring the beat back to where it was and the level up by
      one; exactly one of those sixteen steps wraps. */
  lemma WrapsOncePer16(c: Clock, tempo: real)
    requires InPhase(c)
    ensures Steps(c, tempo, 16) == Clock(c.time + 16.0 * tempo, c.beat, c.level + 1)
    ensures forall k :: 0 <= k < 16 ==> (Wraps(Steps(c, tempo, k)) <==> k == 15 - c.beat)
  {
    StepsClosedForm(c, tempo, 16);
    forall k | 0 <= k < 16
      ensures Wraps(Steps(c, tempo, k)) <==> k == 15 - c.beat
    {
      StepsClosedForm(c, tempo, k);
    }
  }

  /** Beat `k` of the first level starts `k` tempos after the lead-in. */
  lemma FirstLevelTiming(start: real, tempo: real, k: nat)
    requires k < 16
    ensures Steps(Clock(start + LeadIn, 0, 1), tempo, k) == Clock(start + LeadIn + k as real * tempo, k, 1)
  {
    StepsClosedForm(Clock(start + LeadIn, 0, 1), tempo, k);
  }

  /** The voices one `scheduleBeat` call plays: nothing once the level has
      passed the last one. */
  function BeatAudio(c: Clock, tempo: real, total: int): seq<Trigger>
    requires InPhase(c)
  {
    if c.level > total then [] else BeatTriggers(c.beat, c.time, tempo)
  }

  /** The voices played by `n` iterations of the scheduler loop from `c`. */
  function TickAudio(c: Clock, tempo: real, total: int, n: nat): seq<Trigger>
    requires InPhase(c)
  {
    if n == 0 then [] else TickAudio(c, tempo, total, n - 1) + BeatAudio(Steps(c, tempo, n - 1), tempo, total)
  }

  /** The voices of `m + n` iterations are those of the first `m`, then
      those of `n` more from where the first `m` left the clock. */
  lemma {:induction false} TickAudioSplit(c: Clock, tempo: real, total: int, m: nat, n: nat)
    requires InPhase(c)
    ensures TickAudio(c, tempo, total, m + n) == TickAudio(c, tempo, total, m) + TickAudio(Steps(c, tempo, m), tempo, total, n)
  {
    if n > 0 {
      TickAudioSplit(c, tempo, total, m, n - 1);
      StepsCompose(c, tempo, m, n - 1);
      var first, rest := TickAudio(c, tempo, total, m), TickAudio(Steps(c, tempo, m), tempo, total, n - 1);
      var before, last := TickAudio(c, tempo, total, m + n - 1), BeatAudio(Steps(c, tempo, m + n - 1), tempo, total);
      assert before == first + rest by {
        assert m + n - 1 == m + (n - 1);
      }
      Extend(first, rest, last, TickAudio(Steps(c, tempo, m), tempo, total, n), before, TickAudio(c, tempo, total, m + n));
    }
  }

  /** A log that held `first + middle` and was extended by `last`. */
  lemma Extend<T>(first: seq<T>, middle: seq<T>, last: seq<T>, whole: seq<T>, before: seq<T>, after: seq<T>)
    requires whole == middle + last && before == first + middle && after == before + last
    ensures after == first + whole
  {
  }

  /** An upper bound on the iterations left to the scheduler loop, which
      shrinks with every iteration since the tempo is positive. */
  function Budget(time: real, horizon: real, tempo: real): nat
    requires tempo > 0.0
  {
    if time < horizon then
      assert (horizon - time) / tempo > 0.0;
      ((horizon - time) / tempo).Floor + 1
    else 0
  }

  lemma BudgetDecreases(time: real, horizon: real, tempo: real)
    requires tempo > 0.0 && time < horizon
    ensures Budget(time + tempo, horizon, tempo) < Budget(time, horizon, tempo)
  {
    var x := (horizon - time) / tempo;
    var y := (horizon - (time + tempo)) / tempo;
    assert y == x - 1.0 by {
      assert x * tempo == horizon - time;
      assert y * tempo == horizon - (time + tempo);
      var d := y - (x - 1.0);
      assert d * tempo == 0.0;
      if d != 0.0 {
        assert false;
      }
    }
  }
}
