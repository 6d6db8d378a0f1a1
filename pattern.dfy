/** The per-beat voice pattern.

    Six named voices A-F of the synthesis engine are triggered at absolute
    audio-clock times. Each beat triggers the metronome A, the whistles B and
    C in the first half of the level, the cymbal F on odd beats, and two drum
    sub-beats (at the beat and half a beat later) whose voice follows the
    repeating four-step pattern D, D, E, D. */
module Pattern {

  datatype Voice = A | B | C | D | E | F

  /** One call `playX(time)` on the synthesis engine. */
  datatype Trigger = Trigger(voice: Voice, time: real)

  /** The drum voice of running sub-beat `sub`: the pattern D, D, E, D. */
  function DrumVoice(sub: nat): (v: Voice)
    ensures v == D || v == E
  {
    if sub % 4 == 2 then E else D
  }

  /** The triggers one beat issues, in the order the engine receives them. */
  function BeatTriggers(beat: nat, time: real, tempo: real): (ts: seq<Trigger>)
    ensures |ts| == 3 + (if beat < 8 then 2 else 0) + (if (beat + 1) % 2 == 0 then 1 else 0)
    ensures ts[0] == Trigger(A, time)
  {
    var whistles := if beat < 8 then [Trigger(B, time), Trigger(C, time)] else [];
    var cymbal := if (beat + 1) % 2 == 0 then [Trigger(F, time)] else [];
    [Trigger(A, time)] + whistles + cymbal
      + [Trigger(DrumVoice(beat * 2), time), Trigger(DrumVoice(beat * 2 + 1), time + tempo / 2.0)]
  }

  /** The sub-beat index of a beat's second half is never E, and its first
      half is E exactly on odd beats. */
  lemma DrumOnBeat(beat: nat)
    ensures DrumVoice(beat * 2) == E <==> beat % 2 == 1
    ensures DrumVoice(beat * 2 + 1) == D
  {
    var q := beat / 2;
    assert beat == 2 * q + beat % 2;
    assert beat * 2 == 4 * q + 2 * (beat % 2);
    assert (beat * 2) % 4 == 2 * (beat % 2);
    assert (beat * 2 + 1) % 4 == 2 * (beat % 2) + 1;
  }

  /** What a beat plays, voice by voice: A at the beat; B and C at the beat
      iff it is in the first half (0-7); F at the beat iff the beat is odd;
      E at the beat iff the beat is odd; D at the beat iff it is even, and D
      always half a beat later. Nothing else. */
  lemma BeatTriggersSpec(beat: nat, time: real, tempo: real, v: Voice, t: real)
    requires tempo > 0.0
    ensures Trigger(v, t) in BeatTriggers(beat, time, tempo) <==>
      || (v == A && t == time)
      || ((v == B || v == C) && beat < 8 && t == time)
      || (v == F && beat % 2 == 1 && t == time)
      || (v == E && beat % 2 == 1 && t == time)
      || (v == D && beat % 2 == 0 && t == time)
      || (v == D && t == time + tempo / 2.0)
  {
    DrumOnBeat(beat);
    assert (beat + 1) % 2 == 0 <==> beat % 2 == 1;
    assert time != time + tempo / 2.0;
  }
}
