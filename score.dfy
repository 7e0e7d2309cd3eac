/** Notes of a score and the rhythm and tempo arithmetic that Song.cs applies to them.
    Floats become `real`; the C# integer shift that turns a rhythm code into a
    divisor is written out with its 32-bit behaviour. */
module Score {

  /** The ordinals of the `Player.Key` members the staff layout needs. The enum
      itself is not part of this model, so its ordinals stay abstract. */
  datatype KeyOrdinals = KeyOrdinals(c: int, b: int, silence: int)

  /** A note of the score: the ordinal of its key, its octave, and its rhythm
      code `r` (the note lasts 1/2^r of a whole note). */
  datatype Note = Note(key: int, octave: int, rhythm: nat)

  /** A queued note with the time at which it ends, counted from the start of the song. */
  datatype ProcessedNote = ProcessedNote(note: Note, time: real)

  function Pow2(n: nat): (p: nat)
    ensures p >= 1
  {
    if n == 0 then 1 else 2 * Pow2(n - 1)
  }

  /** C#'s `1 << r` on a 32-bit `int`: the shift count is taken modulo 32, and a
      shift by 31 lands on the sign bit and gives int.MinValue. */
  function Shl1(r: nat): (v: int)
    ensures v != 0
    ensures v > 0 <==> r % 32 != 31
    ensures r < 31 ==> v == Pow2(r)
  {
    var s := r % 32;
    if s == 31 then -(Pow2(31) as int) else Pow2(s)
  }

  /** Whether every rhythm code of `s` gives a positive divisor, i.e. a note of positive length. */
  predicate ShiftsPositive(s: seq<Note>)
  {
    forall k :: 0 <= k < |s| ==> s[k].rhythm % 32 != 31
  }

  /** Seconds per metronome beat, as SetupSong computes it. */
  function SecsPerBeat(bpm: int): real
    requires bpm != 0
  {
    60.0 / bpm as real
  }

  /** Seconds per whole note, computed the way AddNote does: bpm / 60 * 4. */
  function WholeNoteSecs(bpm: int): (w: real)
    ensures bpm > 0 ==> w > 0.0
    ensures w == 0.0 <==> bpm == 0
  {
    bpm as real / 60.0 * 4.0
  }

  /** The length in seconds of a note with rhythm code `r`: its share of a bar
      of one whole note. */
  function NoteDuration(r: nat, bpm: int): (d: real)
    ensures d == WholeNoteSecs(bpm) * BarShare(r)
    ensures bpm > 0 && r % 32 != 31 ==> d > 0.0
  {
    var w := WholeNoteSecs(bpm);
    var v := Shl1(r) as real;
    assert w / v == w * (1.0 / v);
    w / v
  }

  /** The share of a bar (one whole note) that a note with rhythm code `r` fills. */
  function BarShare(r: nat): (f: real)
    ensures r % 32 != 31 ==> 0.0 < f <= 1.0
    ensures r < 31 ==> f == 1.0 / Pow2(r) as real
  {
    var v := Shl1(r);
    if v > 0 then
      ReciprocalOfCount(v);
      1.0 / v as real
    else
      1.0 / v as real
  }

  lemma ReciprocalOfCount(v: int)
    requires v >= 1
    ensures 0.0 < 1.0 / v as real <= 1.0
  {
    assert (1.0 / v as real) * v as real == 1.0;
  }

  /** At a positive tempo the whole-note length agrees with four metronome beats only at 60 bpm:
      at any other positive tempo the schedule and the metronome drift apart. */
  lemma WholeNoteIsFourBeatsOnlyAt60(bpm: int)
    requires bpm > 0
    ensures WholeNoteSecs(bpm) == 4.0 * SecsPerBeat(bpm) <==> bpm == 60
  {
    var b := bpm as real;
    if WholeNoteSecs(bpm) == 4.0 * SecsPerBeat(bpm) {
      assert b / 15.0 == 240.0 / b;
      assert b * b == 3600.0;
      assert (b - 60.0) * (b + 60.0) == 0.0;
    }
  }

  /** A shift count past 31 wraps around: rhythm code r + 32 lasts as long as r. */
  lemma {:induction false} RhythmWrapsAt32(r: nat, bpm: int)
    ensures NoteDuration(r + 32, bpm) == NoteDuration(r, bpm)
    ensures BarShare(r + 32) == BarShare(r)
  {
    assert (r + 32) % 32 == r % 32;
  }
}
