/** The playback schedule AddNote builds: every note of the song is queued with
    the time at which it ends. */
module Scheduling {
  import opened Score

  /** The total length in seconds of the notes of `s`: the time at which the last of them ends. */
  function EndTime(s: seq<Note>, bpm: int): real
  {
    if s == [] then 0.0 else NoteDuration(s[0].rhythm, bpm) + EndTime(s[1..], bpm)
  }

  /** At a positive tempo, and when no rhythm code reaches the sign bit, a
      passage has positive length exactly when it has a note. */
  lemma {:induction false} EndTimePositive(s: seq<Note>, bpm: int)
    requires bpm > 0 && ShiftsPositive(s)
    ensures EndTime(s, bpm) >= 0.0
    ensures EndTime(s, bpm) > 0.0 <==> s != []
  {
    if s != [] {
      assert ShiftsPositive(s[1..]) by {
        forall k | 0 <= k < |s[1..]| ensures s[1..][k].rhythm % 32 != 31 {
          assert s[1..][k] == s[k + 1];
        }
      }
      EndTimePositive(s[1..], bpm);
      assert s[0].rhythm % 32 != 31;
    }
  }

  /** Lengths add up over concatenated passages. */
  lemma {:induction false} EndTimeAppend(a: seq<Note>, b: seq<Note>, bpm: int)
    ensures EndTime(a + b, bpm) == EndTime(a, bpm) + EndTime(b, bpm)
  {
    if a == [] {
      assert a + b == b;
    } else {
      assert (a + b)[1..] == a[1..] + b;
      EndTimeAppend(a[1..], b, bpm);
    }
  }

  /** The queue SetupSong leaves behind, built one note at a time. */
  function Schedule(s: seq<Note>, bpm: int): (q: seq<ProcessedNote>)
    ensures |q| == |s|
  {
    if s == [] then []
    else Schedule(s[..|s| - 1], bpm) + [ProcessedNote(s[|s| - 1], EndTime(s, bpm))]
  }

  /** One entry per note, in song order, each stamped with the sum of the
      durations up to and including its note. */
  lemma {:induction false} ScheduleEntries(s: seq<Note>, bpm: int)
    ensures forall k :: 0 <= k < |s| ==> Schedule(s, bpm)[k].note == s[k]
    ensures forall k :: 0 <= k < |s| ==> Schedule(s, bpm)[k].time == EndTime(s[..k + 1], bpm)
  {
    if s != [] {
      var init := s[..|s| - 1];
      ScheduleEntries(init, bpm);
      assert s[..|s|] == s;
      forall n | 0 < n <= |init| ensures init[..n] == s[..n] {
      }
    }
  }

  /** Queueing one more note extends the schedule by that note, ending one
      duration after the previous end. */
  lemma ScheduleExtend(s: seq<Note>, i: nat, bpm: int)
    requires i < |s|
    ensures Schedule(s[..i + 1], bpm)
         == Schedule(s[..i], bpm) + [ProcessedNote(s[i], EndTime(s[..i], bpm) + NoteDuration(s[i].rhythm, bpm))]
    ensures EndTime(s[..i + 1], bpm) == EndTime(s[..i], bpm) + NoteDuration(s[i].rhythm, bpm)
  {
    assert s[..i + 1][..i] == s[..i];
    assert s[..i] + [s[i]] == s[..i + 1];
    EndTimeAppend(s[..i], [s[i]], bpm);
  }

  /** At a positive tempo, and when no rhythm code reaches the sign bit, queued
      times are positive and strictly increase along the queue. */
  lemma ScheduleStrictlyIncreasing(s: seq<Note>, bpm: int)
    requires bpm > 0 && ShiftsPositive(s)
    ensures forall k :: 0 <= k < |s| ==> Schedule(s, bpm)[k].time > 0.0
    ensures forall i, j :: 0 <= i < j < |s| ==> Schedule(s, bpm)[i].time < Schedule(s, bpm)[j].time
  {
    var q := Schedule(s, bpm);
    ScheduleEntries(s, bpm);
    forall k | 0 <= k < |s| ensures q[k].time > 0.0 {
      PrefixShiftsPositive(s, k + 1);
      EndTimePositive(s[..k + 1], bpm);
    }
    forall i, j | 0 <= i < j < |s| ensures q[i].time < q[j].time {
      var mid := s[i + 1..j + 1];
      assert s[..j + 1] == s[..i + 1] + mid;
      EndTimeAppend(s[..i + 1], mid, bpm);
      assert ShiftsPositive(mid) by {
        forall k | 0 <= k < |mid| ensures mid[k].rhythm % 32 != 31 {
          assert mid[k] == s[i + 1 + k];
        }
      }
      PrefixShiftsPositive(s, i + 1);
      EndTimePositive(s[..i + 1], bpm);
      EndTimePositive(mid, bpm);
    }
  }

  lemma PrefixShiftsPositive(s: seq<Note>, n: nat)
    requires n <= |s| && ShiftsPositive(s)
    ensures ShiftsPositive(s[..n])
  {
    forall k | 0 <= k < n ensures s[..n][k].rhythm % 32 != 31 {
      assert s[..n][k] == s[k];
    }
  }

  /** At 60 bpm four quarter notes end at 1, 2, 3 and 4 seconds. */
  lemma FourQuarterNotesAt60(key: int, octave: int)
    ensures var q := Note(key, octave, 2);
            var times := Schedule([q, q, q, q], 60);
            times[0].time == 1.0 && times[1].time == 2.0 && times[2].time == 3.0 && times[3].time == 4.0
  {
    var q := Note(key, octave, 2);
    var s := [q, q, q, q];
    ScheduleEntries(s, 60);
    assert NoteDuration(2, 60) == 1.0 by {
      assert Pow2(2) == 4;
    }
    assert s[..1] == [q] && s[..2] == [q, q] && s[..3] == [q, q, q] && s[..4] == s;
    assert EndTime([q], 60) == 1.0;
    assert EndTime([q, q], 60) == 2.0;
    assert EndTime([q, q, q], 60) == 3.0;
    assert EndTime(s, 60) == 4.0;
  }
}
