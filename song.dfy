/** The Song component: it turns a song into a queue of timed notes and a staff
    of bars and note glyphs, and every frame ticks the metronome and scrolls
    the staff. */
module SongComponent {
  import opened Score
  import opened Scheduling
  import opened StaffLayout
  import opened Metronome

  class Song {
    /** The staff measurements Awake takes from the BarDimensions object. */
    const geometry: Geometry
    /** The ordinals of the `Player.Key` members the layout uses. */
    const keys: KeyOrdinals
    /** The length of the `notePrefabs` array. */
    const prefabCount: nat

    /** The x coordinate of `barsTransform`, the parent of every bar. */
    var barsX: real
    /** The x coordinate of `currentBar`, the bar notes are parented to; being a
        child of `barsTransform`, it moves with the staff. */
    var currentBarX: real
    var secsPerBeat: real
    var nextBeatTime: real
    var staffSpeed: real
    var ticCount: int
    var rawSong: seq<Note>
    /** The `notes` queue, front first. */
    var notes: seq<ProcessedNote>
    /** Every bar, note glyph and extra line instantiated so far, in order. */
    var placements: seq<Placement>

    /** The configuration PlaceNote and InstantiateBar read. */
    function CurrentStaff(): Staff
      reads this`barsX
    {
      Staff(geometry, keys, prefabCount, barsX)
    }

    /** The state Update reads and writes. */
    function CurrentClock(): Clock
      reads this`nextBeatTime, this`ticCount, this`barsX
    {
      Clock(nextBeatTime, ticCount, barsX)
    }

    /** Awake with the staff measurements given: it sets up an empty song at 60 bpm. */
    constructor (geometry: Geometry, keys: KeyOrdinals, prefabCount: nat, barsX: real)
      ensures this.geometry == geometry && this.keys == keys && this.prefabCount == prefabCount
      ensures this.barsX == barsX
      ensures secsPerBeat == 1.0 && nextBeatTime == 0.0 && ticCount == 0 && staffSpeed == 0.0
      ensures rawSong == [] && notes == [] && placements == []
    {
      this.geometry := geometry;
      this.keys := keys;
      this.prefabCount := prefabCount;
      this.barsX := barsX;
      currentBarX := 0.0;
      secsPerBeat := 0.0;
      nextBeatTime := 0.0;
      staffSpeed := 0.0;
      ticCount := 0;
      rawSong := [];
      notes := [];
      placements := [];
      new;
      var _ := SetupSong([], 60);
    }

    /** One frame: tick the metronome when the beat deadline has passed, and
        after the count-in move the staff left at staffSpeed. */
    method Update(currentTime: real, deltaTime: real)
      modifies this`nextBeatTime, this`ticCount, this`barsX, this`currentBarX
      ensures CurrentClock() == Advance(old(CurrentClock()), secsPerBeat, staffSpeed, Frame(currentTime, deltaTime))
      ensures if currentTime - old(nextBeatTime) >= 0.0
              then nextBeatTime == currentTime + secsPerBeat && ticCount == old(ticCount) + 1
              else nextBeatTime == old(nextBeatTime) && ticCount == old(ticCount)
      ensures barsX == if ticCount > LeadInTicks then old(barsX) - staffSpeed * deltaTime else old(barsX)
      ensures currentBarX - barsX == old(currentBarX) - old(barsX)
    {
      if currentTime - nextBeatTime >= 0.0 {
        nextBeatTime := currentTime + secsPerBeat;
        ticCount := ticCount + 1;
      }
      if ticCount > 4 {
        barsX := barsX - staffSpeed * deltaTime;
        currentBarX := currentBarX - staffSpeed * deltaTime;
      }
    }

    /** Load a song: reset the queue, then queue and place every note in order.
        With an empty `notePrefabs` array the first note throws (an index of -1):
        `ok` is false and the state is the one at the throw. */
    method SetupSong(song: seq<Note>, bpm: int) returns (ok: bool)
      requires bpm != 0
      modifies this`rawSong, this`secsPerBeat, this`notes, this`staffSpeed, this`placements, this`currentBarX
      ensures rawSong == song && secsPerBeat == SecsPerBeat(bpm)
      ensures ok <==> song == [] || prefabCount > 0
      ensures ok ==> notes == Schedule(song, bpm)
      ensures ok ==> placements == old(placements) + LayoutOf(CurrentStaff(), Start, song).out
      ensures !ok ==> notes == Schedule(song[..1], bpm)
      ensures !ok ==> placements == old(placements) + OpenBar(CurrentStaff(), Start).out
      ensures !ok ==> currentBarX == BarX(CurrentStaff(), 0)
      ensures staffSpeed == if song == [] then old(staffSpeed) else geometry.barWidth / WholeNoteSecs(bpm)
      ensures song == [] ==> currentBarX == old(currentBarX)
      ensures song != [] && ok ==> currentBarX == BarX(CurrentStaff(), LayoutOf(CurrentStaff(), Start, song).state.barCount - 1)
    {
      rawSong := song;
      secsPerBeat := SecsPerBeat(bpm);
      notes := [];
      var time := 0.0;
      var barCount := 0;
      var completion := 1.0;
      ghost var sf := CurrentStaff();
      ghost var before := placements;
      ok := true;
      for i := 0 to |song|
        invariant rawSong == song
        invariant secsPerBeat == SecsPerBeat(bpm)
        invariant notes == Schedule(song[..i], bpm)
        invariant time == EndTime(song[..i], bpm)
        invariant LayoutOf(sf, Start, song[..i]).state == LayoutState(barCount, completion)
        invariant placements == before + LayoutOf(sf, Start, song[..i]).out
        invariant i > 0 ==> currentBarX == BarX(sf, barCount - 1)
        invariant i == 0 ==> currentBarX == old(currentBarX)
        invariant staffSpeed == if i == 0 then old(staffSpeed) else geometry.barWidth / WholeNoteSecs(bpm)
        invariant i > 0 ==> prefabCount > 0
      {
        var placed;
        time, barCount, completion, placed := LoadNote(sf, song, i, bpm, before, time, barCount, completion);
        if !placed {
          ok := false;
          assert song[..i + 1] == song[..1];
          return;
        }
      }
      assert song[..|song|] == song;
    }

    /** One pass of SetupSong's loop: queue note `i` of the song, then place it
        on the staff. */
    method LoadNote(ghost sf: Staff, song: seq<Note>, i: nat, bpm: int, ghost before: seq<Placement>,
                    time: real, barCount: int, completion: real)
        returns (time': real, barCount': int, completion': real, placed: bool)
      requires bpm != 0 && i < |song| && sf == CurrentStaff()
      requires notes == Schedule(song[..i], bpm) && time == EndTime(song[..i], bpm)
      requires LayoutOf(sf, Start, song[..i]).state == LayoutState(barCount, completion)
      requires placements == before + LayoutOf(sf, Start, song[..i]).out
      requires i > 0 ==> currentBarX == BarX(sf, barCount - 1)
      requires i > 0 ==> prefabCount > 0
      modifies this`notes, this`staffSpeed, this`placements, this`currentBarX
      ensures staffSpeed == geometry.barWidth / WholeNoteSecs(bpm)
      ensures notes == Schedule(song[..i + 1], bpm) && time' == EndTime(song[..i + 1], bpm)
      ensures currentBarX == BarX(sf, barCount' - 1)
      ensures placed <==> prefabCount > 0
      ensures placed ==> LayoutOf(sf, Start, song[..i + 1]).state == LayoutState(barCount', completion')
      ensures placed ==> placements == before + LayoutOf(sf, Start, song[..i + 1]).out
      ensures !placed ==> i == 0 && barCount' == 1 && placements == before + OpenBar(sf, Start).out
    {
      time' := AddNote(song[i], time, bpm);
      QueueNote(song, i, bpm, old(notes), time, notes, time');
      barCount', completion', placed := PlaceNote(song[i], barCount, completion);
      if placed {
        LayoutNote(sf, song, i, before, barCount, completion, old(placements), barCount', completion', placements);
      } else {
        FirstNoteFails(sf, song, i, before, barCount, completion, old(placements), barCount', completion', placements);
      }
    }

    /** Queue a note at the end of its duration, carried in `time`. */
    method AddNote(note: Note, time: real, bpm: int) returns (newTime: real)
      requires bpm != 0
      modifies this`notes, this`staffSpeed
      ensures staffSpeed == geometry.barWidth / WholeNoteSecs(bpm)
      ensures newTime == time + NoteDuration(note.rhythm, bpm)
      ensures notes == old(notes) + [ProcessedNote(note, newTime)]
    {
      var secsPerWholeNote := bpm as real / 60.0 * 4.0;
      staffSpeed := geometry.barWidth / secsPerWholeNote;
      var noteDuration := Shl1(note.rhythm) as real;
      noteDuration := secsPerWholeNote / noteDuration;
      newTime := time + noteDuration;
      notes := notes + [ProcessedNote(note, newTime)];
    }

    /** Place a note: open a bar when the completion is exactly 1.0, then add
        the note's glyph (and an extra line when its height above C4 is at most 0), and
        advance the completion by the note's share of a bar. `ok` is false when
        the glyph index falls outside `notePrefabs`, where the C# code throws an
        IndexOutOfRangeException (Song.cs:136). */
    method PlaceNote(note: Note, barCount: int, completion: real) returns (barCount': int, completion': real, ok: bool)
      requires completion != 1.0 ==> currentBarX == BarX(CurrentStaff(), barCount - 1)
      modifies this`placements, this`currentBarX
      ensures ok <==> prefabCount > 0
      ensures ok ==> var step := PlaceStep(CurrentStaff(), LayoutState(barCount, completion), note);
                     LayoutState(barCount', completion') == step.state && placements == old(placements) + step.out
      ensures !ok ==> placements == old(placements) + OpenBar(CurrentStaff(), LayoutState(barCount, completion)).out
      ensures !ok ==> LayoutState(barCount', completion') == BarCheck(LayoutState(barCount, completion))
      ensures currentBarX == BarX(CurrentStaff(), barCount' - 1)
    {
      ghost var afterCheck := OpenBar(CurrentStaff(), LayoutState(barCount, completion));
      barCount', completion' := barCount, completion;
      if completion' == 1.0 {
        barCount' := InstantiateBar(barCount');
        completion' := 0.0;
      }
      assert LayoutState(barCount', completion') == afterCheck.state;
      assert placements == old(placements) + afterCheck.out;
      var keyDiff := note.key - keys.c;
      if note.key == keys.silence {
        keyDiff := keyDiff + (keys.c - keys.b);
      }
      var octaveDiff := note.octave - 4;
      var offsetX := geometry.spaceForNotesInBar * completion';
      var offsetY := geometry.spaceBetweenNotesY * (keyDiff + octaveDiff * 8) as real;
      var x := currentBarX - geometry.barNoteStartOffset + offsetX;
      var y := geometry.c4PosY + offsetY;
      var prefabIndex: int := note.rhythm;
      if prefabIndex >= prefabCount {
        prefabIndex := prefabCount - 1;
      }
      if !(0 <= prefabIndex < prefabCount) {
        ok := false;
        return;
      }
      ok := true;
      ghost var h := Head(CurrentStaff(), afterCheck.state, note);
      assert offsetY == VerticalOffset(CurrentStaff(), note);
      assert NotePlaced(barCount' - 1, prefabIndex, x, y) == h;
      placements := placements + [NotePlaced(barCount' - 1, prefabIndex, x, y)];
      if offsetY <= 0.0 {
        placements := placements + [ExtraLinePlaced(barCount' - 1, x, y)];
      }
      assert placements == old(placements) + afterCheck.out + NoteRecords(CurrentStaff(), afterCheck.state, note);
      completion' := completion' + 1.0 / Shl1(note.rhythm) as real;
    }

    /** Add bar `barCount` at its place along the staff and make it the current bar. */
    method InstantiateBar(barCount: int) returns (barCount': int)
      modifies this`placements, this`currentBarX
      ensures currentBarX == BarX(CurrentStaff(), barCount)
      ensures placements == old(placements) + [BarPlaced(barCount, currentBarX)]
      ensures barCount' == barCount + 1
    {
      currentBarX := barsX + barCount as real * geometry.barWidth;
      placements := placements + [BarPlaced(barCount, currentBarX)];
      barCount' := barCount + 1;
    }
  }

  /** One pass of SetupSong's loop keeps the queue equal to the schedule of the
      notes read so far, and `time` equal to their total length. */
  lemma QueueNote(song: seq<Note>, i: nat, bpm: int, notes: seq<ProcessedNote>, time: real,
                  notes': seq<ProcessedNote>, time': real)
    requires i < |song|
    requires notes == Schedule(song[..i], bpm) && time == EndTime(song[..i], bpm)
    requires time' == time + NoteDuration(song[i].rhythm, bpm)
    requires notes' == notes + [ProcessedNote(song[i], time')]
    ensures notes' == Schedule(song[..i + 1], bpm) && time' == EndTime(song[..i + 1], bpm)
  {
    ScheduleExtend(song, i, bpm);
  }

  /** When the first note cannot be placed, the staff holds only the first bar,
      which is the current one. */
  lemma FirstNoteFails(sf: Staff, song: seq<Note>, i: nat, before: seq<Placement>,
                       barCount: int, completion: real, placements: seq<Placement>,
                       barCount': int, completion': real, placements': seq<Placement>)
    requires i == 0
    requires LayoutOf(sf, Start, song[..i]).state == LayoutState(barCount, completion)
    requires placements == before + LayoutOf(sf, Start, song[..i]).out
    requires LayoutState(barCount', completion') == BarCheck(LayoutState(barCount, completion))
    requires placements' == placements + OpenBar(sf, LayoutState(barCount, completion)).out
    ensures barCount' == 1
    ensures placements' == before + OpenBar(sf, Start).out
  {
    assert song[..i] == [];
    assert placements == before + [] == before;
  }

  /** One pass of SetupSong's loop keeps the staff equal to the layout of the
      notes read so far. */
  lemma LayoutNote(sf: Staff, song: seq<Note>, i: nat, before: seq<Placement>,
                   barCount: int, completion: real, placements: seq<Placement>,
                   barCount': int, completion': real, placements': seq<Placement>)
    requires i < |song|
    requires LayoutOf(sf, Start, song[..i]).state == LayoutState(barCount, completion)
    requires placements == before + LayoutOf(sf, Start, song[..i]).out
    requires var step := PlaceStep(sf, LayoutState(barCount, completion), song[i]);
             LayoutState(barCount', completion') == step.state && placements' == placements + step.out
    ensures LayoutOf(sf, Start, song[..i + 1]).state == LayoutState(barCount', completion')
    ensures placements' == before + LayoutOf(sf, Start, song[..i + 1]).out
  {
    var prev := LayoutOf(sf, Start, song[..i]);
    var step := PlaceStep(sf, prev.state, song[i]);
    var next := LayoutOf(sf, Start, song[..i + 1]);
    assert next == Step(step.state, prev.out + step.out) by {
      LayoutExtend(sf, Start, song, i);
    }
    AppendAssoc(before, prev.out, step.out);
  }
}
