# Song: scheduling, staff layout and metronome

This project models the `Song` component of a music-staff game, defined in
`Assets/Staff/Scripts/Song.cs`. When a song is loaded at a tempo in beats per
minute, the component:

- queues every note with the time at which it ends (the scheduling pass,
  `AddNote`);
- lays the notes out on a staff of bars (the layout pass, `PlaceNote` and
  `InstantiateBar`). A bar is opened whenever the completion counter is exactly
  1.0. Each note gets a glyph placed across and up the bar according to the
  completion and its pitch, plus an extra line when its height above C4 is at
  most 0.

On every frame (`Update`) the component sounds a metronome tick when the beat
deadline has passed. After four ticks it scrolls the staff to the left.

The project has five modules:

- `Score` (`score.dfy`): notes, and the tempo and rhythm arithmetic. C#'s
  `1 << r` on a 32-bit `int` is written out: the shift count is taken modulo
  32, and a count of 31 gives `int.MinValue`.
- `Scheduling` (`schedule.dfy`): the queue that the scheduling pass builds, as
  a function of the song, with its properties.
- `StaffLayout` (`layout.dfy`): the layout pass as a function from the song to
  the sequence of placement records (bars, note glyphs and extra lines) that
  it instantiates, with its properties.
- `Metronome` (`metronome.dfy`): one call of `Update` as a function on the
  clock state, and properties of a run of frames.
- `SongComponent` (`song.dfy`): the class `Song`. Its fields are the ones the
  source mutates. `SetupSong`, `AddNote`, `PlaceNote`, `InstantiateBar` and
  `Update` are methods, each proved against the functions above.

Floats are modelled as `real`, so every sum of `1/2^r` shares is exact. The
`Player.Key` enum is not part of this model, so the ordinals of C, B and
SILENCE are parameters (`KeyOrdinals`).

Points where the code behaves differently from what one might expect (the
model follows the code):

- A bar is opened only when the completion is exactly 1.0, not when it
  reaches or exceeds 1.0. A completion that overshoots 1.0 (three quarter
  notes then a half note) never opens another bar, as long as no later rhythm
  code is 31 modulo 32. `OvershootIsSticky` and `OvershootExample` prove this.
  In the model, such a code has a negative share of a bar and can bring the
  completion back down.
- Loading a song does not rebuild the staff. The placement records of earlier
  loads stay, and the new records are appended after them.
- The completion is not kept in [0, 1). After a note it ranges over (0, 1]
  in the common case, and above 1 after an overshoot.
- The silence is shifted by ord(C) − ord(B) diatonic steps, not by a fixed
  7 steps.
- A tick sets the next deadline one beat after the frame that fired it, so a
  late frame delays every later beat. No more than one tick fires per frame
  (`NoTickBeforeDeadline`, `AtMostOneTickPerFrame`).
- The queued times increase strictly at a positive tempo when no rhythm code
  is 31 modulo 32 (`ScheduleStrictlyIncreasing`). A code of 31 modulo 32
  gives a negative divisor and so a negative duration, and the time drops at
  that note.
- The whole-note length is bpm / 60 × 4 seconds. At a positive tempo it
  equals four metronome beats only at 60 bpm (`WholeNoteIsFourBeatsOnlyAt60`).

## Model

| member | source | states |
|---|---|---|
| Score.Shl1 | Assets/Staff/Scripts/Song.cs:100 | `1 << r` is never 0; it is positive exactly when r mod 32 is not 31; below 31 it is 2^r |
| Score.WholeNoteSecs | Assets/Staff/Scripts/Song.cs:95 | the seconds per whole note, bpm / 60 × 4, are positive at a positive tempo and zero only at bpm 0 |
| Score.NoteDuration | Assets/Staff/Scripts/Song.cs:100-101 | a note lasts its share of a bar times the whole-note length, which is positive at a positive tempo unless the shift hits the sign bit |
| Score.BarShare | Assets/Staff/Scripts/Song.cs:140 | the completion a note adds, 1 / (1 << r), is in (0, 1] unless the shift hits the sign bit, and is 1/2^r for r < 31 |
| Score.WholeNoteIsFourBeatsOnlyAt60 | Assets/Staff/Scripts/Song.cs:79-95 | at a positive tempo the whole-note length equals four beats of 60/bpm seconds if and only if bpm is 60 |
| Score.RhythmWrapsAt32 | Assets/Staff/Scripts/Song.cs:100-101 | rhythm codes r and r + 32 give the same duration and the same share of a bar |
| Scheduling.Schedule | Assets/Staff/Scripts/Song.cs:81-90 | the queue holds one entry per note |
| Scheduling.ScheduleEntries | Assets/Staff/Scripts/Song.cs:86-104 | entry k holds note k and the total length of notes 0..k |
| Scheduling.ScheduleExtend | Assets/Staff/Scripts/Song.cs:102-104 | queueing one more note appends it with the previous end time plus its duration |
| Scheduling.EndTimeAppend | Assets/Staff/Scripts/Song.cs:100-102 | the total length of two passages played one after the other is the sum of their lengths |
| Scheduling.EndTimePositive | Assets/Staff/Scripts/Song.cs:100-102 | at a positive tempo without sign-bit shifts, the total length is non-negative, and positive exactly when there is a note |
| Scheduling.ScheduleStrictlyIncreasing | Assets/Staff/Scripts/Song.cs:100-102 | at a positive tempo without sign-bit shifts, queued times are positive and strictly increase along the queue |
| Scheduling.FourQuarterNotesAt60 | Assets/Staff/Scripts/Song.cs:95-102 | at 60 bpm four quarter notes are queued at 1, 2, 3 and 4 seconds |
| StaffLayout.PitchHeights | Assets/Staff/Scripts/Song.cs:115-126 | C4 has height 0, C5 has 8 × spaceBetweenNotesY, one octave up adds 8 steps, and the silence in octave 4 sits ord(SILENCE) − ord(B) steps up |
| StaffLayout.GlyphIndex | Assets/Staff/Scripts/Song.cs:134-135 | the prefab index is min(rhythm, prefab count − 1), and it is in bounds exactly when there is a prefab |
| StaffLayout.PlaceStep | Assets/Staff/Scripts/Song.cs:107-141 | one note leaves the bar count and completion given by the bar check plus its share of a bar; its first record is a bar exactly when the completion was 1.0 |
| StaffLayout.ExtraLine | Assets/Staff/Scripts/Song.cs:138-139 | a note adds at most one extra line |
| StaffLayout.StateIgnoresGeometry | Assets/Staff/Scripts/Song.cs:109-140 | the bar count and completion after a song depend on the rhythm codes alone |
| StaffLayout.LayoutAppend | Assets/Staff/Scripts/Song.cs:86-90 | laying out a + b is laying out a, then b from the state a left |
| StaffLayout.OpenBarKinds | Assets/Staff/Scripts/Song.cs:109-113 | the bar check adds a bar record and nothing else |
| StaffLayout.NoteRecordKinds | Assets/Staff/Scripts/Song.cs:136-139 | the records of a note are its glyph and, if any, its extra line |
| StaffLayout.StepKind | Assets/Staff/Scripts/Song.cs:107-141 | the records of one kind that a note adds are those of its bar check followed by those of its glyph |
| StaffLayout.StepBars | Assets/Staff/Scripts/Song.cs:109-113 | the only bar a note adds is the one its bar check opens |
| StaffLayout.StepHeads | Assets/Staff/Scripts/Song.cs:123-137 | each note adds exactly one glyph, placed with the state after the bar check |
| StaffLayout.StepExtraLines | Assets/Staff/Scripts/Song.cs:138-139 | a note adds an extra line, at its glyph's place, exactly when its height above C4 is at most 0 |
| StaffLayout.BarRun | Assets/Staff/Scripts/Song.cs:145-149 | a run of n consecutive bars has n records |
| StaffLayout.BarRunEntries | Assets/Staff/Scripts/Song.cs:145-158 | entry i of a run starting at bar `from` is bar from + i at originX + (from + i) × barWidth |
| StaffLayout.BarRunExtend | Assets/Staff/Scripts/Song.cs:109-113 | the bar check extends the run of bars by the bar it opens, if any |
| StaffLayout.BarsStep | Assets/Staff/Scripts/Song.cs:109-113 | one note keeps the bars placed so far a consecutive run |
| StaffLayout.BarsAreConsecutive | Assets/Staff/Scripts/Song.cs:143-158 | the bar count never decreases, and the bars placed are exactly bars start, start + 1, ..., each at originX + n × barWidth |
| StaffLayout.GlyphsInOrder | Assets/Staff/Scripts/Song.cs:123-137 | one glyph per note, in song order; the glyph of note k uses the completion left by the notes before it, after the bar check |
| StaffLayout.LowNotes | Assets/Staff/Scripts/Song.cs:138 | at most one low note per note of the song |
| StaffLayout.ExtraLinesForLowNotes | Assets/Staff/Scripts/Song.cs:138-139 | the number of extra lines equals the number of notes whose height above C4 is at most 0 |
| StaffLayout.FirstNoteOpensBarZero | Assets/Staff/Scripts/Song.cs:83-113 | the first record of a song's layout is bar 0 at the staff's origin |
| StaffLayout.OvershootIsSticky | Assets/Staff/Scripts/Song.cs:109-140 | once the completion exceeds 1.0, and when no later rhythm code is 31 mod 32, no further bar is opened and the completion stays above 1.0 |
| StaffLayout.OverfullBar | Assets/Staff/Scripts/Song.cs:109-140 | three quarter notes and a half note open only bar 0 and leave a completion of 1.25 |
| StaffLayout.OverfullState | Assets/Staff/Scripts/Song.cs:109-140 | three quarter notes and a half note leave bar count 1 and completion 1.25 |
| StaffLayout.OvershootExample | Assets/Staff/Scripts/Song.cs:109-140 | after three quarter notes and a half note, whatever follows stays in bar 0 when no later rhythm code is 31 mod 32 |
| StaffLayout.StepWithinBar | Assets/Staff/Scripts/Song.cs:109-140 | a note that does not finish its bar moves the completion from (m − 1)/n to m/n without opening a bar |
| StaffLayout.StepFillsBar | Assets/Staff/Scripts/Song.cs:109-140 | the n-th note of a bar brings the completion to exactly 1.0, so the next note opens a new bar |
| StaffLayout.UniformPacking | Assets/Staff/Scripts/Song.cs:109-140 | with one rhythm filling 1/n of a bar, the note at index q × n + m (m < n) is placed in bar q at completion m/n, after a bar opens exactly when m = 0 |
| StaffLayout.UniformPlacement | Assets/Staff/Scripts/Song.cs:123-135 | in such a song the glyph of note q × n + m is in bar q, m/n of the way across the note area, at its pitch height |
| StaffLayout.FiveQuarterNotes | Assets/Staff/Scripts/Song.cs:109-140 | of five quarter notes the first four are in bar 0 and the fifth opens bar 1 at the start of its note area |
| Metronome.AtMostOneTickPerFrame | Assets/Staff/Scripts/Song.cs:61-66 | over any run of frames the tick count never decreases and rises by at most one per frame |
| Metronome.LeadInKeepsStaffStill | Assets/Staff/Scripts/Song.cs:68-73 | while no more than four ticks have sounded, the staff does not move |
| Metronome.ScrollAfterLeadIn | Assets/Staff/Scripts/Song.cs:68-73 | after the count-in the staff moves left by staffSpeed times the elapsed time |
| Metronome.NoTickBeforeDeadline | Assets/Staff/Scripts/Song.cs:61-66 | a tick moves the deadline one beat past the frame that fired it, and no frame before that deadline ticks again |
| SongComponent.Song.constructor | Assets/Staff/Scripts/Song.cs:28-56 | Awake with the measured geometry loads an empty song at 60 bpm: an empty queue, no records, one second per beat |
| SongComponent.Song.Update | Assets/Staff/Scripts/Song.cs:58-74 | a frame ticks (deadline one beat after now, count + 1) exactly when it has reached the deadline, and otherwise leaves both alone; the staff moves left by staffSpeed × deltaTime exactly when the count is then above 4, and the current bar, a child of the staff, moves with it |
| SongComponent.Song.SetupSong | Assets/Staff/Scripts/Song.cs:76-91 | sets the song and 60/bpm seconds per beat, replaces the queue with the song's schedule, appends the song's layout to the staff and leaves the current bar at the last bar it opened, and sets staffSpeed to barWidth over the whole-note length when the song has a note; with no note prefabs the first note throws, after being queued and opening bar 0, which is left as the current bar |
| SongComponent.Song.LoadNote | Assets/Staff/Scripts/Song.cs:86-90 | one pass of the loop extends the queue to the schedule and the staff to the layout of one more note; when the note cannot be placed it was the first one, and only bar 0 was added |
| SongComponent.Song.AddNote | Assets/Staff/Scripts/Song.cs:93-105 | sets staffSpeed, advances the time by the note's duration and enqueues the note with the new time |
| SongComponent.Song.PlaceNote | Assets/Staff/Scripts/Song.cs:107-141 | appends exactly the records of one layout step and returns its bar count and completion; leaves the current bar at the x of the last opened bar; fails exactly when there are no note prefabs, and then has only done the bar check |
| SongComponent.Song.InstantiateBar | Assets/Staff/Scripts/Song.cs:143-160 | places bar barCount at originX + barCount × barWidth, makes it the current bar and increments the bar count |
| SongComponent.QueueNote | Assets/Staff/Scripts/Song.cs:86-104 | one pass of the loop keeps the queue equal to the schedule of the notes read so far |
| SongComponent.LayoutNote | Assets/Staff/Scripts/Song.cs:86-90 | one pass of the loop keeps the staff equal to the layout of the notes read so far |

## Left out

- IEEE single-precision rounding: every float is a `real`, so sums of `1/2^r` are exact. The z-depth `- 0.001f` of a note glyph (line 131) is not modelled, and placement records carry x and y only.
- The geometry measurement in Awake (`GameObject.Find`, `GetChild`, lines 30-50) and the `Destroy` of the template bar (line 52): the constructor takes the geometry, the prefab count and the staff's x coordinate as parameters.
- Unity's `Instantiate` (lines 151-156 and 164-169) becomes appending a placement record. Prefab objects, rotations and the parent transform are not modelled. The parent appears only as the bar index of a glyph.
- Positions are recorded when an object is instantiated. Scrolling `barsTransform` in Update later moves the bars and their children on screen; the records are not updated. Only `currentBarX`, the x of the current bar that later notes are placed from, moves with the staff.
- The metronome sound (`metronomeTic.Play()`, line 64) and the AudioSource lookup (line 54): a tick is represented only by the tick count.
- `Time.time` and `Time.deltaTime` (lines 60 and 71) are parameters of Update.
- `new RawSong()` in Awake (line 55) is taken to hold no notes: the constructor loads the empty song. `RawSong` is not part of this model.
- `currentOffset` (lines 85 and 159) is written but never read, so it is not modelled.
- `RawSong`, `Note` and `Player.Key` are not part of this model. A song is a sequence of notes, a note is a key ordinal, an octave and a rhythm code, and the ordinals of C, B and SILENCE are parameters. `song.GetNotes()` is taken to yield the notes in order.
- SongComponent.Song.SetupSong: requires bpm ≠ 0. At bpm 0 the C# float division gives an infinite seconds-per-beat, and the model has no infinities.
- SongComponent.Song.Update: the tick count is an unbounded integer. The 32-bit wrap-around of `ticCount++` after 2^31 ticks is not modelled.
- SongComponent.Song.PlaceNote: the `IndexOutOfRangeException` thrown on an empty `notePrefabs` array is modelled as `ok == false`. The state is left as it was at the throw, and SetupSong stops there.
- A rhythm code is a natural number. The cast of a negative rhythm code to `int` is not modelled.
