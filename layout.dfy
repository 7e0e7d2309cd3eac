/** The staff layout that PlaceNote and InstantiateBar compute. Instantiating a
    bar, a note glyph or an extra line becomes appending a placement record. */
module StaffLayout {
  import opened Score

  /** The staff measurements that Awake reads off the BarDimensions object. */
  datatype Geometry = Geometry(
    barWidth: real,
    spaceBetweenNotesY: real,
    spaceForNotesInBar: real,
    c4PosY: real,
    barNoteStartOffset: real)

  /** Everything PlaceNote reads besides the note and its accumulators: the
      geometry, the key ordinals, the length of the `notePrefabs` array and the
      x coordinate of `barsTransform`. */
  datatype Staff = Staff(geometry: Geometry, keys: KeyOrdinals, prefabCount: nat, originX: real)

  /** One instantiated object: a bar, a note glyph parented to bar `bar`, or the
      extra line drawn under a note. */
  datatype Placement =
    | BarPlaced(index: int, x: real)
    | NotePlaced(bar: int, glyph: int, x: real, y: real)
    | ExtraLinePlaced(bar: int, x: real, y: real)

  datatype Kind = BarKind | NoteKind | ExtraLineKind

  function KindOf(p: Placement): Kind
  {
    match p
    case BarPlaced(_, _) => BarKind
    case NotePlaced(_, _, _, _) => NoteKind
    case ExtraLinePlaced(_, _, _) => ExtraLineKind
  }

  /** The accumulators SetupSong threads through PlaceNote by reference. */
  datatype LayoutState = LayoutState(barCount: int, completion: real)

  /** Before the first note: no bar yet and a completion of 1.0, so that the
      first note opens bar 0. */
  const Start := LayoutState(0, 1.0)

  /** The state after some notes and the records they appended. */
  datatype Step = Step(state: LayoutState, out: seq<Placement>)

  /** The x coordinate of bar `n`. */
  function BarX(sf: Staff, n: int): real
  {
    sf.originX + n as real * sf.geometry.barWidth
  }

  /** The diatonic distance of a key from C; the silence is moved by ord(C) - ord(B)
      so that its glyph sits inside the staff. */
  function KeyDiff(key: int, keys: KeyOrdinals): int
  {
    var d := key - keys.c;
    if key == keys.silence then d + (keys.c - keys.b) else d
  }

  /** The height of a note above C4: its steps above C4 times spaceBetweenNotesY, so
      notes up to C4 have a height of at most 0 only when that spacing is positive. */
  function VerticalOffset(sf: Staff, note: Note): real
  {
    sf.geometry.spaceBetweenNotesY * (KeyDiff(note.key, sf.keys) + (note.octave - 4) * 8) as real
  }

  /** C4 is at height 0, one octave up is 8 steps of spaceBetweenNotesY higher,
      and the silence sits ord(SILENCE) - ord(B) steps above C4 in octave 4. */
  lemma PitchHeights(sf: Staff, key: int, octave: int, rhythm: nat)
    requires sf.keys.c != sf.keys.silence
    ensures VerticalOffset(sf, Note(sf.keys.c, 4, rhythm)) == 0.0
    ensures VerticalOffset(sf, Note(sf.keys.c, 5, rhythm)) == 8.0 * sf.geometry.spaceBetweenNotesY
    ensures VerticalOffset(sf, Note(key, octave + 1, rhythm))
         == VerticalOffset(sf, Note(key, octave, rhythm)) + 8.0 * sf.geometry.spaceBetweenNotesY
    ensures VerticalOffset(sf, Note(sf.keys.silence, 4, rhythm))
         == sf.geometry.spaceBetweenNotesY * (sf.keys.silence - sf.keys.b) as real
  {
  }

  /** The index into `notePrefabs`: the rhythm code, clamped to the last prefab.
      With no prefabs at all it is -1, outside the array. */
  function GlyphIndex(rhythm: nat, prefabCount: nat): (g: int)
    ensures 0 <= g < prefabCount <==> prefabCount > 0
    ensures g <= rhythm && g <= prefabCount - 1
    ensures g == rhythm || g == prefabCount - 1
  {
    if rhythm >= prefabCount then prefabCount - 1 else rhythm
  }

  /** The bar check at the top of PlaceNote on the accumulators alone: a new
      bar is opened only when the completion is exactly 1.0. */
  function BarCheck(st: LayoutState): LayoutState
  {
    if st.completion == 1.0 then LayoutState(st.barCount + 1, 0.0) else st
  }

  /** The bar check with InstantiateBar: the bar it opens, if any, sits at its
      place along the staff. */
  function OpenBar(sf: Staff, st: LayoutState): (r: Step)
    ensures r.state == BarCheck(st)
  {
    if st.completion == 1.0 then
      Step(LayoutState(st.barCount + 1, 0.0), [BarPlaced(st.barCount, BarX(sf, st.barCount))])
    else
      Step(st, [])
  }

  /** The x coordinate of a note glyph in bar `bar` whose completion is `completion`:
      the bar's note area starts barNoteStartOffset left of the bar's x, and the
      glyph sits as far across that area as the bar is complete. */
  function NoteX(sf: Staff, bar: int, completion: real): real
  {
    BarX(sf, bar) - sf.geometry.barNoteStartOffset + sf.geometry.spaceForNotesInBar * completion
  }

  /** The glyph of a note placed with state `st`, the state after the bar check:
      in the last opened bar, as far right as the bar is complete, at its height above C4. */
  function Head(sf: Staff, st: LayoutState, note: Note): Placement
  {
    var bar := st.barCount - 1;
    NotePlaced(bar,
      GlyphIndex(note.rhythm, sf.prefabCount),
      NoteX(sf, bar, st.completion),
      sf.geometry.c4PosY + VerticalOffset(sf, note))
  }

  /** The records of one note: its glyph, then an extra line at the same place
      when the height of the note above C4 is at most 0. */
  function NoteRecords(sf: Staff, st: LayoutState, note: Note): seq<Placement>
  {
    var h := Head(sf, st, note);
    [h] + ExtraLine(sf, h, note)
  }

  /** The accumulators after one note with rhythm code `r`: the bar check,
      then the note's share of a bar. */
  function NextState(st: LayoutState, r: nat): LayoutState
  {
    var c := BarCheck(st);
    LayoutState(c.barCount, c.completion + BarShare(r))
  }

  /** The accumulators after the notes of `s`. */
  function StateAfter(st: LayoutState, s: seq<Note>): LayoutState
  {
    if s == [] then st else NextState(StateAfter(st, s[..|s| - 1]), s[|s| - 1].rhythm)
  }

  /** One call of PlaceNote. */
  function PlaceStep(sf: Staff, st: LayoutState, note: Note): (r: Step)
    ensures r.state == NextState(st, note.rhythm)
    ensures |r.out| > 0
    ensures r.out[0].BarPlaced? <==> st.completion == 1.0
  {
    var afterCheck := OpenBar(sf, st);
    Step(LayoutState(afterCheck.state.barCount, afterCheck.state.completion + BarShare(note.rhythm)),
         afterCheck.out + NoteRecords(sf, afterCheck.state, note))
  }

  /** The layout pass of SetupSong over the notes `s`, from state `st`. */
  function LayoutOf(sf: Staff, st: LayoutState, s: seq<Note>): Step
  {
    if s == [] then Step(st, [])
    else
      var prev := LayoutOf(sf, st, s[..|s| - 1]);
      var step := PlaceStep(sf, prev.state, s[|s| - 1]);
      Step(step.state, prev.out + step.out)
  }

  /** The bar count and the completion depend on the rhythm codes alone, not
      on the geometry, the keys or the prefabs. */
  lemma {:induction false} StateIgnoresGeometry(sf: Staff, st: LayoutState, s: seq<Note>)
    ensures LayoutOf(sf, st, s).state == StateAfter(st, s)
  {
    if s != [] {
      StateIgnoresGeometry(sf, st, s[..|s| - 1]);
    }
  }

  /** Placing one more note continues the layout from where it stood. */
  lemma LayoutExtend(sf: Staff, st: LayoutState, s: seq<Note>, i: nat)
    requires i < |s|
    ensures var prev := LayoutOf(sf, st, s[..i]);
            var step := PlaceStep(sf, prev.state, s[i]);
            LayoutOf(sf, st, s[..i + 1]) == Step(step.state, prev.out + step.out)
  {
    assert s[..i + 1][..i] == s[..i];
  }

  lemma PrefixOfPrefix(s: seq<Note>, n: nat, k: nat)
    requires k <= n <= |s|
    ensures s[..n][..k] == s[..k]
  {
  }

  /** Concatenation of records is associative. */
  lemma AppendAssoc(a: seq<Placement>, b: seq<Placement>, c: seq<Placement>)
    ensures (a + b) + c == a + (b + c)
  {
  }

  /** The records of one kind, in order. */
  function Only(out: seq<Placement>, kind: Kind): (r: seq<Placement>)
    ensures |r| <= |out|
    ensures forall i :: 0 <= i < |r| ==> KindOf(r[i]) == kind
  {
    if out == [] then []
    else (if KindOf(out[0]) == kind then [out[0]] else []) + Only(out[1..], kind)
  }

  lemma {:induction false} OnlyAppend(a: seq<Placement>, b: seq<Placement>, kind: Kind)
    ensures Only(a + b, kind) == Only(a, kind) + Only(b, kind)
  {
    if a == [] {
      assert a + b == b;
    } else {
      assert (a + b)[1..] == a[1..] + b;
      OnlyAppend(a[1..], b, kind);
    }
  }

  /** The bars `from`, `from + 1`, ..., `from + n - 1`, each at its own x. */
  function BarRun(sf: Staff, from: int, n: nat): (r: seq<Placement>)
    ensures |r| == n
  {
    if n == 0 then [] else BarRun(sf, from, n - 1) + [BarPlaced(from + n - 1, BarX(sf, from + n - 1))]
  }

  /** Entry i of a run of bars is bar `from + i`, at originX + (from + i) * barWidth. */
  lemma {:induction false} BarRunEntries(sf: Staff, from: int, n: nat)
    ensures forall i :: 0 <= i < n ==> BarRun(sf, from, n)[i] == BarPlaced(from + i, BarX(sf, from + i))
  {
    if n > 0 {
      BarRunEntries(sf, from, n - 1);
    }
  }

  /** The extra line drawn for a glyph `h` of `note`: one when the height of the note above C4 is at most 0. */
  function ExtraLine(sf: Staff, h: Placement, note: Note): (r: seq<Placement>)
    requires h.NotePlaced?
    ensures |r| <= 1
  {
    if VerticalOffset(sf, note) <= 0.0 then [ExtraLinePlaced(h.bar, h.x, h.y)] else []
  }

  /** The records of one note, sorted by kind: its glyph, and its extra line if any. */
  lemma NoteRecordKinds(sf: Staff, st: LayoutState, note: Note, kind: Kind)
    ensures var h := Head(sf, st, note);
            Only(NoteRecords(sf, st, note), kind)
            == if kind == NoteKind then [h] else if kind == ExtraLineKind then ExtraLine(sf, h, note) else []
  {
    var h := Head(sf, st, note);
    var tail := ExtraLine(sf, h, note);
    assert NoteRecords(sf, st, note)[1..] == tail;
    if tail != [] {
      assert tail[1..] == [];
    }
  }

  /** The bar check adds a bar record and nothing else. */
  lemma OpenBarKinds(sf: Staff, st: LayoutState, kind: Kind)
    ensures Only(OpenBar(sf, st).out, kind) == if kind == BarKind then OpenBar(sf, st).out else []
  {
    var out := OpenBar(sf, st).out;
    if out != [] {
      assert out[1..] == [];
    }
  }

  /** What one note appends, of one kind. */
  lemma StepKind(sf: Staff, st: LayoutState, note: Note, kind: Kind)
    ensures Only(PlaceStep(sf, st, note).out, kind)
            == Only(OpenBar(sf, st).out, kind) + Only(NoteRecords(sf, BarCheck(st), note), kind)
  {
    OnlyAppend(OpenBar(sf, st).out, NoteRecords(sf, BarCheck(st), note), kind);
  }

  /** The only bar a note can add is the one its bar check opens. */
  lemma StepBars(sf: Staff, st: LayoutState, note: Note)
    ensures Only(PlaceStep(sf, st, note).out, BarKind) == OpenBar(sf, st).out
  {
    StepKind(sf, st, note, BarKind);
    OpenBarKinds(sf, st, BarKind);
    NoteRecordKinds(sf, BarCheck(st), note, BarKind);
  }

  /** Each note adds exactly one glyph. */
  lemma StepHeads(sf: Staff, st: LayoutState, note: Note)
    ensures Only(PlaceStep(sf, st, note).out, NoteKind) == [Head(sf, BarCheck(st), note)]
  {
    StepKind(sf, st, note, NoteKind);
    OpenBarKinds(sf, st, NoteKind);
    NoteRecordKinds(sf, BarCheck(st), note, NoteKind);
  }

  /** A note adds an extra line exactly when the height of the note above C4 is at most 0, at its glyph. */
  lemma StepExtraLines(sf: Staff, st: LayoutState, note: Note)
    ensures var h := Head(sf, BarCheck(st), note);
            Only(PlaceStep(sf, st, note).out, ExtraLineKind) == ExtraLine(sf, h, note)
  {
    StepKind(sf, st, note, ExtraLineKind);
    OpenBarKinds(sf, st, ExtraLineKind);
    NoteRecordKinds(sf, BarCheck(st), note, ExtraLineKind);
  }

  /** Laying out `a + b` is laying out `a`, then `b` from where `a` left off. */
  lemma {:induction false} LayoutAppend(sf: Staff, st: LayoutState, a: seq<Note>, b: seq<Note>)
    ensures var first := LayoutOf(sf, st, a);
            var second := LayoutOf(sf, first.state, b);
            LayoutOf(sf, st, a + b) == Step(second.state, first.out + second.out)
    decreases |b|
  {
    if b == [] {
      assert a + b == a;
    } else {
      var b' := b[..|b| - 1];
      var last := b[|b| - 1];
      assert (a + b)[..|a + b| - 1] == a + b' && (a + b)[|a + b| - 1] == last;
      var first := LayoutOf(sf, st, a);
      var mid := LayoutOf(sf, first.state, b');
      assert LayoutOf(sf, st, a + b') == Step(mid.state, first.out + mid.out) by {
        LayoutAppend(sf, st, a, b');
      }
      var step := PlaceStep(sf, mid.state, last);
      assert LayoutOf(sf, st, a + b) == Step(step.state, (first.out + mid.out) + step.out);
      assert LayoutOf(sf, first.state, b) == Step(step.state, mid.out + step.out);
      AppendAssoc(first.out, mid.out, step.out);
    }
  }

  /** Bars are numbered consecutively from the starting bar count, and bar `n`
      sits at originX + n * barWidth. */
  lemma {:induction false} BarsAreConsecutive(sf: Staff, st: LayoutState, s: seq<Note>)
    ensures var r := LayoutOf(sf, st, s);
            r.state.barCount >= st.barCount &&
            Only(r.out, BarKind) == BarRun(sf, st.barCount, r.state.barCount - st.barCount)
  {
    if s != [] {
      var init := s[..|s| - 1];
      BarsAreConsecutive(sf, st, init);
      BarsStep(sf, st.barCount, LayoutOf(sf, st, init), s[|s| - 1]);
    }
  }

  /** One note continues a consecutive run of bars. */
  lemma BarsStep(sf: Staff, from: int, prev: Step, note: Note)
    requires prev.state.barCount >= from
    requires Only(prev.out, BarKind) == BarRun(sf, from, prev.state.barCount - from)
    ensures var step := PlaceStep(sf, prev.state, note);
            step.state.barCount >= from &&
            Only(prev.out + step.out, BarKind) == BarRun(sf, from, step.state.barCount - from)
  {
    OnlyAppend(prev.out, PlaceStep(sf, prev.state, note).out, BarKind);
    StepBars(sf, prev.state, note);
    BarRunExtend(sf, from, prev.state);
  }

  /** The bar check extends the run of bars opened so far by the bar it opens, if any. */
  lemma BarRunExtend(sf: Staff, from: int, st: LayoutState)
    requires st.barCount >= from
    ensures BarCheck(st).barCount >= from
    ensures BarRun(sf, from, BarCheck(st).barCount - from) == BarRun(sf, from, st.barCount - from) + OpenBar(sf, st).out
  {
    if st.completion != 1.0 {
      assert OpenBar(sf, st).out == [];
      assert BarRun(sf, from, st.barCount - from) + [] == BarRun(sf, from, st.barCount - from);
    }
  }

  /** Every note gets exactly one glyph, in song order; the glyph of note k is
      placed with the state left by the notes before it, after the bar check. */
  lemma {:induction false} GlyphsInOrder(sf: Staff, st: LayoutState, s: seq<Note>)
    ensures var heads := Only(LayoutOf(sf, st, s).out, NoteKind);
            |heads| == |s| &&
            forall k :: 0 <= k < |s| ==>
              heads[k] == Head(sf, OpenBar(sf, LayoutOf(sf, st, s[..k]).state).state, s[k])
  {
    if s != [] {
      var init := s[..|s| - 1];
      var last := s[|s| - 1];
      var prev := LayoutOf(sf, st, init);
      GlyphsInOrder(sf, st, init);
      var heads := Only(LayoutOf(sf, st, s).out, NoteKind);
      OnlyAppend(prev.out, PlaceStep(sf, prev.state, last).out, NoteKind);
      StepHeads(sf, prev.state, last);
      assert heads == Only(prev.out, NoteKind) + [Head(sf, OpenBar(sf, prev.state).state, last)];
      forall k | 0 <= k < |s|
        ensures heads[k] == Head(sf, OpenBar(sf, LayoutOf(sf, st, s[..k]).state).state, s[k])
      {
        if k < |init| {
          PrefixOfPrefix(s, |s| - 1, k);
        } else {
          assert s[..k] == init;
        }
      }
    }
  }

  /** The number of notes of `s` whose height above C4 (VerticalOffset) is at most 0. */
  function LowNotes(sf: Staff, s: seq<Note>): (n: nat)
    ensures n <= |s|
  {
    if s == [] then 0
    else LowNotes(sf, s[..|s| - 1]) + if VerticalOffset(sf, s[|s| - 1]) <= 0.0 then 1 else 0
  }

  /** The number of extra lines equals the number of notes whose height above C4 is at most 0. */
  lemma {:induction false} ExtraLinesForLowNotes(sf: Staff, st: LayoutState, s: seq<Note>)
    ensures |Only(LayoutOf(sf, st, s).out, ExtraLineKind)| == LowNotes(sf, s)
  {
    if s != [] {
      var prev := LayoutOf(sf, st, s[..|s| - 1]);
      ExtraLinesForLowNotes(sf, st, s[..|s| - 1]);
      OnlyAppend(prev.out, PlaceStep(sf, prev.state, s[|s| - 1]).out, ExtraLineKind);
      StepExtraLines(sf, prev.state, s[|s| - 1]);
    }
  }

  /** The first note of a song always opens bar 0 at the origin. */
  lemma {:induction false} FirstNoteOpensBarZero(sf: Staff, s: seq<Note>)
    requires s != []
    ensures var out := LayoutOf(sf, Start, s).out;
            |out| > 0 && out[0] == BarPlaced(0, sf.originX)
  {
    if |s| > 1 {
      FirstNoteOpensBarZero(sf, s[..|s| - 1]);
    }
  }

  /** Once the completion overshoots 1.0 it can never be exactly 1.0 again:
      no further bar is opened and every later note lands in the same bar. */
  lemma {:induction false} OvershootIsSticky(sf: Staff, st: LayoutState, s: seq<Note>)
    requires st.completion > 1.0 && ShiftsPositive(s)
    ensures var r := LayoutOf(sf, st, s);
            r.state.barCount == st.barCount && r.state.completion > 1.0 &&
            Only(r.out, BarKind) == []
  {
    if s != [] {
      var init := s[..|s| - 1];
      assert ShiftsPositive(init) by {
        forall k | 0 <= k < |init| ensures init[k].rhythm % 32 != 31 {
          assert init[k] == s[k];
        }
      }
      var prev := LayoutOf(sf, st, init);
      OvershootIsSticky(sf, st, init);
      OnlyAppend(prev.out, PlaceStep(sf, prev.state, s[|s| - 1]).out, BarKind);
      StepBars(sf, prev.state, s[|s| - 1]);
    }
  }

  /** Three quarter notes and a half note fill 1.25 bars: whatever follows stays in bar 0. */
  lemma OvershootExample(sf: Staff, quarter: Note, half: Note, rest: seq<Note>)
    requires quarter.rhythm == 2 && half.rhythm == 1 && ShiftsPositive(rest)
    ensures Only(LayoutOf(sf, Start, [quarter, quarter, quarter, half] + rest).out, BarKind)
            == [BarPlaced(0, sf.originX)]
  {
    var head := [quarter, quarter, quarter, half];
    var first := LayoutOf(sf, Start, head);
    assert first.state == LayoutState(1, 1.25) && Only(first.out, BarKind) == [BarPlaced(0, sf.originX)] by {
      OverfullBar(sf, quarter, half);
    }
    LayoutAppend(sf, Start, head, rest);
    OvershootIsSticky(sf, first.state, rest);
    OnlyAppend(first.out, LayoutOf(sf, first.state, rest).out, BarKind);
  }

  lemma OverfullBar(sf: Staff, quarter: Note, half: Note)
    requires quarter.rhythm == 2 && half.rhythm == 1
    ensures var first := LayoutOf(sf, Start, [quarter, quarter, quarter, half]);
            first.state == LayoutState(1, 1.25) && Only(first.out, BarKind) == [BarPlaced(0, sf.originX)]
  {
    var head := [quarter, quarter, quarter, half];
    OverfullState(quarter, half);
    StateIgnoresGeometry(sf, Start, head);
    BarsAreConsecutive(sf, Start, head);
    assert BarRun(sf, 0, 1) == [BarPlaced(0, sf.originX)];
  }

  /** Three quarter notes and a half note leave bar 0 with a completion of 1.25. */
  lemma OverfullState(quarter: Note, half: Note)
    requires quarter.rhythm == 2 && half.rhythm == 1
    ensures StateAfter(Start, [quarter, quarter, quarter, half]) == LayoutState(1, 1.25)
  {
    var head := [quarter, quarter, quarter, half];
    assert BarShare(2) == 0.25 && BarShare(1) == 0.5 by {
      assert Pow2(2) == 4 && Pow2(1) == 2;
    }
    assert head[..3] == [quarter, quarter, quarter];
    assert head[..3][..2] == [quarter, quarter];
    assert head[..3][..2][..1] == [quarter];
    assert StateAfter(Start, [quarter]) == LayoutState(1, 0.25);
    assert StateAfter(Start, [quarter, quarter]) == LayoutState(1, 0.5);
    assert StateAfter(Start, [quarter, quarter, quarter]) == LayoutState(1, 0.75);
  }

  lemma FractionStep(a: nat, n: nat)
    requires a < n
    ensures a as real / n as real + 1.0 / n as real == (a + 1) as real / n as real
    ensures (a + 1) as real / n as real == 1.0 <==> a + 1 == n
  {
    var d := n as real;
    assert (a as real / d) * d == a as real;
    assert (1.0 / d) * d == 1.0;
    assert ((a + 1) as real / d) * d == (a + 1) as real;
  }

  /** A song whose notes all have one rhythm code r, each filling 1/n of a bar,
      packs n notes per bar. For the note that follows `s`, with |s| = q * n + m and 0 <= m < n:
      the completion before it is exactly 1.0 iff m == 0, and after the bar
      check it is in bar q with a completion of m / n. */
  lemma {:induction false} UniformPacking(s: seq<Note>, r: nat, n: nat, q: nat, m: nat)
    requires forall i :: 0 <= i < |s| ==> s[i].rhythm == r
    requires n > 0 && BarShare(r) == 1.0 / n as real
    requires m < n && |s| == q * n + m
    ensures var st := StateAfter(Start, s);
            && (st.completion == 1.0 <==> m == 0)
            && BarCheck(st) == LayoutState(q + 1, m as real / n as real)
  {
    SlotBefore(q, n);
    if s == [] {
      assert q == 0 && m == 0;
      EmptyFraction(n);
    } else {
      var init := s[..|s| - 1];
      assert forall i :: 0 <= i < |init| ==> init[i].rhythm == r;
      var prev := StateAfter(Start, init);
      assert s[|s| - 1].rhythm == r;
      if m > 0 {
        assert BarCheck(prev) == LayoutState(q + 1, (m - 1) as real / n as real) by {
          UniformPacking(init, r, n, q, m - 1);
        }
        StepWithinBar(prev, r, n, q, m);
      } else {
        assert BarCheck(prev) == LayoutState(q, (n - 1) as real / n as real) by {
          UniformPacking(init, r, n, q - 1, n - 1);
        }
        StepFillsBar(prev, r, n, q - 1);
        EmptyFraction(n);
      }
    }
  }

  /** Slot q * n is the first of bar q: for q > 0 the slot before it is the last of bar q - 1. */
  lemma SlotBefore(q: nat, n: nat)
    requires n > 0
    ensures q * n == 0 <==> q == 0
    ensures q > 0 ==> q * n >= n && q * n - 1 == (q - 1) * n + (n - 1)
  {
    if q > 0 {
      assert q * n == (q - 1) * n + n;
    }
  }

  lemma EmptyFraction(n: nat)
    requires n > 0
    ensures 0 as real / n as real == 0.0
  {
  }

  lemma StepWithinBar(prev: LayoutState, r: nat, n: nat, q: int, m: nat)
    requires n > 0 && BarShare(r) == 1.0 / n as real
    requires 0 < m < n && BarCheck(prev) == LayoutState(q + 1, (m - 1) as real / n as real)
    ensures var st := NextState(prev, r);
            st.completion != 1.0 && BarCheck(st) == LayoutState(q + 1, m as real / n as real)
  {
    FractionStep(m - 1, n);
  }

  lemma StepFillsBar(prev: LayoutState, r: nat, n: nat, q: int)
    requires n > 0 && BarShare(r) == 1.0 / n as real
    requires BarCheck(prev) == LayoutState(q + 1, (n - 1) as real / n as real)
    ensures var st := NextState(prev, r);
            st.completion == 1.0 && BarCheck(st) == LayoutState(q + 2, 0.0)
  {
    FractionStep(n - 1, n);
  }

  /** In such a song the note at index k = q * n + m (0 <= m < n) is drawn in bar q,
      m / n of the way across the bar's note area. */
  lemma UniformPlacement(sf: Staff, s: seq<Note>, r: nat, n: nat, k: nat, q: nat, m: nat)
    requires forall i :: 0 <= i < |s| ==> s[i].rhythm == r
    requires n > 0 && BarShare(r) == 1.0 / n as real
    requires m < n && k == q * n + m && k < |s|
    ensures var heads := Only(LayoutOf(sf, Start, s).out, NoteKind);
            && k < |heads|
            && heads[k] == NotePlaced(q, GlyphIndex(r, sf.prefabCount),
                 NoteX(sf, q, m as real / n as real), sf.geometry.c4PosY + VerticalOffset(sf, s[k]))
  {
    var heads := Only(LayoutOf(sf, Start, s).out, NoteKind);
    assert OpenBar(sf, LayoutOf(sf, Start, s[..k]).state).state == LayoutState(q + 1, m as real / n as real) by {
      UniformPacking(s[..k], r, n, q, m);
      StateIgnoresGeometry(sf, Start, s[..k]);
    }
    var c := m as real / n as real;
    assert k < |heads| && heads[k] == Head(sf, LayoutState(q + 1, c), s[k]) by {
      GlyphsInOrder(sf, Start, s);
    }
    assert s[k].rhythm == r;
  }

  /** Five quarter notes: the first four share bar 0 and the fifth opens bar 1,
      at the start of its note area. */
  lemma FiveQuarterNotes(sf: Staff, s: seq<Note>)
    requires |s| == 5 && forall i :: 0 <= i < 5 ==> s[i].rhythm == 2
    ensures var heads := Only(LayoutOf(sf, Start, s).out, NoteKind);
            && |heads| == 5
            && heads[0].bar == 0 && heads[1].bar == 0 && heads[2].bar == 0 && heads[3].bar == 0
            && heads[4].bar == 1
            && heads[4].x == NoteX(sf, 1, 0.0)
  {
    assert BarShare(2) == 1.0 / 4 as real by {
      assert Pow2(2) == 4;
    }
    GlyphsInOrder(sf, Start, s);
    UniformPlacement(sf, s, 2, 4, 0, 0, 0);
    UniformPlacement(sf, s, 2, 4, 1, 0, 1);
    UniformPlacement(sf, s, 2, 4, 2, 0, 2);
    UniformPlacement(sf, s, 2, 4, 3, 0, 3);
    UniformPlacement(sf, s, 2, 4, 4, 1, 0);
  }
}
