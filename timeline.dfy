/**
 * scheduleCueSet, which both sketches define with the same text: it numbers
 * the notes of a MIDI track as cues and registers one transport cue per
 * numbered note. Also the tick-to-millisecond conversion both sketches use.
 */
module Timeline {
  import opened Wrappers

  /** Ticks per quarter note of the MIDI files the sketches load. */
  const PPQ: int := 15360

  /** The tempo both sketches set on `p.bpm`. */
  const Bpm: real := 104.0

  /**
   * A MIDI note as the parser hands it over (ticks are never negative, nor
   * are note numbers), plus the `currentCue` field scheduleCueSet writes.
   */
  datatype Note = Note(ticks: nat, time: real, durationTicks: int, midi: nat, currentCue: Option<int>)

  /** One addCue call: the fire time and the note passed to the callback. */
  datatype Cue = Cue(time: real, note: Note)

  /** The loop's test: schedule the note unless it repeats the last scheduled ticks. */
  predicate Schedules(note: Note, lastTicks: int, polyMode: bool)
  {
    note.ticks != lastTicks || polyMode
  }

  /**
   * `lastTicks` once the loop has looked at notes[..i]: the ticks of the last
   * note it scheduled, -1 while it has scheduled none.
   */
  function LastTicks(notes: seq<Note>, polyMode: bool, i: nat): int
    requires i <= |notes|
  {
    if i == 0 then -1
    else
      var last := LastTicks(notes, polyMode, i - 1);
      if Schedules(notes[i - 1], last, polyMode) then notes[i - 1].ticks else last
  }

  /** Whether the loop schedules notes[i]. */
  predicate Fires(notes: seq<Note>, polyMode: bool, i: nat)
    requires i < |notes|
  {
    Schedules(notes[i], LastTicks(notes, polyMode, i), polyMode)
  }

  /** How many of notes[..i] the loop schedules; `currentCue` is one more. */
  function FiredCount(notes: seq<Note>, polyMode: bool, i: nat): nat
    requires i <= |notes|
  {
    if i == 0 then 0
    else FiredCount(notes, polyMode, i - 1) + (if Fires(notes, polyMode, i - 1) then 1 else 0)
  }

  /** notes[k] after the loop: carrying its cue number if scheduled, untouched otherwise. */
  function Annotated(notes: seq<Note>, polyMode: bool, k: nat): Note
    requires k < |notes|
  {
    if Fires(notes, polyMode, k) then notes[k].(currentCue := Some(FiredCount(notes, polyMode, k) + 1))
    else notes[k]
  }

  /** The addCue calls the loop makes for notes[..i], in order. */
  function Schedule(notes: seq<Note>, polyMode: bool, i: nat): seq<Cue>
    requires i <= |notes|
  {
    if i == 0 then []
    else
      Schedule(notes, polyMode, i - 1)
      + (if Fires(notes, polyMode, i - 1) then [Cue(notes[i - 1].time, Annotated(notes, polyMode, i - 1))] else [])
  }

  /**
   * scheduleCueSet: writes `currentCue` into every note it schedules and
   * returns the cues it hands to the transport, in order.
   */
  method ScheduleCueSet(noteSet: array<Note>, polyMode: bool) returns (cues: seq<Cue>)
    modifies noteSet
    ensures cues == Schedule(old(noteSet[..]), polyMode, noteSet.Length)
    ensures forall k :: 0 <= k < noteSet.Length ==> noteSet[k] == Annotated(old(noteSet[..]), polyMode, k)
  {
    ghost var notes := noteSet[..];
    var lastTicks: int, currentCue: int := -1, 1;
    cues := [];
    for i := 0 to noteSet.Length
      invariant lastTicks == LastTicks(notes, polyMode, i)
      invariant currentCue == FiredCount(notes, polyMode, i) + 1
      invariant cues == Schedule(notes, polyMode, i)
      invariant forall k :: 0 <= k < i ==> noteSet[k] == Annotated(notes, polyMode, k)
      invariant forall k :: i <= k < noteSet.Length ==> noteSet[k] == notes[k]
    {
      var note := noteSet[i];
      if note.ticks != lastTicks || polyMode {
        noteSet[i] := note.(currentCue := Some(currentCue));
        cues := cues + [Cue(note.time, noteSet[i])];
        lastTicks := note.ticks;
        currentCue := currentCue + 1;
      }
    }
  }

  /** A note the loop skips repeats `lastTicks`, so `lastTicks` is always the previous note's ticks. */
  lemma LastTicksIsPreviousNote(notes: seq<Note>, polyMode: bool, i: nat)
    requires i <= |notes|
    ensures LastTicks(notes, polyMode, i) == if i == 0 then -1 else notes[i - 1].ticks
  {
  }

  /**
   * Chords collapse: with poly mode off, a note is scheduled exactly when it
   * opens a run of equal ticks, so each run yields one cue, on its first note.
   */
  lemma ChordsCollapse(notes: seq<Note>, i: nat)
    requires i < |notes|
    ensures Fires(notes, false, i) <==> i == 0 || notes[i].ticks != notes[i - 1].ticks
  {
    LastTicksIsPreviousNote(notes, false, i);
  }

  /** The note the loop scheduled most recently before reaching notes[i], if any. */
  function LastScheduled(notes: seq<Note>, polyMode: bool, i: nat): (j: Option<nat>)
    requires i <= |notes|
    ensures j.Some? ==> j.value < i && Fires(notes, polyMode, j.value)
    ensures j.Some? ==> forall k :: j.value < k < i ==> !Fires(notes, polyMode, k)
    ensures j.None? ==> forall k :: 0 <= k < i ==> !Fires(notes, polyMode, k)
  {
    if i == 0 then None
    else if Fires(notes, polyMode, i - 1) then Some(i - 1)
    else LastScheduled(notes, polyMode, i - 1)
  }

  /** `lastTicks` holds the ticks of the most recently scheduled note (-1 before the first). */
  lemma {:induction false} LastTicksOfLastScheduled(notes: seq<Note>, polyMode: bool, i: nat)
    requires i <= |notes|
    ensures LastTicks(notes, polyMode, i) == match LastScheduled(notes, polyMode, i)
                                             case None => -1
                                             case Some(j) => notes[j].ticks
  {
    if i > 0 {
      LastTicksOfLastScheduled(notes, polyMode, i - 1);
    }
  }

  /**
   * The loop's own reading of the test: with poly mode off, a note is
   * scheduled exactly when its ticks differ from those of the most recently
   * scheduled note; the first note is always scheduled.
   */
  lemma ScheduledIffTicksDiffer(notes: seq<Note>, i: nat)
    requires i < |notes|
    ensures Fires(notes, false, i) <==> match LastScheduled(notes, false, i)
                                        case None => true
                                        case Some(j) => notes[i].ticks != notes[j].ticks
  {
    LastTicksOfLastScheduled(notes, false, i);
  }

  /**
   * The cues are numbered 1, 2, ..., k in the order they are scheduled, with
   * no gaps, each firing at its own note's time.
   */
  lemma {:induction false} CuesNumberedConsecutively(notes: seq<Note>, polyMode: bool, i: nat)
    requires i <= |notes|
    ensures |Schedule(notes, polyMode, i)| == FiredCount(notes, polyMode, i)
    ensures forall j :: 0 <= j < |Schedule(notes, polyMode, i)| ==>
              Schedule(notes, polyMode, i)[j].note.currentCue == Some(j + 1)
              && Schedule(notes, polyMode, i)[j].time == Schedule(notes, polyMode, i)[j].note.time
  {
    if i > 0 {
      CuesNumberedConsecutively(notes, polyMode, i - 1);
    }
  }

  /** Scheduling only ever counts up. */
  lemma {:induction false} FiredCountGrows(notes: seq<Note>, polyMode: bool, i: nat, j: nat)
    requires i <= j <= |notes|
    ensures FiredCount(notes, polyMode, i) <= FiredCount(notes, polyMode, j)
    decreases j - i
  {
    if i < j {
      FiredCountGrows(notes, polyMode, i, j - 1);
    }
  }

  /** Of two scheduled notes, the earlier one carries the smaller cue number. */
  lemma CueNumbersFollowNoteOrder(notes: seq<Note>, polyMode: bool, k1: nat, k2: nat)
    requires k1 < k2 < |notes|
    requires Fires(notes, polyMode, k1) && Fires(notes, polyMode, k2)
    ensures Annotated(notes, polyMode, k1).currentCue.value < Annotated(notes, polyMode, k2).currentCue.value
  {
    FiredCountGrows(notes, polyMode, k1 + 1, k2);
  }

  /**
   * With poly mode on every note is scheduled, so there are as many cues as
   * notes; an empty track schedules nothing.
   */
  lemma {:induction false} PolyModeSchedulesEveryNote(notes: seq<Note>, i: nat)
    requires i <= |notes|
    ensures FiredCount(notes, true, i) == i
    ensures |Schedule(notes, true, i)| == i
  {
    if i > 0 {
      PolyModeSchedulesEveryNote(notes, i - 1);
    }
    CuesNumberedConsecutively(notes, true, i);
  }

  /** A chord of two notes at tick 0 followed by two single notes: three cues. */
  lemma ChordExample()
    ensures var notes := [Note(0, 0.0, 960, 60, None), Note(0, 0.0, 960, 64, None),
                          Note(15360, 0.5, 960, 62, None), Note(30720, 1.0, 960, 65, None)];
            var cues := Schedule(notes, false, 4);
            |cues| == 3
            && Annotated(notes, false, 0).currentCue == Some(1)
            && Annotated(notes, false, 1).currentCue == None
            && Annotated(notes, false, 2).currentCue == Some(2)
            && Annotated(notes, false, 3).currentCue == Some(3)
            && cues[0].note.midi == 60 && cues[1].note.midi == 62 && cues[2].note.midi == 65
  {
    var notes := [Note(0, 0.0, 960, 60, None), Note(0, 0.0, 960, 64, None),
                  Note(15360, 0.5, 960, 62, None), Note(30720, 1.0, 960, 65, None)];
    ChordsCollapse(notes, 0);
    ChordsCollapse(notes, 1);
    ChordsCollapse(notes, 2);
    ChordsCollapse(notes, 3);
    assert FiredCount(notes, false, 1) == 1;
    assert FiredCount(notes, false, 2) == 1;
    assert FiredCount(notes, false, 3) == 2;
  }

  /** durationMs = (durationTicks / PPQ) * (60000 / bpm). */
  function DurationMs(durationTicks: int, bpm: real): real
    requires bpm != 0.0
  {
    (durationTicks as real / PPQ as real) * (60000.0 / bpm)
  }

  /** The inverse conversion: how many ticks `ms` milliseconds span at `bpm`. */
  function TicksIn(ms: real, bpm: real): real
  {
    ms * bpm * (PPQ as real) / 60000.0
  }

  /** Converting a duration to milliseconds and back gives the ticks again. */
  lemma DurationRoundTrip(durationTicks: int, bpm: real)
    requires bpm != 0.0
    ensures TicksIn(DurationMs(durationTicks, bpm), bpm) == durationTicks as real
  {
    var t := durationTicks as real;
    var p := PPQ as real;
    calc {
      TicksIn(DurationMs(durationTicks, bpm), bpm);
      ((t / p) * (60000.0 / bpm)) * bpm * p / 60000.0;
      { assert (60000.0 / bpm) * bpm == 60000.0; }
      (t / p) * p;
      t;
    }
  }

  /** A quarter note (PPQ ticks) lasts one beat, 60000 / bpm milliseconds. */
  lemma QuarterNoteIsOneBeat(bpm: real)
    requires bpm != 0.0
    ensures DurationMs(PPQ, bpm) == 60000.0 / bpm
  {
  }

  /** A whole note at the sketches' tempo: 61440 ticks last 30000/13 (about 2307.69) ms. */
  lemma WholeNoteExample()
    ensures DurationMs(61440, Bpm) == 30000.0 / 13.0
  {
  }

  /** Only a zero-tick duration converts to zero milliseconds. */
  lemma DurationZeroIffNoTicks(durationTicks: int, bpm: real)
    requires bpm != 0.0
    ensures DurationMs(durationTicks, bpm) == 0.0 <==> durationTicks == 0
  {
    DurationRoundTrip(durationTicks, bpm);
  }
}
