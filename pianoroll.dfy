/** The piano roll (src/components/PianoRoll.tsx): a fixed column of 25 keys
    from C5 down to C3, one lane per key, twenty demo notes placed in the
    lanes by pitch name, and beat-to-pixel geometry at 64 pixels per beat
    and 24 pixels per lane. It has no editing: it only lays out notes. */
module PianoRoll {
  import opened Text

  /** The key column, top to bottom. */
  const Pitches: seq<string> := [
    "C5", "B4", "A#4", "A4", "G#4", "G4", "F#4", "F4", "E4", "D#4", "D4", "C#4",
    "C4", "B3", "A#3", "A3", "G#3", "G3", "F#3", "F3", "E3", "D#3", "D3", "C#3", "C3"]

  predicate IsBlackKey(name: string) { '#' in name }

  predicate IsWhiteKey(name: string) { '#' !in name }

  /** Every name is exactly one of black and white. */
  lemma KeyColoursComplementary(name: string)
    ensures IsBlackKey(name) != IsWhiteKey(name)
  {
  }

  /** Semitones above C of a natural note letter. */
  function LetterOffset(c: char): int
  {
    match c
    case 'C' => 0
    case 'D' => 2
    case 'E' => 4
    case 'F' => 5
    case 'G' => 7
    case 'A' => 9
    case 'B' => 11
    case _ => -1
  }

  /** A note letter, an optional sharp and a one-digit octave. */
  predicate WellFormedPitch(name: string)
  {
    && (|name| == 2 || (|name| == 3 && name[1] == '#'))
    && LetterOffset(name[0]) >= 0
    && IsDigit(name[|name| - 1])
  }

  /** The MIDI note number a pitch name stands for (C4 is 60). */
  function PitchNumber(name: string): (n: int)
    requires WellFormedPitch(name)
    ensures 12 <= n <= 132
  {
    12 * (DigitValue(name[|name| - 1]) + 1) + LetterOffset(name[0]) + (if |name| == 3 then 1 else 0)
  }

  /** The key column is the chromatic scale, one semitone per row, from
      C5 (72) down to C3 (48). */
  lemma PitchesChromatic()
    ensures |Pitches| == 25
    ensures forall i :: 0 <= i < |Pitches| ==> WellFormedPitch(Pitches[i]) && PitchNumber(Pitches[i]) == 72 - i
  {
  }

  /** No key appears twice. */
  lemma PitchesDistinct()
    ensures forall i, j :: 0 <= i < j < |Pitches| ==> Pitches[i] != Pitches[j]
  {
    PitchesChromatic();
  }

  /** The pitch classes of the black keys: C#, D#, F#, G#, A#. */
  predicate IsBlackPitchClass(n: int)
  {
    n % 12 in {1, 3, 6, 8, 10}
  }

  /** A key is drawn black exactly when its pitch is a sharp. */
  lemma BlackKeysAreSharps()
    ensures forall i :: 0 <= i < |Pitches| ==>
              WellFormedPitch(Pitches[i]) && (IsBlackKey(Pitches[i]) <==> IsBlackPitchClass(PitchNumber(Pitches[i])))
  {
    PitchesChromatic();
  }

  /** How many of the first `k` names are black keys. */
  function BlackAmong(names: seq<string>, k: nat): nat
    requires k <= |names|
  {
    if k == 0 then 0 else BlackAmong(names, k - 1) + (if IsBlackKey(names[k - 1]) then 1 else 0)
  }

  /** Row `i` is black exactly when its pitch class is a sharp. */
  lemma BlackRows()
    ensures forall i :: 0 <= i < |Pitches| ==> (IsBlackKey(Pitches[i]) <==> IsBlackPitchClass(72 - i))
  {
    PitchesChromatic();
    BlackKeysAreSharps();
  }

  /** The column holds ten black keys and fifteen white ones. */
  lemma TenBlackKeys()
    ensures BlackAmong(Pitches, |Pitches|) == 10
    ensures |Pitches| - BlackAmong(Pitches, |Pitches|) == 15
  {
    BlackRows();
    assert BlackAmong(Pitches, 1) == 0;  // C5
    assert BlackAmong(Pitches, 2) == 0;  // B4
    assert BlackAmong(Pitches, 3) == 1;  // A#4
    assert BlackAmong(Pitches, 4) == 1;  // A4
    assert BlackAmong(Pitches, 5) == 2;  // G#4
    assert BlackAmong(Pitches, 6) == 2;  // G4
    assert BlackAmong(Pitches, 7) == 3;  // F#4
    assert BlackAmong(Pitches, 8) == 3;  // F4
    assert BlackAmong(Pitches, 9) == 3;  // E4
    assert BlackAmong(Pitches, 10) == 4;  // D#4
    assert BlackAmong(Pitches, 11) == 4;  // D4
    assert BlackAmong(Pitches, 12) == 5;  // C#4
    assert BlackAmong(Pitches, 13) == 5;  // C4
    assert BlackAmong(Pitches, 14) == 5;  // B3
    assert BlackAmong(Pitches, 15) == 6;  // A#3
    assert BlackAmong(Pitches, 16) == 6;  // A3
    assert BlackAmong(Pitches, 17) == 7;  // G#3
    assert BlackAmong(Pitches, 18) == 7;  // G3
    assert BlackAmong(Pitches, 19) == 8;  // F#3
    assert BlackAmong(Pitches, 20) == 8;  // F3
    assert BlackAmong(Pitches, 21) == 8;  // E3
    assert BlackAmong(Pitches, 22) == 9;  // D#3
    assert BlackAmong(Pitches, 23) == 9;  // D3
    assert BlackAmong(Pitches, 24) == 10;  // C#3
    assert BlackAmong(Pitches, 25) == 10;  // C3
  }

  /** A demo note. */
  datatype MidiNote = MidiNote(id: nat, note: string, start: real, duration: real, velocity: real)

  /** The four `Math.random()` readings that make one demo note. */
  datatype Draw = Draw(pitch: real, start: real, duration: real, velocity: real)

  predicate Unit(r: real) { 0.0 <= r < 1.0 }

  predicate ValidDraw(d: Draw)
  {
    Unit(d.pitch) && Unit(d.start) && Unit(d.duration) && Unit(d.velocity)
  }

  /** One demo note: a key of the column, a start in the first 15 beats, a
      length of a quarter beat to 2.25 beats and a velocity of 60 to 127. */
  function DemoNote(i: nat, d: Draw): (n: MidiNote)
    requires ValidDraw(d)
    ensures n.id == i && n.note in Pitches
    ensures 0.0 <= n.start < 15.0
    ensures 0.25 <= n.duration < 2.25
    ensures 60.0 <= n.velocity < 127.0
  {
    var k := (d.pitch * 25.0).Floor;
    assert 0 <= k < |Pitches|;
    MidiNote(i, Pitches[k], d.start * 15.0, 0.25 + d.duration * 2.0, 60.0 + d.velocity * 67.0)
  }

  const DemoNoteCount: nat := 20

  /** The twenty demo notes, numbered 0..19. */
  function DemoNotes(draws: seq<Draw>): (notes: seq<MidiNote>)
    requires |draws| == DemoNoteCount && forall d :: d in draws ==> ValidDraw(d)
    ensures |notes| == DemoNoteCount
    ensures forall i :: 0 <= i < |notes| ==> notes[i].id == i && notes[i].note in Pitches
  {
    seq(DemoNoteCount, i requires 0 <= i < DemoNoteCount => DemoNote(i, draws[i]))
  }

  /** The footer's "Notes:" count. */
  function NoteCountLabel(notes: seq<MidiNote>): nat
  {
    |notes|
  }

  lemma FooterCountsDemoNotes(draws: seq<Draw>)
    requires |draws| == DemoNoteCount && forall d :: d in draws ==> ValidDraw(d)
    ensures NoteCountLabel(DemoNotes(draws)) == 20
  {
  }

  /** The notes a lane draws: `filter(midiNote => midiNote.note === note)`. */
  function LaneNotes(notes: seq<MidiNote>, lane: string): (r: seq<MidiNote>)
    ensures |r| <= |notes|
    ensures forall n :: n in r <==> n in notes && n.note == lane
  {
    if notes == [] then []
    else if notes[0].note == lane then [notes[0]] + LaneNotes(notes[1..], lane)
    else LaneNotes(notes[1..], lane)
  }

  /** A note whose pitch is a key of the column is drawn in one lane and
      only one, the lane of that key; any other note is drawn nowhere. */
  lemma NoteInOneLane(notes: seq<MidiNote>, n: MidiNote)
    requires n in notes
    ensures n.note in Pitches ==> exists i :: 0 <= i < |Pitches| && n in LaneNotes(notes, Pitches[i])
    ensures forall i, j ::
              (0 <= i < |Pitches| && 0 <= j < |Pitches| &&
               n in LaneNotes(notes, Pitches[i]) && n in LaneNotes(notes, Pitches[j])) ==> i == j
    ensures n.note !in Pitches ==> forall i :: 0 <= i < |Pitches| ==> n !in LaneNotes(notes, Pitches[i])
  {
    PitchesDistinct();
    if n.note in Pitches {
      var i :| 0 <= i < |Pitches| && Pitches[i] == n.note;
      assert n in LaneNotes(notes, Pitches[i]);
    }
  }

  /** How many note rectangles the lanes draw altogether. */
  function DrawnCount(notes: seq<MidiNote>, lanes: seq<string>): nat
  {
    if lanes == [] then 0 else |LaneNotes(notes, lanes[0])| + DrawnCount(notes, lanes[1..])
  }

  /** How many of the lanes carry a given name. */
  function Occurrences(lanes: seq<string>, name: string): nat
  {
    if lanes == [] then 0 else (if lanes[0] == name then 1 else 0) + Occurrences(lanes[1..], name)
  }

  lemma {:induction false} DrawnCountCons(n: MidiNote, rest: seq<MidiNote>, lanes: seq<string>)
    ensures DrawnCount([n] + rest, lanes) == DrawnCount(rest, lanes) + Occurrences(lanes, n.note)
  {
    if lanes != [] {
      assert ([n] + rest)[1..] == rest;
      DrawnCountCons(n, rest, lanes[1..]);
    }
  }

  lemma {:induction false} OccursOnce(lanes: seq<string>, name: string)
    requires forall i, j :: 0 <= i < j < |lanes| ==> lanes[i] != lanes[j]
    ensures Occurrences(lanes, name) == if name in lanes then 1 else 0
  {
    if lanes != [] {
      OccursOnce(lanes[1..], name);
      if lanes[0] == name {
        assert name !in lanes[1..];
      }
    }
  }

  /** With distinct lane names, every note whose pitch has a lane is drawn
      exactly once: the lanes draw as many rectangles as there are notes. */
  lemma {:induction false} EachNoteDrawnOnce(notes: seq<MidiNote>, lanes: seq<string>)
    requires forall i, j :: 0 <= i < j < |lanes| ==> lanes[i] != lanes[j]
    requires forall n :: n in notes ==> n.note in lanes
    ensures DrawnCount(notes, lanes) == |notes|
  {
    if notes == [] {
      DrawnCountEmpty(lanes);
    } else {
      assert notes == [notes[0]] + notes[1..];
      DrawnCountCons(notes[0], notes[1..], lanes);
      OccursOnce(lanes, notes[0].note);
      EachNoteDrawnOnce(notes[1..], lanes);
    }
  }

  lemma {:induction false} DrawnCountEmpty(lanes: seq<string>)
    ensures DrawnCount([], lanes) == 0
  {
    if lanes != [] {
      DrawnCountEmpty(lanes[1..]);
    }
  }

  /** All twenty demo notes appear on the grid, each once. */
  lemma DemoNotesAllDrawn(draws: seq<Draw>)
    requires |draws| == DemoNoteCount && forall d :: d in draws ==> ValidDraw(d)
    ensures DrawnCount(DemoNotes(draws), Pitches) == NoteCountLabel(DemoNotes(draws))
  {
    PitchesDistinct();
    EachNoteDrawnOnce(DemoNotes(draws), Pitches);
  }

  const PixelsPerBeat: real := 64.0
  const LaneHeight: nat := 24

  /** Where row `i` of a column of 24-pixel rows sits in normal flow: below
      the `i` rows before it. Both the key column and the lane column are
      such columns. */
  function FlowTop(i: nat): (top: nat)
    ensures top / LaneHeight == i && top % LaneHeight == 0
  {
    i * LaneHeight
  }

  /** Key `i` of the key column: a row in flow with no offset. */
  function KeyTop(i: nat): (top: nat)
    ensures top / LaneHeight == i
  {
    FlowTop(i)
  }

  /** The `top` style value of lane `i`, `${index * 24}px`: the same
      distance as the lane's own position in flow. */
  function LaneOffset(i: nat): (offset: nat)
    ensures offset == FlowTop(i)
  {
    i * LaneHeight
  }

  /** Where lane `i` is drawn as written: the lanes are relatively
      positioned rows in flow, so the `top` offset adds to the flow
      position instead of replacing it. */
  function LaneDrawnTopAsWritten(i: nat): (top: nat)
    ensures top == 2 * KeyTop(i)
  {
    FlowTop(i) + LaneOffset(i)
  }

  /** As written, every lane but the first drifts below its key, by one
      more row per lane: lane 1 is drawn at 48 pixels beside key 1 at 24. */
  lemma LanesDriftFromKeys(i: nat)
    requires 0 < i < |Pitches|
    ensures LaneDrawnTopAsWritten(i) != KeyTop(i)
    ensures LaneDrawnTopAsWritten(i) - KeyTop(i) == i * LaneHeight
    ensures LaneDrawnTopAsWritten(1) == 48 && KeyTop(1) == 24
  {
  }

  /** Where lane `i` is drawn with the intended layout: its flow position,
      level with its key. */
  function LaneDrawnTop(i: nat): (top: nat)
    ensures top / LaneHeight == i && top % LaneHeight == 0
  {
    FlowTop(i)
  }

  /** With the intended layout every lane sits level with its key, and the
      lanes tile the column without gaps or overlaps. */
  lemma LanesLevelWithKeys(i: nat)
    ensures LaneDrawnTop(i) == KeyTop(i)
    ensures LaneDrawnTop(i) + LaneHeight == LaneDrawnTop(i + 1)
  {
  }

  /** A note drawn in lane `i` sits level with the key of its own pitch. */
  lemma NoteBesideItsKey(notes: seq<MidiNote>, n: MidiNote, i: nat)
    requires i < |Pitches| && n in LaneNotes(notes, Pitches[i])
    ensures n.note == Pitches[i] && LaneDrawnTop(i) == KeyTop(i)
  {
    LanesLevelWithKeys(i);
  }

  /** A note's rectangle within its lane. */
  datatype NoteBox = NoteBox(left: real, width: real, opacity: real)

  function NoteBoxOf(n: MidiNote): (b: NoteBox)
    ensures b.left / PixelsPerBeat == n.start && b.width / PixelsPerBeat == n.duration
    ensures b.opacity * 127.0 == n.velocity
    ensures 0.0 < n.velocity <= 127.0 ==> 0.0 < b.opacity <= 1.0
  {
    NoteBox(n.start * PixelsPerBeat, n.duration * PixelsPerBeat, n.velocity / 127.0)
  }

  /** The rectangle's right edge is where the note ends, and moving a note
      later by `d` beats moves its rectangle right by `64 * d` pixels
      without changing its width or opacity. */
  lemma NoteBoxLinear(n: MidiNote, d: real)
    ensures NoteBoxOf(n).left + NoteBoxOf(n).width == (n.start + n.duration) * PixelsPerBeat
    ensures NoteBoxOf(n.(start := n.start + d)) == NoteBoxOf(n).(left := NoteBoxOf(n).left + d * PixelsPerBeat)
  {
  }

  /** Demo notes are never fully transparent nor more than opaque. */
  lemma DemoOpacity(i: nat, d: Draw)
    requires ValidDraw(d)
    ensures 60.0 / 127.0 <= NoteBoxOf(DemoNote(i, d)).opacity < 1.0
  {
  }

  /** One vertical line of the time grid. */
  datatype GridLine = GridLine(x: real, major: bool, leftBorder: bool)

  const GridLineCount: nat := 17

  /** The seventeen grid lines, one per beat over 16 beats. */
  function GridLines(): (lines: seq<GridLine>)
    ensures |lines| == GridLineCount
  {
    seq(GridLineCount, i requires 0 <= i < GridLineCount =>
      GridLine(i as real * PixelsPerBeat, i % 4 == 0, i != 0))
  }

  /** How many of the first `k` lines are bar lines. */
  function MajorAmong(lines: seq<GridLine>, k: nat): nat
    requires k <= |lines|
  {
    if k == 0 then 0 else MajorAmong(lines, k - 1) + (if lines[k - 1].major then 1 else 0)
  }

  /** The lines are one beat apart and bar lines every four beats: five bar
      lines over the four bars the footer announces, and only the first
      line has no left border. */
  lemma GridLinesShape()
    ensures forall i :: 0 <= i < GridLineCount ==> GridLines()[i].x == i as real * PixelsPerBeat
    ensures forall i :: 0 <= i < GridLineCount ==> (GridLines()[i].leftBorder <==> i != 0)
    ensures forall i :: 0 <= i < GridLineCount ==> (GridLines()[i].major <==> i % 4 == 0)
    ensures MajorAmong(GridLines(), GridLineCount) == 5
    ensures GridLines()[GridLineCount - 1].x == 4.0 * 4.0 * PixelsPerBeat
  {
    var g := GridLines();
    assert MajorAmong(g, 1) == 1 && MajorAmong(g, 4) == 1;
    assert MajorAmong(g, 5) == 2 && MajorAmong(g, 8) == 2;
    assert MajorAmong(g, 9) == 3 && MajorAmong(g, 12) == 3;
    assert MajorAmong(g, 13) == 4 && MajorAmong(g, 16) == 4;
  }
}
