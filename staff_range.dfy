/**
 * The staff range page: a scientific note name becomes an ABC pitch in the
 * page's own octave convention (C4 is "c", one octave above the notation
 * store's), and a chromatic run between two notes becomes a tune of
 * four-note measures.
 */
module StaffRange {
  import opened Wrappers
  import opened Text
  import opened NotationStore

  // ---------------------------------------------------------------------
  // Scientific note to ABC pitch
  // ---------------------------------------------------------------------

  /**
   * `scientificToPitch`: the lower-case letter from octave 4 up, with an
   * apostrophe per octave above 4; the upper-case letter from octave 3 down,
   * with a comma per octave below 3; '^' or '_' before a sharp or a flat.
   * Text that is not a note is returned unchanged.
   */
  function ScientificToPitch(note: string): (abc: string)
    ensures MatchNote(note).None? ==> abc == note
    ensures MatchNote(note).Some? ==> |abc| >= 1
  {
    match MatchNote(note)
    case None => note
    case Some(n) => StaffPitch(n)
  }

  /** The pitch `scientificToPitch` writes for a matched note. */
  function StaffPitch(n: SciNote): (abc: string)
  {
    var baseNote := Upper(n.letter);
    var prefix := AccidentalPrefix(n.accidental);
    if n.octave >= 5 then prefix + [Lower(baseNote)] + Repeat('\'', n.octave - 4)
    else if n.octave == 4 then prefix + [Lower(baseNote)]
    else if n.octave == 3 then prefix + [baseNote]
    else prefix + [baseNote] + Repeat(',', 3 - n.octave)
  }

  /**
   * The page writes every note as the notation store writes the note one
   * octave higher: the two conventions differ by exactly one octave.
   */
  lemma StaffPitchIsOctaveAbove(note: string)
    requires MatchNote(note).Some?
    ensures var n := MatchNote(note).value;
            ScientificToPitch(note) == AbcPitch(n.(octave := n.octave + 1))
  {
    var n := MatchNote(note).value;
    var prefix := AccidentalPrefix(n.accidental);
    var baseNote := Upper(n.letter);
    if n.octave >= 4 {
      assert Repeat('\'', n.octave - 4) == Repeat('\'', n.octave + 1 - 5);
      assert prefix + [Lower(baseNote)] == prefix + [Lower(baseNote)] + Repeat('\'', 0);
    } else {
      assert Repeat(',', 3 - n.octave) == Repeat(',', 4 - (n.octave + 1));
      assert prefix + [baseNote] == prefix + [baseNote] + Repeat(',', 0);
    }
  }

  /** The page's ABC pitch reads back, in the store's convention, as the same note one octave up. */
  lemma StaffPitchRoundTrip(note: string)
    requires MatchNote(note).Some?
    ensures var n := MatchNote(note).value;
            ReadAbc(ScientificToPitch(note)) == Some(SciNote(Upper(n.letter), n.accidental, n.octave + 1))
  {
    var n := MatchNote(note).value;
    StaffPitchIsOctaveAbove(note);
    AbcPitchRoundTrip(n.(octave := n.octave + 1));
  }

  /** The page's anchors for natural notes: C4 is "c", C3 is "C", E2 is "E," and C5 is "c'". */
  lemma StaffPitchExamples()
    ensures ScientificToPitch("C4") == "c" && ScientificToPitch("C3") == "C"
    ensures ScientificToPitch("E2") == "E," && ScientificToPitch("C5") == "c'"
  {
    assert MatchNote("C4") == Some(SciNote('C', "", 4));
    assert MatchNote("C3") == Some(SciNote('C', "", 3));
    assert MatchNote("E2") == Some(SciNote('E', "", 2));
    assert MatchNote("C5") == Some(SciNote('C', "", 5));
  }

  /** Accidentals: C#4 is "^c" and Bb1 is "_B,,". */
  lemma AccidentalPitchExamples()
    ensures ScientificToPitch("C#4") == "^c" && ScientificToPitch("Bb1") == "_B,,"
  {
    assert MatchNote("C#4") == Some(SciNote('C', "#", 4));
    assert MatchNote("Bb1") == Some(SciNote('B', "b", 1));
  }

  // ---------------------------------------------------------------------
  // Chromatic positions
  // ---------------------------------------------------------------------

  /** A chromatic index: C is 0, C# is 1, and so on up to B at 11. */
  type ChromaticIndex = i: nat | i < 12

  /** `chromaticNotes[i]`: the twelve pitch classes from C, black keys spelled as sharps. */
  function ChromaticName(i: ChromaticIndex): (name: string)
    ensures 1 <= |name| <= 2 && 'A' <= name[0] <= 'G' && (|name| == 2 ==> name[1] == '#')
  {
    match i
    case 0 => "C" case 1 => "C#" case 2 => "D" case 3 => "D#" case 4 => "E" case 5 => "F"
    case 6 => "F#" case 7 => "G" case 8 => "G#" case 9 => "A" case 10 => "A#" case _ => "B"
  }

  /** `chromaticNotes.indexOf(letter)` for a natural letter. */
  function BaseIndex(letter: char): (i: int)
    ensures 'A' <= letter <= 'G' ==> 0 <= i < 12 && ChromaticName(i) == [letter]
    ensures !('A' <= letter <= 'G') ==> i == -1
  {
    match letter
    case 'C' => 0 case 'D' => 2 case 'E' => 4 case 'F' => 5 case 'G' => 7 case 'A' => 9 case 'B' => 11
    case _ => -1
  }

  /** `getNoteIndex`: a sharp is one step up, a flat eleven steps up, both wrapping within the octave. */
  function NoteIndex(n: SciNote): (i: int)
    requires 'A' <= n.letter <= 'G'
    ensures 0 <= i < 12
    ensures n.accidental == "" ==> ChromaticName(i) == [n.letter]
    ensures n.accidental == "#" ==> i == (BaseIndex(n.letter) + 1) % 12
  {
    var baseIdx := BaseIndex(n.letter);
    if n.accidental == "#" then (baseIdx + 1) % 12
    else if n.accidental == "b" then (baseIdx + 11) % 12
    else baseIdx
  }

  /** The chromatic position of a note: twelve per octave plus its index. */
  function Position(n: SciNote): (p: int)
    requires 'A' <= n.letter <= 'G'
    ensures p >= 0
  {
    12 * n.octave + NoteIndex(n)
  }

  /** The range endpoints must match `/^([A-G])([#b]?)(\d)$/`: an upper-case letter only. */
  function MatchRangeNote(note: string): (m: Option<SciNote>)
    ensures m.Some? ==> WellFormed(m.value) && 'A' <= m.value.letter <= 'G' && Position(m.value) < 120
  {
    match MatchNote(note)
    case Some(n) => if 'A' <= n.letter <= 'G' then Some(n) else None
    case None => None
  }

  /** The note the range loop names at an octave and chromatic index: the chromatic name's letter and sharp. */
  function RangeSciNote(octave: nat, idx: ChromaticIndex): (n: SciNote)
    ensures 'A' <= n.letter <= 'G' && (n.accidental == "" || n.accidental == "#") && n.octave == octave
  {
    var name := ChromaticName(idx);
    SciNote(name[0], name[1..], octave)
  }

  /** The note at an octave and chromatic index sits at chromatic position `12 * octave + idx`. */
  lemma RangeSciNotePosition(octave: nat, idx: ChromaticIndex)
    ensures Position(RangeSciNote(octave, idx)) == 12 * octave + idx
  {
    var name := ChromaticName(idx);
    if |name| == 2 {
      assert BaseIndex(name[0]) == idx - 1;
    }
  }

  /** The ABC pitch the range writes at an octave and chromatic index. */
  function RangePitch(octave: nat, idx: ChromaticIndex): (abc: string)
  {
    StaffPitch(RangeSciNote(octave, idx))
  }

  /**
   * Up to octave 9 the loop's text for a note, `scientificToPitch` of the
   * chromatic name followed by the octave, is the pitch of that note.
   */
  lemma LoopPitchIsRangePitch(octave: nat, idx: ChromaticIndex)
    requires octave < 10
    ensures ScientificToPitch(ChromaticName(idx) + NatToString(octave)) == RangePitch(octave, idx)
  {
    var name := ChromaticName(idx);
    var n := RangeSciNote(octave, idx);
    assert NatToString(octave) == [DigitChar(octave)];
    assert [name[0]] + name[1..] == name;
    assert SciName(n) == ChromaticName(idx) + NatToString(octave);
    MatchSciName(n);
  }

  /** `abc` reads back, in the store's convention, as a note with an upper-case letter at position `pos`. */
  predicate ReadsBackAt(abc: string, pos: int)
  {
    var n := ReadAbc(abc);
    n.Some? && 'A' <= n.value.letter <= 'G' && Position(n.value) == pos
  }

  /**
   * The ABC pitch written for a note reads back, in the store's convention,
   * as the note one octave (twelve chromatic steps) up.
   */
  lemma RangePitchReadsBack(octave: nat, idx: ChromaticIndex)
    requires octave < 10
    ensures ReadsBackAt(RangePitch(octave, idx), 12 * octave + idx + 12)
  {
    var note := ChromaticName(idx) + NatToString(octave);
    var n := RangeSciNote(octave, idx);
    LoopPitchIsRangePitch(octave, idx);
    MatchSciName(n);
    assert SciName(n) == note by {
      assert NatToString(octave) == [DigitChar(octave)];
      assert [ChromaticName(idx)[0]] + ChromaticName(idx)[1..] == ChromaticName(idx);
    }
    StaffPitchRoundTrip(note);
    RangeSciNotePosition(octave, idx);
  }

  /** `notes.length > 100`: the loop stops after 101 notes. */
  const MAX_RANGE_NOTES: nat := 101

  /** How many notes the range holds: none when the start is above the end, else the run length, at most 101. */
  function RangeCount(startPos: int, endPos: int): (count: nat)
    ensures count <= MAX_RANGE_NOTES
    ensures count == 0 <==> startPos > endPos
    ensures startPos <= endPos ==> count == Min(endPos - startPos + 1, MAX_RANGE_NOTES)
  {
    if startPos > endPos then 0 else Min(endPos - startPos + 1, MAX_RANGE_NOTES)
  }

  /** `f` at `count` consecutive chromatic positions from an octave and index, stepping from B to the next octave's C. */
  function Walk<T>(f: (nat, ChromaticIndex) -> T, octave: nat, idx: ChromaticIndex, count: nat): (r: seq<T>)
    ensures |r| == count
    decreases count
  {
    if count == 0 then []
    else if idx == 11 then [f(octave, idx)] + Walk(f, octave + 1, 0, count - 1)
    else [f(octave, idx)] + Walk(f, octave, idx + 1, count - 1)
  }

  /** Two (octave, index) pairs name the same chromatic position only when they are equal. */
  lemma SamePosition(octave: nat, idx: ChromaticIndex, otherOctave: nat, otherIdx: ChromaticIndex)
    requires 12 * octave + idx == 12 * otherOctave + otherIdx
    ensures octave == otherOctave && idx == otherIdx
  {
  }

  /** Taking the first element off a walk leaves the walk from the next chromatic position. */
  lemma WalkStep<T>(f: (nat, ChromaticIndex) -> T, octave: nat, idx: ChromaticIndex, count: nat, nextOctave: nat, nextIdx: ChromaticIndex)
    requires count > 0 && 12 * nextOctave + nextIdx == 12 * octave + idx + 1
    ensures Walk(f, octave, idx, count) == [f(octave, idx)] + Walk(f, nextOctave, nextIdx, count - 1)
  {
    if idx == 11 {
      SamePosition(octave + 1, 0, nextOctave, nextIdx);
    } else {
      SamePosition(octave, idx + 1, nextOctave, nextIdx);
    }
  }

  /** A walk one step longer ends with `f` at the position one step past the shorter walk's end. */
  lemma {:induction false} WalkSnoc<T>(f: (nat, ChromaticIndex) -> T, octave: nat, idx: ChromaticIndex, count: nat,
                                       lastOctave: nat, lastIdx: ChromaticIndex)
    requires 12 * lastOctave + lastIdx == 12 * octave + idx + count
    ensures Walk(f, octave, idx, count + 1) == Walk(f, octave, idx, count) + [f(lastOctave, lastIdx)]
    decreases count
  {
    var nextOctave: nat := if idx == 11 then octave + 1 else octave;
    var nextIdx: ChromaticIndex := if idx == 11 then 0 else idx + 1;
    WalkStep(f, octave, idx, count + 1, nextOctave, nextIdx);
    if count == 0 {
      SamePosition(octave, idx, lastOctave, lastIdx);
    } else {
      WalkStep(f, octave, idx, count, nextOctave, nextIdx);
      WalkSnoc(f, nextOctave, nextIdx, count - 1, lastOctave, lastIdx);
    }
  }

  /** Element `k` of a walk is `f` at the position `k` chromatic steps above the first. */
  lemma {:induction false} WalkAt<T>(f: (nat, ChromaticIndex) -> T, octave: nat, idx: ChromaticIndex, count: nat, k: nat,
                                     atOctave: nat, atIdx: ChromaticIndex)
    requires k < count && 12 * atOctave + atIdx == 12 * octave + idx + k
    ensures Walk(f, octave, idx, count)[k] == f(atOctave, atIdx)
    decreases k
  {
    if k == 0 {
      SamePosition(octave, idx, atOctave, atIdx);
    } else {
      var nextOctave: nat := if idx == 11 then octave + 1 else octave;
      var nextIdx: ChromaticIndex := if idx == 11 then 0 else idx + 1;
      WalkStep(f, octave, idx, count, nextOctave, nextIdx);
      WalkAt(f, nextOctave, nextIdx, count - 1, k - 1, atOctave, atIdx);
    }
  }

  /** The pitches of `count` consecutive notes from an octave and chromatic index. */
  function RangeNotes(octave: nat, idx: ChromaticIndex, count: nat): (notes: seq<string>)
  {
    Walk(RangePitch, octave, idx, count)
  }

  /** Within octave 9, note `k` of a run reads back one octave above the position `k` steps from the start. */
  lemma RangeNotesReadBack(octave: nat, idx: ChromaticIndex, count: nat, k: nat)
    requires k < count && 12 * octave + idx + count <= 120
    ensures ReadsBackAt(RangeNotes(octave, idx, count)[k], 12 * octave + idx + k + 12)
  {
    var pos := 12 * octave + idx + k;
    var atOctave: nat, atIdx: ChromaticIndex := pos / 12, pos % 12;
    assert 12 * atOctave + atIdx == pos && atOctave < 10;
    WalkAt(RangePitch, octave, idx, count, k, atOctave, atIdx);
    RangePitchReadsBack(atOctave, atIdx);
  }

  /** A range of at most 101 notes starts at the start note's pitch and ends at the end note's pitch. */
  lemma RangeEndsAtEnd(startOctave: nat, startIdx: ChromaticIndex, endOctave: nat, endIdx: ChromaticIndex)
    requires 12 * startOctave + startIdx <= 12 * endOctave + endIdx < 12 * startOctave + startIdx + MAX_RANGE_NOTES
    ensures var notes := RangeNotes(startOctave, startIdx, RangeCount(12 * startOctave + startIdx, 12 * endOctave + endIdx));
            |notes| == 12 * endOctave + endIdx - (12 * startOctave + startIdx) + 1 &&
            notes[0] == RangePitch(startOctave, startIdx) && notes[|notes| - 1] == RangePitch(endOctave, endIdx)
  {
    var count := RangeCount(12 * startOctave + startIdx, 12 * endOctave + endIdx);
    WalkAt(RangePitch, startOctave, startIdx, count, 0, startOctave, startIdx);
    WalkAt(RangePitch, startOctave, startIdx, count, count - 1, endOctave, endIdx);
  }

  // ---------------------------------------------------------------------
  // Measures and the tune
  // ---------------------------------------------------------------------

  /** `notes.slice(i, i + 4)` for i = 0, 4, 8, ...: consecutive groups of four, the last possibly shorter. */
  function Groups(notes: seq<string>): (groups: seq<seq<string>>)
    ensures forall k :: 0 <= k < |groups| ==> 1 <= |groups[k]| <= 4
    ensures forall k :: 0 <= k < |groups| - 1 ==> |groups[k]| == 4
    ensures |groups| == (|notes| + 3) / 4
    decreases |notes|
  {
    if notes == [] then []
    else
      var m := Min(4, |notes|);
      var rest := Groups(notes[m..]);
      [notes[..m]] + rest
  }

  function Flatten(groups: seq<seq<string>>): seq<string>
  {
    if groups == [] then [] else groups[0] + Flatten(groups[1..])
  }

  /** The measures hold the notes in their order, none left out and none repeated. */
  lemma {:induction false} GroupsKeepOrder(notes: seq<string>)
    ensures Flatten(Groups(notes)) == notes
    decreases |notes|
  {
    if notes != [] {
      var m := Min(4, |notes|);
      GroupsKeepOrder(notes[m..]);
      assert Groups(notes)[1..] == Groups(notes[m..]);
      assert notes[..m] + notes[m..] == notes;
    }
  }

  /** `measures`: each group's notes joined by spaces. */
  function Measures(notes: seq<string>): (measures: seq<string>)
    ensures |measures| == |Groups(notes)|
    ensures forall k :: 0 <= k < |measures| ==> measures[k] == Join(Groups(notes)[k], " ")
  {
    var groups := Groups(notes);
    seq(|groups|, k requires 0 <= k < |groups| => Join(groups[k], " "))
  }

  /** Taking one more group off the front of the remaining notes. */
  lemma MeasuresStep(notes: seq<string>, i: nat)
    requires i < |notes|
    ensures Measures(notes[i..]) == [Join(notes[i..Min(i + 4, |notes|)], " ")] + Measures(notes[Min(i + 4, |notes|)..])
  {
    var rest := notes[i..];
    var m := Min(4, |rest|);
    assert rest[..m] == notes[i..Min(i + 4, |notes|)];
    assert rest[m..] == notes[Min(i + 4, |notes|)..];
    assert Groups(rest) == [rest[..m]] + Groups(rest[m..]);
  }

  /** The tune: the header lines, then the measures separated by " | " and closed by " |]". */
  function RangeAbc(title: string, notes: seq<string>): string
  {
    "X:1\nT:" + title + "\nM:4/4\nL:1/4\nK:C\n" + Join(Measures(notes), " | ") + " |]"
  }

  /** The loop's step: the next chromatic index, wrapping from B to the next octave's C. */
  method NextChromatic(octave: nat, idx: ChromaticIndex) returns (nextOctave: nat, nextIdx: ChromaticIndex)
    ensures 12 * nextOctave + nextIdx == 12 * octave + idx + 1
    ensures idx == 11 ==> nextOctave == octave + 1 && nextIdx == 0
    ensures idx < 11 ==> nextOctave == octave && nextIdx == idx + 1
  {
    if idx + 1 >= 12 {
      nextOctave, nextIdx := octave + 1, 0;
    } else {
      nextOctave, nextIdx := octave, idx + 1;
    }
  }

  /** The loop's note: the chromatic name with the octave appended, through `scientificToPitch`. */
  method LoopPitch(octave: nat, idx: ChromaticIndex) returns (pitch: string)
    requires octave < 10
    ensures pitch == RangePitch(octave, idx)
  {
    var scientificNote := ChromaticName(idx) + NatToString(octave);
    pitch := ScientificToPitch(scientificNote);
    LoopPitchIsRangePitch(octave, idx);
  }

  /** The loop's test, an octave below the end's or the end's octave up to the end's index, means being at or below the end's position. */
  lemma LoopTest(octave: nat, idx: ChromaticIndex, endOctave: nat, endIdx: ChromaticIndex)
    ensures (octave < endOctave || (octave == endOctave && idx <= endIdx)) <==> 12 * octave + idx <= 12 * endOctave + endIdx
  {
  }

  /** While the position is at or below the end and fewer than 101 notes are written, the range has more notes to come. */
  lemma BeforeRangeEnd(startPos: nat, endPos: nat, written: nat)
    requires startPos + written <= endPos && written < MAX_RANGE_NOTES
    ensures written < RangeCount(startPos, endPos)
  {
  }

  /** Once past the end, or once 101 notes are written, the range is complete. */
  lemma AtRangeEnd(startPos: nat, endPos: nat, written: nat)
    requires written <= RangeCount(startPos, endPos)
    requires startPos + written > endPos || written >= MAX_RANGE_NOTES
    ensures written == RangeCount(startPos, endPos)
  {
  }

  /** One turn of the loop: push the pitch of the current note and step to the next chromatic position. */
  method AppendNext(notes: seq<string>, octave: nat, idx: ChromaticIndex, ghost startOctave: nat, ghost startIdx: ChromaticIndex)
    returns (longer: seq<string>, nextOctave: nat, nextIdx: ChromaticIndex)
    requires octave < 10
    requires 12 * octave + idx == 12 * startOctave + startIdx + |notes|
    requires notes == RangeNotes(startOctave, startIdx, |notes|)
    ensures 12 * nextOctave + nextIdx == 12 * octave + idx + 1
    ensures |longer| == |notes| + 1 && longer == RangeNotes(startOctave, startIdx, |notes| + 1)
  {
    var pitch := LoopPitch(octave, idx);
    nextOctave, nextIdx := NextChromatic(octave, idx);
    WalkSnoc(RangePitch, startOctave, startIdx, |notes|, octave, idx);
    longer := notes + [pitch];
  }

  /** The loop of `generateAbcForRange`: the chromatic run from the start note, stopping after the end note or after 101 notes. */
  method ChromaticRun(startIdx: ChromaticIndex, startOctave: nat, endIdx: ChromaticIndex, endOctave: nat) returns (notes: seq<string>)
    requires startOctave < 10 && endOctave < 10
    ensures notes == RangeNotes(startOctave, startIdx, RangeCount(12 * startOctave + startIdx, 12 * endOctave + endIdx))
  {
    ghost var startPos: nat := 12 * startOctave + startIdx;
    ghost var endPos: nat := 12 * endOctave + endIdx;
    ghost var total := RangeCount(startPos, endPos);
    notes := [];
    var currentOctave: nat := startOctave;
    var currentIdx: ChromaticIndex := startIdx;
    while currentOctave < endOctave || (currentOctave == endOctave && currentIdx <= endIdx)
      invariant 12 * currentOctave + currentIdx == startPos + |notes|
      invariant |notes| <= total && |notes| < MAX_RANGE_NOTES
      invariant notes == RangeNotes(startOctave, startIdx, |notes|)
      decreases MAX_RANGE_NOTES - |notes|
    {
      LoopTest(currentOctave, currentIdx, endOctave, endIdx);
      BeforeRangeEnd(startPos, endPos, |notes|);
      notes, currentOctave, currentIdx := AppendNext(notes, currentOctave, currentIdx, startOctave, startIdx);
      if |notes| > 100 {
        break;
      }
    }
    LoopTest(currentOctave, currentIdx, endOctave, endIdx);
    AtRangeEnd(startPos, endPos, |notes|);
  }

  /** Moving the first element of what is left onto what is done keeps the whole. */
  lemma ShiftFirst<T>(done: seq<T>, rest: seq<T>, whole: seq<T>, x: T, tail: seq<T>)
    requires done + rest == whole && rest == [x] + tail
    ensures done + [x] + tail == whole
  {
  }

  /** One turn of the measures loop: the notes from `i`, at most four, joined by spaces. */
  method PushMeasure(measures: seq<string>, notes: seq<string>, i: nat) returns (longer: seq<string>)
    requires i < |notes| && measures + Measures(notes[i..]) == Measures(notes)
    ensures longer + Measures(notes[Min(i + 4, |notes|)..]) == Measures(notes)
  {
    var measure := Join(notes[i..Min(i + 4, |notes|)], " ");
    MeasuresStep(notes, i);
    ShiftFirst(measures, Measures(notes[i..]), Measures(notes), measure, Measures(notes[Min(i + 4, |notes|)..]));
    longer := measures + [measure];
  }

  /** Past the last note nothing is left to group, so the measures so far are all of them. */
  lemma MeasuresDone(measures: seq<string>, notes: seq<string>, i: nat)
    requires i >= |notes| && measures + Measures(notes[Min(i, |notes|)..]) == Measures(notes)
    ensures measures == Measures(notes)
  {
    assert notes[Min(i, |notes|)..] == [];
    assert measures + [] == measures;
  }

  /** The measures loop: groups of four notes, each joined by spaces. */
  method MeasuresOf(notes: seq<string>) returns (measures: seq<string>)
    ensures measures == Measures(notes)
  {
    measures := [];
    var i: nat := 0;
    assert measures + Measures(notes[Min(i, |notes|)..]) == Measures(notes) by {
      assert notes[0..] == notes;
    }
    while i < |notes|
      invariant measures + Measures(notes[Min(i, |notes|)..]) == Measures(notes)
    {
      measures := PushMeasure(measures, notes, i);
      i := i + 4;
    }
    MeasuresDone(measures, notes, i);
  }

  /** The tune of the run between two notes, written as the page writes it. */
  method RangeTune(startIdx: ChromaticIndex, startOctave: nat, endIdx: ChromaticIndex, endOctave: nat, title: string) returns (abc: string)
    requires startOctave < 10 && endOctave < 10
    ensures abc == RangeAbc(title, RangeNotes(startOctave, startIdx, RangeCount(12 * startOctave + startIdx, 12 * endOctave + endIdx)))
  {
    var notes := ChromaticRun(startIdx, startOctave, endIdx, endOctave);
    var measures := MeasuresOf(notes);
    abc := "X:1\nT:" + title + "\nM:4/4\nL:1/4\nK:C\n" + Join(measures, " | ") + " |]";
  }

  /**
   * `generateAbcForRange`: an error when either endpoint is not a note;
   * otherwise the tune of the chromatic run from the start to the end note,
   * cut after 101 notes.
   */
  method GenerateAbcForRange(startNote: string, endNote: string, title: string) returns (r: Result<string, string>)
    ensures MatchRangeNote(startNote).None? || MatchRangeNote(endNote).None? ==> r == Err("Invalid note format")
    ensures MatchRangeNote(startNote).Some? && MatchRangeNote(endNote).Some? ==>
              var s := MatchRangeNote(startNote).value;
              var e := MatchRangeNote(endNote).value;
              r == Ok(RangeAbc(title, RangeNotes(s.octave, NoteIndex(s), RangeCount(Position(s), Position(e)))))
  {
    var startMatch := MatchRangeNote(startNote);
    var endMatch := MatchRangeNote(endNote);
    if startMatch.None? || endMatch.None? {
      return Err("Invalid note format");
    }
    var abc := RangeTune(NoteIndex(startMatch.value), startMatch.value.octave,
                         NoteIndex(endMatch.value), endMatch.value.octave, title);
    r := Ok(abc);
  }
}
