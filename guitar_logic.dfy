/**
 * Guitar fretboard arithmetic: which note sounds at a string and fret, and
 * every (string, fret) position among the first fifteen frets where a note
 * can be played.
 */
module GuitarLogic {
  import opened Wrappers
  import opened Text

  /** Note names in chromatic order, sharps only. */
  const NOTES: seq<string> := ["C", "C#", "D", "D#", "E", "F", "F#", "G", "G#", "A", "A#", "B"]

  /** Standard tuning, string 0 (high E) to string 5 (low E). */
  const GUITAR_TUNING: seq<string> := ["E4", "B3", "G3", "D3", "A2", "E2"]

  /** The last fret searched by `GetPositionsForNote`. */
  const MAX_FRET := 15

  datatype ParsedNote = ParsedNote(noteName: string, octave: int)

  datatype Position = Position(stringIndex: int, fret: int)

  predicate IsNoteLetter(c: char) { 'A' <= c <= 'G' }

  /** A note name as `[A-G][#b]?` accepts it. */
  predicate IsNoteName(name: string)
  {
    (|name| == 1 || |name| == 2) && IsNoteLetter(name[0]) && (|name| == 2 ==> name[1] == '#' || name[1] == 'b')
  }

  /**
   * Scientific pitch such as "C#4" or "Bb-1", read as `^([A-G][#b]?)(-?\d+)$`:
   * the name, then a signed decimal octave.
   */
  function ParseNote(note: string): (r: Option<ParsedNote>)
    ensures r.Some? ==> IsNoteName(r.value.noteName) && StartsWith(note, r.value.noteName)
    ensures |note| == 0 || !IsNoteLetter(note[0]) ==> r.None?
  {
    if |note| == 0 || !IsNoteLetter(note[0]) then None
    else
      var nameLength := if |note| > 1 && (note[1] == '#' || note[1] == 'b') then 2 else 1;
      var octaveText := note[nameLength..];
      if IsSignedDigits(octaveText) then Some(ParsedNote(note[..nameLength], SignedValue(octaveText)))
      else None
  }

  /** Reading back a name followed by a rendered octave recovers both. */
  lemma ParseNoteRoundTrip(name: string, octave: int)
    requires IsNoteName(name)
    ensures ParseNote(name + IntToString(octave)) == Some(ParsedNote(name, octave))
  {
    var note := name + IntToString(octave);
    IntToStringRoundTrip(octave);
    assert note[..|name|] == name;
    assert note[|name|..] == IntToString(octave);
    var s := IntToString(octave);
    if |name| == 1 {
      assert s[0] == '-' || IsDigit(s[0]);
      assert note[1] == s[0];
    }
  }

  /** `NOTES.indexOf(name)`, read character by character: a natural letter, or a letter and '#'. */
  function NoteIndex(name: string): (i: int)
    ensures -1 <= i < |NOTES|
    ensures i >= 0 ==> NOTES[i] == name
    ensures i == -1 ==> name !in NOTES
  {
    if |name| == 1 then
      match name[0]
      case 'C' => 0 case 'D' => 2 case 'E' => 4 case 'F' => 5 case 'G' => 7 case 'A' => 9 case 'B' => 11
      case _ => -1
    else if |name| == 2 && name[1] == '#' then
      match name[0]
      case 'C' => 1 case 'D' => 3 case 'F' => 6 case 'G' => 8 case 'A' => 10
      case _ => -1
    else -1
  }

  /** JavaScript `%`: the remainder takes the sign of the dividend. */
  function JsRemainder(a: int, b: int): int
    requires b > 0
  {
    if a >= 0 then a % b else -((-a) % b)
  }

  /**
   * The note at a string and fret: the open string's pitch raised by `fret`
   * semitones, written as name and octave. An out-of-range string gives "".
   */
  function NoteAtPosition(stringIndex: int, fret: int): string
  {
    if stringIndex < 0 || stringIndex >= |GUITAR_TUNING| then ""
    else match ParseNote(GUITAR_TUNING[stringIndex])
      case None => ""
      case Some(open) => RaisedNote(open, fret)
  }

  /** `open` raised by `fret` semitones; a name outside `NOTES` gives "". */
  function RaisedNote(open: ParsedNote, fret: int): string
  {
    var noteIndex := NoteIndex(open.noteName);
    if noteIndex == -1 then "" else Transposed(noteIndex, open.octave, fret)
  }

  /**
   * The note `fret` semitones above chromatic index `noteIndex` of `octave`.
   * A fret that lowers the pitch below C of that octave makes JavaScript
   * index `NOTES` with a negative number; the source then prints "undefined"
   * as the name, and so does the model.
   */
  function Transposed(noteIndex: int, octave: int, fret: int): string
  {
    var totalSemitones := noteIndex + fret;
    var newNoteIndex := JsRemainder(totalSemitones, 12);
    var octaveShift := totalSemitones / 12;  // floor division: the divisor is positive
    var name := if newNoteIndex >= 0 then NOTES[newNoteIndex] else "undefined";
    name + IntToString(octave + octaveShift)
  }

  /** The chromatic index and octave of each open string. */
  function OpenPitch(stringIndex: int): (p: (int, int))
    requires 0 <= stringIndex < |GUITAR_TUNING|
    ensures 0 <= p.0 < 12
  {
    if stringIndex == 0 then (4, 4) else if stringIndex == 1 then (11, 3)
    else if stringIndex == 2 then (7, 3) else if stringIndex == 3 then (2, 3)
    else if stringIndex == 4 then (9, 2) else (4, 2)
  }

  /** Each tuning note parses to the name and octave of `OpenPitch`. */
  lemma OpenStringParses(stringIndex: int)
    requires 0 <= stringIndex < |GUITAR_TUNING|
    ensures GUITAR_TUNING[stringIndex] == NOTES[OpenPitch(stringIndex).0] + IntToString(OpenPitch(stringIndex).1)
    ensures ParseNote(GUITAR_TUNING[stringIndex])
            == Some(ParsedNote(NOTES[OpenPitch(stringIndex).0], OpenPitch(stringIndex).1))
  {
    var p := OpenPitch(stringIndex);
    var name := NOTES[p.0];
    assert |name| == 1;
    assert IntToString(p.1) == [(p.1 as char) + '0'] by {
      assert IntToString(p.1) == NatToString(p.1);
    }
    assert name + IntToString(p.1) == GUITAR_TUNING[stringIndex];
    ParseNoteRoundTrip(name, p.1);
  }

  /** The pitch at a position as (chromatic index, octave). */
  function PitchAt(stringIndex: int, fret: int): (p: (int, int))
    requires 0 <= stringIndex < |GUITAR_TUNING|
    ensures 0 <= p.0 < 12
  {
    var open := OpenPitch(stringIndex);
    ((open.0 + fret) % 12, open.1 + (open.0 + fret) / 12)
  }

  lemma NoteIndexOfNote(i: int)
    requires 0 <= i < |NOTES|
    ensures NoteIndex(NOTES[i]) == i && IsNoteName(NOTES[i])
  {
  }

  /**
   * Raising by a non-negative count lands on chromatic index `step` of
   * `newOctave` whenever those two spell the same number of semitones.
   */
  lemma TransposedPitch(noteIndex: int, octave: int, fret: int, step: int, newOctave: int)
    requires noteIndex >= 0 && fret >= 0
    requires 12 * octave + noteIndex + fret == 12 * newOctave + step && 0 <= step < 12
    ensures Transposed(noteIndex, octave, fret) == NOTES[step] + IntToString(newOctave)
  {
    assert JsRemainder(noteIndex + fret, 12) == step && octave + (noteIndex + fret) / 12 == newOctave;
  }

  /** For a real fret (at least 0) the note is the open pitch raised by `fret` semitones. */
  lemma NoteAtPositionPitch(stringIndex: int, fret: int)
    requires 0 <= stringIndex < |GUITAR_TUNING| && fret >= 0
    ensures NoteAtPosition(stringIndex, fret)
            == NOTES[PitchAt(stringIndex, fret).0] + IntToString(PitchAt(stringIndex, fret).1)
  {
    var open := OpenPitch(stringIndex);
    TransposedPitch(open.0, open.1, fret, PitchAt(stringIndex, fret).0, PitchAt(stringIndex, fret).1);
    assert NoteAtPosition(stringIndex, fret) == Transposed(open.0, open.1, fret) by {
      OpenStringParses(stringIndex);
      NoteIndexOfNote(open.0);
    }
  }

  /** Only a string index outside the six strings gives the empty note. */
  lemma EmptyOnlyOffTheBoard(stringIndex: int, fret: int)
    ensures NoteAtPosition(stringIndex, fret) == "" <==> stringIndex < 0 || stringIndex >= |GUITAR_TUNING|
  {
    if 0 <= stringIndex < |GUITAR_TUNING| {
      var open := OpenPitch(stringIndex);
      OpenStringParses(stringIndex);
      NoteIndexOfNote(open.0);
      var totalSemitones := open.0 + fret;
      assert |IntToString(open.1 + totalSemitones / 12)| > 0;
    }
  }

  /** An open string sounds its tuning note: string 0 gives "E4" and string 5 gives "E2". */
  lemma OpenStringIsTuningNote(stringIndex: int)
    requires 0 <= stringIndex < |GUITAR_TUNING|
    ensures NoteAtPosition(stringIndex, 0) == GUITAR_TUNING[stringIndex]
  {
    var open := OpenPitch(stringIndex);
    assert open.0 % 12 == open.0 && open.0 / 12 == 0;
    assert PitchAt(stringIndex, 0) == open;
    NoteAtPositionPitch(stringIndex, 0);
    OpenStringParses(stringIndex);
  }

  lemma ShiftByOctave(x: int)
    ensures (x + 12) % 12 == x % 12 && (x + 12) / 12 == x / 12 + 1
  {
  }

  /** Twelve frets higher is the same note name one octave up. */
  lemma TwelveFretsIsAnOctave(stringIndex: int, fret: int)
    requires 0 <= stringIndex < |GUITAR_TUNING| && fret >= 0
    ensures var low := ParseNote(NoteAtPosition(stringIndex, fret));
            var high := ParseNote(NoteAtPosition(stringIndex, fret + 12));
            low.Some? && high.Some?
            && high.value.noteName == low.value.noteName
            && high.value.octave == low.value.octave + 1
  {
    NoteAtPositionPitch(stringIndex, fret);
    NoteAtPositionPitch(stringIndex, fret + 12);
    var p := PitchAt(stringIndex, fret);
    var q := PitchAt(stringIndex, fret + 12);
    ShiftByOctave(OpenPitch(stringIndex).0 + fret);
    assert q == (p.0, p.1 + 1);
    NoteIndexOfNote(p.0);
    ParseNoteRoundTrip(NOTES[p.0], p.1);
    ParseNoteRoundTrip(NOTES[p.0], p.1 + 1);
  }

  /** The fretboard as a function from (string, fret) to note; `NoteAtPosition` is the one used. */
  type Board = (int, int) -> string

  predicate Plays(board: Board, p: Position, target: string)
  {
    board(p.stringIndex, p.fret) == target
  }

  /** A cell the search visits: strings 0..5, frets 0..15. */
  predicate InRange(p: Position)
  {
    0 <= p.stringIndex < |GUITAR_TUNING| && 0 <= p.fret <= MAX_FRET
  }

  /** Where a cell comes in the search: string by string, frets ascending. */
  function CellIndex(p: Position): int
  {
    p.stringIndex * 16 + p.fret
  }

  /** Cell order: by string, then by fret. */
  predicate Before(p: Position, q: Position)
  {
    p.stringIndex < q.stringIndex || (p.stringIndex == q.stringIndex && p.fret < q.fret)
  }

  /** A point the search reaches: a fret from 0 to 16 on a string, or the end after the last string. */
  predicate SearchPoint(stringIndex: nat, fret: nat)
  {
    (stringIndex < |GUITAR_TUNING| && fret <= MAX_FRET + 1) || (stringIndex == |GUITAR_TUNING| && fret == 0)
  }

  /**
   * The matching positions the search has collected on reaching (string,
   * fret): every earlier string, then this string's frets below `fret`.
   */
  function MatchesBefore(board: Board, target: string, stringIndex: nat, fret: nat): seq<Position>
    requires SearchPoint(stringIndex, fret)
    decreases stringIndex, fret
  {
    if fret == 0 then
      if stringIndex == 0 then [] else MatchesBefore(board, target, stringIndex - 1, MAX_FRET + 1)
    else
      var p := Position(stringIndex, fret - 1);
      MatchesBefore(board, target, stringIndex, fret - 1) + (if Plays(board, p, target) then [p] else [])
  }

  /** Two in-range cells with the same place in the search are the same cell. */
  lemma SameCell(p: Position, q: Position)
    requires InRange(p) && InRange(q) && CellIndex(p) == CellIndex(q)
    ensures p == q
  {
  }

  /** What the search has collected at (string, fret): exactly the in-range matches before it, in cell order. */
  lemma {:induction false} MatchesBeforeProperties(board: Board, target: string, stringIndex: nat, fret: nat)
    requires SearchPoint(stringIndex, fret)
    ensures forall p :: p in MatchesBefore(board, target, stringIndex, fret) <==>
              InRange(p) && CellIndex(p) < stringIndex * 16 + fret && Plays(board, p, target)
    ensures forall i, j :: 0 <= i < j < |MatchesBefore(board, target, stringIndex, fret)| ==>
              CellIndex(MatchesBefore(board, target, stringIndex, fret)[i]) < CellIndex(MatchesBefore(board, target, stringIndex, fret)[j])
    decreases stringIndex, fret
  {
    if fret == 0 {
      if stringIndex > 0 {
        MatchesBeforeProperties(board, target, stringIndex - 1, MAX_FRET + 1);
        assert (stringIndex - 1) * 16 + (MAX_FRET + 1) == stringIndex * 16 + fret;
      }
    } else {
      MatchesBeforeProperties(board, target, stringIndex, fret - 1);
      var p := Position(stringIndex, fret - 1);
      forall q | InRange(q) && CellIndex(q) == stringIndex * 16 + fret - 1
        ensures q == p
      {
        SameCell(p, q);
      }
    }
  }

  /**
   * Every position (string, fret) with 0 <= fret <= 15 whose note equals
   * `target`, string by string with frets ascending; none when the target
   * does not parse.
   */
  method GetPositionsForNote(targetNote: string) returns (positions: seq<Position>)
    ensures ParseNote(targetNote).None? ==> positions == []
    ensures ParseNote(targetNote).Some? ==> positions == MatchesBefore(NoteAtPosition, targetNote, |GUITAR_TUNING|, 0)
    ensures forall p :: p in positions ==> InRange(p) && Plays(NoteAtPosition, p, targetNote)
    ensures ParseNote(targetNote).Some? ==>
              forall p :: InRange(p) && Plays(NoteAtPosition, p, targetNote) ==> p in positions
    ensures forall i, j :: 0 <= i < j < |positions| ==> Before(positions[i], positions[j])
  {
    positions := [];
    var parsed := ParseNote(targetNote);
    if parsed.None? {
      return;
    }
    positions := ScanBoard(NoteAtPosition, targetNote);
  }

  /**
   * The double loop of `GetPositionsForNote` over strings 0..5 and frets
   * 0..15, with the note lookup passed in as `board`.
   */
  method ScanBoard(board: Board, targetNote: string) returns (positions: seq<Position>)
    ensures positions == MatchesBefore(board, targetNote, |GUITAR_TUNING|, 0)
    ensures forall p :: p in positions <==> InRange(p) && Plays(board, p, targetNote)
    ensures forall i, j :: 0 <= i < j < |positions| ==> Before(positions[i], positions[j])
  {
    positions := [];
    var stringIndex: nat := 0;
    while stringIndex < |GUITAR_TUNING|
      invariant stringIndex <= |GUITAR_TUNING|
      invariant positions == MatchesBefore(board, targetNote, stringIndex, 0)
    {
      var fret: nat := 0;
      while fret <= MAX_FRET
        invariant fret <= MAX_FRET + 1
        invariant positions == MatchesBefore(board, targetNote, stringIndex, fret)
      {
        positions := VisitCell(board, targetNote, positions, stringIndex, fret);
        fret := fret + 1;
      }
      assert MatchesBefore(board, targetNote, stringIndex + 1, 0) == MatchesBefore(board, targetNote, stringIndex, fret);
      stringIndex := stringIndex + 1;
    }
    AllMatches(board, targetNote);
  }

  /** The inner loop's body: the note at (string, fret) is looked up and the position kept when it is the target. */
  method VisitCell(board: Board, targetNote: string, positions: seq<Position>, stringIndex: nat, fret: nat)
    returns (longer: seq<Position>)
    requires stringIndex < |GUITAR_TUNING| && fret <= MAX_FRET
    requires positions == MatchesBefore(board, targetNote, stringIndex, fret)
    ensures longer == MatchesBefore(board, targetNote, stringIndex, fret + 1)
  {
    var noteAtPos := board(stringIndex, fret);
    longer := positions;
    if noteAtPos == targetNote {
      longer := longer + [Position(stringIndex, fret)];
    }
  }

  /** The full search holds exactly the in-range matches, in cell order. */
  lemma AllMatches(board: Board, target: string)
    ensures forall p :: p in MatchesBefore(board, target, |GUITAR_TUNING|, 0) <==> InRange(p) && Plays(board, p, target)
    ensures forall i, j :: 0 <= i < j < |MatchesBefore(board, target, |GUITAR_TUNING|, 0)| ==>
              Before(MatchesBefore(board, target, |GUITAR_TUNING|, 0)[i], MatchesBefore(board, target, |GUITAR_TUNING|, 0)[j])
  {
    var positions := MatchesBefore(board, target, |GUITAR_TUNING|, 0);
    MatchesBeforeProperties(board, target, |GUITAR_TUNING|, 0);
    forall i, j | 0 <= i < j < |positions| ensures Before(positions[i], positions[j]) {
      assert CellIndex(positions[i]) < CellIndex(positions[j]);
    }
  }
}
