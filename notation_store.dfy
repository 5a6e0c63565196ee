/**
 * The notation editor's store: scientific note names are turned into ABC
 * pitches, the notes text grows by appended notes, chords, rests and bar
 * lines, and a bounded history of at most fifty snapshots backs undo and
 * redo. The full tune is the ABC header followed by the notes text.
 */
module NotationStore {
  import opened Wrappers
  import opened Text

  // ---------------------------------------------------------------------
  // Scientific note names and ABC pitches
  // ---------------------------------------------------------------------

  predicate IsNoteLetter(c: char) { 'A' <= c <= 'G' || 'a' <= c <= 'g' }

  /** A note as `/^([A-Ga-g])([#b]?)(\d)$/` splits it: letter, accidental, octave. */
  datatype SciNote = SciNote(letter: char, accidental: string, octave: nat)

  predicate WellFormed(n: SciNote)
  {
    IsNoteLetter(n.letter) && (n.accidental == "" || n.accidental == "#" || n.accidental == "b") && n.octave < 10
  }

  /** The text a well-formed note is written as. */
  function SciName(n: SciNote): (name: string)
    requires WellFormed(n)
    ensures |name| == 2 + |n.accidental|
  {
    [n.letter] + n.accidental + [DigitChar(n.octave)]
  }

  /** The match of `/^([A-Ga-g])([#b]?)(\d)$/`: the parts of a note, or none. */
  function MatchNote(note: string): (m: Option<SciNote>)
    ensures m.Some? ==> WellFormed(m.value) && SciName(m.value) == note
  {
    if |note| == 2 && IsNoteLetter(note[0]) && IsDigit(note[1]) then
      Some(SciNote(note[0], "", DigitValue(note[1])))
    else if |note| == 3 && IsNoteLetter(note[0]) && (note[1] == '#' || note[1] == 'b') && IsDigit(note[2]) then
      Some(SciNote(note[0], [note[1]], DigitValue(note[2])))
    else
      None
  }

  /** Every well-formed note is matched, and into its own parts. */
  lemma MatchSciName(n: SciNote)
    requires WellFormed(n)
    ensures MatchNote(SciName(n)) == Some(n)
  {
    var name := SciName(n);
    assert name[0] == n.letter && name[|name| - 1] == DigitChar(n.octave);
    if n.accidental != "" {
      assert name[1] == n.accidental[0];
    }
  }

  /** '^' before a sharp, '_' before a flat, nothing before a natural. */
  function AccidentalPrefix(accidental: string): (prefix: string)
    ensures |prefix| <= 1
  {
    if accidental == "#" then "^" else if accidental == "b" then "_" else ""
  }

  /**
   * The ABC pitch of a note in this store's convention: octave 4 is the
   * upper-case letter, octave 5 the lower-case one; each octave below 4 adds
   * a comma and each octave above 5 an apostrophe.
   */
  function AbcPitch(n: SciNote): (abc: string)
    ensures |abc| >= 1
  {
    AccidentalPrefix(n.accidental)
    + if n.octave >= 5 then [Lower(Upper(n.letter))] + Repeat('\'', n.octave - 5)
      else [Upper(n.letter)] + Repeat(',', 4 - n.octave)
  }

  /** `noteToABC`: the ABC pitch of a note, or the text unchanged when it is not one. */
  function AbcOf(note: string): (abc: string)
    ensures MatchNote(note).None? ==> abc == note
  {
    match MatchNote(note)
    case None => note
    case Some(n) => AbcPitch(n)
  }

  /** Reads the letter and octave marks of an ABC pitch whose accidental has been read. */
  function ReadAbcLetter(s: string, accidental: string): Option<SciNote>
  {
    if s == [] then None
    else if 'A' <= s[0] <= 'G' && |s| <= 5 && s[1..] == Repeat(',', |s| - 1) then
      Some(SciNote(s[0], accidental, 5 - |s|))
    else if 'a' <= s[0] <= 'g' && s[1..] == Repeat('\'', |s| - 1) then
      Some(SciNote(Upper(s[0]), accidental, 4 + |s|))
    else None
  }

  /** Reads an ABC pitch of this convention back into its note. */
  function ReadAbc(abc: string): Option<SciNote>
  {
    if abc != [] && abc[0] == '^' then ReadAbcLetter(abc[1..], "#")
    else if abc != [] && abc[0] == '_' then ReadAbcLetter(abc[1..], "b")
    else ReadAbcLetter(abc, "")
  }

  /**
   * An ABC pitch names its note exactly: reading it back gives the letter
   * (in upper case), the accidental and the octave.
   */
  lemma AbcPitchRoundTrip(n: SciNote)
    requires IsNoteLetter(n.letter) && (n.accidental == "" || n.accidental == "#" || n.accidental == "b")
    ensures ReadAbc(AbcPitch(n)) == Some(n.(letter := Upper(n.letter)))
  {
    var prefix := AccidentalPrefix(n.accidental);
    var body := if n.octave >= 5 then [Lower(Upper(n.letter))] + Repeat('\'', n.octave - 5)
                else [Upper(n.letter)] + Repeat(',', 4 - n.octave);
    var abc := AbcPitch(n);
    assert abc == prefix + body;
    assert 'A' <= Upper(n.letter) <= 'G';
    if n.octave >= 5 {
      assert body[1..] == Repeat('\'', n.octave - 5);
      assert Upper(Lower(Upper(n.letter))) == Upper(n.letter);
    } else {
      assert body[1..] == Repeat(',', 4 - n.octave);
    }
    if prefix == [] {
      assert abc == body;
    } else {
      assert abc[0] == prefix[0] && abc[1..] == body;
    }
  }

  /**
   * A note's ABC pitch reads back to that note (upper-cased); so two notes
   * that differ other than in letter case get different ABC pitches.
   */
  lemma NoteToAbcRoundTrip(note: string)
    requires MatchNote(note).Some?
    ensures var n := MatchNote(note).value;
            ReadAbc(AbcOf(note)) == Some(n.(letter := Upper(n.letter)))
  {
    AbcPitchRoundTrip(MatchNote(note).value);
  }

  /** The store's anchors: C4 is "C", C5 is "c", C3 is "C," and C6 is "c'"; flats and sharps are prefixed. */
  lemma NoteToAbcExamples()
    ensures AbcOf("C4") == "C" && AbcOf("C5") == "c" && AbcOf("C3") == "C," && AbcOf("C6") == "c'"
    ensures AbcOf("F#4") == "^F" && AbcOf("Bb2") == "_B,," && AbcOf("H4") == "H4"
  {
    assert MatchNote("C4") == Some(SciNote('C', "", 4));
    assert MatchNote("C5") == Some(SciNote('C', "", 5));
    assert MatchNote("C3") == Some(SciNote('C', "", 3));
    assert MatchNote("C6") == Some(SciNote('C', "", 6));
    assert MatchNote("F#4") == Some(SciNote('F', "#", 4));
    assert MatchNote("Bb2") == Some(SciNote('B', "b", 2));
  }

  /** `noteToABC`, building the octave marks one at a time as the source does. */
  method NoteToABC(note: string) returns (abc: string)
    ensures abc == AbcOf(note)
  {
    var m := MatchNote(note);
    if m.None? {
      return note;
    }
    var n := m.value;
    var baseLetter := Upper(n.letter);
    if n.octave >= 5 {
      abc := [Lower(baseLetter)];
      var i := 5;
      while i < n.octave
        invariant 5 <= i <= n.octave
        invariant abc == [Lower(baseLetter)] + Repeat('\'', i - 5)
      {
        abc := abc + "'";
        i := i + 1;
      }
    } else {
      abc := [baseLetter];
      var i := 4;
      while i > n.octave
        invariant n.octave <= i <= 4
        invariant abc == [baseLetter] + Repeat(',', 4 - i)
      {
        abc := abc + ",";
        i := i - 1;
      }
    }
    if n.accidental == "#" {
      abc := "^" + abc;
    } else if n.accidental == "b" {
      abc := "_" + abc;
    }
  }

  // ---------------------------------------------------------------------
  // Header and full notation
  // ---------------------------------------------------------------------

  datatype Header = Header(title: string, meter: string, unitLength: string, key: string, tempo: int)

  const DEFAULT_HEADER: Header := Header("Sahaja Yoga Music Studying", "4/4", "1/4", "C", 100)

  /** The seven lines of the full notation: X, T, M, L, Q and K header fields, then the notes. */
  function NotationLines(header: Header, notes: string): (lines: seq<string>)
    ensures |lines| == 7
  {
    ["X:1", "T:" + header.title, "M:" + header.meter, "L:" + header.unitLength,
     "Q:" + IntToString(header.tempo), "K:" + header.key, notes]
  }

  /** `buildNotation`: the header lines and the notes, joined by newlines. */
  function BuildNotation(header: Header, notes: string): (text: string)
  {
    Join(NotationLines(header, notes), "\n")
  }

  predicate SingleLine(s: string) { '\n' !in s }

  /**
   * The full notation has seven lines, in the order X, T, M, L, Q, K, notes;
   * each header field and the notes are read back from their line (given
   * that none of them contains a newline).
   */
  lemma BuildNotationLines(header: Header, notes: string)
    requires SingleLine(header.title) && SingleLine(header.meter) && SingleLine(header.unitLength)
    requires SingleLine(header.key) && SingleLine(notes)
    ensures var lines := Split(BuildNotation(header, notes), "\n");
            |lines| == 7 && lines[0] == "X:1" && (forall k :: 1 <= k <= 5 ==> |lines[k]| >= 2)
            && lines[1][..2] == "T:" && lines[1][2..] == header.title
            && lines[2][..2] == "M:" && lines[2][2..] == header.meter
            && lines[3][..2] == "L:" && lines[3][2..] == header.unitLength
            && lines[4][..2] == "Q:" && IsSignedDigits(lines[4][2..]) && SignedValue(lines[4][2..]) == header.tempo
            && lines[5][..2] == "K:" && lines[5][2..] == header.key
            && lines[6] == notes
  {
    var lines := NotationLines(header, notes);
    NotationLinesSingle(header, notes);
    SplitJoin(lines, '\n');
    var tempo := IntToString(header.tempo);
    IntToStringRoundTrip(header.tempo);
    FieldLine("T:", header.title);
    FieldLine("M:", header.meter);
    FieldLine("L:", header.unitLength);
    FieldLine("Q:", tempo);
    FieldLine("K:", header.key);
  }

  lemma NotationLinesSingle(header: Header, notes: string)
    requires SingleLine(header.title) && SingleLine(header.meter) && SingleLine(header.unitLength)
    requires SingleLine(header.key) && SingleLine(notes)
    ensures forall k :: 0 <= k < 7 ==> SingleLine(NotationLines(header, notes)[k])
  {
    var tempo := IntToString(header.tempo);
    IntToStringRoundTrip(header.tempo);
    SignedDigitsSingleLine(tempo);
    FieldLine("T:", header.title);
    FieldLine("M:", header.meter);
    FieldLine("L:", header.unitLength);
    FieldLine("Q:", tempo);
    FieldLine("K:", header.key);
  }

  /** A header line is its two-character tag followed by the field, and has no newline when the field has none. */
  lemma FieldLine(tag: string, field: string)
    requires |tag| == 2 && '\n' !in tag
    ensures |tag + field| >= 2 && (tag + field)[..2] == tag && (tag + field)[2..] == field
    ensures SingleLine(field) ==> SingleLine(tag + field)
  {
    assert forall c :: c in tag + field <==> c in tag || c in field;
  }

  lemma SignedDigitsSingleLine(s: string)
    requires IsSignedDigits(s)
    ensures SingleLine(s)
  {
    forall i | 0 <= i < |s| ensures s[i] != '\n' {
      if i > 0 && s[0] == '-' {
        assert s[i] == s[1..][i - 1];
      }
    }
  }

  // ---------------------------------------------------------------------
  // Edit history
  // ---------------------------------------------------------------------

  const MAX_HISTORY: nat := 50

  datatype HistoryEntry = HistoryEntry(notes: string, timestamp: int)

  /** The part of the store that the history actions change. */
  datatype Editor = Editor(notes: string, history: seq<HistoryEntry>, historyIndex: int)

  /**
   * At most fifty snapshots, and the current index points at one of them;
   * the index is -1 exactly when there is no snapshot yet.
   */
  predicate EditorInvariant(e: Editor)
  {
    |e.history| <= MAX_HISTORY && -1 <= e.historyIndex < |e.history|
    && (e.historyIndex == -1 <==> e.history == [])
  }

  function Min(a: int, b: int): int { if a <= b then a else b }

  /** `s.slice(-n)`: the last `n` elements, or all of them when there are fewer. */
  function LastN<T>(s: seq<T>, n: nat): (r: seq<T>)
    ensures |r| == Min(|s|, n) && r == s[|s| - |r|..]
  {
    if |s| <= n then s else s[|s| - n..]
  }

  /**
   * An edit that records a snapshot (append a note, a chord or a rest, or set
   * the notation): the snapshot replaces whatever could have been redone and
   * becomes the current one; when fifty are exceeded the oldest is dropped.
   */
  function Record(e: Editor, text: string, now: int): (r: Editor)
    requires EditorInvariant(e)
    ensures EditorInvariant(r)
    ensures r.notes == text && 0 <= r.historyIndex == |r.history| - 1 && r.historyIndex <= MAX_HISTORY - 1
    ensures r.historyIndex <= e.historyIndex + 1
    ensures r.historyIndex == Min(e.historyIndex + 1, MAX_HISTORY - 1)
    ensures r.history[r.historyIndex] == HistoryEntry(text, now)
    ensures r.history[..r.historyIndex] == e.history[e.historyIndex + 1 - r.historyIndex..e.historyIndex + 1]
  {
    var kept := e.history[..e.historyIndex + 1] + [HistoryEntry(text, now)];
    var history := LastN(kept, MAX_HISTORY);
    assert history[..|history| - 1] == kept[|kept| - |history|..|kept| - 1];
    Editor(text, history, Min(e.historyIndex + 1, MAX_HISTORY - 1))
  }

  /** `undo`: at the first snapshot or before any, nothing changes; otherwise step back one. */
  function Undone(e: Editor): (r: Editor)
    requires EditorInvariant(e)
    ensures EditorInvariant(r) && r.history == e.history
    ensures e.historyIndex <= 0 ==> r == e
    ensures e.historyIndex > 0 ==> r.historyIndex == e.historyIndex - 1 && r.notes == e.history[r.historyIndex].notes
  {
    if e.historyIndex <= 0 then e
    else
      var newIndex := e.historyIndex - 1;
      e.(notes := e.history[newIndex].notes, historyIndex := newIndex)
  }

  /** `redo`: at the last snapshot nothing changes; otherwise step forward one. */
  function Redone(e: Editor): (r: Editor)
    requires EditorInvariant(e)
    ensures EditorInvariant(r) && r.history == e.history
    ensures e.historyIndex >= |e.history| - 1 ==> r == e
    ensures e.historyIndex < |e.history| - 1 ==>
              r.historyIndex == e.historyIndex + 1 && r.notes == e.history[r.historyIndex].notes
  {
    if e.historyIndex >= |e.history| - 1 then e
    else
      var newIndex := e.historyIndex + 1;
      e.(notes := e.history[newIndex].notes, historyIndex := newIndex)
  }

  /** Undo then redo returns to the current snapshot, and to the very same state when the notes are that snapshot's. */
  lemma RedoAfterUndo(e: Editor)
    requires EditorInvariant(e) && e.historyIndex > 0
    ensures Redone(Undone(e)) == e.(notes := e.history[e.historyIndex].notes)
    ensures e.notes == e.history[e.historyIndex].notes ==> Redone(Undone(e)) == e
  {
  }

  /** Redo then undo returns to the current snapshot. */
  lemma UndoAfterRedo(e: Editor)
    requires EditorInvariant(e) && 0 <= e.historyIndex < |e.history| - 1
    ensures Undone(Redone(e)) == e.(notes := e.history[e.historyIndex].notes)
  {
  }

  /** Undo right after an edit brings back the snapshot that was current before it, even when the oldest was dropped. */
  lemma {:induction false} UndoRevertsRecord(e: Editor, text: string, now: int)
    requires EditorInvariant(e) && e.historyIndex >= 0
    ensures Undone(Record(e, text, now)).notes == e.history[e.historyIndex].notes
    ensures Undone(Record(e, text, now)).historyIndex == Record(e, text, now).historyIndex - 1
  {
    var r := Record(e, text, now);
    var i := r.historyIndex;
    assert i >= 1;
    assert r.history[..i][i - 1] == r.history[i - 1];
  }

  /**
   * `clear` as corrected: an empty snapshot is appended after all the others
   * (the redo branch included) and becomes the current one.
   */
  function Cleared(e: Editor, now: int): (r: Editor)
    requires EditorInvariant(e)
    ensures EditorInvariant(r)
    ensures r.notes == "" && 0 <= r.historyIndex == |r.history| - 1 <= |e.history|
    ensures r.historyIndex == Min(|e.history|, MAX_HISTORY - 1)
    ensures r.history[r.historyIndex] == HistoryEntry("", now)
    ensures r.history[..r.historyIndex] == e.history[|e.history| - r.historyIndex..]
  {
    var all := e.history + [HistoryEntry("", now)];
    var history := LastN(all, MAX_HISTORY);
    assert history[..|history| - 1] == all[|all| - |history|..|all| - 1];
    Editor("", history, |history| - 1)
  }

  /** `clear` as written: the index becomes the old history length, whether or not the oldest snapshot was dropped. */
  function ClearedAsWritten(e: Editor, now: int): (r: Editor)
    ensures r.notes == "" && r.historyIndex == |e.history|
    ensures |r.history| == Min(|e.history| + 1, MAX_HISTORY)
  {
    Editor("", LastN(e.history + [HistoryEntry("", now)], MAX_HISTORY), |e.history|)
  }

  /** Below fifty snapshots the written `clear` is the corrected one. */
  lemma ClearAsWrittenBelowCap(e: Editor, now: int)
    requires EditorInvariant(e) && |e.history| < MAX_HISTORY
    ensures ClearedAsWritten(e, now) == Cleared(e, now)
  {
  }

  /**
   * With fifty snapshots, the written `clear` leaves the index one past the
   * last snapshot, where no snapshot is.
   */
  lemma ClearAsWrittenOverrunsAtCap(e: Editor, now: int)
    requires EditorInvariant(e) && |e.history| == MAX_HISTORY
    ensures var r := ClearedAsWritten(e, now);
            r.historyIndex == |r.history| == MAX_HISTORY && !EditorInvariant(r)
  {
  }

  // ---------------------------------------------------------------------
  // The store
  // ---------------------------------------------------------------------

  /** The notes of a chord, each as its ABC pitch, inside square brackets. */
  function ChordText(notes: seq<string>): (chord: string)
    ensures |chord| >= 2 && chord[0] == '[' && chord[|chord| - 1] == ']'
  {
    "[" + Join(Map(AbcOf, notes), "") + "]"
  }

  /** The chord text, converting the notes one at a time. */
  method ChordToABC(chordNotes: seq<string>) returns (chord: string)
    ensures chord == ChordText(chordNotes)
  {
    var pitches: seq<string> := [];
    var i := 0;
    while i < |chordNotes|
      invariant 0 <= i <= |chordNotes|
      invariant |pitches| == i && forall k :: 0 <= k < i ==> pitches[k] == AbcOf(chordNotes[k])
    {
      var pitch := NoteToABC(chordNotes[i]);
      pitches := pitches + [pitch];
      i := i + 1;
    }
    assert pitches == Map(AbcOf, chordNotes);
    chord := "[" + Join(pitches, "") + "]";
  }

  /** `slice(0, -1)`: the text without its last character; empty stays empty. */
  function DropLast(s: string): (r: string)
    ensures s == [] ==> r == []
    ensures s != [] ==> r + [s[|s| - 1]] == s
  {
    if s == [] then [] else s[..|s| - 1]
  }

  class NotationEditor {
    var header: Header
    var notes: string
    var history: seq<HistoryEntry>
    var historyIndex: int

    function State(): Editor
      reads this
    {
      Editor(notes, history, historyIndex)
    }

    predicate Valid()
      reads this
    {
      EditorInvariant(State())
    }

    /** The initial store: the default header, no notes and no snapshot. */
    constructor ()
      ensures Valid() && header == DEFAULT_HEADER && State() == Editor("", [], -1)
    {
      header := DEFAULT_HEADER;
      notes := "";
      history := [];
      historyIndex := -1;
    }

    /** `getFullNotation` */
    function GetFullNotation(): string
      reads this
    {
      BuildNotation(header, notes)
    }

    method SetState(e: Editor)
      requires EditorInvariant(e)
      modifies this
      ensures Valid() && State() == e && header == old(header)
    {
      notes, history, historyIndex := e.notes, e.history, e.historyIndex;
    }

    /** `appendNote`: the note's ABC pitch and its duration (empty when none) are appended and recorded. */
    method AppendNote(note: string, duration: string, now: int)
      requires Valid()
      modifies this
      ensures Valid() && header == old(header)
      ensures State() == Record(old(State()), old(notes) + AbcOf(note) + duration, now)
    {
      var abcNote := NoteToABC(note);
      SetState(Record(State(), notes + abcNote + duration, now));
    }

    /** `appendChord`: the chord's ABC pitches in brackets are appended and recorded. */
    method AppendChord(chordNotes: seq<string>, now: int)
      requires Valid()
      modifies this
      ensures Valid() && header == old(header)
      ensures State() == Record(old(State()), old(notes) + ChordText(chordNotes), now)
    {
      var chord := ChordToABC(chordNotes);
      SetState(Record(State(), notes + chord, now));
    }

    /** `appendRest`: 'z' and its duration are appended and recorded. */
    method AppendRest(duration: string, now: int)
      requires Valid()
      modifies this
      ensures Valid() && header == old(header)
      ensures State() == Record(old(State()), old(notes) + "z" + duration, now)
    {
      SetState(Record(State(), notes + "z" + duration, now));
    }

    /** `addBarLine`: " | " is appended; the history is not touched. */
    method AddBarLine()
      modifies this
      ensures notes == old(notes) + " | "
      ensures history == old(history) && historyIndex == old(historyIndex) && header == old(header)
    {
      notes := notes + " | ";
    }

    /** `backspace`: the last character is dropped; the history is not touched. */
    method Backspace()
      modifies this
      ensures notes == DropLast(old(notes))
      ensures history == old(history) && historyIndex == old(historyIndex) && header == old(header)
    {
      notes := DropLast(notes);
    }

    method SetTitle(title: string)
      modifies this
      ensures header == old(header).(title := title) && State() == old(State())
    {
      header := header.(title := title);
    }

    method SetKey(key: string)
      modifies this
      ensures header == old(header).(key := key) && State() == old(State())
    {
      header := header.(key := key);
    }

    method SetMeter(meter: string)
      modifies this
      ensures header == old(header).(meter := meter) && State() == old(State())
    {
      header := header.(meter := meter);
    }

    method SetTempo(bpm: int)
      modifies this
      ensures header == old(header).(tempo := bpm) && State() == old(State())
    {
      header := header.(tempo := bpm);
    }

    method SetUnitLength(length: string)
      modifies this
      ensures header == old(header).(unitLength := length) && State() == old(State())
    {
      header := header.(unitLength := length);
    }

    /** `setNotation`: the notes are replaced and recorded. */
    method SetNotation(text: string, now: int)
      requires Valid()
      modifies this
      ensures Valid() && header == old(header)
      ensures State() == Record(old(State()), text, now)
    {
      SetState(Record(State(), text, now));
    }

    /** `clear`, with the index pointing at the new empty snapshot. */
    method Clear(now: int)
      requires Valid()
      modifies this
      ensures Valid() && header == old(header)
      ensures State() == Cleared(old(State()), now)
    {
      SetState(Cleared(State(), now));
    }

    method Undo()
      requires Valid()
      modifies this
      ensures Valid() && header == old(header)
      ensures State() == Undone(old(State()))
    {
      SetState(Undone(State()));
    }

    method Redo()
      requires Valid()
      modifies this
      ensures Valid() && header == old(header)
      ensures State() == Redone(old(State()))
    {
      SetState(Redone(State()));
    }
  }
}
