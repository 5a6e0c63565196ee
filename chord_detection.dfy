/**
 * Chord detection: names the chord formed by a list of notes by trying each
 * distinct note as the root and comparing the interval set above it with a
 * fixed table of chord patterns.
 */
module ChordDetection {
  import opened Wrappers
  import opened Text

  /** Pitch classes, sharps only; the index is the semitone above C. */
  const CHROMATIC: seq<string> := ["C", "C#", "D", "D#", "E", "F", "F#", "G", "G#", "A", "A#", "B"]

  /** Flat and sharp spellings rewritten to the sharp name in `CHROMATIC`. */
  const ENHARMONIC: map<string, string> := map[
    "Db" := "C#", "Eb" := "D#", "Fb" := "E", "Gb" := "F#", "Ab" := "G#",
    "Bb" := "A#", "Cb" := "B", "E#" := "F", "B#" := "C"]

  /**
   * The chord patterns in the order the source enumerates them: the quality
   * "7" is an integer-like key, so JavaScript lists it before the others.
   */
  const CHORD_PATTERNS: seq<(string, set<int>)> := [
    ("7", {0, 4, 7, 10}),
    ("major", {0, 4, 7}),
    ("minor", {0, 3, 7}),
    ("dim", {0, 3, 6}),
    ("aug", {0, 4, 8}),
    ("maj7", {0, 4, 7, 11}),
    ("m7", {0, 3, 7, 10}),
    ("m7b5", {0, 3, 6, 10}),
    ("dim7", {0, 3, 6, 9})]

  /** `s.replace(/[0-9]/g, '')` */
  function StripDigits(s: string): (r: string)
    ensures forall i :: 0 <= i < |r| ==> !IsDigit(r[i])
    ensures |r| <= |s|
  {
    if s == [] then [] else (if IsDigit(s[0]) then [] else [s[0]]) + StripDigits(s[1..])
  }

  /** A note name without its digits, respelled with sharps when it is a flat or an E#/B#. */
  function NormalizeNote(note: string): (r: string)
    ensures forall i :: 0 <= i < |r| ==> !IsDigit(r[i])
  {
    var noteName := StripDigits(note);
    if noteName in ENHARMONIC then ENHARMONIC[noteName] else noteName
  }

  /** `CHROMATIC.indexOf(name)`, read character by character: a natural letter, or a letter and '#'. */
  function ChromaticIndex(name: string): (i: int)
    ensures -1 <= i < 12
    ensures i >= 0 ==> CHROMATIC[i] == name
  {
    if |name| == 1 then
      match name[0]
      case 'C' => 0 case 'D' => 2 case 'E' => 4 case 'F' => 5 case 'G' => 7 case 'A' => 9 case 'B' => 11
      case _ => -1
    else if |name| == 2 && name[1] == '#' then
      match name[0]
      case 'C' => 1 case 'D' => 3 case 'F' => 6 case 'G' => 8 case 'A' => 10
      case _ => -1
    else -1
  }

  /** Semitones above C, or -1 for a name that is not a note. */
  function Semitone(note: string): int
  {
    ChromaticIndex(NormalizeNote(note))
  }

  /**
   * The interval from `root` up to `note`, reduced to one octave. Both
   * semitones are at least -1 and below 12, so the dividend is never
   * negative and JavaScript's `%` agrees with Dafny's.
   */
  function Interval(note: string, rootSemitone: int): (r: int)
    requires -1 <= rootSemitone < 12
    ensures 0 <= r < 12
  {
    (Semitone(note) - rootSemitone + 12) % 12
  }

  /** The set of intervals of `names` above `rootSemitone`. */
  function IntervalsAbove(names: seq<string>, rootSemitone: int): (r: set<int>)
    requires -1 <= rootSemitone < 12
    ensures forall i :: i in r ==> 0 <= i < 12
  {
    set n | n in names :: Interval(n, rootSemitone)
  }

  lemma IntervalsAboveNext(names: seq<string>, k: nat, rootSemitone: int)
    requires k < |names| && -1 <= rootSemitone < 12
    ensures IntervalsAbove(names[..k + 1], rootSemitone)
            == IntervalsAbove(names[..k], rootSemitone) + {Interval(names[k], rootSemitone)}
  {
    var before := names[..k];
    var after := names[..k + 1];
    assert after == before + [names[k]];
    forall x | x in IntervalsAbove(after, rootSemitone)
      ensures x in IntervalsAbove(before, rootSemitone) + {Interval(names[k], rootSemitone)}
    {
      var n :| n in after && x == Interval(n, rootSemitone);
      if n != names[k] {
        assert n in before;
      }
    }
    forall x | x in IntervalsAbove(before, rootSemitone)
      ensures x in IntervalsAbove(after, rootSemitone)
    {
      var n :| n in before && x == Interval(n, rootSemitone);
      assert n in after;
    }
    assert names[k] in after;
  }

  /** The distinct normalised names of `notes`, in first-occurrence order. */
  function UniqueNotes(notes: seq<string>): (r: seq<string>)
    ensures NoDuplicates(r) && |r| <= |notes|
    ensures |notes| > 0 ==> |r| > 0 && r[0] == NormalizeNote(notes[0])
    ensures forall n :: n in r <==> exists i :: 0 <= i < |notes| && n == NormalizeNote(notes[i])
  {
    Dedupe(Map(NormalizeNote, notes))
  }

  /** The interval set of `notes` relative to the first of them. */
  function IntervalSet(notes: seq<string>): set<int>
  {
    var unique := UniqueNotes(notes);
    if |unique| == 0 then {} else IntervalsAbove(unique, Semitone(unique[0]))
  }

  /**
   * The intervals of the distinct normalised notes above the first one; the
   * first note itself contributes interval 0 when it is a known note.
   */
  method GetIntervalSet(notes: seq<string>) returns (intervals: set<int>)
    ensures intervals == IntervalSet(notes)
    ensures notes == [] <==> intervals == {}
    ensures notes != [] ==> 0 in intervals
    ensures forall i :: i in intervals ==> 0 <= i < 12
  {
    if |notes| == 0 {
      return {};
    }
    var uniqueNotes := UniqueNotes(notes);
    if |uniqueNotes| == 0 {
      return {};
    }
    var rootSemitone := Semitone(uniqueNotes[0]);
    intervals := CollectIntervals(uniqueNotes, rootSemitone);
    assert Interval(uniqueNotes[0], rootSemitone) == 0;
    assert uniqueNotes[0] in uniqueNotes;
    assert 0 in intervals;
  }

  /** The `forEach` that adds each note's interval above the root to a new set. */
  method CollectIntervals(uniqueNotes: seq<string>, rootSemitone: int) returns (intervals: set<int>)
    requires -1 <= rootSemitone < 12
    ensures intervals == IntervalsAbove(uniqueNotes, rootSemitone)
  {
    intervals := {};
    var k := 0;
    while k < |uniqueNotes|
      invariant 0 <= k <= |uniqueNotes|
      invariant intervals == IntervalsAbove(uniqueNotes[..k], rootSemitone)
    {
      IntervalsAboveNext(uniqueNotes, k, rootSemitone);
      intervals := intervals + {Interval(uniqueNotes[k], rootSemitone)};
      k := k + 1;
    }
    assert uniqueNotes[..k] == uniqueNotes;
  }

  lemma SubsetOfSameSize(a: set<int>, b: set<int>)
    requires a <= b && |a| == |b|
    ensures a == b
  {
    var d := b - a;
    assert b == a + d;
    assert a * d == {};
    assert |d| == 0;
    assert d == {};
  }

  lemma HasMember(s: set<int>)
    requires |s| > 0
    ensures exists x :: x in s
  {
    if forall x :: x !in s {
      assert false;
    }
  }

  /** Two interval sets match exactly when they hold the same intervals. */
  method IntervalsMatch(set1: set<int>, set2: set<int>) returns (r: bool)
    ensures r <==> set1 == set2
  {
    if |set1| != |set2| {
      return false;
    }
    var rest := set1;
    while |rest| > 0
      invariant rest <= set1
      invariant set1 - rest <= set2
      decreases |rest|
    {
      HasMember(rest);
      var val :| val in rest;
      if val !in set2 {
        return false;
      }
      rest := rest - {val};
    }
    SubsetOfSameSize(set1, set2);
    return true;
  }

  /** The first quality among `patterns` whose interval set is `intervals`, or "". */
  function QualityIn(patterns: seq<(string, set<int>)>, intervals: set<int>): string
  {
    if patterns == [] then ""
    else if patterns[0].1 == intervals then patterns[0].0
    else QualityIn(patterns[1..], intervals)
  }

  function Quality(intervals: set<int>): string
  {
    QualityIn(CHORD_PATTERNS, intervals)
  }

  /** The quality whose pattern equals `intervals`, or "" when none does. */
  method DetectQuality(intervals: set<int>) returns (quality: string)
    ensures quality == Quality(intervals)
  {
    var k := 0;
    while k < |CHORD_PATTERNS|
      invariant 0 <= k <= |CHORD_PATTERNS|
      invariant QualityIn(CHORD_PATTERNS[k..], intervals) == Quality(intervals)
    {
      var matched := IntervalsMatch(intervals, CHORD_PATTERNS[k].1);
      if matched {
        return CHORD_PATTERNS[k].0;
      }
      assert CHORD_PATTERNS[k..][1..] == CHORD_PATTERNS[k + 1..];
      k := k + 1;
    }
    return "";
  }

  lemma {:induction false} QualityInFound(patterns: seq<(string, set<int>)>, intervals: set<int>)
    requires forall i :: 0 <= i < |patterns| ==> patterns[i].0 != ""
    ensures QualityIn(patterns, intervals) == ""
            || exists i :: 0 <= i < |patterns| && patterns[i] == (QualityIn(patterns, intervals), intervals)
    ensures (exists i :: 0 <= i < |patterns| && patterns[i].1 == intervals && patterns[i].0 != "")
            ==> QualityIn(patterns, intervals) != ""
    decreases |patterns|
  {
    if patterns != [] && patterns[0].1 != intervals {
      QualityInFound(patterns[1..], intervals);
      if exists i :: 0 <= i < |patterns| && patterns[i].1 == intervals && patterns[i].0 != "" {
        var i :| 0 <= i < |patterns| && patterns[i].1 == intervals && patterns[i].0 != "";
        assert patterns[1..][i - 1] == patterns[i];
      }
      if QualityIn(patterns, intervals) != "" {
        var i :| 0 <= i < |patterns[1..]| && patterns[1..][i] == (QualityIn(patterns, intervals), intervals);
        assert patterns[i + 1] == patterns[1..][i];
      }
    }
  }

  /** Which of the intervals 3, 4, 6, 7, 8, 9, 10 and 11 a set holds. */
  function Signature(s: set<int>): seq<bool>
  {
    [3 in s, 4 in s, 6 in s, 7 in s, 8 in s, 9 in s, 10 in s, 11 in s]
  }

  /** The signature of each chord pattern, in table order. */
  ghost const PATTERN_SIGNATURES: seq<seq<bool>> := [
    [false, true, false, true, false, false, true, false],
    [false, true, false, true, false, false, false, false],
    [true, false, false, true, false, false, false, false],
    [true, false, true, false, false, false, false, false],
    [false, true, false, false, true, false, false, false],
    [false, true, false, true, false, false, false, true],
    [true, false, false, true, false, false, true, false],
    [true, false, true, false, false, false, true, false],
    [true, false, true, false, false, true, false, false]]

  lemma PatternSignatures()
    ensures |PATTERN_SIGNATURES| == |CHORD_PATTERNS|
    ensures forall k :: 0 <= k < |CHORD_PATTERNS| ==> Signature(CHORD_PATTERNS[k].1) == PATTERN_SIGNATURES[k]
  {
  }

  /** An interval set whose signature is no pattern's has no quality. */
  lemma NoQuality(intervals: set<int>)
    requires Signature(intervals) !in PATTERN_SIGNATURES
    ensures Quality(intervals) == ""
  {
    PatternSignatures();
    PatternsDistinct();
    QualityInFound(CHORD_PATTERNS, intervals);
  }

  /** No two chord patterns share an interval set, and no quality is "". */
  lemma PatternsDistinct()
    ensures forall i, j :: 0 <= i < j < |CHORD_PATTERNS| ==> CHORD_PATTERNS[i].1 != CHORD_PATTERNS[j].1
    ensures forall i :: 0 <= i < |CHORD_PATTERNS| ==> CHORD_PATTERNS[i].0 != ""
  {
    PatternSignatures();
    forall i, j | 0 <= i < j < |CHORD_PATTERNS|
      ensures CHORD_PATTERNS[i].1 != CHORD_PATTERNS[j].1
    {
      assert Signature(CHORD_PATTERNS[i].1) != Signature(CHORD_PATTERNS[j].1);
    }
  }

  /**
   * The quality names a pattern equal to the interval set, and every
   * interval set that equals a pattern gets that pattern's quality: since
   * the patterns are distinct, the enumeration order does not matter.
   */
  lemma QualityIsThePattern(intervals: set<int>, q: string)
    ensures q != "" && Quality(intervals) == q <==> (q, intervals) in CHORD_PATTERNS
  {
    PatternsDistinct();
    QualityInFound(CHORD_PATTERNS, intervals);
    if (q, intervals) in CHORD_PATTERNS {
      var i :| 0 <= i < |CHORD_PATTERNS| && CHORD_PATTERNS[i] == (q, intervals);
      var j :| 0 <= j < |CHORD_PATTERNS| && CHORD_PATTERNS[j] == (Quality(intervals), intervals);
      assert i == j;
    }
  }

  /** The text appended to the root for each quality: nothing for major, "m" for minor, else the quality. */
  function Suffix(quality: string): string
  {
    if quality == "minor" then "m"
    else if quality == "dim" || quality == "aug" || quality == "7" || quality == "maj7"
         || quality == "m7" || quality == "m7b5" || quality == "dim7" then quality
    else ""
  }

  /** The chord named by the first root in `roots` whose interval set is a pattern. */
  function ChordFromRoots(roots: seq<string>, unique: seq<string>): Option<string>
  {
    if roots == [] then None
    else
      var quality := Quality(IntervalsAbove(unique, Semitone(roots[0])));
      if quality != "" then Some(roots[0] + Suffix(quality))
      else ChordFromRoots(roots[1..], unique)
  }

  /** The chord name `detectChordFromNotes` gives, or None for its `null`. */
  function ChordOf(notes: seq<string>): Option<string>
  {
    var unique := UniqueNotes(notes);
    if |notes| < 3 || |unique| < 3 then None else ChordFromRoots(unique, unique)
  }

  /**
   * The chord formed by `notes`: the first distinct note, in order of first
   * appearance, above which the intervals form a pattern, followed by the
   * pattern's suffix; None for fewer than three notes or three distinct
   * names, or when no root fits.
   */
  method DetectChordFromNotes(notes: seq<string>) returns (chord: Option<string>)
    ensures chord == ChordOf(notes)
    ensures |notes| < 3 || |UniqueNotes(notes)| < 3 ==> chord.None?
  {
    if |notes| < 3 {
      return None;
    }
    var uniqueNotes := UniqueNotes(notes);
    if |uniqueNotes| < 3 {
      return None;
    }
    var r := 0;
    while r < |uniqueNotes|
      invariant 0 <= r <= |uniqueNotes|
      invariant ChordFromRoots(uniqueNotes[r..], uniqueNotes) == ChordOf(notes)
    {
      var potentialRoot := uniqueNotes[r];
      var quality := RootQuality(uniqueNotes, potentialRoot);
      if quality != "" {
        var chordName := potentialRoot + Suffix(quality);
        assert uniqueNotes[r..][0] == potentialRoot;
        return Some(chordName);
      }
      assert uniqueNotes[r..][1..] == uniqueNotes[r + 1..];
      r := r + 1;
    }
    return None;
  }

  /** The quality of the intervals of `uniqueNotes` above `root`, or "" when they form no pattern. */
  method RootQuality(uniqueNotes: seq<string>, root: string) returns (quality: string)
    ensures quality == Quality(IntervalsAbove(uniqueNotes, Semitone(root)))
  {
    var rootSemitone := Semitone(root);
    var intervals := CollectIntervals(uniqueNotes, rootSemitone);
    quality := DetectQuality(intervals);
  }

  lemma {:induction false} ChordFromRootsShape(roots: seq<string>, unique: seq<string>)
    requires ChordFromRoots(roots, unique).Some?
    ensures exists i :: 0 <= i < |roots|
              && Quality(IntervalsAbove(unique, Semitone(roots[i]))) != ""
              && ChordFromRoots(roots, unique).value
                 == roots[i] + Suffix(Quality(IntervalsAbove(unique, Semitone(roots[i]))))
    decreases |roots|
  {
    if Quality(IntervalsAbove(unique, Semitone(roots[0]))) == "" {
      ChordFromRootsShape(roots[1..], unique);
      var i :| 0 <= i < |roots[1..]|
               && Quality(IntervalsAbove(unique, Semitone(roots[1..][i]))) != ""
               && ChordFromRoots(roots[1..], unique).value
                  == roots[1..][i] + Suffix(Quality(IntervalsAbove(unique, Semitone(roots[1..][i]))));
      assert roots[i + 1] == roots[1..][i];
    }
  }

  /**
   * A detected chord is a distinct note of the input followed by the suffix
   * of the pattern that the intervals above that note form.
   */
  lemma DetectedChordHasARoot(notes: seq<string>)
    requires ChordOf(notes).Some?
    ensures exists root, q :: root in UniqueNotes(notes)
              && (q, IntervalsAbove(UniqueNotes(notes), Semitone(root))) in CHORD_PATTERNS
              && ChordOf(notes).value == root + Suffix(q)
  {
    var unique := UniqueNotes(notes);
    ChordFromRootsShape(unique, unique);
    var i :| 0 <= i < |unique|
             && Quality(IntervalsAbove(unique, Semitone(unique[i]))) != ""
             && ChordOf(notes).value == unique[i] + Suffix(Quality(IntervalsAbove(unique, Semitone(unique[i]))));
    var s := IntervalsAbove(unique, Semitone(unique[i]));
    QualityIsThePattern(s, Quality(s));
  }

  /** The octave digits of a note do not change its normalised name. */
  lemma {:induction false} StripDigitsAppend(name: string, digits: string)
    requires AllDigits(digits)
    ensures StripDigits(name + digits) == StripDigits(name)
    decreases |name|
  {
    if name == [] {
      StripDigitsOfDigits(digits);
      assert name + digits == digits;
    } else {
      StripDigitsAppend(name[1..], digits);
      assert (name + digits)[1..] == name[1..] + digits;
    }
  }

  lemma {:induction false} StripDigitsOfDigits(digits: string)
    requires AllDigits(digits)
    ensures StripDigits(digits) == ""
    decreases |digits|
  {
    if digits != [] {
      StripDigitsOfDigits(digits[1..]);
    }
  }

  /** A note with any octave number normalises like the bare name. */
  lemma OctaveIsIgnored(name: string, octave: nat)
    ensures NormalizeNote(name + NatToString(octave)) == NormalizeNote(name)
  {
    StripDigitsAppend(name, NatToString(octave));
  }

  /**
   * Every respelling in the enharmonic table lands on a name of the chromatic
   * scale, and the spelling sits at that name's semitone: Db is C#, Cb is B.
   */
  lemma EnharmonicSpelling(spelling: string)
    requires spelling in ENHARMONIC
    ensures NormalizeNote(spelling) == ENHARMONIC[spelling]
    ensures ENHARMONIC[spelling] in CHROMATIC
    ensures NormalizeNote(ENHARMONIC[spelling]) == ENHARMONIC[spelling]
    ensures 0 <= Semitone(spelling) == Semitone(ENHARMONIC[spelling])
  {
    EnharmonicKeysKeptByStrip();
    EnharmonicValues();
    ChromaticSemitone(ENHARMONIC[spelling], ChromaticIndex(ENHARMONIC[spelling]));
  }

  /** The enharmonic table only rewrites to names of the chromatic scale. */
  lemma EnharmonicValues()
    ensures forall k :: k in ENHARMONIC ==> ChromaticIndex(ENHARMONIC[k]) >= 0
  {
  }

  /** Normalising twice is normalising once. */
  lemma NormalizeIdempotent(note: string)
    ensures NormalizeNote(NormalizeNote(note)) == NormalizeNote(note)
  {
    var name := StripDigits(note);
    if name in ENHARMONIC {
      EnharmonicValues();
      ChromaticSemitone(ENHARMONIC[name], ChromaticIndex(ENHARMONIC[name]));
    } else {
      NoDigitsStrip(name);
    }
  }

  lemma {:induction false} NoDigitsStrip(s: string)
    requires forall i :: 0 <= i < |s| ==> !IsDigit(s[i])
    ensures StripDigits(s) == s
    decreases |s|
  {
    if s != [] {
      NoDigitsStrip(s[1..]);
      assert [s[0]] + s[1..] == s;
    }
  }

  /** The voicing stored under the detected chord's name, if there is one. */
  method GetVoicingForNotes<V>(notes: seq<string>, voicings: map<string, V>) returns (voicing: Option<V>)
    ensures voicing.Some? <==> ChordOf(notes).Some? && ChordOf(notes).value != ""
                               && ChordOf(notes).value in voicings
    ensures voicing.Some? ==> voicing.value == voicings[ChordOf(notes).value]
  {
    var chordName := DetectChordFromNotes(notes);
    if chordName.None? || chordName.value == "" {
      return None;
    }
    if chordName.value in voicings {
      return Some(voicings[chordName.value]);
    }
    return None;
  }

  /** Notes form a known chord exactly when a chord is detected. */
  method IsKnownChord(notes: seq<string>) returns (known: bool)
    ensures known <==> ChordOf(notes).Some?
  {
    var chord := DetectChordFromNotes(notes);
    known := chord.Some?;
  }

  lemma IntervalsAboveThree(a: string, b: string, c: string, rootSemitone: int)
    requires -1 <= rootSemitone < 12
    ensures IntervalsAbove([a, b, c], rootSemitone)
            == {Interval(a, rootSemitone), Interval(b, rootSemitone), Interval(c, rootSemitone)}
  {
    var names := [a, b, c];
    assert a == names[0] && b == names[1] && c == names[2];
    forall x | x in IntervalsAbove(names, rootSemitone)
      ensures x in {Interval(a, rootSemitone), Interval(b, rootSemitone), Interval(c, rootSemitone)}
    {
      var n :| n in names && x == Interval(n, rootSemitone);
    }
  }

  /** Notes that normalise to the same names, one by one, form the same chord. */
  lemma SameNamesSameChord(a: seq<string>, b: seq<string>)
    requires |a| == |b|
    requires forall i :: 0 <= i < |a| ==> NormalizeNote(a[i]) == NormalizeNote(b[i])
    ensures ChordOf(a) == ChordOf(b)
  {
    assert Map(NormalizeNote, a) == Map(NormalizeNote, b);
  }

  /** The octave numbers of the notes never change the chord: C4 E4 G4 and C3 E5 G2 agree. */
  lemma ChordIgnoresOctaves(names: seq<string>, octaves1: seq<nat>, octaves2: seq<nat>)
    requires |octaves1| == |names| && |octaves2| == |names|
    ensures ChordOf(seq(|names|, i requires 0 <= i < |names| => names[i] + NatToString(octaves1[i])))
            == ChordOf(seq(|names|, i requires 0 <= i < |names| => names[i] + NatToString(octaves2[i])))
  {
    var a := seq(|names|, i requires 0 <= i < |names| => names[i] + NatToString(octaves1[i]));
    var b := seq(|names|, i requires 0 <= i < |names| => names[i] + NatToString(octaves2[i]));
    forall i | 0 <= i < |names| ensures NormalizeNote(a[i]) == NormalizeNote(b[i]) {
      OctaveIsIgnored(names[i], octaves1[i]);
      OctaveIsIgnored(names[i], octaves2[i]);
    }
    SameNamesSameChord(a, b);
  }

  /**
   * Respelling one note enharmonically in the same octave, Db4 as C#4, never
   * changes the chord.
   */
  lemma RespellingKeepsChord(notes: seq<string>, i: int, spelling: string, octave: nat)
    requires 0 <= i < |notes| && spelling in ENHARMONIC && notes[i] == spelling + NatToString(octave)
    ensures ChordOf(notes[i := ENHARMONIC[spelling] + NatToString(octave)]) == ChordOf(notes)
  {
    var respelled := notes[i := ENHARMONIC[spelling] + NatToString(octave)];
    OctaveIsIgnored(spelling, octave);
    OctaveIsIgnored(ENHARMONIC[spelling], octave);
    EnharmonicSpelling(spelling);
    SameNamesSameChord(respelled, notes);
  }

  /** Three notes with three distinct names: every one of them is tried as the root, in order. */
  lemma ChordOfTriple(notes: seq<string>, a: string, b: string, c: string)
    requires |notes| == 3
    requires NormalizeNote(notes[0]) == a && NormalizeNote(notes[1]) == b && NormalizeNote(notes[2]) == c
    requires a != b && b != c && a != c
    ensures ChordOf(notes) == ChordFromRoots([a, b, c], [a, b, c])
  {
    assert Map(NormalizeNote, notes) == [a, b, c];
    DedupeOfDistinct([a, b, c]);
  }

  /** Every spelling the enharmonic table rewrites is a flat, E# or B#. */
  lemma EnharmonicKeys()
    ensures forall k :: k in ENHARMONIC ==>
              |k| == 2 && 'A' <= k[0] <= 'G' && (k[1] == 'b' || (k[1] == '#' && (k[0] == 'E' || k[0] == 'B')))
  {
  }

  /** No spelling in the enharmonic table holds a digit for the octave stripping to remove. */
  lemma EnharmonicKeysKeptByStrip()
    ensures forall k :: k in ENHARMONIC ==> StripDigits(k) == k
  {
    EnharmonicKeys();
    forall k | k in ENHARMONIC ensures StripDigits(k) == k {
      AccidentalKeptByStrip(k);
    }
  }

  lemma AccidentalKeptByStrip(s: string)
    requires |s| == 2 && 'A' <= s[0] <= 'G' && (s[1] == 'b' || s[1] == '#')
    ensures StripDigits(s) == s
  {
    NoDigitsStrip(s);
  }

  /** Every chromatic name is a letter, or a letter other than E and B followed by '#'. */
  lemma ChromaticShape(i: int)
    requires 0 <= i < |CHROMATIC|
    ensures |CHROMATIC[i]| == 1 || (|CHROMATIC[i]| == 2 && CHROMATIC[i][1] == '#' && CHROMATIC[i][0] != 'E' && CHROMATIC[i][0] != 'B')
    ensures forall j :: 0 <= j < |CHROMATIC[i]| ==> !IsDigit(CHROMATIC[i][j])
  {
  }

  /** A name from the chromatic scale is already normal and sits at its own index. */
  lemma ChromaticSemitone(name: string, i: int)
    requires 0 <= i < |CHROMATIC| && name == CHROMATIC[i]
    ensures NormalizeNote(name) == name && Semitone(name) == i
  {
    assert NormalizeNote(name) == name by {
      ChromaticShape(i);
      EnharmonicKeys();
      NoDigitsStrip(name);
      assert name !in ENHARMONIC;
    }
    ChromaticIndexOf(i);
  }

  /** `indexOf` finds each chromatic name at its own index. */
  lemma ChromaticIndexOf(i: int)
    requires 0 <= i < |CHROMATIC|
    ensures ChromaticIndex(CHROMATIC[i]) == i
  {
  }

  /** A root-position chord: the first name's intervals form pattern `q`. */
  lemma RootPositionChord(a: string, b: string, c: string, k: int)
    requires 0 <= k < |CHORD_PATTERNS| && CHORD_PATTERNS[k].1 == IntervalsAbove([a, b, c], Semitone(a))
    ensures ChordFromRoots([a, b, c], [a, b, c]) == Some(a + Suffix(CHORD_PATTERNS[k].0))
  {
    var q := CHORD_PATTERNS[k].0;
    PatternsDistinct();
    QualityIsThePattern(IntervalsAbove([a, b, c], Semitone(a)), q);
  }

  /** The major and minor triad patterns, and the suffixes their qualities add. */
  lemma TriadPatterns()
    ensures CHORD_PATTERNS[1].1 == {0, 4, 7} && Suffix(CHORD_PATTERNS[1].0) == ""
    ensures CHORD_PATTERNS[2].1 == {0, 3, 7} && Suffix(CHORD_PATTERNS[2].0) == "m"
  {
  }

  /** Three distinct names whose intervals above the first form pattern `k` name that chord on the first. */
  lemma RootPositionTriad(notes: seq<string>, a: string, b: string, c: string, k: int)
    requires |notes| == 3
    requires NormalizeNote(notes[0]) == a && NormalizeNote(notes[1]) == b && NormalizeNote(notes[2]) == c
    requires a != b && b != c && a != c
    requires 0 <= k < |CHORD_PATTERNS| && CHORD_PATTERNS[k].1 == IntervalsAbove([a, b, c], Semitone(a))
    ensures ChordOf(notes) == Some(a + Suffix(CHORD_PATTERNS[k].0))
  {
    ChordOfTriple(notes, a, b, c);
    RootPositionChord(a, b, c, k);
  }

  /** Stepping `d` semitones up the circle of twelve and measuring back gives `d`. */
  lemma StepAndBack(i: int, d: int)
    requires 0 <= i < 12 && 0 <= d < 12
    ensures ((i + d) % 12 - i + 12) % 12 == d
  {
    if i + d < 12 {
      assert (i + d) % 12 == i + d;
      assert (d + 12) % 12 == d;
    } else {
      assert (i + d) % 12 == i + d - 12;
    }
  }

  /** A name `d` semitones above root index `i` lies at interval `d` above it. */
  lemma IntervalOfStep(name: string, i: int, d: int)
    requires 0 <= i < 12 && 0 <= d < 12 && Semitone(name) == (i + d) % 12
    ensures Interval(name, i) == d
  {
    StepAndBack(i, d);
  }

  /** The twelve chromatic names are distinct. */
  lemma ChromaticDistinct(j: int, k: int)
    requires 0 <= j < 12 && 0 <= k < 12 && j != k
    ensures CHROMATIC[j] != CHROMATIC[k]
  {
    ChromaticSemitone(CHROMATIC[j], j);
    ChromaticSemitone(CHROMATIC[k], k);
  }

  /**
   * A triad built on chromatic index `i` with a third `third` semitones up and a
   * fifth seven semitones up: three distinct names whose intervals above the
   * root are {0, third, 7}.
   */
  lemma TriadOn(i: int, third: int)
    requires 0 <= i < 12 && (third == 3 || third == 4)
    ensures CHROMATIC[i] != CHROMATIC[(i + third) % 12]
    ensures CHROMATIC[(i + third) % 12] != CHROMATIC[(i + 7) % 12]
    ensures CHROMATIC[i] != CHROMATIC[(i + 7) % 12]
    ensures IntervalsAbove([CHROMATIC[i], CHROMATIC[(i + third) % 12], CHROMATIC[(i + 7) % 12]], Semitone(CHROMATIC[i]))
            == {0, third, 7}
  {
    var j, k := (i + third) % 12, (i + 7) % 12;
    ChromaticDistinct(i, j);
    ChromaticDistinct(j, k);
    ChromaticDistinct(i, k);
    ChromaticSemitone(CHROMATIC[i], i);
    ChromaticSemitone(CHROMATIC[j], j);
    ChromaticSemitone(CHROMATIC[k], k);
    TriadIntervalSet(i, third, CHROMATIC[i], CHROMATIC[j], CHROMATIC[k]);
  }

  /** Names at a root, `third` semitones and seven semitones above it have intervals {0, third, 7}. */
  lemma TriadIntervalSet(i: int, third: int, a: string, b: string, c: string)
    requires 0 <= i < 12 && (third == 3 || third == 4)
    requires Semitone(a) == i && Semitone(b) == (i + third) % 12 && Semitone(c) == (i + 7) % 12
    ensures IntervalsAbove([a, b, c], Semitone(a)) == {0, third, 7}
  {
    assert (i + 0) % 12 == i;
    IntervalOfStep(a, i, 0);
    IntervalOfStep(b, i, third);
    IntervalOfStep(c, i, 7);
    IntervalsAboveThree(a, b, c, i);
  }

  /**
   * Any three notes that normalise to a root, its major third and its fifth,
   * in that order and in any octaves, name the major chord on the root
   * (C4 E4 G4 is "C"): the major pattern adds no suffix.
   */
  lemma MajorTriadOnAnyRoot(notes: seq<string>, i: int)
    requires 0 <= i < 12 && |notes| == 3
    requires NormalizeNote(notes[0]) == CHROMATIC[i]
    requires NormalizeNote(notes[1]) == CHROMATIC[(i + 4) % 12]
    requires NormalizeNote(notes[2]) == CHROMATIC[(i + 7) % 12]
    ensures ChordOf(notes) == Some(CHROMATIC[i])
  {
    TriadOn(i, 4);
    TriadPatterns();
    RootPositionTriad(notes, CHROMATIC[i], CHROMATIC[(i + 4) % 12], CHROMATIC[(i + 7) % 12], 1);
    assert CHROMATIC[i] + "" == CHROMATIC[i];
  }

  /**
   * Any three notes that normalise to a root, its minor third and its fifth
   * name the minor chord on the root, with the suffix "m" (A3 C4 E4 is "Am").
   */
  lemma MinorTriadOnAnyRoot(notes: seq<string>, i: int)
    requires 0 <= i < 12 && |notes| == 3
    requires NormalizeNote(notes[0]) == CHROMATIC[i]
    requires NormalizeNote(notes[1]) == CHROMATIC[(i + 3) % 12]
    requires NormalizeNote(notes[2]) == CHROMATIC[(i + 7) % 12]
    ensures ChordOf(notes) == Some(CHROMATIC[i] + "m")
  {
    TriadOn(i, 3);
    TriadPatterns();
    RootPositionTriad(notes, CHROMATIC[i], CHROMATIC[(i + 3) % 12], CHROMATIC[(i + 7) % 12], 2);
  }
}
