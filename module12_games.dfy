/**
 * Helpers of the octave games: star thresholds, the three octave choices
 * offered for a letter, and the pitch comparison behind "which note is
 * higher".
 */
module Module12Games {
  import opened Wrappers
  import opened Text

  /** Stars for a percentage: 3 from 100, 2 from 80, 1 from 60, none below. */
  function CalculateStars(percentage: real): (stars: int)
    ensures 0 <= stars <= 3
    ensures stars == 3 <==> percentage >= 100.0
    ensures stars >= 2 <==> percentage >= 80.0
    ensures stars >= 1 <==> percentage >= 60.0
  {
    if percentage >= 100.0 then 3
    else if percentage >= 80.0 then 2
    else if percentage >= 60.0 then 1
    else 0
  }

  /** A better percentage never earns fewer stars. */
  lemma StarsMonotone(p: real, q: real)
    requires p <= q
    ensures CalculateStars(p) <= CalculateStars(q)
  {
  }

  /** The answers offered for a letter: that letter in octaves 3, 4 and 5. */
  function GetOctaveChoices(noteLetter: string): (choices: seq<string>)
    ensures |choices| == 3
    ensures forall k :: 0 <= k < 3 ==> choices[k] == noteLetter + [DigitChar(k + 3)]
  {
    seq(3, k requires 0 <= k < 3 => noteLetter + [DigitChar(k + 3)])
  }

  /** A pitch as `/^([A-G])([#b]?)(\d)$/` reads it. */
  datatype Pitch = Pitch(letter: nat, accidental: int, octave: nat)

  /** `'CDEFGAB'.indexOf(c)`: the letter's place in the natural scale, or -1. */
  function LetterValue(c: char): (v: int)
    ensures -1 <= v < 7
    ensures v >= 0 <==> 'A' <= c <= 'G'
  {
    match c
    case 'C' => 0 case 'D' => 1 case 'E' => 2 case 'F' => 3
    case 'G' => 4 case 'A' => 5 case 'B' => 6
    case _ => -1
  }

  function LetterOf(v: nat): (c: char)
    requires v < 7
    ensures LetterValue(c) == v
  {
    "CDEFGAB"[v]
  }

  /** One upper-case letter, an optional '#' or 'b', one digit, and nothing else. */
  function ParsePitch(note: string): (r: Option<Pitch>)
    ensures r.Some? ==> r.value.letter < 7 && -1 <= r.value.accidental <= 1 && r.value.octave < 10
  {
    if |note| == 2 && LetterValue(note[0]) >= 0 && IsDigit(note[1]) then
      Some(Pitch(LetterValue(note[0]), 0, DigitValue(note[1])))
    else if |note| == 3 && LetterValue(note[0]) >= 0 && (note[1] == '#' || note[1] == 'b') && IsDigit(note[2]) then
      Some(Pitch(LetterValue(note[0]), if note[1] == '#' then 1 else -1, DigitValue(note[2])))
    else
      None
  }

  /** The spelling of a pitch that `ParsePitch` reads back. */
  function PitchName(p: Pitch): (name: string)
    requires p.letter < 7 && -1 <= p.accidental <= 1 && p.octave < 10
  {
    [LetterOf(p.letter)] + (if p.accidental == 1 then "#" else if p.accidental == -1 then "b" else "")
    + [DigitChar(p.octave)]
  }

  lemma ParsePitchName(p: Pitch)
    requires p.letter < 7 && -1 <= p.accidental <= 1 && p.octave < 10
    ensures ParsePitch(PitchName(p)) == Some(p)
  {
    var name := PitchName(p);
    assert name[0] == LetterOf(p.letter);
    assert name[|name| - 1] == DigitChar(p.octave);
  }

  lemma PitchNameOfParse(note: string)
    requires ParsePitch(note).Some?
    ensures PitchName(ParsePitch(note).value) == note
  {
    var p := ParsePitch(note).value;
    if |note| == 2 {
      assert PitchName(p) == [note[0]] + [note[1]];
    } else {
      assert PitchName(p) == [note[0]] + [note[1]] + [note[2]];
    }
  }

  /**
   * The source's pitch number `12 * octave + letter`, moved half a step by an
   * accidental, here doubled so that it stays an integer; a note that does not
   * parse has pitch 0.
   */
  function PitchKey(note: string): int
  {
    match ParsePitch(note)
    case None => 0
    case Some(p) => 2 * (12 * p.octave + p.letter) + p.accidental
  }

  /** 1 when `noteA` is higher, -1 when `noteB` is higher, 0 when they are level. */
  function ComparePitch(noteA: string, noteB: string): (r: int)
    ensures r == 1 || r == 0 || r == -1
    ensures r == 1 <==> PitchKey(noteA) > PitchKey(noteB)
    ensures r == -1 <==> PitchKey(noteA) < PitchKey(noteB)
  {
    var pitchA := PitchKey(noteA);
    var pitchB := PitchKey(noteB);
    if pitchA > pitchB then 1 else if pitchA < pitchB then -1 else 0
  }

  lemma CompareAntisymmetric(a: string, b: string)
    ensures ComparePitch(a, b) == -ComparePitch(b, a)
    ensures ComparePitch(a, a) == 0
  {
  }

  lemma CompareTransitive(a: string, b: string, c: string)
    requires ComparePitch(a, b) >= 0 && ComparePitch(b, c) >= 0
    ensures ComparePitch(a, c) >= 0
    ensures ComparePitch(a, c) == 0 ==> ComparePitch(a, b) == 0 && ComparePitch(b, c) == 0
  {
  }

  /**
   * Where a pitch sits within its octave, in half letter steps: the letter
   * counts two, and a sharp or flat one up or down.
   */
  function StepInOctave(p: Pitch): int { 2 * p.letter + p.accidental }

  /**
   * On notes that parse, the comparison puts the higher octave first and,
   * within one octave, the later letter step; a sharp and the flat of the
   * next letter (D#4 and Eb4) are level.
   */
  lemma {:induction false} CompareIsScoreOrder(p: Pitch, q: Pitch)
    requires p.letter < 7 && -1 <= p.accidental <= 1 && p.octave < 10
    requires q.letter < 7 && -1 <= q.accidental <= 1 && q.octave < 10
    ensures p.octave != q.octave ==> (ComparePitch(PitchName(p), PitchName(q)) == 1 <==> p.octave > q.octave)
    ensures p.octave == q.octave ==>
              (ComparePitch(PitchName(p), PitchName(q)) == 1 <==> StepInOctave(p) > StepInOctave(q))
    ensures ComparePitch(PitchName(p), PitchName(q)) == 0 <==> p.octave == q.octave && StepInOctave(p) == StepInOctave(q)
  {
    ParsePitchName(p);
    ParsePitchName(q);
    var kp, kq := 24 * p.octave + StepInOctave(p), 24 * q.octave + StepInOctave(q);
    assert PitchKey(PitchName(p)) == kp && PitchKey(PitchName(q)) == kq;
    assert -1 <= StepInOctave(p) <= 13 && -1 <= StepInOctave(q) <= 13;
    if p.octave > q.octave {
      assert 24 * p.octave >= 24 * q.octave + 24;
    } else if p.octave < q.octave {
      assert 24 * q.octave >= 24 * p.octave + 24;
    }
  }

  /** The same letter and accidental in a higher octave compares as higher. */
  lemma HigherOctaveIsHigher(letter: nat, accidental: int, low: nat, high: nat)
    requires letter < 7 && -1 <= accidental <= 1 && low < high < 10
    ensures ComparePitch(PitchName(Pitch(letter, accidental, high)), PitchName(Pitch(letter, accidental, low))) == 1
  {
    CompareIsScoreOrder(Pitch(letter, accidental, high), Pitch(letter, accidental, low));
  }

  /** The three octave choices for a natural letter come in rising order. */
  lemma OctaveChoicesRise(letter: nat)
    requires letter < 7
    ensures var choices := GetOctaveChoices([LetterOf(letter)]);
            ComparePitch(choices[1], choices[0]) == 1 && ComparePitch(choices[2], choices[1]) == 1
  {
    var choices := GetOctaveChoices([LetterOf(letter)]);
    assert choices[0] == PitchName(Pitch(letter, 0, 3));
    assert choices[1] == PitchName(Pitch(letter, 0, 4));
    assert choices[2] == PitchName(Pitch(letter, 0, 5));
    HigherOctaveIsHigher(letter, 0, 3, 4);
    HigherOctaveIsHigher(letter, 0, 4, 5);
  }

  /** A sharp meets the flat of the next letter up: D#4 and Eb4 are level. */
  lemma SharpMeetsNextFlat(letter: nat, octave: nat)
    requires letter < 6 && octave < 10
    ensures ComparePitch(PitchName(Pitch(letter, 1, octave)), PitchName(Pitch(letter + 1, -1, octave))) == 0
  {
    CompareIsScoreOrder(Pitch(letter, 1, octave), Pitch(letter + 1, -1, octave));
  }

  /** Anything that does not parse is as high as C0, the lowest natural pitch. */
  lemma UnparsedIsLevelWithC0(note: string)
    requires ParsePitch(note) == None
    ensures ComparePitch(note, PitchName(Pitch(0, 0, 0))) == 0
  {
    ParsePitchName(Pitch(0, 0, 0));
  }
}
