/**
 * Note labels in the user's notation system: Latin letters (C D E ...) are
 * shown as written, solfège replaces the letter by Do Re Mi Fa Sol La Si and
 * keeps the accidental and the octave.
 */
module NoteLabels {
  import opened Wrappers
  import opened Text

  datatype NotationSystem = Latin | Solfege

  /** The solfège syllable of an upper-case note letter. */
  function SolfegeBase(letter: char): (base: Option<string>)
    ensures base.Some? <==> 'A' <= letter <= 'G'
  {
    match letter
    case 'C' => Some("Do") case 'D' => Some("Re") case 'E' => Some("Mi") case 'F' => Some("Fa")
    case 'G' => Some("Sol") case 'A' => Some("La") case 'B' => Some("Si")
    case _ => None
  }

  predicate IsLetter(c: char) { 'A' <= Upper(c) <= 'G' }

  /** `-?\d*`: an optional minus sign followed by any number of digits, possibly none. */
  predicate IsOctavePart(s: string)
  {
    if s != [] && s[0] == '-' then AllDigits(s[1..]) else AllDigits(s)
  }

  /**
   * `/^([A-G])([#b]?)(-?\d*)$/i`: a letter, an optional accidental and an
   * octave part. Under the `i` flag the letter may be lower case and the
   * accidental class `[#b]` also admits 'B'.
   */
  predicate MatchesNote(note: string)
  {
    |note| >= 1 && IsLetter(note[0])
    && (IsOctavePart(note[1..])
        || (|note| >= 2 && (note[1] == '#' || note[1] == 'b' || note[1] == 'B') && IsOctavePart(note[2..])))
  }

  /**
   * The label of `note` in `system`: unchanged in Latin, when empty or when it
   * is not a note; otherwise the syllable of its letter followed by the
   * accidental and octave exactly as written.
   */
  function GetNoteLabel(note: string, system: NotationSystem): (shown: string)
    ensures system == Latin || note == [] || !MatchesNote(note) ==> shown == note
    ensures system == Solfege && MatchesNote(note) ==>
              SolfegeBase(Upper(note[0])).Some? && shown == SolfegeBase(Upper(note[0])).value + note[1..]
  {
    if system == Latin || note == [] then note
    else if !MatchesNote(note) then note
    else
      match SolfegeBase(Upper(note[0]))
      case Some(solfegeBase) => solfegeBase + note[1..]
      case None => note
  }

  /** The letter whose syllable begins `shown`, and the length of that syllable. */
  function SyllableAt(shown: string): Option<(char, nat)>
  {
    if |shown| < 2 then None
    else if shown[..2] == "Do" then Some(('C', 2))
    else if shown[..2] == "Re" then Some(('D', 2))
    else if shown[..2] == "Mi" then Some(('E', 2))
    else if shown[..2] == "Fa" then Some(('F', 2))
    else if |shown| >= 3 && shown[..3] == "Sol" then Some(('G', 3))
    else if shown[..2] == "La" then Some(('A', 2))
    else if shown[..2] == "Si" then Some(('B', 2))
    else None
  }

  /** Reads a solfège label back into the Latin note it names. */
  function FromSolfege(shown: string): (note: Option<string>)
  {
    match SyllableAt(shown)
    case None => None
    case Some((letter, n)) => if n <= |shown| then Some([letter] + shown[n..]) else None
  }

  /** Every syllable is recognised at the head of a label, whatever follows it. */
  lemma SyllableOfBase(c: char, rest: string)
    requires 'A' <= c <= 'G'
    ensures SyllableAt(SolfegeBase(c).value + rest) == Some((c, |SolfegeBase(c).value|))
  {
    var shown := SolfegeBase(c).value + rest;
    match c
    case 'C' => assert shown[..2] == "Do";
    case 'D' => assert shown[..2] == "Re";
    case 'E' => assert shown[..2] == "Mi";
    case 'F' => assert shown[..2] == "Fa";
    case 'G' => assert shown[..2] == "So" && shown[..3] == "Sol";
    case 'A' => assert shown[..2] == "La";
    case 'B' => assert shown[..2] == "Si" && shown[1] == 'i';
    case _ => assert false;
  }

  /**
   * The solfège label loses nothing: a note with an upper-case letter is read
   * back from its label, accidental and octave included ("F#3" to "Fa#3" and back).
   */
  lemma SolfegeRoundTrip(note: string)
    requires MatchesNote(note) && 'A' <= note[0] <= 'G'
    ensures FromSolfege(GetNoteLabel(note, Solfege)) == Some(note)
  {
    var base := SolfegeBase(note[0]).value;
    assert Upper(note[0]) == note[0];
    SyllableOfBase(note[0], note[1..]);
    assert (base + note[1..])[|base|..] == note[1..];
    assert [note[0]] + note[1..] == note;
  }

  /** Letter case does not matter: "c4" and "C4" have the same solfège label. */
  lemma LetterCaseIgnored(note: string)
    requires MatchesNote(note) && 'a' <= note[0] <= 'g'
    ensures var upper := [Upper(note[0])] + note[1..];
            MatchesNote(upper) && GetNoteLabel(note, Solfege) == GetNoteLabel(upper, Solfege)
  {
    var upper := [Upper(note[0])] + note[1..];
    assert upper[1..] == note[1..];
    assert Upper(upper[0]) == Upper(note[0]);
  }
}
