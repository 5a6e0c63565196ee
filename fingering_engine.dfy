/**
 * Flute fingerings: a note is normalised (capital first letter, the flats
 * Db Eb Gb Ab Bb respelled as sharps) and looked up in the table of the
 * chosen flute, falling back to the note as given and then to its upper case.
 * The fingering table itself is a parameter.
 */
module FingeringEngine {
  import opened Wrappers
  import opened Text

  /** The flats that are respelled, each as the sharp of the letter below. */
  const FLATS_MAP: map<string, string> := map["Db" := "C#", "Eb" := "D#", "Gb" := "F#", "Ab" := "G#", "Bb" := "A#"]

  /** `/^([A-G]b)(\d*)$/`: a capital letter, a 'b', then only digits. */
  predicate IsFlatNote(s: string)
  {
    |s| >= 2 && 'A' <= s[0] <= 'G' && s[1] == 'b' && AllDigits(s[2..])
  }

  /** The note with its first character upper-cased and the rest as given. */
  function Capitalize(note: string): (r: string)
    requires note != []
    ensures |r| == |note| && r[0] == Upper(note[0]) && r[1..] == note[1..]
  {
    [Upper(note[0])] + note[1..]
  }

  /** `normalizeNote` of the fingering engine. */
  function NormalizeNote(note: string): (r: string)
    ensures note == [] ==> r == []
    ensures note != [] && !(IsFlatNote(Capitalize(note)) && Capitalize(note)[..2] in FLATS_MAP) ==> r == Capitalize(note)
    ensures note != [] && IsFlatNote(Capitalize(note)) && Capitalize(note)[..2] in FLATS_MAP ==>
              r == FLATS_MAP[Capitalize(note)[..2]] + note[2..]
  {
    if note == [] then []
    else
      var normalized := Capitalize(note);
      if 'b' in normalized && IsFlatNote(normalized) && normalized[..2] in FLATS_MAP then
        FLATS_MAP[normalized[..2]] + normalized[2..]
      else
        normalized
  }

  /** Db4 becomes C#4: a respelled flat keeps its octave digits. */
  lemma FlatBecomesSharp(flat: string, octave: string)
    requires flat in FLATS_MAP && AllDigits(octave)
    ensures NormalizeNote(flat + octave) == FLATS_MAP[flat] + octave
  {
    var note := flat + octave;
    assert |flat| == 2 && 'A' <= flat[0] <= 'G' && flat[1] == 'b';
    assert Capitalize(note) == note;
    assert note[..2] == flat && note[2..] == octave;
  }

  /** Normalising a normalised note changes nothing more. */
  lemma NormalizeIdempotent(note: string)
    ensures NormalizeNote(NormalizeNote(note)) == NormalizeNote(note)
  {
    if note != [] {
      var once := NormalizeNote(note);
      var normalized := Capitalize(note);
      if IsFlatNote(normalized) && normalized[..2] in FLATS_MAP {
        var sharp := FLATS_MAP[normalized[..2]];
        assert |sharp| == 2 && 'A' <= sharp[0] <= 'G' && sharp[1] == '#';
        assert once == sharp + note[2..];
        assert Capitalize(once) == once;
        assert !IsFlatNote(once);
      } else {
        assert Capitalize(once) == once;
        assert Capitalize(once)[..] == normalized;
      }
    }
  }

  /**
   * `getFingering`: no table for this flute gives none; otherwise the first
   * key that the table holds among the normalised note, the note as given and
   * its upper case.
   */
  function GetFingering<F>(fingeringData: map<string, map<string, F>>, note: string, fluteType: string): (r: Option<F>)
    ensures fluteType !in fingeringData ==> r == None
    ensures fluteType in fingeringData ==>
              var table := fingeringData[fluteType];
              r == (if NormalizeNote(note) in table then Some(table[NormalizeNote(note)])
                    else if note in table then Some(table[note])
                    else if UpperStr(note) in table then Some(table[UpperStr(note)])
                    else None)
  {
    if fluteType !in fingeringData then None
    else
      var fluteData := fingeringData[fluteType];
      var targetNote := NormalizeNote(note);
      var fingering := if targetNote in fluteData then Some(fluteData[targetNote]) else None;
      var fingering := if fingering.None? && note in fluteData then Some(fluteData[note]) else fingering;
      var fingering := if fingering.None? && UpperStr(note) in fluteData then Some(fluteData[UpperStr(note)]) else fingering;
      fingering
  }

  /** A fingering is found exactly when one of the three keys is in the flute's table. */
  lemma FoundIffSomeKeyListed<F>(fingeringData: map<string, map<string, F>>, note: string, fluteType: string)
    ensures GetFingering(fingeringData, note, fluteType).Some? <==>
              fluteType in fingeringData
              && (NormalizeNote(note) in fingeringData[fluteType] || note in fingeringData[fluteType]
                  || UpperStr(note) in fingeringData[fluteType])
    ensures GetFingering(fingeringData, note, fluteType).Some? ==>
              GetFingering(fingeringData, note, fluteType).value in fingeringData[fluteType].Values
  {
  }

  /**
   * A flat and the sharp it names share a fingering whenever the table lists
   * the sharp: Db4 finds the entry of C#4.
   */
  lemma FlatSharesSharpFingering<F>(fingeringData: map<string, map<string, F>>, flat: string, octave: string, fluteType: string)
    requires flat in FLATS_MAP && AllDigits(octave)
    requires fluteType in fingeringData && FLATS_MAP[flat] + octave in fingeringData[fluteType]
    ensures GetFingering(fingeringData, flat + octave, fluteType) == GetFingering(fingeringData, FLATS_MAP[flat] + octave, fluteType)
    ensures GetFingering(fingeringData, flat + octave, fluteType) == Some(fingeringData[fluteType][FLATS_MAP[flat] + octave])
  {
    FlatBecomesSharp(flat, octave);
    var sharp := FLATS_MAP[flat] + octave;
    assert |FLATS_MAP[flat]| == 2 && 'A' <= sharp[0] <= 'G' && sharp[1] == '#';
    assert Capitalize(sharp) == sharp;
    assert NormalizeNote(sharp) == sharp;
  }
}
