# Music theory trainer core, in Dafny

This project models the logic core of a music-theory learning app written in
TypeScript and React. It covers:

- **Note arithmetic**: parsing scientific pitch names such as `C#4`; the
  guitar fretboard (which note sounds at a string and fret, and where a note
  can be played); chord detection from a set of notes; pitch comparison and
  octave choices for the mini-games; solfège labels; bamboo-flute
  ("sáo trúc") fingering lookup.
- **Notation**: conversion to ABC notation and the ABC editor store with its
  bounded undo history. It also covers the chromatic-range tune built by the
  staff range page.
- **Lesson content**: splitting a lesson into sections, parsing the
  `{{abc:…|…}}`, `{{piano:…|…}}` and `{{quiz:…|…|…}}` blocks of a section, and
  reading markdown tables.
- **Scoring and progress**: rhythm scoring, game stars, the progress store
  (completion, streaks, best scores, module percentages), and the merge of
  local and cloud progress.
- **The other stores**: audio, bug report, settings, modules and floating
  instruments. It also covers the course, practice-library and game-config
  helpers.

Each source file is one Dafny module; `Wrappers` (Option/Result) and `Text` hold
the shared string machinery. `Text` has JavaScript's `trim`, `split`, `join` and
decimal formatting, with ASCII case mapping.

The form follows the source:

- **Stores.** Each zustand store becomes a `class`. Its fields are the state;
  each action is a method whose `ensures` gives the new state as a pure
  transition function. The lemmas are stated about those functions.
- **Pure helpers.** These become functions with contracts and lemmas.
- **Loops.** The source's loops become methods with loop invariants, proved
  against a specification function. Examples are the fretboard scan, interval
  collection, the regex `exec` loops, block assembly, the chromatic walk and
  the progress merge.

Clocks, random ids, audio output, timers, persistence and the network are
left out. Where their values matter (a timestamp, today's date) they are
parameters.

## Model

| member | source | states |
|---|---|---|
| GuitarLogic.ParseNote | src/utils/guitar-logic.ts:12-19 | a parsed note's name is a letter A-G with an optional '#' or 'b', and the input starts with it; an empty input or one not starting with a letter A-G gives no note |
| GuitarLogic.ParseNoteRoundTrip | src/utils/guitar-logic.ts:12-19 | a note name followed by any rendered octave, negative ones included, parses back to exactly that name and octave |
| GuitarLogic.NoteIndex | src/utils/guitar-logic.ts:34 | `NOTES.indexOf`: -1 exactly for a name outside the chromatic list, otherwise the index of that name |
| GuitarLogic.OpenPitch | src/utils/guitar-logic.ts:29-34 | each open string has a chromatic index in 0..11 |
| GuitarLogic.OpenStringParses | src/utils/guitar-logic.ts:7 | every tuning note is a chromatic name followed by its octave and parses back to them |
| GuitarLogic.PitchAt | src/utils/guitar-logic.ts:37-39 | the pitch at a position has a chromatic index in 0..11 |
| GuitarLogic.NoteAtPosition | src/utils/guitar-logic.ts:26-42 | `getNoteAtPosition`; its partner lemmas state that it is empty exactly off the six strings (EmptyOnlyOffTheBoard), that a real fret gives the open pitch raised by the fret (NoteAtPositionPitch), and that fret 0 gives the tuning note |
| GuitarLogic.Transposed | src/utils/guitar-logic.ts:37-41 | the floor-and-remainder step; TransposedPitch states that for a non-negative fret it names the chromatic step and octave that spell the same number of semitones |
| GuitarLogic.NoteIndexOfNote | src/utils/guitar-logic.ts:3 | each chromatic name is found at its own index and is a valid note name |
| GuitarLogic.TransposedPitch | src/utils/guitar-logic.ts:37-41 | raising a note by `fret` semitones gives the name and octave of 12 * octave + index + fret |
| GuitarLogic.NoteAtPositionPitch | src/utils/guitar-logic.ts:26-42 | on a real string and fret the note is the open pitch raised by `fret` semitones |
| GuitarLogic.EmptyOnlyOffTheBoard | src/utils/guitar-logic.ts:27-35 | the empty note comes back exactly when the string index is outside the six strings |
| GuitarLogic.OpenStringIsTuningNote | src/utils/guitar-logic.ts:26-42 | fret 0 sounds the string's tuning note (as pinned in src/utils/guitar-logic.test.ts:20-23) |
| GuitarLogic.ShiftByOctave | src/utils/guitar-logic.ts:38-39 | twelve more semitones keep the note index and add one octave |
| GuitarLogic.TwelveFretsIsAnOctave | src/utils/guitar-logic.ts:37-41 | twelve frets up is the same note name one octave higher (src/utils/guitar-logic.test.ts:41-44) |
| GuitarLogic.SameCell | src/utils/guitar-logic.ts:55-57 | two board cells at the same place in the search order are the same cell |
| GuitarLogic.MatchesBeforeProperties | src/utils/guitar-logic.ts:55-63 | what the nested loops have collected by a given (string, fret) is exactly the matching cells before it, in search order |
| GuitarLogic.GetPositionsForNote | src/utils/guitar-logic.ts:48-66 | an unparseable target gives no positions; otherwise every position plays the target, every in-range position that plays it is listed, and they come string by string with frets ascending |
| GuitarLogic.ScanBoard | src/utils/guitar-logic.ts:55-63 | the nested loops over strings 0..5 and frets 0..15 collect exactly the matching cells, in order |
| GuitarLogic.VisitCell | src/utils/guitar-logic.ts:58-61 | one loop step adds the current cell when it plays the target and nothing otherwise |
| GuitarLogic.AllMatches | src/utils/guitar-logic.ts:55-63 | the finished search holds exactly the in-range cells that play the target, in search order |
| ChordDetection.StripDigits | src/utils/chord-detection.ts:30 | removing digits leaves no digit and never lengthens the name |
| ChordDetection.NormalizeNote | src/utils/chord-detection.ts:29-33 | a normalised note holds no digit |
| ChordDetection.ChromaticIndex | src/utils/chord-detection.ts:38-41 | the chromatic index is -1 or the index of that exact name |
| ChordDetection.ChromaticIndexOf | src/utils/chord-detection.ts:11 | each chromatic name is found at its own index |
| ChordDetection.Interval | src/utils/chord-detection.ts:57-59 | an interval above the root is always in 0..11 |
| ChordDetection.IntervalsAbove | src/utils/chord-detection.ts:55-61 | every interval collected is in 0..11 |
| ChordDetection.IntervalsAboveNext | src/utils/chord-detection.ts:55-61 | each loop step adds the next note's interval to the set |
| ChordDetection.UniqueNotes | src/utils/chord-detection.ts:49-50 | the de-duplicated names hold no duplicates; they are exactly the normalised inputs, and the first input's name comes first |
| ChordDetection.GetIntervalSet | src/utils/chord-detection.ts:46-64 | the set is empty exactly for no notes; otherwise it contains 0 (the root) and only intervals in 0..11 |
| ChordDetection.CollectIntervals | src/utils/chord-detection.ts:55-61 | the loop collects the intervals of all unique notes above the root |
| ChordDetection.SubsetOfSameSize | src/utils/chord-detection.ts:69-75 | a subset as large as its superset equals it |
| ChordDetection.HasMember | src/utils/chord-detection.ts:69-75 | a non-empty set has a member |
| ChordDetection.IntervalsMatch | src/utils/chord-detection.ts:69-75 | the size check plus the membership loop answers true exactly when the two sets are equal |
| ChordDetection.DetectQuality | src/utils/chord-detection.ts:98-105 | the loop over the chord patterns returns the quality the specification function assigns |
| ChordDetection.QualityInFound | src/utils/chord-detection.ts:98-105 | the quality found is empty or the name of a pattern with exactly these intervals; if some named pattern matches, a quality is found |
| ChordDetection.PatternSignatures | src/utils/chord-detection.ts:80-93 | the table of pattern fingerprints lines up with the chord patterns |
| ChordDetection.NoQuality | src/utils/chord-detection.ts:98-105 | intervals whose fingerprint is no pattern's get no quality |
| ChordDetection.PatternsDistinct | src/utils/chord-detection.ts:80-93 | no two chord patterns share an interval set, and every pattern has a name |
| ChordDetection.QualityIsThePattern | src/utils/chord-detection.ts:98-105 | a quality is detected for a set of intervals exactly when (quality, intervals) is one of the patterns |
| ChordDetection.DetectChordFromNotes | src/utils/chord-detection.ts:113-162 | fewer than three notes or fewer than three distinct pitch names give no chord; otherwise the result is the first root (in input order) whose intervals form a pattern, with the pattern's suffix |
| ChordDetection.ChordOf | src/utils/chord-detection.ts:113-162 | the chord `detectChordFromNotes` names; DetectChordFromNotes is proved equal to it, and ChordIgnoresOctaves, RespellingKeepsChord and the triad lemmas state its properties |
| ChordDetection.ChordFromRoots | src/utils/chord-detection.ts:120-160 | the first root with a quality, named with its suffix; ChordFromRootsShape and RootQuality state the result's shape |
| ChordDetection.RootQuality | src/utils/chord-detection.ts:123-132 | one root's quality is the quality of the intervals of all unique notes above it |
| ChordDetection.ChordFromRootsShape | src/utils/chord-detection.ts:122-159 | a detected chord is some candidate root followed by the suffix of its non-empty quality |
| ChordDetection.DetectedChordHasARoot | src/utils/chord-detection.ts:113-162 | a detected chord is root + suffix for a root among the notes whose intervals are a listed pattern |
| ChordDetection.StripDigitsAppend | src/utils/chord-detection.ts:30 | digits appended to a name are removed |
| ChordDetection.StripDigitsOfDigits | src/utils/chord-detection.ts:30 | a string of digits strips to the empty string |
| ChordDetection.OctaveIsIgnored | src/utils/chord-detection.ts:29-33 | a name with any octave normalises like the bare name |
| ChordDetection.EnharmonicSpelling | src/utils/chord-detection.ts:14-24 | each flat (or E#, B#) spelling normalises to its sharp equivalent, which is a chromatic name and has the same semitone |
| ChordDetection.EnharmonicValues | src/utils/chord-detection.ts:14-24 | every enharmonic target is on the chromatic scale |
| ChordDetection.NormalizeIdempotent | src/utils/chord-detection.ts:29-33 | normalising twice is normalising once |
| ChordDetection.NoDigitsStrip | src/utils/chord-detection.ts:30 | a name without digits is left alone |
| ChordDetection.GetVoicingForNotes | src/utils/chord-detection.ts:167-172 | a voicing comes back exactly when a non-empty chord is detected and listed, and it is that chord's voicing |
| ChordDetection.IsKnownChord | src/utils/chord-detection.ts:177-179 | true exactly when a chord is detected |
| ChordDetection.IntervalsAboveThree | src/utils/chord-detection.ts:55-61 | three notes give the set of their three intervals |
| ChordDetection.SameNamesSameChord | src/utils/chord-detection.ts:113-162 | inputs with the same normalised names, position by position, get the same chord |
| ChordDetection.ChordIgnoresOctaves | src/utils/chord-detection.ts:113-162 | changing the octaves of the notes never changes the chord detected |
| ChordDetection.RespellingKeepsChord | src/utils/chord-detection.ts:14-33 | respelling one note enharmonically (Db4 as C#4) keeps the chord |
| ChordDetection.ChordOfTriple | src/utils/chord-detection.ts:113-162 | three distinct pitch names are tried as roots in input order |
| ChordDetection.EnharmonicKeys | src/utils/chord-detection.ts:14-24 | every enharmonic key is a letter with 'b', or E#/B# |
| ChordDetection.EnharmonicKeysKeptByStrip | src/utils/chord-detection.ts:30 | no enharmonic key loses characters to digit stripping |
| ChordDetection.AccidentalKeptByStrip | src/utils/chord-detection.ts:30 | a letter with an accidental is kept by digit stripping |
| ChordDetection.ChromaticShape | src/utils/chord-detection.ts:11 | each chromatic name is a letter or a letter and '#' (never E# or B#), without digits |
| ChordDetection.ChromaticSemitone | src/utils/chord-detection.ts:38-41 | a chromatic name normalises to itself and has its index as semitone |
| ChordDetection.RootPositionChord | src/utils/chord-detection.ts:122-159 | when the first note's intervals form a pattern, it is the root |
| ChordDetection.TriadPatterns | src/utils/chord-detection.ts:80-93 | the major pattern is {0,4,7} with no suffix, the minor one {0,3,7} with suffix "m" |
| ChordDetection.RootPositionTriad | src/utils/chord-detection.ts:113-162 | three distinct notes whose first note's intervals form a pattern are named after that note |
| ChordDetection.StepAndBack | src/utils/chord-detection.ts:57-59 | going up d semitones and measuring back from the start gives d |
| ChordDetection.IntervalOfStep | src/utils/chord-detection.ts:57-59 | a note d semitones above the root has interval d |
| ChordDetection.ChromaticDistinct | src/utils/chord-detection.ts:11 | different chromatic indices name different notes |
| ChordDetection.TriadOn | src/utils/chord-detection.ts:113-162 | the root, third and fifth on any chromatic root are distinct and give intervals {0, third, 7} |
| ChordDetection.TriadIntervalSet | src/utils/chord-detection.ts:46-64 | notes at root, root + third and root + 7 have intervals {0, third, 7} above the root |
| ChordDetection.MajorTriadOnAnyRoot | src/utils/chord-detection.ts:113-162 | root, major third and fifth in root position are detected as the root's major chord, on every root |
| ChordDetection.MinorTriadOnAnyRoot | src/utils/chord-detection.ts:113-162 | root, minor third and fifth in root position are detected as the root's minor chord ("m"), on every root |
| Module12Games.CalculateStars | src/data/module-12-games.ts:156-161 | 3 stars exactly from 100%, at least 2 exactly from 80%, at least 1 exactly from 60%, never more than 3 |
| Module12Games.StarsMonotone | src/data/module-12-games.ts:156-161 | a higher percentage never earns fewer stars |
| Module12Games.GetOctaveChoices | src/data/module-12-games.ts:167-169 | three choices: the letter followed by octave 3, 4 and 5, in that order |
| Module12Games.LetterValue | src/data/module-12-games.ts:181 | a letter's place in "CDEFGAB", -1 exactly for a character outside A-G |
| Module12Games.LetterOf | src/data/module-12-games.ts:181 | the letter at each place of "CDEFGAB" has that place |
| Module12Games.ParsePitch | src/data/module-12-games.ts:176-186 | a parsed pitch has a letter place 0..6, an accidental of -1, 0 or +1 and a single-digit octave |
| Module12Games.ParsePitchName | src/data/module-12-games.ts:177 | writing a pitch out and parsing it gives the same pitch |
| Module12Games.PitchNameOfParse | src/data/module-12-games.ts:177 | a string that parses is exactly the name of its pitch |
| Module12Games.ComparePitch | src/data/module-12-games.ts:175-194 | 1 when the first note's key is higher, -1 when lower, 0 otherwise (an unparseable note counts as key 0) |
| Module12Games.PitchKey | src/data/module-12-games.ts:176-186 | the pitch value, doubled to stay an integer; CompareIsScoreOrder and CompareTransitive state the order it induces |
| Module12Games.CompareAntisymmetric | src/data/module-12-games.ts:188-193 | swapping the notes negates the answer; a note equals itself |
| Module12Games.CompareTransitive | src/data/module-12-games.ts:188-193 | "at least as high" is transitive, and a chain is level only if both steps are |
| Module12Games.CompareIsScoreOrder | src/data/module-12-games.ts:182-184 | pitches are ordered by octave first, then by letter place (each letter one step, so E to F counts as much as C to D), a sharp half a step up and a flat half a step down |
| Module12Games.HigherOctaveIsHigher | src/data/module-12-games.ts:182 | the same letter and accidental in a higher octave compares higher |
| Module12Games.OctaveChoicesRise | src/data/module-12-games.ts:167-194 | the three octave choices for a letter compare strictly rising |
| Module12Games.SharpMeetsNextFlat | src/data/module-12-games.ts:182-184 | a sharp compares level with the next letter's flat (C# and Db), as the half-step keys make them |
| Module12Games.UnparsedIsLevelWithC0 | src/data/module-12-games.ts:178 | a note the pattern rejects compares level with C0 |
| GameLevels.FindLevel | src/data/game-levels.ts:114-116 | `find` by id: none exactly when no level has the id, otherwise the first level with it |
| GameLevels.GetLevel | src/data/game-levels.ts:114-116 | `getLevel`: a found level is one of the game's levels and has the id; none exactly when no level has it |
| GameLevels.GetLevelByNumber | src/data/game-levels.ts:31-116 | levels 1 to 7 are found at their position, any other id gives none |
| GameLevels.FindNumbered | src/data/game-levels.ts:114-116 | in a list numbered 1, 2, …, looking up id n gives the n-th entry when it exists and nothing otherwise |
| GameLevels.OctaveNote | src/data/game-levels.ts:122 | a listed letter gets its staff octave, any other name gets octave 4 appended |
| GameLevels.OctaveNoteShape | src/data/game-levels.ts:20-28 | the octave added is 5 for C and D and 4 otherwise |
| GameLevels.GetLevelNotes | src/data/game-levels.ts:121-123 | one note per level note, each with its octave added, in order |
| GameLevels.StaffNote | src/data/game-levels.ts:20-28 | every listed octave note is a natural between E4 and D5 |
| GameLevels.LevelNotesOnTheStaff | src/data/game-levels.ts:31-123 | every note of every level compares between E4 and D5, inside the treble staff |
| GameLevels.CalculateStars | src/data/game-levels.ts:128-133 | between 0 and 3 stars: 3 exactly from 100%, at least 2 exactly from 80%, at least 1 exactly from 60% |
| GameLevels.LevelStarsMonotone | src/data/game-levels.ts:128-133 | a higher percentage never earns fewer stars; at least one star exactly from 60% |
| NoteLabels.SolfegeBase | src/utils/note-labels.ts:3-11 | a syllable exists exactly for the letters A-G |
| NoteLabels.GetNoteLabel | src/utils/note-labels.ts:17-44 | Latin, the empty note and non-notes are shown unchanged; a note in solfège is its letter's syllable (either case) followed by the accidental and octave exactly as written |
| NoteLabels.FromSolfege | src/utils/note-labels.ts:17-44 | the inverse of the solfège label; SolfegeRoundTrip states that it reads every label back to its note |
| NoteLabels.SyllableOfBase | src/utils/note-labels.ts:3-11 | each syllable is recognised at the start of a label, with its length |
| NoteLabels.SolfegeRoundTrip | src/utils/note-labels.ts:17-44 | an upper-case note's solfège label reads back to the note |
| NoteLabels.LetterCaseIgnored | src/utils/note-labels.ts:27-33 | a lower-case letter is labelled like its upper-case form |
| ScoringEngine.Abs | src/services/ScoringEngine.ts:25 | the absolute value is non-negative and is x or -x |
| ScoringEngine.Compare | src/services/ScoringEngine.ts:23-49 | the time delta is actual - expected; within 50 ms a Perfect (100 points, "Perfect!"); within 100 ms 50 points, Early before the beat and Late from it; beyond that a Miss (0 points) |
| ScoringEngine.ScoreNeverRisesWithDistance | src/services/ScoringEngine.ts:27-47 | a larger timing error never scores more |
| ScoringEngine.EarlyAndLateScoreAlike | src/services/ScoringEngine.ts:27-47 | being off by the same amount early or late scores the same |
| FingeringEngine.Capitalize | src/features/sao-truc/logic/fingering-engine.ts:13 | the first character is upper-cased and the rest kept |
| FingeringEngine.NormalizeNote | src/features/sao-truc/logic/fingering-engine.ts:7-39 | empty stays empty; a capitalised flat Db, Eb, Gb, Ab or Bb with only digits after it becomes its sharp followed by the same octave; anything else is only capitalised |
| FingeringEngine.FlatBecomesSharp | src/features/sao-truc/logic/fingering-engine.ts:16-36 | each mapped flat with an octave normalises to its sharp with that octave |
| FingeringEngine.NormalizeIdempotent | src/features/sao-truc/logic/fingering-engine.ts:7-39 | normalising twice is normalising once |
| FingeringEngine.GetFingering | src/features/sao-truc/logic/fingering-engine.ts:41-62 | an unknown flute type gives none; otherwise the normalised note, then the raw note, then its upper-case form are tried in that order |
| FingeringEngine.FoundIffSomeKeyListed | src/features/sao-truc/logic/fingering-engine.ts:41-62 | a fingering comes back exactly when the flute type is known and one of the three spellings is listed, and it is one of that flute's fingerings |
| FingeringEngine.FlatSharesSharpFingering | src/features/sao-truc/logic/fingering-engine.ts:16-48 | a flat note gets the fingering listed for its sharp |
| NotationStore.SciName | src/stores/useNotationStore.ts:72 | a matched note is written back as letter, accidental and one octave digit |
| NotationStore.MatchNote | src/stores/useNotationStore.ts:72-76 | a match is a well-formed note (letter in either case, optional '#' or 'b', one digit) whose name is the input |
| NotationStore.MatchSciName | src/stores/useNotationStore.ts:72-76 | every well-formed note name is matched as itself |
| NotationStore.AccidentalPrefix | src/stores/useNotationStore.ts:97-101 | the prefix is at most one character |
| NotationStore.AbcPitch | src/stores/useNotationStore.ts:77-101 | an ABC pitch is never empty |
| NotationStore.AbcOf | src/stores/useNotationStore.ts:71-104 | a string that is not a note is returned unchanged |
| NotationStore.AbcPitchRoundTrip | src/stores/useNotationStore.ts:77-103 | reading an ABC pitch back (accidental prefix, letter case, apostrophes or commas) gives the letter upper-cased, the accidental and the octave |
| NotationStore.NoteToAbcRoundTrip | src/stores/useNotationStore.ts:71-104 | the conversion loses nothing but the case of the letter: the note reads back from its ABC form |
| NotationStore.NoteToAbcExamples | src/stores/useNotationStore.ts:69-73 | C4 is "C", C5 "c", C3 "C,", C6 "c'", F#4 "^F", Bb2 "_B,," and a non-note comes back as written |
| NotationStore.NoteToABC | src/stores/useNotationStore.ts:71-104 | the apostrophe and comma loops produce the pitch the specification function gives |
| NotationStore.NotationLines | src/stores/useNotationStore.ts:110-118 | the notation has seven lines |
| NotationStore.BuildNotationLines | src/stores/useNotationStore.ts:109-120 | split back at newlines, the text gives the title, meter, unit length, tempo (as a number), key and notes behind their field tags, when none holds a newline |
| NotationStore.BuildNotation | src/stores/useNotationStore.ts:109-120 | `buildNotation`; BuildNotationLines states that its seven lines read back to the header fields and the notes |
| NotationStore.NotationLinesSingle | src/stores/useNotationStore.ts:110-118 | no header line holds a newline when the fields do not |
| NotationStore.FieldLine | src/stores/useNotationStore.ts:112-116 | a field line is its two-character tag followed by the field |
| NotationStore.SignedDigitsSingleLine | src/stores/useNotationStore.ts:115 | a rendered tempo holds no newline |
| NotationStore.LastN | src/stores/useNotationStore.ts:144 | `slice(-n)`: the last n entries, or all of them when there are fewer |
| NotationStore.Record | src/stores/useNotationStore.ts:138-148 | an edit drops the redo entries after the current one and appends the new text; the history stays within 50 entries, the index points at the new entry, and the earlier entries are the newest ones up to the old index; the new index is one past the old, capped at 49, so up to 50 entries are kept |
| NotationStore.Undone | src/stores/useNotationStore.ts:236-245 | at index 0 or before nothing changes; otherwise the index moves back one and the text is that entry's; the history is kept |
| NotationStore.Redone | src/stores/useNotationStore.ts:248-257 | at the last entry nothing changes; otherwise the index moves forward one and the text is that entry's; the history is kept |
| NotationStore.RedoAfterUndo | src/stores/useNotationStore.ts:236-257 | redo after undo returns to the same entry |
| NotationStore.UndoAfterRedo | src/stores/useNotationStore.ts:236-257 | undo after redo returns to the same entry |
| NotationStore.UndoRevertsRecord | src/stores/useNotationStore.ts:138-148 | undo right after an edit restores the text before the edit |
| NotationStore.Cleared | src/stores/useNotationStore.ts:227-233 | clearing (as intended) empties the text and appends an empty entry, keeping the newest entries within the cap, with the index on the new entry, which is the old history length capped at 49 |
| NotationStore.ClearedAsWritten | src/stores/useNotationStore.ts:227-233 | clearing as written sets the index to the old history length, while the history is cut to 50 entries |
| NotationStore.ClearAsWrittenBelowCap | src/stores/useNotationStore.ts:227-233 | below 50 entries the written code clears as intended |
| NotationStore.ClearAsWrittenOverrunsAtCap | src/stores/useNotationStore.ts:227-233 | with 50 entries the written code leaves the index at 50, one past the last entry |
| NotationStore.ChordText | src/stores/useNotationStore.ts:151-153 | a chord is written between '[' and ']' |
| NotationStore.ChordToABC | src/stores/useNotationStore.ts:152-153 | the loop over the chord's notes gives the bracketed ABC pitches |
| NotationStore.DropLast | src/stores/useNotationStore.ts:189 | `slice(0, -1)`: empty stays empty, otherwise exactly the last character is removed |
| NotationStore.NotationEditor.constructor | src/stores/useNotationStore.ts:126-129 | the default header, no notes, no history and index -1 |
| NotationStore.NotationEditor.SetState | src/stores/useNotationStore.ts:122-135 | a rehydrated state that keeps the history invariant |
| NotationStore.NotationEditor.GetFullNotation | src/stores/useNotationStore.ts:132-135 | `getFullNotation`: the store's header and notes through BuildNotation, whose lines BuildNotationLines reads back |
| NotationStore.NotationEditor.AppendNote | src/stores/useNotationStore.ts:138-148 | the note's ABC form and duration are appended and the edit recorded |
| NotationStore.NotationEditor.AppendChord | src/stores/useNotationStore.ts:151-162 | the bracketed chord is appended and the edit recorded |
| NotationStore.NotationEditor.AppendRest | src/stores/useNotationStore.ts:165-175 | "z" and the duration are appended and the edit recorded |
| NotationStore.NotationEditor.AddBarLine | src/stores/useNotationStore.ts:178-182 | a spaced bar line is appended and the history is left alone |
| NotationStore.NotationEditor.Backspace | src/stores/useNotationStore.ts:185-194 | the last character is removed and the history is left alone |
| NotationStore.NotationEditor.SetTitle | src/stores/useNotationStore.ts:197-199 | only the title changes |
| NotationStore.NotationEditor.SetKey | src/stores/useNotationStore.ts:201-203 | only the key changes |
| NotationStore.NotationEditor.SetMeter | src/stores/useNotationStore.ts:205-207 | only the meter changes |
| NotationStore.NotationEditor.SetTempo | src/stores/useNotationStore.ts:209-211 | only the tempo changes |
| NotationStore.NotationEditor.SetUnitLength | src/stores/useNotationStore.ts:213-215 | only the unit length changes |
| NotationStore.NotationEditor.SetNotation | src/stores/useNotationStore.ts:218-224 | the text is replaced and the edit recorded |
| NotationStore.NotationEditor.Clear | src/stores/useNotationStore.ts:227-233 | clears as intended (see Findings), keeping the history invariant |
| NotationStore.NotationEditor.Undo | src/stores/useNotationStore.ts:236-245 | one step back through the history |
| NotationStore.NotationEditor.Redo | src/stores/useNotationStore.ts:248-257 | one step forward through the history |
| StaffRange.ScientificToPitch | src/components/MusicStaff/StaffRangeVisualTest.tsx:7-32 | a non-note is returned unchanged; a note gives a non-empty ABC pitch |
| StaffRange.StaffPitch | src/components/MusicStaff/StaffRangeVisualTest.tsx:13-31 | the pitch for a matched note; StaffPitchRoundTrip states that it determines the note, and StaffPitchIsOctaveAbove relates it to the store's ABC pitch |
| StaffRange.StaffPitchIsOctaveAbove | src/components/MusicStaff/StaffRangeVisualTest.tsx:21-31 | the staff page writes each note as the editor writes the note one octave higher (C4 as "c") |
| StaffRange.StaffPitchRoundTrip | src/components/MusicStaff/StaffRangeVisualTest.tsx:7-32 | the page's ABC pitch reads back to the letter, accidental and octave + 1 |
| StaffRange.StaffPitchExamples | src/components/MusicStaff/StaffRangeVisualTest.tsx:21-31 | C4 is "c", C3 "C", E2 "E," and C5 "c'" |
| StaffRange.AccidentalPitchExamples | src/components/MusicStaff/StaffRangeVisualTest.tsx:18-19 | C#4 is "^c" and Bb1 "_B,," |
| StaffRange.ChromaticName | src/components/MusicStaff/StaffRangeVisualTest.tsx:38 | each chromatic name is a letter, possibly followed by '#' |
| StaffRange.BaseIndex | src/components/MusicStaff/StaffRangeVisualTest.tsx:48 | a letter A-G is found at its natural's index, anything else gives -1 |
| StaffRange.NoteIndex | src/components/MusicStaff/StaffRangeVisualTest.tsx:47-52 | in 0..11: a natural at its own index, a sharp one above it (wrapping past B) |
| StaffRange.Position | src/components/MusicStaff/StaffRangeVisualTest.tsx:54-57 | the chromatic position 12 * octave + index is never negative |
| StaffRange.MatchRangeNote | src/components/MusicStaff/StaffRangeVisualTest.tsx:40-41 | a matched range note has an upper-case letter and a single-digit octave |
| StaffRange.RangeSciNote | src/components/MusicStaff/StaffRangeVisualTest.tsx:64-67 | the note the loop writes at a position has a letter, at most a sharp, and the loop's octave |
| StaffRange.RangeSciNotePosition | src/components/MusicStaff/StaffRangeVisualTest.tsx:64-67 | the note written at a position lies at that position |
| StaffRange.LoopPitchIsRangePitch | src/components/MusicStaff/StaffRangeVisualTest.tsx:64-68 | the ABC pitch of the string the loop builds is the range pitch at that position |
| StaffRange.RangePitchReadsBack | src/components/MusicStaff/StaffRangeVisualTest.tsx:64-68 | each pitch written reads back as the note one octave above its position |
| StaffRange.RangeCount | src/components/MusicStaff/StaffRangeVisualTest.tsx:63-76 | no notes when the start is past the end; otherwise one per chromatic step up to the end, capped at 101 |
| StaffRange.Walk | src/components/MusicStaff/StaffRangeVisualTest.tsx:63-77 | the walk visits `count` positions |
| StaffRange.SamePosition | src/components/MusicStaff/StaffRangeVisualTest.tsx:70-74 | a chromatic position determines octave and index |
| StaffRange.WalkStep | src/components/MusicStaff/StaffRangeVisualTest.tsx:70-74 | the walk is the current position followed by the walk from the next one |
| StaffRange.WalkSnoc | src/components/MusicStaff/StaffRangeVisualTest.tsx:68-74 | one more step appends the next position's note |
| StaffRange.WalkAt | src/components/MusicStaff/StaffRangeVisualTest.tsx:63-77 | the k-th note is the note k chromatic steps above the start |
| StaffRange.RangeNotesReadBack | src/components/MusicStaff/StaffRangeVisualTest.tsx:59-77 | each note of the run reads back as the note at its chromatic step, one octave up |
| StaffRange.RangeNotes | src/components/MusicStaff/StaffRangeVisualTest.tsx:63-77 | the pitches of the chromatic run; RangeNotesReadBack states that each reads back as its position, and ChromaticRun that the loop computes it |
| StaffRange.RangeEndsAtEnd | src/components/MusicStaff/StaffRangeVisualTest.tsx:63-77 | within the cap, the run starts at the start note and ends at the end note |
| StaffRange.Groups | src/components/MusicStaff/StaffRangeVisualTest.tsx:80-82 | groups of four notes, only the last possibly shorter, never empty |
| StaffRange.GroupsKeepOrder | src/components/MusicStaff/StaffRangeVisualTest.tsx:80-82 | the groups joined back are the notes in order |
| StaffRange.Measures | src/components/MusicStaff/StaffRangeVisualTest.tsx:79-82 | one measure per group, its notes joined by spaces |
| StaffRange.MeasuresStep | src/components/MusicStaff/StaffRangeVisualTest.tsx:80-82 | the measures from i are the next four notes followed by the measures after them |
| StaffRange.NextChromatic | src/components/MusicStaff/StaffRangeVisualTest.tsx:70-74 | one chromatic step up: the index wraps from 11 to 0 into the next octave |
| StaffRange.LoopPitch | src/components/MusicStaff/StaffRangeVisualTest.tsx:64-68 | the loop body's pitch is the range pitch |
| StaffRange.LoopTest | src/components/MusicStaff/StaffRangeVisualTest.tsx:63 | the loop condition holds exactly while the position is at most the end |
| StaffRange.BeforeRangeEnd | src/components/MusicStaff/StaffRangeVisualTest.tsx:63-76 | before the end and under the cap, more notes remain |
| StaffRange.AtRangeEnd | src/components/MusicStaff/StaffRangeVisualTest.tsx:63-76 | past the end or at the cap, the run is complete |
| StaffRange.AppendNext | src/components/MusicStaff/StaffRangeVisualTest.tsx:64-74 | one iteration appends the next note of the run and steps up |
| StaffRange.ChromaticRun | src/components/MusicStaff/StaffRangeVisualTest.tsx:59-77 | the while loop produces the chromatic run from start to end, capped |
| StaffRange.ShiftFirst | src/components/MusicStaff/StaffRangeVisualTest.tsx:80-82 | moving one element from the rest to the done part keeps the whole |
| StaffRange.PushMeasure | src/components/MusicStaff/StaffRangeVisualTest.tsx:81 | one iteration appends the next measure |
| StaffRange.MeasuresDone | src/components/MusicStaff/StaffRangeVisualTest.tsx:80-82 | when the index passes the end, every measure is built |
| StaffRange.MeasuresOf | src/components/MusicStaff/StaffRangeVisualTest.tsx:79-82 | the for loop builds exactly the measures |
| StaffRange.RangeTune | src/components/MusicStaff/StaffRangeVisualTest.tsx:59-89 | the tune holds the header and the measures of the capped chromatic run |
| StaffRange.RangeAbc | src/components/MusicStaff/StaffRangeVisualTest.tsx:79-89 | the tune text: the header, then the groups of four notes joined by bar lines and closed by a final bar |
| StaffRange.GenerateAbcForRange | src/components/MusicStaff/StaffRangeVisualTest.tsx:37-90 | a start or end note that does not match gives the error "Invalid note format"; otherwise the tune of the run from start to end |
| TheoryContent.SectionsAreTrimmed | src/components/modules/ProgressiveTheoryContent.tsx:29-34 | every section is non-empty, already trimmed and not blank |
| TheoryContent.SplitIntoSections | src/components/modules/ProgressiveTheoryContent.tsx:29-34 | no more sections than pieces of the split, and none empty; SectionsAreTrimmed and SectionsAreTheNonBlankPieces state the rest |
| TheoryContent.SectionsAreTheNonBlankPieces | src/components/modules/ProgressiveTheoryContent.tsx:29-34 | a piece between "\n---\n" separators yields a section exactly when it is not blank |
| TheoryContent.StripStar | src/components/modules/ProgressiveTheoryContent.tsx:81-85 | a starred option loses exactly its leading '*'; others are kept |
| TheoryContent.CorrectIndex | src/components/modules/ProgressiveTheoryContent.tsx:79-86 | the correct index is the last starred option, or 0 when none is starred |
| TheoryContent.QuizBlock | src/components/modules/ProgressiveTheoryContent.tsx:74-99 | a quiz block keeps question and explanation; its options are the ';'-separated trimmed options, with the '*' removed from a starred one |
| TheoryContent.TypedBlock | src/components/modules/ProgressiveTheoryContent.tsx:57-69 | a typed block is neither html nor quiz; an instrument block's notes are the ','-separated trimmed body |
| TheoryContent.BlockTypeAt | src/components/modules/ProgressiveTheoryContent.tsx:44 | a type found is one of abc, grandStaff, guitar, piano, flute, followed by ':' at that point |
| TheoryContent.FindChar | src/components/modules/ProgressiveTheoryContent.tsx:44-46 | the first occurrence of a character from a point on, or -1 when there is none |
| TheoryContent.FindDouble | src/components/modules/ProgressiveTheoryContent.tsx:44 | the first "}}" (or other doubled character) from a point on, or -1 |
| TheoryContent.LastDouble | src/components/modules/ProgressiveTheoryContent.tsx:46 | the last doubled character in a range, or -1 |
| TheoryContent.BlockMatchAt | src/components/modules/ProgressiveTheoryContent.tsx:44 | a block match starts with "{{", ends with "}}", is at least 9 characters, fits the content and holds a typed block |
| TheoryContent.QuizTailAt | src/components/modules/ProgressiveTheoryContent.tsx:46 | the options end before the closing "}}"; without an explanation the match closes right after the options |
| TheoryContent.QuizMatchAt | src/components/modules/ProgressiveTheoryContent.tsx:46 | a quiz match starts with "{{quiz:", is at least 12 characters, fits the content and holds a quiz block |
| TheoryContent.MatchAt | src/components/modules/ProgressiveTheoryContent.tsx:44-46 | a match of either pattern starts where asked, fits the content and is never html |
| TheoryContent.PatternsStartApart | src/components/modules/ProgressiveTheoryContent.tsx:44-46 | the two patterns never match at the same index |
| TheoryContent.Matcher | src/components/modules/ProgressiveTheoryContent.tsx:44-46 | each pattern's matches start where asked and stay inside the content |
| TheoryContent.Scan | src/components/modules/ProgressiveTheoryContent.tsx:55-100 | the `exec` loop's matches are matches of the pattern, in order and without overlap |
| TheoryContent.CoveredCons | src/components/modules/ProgressiveTheoryContent.tsx:56 | a match position covered by the later matches stays covered |
| TheoryContent.ScanIsLeftmost | src/components/modules/ProgressiveTheoryContent.tsx:56 | every place where the pattern matches is found or lies inside an earlier match |
| TheoryContent.ScanMatches | src/components/modules/ProgressiveTheoryContent.tsx:55-71 | the `while (exec)` loop collects exactly the scan's matches |
| TheoryContent.MergeByIndex | src/components/modules/ProgressiveTheoryContent.tsx:102 | the merged list is a permutation of both lists together |
| TheoryContent.MergeIndexAbove | src/components/modules/ProgressiveTheoryContent.tsx:102 | merging keeps a lower bound on the indices |
| TheoryContent.DropFirst | src/components/modules/ProgressiveTheoryContent.tsx:102 | the rest of a strictly ordered list stays ordered and disjoint, above its head |
| TheoryContent.AboveFirst | src/components/modules/ProgressiveTheoryContent.tsx:102 | everything in an ordered list is above a bound below its head |
| TheoryContent.StrictlyCons | src/components/modules/ProgressiveTheoryContent.tsx:102 | a smaller head keeps a list strictly ordered |
| TheoryContent.MergeStrictly | src/components/modules/ProgressiveTheoryContent.tsx:102 | merging two strictly ordered lists with disjoint indices is strictly ordered |
| TheoryContent.SameHead | src/components/modules/ProgressiveTheoryContent.tsx:102 | two index-ordered permutations with distinct indices start alike |
| TheoryContent.SameTail | src/components/modules/ProgressiveTheoryContent.tsx:102 | with the same head, the rests are permutations of each other |
| TheoryContent.OrderedByIndexIsUnique | src/components/modules/ProgressiveTheoryContent.tsx:102 | with distinct indices there is only one index-ordered arrangement, so any sort gives the same list |
| TheoryContent.ChainRises | src/components/modules/ProgressiveTheoryContent.tsx:102 | indices rising step by step rise overall |
| TheoryContent.ScanStrictly | src/components/modules/ProgressiveTheoryContent.tsx:55-100 | each pattern's matches come at strictly rising indices |
| TheoryContent.MatchesStartApart | src/components/modules/ProgressiveTheoryContent.tsx:44-100 | no block match and quiz match share an index |
| TheoryContent.SortIsMerge | src/components/modules/ProgressiveTheoryContent.tsx:102 | any index-sorted arrangement of all the matches is the merged list, and its indices strictly rise |
| TheoryContent.BlockMatchKinds | src/components/modules/ProgressiveTheoryContent.tsx:55-71 | the first loop yields only typed blocks |
| TheoryContent.QuizMatchKinds | src/components/modules/ProgressiveTheoryContent.tsx:73-100 | the second loop yields only quiz blocks |
| TheoryContent.SortedMatchKinds | src/components/modules/ProgressiveTheoryContent.tsx:102 | no sorted match is html |
| TheoryContent.Slice | src/components/modules/ProgressiveTheoryContent.tsx:107 | a slice is never longer than the content |
| TheoryContent.AssembleBlocks | src/components/modules/ProgressiveTheoryContent.tsx:104-129 | the assembly loop gives the blocks of the specification |
| TheoryContent.AssembleStep | src/components/modules/ProgressiveTheoryContent.tsx:105-117 | one iteration pushes the gap before the match and the match's block |
| TheoryContent.PushGap | src/components/modules/ProgressiveTheoryContent.tsx:106-114 | the gap's html block is pushed when it is not blank |
| TheoryContent.PushTail | src/components/modules/ProgressiveTheoryContent.tsx:119-127 | the text after the last match is pushed when it is not blank |
| TheoryContent.ParseSectionContent | src/components/modules/ProgressiveTheoryContent.tsx:39-130 | the loops, sort and assembly together give the section's blocks |
| TheoryContent.BlocksOf | src/components/modules/ProgressiveTheoryContent.tsx:115 | the blocks of the matches, in order |
| TheoryContent.AssembleWithoutMatches | src/components/modules/ProgressiveTheoryContent.tsx:119-127 | content without matches is one html block, or nothing when blank |
| TheoryContent.AssembleKeepsMatchBlocks | src/components/modules/ProgressiveTheoryContent.tsx:104-127 | leaving out the html blocks gives exactly the matched blocks, in order |
| TheoryContent.GapIsHtml | src/components/modules/ProgressiveTheoryContent.tsx:106-114 | a gap yields only html blocks |
| TheoryContent.TailIsHtml | src/components/modules/ProgressiveTheoryContent.tsx:119-127 | the tail yields only html blocks |
| TheoryContent.NoMatchedBlock | src/components/modules/ProgressiveTheoryContent.tsx:104-127 | html blocks hold no matched block |
| TheoryContent.FilterAroundMatch | src/components/modules/ProgressiveTheoryContent.tsx:105-117 | the matched block between two runs of blocks is kept, html is dropped |
| TheoryContent.HtmlNotBlankJoin | src/components/modules/ProgressiveTheoryContent.tsx:108-121 | joining pieces without blank html keeps them so |
| TheoryContent.AssembleHtmlNotBlank | src/components/modules/ProgressiveTheoryContent.tsx:104-127 | no html block produced is blank |
| TheoryContent.GapNotBlank | src/components/modules/ProgressiveTheoryContent.tsx:108 | a gap's html block is not blank |
| TheoryContent.TailNotBlank | src/components/modules/ProgressiveTheoryContent.tsx:121 | the tail's html block is not blank |
| TheoryContent.AssembleUnfold | src/components/modules/ProgressiveTheoryContent.tsx:105-117 | the assembly is the gap, the first block and the assembly of the rest |
| TheoryContent.HtmlPieceNotBlank | src/components/modules/ProgressiveTheoryContent.tsx:108-121 | an html piece is pushed only when not blank |
| TheoryContent.SectionBlocksFollowMatches | src/components/modules/ProgressiveTheoryContent.tsx:39-130 | the section's non-html blocks are exactly the sorted matches' blocks, and no html block is blank |
| TheoryContent.QuizSurvivesFilter | src/components/modules/ProgressiveTheoryContent.tsx:227-229 | the blocks hold a quiz exactly when the matches do |
| TheoryContent.QuizInReordering | src/components/modules/ProgressiveTheoryContent.tsx:102 | a rearrangement of block and quiz matches holds a quiz exactly when there was a quiz match |
| TheoryContent.SectionHasQuizIffQuizMatch | src/components/modules/ProgressiveTheoryContent.tsx:227-229 | a section has a quiz exactly when the quiz pattern matches somewhere in it |
| TheoryContent.SectionBlocks | src/components/modules/ProgressiveTheoryContent.tsx:39-130 | `parseSectionContent`'s result: no html block is blank; SectionBlocksFollowMatches states that its other blocks are the matches' blocks in source order |
| TheoryContent.SectionHasQuiz | src/components/modules/ProgressiveTheoryContent.tsx:227-229 | `sectionHasQuiz`; SectionHasQuizIffQuizMatch states that on a section's blocks it holds exactly when the quiz pattern matches |
| TheoryContent.ReadTable | src/components/modules/ProgressiveTheoryContent.tsx:135-158 | no table exactly when the trimmed text has fewer than two lines or its second line holds no "---" (so one-line text is no table); every header cell of a table read is non-empty, trimmed and free of column bars |
| TheoryContent.ParseMarkdownTable | src/components/modules/ProgressiveTheoryContent.tsx:135-181 | text with fewer than two lines, or whose second line holds no "---", is returned unchanged |
| TheoryContent.TrimKeepsChars | src/components/modules/ProgressiveTheoryContent.tsx:145-158 | trimming adds no character |
| TheoryContent.CellsAreClean | src/components/modules/ProgressiveTheoryContent.tsx:145-158 | every cell is non-empty, trimmed and free of the column bar |
| TheoryContent.CellsRoundTrip | src/components/modules/ProgressiveTheoryContent.tsx:145-158 | clean cells joined with column bars split back into the same cells |
| TheoryContent.AlignExamples | src/components/modules/ProgressiveTheoryContent.tsx:150-158 | ":---:" is centre, "---:" right, ":---" and "---" left, and a missing column is left |
| ProgressStore.SubmoduleCompleted | src/stores/useProgressStore.ts:140-149 | a listed submodule changes nothing; a new one is appended at the end and earns 50 XP; no other field changes |
| ProgressStore.PositionSet | src/stores/useProgressStore.ts:151-154 | the current module and submodule are the given ones and nothing else changes |
| ProgressStore.XPAdded | src/stores/useProgressStore.ts:156-158 | the XP rises by the amount and nothing else changes |
| ProgressStore.PracticeRecorded | src/stores/useProgressStore.ts:189-192 | one more session, the minutes added to the total, and nothing else changes |
| ProgressStore.StreakUpdated | src/stores/useProgressStore.ts:160-187 | the same day changes nothing; a last active day equal to yesterday adds 1 to the streak and the 10-point bonus to the XP; any other day restarts the streak at 1 without XP; today becomes the last active day and no other field changes |
| ProgressStore.ScoreSet | src/stores/useProgressStore.ts:194-205 | the best score never drops and becomes the old best or the new score; other submodules keep theirs and the submodule gains a score entry; 25 XP come only for a first perfect score; no other field changes |
| ProgressStore.SubmoduleCount | src/stores/useProgressStore.ts:249-257 | no module has more than 7 submodules; unknown modules have none |
| ProgressStore.ModuleSubmoduleIdsDistinct | src/stores/useProgressStore.ts:248-259 | a module's submodule ids are as many as its count, and all different |
| ProgressStore.ModuleSubmoduleIds | src/stores/useProgressStore.ts:248-259 | `getModuleSubmoduleIds`: as many ids as the module's submodule count, the i-th being the module id, a dot and i (1-based); ModuleSubmoduleIdsDistinct adds that they are distinct |
| ProgressStore.ModuleSubmoduleIdsExample | src/stores/useProgressStore.ts:248-259 | module 1 has ids "1.1" to "1.5"; module 6 has none |
| ProgressStore.Percent | src/stores/useProgressStore.ts:221 | a rounded percentage of a part of a whole is at most 100 |
| ProgressStore.PercentEnds | src/stores/useProgressStore.ts:221 | the percentage is 100 exactly when all are done and 0 exactly when none are |
| ProgressStore.CompletedCount | src/stores/useProgressStore.ts:217-219 | no more are counted completed than the module has |
| ProgressStore.ModuleProgress | src/stores/useProgressStore.ts:211-222 | module progress is at most 100, and 0 for a module with no listed submodules |
| ProgressStore.ModuleProgressFull | src/stores/useProgressStore.ts:211-222 | a module shows 100% exactly when all its submodules are completed |
| ProgressStore.ModuleProgressEmpty | src/stores/useProgressStore.ts:211-222 | a module shows 0% exactly when none of its submodules is completed |
| ProgressStore.ModuleProgressGrows | src/stores/useProgressStore.ts:140-222 | completing a submodule never lowers any module's progress |
| ProgressStore.FilterMonotone | src/stores/useProgressStore.ts:217-219 | a weaker filter keeps at least as many |
| ProgressStore.CompleteIsIdempotent | src/stores/useProgressStore.ts:141-142 | completing the same submodule twice is completing it once |
| ProgressStore.StreakOncePerDay | src/stores/useProgressStore.ts:164-167 | updating the streak twice on one day is updating it once |
| ProgressStore.StreakAcrossDays | src/stores/useProgressStore.ts:160-187 | two consecutive days from a fresh start give a 2-day streak and one streak bonus |
| ProgressStore.PerfectBonusOnce | src/stores/useProgressStore.ts:194-205 | after a perfect score no later score earns the perfect bonus again |
| ProgressStore.PracticeAllTotals | src/stores/useProgressStore.ts:189-192 | recording sessions counts each one and adds up their minutes, without XP |
| ProgressStore.ProgressStore.constructor | src/stores/useProgressStore.ts:118-128 | the initial progress: nothing completed, position 1 / "1.1", zero XP and streak |
| ProgressStore.ProgressStore.SetState | src/stores/useProgressStore.ts:226-240 | a rehydrated state that keeps the invariant |
| ProgressStore.ProgressStore.CompleteSubmodule | src/stores/useProgressStore.ts:140-149 | completes a submodule, keeping the invariant |
| ProgressStore.ProgressStore.SetCurrentPosition | src/stores/useProgressStore.ts:151-154 | only the current module and submodule change |
| ProgressStore.ProgressStore.AddXP | src/stores/useProgressStore.ts:156-158 | only the XP changes, by the amount |
| ProgressStore.ProgressStore.UpdateStreak | src/stores/useProgressStore.ts:160-187 | the streak update for the given today and yesterday |
| ProgressStore.ProgressStore.RecordPracticeSession | src/stores/useProgressStore.ts:189-192 | one more session and its minutes |
| ProgressStore.ProgressStore.SetSubmoduleScore | src/stores/useProgressStore.ts:194-205 | records the best score and any perfect bonus |
| ProgressStore.ProgressStore.GetModuleProgress | src/stores/useProgressStore.ts:211-222 | the module's progress, at most 100, and 0 for a module with no listed submodules |
| ProgressStore.ProgressStore.IsSubmoduleCompleted | src/stores/useProgressStore.ts:207-209 | `isSubmoduleCompleted`: membership in the completed list, which SubmoduleCompleted and CompleteIsIdempotent make true after completion |
| ProgressStore.ProgressStore.ResetProgress | src/stores/useProgressStore.ts:224 | back to the initial progress |
| ProgressSync.BetterTime | src/services/progress-sync.ts:148-151 | with both times set, the smaller; with one set, that one; with neither, the remote value |
| ProgressSync.BetterLevel | src/services/progress-sync.ts:144-152 | percentage and stars are the larger of the two, and passed is kept if either passed |
| ProgressSync.BetterTimeKeepsBest | src/services/progress-sync.ts:148-151 | a set best time stays set and never gets worse |
| ProgressSync.MergedLevels | src/services/progress-sync.ts:137-154 | the merged levels are the levels of either side |
| ProgressSync.MergedLevelsNoWorse | src/services/progress-sync.ts:137-154 | no level result of either side gets worse in the merge: percentage, stars, passed and best time |
| ProgressSync.MergedScores | src/services/progress-sync.ts:157-160 | the merged scores cover the submodules of either side |
| ProgressSync.MergeLevels | src/services/progress-sync.ts:137-154 | the loop over the local levels gives the merged levels |
| ProgressSync.MergeScores | src/services/progress-sync.ts:157-160 | the loop over the local scores gives the merged scores |
| ProgressSync.StringAfterIsTotal | src/services/progress-sync.ts:170 | string comparison is a strict total order |
| ProgressSync.LaterDate | src/services/progress-sync.ts:169-170 | the later date is one of the two |
| ProgressSync.LaterDateIsLatest | src/services/progress-sync.ts:169-170 | neither date is after the one kept |
| ProgressSync.MergeProgress | src/services/progress-sync.ts:130-179 | the loops over both sides' levels and scores compute Merged, the deduplicated union of completions with the larger counters, the better levels and scores, and the later date |
| ProgressSync.Merged | src/services/progress-sync.ts:130-179 | what `mergeProgress` returns; MergeKeepsEverything states that nothing completed or scored on either side is lost, and MergeWithItself that merging a state with itself gives it back |
| ProgressSync.MergeKeepsEverything | src/services/progress-sync.ts:130-179 | the merge completes exactly what either side completed, without duplicates; it keeps every level and score key XP, streak, sessions and minutes are each the larger side's value, and the last active date the later one; the position is local |
| ProgressSync.MergedScoreIsMax | src/services/progress-sync.ts:159 | a submodule scored on both sides keeps the higher score |
| ProgressSync.MergeWithItself | src/services/progress-sync.ts:130-179 | merging progress with itself changes nothing |
| ProgressSync.LevelsWithThemselves | src/services/progress-sync.ts:137-154 | merging levels with themselves changes nothing |
| ProgressSync.ScoresWithThemselves | src/services/progress-sync.ts:157-160 | merging scores with themselves changes nothing |
| ProgressSync.DedupeTwice | src/services/progress-sync.ts:132-134 | the union of a duplicate-free list with itself is the list |
| ProgressSync.DedupeAppendSeen | src/services/progress-sync.ts:132-134 | appending only entries already present leaves the union unchanged |
| AudioStore.AudioInitialized | src/stores/useAudioStore.ts:37-44 | the store becomes ready when the engine starts and is otherwise unchanged (a failed start is only logged) |
| AudioStore.NoteStarted | src/stores/useAudioStore.ts:46-53 | the note is added to the active and the recorded notes and the store is playing |
| AudioStore.NoteStopped | src/stores/useAudioStore.ts:55-64 | every copy of the note leaves the active notes, others stay; playing exactly while some note is active; the recording is kept |
| AudioStore.NotePlayed | src/stores/useAudioStore.ts:68-76 | the note is active once (added only if absent), the store is playing, and nothing is recorded |
| AudioStore.NoteHighlighted | src/stores/useAudioStore.ts:96-113 | like playing a note without sound, except that the playing flag is left as it was |
| AudioStore.NoteUnhighlighted | src/stores/useAudioStore.ts:116-120 | like stopping the note, except that the playing flag is left as it was |
| AudioStore.HighlightsCleared | src/stores/useAudioStore.ts:123-129 | no note is active and nothing else changes |
| AudioStore.RecordingCleared | src/stores/useAudioStore.ts:131 | the recording is emptied and nothing else changes |
| AudioStore.TimeSignatureSet | src/stores/useAudioStore.ts:133 | only the time signature changes |
| AudioStore.WithoutAppended | src/stores/useAudioStore.ts:58 | filtering out a note that was just appended forgets the append |
| AudioStore.WithoutAbsent | src/stores/useAudioStore.ts:58 | filtering out an absent note changes nothing |
| AudioStore.StartThenStop | src/stores/useAudioStore.ts:46-64 | starting then stopping a note removes it from the active notes but leaves it recorded |
| AudioStore.PlayThenStop | src/stores/useAudioStore.ts:55-76 | playing then releasing a note that was not active restores the state exactly |
| AudioStore.PlayTwice | src/stores/useAudioStore.ts:68-76 | playing a note twice is playing it once |
| AudioStore.StopKeepsOtherNotes | src/stores/useAudioStore.ts:55-64 | stopping a note keeps the other active notes in order and with their multiplicity |
| AudioStore.HighlightCanLeavePlayingStale | src/stores/useAudioStore.ts:96-113 | highlighting from the initial state makes a note active while the store still says it is not playing |
| AudioStore.AudioStore.constructor | src/stores/useAudioStore.ts:30-35 | not ready, not playing, no notes, 4/4 |
| AudioStore.AudioStore.InitializeAudio | src/stores/useAudioStore.ts:37-44 | the initialisation transition |
| AudioStore.AudioStore.StartNote | src/stores/useAudioStore.ts:46-53 | the start transition |
| AudioStore.AudioStore.StopNote | src/stores/useAudioStore.ts:55-64 | the stop transition |
| AudioStore.AudioStore.PlayNote | src/stores/useAudioStore.ts:68-76 | the play transition |
| AudioStore.AudioStore.ReleaseNote | src/stores/useAudioStore.ts:79-88 | the same transition as stopping |
| AudioStore.AudioStore.HighlightNote | src/stores/useAudioStore.ts:96-113 | the highlight transition |
| AudioStore.AudioStore.UnhighlightNote | src/stores/useAudioStore.ts:116-120 | the unhighlight transition |
| AudioStore.AudioStore.ClearHighlights | src/stores/useAudioStore.ts:123-129 | no active notes |
| AudioStore.AudioStore.ClearRecordedNotes | src/stores/useAudioStore.ts:131 | no recorded notes |
| AudioStore.AudioStore.SetTimeSignature | src/stores/useAudioStore.ts:133 | the new time signature |
| BugReportStore.Appended | src/stores/useBugReportStore.ts:93 | the new entry comes last; the log never exceeds its cap and fills up to it; the older entries are the newest ones of the old log |
| BugReportStore.Newest | src/stores/useBugReportStore.ts:43-45 | the newest `cap` entries, or all when fewer |
| BugReportStore.AppendedIsNewest | src/stores/useBugReportStore.ts:93 | the bounded log after an append is the newest `cap` entries of the old log plus the entry |
| BugReportStore.NewestTwice | src/stores/useBugReportStore.ts:93 | trimming, appending and trimming again equals trimming once at the end |
| BugReportStore.AppendedAllIsNewest | src/stores/useBugReportStore.ts:85-121 | however many entries are logged, the log holds the newest `cap` of the whole history, in order |
| BugReportStore.ActionLogged | src/stores/useBugReportStore.ts:85-95 | the action is appended to the bounded action log (50), nothing else changes, and the caps hold |
| BugReportStore.StringifyArgs | src/stores/useBugReportStore.ts:63-76 | the arguments joined with spaces; StringifyArgsReadBack states that they split back when none holds a space |
| BugReportStore.StringifyArgsReadBack | src/stores/useBugReportStore.ts:63-76 | arguments without spaces are read back from the logged message by splitting at spaces |
| BugReportStore.ConsoleLogged | src/stores/useBugReportStore.ts:97-107 | the arguments, joined by spaces, are appended to the bounded console log (100) |
| BugReportStore.ErrorLogged | src/stores/useBugReportStore.ts:109-121 | the error is appended to the bounded error log (20) |
| BugReportStore.LogsCleared | src/stores/useBugReportStore.ts:123 | all three logs are empty and the flags are kept |
| BugReportStore.OldestDropped | src/stores/useBugReportStore.ts:43-45 | after `cap + 1` entries from empty, exactly the oldest is gone |
| BugReportStore.BugReportStore.constructor | src/stores/useBugReportStore.ts:78-83 | empty logs, modal closed |
| BugReportStore.BugReportStore.LogAction | src/stores/useBugReportStore.ts:85-95 | logs the action within the cap |
| BugReportStore.BugReportStore.LogConsole | src/stores/useBugReportStore.ts:97-107 | logs the console line within the cap |
| BugReportStore.BugReportStore.LogError | src/stores/useBugReportStore.ts:109-121 | logs the error within the cap |
| BugReportStore.BugReportStore.ClearLogs | src/stores/useBugReportStore.ts:123 | empties the logs |
| BugReportStore.BugReportStore.SetModalOpen | src/stores/useBugReportStore.ts:125 | only the modal flag changes |
| SettingsStore.ClampBpm | src/stores/useSettingsStore.ts:43 | the tempo is kept between 40 and 240: unchanged inside, 40 below, 240 above |
| SettingsStore.OtherNotation | src/stores/useSettingsStore.ts:31 | the toggled notation system differs |
| SettingsStore.NotationToggled | src/stores/useSettingsStore.ts:29-32 | only the notation system changes, to the other one |
| SettingsStore.ThemeToggled | src/stores/useSettingsStore.ts:34-37 | light becomes dark and anything else becomes light; nothing else changes |
| SettingsStore.VnModeToggled | src/stores/useSettingsStore.ts:39-42 | only the Vietnamese mode flips |
| SettingsStore.BpmSet | src/stores/useSettingsStore.ts:43 | the tempo is clamped into range, and a tempo in range is taken as given |
| SettingsStore.BpmAdjusted | src/stores/useSettingsStore.ts:44-47 | the adjusted tempo stays in range and nothing else changes |
| SettingsStore.ClampIdempotent | src/stores/useSettingsStore.ts:43 | clamping twice is clamping once |
| SettingsStore.ClampMonotone | src/stores/useSettingsStore.ts:43 | clamping keeps the order of tempos |
| SettingsStore.AdjustIsSet | src/stores/useSettingsStore.ts:43-47 | adjusting by a delta is setting the current tempo plus the delta |
| SettingsStore.AdjustUpAndDown | src/stores/useSettingsStore.ts:44-47 | inside the range, adjusting up and back down restores the settings |
| SettingsStore.AdjustPastBoundLosesTempo | src/stores/useSettingsStore.ts:44-47 | from 120, up 200 and down 200 ends at 40, not 120 |
| SettingsStore.TogglesAreInvolutions | src/stores/useSettingsStore.ts:29-42 | toggling the notation system or the Vietnamese mode twice restores it |
| SettingsStore.ThemeToggleTwice | src/stores/useSettingsStore.ts:34-37 | toggling the theme twice gives light from light and dark otherwise, so "system" is lost |
| SettingsStore.SettingsStore.constructor | src/stores/useSettingsStore.ts:24-27 | Latin, system theme, Vietnamese mode off, 120 bpm |
| SettingsStore.SettingsStore.SetNotationSystem | src/stores/useSettingsStore.ts:28 | only the notation system changes |
| SettingsStore.SettingsStore.ToggleNotationSystem | src/stores/useSettingsStore.ts:29-32 | the notation toggle |
| SettingsStore.SettingsStore.SetTheme | src/stores/useSettingsStore.ts:33 | only the theme changes |
| SettingsStore.SettingsStore.ToggleTheme | src/stores/useSettingsStore.ts:34-37 | the theme toggle |
| SettingsStore.SettingsStore.SetVnMode | src/stores/useSettingsStore.ts:38 | only the Vietnamese mode changes |
| SettingsStore.SettingsStore.ToggleVnMode | src/stores/useSettingsStore.ts:39-42 | the mode toggle |
| SettingsStore.SettingsStore.SetBpm | src/stores/useSettingsStore.ts:43 | the clamped tempo, keeping it in range |
| SettingsStore.SettingsStore.AdjustBpm | src/stores/useSettingsStore.ts:44-47 | the clamped adjusted tempo, keeping it in range |
| ModuleStore.ClampPercent | src/stores/useModuleStore.ts:55 | progress is kept between 0 and 100: unchanged inside, 0 below, 100 above |
| ModuleStore.ProgressUpdated | src/stores/useModuleStore.ts:52-57 | every module with the id gets the clamped progress, every other module and field is unchanged, and progress stays in range |
| ModuleStore.ModuleUnlocked | src/stores/useModuleStore.ts:61-64 | every module with the id is unlocked, nothing else changes |
| ModuleStore.XPAdded | src/stores/useModuleStore.ts:59 | the XP rises by the amount and nothing else changes |
| ModuleStore.UnknownIdChangesNothing | src/stores/useModuleStore.ts:52-64 | an id no module has changes nothing |
| ModuleStore.UnlockIdempotent | src/stores/useModuleStore.ts:61-64 | unlocking twice is unlocking once |
| ModuleStore.LastProgressWins | src/stores/useModuleStore.ts:52-57 | of two progress updates to a module the later one counts |
| ModuleStore.UnlockAndProgressCommute | src/stores/useModuleStore.ts:52-64 | unlocking and updating progress can happen in either order |
| ModuleStore.InitialModules | src/stores/useModuleStore.ts:18-24 | default progress is in range and exactly modules 4 and 5 start locked |
| ModuleStore.ModuleStore.constructor | src/stores/useModuleStore.ts:43-46 | the default modules, module 1, lesson 0, 450 XP |
| ModuleStore.ModuleStore.SetCurrentModule | src/stores/useModuleStore.ts:48 | only the current module changes |
| ModuleStore.ModuleStore.SetCurrentLesson | src/stores/useModuleStore.ts:50 | only the current lesson changes |
| ModuleStore.ModuleStore.UpdateProgress | src/stores/useModuleStore.ts:52-57 | the progress update |
| ModuleStore.ModuleStore.AddXP | src/stores/useModuleStore.ts:59 | the XP update |
| ModuleStore.ModuleStore.UnlockModule | src/stores/useModuleStore.ts:61-64 | the unlock |
| FloatingInstruments.ThreePanels | src/stores/useFloatingInstrumentsStore.ts:39-43 | a layout with a piano, a guitar and a flute entry is complete |
| FloatingInstruments.DefaultInstrumentState | src/stores/useFloatingInstrumentsStore.ts:29-34 | hidden, not minimised, at x 20 and the given y, with the given size |
| FloatingInstruments.Initial | src/stores/useFloatingInstrumentsStore.ts:39-44 | all three panels exist, none is visible or minimised, and none is active |
| FloatingInstruments.Shown | src/stores/useFloatingInstrumentsStore.ts:46-53 | the panel becomes visible and not minimised, keeps its place and size, and becomes active; the other panels are unchanged |
| FloatingInstruments.Hidden | src/stores/useFloatingInstrumentsStore.ts:55-62 | only the panel's visibility goes off; the active panel is cleared if it was this one and kept otherwise |
| FloatingInstruments.Toggled | src/stores/useFloatingInstrumentsStore.ts:64-78 | the panel's visibility flips and it is not minimised; the other panels are unchanged |
| FloatingInstruments.Minimized | src/stores/useFloatingInstrumentsStore.ts:80-86 | only the panel's minimised flag goes on; the active panel is kept |
| FloatingInstruments.Restored | src/stores/useFloatingInstrumentsStore.ts:88-95 | only the panel's minimised flag goes off, and the panel becomes active |
| FloatingInstruments.PositionSet | src/stores/useFloatingInstrumentsStore.ts:97-103 | only the panel's position changes |
| FloatingInstruments.SizeSet | src/stores/useFloatingInstrumentsStore.ts:105-111 | only the panel's size changes |
| FloatingInstruments.BroughtToFront | src/stores/useFloatingInstrumentsStore.ts:113 | the panel becomes active and no panel changes |
| FloatingInstruments.AllHidden | src/stores/useFloatingInstrumentsStore.ts:115-123 | every panel is hidden with its other fields kept, and none is active |
| FloatingInstruments.ToggleHiddenIsShow | src/stores/useFloatingInstrumentsStore.ts:46-78 | toggling a hidden panel is showing it |
| FloatingInstruments.ToggleVisibleIsHide | src/stores/useFloatingInstrumentsStore.ts:55-78 | toggling a visible panel is hiding it after clearing its minimised flag |
| FloatingInstruments.ToggleTwice | src/stores/useFloatingInstrumentsStore.ts:64-78 | toggling twice restores the panel except that it is no longer minimised |
| FloatingInstruments.HideAfterShow | src/stores/useFloatingInstrumentsStore.ts:46-62 | showing then hiding leaves the panel hidden, not minimised, and nothing active |
| FloatingInstruments.HideAllIsHideEach | src/stores/useFloatingInstrumentsStore.ts:55-62 | hiding all is hiding the three panels one by one, then clearing the active panel |
| FloatingInstruments.FloatingInstrumentsStore.constructor | src/stores/useFloatingInstrumentsStore.ts:39-44 | the initial layout |
| FloatingInstruments.FloatingInstrumentsStore.ShowInstrument | src/stores/useFloatingInstrumentsStore.ts:46-53 | the show transition, keeping the layout complete |
| FloatingInstruments.FloatingInstrumentsStore.HideInstrument | src/stores/useFloatingInstrumentsStore.ts:55-62 | the hide transition |
| FloatingInstruments.FloatingInstrumentsStore.ToggleInstrument | src/stores/useFloatingInstrumentsStore.ts:64-78 | the toggle transition |
| FloatingInstruments.FloatingInstrumentsStore.MinimizeInstrument | src/stores/useFloatingInstrumentsStore.ts:80-86 | the minimise transition |
| FloatingInstruments.FloatingInstrumentsStore.RestoreInstrument | src/stores/useFloatingInstrumentsStore.ts:88-95 | the restore transition |
| FloatingInstruments.FloatingInstrumentsStore.SetPosition | src/stores/useFloatingInstrumentsStore.ts:97-103 | the new position |
| FloatingInstruments.FloatingInstrumentsStore.SetSize | src/stores/useFloatingInstrumentsStore.ts:105-111 | the new size |
| FloatingInstruments.FloatingInstrumentsStore.BringToFront | src/stores/useFloatingInstrumentsStore.ts:113 | the new active panel |
| FloatingInstruments.FloatingInstrumentsStore.HideAll | src/stores/useFloatingInstrumentsStore.ts:115-123 | every panel hidden |
| CourseData.TotalIsAllSubmodules | src/data/course-data/index.ts:24-26 | the reduced count is the number of submodules across all modules |
| CourseData.CountFromAdds | src/data/course-data/index.ts:24-26 | the fold adds each module's submodule count to the accumulator |
| CourseData.TotalSubmodules | src/data/course-data/index.ts:24-26 | `getTotalSubmodules`: the number of submodules across all modules |
| CourseData.NextSubmodule | src/data/course-data/index.ts:43-47 | `getNextSubmodule`: a result is a submodule of the course; none exactly when the id is found at the last place, or the course is empty |
| CourseData.PreviousSubmodule | src/data/course-data/index.ts:50-54 | `getPreviousSubmodule`: a result is a submodule of the course; none exactly when the id is the first one's or unknown |
| CourseData.IndexOf | src/data/course-data/index.ts:45 | the first position holding the id, or -1 when no submodule has it |
| CourseData.FindModule | src/data/course-data/index.ts:38-40 | a found module has the id and is the first module of the course with it; nothing is found exactly when no module has the id |
| CourseData.FindSubmodule | src/data/course-data/index.ts:29-35 | searching module by module finds the first submodule with the id in the flattened course |
| CourseData.FindInIsFirst | src/data/course-data/index.ts:31 | the search within one module gives its first submodule with the id |
| CourseData.FirstWithIdAppend | src/data/course-data/index.ts:29-35 | the first match in two lists is the first list's match when there is one, else the second's |
| CourseData.IndexOfUnique | src/data/course-data/index.ts:45 | with unique ids, looking up a submodule's id gives its own position |
| CourseData.UnknownIdNavigation | src/data/course-data/index.ts:43-54 | for an unknown id, the next submodule is the first of the course (index -1 plus 1) and there is no previous one |
| CourseData.NavigationSteps | src/data/course-data/index.ts:43-54 | with unique ids, the next of the entry at flat position i is the entry at i+1 (none for the last) and its previous the entry at i-1 (none for the first) |
| CourseData.NavigationEnds | src/data/course-data/index.ts:43-54 | the last submodule has no next and the first has no previous |
| CourseData.NextThenPrevious | src/data/course-data/index.ts:43-54 | with unique ids, previous after next, and next after previous, return to the same submodule |
| PracticeLibrary.ParseButterworthFilename | src/data/practiceLibrary.ts:138-154 | the entry keeps the filename it was given |
| PracticeLibrary.KeyFollowsLastSeparator | src/data/practiceLibrary.ts:143-145 | without "-in-" the key is C and the title part is the whole name; otherwise the name is the title part, "-in-" and a last part without "-in-", and the key is that last part or C when it is empty |
| PracticeLibrary.BaseName | src/data/practiceLibrary.ts:140 | the last path segment without its first ".abc"; BaseNameExample, NoPathExample and FirstAbcExample state cases |
| PracticeLibrary.KeyOf | src/data/practiceLibrary.ts:143-144 | the key is never empty; KeyFollowsLastSeparator states where it comes from |
| PracticeLibrary.TitlePart | src/data/practiceLibrary.ts:143-145 | the name before the last "-in-"; KeyFollowsLastSeparator states that it, "-in-" and the key rebuild the name |
| PracticeLibrary.TitleCase | src/data/practiceLibrary.ts:148-151 | kebab case to title case; TitleWords states that its words are the capitalised dash-separated words |
| PracticeLibrary.CapitalizeKeepsSpaces | src/data/practiceLibrary.ts:150 | capitalising a word adds and removes no space |
| PracticeLibrary.TitleWords | src/data/practiceLibrary.ts:148-151 | the title's space-separated words are the title part's dash-separated words, each capitalised |
| PracticeLibrary.ParseExample | src/data/practiceLibrary.ts:136 | the documented example gives title "Bonny Green" and key C |
| PracticeLibrary.BaseNameExample | src/data/practiceLibrary.ts:140 | the path and the extension are removed |
| PracticeLibrary.NoPathExample | src/data/practiceLibrary.ts:140 | a name with no slash splits into itself |
| PracticeLibrary.FirstAbcExample | src/data/practiceLibrary.ts:140 | the first ".abc" is removed |
| PracticeLibrary.KeyExample | src/data/practiceLibrary.ts:143-145 | the key and title part of the example |
| PracticeLibrary.TitleExample | src/data/practiceLibrary.ts:148-151 | the title case of the example |
| PracticeLibrary.JoinExample | src/data/practiceLibrary.ts:151 | the words joined with a space |
| PracticeLibrary.CapitalizeWordsExample | src/data/practiceLibrary.ts:150 | already capitalised words are kept |
| PracticeLibrary.KebabExample | src/data/practiceLibrary.ts:149 | the kebab-case title part splits into its words |
| PracticeLibrary.CapitalizeFixed | src/data/practiceLibrary.ts:150 | a word with a capital first letter and lower-case rest is unchanged |
| PracticeLibrary.CapitalizeExamples | src/data/practiceLibrary.ts:150 | the rest of the word is lowered and an empty word stays empty |
| PracticeLibrary.CategoryById | src/data/practiceLibrary.ts:210-212 | a found category has the id and is in the list; nothing is found exactly when no category has the id |
| PracticeLibrary.CategoryByIdIsFirst | src/data/practiceLibrary.ts:210-212 | the first category with the id is the one found |
| PracticeLibrary.TotalIsAllSheets | src/data/practiceLibrary.ts:217-219 | the total is the number of sheets across all categories |
| PracticeLibrary.SongsFromAdds | src/data/practiceLibrary.ts:217-219 | the fold adds each category's sheet count to the running sum |
| PracticeLibrary.TotalCurriculumSongs | src/data/practiceLibrary.ts:217-219 | `getTotalCurriculumSongs`: the number of sheets across all categories |
| GameTypes.Spread | src/data/game-types.ts:83-87 | the object spread has both key sets, the right side's values win, and the left side's values stay where the right has no key |
| GameTypes.MergeGameConfig | src/data/game-types.ts:79-88 | the merge has exactly the keys of the defaults, the game defaults and the overrides; MergePrecedence states which value wins |
| GameTypes.MergePrecedence | src/data/game-types.ts:79-88 | a merged key comes from the overrides, else the game defaults, else the global defaults, and the merge has no other keys |
| GameTypes.NoOverrides | src/data/game-types.ts:79-88 | a missing or empty override object changes nothing |
| GameTypes.MergeIsAGameConfig | src/data/game-types.ts:67-88 | merging well-typed partial configurations gives a complete, well-typed configuration |
| Text.DigitChar | src/utils/guitar-logic.ts:41 | the character is a digit whose value is the given number |
| Text.NatToString | src/utils/guitar-logic.ts:41 | a non-empty string of digits with no leading zero |
| Text.NatToStringRoundTrip | src/utils/guitar-logic.ts:41 | reading the digits back gives the number |
| Text.NatToStringInjective | src/utils/guitar-logic.ts:41 | two numbers print the same exactly when they are equal |
| Text.IntToStringRoundTrip | src/utils/guitar-logic.ts:41 | a printed integer, sign included, reads back as itself |
| Text.TrimStartRemovesLeadingSpace | src/components/modules/ProgressiveTheoryContent.tsx:33 | the result is a suffix that does not start with space, and what was removed is all space |
| Text.TrimEndRemovesTrailingSpace | src/components/modules/ProgressiveTheoryContent.tsx:33 | the result is a prefix that does not end with space, and what was removed is all space |
| Text.TrimRemovesOuterSpace | src/components/modules/ProgressiveTheoryContent.tsx:33-34 | a trimmed string neither starts nor ends with space, and it is empty exactly when the input was all space |
| Text.TrimOfTrimmed | src/components/modules/ProgressiveTheoryContent.tsx:33 | a string without outer space is its own trim |
| Text.TrimIdempotent | src/components/modules/ProgressiveTheoryContent.tsx:33 | trimming twice is trimming once |
| Text.IndexOfFrom | src/data/practiceLibrary.ts:143 | the first occurrence at or after the start, or -1 when there is none |
| Text.Split | src/data/practiceLibrary.ts:143 | splitting always gives at least one part |
| Text.JoinSplit | src/data/practiceLibrary.ts:143-145 | joining the parts of a split with the same separator gives back the string |
| Text.JoinCons | src/data/practiceLibrary.ts:145 | joining a head before a non-empty list puts one separator between them |
| Text.JoinSnoc | src/data/practiceLibrary.ts:144-145 | joining a non-empty list with a last part puts one separator before it |
| Text.SplitPartsInside | src/data/practiceLibrary.ts:143 | every character of every part comes from the string |
| Text.SplitFindsSeparator | src/data/practiceLibrary.ts:144 | a split has more than one part exactly when the separator occurs |
| Text.SplitPartsAvoidSeparator | src/data/practiceLibrary.ts:143 | no part contains the separator |
| Text.SplitJoin | src/data/practiceLibrary.ts:149-151 | splitting a join of parts that avoid a one-character separator gives back the parts |
| Text.Map | src/data/practiceLibrary.ts:150 | the result has the same length and holds the function applied at each position |
| Text.Filter | src/components/modules/ProgressiveTheoryContent.tsx:34 | the result holds exactly the kept elements, and is no longer |
| Text.FilterAppend | src/components/modules/ProgressiveTheoryContent.tsx:34 | filtering distributes over concatenation |
| Text.FilterKeepsAll | src/components/modules/ProgressiveTheoryContent.tsx:34 | when every element is kept the list is unchanged |
| Text.FilterKeepsCount | src/components/modules/ProgressiveTheoryContent.tsx:34 | the length is kept exactly when every element is kept |
| Text.Without | src/stores/useAudioStore.ts:58 | `Filter` with the test `y !== x`: the value is gone and every other value is present exactly when it was before, in its order |
| Text.WithoutCounts | src/stores/useAudioStore.ts:58 | removing a value keeps every other value as often as before |
| Text.Repeat | src/components/MusicStaff/StaffRangeVisualTest.tsx:22 | n copies of the character |
| Text.Dedupe | src/services/progress-sync.ts:132-134 | no duplicates, the same elements, no longer, and the first element stays first |
| Text.DedupeOfDistinct | src/services/progress-sync.ts:132-134 | a list without duplicates is unchanged |

## Left out

- The React components, pages, hooks and instrument widgets: they are user interface driven by timers and random shuffles.
- Tone.js, abcjs, VexFlow and the other audio, notation and DOM libraries: they are foreign code. The audio store keeps only its note lists and flags; the audio engine calls, the highlight time-outs, `replayRecordedNotes`, `playSuccess` and `playFailure` are left out.
- Persistence and the network: the zustand `persist` wrappers and their rehydration, the IndexedDB adapter, Supabase loading and saving, and the debounced cloud sync. Only the pure merge of local and remote progress is modelled.
- Clocks and identifiers: `Date.now()`, `toISOString` and generated log ids are parameters of the operations that use them.
- The bug-report store's `generateReport`, `formatTimestamp` and the console, error and window interceptors: they read the browser environment. Console arguments arrive already converted to strings, so `JSON.stringify` of objects is not modelled.
- Floating point: the rhythm-scoring times (`ScoringEngine`) and the percentages given to the two star functions (`Module12Games.CalculateStars`, `GameLevels.CalculateStars`) are Dafny `real`s, so rounding error and `NaN` are not modelled there.
- Every other JavaScript number is a Dafny `int`, so neither a fractional value nor `NaN` is modelled for any of them:
  - the tempo in the settings (`SettingsStore.Settings.bpm`): `setBpm` and `adjustBpm` accept any number, so a fractional tempo stays fractional there and `NaN` passes the clamp;
  - the module store's XP, current module id and current lesson index (`ModuleStore.ModuleState`);
  - a level's percentage and best time in the merged progress (`ProgressSync.LevelCompletion`);
  - a module's progress in the module store (`ModuleStore.Module`);
  - submodule scores, XP and practice minutes in the progress store;
  - the tempo in the notation header (`NotationStore.Header`);
  - a floating panel's position and size (`FloatingInstruments.Position`, `FloatingInstruments.Size`);
  - the numeric game-config values (`GameTypes.Value`);
  - the remaining counters, ids and indices: module ids, the streak and session counts, the notation history index and timestamps, string and fret numbers, and game level numbers.
- Case mapping is ASCII only, and strings have no Unicode normalisation.
- JavaScript object lookups are modelled as Dafny maps, so keys inherited from the object prototype (such as `constructor`) are not modelled.
- The course modules, the practice categories, the flute fingering JSON and the chord voicings are data tables. The operations take them as parameters; their contents are not part of this model.
- The practice library's `getButterworthList`, `loadButterworthSong`, `createButterworthCategory` and `getAllCategories`: they depend on the bundler's dynamic `import.meta.glob` loader.
- The staff range page's rendering: only `scientificToPitch` and `generateAbcForRange` are modelled, for octaves written with one digit.
- The lesson renderer's `formatHtmlContent` (markdown to HTML): html blocks hold the raw text between the matched blocks.
- src/utils/music-math.ts, src/data/chord-voicings.ts and src/features/game/logic/note-generator.ts are not part of this model.
- TheoryContent.QuizMatchAt: states where a quiz match starts and that it holds a quiz block, not the position of the closing braces or how options and explanation are split; those are stated by the contracts of TheoryContent.QuizBlock and TheoryContent.QuizTailAt.
- PracticeLibrary.ParseButterworthFilename: its ensures states only that the filename is kept; the title and the key are stated by KeyFollowsLastSeparator, TitleWords and the example lemmas.
- A key set explicitly to `undefined` in the game defaults or the overrides: JavaScript's spread copies it and hides the default, but the model has no `undefined` value, and an absent key keeps the default (`GameTypes.MergeGameConfig`).
- BugReportStore.Appended: requires a cap of at least 2, because `slice(-0)` keeps the whole log when the cap is 1; every cap in the store is 20 or more.

## Findings

| source | as written | input that shows it | evidently intended | confidence | as-written member | corrected member |
|---|---|---|---|---|---|---|
| src/stores/useNotationStore.ts:227-233 | `clear` sets the history index to the old history length, even when appending the empty snapshot drops the oldest one at the 50-entry cap | a history of 50 snapshots, then `clear`: the index becomes 50, one past the last of the 50 snapshots kept | the index points at the new empty snapshot, the last one kept | not executed | NotationStore.ClearAsWrittenOverrunsAtCap | NotationStore.NotationEditor.Clear |
