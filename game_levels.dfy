/**
 * The seven note-reading levels: each lists the note letters it drills; a
 * letter is shown in the octave where it sits on the treble staff.
 */
module GameLevels {
  import opened Wrappers
  import Module12Games

  datatype GameLevel = GameLevel(
    id: int,
    name: string,
    description: string,
    notes: seq<string>,
    timerSeconds: Option<int>,
    questionCount: int,
    requiredScore: int,
    xpReward: int)

  /** The treble-staff octave of each natural letter: E to B in octave 4, C and D in octave 5. */
  const NOTE_OCTAVES: map<string, string> := map[
    "E" := "E4", "F" := "F4", "G" := "G4", "A" := "A4", "B" := "B4", "C" := "C5", "D" := "D5"]

  const GAME_LEVELS: seq<GameLevel> := [
    GameLevel(1, "E & G", "First two line notes", ["E", "G"], None, 5, 60, 15),
    GameLevel(2, "E, G, B", "Three line notes", ["E", "G", "B"], None, 6, 60, 20),
    GameLevel(3, "All Lines", "E-G-B-D-F (Every Good Boy Does Fine)", ["E", "G", "B", "D", "F"], Some(8), 8, 70, 30),
    GameLevel(4, "F & A", "First two space notes", ["F", "A"], None, 5, 60, 15),
    GameLevel(5, "All Spaces", "F-A-C-E (FACE)", ["F", "A", "C", "E"], Some(8), 8, 70, 30),
    GameLevel(6, "Mixed Notes", "Lines and spaces together", ["C", "D", "E", "F", "G", "A", "B"], Some(6), 10, 75, 40),
    GameLevel(7, "Master", "All notes - speed challenge!", ["C", "D", "E", "F", "G", "A", "B"], Some(4), 15, 80, 60)]

  /** `levels.find(l => l.id === id)`: the first level with that id. */
  function FindLevel(levels: seq<GameLevel>, id: int): (r: Option<GameLevel>)
    ensures r.None? <==> forall k :: 0 <= k < |levels| ==> levels[k].id != id
    ensures r.Some? ==> exists k :: 0 <= k < |levels| && levels[k] == r.value && r.value.id == id
                                  && forall j :: 0 <= j < k ==> levels[j].id != id
  {
    if levels == [] then None
    else if levels[0].id == id then Some(levels[0])
    else
      var rest := FindLevel(levels[1..], id);
      assert rest.Some? ==> exists k :: 1 <= k < |levels| && levels[k] == rest.value && rest.value.id == id
                                       && forall j :: 0 <= j < k ==> levels[j].id != id by {
        if rest.Some? {
          var k :| 0 <= k < |levels[1..]| && levels[1..][k] == rest.value && rest.value.id == id
                   && forall j :: 0 <= j < k ==> levels[1..][j].id != id;
          assert levels[k + 1] == rest.value;
          forall j | 0 <= j < k + 1 ensures levels[j].id != id {
            if j > 0 { assert levels[j] == levels[1..][j - 1]; }
          }
        }
      }
      rest
  }

  function GetLevel(id: int): (r: Option<GameLevel>)
    ensures r.Some? ==> r.value in GAME_LEVELS && r.value.id == id
    ensures r.None? <==> forall k :: 0 <= k < |GAME_LEVELS| ==> GAME_LEVELS[k].id != id
  {
    FindLevel(GAME_LEVELS, id)
  }

  /** The levels are numbered 1 to 7 in order, so level `id` is the entry at `id - 1`. */
  lemma GetLevelByNumber(id: int)
    ensures 1 <= id <= 7 ==> GetLevel(id) == Some(GAME_LEVELS[id - 1])
    ensures !(1 <= id <= 7) ==> GetLevel(id) == None
  {
    assert forall k :: 0 <= k < |GAME_LEVELS| ==> GAME_LEVELS[k].id == k + 1;
    FindNumbered(GAME_LEVELS, id);
  }

  /** In a list whose ids count up from 1, the level with id `id` is the entry at `id - 1`. */
  lemma FindNumbered(levels: seq<GameLevel>, id: int)
    requires forall k :: 0 <= k < |levels| ==> levels[k].id == k + 1
    ensures FindLevel(levels, id) == if 1 <= id <= |levels| then Some(levels[id - 1]) else None
  {
    if 1 <= id <= |levels| {
      assert levels[id - 1].id == id;
    }
  }

  /** `NOTE_OCTAVES[n] || `${n}4``: the staff note of a letter, octave 4 for anything unlisted. */
  function OctaveNote(n: string): (r: string)
    ensures n in NOTE_OCTAVES ==> r == NOTE_OCTAVES[n]
    ensures n !in NOTE_OCTAVES ==> r == n + "4"
  {
    if n in NOTE_OCTAVES && NOTE_OCTAVES[n] != "" then NOTE_OCTAVES[n] else n + "4"
  }

  /** Every letter keeps its name and gains an octave digit: 4 from E up, 5 for C and D. */
  lemma OctaveNoteShape(n: string)
    ensures |OctaveNote(n)| == |n| + 1 && OctaveNote(n)[..|n|] == n
    ensures OctaveNote(n)[|n|] == (if n == "C" || n == "D" then '5' else '4')
  {
    if n in NOTE_OCTAVES {
      assert n == "E" || n == "F" || n == "G" || n == "A" || n == "B" || n == "C" || n == "D";
    } else {
      assert (n + "4")[..|n|] == n;
    }
  }

  /** The notes of a level, each with its octave, in the level's order. */
  function GetLevelNotes(level: GameLevel): (r: seq<string>)
    ensures |r| == |level.notes|
    ensures forall k :: 0 <= k < |r| ==> r[k] == OctaveNote(level.notes[k])
  {
    seq(|level.notes|, k requires 0 <= k < |level.notes| => OctaveNote(level.notes[k]))
  }

  /** Each listed staff note is a natural between E4 and D5. */
  lemma StaffNote(n: string)
    requires n in NOTE_OCTAVES
    ensures var p := Module12Games.ParsePitch(NOTE_OCTAVES[n]);
            p.Some? && p.value.accidental == 0
            && ((p.value.octave == 4 && p.value.letter >= 2) || (p.value.octave == 5 && p.value.letter <= 1))
  {
  }

  /**
   * Every note of every level is a natural note the octave games can compare,
   * and none is lower than E4 or higher than D5.
   */
  lemma LevelNotesOnTheStaff(i: int, k: int)
    requires 0 <= i < |GAME_LEVELS| && 0 <= k < |GAME_LEVELS[i].notes|
    ensures var note := GetLevelNotes(GAME_LEVELS[i])[k];
            Module12Games.ParsePitch(note).Some?
            && Module12Games.ComparePitch(note, Module12Games.PitchName(Module12Games.Pitch(2, 0, 4))) >= 0
            && Module12Games.ComparePitch(note, Module12Games.PitchName(Module12Games.Pitch(1, 0, 5))) <= 0
  {
    var n := GAME_LEVELS[i].notes[k];
    assert n in NOTE_OCTAVES;
    var note := GetLevelNotes(GAME_LEVELS[i])[k];
    assert note == NOTE_OCTAVES[n];
    StaffNote(n);
    var p := Module12Games.ParsePitch(note).value;
    Module12Games.PitchNameOfParse(note);
    Module12Games.CompareIsScoreOrder(p, Module12Games.Pitch(2, 0, 4));
    Module12Games.CompareIsScoreOrder(p, Module12Games.Pitch(1, 0, 5));
  }

  /** The level stars are the octave games' stars: 3 from 100, 2 from 80, 1 from 60. */
  function CalculateStars(percentage: real): (stars: int)
    ensures 0 <= stars <= 3
    ensures stars == 3 <==> percentage >= 100.0
    ensures stars >= 2 <==> percentage >= 80.0
    ensures stars >= 1 <==> percentage >= 60.0
  {
    Module12Games.CalculateStars(percentage)
  }

  /** A better percentage never earns fewer stars, and the thresholds are 60, 80 and 100. */
  lemma LevelStarsMonotone(p: real, q: real)
    requires p <= q
    ensures CalculateStars(p) <= CalculateStars(q)
    ensures CalculateStars(p) >= 1 <==> p >= 60.0
  {
    Module12Games.StarsMonotone(p, q);
  }
}
