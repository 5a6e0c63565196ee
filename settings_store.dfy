/**
 * The user settings: note names in Latin letters or solfège, the colour
 * theme, the Vietnamese-names mode and the metronome tempo, which is kept
 * between 40 and 240 beats per minute.
 */
module SettingsStore {
  datatype NotationSystem = Latin | Solfege

  datatype Theme = Light | Dark | System

  datatype Settings = Settings(notationSystem: NotationSystem, theme: Theme, vnMode: bool, bpm: int)

  const MIN_BPM := 40
  const MAX_BPM := 240

  const INITIAL := Settings(Latin, System, false, 120)

  /** `Math.max(40, Math.min(240, bpm))` */
  function ClampBpm(bpm: int): (r: int)
    ensures MIN_BPM <= r <= MAX_BPM
    ensures MIN_BPM <= bpm <= MAX_BPM ==> r == bpm
    ensures bpm < MIN_BPM ==> r == MIN_BPM
    ensures bpm > MAX_BPM ==> r == MAX_BPM
  {
    var upper := if bpm < MAX_BPM then bpm else MAX_BPM;
    if upper > MIN_BPM then upper else MIN_BPM
  }

  /** The tempo is in range. */
  predicate BpmInRange(s: Settings)
  {
    MIN_BPM <= s.bpm <= MAX_BPM
  }

  function OtherNotation(n: NotationSystem): (r: NotationSystem)
    ensures r != n
  {
    if n == Latin then Solfege else Latin
  }

  /** `toggleNotationSystem`: Latin and solfège swap; nothing else changes. */
  function NotationToggled(s: Settings): (r: Settings)
    ensures r.notationSystem != s.notationSystem && r.(notationSystem := s.notationSystem) == s
  {
    s.(notationSystem := OtherNotation(s.notationSystem))
  }

  /** `toggleTheme`: light goes to dark, and both dark and system go to light. */
  function ThemeToggled(s: Settings): (r: Settings)
    ensures r.theme == (if s.theme == Light then Dark else Light)
    ensures r.theme != s.theme && r.(theme := s.theme) == s
  {
    s.(theme := if s.theme == Light then Dark else Light)
  }

  /** `toggleVnMode`: the mode flips; nothing else changes. */
  function VnModeToggled(s: Settings): (r: Settings)
    ensures r.vnMode != s.vnMode && r.(vnMode := s.vnMode) == s
  {
    s.(vnMode := !s.vnMode)
  }

  /** `setBpm`: the tempo asked for, brought into range; nothing else changes. */
  function BpmSet(s: Settings, bpm: int): (r: Settings)
    ensures BpmInRange(r) && r.(bpm := s.bpm) == s
    ensures MIN_BPM <= bpm <= MAX_BPM ==> r.bpm == bpm
  {
    s.(bpm := ClampBpm(bpm))
  }

  /** `adjustBpm`: the tempo moved by `delta`, brought into range. */
  function BpmAdjusted(s: Settings, delta: int): (r: Settings)
    ensures BpmInRange(r) && r.(bpm := s.bpm) == s
  {
    s.(bpm := ClampBpm(s.bpm + delta))
  }

  /** Clamping a tempo already clamped changes nothing. */
  lemma ClampIdempotent(bpm: int)
    ensures ClampBpm(ClampBpm(bpm)) == ClampBpm(bpm)
  {
  }

  /** Clamping keeps the order of tempos. */
  lemma ClampMonotone(a: int, b: int)
    requires a <= b
    ensures ClampBpm(a) <= ClampBpm(b)
  {
  }

  /** Adjusting by `delta` is setting the tempo to `bpm + delta`. */
  lemma AdjustIsSet(s: Settings, delta: int)
    ensures BpmAdjusted(s, delta) == BpmSet(s, s.bpm + delta)
  {
  }

  /** Adjusting and adjusting back returns to the tempo when neither step goes past a bound. */
  lemma AdjustUpAndDown(s: Settings, delta: int)
    requires BpmInRange(s) && MIN_BPM <= s.bpm + delta <= MAX_BPM
    ensures BpmAdjusted(BpmAdjusted(s, delta), -delta) == s
  {
  }

  /** An adjustment that overshoots sticks at the bound, so stepping back does not return. */
  lemma AdjustPastBoundLosesTempo()
    ensures BpmAdjusted(BpmAdjusted(INITIAL, 200), -200).bpm == MIN_BPM
  {
  }

  /** The notation and Vietnamese-mode toggles undo themselves. */
  lemma TogglesAreInvolutions(s: Settings)
    ensures NotationToggled(NotationToggled(s)) == s
    ensures VnModeToggled(VnModeToggled(s)) == s
  {
  }

  /** The theme toggle is not an involution: from the system theme two toggles end in dark. */
  lemma ThemeToggleTwice(s: Settings)
    ensures ThemeToggled(ThemeToggled(s)).theme == (if s.theme == Light then Light else Dark)
  {
  }

  /** The settings store. */
  class SettingsStore {
    var notationSystem: NotationSystem
    var theme: Theme
    var vnMode: bool
    var bpm: int

    function State(): Settings
      reads this
    {
      Settings(notationSystem, theme, vnMode, bpm)
    }

    predicate Valid()
      reads this
    {
      BpmInRange(State())
    }

    constructor ()
      ensures Valid() && State() == INITIAL
    {
      notationSystem, theme, vnMode, bpm := Latin, System, false, 120;
    }

    method SetNotationSystem(system: NotationSystem)
      requires Valid()
      modifies this
      ensures Valid() && State() == old(State()).(notationSystem := system)
    {
      notationSystem := system;
    }

    method ToggleNotationSystem()
      requires Valid()
      modifies this
      ensures Valid() && State() == NotationToggled(old(State()))
    {
      notationSystem := if notationSystem == Latin then Solfege else Latin;
    }

    method SetTheme(t: Theme)
      requires Valid()
      modifies this
      ensures Valid() && State() == old(State()).(theme := t)
    {
      theme := t;
    }

    method ToggleTheme()
      requires Valid()
      modifies this
      ensures Valid() && State() == ThemeToggled(old(State()))
    {
      theme := if theme == Light then Dark else Light;
    }

    method SetVnMode(mode: bool)
      requires Valid()
      modifies this
      ensures Valid() && State() == old(State()).(vnMode := mode)
    {
      vnMode := mode;
    }

    method ToggleVnMode()
      requires Valid()
      modifies this
      ensures Valid() && State() == VnModeToggled(old(State()))
    {
      vnMode := !vnMode;
    }

    method SetBpm(value: int)
      requires Valid()
      modifies this
      ensures Valid() && State() == BpmSet(old(State()), value)
    {
      bpm := ClampBpm(value);
    }

    method AdjustBpm(delta: int)
      requires Valid()
      modifies this
      ensures Valid() && State() == BpmAdjusted(old(State()), delta)
    {
      bpm := ClampBpm(bpm + delta);
    }
  }
}
