/**
 * The module overview store: the five course modules with their progress
 * (a percentage) and lock state, the current module and lesson, and the XP
 * total shown on the dashboard.
 */
module ModuleStore {
  datatype Module = Module(id: int, name: string, subtitle: string, progress: int, locked: bool)

  datatype ModuleState = ModuleState(modules: seq<Module>, currentModuleId: int, currentLessonIndex: int, totalXP: int)

  const DEFAULT_MODULES := [
    Module(1, "Fundamentals", "Pitch & Notation", 100, false),
    Module(2, "Rhythm & Meter", "Time & Pulse", 20, false),
    Module(3, "Scales & Melody", "Patterns & Motion", 0, false),
    Module(4, "Harmony", "Chords & Progressions", 0, true),
    Module(5, "Composition", "Form & Structure", 0, true)
  ]

  const INITIAL := ModuleState(DEFAULT_MODULES, 1, 0, 450)

  /** Every module's progress is a percentage. */
  predicate ProgressInRange(s: ModuleState)
  {
    forall k :: 0 <= k < |s.modules| ==> 0 <= s.modules[k].progress <= 100
  }

  /** `Math.min(100, Math.max(0, progress))` */
  function ClampPercent(progress: int): (r: int)
    ensures 0 <= r <= 100
    ensures 0 <= progress <= 100 ==> r == progress
    ensures progress < 0 ==> r == 0
    ensures progress > 100 ==> r == 100
  {
    var lower := if progress > 0 then progress else 0;
    if lower < 100 then lower else 100
  }

  /** `updateProgress`: every module with the id gets the clamped progress; the others are unchanged. */
  function ProgressUpdated(s: ModuleState, moduleId: int, progress: int): (r: ModuleState)
    ensures |r.modules| == |s.modules|
    ensures forall k :: 0 <= k < |s.modules| ==>
      r.modules[k] == if s.modules[k].id == moduleId then s.modules[k].(progress := ClampPercent(progress)) else s.modules[k]
    ensures ProgressInRange(s) ==> ProgressInRange(r)
    ensures r.(modules := s.modules) == s
  {
    var modules := seq(|s.modules|, k requires 0 <= k < |s.modules| =>
      var m := s.modules[k];
      if m.id == moduleId then m.(progress := ClampPercent(progress)) else m);
    s.(modules := modules)
  }

  /** `unlockModule`: every module with the id is unlocked; nothing else changes. */
  function ModuleUnlocked(s: ModuleState, moduleId: int): (r: ModuleState)
    ensures |r.modules| == |s.modules|
    ensures forall k :: 0 <= k < |s.modules| ==>
      r.modules[k] == if s.modules[k].id == moduleId then s.modules[k].(locked := false) else s.modules[k]
    ensures ProgressInRange(s) ==> ProgressInRange(r)
    ensures r.(modules := s.modules) == s
  {
    var modules := seq(|s.modules|, k requires 0 <= k < |s.modules| =>
      var m := s.modules[k];
      if m.id == moduleId then m.(locked := false) else m);
    s.(modules := modules)
  }

  /** `addXP`: the total grows by exactly the amount (which may be negative). */
  function XPAdded(s: ModuleState, amount: int): (r: ModuleState)
    ensures r.totalXP - s.totalXP == amount && r.(totalXP := s.totalXP) == s
  {
    s.(totalXP := s.totalXP + amount)
  }

  /** Some module carries the id. */
  predicate HasModule(s: ModuleState, moduleId: int)
  {
    exists k :: 0 <= k < |s.modules| && s.modules[k].id == moduleId
  }

  /** An id that no module carries leaves the modules as they are. */
  lemma UnknownIdChangesNothing(s: ModuleState, moduleId: int, progress: int)
    requires !HasModule(s, moduleId)
    ensures ProgressUpdated(s, moduleId, progress) == s
    ensures ModuleUnlocked(s, moduleId) == s
  {
    assert ProgressUpdated(s, moduleId, progress).modules == s.modules;
    assert ModuleUnlocked(s, moduleId).modules == s.modules;
  }

  /** Unlocking twice is unlocking once. */
  lemma UnlockIdempotent(s: ModuleState, moduleId: int)
    ensures ModuleUnlocked(ModuleUnlocked(s, moduleId), moduleId) == ModuleUnlocked(s, moduleId)
  {
    var once := ModuleUnlocked(s, moduleId);
    assert ModuleUnlocked(once, moduleId).modules == once.modules;
  }

  /** A second progress update to the same module overrides the first. */
  lemma LastProgressWins(s: ModuleState, moduleId: int, first: int, second: int)
    ensures ProgressUpdated(ProgressUpdated(s, moduleId, first), moduleId, second) == ProgressUpdated(s, moduleId, second)
  {
    var a := ProgressUpdated(ProgressUpdated(s, moduleId, first), moduleId, second);
    var b := ProgressUpdated(s, moduleId, second);
    assert a.modules == b.modules;
  }

  /** Unlocking and updating progress touch different fields, so their order does not matter. */
  lemma UnlockAndProgressCommute(s: ModuleState, unlockId: int, progressId: int, progress: int)
    ensures ModuleUnlocked(ProgressUpdated(s, progressId, progress), unlockId)
         == ProgressUpdated(ModuleUnlocked(s, unlockId), progressId, progress)
  {
    var a := ModuleUnlocked(ProgressUpdated(s, progressId, progress), unlockId);
    var b := ProgressUpdated(ModuleUnlocked(s, unlockId), progressId, progress);
    assert a.modules == b.modules;
  }

  /** The default modules are within range, and only Harmony and Composition start locked. */
  lemma InitialModules()
    ensures ProgressInRange(INITIAL)
    ensures forall k :: 0 <= k < |DEFAULT_MODULES| ==> (DEFAULT_MODULES[k].locked <==> DEFAULT_MODULES[k].id >= 4)
  {
  }

  /** The module overview store. */
  class ModuleStore {
    var modules: seq<Module>
    var currentModuleId: int
    var currentLessonIndex: int
    var totalXP: int

    function State(): ModuleState
      reads this
    {
      ModuleState(modules, currentModuleId, currentLessonIndex, totalXP)
    }

    predicate Valid()
      reads this
    {
      ProgressInRange(State())
    }

    constructor ()
      ensures Valid() && State() == INITIAL
    {
      modules, currentModuleId, currentLessonIndex, totalXP := DEFAULT_MODULES, 1, 0, 450;
    }

    method SetCurrentModule(id: int)
      requires Valid()
      modifies this
      ensures Valid() && State() == old(State()).(currentModuleId := id)
    {
      currentModuleId := id;
    }

    method SetCurrentLesson(index: int)
      requires Valid()
      modifies this
      ensures Valid() && State() == old(State()).(currentLessonIndex := index)
    {
      currentLessonIndex := index;
    }

    method UpdateProgress(moduleId: int, progress: int)
      requires Valid()
      modifies this
      ensures Valid() && State() == ProgressUpdated(old(State()), moduleId, progress)
    {
      modules := ProgressUpdated(State(), moduleId, progress).modules;
    }

    method AddXP(amount: int)
      requires Valid()
      modifies this
      ensures Valid() && State() == XPAdded(old(State()), amount)
    {
      totalXP := totalXP + amount;
    }

    method UnlockModule(moduleId: int)
      requires Valid()
      modifies this
      ensures Valid() && State() == ModuleUnlocked(old(State()), moduleId)
    {
      modules := ModuleUnlocked(State(), moduleId).modules;
    }
  }
}
