/**
 * Merging the progress kept in the browser with the copy kept in the cloud:
 * the union of what was completed, the better result of every level, the
 * higher score of every submodule, the larger of every total, and the
 * position from the browser.
 */
module ProgressSync {
  import opened Wrappers
  import opened Text

  /** A level's result; `bestTime` is None where the stored record has none. */
  datatype LevelCompletion = LevelCompletion(percentage: int, stars: int, passed: bool, bestTime: Option<int>)

  datatype UserProgress = UserProgress(
    completedSubmodules: seq<string>,
    completedLevels: map<string, LevelCompletion>,
    submoduleScores: map<string, int>,
    totalXP: int,
    streakDays: int,
    lastActiveDate: string,
    practiceSessionsCompleted: int,
    totalPracticeMinutes: int,
    currentModuleId: int,
    currentSubmoduleId: string)

  function Max(a: int, b: int): int { if a < b then b else a }

  function Min(a: int, b: int): int { if a < b then a else b }

  // ---------------------------------------------------------------------
  // One level
  // ---------------------------------------------------------------------

  /** A best time counts only when it is present and not 0 (JavaScript truthiness). */
  predicate TimeSet(t: Option<int>)
  {
    t.Some? && t.value != 0
  }

  /** `a && b ? Math.min(a, b) : a || b` on two best times. */
  function BetterTime(local: Option<int>, remote: Option<int>): (t: Option<int>)
    ensures TimeSet(local) && TimeSet(remote) ==> t == Some(Min(local.value, remote.value))
    ensures TimeSet(local) && !TimeSet(remote) ==> t == local
    ensures !TimeSet(local) ==> t == remote
  {
    if TimeSet(local) && TimeSet(remote) then Some(Min(local.value, remote.value))
    else if TimeSet(local) then local
    else remote
  }

  /** The better of two results of the same level. */
  function BetterLevel(local: LevelCompletion, remote: LevelCompletion): (r: LevelCompletion)
    ensures r.percentage >= local.percentage && r.percentage >= remote.percentage
    ensures r.percentage == local.percentage || r.percentage == remote.percentage
    ensures r.stars >= local.stars && r.stars >= remote.stars
    ensures r.stars == local.stars || r.stars == remote.stars
    ensures r.passed <==> local.passed || remote.passed
  {
    LevelCompletion(
      Max(local.percentage, remote.percentage),
      Max(local.stars, remote.stars),
      local.passed || remote.passed,
      BetterTime(local.bestTime, remote.bestTime))
  }

  /** A set best time never gets worse: the merged one is set and no larger. */
  lemma BetterTimeKeepsBest(local: Option<int>, remote: Option<int>)
    ensures TimeSet(local) ==> TimeSet(BetterTime(local, remote)) && BetterTime(local, remote).value <= local.value
    ensures TimeSet(remote) ==> TimeSet(BetterTime(local, remote)) && BetterTime(local, remote).value <= remote.value
  {
  }

  // ---------------------------------------------------------------------
  // The records merged key by key
  // ---------------------------------------------------------------------

  /** Every level of either side; a level on both sides gets the better of the two results. */
  function MergedLevels(local: map<string, LevelCompletion>, remote: map<string, LevelCompletion>): (m: map<string, LevelCompletion>)
    ensures m.Keys == local.Keys + remote.Keys
  {
    map k | k in local.Keys + remote.Keys ::
      if k in local && k in remote then BetterLevel(local[k], remote[k])
      else if k in local then local[k]
      else remote[k]
  }

  /** A merged level is at least as good as the same level on either side, and a set best time stays set and no worse. */
  lemma MergedLevelsNoWorse(local: map<string, LevelCompletion>, remote: map<string, LevelCompletion>, k: string)
    requires k in local || k in remote
    ensures var r := MergedLevels(local, remote)[k];
      && (k in local ==> r.percentage >= local[k].percentage && r.stars >= local[k].stars && (local[k].passed ==> r.passed))
      && (k in remote ==> r.percentage >= remote[k].percentage && r.stars >= remote[k].stars && (remote[k].passed ==> r.passed))
      && (k in local && TimeSet(local[k].bestTime) ==> TimeSet(r.bestTime) && r.bestTime.value <= local[k].bestTime.value)
      && (k in remote && TimeSet(remote[k].bestTime) ==> TimeSet(r.bestTime) && r.bestTime.value <= remote[k].bestTime.value)
  {
    if k in local && k in remote {
      BetterTimeKeepsBest(local[k].bestTime, remote[k].bestTime);
    }
  }

  /** The score a local entry is merged with: the remote one, or 0 when there is none. */
  function RemoteScore(remote: map<string, int>, k: string): int
  {
    if k in remote then remote[k] else 0
  }

  /** Every submodule scored on either side with the higher score; a local-only score is raised to at least 0. */
  function MergedScores(local: map<string, int>, remote: map<string, int>): (m: map<string, int>)
    ensures m.Keys == local.Keys + remote.Keys
  {
    map k | k in local.Keys + remote.Keys ::
      if k in local then Max(local[k], RemoteScore(remote, k)) else remote[k]
  }

  /**
   * The loop over `Object.entries(local.completedLevels)` writing into a copy of
   * the remote levels. Each entry writes its own key, so the order of the keys
   * does not matter.
   */
  method MergeLevels(local: map<string, LevelCompletion>, remote: map<string, LevelCompletion>)
    returns (completedLevels: map<string, LevelCompletion>)
    ensures completedLevels == MergedLevels(local, remote)
  {
    completedLevels := remote;
    var todo := local.Keys;
    while todo != {}
      invariant todo <= local.Keys
      invariant completedLevels.Keys == remote.Keys + (local.Keys - todo)
      invariant forall k :: k in completedLevels ==>
        completedLevels[k] == (if k in local && k !in todo then MergedLevels(local, remote)[k] else remote[k])
      decreases todo
    {
      var key :| key in todo;
      var localLevel := local[key];
      if key !in completedLevels {
        completedLevels := completedLevels[key := localLevel];
      } else {
        var remoteLevel := completedLevels[key];
        completedLevels := completedLevels[key := BetterLevel(localLevel, remoteLevel)];
      }
      todo := todo - {key};
    }
  }

  /** The loop over `Object.entries(local.submoduleScores)` writing into a copy of the remote scores. */
  method MergeScores(local: map<string, int>, remote: map<string, int>) returns (submoduleScores: map<string, int>)
    ensures submoduleScores == MergedScores(local, remote)
  {
    submoduleScores := remote;
    var todo := local.Keys;
    while todo != {}
      invariant todo <= local.Keys
      invariant submoduleScores.Keys == remote.Keys + (local.Keys - todo)
      invariant forall k :: k in submoduleScores ==>
        submoduleScores[k] == (if k in local && k !in todo then MergedScores(local, remote)[k] else remote[k])
      decreases todo
    {
      var key :| key in todo;
      var current := if key in submoduleScores then submoduleScores[key] else 0;
      submoduleScores := submoduleScores[key := Max(local[key], current)];
      todo := todo - {key};
    }
  }

  // ---------------------------------------------------------------------
  // Dates
  // ---------------------------------------------------------------------

  /** JavaScript's `a > b` on strings: the first differing character decides, and a proper prefix is smaller. */
  predicate StringAfter(a: string, b: string)
  {
    if a == [] then false
    else if b == [] then true
    else if a[0] != b[0] then a[0] > b[0]
    else StringAfter(a[1..], b[1..])
  }

  /** Of two different strings exactly one comes after the other, and none comes after itself. */
  lemma {:induction false} StringAfterIsTotal(a: string, b: string)
    ensures a == b ==> !StringAfter(a, b)
    ensures a != b ==> (StringAfter(a, b) <==> !StringAfter(b, a))
  {
    if a != [] && b != [] && a[0] == b[0] {
      StringAfterIsTotal(a[1..], b[1..]);
      if a[1..] == b[1..] {
        assert a == [a[0]] + a[1..] && b == [b[0]] + b[1..];
      }
    }
  }

  /** The later of two dates in `YYYY-MM-DD` form, compared as strings. */
  function LaterDate(local: string, remote: string): (d: string)
    ensures d == local || d == remote
  {
    if StringAfter(local, remote) then local else remote
  }

  /** The later date is not before either of the two. */
  lemma LaterDateIsLatest(local: string, remote: string)
    ensures !StringAfter(local, LaterDate(local, remote)) && !StringAfter(remote, LaterDate(local, remote))
  {
    StringAfterIsTotal(local, remote);
    StringAfterIsTotal(local, local);
    StringAfterIsTotal(remote, remote);
  }

  // ---------------------------------------------------------------------
  // The whole merge
  // ---------------------------------------------------------------------

  /** What `mergeProgress` returns. */
  function Merged(local: UserProgress, remote: UserProgress): (r: UserProgress)
  {
    UserProgress(
      Dedupe(local.completedSubmodules + remote.completedSubmodules),
      MergedLevels(local.completedLevels, remote.completedLevels),
      MergedScores(local.submoduleScores, remote.submoduleScores),
      Max(local.totalXP, remote.totalXP),
      Max(local.streakDays, remote.streakDays),
      LaterDate(local.lastActiveDate, remote.lastActiveDate),
      Max(local.practiceSessionsCompleted, remote.practiceSessionsCompleted),
      Max(local.totalPracticeMinutes, remote.totalPracticeMinutes),
      local.currentModuleId,
      local.currentSubmoduleId)
  }

  /** `mergeProgress` */
  method MergeProgress(local: UserProgress, remote: UserProgress) returns (merged: UserProgress)
    ensures merged == Merged(local, remote)
  {
    var completedSubmodules := Dedupe(local.completedSubmodules + remote.completedSubmodules);
    var completedLevels := MergeLevels(local.completedLevels, remote.completedLevels);
    var submoduleScores := MergeScores(local.submoduleScores, remote.submoduleScores);
    merged := UserProgress(
      completedSubmodules,
      completedLevels,
      submoduleScores,
      Max(local.totalXP, remote.totalXP),
      Max(local.streakDays, remote.streakDays),
      if StringAfter(local.lastActiveDate, remote.lastActiveDate) then local.lastActiveDate else remote.lastActiveDate,
      Max(local.practiceSessionsCompleted, remote.practiceSessionsCompleted),
      Max(local.totalPracticeMinutes, remote.totalPracticeMinutes),
      local.currentModuleId,
      local.currentSubmoduleId);
  }

  /**
   * Nothing is lost: the completed submodules are exactly those of either
   * side, each once; a score on both sides becomes the higher one; every
   * level of either side is kept; totals are the larger; the position is
   * the local one.
   */
  lemma MergeKeepsEverything(local: UserProgress, remote: UserProgress)
    ensures var r := Merged(local, remote);
      && NoDuplicates(r.completedSubmodules)
      && (forall s :: s in r.completedSubmodules <==> s in local.completedSubmodules || s in remote.completedSubmodules)
      && r.completedLevels.Keys == local.completedLevels.Keys + remote.completedLevels.Keys
      && r.submoduleScores.Keys == local.submoduleScores.Keys + remote.submoduleScores.Keys
      && r.totalXP >= local.totalXP && r.totalXP >= remote.totalXP
      && r.streakDays >= local.streakDays && r.streakDays >= remote.streakDays
      && r.practiceSessionsCompleted >= local.practiceSessionsCompleted
      && r.practiceSessionsCompleted >= remote.practiceSessionsCompleted
      && r.totalPracticeMinutes >= local.totalPracticeMinutes && r.totalPracticeMinutes >= remote.totalPracticeMinutes
      && (r.totalXP == local.totalXP || r.totalXP == remote.totalXP)
      && (r.streakDays == local.streakDays || r.streakDays == remote.streakDays)
      && (r.practiceSessionsCompleted == local.practiceSessionsCompleted
          || r.practiceSessionsCompleted == remote.practiceSessionsCompleted)
      && (r.totalPracticeMinutes == local.totalPracticeMinutes || r.totalPracticeMinutes == remote.totalPracticeMinutes)
      && (r.lastActiveDate == local.lastActiveDate || r.lastActiveDate == remote.lastActiveDate)
      && !StringAfter(local.lastActiveDate, r.lastActiveDate) && !StringAfter(remote.lastActiveDate, r.lastActiveDate)
      && r.currentModuleId == local.currentModuleId && r.currentSubmoduleId == local.currentSubmoduleId
  {
    LaterDateIsLatest(local.lastActiveDate, remote.lastActiveDate);
  }

  /** A score present on both sides becomes the larger of the two. */
  lemma MergedScoreIsMax(local: map<string, int>, remote: map<string, int>, k: string)
    requires k in local && k in remote
    ensures MergedScores(local, remote)[k] == Max(local[k], remote[k])
    ensures MergedScores(local, remote)[k] >= local[k] && MergedScores(local, remote)[k] >= remote[k]
  {
  }

  /** Merging progress with itself changes nothing when no submodule is listed twice. */
  lemma MergeWithItself(p: UserProgress)
    requires NoDuplicates(p.completedSubmodules)
    ensures Merged(p, p) == p
  {
    DedupeTwice(p.completedSubmodules);
    LevelsWithThemselves(p.completedLevels);
    ScoresWithThemselves(p.submoduleScores);
    StringAfterIsTotal(p.lastActiveDate, p.lastActiveDate);
  }

  lemma LevelsWithThemselves(levels: map<string, LevelCompletion>)
    ensures MergedLevels(levels, levels) == levels
  {
    var merged := MergedLevels(levels, levels);
    forall k | k in merged ensures merged[k] == levels[k] {
      var l := levels[k];
      assert BetterLevel(l, l) == l;
    }
  }

  lemma ScoresWithThemselves(scores: map<string, int>)
    ensures MergedScores(scores, scores) == scores
  {
  }

  /** `[...new Set(s.concat(s))]` is `s` when `s` has no repeats. */
  lemma {:induction false} DedupeTwice(s: seq<string>)
    requires NoDuplicates(s)
    ensures Dedupe(s + s) == s
    decreases |s|
  {
    DedupeAppendSeen(s, s);
  }

  /** Appending elements that were all seen already leaves the distinct elements as they were. */
  lemma {:induction false} DedupeAppendSeen(s: seq<string>, extra: seq<string>)
    requires NoDuplicates(s)
    requires forall x :: x in extra ==> x in s
    ensures Dedupe(s + extra) == s
    decreases |extra|
  {
    if extra == [] {
      assert s + extra == s;
      DedupeOfDistinct(s);
    } else {
      var init := extra[..|extra| - 1];
      DedupeAppendSeen(s, init);
      assert (s + extra)[..|s + extra| - 1] == s + init;
      assert (s + extra)[|s + extra| - 1] == extra[|extra| - 1];
      assert extra[|extra| - 1] in extra;
    }
  }
}
