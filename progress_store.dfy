/**
 * The learner's progress: completed submodules, experience points (XP), the
 * daily streak, practice totals and the best score of each submodule.
 *
 * Each action is a function from one progress value to the next; the
 * `ProgressStore` class holds the fields the store mutates and its methods
 * are proved to move the state as those functions say.
 */
module ProgressStore {
  import opened Text

  const XP_COMPLETE_SUBMODULE := 50
  const XP_PERFECT_SCORE := 25
  const XP_STREAK_BONUS := 10

  datatype Progress = Progress(
    completedSubmodules: seq<string>,
    currentModuleId: int,
    currentSubmoduleId: string,
    totalXP: int,
    streakDays: int,
    lastActiveDate: string,
    practiceSessionsCompleted: int,
    totalPracticeMinutes: int,
    submoduleScores: map<string, int>)

  /** `initialState` */
  const INITIAL := Progress([], 1, "1.1", 0, 0, "", 0, 0, map[])

  /**
   * What the actions keep: no submodule is listed twice, the counters are
   * not negative, and once there is an active date the streak is at least 1.
   */
  predicate ProgressInvariant(p: Progress)
  {
    && NoDuplicates(p.completedSubmodules)
    && p.streakDays >= 0
    && (p.lastActiveDate != "" ==> p.streakDays >= 1)
    && p.practiceSessionsCompleted >= 0
  }

  // ---------------------------------------------------------------------
  // Actions
  // ---------------------------------------------------------------------

  /** `completeSubmodule`: a new submodule is listed and earns 50 XP; a listed one changes nothing. */
  function SubmoduleCompleted(p: Progress, id: string): (q: Progress)
    ensures id in q.completedSubmodules
    ensures forall x :: x in q.completedSubmodules <==> x in p.completedSubmodules || x == id
    ensures q.totalXP == p.totalXP + (if id in p.completedSubmodules then 0 else XP_COMPLETE_SUBMODULE)
    ensures id in p.completedSubmodules ==> q == p
    ensures id !in p.completedSubmodules ==> q.completedSubmodules == p.completedSubmodules + [id]
    ensures q.(completedSubmodules := p.completedSubmodules, totalXP := p.totalXP) == p
    ensures ProgressInvariant(p) ==> ProgressInvariant(q)
  {
    if id in p.completedSubmodules then p
    else p.(completedSubmodules := p.completedSubmodules + [id], totalXP := p.totalXP + XP_COMPLETE_SUBMODULE)
  }

  /** `setCurrentPosition` */
  function PositionSet(p: Progress, moduleId: int, submoduleId: string): (q: Progress)
    ensures q.currentModuleId == moduleId && q.currentSubmoduleId == submoduleId
    ensures q.(currentModuleId := p.currentModuleId, currentSubmoduleId := p.currentSubmoduleId) == p
  {
    p.(currentModuleId := moduleId, currentSubmoduleId := submoduleId)
  }

  /** `addXP` */
  function XPAdded(p: Progress, amount: int): (q: Progress)
    ensures q.totalXP - p.totalXP == amount && q.(totalXP := p.totalXP) == p
  {
    p.(totalXP := p.totalXP + amount)
  }

  /**
   * `updateStreak`, with today's and yesterday's dates (the `YYYY-MM-DD`
   * part of the ISO timestamp) given by the caller instead of read from the clock.
   */
  function StreakUpdated(p: Progress, today: string, yesterday: string): (q: Progress)
    ensures q.lastActiveDate == today
    ensures ProgressInvariant(p) && today != "" ==> q.streakDays >= 1
    ensures q.totalXP == p.totalXP || q.totalXP == p.totalXP + XP_STREAK_BONUS
    ensures p.lastActiveDate == today ==> q == p
    ensures p.lastActiveDate != today && p.lastActiveDate == yesterday ==>
              q.streakDays == p.streakDays + 1 && q.totalXP == p.totalXP + XP_STREAK_BONUS
    ensures p.lastActiveDate != today && p.lastActiveDate != yesterday ==>
              q.streakDays == 1 && q.totalXP == p.totalXP
    ensures q.(streakDays := p.streakDays, lastActiveDate := p.lastActiveDate, totalXP := p.totalXP) == p
    ensures ProgressInvariant(p) ==> ProgressInvariant(q)
  {
    if p.lastActiveDate == today then p
    else if p.lastActiveDate == yesterday then
      p.(streakDays := p.streakDays + 1, lastActiveDate := today, totalXP := p.totalXP + XP_STREAK_BONUS)
    else p.(streakDays := 1, lastActiveDate := today)
  }

  /** `recordPracticeSession` */
  function PracticeRecorded(p: Progress, minutes: int): (q: Progress)
    ensures q.practiceSessionsCompleted == p.practiceSessionsCompleted + 1
    ensures q.totalPracticeMinutes - p.totalPracticeMinutes == minutes
    ensures q.(practiceSessionsCompleted := p.practiceSessionsCompleted,
               totalPracticeMinutes := p.totalPracticeMinutes) == p
  {
    p.(practiceSessionsCompleted := p.practiceSessionsCompleted + 1,
       totalPracticeMinutes := p.totalPracticeMinutes + minutes)
  }

  /** `state.submoduleScores[id] || 0`: the stored best, 0 when there is none. */
  function BestScore(p: Progress, id: string): int
  {
    if id in p.submoduleScores then p.submoduleScores[id] else 0
  }

  /**
   * `setSubmoduleScore`: the best score of the submodule becomes the larger
   * of the old best and the new score, and a first perfect score earns 25 XP.
   */
  function ScoreSet(p: Progress, id: string, score: int): (q: Progress)
    ensures BestScore(q, id) >= BestScore(p, id) && BestScore(q, id) >= score
    ensures BestScore(q, id) == BestScore(p, id) || BestScore(q, id) == score
    ensures forall other :: other != id ==> BestScore(q, other) == BestScore(p, other)
    ensures q.totalXP == p.totalXP + (if score == 100 && BestScore(p, id) < 100 then XP_PERFECT_SCORE else 0)
    ensures q.completedSubmodules == p.completedSubmodules
    ensures q.submoduleScores.Keys == p.submoduleScores.Keys + {id}
    ensures q.(submoduleScores := p.submoduleScores, totalXP := p.totalXP) == p
  {
    var currentBest := BestScore(p, id);
    var isPerfect := score == 100 && currentBest < 100;
    p.(submoduleScores := p.submoduleScores[id := if currentBest < score then score else currentBest],
       totalXP := p.totalXP + (if isPerfect then XP_PERFECT_SCORE else 0))
  }

  // ---------------------------------------------------------------------
  // Module progress
  // ---------------------------------------------------------------------

  /** The number of submodules of each module, 0 for a module that is not listed. */
  function SubmoduleCount(moduleId: int): (n: nat)
    ensures n <= 7
  {
    if moduleId == 1 then 5
    else if moduleId == 2 then 6
    else if moduleId == 3 then 6
    else if moduleId == 4 then 7
    else if moduleId == 5 then 6
    else 0
  }

  /** `getModuleSubmoduleIds`: "m.1" up to "m.n" for a module with n submodules. */
  function ModuleSubmoduleIds(moduleId: int): (ids: seq<string>)
    ensures |ids| == SubmoduleCount(moduleId)
    ensures forall i :: 0 <= i < |ids| ==> ids[i] == IntToString(moduleId) + "." + NatToString(i + 1)
  {
    seq(SubmoduleCount(moduleId), i requires 0 <= i < SubmoduleCount(moduleId) =>
      IntToString(moduleId) + "." + NatToString(i + 1))
  }

  /** The ids of a module are distinct, and each names its module and its 1-based place. */
  lemma ModuleSubmoduleIdsDistinct(moduleId: int)
    ensures |ModuleSubmoduleIds(moduleId)| == SubmoduleCount(moduleId)
    ensures NoDuplicates(ModuleSubmoduleIds(moduleId))
  {
    var ids := ModuleSubmoduleIds(moduleId);
    var prefix := IntToString(moduleId) + ".";
    forall i, j | 0 <= i < j < |ids| ensures ids[i] != ids[j] {
      NatToStringInjective(i + 1, j + 1);
      assert ids[i][|prefix|..] == NatToString(i + 1);
      assert ids[j][|prefix|..] == NatToString(j + 1);
    }
  }

  lemma ModuleSubmoduleIdsExample()
    ensures ModuleSubmoduleIds(1) == ["1.1", "1.2", "1.3", "1.4", "1.5"]
    ensures ModuleSubmoduleIds(6) == []
  {
    var ids := ModuleSubmoduleIds(1);
    assert NatToString(1) == "1" && NatToString(2) == "2" && NatToString(3) == "3";
    assert NatToString(4) == "4" && NatToString(5) == "5";
    assert ids[0] == "1.1" && ids[1] == "1.2" && ids[2] == "1.3" && ids[3] == "1.4" && ids[4] == "1.5";
  }

  lemma MulMono(x: nat, y: nat, d: nat)
    requires x <= y
    ensures x * d <= y * d
  {
  }

  lemma DivAtMost(a: nat, d: nat, q: nat)
    requires d > 0 && a < (q + 1) * d
    ensures a / d <= q
  {
    var r := a / d;
    assert r * d <= a;
    if r > q {
      MulMono(q + 1, r, d);
    }
  }

  lemma DivAtLeast(a: nat, d: nat, q: nat)
    requires d > 0 && q * d <= a
    ensures q <= a / d
  {
    var r := a / d;
    assert a < (r + 1) * d;
    if q > r {
      MulMono(r + 1, q, d);
    }
  }

  /** `Math.round(x / n * 100)` for `0 <= x <= n`: halves round up. */
  function Percent(x: nat, n: nat): (pct: nat)
    requires 0 < n && x <= n
    ensures pct <= 100
  {
    DivAtMost(200 * x + n, 2 * n, 100);
    (200 * x + n) / (2 * n)
  }

  /** With fewer than 200 parts, only all of them round to 100 percent and only none of them to 0. */
  lemma PercentEnds(x: nat, n: nat)
    requires 0 < n < 200 && x <= n
    ensures Percent(x, n) == 100 <==> x == n
    ensures Percent(x, n) == 0 <==> x == 0
  {
    if x == n {
      DivAtLeast(200 * x + n, 2 * n, 100);
    } else {
      DivAtMost(200 * x + n, 2 * n, 99);
    }
    if x == 0 {
      DivAtMost(200 * x + n, 2 * n, 0);
    } else {
      DivAtLeast(200 * x + n, 2 * n, 1);
    }
  }

  /** How many of the module's submodules are completed. */
  function CompletedCount(completed: seq<string>, moduleId: int): (c: nat)
    ensures c <= SubmoduleCount(moduleId)
  {
    |Filter((id: string) => id in completed, ModuleSubmoduleIds(moduleId))|
  }

  /** `getModuleProgress`: the rounded percentage of the module's submodules completed, 0 for an unknown module. */
  function ModuleProgress(completed: seq<string>, moduleId: int): (pct: nat)
    ensures pct <= 100
    ensures SubmoduleCount(moduleId) == 0 ==> pct == 0
  {
    var n := SubmoduleCount(moduleId);
    if n == 0 then 0 else Percent(CompletedCount(completed, moduleId), n)
  }

  /** Modules have at most seven submodules, so only a fully completed module shows 100. */
  lemma ModuleProgressFull(completed: seq<string>, moduleId: int)
    requires SubmoduleCount(moduleId) > 0
    ensures ModuleProgress(completed, moduleId) == 100 <==> forall id :: id in ModuleSubmoduleIds(moduleId) ==> id in completed
  {
    var ids := ModuleSubmoduleIds(moduleId);
    FilterKeepsCount((id: string) => id in completed, ids);
    PercentEnds(CompletedCount(completed, moduleId), |ids|);
  }

  /** ... and only a module with nothing completed shows 0. */
  lemma ModuleProgressEmpty(completed: seq<string>, moduleId: int)
    requires SubmoduleCount(moduleId) > 0
    ensures ModuleProgress(completed, moduleId) == 0 <==> forall id :: id in ModuleSubmoduleIds(moduleId) ==> id !in completed
  {
    var ids := ModuleSubmoduleIds(moduleId);
    var kept := Filter((id: string) => id in completed, ids);
    PercentEnds(|kept|, |ids|);
    if kept != [] {
      assert kept[0] in kept;
    }
  }

  /** Completing more submodules never lowers a module's progress. */
  lemma ModuleProgressGrows(p: Progress, id: string, moduleId: int)
    ensures ModuleProgress(p.completedSubmodules, moduleId) <= ModuleProgress(SubmoduleCompleted(p, id).completedSubmodules, moduleId)
  {
    var before := p.completedSubmodules;
    var after := SubmoduleCompleted(p, id).completedSubmodules;
    FilterMonotone((x: string) => x in before, (x: string) => x in after, ModuleSubmoduleIds(moduleId));
  }

  /** A filter that keeps more keeps at least as many elements. */
  lemma {:induction false} FilterMonotone<T(!new)>(small: T -> bool, large: T -> bool, s: seq<T>)
    requires forall x :: small(x) ==> large(x)
    ensures |Filter(small, s)| <= |Filter(large, s)|
  {
    if s != [] {
      FilterMonotone(small, large, s[1..]);
    }
  }

  // ---------------------------------------------------------------------
  // Properties over several actions
  // ---------------------------------------------------------------------

  /** Completing a submodule twice is completing it once: the XP is awarded once. */
  lemma CompleteIsIdempotent(p: Progress, id: string)
    ensures SubmoduleCompleted(SubmoduleCompleted(p, id), id) == SubmoduleCompleted(p, id)
  {
  }

  /** A second streak update on the same day changes nothing. */
  lemma StreakOncePerDay(p: Progress, today: string, yesterday: string)
    ensures StreakUpdated(StreakUpdated(p, today, yesterday), today, yesterday) == StreakUpdated(p, today, yesterday)
  {
  }

  /** Activity on consecutive days extends the streak by one and earns the bonus; a gap restarts it at 1. */
  lemma StreakAcrossDays(p: Progress, day1: string, day2: string, day3: string)
    requires day1 != day2 && day2 != day3 && day1 != day3
    requires p.lastActiveDate != day1 && p.lastActiveDate != day2
    ensures StreakUpdated(StreakUpdated(p, day2, day1), day3, day2).streakDays == 2
    ensures StreakUpdated(StreakUpdated(p, day2, day1), day3, day2).totalXP == p.totalXP + XP_STREAK_BONUS
  {
  }

  /** The best score of a submodule only rises, and the perfect-score bonus is paid at most once. */
  lemma PerfectBonusOnce(p: Progress, id: string, s1: int, s2: int)
    requires s1 == 100
    ensures ScoreSet(ScoreSet(p, id, s1), id, s2).totalXP == ScoreSet(p, id, s1).totalXP
    ensures BestScore(ScoreSet(ScoreSet(p, id, s1), id, s2), id) >= 100
  {
  }

  /** The practice totals after a list of sessions: one more session per entry and the sum of their minutes. */
  function PracticeAll(p: Progress, sessions: seq<int>): (q: Progress)
    decreases |sessions|
  {
    if sessions == [] then p else PracticeAll(PracticeRecorded(p, sessions[0]), sessions[1..])
  }

  function Sum(xs: seq<int>): int
  {
    if xs == [] then 0 else xs[0] + Sum(xs[1..])
  }

  lemma {:induction false} PracticeAllTotals(p: Progress, sessions: seq<int>)
    ensures PracticeAll(p, sessions).practiceSessionsCompleted == p.practiceSessionsCompleted + |sessions|
    ensures PracticeAll(p, sessions).totalPracticeMinutes == p.totalPracticeMinutes + Sum(sessions)
    ensures PracticeAll(p, sessions).totalXP == p.totalXP
    decreases |sessions|
  {
    if sessions != [] {
      PracticeAllTotals(PracticeRecorded(p, sessions[0]), sessions[1..]);
    }
  }

  // ---------------------------------------------------------------------
  // The store
  // ---------------------------------------------------------------------

  class ProgressStore {
    var completedSubmodules: seq<string>
    var currentModuleId: int
    var currentSubmoduleId: string
    var totalXP: int
    var streakDays: int
    var lastActiveDate: string
    var practiceSessionsCompleted: int
    var totalPracticeMinutes: int
    var submoduleScores: map<string, int>

    function State(): Progress
      reads this
    {
      Progress(completedSubmodules, currentModuleId, currentSubmoduleId, totalXP, streakDays,
               lastActiveDate, practiceSessionsCompleted, totalPracticeMinutes, submoduleScores)
    }

    predicate Valid()
      reads this
    {
      ProgressInvariant(State())
    }

    constructor ()
      ensures Valid() && State() == INITIAL
    {
      completedSubmodules, currentModuleId, currentSubmoduleId := [], 1, "1.1";
      totalXP, streakDays, lastActiveDate := 0, 0, "";
      practiceSessionsCompleted, totalPracticeMinutes, submoduleScores := 0, 0, map[];
    }

    method SetState(p: Progress)
      requires ProgressInvariant(p)
      modifies this
      ensures Valid() && State() == p
    {
      completedSubmodules, currentModuleId, currentSubmoduleId := p.completedSubmodules, p.currentModuleId, p.currentSubmoduleId;
      totalXP, streakDays, lastActiveDate := p.totalXP, p.streakDays, p.lastActiveDate;
      practiceSessionsCompleted, totalPracticeMinutes, submoduleScores :=
        p.practiceSessionsCompleted, p.totalPracticeMinutes, p.submoduleScores;
    }

    method CompleteSubmodule(id: string)
      requires Valid()
      modifies this
      ensures Valid() && State() == SubmoduleCompleted(old(State()), id)
    {
      if id !in completedSubmodules {
        completedSubmodules := completedSubmodules + [id];
        totalXP := totalXP + XP_COMPLETE_SUBMODULE;
      }
    }

    method SetCurrentPosition(moduleId: int, submoduleId: string)
      requires Valid()
      modifies this
      ensures Valid() && State() == PositionSet(old(State()), moduleId, submoduleId)
    {
      currentModuleId, currentSubmoduleId := moduleId, submoduleId;
    }

    method AddXP(amount: int)
      requires Valid()
      modifies this
      ensures Valid() && State() == XPAdded(old(State()), amount)
    {
      totalXP := totalXP + amount;
    }

    method UpdateStreak(today: string, yesterday: string)
      requires Valid()
      modifies this
      ensures Valid() && State() == StreakUpdated(old(State()), today, yesterday)
    {
      if lastActiveDate == today {
        return;
      }
      if lastActiveDate == yesterday {
        streakDays, lastActiveDate, totalXP := streakDays + 1, today, totalXP + XP_STREAK_BONUS;
      } else {
        streakDays, lastActiveDate := 1, today;
      }
    }

    method RecordPracticeSession(minutes: int)
      requires Valid()
      modifies this
      ensures Valid() && State() == PracticeRecorded(old(State()), minutes)
    {
      practiceSessionsCompleted := practiceSessionsCompleted + 1;
      totalPracticeMinutes := totalPracticeMinutes + minutes;
    }

    method SetSubmoduleScore(id: string, score: int)
      requires Valid()
      modifies this
      ensures Valid() && State() == ScoreSet(old(State()), id, score)
    {
      var currentBest := if id in submoduleScores then submoduleScores[id] else 0;
      var isPerfect := score == 100 && currentBest < 100;
      submoduleScores := submoduleScores[id := if currentBest < score then score else currentBest];
      totalXP := totalXP + (if isPerfect then XP_PERFECT_SCORE else 0);
    }

    /** `isSubmoduleCompleted` */
    predicate IsSubmoduleCompleted(id: string)
      reads this
    {
      id in completedSubmodules
    }

    /** `getModuleProgress` on the store's completed submodules. */
    function GetModuleProgress(moduleId: int): (pct: nat)
      reads this
      ensures pct <= 100
      ensures SubmoduleCount(moduleId) == 0 ==> pct == 0
    {
      ModuleProgress(completedSubmodules, moduleId)
    }

    method ResetProgress()
      modifies this
      ensures Valid() && State() == INITIAL
    {
      SetState(INITIAL);
    }
  }
}
