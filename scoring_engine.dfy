/**
 * Rhythm scoring: how far a played note lands from its expected time, in
 * milliseconds, decides its rating and the points it earns.
 */
module ScoringEngine {

  datatype Rating = Perfect | Good | Miss | Early | Late

  datatype ScoreFeedback = ScoreFeedback(rating: Rating, scoreDelta: int, timeDelta: real, caption: string)

  const WINDOW_PERFECT: real := 50.0
  const WINDOW_GOOD: real := 100.0
  const POINTS_PERFECT := 100
  const POINTS_GOOD := 50
  const POINTS_MISS := 0

  function Abs(x: real): (r: real)
    ensures r >= 0.0 && (r == x || r == -x)
  {
    if x < 0.0 then -x else x
  }

  /**
   * Within 50 ms either way is perfect; within 100 ms earns half the points,
   * rated early or late by the sign; anything further is a miss.
   */
  function Compare(expectedTime: real, actualTime: real): (feedback: ScoreFeedback)
    ensures feedback.timeDelta == actualTime - expectedTime
    ensures Abs(actualTime - expectedTime) <= 50.0 ==>
              feedback.rating == Perfect && feedback.scoreDelta == 100 && feedback.caption == "Perfect!"
    ensures 50.0 < Abs(actualTime - expectedTime) <= 100.0 ==>
              feedback.scoreDelta == 50
              && (actualTime < expectedTime ==> feedback.rating == Early && feedback.caption == "Early")
              && (actualTime >= expectedTime ==> feedback.rating == Late && feedback.caption == "Late")
    ensures Abs(actualTime - expectedTime) > 100.0 ==>
              feedback.rating == Miss && feedback.scoreDelta == 0 && feedback.caption == "Miss"
  {
    var diff := actualTime - expectedTime;
    var absDiff := Abs(diff);
    if absDiff <= WINDOW_PERFECT then
      ScoreFeedback(Perfect, POINTS_PERFECT, diff, "Perfect!")
    else if absDiff <= WINDOW_GOOD then
      ScoreFeedback(if diff < 0.0 then Early else Late, POINTS_GOOD, diff, if diff < 0.0 then "Early" else "Late")
    else
      ScoreFeedback(Miss, POINTS_MISS, diff, "Miss")
  }

  /** A note further from its time never earns more points. */
  lemma ScoreNeverRisesWithDistance(expected1: real, actual1: real, expected2: real, actual2: real)
    requires Abs(actual1 - expected1) <= Abs(actual2 - expected2)
    ensures Compare(expected2, actual2).scoreDelta <= Compare(expected1, actual1).scoreDelta
  {
  }

  /** Playing early or late by the same amount earns the same points. */
  lemma EarlyAndLateScoreAlike(expectedTime: real, offset: real)
    ensures Compare(expectedTime, expectedTime + offset).scoreDelta
            == Compare(expectedTime, expectedTime - offset).scoreDelta
  {
  }
}
