/** The session score, `self.score = {"correct": ..., "total": ...}`. It is
    reset by `reset_score` and advanced by the grading handlers of both modes. */
module Scoring {

  datatype Score = Score(correct: nat, total: nat)

  /** One grading event: `total` always advances, `correct` only when the
      answer was right. */
  function Graded(s: Score, right: bool): (r: Score)
  {
    Score(if right then s.correct + 1 else s.correct, s.total + 1)
  }

  /** The score after the grading events `grades` (oldest first) since the
      last `reset_score`. */
  function ScoreAfter(grades: seq<bool>): (s: Score)
  {
    if grades == [] then Score(0, 0)
    else Graded(ScoreAfter(grades[..|grades| - 1]), grades[|grades| - 1])
  }

  /** How many of the grading events were right answers. */
  function RightAnswers(grades: seq<bool>): (n: nat)
  {
    if grades == [] then 0
    else (if grades[0] then 1 else 0) + RightAnswers(grades[1..])
  }

  /** Recording one more grade extends the run by one event. This only
      unfolds `ScoreAfter` once at `grades + [right]`; it names the step that
      `RecordGrade` relies on. */
  lemma ScoreAfterSnoc(grades: seq<bool>, right: bool)
    ensures ScoreAfter(grades + [right]) == Graded(ScoreAfter(grades), right)
  {
  }

  lemma {:induction false} RightAnswersConcat(a: seq<bool>, b: seq<bool>)
    ensures RightAnswers(a + b) == RightAnswers(a) + RightAnswers(b)
  {
    if a == [] {
      assert a + b == b;
    } else {
      assert (a + b)[1..] == a[1..] + b;
      RightAnswersConcat(a[1..], b);
    }
  }

  lemma {:induction false} RightAnswersAtMostLength(grades: seq<bool>)
    ensures RightAnswers(grades) <= |grades|
  {
    if grades != [] {
      RightAnswersAtMostLength(grades[1..]);
    }
  }

  /** `total` is the number of grading events and `correct` the number of
      right answers among them. */
  lemma {:induction false} ScoreCounts(grades: seq<bool>)
    ensures ScoreAfter(grades) == Score(RightAnswers(grades), |grades|)
  {
    if grades != [] {
      var n := |grades| - 1;
      ScoreCounts(grades[..n]);
      RightAnswersConcat(grades[..n], [grades[n]]);
      assert grades[..n] + [grades[n]] == grades;
      assert RightAnswers([grades[n]]) == if grades[n] then 1 else 0;
    }
  }

  /** `correct <= total` holds after any run of grading events. */
  lemma {:induction false} CorrectAtMostTotal(grades: seq<bool>)
    ensures ScoreAfter(grades).correct <= ScoreAfter(grades).total
  {
    ScoreCounts(grades);
    RightAnswersAtMostLength(grades);
  }

  /** Neither counter ever decreases while a session goes on. */
  lemma ScoreNeverDecreases(grades: seq<bool>, later: seq<bool>)
    ensures ScoreAfter(grades).correct <= ScoreAfter(grades + later).correct
    ensures ScoreAfter(grades).total + |later| == ScoreAfter(grades + later).total
  {
    ScoreCounts(grades);
    ScoreCounts(grades + later);
    RightAnswersConcat(grades, later);
  }
}
