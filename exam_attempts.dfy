/** The attempt history of one saved exam in `backend/main.py`: what
    `submit_exam` appends and recomputes, what `reset_exam_attempts` clears,
    and the aggregates `list_exams` derives from it. */
module ExamAttempts {
  import opened Wrappers
  import opened Questions
  import opened Grading

  /** One entry of the exam's `attempts` list. */
  datatype Attempt = Attempt(timestamp: string, score: nat, total: nat, percentage: int)

  /** `max(a['percentage'] for a in attempts)` */
  function Best(attempts: seq<Attempt>): (m: int)
    requires attempts != []
    ensures exists k :: 0 <= k < |attempts| && attempts[k].percentage == m
    ensures forall k :: 0 <= k < |attempts| ==> attempts[k].percentage <= m
  {
    var n := |attempts| - 1;
    if n == 0 then attempts[0].percentage
    else
      var m := Best(attempts[..n]);
      assert forall k :: 0 <= k < n ==> attempts[..n][k] == attempts[k];
      if attempts[n].percentage > m then attempts[n].percentage else m
  }

  /** `sum(a['percentage'] for a in attempts)` */
  function Sum(attempts: seq<Attempt>): int {
    if attempts == [] then 0
    else Sum(attempts[..|attempts| - 1]) + attempts[|attempts| - 1].percentage
  }

  /** The best score of a longer history is the larger of the earlier best
      and the new percentage: it never decreases, and it is at least the
      latest percentage. */
  lemma BestAppend(attempts: seq<Attempt>, a: Attempt)
    requires attempts != []
    ensures Best(attempts + [a]) == if a.percentage > Best(attempts) then a.percentage else Best(attempts)
  {
    assert (attempts + [a])[..|attempts|] == attempts;
  }

  /** The fields `submit_exam` and `reset_exam_attempts` read and write. A key
      the exam file lacks is `None`; `questionCount` is the `question_count`
      the generator stored. */
  datatype ExamState = ExamState(questions: seq<Question>, questionCount: Option<nat>,
                                 attempts: seq<Attempt>, bestScore: Option<int>,
                                 attemptCount: Option<nat>, lastAttempt: Option<string>)

  /** The bookkeeping fields agree with the attempt list. */
  predicate Consistent(s: ExamState) {
    && (s.attempts == [] ==> s.bestScore.None? && s.lastAttempt.None?)
    && (s.attempts != [] ==> s.bestScore == Some(Best(s.attempts))
                             && s.lastAttempt == Some(s.attempts[|s.attempts| - 1].timestamp))
    && (s.attemptCount.Some? ==> s.attemptCount.value == |s.attempts|)
  }

  /** The attempt a submission records. */
  function AttemptOf(questions: seq<Question>, answers: map<string, Answer>, timestamp: string): (a: Attempt)
    ensures a.score <= a.total == |questions|
    ensures 0 <= a.percentage <= 100
  {
    var score := Score(questions, answers);
    Attempt(timestamp, score, |questions|, Percentage(score, |questions|))
  }

  /** The state after a submission. */
  function Submitted(s: ExamState, answers: map<string, Answer>, timestamp: string): (t: ExamState)
    ensures t.questions == s.questions && t.questionCount == s.questionCount
    ensures t.attempts == s.attempts + [AttemptOf(s.questions, answers, timestamp)]
    ensures Consistent(t)
  {
    var attempts := s.attempts + [AttemptOf(s.questions, answers, timestamp)];
    ExamState(s.questions, s.questionCount, attempts, Some(Best(attempts)), Some(|attempts|), Some(timestamp))
  }

  /** `improved`: false on the first attempt, otherwise whether the new
      percentage reaches the new best. */
  function Improved(previous: seq<Attempt>, a: Attempt): bool {
    |previous + [a]| > 1 && a.percentage >= Best(previous + [a])
  }

  /** A later attempt improves exactly when it ties or beats every earlier
      attempt. */
  lemma ImprovedMeaning(previous: seq<Attempt>, a: Attempt)
    ensures Improved(previous, a) <==>
              previous != [] && forall k :: 0 <= k < |previous| ==> previous[k].percentage <= a.percentage
  {
    if previous != [] {
      BestAppend(previous, a);
    }
  }

  /** Submitting raises the attempt count by one, keeps the best score at or
      above its earlier value, and the best score is at least the new
      percentage. */
  lemma SubmittedBest(s: ExamState, answers: map<string, Answer>, timestamp: string)
    requires Consistent(s)
    ensures var t := Submitted(s, answers, timestamp);
            && t.attemptCount == Some(|s.attempts| + 1)
            && t.bestScore.Some?
            && t.bestScore.value >= AttemptOf(s.questions, answers, timestamp).percentage
            && (s.bestScore.Some? ==> t.bestScore.value >= s.bestScore.value)
  {
    var a := AttemptOf(s.questions, answers, timestamp);
    if s.attempts != [] {
      BestAppend(s.attempts, a);
    }
  }

  /** The state after a reset: the history and its bookkeeping cleared. */
  function ResetState(s: ExamState): (t: ExamState)
    ensures t.questions == s.questions && t.questionCount == s.questionCount
    ensures t.attempts == [] && t.bestScore.None? && t.attemptCount == Some(0) && t.lastAttempt.None?
  {
    s.(attempts := [], bestScore := None, attemptCount := Some(0), lastAttempt := None)
  }

  /** Resetting twice is resetting once, and a reset state is consistent. */
  lemma ResetIdempotent(s: ExamState)
    ensures ResetState(ResetState(s)) == ResetState(s)
    ensures Consistent(ResetState(s))
  {
  }

  /** The score-tracking part of a `list_exams` entry. */
  datatype ExamListing = ExamListing(questionCount: nat, bestScore: Option<int>, attemptCount: nat,
                                     averageScore: Option<int>, lastAttempt: Option<string>,
                                     completed: bool)

  /** The rounded mean percentage, `None` with no attempts. */
  function AverageScore(attempts: seq<Attempt>): (r: Option<int>)
    ensures r.None? <==> attempts == []
  {
    if attempts == [] then None else Some(RoundHalfEven(Sum(attempts), |attempts|))
  }

  /** One `list_exams` entry, less the fields it copies from the file. */
  function Listing(s: ExamState): (l: ExamListing)
    ensures l.attemptCount == |s.attempts|
    ensures l.completed <==> s.attempts != []
    ensures l.averageScore.None? <==> s.attempts == []
    ensures l.questionCount == if s.questionCount.Some? then s.questionCount.value else |s.questions|
    ensures l.bestScore == s.bestScore && l.lastAttempt == s.lastAttempt
  {
    ExamListing(s.questionCount.GetOr(|s.questions|), s.bestScore, |s.attempts|,
                AverageScore(s.attempts), s.lastAttempt, |s.attempts| > 0)
  }

  /** After a reset an exam lists as not completed, with no average and no
      best score. */
  lemma ResetListing(s: ExamState)
    ensures var l := Listing(ResetState(s));
            !l.completed && l.averageScore.None? && l.bestScore.None? && l.attemptCount == 0
  {
  }

  lemma {:induction false} SumBounds(attempts: seq<Attempt>, lo: int, hi: int)
    requires forall k :: 0 <= k < |attempts| ==> lo <= attempts[k].percentage <= hi
    ensures lo * |attempts| <= Sum(attempts) <= hi * |attempts|
  {
    if attempts != [] {
      var n := |attempts| - 1;
      assert forall k :: 0 <= k < n ==> attempts[..n][k] == attempts[k];
      SumBounds(attempts[..n], lo, hi);
      assert lo * (n + 1) == lo * n + lo && hi * (n + 1) == hi * n + hi;
    }
  }

  /** On a consistent exam the average lies between 0 and the best score,
      whenever every attempt's percentage is at least 0. */
  lemma AverageBelowBest(s: ExamState)
    requires Consistent(s) && s.attempts != []
    requires forall k :: 0 <= k < |s.attempts| ==> 0 <= s.attempts[k].percentage
    ensures 0 <= Listing(s).averageScore.value <= s.bestScore.value
  {
    var best := Best(s.attempts);
    SumBounds(s.attempts, 0, best);
    RoundHalfEvenBounds(Sum(s.attempts), |s.attempts|, 0, best);
  }

  /** Every attempt a submission records lies in [0, 100], so after it the
      average of an exam whose earlier attempts did too lies there as well. */
  lemma SubmittedAverage(s: ExamState, answers: map<string, Answer>, timestamp: string)
    requires forall k :: 0 <= k < |s.attempts| ==> 0 <= s.attempts[k].percentage <= 100
    ensures 0 <= Listing(Submitted(s, answers, timestamp)).averageScore.value <= 100
  {
    var t := Submitted(s, answers, timestamp);
    assert forall k :: 0 <= k < |t.attempts| ==> 0 <= t.attempts[k].percentage <= 100 by {
      forall k | 0 <= k < |t.attempts|
        ensures 0 <= t.attempts[k].percentage <= 100
      {
        if k < |s.attempts| {
          assert t.attempts[k] == s.attempts[k];
        }
      }
    }
    SumBounds(t.attempts, 0, 100);
    RoundHalfEvenBounds(Sum(t.attempts), |t.attempts|, 0, 100);
  }

  /** The response of `submit_exam`. */
  datatype SubmitResponse = SubmitResponse(score: nat, total: nat, percentage: int,
                                           results: seq<QuestionResult>, bestScore: int,
                                           attemptNumber: nat, improved: bool)

  /** A saved exam file, as `submit_exam` and `reset_exam_attempts` update it
      in place. */
  class ExamRecord {
    var questions: seq<Question>
    var questionCount: Option<nat>
    var attempts: seq<Attempt>
    var bestScore: Option<int>
    var attemptCount: Option<nat>
    var lastAttempt: Option<string>

    function State(): ExamState
      reads this
    {
      ExamState(questions, questionCount, attempts, bestScore, attemptCount, lastAttempt)
    }

    /** A freshly generated exam: its questions and count, and no history. */
    constructor (generated: seq<Question>)
      ensures State() == ExamState(generated, Some(|generated|), [], None, None, None)
      ensures Consistent(State())
    {
      questions := generated;
      questionCount := Some(|generated|);
      attempts := [];
      bestScore := None;
      attemptCount := None;
      lastAttempt := None;
    }

    /** `submit_exam`: grades the answers, appends the attempt and recomputes
        the best score, the attempt count and the last attempt. */
    method Submit(answers: map<string, Answer>, timestamp: string) returns (response: SubmitResponse)
      modifies this
      ensures State() == Submitted(old(State()), answers, timestamp)
      ensures response.results == Results(questions, answers)
      ensures response.score == Score(questions, answers) && response.total == |questions|
      ensures response.percentage == Percentage(response.score, response.total)
      ensures response.attemptNumber == |attempts| == |old(attempts)| + 1
      ensures Some(response.bestScore) == bestScore
      ensures response.improved == Improved(old(attempts), AttemptOf(questions, answers, timestamp))
    {
      ghost var before := State();
      var results, correctCount := GradeAnswers(questions, answers);
      var total := |questions|;
      var percentage := Percentage(correctCount, total);
      var attempt := Attempt(timestamp, correctCount, total, percentage);
      assert attempt == AttemptOf(questions, answers, timestamp);
      ghost var after := Submitted(before, answers, timestamp);
      attempts := attempts + [attempt];
      assert attempts == after.attempts;
      var best := Best(attempts);
      bestScore := Some(best);
      attemptCount := Some(|attempts|);
      lastAttempt := Some(attempt.timestamp);
      var improved := if |attempts| > 1 then percentage >= best else false;
      response := SubmitResponse(correctCount, total, percentage, results, best, |attempts|, improved);
    }

    /** `reset_exam_attempts` */
    method Reset()
      modifies this
      ensures State() == ResetState(old(State()))
    {
      attempts := [];
      bestScore := None;
      attemptCount := Some(0);
      lastAttempt := None;
    }
  }
}
