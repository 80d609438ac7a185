/** The grading half of `submit_exam` in `backend/main.py`: the rules each
    question type is graded by, the loop over the questions, and the
    percentage. */
module Grading {
  import opened Wrappers
  import opened Text
  import opened Tables
  import opened Questions
  import opened Arith

  /** A JSON value a student can submit for one question; `NoAnswer` is both
      a missing key and `null`. */
  datatype Answer = NoAnswer | BoolAnswer(b: bool) | IntAnswer(i: int) | TextAnswer(s: string)

  /** `str(b)` */
  function BoolString(b: bool): string {
    if b then "True" else "False"
  }

  /** `str(value)` */
  function Str(a: Answer): string {
    match a
    case NoAnswer => "None"
    case BoolAnswer(b) => BoolString(b)
    case IntAnswer(i) => IntToString(i)
    case TextAnswer(s) => s
  }

  /** Python truthiness. */
  predicate Truthy(a: Answer) {
    match a
    case NoAnswer => false
    case BoolAnswer(b) => b
    case IntAnswer(i) => i != 0
    case TextAnswer(s) => s != ""
  }

  /** `user_answers.get(str(idx))` */
  function AnswerAt(answers: map<string, Answer>, idx: nat): Answer {
    var key := NatToString(idx);
    if key in answers then answers[key] else NoAnswer
  }

  /** Distinct questions read distinct keys of the answer dictionary. */
  lemma AnswerKeysDistinct(i: nat, j: nat)
    requires i != j
    ensures NatToString(i) != NatToString(j)
  {
    if NatToString(i) == NatToString(j) {
      NatToStringInjective(i, j);
    }
  }

  /** The `correct_answer` a result reports: the sample answer for short
      answers. */
  function CorrectAnswerOf(q: Question): Answer {
    match q
    case MultipleChoice(_, _, correct, _) => TextAnswer([correct])
    case TrueFalse(_, answer, _) => BoolAnswer(answer)
    case ShortAnswer(_, sample, _) => TextAnswer(sample)
  }

  /** `str(i)` starts with a digit or a minus sign, which neither case
      mapping changes. */
  lemma IntStringStart(i: int)
    ensures IntToString(i) != []
    ensures var c := IntToString(i)[0]; (IsDigit(c) || c == '-') && LowerChar(c) == c && UpperChar(c) == c
  {
  }

  /** The true/false rule: a boolean is compared with the answer, anything
      else by its lower-cased `str`. */
  function TrueFalseCorrect(a: Answer, expected: bool): (r: bool)
    ensures r <==> a == BoolAnswer(expected)
                   || (a.TextAnswer? && Lower(a.s) == (if expected then "true" else "false"))
  {
    var wanted := Lower(BoolString(expected));
    assert wanted == (if expected then "true" else "false");
    match a
    case BoolAnswer(b) => b == expected
    case NoAnswer =>
      assert Lower(Str(a))[0] == 'n';
      Lower(Str(a)) == wanted
    case IntAnswer(i) =>
      IntStringStart(i);
      assert Lower(Str(a))[0] == IntToString(i)[0];
      Lower(Str(a)) == wanted
    case TextAnswer(_) => Lower(Str(a)) == wanted
  }

  /** The multiple-choice rule: upper-cased `str` equality. For a letter,
      only that one-letter string (in either case) matches. */
  function MultipleChoiceCorrect(a: Answer, letter: char): (r: bool)
    ensures 'A' <= letter <= 'Z' ==>
              (r <==> a.TextAnswer? && |a.s| == 1 && UpperChar(a.s[0]) == letter)
  {
    assert Upper([letter]) == [UpperChar(letter)];
    match a
    case NoAnswer => Upper(Str(a)) == Upper([letter])
    case BoolAnswer(_) => Upper(Str(a)) == Upper([letter])
    case IntAnswer(i) =>
      IntStringStart(i);
      assert Upper(Str(a))[0] == IntToString(i)[0];
      Upper(Str(a)) == Upper([letter])
    case TextAnswer(s) =>
      assert |Upper(s)| == 1 ==> Upper(s) == [UpperChar(s[0])];
      Upper(Str(a)) == Upper([letter])
  }

  /** The separators `submit_exam` tries, in order. */
  const SEPARATORS: seq<char> := [',', ';', '•', '-']

  /** The first separator, from position `i` of the list on, that occurs in
      the key points. */
  function FirstSeparatorFrom(keyPoints: string, i: nat): (r: Option<char>)
    requires i <= |SEPARATORS|
    ensures r.Some? ==> exists k :: i <= k < |SEPARATORS| && SEPARATORS[k] == r.value && r.value in keyPoints
                                     && forall j :: i <= j < k ==> SEPARATORS[j] !in keyPoints
    ensures r.None? <==> forall j :: i <= j < |SEPARATORS| ==> SEPARATORS[j] !in keyPoints
    decreases |SEPARATORS| - i
  {
    if i == |SEPARATORS| then None
    else if SEPARATORS[i] in keyPoints then Some(SEPARATORS[i])
    else FirstSeparatorFrom(keyPoints, i + 1)
  }

  /** Stripped non-empty pieces, as `[p.strip() for p in ... if p.strip()]`. */
  function StrippedPieces(parts: seq<string>): (r: seq<string>)
    ensures forall p :: p in r ==> p != [] && IsStripped(p)
  {
    if parts == [] then []
    else
      var n := |parts| - 1;
      StrippedPieces(parts[..n]) + (if Strip(parts[n]) != "" then [Strip(parts[n])] else [])
  }

  function LongerThanThree(p: string): bool { |p| > 3 }

  /** The key points `submit_exam` looks for: split on the first separator
      present, stripped, and only those longer than three characters. Key
      points without any separator give none. */
  function KeyPointList(keyPoints: string): (r: seq<string>)
    ensures forall p :: p in r ==> |p| > 3 && IsStripped(p)
    ensures FirstSeparatorFrom(keyPoints, 0).None? ==> r == []
  {
    if keyPoints == "" then []
    else match FirstSeparatorFrom(keyPoints, 0)
      case None => []
      case Some(sep) => Filter(StrippedPieces(SplitOn(keyPoints, sep)), LongerThanThree)
  }

  /** The key-point search of `submit_exam`: the loop over the separators. */
  method SplitKeyPoints(keyPoints: string) returns (points: seq<string>)
    ensures points == KeyPointList(keyPoints)
  {
    points := [];
    if keyPoints != "" {
      var i := 0;
      while i < |SEPARATORS|
        invariant 0 <= i <= |SEPARATORS|
        invariant FirstSeparatorFrom(keyPoints, 0) == FirstSeparatorFrom(keyPoints, i)
        invariant points == []
      {
        var separator := SEPARATORS[i];
        if separator in keyPoints {
          var parts := SplitOn(keyPoints, separator);
          points := StrippedPieces(parts);
          break;
        }
        i := i + 1;
      }
    }
    points := Filter(points, LongerThanThree);
  }

  /** `set(s.split())` */
  function WordSet(s: string): set<string> {
    set w | w in Words(s)
  }

  /** The number of key points the answer mentions. */
  function Matches(points: seq<string>, userLower: string): (r: nat)
    ensures r <= |points|
  {
    if points == [] then 0
    else
      var n := |points| - 1;
      Matches(points[..n], userLower) + (if Contains(userLower, Lower(points[n])) then 1 else 0)
  }

  /** At least 30% of the key points mentioned; none when there are none. */
  predicate HasKeyPoints(points: seq<string>, userLower: string) {
    points != [] && 10 * Matches(points, userLower) >= 3 * |points|
  }

  /** At least 20% of the sample's distinct words used. */
  predicate EnoughOverlap(sampleLower: string, userLower: string) {
    5 * |WordSet(sampleLower) * WordSet(userLower)| >= |WordSet(sampleLower)|
  }

  /** The short-answer rule: a truthy answer against a non-empty sample, at
      least ten characters once lower-cased and stripped, that shares enough
      words with the sample or mentions enough key points. */
  predicate ShortAnswerCorrect(a: Answer, sample: string, keyPoints: string) {
    && Truthy(a) && sample != ""
    && |Strip(Lower(Str(a)))| >= 10
    && (EnoughOverlap(Strip(Lower(sample)), Strip(Lower(Str(a))))
        || HasKeyPoints(KeyPointList(keyPoints), Strip(Lower(Str(a)))))
  }

  /** Repeating the sample answer, when it is long enough, is always correct. */
  lemma SampleIsCorrect(sample: string, keyPoints: string)
    requires |Strip(Lower(sample))| >= 10
    ensures ShortAnswerCorrect(TextAnswer(sample), sample, keyPoints)
  {
    var w := WordSet(Strip(Lower(sample)));
    assert w * w == w;
  }

  /** Key points without a separator play no part: only the word overlap
      decides. */
  lemma KeyPointsWithoutSeparator(a: Answer, sample: string, keyPoints: string)
    requires forall j :: 0 <= j < |SEPARATORS| ==> SEPARATORS[j] !in keyPoints
    ensures ShortAnswerCorrect(a, sample, keyPoints) <==>
              Truthy(a) && sample != "" && |Strip(Lower(Str(a)))| >= 10
              && EnoughOverlap(Strip(Lower(sample)), Strip(Lower(Str(a))))
  {
    assert KeyPointList(keyPoints) == [];
  }

  /** Whether `submit_exam` judges the answer correct. */
  function IsCorrect(q: Question, a: Answer): bool {
    match q
    case MultipleChoice(_, _, correct, _) => MultipleChoiceCorrect(a, correct)
    case TrueFalse(_, answer, _) => TrueFalseCorrect(a, answer)
    case ShortAnswer(_, sample, keyPoints) => ShortAnswerCorrect(a, sample, keyPoints)
  }

  /** An unanswered question is wrong, whatever its type. */
  lemma UnansweredIsWrong(q: Question)
    ensures !IsCorrect(q, NoAnswer)
  {
    match q {
      case MultipleChoice(_, _, correct, _) =>
        assert |Upper(Str(NoAnswer))| == 4;
        assert Upper([correct]) == [UpperChar(correct)];
      case TrueFalse(_, _, _) =>
      case ShortAnswer(_, _, _) =>
    }
  }

  /** The short-answer branch of the checker, with the key-point loop. */
  method CheckShortAnswer(a: Answer, sample: string, keyPoints: string) returns (isCorrect: bool)
    ensures isCorrect == ShortAnswerCorrect(a, sample, keyPoints)
  {
    isCorrect := false;
    if Truthy(a) && sample != "" {
      var userLower := Strip(Lower(Str(a)));
      var correctLower := Strip(Lower(sample));
      if |userLower| >= 10 {
        var points := SplitKeyPoints(keyPoints);
        var hasKeyPoints := false;
        if points != [] {
          hasKeyPoints := 10 * Matches(points, userLower) >= 3 * |points|;
        }
        assert hasKeyPoints == HasKeyPoints(KeyPointList(keyPoints), userLower);
        var sampleWords := WordSet(correctLower);
        var overlap := |sampleWords * WordSet(userLower)|;
        assert (5 * overlap >= |sampleWords|) == EnoughOverlap(correctLower, userLower);
        isCorrect := 5 * overlap >= |sampleWords| || hasKeyPoints;
      }
    }
  }

  /** The per-question checker. */
  method CheckAnswer(q: Question, a: Answer) returns (isCorrect: bool)
    ensures isCorrect == IsCorrect(q, a)
  {
    match q {
      case MultipleChoice(_, _, correct, _) =>
        isCorrect := Upper(Str(a)) == Upper([correct]);
      case TrueFalse(_, answer, _) =>
        if a.BoolAnswer? {
          isCorrect := a.b == answer;
        } else {
          isCorrect := Lower(Str(a)) == Lower(BoolString(answer));
        }
      case ShortAnswer(_, sample, keyPoints) =>
        isCorrect := CheckShortAnswer(a, sample, keyPoints);
    }
  }

  /** One entry of `results`. */
  datatype QuestionResult = QuestionResult(questionIndex: nat, correct: bool, userAnswer: Answer,
                                           correctAnswer: Answer, explanation: string,
                                           keyPoints: Option<string>)

  function ResultOf(idx: nat, q: Question, a: Answer): QuestionResult {
    QuestionResult(idx, IsCorrect(q, a), a, CorrectAnswerOf(q), q.Explanation(),
                   if q.ShortAnswer? then Some(q.keyPoints) else None)
  }

  /** Every question's result, in index order. */
  function Results(questions: seq<Question>, answers: map<string, Answer>): (r: seq<QuestionResult>)
    ensures |r| == |questions|
    ensures forall k :: 0 <= k < |r| ==> r[k].questionIndex == k && r[k].userAnswer == AnswerAt(answers, k)
  {
    seq(|questions|, k requires 0 <= k < |questions| => ResultOf(k, questions[k], AnswerAt(answers, k)))
  }

  /** The number of questions judged correct. */
  function Score(questions: seq<Question>, answers: map<string, Answer>): (r: nat)
    ensures r <= |questions|
  {
    if questions == [] then 0
    else
      var n := |questions| - 1;
      Score(questions[..n], answers) + (if IsCorrect(questions[n], AnswerAt(answers, n)) then 1 else 0)
  }

  function ResultCorrect(r: QuestionResult): bool { r.correct }

  /** The score is the number of results marked correct. */
  lemma {:induction false} ScoreCountsResults(questions: seq<Question>, answers: map<string, Answer>)
    ensures Score(questions, answers) == Count(Results(questions, answers), ResultCorrect)
  {
    if questions != [] {
      var n := |questions| - 1;
      ScoreCountsResults(questions[..n], answers);
      assert Results(questions, answers)[..n] == Results(questions[..n], answers);
    }
  }

  lemma ResultsStep(questions: seq<Question>, answers: map<string, Answer>, i: nat)
    requires i < |questions|
    ensures Results(questions[..i + 1], answers)
            == Results(questions[..i], answers) + [ResultOf(i, questions[i], AnswerAt(answers, i))]
  {
  }

  /** The grading loop of `submit_exam`. */
  method GradeAnswers(questions: seq<Question>, answers: map<string, Answer>)
    returns (results: seq<QuestionResult>, correctCount: nat)
    ensures results == Results(questions, answers)
    ensures correctCount == Score(questions, answers)
  {
    results := [];
    correctCount := 0;
    var idx := 0;
    while idx < |questions|
      invariant 0 <= idx <= |questions|
      invariant results == Results(questions[..idx], answers)
      invariant correctCount == Score(questions[..idx], answers)
    {
      assert questions[..idx + 1][..idx] == questions[..idx];
      var question := questions[idx];
      var userAnswer := AnswerAt(answers, idx);
      var isCorrect := CheckAnswer(question, userAnswer);
      if isCorrect {
        correctCount := correctCount + 1;
      }
      var result := QuestionResult(idx, isCorrect, userAnswer, CorrectAnswerOf(question),
                                   question.Explanation(),
                                   if question.ShortAnswer? then Some(question.keyPoints) else None);
      assert result == ResultOf(idx, question, userAnswer);
      ResultsStep(questions, answers, idx);
      results := results + [result];
      idx := idx + 1;
    }
    assert questions[..idx] == questions;
  }

  /** Python's `round(n / d)` for exact rationals: the nearest integer, ties
      to the even one. */
  function RoundHalfEven(n: int, d: nat): (r: int)
    requires d > 0
    ensures -(d as int) <= 2 * (n - r * d) <= d
    ensures 2 * (n - r * d) == d ==> r % 2 == 0
    ensures 2 * (n - r * d) == -(d as int) ==> r % 2 == 0
  {
    var q := n / d;
    var rem := n % d;
    if 2 * rem < d then q
    else if 2 * rem > d then q + 1
    else if q % 2 == 0 then q
    else q + 1
  }

  /** A rounded quotient of a value between `lo * d` and `hi * d` lies
      between `lo` and `hi`. */
  lemma RoundHalfEvenBounds(n: int, d: nat, lo: int, hi: int)
    requires d > 0 && lo * d <= n <= hi * d
    ensures lo <= RoundHalfEven(n, d) <= hi
  {
    var q := n / d;
    assert n == q * d + n % d && 0 <= n % d < d;
    MulStep(hi, q, d);
    MulStep(q, lo, d);
  }

  /** `round((score / total) * 100) if total > 0 else 0`, computed exactly. */
  function Percentage(score: nat, total: nat): (p: int)
    ensures total == 0 ==> p == 0
    ensures total > 0 ==> -(total as int) <= 2 * (100 * score - p * total) <= total
    ensures score <= total ==> 0 <= p <= 100
  {
    if total > 0 then
      if score <= total then
        RoundHalfEvenBounds(100 * score, total, 0, 100);
        RoundHalfEven(100 * score, total)
      else RoundHalfEven(100 * score, total)
    else 0
  }

  /** A full score is 100%, no score 0%. */
  lemma PercentageEnds(total: nat)
    requires total > 0
    ensures Percentage(total, total) == 100 && Percentage(0, total) == 0
  {
    RoundHalfEvenBounds(100 * total, total, 100, 100);
    RoundHalfEvenBounds(0, total, 0, 0);
  }
}
