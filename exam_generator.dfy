/** The question generators of `backend/exam_generator.py`. Each asks the
    model once and parses its reply; the reply is an input here, `Err` when the
    call raised. */
module ExamGenerator {
  import opened Wrappers
  import opened Text
  import opened Markers
  import opened Questions
  import opened ExamParsers
  import opened Arith

  /** `int(a / b)` for a positive `b`: the quotient truncated toward zero. For
      the integers the backend sees, `int(n * 0.5)` and `int(n * 0.3)` are
      `TruncDiv(n, 2)` and `TruncDiv(3 * n, 10)`. */
  function TruncDiv(a: int, b: nat): (q: int)
    requires b > 0
    ensures 0 <= a ==> 0 <= q * b <= a < (q + 1) * b
    ensures a < 0 ==> (q - 1) * b < a <= q * b <= 0
  {
    if 0 <= a then
      DivBounds(a, b);
      var q := a / b;
      assert (q + 1) * b == q * b + b;
      q
    else
      DivBounds(-a, b);
      var c := (-a) / b;
      assert (-c) * b == -(c * b) && (-c - 1) * b == -(c * b) - b;
      -c
  }

  /** `generate_multiple_choice(text, n)`: the first `n` questions of the
      reply, by Python's slice rules; none when the call raised. */
  function GenerateMultipleChoice(reply: Result<string, string>, n: int): (r: seq<Question>)
    ensures forall q :: q in r ==> ValidMultipleChoice(q)
    ensures 0 <= n ==> |r| <= n
    ensures reply.Err? ==> r == []
  {
    match reply
    case Err(_) => []
    case Ok(text) =>
      MultipleChoiceQuestionsValid(text);
      SliceTo(MultipleChoiceQuestions(text), n)
  }

  /** `generate_true_false(text, n)` */
  function GenerateTrueFalse(reply: Result<string, string>, n: int): (r: seq<Question>)
    ensures forall q :: q in r ==> q.TrueFalse? && q.question != []
    ensures 0 <= n ==> |r| <= n
    ensures reply.Err? ==> r == []
  {
    match reply
    case Err(_) => []
    case Ok(text) =>
      TrueFalseQuestionsShape(text);
      SliceTo(TrueFalseQuestions(text), n)
  }

  /** `generate_short_answer(text, n)` */
  function GenerateShortAnswer(reply: Result<string, string>, n: int): (r: seq<Question>)
    ensures forall q :: q in r ==> q.ShortAnswer? && q.question != [] && q.sampleAnswer != []
    ensures 0 <= n ==> |r| <= n
    ensures reply.Err? ==> r == []
  {
    match reply
    case Err(_) => []
    case Ok(text) =>
      ShortAnswerQuestionsShape(text);
      SliceTo(ShortAnswerQuestions(text), n)
  }

  /** Each generator returns the first `n >= 0` questions its reply holds,
      or all of them when there are fewer. */
  lemma GeneratorsTakeFirst(text: string, n: nat)
    ensures var qs := MultipleChoiceQuestions(text);
            GenerateMultipleChoice(Ok(text), n) == if n <= |qs| then qs[..n] else qs
    ensures var qs := TrueFalseQuestions(text);
            GenerateTrueFalse(Ok(text), n) == if n <= |qs| then qs[..n] else qs
    ensures var qs := ShortAnswerQuestions(text);
            GenerateShortAnswer(Ok(text), n) == if n <= |qs| then qs[..n] else qs
  {
  }

  /** The counts `generate_mixed_exam` asks for: half multiple choice, three
      tenths true/false, the rest short answer. */
  function MixedCounts(n: int): (counts: (int, int, int))
    ensures counts.0 + counts.1 + counts.2 == n
    ensures 0 <= n ==> counts.0 == n / 2 && counts.1 == 3 * n / 10 && 0 <= counts.2
    ensures 0 <= n ==> 5 * counts.2 >= n
  {
    var mc := TruncDiv(n, 2);
    var tf := TruncDiv(3 * n, 10);
    (mc, tf, n - mc - tf)
  }

  /** Where a question's type falls in a mixed exam. */
  function Rank(q: Question): nat {
    match q
    case MultipleChoice(_, _, _, _) => 0
    case TrueFalse(_, _, _) => 1
    case ShortAnswer(_, _, _) => 2
  }

  /** `generate_mixed_exam(text, n)`, given the replies to its three model
      calls in the order they are made. The multiple-choice questions come
      first, then the true/false ones, then the short-answer ones. */
  function GenerateMixed(mcReply: Result<string, string>, tfReply: Result<string, string>,
                         saReply: Result<string, string>, n: int): (r: seq<Question>)
    ensures 0 <= n ==> |r| <= n
    ensures forall k :: 0 <= k < |r| && r[k].MultipleChoice? ==> ValidMultipleChoice(r[k])
    ensures forall j, k :: 0 <= j < k < |r| ==> Rank(r[j]) <= Rank(r[k])
  {
    var counts := MixedCounts(n);
    var mc := GenerateMultipleChoice(mcReply, counts.0);
    var tf := GenerateTrueFalse(tfReply, counts.1);
    var sa := GenerateShortAnswer(saReply, counts.2);
    RankedConcat(mc, tf, sa);
    mc + tf + sa
  }

  /** Questions of ranks 0, then 1, then 2, concatenated, are in rank order. */
  lemma RankedConcat(mc: seq<Question>, tf: seq<Question>, sa: seq<Question>)
    requires forall q :: q in mc ==> ValidMultipleChoice(q)
    requires forall q :: q in tf ==> q.TrueFalse?
    requires forall q :: q in sa ==> q.ShortAnswer?
    ensures forall k :: 0 <= k < |mc + tf + sa| && (mc + tf + sa)[k].MultipleChoice? ==>
                          ValidMultipleChoice((mc + tf + sa)[k])
    ensures forall j, k :: 0 <= j < k < |mc + tf + sa| ==> Rank((mc + tf + sa)[j]) <= Rank((mc + tf + sa)[k])
  {
    var r := mc + tf + sa;
    forall k | 0 <= k < |r|
      ensures Rank(r[k]) == if k < |mc| then 0 else if k < |mc| + |tf| then 1 else 2
      ensures r[k].MultipleChoice? ==> ValidMultipleChoice(r[k])
    {
      if k < |mc| {
        assert r[k] == mc[k] && mc[k] in mc;
      } else if k < |mc| + |tf| {
        assert r[k] == tf[k - |mc|] && tf[k - |mc|] in tf;
      } else {
        assert r[k] == sa[k - |mc| - |tf|] && sa[k - |mc| - |tf|] in sa;
      }
    }
  }

  /** A reply that starts with its first question, with no newline before the
      `Q:`, loses that question: the only section is the text before the first
      marker, and it is dropped. */
  lemma LeadingQuestionLost(statement: string, answer: string)
    requires '\n' !in statement && '\n' !in answer
    ensures TrueFalseQuestions("Q: " + statement + "\nANSWER: " + answer) == []
  {
    var text := "Q: " + statement + "\nANSWER: " + answer;
    var p := 3 + |statement|;
    forall k | 0 <= k < |text| - 1 && text[k] == '\n'
      ensures text[k + 1] != 'Q' && !IsSpace(text[k + 1])
    {
    }
    NewlinesNotMarkers(text, 'Q');
    NoMarkerNoQuestions(text);
  }
}
