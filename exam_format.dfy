/** `format_exam_for_print` and `format_answer_key` of
    `backend/exam_generator.py`: each appends lines to an output list and joins
    them with newlines. The lines are computed by functions here, and the
    methods build them with the source's loops. */
module ExamFormat {
  import opened Wrappers
  import opened Text
  import opened Questions

  /** `"=" * 70` and `"-" * 70` */
  function Rule(c: char): string {
    Repeat(c, 70)
  }

  /** One `  L) text` line of a multiple-choice block. */
  function OptionLine(option: (char, string)): string {
    "  " + [option.0] + ") " + option.1
  }

  /** The option lines of a multiple-choice block: one per entry, in the
      dictionary's order. */
  function OptionLines(options: Options): (lines: seq<string>)
    ensures |lines| == |options|
    ensures forall k :: 0 <= k < |options| ==> lines[k] == OptionLine(options[k])
  {
    if options == [] then []
    else OptionLines(options[..|options| - 1]) + [OptionLine(options[|options| - 1])]
  }

  function PrintHeader(title: string, course: string, examType: string, count: nat): seq<string> {
    [Rule('='), "EXAM: " + title, "Course: " + course, "Questions: " + NatToString(count),
     "Type: " + examType, Rule('='), ""]
  }

  /** The first three lines of the block of question number `number`. */
  function BlockHead(number: nat, q: Question): seq<string> {
    ["Question " + NatToString(number) + ":", q.question, ""]
  }

  /** What follows the question text: the options, the two boxes or the
      answer lines. */
  function Choices(q: Question): seq<string> {
    match q
    case MultipleChoice(_, options, _, _) => OptionLines(options) + [""]
    case TrueFalse(_, _, _) => ["  [ ] TRUE", "  [ ] FALSE", ""]
    case ShortAnswer(_, _, _) =>
      var blank := "  " + Repeat('_', 60);
      ["  Answer:", blank, blank, blank, ""]
  }

  function PrintBlock(number: nat, q: Question): seq<string> {
    BlockHead(number, q) + Choices(q) + [Rule('-'), ""]
  }

  /** The lines of the blocks of `xs`, numbered from 1: the blocks of all
      but the last element, then the last one's. */
  function Blocks<T>(xs: seq<T>, block: (nat, T) -> seq<string>): seq<string> {
    if xs == [] then []
    else
      var n := |xs|;
      Blocks(xs[..n - 1], block) + block(n, xs[n - 1])
  }

  /** The blocks of `questions`, numbered from 1. */
  function PrintBlocks(questions: seq<Question>): seq<string> {
    Blocks(questions, PrintBlock)
  }

  function PrintLines(title: string, course: string, examType: string, questions: seq<Question>): (r: seq<string>)
    ensures |r| == 7 + |PrintBlocks(questions)|
    ensures r[1] == "EXAM: " + title && r[2] == "Course: " + course && r[4] == "Type: " + examType
    ensures r[3] == "Questions: " + NatToString(|questions|)
  {
    PrintHeader(title, course, examType, |questions|) + PrintBlocks(questions)
  }

  /** The blocks of a prefix begin the blocks of the whole sequence. */
  lemma {:induction false} BlocksPrefix<T>(xs: seq<T>, block: (nat, T) -> seq<string>, i: nat)
    requires i <= |xs|
    ensures |Blocks(xs[..i], block)| <= |Blocks(xs, block)|
    ensures Blocks(xs, block)[..|Blocks(xs[..i], block)|] == Blocks(xs[..i], block)
    decreases |xs|
  {
    if i < |xs| {
      var n := |xs|;
      assert xs[..n - 1][..i] == xs[..i];
      BlocksPrefix(xs[..n - 1], block, i);
    } else {
      assert xs[..i] == xs;
    }
  }

  /** Line `j` of the block of element `i` lies right after the blocks of
      the elements before it. */
  lemma BlocksAt<T>(xs: seq<T>, block: (nat, T) -> seq<string>, i: nat, j: nat)
    requires i < |xs| && j < |block(i + 1, xs[i])|
    ensures |Blocks(xs[..i], block)| + j < |Blocks(xs, block)|
    ensures Blocks(xs, block)[|Blocks(xs[..i], block)| + j] == block(i + 1, xs[i])[j]
  {
    BlocksPrefix(xs, block, i + 1);
    assert xs[..i + 1][..i] == xs[..i];
    var before := Blocks(xs[..i], block);
    var upTo := Blocks(xs[..i + 1], block);
    assert upTo == before + block(i + 1, xs[i]);
    assert Blocks(xs, block)[|before| + j] == upTo[|before| + j];
  }

  /** A block that opens with `first` and `second` opens right after the
      blocks of the elements before it. */
  lemma BlocksHead<T>(xs: seq<T>, block: (nat, T) -> seq<string>, i: nat, first: string, second: string)
    requires i < |xs| && |block(i + 1, xs[i])| >= 2
    requires block(i + 1, xs[i])[0] == first && block(i + 1, xs[i])[1] == second
    ensures |Blocks(xs[..i], block)| + 1 < |Blocks(xs, block)|
    ensures Blocks(xs, block)[|Blocks(xs[..i], block)|] == first
    ensures Blocks(xs, block)[|Blocks(xs[..i], block)| + 1] == second
  {
    BlocksAt(xs, block, i, 0);
    BlocksAt(xs, block, i, 1);
  }

  /** The blocks of a prefix of the questions begin the blocks of all of them. */
  lemma PrintBlocksPrefix(questions: seq<Question>, i: nat)
    requires i <= |questions|
    ensures |PrintBlocks(questions[..i])| <= |PrintBlocks(questions)|
    ensures PrintBlocks(questions)[..|PrintBlocks(questions[..i])|] == PrintBlocks(questions[..i])
  {
    BlocksPrefix(questions, PrintBlock, i);
  }

  /** The block of the `i`-th question (counting from 0) starts with its
      number `i + 1` and its text, right after the blocks of the questions
      before it. */
  lemma PrintBlocksNumbering(questions: seq<Question>, i: nat)
    requires i < |questions|
    ensures |PrintBlocks(questions[..i])| + 1 < |PrintBlocks(questions)|
    ensures PrintBlocks(questions)[|PrintBlocks(questions[..i])|] == "Question " + NatToString(i + 1) + ":"
    ensures PrintBlocks(questions)[|PrintBlocks(questions[..i])| + 1] == questions[i].question
  {
    PrintBlockHead(i + 1, questions[i]);
    BlocksHead(questions, PrintBlock, i, "Question " + NatToString(i + 1) + ":", questions[i].question);
  }

  /** A block opens with its number and its question. */
  lemma PrintBlockHead(number: nat, q: Question)
    ensures |PrintBlock(number, q)| >= 2
    ensures PrintBlock(number, q)[0] == "Question " + NatToString(number) + ":"
    ensures PrintBlock(number, q)[1] == q.question
  {
  }

  /** The printout numbers the question blocks after its header from 1. */
  lemma PrintNumbering(title: string, course: string, examType: string, questions: seq<Question>, i: nat)
    requires i < |questions|
    ensures 8 + |PrintBlocks(questions[..i])| < |PrintLines(title, course, examType, questions)|
    ensures PrintLines(title, course, examType, questions)[7 + |PrintBlocks(questions[..i])|]
              == "Question " + NatToString(i + 1) + ":"
    ensures PrintLines(title, course, examType, questions)[8 + |PrintBlocks(questions[..i])|]
              == questions[i].question
  {
    PrintBlocksNumbering(questions, i);
    var header := PrintHeader(title, course, examType, |questions|);
    var at := |PrintBlocks(questions[..i])|;
    ConcatIndex(header, PrintBlocks(questions), at);
    ConcatIndex(header, PrintBlocks(questions), at + 1);
  }

  /** Indexing past the first part of a concatenation indexes the second. */
  lemma ConcatIndex<T>(a: seq<T>, b: seq<T>, k: nat)
    requires k < |b|
    ensures (a + b)[|a| + k] == b[k]
  {
  }

  /** A multiple-choice block lists every option as `letter) text`, in the
      dictionary's order, right after the question text and a blank line. */
  lemma PrintBlockOptions(number: nat, q: Question)
    requires q.MultipleChoice?
    ensures |PrintBlock(number, q)| == |q.options| + 6
    ensures forall k :: 0 <= k < |q.options| ==>
              PrintBlock(number, q)[3 + k] == "  " + [q.options[k].0] + ") " + q.options[k].1
  {
  }

  /** The body of the question loop of `format_exam_for_print`: appends the
      block of question number `number`. */
  method AppendPrintBlock(output: seq<string>, number: nat, q: Question) returns (result: seq<string>)
    ensures result == output + PrintBlock(number, q)
  {
    result := output + ["Question " + NatToString(number) + ":", q.question, ""];
    var head := result;
    match q {
      case MultipleChoice(_, options, _, _) =>
        var j := 0;
        while j < |options|
          invariant 0 <= j <= |options|
          invariant result == head + OptionLines(options[..j])
        {
          assert options[..j + 1][..j] == options[..j];
          AppendAssoc(head, OptionLines(options[..j]), [OptionLine(options[j])]);
          result := result + [OptionLine(options[j])];
          j := j + 1;
        }
        assert options[..j] == options;
        AppendAssoc(head, OptionLines(options), [""]);
        result := result + [""];
      case TrueFalse(_, _, _) =>
        result := result + ["  [ ] TRUE", "  [ ] FALSE", ""];
      case ShortAnswer(_, _, _) =>
        var blank := "  " + Repeat('_', 60);
        result := result + ["  Answer:", blank, blank, blank, ""];
    }
    AppendAssoc(output, BlockHead(number, q), Choices(q));
    AppendAssoc(output, BlockHead(number, q) + Choices(q), [Rule('-'), ""]);
    result := result + [Rule('-'), ""];
  }

  /** The blocks of one more question are those before it and its own. */
  lemma PrintBlocksStep(questions: seq<Question>, i: nat)
    requires i < |questions|
    ensures PrintBlocks(questions[..i + 1]) == PrintBlocks(questions[..i]) + PrintBlock(i + 1, questions[i])
  {
    assert questions[..i + 1][..i] == questions[..i];
  }

  /** Appending to a concatenation appends to its second part. */
  lemma AppendAssoc<T>(a: seq<T>, b: seq<T>, c: seq<T>)
    ensures (a + b) + c == a + (b + c)
  {
  }

  /** `format_exam_for_print(exam_data)` */
  method FormatExamForPrint(title: string, course: string, examType: string, questions: seq<Question>)
    returns (text: string)
    ensures text == Join(PrintLines(title, course, examType, questions), "\n")
  {
    var output: seq<string> := [Rule('='), "EXAM: " + title, "Course: " + course,
                                "Questions: " + NatToString(|questions|), "Type: " + examType, Rule('='), ""];
    var i := 0;
    while i < |questions|
      invariant 0 <= i <= |questions|
      invariant output == PrintHeader(title, course, examType, |questions|) + PrintBlocks(questions[..i])
    {
      PrintBlocksStep(questions, i);
      AppendAssoc(PrintHeader(title, course, examType, |questions|), PrintBlocks(questions[..i]), PrintBlock(i + 1, questions[i]));
      output := AppendPrintBlock(output, i + 1, questions[i]);
      i := i + 1;
    }
    assert questions[..i] == questions;
    text := Join(output, "\n");
  }

  function KeyHeader(title: string): seq<string> {
    [Rule('='), "ANSWER KEY: " + title, Rule('='), ""]
  }

  /** The answer line(s) of a question in the key; `None` when a
      multiple-choice answer letter has no option, where the lookup raises
      `KeyError`. */
  function AnswerLines(q: Question): Option<seq<string>> {
    match q
    case MultipleChoice(_, options, c, _) =>
      (match Lookup(options, c)
       case None => None
       case Some(text) => Some(["  Answer: " + [c] + ") " + text]))
    case TrueFalse(_, answer, _) => Some(["  Answer: " + (if answer then "TRUE" else "FALSE")])
    case ShortAnswer(_, sample, keyPoints) => Some(["  Sample Answer: " + sample, "  Key Points: " + keyPoints])
  }

  /** The block of question number `number` in the key: the first 50
      characters of the question, its answer, its explanation when there is
      one, and a blank line. */
  function KeyBlock(number: nat, q: Question): (r: Option<seq<string>>)
    ensures r.None? <==> q.MultipleChoice? && q.correct !in KeySet(q.options)
    ensures r.Some? ==> |r.value| >= 3 && r.value[|r.value| - 1] == ""
  {
    match AnswerLines(q)
    case None => None
    case Some(answer) =>
      var explanation := if q.Explanation() != [] then ["  Explanation: " + q.Explanation()] else [];
      Some(["Question " + NatToString(number) + ": " + SliceTo(q.question, 50) + "..."] + answer + explanation + [""])
  }

  /** The lines of the key, or `None` when some block raises. */
  function KeyLines(title: string, questions: seq<Question>): (r: Option<seq<string>>)
    ensures r.Some? ==> |KeyHeader(title)| <= |r.value| && r.value[..|KeyHeader(title)|] == KeyHeader(title)
  {
    if questions == [] then Some(KeyHeader(title))
    else
      var n := |questions|;
      match KeyLines(title, questions[..n - 1])
      case None => None
      case Some(lines) =>
        match KeyBlock(n, questions[n - 1])
        case None => None
        case Some(block) => Some(lines + block)
  }

  /** Building the key fails exactly when some multiple-choice question's
      answer letter is not one of its option keys. */
  lemma {:induction false} KeyLinesFail(title: string, questions: seq<Question>)
    ensures KeyLines(title, questions).None? <==>
              exists k :: 0 <= k < |questions| && questions[k].MultipleChoice?
                          && questions[k].correct !in KeySet(questions[k].options)
  {
    if questions != [] {
      var n := |questions|;
      var prefix := questions[..n - 1];
      KeyLinesFail(title, prefix);
      assert KeyLines(title, questions).None? <==>
               KeyLines(title, prefix).None? || KeyBlock(n, questions[n - 1]).None?;
      assert forall k :: 0 <= k < n - 1 ==> prefix[k] == questions[k];
    }
  }

  /** The key shows each true/false answer as TRUE or FALSE from the boolean,
      heads each block with the first 50 characters of the question and
      `...`, and has an explanation line exactly when the explanation is not
      empty. */
  lemma KeyBlockShape(number: nat, q: Question)
    requires KeyBlock(number, q).Some?
    ensures var block := KeyBlock(number, q).value;
            && block[0] == "Question " + NatToString(number) + ": " + SliceTo(q.question, 50) + "..."
            && |SliceTo(q.question, 50)| == (if |q.question| <= 50 then |q.question| else 50)
            && (q.TrueFalse? ==> (block[1] == "  Answer: TRUE" <==> q.answer))
            && ((exists k :: 0 <= k < |block| && StartsWith(block[k], "  Explanation:")) <==> q.Explanation() != [])
  {
    var block := KeyBlock(number, q).value;
    var answer := AnswerLines(q).value;
    if q.TrueFalse? && !q.answer {
      assert block[1][10] == 'F';
    }
    forall k | 0 <= k < |block| && StartsWith(block[k], "  Explanation:")
      ensures q.Explanation() != []
    {
      assert block[k][..14] == "  Explanation:";
      if k == 0 {
        assert block[k][0] == 'Q';
      } else if k <= |answer| {
        assert block[k] == answer[k - 1];
        assert block[k][2] != 'E';
      }
    }
    if q.Explanation() != [] {
      assert StartsWith(block[1 + |answer|], "  Explanation:");
    }
  }

  /** The body of the question loop of `format_answer_key`: appends the
      block of question number `number`, or reports that it raises. */
  method AppendKeyBlock(output: seq<string>, number: nat, q: Question) returns (result: Option<seq<string>>)
    ensures KeyBlock(number, q).None? ==> result.None?
    ensures KeyBlock(number, q).Some? ==> result == Some(output + KeyBlock(number, q).value)
  {
    var first := ["Question " + NatToString(number) + ": " + SliceTo(q.question, 50) + "..."];
    var lines := output + first;
    match q {
      case MultipleChoice(_, options, c, _) =>
        var option := Lookup(options, c);
        if option.None? {
          assert AnswerLines(q).None?;
          return None;
        }
        lines := lines + ["  Answer: " + [c] + ") " + option.value];
      case TrueFalse(_, answer, _) =>
        lines := lines + ["  Answer: " + (if answer then "TRUE" else "FALSE")];
      case ShortAnswer(_, sample, keyPoints) =>
        lines := lines + ["  Sample Answer: " + sample, "  Key Points: " + keyPoints];
    }
    var answer := AnswerLines(q).value;
    assert lines == output + first + answer;
    AppendAssoc(output, first, answer);
    var explanation := if q.Explanation() != [] then ["  Explanation: " + q.Explanation()] else [];
    if q.Explanation() != [] {
      lines := lines + ["  Explanation: " + q.Explanation()];
    } else {
      assert lines + explanation == lines;
    }
    assert lines == output + first + answer + explanation;
    AppendAssoc(output, first + answer, explanation);
    AppendAssoc(output, first + answer + explanation, [""]);
    lines := lines + [""];
    assert KeyBlock(number, q) == Some(first + answer + explanation + [""]);
    result := Some(lines);
  }

  /** `format_answer_key(exam_data)`; `None` when it raises. */
  method FormatAnswerKey(title: string, questions: seq<Question>) returns (r: Option<string>)
    ensures r == match KeyLines(title, questions) case None => None case Some(lines) => Some(Join(lines, "\n"))
  {
    var output: seq<string> := [Rule('='), "ANSWER KEY: " + title, Rule('='), ""];
    var i := 0;
    while i < |questions|
      invariant 0 <= i <= |questions|
      invariant KeyLines(title, questions[..i]) == Some(output)
    {
      assert questions[..i + 1][..i] == questions[..i];
      var next := AppendKeyBlock(output, i + 1, questions[i]);
      if next.None? {
        assert KeyLines(title, questions).None? by {
          KeyLinesFail(title, questions);
          KeyLinesFail(title, questions[..i + 1]);
          assert questions[..i + 1][i] == questions[i];
        }
        return None;
      }
      output := next.value;
      i := i + 1;
    }
    assert questions[..i] == questions;
    r := Some(Join(output, "\n"));
  }
}
