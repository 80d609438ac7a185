/** The three line-oriented parsers of `backend/exam_generator.py` that turn a
    model reply into exam questions. A reply is cut into sections at every
    newline-then-`Q:` marker; the text before the first marker is dropped, and
    each remaining section yields at most one question, read from its keyed
    lines. Each parser is a function on the reply *and* the loop
    that computes it. */
module ExamParsers {
  import opened Wrappers
  import opened Text
  import opened Markers
  import opened Questions

  /** `section.strip().split('\n')` */
  function SectionLines(section: string): (lines: seq<string>)
    ensures |lines| >= 1
  {
    SplitOn(Strip(section), '\n')
  }

  /** `re.match(r'^[A-D]\)', line)` */
  predicate IsOptionLine(line: string) {
    |line| >= 2 && line[0] in LETTERS && line[1] == ')'
  }

  /** What the `if`/`elif` chain of `_parse_multiple_choice` makes of one line
      once it is stripped. Every key ends in its only colon, so the value
      `line.split(':', 1)[1].strip()` is what follows the key, stripped. */
  datatype ChoiceLine =
    | OptionLine(letter: char, text: string)
    | CorrectLine(value: string)
    | ChoiceExplanationLine(text: string)
    | OtherChoiceLine

  function ChoiceKind(raw: string): (k: ChoiceLine)
    ensures k.OptionLine? ==> k.letter in LETTERS
  {
    var line := Strip(raw);
    if IsOptionLine(line) then OptionLine(line[0], Strip(line[2..]))
    else if StartsWith(line, "CORRECT:") then CorrectLine(Strip(line[8..]))
    else if StartsWith(line, "EXPLANATION:") then ChoiceExplanationLine(Strip(line[12..]))
    else OtherChoiceLine
  }

  /** The branches of `_parse_true_false`. */
  datatype BoolLine =
    | AnswerLine(value: string)
    | BoolExplanationLine(text: string)
    | OtherBoolLine

  function BoolKind(raw: string): BoolLine {
    var line := Strip(raw);
    if StartsWith(line, "ANSWER:") then AnswerLine(Strip(line[7..]))
    else if StartsWith(line, "EXPLANATION:") then BoolExplanationLine(Strip(line[12..]))
    else OtherBoolLine
  }

  /** The branches of `_parse_short_answer`. */
  datatype OpenLine =
    | SampleLine(value: string)
    | KeyPointsLine(value: string)
    | OtherOpenLine

  function OpenKind(raw: string): OpenLine {
    var line := Strip(raw);
    if StartsWith(line, "SAMPLE_ANSWER:") then SampleLine(Strip(line[14..]))
    else if StartsWith(line, "KEY_POINTS:") then KeyPointsLine(Strip(line[11..]))
    else OtherOpenLine
  }

  /** The value a line gives one of the parser's variables, if it assigns it. */
  function CorrectValue(raw: string): Option<string> {
    match ChoiceKind(raw)
    case CorrectLine(v) => Some(v)
    case _ => None
  }

  function ChoiceExplanation(raw: string): Option<string> {
    match ChoiceKind(raw)
    case ChoiceExplanationLine(v) => Some(v)
    case _ => None
  }

  function AnswerValue(raw: string): Option<string> {
    match BoolKind(raw)
    case AnswerLine(v) => Some(v)
    case _ => None
  }

  function BoolExplanation(raw: string): Option<string> {
    match BoolKind(raw)
    case BoolExplanationLine(v) => Some(v)
    case _ => None
  }

  function SampleValue(raw: string): Option<string> {
    match OpenKind(raw)
    case SampleLine(v) => Some(v)
    case _ => None
  }

  function KeyPointsValue(raw: string): Option<string> {
    match OpenKind(raw)
    case KeyPointsLine(v) => Some(v)
    case _ => None
  }

  /** The value the variable holds after `lines`: that of the last line that
      assigns it, if any does. */
  function LastAssigned(lines: seq<string>, pick: string -> Option<string>): Option<string> {
    if lines == [] then None
    else
      match pick(lines[|lines| - 1])
      case Some(v) => Some(v)
      case None => LastAssigned(lines[..|lines| - 1], pick)
  }

  /** A variable is left unassigned exactly when no line assigns it, and
      otherwise holds the value of a line after which no line assigns it: a
      later line overwrites an earlier one. */
  lemma {:induction false} LastAssignedMeaning(lines: seq<string>, pick: string -> Option<string>)
    ensures LastAssigned(lines, pick).None? <==> forall k :: 0 <= k < |lines| ==> pick(lines[k]).None?
    ensures LastAssigned(lines, pick).Some? ==>
              exists k :: 0 <= k < |lines| && pick(lines[k]) == LastAssigned(lines, pick)
                          && forall j :: k < j < |lines| ==> pick(lines[j]).None?
  {
    if lines != [] {
      var prefix := lines[..|lines| - 1];
      LastAssignedMeaning(prefix, pick);
      assert forall k :: 0 <= k < |prefix| ==> prefix[k] == lines[k];
    }
  }

  /** The text of the last option line for `letter`. */
  function LastOption(lines: seq<string>, letter: char): Option<string> {
    if lines == [] then None
    else
      match ChoiceKind(lines[|lines| - 1])
      case OptionLine(c, t) => if c == letter then Some(t) else LastOption(lines[..|lines| - 1], letter)
      case _ => LastOption(lines[..|lines| - 1], letter)
  }

  /** The `options` dictionary after `lines`: keys from A-D only, none twice,
      and for each letter the text of its last option line. */
  function OptionsOf(lines: seq<string>): (r: Options)
    ensures KeySet(r) <= LETTERS && DistinctKeys(r)
    ensures forall c :: Lookup(r, c) == LastOption(lines, c)
  {
    if lines == [] then []
    else
      var d := OptionsOf(lines[..|lines| - 1]);
      match ChoiceKind(lines[|lines| - 1])
      case OptionLine(c, t) => Put(d, c, t)
      case _ => d
  }

  /** Some CORRECT line of `lines` has nothing after the key, so that taking
      the first letter of its value raises. */
  predicate Raises(lines: seq<string>) {
    lines != [] && (CorrectValue(lines[|lines| - 1]) == Some("") || Raises(lines[..|lines| - 1]))
  }

  /** `Raises` holds exactly when some line is an empty CORRECT line. */
  lemma {:induction false} RaisesMeaning(lines: seq<string>)
    ensures Raises(lines) <==> exists k :: 0 <= k < |lines| && CorrectValue(lines[k]) == Some("")
  {
    if lines != [] {
      var prefix := lines[..|lines| - 1];
      RaisesMeaning(prefix);
      assert forall k :: 0 <= k < |prefix| ==> prefix[k] == lines[k];
    }
  }

  /** Without an empty CORRECT line, the last CORRECT value is not empty. */
  lemma {:induction false} LastCorrectNotEmpty(lines: seq<string>)
    requires !Raises(lines)
    ensures LastAssigned(lines, CorrectValue).Some? ==> LastAssigned(lines, CorrectValue).value != []
  {
    if lines != [] {
      LastCorrectNotEmpty(lines[..|lines| - 1]);
    }
  }

  /** A kept multiple-choice question: a non-empty question, options with
      exactly the keys A, B, C and D, and an upper-case answer letter. */
  predicate ValidMultipleChoice(q: Question) {
    && q.MultipleChoice?
    && q.question != []
    && |q.options| == 4 && DistinctKeys(q.options) && KeySet(q.options) == LETTERS
    && UpperChar(q.correct) == q.correct
  }

  /** One section of `_parse_multiple_choice`; the section is skipped when the
      letter lookup raises. */
  function MultipleChoiceSection(section: string): (r: Option<Question>)
    ensures r.Some? ==> ValidMultipleChoice(r.value)
  {
    var lines := SectionLines(section);
    var body := lines[1..];
    var question := Strip(lines[0]);
    var options := OptionsOf(body);
    if Raises(body) then None
    else
      match LastAssigned(body, CorrectValue)
      case None => None
      case Some(v) =>
        if question != [] && |options| == 4 then
          LastCorrectNotEmpty(body);
          DistinctKeysCount(options);
          FourLetters(KeySet(options));
          Some(MultipleChoice(question, options, Upper(v)[0], LastAssigned(body, ChoiceExplanation).GetOr("")))
        else None
  }

  /** The `answer` variable of `_parse_true_false` after `lines`: whether the
      upper-cased value of the last ANSWER line contains TRUE. */
  function AnswerOf(lines: seq<string>): Option<bool> {
    match LastAssigned(lines, AnswerValue)
    case None => None
    case Some(a) => Some(Contains(Upper(a), "TRUE"))
  }

  /** One section of `_parse_true_false`. */
  function TrueFalseSection(section: string): (r: Option<Question>)
    ensures r.Some? ==> r.value.TrueFalse? && r.value.question != []
  {
    var lines := SectionLines(section);
    var body := lines[1..];
    var question := Strip(lines[0]);
    match AnswerOf(body)
    case None => None
    case Some(a) =>
      if question != [] then Some(TrueFalse(question, a, LastAssigned(body, BoolExplanation).GetOr(""))) else None
  }

  /** One section of `_parse_short_answer`. */
  function ShortAnswerSection(section: string): (r: Option<Question>)
    ensures r.Some? ==> r.value.ShortAnswer? && r.value.question != [] && r.value.sampleAnswer != []
  {
    var lines := SectionLines(section);
    var body := lines[1..];
    var question := Strip(lines[0]);
    var sample := LastAssigned(body, SampleValue).GetOr("");
    var keyPoints := LastAssigned(body, KeyPointsValue).GetOr("");
    if question != [] && sample != [] then Some(ShortAnswer(question, sample, keyPoints)) else None
  }

  /** A multiple-choice section is kept exactly when its question is not empty,
      no CORRECT line is empty, some CORRECT line occurs and all four letters
      have an option line. */
  lemma MultipleChoiceSectionKept(section: string)
    ensures var body := SectionLines(section)[1..];
            MultipleChoiceSection(section).Some? <==>
              && Strip(SectionLines(section)[0]) != []
              && (forall k :: 0 <= k < |body| ==> CorrectValue(body[k]) != Some(""))
              && (exists k :: 0 <= k < |body| && CorrectValue(body[k]).Some?)
              && (forall c :: c in LETTERS ==> LastOption(body, c).Some?)
  {
    var body := SectionLines(section)[1..];
    RaisesMeaning(body);
    LastAssignedMeaning(body, CorrectValue);
    AllFourOptions(body);
  }

  /** In a kept multiple-choice question the answer is the first letter,
      upper-cased, of the last CORRECT value, and each option is the text of
      its letter's last option line. */
  lemma MultipleChoiceSectionAnswer(section: string)
    requires MultipleChoiceSection(section).Some?
    ensures var body := SectionLines(section)[1..];
            var q := MultipleChoiceSection(section).value;
            && (exists k :: 0 <= k < |body| && CorrectValue(body[k]).Some?
                           && CorrectValue(body[k]).value != [] && q.correct == UpperChar(CorrectValue(body[k]).value[0])
                           && forall j :: k < j < |body| ==> CorrectValue(body[j]).None?)
            && (forall c :: c in LETTERS ==> Lookup(q.options, c) == LastOption(body, c))
  {
    var body := SectionLines(section)[1..];
    LastAssignedMeaning(body, CorrectValue);
    LastCorrectNotEmpty(body);
  }

  /** The dictionary has four entries exactly when each letter A-D has an
      option line. */
  lemma AllFourOptions(lines: seq<string>)
    ensures |OptionsOf(lines)| == 4 <==> forall c :: c in LETTERS ==> LastOption(lines, c).Some?
  {
    var options := OptionsOf(lines);
    FourKeys(options);
    assert forall c :: Lookup(options, c) == LastOption(lines, c);
  }

  /** A true/false section is kept exactly when its question is not empty and
      some ANSWER line occurs; the answer is whether the upper-cased value of
      the last ANSWER line contains TRUE. */
  lemma TrueFalseSectionMeaning(section: string)
    ensures var body := SectionLines(section)[1..];
            TrueFalseSection(section).Some? <==>
              Strip(SectionLines(section)[0]) != [] && exists k :: 0 <= k < |body| && AnswerValue(body[k]).Some?
    ensures var body := SectionLines(section)[1..];
            TrueFalseSection(section).Some? ==>
              exists k :: 0 <= k < |body| && AnswerValue(body[k]).Some?
                          && TrueFalseSection(section).value.answer == Contains(Upper(AnswerValue(body[k]).value), "TRUE")
                          && forall j :: k < j < |body| ==> AnswerValue(body[j]).None?
  {
    LastAssignedMeaning(SectionLines(section)[1..], AnswerValue);
  }

  /** A short-answer section is kept exactly when its question and the value of
      its last SAMPLE_ANSWER line are both non-empty; without a KEY_POINTS line
      the key points are empty. */
  lemma ShortAnswerSectionMeaning(section: string)
    ensures var body := SectionLines(section)[1..];
            ShortAnswerSection(section).Some? <==>
              Strip(SectionLines(section)[0]) != [] && LastAssigned(body, SampleValue).GetOr("") != []
    ensures var body := SectionLines(section)[1..];
            (ShortAnswerSection(section).Some? && forall k :: 0 <= k < |body| ==> KeyPointsValue(body[k]).None?) ==>
              ShortAnswerSection(section).value.keyPoints == ""
  {
    LastAssignedMeaning(SectionLines(section)[1..], KeyPointsValue);
  }

  /** `_parse_multiple_choice(text)` */
  function MultipleChoiceQuestions(text: string): seq<Question> {
    Kept(Split(text, 'Q')[1..], MultipleChoiceSection)
  }

  /** `_parse_true_false(text)` */
  function TrueFalseQuestions(text: string): seq<Question> {
    Kept(Split(text, 'Q')[1..], TrueFalseSection)
  }

  /** `_parse_short_answer(text)` */
  function ShortAnswerQuestions(text: string): seq<Question> {
    Kept(Split(text, 'Q')[1..], ShortAnswerSection)
  }

  /** Every multiple-choice question a reply yields is a valid one, and there
      is at most one per section after the first marker. */
  lemma MultipleChoiceQuestionsValid(text: string)
    ensures |MultipleChoiceQuestions(text)| <= |Split(text, 'Q')| - 1
    ensures forall q :: q in MultipleChoiceQuestions(text) ==> ValidMultipleChoice(q)
  {
    KeptFrom(Split(text, 'Q')[1..], MultipleChoiceSection);
  }

  lemma TrueFalseQuestionsShape(text: string)
    ensures |TrueFalseQuestions(text)| <= |Split(text, 'Q')| - 1
    ensures forall q :: q in TrueFalseQuestions(text) ==> q.TrueFalse? && q.question != []
  {
    KeptFrom(Split(text, 'Q')[1..], TrueFalseSection);
  }

  lemma ShortAnswerQuestionsShape(text: string)
    ensures |ShortAnswerQuestions(text)| <= |Split(text, 'Q')| - 1
    ensures forall q :: q in ShortAnswerQuestions(text) ==> q.ShortAnswer? && q.question != [] && q.sampleAnswer != []
  {
    KeptFrom(Split(text, 'Q')[1..], ShortAnswerSection);
  }

  /** A reply without a newline-then-`Q:` marker yields no question of any
      kind, even when it begins with `Q:` itself. */
  lemma NoMarkerNoQuestions(text: string)
    requires NoMarker(text, 'Q')
    ensures MultipleChoiceQuestions(text) == []
    ensures TrueFalseQuestions(text) == []
    ensures ShortAnswerQuestions(text) == []
  {
    SplitOfNoMarker(text, 'Q');
  }

  /** `lines[1..i+1]` is `lines[1..i]` and one more line. */
  lemma BodyStep(lines: seq<string>, i: nat)
    requires 1 <= i < |lines|
    ensures lines[1..i + 1][..i - 1] == lines[1..i]
    ensures lines[1..i + 1][i - 1] == lines[i]
  {
  }

  /** One more body line either assigns the variable or leaves it. */
  lemma LastAssignedStep(lines: seq<string>, i: nat, pick: string -> Option<string>)
    requires 1 <= i < |lines|
    ensures LastAssigned(lines[1..i + 1], pick)
            == if pick(lines[i]).Some? then pick(lines[i]) else LastAssigned(lines[1..i], pick)
  {
    BodyStep(lines, i);
  }

  /** One more body line updates the options and the raising condition. */
  lemma ChoiceStep(lines: seq<string>, i: nat)
    requires 1 <= i < |lines|
    ensures OptionsOf(lines[1..i + 1]) == match ChoiceKind(lines[i])
                                         case OptionLine(c, t) => Put(OptionsOf(lines[1..i]), c, t)
                                         case _ => OptionsOf(lines[1..i])
    ensures Raises(lines[1..i + 1]) <==> CorrectValue(lines[i]) == Some("") || Raises(lines[1..i])
  {
    var body := lines[1..i + 1];
    assert body[..|body| - 1] == lines[1..i] && body[|body| - 1] == lines[i];
  }

  /** An empty CORRECT line makes the whole section raise. */
  lemma RaisesAt(lines: seq<string>, i: nat)
    requires 1 <= i < |lines| && CorrectValue(lines[i]) == Some("")
    ensures Raises(lines[1..])
  {
    RaisesMeaning(lines[1..]);
    assert lines[1..][i - 1] == lines[i];
  }

  /** `_parse_multiple_choice` on one section. */
  method ParseMultipleChoiceSection(section: string) returns (r: Option<Question>)
    ensures r == MultipleChoiceSection(section)
  {
    var lines := SplitOn(Strip(section), '\n');
    var question := Strip(lines[0]);
    var raised, options, correct, explanation := ScanMultipleChoice(lines);
    if raised {
      return None;
    }
    if question != [] && |options| == 4 && correct.Some? {
      r := Some(MultipleChoice(question, options, correct.value, explanation));
    } else {
      r := None;
    }
  }

  /** The loop of `_parse_multiple_choice` over the lines after the
      question; `raised` when a CORRECT line with nothing after its key ends
      it. */
  method ScanMultipleChoice(lines: seq<string>)
    returns (raised: bool, options: Options, correct: Option<char>, explanation: string)
    requires |lines| >= 1
    ensures raised <==> Raises(lines[1..])
    ensures !raised ==>
              && options == OptionsOf(lines[1..])
              && (correct.Some? <==> LastAssigned(lines[1..], CorrectValue).Some?)
              && (correct.Some? ==> LastAssigned(lines[1..], CorrectValue).value != []
                                    && correct.value == Upper(LastAssigned(lines[1..], CorrectValue).value)[0])
              && explanation == LastAssigned(lines[1..], ChoiceExplanation).GetOr("")
  {
    raised := false;
    options := [];
    correct := None;
    explanation := "";
    var i := 1;
    while i < |lines|
      invariant 1 <= i <= |lines|
      invariant options == OptionsOf(lines[1..i])
      invariant !Raises(lines[1..i])
      invariant correct.Some? <==> LastAssigned(lines[1..i], CorrectValue).Some?
      invariant correct.Some? ==> LastAssigned(lines[1..i], CorrectValue).value != []
                                  && correct.value == Upper(LastAssigned(lines[1..i], CorrectValue).value)[0]
      invariant explanation == LastAssigned(lines[1..i], ChoiceExplanation).GetOr("")
    {
      ChoiceStep(lines, i);
      LastAssignedStep(lines, i, CorrectValue);
      LastAssignedStep(lines, i, ChoiceExplanation);
      var kind := ChoiceKind(lines[i]);
      match kind {
        case OptionLine(letter, text) =>
          assert CorrectValue(lines[i]).None? && ChoiceExplanation(lines[i]).None?;
          options := Put(options, letter, text);
        case CorrectLine(v) =>
          assert CorrectValue(lines[i]) == Some(v) && ChoiceExplanation(lines[i]).None?;
          var value := Upper(v);
          if value == [] {
            RaisesAt(lines, i);
            raised := true;
            return;
          }
          correct := Some(value[0]);
        case ChoiceExplanationLine(v) =>
          assert CorrectValue(lines[i]).None? && ChoiceExplanation(lines[i]) == Some(v);
          explanation := v;
        case OtherChoiceLine =>
          assert CorrectValue(lines[i]).None? && ChoiceExplanation(lines[i]).None?;
      }
      i := i + 1;
    }
    assert lines[1..i] == lines[1..];
  }

  /** `_parse_true_false` on one section. */
  method ParseTrueFalseSection(section: string) returns (r: Option<Question>)
    ensures r == TrueFalseSection(section)
  {
    var lines := SplitOn(Strip(section), '\n');
    var question := Strip(lines[0]);
    var answer, explanation := ScanTrueFalse(lines);
    if question != [] && answer.Some? {
      r := Some(TrueFalse(question, answer.value, explanation));
    } else {
      r := None;
    }
  }

  /** The loop of `_parse_true_false` over the lines after the question. */
  method ScanTrueFalse(lines: seq<string>) returns (answer: Option<bool>, explanation: string)
    requires |lines| >= 1
    ensures answer == AnswerOf(lines[1..])
    ensures explanation == LastAssigned(lines[1..], BoolExplanation).GetOr("")
  {
    answer := None;
    explanation := "";
    var i := 1;
    while i < |lines|
      invariant 1 <= i <= |lines|
      invariant answer == AnswerOf(lines[1..i])
      invariant explanation == LastAssigned(lines[1..i], BoolExplanation).GetOr("")
    {
      LastAssignedStep(lines, i, AnswerValue);
      LastAssignedStep(lines, i, BoolExplanation);
      var kind := BoolKind(lines[i]);
      match kind {
        case AnswerLine(v) =>
          assert AnswerValue(lines[i]) == Some(v) && BoolExplanation(lines[i]).None?;
          var answerText := Upper(v);
          answer := Some(Contains(answerText, "TRUE"));
        case BoolExplanationLine(v) =>
          assert AnswerValue(lines[i]).None? && BoolExplanation(lines[i]) == Some(v);
          explanation := v;
        case OtherBoolLine =>
          assert AnswerValue(lines[i]).None? && BoolExplanation(lines[i]).None?;
      }
      i := i + 1;
    }
    assert lines[1..i] == lines[1..];
  }

  /** `_parse_short_answer` on one section. */
  method ParseShortAnswerSection(section: string) returns (r: Option<Question>)
    ensures r == ShortAnswerSection(section)
  {
    var lines := SplitOn(Strip(section), '\n');
    var question := Strip(lines[0]);
    var sample, keyPoints := ScanShortAnswer(lines);
    if question != [] && sample != [] {
      r := Some(ShortAnswer(question, sample, keyPoints));
    } else {
      r := None;
    }
  }

  /** The loop of `_parse_short_answer` over the lines after the question. */
  method ScanShortAnswer(lines: seq<string>) returns (sample: string, keyPoints: string)
    requires |lines| >= 1
    ensures sample == LastAssigned(lines[1..], SampleValue).GetOr("")
    ensures keyPoints == LastAssigned(lines[1..], KeyPointsValue).GetOr("")
  {
    sample := "";
    keyPoints := "";
    var i := 1;
    while i < |lines|
      invariant 1 <= i <= |lines|
      invariant sample == LastAssigned(lines[1..i], SampleValue).GetOr("")
      invariant keyPoints == LastAssigned(lines[1..i], KeyPointsValue).GetOr("")
    {
      LastAssignedStep(lines, i, SampleValue);
      LastAssignedStep(lines, i, KeyPointsValue);
      var kind := OpenKind(lines[i]);
      match kind {
        case SampleLine(v) =>
          assert SampleValue(lines[i]) == Some(v) && KeyPointsValue(lines[i]).None?;
          sample := v;
        case KeyPointsLine(v) =>
          assert SampleValue(lines[i]).None? && KeyPointsValue(lines[i]) == Some(v);
          keyPoints := v;
        case OtherOpenLine =>
          assert SampleValue(lines[i]).None? && KeyPointsValue(lines[i]).None?;
      }
      i := i + 1;
    }
    assert lines[1..i] == lines[1..];
  }

  /** `sections[..i+1]` is `sections[..i]` and one more section. */
  lemma SectionsStep(sections: seq<string>, i: nat)
    requires i < |sections|
    ensures sections[..i + 1][..i] == sections[..i]
    ensures sections[..i + 1][i] == sections[i]
  {
  }

  /** `_parse_multiple_choice`: the loop over the sections after the first marker. */
  method ParseMultipleChoice(text: string) returns (questions: seq<Question>)
    ensures questions == MultipleChoiceQuestions(text)
  {
    var sections := Split(text, 'Q')[1..];
    questions := [];
    var i := 0;
    while i < |sections|
      invariant 0 <= i <= |sections|
      invariant questions == Kept(sections[..i], MultipleChoiceSection)
    {
      SectionsStep(sections, i);
      var q := ParseMultipleChoiceSection(sections[i]);
      if q.Some? {
        questions := questions + [q.value];
      }
      i := i + 1;
    }
    assert sections[..i] == sections;
  }

  /** `_parse_true_false`: the loop over the sections after the first marker. */
  method ParseTrueFalse(text: string) returns (questions: seq<Question>)
    ensures questions == TrueFalseQuestions(text)
  {
    var sections := Split(text, 'Q')[1..];
    questions := [];
    var i := 0;
    while i < |sections|
      invariant 0 <= i <= |sections|
      invariant questions == Kept(sections[..i], TrueFalseSection)
    {
      SectionsStep(sections, i);
      var q := ParseTrueFalseSection(sections[i]);
      if q.Some? {
        questions := questions + [q.value];
      }
      i := i + 1;
    }
    assert sections[..i] == sections;
  }

  /** `_parse_short_answer`: the loop over the sections after the first marker. */
  method ParseShortAnswer(text: string) returns (questions: seq<Question>)
    ensures questions == ShortAnswerQuestions(text)
  {
    var sections := Split(text, 'Q')[1..];
    questions := [];
    var i := 0;
    while i < |sections|
      invariant 0 <= i <= |sections|
      invariant questions == Kept(sections[..i], ShortAnswerSection)
    {
      SectionsStep(sections, i);
      var q := ParseShortAnswerSection(sections[i]);
      if q.Some? {
        questions := questions + [q.value];
      }
      i := i + 1;
    }
    assert sections[..i] == sections;
  }
}
