/** How `generate_exam_endpoint` in `backend/main.py` assembles an exam:
    which documents it reads, the study text it builds from them, which
    generators it calls, and the exam record it returns. The PDF extractor
    and the model are inputs: `Pdf` gives the extracted text of a file, or
    `None` when extraction fails, and `Model` gives the model's reply to a
    generator asked for a number of questions on a text, or `Err` when the
    call raises. Errors are the HTTP status codes the endpoint answers with. */
module ExamAssembly {
  import opened Wrappers
  import opened Text
  import opened Tables
  import opened Questions
  import opened ExamParsers
  import opened ExamGenerator
  import opened Database

  datatype Kind = MultipleChoiceKind | TrueFalseKind | ShortAnswerKind

  type Pdf = string -> Option<string>
  type Model = (Kind, string, int) -> Result<string, string>

  /** One `{type, count}` entry of `question_types`. */
  datatype QuestionType = QuestionType(kind: string, count: int)

  /** The fields of `ExamRequest` the endpoint reads; `questionCount` is
      `Some(20)` when the client leaves it out. */
  datatype ExamRequest = ExamRequest(course: Option<string>, documentIds: Option<seq<nat>>,
                                     questionTypes: Option<seq<QuestionType>>,
                                     questionCount: Option<int>)

  /** The saved exam record, less its `created_at` stamp. */
  datatype GeneratedExam = GeneratedExam(id: string, title: string, course: string, examType: string,
                                         questionCount: nat, questions: seq<Question>,
                                         aiModelUsed: string, documentIds: seq<nat>,
                                         documentNames: seq<string>)

  /** The longest study text sent to the model. */
  const MAX_TEXT: nat := 15000

  function InIds(ids: seq<nat>): Document -> bool { (d: Document) => d.id in ids }

  predicate HasDocumentIds(request: ExamRequest) {
    request.documentIds.Some? && request.documentIds.value != []
  }

  predicate HasCourse(request: ExamRequest) {
    request.course.Some? && request.course.value != ""
  }

  /** The documents an exam draws on: the listed ids when there are any,
      otherwise the documents of the named course; 400 with neither, 404
      when nothing is found. */
  function ExamDocuments(request: ExamRequest, courses: seq<Course>, documents: seq<Document>)
    : (r: Result<seq<Document>, nat>)
    ensures r == Err(400) <==> !HasDocumentIds(request) && !HasCourse(request)
    ensures r.Err? ==> r.error == 400 || r.error == 404
    ensures r.Ok? ==> r.value != [] && forall d :: d in r.value ==> d in documents
    ensures r.Ok? && HasDocumentIds(request) ==>
              forall d :: d in r.value <==> d in documents && d.id in request.documentIds.value
    ensures r.Ok? && !HasDocumentIds(request) ==>
              exists i :: 0 <= i < |courses| && courses[i].code == request.course.value
                          && forall d :: d in r.value <==> d in documents && d.courseId == courses[i].id
    ensures r == Err(404) <==>
              if HasDocumentIds(request) then forall d :: d in documents ==> d.id !in request.documentIds.value
              else HasCourse(request)
                   && var first := FindFirst(courses, HasCode(request.course.value));
                      first.None? || forall d :: d in documents ==> d.courseId != courses[first.value].id
  {
    var found :=
      if HasDocumentIds(request) then Ok(Filter(documents, InIds(request.documentIds.value)))
      else if HasCourse(request) then
        match FindFirst(courses, HasCode(request.course.value))
        case None => Ok([])
        case Some(i) => Ok(Filter(documents, InCourse(courses[i].id)))
      else Err(400);
    assert found.Ok? && found.value != [] ==> found.value[0] in found.value;
    match found
    case Err(e) => Err(e)
    case Ok(docs) => if docs == [] then Err(404) else Ok(docs)
  }

  /** The banner put before each document's text. */
  function Banner(d: Document): (r: string)
    ensures r != []
  {
    "\n\n--- " + d.filename + " ---\n\n"
  }

  /** The text of every document that extracts, each after its banner, in
      document order. */
  function Combined(docs: seq<Document>, pdf: Pdf): (r: string)
    ensures forall k :: 0 <= k < |docs| && pdf(docs[k].filePath).Some? ==>
              Occurs(r, Banner(docs[k]) + pdf(docs[k].filePath).value)
  {
    if docs == [] then ""
    else
      var n := |docs| - 1;
      var earlier := Combined(docs[..n], pdf);
      var last := match pdf(docs[n].filePath)
        case None => ""
        case Some(text) => Banner(docs[n]) + text;
      forall k | 0 <= k < n && pdf(docs[k].filePath).Some?
        ensures Occurs(earlier + last, Banner(docs[k]) + pdf(docs[k].filePath).value)
      {
        assert docs[..n][k] == docs[k];
        OccursPrefix(earlier, last, Banner(docs[k]) + pdf(docs[k].filePath).value);
      }
      OccursSuffix(earlier, last);
      earlier + last
  }

  /** `part` is the slice of `s` at offset `i`. */
  predicate OccursAt(s: string, part: string, i: nat) {
    i + |part| <= |s| && s[i..i + |part|] == part
  }

  /** `part` is a slice of `s`. */
  predicate Occurs(s: string, part: string) {
    exists i :: 0 <= i <= |s| && OccursAt(s, part, i)
  }

  lemma OccursSuffix(s: string, t: string)
    ensures Occurs(s + t, t)
  {
    assert (s + t)[|s|..|s| + |t|] == t;
    assert OccursAt(s + t, t, |s|);
  }

  lemma OccursPrefix(s: string, t: string, part: string)
    requires Occurs(s, part)
    ensures Occurs(s + t, part)
  {
    var i: nat :| i <= |s| && OccursAt(s, part, i);
    assert (s + t)[i..i + |part|] == part;
    assert OccursAt(s + t, part, i);
  }

  /** The combined text is empty exactly when no document extracts. */
  lemma {:induction false} CombinedEmpty(docs: seq<Document>, pdf: Pdf)
    ensures Combined(docs, pdf) == [] <==> forall k :: 0 <= k < |docs| ==> pdf(docs[k].filePath).None?
  {
    if docs != [] {
      var n := |docs| - 1;
      CombinedEmpty(docs[..n], pdf);
      assert forall k :: 0 <= k < n ==> docs[..n][k] == docs[k];
    }
  }

  /** The loop that builds the combined text. */
  method CombineText(docs: seq<Document>, pdf: Pdf) returns (text: string)
    ensures text == Combined(docs, pdf)
  {
    text := "";
    for i := 0 to |docs|
      invariant text == Combined(docs[..i], pdf)
    {
      assert docs[..i + 1][..i] == docs[..i];
      match pdf(docs[i].filePath) {
        case Some(extracted) =>
          text := text + Banner(docs[i]);
          text := text + extracted;
        case None =>
      }
    }
    assert docs[..|docs|] == docs;
  }

  /** The study text the generators see: the combined text cut to its first
      15000 characters. */
  function StudyText(combined: string): (r: string)
    ensures |r| <= MAX_TEXT && |r| <= |combined|
    ensures r == combined[..|r|]
    ensures |combined| <= MAX_TEXT ==> r == combined
    ensures r == [] <==> combined == []
  {
    if |combined| > MAX_TEXT then combined[..MAX_TEXT] else combined
  }

  /** The generator a `question_types` entry names, if any. */
  function KindOf(name: string): (r: Option<Kind>)
    ensures r.Some? <==> name in {"multiple_choice", "true_false", "short_answer"}
    ensures r == Some(MultipleChoiceKind) <==> name == "multiple_choice"
  {
    if name == "multiple_choice" then Some(MultipleChoiceKind)
    else if name == "true_false" then Some(TrueFalseKind)
    else if name == "short_answer" then Some(ShortAnswerKind)
    else None
  }

  /** One generator call. */
  function Generate(kind: Kind, text: string, count: int, model: Model): (r: seq<Question>)
    ensures 0 <= count ==> |r| <= count
    ensures forall q :: q in r ==> Rank(q) == match kind
                                                case MultipleChoiceKind => 0
                                                case TrueFalseKind => 1
                                                case ShortAnswerKind => 2
  {
    var reply := model(kind, text, count);
    match kind
    case MultipleChoiceKind => GenerateMultipleChoice(reply, count)
    case TrueFalseKind => GenerateTrueFalse(reply, count)
    case ShortAnswerKind => GenerateShortAnswer(reply, count)
  }

  /** The questions of the listed types, in list order. An entry whose count
      is not positive is skipped; an unknown type is skipped too once some
      generator has run, and before that it fails, because the progress line
      it prints names a variable no generator has set yet. `ran` says
      whether a generator has run. */
  function Typed(types: seq<QuestionType>, text: string, model: Model, ran: bool): (r: Option<seq<Question>>)
    ensures ran ==> r.Some?
    ensures r.None? ==> exists k :: 0 <= k < |types| && types[k].count > 0 && KindOf(types[k].kind).None?
  {
    if types == [] then Some([])
    else
      var qt := types[0];
      if qt.count <= 0 then Typed(types[1..], text, model, ran)
      else match KindOf(qt.kind)
        case Some(kind) =>
          (match Typed(types[1..], text, model, true)
           case None => None
           case Some(rest) => Some(Generate(kind, text, qt.count, model) + rest))
        case None => if ran then Typed(types[1..], text, model, ran) else None
  }

  function Positive(qt: QuestionType): bool { qt.count > 0 }

  /** Entries whose count is not positive play no part. */
  lemma {:induction false} TypedSkipsNonPositive(types: seq<QuestionType>, text: string, model: Model, ran: bool)
    ensures Typed(types, text, model, ran) == Typed(Filter(types, Positive), text, model, ran)
  {
    if types != [] {
      var qt := types[0];
      var rest := types[1..];
      FilterCons(types, Positive);
      var kept := Filter(rest, Positive);
      if qt.count <= 0 {
        assert Filter(types, Positive) == kept;
        TypedSkipsNonPositive(rest, text, model, ran);
      } else {
        assert Filter(types, Positive) == [qt] + kept;
        assert ([qt] + kept)[0] == qt && ([qt] + kept)[1..] == kept;
        TypedSkipsNonPositive(rest, text, model, ran);
        TypedSkipsNonPositive(rest, text, model, true);
      }
    }
  }

  /** Filtering a non-empty table filters its head, then its tail. */
  lemma {:induction false} FilterCons<T(!new)>(s: seq<T>, p: T -> bool)
    requires s != []
    ensures Filter(s, p) == (if p(s[0]) then [s[0]] else []) + Filter(s[1..], p)
  {
    var n := |s| - 1;
    if n > 0 {
      FilterCons(s[..n], p);
      assert s[..n][1..] == s[1..][..n - 1];
      assert s[..n][0] == s[0];
    }
  }

  /** With every count positive the exam holds at most the requested number
      of questions, each of a requested type. */
  function Requested(types: seq<QuestionType>): int {
    if types == [] then 0 else (if types[0].count > 0 then types[0].count else 0) + Requested(types[1..])
  }

  lemma {:induction false} TypedBound(types: seq<QuestionType>, text: string, model: Model, ran: bool)
    requires Typed(types, text, model, ran).Some?
    ensures |Typed(types, text, model, ran).value| <= Requested(types)
  {
    if types != [] {
      var qt := types[0];
      if qt.count <= 0 {
        TypedBound(types[1..], text, model, ran);
      } else if KindOf(qt.kind).Some? {
        TypedBound(types[1..], text, model, true);
      } else {
        TypedBound(types[1..], text, model, ran);
      }
    }
  }

  /** The questions of an exam: by type when types are listed, otherwise a
      mixed exam of `question_count` questions; `None` for the 500 a failing
      step raises. */
  function ExamQuestions(request: ExamRequest, text: string, model: Model): (r: Option<seq<Question>>)
    ensures r.None? ==>
              if request.questionTypes.Some? && request.questionTypes.value != [] then
                exists k :: 0 <= k < |request.questionTypes.value| && request.questionTypes.value[k].count > 0
                            && KindOf(request.questionTypes.value[k].kind).None?
              else request.questionCount.None?
  {
    if request.questionTypes.Some? && request.questionTypes.value != [] then
      Typed(request.questionTypes.value, text, model, false)
    else if request.questionCount.None? then None
    else
      var n := request.questionCount.value;
      var counts := MixedCounts(n);
      Some(GenerateMixed(model(MultipleChoiceKind, text, counts.0), model(TrueFalseKind, text, counts.1),
                         model(ShortAnswerKind, text, counts.2), n))
  }

  /** The loop over `question_types`. */
  method CollectTyped(types: seq<QuestionType>, text: string, model: Model) returns (r: Option<seq<Question>>)
    ensures r == Typed(types, text, model, false)
  {
    ghost var goal := Typed(types, text, model, false);
    var all: seq<Question> := [];
    var ran := false;
    var i := 0;
    assert types[0..] == types;
    PrependedEmpty(goal);
    while i < |types|
      invariant 0 <= i <= |types|
      invariant goal == Prepended(all, Typed(types[i..], text, model, ran))
    {
      var qt := types[i];
      TypedAt(types, i, text, model, ran);
      if qt.count > 0 {
        var kind := KindOf(qt.kind);
        if kind.None? {
          if !ran {
            return None;
          }
        } else {
          var questions := Generate(kind.value, text, qt.count, model);
          PrependedAppend(all, questions, Typed(types[i + 1..], text, model, true));
          all := all + questions;
          ran := true;
        }
      }
      i := i + 1;
    }
    assert types[i..] == [];
    assert all + [] == all;
    return Some(all);
  }

  /** `Typed` on a suffix of the list unfolds on its first entry. */
  lemma TypedAt(types: seq<QuestionType>, i: nat, text: string, model: Model, ran: bool)
    requires i < |types|
    ensures var qt := types[i];
            Typed(types[i..], text, model, ran) ==
              if qt.count <= 0 then Typed(types[i + 1..], text, model, ran)
              else match KindOf(qt.kind)
                case Some(kind) =>
                  Prepended(Generate(kind, text, qt.count, model), Typed(types[i + 1..], text, model, true))
                case None => if ran then Typed(types[i + 1..], text, model, ran) else None
  {
    assert types[i..][0] == types[i] && types[i..][1..] == types[i + 1..];
  }

  lemma PrependedEmpty(rest: Option<seq<Question>>)
    ensures Prepended([], rest) == rest
  {
    if rest.Some? {
      assert [] + rest.value == rest.value;
    }
  }

  /** `Some(prefix + rest)`, or `None` when the rest fails. */
  function Prepended(prefix: seq<Question>, rest: Option<seq<Question>>): Option<seq<Question>> {
    match rest
    case None => None
    case Some(qs) => Some(prefix + qs)
  }

  lemma PrependedAppend(prefix: seq<Question>, middle: seq<Question>, rest: Option<seq<Question>>)
    ensures Prepended(prefix, Prepended(middle, rest)) == Prepended(prefix + middle, rest)
  {
    if rest.Some? {
      assert prefix + (middle + rest.value) == (prefix + middle) + rest.value;
    }
  }

  /** The exam's title. */
  function Title(courseCode: string, docs: seq<Document>): (r: string)
    requires docs != []
    ensures StartsWith(r, courseCode)
    ensures |docs| == 1 ==> EndsWith(r, docs[0].filename)
    ensures |docs| > 1 ==> EndsWith(r, " documents)")
  {
    if |docs| == 1 then
      var r := courseCode + " - " + docs[0].filename;
      assert r[..|courseCode|] == courseCode && r[|r| - |docs[0].filename|..] == docs[0].filename;
      r
    else
      var r := courseCode + " Exam (" + NatToString(|docs|) + " documents)";
      assert r[..|courseCode|] == courseCode && r[|r| - |" documents)"|..] == " documents)";
      r
  }

  function DocumentIdOf(d: Document): nat { d.id }
  function FilenameOf(d: Document): string { d.filename }

  function Map<T, U>(s: seq<T>, f: T -> U): (r: seq<U>)
    ensures |r| == |s| && forall k :: 0 <= k < |s| ==> r[k] == f(s[k])
  {
    seq(|s|, k requires 0 <= k < |s| => f(s[k]))
  }

  /** The whole endpoint. `provider` is the AI service's name, `stamp` and
      `unique` the time stamp and the uuid prefix in the exam id. */
  function ExamOutcome(request: ExamRequest, courses: seq<Course>, documents: seq<Document>,
                       pdf: Pdf, model: Model, provider: string, stamp: string, unique: string)
    : (r: Result<GeneratedExam, nat>)
    ensures r == Err(400) <==> !HasDocumentIds(request) && !HasCourse(request)
    ensures r.Err? ==> r.error in {400, 404, 500}
    ensures
      r.Ok? ==>
        var docs := ExamDocuments(request, courses, documents);
        && docs.Ok?
        && (exists k :: 0 <= k < |docs.value| && pdf(docs.value[k].filePath).Some?)
        && r.value.questions != [] && r.value.questionCount == |r.value.questions|
        && Some(r.value.questions) == ExamQuestions(request, StudyText(Combined(docs.value, pdf)), model)
        && r.value.examType == "practice"
        && r.value.title == Title(r.value.course, docs.value)
        && r.value.documentIds == Map(docs.value, DocumentIdOf)
        && r.value.documentNames == Map(docs.value, FilenameOf)
        && (exists c :: c in courses && c.id == docs.value[0].courseId && c.code == r.value.course)
  {
    match ExamDocuments(request, courses, documents)
    case Err(e) => Err(e)
    case Ok(docs) =>
      var combined := Combined(docs, pdf);
      CombinedEmpty(docs, pdf);
      if combined == "" then Err(500)
      else
        match ExamQuestions(request, StudyText(combined), model)
        case None => Err(500)
        case Some(questions) =>
          if questions == [] then Err(500)
          else match FindFirst(courses, HasCourseId(docs[0].courseId))
            case None => Err(500)
            case Some(i) =>
              var code := courses[i].code;
              Ok(GeneratedExam(code + "_exam_" + stamp + "_" + unique, Title(code, docs), code, "practice",
                               |questions|, questions, provider, Map(docs, DocumentIdOf),
                               Map(docs, FilenameOf)))
  }

  /** A mixed exam is requested whenever no question types are listed, and
      its questions come grouped by type. */
  lemma MixedWhenNoTypes(request: ExamRequest, text: string, model: Model)
    requires request.questionTypes.None? || request.questionTypes.value == []
    requires request.questionCount.Some?
    ensures var r := ExamQuestions(request, text, model);
            && r.Some?
            && (0 <= request.questionCount.value ==> |r.value| <= request.questionCount.value)
            && forall j, k :: 0 <= j < k < |r.value| ==> Rank(r.value[j]) <= Rank(r.value[k])
  {
  }

  /** The endpoint, step by step. */
  method GenerateExamEndpoint(request: ExamRequest, courses: seq<Course>, documents: seq<Document>,
                              pdf: Pdf, model: Model, provider: string, stamp: string, unique: string)
    returns (r: Result<GeneratedExam, nat>)
    ensures r == ExamOutcome(request, courses, documents, pdf, model, provider, stamp, unique)
  {
    var found := ExamDocuments(request, courses, documents);
    if found.Err? {
      return Err(found.error);
    }
    var docs := found.value;
    var combined := CombineText(docs, pdf);
    if combined == "" {
      return Err(500);
    }
    if |combined| > MAX_TEXT {
      combined := combined[..MAX_TEXT];
    }
    var questions: seq<Question>;
    if request.questionTypes.Some? && request.questionTypes.value != [] {
      var typed := CollectTyped(request.questionTypes.value, combined, model);
      if typed.None? {
        return Err(500);
      }
      questions := typed.value;
    } else {
      if request.questionCount.None? {
        return Err(500);
      }
      var n := request.questionCount.value;
      var counts := MixedCounts(n);
      questions := GenerateMixed(model(MultipleChoiceKind, combined, counts.0),
                                 model(TrueFalseKind, combined, counts.1),
                                 model(ShortAnswerKind, combined, counts.2), n);
    }
    if questions == [] {
      return Err(500);
    }
    var courseIndex := FindFirst(courses, HasCourseId(docs[0].courseId));
    if courseIndex.None? {
      return Err(500);
    }
    var code := courses[courseIndex.value].code;
    r := Ok(GeneratedExam(code + "_exam_" + stamp + "_" + unique, Title(code, docs), code, "practice",
                          |questions|, questions, provider, Map(docs, DocumentIdOf), Map(docs, FilenameOf)));
  }
}
