/** Small pure rules of `backend/main.py`: how course codes and exam file
    names are normalised, the chat's follow-up suggestions, and the key
    points read off a saved summary. */
module MainHelpers {
  import opened Wrappers
  import opened Text

  predicate NoLowercase(s: string) {
    forall k :: 0 <= k < |s| ==> !('a' <= s[k] <= 'z')
  }

  /** Upper-casing touches only `a`-`z`, so it keeps a stripped string
      stripped and leaves no lower-case letter. */
  lemma UpperKeepsStripped(s: string)
    requires IsStripped(s)
    ensures IsStripped(Upper(s)) && NoLowercase(Upper(s))
  {
  }

  lemma UpperOfUpper(s: string)
    requires NoLowercase(s)
    ensures Upper(s) == s
  {
  }

  /** The course an upload is filed under: `GENERAL` when the form field is
      missing or blank, otherwise the field stripped and upper-cased. */
  function UploadCourse(course: Option<string>): (r: string)
    ensures r != [] && IsStripped(r) && NoLowercase(r)
    ensures (course.None? || Strip(course.value) == []) ==> r == "GENERAL"
  {
    if course.None? || Strip(course.value) == "" then "GENERAL"
    else
      UpperKeepsStripped(Strip(course.value));
      Upper(Strip(course.value))
  }

  /** Normalising a normalised course changes nothing. */
  lemma UploadCourseIdempotent(course: Option<string>)
    ensures UploadCourse(Some(UploadCourse(course))) == UploadCourse(course)
  {
    var r := UploadCourse(course);
    StripOfStripped(r);
    UpperOfUpper(r);
  }

  /** The code of a manually created course, or the 400 a blank code gets. */
  function ManualCourseCode(code: string): (r: Result<string, nat>)
    ensures r.Err? <==> Strip(code) == []
    ensures r.Err? ==> r.error == 400
    ensures r.Ok? ==> r.value != [] && IsStripped(r.value) && NoLowercase(r.value)
  {
    UpperKeepsStripped(Strip(code));
    var normalised := Upper(Strip(code));
    if normalised == "" then Err(400) else Ok(normalised)
  }

  /** Both entry points file a non-blank code under the same course. */
  lemma CourseCodesAgree(code: string)
    requires ManualCourseCode(code).Ok?
    ensures UploadCourse(Some(code)) == ManualCourseCode(code).value
  {
  }

  /** The exam file name for an exam id: `.json` appended unless present. */
  function JsonFileName(examId: string): (r: string)
    ensures EndsWith(r, ".json")
    ensures EndsWith(examId, ".json") ==> r == examId
    ensures !EndsWith(examId, ".json") ==> r == examId + ".json"
  {
    if EndsWith(examId, ".json") then examId
    else
      assert (examId + ".json")[|examId|..] == ".json";
      examId + ".json"
  }

  /** Ids with and without the suffix name the same file. */
  lemma JsonFileNameIdempotent(examId: string)
    ensures JsonFileName(JsonFileName(examId)) == JsonFileName(examId)
    ensures JsonFileName(examId + ".json") == examId + ".json"
  {
    assert (examId + ".json")[|examId|..] == ".json";
  }

  const DOCUMENT_SUGGESTIONS: seq<string> :=
    ["Summarize this document", "Quiz me on this topic", "What are the key points?"]
  const WHAT_SUGGESTIONS: seq<string> :=
    ["Can you explain that in simpler terms?", "Show me related flashcards"]
  const HOW_SUGGESTIONS: seq<string> :=
    ["Can you give me an example?", "Create a practice question about this"]
  const GENERAL_SUGGESTIONS: seq<string> :=
    ["Quiz me on this topic", "What should I study next?", "Create a study plan"]

  /** `generate_follow_up_suggestions`; `documentContext` says whether a
      context with a `document_id` came with the message. */
  function FollowUpSuggestions(userMessage: string, documentContext: bool): (r: seq<string>)
    ensures 2 <= |r| <= 7
    ensures documentContext ==> |r| >= 3 && r[..3] == DOCUMENT_SUGGESTIONS
    ensures (r == GENERAL_SUGGESTIONS) <==>
              !documentContext && !Contains(Lower(userMessage), "what") && !Contains(Lower(userMessage), "how")
  {
    var message := Lower(userMessage);
    var fromContext := if documentContext then DOCUMENT_SUGGESTIONS else [];
    var fromWhat := if Contains(message, "what") then WHAT_SUGGESTIONS else [];
    var fromHow := if Contains(message, "how") then HOW_SUGGESTIONS else [];
    var suggestions := fromContext + fromWhat + fromHow;
    assert suggestions != [] ==> suggestions != GENERAL_SUGGESTIONS by {
      if suggestions != [] {
        assert suggestions[0] in {DOCUMENT_SUGGESTIONS[0], WHAT_SUGGESTIONS[0], HOW_SUGGESTIONS[0]};
      }
    }
    if suggestions == [] then GENERAL_SUGGESTIONS else suggestions
  }

  /** A wording question gets the simpler-terms offer, a how-question the
      example offer, and either mark is recognised in any letter case. */
  lemma SuggestionsFollowQuestion(userMessage: string, documentContext: bool)
    ensures var r := FollowUpSuggestions(userMessage, documentContext);
            && (Contains(Lower(userMessage), "what") <==> WHAT_SUGGESTIONS[0] in r)
            && (Contains(Lower(userMessage), "how") <==> HOW_SUGGESTIONS[0] in r)
  {
    var r := FollowUpSuggestions(userMessage, documentContext);
    var message := Lower(userMessage);
    var fromContext := if documentContext then DOCUMENT_SUGGESTIONS else [];
    var fromWhat := if Contains(message, "what") then WHAT_SUGGESTIONS else [];
    var fromHow := if Contains(message, "how") then HOW_SUGGESTIONS else [];
    assert WHAT_SUGGESTIONS[0] !in DOCUMENT_SUGGESTIONS + HOW_SUGGESTIONS + GENERAL_SUGGESTIONS;
    assert HOW_SUGGESTIONS[0] !in DOCUMENT_SUGGESTIONS + WHAT_SUGGESTIONS + GENERAL_SUGGESTIONS;
    if fromContext + fromWhat + fromHow != [] {
      assert r == fromContext + fromWhat + fromHow;
    }
  }

  /** The characters `line.strip('- •')` removes. */
  const BULLET_MARGIN: set<char> := {'-', ' ', '•'}

  /** A summary line that reads as a bullet once its whitespace is stripped. */
  predicate IsBulletLine(line: string) {
    StartsWith(Strip(line), "-") || StartsWith(Strip(line), "•")
  }

  /** The bullet lines, each with its dashes, bullets and spaces stripped. */
  function BulletPoints(lines: seq<string>): (r: seq<string>)
    ensures |r| <= |lines|
    ensures forall p :: p in r ==> exists line :: line in lines && IsBulletLine(line) && p == StripChars(line, BULLET_MARGIN)
  {
    if lines == [] then []
    else
      var n := |lines| - 1;
      var earlier := BulletPoints(lines[..n]);
      assert forall line :: line in lines[..n] ==> line in lines;
      earlier + if IsBulletLine(lines[n]) then [StripChars(lines[n], BULLET_MARGIN)] else []
  }

  const NO_KEY_POINTS: seq<string> := ["No key points extracted"]

  /** The `key_points` of a summary: the first five bullet points, or the
      placeholder when the summary has none. */
  function SummaryKeyPoints(content: string): (r: seq<string>)
    ensures 1 <= |r| <= 5
    ensures var bullets := BulletPoints(SplitOn(content, '\n'));
            && (bullets == [] ==> r == NO_KEY_POINTS)
            && (bullets != [] ==> r == bullets[..if |bullets| < 5 then |bullets| else 5])
  {
    var bullets := BulletPoints(SplitOn(content, '\n'));
    var first := SliceTo(bullets, 5);
    if first == [] then NO_KEY_POINTS else first
  }

  /** A key point never starts or ends with a dash, bullet or space, and each
      comes from a bullet line of the summary. */
  lemma KeyPointsTrimmed(content: string)
    requires BulletPoints(SplitOn(content, '\n')) != []
    ensures forall p :: p in SummaryKeyPoints(content) ==>
              (p == [] || (p[0] !in BULLET_MARGIN && p[|p| - 1] !in BULLET_MARGIN))
              && exists line :: line in SplitOn(content, '\n') && IsBulletLine(line)
                                && p == StripChars(line, BULLET_MARGIN)
  {
    var bullets := BulletPoints(SplitOn(content, '\n'));
    var r := SummaryKeyPoints(content);
    forall p | p in r
      ensures p in bullets
    {
      var k :| 0 <= k < |r| && r[k] == p;
      assert bullets[k] == p;
    }
  }
}
