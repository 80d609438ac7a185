# StudyFlow backend core in Dafny

StudyFlow is a study assistant. A student uploads lecture PDFs into
courses. The backend extracts the text, asks a language model (OpenAI or a
local Ollama) for a summary and for flashcards at three difficulty levels,
and stores everything in SQLite. From the stored documents it generates
practice exams: multiple choice, true/false and short answer. It grades
the submissions and keeps each exam's attempt history.

This project models the logic of that backend and proves properties of the
model:

- **Exam text** (`exam_parsers.dfy`, `exam_generator.dfy`, `exam_format.dfy`):
  - the three line-oriented parsers that turn a model reply into questions;
  - the per-type generators and the mixed-exam count split;
  - the printable exam and the answer key.
- **AI service** (`ai_service.dfy`):
  - the flashcard parser and the per-difficulty flashcard loop;
  - provider selection and the OpenAI key check;
  - the request payloads of both providers;
  - the summary-length choice.
- **Store** (`database.dfy`): a class with four tables (courses, documents,
  summaries, flashcards), the create/update/delete operations the backend
  performs on them, and the queries and counts it reads.
- **Endpoints** of `backend/main.py`:
  - grading (`grading.dfy`);
  - the attempt history of a saved exam and the `list_exams` aggregates
    (`exam_attempts.dfy`);
  - exam assembly (`exam_assembly.dfy`);
  - the upload progress stream (`upload_progress.dfy`);
  - small normalisation and suggestion rules (`main_helpers.dfy`).
- **Shared helpers**:
  - Python's string methods (`text.dfy`);
  - `re.split` on the `\n\s*X:\s*` markers (`markers.dfy`);
  - the question values (`questions.dfy`);
  - table helpers (`tables.dfy`);
  - arithmetic facts (`arith.dfy`);
  - Option/Result (`wrappers.dfy`).

Where the backend mutates state step by step, the model does too:
- The exam file that `submit_exam` and `reset_exam_attempts` update is the
  class `ExamRecord`.
- The SQLite session is the class `Store`.
- Loops are methods, proved equal to a function that states their result. Properties
  are then proved about that function.

Inputs the backend gets from outside are parameters:
- the model's replies (`Result<string, string>`, `Err` when the call raises);
- whether Ollama runs, and whether the OpenAI library is installed;
- the PDF extractor's result;
- the elapsed seconds each heartbeat reads;
- time stamps and uuid prefixes.

Python floats are replaced by exact integer arithmetic:
- `matches >= len * 0.3` becomes `10 * matches >= 3 * len`;
- `overlap >= len * 0.2` becomes `5 * overlap >= len`;
- `int(n * 0.5)` and `int(n * 0.3)` become `n / 2` and `3 * n / 10`, truncated toward zero;
- `int((i / n) * 9)` becomes `9 * i / n`;
- `round(x)` becomes rounding of the exact rational to the nearest integer, ties to even.

Behaviour of the code that the model keeps as written:
- `improved` is `percentage >= best_score`: a tie with the best score counts
  as an improvement, and `improved` is false on the first attempt.
- The exam generators use the module-level default service, not the service
  chosen by the request's headers.
- An absent `X-OpenAI-Model` header reaches the OpenAI service as `None`.
  Every request of that service then fails: AiService.BuildChatRequest
  returns an error when there is no model, where the code raises.

## Model

| member | source | states |
|---|---|---|
| MainHelpers.UploadCourse | backend/main.py:377-380 | the upload's course is `GENERAL` when the field is missing or blank; it is never blank, has no surrounding whitespace and no lower-case letter |
| MainHelpers.UploadCourseIdempotent | backend/main.py:377-380 | normalising an already normalised course changes nothing |
| MainHelpers.ManualCourseCode | backend/main.py:641-645 | a manually created course code is rejected with 400 exactly when it is blank after stripping; an accepted code is non-blank, has no surrounding whitespace and no lower-case letter |
| MainHelpers.CourseCodesAgree | backend/main.py:377-380 | a code the manual endpoint accepts is normalised to the same course code by an upload |
| MainHelpers.JsonFileName | backend/main.py:1146-1148 | the exam file name always ends in `.json`; an id that already does is kept, any other gets the suffix |
| MainHelpers.JsonFileNameIdempotent | backend/main.py:1146-1148 | an id with and without the suffix names the same file; normalising twice is normalising once |
| MainHelpers.FollowUpSuggestions | backend/main.py:1497-1524 | with a document context the three document suggestions come first; the general list is returned exactly when there is no context and the message has neither `what` nor `how`; 2 to 7 suggestions |
| MainHelpers.SuggestionsFollowQuestion | backend/main.py:1507-1514 | the simpler-terms offer appears iff the lower-cased message contains `what`; the example offer appears iff it contains `how` |
| MainHelpers.BulletPoints | backend/main.py:767-768 | every key point comes from a summary line that starts with `-` or `•` after stripping, with dashes, bullets and spaces stripped from both ends |
| MainHelpers.SummaryKeyPoints | backend/main.py:767-776 | the key points are the first five bullet points, or `["No key points extracted"]` when there are none; always 1 to 5 entries |
| MainHelpers.KeyPointsTrimmed | backend/main.py:767-768 | no key point begins or ends with a dash, bullet or space, and each comes from a bullet line of the summary |
| Grading.AnswerKeysDistinct | backend/main.py:1160 | different question indices read different keys of the answers dictionary |
| Grading.TrueFalseCorrect | backend/main.py:1171-1175 | a true/false answer is correct iff it is the expected boolean, or a string equal to `true`/`false` in any letter case; numbers and a missing answer are never correct |
| Grading.MultipleChoiceCorrect | backend/main.py:1177-1178 | for an answer letter A-Z, an answer is correct iff it is the one-character string of that letter in either case; booleans, numbers and a missing answer never are |
| Grading.FirstSeparatorFrom | backend/main.py:1197-1200 | the separator chosen is the first of `, ; • -` that occurs in the key points; there is none iff none of them occurs |
| Grading.StrippedPieces | backend/main.py:1199 | every piece kept is non-empty and stripped |
| Grading.KeyPointList | backend/main.py:1191-1203 | every key point is stripped and longer than three characters; with no separator present the list is empty |
| Grading.SplitKeyPoints | backend/main.py:1194-1203 | the separator loop computes the key-point list |
| Grading.Matches | backend/main.py:1209 | the number of key points mentioned is at most the number of key points |
| Grading.SampleIsCorrect | backend/main.py:1180-1219 | repeating a sample answer that has at least ten characters is always judged correct |
| Grading.KeyPointsWithoutSeparator | backend/main.py:1193-1219 | when the key points contain no separator, only the word overlap decides a short answer |
| Grading.UnansweredIsWrong | backend/main.py:1160-1219 | an unanswered question is graded incorrect, whatever its type |
| Grading.CheckShortAnswer | backend/main.py:1180-1219 | the short-answer branch judges an answer correct iff it is truthy, the sample is non-empty, it has at least ten characters lower-cased and stripped, and it shares at least 20% of the sample's distinct words or mentions at least 30% of the key points |
| Grading.CheckAnswer | backend/main.py:1162-1219 | the checker applies the rule of the question's type |
| Grading.Results | backend/main.py:1224-1231 | one result per question, in index order, with `question_index` equal to the index and the answer submitted for that index |
| Grading.Score | backend/main.py:1221-1222 | the score is at most the number of questions |
| Grading.ScoreCountsResults | backend/main.py:1221-1231 | the score is the number of results marked correct |
| Grading.GradeAnswers | backend/main.py:1156-1231 | the grading loop returns exactly the results and the score |
| Grading.RoundHalfEven | backend/main.py:1234 | the rounded value lies within half of the exact quotient; an exact half goes to the even neighbour |
| Grading.RoundHalfEvenBounds | backend/main.py:1068-1070 | rounding a quotient that lies between two integers stays between them |
| Grading.Percentage | backend/main.py:1233-1234 | the percentage is 0 for an empty exam; otherwise it is `100 * score / total` rounded; it lies in [0, 100] when the score is at most the total |
| Grading.PercentageEnds | backend/main.py:1234 | a full score is 100 and no score is 0 |
| ExamAttempts.Best | backend/main.py:1253-1255 | the best score is the percentage of some attempt, and no attempt has a higher one |
| ExamAttempts.BestAppend | backend/main.py:1250-1255 | after one more attempt the best is the larger of the earlier best and the new percentage |
| ExamAttempts.AttemptOf | backend/main.py:1233-1244 | the recorded attempt has `score <= total == len(questions)` and a percentage in [0, 100] |
| ExamAttempts.Submitted | backend/main.py:1247-1259 | a submission keeps the questions, appends exactly one attempt, and leaves best score, attempt count and last attempt consistent with the new history |
| ExamAttempts.ImprovedMeaning | backend/main.py:1273 | `improved` is false on the first attempt; later it is true iff the new percentage ties or beats every earlier attempt |
| ExamAttempts.SubmittedBest | backend/main.py:1253-1272 | after a submission the attempt count is one larger, the best score is at least the new percentage, and it never decreases |
| ExamAttempts.ResetState | backend/main.py:1294-1297 | a reset clears the attempts, sets best score and last attempt to None and the attempt count to 0, and keeps the questions |
| ExamAttempts.ResetIdempotent | backend/main.py:1294-1297 | resetting twice is resetting once, and a reset exam is consistent |
| ExamAttempts.AverageScore | backend/main.py:1065-1070 | there is an average exactly when the exam has attempts |
| ExamAttempts.Listing | backend/main.py:1059-1084 | a listing reports the number of attempts, `completed` iff there are attempts, the stored best score and last attempt, and the stored question count (the number of questions when none is stored) |
| ExamAttempts.ResetListing | backend/main.py:1294-1297 | after a reset the exam lists as not completed, with no average, no best score and zero attempts |
| ExamAttempts.SumBounds | backend/main.py:1068-1070 | the sum of percentages that lie between two bounds lies between the bounds times the count |
| ExamAttempts.AverageBelowBest | backend/main.py:1065-1070 | on a consistent exam with non-negative percentages, the average lies between 0 and the best score |
| ExamAttempts.SubmittedAverage | backend/main.py:1233-1250 | when every earlier percentage lies in [0, 100], the average after a submission does too |
| ExamAttempts.ExamRecord.constructor | backend/main.py:1012-1023 | a freshly generated exam has its questions, its question count and no history |
| ExamAttempts.ExamRecord.Submit | backend/main.py:1143-1274 | `submit_exam` updates the record to the submitted state; it returns the results and score of the grading, the percentage, the new attempt number, the new best score and `improved` |
| ExamAttempts.ExamRecord.Reset | backend/main.py:1285-1297 | `reset_exam_attempts` updates the record to the reset state |
| ExamAssembly.ExamDocuments | backend/main.py:924-943 | 400 exactly when neither document ids nor a course is given; otherwise the listed documents, or else the documents of the course; 404 exactly when no listed id exists, or the course is unknown or has no document |
| ExamAssembly.Banner | backend/main.py:951 | the banner before each document's text is not empty |
| ExamAssembly.CombinedEmpty | backend/main.py:947-955 | the combined text is empty exactly when no document extracts |
| ExamAssembly.Combined | backend/main.py:947-953 | the text of every document that extracts appears in the combined text after its `--- filename ---` banner |
| ExamAssembly.CombineText | backend/main.py:947-952 | the loop builds the combined text: each extracted document's banner and text, in order |
| ExamAssembly.StudyText | backend/main.py:957-960 | the study text is the first 15000 characters of the combined text, or all of it when shorter; it is empty only when the combined text is |
| ExamAssembly.Generate | backend/main.py:975-985 | a generator returns at most the requested count, all of its own type |
| ExamAssembly.TypedSkipsNonPositive | backend/main.py:971-972 | entries whose count is not positive play no part in the exam |
| ExamAssembly.TypedBound | backend/main.py:967-987 | the typed exam has at most the sum of the requested counts |
| ExamAssembly.Typed | backend/main.py:971-987 | once a generator has run the typed pass succeeds; it fails only for an entry with a positive count and an unknown type |
| ExamAssembly.KindOf | backend/main.py:975-985 | exactly the three names `multiple_choice`, `true_false` and `short_answer` select a generator, each its own |
| ExamAssembly.ExamQuestions | backend/main.py:967-991 | generating the questions fails only for an unknown type with a positive count before any generator has run, or, when no types are listed, for a missing `question_count` |
| ExamAssembly.Title | backend/main.py:1007-1010 | the title starts with the course code and ends with the filename of a single document, or with ` documents)` otherwise |
| ExamAssembly.CollectTyped | backend/main.py:965-987 | the loop over `question_types` collects the questions of each positive entry in list order |
| ExamAssembly.MixedWhenNoTypes | backend/main.py:988-991 | with no question types, a mixed exam of at most `question_count` questions is generated, grouped multiple choice, then true/false, then short answer |
| ExamAssembly.ExamOutcome | backend/main.py:924-1032 | the exam is rejected with 400 exactly when neither ids nor a course is given; an accepted exam has questions, `question_count == len(questions)`, type `practice`, the title `<course> - <filename>` for one document and `<course> Exam (<n> documents)` otherwise, and the ids and names of its documents in order |
| ExamAssembly.GenerateExamEndpoint | backend/main.py:899-1040 | the endpoint, step by step, computes the exam outcome |
| ExamParsers.SectionLines | backend/exam_generator.py:224 | a section always has a first line |
| ExamParsers.ChoiceKind | backend/exam_generator.py:235-238 | an option line's letter is one of A-D |
| ExamParsers.LastAssignedMeaning | backend/exam_generator.py:231-246 | a variable the loop assigns ends up unassigned iff no line assigns it; otherwise it holds the value of the last line that assigns it |
| ExamParsers.OptionsOf | backend/exam_generator.py:227-238 | the options dictionary has keys from A-D only, none twice, and each letter maps to the text of its last option line |
| ExamParsers.RaisesMeaning | backend/exam_generator.py:242-258 | the section raises iff some CORRECT line has nothing after the colon |
| ExamParsers.LastCorrectNotEmpty | backend/exam_generator.py:242 | when no CORRECT line is empty, the last CORRECT value is not empty |
| ExamParsers.MultipleChoiceSection | backend/exam_generator.py:223-258 | every multiple-choice question kept has a non-empty question, exactly the option keys A, B, C, D, and an upper-case answer letter |
| ExamParsers.MultipleChoiceSectionKept | backend/exam_generator.py:231-258 | a section is kept iff its question is not empty, no CORRECT line is empty, some CORRECT line occurs, and each of A-D has an option line |
| ExamParsers.MultipleChoiceSectionAnswer | backend/exam_generator.py:235-242 | the kept answer is the upper-cased first character of the last CORRECT value; each option is its letter's last option text |
| ExamParsers.AllFourOptions | backend/exam_generator.py:248 | the options dictionary has four entries iff each letter A-D has an option line |
| ExamParsers.TrueFalseSection | backend/exam_generator.py:270-296 | every true/false question kept has a non-empty question |
| ExamParsers.TrueFalseSectionMeaning | backend/exam_generator.py:277-293 | a section is kept iff its question is not empty and an ANSWER line was seen; the answer is whether the upper-cased value of the last ANSWER line contains `TRUE` |
| ExamParsers.ShortAnswerSection | backend/exam_generator.py:308-333 | every short-answer question kept has a non-empty question and sample answer |
| ExamParsers.ShortAnswerSectionMeaning | backend/exam_generator.py:312-329 | a section is kept iff its question and its last SAMPLE_ANSWER value are not empty; without a KEY_POINTS line the key points are `""` |
| ExamParsers.MultipleChoiceQuestionsValid | backend/exam_generator.py:216-260 | the parser yields at most one question per section after the first marker, and each is a valid multiple-choice question |
| ExamParsers.TrueFalseQuestionsShape | backend/exam_generator.py:263-298 | at most one question per section, each a true/false question with a non-empty question |
| ExamParsers.ShortAnswerQuestionsShape | backend/exam_generator.py:301-335 | at most one question per section, each a short-answer question with a non-empty question and sample |
| ExamParsers.NoMarkerNoQuestions | backend/exam_generator.py:220-222 | a reply with no newline-then-`Q:` marker yields no question from any parser |
| ExamParsers.ParseMultipleChoiceSection | backend/exam_generator.py:223-258 | the per-section body of `_parse_multiple_choice` computes the section's question or skips it |
| ExamParsers.ScanMultipleChoice | backend/exam_generator.py:227-246 | the line loop computes whether the section raises, the options, the last CORRECT and the last EXPLANATION |
| ExamParsers.ParseTrueFalseSection | backend/exam_generator.py:270-296 | the per-section body of `_parse_true_false` |
| ExamParsers.ScanTrueFalse | backend/exam_generator.py:274-285 | the line loop computes the answer of the last ANSWER line and the last explanation |
| ExamParsers.ParseShortAnswerSection | backend/exam_generator.py:308-333 | the per-section body of `_parse_short_answer` |
| ExamParsers.ScanShortAnswer | backend/exam_generator.py:312-322 | the line loop computes the last sample answer and the last key points |
| ExamParsers.ParseMultipleChoice | backend/exam_generator.py:216-260 | `_parse_multiple_choice` keeps the sections' questions in section order |
| ExamParsers.ParseTrueFalse | backend/exam_generator.py:263-298 | `_parse_true_false` keeps the sections' questions in section order |
| ExamParsers.ParseShortAnswer | backend/exam_generator.py:301-335 | `_parse_short_answer` keeps the sections' questions in section order |
| ExamGenerator.TruncDiv | backend/exam_generator.py:198-199 | Python's `int()` of a quotient: the quotient rounded toward zero |
| ExamGenerator.GenerateMultipleChoice | backend/exam_generator.py:53-65 | at most `num_questions` questions, each a valid multiple-choice question; `[]` when the model call raises |
| ExamGenerator.GenerateTrueFalse | backend/exam_generator.py:112-124 | at most `num_questions` true/false questions; `[]` when the model call raises |
| ExamGenerator.GenerateShortAnswer | backend/exam_generator.py:171-183 | at most `num_questions` short-answer questions; `[]` when the model call raises |
| ExamGenerator.GeneratorsTakeFirst | backend/exam_generator.py:61-179 | each of the three generators returns the first `num_questions` questions its reply holds, or all of them when there are fewer |
| ExamGenerator.MixedCounts | backend/exam_generator.py:198-200 | the three counts sum to the total; for a non-negative total they are `n/2`, `3n/10` and a remainder of at least a fifth of the total |
| ExamGenerator.GenerateMixed | backend/exam_generator.py:186-213 | a mixed exam has at most the requested number of questions, valid multiple-choice ones, grouped multiple choice, then true/false, then short answer |
| ExamGenerator.RankedConcat | backend/exam_generator.py:211 | concatenating the three lists keeps the grouping by type |
| ExamGenerator.LeadingQuestionLost | backend/exam_generator.py:267-269 | a reply whose first question starts at offset 0 with `Q:` loses that question |
| ExamFormat.OptionLines | backend/exam_generator.py:427-428 | one `  letter) text` line per option, in order |
| ExamFormat.PrintLines | backend/exam_generator.py:409-446 | the printout is the seven header lines and then the question blocks; the header names the title, the course and the type, and says `Questions: N` with N the number of questions |
| ExamFormat.PrintBlocksNumbering | backend/exam_generator.py:421-423 | block i opens with `Question i+1:` and then the question text |
| ExamFormat.PrintNumbering | backend/exam_generator.py:413-423 | in the whole printout the blocks are numbered from 1, each followed by its question |
| ExamFormat.PrintBlocksPrefix | backend/exam_generator.py:421-444 | the blocks of the first i questions are a prefix of the blocks of all of them |
| ExamFormat.PrintBlockOptions | backend/exam_generator.py:426-429 | a multiple-choice block lists every option as `letter) text` |
| ExamFormat.AppendPrintBlock | backend/exam_generator.py:422-444 | the loop body appends the question's block to the output |
| ExamFormat.FormatExamForPrint | backend/exam_generator.py:409-446 | the printout is the header and the blocks joined by newlines |
| ExamFormat.KeyLinesFail | backend/exam_generator.py:461-462 | the answer key fails exactly when some multiple-choice question's answer letter has no option |
| ExamFormat.KeyLines | backend/exam_generator.py:449-476 | a key that is built starts with the `ANSWER KEY` header |
| ExamFormat.KeyBlock | backend/exam_generator.py:459-474 | a key block fails exactly when the question is multiple-choice and its answer letter is not an option key; a block that is built ends with a blank line |
| ExamFormat.KeyBlockShape | backend/exam_generator.py:459-472 | each key block opens with the question's first 50 characters and `...`; a true/false answer is `TRUE` iff it is true; an Explanation line appears iff the explanation is not empty |
| ExamFormat.AppendKeyBlock | backend/exam_generator.py:459-474 | the loop body appends the key block, or fails when it would raise |
| ExamFormat.FormatAnswerKey | backend/exam_generator.py:449-476 | the answer key is the header and the key blocks joined by newlines, or fails when a block raises |
| AiService.CardOf | backend/ai_service.py:405-415 | a card kept has a non-empty, stripped question and answer |
| AiService.CardOfSection | backend/ai_service.py:405-409 | the answer stops at the next `Q:` marker and holds no marker |
| AiService.CardsShape | backend/ai_service.py:397-417 | every card has a non-empty question and answer, and the answer holds no `Q:` marker |
| AiService.Cards | backend/ai_service.py:397-417 | every card is read from one section after the first `Q:` marker, and there is at most one card per such section |
| AiService.NoMarkerNoCards | backend/ai_service.py:402-404 | a reply with no newline-then-`Q:` marker yields no card |
| AiService.ParseFlashcards | backend/ai_service.py:397-417 | the loop of `_parse_flashcards` computes the cards |
| AiService.Tagged | backend/ai_service.py:380-381 | each card is tagged with the level's difficulty, nothing else changes |
| AiService.Parsed | backend/ai_service.py:376-378 | a level's reply is parsed exactly when the model call succeeds |
| AiService.LevelCards | backend/ai_service.py:376-392 | a failing level contributes nothing; a level keeps at most `cards_per_difficulty` cards, all with its difficulty |
| AiService.CollectedRanks | backend/ai_service.py:357-384 | every collected card has one of the processed difficulties |
| AiService.CollectedLength | backend/ai_service.py:383-384 | the levels contribute at most `cards_per_difficulty` each |
| AiService.CollectedOrdered | backend/ai_service.py:357-384 | collected cards come in level order |
| AiService.AllCardsOrdered | backend/ai_service.py:354-394 | all cards are tagged easy, medium or hard, come in that order, and number at most three times `cards_per_difficulty` |
| AiService.AllCards | backend/ai_service.py:354-394 | the cards are the easy cards, then the medium cards, then the hard cards, each level read from its own reply |
| AiService.CollectedLevels | backend/ai_service.py:357-384 | the result is the easy cards, then the medium, then the hard |
| AiService.NoDeduplication | backend/ai_service.py:355 | the same reply at every level gives every card three times: no de-duplication happens |
| AiService.GenerateFlashcards | backend/ai_service.py:296-394 | the loop over the difficulties computes all cards |
| AiService.LevelFlashcards | backend/ai_service.py:376-392 | the body of that loop computes one level's cards |
| AiService.TagCards | backend/ai_service.py:380-381 | the tagging loop tags every card |
| AiService.NewOpenAIService | backend/ai_service.py:71-85 | construction succeeds iff the key is neither empty nor `placeholder` and the library is installed |
| AiService.ServiceForRequest | backend/ai_service.py:135-209 | tag `llama`/`ollama` (lower-cased and stripped) gives Ollama if it runs, else an error; any other tag gives OpenAI iff the key has at least 20 characters, starts with `sk-` or `sk-proj-`, and the library is installed |
| AiService.ProjectKeysAreKeys | backend/ai_service.py:185 | an `sk-proj-` key is an `sk-` key, so the key test is length and `sk-` alone |
| AiService.ServiceFromHeaders | backend/main.py:169-196 | OpenAI is used exactly when the tag does not name Ollama, the key is valid and the library is installed; every other outcome, an error included, falls back to Ollama; a missing or empty tag counts as `openai` |
| AiService.BuildOllamaPayload | backend/ai_service.py:24-35 | the Ollama payload never streams, has the fixed sampling options, and carries `system` iff the system prompt is not empty |
| AiService.BuildChatRequest | backend/ai_service.py:89-110 | the system message is present iff the system prompt is not empty, and the user message is last; `gpt-5*` models get `max_completion_tokens = 2000` and no temperature, other models `temperature = 0.7` and `max_tokens = 2000`; there is no request without a model |
| AiService.ReplyText | backend/ai_service.py:114 | the reply text returned is stripped |
| AiService.SummaryInstruction | backend/ai_service.py:234-263 | `short` and `medium` select their instruction; every other length falls back to `detailed` |
| Database.Patched | backend/main.py:859-862 | the patch changes only `mastered` and `times_reviewed`, each only when it is given |
| Database.NameOrCode | backend/database.py:110 | a stored course name is the given name when it is not empty, else the code |
| Database.DisplayName | backend/main.py:1571 | the name shown for a course is its name, or its code when the name is empty |
| Database.CardMatches | backend/main.py:820-829 | a card passes only when it belongs to a known course and meets every filter given: a non-empty course code, a non-empty difficulty, a mastered flag; with no filters every card of a known course passes |
| Database.PatchedIdempotent | backend/main.py:859-862 | an empty patch changes nothing; applying a patch twice is applying it once |
| Database.CodeOfCard | backend/main.py:820 | a card's course code comes from its document's course; a card without a document has none |
| Database.AppendCourseLinked | backend/database.py:106-115 | adding a course keeps every foreign key valid |
| Database.UpdateDocumentLinked | backend/main.py:552-562 | changing a document's other fields, with its id and course kept, keeps every foreign key valid |
| Database.UpdateFlashcardLinked | backend/main.py:859-862 | changing a flashcard's other fields, with its document kept, keeps every foreign key valid |
| Database.AppendDocumentLinked | backend/database.py:118-132 | a document linked to an existing course keeps every foreign key valid |
| Database.AppendSummaryLinked | backend/database.py:135-145 | a summary of an existing document keeps every foreign key valid |
| Database.AppendFlashcardLinked | backend/database.py:147-158 | a flashcard of an existing document keeps every foreign key valid |
| Database.DeleteDocumentLinked | backend/database.py:40-41 | deleting a document with its summary and flashcards keeps every foreign key valid |
| Database.DeleteCourseLinked | backend/database.py:20-41 | deleting a course with its documents and their summaries and flashcards keeps every foreign key valid |
| Database.Store.constructor | backend/database.py:90-92 | the store starts with four empty tables |
| Database.Store.CreateCourse | backend/database.py:106-115 | an existing code returns that course and adds no row; otherwise one course is inserted, named `name or code`; codes stay unique |
| Database.Store.CreateDocument | backend/database.py:118-132 | the course is created if missing; one document is appended, linked to that course, with the next id, unprocessed |
| Database.Store.CreateSummary | backend/database.py:135-145 | a second summary for a document is rejected and changes nothing; otherwise one summary is appended |
| Database.Store.CreateFlashcard | backend/database.py:147-158 | one flashcard is appended with difficulty `medium` by default, not mastered and never reviewed |
| Database.Store.MarkProcessed | backend/main.py:552-562 | the document found is marked processed; nothing else changes |
| Database.Store.UpdateFlashcard | backend/main.py:848-873 | an unknown id changes nothing; otherwise the card is patched in place |
| Database.Store.DeleteDocument | backend/main.py:783-801 | the document, its summary and its flashcards are removed; the courses stay |
| Database.Store.DeleteCourse | backend/main.py:669-695 | an unknown code changes nothing; otherwise the course, its documents and their summaries and flashcards are removed, and the number of documents removed is returned |
| Database.Store.UniqueRows | backend/database.py:15-52 | `.first()` finds the one course with a code; no two summaries share a document |
| Database.Store.CourseDocumentsMeaning | backend/database.py:166-171 | the documents of a course are exactly those linked to it; an unknown code gives `[]` |
| Database.Store.CourseDocuments | backend/database.py:166-171 | an unknown course code gives `[]`; every document returned is in the table |
| Database.Store.Stats | backend/database.py:173-182 | the counts are the table sizes; the mastered and unmastered counts are the numbers of cards whose flag is set and unset, and they add up to the total |
| Database.Store.FilteredFlashcards | backend/main.py:820-831 | a card is listed iff it joins to a course and matches every filter given |
| Database.Store.UnfilteredFlashcards | backend/main.py:820-831 | with every link in place and no filter, every flashcard is listed |
| Database.Store.CourseStatistics | backend/main.py:1547-1572 | statistics exist iff the course does; they name the course by its code and by its name or code; total, mastered and the easy, medium and hard counts are counted over the cards of the course's documents; mastered plus unmastered is the total, and the document count is the course's |
| Database.Store.CourseCards | backend/main.py:1553-1555 | the cards of a course are exactly the stored cards whose document belongs to it, and none for an unknown course |
| UploadProgress.Heartbeat | backend/main.py:432-434 | a heartbeat reads the stage's base plus two points a second, at most fifteen |
| UploadProgress.Heartbeats | backend/main.py:431-436 | one payload per heartbeat, of the stage, at the heartbeat's progress |
| UploadProgress.SaveProgress | backend/main.py:546-548 | the saving progress lies in [90, 99] |
| UploadProgress.Saves | backend/main.py:546-548 | one saving payload per saved card, in the flashcard stage |
| UploadProgress.HeartbeatsLead | backend/main.py:431-436 | with non-decreasing elapsed times the heartbeats are ordered and within fifteen points of the base |
| UploadProgress.SavesLead | backend/main.py:546-548 | the saving payloads never go back and stay between 90 and 99 |
| UploadProgress.PayloadsShape | backend/main.py:417-583 | every run pushes ordered progress payloads, each within its stage's band and starting at uploading 10, then exactly one terminal payload, then the sentinel; the terminal payload is the result iff every stage succeeds |
| UploadProgress.Payloads | backend/main.py:417-583 | every run first reports uploading at 10 and 20 and then extracting at 25, with their messages |
| UploadProgress.SuccessOrdered | backend/main.py:421-577 | a successful run goes uploading, extracting, storing, summarizing, generating_flashcards, complete, and its progress never decreases from 10 to 100 |
| UploadProgress.FirstSentinel | backend/main.py:591-594 | the position of the first sentinel; none comes before it |
| UploadProgress.FirstSentinelAt | backend/main.py:591-594 | a sentinel with none before it is the first sentinel |
| UploadProgress.Sent | backend/main.py:589-596 | the stream sends no sentinel |
| UploadProgress.ShapeSent | backend/main.py:589-596 | from a queue of a run's shape, the stream sends everything but the sentinel, with the terminal payload last |
| UploadProgress.StreamOfRun | backend/main.py:408-596 | the stream of a run sends every payload but the sentinel; exactly one terminal payload comes last: the success result when every stage succeeds, otherwise the error at progress 0 |
| UploadProgress.ProcessAsync | backend/main.py:417-583 | `process_async` pushes exactly the run's payloads |
| UploadProgress.PushHeartbeats | backend/main.py:431-436 | a heartbeat loop pushes the stage's heartbeats |
| UploadProgress.StoreAndSummarize | backend/main.py:443-506 | the storing and summarizing stages push their payloads |
| UploadProgress.FinishFromSummary | backend/main.py:486-530 | the stages after the summary push their payloads |
| UploadProgress.SaveFlashcards | backend/main.py:530-577 | saving the cards pushes one payload per card, then the completion and the result |
| UploadProgress.Stream | backend/main.py:589-596 | `generate` sends the payloads before the first sentinel, in order |
| Markers.SplitFrom | backend/exam_generator.py:220 | `re.split` gives at least one piece |
| Markers.SplitOnce | backend/ai_service.py:405 | a split with `maxsplit=1` gives one or two pieces |
| Markers.SplitPiecesHaveNoMarker | backend/ai_service.py:402-409 | no piece of a split holds the marker again |
| Markers.SplitOfNoMarker | backend/exam_generator.py:220-222 | splitting a text without markers leaves it whole, so `sections[1:]` is empty |
| Markers.Kept | backend/exam_generator.py:222-258 | a loop over sections keeps at most one value per section |
| Markers.KeptAll | backend/exam_generator.py:222-258 | when every section is accepted, one value is kept per section |
| Markers.KeptFrom | backend/exam_generator.py:222-258 | every kept value is what the parser made of one of the sections |
| Questions.Put | backend/exam_generator.py:238 | assigning a dictionary key overwrites its value or adds it, and leaves the other keys alone |
| Questions.FourKeys | backend/exam_generator.py:248 | a dictionary keyed from A-D without repeats has four entries iff every letter has a value |
| Tables.FindFirst | backend/database.py:108 | `.first()` returns the first matching row, or none iff no row matches |
| Tables.CountComplement | backend/database.py:180-181 | mastered and unmastered rows each count once |

## Left out

- FastAPI and serving plumbing are not modelled:
  - routing, CORS and request parsing;
  - the `HTTPException` mapping, except the status codes named above;
  - static file serving and start-up.
- OS and socket calls are not modelled: port probing and killing, directory set-up.
- Concurrency is not modelled: the asyncio queue, `call_soon_threadsafe`, executors
  and sleeps. Each stage's heartbeats are an input list of elapsed seconds.
  Only the resulting payload sequence is modelled.
- The `data: <json>\n\n` framing of each streamed payload is not modelled:
  the stream is the sequence of payload values it sends. JSON encoding is
  not part of this model.
- Network and foreign calls are inputs: the Ollama and OpenAI requests, the
  Ollama availability probe, and `test_openai_key`.
- `backend/pdf_extractor.py` is not part of this model. Its result (success,
  full text, page count, file name) is an input.
- File I/O is not modelled: saving and loading exam files, summary files,
  `clear_all_data`. The ORM session, commit and refresh are replaced by the
  in-memory tables.
- Floating point is replaced by exact arithmetic, as described above.
  - Grading.Percentage rounds the exact rational `100 * score / total`.
    Python rounds the float `(score / total) * 100`, which can differ at a
    tie: for 23 of 40 the exact value is 57.5, which rounds to 58, while the
    float is slightly below it and rounds to 57.
  - The other float expressions agree with their exact forms for the
    integer sizes that occur.
- Time stamps, uuid prefixes and the exam id format are parameters.
- The topic extraction of the summary endpoint is not modelled: a regular
  expression and a `set` with arbitrary order.
- Logging is not modelled.
- Python's `lower`, `upper` and `isspace` are modelled on ASCII letters and
  Python's whitespace characters. Unicode case mapping is not modelled.
- Answers submitted as JSON floats, lists or objects are not modelled; an
  answer is a boolean, an integer, a string or missing.
- The messages of the errors raised by provider selection are not modelled,
  only which error occurs.
- MainHelpers.ManualCourseCode models the normalisation and the blank-code
  400 only. It does not model the 400 for an already existing course; the
  store's Database.Store.CreateCourse models the lookup.
- The prompt texts sent to the model are not modelled: the instruction
  strings, the flashcard and question prompts, and the summary system prompt.
  AiService.SummaryInstruction states which instruction is chosen, not its
  text.
- `get_all_courses`, `get_all_documents`, `get_exam`, `get_exam_attempts`,
  `delete_exam` and the chat endpoint are outside the modelled core.
- Database.Patched, Database.Store.UpdateFlashcard, Database.Store.Stats: a
  `null` or non-boolean `mastered` (or a non-integer `times_reviewed`) in the
  PATCH body is not modelled, because the fields are a `bool` and a `nat`.
  The code stores and commits such a value before its response fails, and
  `get_database_stats` then counts that card as neither mastered nor
  unmastered; Stats' `mastered + unmastered == total` holds only for boolean
  flags.
- ExamAssembly.ExamDocuments returns the documents in table order. SQL does
  not promise an order for `IN` queries or for a relationship.
- Database.Store keeps foreign-key validity (`Linked`) separate from its
  other invariants (`Valid`), because SQLite, as the backend configures it,
  does not enforce foreign keys.
  - Database.Store.CreateSummary and Database.Store.CreateFlashcard promise
    `Linked` only when the document exists.
