/** The SQLite store of `backend/database.py`, with its tables as sequences in
    rowid order, and the queries and updates `backend/main.py` runs on it. */
module Database {
  import opened Wrappers
  import opened Tables

  /** A row of `courses`. `create_course` always stores a name. */
  datatype Course = Course(id: nat, code: string, name: string)

  /** A row of `documents`; `processed` stands for a set `processed_at`. */
  datatype Document = Document(id: nat, filename: string, filePath: string, courseId: nat,
                               pageCount: Option<int>, processed: bool)

  /** A row of `summaries`. */
  datatype Summary = Summary(id: nat, documentId: nat, filePath: string)

  /** A row of `flashcards`. */
  datatype Flashcard = Flashcard(id: nat, documentId: nat, question: string, answer: string,
                                 difficulty: string, mastered: bool, timesReviewed: int)

  /** What the commit of a rejected insert raises. */
  datatype DbError = IntegrityError

  /** The default of `create_flashcard`'s `difficulty` argument. */
  const DEFAULT_DIFFICULTY: string := "medium"

  function CourseId(c: Course): nat { c.id }
  function CourseCode(c: Course): string { c.code }
  function DocumentId(d: Document): nat { d.id }
  function SummaryId(s: Summary): nat { s.id }
  function SummaryDocument(s: Summary): nat { s.documentId }
  function FlashcardId(f: Flashcard): nat { f.id }
  function IsMastered(f: Flashcard): bool { f.mastered }
  function IsUnmastered(f: Flashcard): bool { !f.mastered }

  /** The filters of the queries, one per column and value. */
  function HasCode(code: string): Course -> bool { (c: Course) => c.code == code }
  function HasCourseId(id: nat): Course -> bool { (c: Course) => c.id == id }
  function OtherCourse(id: nat): Course -> bool { (c: Course) => c.id != id }
  function HasDocumentId(id: nat): Document -> bool { (d: Document) => d.id == id }
  function OtherDocument(id: nat): Document -> bool { (d: Document) => d.id != id }
  function InCourse(courseId: nat): Document -> bool { (d: Document) => d.courseId == courseId }
  function OutsideCourse(courseId: nat): Document -> bool { (d: Document) => d.courseId != courseId }
  function SummaryFor(documentId: nat): Summary -> bool { (s: Summary) => s.documentId == documentId }
  function SummaryOutside(ids: set<nat>): Summary -> bool { (s: Summary) => s.documentId !in ids }
  function HasFlashcardId(id: nat): Flashcard -> bool { (f: Flashcard) => f.id == id }
  function FlashcardIn(ids: set<nat>): Flashcard -> bool { (f: Flashcard) => f.documentId in ids }
  function FlashcardOutside(ids: set<nat>): Flashcard -> bool { (f: Flashcard) => f.documentId !in ids }
  function HasDifficulty(difficulty: string): Flashcard -> bool { (f: Flashcard) => f.difficulty == difficulty }

  /** `name or code` */
  function NameOrCode(name: Option<string>, code: string): (r: string)
    ensures name.Some? && name.value != "" ==> r == name.value
    ensures (name.None? || name.value == "") ==> r == code
    ensures r == "" ==> code == ""
  {
    if name.Some? && name.value != "" then name.value else code
  }

  /** `course.name or course.code`, as the endpoints display a course. */
  function DisplayName(c: Course): (r: string)
    ensures r == c.name || r == c.code
    ensures r == "" <==> c.name == "" && c.code == ""
  {
    if c.name != "" then c.name else c.code
  }

  /** The `update_flashcard` patch: only `mastered` and `times_reviewed` can
      change, each when its key is present. */
  function Patched(f: Flashcard, mastered: Option<bool>, timesReviewed: Option<int>): (r: Flashcard)
    ensures r.id == f.id && r.documentId == f.documentId && r.question == f.question
            && r.answer == f.answer && r.difficulty == f.difficulty
    ensures r.mastered == (if mastered.Some? then mastered.value else f.mastered)
    ensures r.timesReviewed == (if timesReviewed.Some? then timesReviewed.value else f.timesReviewed)
  {
    var withMastered := if mastered.Some? then f.(mastered := mastered.value) else f;
    if timesReviewed.Some? then withMastered.(timesReviewed := timesReviewed.value) else withMastered
  }

  /** An empty patch changes nothing, and applying a patch twice is applying
      it once. */
  lemma PatchedIdempotent(f: Flashcard, mastered: Option<bool>, timesReviewed: Option<int>)
    ensures Patched(f, None, None) == f
    ensures Patched(Patched(f, mastered, timesReviewed), mastered, timesReviewed) == Patched(f, mastered, timesReviewed)
  {
  }

  /** `get_database_stats` */
  datatype DatabaseStats = DatabaseStats(totalCourses: nat, totalDocuments: nat, totalSummaries: nat,
                                         totalFlashcards: nat, masteredFlashcards: nat, unmasteredFlashcards: nat)

  /** `get_course_statistics` in `backend/main.py`. */
  datatype CourseStats = CourseStats(code: string, name: string, documentCount: nat, total: nat,
                                     mastered: nat, unmastered: nat, easy: nat, medium: nat, hard: nat)

  /** The course code of a flashcard through the inner joins Flashcard to
      Document to Course; `None` when either row is missing. */
  function CodeOfCard(documents: seq<Document>, courses: seq<Course>, f: Flashcard): (r: Option<string>)
    ensures r.Some? ==> exists i, j :: 0 <= i < |documents| && 0 <= j < |courses|
                          && documents[i].id == f.documentId && courses[j].id == documents[i].courseId
                          && r.value == courses[j].code
    ensures (forall i :: 0 <= i < |documents| ==> documents[i].id != f.documentId) ==> r.None?
  {
    match FindFirst(documents, HasDocumentId(f.documentId))
    case None => None
    case Some(i) =>
      match FindFirst(courses, HasCourseId(documents[i].courseId))
      case None => None
      case Some(j) => Some(courses[j].code)
  }

  function CourseIdSet(courses: seq<Course>): set<nat> {
    set c | c in courses :: c.id
  }

  function DocumentIdSet(documents: seq<Document>): set<nat> {
    set d | d in documents :: d.id
  }

  /** Rowids increase along each table; course codes and summary document
      ids are unique. */
  ghost predicate ValidTables(courses: seq<Course>, documents: seq<Document>, summaries: seq<Summary>,
                              flashcards: seq<Flashcard>)
  {
    && Increasing(courses, CourseId) && UniqueBy(courses, CourseCode)
    && Increasing(documents, DocumentId)
    && Increasing(summaries, SummaryId) && UniqueBy(summaries, SummaryDocument)
    && Increasing(flashcards, FlashcardId)
  }

  /** Every foreign key refers to an existing row. */
  ghost predicate LinkedTables(courses: seq<Course>, documents: seq<Document>, summaries: seq<Summary>,
                               flashcards: seq<Flashcard>)
  {
    && (forall d :: d in documents ==> d.courseId in CourseIdSet(courses))
    && (forall s :: s in summaries ==> s.documentId in DocumentIdSet(documents))
    && (forall f :: f in flashcards ==> f.documentId in DocumentIdSet(documents))
  }

  lemma AppendCourseLinked(courses: seq<Course>, documents: seq<Document>, summaries: seq<Summary>,
                           flashcards: seq<Flashcard>, c: Course)
    requires LinkedTables(courses, documents, summaries, flashcards)
    ensures LinkedTables(courses + [c], documents, summaries, flashcards)
  {
    assert CourseIdSet(courses) <= CourseIdSet(courses + [c]);
  }

  lemma AppendDocumentLinked(courses: seq<Course>, documents: seq<Document>, summaries: seq<Summary>,
                             flashcards: seq<Flashcard>, d: Document)
    requires LinkedTables(courses, documents, summaries, flashcards)
    requires d.courseId in CourseIdSet(courses)
    ensures LinkedTables(courses, documents + [d], summaries, flashcards)
  {
    assert DocumentIdSet(documents) <= DocumentIdSet(documents + [d]);
  }

  lemma AppendSummaryLinked(courses: seq<Course>, documents: seq<Document>, summaries: seq<Summary>,
                            flashcards: seq<Flashcard>, s: Summary)
    requires LinkedTables(courses, documents, summaries, flashcards)
    requires s.documentId in DocumentIdSet(documents)
    ensures LinkedTables(courses, documents, summaries + [s], flashcards)
  {
  }

  lemma AppendFlashcardLinked(courses: seq<Course>, documents: seq<Document>, summaries: seq<Summary>,
                              flashcards: seq<Flashcard>, f: Flashcard)
    requires LinkedTables(courses, documents, summaries, flashcards)
    requires f.documentId in DocumentIdSet(documents)
    ensures LinkedTables(courses, documents, summaries, flashcards + [f])
  {
  }

  /** Changing a document's other columns keeps every link. */
  lemma UpdateDocumentLinked(courses: seq<Course>, documents: seq<Document>, summaries: seq<Summary>,
                             flashcards: seq<Flashcard>, i: nat, d: Document)
    requires LinkedTables(courses, documents, summaries, flashcards)
    requires i < |documents| && d.id == documents[i].id && d.courseId == documents[i].courseId
    ensures LinkedTables(courses, documents[i := d], summaries, flashcards)
  {
    var updated := documents[i := d];
    assert DocumentIdSet(updated) == DocumentIdSet(documents) by {
      forall x | x in DocumentIdSet(documents)
        ensures x in DocumentIdSet(updated)
      {
        var e :| e in documents && e.id == x;
        var k :| 0 <= k < |documents| && documents[k] == e;
        assert updated[k].id == x;
      }
      forall x | x in DocumentIdSet(updated)
        ensures x in DocumentIdSet(documents)
      {
        var e :| e in updated && e.id == x;
        var k :| 0 <= k < |updated| && updated[k] == e;
        assert documents[k].id == x;
      }
    }
    forall e | e in updated
      ensures e.courseId in CourseIdSet(courses)
    {
      var k :| 0 <= k < |updated| && updated[k] == e;
      assert documents[k] in documents;
    }
  }

  /** Changing a flashcard's other columns keeps every link. */
  lemma UpdateFlashcardLinked(courses: seq<Course>, documents: seq<Document>, summaries: seq<Summary>,
                              flashcards: seq<Flashcard>, i: nat, f: Flashcard)
    requires LinkedTables(courses, documents, summaries, flashcards)
    requires i < |flashcards| && f.documentId == flashcards[i].documentId
    ensures LinkedTables(courses, documents, summaries, flashcards[i := f])
  {
    forall e | e in flashcards[i := f]
      ensures e.documentId in DocumentIdSet(documents)
    {
      var k :| 0 <= k < |flashcards| && flashcards[i := f][k] == e;
      assert flashcards[k] in flashcards;
    }
  }

  /** Deleting a document with its summary and flashcards keeps every link. */
  lemma DeleteDocumentLinked(courses: seq<Course>, documents: seq<Document>, summaries: seq<Summary>,
                             flashcards: seq<Flashcard>, id: nat)
    requires LinkedTables(courses, documents, summaries, flashcards)
    ensures LinkedTables(courses, Filter(documents, OtherDocument(id)),
                         Filter(summaries, SummaryOutside({id})), Filter(flashcards, FlashcardOutside({id})))
  {
    var kept := Filter(documents, OtherDocument(id));
    forall x | x in DocumentIdSet(documents) && x != id
      ensures x in DocumentIdSet(kept)
    {
      var d :| d in documents && d.id == x;
      assert OtherDocument(id)(d);
    }
  }

  /** Deleting a course with its documents and, through them, their summaries
      and flashcards keeps every link. */
  lemma DeleteCourseLinked(courses: seq<Course>, documents: seq<Document>, summaries: seq<Summary>,
                           flashcards: seq<Flashcard>, id: nat, removed: set<nat>)
    requires LinkedTables(courses, documents, summaries, flashcards)
    requires removed == set d | d in documents && d.courseId == id :: d.id
    ensures LinkedTables(Filter(courses, OtherCourse(id)), Filter(documents, OutsideCourse(id)),
                         Filter(summaries, SummaryOutside(removed)), Filter(flashcards, FlashcardOutside(removed)))
  {
    var keptCourses := Filter(courses, OtherCourse(id));
    var kept := Filter(documents, OutsideCourse(id));
    forall x | x in CourseIdSet(courses) && x != id
      ensures x in CourseIdSet(keptCourses)
    {
      var c :| c in courses && c.id == x;
      assert OtherCourse(id)(c);
    }
    forall x | x in DocumentIdSet(documents) && x !in removed
      ensures x in DocumentIdSet(kept)
    {
      var d :| d in documents && d.id == x;
      assert OutsideCourse(id)(d);
    }
  }

  /** The row filter of `get_all_flashcards`: the card must join to a course,
      and each filter given (a non-empty course code or difficulty, a
      `mastered` flag) must hold. */
  function CardMatches(documents: seq<Document>, courses: seq<Course>, course: Option<string>,
                       difficulty: Option<string>, mastered: Option<bool>): (r: Flashcard -> bool)
    ensures forall f :: r(f) ==> CodeOfCard(documents, courses, f).Some?
    ensures forall f :: r(f) && course.Some? && course.value != "" ==>
              CodeOfCard(documents, courses, f) == Some(course.value)
    ensures forall f :: r(f) && difficulty.Some? && difficulty.value != "" ==> f.difficulty == difficulty.value
    ensures forall f :: r(f) && mastered.Some? ==> f.mastered == mastered.value
    ensures course.None? && difficulty.None? && mastered.None? ==>
              forall f :: r(f) <==> CodeOfCard(documents, courses, f).Some?
  {
    (f: Flashcard) =>
      CodeOfCard(documents, courses, f).Some?
      && (course.Some? && course.value != "" ==> CodeOfCard(documents, courses, f) == Some(course.value))
      && (difficulty.Some? && difficulty.value != "" ==> f.difficulty == difficulty.value)
      && (mastered.Some? ==> f.mastered == mastered.value)
  }

  class Store {
    var courses: seq<Course>
    var documents: seq<Document>
    var summaries: seq<Summary>
    var flashcards: seq<Flashcard>

    ghost predicate Valid()
      reads this
    {
      ValidTables(courses, documents, summaries, flashcards)
    }

    function CourseIds(): set<nat>
      reads this
    {
      CourseIdSet(courses)
    }

    function DocumentIds(): set<nat>
      reads this
    {
      DocumentIdSet(documents)
    }

    /** Every foreign key refers to an existing row. SQLite does not enforce
        this, so it holds when the callers pass existing ids. */
    ghost predicate Linked()
      reads this
    {
      LinkedTables(courses, documents, summaries, flashcards)
    }

    /** `db.query(Course).filter(Course.code == code).first()` */
    function CourseIndex(code: string): Option<nat>
      reads this
    {
      FindFirst(courses, HasCode(code))
    }

    /** The ids of a course's documents. */
    function CourseDocumentIds(courseId: nat): set<nat>
      reads this
    {
      set d | d in documents && d.courseId == courseId :: d.id
    }

    constructor ()
      ensures Valid() && Linked()
      ensures courses == [] && documents == [] && summaries == [] && flashcards == []
    {
      courses := [];
      documents := [];
      summaries := [];
      flashcards := [];
    }

    /** `create_course(db, code, name)`: the existing course with that code,
        or a new one named `name or code`. */
    method CreateCourse(code: string, name: Option<string>) returns (course: Course)
      requires Valid()
      modifies this
      ensures Valid()
      ensures old(Linked()) ==> Linked()
      ensures documents == old(documents) && summaries == old(summaries) && flashcards == old(flashcards)
      ensures old(CourseIndex(code)).Some? ==> courses == old(courses) && course == courses[old(CourseIndex(code)).value]
      ensures old(CourseIndex(code)).None? ==>
                course == Course(NextId(old(courses), CourseId), code, NameOrCode(name, code))
                && courses == old(courses) + [course]
      ensures CourseIndex(code).Some? && courses[CourseIndex(code).value] == course && course.code == code
    {
      var found := FindFirst(courses, HasCode(code));
      if found.Some? {
        course := courses[found.value];
        return;
      }
      course := Course(NextId(courses, CourseId), code, NameOrCode(name, code));
      AppendFresh(courses, course, CourseId);
      forall y | y in courses
        ensures CourseCode(y) != CourseCode(course)
      {
        var k :| 0 <= k < |courses| && courses[k] == y;
        assert !HasCode(code)(courses[k]);
      }
      AppendUnique(courses, course, CourseCode);
      if Linked() {
        AppendCourseLinked(courses, documents, summaries, flashcards, course);
      }
      FindFirstAppend(courses, course, HasCode(code));
      courses := courses + [course];
    }

    /** `create_document(db, filename, file_path, course_code, page_count)`:
        gets or creates the course, then inserts a document linked to it. */
    method CreateDocument(filename: string, filePath: string, courseCode: string, pageCount: Option<int>)
      returns (doc: Document)
      requires Valid()
      modifies this
      ensures Valid()
      ensures old(Linked()) ==> Linked()
      ensures summaries == old(summaries) && flashcards == old(flashcards)
      ensures old(CourseIndex(courseCode)).Some? ==> courses == old(courses)
      ensures old(CourseIndex(courseCode)).None? ==>
                courses == old(courses) + [Course(NextId(old(courses), CourseId), courseCode, courseCode)]
      ensures CourseIndex(courseCode).Some? && doc.courseId == courses[CourseIndex(courseCode).value].id
      ensures doc == Document(NextId(old(documents), DocumentId), filename, filePath, doc.courseId, pageCount, false)
      ensures documents == old(documents) + [doc]
    {
      var course := CreateCourse(courseCode, None);
      assert NameOrCode(None, courseCode) == courseCode;
      ghost var index := CourseIndex(courseCode);
      doc := Document(NextId(documents, DocumentId), filename, filePath, course.id, pageCount, false);
      AppendFresh(documents, doc, DocumentId);
      assert course.id in CourseIds() by {
        assert course in courses;
      }
      if Linked() {
        AppendDocumentLinked(courses, documents, summaries, flashcards, doc);
      }
      documents := documents + [doc];
      assert CourseIndex(courseCode) == index;
    }

    /** `create_summary(db, document_id, file_path)`: the commit fails when the
        document already has a summary. */
    method CreateSummary(documentId: nat, filePath: string) returns (r: Result<Summary, DbError>)
      requires Valid()
      modifies this
      ensures Valid()
      ensures old(Linked()) && documentId in DocumentIds() ==> Linked()
      ensures courses == old(courses) && documents == old(documents) && flashcards == old(flashcards)
      ensures (exists s :: s in old(summaries) && s.documentId == documentId) ==>
                r == Err(IntegrityError) && summaries == old(summaries)
      ensures (forall s :: s in old(summaries) ==> s.documentId != documentId) ==>
                r == Ok(Summary(NextId(old(summaries), SummaryId), documentId, filePath))
                && summaries == old(summaries) + [r.value]
    {
      var existing := FindFirst(summaries, SummaryFor(documentId));
      if existing.Some? {
        assert summaries[existing.value] in summaries;
        return Err(IntegrityError);
      }
      var summary := Summary(NextId(summaries, SummaryId), documentId, filePath);
      AppendFresh(summaries, summary, SummaryId);
      forall y | y in summaries
        ensures SummaryDocument(y) != SummaryDocument(summary)
      {
        var k :| 0 <= k < |summaries| && summaries[k] == y;
        assert !SummaryFor(documentId)(summaries[k]);
      }
      AppendUnique(summaries, summary, SummaryDocument);
      if Linked() && documentId in DocumentIds() {
        AppendSummaryLinked(courses, documents, summaries, flashcards, summary);
      }
      summaries := summaries + [summary];
      r := Ok(summary);
    }

    /** `create_flashcard(db, document_id, question, answer, difficulty)`: a
        new card, not mastered and never reviewed; `None` stands for the
        omitted argument. */
    method CreateFlashcard(documentId: nat, question: string, answer: string, difficulty: Option<string>)
      returns (card: Flashcard)
      requires Valid()
      modifies this
      ensures Valid()
      ensures old(Linked()) && documentId in DocumentIds() ==> Linked()
      ensures courses == old(courses) && documents == old(documents) && summaries == old(summaries)
      ensures card == Flashcard(NextId(old(flashcards), FlashcardId), documentId, question, answer,
                                difficulty.GetOr(DEFAULT_DIFFICULTY), false, 0)
      ensures flashcards == old(flashcards) + [card]
    {
      card := Flashcard(NextId(flashcards, FlashcardId), documentId, question, answer,
                        difficulty.GetOr(DEFAULT_DIFFICULTY), false, 0);
      AppendFresh(flashcards, card, FlashcardId);
      if Linked() && documentId in DocumentIds() {
        AppendFlashcardLinked(courses, documents, summaries, flashcards, card);
      }
      flashcards := flashcards + [card];
    }

    /** `finalize_sync` in `backend/main.py`: marks the document processed;
        `false` stands for the error raised when it is gone. */
    method MarkProcessed(documentId: nat) returns (found: bool)
      requires Valid()
      modifies this
      ensures Valid()
      ensures old(Linked()) ==> Linked()
      ensures courses == old(courses) && summaries == old(summaries) && flashcards == old(flashcards)
      ensures found <==> old(FindFirst(documents, HasDocumentId(documentId))).Some?
      ensures !found ==> documents == old(documents)
      ensures found ==> var i := old(FindFirst(documents, HasDocumentId(documentId))).value;
                        documents == old(documents)[i := old(documents)[i].(processed := true)]
    {
      var index := FindFirst(documents, HasDocumentId(documentId));
      if index.None? {
        return false;
      }
      var i := index.value;
      if Linked() {
        UpdateDocumentLinked(courses, documents, summaries, flashcards, i, documents[i].(processed := true));
      }
      ghost var before := documents;
      documents := documents[i := documents[i].(processed := true)];
      assert forall k :: 0 <= k < |documents| ==> DocumentId(documents[k]) == DocumentId(before[k]);
      found := true;
    }

    /** `update_flashcard(flashcard_id, updates)` in `backend/main.py`:
        `None` stands for the 404 of an unknown id. */
    method UpdateFlashcard(flashcardId: nat, mastered: Option<bool>, timesReviewed: Option<int>)
      returns (r: Option<Flashcard>)
      requires Valid()
      modifies this
      ensures Valid()
      ensures old(Linked()) ==> Linked()
      ensures courses == old(courses) && documents == old(documents) && summaries == old(summaries)
      ensures r.Some? <==> old(FindFirst(flashcards, HasFlashcardId(flashcardId))).Some?
      ensures r.None? ==> flashcards == old(flashcards)
      ensures r.Some? ==> var i := old(FindFirst(flashcards, HasFlashcardId(flashcardId))).value;
                          r.value == Patched(old(flashcards)[i], mastered, timesReviewed)
                          && flashcards == old(flashcards)[i := r.value]
    {
      var index := FindFirst(flashcards, HasFlashcardId(flashcardId));
      if index.None? {
        return None;
      }
      var i := index.value;
      var card := Patched(flashcards[i], mastered, timesReviewed);
      if Linked() {
        UpdateFlashcardLinked(courses, documents, summaries, flashcards, i, card);
      }
      ghost var before := flashcards;
      flashcards := flashcards[i := card];
      assert forall k :: 0 <= k < |flashcards| ==> FlashcardId(flashcards[k]) == FlashcardId(before[k]);
      r := Some(card);
    }

    /** `delete_document(document_id)` in `backend/main.py`: the document
        goes, and the cascade removes its summary and flashcards. `false`
        stands for the 404 of an unknown id. */
    method DeleteDocument(documentId: nat) returns (found: bool)
      requires Valid()
      modifies this
      ensures Valid()
      ensures old(Linked()) ==> Linked()
      ensures courses == old(courses)
      ensures found <==> old(FindFirst(documents, HasDocumentId(documentId))).Some?
      ensures !found ==> documents == old(documents) && summaries == old(summaries) && flashcards == old(flashcards)
      ensures found ==> documents == Filter(old(documents), OtherDocument(documentId))
                        && summaries == Filter(old(summaries), SummaryOutside({documentId}))
                        && flashcards == Filter(old(flashcards), FlashcardOutside({documentId}))
    {
      var index := FindFirst(documents, HasDocumentId(documentId));
      if index.None? {
        return false;
      }
      FilterIncreasing(documents, OtherDocument(documentId), DocumentId);
      FilterIncreasing(summaries, SummaryOutside({documentId}), SummaryId);
      FilterUnique(summaries, SummaryOutside({documentId}), SummaryDocument);
      FilterIncreasing(flashcards, FlashcardOutside({documentId}), FlashcardId);
      if Linked() {
        DeleteDocumentLinked(courses, documents, summaries, flashcards, documentId);
      }
      documents := Filter(documents, OtherDocument(documentId));
      summaries := Filter(summaries, SummaryOutside({documentId}));
      flashcards := Filter(flashcards, FlashcardOutside({documentId}));
      found := true;
    }

    /** `delete_course_endpoint(course_code)` in `backend/main.py`: the
        course goes, the cascade removes its documents and, through them,
        their summaries and flashcards. The result is the number of documents
        removed; `None` stands for the 404 of an unknown code. */
    method DeleteCourse(code: string) returns (r: Option<nat>)
      requires Valid()
      modifies this
      ensures Valid()
      ensures old(Linked()) ==> Linked()
      ensures r.Some? <==> old(CourseIndex(code)).Some?
      ensures r.None? ==> courses == old(courses) && documents == old(documents)
                          && summaries == old(summaries) && flashcards == old(flashcards)
      ensures r.Some? ==>
                var id := old(courses)[old(CourseIndex(code)).value].id;
                var removed := old(CourseDocumentIds(id));
                && r.value == |old(CourseDocuments(code))|
                && courses == Filter(old(courses), OtherCourse(id))
                && documents == Filter(old(documents), OutsideCourse(id))
                && summaries == Filter(old(summaries), SummaryOutside(removed))
                && flashcards == Filter(old(flashcards), FlashcardOutside(removed))
    {
      var index := FindFirst(courses, HasCode(code));
      if index.None? {
        return None;
      }
      var id := courses[index.value].id;
      var count := |CourseDocuments(code)|;
      var removed := CourseDocumentIds(id);
      FilterIncreasing(courses, OtherCourse(id), CourseId);
      FilterUnique(courses, OtherCourse(id), CourseCode);
      FilterIncreasing(documents, OutsideCourse(id), DocumentId);
      FilterIncreasing(summaries, SummaryOutside(removed), SummaryId);
      FilterUnique(summaries, SummaryOutside(removed), SummaryDocument);
      FilterIncreasing(flashcards, FlashcardOutside(removed), FlashcardId);
      if Linked() {
        DeleteCourseLinked(courses, documents, summaries, flashcards, id, removed);
      }
      courses := Filter(courses, OtherCourse(id));
      documents := Filter(documents, OutsideCourse(id));
      summaries := Filter(summaries, SummaryOutside(removed));
      flashcards := Filter(flashcards, FlashcardOutside(removed));
      r := Some(count);
    }

    /** With unique codes, `.first()` finds the one course with the code,
        and a summary is the only one for its document. */
    lemma UniqueRows(code: string)
      requires Valid()
      ensures CourseIndex(code).Some? <==> exists c :: c in courses && c.code == code
      ensures CourseIndex(code).Some? ==>
                forall c :: c in courses && c.code == code ==> c == courses[CourseIndex(code).value]
      ensures forall s, t :: s in summaries && t in summaries && s.documentId == t.documentId ==> s == t
    {
      if c :| c in courses && c.code == code {
        var k :| 0 <= k < |courses| && courses[k] == c;
        assert HasCode(code)(courses[k]);
      }
      if CourseIndex(code).Some? {
        var i := CourseIndex(code).value;
        forall c | c in courses && c.code == code
          ensures c == courses[i]
        {
          var k :| 0 <= k < |courses| && courses[k] == c;
          assert !(k < i) && !(i < k);
        }
      }
      forall s, t | s in summaries && t in summaries && s.documentId == t.documentId
        ensures s == t
      {
        var i :| 0 <= i < |summaries| && summaries[i] == s;
        var j :| 0 <= j < |summaries| && summaries[j] == t;
        assert !(i < j) && !(j < i);
      }
    }

    /** The documents of a course are exactly those linked to the course with
        that code; an unknown code has none. */
    lemma CourseDocumentsMeaning(code: string)
      requires Valid()
      ensures (forall c :: c in courses ==> c.code != code) ==> CourseDocuments(code) == []
      ensures forall d :: d in CourseDocuments(code) <==>
                d in documents && exists c :: c in courses && c.code == code && c.id == d.courseId
    {
      UniqueRows(code);
      if CourseIndex(code).Some? {
        var i := CourseIndex(code).value;
        forall d | d in documents && (exists c :: c in courses && c.code == code && c.id == d.courseId)
          ensures d in CourseDocuments(code)
        {
          var c :| c in courses && c.code == code && c.id == d.courseId;
          assert InCourse(courses[i].id)(d);
        }
      }
    }

    /** With every link in place and no filter given, `get_all_flashcards`
        returns every flashcard. */
    lemma UnfilteredFlashcards()
      requires Linked()
      ensures FilteredFlashcards(None, None, None) == flashcards
    {
      forall f | f in flashcards
        ensures CardMatches(documents, courses, None, None, None)(f)
      {
        var d :| d in documents && d.id == f.documentId;
        var i :| 0 <= i < |documents| && documents[i] == d;
        assert HasDocumentId(f.documentId)(documents[i]);
        var first := FindFirst(documents, HasDocumentId(f.documentId)).value;
        var e := documents[first];
        assert e in documents;
        var c :| c in courses && c.id == e.courseId;
        var j :| 0 <= j < |courses| && courses[j] == c;
        assert HasCourseId(e.courseId)(courses[j]);
      }
      FilterAll(flashcards, CardMatches(documents, courses, None, None, None));
    }

    /** `get_course_documents(db, course_code)` */
    function CourseDocuments(code: string): (r: seq<Document>)
      reads this
      ensures CourseIndex(code).None? ==> r == []
      ensures forall d :: d in r ==> d in documents
    {
      match CourseIndex(code)
      case None => []
      case Some(i) => Filter(documents, InCourse(courses[i].id))
    }

    /** `get_database_stats(db)`: every flashcard is mastered or not, so the
        two counts add up to the total. */
    function Stats(): (r: DatabaseStats)
      reads this
      ensures r.totalCourses == |courses| && r.totalDocuments == |documents|
      ensures r.totalSummaries == |summaries| && r.totalFlashcards == |flashcards|
      ensures r.masteredFlashcards == |Filter(flashcards, IsMastered)|
      ensures r.unmasteredFlashcards == |Filter(flashcards, IsUnmastered)|
      ensures r.masteredFlashcards + r.unmasteredFlashcards == r.totalFlashcards
    {
      CountComplement(flashcards, IsMastered, IsUnmastered);
      CountFilter(flashcards, IsMastered);
      CountFilter(flashcards, IsUnmastered);
      DatabaseStats(|courses|, |documents|, |summaries|, |flashcards|,
                    Count(flashcards, IsMastered), Count(flashcards, IsUnmastered))
    }

    /** `get_all_flashcards(course, difficulty, mastered)` in `backend/main.py`,
        in table order. */
    function FilteredFlashcards(course: Option<string>, difficulty: Option<string>, mastered: Option<bool>)
      : (r: seq<Flashcard>)
      reads this
      ensures forall f :: f in r <==> f in flashcards && CardMatches(documents, courses, course, difficulty, mastered)(f)
    {
      Filter(flashcards, CardMatches(documents, courses, course, difficulty, mastered))
    }

    /** The flashcards of the course with that code, through the join to
        their documents, in table order. */
    function CourseCards(code: string): (r: seq<Flashcard>)
      reads this
      ensures CourseIndex(code).None? ==> r == []
      ensures CourseIndex(code).Some? ==>
                forall f :: f in r <==>
                  (f in flashcards && exists d :: d in documents && d.id == f.documentId
                                                  && d.courseId == courses[CourseIndex(code).value].id)
    {
      match CourseIndex(code)
      case None => []
      case Some(i) => Filter(flashcards, FlashcardIn(CourseDocumentIds(courses[i].id)))
    }

    /** `get_course_statistics(course_code)` in `backend/main.py`; `None`
        stands for the 404 of an unknown code. */
    function CourseStatistics(code: string): (r: Option<CourseStats>)
      reads this
      ensures r.Some? <==> CourseIndex(code).Some?
      ensures r.Some? ==> r.value.code == code && r.value.name == DisplayName(courses[CourseIndex(code).value])
      ensures r.Some? ==> r.value.documentCount == |CourseDocuments(code)|
      ensures r.Some? ==> r.value.total == |CourseCards(code)|
      ensures r.Some? ==> r.value.mastered == |Filter(CourseCards(code), IsMastered)|
      ensures r.Some? ==> r.value.mastered + r.value.unmastered == r.value.total
      ensures r.Some? ==> r.value.easy == |Filter(CourseCards(code), HasDifficulty("easy"))|
                          && r.value.medium == |Filter(CourseCards(code), HasDifficulty("medium"))|
                          && r.value.hard == |Filter(CourseCards(code), HasDifficulty("hard"))|
      ensures r.Some? ==> r.value.easy + r.value.medium + r.value.hard <= r.value.total
    {
      match CourseIndex(code)
      case None => None
      case Some(i) =>
        var course := courses[i];
        var cards := CourseCards(code);
        var mastered := Count(cards, IsMastered);
        CountFilter(cards, IsMastered);
        CountFilter(cards, HasDifficulty("easy"));
        CountFilter(cards, HasDifficulty("medium"));
        CountFilter(cards, HasDifficulty("hard"));
        CountDisjoint(cards, HasDifficulty("easy"), HasDifficulty("medium"), HasDifficulty("hard"));
        Some(CourseStats(course.code, DisplayName(course), |CourseDocuments(code)|, |cards|, mastered,
                         |cards| - mastered, Count(cards, HasDifficulty("easy")),
                         Count(cards, HasDifficulty("medium")), Count(cards, HasDifficulty("hard"))))
    }
  }
}
