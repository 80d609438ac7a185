/** The progress stream of `upload_pdf` in `backend/main.py`. The
    background job `process_async` pushes payloads onto a queue, then a
    `None` sentinel; the response generator `generate` sends every payload it
    takes off the queue until it meets the sentinel. With the executor
    threads and the event loop left out, what `process_async` pushes is a function
    of how each stage ends and of the elapsed seconds each heartbeat reads
    while the stage is still running; `UploadRun` holds those inputs. */
module UploadProgress {
  import opened Wrappers
  import opened Text
  import opened Arith

  datatype Stage = Uploading | Extracting | Storing | Summarizing | GeneratingFlashcards | Complete | Failed
  {
    /** The payload's `stage` string. */
    function Name(): string {
      match this
      case Uploading => "uploading"
      case Extracting => "extracting"
      case Storing => "storing"
      case Summarizing => "summarizing"
      case GeneratingFlashcards => "generating_flashcards"
      case Complete => "complete"
      case Failed => "error"
    }

    /** Where the stage falls in a run. */
    function Rank(): nat {
      match this
      case Uploading => 0
      case Extracting => 1
      case Storing => 2
      case Summarizing => 3
      case GeneratingFlashcards => 4
      case Complete => 5
      case Failed => 6
    }
  }

  /** The final object of a successful run. */
  datatype UploadResult = UploadResult(documentId: nat, filename: string, course: string, pageCount: nat,
                                       summaryLength: nat, flashcardCount: nat, aiModelUsed: string)

  /** What goes on the queue: a `{stage, progress, message}` payload, the
      final result, or the sentinel. */
  datatype Item = Progress(stage: Stage, progress: int, message: string) | Done(result: UploadResult) | Sentinel

  /** A successful extraction. */
  datatype Extraction = Extraction(filename: string, pageCount: nat, fullText: string)

  /** How each stage of one run ends. Each `ticks` sequence holds the elapsed
      seconds the heartbeats of a stage read; `Err` carries the text of the
      error; the `...Error` fields are exceptions the saving steps raise. */
  datatype UploadRun = UploadRun(
    extractTicks: seq<nat>, extraction: Result<Extraction, string>,
    stored: Result<nat, string>,
    summaryTicks: seq<nat>, summary: Result<string, string>, summarySaveError: Option<string>,
    flashcardTicks: seq<nat>, flashcards: Result<nat, string>, flashcardSaveError: Option<string>,
    finalizeError: Option<string>)

  /** `push_error(message)`: the error payload, then the sentinel. */
  function ErrorEnd(message: string): seq<Item> {
    [Progress(Failed, 0, message), Sentinel]
  }

  /** A heartbeat's progress: two points a second past the stage's base, at
      most fifteen. */
  function Heartbeat(base: int, elapsed: nat): (p: int)
    ensures base <= p <= base + 15
  {
    base + if elapsed * 2 < 15 then elapsed * 2 else 15
  }

  /** The heartbeats of one stage. */
  function Heartbeats(stage: Stage, base: int, caption: string, ticks: seq<nat>): (r: seq<Item>)
    ensures |r| == |ticks|
    ensures forall k :: 0 <= k < |r| ==>
              r[k].Progress? && r[k].stage == stage && r[k].progress == Heartbeat(base, ticks[k])
  {
    seq(|ticks|, k requires 0 <= k < |ticks| =>
      Progress(stage, Heartbeat(base, ticks[k]), caption + NatToString(ticks[k]) + "s"))
  }

  /** The progress of the `i`-th of `n` saved flashcards: 90 plus nine times
      the share saved so far, rounded down. */
  function SaveProgress(i: nat, n: nat): (p: int)
    requires 1 <= i <= n
    ensures 90 <= p <= 99
  {
    DivAtMost(9 * i, n, 9);
    90 + (9 * i) / n
  }

  /** The per-card payloads after the cards are saved. */
  function Saves(n: nat): (r: seq<Item>)
    ensures |r| == n
    ensures forall k :: 0 <= k < n ==>
              r[k].Progress? && r[k].stage == GeneratingFlashcards && r[k].progress == SaveProgress(k + 1, n)
  {
    seq(n, k requires 0 <= k < n =>
      Progress(GeneratingFlashcards, SaveProgress(k + 1, n),
               "Saving flashcards (" + NatToString(k + 1) + "/" + NatToString(n) + ")"))
  }

  /** The payloads pushed before the extraction heartbeats. */
  const UPLOAD_START: seq<Item> :=
    [Progress(Uploading, 10, "Uploading file..."), Progress(Uploading, 20, "File uploaded successfully"),
     Progress(Extracting, 25, "Extracting text from PDF...")]

  /** Everything `process_async` pushes, sentinel included. */
  function Payloads(run: UploadRun, course: string, provider: string): (r: seq<Item>)
    ensures |r| >= |UPLOAD_START| && r[..|UPLOAD_START|] == UPLOAD_START
  {
    Opening(run) + ExtractedTail(run, course, provider)
  }

  /** The upload payloads and the extraction heartbeats. */
  function Opening(run: UploadRun): seq<Item> {
    UPLOAD_START + Heartbeats(Extracting, 25, "Extracting text... ", run.extractTicks)
  }

  /** What follows the extraction heartbeats. */
  function ExtractedTail(run: UploadRun, course: string, provider: string): seq<Item> {
    match run.extraction
    case Err(e) => ErrorEnd("PDF extraction failed: " + e)
    case Ok(x) => AfterExtraction(run, x, course, provider)
  }

  function AfterExtraction(run: UploadRun, x: Extraction, course: string, provider: string): seq<Item> {
    [Progress(Extracting, 40, "Extracted " + NatToString(x.pageCount) + " pages"),
     Progress(Storing, 45, "Creating DB records...")]
    + StoredTail(run, x, course, provider)
  }

  /** What follows the storing payload. */
  function StoredTail(run: UploadRun, x: Extraction, course: string, provider: string): seq<Item> {
    match run.stored
    case Err(e) => ErrorEnd("Processing error: " + e)
    case Ok(id) => AfterStoring(run, x, id, course, provider)
  }

  function AfterStoring(run: UploadRun, x: Extraction, id: nat, course: string, provider: string): seq<Item> {
    [Progress(Storing, 50, "Document saved (ID " + NatToString(id) + ")"),
     Progress(Summarizing, 55, "Generating AI summary...")]
    + Heartbeats(Summarizing, 55, "Generating summary... ", run.summaryTicks)
    + SummaryTail(run, x, id, course, provider)
  }

  /** What follows the summary heartbeats. */
  function SummaryTail(run: UploadRun, x: Extraction, id: nat, course: string, provider: string): seq<Item> {
    match run.summary
    case Err(e) => ErrorEnd("Summary generation failed: " + e)
    case Ok(summary) => AfterSummary(run, x, id, summary, course, provider)
  }

  function AfterSummary(run: UploadRun, x: Extraction, id: nat, summary: string, course: string,
                        provider: string): seq<Item> {
    [Progress(Summarizing, 70, "Summary generated successfully")]
    + match run.summarySaveError
      case Some(e) => ErrorEnd("Processing error: " + e)
      case None => FlashcardStage(run, x, id, summary, course, provider)
  }

  /** The flashcard stage, from its first payload on. */
  function FlashcardStage(run: UploadRun, x: Extraction, id: nat, summary: string, course: string,
                          provider: string): seq<Item> {
    [Progress(GeneratingFlashcards, 75, "Creating flashcards...")]
    + Heartbeats(GeneratingFlashcards, 75, "Generating flashcards... ", run.flashcardTicks)
    + FlashcardsTail(run, x, id, summary, course, provider)
  }


  /** What follows the flashcard heartbeats. */
  function FlashcardsTail(run: UploadRun, x: Extraction, id: nat, summary: string, course: string,
                          provider: string): seq<Item> {
    match run.flashcards
    case Err(e) => ErrorEnd("Flashcard generation failed: " + e)
    case Ok(n) => AfterFlashcards(run, x, id, summary, n, course, provider)
  }

  function AfterFlashcards(run: UploadRun, x: Extraction, id: nat, summary: string, n: nat,
                           course: string, provider: string): seq<Item> {
    [Progress(GeneratingFlashcards, 90, "Generated " + NatToString(n) + " flashcards")]
    + match run.flashcardSaveError
      case Some(e) => ErrorEnd("Processing error: " + e)
      case None => Saves(n) + Finish(run, x, id, summary, n, course, provider)
  }

  /** The completion and the result, or the error finalising raises. */
  function Finish(run: UploadRun, x: Extraction, id: nat, summary: string, n: nat,
                  course: string, provider: string): seq<Item> {
    match run.finalizeError
    case Some(e) => ErrorEnd("Processing error: " + e)
    case None =>
      [Progress(Complete, 100, "Processing complete!"),
       Done(UploadResult(id, x.filename, course, x.pageCount, |summary|, n, provider)),
       Sentinel]
  }

  /** A run succeeds when every stage does. */
  predicate Succeeds(run: UploadRun) {
    && run.extraction.Ok? && run.stored.Ok? && run.summary.Ok? && run.summarySaveError.None?
    && run.flashcards.Ok? && run.flashcardSaveError.None? && run.finalizeError.None?
  }

  /** A payload that ends the run: the result or the error. */
  predicate Terminal(item: Item) {
    item.Done? || (item.Progress? && item.stage == Failed)
  }

  /** Payloads that are neither terminal nor the sentinel. */
  predicate AllProgress(s: seq<Item>) {
    forall k :: 0 <= k < |s| ==> s[k].Progress? && s[k].stage != Failed
  }

  /** In stage order, and never going back. */
  predicate Ordered(s: seq<Item>)
    requires AllProgress(s)
  {
    forall i, j :: 0 <= i < j < |s| ==> s[i].stage.Rank() <= s[j].stage.Rank() && s[i].progress <= s[j].progress
  }

  /** Every payload at or before stage `rank` and at most `p`. */
  predicate UpTo(s: seq<Item>, rank: nat, p: int)
    requires AllProgress(s)
  {
    forall k :: 0 <= k < |s| ==> s[k].stage.Rank() <= rank && s[k].progress <= p
  }

  /** Every payload at or after stage `rank` and at least `p`. */
  predicate From(s: seq<Item>, rank: nat, p: int)
    requires AllProgress(s)
  {
    forall k :: 0 <= k < |s| ==> s[k].stage.Rank() >= rank && s[k].progress >= p
  }

  /** The progress band of each stage: extracting within [25, 40],
      summarizing within [55, 70], flashcards within [75, 99], an error at 0. */
  predicate InBand(item: Item) {
    item.Progress? ==>
      && (item.stage == Uploading ==> 10 <= item.progress <= 20)
      && (item.stage == Extracting ==> 25 <= item.progress <= 40)
      && (item.stage == Storing ==> 45 <= item.progress <= 50)
      && (item.stage == Summarizing ==> 55 <= item.progress <= 70)
      && (item.stage == GeneratingFlashcards ==> 75 <= item.progress <= 99)
      && (item.stage == Complete ==> item.progress == 100)
      && (item.stage == Failed ==> item.progress == 0)
  }

  predicate Banded(s: seq<Item>) {
    forall k :: 0 <= k < |s| ==> InBand(s[k])
  }

  /** A run of progress payloads that can come before a tail whose
      progress starts at stage `rank` and at `p`. */
  predicate Leads(a: seq<Item>, rank0: nat, p0: int, rank: nat, p: int) {
    AllProgress(a) && Ordered(a) && From(a, rank0, p0) && UpTo(a, rank, p) && Banded(a)
  }

  /** The shape of what is pushed from some point of a run on: progress
      payloads in order, from stage `rank` and progress `p` on, then one
      terminal payload, then the sentinel; the terminal payload is the
      result exactly when `ok`, and the error payload reads progress 0; a
      successful tail's last progress payload is the completion at 100. */
  predicate Shape(s: seq<Item>, rank: nat, p: int, ok: bool) {
    && |s| >= 2 && s[|s| - 1] == Sentinel && Terminal(s[|s| - 2])
    && (s[|s| - 2].Done? <==> ok)
    && AllProgress(s[..|s| - 2]) && Ordered(s[..|s| - 2]) && From(s[..|s| - 2], rank, p)
    && (ok ==> |s| >= 3 && s[|s| - 3] == Progress(Complete, 100, "Processing complete!"))
    && Banded(s)
  }

  lemma ErrorEndShape(message: string, rank: nat, p: int)
    ensures Shape(ErrorEnd(message), rank, p, false)
  {
    assert ErrorEnd(message)[..0] == [];
  }

  /** Progress payloads put before a tail of the right shape keep it. */
  lemma ShapePrepend(a: seq<Item>, s: seq<Item>, rank0: nat, p0: int, rank: nat, p: int, ok: bool)
    requires Leads(a, rank0, p0, rank, p) && Shape(s, rank, p, ok)
    requires rank0 <= rank && p0 <= p
    ensures Shape(a + s, rank0, p0, ok)
    ensures (a + s)[|a + s| - 2] == s[|s| - 2]
  {
    var t := a + s;
    var body := s[..|s| - 2];
    assert t[..|t| - 2] == a + body;
    assert t[|t| - 1] == s[|s| - 1] && t[|t| - 2] == s[|s| - 2];
    if ok {
      assert t[|t| - 3] == s[|s| - 3];
    }
    forall k | 0 <= k < |t|
      ensures InBand(t[k])
    {
      if k < |a| {
        assert t[k] == a[k];
      } else {
        assert t[k] == s[k - |a|];
      }
    }
    assert forall k :: 0 <= k < |a| ==> (a + body)[k] == a[k];
    assert forall k :: |a| <= k < |a + body| ==> (a + body)[k] == body[k - |a|];
  }

  /** Ordered runs, one ending where the next begins, join into an ordered
      run. */
  lemma LeadsJoin(a: seq<Item>, b: seq<Item>, rank0: nat, p0: int, rank1: nat, p1: int, rank: nat, p: int)
    requires Leads(a, rank0, p0, rank1, p1) && Leads(b, rank1, p1, rank, p)
    requires rank0 <= rank1 <= rank && p0 <= p1 <= p
    ensures Leads(a + b, rank0, p0, rank, p)
  {
    assert forall k :: 0 <= k < |a| ==> (a + b)[k] == a[k];
    assert forall k :: |a| <= k < |a + b| ==> (a + b)[k] == b[k - |a|];
  }

  /** Non-decreasing elapsed seconds. */
  predicate Monotone(ticks: seq<nat>) {
    forall i, j :: 0 <= i < j < |ticks| ==> ticks[i] <= ticks[j]
  }

  predicate TicksMonotone(run: UploadRun) {
    Monotone(run.extractTicks) && Monotone(run.summaryTicks) && Monotone(run.flashcardTicks)
  }

  /** The heartbeats of a stage are ordered when the elapsed times do not
      go back, and they stay within fifteen points of the stage's base. */
  lemma HeartbeatsLead(stage: Stage, base: int, caption: string, ticks: seq<nat>)
    requires stage != Failed && Monotone(ticks)
    requires InBand(Progress(stage, base, "")) && InBand(Progress(stage, base + 15, ""))
    ensures Leads(Heartbeats(stage, base, caption, ticks), stage.Rank(), base, stage.Rank(), base + 15)
  {
    var h := Heartbeats(stage, base, caption, ticks);
    forall k | 0 <= k < |h|
      ensures InBand(h[k])
    {
      assert h[k].stage == stage && base <= h[k].progress <= base + 15;
    }
  }

  /** The saving payloads climb from just above 90 to 99. */
  lemma SavesLead(n: nat)
    ensures Leads(Saves(n), GeneratingFlashcards.Rank(), 90, GeneratingFlashcards.Rank(), 99)
  {
    var s := Saves(n);
    forall i, j | 0 <= i < j < n
      ensures s[i].progress <= s[j].progress
    {
      DivMonotone(9 * (i + 1), 9 * (j + 1), n);
    }
  }

  /** The result a successful run sends. */
  function ResultOf(run: UploadRun, course: string, provider: string): UploadResult
    requires Succeeds(run)
  {
    var x := run.extraction.value;
    UploadResult(run.stored.value, x.filename, course, x.pageCount, |run.summary.value|,
                 run.flashcards.value, provider)
  }

  /** Two leading runs and a tail, in that order, keep the tail's shape. */
  lemma ShapePrepend2(a: seq<Item>, b: seq<Item>, s: seq<Item>, rank0: nat, p0: int, rank1: nat, p1: int,
                      rank: nat, p: int, ok: bool)
    requires Leads(a, rank0, p0, rank1, p1) && Leads(b, rank1, p1, rank, p) && Shape(s, rank, p, ok)
    requires rank0 <= rank1 <= rank && p0 <= p1 <= p
    ensures Shape(a + b + s, rank0, p0, ok)
    ensures (a + b + s)[|a + b + s| - 2] == s[|s| - 2]
  {
    LeadsJoin(a, b, rank0, p0, rank1, p1, rank, p);
    ShapePrepend(a + b, s, rank0, p0, rank, p, ok);
  }

  /** The completion and result, or the finalising error. */
  lemma FinishShape(run: UploadRun, x: Extraction, id: nat, summary: string, n: nat, course: string,
                    provider: string)
    ensures var s := Finish(run, x, id, summary, n, course, provider);
            && Shape(s, 5, 100, run.finalizeError.None?)
            && (run.finalizeError.None? ==>
                  s[|s| - 2] == Done(UploadResult(id, x.filename, course, x.pageCount, |summary|, n, provider)))
  {
    var s := Finish(run, x, id, summary, n, course, provider);
    if run.finalizeError.Some? {
      ErrorEndShape("Processing error: " + run.finalizeError.value, 5, 100);
    } else {
      assert s[..|s| - 2] == [Progress(Complete, 100, "Processing complete!")];
    }
  }

  /** The tail that starts with the flashcard count. */
  lemma AfterFlashcardsShape(run: UploadRun, x: Extraction, id: nat, summary: string, n: nat,
                             course: string, provider: string)
    ensures var s := AfterFlashcards(run, x, id, summary, n, course, provider);
            var ok := run.flashcardSaveError.None? && run.finalizeError.None?;
            && Shape(s, 4, 90, ok)
            && (ok ==> s[|s| - 2] == Done(UploadResult(id, x.filename, course, x.pageCount, |summary|, n, provider)))
  {
    var head := [Progress(GeneratingFlashcards, 90, "Generated " + NatToString(n) + " flashcards")];
    assert Leads(head, 4, 90, 4, 90);
    if run.flashcardSaveError.Some? {
      var e := run.flashcardSaveError.value;
      ErrorEndShape("Processing error: " + e, 4, 90);
      ShapePrepend(head, ErrorEnd("Processing error: " + e), 4, 90, 4, 90, false);
    } else {
      var tail := Finish(run, x, id, summary, n, course, provider);
      FinishShape(run, x, id, summary, n, course, provider);
      SavesLead(n);
      ShapePrepend2(head, Saves(n), tail, 4, 90, 4, 90, 5, 100, run.finalizeError.None?);
      assert head + (Saves(n) + tail) == head + Saves(n) + tail;
    }
  }

  lemma FlashcardsTailShape(run: UploadRun, x: Extraction, id: nat, summary: string, course: string,
                            provider: string)
    ensures var s := FlashcardsTail(run, x, id, summary, course, provider);
            var ok := run.flashcards.Ok? && run.flashcardSaveError.None? && run.finalizeError.None?;
            && Shape(s, 4, 90, ok)
            && (ok ==> s[|s| - 2] == Done(UploadResult(id, x.filename, course, x.pageCount, |summary|,
                                                       run.flashcards.value, provider)))
  {
    match run.flashcards {
      case Err(e) => ErrorEndShape("Flashcard generation failed: " + e, 4, 90);
      case Ok(n) => AfterFlashcardsShape(run, x, id, summary, n, course, provider);
    }
  }

  /** The flashcard stage from its first payload at 75. */
  lemma FlashcardStageShape(run: UploadRun, x: Extraction, id: nat, summary: string, course: string,
                            provider: string)
    requires Monotone(run.flashcardTicks)
    ensures var s := FlashcardStage(run, x, id, summary, course, provider);
            var ok := run.flashcards.Ok? && run.flashcardSaveError.None? && run.finalizeError.None?;
            && Shape(s, 4, 75, ok)
            && (ok ==> s[|s| - 2] == Done(UploadResult(id, x.filename, course, x.pageCount, |summary|,
                                                       run.flashcards.value, provider)))
  {
    var start := [Progress(GeneratingFlashcards, 75, "Creating flashcards...")];
    var beats := Heartbeats(GeneratingFlashcards, 75, "Generating flashcards... ", run.flashcardTicks);
    var tail := FlashcardsTail(run, x, id, summary, course, provider);
    var ok := run.flashcards.Ok? && run.flashcardSaveError.None? && run.finalizeError.None?;
    FlashcardsTailShape(run, x, id, summary, course, provider);
    HeartbeatsLead(GeneratingFlashcards, 75, "Generating flashcards... ", run.flashcardTicks);
    assert Leads(start, 4, 75, 4, 75);
    ShapePrepend2(start, beats, tail, 4, 75, 4, 75, 4, 90, ok);
  }

  /** The tail that starts once the summary is generated. */
  lemma AfterSummaryShape(run: UploadRun, x: Extraction, id: nat, summary: string, course: string,
                          provider: string)
    requires Monotone(run.flashcardTicks)
    ensures var s := AfterSummary(run, x, id, summary, course, provider);
            var ok := run.summarySaveError.None? && run.flashcards.Ok? && run.flashcardSaveError.None?
                      && run.finalizeError.None?;
            && Shape(s, 3, 70, ok)
            && (ok ==> s[|s| - 2] == Done(UploadResult(id, x.filename, course, x.pageCount, |summary|,
                                                       run.flashcards.value, provider)))
  {
    var head := [Progress(Summarizing, 70, "Summary generated successfully")];
    assert Leads(head, 3, 70, 4, 75);
    if run.summarySaveError.Some? {
      var e := run.summarySaveError.value;
      ErrorEndShape("Processing error: " + e, 4, 75);
      ShapePrepend(head, ErrorEnd("Processing error: " + e), 3, 70, 4, 75, false);
    } else {
      FlashcardStageShape(run, x, id, summary, course, provider);
      ShapePrepend(head, FlashcardStage(run, x, id, summary, course, provider), 3, 70, 4, 75,
                   run.flashcards.Ok? && run.flashcardSaveError.None? && run.finalizeError.None?);
    }
  }

  lemma SummaryTailShape(run: UploadRun, x: Extraction, id: nat, course: string, provider: string)
    requires Monotone(run.flashcardTicks)
    ensures var s := SummaryTail(run, x, id, course, provider);
            var ok := run.summary.Ok? && run.summarySaveError.None? && run.flashcards.Ok?
                      && run.flashcardSaveError.None? && run.finalizeError.None?;
            && Shape(s, 3, 70, ok)
            && (ok ==> s[|s| - 2] == Done(UploadResult(id, x.filename, course, x.pageCount,
                                                       |run.summary.value|, run.flashcards.value, provider)))
  {
    match run.summary {
      case Err(e) => ErrorEndShape("Summary generation failed: " + e, 3, 70);
      case Ok(summary) => AfterSummaryShape(run, x, id, summary, course, provider);
    }
  }

  /** The tail that starts once the document is stored. */
  lemma AfterStoringShape(run: UploadRun, x: Extraction, id: nat, course: string, provider: string)
    requires Monotone(run.summaryTicks) && Monotone(run.flashcardTicks)
    ensures var s := AfterStoring(run, x, id, course, provider);
            var ok := run.summary.Ok? && run.summarySaveError.None? && run.flashcards.Ok?
                      && run.flashcardSaveError.None? && run.finalizeError.None?;
            && Shape(s, 2, 50, ok)
            && (ok ==> s[|s| - 2] == Done(UploadResult(id, x.filename, course, x.pageCount,
                                                       |run.summary.value|, run.flashcards.value, provider)))
  {
    var head := [Progress(Storing, 50, "Document saved (ID " + NatToString(id) + ")"),
                 Progress(Summarizing, 55, "Generating AI summary...")];
    var beats := Heartbeats(Summarizing, 55, "Generating summary... ", run.summaryTicks);
    var tail := SummaryTail(run, x, id, course, provider);
    var ok := run.summary.Ok? && run.summarySaveError.None? && run.flashcards.Ok?
              && run.flashcardSaveError.None? && run.finalizeError.None?;
    SummaryTailShape(run, x, id, course, provider);
    HeartbeatsLead(Summarizing, 55, "Generating summary... ", run.summaryTicks);
    assert Leads(head, 2, 50, 3, 55);
    ShapePrepend2(head, beats, tail, 2, 50, 3, 55, 3, 70, ok);
  }


  lemma StoredTailShape(run: UploadRun, x: Extraction, course: string, provider: string)
    requires Monotone(run.summaryTicks) && Monotone(run.flashcardTicks)
    ensures var s := StoredTail(run, x, course, provider);
            var ok := run.stored.Ok? && run.summary.Ok? && run.summarySaveError.None? && run.flashcards.Ok?
                      && run.flashcardSaveError.None? && run.finalizeError.None?;
            && Shape(s, 2, 50, ok)
            && (ok ==> s[|s| - 2] == Done(UploadResult(run.stored.value, x.filename, course, x.pageCount,
                                                       |run.summary.value|, run.flashcards.value, provider)))
  {
    match run.stored {
      case Err(e) => ErrorEndShape("Processing error: " + e, 2, 50);
      case Ok(id) => AfterStoringShape(run, x, id, course, provider);
    }
  }

  /** The tail that starts once the text is extracted. */
  lemma AfterExtractionShape(run: UploadRun, x: Extraction, course: string, provider: string)
    requires Monotone(run.summaryTicks) && Monotone(run.flashcardTicks)
    ensures var s := AfterExtraction(run, x, course, provider);
            var ok := run.stored.Ok? && run.summary.Ok? && run.summarySaveError.None? && run.flashcards.Ok?
                      && run.flashcardSaveError.None? && run.finalizeError.None?;
            && Shape(s, 1, 40, ok)
            && (ok ==> s[|s| - 2] == Done(UploadResult(run.stored.value, x.filename, course, x.pageCount,
                                                       |run.summary.value|, run.flashcards.value, provider)))
  {
    var head := [Progress(Extracting, 40, "Extracted " + NatToString(x.pageCount) + " pages"),
                 Progress(Storing, 45, "Creating DB records...")];
    var tail := StoredTail(run, x, course, provider);
    var ok := run.stored.Ok? && run.summary.Ok? && run.summarySaveError.None? && run.flashcards.Ok?
              && run.flashcardSaveError.None? && run.finalizeError.None?;
    StoredTailShape(run, x, course, provider);
    assert Leads(head, 1, 40, 2, 50);
    ShapePrepend(head, tail, 1, 40, 2, 50, ok);
  }

  /** The opening payloads: uploading at 10 and 20, then extraction from 25. */
  lemma OpeningLeads(run: UploadRun)
    requires Monotone(run.extractTicks)
    ensures Leads(Opening(run), 0, 10, 1, 40)
    ensures Opening(run)[0] == Progress(Uploading, 10, "Uploading file...")
  {
    var head := [Progress(Uploading, 10, "Uploading file..."), Progress(Uploading, 20, "File uploaded successfully"),
                 Progress(Extracting, 25, "Extracting text from PDF...")];
    assert Leads(head, 0, 10, 1, 25);
    HeartbeatsLead(Extracting, 25, "Extracting text... ", run.extractTicks);
    LeadsJoin(head, Heartbeats(Extracting, 25, "Extracting text... ", run.extractTicks), 0, 10, 1, 25, 1, 40);
  }


  /** What a whole run pushes has the shape of a run from its start: every
      progress payload in stage order from 10 upwards and within its stage's
      band, then exactly one terminal payload, then the sentinel; the
      terminal payload is the result exactly when every stage succeeds. */
  lemma PayloadsShape(run: UploadRun, course: string, provider: string)
    requires TicksMonotone(run)
    ensures var q := Payloads(run, course, provider);
            && Shape(q, 0, 10, Succeeds(run))
            && q[0] == Progress(Uploading, 10, "Uploading file...")
            && (Succeeds(run) ==> q[|q| - 2] == Done(ResultOf(run, course, provider)))
  {
    OpeningLeads(run);
    ExtractedTailShape(run, course, provider);
    ShapePrepend(Opening(run), ExtractedTail(run, course, provider), 0, 10, 1, 40, Succeeds(run));
  }

  lemma ExtractedTailShape(run: UploadRun, course: string, provider: string)
    requires Monotone(run.summaryTicks) && Monotone(run.flashcardTicks)
    ensures var s := ExtractedTail(run, course, provider);
            && Shape(s, 1, 40, Succeeds(run))
            && (Succeeds(run) ==> s[|s| - 2] == Done(ResultOf(run, course, provider)))
  {
    match run.extraction {
      case Err(e) => ErrorEndShape("PDF extraction failed: " + e, 1, 40);
      case Ok(x) => AfterExtractionShape(run, x, course, provider);
    }
  }

  /** The index of the first sentinel, or the length when there is none. */
  function FirstSentinel(q: seq<Item>): (i: nat)
    ensures i <= |q| && Sentinel !in q[..i]
    ensures i < |q| ==> q[i] == Sentinel
  {
    if q == [] then 0
    else if q[0] == Sentinel then 0
    else
      var i := FirstSentinel(q[1..]);
      assert q[..i + 1] == [q[0]] + q[1..][..i];
      i + 1
  }

  /** The payloads the stream sends: those before the first sentinel. */
  function Sent(q: seq<Item>): (r: seq<Item>)
    ensures Sentinel !in r
  {
    q[..FirstSentinel(q)]
  }

  lemma {:induction false} FirstSentinelAt(q: seq<Item>, i: nat)
    requires i < |q| && q[i] == Sentinel && Sentinel !in q[..i]
    ensures FirstSentinel(q) == i
  {
    if i > 0 {
      assert q[0] in q[..i];
      assert q[1..][..i - 1] == q[..i][1..];
      FirstSentinelAt(q[1..], i - 1);
    }
  }

  /** A stream that sends one terminal payload, last: the result when `ok`
      and otherwise the error at progress 0. */
  predicate SendsOnce(sent: seq<Item>, ok: bool) {
    && sent != []
    && (forall k :: 0 <= k < |sent| - 1 ==> !Terminal(sent[k]))
    && Terminal(sent[|sent| - 1])
    && (ok <==> sent[|sent| - 1].Done?)
    && (!ok ==> sent[|sent| - 1].Progress? && sent[|sent| - 1].stage == Failed
                && sent[|sent| - 1].progress == 0)
  }

  /** What the stream sends of a queue of the right shape: everything but
      the sentinel, with the terminal payload last and only there. */
  lemma ShapeSent(q: seq<Item>, rank: nat, p: int, ok: bool)
    requires Shape(q, rank, p, ok)
    ensures Sent(q) == q[..|q| - 1] && SendsOnce(Sent(q), ok)
  {
    var body := q[..|q| - 2];
    var pre := q[..|q| - 1];
    forall k | 0 <= k < |pre|
      ensures pre[k] != Sentinel
    {
      assert pre[k] == q[k];
    }
    FirstSentinelAt(q, |q| - 1);
    forall k | 0 <= k < |pre| - 1
      ensures !Terminal(pre[k])
    {
      assert pre[k] == body[k];
    }
    assert pre[|pre| - 1] == q[|q| - 2];
    assert InBand(q[|q| - 2]);
  }

  /** The stream of a run sends every payload but the sentinel: the
      progress payloads, then the one terminal payload, which is the result
      exactly when every stage succeeds and otherwise the error at progress
      0. */
  lemma StreamOfRun(run: UploadRun, course: string, provider: string)
    requires TicksMonotone(run)
    ensures var q := Payloads(run, course, provider);
            && Sent(q) == q[..|q| - 1]
            && SendsOnce(Sent(q), Succeeds(run))
            && (Succeeds(run) ==> Sent(q)[|Sent(q)| - 1] == Done(ResultOf(run, course, provider)))
  {
    var q := Payloads(run, course, provider);
    PayloadsShape(run, course, provider);
    ShapeStream(q, Succeeds(run));
    if Succeeds(run) {
      assert Sent(q)[|Sent(q)| - 1] == q[|q| - 2] == Done(ResultOf(run, course, provider));
    }
  }

  lemma ShapeStream(q: seq<Item>, ok: bool)
    requires Shape(q, 0, 10, ok)
    ensures Sent(q) == q[..|q| - 1] && SendsOnce(Sent(q), ok)
    ensures Sent(q)[|Sent(q)| - 1] == q[|q| - 2]
  {
    ShapeSent(q, 0, 10, ok);
    assert Sent(q)[|Sent(q)| - 1] == q[|q| - 2];
  }

  /** On a successful run every progress payload lies in its stage's band,
      and the payloads go forward through the stages and never back. */
  lemma SuccessOrdered(run: UploadRun, course: string, provider: string)
    requires TicksMonotone(run) && Succeeds(run)
    ensures var q := Payloads(run, course, provider);
            && |q| >= 3 && AllProgress(q[..|q| - 2]) && Ordered(q[..|q| - 2]) && Banded(q)
            && q[0] == Progress(Uploading, 10, "Uploading file...")
            && q[|q| - 3] == Progress(Complete, 100, "Processing complete!")
  {
    PayloadsShape(run, course, provider);
  }

  /** `process_async`: pushes the payloads stage by stage. */
  method ProcessAsync(run: UploadRun, course: string, provider: string) returns (queue: seq<Item>)
    ensures queue == Payloads(run, course, provider)
  {
    queue := [Progress(Uploading, 10, "Uploading file..."), Progress(Uploading, 20, "File uploaded successfully"),
              Progress(Extracting, 25, "Extracting text from PDF...")];
    queue := PushHeartbeats(queue, Extracting, 25, "Extracting text... ", run.extractTicks);
    assert queue == Opening(run);
    if run.extraction.Err? {
      queue := queue + ErrorEnd("PDF extraction failed: " + run.extraction.error);
      return;
    }
    var rest := StoreAndSummarize(run, run.extraction.value, course, provider);
    queue := queue + rest;
  }

  /** The payloads a heartbeat loop pushes onto the queue. */
  method PushHeartbeats(queue: seq<Item>, stage: Stage, base: int, caption: string, ticks: seq<nat>)
    returns (next: seq<Item>)
    ensures next == queue + Heartbeats(stage, base, caption, ticks)
  {
    next := queue;
    for k := 0 to |ticks|
      invariant next == queue + Heartbeats(stage, base, caption, ticks[..k])
    {
      var elapsed := ticks[k];
      var progress := base + if elapsed * 2 < 15 then elapsed * 2 else 15;
      next := next + [Progress(stage, progress, caption + NatToString(elapsed) + "s")];
    }
    assert ticks[..|ticks|] == ticks;
  }

  /** The storing and summarizing stages of `process_async`. */
  method StoreAndSummarize(run: UploadRun, x: Extraction, course: string, provider: string)
    returns (queue: seq<Item>)
    ensures queue == AfterExtraction(run, x, course, provider)
  {
    queue := [Progress(Extracting, 40, "Extracted " + NatToString(x.pageCount) + " pages"),
              Progress(Storing, 45, "Creating DB records...")];
    if run.stored.Err? {
      queue := queue + ErrorEnd("Processing error: " + run.stored.error);
      return;
    }
    var id := run.stored.value;
    ghost var head := queue;
    var summarizing := [Progress(Storing, 50, "Document saved (ID " + NatToString(id) + ")"),
                        Progress(Summarizing, 55, "Generating AI summary...")];
    summarizing := PushHeartbeats(summarizing, Summarizing, 55, "Generating summary... ", run.summaryTicks);
    if run.summary.Err? {
      summarizing := summarizing + ErrorEnd("Summary generation failed: " + run.summary.error);
    } else {
      var rest := FinishFromSummary(run, x, id, run.summary.value, course, provider);
      summarizing := summarizing + rest;
    }
    assert summarizing == AfterStoring(run, x, id, course, provider);
    queue := queue + summarizing;
  }

  /** The rest of `process_async` once the summary is generated. */
  method FinishFromSummary(run: UploadRun, x: Extraction, id: nat, summary: string, course: string,
                           provider: string) returns (queue: seq<Item>)
    ensures queue == AfterSummary(run, x, id, summary, course, provider)
  {
    queue := [Progress(Summarizing, 70, "Summary generated successfully")];
    if run.summarySaveError.Some? {
      queue := queue + ErrorEnd("Processing error: " + run.summarySaveError.value);
      return;
    }
    var flashcards := [Progress(GeneratingFlashcards, 75, "Creating flashcards...")];
    flashcards := PushHeartbeats(flashcards, GeneratingFlashcards, 75, "Generating flashcards... ",
                                 run.flashcardTicks);
    if run.flashcards.Err? {
      flashcards := flashcards + ErrorEnd("Flashcard generation failed: " + run.flashcards.error);
    } else {
      var rest := SaveFlashcards(run, x, id, summary, run.flashcards.value, course, provider);
      flashcards := flashcards + rest;
    }
    queue := queue + flashcards;
  }

  /** Saving the flashcards, the per-card payloads and the completion. */
  method SaveFlashcards(run: UploadRun, x: Extraction, id: nat, summary: string, n: nat, course: string,
                        provider: string) returns (queue: seq<Item>)
    ensures queue == AfterFlashcards(run, x, id, summary, n, course, provider)
  {
    queue := [Progress(GeneratingFlashcards, 90, "Generated " + NatToString(n) + " flashcards")];
    if run.flashcardSaveError.Some? {
      queue := queue + ErrorEnd("Processing error: " + run.flashcardSaveError.value);
      return;
    }
    var saves := [];
    for i := 1 to n + 1
      invariant saves == Saves(n)[..i - 1]
    {
      var pct := 90 + (9 * i) / n;
      saves := saves + [Progress(GeneratingFlashcards, pct,
                                 "Saving flashcards (" + NatToString(i) + "/" + NatToString(n) + ")")];
    }
    assert Saves(n)[..n] == Saves(n);
    var finish;
    if run.finalizeError.Some? {
      finish := ErrorEnd("Processing error: " + run.finalizeError.value);
    } else {
      finish := [Progress(Complete, 100, "Processing complete!"),
                 Done(UploadResult(id, x.filename, course, x.pageCount, |summary|, n, provider)),
                 Sentinel];
    }
    queue := queue + (saves + finish);
  }

  /** `generate`: takes payloads off the queue and sends them until the
      sentinel. */
  method Stream(queue: seq<Item>) returns (sent: seq<Item>)
    ensures sent == Sent(queue)
  {
    sent := [];
    var i := 0;
    while i < |queue|
      invariant 0 <= i <= FirstSentinel(queue)
      invariant sent == queue[..i]
    {
      var item := queue[i];
      if item == Sentinel {
        break;
      }
      sent := sent + [item];
      i := i + 1;
    }
  }
}
