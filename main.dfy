/**
 * The command-line runner (src/main.py): how a test-set name is resolved to
 * a file, how a test-set file is validated, which test sets are offered, and
 * the per-prompt loop of `run-test`, which measures each prompt, builds its
 * result record, skips prompts that fail and finally exports the records.
 * The files present in the test-set directory, the parsed JSON and what
 * happens to each prompt (meter start, generation, meter stop) are
 * parameters.
 */
module Benchmark {
  import opened Wrappers
  import opened Text
  import opened Json
  import opened Energy
  import Device
  import Exporter
  import opened Records

  // ---------------------------------------------------------------------
  // Resolving a test-set name

  /** The characters `rstrip(".json")` removes: a set, not a suffix. */
  function JsonChars(): set<char> {
    {'.', 'j', 's', 'o', 'n'}
  }

  /** `testset_name.lower().rstrip(".json")`. */
  function Normalize(name: string): (normalized: string)
    ensures |normalized| <= |name| && normalized == Lower(name)[..|normalized|]
    ensures normalized == [] || normalized[|normalized| - 1] !in JsonChars()
    ensures forall i :: |normalized| <= i < |name| ==> Lower(name)[i] in JsonChars()
  {
    RStripChars(Lower(name), JsonChars())
  }

  /** The file names tried, in order: the normalised name, then its "testset_" form unless it already has that prefix. */
  function CandidateFiles(name: string): (files: seq<string>)
    ensures 1 <= |files| <= 2
    ensures files[0] == Normalize(name) + ".json"
    ensures |files| == 2 <==> !StartsWith(Normalize(name), "testset_")
    ensures |files| == 2 ==> files[1] == "testset_" + Normalize(name) + ".json"
  {
    var normalized := Normalize(name);
    if StartsWith(normalized, "testset_") then [normalized + ".json"]
    else [normalized + ".json", "testset_" + normalized + ".json"]
  }

  /** The file `resolve_testset_path` settles on, given the names present in the test-set directory. */
  function ResolvedFile(name: string, existing: set<string>): (file: Option<string>)
    ensures file.Some? ==> file.value in existing && file.value in CandidateFiles(name)
    ensures file.None? <==> forall c :: c in CandidateFiles(name) ==> c !in existing
    ensures CandidateFiles(name)[0] in existing ==> file == Some(CandidateFiles(name)[0])
  {
    var files := CandidateFiles(name);
    if files[0] in existing then Some(files[0])
    else if |files| == 2 && files[1] in existing then Some(files[1])
    else None
  }

  /** The ways `load_testset` fails: FileNotFoundError, the ValueError cases, and the TypeError of `"prompt" in question` on a non-container. */
  datatype LoadError =
    | FileNotFound
    | InvalidJson
    | NotATestset
    | NoQuestions
    | MissingPrompt
    | PromptCheckTypeError

  /** `resolve_testset_path`: builds the candidate list, then returns the first candidate that exists. */
  method ResolveTestsetPath(name: string, existing: set<string>) returns (r: Result<string, LoadError>)
    ensures r.Success? <==> ResolvedFile(name, existing).Some?
    ensures r.Success? ==> r.value == ResolvedFile(name, existing).value
    ensures r.Failure? ==> r.error == FileNotFound
  {
    var normalized := Normalize(name);
    var suffixCandidates := [normalized];
    if !StartsWith(normalized, "testset_") {
      suffixCandidates := suffixCandidates + ["testset_" + normalized];
    }
    var candidates: seq<string> := [];
    for i := 0 to |suffixCandidates|
      invariant |candidates| == i
      invariant forall k :: 0 <= k < i ==> candidates[k] == suffixCandidates[k] + ".json"
    {
      candidates := candidates + [suffixCandidates[i] + ".json"];
    }
    assert candidates == CandidateFiles(name);
    for i := 0 to |candidates|
      invariant forall k :: 0 <= k < i ==> candidates[k] !in existing
    {
      if candidates[i] in existing {
        return Success(candidates[i]);
      }
    }
    return Failure(FileNotFound);
  }

  // ---------------------------------------------------------------------
  // Loading a test set

  /** A loaded test set: its metadata and its questions. */
  datatype Testset = Testset(metadata: Record, questions: seq<Json>)

  /** `"prompt" in question`: a key of a dict, a substring of a string, an element of a list; TypeError for anything else. */
  function HasPrompt(question: Json): (r: Result<bool, LoadError>)
    ensures r.Failure? <==> !(question.JObj? || question.JStr? || question.JArr?)
    ensures question.JObj? ==> r == Success("prompt" in question.fields)
  {
    match question
    case JObj(fields) => Success("prompt" in fields)
    case JStr(s) => Success(Contains(s, "prompt"))
    case JArr(items) => Success(JStr("prompt") in items)
    case _ => Failure(PromptCheckTypeError)
  }

  /** The check of every question in order: the first one without a prompt decides the error. */
  function PromptCheck(questions: seq<Json>): (r: Outcome<LoadError>)
    ensures r == Pass <==> forall i :: 0 <= i < |questions| ==> HasPrompt(questions[i]) == Success(true)
    ensures r.Fail? ==> r.error == MissingPrompt || r.error == PromptCheckTypeError
  {
    if questions == [] then Pass
    else match HasPrompt(questions[0])
      case Failure(e) => Fail(e)
      case Success(found) =>
        if !found then Fail(MissingPrompt)
        else
          var rest := PromptCheck(questions[1..]);
          assert forall i :: 1 <= i < |questions| ==> questions[i] == questions[1..][i - 1];
          rest
  }

  /**
   * The validation part of `load_testset`: an object with "questions" (the
   * other keys are the metadata), a bare list (metadata names the test set),
   * or ValueError; then a non-empty list of questions that all have a prompt.
   */
  function CheckTestset(name: string, data: Json): (r: Result<Testset, LoadError>)
    ensures r.Success? ==> r.value.questions != []
                           && forall i :: 0 <= i < |r.value.questions| ==> HasPrompt(r.value.questions[i]) == Success(true)
    ensures !(data.JObj? && "questions" in data.fields) && !data.JArr? ==> r == Failure(NotATestset)
    ensures r.Success? && data.JObj? ==>
              r.value.metadata == data.fields - {"questions"} && data.fields["questions"] == JArr(r.value.questions)
    ensures r.Success? && data.JArr? ==>
              r.value.metadata == map["id" := JStr(name), "name" := JStr(name)] && r.value.questions == data.items
    ensures data.JArr? && data.items == [] ==> r == Failure(NoQuestions)
    ensures data.JObj? && "questions" in data.fields ==>
              var qs := data.fields["questions"];
              (!qs.JArr? || qs.items == [] ==> r == Failure(NoQuestions))
              && (qs.JArr? && qs.items != [] ==>
                    (PromptCheck(qs.items) == Pass ==> r.Success?)
                    && (PromptCheck(qs.items).Fail? ==> r == Failure(PromptCheck(qs.items).error)))
    ensures data.JArr? && data.items != [] ==>
              (PromptCheck(data.items) == Pass ==> r.Success?)
              && (PromptCheck(data.items).Fail? ==> r == Failure(PromptCheck(data.items).error))
  {
    var shape: Result<(Record, Json), LoadError> :=
      if data.JObj? && "questions" in data.fields then Success((data.fields - {"questions"}, data.fields["questions"]))
      else if data.JArr? then Success((map["id" := JStr(name), "name" := JStr(name)], data))
      else Failure(NotATestset);
    match shape
    case Failure(e) => Failure(e)
    case Success((metadata, questions)) =>
      if !questions.JArr? || questions.items == [] then Failure(NoQuestions)
      else match PromptCheck(questions.items)
        case Fail(e) => Failure(e)
        case Pass => Success(Testset(metadata, questions.items))
  }

  /**
   * `load_testset`: resolves the file, takes its parsed JSON (None when it is
   * not valid JSON), checks the shape and then every question in a loop.
   */
  method LoadTestset(name: string, existing: set<string>, data: Option<Json>) returns (r: Result<Testset, LoadError>)
    ensures ResolvedFile(name, existing).None? ==> r == Failure(FileNotFound)
    ensures ResolvedFile(name, existing).Some? && data.None? ==> r == Failure(InvalidJson)
    ensures ResolvedFile(name, existing).Some? && data.Some? ==> r == CheckTestset(name, data.value)
  {
    var path := ResolveTestsetPath(name, existing);
    if path.Failure? {
      return Failure(path.error);
    }
    if data.None? {
      return Failure(InvalidJson);
    }
    var metadata: Record;
    var questions: Json;
    if data.value.JObj? && "questions" in data.value.fields {
      questions := data.value.fields["questions"];
      metadata := data.value.fields - {"questions"};
    } else if data.value.JArr? {
      questions := data.value;
      metadata := map["id" := JStr(name), "name" := JStr(name)];
    } else {
      return Failure(NotATestset);
    }
    if !questions.JArr? || questions.items == [] {
      return Failure(NoQuestions);
    }
    var items := questions.items;
    for i := 0 to |items|
      invariant PromptCheck(items) == PromptCheck(items[i..])
    {
      assert items[i..][1..] == items[i + 1..];
      var found := HasPrompt(items[i]);
      if found.Failure? {
        return Failure(found.error);
      }
      if !found.value {
        return Failure(MissingPrompt);
      }
    }
    r := Success(Testset(metadata, items));
  }

  // ---------------------------------------------------------------------
  // Listing test sets

  /** `stem.replace("testset_", "", 1)`: the name a test-set file is offered under. */
  function DisplayName(stem: string): (name: string)
    ensures Find(stem, "testset_") < 0 ==> name == stem
    ensures Find(stem, "testset_") >= 0 ==> |name| == |stem| - 8
    ensures StartsWith(stem, "testset_") ==> name == stem[8..]
  {
    var name := RemoveFirst(stem, "testset_");
    assert StartsWith(stem, "testset_") ==> name == stem[..0] + stem[8..];
    name
  }

  /** The names in increasing code-point order, each once. */
  method SortedNames(names: set<string>) returns (sorted: seq<string>)
    ensures forall n :: n in names <==> n in sorted
    ensures forall i, j :: 0 <= i < j < |sorted| ==> LexLess(sorted[i], sorted[j])
  {
    var rest := names;
    sorted := [];
    while rest != {}
      invariant rest <= names
      invariant forall i :: 0 <= i < |sorted| ==> sorted[i] in names && sorted[i] !in rest
      invariant forall n :: n in names ==> n in sorted || n in rest
      invariant forall i, j :: 0 <= i < j < |sorted| ==> LexLess(sorted[i], sorted[j])
      invariant forall i, y :: 0 <= i < |sorted| && y in rest ==> LexLess(sorted[i], y)
      decreases |rest|
    {
      LeastExists(rest);
      var least :| least in rest && forall y :: y in rest ==> !LexLess(y, least);
      forall y | y in rest && y != least
        ensures LexLess(least, y)
      {
        LexLessTotal(least, y);
      }
      sorted := sorted + [least];
      rest := rest - {least};
    }
  }

  /** `get_available_testsets` over the stems of the `*.json` files: display names, deduplicated and sorted. */
  method GetAvailableTestsets(stems: seq<string>) returns (available: seq<string>)
    ensures forall n :: n in available <==> exists i :: 0 <= i < |stems| && n == DisplayName(stems[i])
    ensures forall i, j :: 0 <= i < j < |available| ==> LexLess(available[i], available[j])
  {
    var names: set<string> := {};
    for i := 0 to |stems|
      invariant forall n :: n in names <==> exists k :: 0 <= k < i && n == DisplayName(stems[k])
    {
      names := names + {DisplayName(stems[i])};
    }
    available := SortedNames(names);
  }

  /** `test_set or legacy_test_set or "easy"`. */
  function SelectedTestSet(testSet: Option<string>, legacyTestSet: Option<string>): (selected: string)
    ensures Text.Present(testSet) ==> selected == testSet.value
    ensures !Text.Present(testSet) && Text.Present(legacyTestSet) ==> selected == legacyTestSet.value
    ensures !Text.Present(testSet) && !Text.Present(legacyTestSet) ==> selected == "easy"
    ensures selected != ""
  {
    if Text.Present(testSet) then testSet.value
    else if Text.Present(legacyTestSet) then legacyTestSet.value
    else "easy"
  }

  // ---------------------------------------------------------------------
  // The prompt loop

  /**
   * How one prompt went: `meter.start()` raised PermissionError (the run
   * exits), `start`, `generate` or `stop` raised something else (the prompt
   * is skipped; after a failed `generate` the meter is never stopped), or
   * it completed.
   */
  datatype PromptRun = StartDenied | StartRaised | GenerateRaised | StopRaised | Completed(completion: Completion)

  datatype Attempt = Attempt(question: Json, run: PromptRun)

  /** The ways the run ends without exporting: `sys.exit(1)` on PermissionError or on no results, an uncaught TypeError or KeyError on a malformed question, or an export failure. */
  datatype RunError = PermissionDenied | MalformedQuestion | NoResults | ExportFailed(error: Exporter.ExportError)

  /** What becomes of one attempt: the run stops, the prompt is skipped, or a record is kept. */
  datatype Step = Abort(error: RunError) | Skip | Keep(record: Record)

  /** `question["prompt"]` exists and is a string or a list of messages, so `generate` can take it. */
  predicate WellFormed(a: Attempt) {
    a.question.JObj? && "prompt" in a.question.fields
    && (a.question.fields["prompt"].JStr? || a.question.fields["prompt"].JArr?)
  }

  /** The attempt does not end the run. */
  predicate Proceeds(a: Attempt) {
    WellFormed(a) && !a.run.StartDenied?
  }

  /** The attempt yields a record. */
  predicate Completes(a: Attempt) {
    WellFormed(a) && a.run.Completed?
  }

  /** The record built for a completed attempt. */
  function KeptRecord(a: Attempt, ctx: RunContext): Record
    requires Completes(a)
  {
    PromptRecord(a.question.fields["prompt"], a.question.fields, a.run.completion, ctx)
  }

  function PromptStep(a: Attempt, ctx: RunContext): (step: Step)
    ensures step.Keep? <==> Completes(a)
    ensures step.Keep? ==> step.record == KeptRecord(a, ctx)
    ensures step.Skip? <==> WellFormed(a) && (a.run.StartRaised? || a.run.GenerateRaised? || a.run.StopRaised?)
    ensures step.Abort? <==> !Proceeds(a)
    ensures !WellFormed(a) ==> step == Abort(MalformedQuestion)
    ensures WellFormed(a) && a.run.StartDenied? ==> step == Abort(PermissionDenied)
  {
    if !a.question.JObj? || "prompt" !in a.question.fields then Abort(MalformedQuestion)
    else
      var prompt := a.question.fields["prompt"];
      if !(prompt.JStr? || prompt.JArr?) then Abort(MalformedQuestion)
      else match a.run
        case StartDenied => Abort(PermissionDenied)
        case Completed(c) => Keep(PromptRecord(prompt, a.question.fields, c, ctx))
        case _ => Skip
  }

  /** The records of the prompt loop, or the error that ended it. */
  function PromptResults(attempts: seq<Attempt>, ctx: RunContext): (r: Result<seq<Record>, RunError>)
    ensures r.Success? ==> |r.value| <= |attempts|
  {
    if attempts == [] then Success([])
    else
      match PromptResults(attempts[..|attempts| - 1], ctx)
      case Failure(e) => Failure(e)
      case Success(results) =>
        match PromptStep(attempts[|attempts| - 1], ctx)
        case Abort(e) => Failure(e)
        case Skip => Success(results)
        case Keep(rec) => Success(results + [rec])
  }

  /** The end of `run_test`: exit when no prompt produced a record, otherwise export the records. */
  function RunOutcome(attempts: seq<Attempt>, ctx: RunContext, co2Intensity: real, schema: Exporter.SchemaFile, writeOk: bool)
    : (r: Result<seq<Record>, RunError>)
    ensures r.Success? ==> PromptResults(attempts, ctx).Success? && PromptResults(attempts, ctx).value != []
  {
    match PromptResults(attempts, ctx)
    case Failure(e) => Failure(e)
    case Success(results) =>
      if results == [] then Failure(NoResults)
      else match Exporter.ExportOutcome(results, co2Intensity, schema, writeOk)
        case Failure(e) => Failure(ExportFailed(e))
        case Success(written) => Success(written)
  }

  /** The prompt loop of `run_test`: the records kept, or the error that ended the run. */
  method PromptLoop(attempts: seq<Attempt>, ctx: RunContext) returns (r: Result<seq<Record>, RunError>)
    ensures r == PromptResults(attempts, ctx)
  {
    var results: seq<Record> := [];
    for i := 0 to |attempts|
      invariant PromptResults(attempts[..i], ctx).Success? && PromptResults(attempts[..i], ctx).value == results
    {
      PromptResultsExtend(attempts, i, ctx);
      var question := attempts[i].question;
      if !question.JObj? || "prompt" !in question.fields {
        PromptResultsAbort(attempts, i + 1, ctx);
        return Failure(MalformedQuestion);
      }
      var prompt := question.fields["prompt"];
      if !(prompt.JStr? || prompt.JArr?) {
        PromptResultsAbort(attempts, i + 1, ctx);
        return Failure(MalformedQuestion);
      }
      match attempts[i].run {
        case StartDenied =>
          PromptResultsAbort(attempts, i + 1, ctx);
          return Failure(PermissionDenied);
        case Completed(c) =>
          var result := BuildRecord(prompt, question.fields, c, ctx);
          results := results + [result];
        case _ =>
      }
    }
    assert attempts[..|attempts|] == attempts;
    r := Success(results);
  }

  /** The prompt loop of `run_test` and the export after it. */
  method RunPrompts(attempts: seq<Attempt>, ctx: RunContext, co2Intensity: real, schema: Exporter.SchemaFile, writeOk: bool)
    returns (r: Result<seq<Record>, RunError>)
    ensures r == RunOutcome(attempts, ctx, co2Intensity, schema, writeOk)
  {
    var loop := PromptLoop(attempts, ctx);
    if loop.Failure? {
      return Failure(loop.error);
    }
    var results := loop.value;
    if results == [] {
      return Failure(NoResults);
    }
    var exported := Exporter.ExportResults(results, co2Intensity, schema, writeOk);
    if exported.Failure? {
      return Failure(ExportFailed(exported.error));
    }
    r := Success(exported.value);
  }

  // ---------------------------------------------------------------------
  // Properties

  /** One more attempt after a prefix that went through: its step decides what the longer prefix gives. */
  lemma PromptResultsExtend(attempts: seq<Attempt>, i: nat, ctx: RunContext)
    requires i < |attempts| && PromptResults(attempts[..i], ctx).Success?
    ensures PromptStep(attempts[i], ctx).Skip? ==> PromptResults(attempts[..i + 1], ctx) == PromptResults(attempts[..i], ctx)
    ensures PromptStep(attempts[i], ctx).Keep? ==>
              PromptResults(attempts[..i + 1], ctx)
              == Success(PromptResults(attempts[..i], ctx).value + [PromptStep(attempts[i], ctx).record])
  {
    assert attempts[..i + 1][..i] == attempts[..i];
  }

  /** An attempt that ends the run ends it, whatever comes after it. */
  lemma PromptResultsAbort(attempts: seq<Attempt>, n: nat, ctx: RunContext)
    requires 0 < n <= |attempts|
    requires PromptResults(attempts[..n - 1], ctx).Success?
    requires PromptStep(attempts[n - 1], ctx).Abort?
    ensures PromptResults(attempts, ctx) == Failure(PromptStep(attempts[n - 1], ctx).error)
  {
    assert attempts[..n][..n - 1] == attempts[..n - 1];
    FailureSticks(attempts, n, ctx);
  }

  /** Once a prefix of the attempts has failed, the whole loop fails the same way. */
  lemma {:induction false} FailureSticks(attempts: seq<Attempt>, n: nat, ctx: RunContext)
    requires n <= |attempts|
    requires PromptResults(attempts[..n], ctx).Failure?
    ensures PromptResults(attempts, ctx) == PromptResults(attempts[..n], ctx)
    decreases |attempts| - n
  {
    if n < |attempts| {
      assert attempts[..n + 1][..n] == attempts[..n];
      FailureSticks(attempts, n + 1, ctx);
    } else {
      assert attempts[..n] == attempts;
    }
  }

  /** The number of attempts that completed. */
  function CountCompleted(attempts: seq<Attempt>): nat {
    if attempts == [] then 0
    else CountCompleted(attempts[..|attempts| - 1]) + (if attempts[|attempts| - 1].run.Completed? then 1 else 0)
  }

  /**
   * A failing prompt does not stop the loop: when the run goes through, it
   * holds one record per completed prompt.
   */
  lemma {:induction false} OneRecordPerCompletedPrompt(attempts: seq<Attempt>, ctx: RunContext)
    requires PromptResults(attempts, ctx).Success?
    ensures |PromptResults(attempts, ctx).value| == CountCompleted(attempts)
  {
    if attempts != [] {
      OneRecordPerCompletedPrompt(attempts[..|attempts| - 1], ctx);
    }
  }

  /** A well-formed prompt whose `start`, `generate` or `stop` raised leaves the records exactly as they were. */
  lemma SkippedPromptLeavesNoTrace(attempts: seq<Attempt>, a: Attempt, ctx: RunContext)
    requires WellFormed(a) && (a.run.StartRaised? || a.run.GenerateRaised? || a.run.StopRaised?)
    ensures PromptResults(attempts + [a], ctx) == PromptResults(attempts, ctx)
  {
    assert (attempts + [a])[..|attempts|] == attempts;
  }

  /** Every attempt proceeds. */
  predicate AllProceed(attempts: seq<Attempt>) {
    forall i :: 0 <= i < |attempts| ==> Proceeds(attempts[i])
  }

  /** The loop goes through exactly when no question is malformed and `start` is never denied. */
  lemma {:induction false} PromptResultsSucceed(attempts: seq<Attempt>, ctx: RunContext)
    ensures PromptResults(attempts, ctx).Success? <==> AllProceed(attempts)
  {
    if attempts != [] {
      var init, last := attempts[..|attempts| - 1], attempts[|attempts| - 1];
      PromptResultsSucceed(init, ctx);
      assert AllProceed(attempts) <==> AllProceed(init) && Proceeds(last) by {
        assert forall i :: 0 <= i < |init| ==> init[i] == attempts[i];
        if AllProceed(init) && Proceeds(last) {
          forall i | 0 <= i < |attempts|
            ensures Proceeds(attempts[i])
          {
            if i < |init| { assert Proceeds(init[i]); }
          }
        }
      }
    }
  }

  /** The records of the completed attempts, in order, one each. */
  function CompletedRecords(attempts: seq<Attempt>, ctx: RunContext): seq<Record> {
    if attempts == [] then []
    else
      var last := attempts[|attempts| - 1];
      CompletedRecords(attempts[..|attempts| - 1], ctx) + (if Completes(last) then [KeptRecord(last, ctx)] else [])
  }

  /** When the loop goes through, its records are those of the completed prompts, one each and in order. */
  lemma {:induction false} ResultsAreCompletedRecords(attempts: seq<Attempt>, ctx: RunContext)
    requires PromptResults(attempts, ctx).Success?
    ensures PromptResults(attempts, ctx).value == CompletedRecords(attempts, ctx)
  {
    if attempts != [] {
      var init, last := attempts[..|attempts| - 1], attempts[|attempts| - 1];
      ResultsAreCompletedRecords(init, ctx);
    }
  }

  /** What `export_results` needs of a record: number-valued token counts, and a net energy equal to the raw energy. */
  predicate Exportable(rec: Record) {
    "energy_wh_raw" in rec && rec["energy_wh_raw"].JReal? && Exporter.NetEnergy(rec) == rec["energy_wh_raw"]
    && Exporter.TokensPrompt(rec).JInt? && Exporter.TokensCompletion(rec).JInt?
  }

  /** Every record of the sequence is exportable. */
  predicate AllExportable(records: seq<Record>) {
    forall i :: 0 <= i < |records| ==> Exportable(records[i])
  }

  /** Every record the loop keeps is exportable. */
  lemma {:induction false} RecordsExportable(attempts: seq<Attempt>, ctx: RunContext)
    requires PromptResults(attempts, ctx).Success?
    ensures AllExportable(PromptResults(attempts, ctx).value)
  {
    if attempts != [] {
      var last := attempts[|attempts| - 1];
      RecordsExportable(attempts[..|attempts| - 1], ctx);
      match PromptStep(last, ctx)
      case Keep(rec) => KeptRecordExportable(last, ctx);
      case _ =>
    }
  }

  /** The record kept for a completed prompt is exportable. */
  lemma KeptRecordExportable(a: Attempt, ctx: RunContext)
    requires PromptStep(a, ctx).Keep?
    ensures Exportable(PromptStep(a, ctx).record)
  {
  }

  /**
   * A run whose loop kept at least one record, with no schema or a schema
   * the records conform to and a successful write, exports one enriched
   * record per completed prompt.
   */
  lemma RunExports(attempts: seq<Attempt>, ctx: RunContext, co2Intensity: real, schema: Exporter.SchemaFile)
    requires PromptResults(attempts, ctx).Success? && PromptResults(attempts, ctx).value != []
    requires schema == Exporter.NoSchema || schema == Exporter.Schema(true)
    ensures RunOutcome(attempts, ctx, co2Intensity, schema, true).Success?
    ensures |RunOutcome(attempts, ctx, co2Intensity, schema, true).value| == CountCompleted(attempts)
  {
    var results := PromptResults(attempts, ctx).value;
    RecordsExportable(attempts, ctx);
    OneRecordPerCompletedPrompt(attempts, ctx);
    forall i | 0 <= i < |results|
      ensures Exporter.EnrichRecord(results[i], co2Intensity).Success?
    {
      assert Exportable(results[i]);
    }
    Exporter.ExportWritesEnriched(results, co2Intensity, schema);
  }

  /** The normalised name drops a trailing ".json" and, with it, any trailing 'j', 's', 'o', 'n' or '.' of the name itself. */
  lemma JsonSuffixDropped(stem: string)
    requires stem != [] && LowerChar(stem[|stem| - 1]) !in JsonChars()
    ensures Normalize(stem + ".json") == Lower(stem)
  {
    var full := stem + ".json";
    assert Lower(full) == Lower(stem) + ".json";
    assert Lower(full)[..|stem|] == Lower(stem);
  }
}
