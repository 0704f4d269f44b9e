/** src/orchestrator/swarm_controller.py: `run_refactoring_swarm` runs
    Audit → Fix → (GenerateTests) → Judge passes until the tests pass, a pass
    raises or `max_iterations` passes have run; a failing pass that is not the
    last one asks the Fixer to retry every source file the test errors
    mention.  What the agents and `os.listdir` return during pass `k` is the
    input `env(k)`; the agents themselves are modelled in Auditor, Fixer and
    Judge.  The agent calls the controller makes are recorded as a trace. */
module SwarmController {
  import opened Wrappers
  import opened Text
  import opened SwarmLoop
  import Auditor
  import Fixer
  import Judge

  /** What pass `k` is given: the audit report (or the exception `analyze`
      raised), the Fixer's result, the listing of `target_dir` read before test
      generation and the one read before the retries, and the Judge's result
      (`test` catches its own exceptions). */
  datatype PassEnv = PassEnv(
    audit: Result<Auditor.AuditReport>,
    fix: Result<Fixer.FixResult>,
    testListing: Result<seq<string>>,
    retryListing: Result<seq<string>>,
    judge: Judge.JudgeResult)

  /** The agent calls the controller makes.  The retries of one pass are a
      single entry mapping each file to its error message, since Python walks
      a set whose order is not modelled; an empty map means none was made. */
  datatype Call =
    | FixCall(report: Auditor.AuditReport)
    | GenerateTestsCall(filename: string)
    | RetryFixCalls(plan: map<string, string>)
    | GenerateDocsCall(filename: string)

  /** The dictionary `run_refactoring_swarm` returns. */
  datatype FinalReport = FinalReport(result: SwarmResult, targetDir: string, modelUsed: string)

  // ---------------------------------------------------------------------------
  // File filters (src/orchestrator/swarm_controller.py:141-153, 207-210, 273-282)
  // ---------------------------------------------------------------------------

  /** The files tests and documentation are generated for. */
  predicate IsModule(f: string) {
    EndsWith(f, ".py") && !StartsWith(f, "test_") && f != "__init__.py"
  }

  /** The files a retry may target (`__init__.py` included). */
  predicate IsRetryCandidate(f: string) {
    EndsWith(f, ".py") && !StartsWith(f, "test_")
  }

  /** `[f for f in os.listdir(target_dir) if ...]` for the generation steps. */
  function Modules(listing: seq<string>): (r: seq<string>)
    ensures forall f :: f in r <==> f in listing && IsModule(f)
  {
    if |listing| == 0 then []
    else Modules(listing[..|listing| - 1]) + (if IsModule(listing[|listing| - 1]) then [listing[|listing| - 1]] else [])
  }

  /** The same comprehension for the retry step. */
  function RetryCandidates(listing: seq<string>): (r: seq<string>)
    ensures forall f :: f in r <==> f in listing && IsRetryCandidate(f)
  {
    if |listing| == 0 then []
    else RetryCandidates(listing[..|listing| - 1]) + (if IsRetryCandidate(listing[|listing| - 1]) then [listing[|listing| - 1]] else [])
  }

  /** Test files and documentation files are generated by the same scan. */
  datatype Output = Tests | Docs

  /** `test_<f>` or `README_<f without .py>.md` */
  function OutputName(kind: Output, f: string): string {
    match kind
    case Tests => Fixer.TestFileName(f)
    case Docs => Fixer.DocFileName(f)
  }

  function GenerateCall(kind: Output, f: string): Call {
    match kind
    case Tests => GenerateTestsCall(f)
    case Docs => GenerateDocsCall(f)
  }

  /** The generation calls made for `files` (a prefix of the modules), in
      order: one per file whose output is not in the listing. */
  function MissingOutputs(kind: Output, files: seq<string>, listing: seq<string>): seq<Call> {
    if |files| == 0 then []
    else
      var f := files[|files| - 1];
      MissingOutputs(kind, files[..|files| - 1], listing) + (if OutputName(kind, f) !in listing then [GenerateCall(kind, f)] else [])
  }

  /** The generation loop (src/orchestrator/swarm_controller.py:141-162 and 273-290):
      a generation whose Fixer call raises is only reported, so every missing
      output gets exactly one call. */
  method GenerateMissing(kind: Output, listing: seq<string>) returns (calls: seq<Call>)
    ensures calls == MissingOutputs(kind, Modules(listing), listing)
  {
    var files := Modules(listing);
    calls := [];
    for i := 0 to |files|
      invariant calls == MissingOutputs(kind, files[..i], listing)
    {
      assert files[..i + 1][..i] == files[..i];
      if OutputName(kind, files[i]) !in listing {
        calls := calls + [GenerateCall(kind, files[i])];
      }
    }
    assert files[..|files|] == files;
  }

  /** The generation calls are exactly one per listed module whose output
      file is not listed, in listing order, and of the requested kind. */
  lemma {:induction false} MissingOutputsFacts(kind: Output, files: seq<string>, listing: seq<string>)
    ensures forall c | c in MissingOutputs(kind, files, listing) ::
      (kind == Tests ==> c.GenerateTestsCall?) && (kind == Docs ==> c.GenerateDocsCall?)
    ensures forall f :: GenerateCall(kind, f) in MissingOutputs(kind, files, listing) <==>
      f in files && OutputName(kind, f) !in listing
  {
    if |files| > 0 {
      MissingOutputsFacts(kind, files[..|files| - 1], listing);
      assert files == files[..|files| - 1] + [files[|files| - 1]];
    }
  }

  // ---------------------------------------------------------------------------
  // Retry targets (src/orchestrator/swarm_controller.py:202-231)
  // ---------------------------------------------------------------------------

  /** The stem of a file: its name with every `.py` removed. */
  function Stem(f: string): string {
    ReplaceAll(f, ".py", "")
  }

  /** An error mentions a file when it contains the file's name or its stem. */
  predicate Mentions(error: string, f: string) {
    Contains(error, f) || Contains(error, Stem(f))
  }

  /** Some error mentions `f`. */
  predicate IsProblematic(errors: seq<string>, f: string) {
    exists e | e in errors :: Mentions(e, f)
  }

  /** The set the nested loops fill. */
  function Problematic(errors: seq<string>, files: seq<string>): set<string> {
    set f | f in files && IsProblematic(errors, f)
  }

  /** The nested loops of lines 212-216. */
  method ProblematicFiles(errors: seq<string>, files: seq<string>) returns (found: set<string>)
    ensures found == Problematic(errors, files)
  {
    found := {};
    for i := 0 to |errors|
      invariant found == Problematic(errors[..i], files)
    {
      for j := 0 to |files|
        invariant found == Problematic(errors[..i], files) + set f | f in files[..j] && Mentions(errors[i], f)
      {
        assert files[..j + 1] == files[..j] + [files[j]];
        if Mentions(errors[i], files[j]) {
          found := found + {files[j]};
        }
      }
      assert files[..|files|] == files;
      assert errors[..i + 1] == errors[..i] + [errors[i]];
    }
    assert errors[..|errors|] == errors;
  }

  /** The errors that contain the file's full name, in order. */
  function FileErrors(errors: seq<string>, f: string): (r: seq<string>)
    ensures forall e :: e in r <==> e in errors && Contains(e, f)
  {
    if |errors| == 0 then []
    else FileErrors(errors[..|errors| - 1], f) + (if Contains(errors[|errors| - 1], f) then [errors[|errors| - 1]] else [])
  }

  /** At most the first three of a list. */
  function FirstThree(xs: seq<string>): (r: seq<string>)
    ensures |r| <= 3 && |r| <= |xs| && r == xs[..|r|] && (|xs| <= 3 ==> r == xs)
  {
    if |xs| <= 3 then xs else xs[..3]
  }

  /** The retry message of a file: its first three errors, one per line. */
  function RetryMessage(errors: seq<string>, f: string): string {
    Join("\n", FirstThree(FileErrors(errors, f)))
  }

  /** The retry each problematic file gets. */
  function RetryPlan(errors: seq<string>, listing: seq<string>): map<string, string> {
    var targets := Problematic(errors, RetryCandidates(listing));
    map f | f in targets :: RetryMessage(errors, f)
  }

  /** `for filename in problematic_files`: a retry whose Fixer call raises is
      only reported, so every problematic file gets exactly one call. */
  method RetryFiles(errors: seq<string>, targets: set<string>) returns (plan: map<string, string>)
    ensures plan == map f | f in targets :: RetryMessage(errors, f)
  {
    plan := map[];
    var remaining := targets;
    while remaining != {}
      invariant remaining <= targets
      invariant plan == map f | f in targets - remaining :: RetryMessage(errors, f)
      decreases |remaining|
    {
      var filename :| filename in remaining;
      plan := plan[filename := RetryMessage(errors, filename)];
      remaining := remaining - {filename};
    }
  }

  /** The message names no error when no error contains the full file
      name, and is exactly that error when only one does. */
  lemma RetryMessageFacts(errors: seq<string>, f: string)
    ensures (forall e | e in errors :: !Contains(e, f)) ==> RetryMessage(errors, f) == ""
    ensures |FileErrors(errors, f)| == 1 ==> RetryMessage(errors, f) == FileErrors(errors, f)[0]
  {
    if |FileErrors(errors, f)| > 0 {
      assert FileErrors(errors, f)[0] in FileErrors(errors, f);
    }
  }

  /** A listed non-test `.py` file is retried iff some error mentions its
      name or its stem, with the message built from its own errors. */
  lemma RetryPlanFacts(errors: seq<string>, listing: seq<string>, f: string)
    ensures f in RetryPlan(errors, listing) <==>
      f in listing && IsRetryCandidate(f) && exists e | e in errors :: Mentions(e, f)
    ensures f in RetryPlan(errors, listing) ==> RetryPlan(errors, listing)[f] == RetryMessage(errors, f)
  {
  }

  /** The stem match over-approximates: a file whose stem alone occurs in
      an error (stem `e` of `e.py` in any `AssertionError`) is retried, with
      the empty message since no error names it in full. */
  lemma StemOnlyRetry(errors: seq<string>, listing: seq<string>, f: string, error: string)
    requires f in listing && IsRetryCandidate(f)
    requires error in errors && Contains(error, Stem(f))
    requires forall e | e in errors :: !Contains(e, f)
    ensures f in RetryPlan(errors, listing) && RetryPlan(errors, listing)[f] == ""
  {
    RetryPlanFacts(errors, listing, f);
    RetryMessageFacts(errors, f);
  }

  // ---------------------------------------------------------------------------
  // One pass (src/orchestrator/swarm_controller.py:89-263)
  // ---------------------------------------------------------------------------

  /** The fixes a pass applies: none when the audit found nothing, else the
      Fixer's count, or the exception it raised. */
  function FixStage(e: PassEnv, report: Auditor.AuditReport): Result<int> {
    if report.totalIssues == 0 then Ok(0)
    else if e.fix.Ok? then Ok(e.fix.value.totalFixes)
    else Err(e.fix.error)
  }

  function FixCalls(report: Auditor.AuditReport): seq<Call> {
    if report.totalIssues == 0 then [] else [FixCall(report)]
  }

  /** The test generation calls of pass `k`, or the exception `os.listdir` raised. */
  function GenerationStage(e: PassEnv, k: int, generateTests: bool): Result<seq<Call>> {
    if generateTests && k == 1 then
      match e.testListing
      case Err(err) => Err(err)
      case Ok(listing) => Ok(MissingOutputs(Tests, Modules(listing), listing))
    else Ok([])
  }

  /** The decision after the Judge (lines 186-240): success, or the record
      after the retries unless this is the last allowed pass. */
  function JudgeStage(e: PassEnv, k: int, maxIterations: int, record: PassRecord, before: seq<Call>): PassStep<Call> {
    if e.judge.success then PassStep(Succeeded, before)
    else if k < maxIterations then
      match e.retryListing
      case Err(_) => PassStep(PassEnd.Raised, before)
      case Ok(listing) => PassStep(Failed(record), before + [RetryFixCalls(RetryPlan(e.judge.errors, listing))])
    else PassStep(Failed(record), before)
  }

  /** What one pass does: the audit, the fix (skipped when nothing was found),
      test generation on the first pass only, the Judge, then success or a
      record.  Any exception escaping a step ends the pass with `Raised`. */
  function NewPass(e: PassEnv, k: int, maxIterations: int, generateTests: bool): PassStep<Call> {
    match e.audit
    case Err(_) => PassStep(PassEnd.Raised, [])
    case Ok(report) =>
      match FixStage(e, report)
      case Err(_) => PassStep(PassEnd.Raised, FixCalls(report))
      case Ok(fixes) =>
        match GenerationStage(e, k, generateTests)
        case Err(_) => PassStep(PassEnd.Raised, FixCalls(report))
        case Ok(genCalls) =>
          var record := PassRecord(k, report.totalIssues, fixes, e.judge.passed, e.judge.failed);
          JudgeStage(e, k, maxIterations, record, FixCalls(report) + genCalls)
  }

  /** The body of the `while` loop, down to its `try`/`except`. */
  method RunPass(e: PassEnv, k: int, maxIterations: int, generateTests: bool) returns (p: PassStep<Call>)
    ensures p == NewPass(e, k, maxIterations, generateTests)
  {
    if e.audit.Err? {
      return PassStep(PassEnd.Raised, []);
    }
    var report := e.audit.value;
    var calls: seq<Call> := [];
    var fixesApplied: int;
    if report.totalIssues == 0 {
      fixesApplied := 0;
    } else {
      calls := [FixCall(report)];
      if e.fix.Err? {
        return PassStep(PassEnd.Raised, calls);
      }
      fixesApplied := e.fix.value.totalFixes;
    }
    assert FixStage(e, report) == Ok(fixesApplied) && calls == FixCalls(report);
    if generateTests && k == 1 {
      if e.testListing.Err? {
        return PassStep(PassEnd.Raised, calls);
      }
      var generated := GenerateMissing(Tests, e.testListing.value);
      calls := calls + generated;
    }
    assert GenerationStage(e, k, generateTests).Ok? && calls == FixCalls(report) + GenerationStage(e, k, generateTests).value;
    var testResult := e.judge;
    var record := PassRecord(k, report.totalIssues, fixesApplied, testResult.passed, testResult.failed);
    if testResult.success {
      return PassStep(Succeeded, calls);
    }
    if k < maxIterations {
      if e.retryListing.Err? {
        return PassStep(PassEnd.Raised, calls);
      }
      var candidates := RetryCandidates(e.retryListing.value);
      var targets := ProblematicFiles(testResult.errors, candidates);
      var plan := RetryFiles(testResult.errors, targets);
      calls := calls + [RetryFixCalls(plan)];
    }
    p := PassStep(Failed(record), calls);
  }

  /** The audit reached the Judge: it did not raise, and the fix was skipped
      or did not raise. */
  predicate FixPassed(e: PassEnv) {
    e.audit.Ok? && (e.audit.value.totalIssues == 0 || e.fix.Ok?)
  }

  /** The Fixer is called iff the audit found issues, with that report; a
      pass with no issues records no fixes. */
  lemma PassFix(e: PassEnv, k: int, maxIterations: int, generateTests: bool)
    ensures var p := NewPass(e, k, maxIterations, generateTests);
      && (forall c | c in p.calls && c.FixCall? :: e.audit.Ok? && c.report == e.audit.value)
      && ((exists c | c in p.calls :: c.FixCall?) <==> e.audit.Ok? && e.audit.value.totalIssues != 0)
      && (p.end.Failed? ==> e.audit.Ok? && p.end.record.issuesDetected == e.audit.value.totalIssues)
      && (p.end.Failed? && e.audit.value.totalIssues == 0 ==> p.end.record.fixesApplied == 0)
  {
    var p := NewPass(e, k, maxIterations, generateTests);
    if e.testListing.Ok? {
      MissingOutputsFacts(Tests, Modules(e.testListing.value), e.testListing.value);
    }
    if e.audit.Ok? && e.audit.value.totalIssues != 0 {
      assert p.calls[0] == FixCall(e.audit.value);
    }
  }

  /** The Judge stage keeps the calls made before it and adds at most the
      retry call. */
  lemma JudgeStageCalls(e: PassEnv, k: int, maxIterations: int, record: PassRecord, before: seq<Call>)
    ensures var calls := JudgeStage(e, k, maxIterations, record, before).calls;
      forall c :: c in calls <==> c in before || (c.RetryFixCalls? && c in calls)
  {
  }

  /** Tests are generated only on pass 1 with `generate_tests` set, once the
      fix has not raised and the listing was read: exactly for the listed
      modules with no `test_<f>` listed beside them. */
  lemma PassTestGeneration(e: PassEnv, k: int, maxIterations: int, generateTests: bool, f: string)
    ensures GenerateTestsCall(f) in NewPass(e, k, maxIterations, generateTests).calls <==>
      generateTests && k == 1 && FixPassed(e) && e.testListing.Ok?
      && f in e.testListing.value && IsModule(f) && Fixer.TestFileName(f) !in e.testListing.value
    ensures forall c | c in NewPass(e, k, maxIterations, generateTests).calls :: !c.GenerateDocsCall?
  {
    var p := NewPass(e, k, maxIterations, generateTests);
    if e.audit.Ok? {
      var report := e.audit.value;
      var gen := GenerationStage(e, k, generateTests);
      if FixStage(e, report).Ok? && gen.Ok? {
        var before := FixCalls(report) + gen.value;
        var record := PassRecord(k, report.totalIssues, FixStage(e, report).value, e.judge.passed, e.judge.failed);
        assert p == JudgeStage(e, k, maxIterations, record, before);
        JudgeStageCalls(e, k, maxIterations, record, before);
        if e.testListing.Ok? && generateTests && k == 1 {
          var listing := e.testListing.value;
          MissingOutputsFacts(Tests, Modules(listing), listing);
          assert gen.value == MissingOutputs(Tests, Modules(listing), listing);
          assert GenerateTestsCall(f) == GenerateCall(Tests, f);
        } else {
          assert gen.value == [];
        }
        assert GenerateTestsCall(f) in p.calls <==> GenerateTestsCall(f) in gen.value;
      } else {
        assert forall c | c in p.calls :: c.FixCall?;
      }
    }
  }

  /** Retries happen only after a failed Judge on a pass before the last,
      and follow the plan built from the Judge's errors. */
  lemma PassRetry(e: PassEnv, k: int, maxIterations: int, generateTests: bool, plan: map<string, string>)
    requires RetryFixCalls(plan) in NewPass(e, k, maxIterations, generateTests).calls
    ensures k < maxIterations && !e.judge.success && e.retryListing.Ok?
    ensures NewPass(e, k, maxIterations, generateTests).end.Failed?
    ensures plan == RetryPlan(e.judge.errors, e.retryListing.value)
  {
    var p := NewPass(e, k, maxIterations, generateTests);
    var report := e.audit.value;
    var gen := GenerationStage(e, k, generateTests);
    assert FixStage(e, report).Ok? && gen.Ok?;
    if e.testListing.Ok? && generateTests && k == 1 {
      var listing := e.testListing.value;
      MissingOutputsFacts(Tests, Modules(listing), listing);
    }
    var before := FixCalls(report) + gen.value;
    assert RetryFixCalls(plan) !in before;
    var record := PassRecord(k, report.totalIssues, FixStage(e, report).value, e.judge.passed, e.judge.failed);
    assert p == JudgeStage(e, k, maxIterations, record, before);
  }

  /** The pass record: numbered by its pass, with the audit's issue count
      and the Judge's counts, and only when the Judge failed. */
  lemma PassRecordFacts(e: PassEnv, k: int, maxIterations: int, generateTests: bool)
    requires NewPass(e, k, maxIterations, generateTests).end.Failed?
    ensures var r := NewPass(e, k, maxIterations, generateTests).end.record;
      && r.iteration == k && !e.judge.success && e.audit.Ok?
      && r.issuesDetected == e.audit.value.totalIssues
      && r.testsPassed == e.judge.passed && r.testsFailed == e.judge.failed
  {
  }

  /** A pass succeeds iff it reaches the Judge and the Judge succeeds, and
      it fails iff it reaches the Judge, the Judge fails and the retry listing
      (when retries are due) was read. */
  lemma PassEnds(e: PassEnv, k: int, maxIterations: int, generateTests: bool)
    ensures var p := NewPass(e, k, maxIterations, generateTests);
      var reached := FixPassed(e) && !(generateTests && k == 1 && e.testListing.Err?);
      && (p.end.Succeeded? <==> reached && e.judge.success)
      && (p.end.Failed? <==> reached && !e.judge.success && (k >= maxIterations || e.retryListing.Ok?))
  {
  }

  // ---------------------------------------------------------------------------
  // The whole run (src/orchestrator/swarm_controller.py:22-332)
  // ---------------------------------------------------------------------------

  /** Pass `k` of a run. */
  function Steps(env: int -> PassEnv, maxIterations: int, generateTests: bool): int -> PassStep<Call> {
    k => NewPass(env(k), k, maxIterations, generateTests)
  }

  /** The result and the calls of a run.  `targetExists` is `os.path.exists(target_dir)`
      and `docsListing` the listing read before documentation is generated. */
  function SwarmOutcome(targetExists: bool, targetDir: string, modelName: string, maxIterations: int,
                        generateTests: bool, generateDocs: bool, env: int -> PassEnv,
                        docsListing: Result<seq<string>>): (Result<FinalReport>, seq<Call>)
  {
    if !targetExists then (Err(FileNotFoundError), [])
    else
      var s := FinalState(maxIterations, Steps(env, maxIterations, generateTests));
      if s.success && generateDocs && docsListing.Err? then (Err(docsListing.error), s.calls)
      else
        var docCalls := if s.success && generateDocs then MissingOutputs(Docs, Modules(docsListing.value), docsListing.value) else [];
        (Ok(FinalReport(ResultOf(maxIterations, s), targetDir, modelName)), s.calls + docCalls)
  }

  /** The whole run of `run_refactoring_swarm`: it computes `SwarmOutcome`. */
  method RunRefactoringSwarm(targetExists: bool, targetDir: string, modelName: string, maxIterations: int,
                             generateTests: bool, generateDocs: bool, env: int -> PassEnv,
                             docsListing: Result<seq<string>>)
    returns (r: Result<FinalReport>, calls: seq<Call>)
    ensures (r, calls) == SwarmOutcome(targetExists, targetDir, modelName, maxIterations,
                                       generateTests, generateDocs, env, docsListing)
  {
    if !targetExists {
      return Err(FileNotFoundError), [];
    }
    ghost var step := Steps(env, maxIterations, generateTests);
    ghost var budget := Budget(maxIterations);
    var iteration: nat := 0;
    var allTestsPassed := false;
    var history: seq<PassRecord> := [];
    calls := [];
    while iteration < maxIterations && !allTestsPassed
      invariant iteration <= budget && !allTestsPassed
      invariant RunUpTo(step, iteration) == LoopState(iteration, false, history, false, calls)
    {
      iteration := iteration + 1;
      var p := RunPass(env(iteration), iteration, maxIterations, generateTests);
      assert p == step(iteration);
      calls := calls + p.calls;
      match p.end {
        case Succeeded =>
          allTestsPassed := true;
          RunStable(step, iteration, budget);
          break;
        case Failed(record) =>
          history := history + [record];
        case Raised =>
          RunStable(step, iteration, budget);
          break;
      }
    }
    assert FinalState(maxIterations, step) == LoopState(iteration, allTestsPassed, history, FinalState(maxIterations, step).stopped, calls);
    if allTestsPassed && generateDocs {
      if docsListing.Err? {
        return Err(docsListing.error), calls;
      }
      var docCalls := GenerateMissing(Docs, docsListing.value);
      calls := calls + docCalls;
    }
    var result := SwarmResult(allTestsPassed, iteration, iteration >= maxIterations && !allTestsPassed, history);
    r := Ok(FinalReport(result, targetDir, modelName));
    ghost var o := SwarmOutcome(targetExists, targetDir, modelName, maxIterations, generateTests, generateDocs, env, docsListing);
    assert o.1 == calls;
    assert o.0 == r;
  }

  /** Every history record is numbered by its position, starting from 1,
      and holds the audit's issue count and the Judge's counts of a pass whose
      Judge failed. */
  lemma HistoryFacts(env: int -> PassEnv, maxIterations: int, generateTests: bool)
    ensures var h := FinalState(maxIterations, Steps(env, maxIterations, generateTests)).history;
      forall k | 1 <= k <= |h| ::
        && h[k - 1].iteration == k
        && !env(k).judge.success && env(k).audit.Ok?
        && h[k - 1].issuesDetected == env(k).audit.value.totalIssues
        && h[k - 1].testsPassed == env(k).judge.passed && h[k - 1].testsFailed == env(k).judge.failed
  {
    var step := Steps(env, maxIterations, generateTests);
    RunFacts(step, Budget(maxIterations));
    var h := FinalState(maxIterations, step).history;
    forall k | 1 <= k <= |h|
      ensures && h[k - 1].iteration == k
              && !env(k).judge.success && env(k).audit.Ok?
              && h[k - 1].issuesDetected == env(k).audit.value.totalIssues
              && h[k - 1].testsPassed == env(k).judge.passed && h[k - 1].testsFailed == env(k).judge.failed
    {
      assert step(k) == NewPass(env(k), k, maxIterations, generateTests);
      assert step(k).end.Failed? && h[k - 1] == step(k).end.record;
      PassRecordFacts(env(k), k, maxIterations, generateTests);
    }
  }

  /** Over a whole run, tests are generated on pass 1 only, retries only on
      passes before the last allowed one, each with the plan of its pass, and
      the loop generates no documentation. */
  lemma RunCalls(env: int -> PassEnv, maxIterations: int, generateTests: bool, c: Call)
    requires c in FinalState(maxIterations, Steps(env, maxIterations, generateTests)).calls
    ensures c.GenerateTestsCall? ==> generateTests && c in NewPass(env(1), 1, maxIterations, generateTests).calls
    ensures c.RetryFixCalls? ==> exists j | 1 <= j < maxIterations ::
      env(j).retryListing.Ok? && c.plan == RetryPlan(env(j).judge.errors, env(j).retryListing.value)
    ensures !c.GenerateDocsCall?
  {
    var step := Steps(env, maxIterations, generateTests);
    var n := Budget(maxIterations);
    CallsFacts(step, n);
    CallsOfMember(step, RunUpTo(step, n).iteration, c);
    var j :| 1 <= j <= RunUpTo(step, n).iteration && c in step(j).calls;
    assert step(j) == NewPass(env(j), j, maxIterations, generateTests);
    if c.GenerateTestsCall? {
      PassTestGeneration(env(j), j, maxIterations, generateTests, c.filename);
    }
    if c.RetryFixCalls? {
      PassRetry(env(j), j, maxIterations, generateTests, c.plan);
    }
    PassTestGeneration(env(j), j, maxIterations, generateTests, "");
  }

  /** A missing target directory raises before any pass; otherwise
      documentation is generated only after a successful run with
      `generate_docs` set, and then exactly for the listed modules whose
      `README_<stem>.md` is not listed. */
  lemma OutcomeFacts(targetExists: bool, targetDir: string, modelName: string, maxIterations: int,
                     generateTests: bool, generateDocs: bool, env: int -> PassEnv,
                     docsListing: Result<seq<string>>, f: string)
    ensures var o := SwarmOutcome(targetExists, targetDir, modelName, maxIterations, generateTests, generateDocs, env, docsListing);
      var s := FinalState(maxIterations, Steps(env, maxIterations, generateTests));
      && (!targetExists ==> o == (Err(FileNotFoundError), []))
      && (targetExists && o.0.Ok? ==> o.0.value == FinalReport(ResultOf(maxIterations, s), targetDir, modelName))
      && (GenerateDocsCall(f) in o.1 <==>
            targetExists && s.success && generateDocs && docsListing.Ok?
            && f in docsListing.value && IsModule(f) && Fixer.DocFileName(f) !in docsListing.value)
  {
    var s := FinalState(maxIterations, Steps(env, maxIterations, generateTests));
    if GenerateDocsCall(f) in s.calls {
      RunCalls(env, maxIterations, generateTests, GenerateDocsCall(f));
    }
    if docsListing.Ok? {
      MissingOutputsFacts(Docs, Modules(docsListing.value), docsListing.value);
    }
  }

  /** `main`'s generation flags (lines 396-401): `--no_generation` turns both
      off, otherwise each follows its own option. */
  function GenerationFlags(noGeneration: bool, generateTests: bool, generateDocs: bool): (flags: (bool, bool))
    ensures flags.0 <==> !noGeneration && generateTests
    ensures flags.1 <==> !noGeneration && generateDocs
  {
    if noGeneration then (false, false) else (generateTests, generateDocs)
  }
}
