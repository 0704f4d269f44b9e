/** t.py: the older `run_refactoring_swarm`, with Audit → Fix → Judge passes
    and neither test generation, retries nor documentation.  What the agents
    return during pass `k` is the input `env(k)`. */
module LegacySwarm {
  import opened Wrappers
  import opened SwarmLoop
  import Auditor
  import Fixer
  import Judge

  /** What pass `k` is given: the audit report or the exception `analyze`
      raised, the Fixer's result or its exception, and the Judge's result. */
  datatype PassEnv = PassEnv(
    audit: Result<Auditor.AuditReport>,
    fix: Result<Fixer.FixResult>,
    judge: Judge.JudgeResult)

  /** The only agent call this version records: `fixer.fix(audit_report, ...)`. */
  datatype Call = FixCall(report: Auditor.AuditReport)

  /** One pass (t.py:77-169). */
  function OldPass(e: PassEnv, k: int): PassStep<Call> {
    match e.audit
    case Err(_) => PassStep(PassEnd.Raised, [])
    case Ok(report) =>
      if report.totalIssues != 0 && e.fix.Err? then PassStep(PassEnd.Raised, [FixCall(report)])
      else
        var calls := if report.totalIssues == 0 then [] else [FixCall(report)];
        var fixes := if report.totalIssues == 0 then 0 else e.fix.value.totalFixes;
        if e.judge.success then PassStep(Succeeded, calls)
        else PassStep(Failed(PassRecord(k, report.totalIssues, fixes, e.judge.passed, e.judge.failed)), calls)
  }

  /** The body of the `while` loop, down to its `try`/`except`. */
  method RunPass(e: PassEnv, k: int) returns (p: PassStep<Call>)
    ensures p == OldPass(e, k)
  {
    if e.audit.Err? {
      return PassStep(PassEnd.Raised, []);
    }
    var report := e.audit.value;
    var calls: seq<Call> := [];
    var fixesApplied := 0;
    if report.totalIssues != 0 {
      calls := [FixCall(report)];
      if e.fix.Err? {
        return PassStep(PassEnd.Raised, calls);
      }
      fixesApplied := e.fix.value.totalFixes;
    }
    var testResult := e.judge;
    if testResult.success {
      return PassStep(Succeeded, calls);
    }
    p := PassStep(Failed(PassRecord(k, report.totalIssues, fixesApplied, testResult.passed, testResult.failed)), calls);
  }

  /** How a pass ends: it raises iff the audit raised or the Fixer was
      called and raised; otherwise it succeeds iff the Judge did.  The Fixer
      is called iff the audit found issues, and a record of a pass with no
      issues has no fixes. */
  lemma PassFacts(e: PassEnv, k: int)
    ensures var p := OldPass(e, k);
      && (p.end.Raised? <==> e.audit.Err? || (e.audit.value.totalIssues != 0 && e.fix.Err?))
      && (p.end.Succeeded? <==> !p.end.Raised? && e.judge.success)
      && (|p.calls| == 1 <==> e.audit.Ok? && e.audit.value.totalIssues != 0)
      && (forall c | c in p.calls :: e.audit.Ok? && c == FixCall(e.audit.value))
      && |p.calls| <= 1
      && (p.end.Failed? ==>
            && p.end.record.iteration == k
            && p.end.record.issuesDetected == e.audit.value.totalIssues
            && (e.audit.value.totalIssues == 0 ==> p.end.record.fixesApplied == 0)
            && p.end.record.testsPassed == e.judge.passed
            && p.end.record.testsFailed == e.judge.failed)
  {
  }

  /** Pass `k` of a run. */
  function Steps(env: int -> PassEnv): int -> PassStep<Call> {
    k => OldPass(env(k), k)
  }

  /** The result and the Fixer calls of a run; `targetExists` is
      `os.path.exists(target_dir)`. */
  function LegacyOutcome(targetExists: bool, maxIterations: int, env: int -> PassEnv): (Result<SwarmResult>, seq<Call>) {
    if !targetExists then (Err(FileNotFoundError), [])
    else
      var s := FinalState(maxIterations, Steps(env));
      (Ok(ResultOf(maxIterations, s)), s.calls)
  }

  /** `run_refactoring_swarm` of t.py. */
  method RunRefactoringSwarm(targetExists: bool, maxIterations: int, env: int -> PassEnv)
    returns (r: Result<SwarmResult>, calls: seq<Call>)
    ensures (r, calls) == LegacyOutcome(targetExists, maxIterations, env)
  {
    if !targetExists {
      return Err(FileNotFoundError), [];
    }
    ghost var step := Steps(env);
    ghost var budget := Budget(maxIterations);
    var iteration: nat := 0;
    var allTestsPassed := false;
    var history: seq<PassRecord> := [];
    calls := [];
    while iteration < maxIterations && !allTestsPassed
      invariant iteration <= budget && !allTestsPassed
      invariant RunUpTo(step, iteration) == LoopState(iteration, false, history, false, calls)
    {
      iteration := iteration + 1;
      var p := RunPass(env(iteration), iteration);
      assert p == step(iteration);
      calls := calls + p.calls;
      match p.end {
        case Succeeded =>
          allTestsPassed := true;
          RunStable(step, iteration, budget);
          break;
        case Failed(record) =>
          history := history + [record];
        case Raised =>
          RunStable(step, iteration, budget);
          break;
      }
    }
    assert FinalState(maxIterations, step) == LoopState(iteration, allTestsPassed, history, FinalState(maxIterations, step).stopped, calls);
    r := Ok(SwarmResult(allTestsPassed, iteration, iteration >= maxIterations && !allTestsPassed, history));
  }

  /** An exception on pass `k`, after passes that all failed their tests,
      ends the run there: `success` is false, `total_iterations` is `k`, and
      the history holds the `k - 1` earlier records. */
  lemma ExceptionEndsRun(targetExists: bool, maxIterations: int, env: int -> PassEnv, k: nat)
    requires targetExists && 1 <= k <= maxIterations
    requires OldPass(env(k), k).end.Raised?
    requires forall j | 1 <= j < k :: OldPass(env(j), j).end.Failed?
    ensures var r := LegacyOutcome(targetExists, maxIterations, env).0;
      r.Ok? && !r.value.success && r.value.totalIterations == k && |r.value.history| == k - 1
  {
    var step := Steps(env);
    forall j | 1 <= j < k
      ensures step(j).end.Failed?
    {
      assert step(j) == OldPass(env(j), j);
    }
    assert step(k) == OldPass(env(k), k);
    FirstStop(step, Budget(maxIterations), k);
    RunFacts(step, Budget(maxIterations));
  }

  /** Every history record is numbered by its position, starting from 1, and
      belongs to a pass whose Judge failed. */
  lemma HistoryFacts(maxIterations: int, env: int -> PassEnv)
    ensures var h := FinalState(maxIterations, Steps(env)).history;
      forall k | 1 <= k <= |h| ::
        && h[k - 1].iteration == k
        && !env(k).judge.success && env(k).audit.Ok?
        && h[k - 1].issuesDetected == env(k).audit.value.totalIssues
  {
    var step := Steps(env);
    RunFacts(step, Budget(maxIterations));
    var h := FinalState(maxIterations, step).history;
    forall k | 1 <= k <= |h|
      ensures && h[k - 1].iteration == k
              && !env(k).judge.success && env(k).audit.Ok?
              && h[k - 1].issuesDetected == env(k).audit.value.totalIssues
    {
      assert step(k) == OldPass(env(k), k);
      assert step(k).end.Failed? && h[k - 1] == step(k).end.record;
      PassFacts(env(k), k);
    }
  }
}
