/** The control loop shared by both versions of `run_refactoring_swarm`
    (src/orchestrator/swarm_controller.py:82-263 and t.py:70-169): passes
    numbered from 1 run while the counter is below `max_iterations` and no
    pass has succeeded; a pass ends in success (break), in failure (a history
    record is appended and the loop goes on) or with an exception (break).
    What a pass does is given by a step function from its number. */
module SwarmLoop {

  /** One history entry. */
  datatype PassRecord = PassRecord(
    iteration: int,
    issuesDetected: int,
    fixesApplied: int,
    testsPassed: int,
    testsFailed: int)

  /** How a pass ended. */
  datatype PassEnd = Succeeded | Failed(record: PassRecord) | Raised

  /** How a pass ended, and the agent calls it made (of type `C`). */
  datatype PassStep<C> = PassStep(end: PassEnd, calls: seq<C>)

  /** The loop variables: the counter, `all_tests_passed`, `history`, whether
      the loop broke out, and every agent call made so far. */
  datatype LoopState<C> = LoopState(iteration: nat, success: bool, history: seq<PassRecord>, stopped: bool, calls: seq<C>)

  /** The `final_result` fields both versions share. */
  datatype SwarmResult = SwarmResult(
    success: bool,
    totalIterations: int,
    maxIterationsReached: bool,
    history: seq<PassRecord>)

  /** The loop state once passes 1..n had the chance to run. */
  function RunUpTo<C>(step: int -> PassStep<C>, n: nat): LoopState<C> {
    if n == 0 then LoopState(0, false, [], false, [])
    else
      var s := RunUpTo(step, n - 1);
      if s.stopped then s
      else
        var p := step(n);
        match p.end
        case Succeeded => LoopState(n, true, s.history, true, s.calls + p.calls)
        case Failed(record) => LoopState(n, false, s.history + [record], false, s.calls + p.calls)
        case Raised => LoopState(n, false, s.history, true, s.calls + p.calls)
  }

  /** The number of passes the loop may run. */
  function Budget(maxIterations: int): nat {
    if maxIterations > 0 then maxIterations else 0
  }

  /** The loop run to its end. */
  function FinalState<C>(maxIterations: int, step: int -> PassStep<C>): LoopState<C> {
    RunUpTo(step, Budget(maxIterations))
  }

  /** `final_result` built from the loop variables. */
  function ResultOf<C>(maxIterations: int, s: LoopState<C>): SwarmResult {
    SwarmResult(s.success, s.iteration, s.iteration >= maxIterations && !s.success, s.history)
  }

  /** Once the loop has broken out, later passes change nothing. */
  lemma {:induction false} RunStable<C>(step: int -> PassStep<C>, n: nat, m: nat)
    requires n <= m && RunUpTo(step, n).stopped
    ensures RunUpTo(step, m) == RunUpTo(step, n)
    decreases m - n
  {
    if n < m {
      RunStable(step, n, m - 1);
    }
  }

  /** What the loop state says about the passes: the counter is the number
      of passes run; every pass before the last one run failed; the loop broke
      out exactly when the last pass run did not fail; `success` holds exactly
      when that pass succeeded; the history holds the records of the failed
      passes, in pass order. */
  lemma {:induction false} RunFacts<C>(step: int -> PassStep<C>, n: nat)
    ensures var s := RunUpTo(step, n);
      && s.iteration <= n
      && (!s.stopped ==> s.iteration == n)
      && (s.stopped ==> 1 <= s.iteration && !step(s.iteration).end.Failed?)
      && (s.success <==> s.stopped && step(s.iteration).end.Succeeded?)
      && (forall j | 1 <= j < s.iteration :: step(j).end.Failed?)
      && (!s.stopped ==> forall j | 1 <= j <= s.iteration :: step(j).end.Failed?)
      && |s.history| == (if s.stopped then s.iteration - 1 else s.iteration)
      && (forall i | 0 <= i < |s.history| :: step(i + 1).end.Failed? && s.history[i] == step(i + 1).end.record)
  {
    if n > 0 {
      RunFacts(step, n - 1);
      var s := RunUpTo(step, n - 1);
      if !s.stopped {
        var t := RunUpTo(step, n);
        assert forall i | 0 <= i < |s.history| :: t.history[i] == s.history[i];
      }
    }
  }

  /** The passes the loop runs are exactly those up to the first one that
      does not fail, within the budget. */
  lemma FirstStop<C>(step: int -> PassStep<C>, n: nat, k: nat)
    requires 1 <= k <= n && !step(k).end.Failed?
    requires forall j | 1 <= j < k :: step(j).end.Failed?
    ensures RunUpTo(step, n).iteration == k && RunUpTo(step, n).stopped
  {
    RunFacts(step, n);
  }

  /** The properties of `final_result`: the counter never exceeds
      `max(0, max_iterations)`; `success` holds iff some pass succeeded, and
      then the loop stopped right there with every earlier pass failed;
      `max_iterations_reached` holds iff the budget is empty, or every pass
      before the last allowed one failed and that last one did not succeed
      (so an exception on the last pass also reports it, and an exception
      before it does not). */
  lemma {:induction false} ResultFacts<C>(maxIterations: int, step: int -> PassStep<C>)
    ensures var r := ResultOf(maxIterations, FinalState(maxIterations, step));
      && 0 <= r.totalIterations <= Budget(maxIterations)
      && (r.success <==> exists k | 1 <= k <= Budget(maxIterations) ::
                           step(k).end.Succeeded? && forall j | 1 <= j < k :: step(j).end.Failed?)
      && (r.success ==> step(r.totalIterations).end.Succeeded?)
      && (r.maxIterationsReached <==>
            maxIterations <= 0
            || ((forall j | 1 <= j < maxIterations :: step(j).end.Failed?) && !step(maxIterations).end.Succeeded?))
  {
    var n := Budget(maxIterations);
    var s := RunUpTo(step, n);
    RunFacts(step, n);
    var r := ResultOf(maxIterations, s);
    if r.success {
      assert 1 <= s.iteration <= n && step(s.iteration).end.Succeeded?;
      assert forall j | 1 <= j < s.iteration :: step(j).end.Failed?;
    }
    if exists k | 1 <= k <= n :: step(k).end.Succeeded? && forall j | 1 <= j < k :: step(j).end.Failed? {
      var k :| 1 <= k <= n && step(k).end.Succeeded? && forall j | 1 <= j < k :: step(j).end.Failed?;
      FirstStop(step, n, k);
    }
    if maxIterations > 0 {
      if (forall j | 1 <= j < maxIterations :: step(j).end.Failed?) && !step(maxIterations).end.Succeeded? {
        if step(maxIterations).end.Raised? {
          FirstStop(step, n, maxIterations);
        }
      }
      if r.maxIterationsReached {
        assert s.iteration == maxIterations;
      }
    }
  }

  /** Each executed pass contributes its calls, in pass order: after passes
      that only failed, the calls are those of passes 1..n concatenated. */
  function CallsOf<C>(step: int -> PassStep<C>, n: nat): seq<C> {
    if n == 0 then [] else CallsOf(step, n - 1) + step(n).calls
  }

  lemma {:induction false} CallsFacts<C>(step: int -> PassStep<C>, n: nat)
    ensures RunUpTo(step, n).calls == CallsOf(step, RunUpTo(step, n).iteration)
  {
    if n > 0 {
      CallsFacts(step, n - 1);
      RunFacts(step, n - 1);
    }
  }

  /** Every call was made by one of the passes run. */
  lemma {:induction false} CallsOfMember<C>(step: int -> PassStep<C>, n: nat, c: C)
    requires c in CallsOf(step, n)
    ensures exists j | 1 <= j <= n :: c in step(j).calls
  {
    if c !in step(n).calls {
      CallsOfMember(step, n - 1, c);
    }
  }
}
