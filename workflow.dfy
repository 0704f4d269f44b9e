/** src/core/workflow.py: the LangGraph graph analyze → detect_bugs →
    refactor → validate, after which `should_retry` either ends the run or
    sends it back to refactor, counting the retries in `state['iterations']`
    and allowing them while the count is below 3. */
module Workflow {
  import opened Wrappers
  import Llm
  import opened AgentStates
  import RefactorAgent
  import ValidatorAgent

  /** The labels `should_retry` returns. */
  datatype Route = Retry | End

  /** The validation approves the code; a missing validation or a missing
      `approved` key does not. */
  predicate Approved(v: Option<Validation>) {
    v.Some? && v.value.approved.GetOr(false)
  }

  /** The iteration counter, 0 when the state holds none. */
  function IterationsOf(i: Option<int>): int {
    i.GetOr(0)
  }

  /** The route `should_retry` picks and the iteration entry it leaves. */
  datatype Decision = Decision(route: Route, iterations: Option<int>)

  function Decide(validation: Option<Validation>, iterations: Option<int>): (d: Decision)
    ensures d.route == End <==> Approved(validation) || IterationsOf(iterations) >= 3
    ensures d.route == End ==> d.iterations == iterations
    ensures d.route == Retry ==> IterationsOf(iterations) < 3 && d.iterations == Some(IterationsOf(iterations) + 1)
  {
    if Approved(validation) then Decision(End, iterations)
    else if IterationsOf(iterations) >= 3 then Decision(End, iterations)
    else Decision(Retry, Some(IterationsOf(iterations) + 1))
  }

  /** `should_retry`: only `state['iterations']` may change. */
  method ShouldRetry(st: AgentState) returns (route: Route)
    modifies st`iterations
    ensures Decision(route, st.iterations) == Decide(st.validation, old(st.iterations))
  {
    var validation := st.validation;
    var iterations := IterationsOf(st.iterations);
    if Approved(validation) {
      route := End;
    } else if iterations >= 3 {
      route := End;
    } else {
      st.iterations := Some(iterations + 1);
      route := Retry;
    }
  }

  /** What the nodes outside this model produce, and the oracles of the two
      nodes inside it. */
  datatype WorkflowEnv = WorkflowEnv(
    analysis: Notes,
    bugs: Notes,
    refactorLlm: string -> Llm.Reply,
    extract: string -> seq<string>,
    validatorLlm: string -> Llm.Reply,
    isValid: string -> bool,
    syntaxErrors: string -> Option<string>)

  /** The analyze node (an LLM wrapper): with no code it stores an analysis
      without LLM text and leaves `current_step`; otherwise it stores the
      analysis it was given. */
  method AnalyzeNode(st: AgentState, analysis: Notes)
    modifies st`analysis, st`currentStep
    ensures st.analysis == Some(if st.code.GetOr("") == "" then Notes(None) else analysis)
    ensures st.currentStep == if st.code.GetOr("") == "" then old(st.currentStep) else Some("analyzed")
  {
    if st.code.GetOr("") == "" {
      st.analysis := Some(Notes(None));
    } else {
      st.analysis := Some(analysis);
      st.currentStep := Some("analyzed");
    }
  }

  /** The detect_bugs node (an LLM wrapper). */
  method DetectBugsNode(st: AgentState, bugs: Notes)
    modifies st`bugs, st`currentStep
    ensures st.bugs == Some(bugs) && st.currentStep == Some("bugs_detected")
  {
    st.bugs := Some(bugs);
    st.currentStep := Some("bugs_detected");
  }

  /** Retries still allowed from iteration count `n`. */
  function RetriesLeft(n: int): nat {
    if n < 3 then 3 - n else 0
  }

  /** The compiled graph run to END; returns how many times validate ran.
      From a count `start`, validate runs once plus once per retry, at most
      `4 - start` times (4 from the default 0), the count ends at
      `start + validations - 1`, and the run ends approved or at a count of
      3 or more. */
  method RunWorkflow(st: AgentState, env: WorkflowEnv) returns (validations: nat)
    modifies st
    ensures var start := IterationsOf(old(st.iterations));
      && 1 <= validations <= (if start >= 3 then 1 else 4 - start)
      && IterationsOf(st.iterations) == start + validations - 1
      && (Approved(st.validation) || IterationsOf(st.iterations) >= 3)
  {
    ghost var start := IterationsOf(st.iterations);
    AnalyzeNode(st, env.analysis);
    DetectBugsNode(st, env.bugs);
    validations := 0;
    var route := Retry;
    while route == Retry
      invariant route == Retry ==>
        IterationsOf(st.iterations) == start + validations && (validations > 0 ==> start + validations <= 3)
      invariant route == End ==>
        && 1 <= validations <= (if start >= 3 then 1 else 4 - start)
        && IterationsOf(st.iterations) == start + validations - 1
        && (Approved(st.validation) || IterationsOf(st.iterations) >= 3)
      decreases RetriesLeft(IterationsOf(st.iterations)) + (if route == Retry then 1 else 0)
    {
      RefactorAgent.Process(st, env.refactorLlm, env.extract);
      ValidatorAgent.Process(st, env.validatorLlm, env.isValid, env.syntaxErrors);
      validations := validations + 1;
      route := ShouldRetry(st);
    }
  }
}
