/** src/core/state_manager.py: the `AgentState` dictionary the LangGraph
    nodes share and update in place.  Each key is a field; `None` stands for
    a key the dictionary does not hold, since the nodes read it with
    `state.get(key, default)`. */
module AgentStates {
  import opened Wrappers

  /** The `analysis` and `bugs` dictionaries; the refactor prompt reads only
      the LLM text each holds (`llm_analysis`, `llm_detected`). */
  datatype Notes = Notes(llmText: Option<string>)

  /** The `validation` dictionary.  The validator always writes `approved`
      and `llm_validation`; `should_retry` reads `approved` with default
      `False`. */
  datatype Validation = Validation(
    isValidSyntax: bool,
    syntaxErrors: Option<string>,
    approved: Option<bool>,
    llmValidation: Option<string>)

  class AgentState {
    var code: Option<string>
    var taskDescription: Option<string>
    var currentStep: Option<string>
    var analysis: Option<Notes>
    var bugs: Option<Notes>
    var correctedCode: Option<string>
    var refactorError: Option<string>
    var validation: Option<Validation>
    var iterations: Option<int>

    /** The initial state that `process_code` builds
        (src/core/orchestrator.py:32-43): step `init`, empty analysis and
        bugs, no corrected code yet, an empty validation and a counter at 0.
        The empty validation dictionary is `None`: every reader treats it
        as a missing one. */
    constructor (code: string, taskDescription: string)
      ensures this.code == Some(code) && this.taskDescription == Some(taskDescription)
      ensures currentStep == Some("init") && iterations == Some(0)
      ensures analysis == Some(Notes(None)) && bugs == Some(Notes(None))
      ensures correctedCode == Some("") && refactorError == None && validation == None
    {
      this.code := Some(code);
      this.taskDescription := Some(taskDescription);
      currentStep := Some("init");
      analysis := Some(Notes(None));
      bugs := Some(Notes(None));
      correctedCode := Some("");
      refactorError := None;
      validation := None;
      iterations := Some(0);
    }
  }
}
