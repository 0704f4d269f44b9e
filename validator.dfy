/** src/agents/validator_agent.py: the validate node checks the syntax of
    `state['corrected_code']` and asks the LLM to compare it with the
    original; the code is approved iff the syntax is valid and the answer,
    upper-cased, contains "OUI".  The LLM, `is_valid_python` and
    `get_syntax_errors` (both over `ast.parse`) are parameters. */
module ValidatorAgent {
  import opened Wrappers
  import opened Text
  import Llm
  import opened AgentStates

  /** The lines after the corrected code in the prompt. */
  const QuestionLines: seq<string> := [
    "",
    "Questions:",
    "1. Le code corrigé est-il syntaxiquement valide?",
    "2. Tous les bugs ont-ils été corrigés?",
    "3. La fonctionnalité est-elle préservée?",
    "4. Y a-t-il de nouvelles erreurs introduites?",
    "",
    "Réponds par OUI ou NON suivi d'une explication brève.",
    ""]

  /** The prompt of lines 30-49. */
  function ValidationPrompt(original: string, corrected: string): string {
    Join("\n", ["Compare le code original et le code corrigé:", "", "CODE ORIGINAL:", "```python", original, "```",
                "", "CODE CORRIGÉ:", "```python", corrected, "```"] + QuestionLines)
  }

  /** The prompt shows both versions of the code. */
  lemma ValidationPromptContents(original: string, corrected: string)
    ensures Contains(ValidationPrompt(original, corrected), original)
    ensures Contains(ValidationPrompt(original, corrected), corrected)
  {
    var lines := ["Compare le code original et le code corrigé:", "", "CODE ORIGINAL:", "```python", original, "```",
                  "", "CODE CORRIGÉ:", "```python", corrected, "```"] + QuestionLines;
    JoinContains("\n", lines, 4);
    JoinContains("\n", lines, 9);
  }

  /** The validator's answer approves when, upper-cased, it contains `OUI`. */
  predicate SaysYes(response: string) {
    Contains(UpperAscii(response), "OUI")
  }

  /** The `validation` dictionary the node stores, given the LLM's reply. */
  function ValidationOf(corrected: string, reply: Llm.Reply, isValid: string -> bool,
                        syntaxErrors: string -> Option<string>): (v: Validation)
    ensures v.isValidSyntax == isValid(corrected) && v.syntaxErrors == syntaxErrors(corrected)
    ensures v.approved == Some(isValid(corrected) && reply.Answer? && SaysYes(reply.text))
    ensures v.llmValidation == Some(if reply.Answer? then reply.text else reply.message)
  {
    var valid := isValid(corrected);
    match reply
    case Answer(text) => Validation(valid, syntaxErrors(corrected), Some(valid && SaysYes(text)), Some(text))
    case Failure(message) => Validation(valid, syntaxErrors(corrected), Some(false), Some(message))
  }

  /** `ValidatorAgent.process`: only `validation` and `current_step` change. */
  method Process(st: AgentState, llm: string -> Llm.Reply, isValid: string -> bool,
                 syntaxErrors: string -> Option<string>)
    modifies st`validation, st`currentStep
    ensures var corrected := st.correctedCode.GetOr("");
      var reply := llm(ValidationPrompt(st.code.GetOr(""), corrected));
      && st.validation == Some(ValidationOf(corrected, reply, isValid, syntaxErrors))
      && st.currentStep == Some("validated")
  {
    var corrected := st.correctedCode.GetOr("");
    var original := st.code.GetOr("");
    var validation := Validation(isValid(corrected), syntaxErrors(corrected), Some(false), None);
    match llm(ValidationPrompt(original, corrected)) {
      case Answer(response) =>
        validation := validation.(llmValidation := Some(response));
        if validation.isValidSyntax && SaysYes(response) {
          validation := validation.(approved := Some(true));
        }
      case Failure(message) =>
        validation := validation.(llmValidation := Some(message));
    }
    st.validation := Some(validation);
    st.currentStep := Some("validated");
  }
}
