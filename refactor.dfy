/** src/agents/refactor_agent.py: the refactor node asks the LLM for a
    corrected version of `state['code']` and stores the first code block of
    the answer, the raw answer when it has none, or the original code when
    the call raised.  The LLM and `extract_code_blocks` (a regular
    expression) are parameters. */
module RefactorAgent {
  import opened Wrappers
  import opened Text
  import Llm
  import opened AgentStates

  /** `d.get(key, default)` on the `bugs` or `analysis` dictionary, itself
      read with `state.get(key, {})`. */
  function NoteText(n: Option<Notes>, default: string): string {
    if n.Some? then n.value.llmText.GetOr(default) else default
  }

  /** The lines after the analysis in the prompt. */
  const TaskLines: seq<string> := [
    "",
    "TÂCHE: Corrige TOUS les bugs et améliore le code.",
    "",
    "Réponds UNIQUEMENT avec le code corrigé entre triple backticks python.",
    "Pas d'explications, juste le code.",
    ""]

  /** The prompt of lines 24-41. */
  function RefactorPrompt(code: string, bugsText: string, analysisText: string): string {
    Join("\n", ["Tu es un expert en refactoring de code Python.", "", "Code original:", "```python", code, "```",
                "", "Bugs détectés:", bugsText, "", "Analyse:", analysisText] + TaskLines)
  }

  /** The prompt carries the code, the detected bugs and the analysis. */
  lemma RefactorPromptContents(code: string, bugsText: string, analysisText: string)
    ensures var p := RefactorPrompt(code, bugsText, analysisText);
      Contains(p, code) && Contains(p, bugsText) && Contains(p, analysisText)
  {
    var lines := ["Tu es un expert en refactoring de code Python.", "", "Code original:", "```python", code, "```",
                  "", "Bugs détectés:", bugsText, "", "Analyse:", analysisText] + TaskLines;
    JoinContains("\n", lines, 4);
    JoinContains("\n", lines, 8);
    JoinContains("\n", lines, 11);
  }

  /** The `corrected_code` the node stores. */
  function CorrectedCode(reply: Llm.Reply, code: string, extract: string -> seq<string>): (c: string)
    ensures reply.Failure? ==> c == code
    ensures reply.Answer? && |extract(reply.text)| > 0 ==> c == extract(reply.text)[0]
    ensures reply.Answer? && |extract(reply.text)| == 0 ==> c == reply.text
  {
    match reply
    case Failure(_) => code
    case Answer(text) =>
      var blocks := extract(text);
      if |blocks| > 0 then blocks[0] else text
  }

  /** `RefactorAgent.process`: only `corrected_code`, `refactor_error` and
      `current_step` change; `refactor_error` is set only when the LLM raised. */
  method Process(st: AgentState, llm: string -> Llm.Reply, extract: string -> seq<string>)
    modifies st`correctedCode, st`refactorError, st`currentStep
    ensures var code := st.code.GetOr("");
      var reply := llm(RefactorPrompt(code, NoteText(st.bugs, "Aucun"), NoteText(st.analysis, "Aucune")));
      && st.correctedCode == Some(CorrectedCode(reply, code, extract))
      && st.refactorError == (if reply.Failure? then Some(reply.message) else old(st.refactorError))
      && st.currentStep == Some("refactored")
  {
    var code := st.code.GetOr("");
    var prompt := RefactorPrompt(code, NoteText(st.bugs, "Aucun"), NoteText(st.analysis, "Aucune"));
    match llm(prompt) {
      case Answer(response) =>
        var blocks := extract(response);
        if |blocks| > 0 {
          st.correctedCode := Some(blocks[0]);
        } else {
          st.correctedCode := Some(response);
        }
      case Failure(message) =>
        st.correctedCode := Some(code);
        st.refactorError := Some(message);
    }
    st.currentStep := Some("refactored");
  }
}
