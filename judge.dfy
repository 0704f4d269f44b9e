/** src/agents/judge.py: the Judge runs the test tool on the target
    directory, shapes its answer into a result record and, when tests fail,
    asks the LLM for recommendations and root causes.  The test tool, the LLM
    and `json.loads` are parameters. */
module Judge {
  import opened Wrappers
  import opened Text

  /** The dict `test` expects from the test tool; a missing key is `None`. */
  datatype ToolReport = ToolReport(
    passed: Option<int>,
    failed: Option<int>,
    success: Option<bool>,
    errors: Option<seq<string>>)

  /** Calling the test tool: its report, or the exception it raised. */
  datatype ToolCall = Returned(report: ToolReport) | ToolRaised(message: string)

  /** What the LLM call gives back: text, an object that is not a `str`, or an exception. */
  datatype AnalysisReply = TextReply(text: string) | NonTextReply | ReplyFailure(message: string)

  /** The decoded JSON of an analysis: undecodable, not an object, or an
      object whose keys are optional (`rootCause` is `Some` only when the key
      holds a string). */
  datatype AnalysisJson =
    | Undecodable
    | NotAnObject
    | AnalysisObject(
        recommendations: Option<seq<string>>,
        recommendation: Option<string>,
        rootCause: Option<string>,
        rootCauses: Option<seq<string>>,
        severity: Option<string>)

  /** The analysis dict; the fallback of `_analyze_test_failures` has no severity. */
  datatype Analysis = Analysis(recommendations: seq<string>, rootCauses: seq<string>, severity: Option<string>)

  /** The dict `test` returns; only the failure branch has `root_causes`. */
  datatype JudgeResult = JudgeResult(
    success: bool,
    passed: int,
    failed: int,
    errors: seq<string>,
    recommendations: seq<string>,
    rootCauses: Option<seq<string>>)

  const InstallRecommendation := "Vérifier que pytest est correctement installé et que les tests sont valides"
  const FallbackAnalysis := Analysis(["Corriger les erreurs de test"], ["Erreur d'analyse"], None)

  // ---------------------------------------------------------------------------
  // _build_analysis_prompt (src/agents/judge.py:205-219)
  // ---------------------------------------------------------------------------

  /** The numbered blocks of the first (at most) five errors.  A caller gets
      one block per error shown, in order, block `i` being `ERREUR <i+1>:`
      over the `i`-th error. */
  function ErrorBlocks(errors: seq<string>): (blocks: seq<string>)
    ensures |blocks| == if |errors| < 5 then |errors| else 5
    ensures forall i | 0 <= i < |blocks| :: blocks[i] == "ERREUR " + IntToString(i + 1) + ":\n" + errors[i]
  {
    var shown := if |errors| < 5 then errors else errors[..5];
    seq(|shown|, i requires 0 <= i < |shown| => "ERREUR " + IntToString(i + 1) + ":\n" + shown[i])
  }

  /** The line that reports the number of errors. */
  function ErrorCountLine(errors: seq<string>): string {
    "NOMBRE D'ERREURS : " + IntToString(|errors|)
  }

  function BuildAnalysisPrompt(errors: seq<string>): string {
    Join("\n", ["Analyse ces erreurs de tests pytest.", "", ErrorCountLine(errors), "",
                "MESSAGES D'ERREUR :", Join("\n\n", ErrorBlocks(errors)), "",
                "Génère un rapport JSON avec recommendations et root_causes."])
  }

  /** The prompt reports the full number of errors and shows each of the
      first five, numbered from 1. */
  lemma AnalysisPromptContents(errors: seq<string>)
    ensures Contains(BuildAnalysisPrompt(errors), ErrorCountLine(errors))
    ensures forall i | 0 <= i < |errors| && i < 5 ::
      Contains(BuildAnalysisPrompt(errors), "ERREUR " + IntToString(i + 1) + ":\n" + errors[i])
  {
    var blocks := ErrorBlocks(errors);
    var text := Join("\n\n", blocks);
    var lines := ["Analyse ces erreurs de tests pytest.", "", ErrorCountLine(errors), "",
                  "MESSAGES D'ERREUR :", text, "",
                  "Génère un rapport JSON avec recommendations et root_causes."];
    JoinContains("\n", lines, 2);
    JoinContains("\n", lines, 5);
    forall i | 0 <= i < |errors| && i < 5
      ensures Contains(BuildAnalysisPrompt(errors), "ERREUR " + IntToString(i + 1) + ":\n" + errors[i])
    {
      JoinContains("\n\n", blocks, i);
      ContainsTrans(BuildAnalysisPrompt(errors), text, blocks[i]);
    }
  }

  // ---------------------------------------------------------------------------
  // _parse_analysis_response (src/agents/judge.py:237-271)
  // ---------------------------------------------------------------------------

  /** At most the first 200 characters of a reply. */
  function Prefix200(s: string): (r: string)
    ensures |r| <= 200 && StartsWith(s, r)
  {
    if |s| <= 200 then s else s[..200]
  }

  /** The analysis read from a reply; a decoded value that is not an object
      makes `data.get` raise `AttributeError`. */
  function ParseAnalysisResponse(reply: AnalysisReply, decode: string -> AnalysisJson): Result<Analysis>
    requires !reply.ReplyFailure?
  {
    match reply
    case NonTextReply =>
      Ok(Analysis(["Corriger les erreurs de test"], ["Format de réponse LLM inattendu"], Some("unknown")))
    case TextReply(response) =>
      match decode(CleanJsonFences(response))
      case Undecodable =>
        Ok(Analysis(if response != [] then [Prefix200(response)] else ["Corriger les erreurs"],
                    ["Analyse non structurée"], Some("unknown")))
      case NotAnObject => Err(AttributeError)
      case AnalysisObject(recs, rec, rootCause, rootCauses, severity) =>
        Ok(Analysis(recs.GetOr([rec.GetOr("Corriger les erreurs")]),
                    if rootCause.Some? then [rootCause.value] else rootCauses.GetOr(["Cause inconnue"]),
                    Some(severity.GetOr("medium"))))
  }

  /** The fallbacks: a non-text reply and an undecodable one both give
      severity "unknown"; an undecodable reply keeps its first 200
      characters as the recommendation, or the default when it is empty. */
  lemma ParseFallbacks(response: string, decode: string -> AnalysisJson)
    ensures ParseAnalysisResponse(NonTextReply, decode).Ok?
      && ParseAnalysisResponse(NonTextReply, decode).value.severity == Some("unknown")
    ensures decode(CleanJsonFences(response)) == Undecodable ==>
      var a := ParseAnalysisResponse(TextReply(response), decode);
      a.Ok? && a.value.severity == Some("unknown") && a.value.rootCauses == ["Analyse non structurée"]
      && (response == [] ==> a.value.recommendations == ["Corriger les erreurs"])
      && (response != [] ==> |a.value.recommendations| == 1
                             && StartsWith(response, a.value.recommendations[0])
                             && |a.value.recommendations[0]| == if |response| < 200 then |response| else 200)
  {
  }

  /** A decoded object: a string `root_cause` wins as a singleton list, the
      recommendations fall back to the singular key, the severity to "medium". */
  lemma ParseObjectDefaults(response: string, decode: string -> AnalysisJson)
    requires decode(CleanJsonFences(response)).AnalysisObject?
    ensures var j := decode(CleanJsonFences(response));
      var a := ParseAnalysisResponse(TextReply(response), decode);
      && a.Ok?
      && (j.rootCause.Some? ==> a.value.rootCauses == [j.rootCause.value])
      && (j.rootCause.None? && j.rootCauses.None? ==> a.value.rootCauses == ["Cause inconnue"])
      && (j.recommendations.None? ==> |a.value.recommendations| == 1)
      && (j.recommendations.Some? ==> a.value.recommendations == j.recommendations.value)
      && (j.severity.None? ==> a.value.severity == Some("medium"))
      && a.value.severity.Some?
  {
  }

  // ---------------------------------------------------------------------------
  // _analyze_test_failures (src/agents/judge.py:191-203)
  // ---------------------------------------------------------------------------

  /** Ask the LLM about the errors; any exception on the way gives the fixed fallback. */
  function AnalyzeTestFailures(errors: seq<string>, llm: string -> AnalysisReply, decode: string -> AnalysisJson): Analysis {
    AnalysisOf(llm(BuildAnalysisPrompt(errors)), decode)
  }

  /** The analysis made of one LLM reply. */
  function AnalysisOf(reply: AnalysisReply, decode: string -> AnalysisJson): Analysis {
    if reply.ReplyFailure? then FallbackAnalysis
    else
      match ParseAnalysisResponse(reply, decode)
      case Ok(a) => a
      case Err(_) => FallbackAnalysis
  }

  /** The fallback is taken exactly when the LLM raises or its answer decodes
      to something that is not an object; otherwise the analysis is the
      parsed one, which always carries a severity. */
  lemma AnalyzeFallback(reply: AnalysisReply, decode: string -> AnalysisJson)
    ensures var a := AnalysisOf(reply, decode);
      (a.severity.None? <==> reply.ReplyFailure? || (reply.TextReply? && decode(CleanJsonFences(reply.text)).NotAnObject?))
      && (a.severity.None? ==> a == FallbackAnalysis)
      && (a.severity.Some? ==> Ok(a) == ParseAnalysisResponse(reply, decode))
  {
    match reply
    case ReplyFailure(_) =>
    case NonTextReply =>
      assert AnalysisOf(reply, decode).severity == Some("unknown");
    case TextReply(t) =>
      var r := ParseAnalysisResponse(reply, decode);
      match decode(CleanJsonFences(t))
      case Undecodable =>
        assert r.Ok? && r.value.severity == Some("unknown");
      case NotAnObject =>
        assert r == Err(AttributeError);
      case AnalysisObject(_, _, _, _, severity) =>
        assert r.Ok? && r.value.severity == Some(severity.GetOr("medium"));
  }

  // ---------------------------------------------------------------------------
  // test (src/agents/judge.py:79-189)
  // ---------------------------------------------------------------------------

  /** The result of the exception branch. */
  function ExceptionResult(message: string): JudgeResult {
    JudgeResult(false, 0, 0, [message], [InstallRecommendation], None)
  }

  /** `test`, over the tool's report record. */
  function Test(call: ToolCall, llm: string -> AnalysisReply, decode: string -> AnalysisJson): JudgeResult {
    match call
    case ToolRaised(message) => ExceptionResult(message)
    case Returned(report) =>
      var passed := report.passed.GetOr(0);
      if report.success.GetOr(false) then
        JudgeResult(true, passed, 0, [], [], None)
      else
        var errors := report.errors.GetOr([]);
        var analysis := AnalyzeTestFailures(errors, llm, decode);
        JudgeResult(false, passed, report.failed.GetOr(0), errors, analysis.recommendations, Some(analysis.rootCauses))
  }

  /** The three shapes of a Judge result: success exactly when the tool
      reports it, with no failure, error or recommendation and the tool's
      pass count; a failure copies the tool's counts and errors verbatim and
      takes the analysis; an exception reports its message and nothing passed. */
  lemma TestShapes(call: ToolCall, llm: string -> AnalysisReply, decode: string -> AnalysisJson)
    ensures var r := Test(call, llm, decode);
      && (r.success <==> call.Returned? && call.report.success == Some(true))
      && (r.success ==> r.passed == call.report.passed.GetOr(0) && r.failed == 0 && r.errors == []
                        && r.recommendations == [] && r.rootCauses.None?)
      && (call.Returned? && !r.success ==>
            var analysis := AnalyzeTestFailures(call.report.errors.GetOr([]), llm, decode);
            r.passed == call.report.passed.GetOr(0) && r.failed == call.report.failed.GetOr(0)
            && r.errors == call.report.errors.GetOr([])
            && r.recommendations == analysis.recommendations && r.rootCauses == Some(analysis.rootCauses))
      && (call.ToolRaised? ==> r.passed == 0 && r.failed == 0 && r.errors == [call.message]
                               && r.recommendations == [InstallRecommendation])
  {
  }

  /** A failing run sends the verbatim tool errors to the LLM: the reported
      error count is the tool's full list length. */
  lemma FailurePromptReportsAllErrors(call: ToolCall)
    requires call.Returned? && call.report.success != Some(true)
    ensures Contains(BuildAnalysisPrompt(call.report.errors.GetOr([])),
                     "NOMBRE D'ERREURS : " + IntToString(|call.report.errors.GetOr([])|))
  {
    AnalysisPromptContents(call.report.errors.GetOr([]));
  }

  // ---------------------------------------------------------------------------
  // test as written (src/agents/judge.py:94-96 against src/tools/pytest_tool.py:5-11)
  // ---------------------------------------------------------------------------

  /** What `run_pytest` actually gives back: its captured stdout, or the
      exception `subprocess.run` raised. */
  datatype PytestRun = Stdout(text: string) | RunRaised(message: string)

  const StrHasNoGet := "'str' object has no attribute 'get'"

  /** `test` as written: `run_pytest` returns a string, and the first
      `test_result.get(...)` raises `AttributeError`, which the handler turns
      into the exception result. */
  function TestAsWritten(run: PytestRun): JudgeResult {
    match run
    case RunRaised(message) => ExceptionResult(message)
    case Stdout(_) => ExceptionResult(StrHasNoGet)
  }

  /** As written, the Judge never reports success, whatever pytest printed;
      the corrected `Test` succeeds on a passing report. */
  lemma AsWrittenNeverSucceeds(run: PytestRun, llm: string -> AnalysisReply, decode: string -> AnalysisJson)
    ensures !TestAsWritten(run).success
    ensures run.Stdout? ==> TestAsWritten(run).errors == [StrHasNoGet] && TestAsWritten(run).passed == 0
    ensures Test(Returned(ToolReport(Some(3), Some(0), Some(true), Some([]))), llm, decode).success
  {
  }
}
