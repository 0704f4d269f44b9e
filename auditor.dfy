/** src/agents/auditor.py: the Auditor lists the target's Python files, asks
    the LLM about each one, parses the JSON answers into issues stamped with
    their file, and summarises them with fixed recommendations.  The LLM,
    pylint and `json.loads` are parameters. */
module Auditor {
  import opened Wrappers
  import opened Text
  import Llm
  import opened FileTools

  /** An issue dictionary; a field the LLM left out is `None`. */
  datatype Issue = Issue(
    file: Option<string>,
    line: Option<int>,
    severity: Option<string>,
    kind: Option<string>,
    message: Option<string>)

  /** What `json.loads` made of a cleaned LLM answer: a decode error, a value
      that is not an object (its `.get` raises `AttributeError`), or an object
      with an optional `issues` list. */
  datatype AuditJson = Undecodable | NotAnObject | AuditObject(issues: Option<seq<Issue>>)

  /** What `parse_pylint_output(run_pylint(path))` returns.  Each element of
      `issues` is the `repr()` of one pylint issue dictionary, so joining a
      sample with ", " between brackets gives the list's own `repr()`, as the
      prompt's f-string shows it. */
  datatype PylintResult = PylintResult(score: string, issues: seq<string>)

  /** The report `analyze` returns. */
  datatype AuditReport = AuditReport(
    filesAnalyzed: seq<string>,
    totalIssues: int,
    issues: seq<Issue>,
    recommendations: seq<string>)

  const NoFilesMessage := "Aucun fichier Python à analyser"
  const ConformMessage := "Le code semble conforme aux standards Python"
  const FallbackMessage := "Améliorer la qualité générale du code"

  /** The issue type → recommendation pairs, in the order they are checked. */
  const DocstringRow := ("missing_docstring", "Ajouter des docstrings aux fonctions et classes")
  const SyntaxRow := ("syntax_error", "Corriger les erreurs de syntaxe")
  const NamingRow := ("naming_convention", "Respecter les conventions de nommage PEP8")
  const ImportRow := ("import_error", "Vérifier les imports")
  const UnusedRow := ("unused_variable", "Supprimer les variables non utilisées")
  const RecommendationTable: seq<(string, string)> := [DocstringRow, SyntaxRow, NamingRow, ImportRow, UnusedRow]

  // ---------------------------------------------------------------------------
  // _parse_llm_response (src/agents/auditor.py:221-264)
  // ---------------------------------------------------------------------------

  /** The single issue reported when the answer is not valid JSON. */
  function ParseErrorIssue(filename: string): Issue {
    Issue(Some(filename), Some(0), Some("medium"), Some("parse_error"), Some("Erreur lors de l'analyse LLM"))
  }

  /** An issue after stamping: its own `file` if it had one, else `filename`. */
  function Stamp(issue: Issue, filename: string): Issue {
    if issue.file.Some? then issue else issue.(file := Some(filename))
  }

  /** Every issue of `raw`, stamped. */
  function StampAll(raw: seq<Issue>, filename: string): (r: seq<Issue>)
    ensures |r| == |raw| && forall k | 0 <= k < |raw| :: r[k] == Stamp(raw[k], filename)
  {
    seq(|raw|, k requires 0 <= k < |raw| => Stamp(raw[k], filename))
  }

  /** What parsing a decoded answer yields. */
  function ParsedIssues(data: AuditJson, filename: string): Result<seq<Issue>> {
    match data
    case Undecodable => Ok([ParseErrorIssue(filename)])
    case NotAnObject => Err(AttributeError)
    case AuditObject(issues) => Ok(StampAll(issues.GetOr([]), filename))
  }

  /** `_parse_llm_response`: clean the fences, decode, stamp each issue in place. */
  method ParseLlmResponse(response: string, filename: string, decode: string -> AuditJson)
    returns (r: Result<seq<Issue>>)
    ensures r == ParsedIssues(decode(CleanJsonFences(response)), filename)
  {
    var cleaned := CleanJsonFences(response);
    var data := decode(cleaned);
    match data {
      case Undecodable =>
        return Ok([ParseErrorIssue(filename)]);
      case NotAnObject =>
        return Err(AttributeError);
      case AuditObject(issues) =>
        var raw := issues.GetOr([]);
        var items := raw;
        var i := 0;
        while i < |items|
          invariant 0 <= i <= |items| == |raw|
          invariant forall k | 0 <= k < i :: items[k] == Stamp(raw[k], filename)
          invariant forall k | i <= k < |items| :: items[k] == raw[k]
        {
          if items[i].file.None? {
            items := items[i := items[i].(file := Some(filename))];
          }
          i := i + 1;
        }
        assert items == StampAll(raw, filename);
        return Ok(items);
    }
  }

  /** After parsing, every issue names a file, one that already named a file
      keeps it, and an undecodable answer gives exactly the parse-error issue. */
  lemma ParsedIssuesStamped(data: AuditJson, filename: string)
    ensures var r := ParsedIssues(data, filename);
      r.Ok? ==> forall k | 0 <= k < |r.value| :: r.value[k].file.Some?
    ensures data.AuditObject? && data.issues.Some? ==>
      var r := ParsedIssues(data, filename);
      r.Ok? && |r.value| == |data.issues.value|
      && forall k | 0 <= k < |r.value| ::
           r.value[k].file == (if data.issues.value[k].file.Some? then data.issues.value[k].file else Some(filename))
           && r.value[k].(file := None) == data.issues.value[k].(file := None)
    ensures data.AuditObject? && data.issues.None? ==> ParsedIssues(data, filename) == Ok([])
    ensures data.Undecodable? ==> ParsedIssues(data, filename) == Ok([ParseErrorIssue(filename)])
    ensures data.NotAnObject? <==> ParsedIssues(data, filename).Err?
  {
  }

  // ---------------------------------------------------------------------------
  // _generate_recommendations (src/agents/auditor.py:266-293)
  // ---------------------------------------------------------------------------

  /** The set of issue types, a missing type counting as "". */
  function TypesOf(issues: seq<Issue>): set<string> {
    set k | 0 <= k < |issues| :: issues[k].kind.GetOr("")
  }

  /** The messages of the table rows whose type occurs, in table order. */
  function MatchingMessages(types: set<string>, table: seq<(string, string)>): (m: seq<string>)
    ensures |m| <= |table|
  {
    if |table| == 0 then []
    else MatchingMessages(types, table[..|table| - 1]) + Pick(types, table[|table| - 1])
  }

  /** The message of one row, if its type occurs. */
  function Pick(types: set<string>, row: (string, string)): seq<string> {
    if row.0 in types then [row.1] else []
  }

  /** What the recommendation list is for a list of issues. */
  function Recommendations(issues: seq<Issue>): seq<string> {
    if |issues| == 0 then [ConformMessage]
    else
      var m := MatchingMessages(TypesOf(issues), RecommendationTable);
      if m == [] then [FallbackMessage] else m
  }

  /** `_generate_recommendations`: the five conditional appends, taken row by
      row from `RecommendationTable` in the source's order. */
  method GenerateRecommendations(issues: seq<Issue>) returns (r: seq<string>)
    ensures r == Recommendations(issues)
  {
    if |issues| == 0 {
      return [ConformMessage];
    }
    var types := TypesOf(issues);
    var tb := RecommendationTable;
    r := [];
    for j := 0 to |tb|
      invariant r == MatchingMessages(types, tb[..j])
    {
      MatchingSnoc(types, tb, j);
      if tb[j].0 in types {
        r := r + [tb[j].1];
      }
    }
    assert tb[..|tb|] == tb;
    if r == [] {
      r := [FallbackMessage];
    }
  }

  lemma MatchingSnoc(types: set<string>, tb: seq<(string, string)>, j: nat)
    requires j < |tb|
    ensures MatchingMessages(types, tb[..j + 1]) == MatchingMessages(types, tb[..j]) + Pick(types, tb[j])
  {
    assert tb[..j + 1][..j] == tb[..j];
  }

  lemma {:induction false} NoMatchingMessages(types: set<string>, tb: seq<(string, string)>)
    requires forall k | 0 <= k < |tb| :: tb[k].0 !in types
    ensures MatchingMessages(types, tb) == []
  {
    if |tb| > 0 {
      NoMatchingMessages(types, tb[..|tb| - 1]);
    }
  }

  /** With distinct messages, a row's message is picked exactly when its type occurs. */
  lemma {:induction false} MatchingMember(types: set<string>, tb: seq<(string, string)>, k: nat)
    requires k < |tb|
    requires forall i, j | 0 <= i < j < |tb| :: tb[i].1 != tb[j].1
    ensures tb[k].1 in MatchingMessages(types, tb) <==> tb[k].0 in types
  {
    var n := |tb|;
    var init := tb[..n - 1];
    if k == n - 1 {
      if tb[k].1 in MatchingMessages(types, init) {
        var i :| 0 <= i < |MatchingMessages(types, init)| && MatchingMessages(types, init)[i] == tb[k].1;
        MatchingOrigin(types, init, i);
      }
    } else {
      MatchingMember(types, init, k);
    }
  }

  /** Every picked message comes from some row whose type occurs. */
  lemma {:induction false} MatchingOrigin(types: set<string>, tb: seq<(string, string)>, i: nat)
    requires i < |MatchingMessages(types, tb)|
    ensures exists k | 0 <= k < |tb| :: tb[k].0 in types && tb[k].1 == MatchingMessages(types, tb)[i]
  {
    var n := |tb|;
    var before := MatchingMessages(types, tb[..n - 1]);
    if i < |before| {
      MatchingOrigin(types, tb[..n - 1], i);
      var k :| 0 <= k < n - 1 && tb[..n - 1][k].0 in types && tb[..n - 1][k].1 == before[i];
      assert tb[k] == tb[..n - 1][k];
    } else {
      assert tb[n - 1].0 in types && tb[n - 1].1 == MatchingMessages(types, tb)[i];
    }
  }

  lemma TableMessagesDistinct()
    ensures forall i, j | 0 <= i < j < |RecommendationTable| :: RecommendationTable[i].1 != RecommendationTable[j].1
  {
    var tb := RecommendationTable;
    assert |tb[0].1| == 47 && |tb[1].1| == 31 && |tb[2].1| == 41 && |tb[3].1| == 20 && |tb[4].1| == 37;
  }

  lemma FallbackIsNotInTable(k: nat)
    requires k < |RecommendationTable|
    ensures RecommendationTable[k].1 != FallbackMessage
  {
    var tb := RecommendationTable;
    assert FallbackMessage[0] == 'A' && |FallbackMessage| == 37;
    assert |tb[0].1| == 47 && |tb[1].1| == 31 && |tb[2].1| == 41 && |tb[3].1| == 20 && tb[4].1[0] == 'S';
  }

  /** With no issue the code is declared conformant; otherwise the list depends
      only on the set of types, a table message appears exactly when its type
      does, and when none does the single fallback message is returned. */
  lemma RecommendationsProperties(issues: seq<Issue>, others: seq<Issue>)
    ensures issues == [] ==> Recommendations(issues) == [ConformMessage]
    ensures |issues| > 0 && |others| > 0 && TypesOf(issues) == TypesOf(others) ==>
      Recommendations(issues) == Recommendations(others)
    ensures |issues| > 0 && (forall k | 0 <= k < |RecommendationTable| :: RecommendationTable[k].0 !in TypesOf(issues)) ==>
      Recommendations(issues) == [FallbackMessage]
  {
    if |issues| > 0 && forall k | 0 <= k < |RecommendationTable| :: RecommendationTable[k].0 !in TypesOf(issues) {
      NoMatchingMessages(TypesOf(issues), RecommendationTable);
    }
  }

  /** A table message is recommended exactly when its issue type occurs. */
  lemma RecommendationFor(issues: seq<Issue>, k: nat)
    requires |issues| > 0 && k < |RecommendationTable|
    ensures RecommendationTable[k].1 in Recommendations(issues) <==> RecommendationTable[k].0 in TypesOf(issues)
  {
    TableMessagesDistinct();
    MatchingMember(TypesOf(issues), RecommendationTable, k);
    FallbackIsNotInTable(k);
  }

  // ---------------------------------------------------------------------------
  // _build_analysis_prompt (src/agents/auditor.py:171-201)
  // ---------------------------------------------------------------------------

  /** The pylint issues shown to the LLM: the first ten at most. */
  function PylintSample(issues: seq<string>): seq<string> {
    if |issues| > 10 then issues[..10] else issues
  }

  /** The sample is a prefix of at most ten issues, and all of them when
      there are no more than ten. */
  lemma PylintSampleBounds(issues: seq<string>)
    ensures var sample := PylintSample(issues);
      |sample| <= 10 && |sample| <= |issues| && sample == issues[..|sample|]
      && (|issues| <= 10 ==> sample == issues)
  {
    assert issues[..|issues|] == issues;
  }

  /** The pieces of the analysis prompt around the file name and the code. */
  const AnalysisHead := "Analyse ce code Python et le rapport pylint.\n\nFICHIER : "

  function AnalysisMiddle(pylint: PylintResult): string {
    "\nSCORE PYLINT : " + pylint.score + "/10\n\nCODE :\n```python\n"
  }

  function AnalysisTail(pylint: PylintResult): string {
    "\n```\n\nERREURS PYLINT (échantillon) :\n[" + Join(", ", PylintSample(pylint.issues))
      + "]\n\nGénère un rapport JSON avec les problèmes détectés les plus importants."
  }

  function BuildAnalysisPrompt(filename: string, content: string, pylint: PylintResult): string {
    AnalysisHead + filename + AnalysisMiddle(pylint) + content + AnalysisTail(pylint)
  }

  /** The prompt shows the file name and the file's content. */
  lemma AnalysisPromptContents(filename: string, content: string, pylint: PylintResult)
    ensures Contains(BuildAnalysisPrompt(filename, content, pylint), filename)
    ensures Contains(BuildAnalysisPrompt(filename, content, pylint), content)
  {
    var middle := AnalysisMiddle(pylint);
    var tail := AnalysisTail(pylint);
    ContainsInfix(AnalysisHead, filename, middle + content + tail);
    assert AnalysisHead + filename + (middle + content + tail) == AnalysisHead + filename + middle + content + tail;
    ContainsInfix(AnalysisHead + filename + middle, content, tail);
  }

  // ---------------------------------------------------------------------------
  // analyze (src/agents/auditor.py:68-169)
  // ---------------------------------------------------------------------------

  /** What analysing one listed file yields: the read, pylint, the LLM call
      and the parse, any failure being raised to the caller. */
  function FileIssues(fs: FileSystem, targetDir: string, filename: string,
                      pylint: string -> PylintResult, llm: string -> Llm.Reply,
                      decode: string -> AuditJson): Result<seq<Issue>>
    reads fs
  {
    var fullPath := PathJoin(targetDir, filename);
    match fs.ReadFileSafe(fullPath, Some(targetDir))
    case Err(e) => Err(e)
    case Ok(content) =>
      match llm(BuildAnalysisPrompt(filename, content, pylint(fullPath)))
      case Failure(msg) => Err(Raised(msg))
      case Answer(text) => ParsedIssues(decode(CleanJsonFences(text)), filename)
  }

  /** The concatenated issues of `files` in order; the first failing file ends it. */
  function IssuesOf(fs: FileSystem, targetDir: string, files: seq<string>,
                    pylint: string -> PylintResult, llm: string -> Llm.Reply,
                    decode: string -> AuditJson): Result<seq<Issue>>
    reads fs
  {
    if |files| == 0 then Ok([])
    else
      match IssuesOf(fs, targetDir, files[..|files| - 1], pylint, llm, decode)
      case Err(e) => Err(e)
      case Ok(before) =>
        match FileIssues(fs, targetDir, files[|files| - 1], pylint, llm, decode)
        case Err(e) => Err(e)
        case Ok(found) => Ok(before + found)
  }

  /** The report for a target directory whose listing is `listing`. */
  function AuditOf(fs: FileSystem, targetDir: string, listing: Option<seq<string>>,
                   pylint: string -> PylintResult, llm: string -> Llm.Reply,
                   decode: string -> AuditJson): Result<AuditReport>
    reads fs
  {
    match ListPythonFiles(listing)
    case Err(e) => Err(e)
    case Ok(files) =>
      if |files| == 0 then Ok(AuditReport([], 0, [], [NoFilesMessage]))
      else
        match IssuesOf(fs, targetDir, files, pylint, llm, decode)
        case Err(e) => Err(e)
        case Ok(all) => Ok(AuditReport(files, |all|, all, Recommendations(all)))
  }

  /** One iteration of `analyze`'s loop: read, pylint, prompt, LLM, parse. */
  method AnalyzeFile(fs: FileSystem, targetDir: string, filename: string,
                     pylint: string -> PylintResult, llm: string -> Llm.Reply,
                     decode: string -> AuditJson)
    returns (r: Result<seq<Issue>>)
    ensures r == FileIssues(fs, targetDir, filename, pylint, llm, decode)
  {
    var fullPath := PathJoin(targetDir, filename);
    var content := fs.ReadFileSafe(fullPath, Some(targetDir));
    if content.Err? {
      return Err(content.error);
    }
    var prompt := BuildAnalysisPrompt(filename, content.value, pylint(fullPath));
    var reply := llm(prompt);
    if reply.Failure? {
      return Err(Raised(reply.message));
    }
    r := ParseLlmResponse(reply.text, filename, decode);
  }

  /** The audit of a target directory: it computes `AuditOf`. */
  method Analyze(fs: FileSystem, targetDir: string, listing: Option<seq<string>>,
                 pylint: string -> PylintResult, llm: string -> Llm.Reply,
                 decode: string -> AuditJson)
    returns (r: Result<AuditReport>)
    ensures r == AuditOf(fs, targetDir, listing, pylint, llm, decode)
  {
    var listed := ListPythonFiles(listing);
    if listed.Err? {
      return Err(listed.error);
    }
    var files := listed.value;
    if |files| == 0 {
      return Ok(AuditReport([], 0, [], [NoFilesMessage]));
    }
    var allIssues := AnalyzeFiles(fs, targetDir, files, pylint, llm, decode);
    if allIssues.Err? {
      return Err(allIssues.error);
    }
    var recommendations := GenerateRecommendations(allIssues.value);
    return Ok(AuditReport(files, |allIssues.value|, allIssues.value, recommendations));
  }

  /** The loop of `analyze`: `all_issues` extended file by file, in listing order. */
  method AnalyzeFiles(fs: FileSystem, targetDir: string, files: seq<string>,
                      pylint: string -> PylintResult, llm: string -> Llm.Reply,
                      decode: string -> AuditJson)
    returns (r: Result<seq<Issue>>)
    ensures r == IssuesOf(fs, targetDir, files, pylint, llm, decode)
  {
    var allIssues: seq<Issue> := [];
    var i := 0;
    while i < |files|
      invariant 0 <= i <= |files|
      invariant IssuesOf(fs, targetDir, files[..i], pylint, llm, decode) == Ok(allIssues)
    {
      var fileIssues := AnalyzeFile(fs, targetDir, files[i], pylint, llm, decode);
      IssuesOfSnoc(fs, targetDir, files, i, pylint, llm, decode);
      if fileIssues.Err? {
        assert IssuesOf(fs, targetDir, files[..i + 1], pylint, llm, decode) == Err(fileIssues.error);
        IssuesOfErrPersists(fs, targetDir, files, i + 1, pylint, llm, decode);
        return Err(fileIssues.error);
      }
      assert IssuesOf(fs, targetDir, files[..i + 1], pylint, llm, decode) == Ok(allIssues + fileIssues.value);
      allIssues := allIssues + fileIssues.value;
      i := i + 1;
    }
    assert files[..i] == files;
    return Ok(allIssues);
  }

  /** One more file: the prefix's result extended by that file's result. */
  lemma IssuesOfSnoc(fs: FileSystem, targetDir: string, files: seq<string>, i: nat,
                     pylint: string -> PylintResult, llm: string -> Llm.Reply,
                     decode: string -> AuditJson)
    requires i < |files|
    ensures files[..i + 1] == files[..i] + [files[i]]
    ensures var before := IssuesOf(fs, targetDir, files[..i], pylint, llm, decode);
      var found := FileIssues(fs, targetDir, files[i], pylint, llm, decode);
      IssuesOf(fs, targetDir, files[..i + 1], pylint, llm, decode)
      == if before.Err? then before else if found.Err? then Err(found.error) else Ok(before.value + found.value)
  {
    assert files[..i + 1][..i] == files[..i];
    assert files[..i + 1][i] == files[i];
  }

  /** Once a prefix of the files fails, the whole run fails with that error. */
  lemma {:induction false} IssuesOfErrPersists(fs: FileSystem, targetDir: string, files: seq<string>, j: nat,
                                               pylint: string -> PylintResult, llm: string -> Llm.Reply,
                                               decode: string -> AuditJson)
    requires j <= |files|
    requires IssuesOf(fs, targetDir, files[..j], pylint, llm, decode).Err?
    ensures IssuesOf(fs, targetDir, files, pylint, llm, decode) == IssuesOf(fs, targetDir, files[..j], pylint, llm, decode)
    decreases |files| - j
  {
    if j < |files| {
      assert files[..j + 1][..j] == files[..j];
      IssuesOfErrPersists(fs, targetDir, files, j + 1, pylint, llm, decode);
    } else {
      assert files[..j] == files;
    }
  }

  lemma FileIssuesStamped(fs: FileSystem, targetDir: string, filename: string,
                          pylint: string -> PylintResult, llm: string -> Llm.Reply,
                          decode: string -> AuditJson)
    ensures var r := FileIssues(fs, targetDir, filename, pylint, llm, decode);
      r.Ok? ==> forall k | 0 <= k < |r.value| :: r.value[k].file.Some?
  {
    var fullPath := PathJoin(targetDir, filename);
    var read := fs.ReadFileSafe(fullPath, Some(targetDir));
    if read.Ok? {
      var reply := llm(BuildAnalysisPrompt(filename, read.value, pylint(fullPath)));
      if reply.Answer? {
        ParsedIssuesStamped(decode(CleanJsonFences(reply.text)), filename);
      }
    }
  }

  /** Every issue collected from successfully analysed files names a file. */
  lemma {:induction false} IssuesOfStamped(fs: FileSystem, targetDir: string, files: seq<string>,
                                           pylint: string -> PylintResult, llm: string -> Llm.Reply,
                                           decode: string -> AuditJson)
    ensures var r := IssuesOf(fs, targetDir, files, pylint, llm, decode);
      r.Ok? ==> forall k | 0 <= k < |r.value| :: r.value[k].file.Some?
  {
    if |files| > 0 {
      var before := IssuesOf(fs, targetDir, files[..|files| - 1], pylint, llm, decode);
      var found := FileIssues(fs, targetDir, files[|files| - 1], pylint, llm, decode);
      IssuesOfStamped(fs, targetDir, files[..|files| - 1], pylint, llm, decode);
      FileIssuesStamped(fs, targetDir, files[|files| - 1], pylint, llm, decode);
      if before.Ok? && found.Ok? {
        var all := before.value + found.value;
        forall k | 0 <= k < |all| ensures all[k].file.Some? {
          if k < |before.value| {
            assert all[k] == before.value[k];
          } else {
            assert all[k] == found.value[k - |before.value|];
          }
        }
      }
    }
  }

  /** A successful report: the listed `.py` files in listing order, a total
      equal to the number of issues, every issue naming its file, and the
      fixed message when there is nothing to analyse. */
  lemma AuditReportShape(fs: FileSystem, targetDir: string, listing: Option<seq<string>>,
                         pylint: string -> PylintResult, llm: string -> Llm.Reply,
                         decode: string -> AuditJson)
    ensures var r := AuditOf(fs, targetDir, listing, pylint, llm, decode);
      r.Ok? ==> (listing.Some? && r.value.filesAnalyzed == PythonEntries(listing.value)
                 && r.value.totalIssues == |r.value.issues|
                 && (forall k | 0 <= k < |r.value.issues| :: r.value.issues[k].file.Some?))
    ensures listing.None? ==> AuditOf(fs, targetDir, listing, pylint, llm, decode) == Err(FileNotFoundError)
    ensures listing.Some? && PythonEntries(listing.value) == [] ==>
      AuditOf(fs, targetDir, listing, pylint, llm, decode) == Ok(AuditReport([], 0, [], [NoFilesMessage]))
  {
    if listing.Some? {
      IssuesOfStamped(fs, targetDir, PythonEntries(listing.value), pylint, llm, decode);
    }
  }

  /** The issues of a report are the per-file results concatenated in listing order. */
  lemma IssuesOfAppend(fs: FileSystem, targetDir: string, files: seq<string>, last: string,
                       pylint: string -> PylintResult, llm: string -> Llm.Reply,
                       decode: string -> AuditJson)
    requires IssuesOf(fs, targetDir, files, pylint, llm, decode).Ok?
    requires FileIssues(fs, targetDir, last, pylint, llm, decode).Ok?
    ensures IssuesOf(fs, targetDir, files + [last], pylint, llm, decode)
      == Ok(IssuesOf(fs, targetDir, files, pylint, llm, decode).value
            + FileIssues(fs, targetDir, last, pylint, llm, decode).value)
  {
    assert (files + [last])[..|files|] == files;
  }
}
