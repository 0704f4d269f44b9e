/** src/agents/fixer.py: the Fixer groups the audit's issues by file, asks the
    LLM for a corrected version of each file, cleans the code fences off the
    answer and writes it back; it also generates test and documentation files
    and retries a file after a test failure.  The LLM is a parameter. */
module Fixer {
  import opened Wrappers
  import opened Text
  import Llm
  import opened FileTools
  import opened Auditor

  datatype FixStatus = NoIssues | Completed

  /** The dictionary `fix` returns. */
  datatype FixResult = FixResult(filesFixed: seq<string>, totalFixes: int, status: FixStatus)

  // ---------------------------------------------------------------------------
  // _group_issues_by_file (src/agents/fixer.py:420-428)
  // ---------------------------------------------------------------------------

  /** The file an issue names, `unknown.py` when it names none. */
  function FileOf(issue: Issue): string {
    issue.file.GetOr("unknown.py")
  }

  /** The file of each issue, in order. */
  function Files(issues: seq<Issue>): (fs: seq<string>)
    ensures |fs| == |issues| && forall k | 0 <= k < |issues| :: fs[k] == FileOf(issues[k])
  {
    seq(|issues|, k requires 0 <= k < |issues| => FileOf(issues[k]))
  }

  /** The distinct elements of `xs` in order of first occurrence (dict key order). */
  function Dedup(xs: seq<string>): seq<string> {
    if |xs| == 0 then []
    else
      var d := Dedup(xs[..|xs| - 1]);
      if xs[|xs| - 1] in d then d else d + [xs[|xs| - 1]]
  }

  /** The issues of file `f`, in their original order. */
  function GroupOf(issues: seq<Issue>, f: string): seq<Issue> {
    if |issues| == 0 then []
    else GroupOf(issues[..|issues| - 1], f) + (if FileOf(issues[|issues| - 1]) == f then [issues[|issues| - 1]] else [])
  }

  /** `_group_issues_by_file`: the dict is returned as its key order and its map. */
  method GroupIssuesByFile(issues: seq<Issue>) returns (keys: seq<string>, grouped: map<string, seq<Issue>>)
    ensures keys == Dedup(Files(issues))
    ensures grouped.Keys == set f | f in keys
    ensures forall f | f in grouped :: grouped[f] == GroupOf(issues, f)
  {
    keys := [];
    grouped := map[];
    for i := 0 to |issues|
      invariant keys == Dedup(Files(issues[..i]))
      invariant grouped.Keys == set f | f in keys
      invariant forall f | f in grouped :: grouped[f] == GroupOf(issues[..i], f)
    {
      var issue := issues[i];
      var filename := FileOf(issue);
      ghost var next := issues[..i + 1];
      assert next[..i] == issues[..i] && next[i] == issue;
      assert Files(next) == Files(issues[..i]) + [filename];
      forall f
        ensures GroupOf(next, f) == GroupOf(issues[..i], f) + (if filename == f then [issue] else [])
      {
      }
      assert filename in grouped <==> filename in keys;
      if filename !in grouped {
        GroupOfAbsent(issues[..i], filename);
        grouped := grouped[filename := []];
        keys := keys + [filename];
      }
      grouped := grouped[filename := grouped[filename] + [issue]];
    }
    assert issues[..|issues|] == issues;
  }

  /** A file with no issue so far has an empty group. */
  lemma {:induction false} GroupOfAbsent(issues: seq<Issue>, f: string)
    requires f !in Dedup(Files(issues))
    ensures GroupOf(issues, f) == []
  {
    if |issues| > 0 {
      var n := |issues|;
      assert issues[..n - 1] + [issues[n - 1]] == issues;
      assert Files(issues) == Files(issues[..n - 1]) + [FileOf(issues[n - 1])];
      DedupMembers(Files(issues), FileOf(issues[n - 1]));
      DedupSubset(Files(issues[..n - 1]), Files(issues), f);
      GroupOfAbsent(issues[..n - 1], f);
    }
  }

  lemma DedupSubset(xs: seq<string>, ys: seq<string>, f: string)
    requires |xs| < |ys| && xs == ys[..|xs|] && |ys| == |xs| + 1
    requires f !in Dedup(ys)
    ensures f !in Dedup(xs)
  {
    assert ys[..|ys| - 1] == xs;
  }

  /** The keys are exactly the files named by some issue. */
  lemma {:induction false} DedupMembers(xs: seq<string>, f: string)
    ensures f in Dedup(xs) <==> f in xs
  {
    if |xs| > 0 {
      DedupMembers(xs[..|xs| - 1], f);
      assert xs == xs[..|xs| - 1] + [xs[|xs| - 1]];
    }
  }

  /** No key appears twice. */
  lemma {:induction false} DedupDistinct(xs: seq<string>)
    ensures forall i, j | 0 <= i < j < |Dedup(xs)| :: Dedup(xs)[i] != Dedup(xs)[j]
  {
    if |xs| > 0 {
      DedupDistinct(xs[..|xs| - 1]);
    }
  }

  /** Grouping keeps order: the group of a concatenation concatenates the groups. */
  lemma {:induction false} GroupOfAppend(a: seq<Issue>, b: seq<Issue>, f: string)
    ensures GroupOf(a + b, f) == GroupOf(a, f) + GroupOf(b, f)
  {
    if |b| == 0 {
      assert a + b == a;
    } else {
      var n := |b|;
      assert (a + b)[..|a + b| - 1] == a + b[..n - 1];
      assert (a + b)[|a + b| - 1] == b[n - 1];
      GroupOfAppend(a, b[..n - 1], f);
    }
  }

  /** A group holds only issues of its own file. */
  lemma {:induction false} GroupOfOwnFile(issues: seq<Issue>, f: string)
    ensures forall x | x in GroupOf(issues, f) :: FileOf(x) == f
  {
    if |issues| > 0 {
      GroupOfOwnFile(issues[..|issues| - 1], f);
    }
  }

  /** The sizes of the groups of `keys`, added up. */
  function GroupSizes(issues: seq<Issue>, keys: seq<string>): nat {
    if |keys| == 0 then 0 else |GroupOf(issues, keys[0])| + GroupSizes(issues, keys[1..])
  }

  /** Every issue lands in exactly one group: the group sizes add up to the
      number of issues, and a group only holds issues of its key. */
  lemma {:induction false} GroupsPartition(issues: seq<Issue>)
    ensures GroupSizes(issues, Dedup(Files(issues))) == |issues|
  {
    if |issues| > 0 {
      var n := |issues|;
      var init := issues[..n - 1];
      var last := issues[n - 1];
      var f := FileOf(last);
      assert issues == init + [last];
      assert Files(issues) == Files(init) + [f];
      assert Files(issues)[..n - 1] == Files(init);
      GroupsPartition(init);
      var keys := Dedup(Files(init));
      DedupDistinct(Files(init));
      DedupMembers(Files(init), f);
      GroupSizesStep(init, last, keys);
      if f !in keys {
        GroupOfAbsent(init, f);
        GroupSizesSnoc(issues, keys, f);
      }
    }
  }

  /** Adding one issue grows by one the group of its file, if that file is a key. */
  lemma {:induction false} GroupSizesStep(init: seq<Issue>, last: Issue, keys: seq<string>)
    requires forall i, j | 0 <= i < j < |keys| :: keys[i] != keys[j]
    ensures GroupSizes(init + [last], keys) == GroupSizes(init, keys) + (if FileOf(last) in keys then 1 else 0)
  {
    if |keys| > 0 {
      var issues := init + [last];
      assert issues[..|issues| - 1] == init;
      assert forall i, j | 0 <= i < j < |keys[1..]| :: keys[1..][i] != keys[1..][j] by {
        forall i, j | 0 <= i < j < |keys[1..]| ensures keys[1..][i] != keys[1..][j] {
          assert keys[1..][i] == keys[i + 1] && keys[1..][j] == keys[j + 1];
        }
      }
      GroupSizesStep(init, last, keys[1..]);
      if FileOf(last) == keys[0] {
        assert FileOf(last) !in keys[1..] by {
          forall i | 0 <= i < |keys[1..]| ensures keys[1..][i] != keys[0] {
            assert keys[1..][i] == keys[i + 1];
          }
        }
      }
      assert FileOf(last) in keys <==> FileOf(last) == keys[0] || FileOf(last) in keys[1..];
    }
  }

  lemma {:induction false} GroupSizesSnoc(issues: seq<Issue>, keys: seq<string>, f: string)
    ensures GroupSizes(issues, keys + [f]) == GroupSizes(issues, keys) + |GroupOf(issues, f)|
  {
    if |keys| == 0 {
      assert keys + [f] == [f];
      assert [f][1..] == [];
    } else {
      assert (keys + [f])[1..] == keys[1..] + [f];
      GroupSizesSnoc(issues, keys[1..], f);
    }
  }

  /** The (file, issues) pairs of the grouped dict, in key order. */
  function GroupItems(issues: seq<Issue>): (items: seq<(string, seq<Issue>)>)
    ensures |items| == |Dedup(Files(issues))|
  {
    var keys := Dedup(Files(issues));
    seq(|keys|, i requires 0 <= i < |keys| => (keys[i], GroupOf(issues, keys[i])))
  }


  // ---------------------------------------------------------------------------
  // _clean_code_response (src/agents/fixer.py:478-490)
  // ---------------------------------------------------------------------------

  /** Drop a leading "```python", or else a leading "```", then a trailing "```". */
  function DropCodeFences(c0: string): string {
    var c1 := if StartsWith(c0, "```python") then c0[9..]
              else if StartsWith(c0, "```") then c0[3..]
              else c0;
    if EndsWith(c1, "```") then c1[..|c1| - 3] else c1
  }

  function CleanCodeResponse(response: string): (r: string)
    ensures r == [] || (!IsSpace(r[0]) && !IsSpace(r[|r| - 1]))
  {
    Strip(DropCodeFences(Strip(response)))
  }

  lemma PythonFenceDropped(body: string)
    ensures DropCodeFences("```python\n" + body + "\n```") == "\n" + body + "\n"
  {
    var inner := "\n" + body + "\n";
    var tail := inner + "```";
    var fenced := "```python" + tail;
    assert fenced == "```python\n" + body + "\n```";
    assert fenced[..9] == "```python";
    assert fenced[9..] == tail;
    assert tail[..|tail| - 3] == inner;
    assert tail[|tail| - 3..] == "```";
  }

  /** A ```python block cleans to its stripped body: the language tag is
      removed with the fence (it wins over the bare fence). */
  lemma PythonFenceRoundTrip(body: string)
    ensures CleanCodeResponse("```python\n" + body + "\n```") == Strip(body)
  {
    var fenced := "```python\n" + body + "\n```";
    var inner := "\n" + body + "\n";
    assert fenced[0] == '`' && fenced[|fenced| - 1] == '`';
    StripUnpadded(fenced);
    PythonFenceDropped(body);
    assert DropCodeFences(Strip(fenced)) == inner;
    NewlineIsSpace();
    StripPadded("\n", body, "\n");
  }

  lemma BareFenceDropped(body: string)
    ensures DropCodeFences("```\n" + body + "\n```") == "\n" + body + "\n"
  {
    var inner := "\n" + body + "\n";
    var tail := inner + "```";
    var fenced := "```" + tail;
    assert fenced == "```\n" + body + "\n```";
    assert fenced[3] == '\n';
    assert fenced[..3] == "```";
    assert fenced[3..] == tail;
    assert tail[..|tail| - 3] == inner;
    assert tail[|tail| - 3..] == "```";
  }

  /** A bare ``` block also cleans to its stripped body. */
  lemma BareFenceRoundTrip(body: string)
    ensures CleanCodeResponse("```\n" + body + "\n```") == Strip(body)
  {
    var fenced := "```\n" + body + "\n```";
    var inner := "\n" + body + "\n";
    assert fenced[0] == '`' && fenced[|fenced| - 1] == '`';
    StripUnpadded(fenced);
    BareFenceDropped(body);
    assert DropCodeFences(Strip(fenced)) == inner;
    NewlineIsSpace();
    StripPadded("\n", body, "\n");
  }

  /** An answer without fences is only stripped. */
  lemma UnfencedAnswer(response: string)
    requires !StartsWith(Strip(response), "```") && !EndsWith(Strip(response), "```")
    ensures CleanCodeResponse(response) == Strip(response)
  {
    var c0 := Strip(response);
    assert !StartsWith(c0, "```python") by {
      if |c0| >= 9 {
        assert c0[..3] == c0[..9][..3];
      }
    }
    assert DropCodeFences(c0) == c0;
    StripIdempotent(response);
  }

  // ---------------------------------------------------------------------------
  // _build_fix_prompt (src/agents/fixer.py:430-459)
  // ---------------------------------------------------------------------------

  /** The line describing one issue, with the defaults for missing fields. */
  function IssueLine(issue: Issue): string {
    var line := match issue.line case Some(n) => IntToString(n) case None => "?";
    "- Ligne " + line + " : " + issue.message.GetOr("Problème non spécifié")
      + " (Type: " + issue.kind.GetOr("unknown") + ", Sévérité: " + issue.severity.GetOr("medium") + ")"
  }

  function IssueLines(issues: seq<Issue>): (lines: seq<string>)
    ensures |lines| == |issues| && forall k | 0 <= k < |issues| :: lines[k] == IssueLine(issues[k])
  {
    seq(|issues|, k requires 0 <= k < |issues| => IssueLine(issues[k]))
  }

  const FixPreamble := "Corrige ce code Python selon les problèmes détectés.\n\nFICHIER : "
  const FixListHeader := "\n\nPROBLÈMES À CORRIGER :\n"
  const CodeHeader := "\n\nCODE ACTUEL :\n```python\n"
  /** The lines after the code block of the fix prompt. */
  const FixInstructionsLines: seq<string> :=
     ["```",
      "",
      "INSTRUCTIONS :",
      "1. Corrige tous les problèmes listés",
      "2. Ajoute les docstrings manquantes (format Google/NumPy style)",
      "3. Respecte PEP8 (espaces, nommage, etc.)",
      "4. Ne change PAS la logique du code",
      "5. Conserve tous les noms de fonctions/variables",
      "",
      "Retourne uniquement le code Python corrigé, sans explication."]

  /** The line of the prompt that states how many issues there are. */
  function CountLine(count: int): string {
    "\nNOMBRE DE PROBLÈMES : " + IntToString(count)
  }

  function BuildFixPrompt(filename: string, content: string, issues: seq<Issue>): string {
    FixPreamble + filename + CountLine(|issues|) + FixListHeader + Join("\n", IssueLines(issues))
      + CodeHeader + Join("\n", [content] + FixInstructionsLines)
  }

  /** The prompt names the file, states how many issues there are and holds
      the current code and the line of every issue. */
  lemma FixPromptContents(filename: string, content: string, issues: seq<Issue>)
    ensures var p := BuildFixPrompt(filename, content, issues);
      Contains(p, filename) && Contains(p, CountLine(|issues|)) && Contains(p, content)
      && forall k | 0 <= k < |issues| :: Contains(p, IssueLine(issues[k]))
  {
    FixPromptParts(filename, content, issues, FixInstructionsLines);
  }

  /** The containments above, for any closing lines. */
  lemma FixPromptParts(filename: string, content: string, issues: seq<Issue>, tail: seq<string>)
    ensures var p := FixPreamble + filename + CountLine(|issues|) + FixListHeader + Join("\n", IssueLines(issues))
                     + CodeHeader + Join("\n", [content] + tail);
      Contains(p, filename) && Contains(p, CountLine(|issues|)) && Contains(p, content)
      && forall k | 0 <= k < |issues| :: Contains(p, IssueLine(issues[k]))
  {
    var count := CountLine(|issues|);
    var issueText := Join("\n", IssueLines(issues));
    var j := Join("\n", [content] + tail);
    var p2 := FixPreamble + filename + count;
    FixPromptHead(filename, count);
    ContainsInPrefixes(p2, FixListHeader, issueText, CodeHeader, filename);
    ContainsInPrefix(p2 + FixListHeader + issueText + CodeHeader, j, filename);
    ContainsInPrefixes(p2, FixListHeader, issueText, CodeHeader, count);
    ContainsInPrefix(p2 + FixListHeader + issueText + CodeHeader, j, count);
    FixPromptTail(p2 + FixListHeader, IssueLines(issues), content, tail);
  }

  lemma FixPromptHead(filename: string, count: string)
    ensures Contains(FixPreamble + filename + count, filename)
    ensures Contains(FixPreamble + filename + count, count)
  {
    ContainsInfix(FixPreamble, filename, count);
    ContainsInfix(FixPreamble + filename, count, []);
    assert FixPreamble + filename + count + [] == FixPreamble + filename + count;
  }

  lemma FixPromptTail(head: string, lines: seq<string>, content: string, tail: seq<string>)
    ensures var p := head + Join("\n", lines) + CodeHeader + Join("\n", [content] + tail);
      Contains(p, content) && forall k | 0 <= k < |lines| :: Contains(p, lines[k])
  {
    var p4 := head + Join("\n", lines);
    var j := Join("\n", [content] + tail);
    JoinContains("\n", [content] + tail, 0);
    ContainsAfterPrefix(p4 + CodeHeader, j, content);
    forall k | 0 <= k < |lines| ensures Contains(p4 + CodeHeader + j, lines[k]) {
      JoinContains("\n", lines, k);
      ContainsAfterPrefix(head, Join("\n", lines), lines[k]);
      ContainsInPrefix(p4, CodeHeader, lines[k]);
      ContainsInPrefix(p4 + CodeHeader, j, lines[k]);
    }
  }

  lemma ContainsInPrefixes(a: string, b: string, c: string, d: string, sub: string)
    requires Contains(a, sub)
    ensures Contains(a + b + c + d, sub)
  {
    ContainsInPrefix(a, b, sub);
    ContainsInPrefix(a + b, c, sub);
    ContainsInPrefix(a + b + c, d, sub);
  }

  // ---------------------------------------------------------------------------
  // fix (src/agents/fixer.py:68-173)
  // ---------------------------------------------------------------------------

  /** What happened to one group. */
  datatype StepKind = ReadFailed | WriteFailed | Fixed

  /** The loop state of `fix`: the file map, the accumulators, one step kind
      per group handled, and the exception that ended the loop, if any. */
  datatype FixProgress = FixProgress(
    files: map<string, string>,
    filesFixed: seq<string>,
    totalFixes: nat,
    steps: seq<StepKind>,
    raised: Option<Error>)

  /** The world `fix` runs in: the file system's fixed parts, the target
      directory and the LLM. */
  datatype FixEnv = FixEnv(abspath: string -> string, unwritable: set<string>, targetDir: string,
                           llm: string -> Llm.Reply)

  /** What the loop of `fix` sees of that world: the LLM is only ever asked
      the fix prompt of a file name, its content and its issues, so `ask`
      gives the reply to that prompt. */
  datatype FixLoop = FixLoop(abspath: string -> string, unwritable: set<string>, targetDir: string,
                             ask: (string, string, seq<Issue>) -> Llm.Reply)

  function FixLoopOf(e: FixEnv): FixLoop {
    FixLoop(e.abspath, e.unwritable, e.targetDir, (name, content, issues) => e.llm(BuildFixPrompt(name, content, issues)))
  }

  /** One group: read (skip on failure), ask the LLM (an exception ends `fix`),
      clean, write (skip on failure, else record the fix). */
  function FixStep(p: FixProgress, item: (string, seq<Issue>), e: FixLoop): FixProgress {
    if p.raised.Some? then p
    else
      var filepath := PathJoin(e.targetDir, item.0);
      match ReadFrom(p.files, e.abspath, filepath, Some(e.targetDir))
      case Err(_) => p.(steps := p.steps + [ReadFailed])
      case Ok(content) =>
        match e.ask(item.0, content, item.1)
        case Failure(msg) => p.(raised := Some(Raised(msg)))
        case Answer(text) =>
          if WriteOutcome(e.unwritable, e.abspath, filepath, Some(e.targetDir)).Fail? then
            p.(steps := p.steps + [WriteFailed])
          else
            FixProgress(Written(p.files, e.unwritable, e.abspath, filepath, CleanCodeResponse(text), Some(e.targetDir)),
                        p.filesFixed + [item.0], p.totalFixes + |item.1|, p.steps + [Fixed], None)
  }

  /** The loop over the first groups. */
  function FixFold(files: map<string, string>, items: seq<(string, seq<Issue>)>, e: FixLoop): FixProgress {
    if |items| == 0 then FixProgress(files, [], 0, [], None)
    else FixStep(FixFold(files, items[..|items| - 1], e), items[|items| - 1], e)
  }

  /** One step either raises, changing nothing else, or records one step
      kind: a failed read or write changes no file and no counter, a fix
      records the file and its issue count and replaces exactly that file,
      which then reads back as the cleaned answer. */
  lemma FixStepEffect(p: FixProgress, item: (string, seq<Issue>), e: FixLoop)
    requires p.raised.None?
    ensures var q := FixStep(p, item, e);
      var path := PathJoin(e.targetDir, item.0);
      var read := ReadFrom(p.files, e.abspath, path, Some(e.targetDir));
      && (q.raised.Some? ==> q.files == p.files && q.steps == p.steps && q.filesFixed == p.filesFixed && q.totalFixes == p.totalFixes)
      && (q.raised.Some? <==> read.Ok? && e.ask(item.0, read.value, item.1).Failure?)
      && (q.raised.None? ==> |q.steps| == |p.steps| + 1 && q.steps[..|p.steps|] == p.steps)
      && (q.raised.None? && q.steps[|p.steps|] != Fixed ==>
            q.files == p.files && q.filesFixed == p.filesFixed && q.totalFixes == p.totalFixes)
      && (q.raised.None? && q.steps[|p.steps|] == ReadFailed <==> read.Err?)
      && (q.raised.None? && q.steps[|p.steps|] == Fixed ==>
            q.filesFixed == p.filesFixed + [item.0] && q.totalFixes == p.totalFixes + |item.1|
            && q.files == p.files[e.abspath(path) := CleanCodeResponse(e.ask(item.0, read.value, item.1).text)])
  {
  }

  /** What one step does to the counters: an exception keeps them, a read or
      write failure adds its step kind only, a fix adds the file and its
      issue count. */
  lemma FixStepCounts(p: FixProgress, item: (string, seq<Issue>), e: FixLoop)
    requires p.raised.None?
    ensures var q := FixStep(p, item, e);
      && (q.raised.Some? ==> q.steps == p.steps && q.filesFixed == p.filesFixed && q.totalFixes == p.totalFixes)
      && (q.raised.None? ==> exists kind :: q.steps == p.steps + [kind])
      && (q.raised.None? && q.steps[|p.steps|] == Fixed ==>
            q.filesFixed == p.filesFixed + [item.0] && q.totalFixes == p.totalFixes + |item.1|)
      && (q.raised.None? && q.steps[|p.steps|] != Fixed ==>
            q.filesFixed == p.filesFixed && q.totalFixes == p.totalFixes)
  {
  }

  /** The names of the groups whose step is `Fixed`, in group order. */
  function FixedNames(items: seq<(string, seq<Issue>)>, steps: seq<StepKind>): seq<string>
    requires |steps| <= |items|
  {
    if |steps| == 0 then []
    else FixedNames(items, steps[..|steps| - 1]) + (if steps[|steps| - 1] == Fixed then [items[|steps| - 1].0] else [])
  }

  /** The issue counts of the groups whose step is `Fixed`, added up. */
  function FixedSizes(items: seq<(string, seq<Issue>)>, steps: seq<StepKind>): nat
    requires |steps| <= |items|
  {
    if |steps| == 0 then 0
    else FixedSizes(items, steps[..|steps| - 1]) + (if steps[|steps| - 1] == Fixed then |items[|steps| - 1].1| else 0)
  }

  /** Fix accounting: without an exception every group has a step;
      `files_fixed` lists exactly the groups whose write succeeded, in group
      order, and `total_fixes` adds up their issue counts. */
  lemma {:induction false} FixAccounting(files: map<string, string>, items: seq<(string, seq<Issue>)>, e: FixLoop)
    ensures var p := FixFold(files, items, e);
      |p.steps| <= |items|
      && (p.raised.None? ==> |p.steps| == |items|)
      && p.filesFixed == FixedNames(items, p.steps)
      && p.totalFixes == FixedSizes(items, p.steps)
  {
    if |items| > 0 {
      var n := |items|;
      var init := items[..n - 1];
      FixAccounting(files, init, e);
      var q := FixFold(files, init, e);
      FixedPrefix(init, items, q.steps);
      var p := FixStep(q, items[n - 1], e);
      assert p == FixFold(files, items, e);
      if q.raised.None? {
        FixStepCounts(q, items[n - 1], e);
        AccountingStep(items, q, p);
      }
    }
  }

  /** One more step keeps the accounting of `FixAccounting`, whatever the
      step did, as long as it changed the counters as `FixStepCounts` says. */
  lemma AccountingStep(items: seq<(string, seq<Issue>)>, q: FixProgress, p: FixProgress)
    requires |items| > 0 && q.raised.None? && |q.steps| == |items| - 1
    requires q.filesFixed == FixedNames(items, q.steps) && q.totalFixes == FixedSizes(items, q.steps)
    requires p.raised.Some? ==> p.steps == q.steps && p.filesFixed == q.filesFixed && p.totalFixes == q.totalFixes
    requires p.raised.None? ==> exists kind :: p.steps == q.steps + [kind]
    requires p.raised.None? && p.steps[|q.steps|] == Fixed ==>
               p.filesFixed == q.filesFixed + [items[|items| - 1].0] && p.totalFixes == q.totalFixes + |items[|items| - 1].1|
    requires p.raised.None? && p.steps[|q.steps|] != Fixed ==>
               p.filesFixed == q.filesFixed && p.totalFixes == q.totalFixes
    ensures |p.steps| <= |items| && (p.raised.None? ==> |p.steps| == |items|)
    ensures p.filesFixed == FixedNames(items, p.steps) && p.totalFixes == FixedSizes(items, p.steps)
  {
    if p.raised.None? {
      assert p.steps[..|p.steps| - 1] == q.steps;
    }
  }

  /** The accounting of steps only looks at the groups they cover. */
  lemma {:induction false} FixedPrefix(init: seq<(string, seq<Issue>)>, items: seq<(string, seq<Issue>)>, steps: seq<StepKind>)
    requires |steps| <= |init| <= |items| && init == items[..|init|]
    ensures FixedNames(init, steps) == FixedNames(items, steps)
    ensures FixedSizes(init, steps) == FixedSizes(items, steps)
  {
    if |steps| > 0 {
      FixedPrefix(init, items, steps[..|steps| - 1]);
    }
  }

  /** Once a group raises, the remaining groups change nothing. */
  lemma {:induction false} FixFoldRaised(files: map<string, string>, items: seq<(string, seq<Issue>)>, j: nat, e: FixLoop)
    requires j <= |items|
    requires FixFold(files, items[..j], e).raised.Some?
    ensures FixFold(files, items, e) == FixFold(files, items[..j], e)
    decreases |items| - j
  {
    if j < |items| {
      assert items[..j + 1][..j] == items[..j];
      FixFoldRaised(files, items, j + 1, e);
    } else {
      assert items[..j] == items;
    }
  }

  /** The result and the final file map of `fix`. */
  function FixOutcome(files: map<string, string>, issues: seq<Issue>, e: FixEnv): (Result<FixResult>, map<string, string>) {
    if |issues| == 0 then (Ok(FixResult([], 0, NoIssues)), files)
    else
      var p := FixFold(files, GroupItems(issues), FixLoopOf(e));
      if p.raised.Some? then (Err(p.raised.value), p.files)
      else (Ok(FixResult(p.filesFixed, p.totalFixes, Completed)), p.files)
  }

  /** The step of a group whose file cannot be read. */
  lemma FixStepUnread(p: FixProgress, item: (string, seq<Issue>), e: FixLoop)
    requires p.raised.None?
    requires ReadFrom(p.files, e.abspath, PathJoin(e.targetDir, item.0), Some(e.targetDir)).Err?
    ensures FixStep(p, item, e) == p.(steps := p.steps + [ReadFailed])
  {
  }

  /** The step of a group whose LLM call raised. */
  lemma FixStepRaised(p: FixProgress, item: (string, seq<Issue>), e: FixLoop, content: string, message: string)
    requires p.raised.None?
    requires ReadFrom(p.files, e.abspath, PathJoin(e.targetDir, item.0), Some(e.targetDir)) == Ok(content)
    requires e.ask(item.0, content, item.1) == Llm.Failure(message)
    ensures FixStep(p, item, e) == p.(raised := Some(Raised(message)))
  {
  }

  /** The step of a group whose LLM call answered. */
  lemma FixStepAnswered(p: FixProgress, item: (string, seq<Issue>), e: FixLoop, content: string, text: string)
    requires p.raised.None?
    requires ReadFrom(p.files, e.abspath, PathJoin(e.targetDir, item.0), Some(e.targetDir)) == Ok(content)
    requires e.ask(item.0, content, item.1) == Llm.Answer(text)
    ensures var filepath := PathJoin(e.targetDir, item.0);
      FixStep(p, item, e)
        == if WriteOutcome(e.unwritable, e.abspath, filepath, Some(e.targetDir)).Fail? then p.(steps := p.steps + [WriteFailed])
           else FixProgress(Written(p.files, e.unwritable, e.abspath, filepath, CleanCodeResponse(text), Some(e.targetDir)),
                            p.filesFixed + [item.0], p.totalFixes + |item.1|, p.steps + [Fixed], None)
  {
  }

  /** One iteration of `fix`'s loop over the grouped dict; `e.ask` builds
      the fix prompt and invokes the LLM. */
  method FixOne(fs: FileSystem, filename: string, fileIssues: seq<Issue>, e: FixLoop, p: FixProgress)
    returns (q: FixProgress)
    modifies fs`files
    requires e.abspath == fs.abspath && e.unwritable == fs.unwritable
    requires p.raised.None? && p.files == fs.files
    ensures q == FixStep(p, (filename, fileIssues), e)
    ensures fs.files == q.files
  {
    var filepath := PathJoin(e.targetDir, filename);
    var original := fs.ReadFileSafe(filepath, Some(e.targetDir));
    if original.Err? {
      FixStepUnread(p, (filename, fileIssues), e);
      return p.(steps := p.steps + [ReadFailed]);
    }
    var reply := e.ask(filename, original.value, fileIssues);
    if reply.Failure? {
      FixStepRaised(p, (filename, fileIssues), e, original.value, reply.message);
      return p.(raised := Some(Raised(reply.message)));
    }
    FixStepAnswered(p, (filename, fileIssues), e, original.value, reply.text);
    var fixed := CleanCodeResponse(reply.text);
    var written := fs.WriteFileSafe(filepath, fixed, Some(e.targetDir));
    if written.Fail? {
      return p.(steps := p.steps + [WriteFailed]);
    }
    return FixProgress(fs.files, p.filesFixed + [filename], p.totalFixes + |fileIssues|, p.steps + [Fixed], None);
  }

  /** `fix`: an empty issue list returns "no_issues" without touching any
      file; otherwise every group is handled in key order, an LLM exception
      ending the call with the writes done so far kept. */
  method Fix(fs: FileSystem, issues: seq<Issue>, targetDir: string, llm: string -> Llm.Reply)
    returns (r: Result<FixResult>)
    modifies fs`files
    ensures (r, fs.files) == FixOutcome(old(fs.files), issues, FixEnv(fs.abspath, fs.unwritable, targetDir, llm))
  {
    if |issues| == 0 {
      return Ok(FixResult([], 0, NoIssues));
    }
    var e := FixLoopOf(FixEnv(fs.abspath, fs.unwritable, targetDir, llm));
    var keys, grouped := GroupIssuesByFile(issues);
    ghost var items := GroupItems(issues);
    assert |items| == |keys|;
    var p := FixProgress(fs.files, [], 0, [], None);
    var i := 0;
    while i < |keys|
      invariant 0 <= i <= |keys|
      invariant p.raised.None? && p.files == fs.files
      invariant p == FixFold(old(fs.files), items[..i], e)
    {
      var filename := keys[i];
      assert filename in grouped;
      assert items[i] == (filename, grouped[filename]);
      assert items[..i + 1][..i] == items[..i];
      p := FixOne(fs, filename, grouped[filename], e, p);
      if p.raised.Some? {
        FixFoldRaised(old(fs.files), items, i + 1, e);
        return Err(p.raised.value);
      }
      i := i + 1;
    }
    assert items[..i] == items;
    return Ok(FixResult(p.filesFixed, p.totalFixes, Completed));
  }

  /** An empty report fixes nothing and touches no file; otherwise, without
      an LLM exception, the result lists the groups whose write succeeded and
      adds up their issue counts. */
  lemma FixResultProperties(files: map<string, string>, issues: seq<Issue>, e: FixEnv)
    ensures |issues| == 0 ==> FixOutcome(files, issues, e) == (Ok(FixResult([], 0, NoIssues)), files)
    ensures var p := FixFold(files, GroupItems(issues), FixLoopOf(e));
      |issues| > 0 && p.raised.None? ==>
        |p.steps| == |GroupItems(issues)|
        && FixOutcome(files, issues, e).0 == Ok(FixResult(FixedNames(GroupItems(issues), p.steps),
                                                          FixedSizes(GroupItems(issues), p.steps), Completed))
  {
    FixAccounting(files, GroupItems(issues), FixLoopOf(e));
  }

  // ---------------------------------------------------------------------------
  // generate_tests, generate_documentation, retry_fix (src/agents/fixer.py:175-418)
  // ---------------------------------------------------------------------------

  /** The name of the generated test file: `test_` before the file name. */
  function TestFileName(filename: string): (t: string)
    ensures StartsWith(t, "test_") && EndsWith(t, filename)
  {
    "test_" + filename
  }

  /** The name of the generated documentation: `README_`, the file name
      with every `.py` removed, then `.md`. */
  function DocFileName(filename: string): (d: string)
    ensures StartsWith(d, "README_") && EndsWith(d, ".md")
  {
    "README_" + ReplaceAll(filename, ".py", "") + ".md"
  }

  /** A plain `<stem>.py` gets `README_<stem>.md`. */
  lemma DocFileNameOfModule(stem: string)
    requires !Contains(stem, ".py")
    ensures DocFileName(stem + ".py") == "README_" + stem + ".md"
  {
    RemovePySuffix(stem);
  }

  /** The lines after the code block of each request's prompt. */
  const TestsInstructionsLines: seq<string> :=
     ["```",
      "",
      "INSTRUCTIONS :",
      "1. Crée au moins 5 tests unitaires complets",
      "2. Utilise pytest et les fixtures si nécessaire",
      "3. Teste les cas normaux ET les cas d'erreur",
      "4. Nomme les tests de façon explicite (test_nom_fonction_cas)",
      "5. Ajoute des docstrings aux tests",
      "6. Import toutes les dépendances nécessaires",
      "",
      "Retourne UNIQUEMENT le code des tests, sans explication."]
  const DocsInstructionsLines: seq<string> :=
     ["```",
      "",
      "INSTRUCTIONS :",
      "Crée un README.md avec :",
      "1. ",
      "   - Résumé du module/fichier",
      "   - Objectif principal",
      "",
      "2. ",
      "   - Liste des fonctions avec description",
      "   - Paramètres et retours",
      "",
      "3. ",
      "   - Exemples de code concrets",
      "   - Cas d'usage typiques",
      "",
      "4. ",
      "   - Liste des imports nécessaires",
      "",
      "Format Markdown strict. Sois concis mais complet."]
  const RetryInstructionsLines: seq<string> :=
     ["```",
      "",
      "Analyse l'erreur et corrige le code. Retourne uniquement le code Python corrigé."]

  /** The three single-file LLM requests of the Fixer. */
  datatype Request =
    | TestsFor(filename: string)
    | DocsFor(filename: string)
    | RetryFor(filepath: string, errorMessage: string)

  /** The prompt of a request, line by line. */
  function RequestPrompt(req: Request, code: string): string {
    match req
    case TestsFor(f) =>
      Join("\n", ["Génère des tests unitaires pytest pour ce code Python :", "", "FICHIER : " + f, "",
                  "CODE :", "```python", code] + TestsInstructionsLines)
    case DocsFor(f) =>
      Join("\n", ["Génère une documentation complète pour ce code Python :", "", "FICHIER : " + f, "",
                  "CODE :", "```python", code] + DocsInstructionsLines)
    case RetryFor(path, err) =>
      Join("\n", ["Le code précédent a échoué aux tests.", "", "FICHIER : " + Basename(path),
                  "ERREUR RENCONTRÉE :", err, "", "CODE ACTUEL :", "```python", code] + RetryInstructionsLines)
  }

  /** The file a request reads. */
  function SourcePath(req: Request, targetDir: string): string {
    match req
    case TestsFor(f) => PathJoin(targetDir, f)
    case DocsFor(f) => PathJoin(targetDir, f)
    case RetryFor(path, _) => path
  }

  /** The file a request writes: a new test file, a new README, or the file itself. */
  function TargetPath(req: Request, targetDir: string): string {
    match req
    case TestsFor(f) => PathJoin(targetDir, TestFileName(f))
    case DocsFor(f) => PathJoin(targetDir, DocFileName(f))
    case RetryFor(path, _) => path
  }

  /** Code answers are cleaned of their fences; documentation is kept as written. */
  function Postprocess(req: Request, text: string): string {
    if req.DocsFor? then text else CleanCodeResponse(text)
  }

  /** What a request returns and the file map after it. */
  function Generated(files: map<string, string>, req: Request, e: FixEnv): (Result<string>, map<string, string>) {
    var target := TargetPath(req, e.targetDir);
    match ReadFrom(files, e.abspath, SourcePath(req, e.targetDir), Some(e.targetDir))
    case Err(err) => (Err(err), files)
    case Ok(code) =>
      match e.llm(RequestPrompt(req, code))
      case Failure(msg) => (Err(Raised(msg)), files)
      case Answer(text) =>
        var out := Postprocess(req, text);
        match WriteOutcome(e.unwritable, e.abspath, target, Some(e.targetDir))
        case Fail(err) => (Err(err), files)
        case Pass => (Ok(out), Written(files, e.unwritable, e.abspath, target, out, Some(e.targetDir)))
  }

  /** Any failure is re-raised, and since the write comes last a failure
      leaves every file as it was. */
  lemma GeneratedFailure(files: map<string, string>, req: Request, e: FixEnv)
    ensures var res := Generated(files, req, e);
      var read := ReadFrom(files, e.abspath, SourcePath(req, e.targetDir), Some(e.targetDir));
      && (read.Err? ==> res.0 == Err(read.error))
      && (res.0.Err? ==> res.1 == files)
  {
  }

  /** A success needs the read, the LLM call and the write to succeed. */
  lemma GeneratedSucceeds(files: map<string, string>, req: Request, e: FixEnv)
    ensures var res := Generated(files, req, e);
      var read := ReadFrom(files, e.abspath, SourcePath(req, e.targetDir), Some(e.targetDir));
      res.0.Ok? <==> read.Ok? && e.llm(RequestPrompt(req, read.value)).Answer?
                     && WriteOutcome(e.unwritable, e.abspath, TargetPath(req, e.targetDir), Some(e.targetDir)).Pass?
  {
  }

  /** A success writes exactly the target, which then reads back as the
      returned text. */
  lemma GeneratedWrites(files: map<string, string>, req: Request, e: FixEnv)
    ensures var res := Generated(files, req, e);
      res.0.Ok? ==> (res.1 == files[e.abspath(TargetPath(req, e.targetDir)) := res.0.value]
                     && ReadFrom(res.1, e.abspath, TargetPath(req, e.targetDir), Some(e.targetDir)) == res.0)
  {
  }

  /** A successful retry replaces the file it read: reading it again gives the new code. */
  lemma RetryRewritesSource(files: map<string, string>, filepath: string, errorMessage: string, e: FixEnv)
    ensures var res := Generated(files, RetryFor(filepath, errorMessage), e);
      res.0.Ok? ==> (ReadFrom(res.1, e.abspath, filepath, Some(e.targetDir)) == res.0
        && res.0.value == CleanCodeResponse(e.llm(RequestPrompt(RetryFor(filepath, errorMessage),
                                                                files[e.abspath(filepath)])).text))
  {
    GeneratedWrites(files, RetryFor(filepath, errorMessage), e);
  }

  /** The shared body of the three requests: read the source, ask the LLM,
      post-process the answer, write it to the target. */
  method RunRequest(fs: FileSystem, req: Request, e: FixEnv) returns (r: Result<string>)
    modifies fs`files
    requires e.abspath == fs.abspath && e.unwritable == fs.unwritable
    ensures (r, fs.files) == Generated(old(fs.files), req, e)
  {
    var code := fs.ReadFileSafe(SourcePath(req, e.targetDir), Some(e.targetDir));
    if code.Err? {
      return Err(code.error);
    }
    var reply := e.llm(RequestPrompt(req, code.value));
    if reply.Failure? {
      return Err(Raised(reply.message));
    }
    var out := Postprocess(req, reply.text);
    var written := fs.WriteFileSafe(TargetPath(req, e.targetDir), out, Some(e.targetDir));
    if written.Fail? {
      return Err(written.error);
    }
    return Ok(out);
  }

  /** `generate_tests`: the cleaned answer goes to `test_<filename>`. */
  method GenerateTests(fs: FileSystem, filename: string, targetDir: string, llm: string -> Llm.Reply)
    returns (r: Result<string>)
    modifies fs`files
    ensures (r, fs.files) == Generated(old(fs.files), TestsFor(filename), FixEnv(fs.abspath, fs.unwritable, targetDir, llm))
  {
    r := RunRequest(fs, TestsFor(filename), FixEnv(fs.abspath, fs.unwritable, targetDir, llm));
  }

  /** `generate_documentation`: the uncleaned answer goes to `README_<stem>.md`. */
  method GenerateDocumentation(fs: FileSystem, filename: string, targetDir: string, llm: string -> Llm.Reply)
    returns (r: Result<string>)
    modifies fs`files
    ensures (r, fs.files) == Generated(old(fs.files), DocsFor(filename), FixEnv(fs.abspath, fs.unwritable, targetDir, llm))
  {
    r := RunRequest(fs, DocsFor(filename), FixEnv(fs.abspath, fs.unwritable, targetDir, llm));
  }

  /** `retry_fix`: the cleaned answer replaces the file it was made from. */
  method RetryFix(fs: FileSystem, filepath: string, targetDir: string, errorMessage: string, llm: string -> Llm.Reply)
    returns (r: Result<string>)
    modifies fs`files
    ensures (r, fs.files) == Generated(old(fs.files), RetryFor(filepath, errorMessage), FixEnv(fs.abspath, fs.unwritable, targetDir, llm))
  {
    r := RunRequest(fs, RetryFor(filepath, errorMessage), FixEnv(fs.abspath, fs.unwritable, targetDir, llm));
  }
}
