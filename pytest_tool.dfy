/** src/tools/pytest_tool.py: `parse_test_results`, the counting done over the
    `tests` list of pytest's JSON report once it has been read and decoded. */
module PytestTool {

  /** One entry of the report's `tests` list. */
  datatype TestCase = TestCase(nodeid: string, outcome: string)

  /** The `.report.json` file: absent, or decoded to its `tests` list. */
  datatype ReportFile = Missing | Report(tests: seq<TestCase>)

  /** The dictionary `parse_test_results` returns. */
  datatype Summary = Summary(success: bool, passed: int, failed: int, errors: seq<string>)

  /** How many tests have the given outcome. */
  function CountOutcome(tests: seq<TestCase>, outcome: string): (n: nat)
    ensures n <= |tests|
  {
    if |tests| == 0 then 0
    else (if tests[0].outcome == outcome then 1 else 0) + CountOutcome(tests[1..], outcome)
  }

  /** The nodeids of the failed tests, in report order. */
  function FailedIds(tests: seq<TestCase>): (ids: seq<string>)
    ensures forall k | 0 <= k < |tests| && tests[k].outcome == "failed" :: tests[k].nodeid in ids
    ensures forall x | x in ids :: exists k | 0 <= k < |tests| :: tests[k].nodeid == x && tests[k].outcome == "failed"
  {
    if |tests| == 0 then []
    else
      var rest := FailedIds(tests[1..]);
      assert forall k | 1 <= k < |tests| :: tests[k] == tests[1..][k - 1];
      if tests[0].outcome == "failed" then [tests[0].nodeid] + rest else rest
  }

  function ParseTestResults(report: ReportFile): (r: Summary)
    ensures report.Missing? ==> r == Summary(false, 0, 0, ["report not found"])
    ensures report.Report? ==>
      r.passed == CountOutcome(report.tests, "passed") && r.failed == CountOutcome(report.tests, "failed")
      && r.errors == FailedIds(report.tests) && (r.success <==> r.failed == 0)
  {
    match report
    case Missing => Summary(false, 0, 0, ["report not found"])
    case Report(tests) =>
      var passed := CountOutcome(tests, "passed");
      var failed := CountOutcome(tests, "failed");
      Summary(failed == 0, passed, failed, FailedIds(tests))
  }

  /** One error per failed test. */
  lemma {:induction false} FailedIdsCount(tests: seq<TestCase>)
    ensures |FailedIds(tests)| == CountOutcome(tests, "failed")
  {
    if |tests| > 0 {
      FailedIdsCount(tests[1..]);
    }
  }

  /** Outcomes other than "passed" and "failed" are counted in neither. */
  lemma {:induction false} CountsBounded(tests: seq<TestCase>)
    ensures CountOutcome(tests, "passed") + CountOutcome(tests, "failed") <= |tests|
  {
    if |tests| > 0 {
      CountsBounded(tests[1..]);
    }
  }

  /** Errors come in report order: the ids of a concatenation concatenate. */
  lemma {:induction false} FailedIdsAppend(a: seq<TestCase>, b: seq<TestCase>)
    ensures FailedIds(a + b) == FailedIds(a) + FailedIds(b)
  {
    if a == [] {
      assert a + b == b;
    } else {
      assert (a + b)[0] == a[0];
      assert (a + b)[1..] == a[1..] + b;
      FailedIdsAppend(a[1..], b);
    }
  }

  /** The summary of a found report: consistent counts, success exactly when
      nothing failed (an empty report included). */
  lemma ReportSummary(tests: seq<TestCase>)
    ensures var r := ParseTestResults(Report(tests));
      (r.success <==> r.failed == 0) && |r.errors| == r.failed
      && r.passed + r.failed <= |tests|
    ensures tests == [] ==> ParseTestResults(Report(tests)) == Summary(true, 0, 0, [])
  {
    FailedIdsCount(tests);
    CountsBounded(tests);
  }
}
