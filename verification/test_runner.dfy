/**
  The test runner screen: running every test of the chosen suite in order through the
  background script, normalising each answer into a result, and summarising the run.
 */
module TestRunner {
  import opened Wrappers
  import opened Json
  import opened Decimal
  import opened Progress
  import opened Subsequences
  import opened OpenRouter
  import opened TestGenerator

  const DefaultBaseUrl := "https://api.example.com"

  /**
    One exchange with the background script, between two readings of the clock:
    either the answer it passed to the callback (`None` for `undefined`), or the message
    of an exception thrown while sending.
   */
  datatype Exchange =
    | Replied(startMs: nat, reply: Option<JsValue>, endMs: nat)
    | Threw(startMs: nat, message: string, endMs: nat)

  /** The record `executeTest` returns; `None` fields are `undefined`. */
  datatype TestResult = TestResult(
    testId: string,
    testName: JsValue,
    status: JsValue,
    duration: int,
    request: Option<Request>,
    response: Option<JsValue>,
    assertions: Option<JsValue>,
    error: Option<JsValue>)

  /** The first per-test result the background script reported: `response.results?.[0]`. */
  function FirstReported(reply: Option<JsValue>): Option<JsValue> {
    First(Member(reply, "results"))
  }

  /**
    `executeTest`: the reported status (`failed` when falsy or missing) and response
    (`{}` when falsy or missing). Reading `results` of a missing answer throws, and the
    exception path keeps only the identity, the status `failed`, the time and the message.
   */
  function ExecuteTest(test: TestCase, x: Exchange): (r: TestResult)
    ensures r.testId == test.id && r.testName == test.name
    ensures r.duration == x.endMs - x.startMs
    ensures Truthy(Some(r.status))
    ensures r.status == JStr("passed") <==>
      x.Replied? && !IsNullish(x.reply) && Member(FirstReported(x.reply), "status") == Some(JStr("passed"))
    ensures x.Threw? ==>
      && r.status == JStr("failed") && r.error == Some(JStr(x.message))
      && r.request.None? && r.response.None? && r.assertions.None?
    ensures x.Replied? && IsNullish(x.reply) ==>
      && r.status == JStr("failed") && r.error == Some(JStr(NullishReadMessage(x.reply, "results")))
      && r.request.None? && r.response.None? && r.assertions.None?
    ensures x.Replied? && !IsNullish(x.reply) ==>
      && r.request == Some(test.request) && r.assertions == Some(test.assertions)
      && r.error == Member(x.reply, "error")
      && r.response.Some? && Truthy(r.response)
      && FallsBack(Member(FirstReported(x.reply), "status"), r.status, JStr("failed"))
      && FallsBack(Member(FirstReported(x.reply), "response"), r.response.value, EmptyObject)
  {
    match x
    case Threw(startMs, message, endMs) =>
      TestResult(test.id, test.name, JStr("failed"), endMs - startMs, None, None, None, Some(JStr(message)))
    case Replied(startMs, reply, endMs) =>
      if IsNullish(reply) then
        TestResult(test.id, test.name, JStr("failed"), endMs - startMs, None, None, None,
                   Some(JStr(NullishReadMessage(reply, "results"))))
      else
        var first := FirstReported(reply);
        OrElseIsTruthyWhenFallbackIs(Member(first, "status"), JStr("failed"));
        OrElseIsTruthyWhenFallbackIs(Member(first, "response"), EmptyObject);
        TestResult(test.id, test.name,
                   OrElse(Member(first, "status"), JStr("failed")),
                   endMs - startMs,
                   Some(test.request),
                   Some(OrElse(Member(first, "response"), EmptyObject)),
                   Some(test.assertions),
                   Member(reply, "error"))
  }

  /** The results of a run: one per test, in suite order. */
  function RunResults(tests: seq<TestCase>, exchanges: nat -> Exchange): (rs: seq<TestResult>)
    ensures |rs| == |tests|
    ensures forall i :: 0 <= i < |tests| ==> rs[i].testId == tests[i].id && rs[i].testName == tests[i].name
  {
    var rs := seq(|tests|, i requires 0 <= i < |tests| => ExecuteTest(tests[i], exchanges(i)));
    assert forall i :: 0 <= i < |tests| ==> rs[i] == ExecuteTest(tests[i], exchanges(i));
    rs
  }

  /** The results of the first `i + 1` tests extend those of the first `i` by test `i`'s. */
  lemma RunResultsStep(tests: seq<TestCase>, exchanges: nat -> Exchange, i: nat)
    requires i < |tests|
    ensures RunResults(tests, exchanges)[..i + 1]
         == RunResults(tests, exchanges)[..i] + [ExecuteTest(tests[i], exchanges(i))]
  {
  }

  function HasStatus(status: string): TestResult -> bool {
    (r: TestResult) => r.status == JStr(status)
  }

  /** `results.filter(r => r.status === status).length` */
  function CountStatus(results: seq<TestResult>, status: string): nat {
    |Filter(results, HasStatus(status))|
  }

  /**
    Passed and failed never add up to more than the run; they add up to all of it exactly
    when every status is `passed` or `failed` (a background script may report others).
   */
  lemma {:induction false} PassedFailedCoverRun(results: seq<TestResult>)
    ensures CountStatus(results, "passed") + CountStatus(results, "failed") <= |results|
    ensures CountStatus(results, "passed") + CountStatus(results, "failed") == |results| <==>
      forall i :: 0 <= i < |results| ==> results[i].status in {JStr("passed"), JStr("failed")}
  {
    if results != [] {
      var tail := results[1..];
      PassedFailedCoverRun(tail);
      assert results == [results[0]] + tail;
      FilterCons(results[0], tail, HasStatus("passed"));
      FilterCons(results[0], tail, HasStatus("failed"));
      if forall i :: 0 <= i < |tail| ==> tail[i].status in {JStr("passed"), JStr("failed")} {
        if results[0].status in {JStr("passed"), JStr("failed")} {
          forall i | 0 <= i < |results| ensures results[i].status in {JStr("passed"), JStr("failed")} {
            if i > 0 {
              assert results[i] == tail[i - 1];
            }
          }
        }
      } else {
        var j :| 0 <= j < |tail| && tail[j].status !in {JStr("passed"), JStr("failed")};
        assert results[j + 1] == tail[j];
      }
    }
  }

  /** A run whose every exchange threw reports no test as passed and every test as failed. */
  lemma AllThrownAllFailed(tests: seq<TestCase>, exchanges: nat -> Exchange)
    requires forall i :: 0 <= i < |tests| ==> exchanges(i).Threw?
    ensures CountStatus(RunResults(tests, exchanges), "failed") == |tests|
    ensures CountStatus(RunResults(tests, exchanges), "passed") == 0
  {
    var rs := RunResults(tests, exchanges);
    forall i | 0 <= i < |rs| ensures HasStatus("failed")(rs[i]) {
      assert rs[i] == ExecuteTest(tests[i], exchanges(i));
    }
    FilterKeepsAll(rs, HasStatus("failed"));
    PassedFailedCoverRun(rs);
  }

  /** The clock readings of a run: `Date.now()` for the id, and the start and end times. */
  datatype RunClock = RunClock(idMs: nat, startedMs: nat, completedMs: nat, iso: nat -> string)

  /** The object `handleRunTests` hands to `onResults`. */
  datatype Report = Report(
    id: string,
    suiteId: string,
    suiteName: string,
    startedAt: string,
    completedAt: string,
    baseUrl: string,
    testResults: seq<TestResult>,
    duration: int,
    passed: nat,
    failed: nat)

  /** The progress after test `i` of `n` has started: round(100 (i + 1) / n). */
  function RunSteps(n: nat): (steps: seq<nat>)
    ensures |steps| == n
  {
    seq(n, i requires 0 <= i < n => Percent(i + 1, n))
  }

  /** The run's progress never decreases, stays within 100 and ends at 100. */
  lemma RunStepsShape(n: nat)
    requires n > 0
    ensures RunSteps(n)[n - 1] == 100
    ensures forall i, j :: 0 <= i <= j < n ==> RunSteps(n)[i] <= RunSteps(n)[j] <= 100
  {
    PercentOfAll(n);
    forall i, j | 0 <= i <= j < n ensures RunSteps(n)[i] <= RunSteps(n)[j] <= 100 {
      PercentMonotone(i + 1, j + 1, n);
      PercentInRange(j + 1, n);
    }
  }

  /** The test for `suite.id === id`. */
  function SuiteWithId(id: string): TestSuite -> bool {
    (s: TestSuite) => s.id == id
  }

  class Runner {
    var selectedSuite: string
    var baseUrl: string
    var headers: string
    var running: bool
    var progress: nat
    var currentTest: JsValue
    /** The values the progress bar took during the last run, in order. */
    ghost var progressTrace: seq<nat>

    constructor ()
      ensures selectedSuite == "" && baseUrl == DefaultBaseUrl && headers == "{}"
      ensures !running && progress == 0 && currentTest == JStr("") && progressTrace == []
    {
      selectedSuite, baseUrl, headers := "", DefaultBaseUrl, "{}";
      running, progress, currentTest := false, 0, JStr("");
      progressTrace := [];
    }

    /** The three inputs of the form. */
    method Configure(suiteId: string, url: string, headerText: string)
      modifies this`selectedSuite, this`baseUrl, this`headers
      ensures selectedSuite == suiteId && baseUrl == url && headers == headerText
    {
      selectedSuite, baseUrl, headers := suiteId, url, headerText;
    }

    /**
      `handleRunTests`. Nothing happens without a selected suite. An unknown suite id
      throws outside the guarded block, leaving the runner marked as running. Headers that
      do not parse end the run without a report. Otherwise every test runs in order, the
      bar shows round(100 (i + 1) / n) as test `i` starts, and the report carries one result
      per test and the passed and failed counts.
     */
    method RunTests(suites: seq<TestSuite>, parse: string -> Option<JsValue>, exchanges: nat -> Exchange,
                    clock: RunClock) returns (report: Option<Report>)
      modifies this`running, this`progress, this`currentTest, this`progressTrace
      ensures old(selectedSuite) == "" ==>
        && report.None? && running == old(running) && progress == old(progress)
        && currentTest == old(currentTest) && progressTrace == old(progressTrace)
      ensures old(selectedSuite) != "" && Find(suites, SuiteWithId(selectedSuite)).None? ==>
        && report.None? && running && progress == 0 && currentTest == old(currentTest)
        && progressTrace == [0]
      ensures old(selectedSuite) != "" && Find(suites, SuiteWithId(selectedSuite)).Some? && parse(headers).None? ==>
        && report.None? && !running && progress == 0 && currentTest == old(currentTest)
        && progressTrace == [0]
      ensures old(selectedSuite) != "" && Find(suites, SuiteWithId(selectedSuite)).Some? && parse(headers).Some? ==>
        var suite := Find(suites, SuiteWithId(selectedSuite)).value;
        var results := RunResults(suite.tests, exchanges);
        && report == Some(Report(
             NatToString(clock.idMs), suite.id, suite.name, clock.iso(clock.startedMs), clock.iso(clock.completedMs),
             baseUrl, results, clock.completedMs - clock.startedMs,
             CountStatus(results, "passed"), CountStatus(results, "failed")))
        && !running && currentTest == JStr("")
        && progressTrace == [0] + RunSteps(|suite.tests|)
        && progress == if |suite.tests| == 0 then 0 else 100
    {
      if selectedSuite == "" {
        return None;
      }
      running := true;
      progress := 0;
      progressTrace := [0];
      var found := Find(suites, SuiteWithId(selectedSuite));
      if found.None? {
        // reading `id` of the missing suite throws before the guarded block
        return None;
      }
      if parse(headers).None? {
        running := false;
        return None;
      }
      var r := RunSuite(found.value, exchanges, clock);
      report := Some(r);
    }

    /**
      The guarded block of `handleRunTests` once the headers have parsed: the tests run in
      order and the report carries their results, the times and the passed and failed counts.
     */
    method RunSuite(suite: TestSuite, exchanges: nat -> Exchange, clock: RunClock) returns (report: Report)
      modifies this`running, this`progress, this`currentTest, this`progressTrace
      ensures var results := RunResults(suite.tests, exchanges);
        && report == Report(
             NatToString(clock.idMs), suite.id, suite.name, clock.iso(clock.startedMs), clock.iso(clock.completedMs),
             baseUrl, results, clock.completedMs - clock.startedMs,
             CountStatus(results, "passed"), CountStatus(results, "failed"))
        && !running && currentTest == JStr("")
        && progressTrace == old(progressTrace) + RunSteps(|suite.tests|)
        && progress == if |suite.tests| == 0 then old(progress) else 100
    {
      var results := RunAll(suite.tests, exchanges);
      report := Report(
        NatToString(clock.idMs), suite.id, suite.name, clock.iso(clock.startedMs), clock.iso(clock.completedMs),
        baseUrl, results, clock.completedMs - clock.startedMs,
        CountStatus(results, "passed"), CountStatus(results, "failed"));
      running := false;
      currentTest := JStr("");
    }

    /** The loop of `handleRunTests`: each test in turn, its result appended. */
    method RunAll(tests: seq<TestCase>, exchanges: nat -> Exchange) returns (results: seq<TestResult>)
      modifies this`progress, this`currentTest, this`progressTrace
      ensures results == RunResults(tests, exchanges)
      ensures progressTrace == old(progressTrace) + RunSteps(|tests|)
      ensures progress == if |tests| == 0 then old(progress) else 100
      ensures currentTest == if |tests| == 0 then old(currentTest) else tests[|tests| - 1].name
    {
      var n := |tests|;
      ghost var trace0 := progressTrace;
      results := [];
      var i := 0;
      while i < n
        invariant 0 <= i <= n
        invariant results == RunResults(tests, exchanges)[..i]
        invariant progressTrace == trace0 + RunSteps(n)[..i]
        invariant progress == if i == 0 then old(progress) else Percent(i, n)
        invariant currentTest == if i == 0 then old(currentTest) else tests[i - 1].name
      {
        var test := tests[i];
        currentTest := test.name;
        progress := Percent(i + 1, n);
        progressTrace := progressTrace + [progress];
        assert RunSteps(n)[..i + 1] == RunSteps(n)[..i] + [progress];
        var result := ExecuteTest(test, exchanges(i));
        RunResultsStep(tests, exchanges, i);
        results := results + [result];
        i := i + 1;
      }
      assert RunSteps(n)[..n] == RunSteps(n);
      if n > 0 {
        PercentOfAll(n);
      }
    }
  }
}
