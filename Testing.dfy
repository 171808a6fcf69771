// The test runner (src/testing.rs): test suites of test cases of steps, run
// against one device through adb. A case runs its steps in order and stops
// at the first failing one; a suite yields one result per case and a
// summary that partitions them by status. Every adb call is an oracle: the
// output of the command step `i` of a case would run is `io(i)`.

module Testing {
  import opened Common
  import opened Errors

  datatype TestAction = Tap | Swipe | Type | Wait | Assert | Screenshot | Launch | Background | Foreground

  datatype TestStep = TestStep(action: TestAction, target: Option<string>, value: Option<string>, waitTime: Option<nat>)

  datatype TestCase = TestCase(name: string, description: Option<string>, steps: seq<TestStep>)

  datatype TestConfig = TestConfig(timeout: nat, screenshotOnFailure: bool, videoRecording: bool,
                                   parallelExecution: bool, retryCount: nat)

  datatype TestSuite = TestSuite(name: string, tests: seq<TestCase>, config: TestConfig)

  datatype TestStatus = Passed | Failed | Skipped | Timeout

  datatype TestResult = TestResult(testName: string, status: TestStatus, errorMessage: Option<string>, screenshots: seq<string>)

  datatype TestSummary = TestSummary(total: nat, passed: nat, failed: nat, skipped: nat, timeout: nat)

  /** The device the steps drive and the configured adb. */
  datatype Context = Context(deviceId: Option<string>, adbPath: Option<string>)

  /** Device actions only run commands with both a device and adb;
    * otherwise they succeed without doing anything. */
  predicate Drives(ctx: Context)
  {
    ctx.deviceId.Some? && ctx.adbPath.Some?
  }

  /** A device action whose failure is reported as `what` followed by the
    * command's stderr. */
  function DeviceAction(ctx: Context, out: CmdOutput, what: string): (r: KResult<()>)
    ensures r.Err? <==> Drives(ctx) && !out.success
    ensures r.Err? ==> r.error == KMobileError(TestExecutionError, what + out.stderr)
  {
    if Drives(ctx) && !out.success then Err(KMobileError(TestExecutionError, what + out.stderr)) else Ok(())
  }

  /** `assert_element_exists`: only a successful window dump that lacks the
    * target fails. */
  function AssertElementExists(ctx: Context, out: CmdOutput, target: string): (r: KResult<()>)
    ensures r.Err? <==> Drives(ctx) && out.success && !Contains(out.stdout, target)
    ensures r.Err? ==> r.error == KMobileError(TestExecutionError, "Element not found: " + target)
  {
    if Drives(ctx) && out.success && !Contains(out.stdout, target) then
      Err(KMobileError(TestExecutionError, "Element not found: " + target))
    else Ok(())
  }

  /** `take_screenshot` */
  function TakeScreenshot(ctx: Context, out: CmdOutput): (r: KResult<()>)
    ensures r.Err? <==> Drives(ctx) && !out.success
  {
    DeviceAction(ctx, out, "Screenshot failed: ")
  }

  /** The path a screenshot step without a value saves to. */
  function DefaultScreenshot(now: int): string
  {
    "screenshot_" + IntToString(now) + ".png"
  }

  /** `execute_test_step`: the outcome of one step, with the screenshot
    * paths it appends. `now` is the clock's timestamp. */
  function StepRun(step: TestStep, ctx: Context, out: CmdOutput, now: int): (r: KResult<seq<string>>)
    ensures step.action in {Tap, Swipe, Assert, Launch} && step.target.None? ==> r == Ok([])
    ensures step.action == Type && (step.target.None? || step.value.None?) ==> r == Ok([])
    ensures step.action == Wait ==> r == Ok([])
    ensures step.action == Screenshot ==>
              (r.Ok? <==> TakeScreenshot(ctx, out).Ok?)
              && (r.Ok? ==> r.value == [if step.value.Some? then step.value.value else DefaultScreenshot(now)])
    ensures step.action != Screenshot && r.Ok? ==> r.value == []
    ensures !Drives(ctx) ==> r.Ok?
  {
    match step.action
    case Tap => if step.target.Some? then var _ :- DeviceAction(ctx, out, "Tap failed: "); Ok([]) else Ok([])
    case Swipe => if step.target.Some? then var _ :- DeviceAction(ctx, out, "Swipe failed: "); Ok([]) else Ok([])
    case Type =>
      if step.target.Some? && step.value.Some? then var _ :- DeviceAction(ctx, out, "Type failed: "); Ok([]) else Ok([])
    case Wait => Ok([])
    case Assert => if step.target.Some? then var _ :- AssertElementExists(ctx, out, step.target.value); Ok([]) else Ok([])
    case Screenshot =>
      var path := if step.value.Some? then step.value.value else DefaultScreenshot(now);
      var _ :- TakeScreenshot(ctx, out);
      Ok([path])
    case Launch => if step.target.Some? then var _ :- DeviceAction(ctx, out, "App launch failed: "); Ok([]) else Ok([])
    case Background => var _ :- DeviceAction(ctx, out, "Background failed: "); Ok([])
    case Foreground => var _ :- DeviceAction(ctx, out, "Foreground failed: "); Ok([])
  }

  /** The screenshot a failure at step `i` (counted from 0) saves. */
  function FailureScreenshot(testName: string, i: nat): string
  {
    testName + "_" + NatToString(i + 1) + "_failure.png"
  }

  /** What is left of `run_test_case` from step `i` on, with `shots` taken
    * so far. A failing step ends the case as Failed with its message, after
    * the failure screenshot when that is enabled and succeeds (`shotOut` is
    * that capture's output). */
  function RunFrom(tc: TestCase, ctx: Context, shootOnFailure: bool, io: nat -> CmdOutput, shotOut: CmdOutput,
                   now: int, i: nat, shots: seq<string>): (r: TestResult)
    requires i <= |tc.steps|
    ensures r.testName == tc.name && (r.status == Passed || r.status == Failed)
    ensures r.status == Passed <==> r.errorMessage.None?
    ensures shots <= r.screenshots
    decreases |tc.steps| - i
  {
    if i == |tc.steps| then TestResult(tc.name, Passed, None, shots)
    else match StepRun(tc.steps[i], ctx, io(i), now)
      case Err(e) =>
        var extra := if shootOnFailure && TakeScreenshot(ctx, shotOut).Ok? then [FailureScreenshot(tc.name, i)] else [];
        TestResult(tc.name, Failed, Some(Display(e)), shots + extra)
      case Ok(taken) => RunFrom(tc, ctx, shootOnFailure, io, shotOut, now, i + 1, shots + taken)
  }

  /** `run_test_case` */
  function CaseResult(tc: TestCase, ctx: Context, shootOnFailure: bool, io: nat -> CmdOutput, shotOut: CmdOutput, now: int): TestResult
  {
    RunFrom(tc, ctx, shootOnFailure, io, shotOut, now, 0, [])
  }

  /** The steps of a case run in order: the loop of `run_test_case`. */
  method RunTestCase(tc: TestCase, ctx: Context, shootOnFailure: bool, io: nat -> CmdOutput, shotOut: CmdOutput, now: int)
    returns (r: TestResult)
    ensures r == CaseResult(tc, ctx, shootOnFailure, io, shotOut, now)
  {
    var screenshots := [];
    for i := 0 to |tc.steps|
      invariant RunFrom(tc, ctx, shootOnFailure, io, shotOut, now, i, screenshots) == CaseResult(tc, ctx, shootOnFailure, io, shotOut, now)
    {
      var step := StepRun(tc.steps[i], ctx, io(i), now);
      if step.Err? {
        if shootOnFailure {
          var shot := TakeScreenshot(ctx, shotOut);
          if shot.Ok? {
            screenshots := screenshots + [FailureScreenshot(tc.name, i)];
          }
        }
        return TestResult(tc.name, Failed, Some(Display(step.error)), screenshots);
      }
      screenshots := screenshots + step.value;
    }
    r := TestResult(tc.name, Passed, None, screenshots);
  }

  /** A case passes exactly when every one of its remaining steps succeeds. */
  lemma {:induction false} RunFromPasses(tc: TestCase, ctx: Context, shootOnFailure: bool, io: nat -> CmdOutput,
                                         shotOut: CmdOutput, now: int, i: nat, shots: seq<string>)
    requires i <= |tc.steps|
    ensures RunFrom(tc, ctx, shootOnFailure, io, shotOut, now, i, shots).status == Passed
            <==> forall j | i <= j < |tc.steps| :: StepRun(tc.steps[j], ctx, io(j), now).Ok?
    decreases |tc.steps| - i
  {
    if i < |tc.steps| {
      var step := StepRun(tc.steps[i], ctx, io(i), now);
      if step.Ok? {
        RunFromPasses(tc, ctx, shootOnFailure, io, shotOut, now, i + 1, shots + step.value);
      }
    }
  }

  /** A failed case carries the message of its first failing step. */
  lemma {:induction false} RunFromFailure(tc: TestCase, ctx: Context, shootOnFailure: bool, io: nat -> CmdOutput,
                                          shotOut: CmdOutput, now: int, i: nat, shots: seq<string>)
    requires i <= |tc.steps|
    requires RunFrom(tc, ctx, shootOnFailure, io, shotOut, now, i, shots).status == Failed
    ensures exists j | i <= j < |tc.steps| ::
              && StepRun(tc.steps[j], ctx, io(j), now).Err?
              && (forall k | i <= k < j :: StepRun(tc.steps[k], ctx, io(k), now).Ok?)
              && RunFrom(tc, ctx, shootOnFailure, io, shotOut, now, i, shots).errorMessage
                 == Some(Display(StepRun(tc.steps[j], ctx, io(j), now).error))
    decreases |tc.steps| - i
  {
    var step := StepRun(tc.steps[i], ctx, io(i), now);
    if step.Ok? {
      RunFromFailure(tc, ctx, shootOnFailure, io, shotOut, now, i + 1, shots + step.value);
      var j :| i + 1 <= j < |tc.steps|
               && StepRun(tc.steps[j], ctx, io(j), now).Err?
               && (forall k | i + 1 <= k < j :: StepRun(tc.steps[k], ctx, io(k), now).Ok?)
               && RunFrom(tc, ctx, shootOnFailure, io, shotOut, now, i + 1, shots + step.value).errorMessage
                  == Some(Display(StepRun(tc.steps[j], ctx, io(j), now).error));
      assert forall k | i <= k < j :: StepRun(tc.steps[k], ctx, io(k), now).Ok?;
    } else {
      assert i <= i < |tc.steps|;
    }
  }

  /** The failure screenshot is added only when enabled and captured. */
  lemma {:induction false} FailureScreenshotRecorded(tc: TestCase, ctx: Context, shootOnFailure: bool, io: nat -> CmdOutput,
                                                     shotOut: CmdOutput, now: int, i: nat, shots: seq<string>)
    requires i < |tc.steps| && StepRun(tc.steps[i], ctx, io(i), now).Err?
    ensures RunFrom(tc, ctx, shootOnFailure, io, shotOut, now, i, shots).screenshots
            == shots + (if shootOnFailure && TakeScreenshot(ctx, shotOut).Ok? then [FailureScreenshot(tc.name, i)] else [])
  {
  }

  /** Without a device (or without adb) every case passes; `replay_test`
    * runs its case this way. */
  lemma NoDeviceAlwaysPasses(tc: TestCase, ctx: Context, shootOnFailure: bool, io: nat -> CmdOutput, shotOut: CmdOutput, now: int)
    requires !Drives(ctx)
    ensures CaseResult(tc, ctx, shootOnFailure, io, shotOut, now).status == Passed
  {
    RunFromPasses(tc, ctx, shootOnFailure, io, shotOut, now, 0, []);
  }

  // ---------------------------------------------------------------------
  // Summaries

  function CountStatus(results: seq<TestResult>, s: TestStatus): (n: nat)
    ensures n <= |results|
  {
    if results == [] then 0
    else CountStatus(results[..|results| - 1], s) + (if Last(results).status == s then 1 else 0)
  }

  /** `generate_summary`: count the results by status. */
  method GenerateSummary(results: seq<TestResult>) returns (summary: TestSummary)
    ensures summary.total == |results|
    ensures summary.passed == CountStatus(results, Passed) && summary.failed == CountStatus(results, Failed)
    ensures summary.skipped == CountStatus(results, Skipped) && summary.timeout == CountStatus(results, Timeout)
  {
    summary := TestSummary(|results|, 0, 0, 0, 0);
    for i := 0 to |results|
      invariant summary.total == |results|
      invariant summary.passed == CountStatus(results[..i], Passed) && summary.failed == CountStatus(results[..i], Failed)
      invariant summary.skipped == CountStatus(results[..i], Skipped) && summary.timeout == CountStatus(results[..i], Timeout)
    {
      assert results[..i + 1][..i] == results[..i];
      match results[i].status
      case Passed => summary := summary.(passed := summary.passed + 1);
      case Failed => summary := summary.(failed := summary.failed + 1);
      case Skipped => summary := summary.(skipped := summary.skipped + 1);
      case Timeout => summary := summary.(timeout := summary.timeout + 1);
    }
    assert results[..|results|] == results;
  }

  /** Every result is counted under exactly one status. */
  lemma {:induction false} SummaryPartitions(results: seq<TestResult>)
    ensures CountStatus(results, Passed) + CountStatus(results, Failed)
            + CountStatus(results, Skipped) + CountStatus(results, Timeout) == |results|
  {
    if results != [] {
      SummaryPartitions(results[..|results| - 1]);
    }
  }

  // ---------------------------------------------------------------------
  // Suites

  /** The file a suite is read from: "<name>.json", or "default.json". */
  function SuitePath(dir: string, name: Option<string>): (p: string)
    ensures name.Some? ==> EndsWith(p, name.value + ".json")
    ensures name.None? ==> EndsWith(p, "default.json")
  {
    JoinPath(dir, if name.Some? then name.value + ".json" else "default.json")
  }

  /** The suite written and used when the suite file does not exist: one
    * launch-and-screenshot case. */
  function DefaultSuite(name: Option<string>): (s: TestSuite)
    ensures s.name == (if name.Some? then name.value else "default")
    ensures |s.tests| == 1 && s.config.screenshotOnFailure
  {
    TestSuite(
      if name.Some? then name.value else "default",
      [TestCase("app_launch", Some("Test app launch"), [
        TestStep(Launch, Some("com.example.app"), None, Some(5)),
        TestStep(Screenshot, None, Some("launch_screen.png"), None)])],
      TestConfig(30, true, false, false, 0))
  }

  /** `load_test_suite`: an existing file must parse (`parsed` is None when
    * it does not); a missing one gives the default suite. */
  function LoadTestSuite(name: Option<string>, fileExists: bool, parsed: Option<TestSuite>): (r: Result<TestSuite, string>)
    ensures !fileExists ==> r == Ok(DefaultSuite(name))
    ensures fileExists ==> (r.Ok? <==> parsed.Some?) && (r.Ok? ==> r.value == parsed.value)
  {
    if !fileExists then Ok(DefaultSuite(name))
    else if parsed.None? then Err("invalid test suite file")
    else Ok(parsed.value)
  }

  datatype TestReport = TestReport(suiteName: string, results: seq<TestResult>, summary: TestSummary)

  /** `run_tests`: load the suite and run every case in suite order (`io(c)`
    * and `shotOut(c)` are case `c`'s command outputs). */
  method RunTests(name: Option<string>, fileExists: bool, parsed: Option<TestSuite>, ctx: Context, shootOnFailure: bool,
                  io: nat -> nat -> CmdOutput, shotOut: nat -> CmdOutput, now: int)
    returns (r: Result<TestReport, string>)
    ensures r.Ok? <==> LoadTestSuite(name, fileExists, parsed).Ok?
    ensures r.Ok? ==>
              var suite := LoadTestSuite(name, fileExists, parsed).value;
              && r.value.suiteName == suite.name
              && |r.value.results| == |suite.tests|
              && (forall c | 0 <= c < |suite.tests| ::
                    r.value.results[c] == CaseResult(suite.tests[c], ctx, shootOnFailure, io(c), shotOut(c), now))
              && r.value.summary.total == |suite.tests|
              && r.value.summary.passed + r.value.summary.failed + r.value.summary.skipped + r.value.summary.timeout
                 == |suite.tests|
  {
    var loaded := LoadTestSuite(name, fileExists, parsed);
    if loaded.Err? {
      return Err(loaded.error);
    }
    var suite := loaded.value;
    var results := RunCases(suite.tests, ctx, shootOnFailure, io, shotOut, now);
    var summary := GenerateSummary(results);
    SummaryPartitions(results);
    r := Ok(TestReport(suite.name, results, summary));
  }

  /** The loop of `run_tests`: every case in order, case `c` seeing `io(c)`
    * and `shotOut(c)`. */
  method RunCases(tests: seq<TestCase>, ctx: Context, shootOnFailure: bool,
                  io: nat -> nat -> CmdOutput, shotOut: nat -> CmdOutput, now: int)
    returns (results: seq<TestResult>)
    ensures |results| == |tests|
    ensures forall c | 0 <= c < |tests| :: results[c] == CaseResult(tests[c], ctx, shootOnFailure, io(c), shotOut(c), now)
  {
    results := [];
    for c := 0 to |tests|
      invariant |results| == c
      invariant forall d | 0 <= d < c :: results[d] == CaseResult(tests[d], ctx, shootOnFailure, io(d), shotOut(d), now)
    {
      var result := RunTestCase(tests[c], ctx, shootOnFailure, io(c), shotOut(c), now);
      ghost var before := results;
      results := results + [result];
      assert forall d | 0 <= d < c :: results[d] == before[d];
    }
  }

  /** `replay_test`: a missing file is `TestFileNotFound`; otherwise the
    * parsed case runs without a device. */
  function ReplayTest(file: string, fileExists: bool, parsed: Option<TestCase>, shootOnFailure: bool,
                      io: nat -> CmdOutput, shotOut: CmdOutput, now: int): (r: Result<TestResult, string>)
    ensures !fileExists ==> r == Err(Display(KMobileError(TestFileNotFound, file)))
    ensures fileExists && parsed.Some? ==> r.Ok? && r.value.status == Passed
  {
    if !fileExists then Err(Display(KMobileError(TestFileNotFound, file)))
    else if parsed.None? then Err("invalid test case file")
    else
      var ctx := Context(None, None);
      NoDeviceAlwaysPasses(parsed.value, ctx, shootOnFailure, io, shotOut, now);
      Ok(CaseResult(parsed.value, ctx, shootOnFailure, io, shotOut, now))
  }
}
