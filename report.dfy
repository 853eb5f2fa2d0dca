/**
 * What `e2e_test_runner` prints and the exit status it computes from the
 * result of `run_tests`, together with the display of one test result.
 */
module Report {
  import opened Wrappers
  import opened Browsers
  import opened Failures
  import opened Decimal
  import opened Runner

  const StdoutHeader: string := "\n   ----- TEST STDOUT -----   \n"

  /** `{name} in {browser}...\t`, the start of every result line. */
  function Heading(testName: string, browser: BrowserType): string {
    testName + " in " + BrowserTypeText(browser) + "...\t"
  }

  /** The captured-output block shown under a result. */
  function StdoutBlock(output: string): string {
    StdoutHeader + output + "\n"
  }

  /** The status after the heading: `[OK]`, or `[FAILED]`, a newline and the error's `{:#?}` text. */
  function StatusText(result: Result<(), Error>): string {
    match result
    case Ok(_) => "[OK]"
    case Err(err) => "[FAILED]\n" + ErrorText(err, true)
  }

  /**
   * `Display for TestResult`: the heading, then `[OK]`, or `[FAILED]`, a
   * newline and the error's `{:#?}` text; then, for a test that printed
   * anything, whether it passed or not, the captured-output block.
   */
  function TestResultText(tr: TestResult): (s: string)
    ensures var h := Heading(tr.testName, tr.browserType);
      && |s| >= |h| + 4 && s[..|h|] == h
      && (tr.result.Ok? <==> s[|h|..|h| + 4] == "[OK]")
    ensures tr.result.Err? ==>
      var h, e := Heading(tr.testName, tr.browserType), ErrorText(tr.result.error, true);
      |s| >= |h| + 9 + |e| && s[|h|..|h| + 9 + |e|] == "[FAILED]\n" + e
    ensures tr.output != [] ==>
      |s| >= |StdoutBlock(tr.output)| && s[|s| - |StdoutBlock(tr.output)|..] == StdoutBlock(tr.output)
    ensures tr.output == [] ==>
      |s| == |Heading(tr.testName, tr.browserType)| + if tr.result.Ok? then 4 else 9 + |ErrorText(tr.result.error, true)|
    ensures |s| == |Heading(tr.testName, tr.browserType)| + |StatusText(tr.result)|
      + (if tr.output == [] then 0 else |StdoutBlock(tr.output)|)
  {
    var h, status := Heading(tr.testName, tr.browserType), StatusText(tr.result);
    var tail := if tr.output == [] then "" else StdoutBlock(tr.output);
    var s := h + status + tail;
    assert s[..|h|] == h;
    assert s[|h|..|h| + |status|] == status;
    assert s[|h| + |status|..] == tail;
    assert |status| >= 4 && (tr.result.Ok? <==> status[..4] == "[OK]") by {
      if tr.result.Err? {
        assert status[1] == 'F';
      }
    }
    assert s[|h|..|h| + 4] == status[..4];
    s
  }

  /**
   * A test that panicked is reported as failed with the panic's message,
   * or "Unknown error" when the payload is not a string.
   */
  lemma PanickedTestText(tr: TestResult, p: Payload)
    requires tr.result == Err(Panic(NewCaughtPanic(p)))
    ensures var h, m := Heading(tr.testName, tr.browserType), if p.OtherPayload? then "Unknown error" else p.text;
      var s := TestResultText(tr);
      |s| >= |h| + 9 + |m| && s[|h|..|h| + 9 + |m|] == "[FAILED]\n" + m
  {
    PanicMessageShown(p, true);
  }

  /** How many results passed (`filter(is_ok).count()`). */
  function Successes(rs: seq<TestResult>): (n: nat)
    ensures n <= |rs|
    ensures n == |rs| <==> forall i :: 0 <= i < |rs| ==> rs[i].result.Ok?
  {
    if rs == [] then 0
    else Successes(rs[..|rs| - 1]) + if rs[|rs| - 1].result.Ok? then 1 else 0
  }

  /** How many results failed, counted on their own. */
  function FailureCount(rs: seq<TestResult>): nat {
    if rs == [] then 0
    else FailureCount(rs[..|rs| - 1]) + if rs[|rs| - 1].result.Err? then 1 else 0
  }

  /** `len - successes` is exactly the number of failed results. */
  lemma {:induction false} SuccessesAndFailures(rs: seq<TestResult>)
    ensures Successes(rs) + FailureCount(rs) == |rs|
  {
    if rs != [] {
      SuccessesAndFailures(rs[..|rs| - 1]);
    }
  }

  /** The closing line of the summary. */
  function SummaryLine(rs: seq<TestResult>): (s: string)
    ensures FailureCount(rs) == 0 ==> s == NatToString(|rs|) + " tests ran with success"
    ensures FailureCount(rs) > 0 ==> s == NatToString(FailureCount(rs)) + " errors"
  {
    SuccessesAndFailures(rs);
    var n := Successes(rs);
    if n == |rs| then NatToString(n) + " tests ran with success" else NatToString(|rs| - n) + " errors"
  }

  /** The process exit status: 0 exactly when the run returned results and every one of them passed. */
  function ExitCode(run: RunResult): (code: int)
    ensures code == 0 || code == 1
    ensures code == 0 <==> run.Ok? && forall i :: 0 <= i < |run.value| ==> run.value[i].result.Ok?
  {
    match run
    case Ok(rs) => if Successes(rs) == |rs| then 0 else 1
    case Err(_) => 1
  }

  /** `{:#?}` of the error `run_tests` returned; an error list prints one line per entry. */
  function RunErrorText(e: RunError): (s: string)
    reads if e.InitFailed? then {e.initErrors} else if e.OpenFailed? then {e.openErrors} else {}
    ensures e.Startup? ==> s == ErrorText(e.error, true)
    ensures e.InitFailed? ==> s == ErrorListText(e.initErrors.entries, FailedToInitializeText, true)
    ensures e.OpenFailed? ==> s == ErrorListText(e.openErrors.entries, FailedToOpenPageText, true)
    ensures !e.Startup? ==> |s| >= |ListHeader| && s[..|ListHeader|] == ListHeader
    ensures e.InitFailed? && SingleLineEntries(e.initErrors.entries, FailedToInitializeText, true) ==>
      Newlines(s) == |e.initErrors.entries| + 1
    ensures e.OpenFailed? && SingleLineEntries(e.openErrors.entries, FailedToOpenPageText, true) ==>
      Newlines(s) == |e.openErrors.entries| + 1
  {
    match e
    case Startup(err) => ErrorText(err, true)
    case InitFailed(list) =>
      ErrorListLineCount(list.entries, FailedToInitializeText, true);
      ErrorListText(list.entries, FailedToInitializeText, true)
    case OpenFailed(list) =>
      ErrorListLineCount(list.entries, FailedToOpenPageText, true);
      ErrorListText(list.entries, FailedToOpenPageText, true)
  }

  /** The result lines of the summary, one `println!` each. */
  function ResultLines(rs: seq<TestResult>): string {
    if rs == [] then "" else ResultLines(rs[..|rs| - 1]) + TestResultText(rs[|rs| - 1]) + "\n"
  }

  /**
   * The reporting half of `e2e_test_runner`: on results, a summary with one
   * line per result and the count line; on an error, its `{:#?}` text. The
   * exit status is the one `ExitCode` gives.
   */
  method Report(run: RunResult) returns (stdout: string, exitCode: int)
    ensures exitCode == ExitCode(run)
    ensures run.Ok? ==> stdout == "\nSummary:\n" + ResultLines(run.value) + SummaryLine(run.value) + "\n"
    ensures run.Err? ==> stdout == RunErrorText(run.error) + "\n"
  {
    match run {
      case Ok(rs) =>
        var lines := PrintResults(rs);
        stdout := "\nSummary:\n" + lines + SummaryLine(rs) + "\n";
        exitCode := if Successes(rs) == |rs| then 0 else 1;
      case Err(error) =>
        stdout := RunErrorText(error) + "\n";
        exitCode := 1;
    }
  }

  /** The loop that prints every result of a run, in order. */
  method PrintResults(rs: seq<TestResult>) returns (printed: string)
    ensures printed == ResultLines(rs)
  {
    printed := "";
    for i := 0 to |rs|
      invariant printed == ResultLines(rs[..i])
    {
      assert rs[..i + 1][..i] == rs[..i];
      printed := printed + TestResultText(rs[i]) + "\n";
    }
    assert rs[..|rs|] == rs;
  }

  /** A run whose results all pass except one reports "1 errors" and exits with 1. */
  lemma SingleFailure(rs: seq<TestResult>, k: nat)
    requires k < |rs| && rs[k].result.Err?
    requires forall i :: 0 <= i < |rs| && i != k ==> rs[i].result.Ok?
    ensures SummaryLine(rs) == "1 errors" && ExitCode(Ok(rs)) == 1
  {
    SingleFailureCount(rs, k);
    assert NatToString(1) == "1";
  }

  lemma {:induction false} SingleFailureCount(rs: seq<TestResult>, k: nat)
    requires k < |rs| && rs[k].result.Err?
    requires forall i :: 0 <= i < |rs| && i != k ==> rs[i].result.Ok?
    ensures FailureCount(rs) == 1
  {
    var init := rs[..|rs| - 1];
    if k == |rs| - 1 {
      assert Successes(init) == |init|;
      SuccessesAndFailures(init);
    } else {
      SingleFailureCount(init, k);
    }
  }

  /** A run with no tests reports "0 tests ran with success" and exits with 0. */
  lemma NoTests()
    ensures SummaryLine([]) == "0 tests ran with success" && ExitCode(Ok([])) == 0
  {
    assert FailureCount([]) == 0;
    assert NatToString(0) == "0";
  }
}
