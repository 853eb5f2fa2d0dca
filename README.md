# A Dafny model of the e2e test runner

This project models the core of a custom Rust test runner for end-to-end browser tests. The runner:

- starts Playwright;
- brings up three browser engines (Chromium, Firefox, Webkit) and gathers every engine failure instead of stopping at the first;
- pairs every test with every live engine;
- runs each pair with its printed output captured and any panic recovered;
- folds the finished pairs, in whatever order they complete, into test results or a list of setup failures;
- prints a summary and computes the process exit status.

It also models the page fetch helper. That helper names HTTP methods, delegates the convenience calls to `fetch`, and picks its own response out of the page's event stream by the `x-e2e-fetch-id` request header.

Modules, one per component:

- `Wrappers`: Option and Result.
- `Decimal`: the `{}` text of a count, and `str::parse::<u32>`.
- `Browsers`: `BrowserType` and its display.
- `Failures`: `CaughtPanic`, the anyhow error, `FailedToInitialize`, `FailedToOpenPage`, and the `ErrorList` class with its display.
- `Capture`: the output hook of the polling thread, the shared capture buffer, `CaptureOutputFuture::poll`, awaiting it, and `Testable::run`.
- `Runner`: `run_tests`, covering engine bring-up, the matrix, one cell, and the fold.
- `Report`: `Display for TestResult`, the summary and the exit code.
- `FetchExt`: `playwright_ext.rs`.

The collaborators appear only as inputs:

- `RunTests` takes the outcome of starting Playwright and of each engine launch as inputs.
- It also takes the order of the browser map and the finished cells in their completion order. The cells must be exactly one result per cell of the matrix, in any order.
- One cell is modelled by `RunCell` from the outcomes of building a context, opening a page and running the test.
- The test future is a sequence of polls. Each poll records what the test printed and how the poll ended: pending, ready, or a panic payload.

Three facts about the code that the model keeps:

- Captured output is printed after a `   ----- TEST STDOUT -----   ` header line and is not indented.
- Results come in the order the cells complete; they are not sorted.
- The bound `tests.len() * browser_map.len()` given to `buffer_unordered` equals the number of cells.

## Model

| member | source | states |
|---|---|---|
| `Decimal.NatToString` | e2e/src/lib.rs:53-56 | a count prints as a non-empty string of decimal digits that starts with `0` only for zero |
| `Decimal.NatToStringValue` | e2e/src/lib.rs:53-56 | the printed digits denote the count itself |
| `Decimal.NatToStringInjective` | e2e/src/lib.rs:53-56 | different counts print differently |
| `Decimal.ParseU32` | e2e/src/playwright_ext.rs:64 | a header value parses only if it is an optional `+` followed by at least one ASCII digit and nothing else |
| `Decimal.ParseU32RoundTrip` | e2e/src/playwright_ext.rs:62-65 | the decimal text of every `u32`, as is, with a leading `+` or with a leading zero, parses back to the same number |
| `Decimal.ParseU32Padded` | e2e/src/playwright_ext.rs:64 | the decimal text of every `u32` with any number of leading zeros, with or without a leading `+`, parses to that number |
| `Decimal.ParseU32Rejects` | e2e/src/playwright_ext.rs:64 | an overflowing number, the empty text, a lone `+` and any `-`-prefixed text do not parse |
| `Decimal.ParseU32RejectsPadded` | e2e/src/playwright_ext.rs:64 | an overflowing number does not parse, however many leading zeros it has, with or without a leading `+` |
| `Browsers.BrowserTypeText` | e2e/src/lib.rs:240-252 | every engine has a non-empty display name |
| `Browsers.BrowserNames` | e2e/src/lib.rs:240-252 | the engines display as exactly "Chromium", "Firefox" and "Webkit" |
| `Browsers.BrowserTypeTextInjective` | e2e/src/lib.rs:240-252 | the three display names are pairwise different |
| `Browsers.LaunchOrderCoversEachKindOnce` | e2e/src/lib.rs:77-137 | the three bring-up blocks name each engine exactly once |
| `Failures.NewCaughtPanic` | e2e/src/lib.rs:388-398 | a `String` or `&str` payload gives its text as the message; any other payload gives none |
| `Failures.CaughtPanicText` | e2e/src/lib.rs:406-413 | a panic displays its message, or "Unknown error" when it has none |
| `Failures.PanicMessageShown` | e2e/src/lib.rs:400-413 | under `{}` and `{:#?}`, a recovered panic's error text is the string payload, or "Unknown error" for any other payload |
| `Failures.FailedToInitializeText` | e2e/src/lib.rs:363-369 | the line is "Failed to initialize " followed by exactly the engine's name |
| `Failures.FailedToInitializeTextInjective` | e2e/src/lib.rs:363-369 | two initialization failures print alike only when they concern the same engine |
| `Failures.FailedToOpenPageText` | e2e/src/lib.rs:371-384 | the line is "Failed to open page in ", the engine's name, " of " and the test's name, with nothing else |
| `Failures.ErrorList.constructor` | e2e/src/lib.rs:330-334 | a new list holds exactly its first (context, error) pair, so it is never empty |
| `Failures.ErrorList.Push` | e2e/src/lib.rs:336-338 | push appends one pair at the end, keeps every earlier pair, and leaves the list non-empty |
| `Failures.ErrorListText` | e2e/src/lib.rs:341-359 | the rendered list starts with the "ErrorList:" line and ends with a line break, and is just that line iff the list holds no pair |
| `Failures.ErrorListTextNew` | e2e/src/lib.rs:330-359 | a new list renders as the "ErrorList:" line and one line "\t- {context}: {error}", with the error in the chosen `{}` or `{:#?}` form |
| `Failures.ErrorListTextPush` | e2e/src/lib.rs:336-359 | pushing a pair adds exactly its line "\t- {context}: {error}" at the end of the rendering and changes nothing before it |
| `Failures.ErrorListLineCount` | e2e/src/lib.rs:341-359 | the rendered list (Display or Debug) is one header line plus exactly one line per recorded error, when no context or error text spans lines |
| `Capture.Buffer.Take` | e2e/src/lib.rs:313-320 | taking the buffer returns everything in it and leaves it empty |
| `Capture.OutputCapture.SetOutputCapture` | e2e/src/lib.rs:304-309 | installing or removing the hook changes only the hook, never what reached standard output |
| `Capture.OutputCapture.Write` | e2e/src/lib.rs:304-309 | while a buffer is installed as the hook, printed text is appended to that buffer and not to standard output |
| `Capture.CaptureOutputFuture.constructor` | e2e/src/lib.rs:292-297 | a capture future starts with its own fresh, empty buffer |
| `Capture.CaptureOutputFuture.Poll` | e2e/src/lib.rs:303-322 | the hook is removed after every poll and nothing reaches standard output; a pending poll keeps the buffer with the new text appended; a finished or panicked poll returns the value or the recovered panic with the whole buffer and leaves the buffer empty |
| `Capture.Await` | e2e/src/lib.rs:275 | awaiting a test that completes gives its final value (or recovered panic) and exactly the text it printed across all polls |
| `Capture.RunOutcome` | e2e/src/lib.rs:276-279 | a recovered panic becomes the test's error; a normal result is kept; the captured output is passed on unchanged |
| `Capture.RunTestable` | e2e/src/lib.rs:274-280 | `Testable::run` yields the awaited result with panics folded in, and the captured output, with the hook removed afterwards |
| `Capture.SilentPass` | e2e/src/lib.rs:274-280 | a test that prints nothing and returns `Ok` yields `Ok` with empty output |
| `Capture.PanicFails` | e2e/src/lib.rs:274-280 | a test that panics yields an error whose text is the panic message, or "Unknown error", and keeps everything written to its buffer across its polls |
| `Runner.InitFailuresPerKind` | e2e/src/lib.rs:75-137 | each engine that fails to launch is recorded once per attempt with its own launch error; an engine that launches is never recorded |
| `Runner.InitFailuresEachOnce` | e2e/src/lib.rs:75-137 | the bring-up records every engine that fails to launch exactly once, and no engine that launches |
| `Runner.InitFailuresOfLaunchOrder` | e2e/src/lib.rs:75-141 | with k of the three engines failing, the error list has exactly k entries |
| `Runner.RecordLaunch` | e2e/src/lib.rs:77-99 | a launched engine joins the browser map; a failure creates the error list or is pushed onto it, and nothing else changes |
| `Runner.BringUp` | e2e/src/lib.rs:75-137 | after the three blocks, the map holds exactly the launched engines and the error list is absent iff no engine failed, else holds the failures in launch order |
| `Runner.Row` | e2e/src/lib.rs:145 | one test is paired with every engine of the map, in the map's order |
| `Runner.Matrix` | e2e/src/lib.rs:143-145 | every cell pairs one of the tests with one of the map's engines |
| `Runner.MatrixLength` | e2e/src/lib.rs:143-145 | the matrix has as many cells as tests times engines |
| `Runner.MatrixAt` | e2e/src/lib.rs:143-145 | cell i * (number of engines) + j pairs test i with engine j |
| `Runner.MatrixCount` | e2e/src/lib.rs:143-145 | a (test, engine) pair occurs as often as the test occurs times as often as the engine occurs: once per pair for distinct tests and engines |
| `Runner.MatrixOrderIrrelevant` | e2e/src/lib.rs:145 | the browser map's iteration order does not change which cells are run |
| `Runner.ConcurrencyBound` | e2e/src/lib.rs:177 | the bound is zero exactly when there are no tests or no engines |
| `Runner.BoundAdmitsEveryCell` | e2e/src/lib.rs:177 | the concurrency bound equals the number of cells |
| `Runner.RunCell` | e2e/src/lib.rs:145-175 | a cell's result is tagged with its own test and engine; it is a setup failure iff building the context or opening the page fails, carrying that error; otherwise it is the test's result and output |
| `Runner.RunCells` | e2e/src/lib.rs:143-175 | each cell in the list yields the result of its own cell future, in the same position |
| `Runner.RunCellsCells` | e2e/src/lib.rs:143-175 | running the cells yields exactly one finished cell per cell, tagged with that cell |
| `Runner.RunCellsSetup` | e2e/src/lib.rs:146-163 | no setup failure arises iff every cell's context and page open |
| `Runner.OutcomesAllOk` | e2e/src/lib.rs:180-185 | without setup failures, result i is finished cell i, and there are as many results as finished cells |
| `Runner.CellOutcomes` | e2e/src/lib.rs:164-174 | without setup failures, result i is the test outcome and output of cell i |
| `Runner.FoldPartition` | e2e/src/lib.rs:178-196 | every finished cell lands in exactly one of the results and the setup failures |
| `Runner.FoldOrderIndependent` | e2e/src/lib.rs:177-196 | the multisets of results and of setup failures do not depend on the order in which cells complete |
| `Runner.OutcomeCells` | e2e/src/lib.rs:178-202 | without setup failures, the results cover exactly the finished cells |
| `Runner.FoldCells` | e2e/src/lib.rs:178-196 | the fold appends every test result in arrival order, and its error list is absent iff no setup failed, else holds every setup failure in arrival order |
| `Runner.RunTests` | e2e/src/lib.rs:71-203 | a startup error is returned as is; any engine failure returns all engine failures, in a non-empty list, before any cell runs; otherwise any setup failure returns all setup failures, in a non-empty list, and discards the results; otherwise the results, one per (test, engine) pair of the three engines |
| `Runner.RunMatrix` | e2e/src/lib.rs:143-203 | with the cells run by their own futures and complete in any order, once all engines are up the run succeeds iff every cell's context and page open, and then result i is the outcome of the i-th cell to complete, with tests times engines results |
| `Report.TestResultText` | e2e/src/lib.rs:212-231 | the line is "{test} in {engine}...\t", then `[OK]` exactly for a pass, or `[FAILED]`, a newline and the error's `{:#?}` text, then directly the captured-output block iff the test printed anything, pass or fail, and nothing else |
| `Report.PanickedTestText` | e2e/src/lib.rs:216-220 | a panicked test's line shows `[FAILED]` followed by the panic message, or "Unknown error" |
| `Report.Successes` | e2e/src/lib.rs:48-51 | the success count is at most the number of results and equals it iff every result passed |
| `Report.SuccessesAndFailures` | e2e/src/lib.rs:52-57 | the successes plus the failed results make up all results, so `len - successes` is the number of failures |
| `Report.SummaryLine` | e2e/src/lib.rs:52-58 | with no failure the line is "{n} tests ran with success" for all n results; otherwise "{f} errors" for the f failed results |
| `Report.ExitCode` | e2e/src/lib.rs:40-64 | the status is 0 or 1, and 0 exactly when the run returned results and every result passed; an error run always gives 1 |
| `Report.RunErrorText` | e2e/src/lib.rs:60-61 | a startup error prints as its own `{:#?}` text; an engine or setup failure prints as the `Debug` rendering of its error list: the "ErrorList:" line, then one line per entry, exactly one when no entry spans lines |
| `Report.PrintResults` | e2e/src/lib.rs:44-46 | every result is printed on its own line, in order |
| `Report.Report` | e2e/src/lib.rs:40-64 | the output is the summary, the result lines and the count line for a run with results, or the error's `{:#?}` text for a failed run; the status is `ExitCode` |
| `Report.SingleFailure` | e2e/src/lib.rs:48-58 | with one failed result among passes, the summary reads "1 errors" and the status is 1 |
| `Report.NoTests` | e2e/src/lib.rs:52-54 | with no results, the summary reads "0 tests ran with success" and the status is 0 |
| `FetchExt.AsStr` | e2e/src/playwright_ext.rs:95-105 | every method name is at least three upper-case ASCII letters |
| `FetchExt.MethodNames` | e2e/src/playwright_ext.rs:95-105 | each method goes out under its own name: "GET", "POST", "PUT", "PATCH" and "DELETE" |
| `FetchExt.AsStrInjective` | e2e/src/playwright_ext.rs:95-105 | the five method names are pairwise different |
| `FetchExt.Get` | e2e/src/playwright_ext.rs:23-25 | `get` fetches with the method named "GET", the given URL and no body |
| `FetchExt.Post` | e2e/src/playwright_ext.rs:27-29 | `post` fetches with "POST" and the given body, unchanged |
| `FetchExt.Put` | e2e/src/playwright_ext.rs:31-33 | `put` fetches with "PUT" and the given body, unchanged |
| `FetchExt.Patch` | e2e/src/playwright_ext.rs:35-37 | `patch` fetches with "PATCH" and the given body, unchanged |
| `FetchExt.Delete` | e2e/src/playwright_ext.rs:39-41 | `delete` fetches with "DELETE" and no body |
| `FetchExt.HeaderFetchId` | e2e/src/playwright_ext.rs:62-65 | a response has a fetch id iff its request headers are readable, contain `x-e2e-fetch-id`, and that value parses as a `u32` |
| `FetchExt.KeepEvent` | e2e/src/playwright_ext.rs:57-72 | an error event is passed on unchanged; a response is kept, unchanged, iff its request carried this fetch's id; every other event is dropped |
| `FetchExt.OwnResponseKept` | e2e/src/playwright_ext.rs:61-68 | the response to a request that carried this fetch's id as decimal text is kept |
| `FetchExt.OtherResponseDropped` | e2e/src/playwright_ext.rs:61-69 | the response to a request with a different id is dropped |
| `FetchExt.FetchErrorText` | e2e/src/playwright_ext.rs:107-114 | `NotFound` displays as "NotFound"; a forwarded event error displays as itself |
| `FetchExt.NextKept` | e2e/src/playwright_ext.rs:82 | the result is `NotFound` iff the filter keeps no event; otherwise the first kept event decides it, a response as the result and an error as the failure |

## Left out

- Starting and killing the `target/debug/web` server, `std::process::exit` and the tokio runtime (e2e/src/lib.rs:30-38, 66-68) are process I/O. The model computes the printed text and the exit status only.
- The Playwright calls are foreign. This covers `Playwright::initialize`, `prepare`, the engine launches, `context_builder().build()` and `new_page()`. Their outcomes are inputs, each either success or an opaque error.
- In `fetch`, `eval`, `subscribe_event` and `evaluate` are foreign too, together with the JavaScript that increments `window.e2eFetchId` and issues the request (e2e/src/playwright_ext.rs:52-80). The model starts from the fetch id and the events the page produces.
- Concurrency is not modelled: `buffer_unordered`, the async `flat_map` and `fold`, and the live printing by `inspect` (e2e/src/lib.rs:173). The completion order of the cells is an input sequence.
- `RunTests`: what `buffer_unordered` does with a bound of zero (no tests) depends on the futures library. The model folds an empty sequence of cells.
- `Capture.CaptureOutputFuture.Poll`: the hook is thread-local, so only what the polling thread prints is captured. Text printed by other threads escapes the buffer and reaches standard output, including tasks a test spawns onto the runtime's worker threads. Also, std's default panic hook writes its "panicked at" report into the installed buffer. A panicking step's `written` text therefore includes that report, not only what the test printed itself; the same holds for `Capture.PanicFails`.
- `Capture.Await`: a test future that never completes is not modelled. Polls are taken one at a time, so the model does not cover two futures interleaving inside one poll.
- Output is modelled as text, not bytes. `String::from_utf8_lossy` is not modelled.
- The `{}` and `{:#?}` texts of errors from collaborators are opaque strings.
- Test names come from `type_name` (e2e/src/lib.rs:271). They are modelled as given strings.
- The `Serialize` body of the fetch helpers is passed through as a value. Its JSON encoding is not modelled.
- The event stream of a page is a finite sequence; its end is the end of the stream.
- The test bodies (e2e/src/lib.rs:417-446 and the files under e2e/src/tests and e2e/tests), the demo server web/src/main.rs and the data struct common/src/lib.rs are not part of this model.
