/**
 * The runner proper (`run_tests`): bring up every engine and gather every
 * failure, pair every test with every live engine, and fold the results
 * of the cells, in whatever order they complete, into the test results or
 * a list of setup failures.
 */
module Runner {
  import opened Wrappers
  import opened Browsers
  import opened Failures

  /** What one test in one engine came to. */
  datatype TestResult = TestResult(testName: string, browserType: BrowserType, result: Result<(), Error>, output: string)

  /** A cell of the execution matrix: a test (by name) and an engine. */
  type Cell = (string, BrowserType)

  /** A finished cell: a test result, or the failure to open a page for it. */
  type CellResult = Result<TestResult, (FailedToOpenPage, Error)>

  /** The error `run_tests` returns. */
  datatype RunError =
    | Startup(error: Error)
    | InitFailed(initErrors: ErrorList<FailedToInitialize>)
    | OpenFailed(openErrors: ErrorList<FailedToOpenPage>)

  type RunResult = Result<seq<TestResult>, RunError>

  // ---------------------------------------------------------------------
  // Engine bring-up

  /** The failures of bringing up `kinds`, one entry per failing kind, in order. */
  function InitFailures(kinds: seq<BrowserType>, launch: BrowserType -> Result<(), Error>): seq<(FailedToInitialize, Error)> {
    if kinds == [] then []
    else
      var k := kinds[|kinds| - 1];
      InitFailures(kinds[..|kinds| - 1], launch)
      + (if launch(k).Err? then [(FailedToInitialize(k), launch(k).error)] else [])
  }

  function InitKinds(entries: seq<(FailedToInitialize, Error)>): seq<BrowserType> {
    if entries == [] then [] else InitKinds(entries[..|entries| - 1]) + [entries[|entries| - 1].0.browser]
  }

  /**
   * Each kind that fails to come up is recorded once for each time it is
   * tried, with the error of its launch; a kind that comes up is not
   * recorded at all.
   */
  lemma {:induction false} InitFailuresPerKind(kinds: seq<BrowserType>, launch: BrowserType -> Result<(), Error>, b: BrowserType)
    ensures multiset(InitKinds(InitFailures(kinds, launch)))[b] == if launch(b).Err? then multiset(kinds)[b] else 0
    ensures forall e :: e in InitFailures(kinds, launch) ==> launch(e.0.browser) == Err(e.1)
  {
    if kinds != [] {
      var init, k := kinds[..|kinds| - 1], kinds[|kinds| - 1];
      assert kinds == init + [k];
      InitFailuresPerKind(init, launch, b);
      var prev := InitFailures(init, launch);
      if launch(k).Err? {
        var added := prev + [(FailedToInitialize(k), launch(k).error)];
        assert InitFailures(kinds, launch) == added;
        assert added[..|added| - 1] == prev;
        assert InitKinds(added) == InitKinds(prev) + [k];
      } else {
        assert InitFailures(kinds, launch) == prev;
      }
    }
  }

  lemma InitFailuresSnoc(kinds: seq<BrowserType>, k: BrowserType, launch: BrowserType -> Result<(), Error>)
    ensures InitFailures(kinds + [k], launch) ==
      InitFailures(kinds, launch) + (if launch(k).Err? then [(FailedToInitialize(k), launch(k).error)] else [])
  {
    assert (kinds + [k])[..|kinds|] == kinds;
  }

  /** With the three engines tried once each, k failing kinds give exactly k entries. */
  lemma InitFailuresOfLaunchOrder(launch: BrowserType -> Result<(), Error>)
    ensures |InitFailures(LaunchOrder, launch)| ==
      (if launch(Chromium).Err? then 1 else 0) + (if launch(Firefox).Err? then 1 else 0) + (if launch(Webkit).Err? then 1 else 0)
  {
    InitFailuresSnoc([], Chromium, launch);
    InitFailuresSnoc([Chromium], Firefox, launch);
    InitFailuresSnoc([Chromium, Firefox], Webkit, launch);
    assert [] + [Chromium] == [Chromium];
    assert [Chromium] + [Firefox] == [Chromium, Firefox];
    assert [Chromium, Firefox] + [Webkit] == LaunchOrder;
  }

  /**
   * Bringing up the three engines records every engine that fails to launch
   * exactly once, and no engine that launches.
   */
  lemma InitFailuresEachOnce(launch: BrowserType -> Result<(), Error>, b: BrowserType)
    ensures multiset(InitKinds(InitFailures(LaunchOrder, launch)))[b] == if launch(b).Err? then 1 else 0
  {
    InitFailuresPerKind(LaunchOrder, launch, b);
    LaunchOrderCoversEachKindOnce(b);
  }

  /**
   * The state after trying the engines `kinds`: the browser map holds
   * those that came up, the error list those that did not.
   */
  ghost predicate Recorded(kinds: seq<BrowserType>, launch: BrowserType -> Result<(), Error>,
                           browserMap: set<BrowserType>, errors: ErrorList?<FailedToInitialize>)
    reads errors
  {
    && (forall b :: b in browserMap <==> b in kinds && launch(b).Ok?)
    && (errors == null <==> InitFailures(kinds, launch) == [])
    && (errors != null ==> errors.entries == InitFailures(kinds, launch))
  }

  /**
   * One bring-up block of `run_tests`: a launched engine joins the browser
   * map; a failure starts the error list or is pushed onto it.
   */
  method RecordLaunch(kind: BrowserType, launch: BrowserType -> Result<(), Error>, ghost tried: seq<BrowserType>,
                      browserMap: set<BrowserType>, errors: ErrorList?<FailedToInitialize>)
    returns (newMap: set<BrowserType>, newErrors: ErrorList?<FailedToInitialize>)
    requires Recorded(tried, launch, browserMap, errors)
    modifies errors
    ensures Recorded(tried + [kind], launch, newMap, newErrors)
    ensures launch(kind).Ok? ==> newMap == browserMap + {kind} && newErrors == errors
    ensures launch(kind).Ok? && errors != null ==> errors.entries == old(errors.entries)
    ensures launch(kind).Err? ==> newMap == browserMap && newErrors != null
    ensures launch(kind).Err? && errors != null ==>
      newErrors == errors && errors.entries == old(errors.entries) + [(FailedToInitialize(kind), launch(kind).error)]
    ensures launch(kind).Err? && errors == null ==>
      fresh(newErrors) && newErrors.entries == [(FailedToInitialize(kind), launch(kind).error)]
  {
    InitFailuresSnoc(tried, kind, launch);
    newMap, newErrors := browserMap, errors;
    match launch(kind) {
      case Ok(_) =>
        newMap := browserMap + {kind};
      case Err(err) =>
        if errors != null {
          errors.Push(FailedToInitialize(kind), err);
        } else {
          newErrors := new ErrorList(FailedToInitialize(kind), err);
        }
    }
  }

  // ---------------------------------------------------------------------
  // The execution matrix

  /** The cells of one test, one per engine, in the engines' order. */
  function Row(test: string, browsers: seq<BrowserType>): (row: seq<Cell>)
    ensures |row| == |browsers|
    ensures forall j :: 0 <= j < |browsers| ==> row[j] == (test, browsers[j])
  {
    if browsers == [] then [] else Row(test, browsers[..|browsers| - 1]) + [(test, browsers[|browsers| - 1])]
  }

  /** Every test paired with every engine, tests outermost. */
  function Matrix(tests: seq<string>, browsers: seq<BrowserType>): (m: seq<Cell>)
    ensures forall k :: 0 <= k < |m| ==> m[k].0 in tests && m[k].1 in browsers
  {
    if tests == [] then []
    else
      var row, rest := Row(tests[0], browsers), Matrix(tests[1..], browsers);
      assert forall k :: 0 <= k < |rest| ==> rest[k].0 in tests by {
        forall k | 0 <= k < |rest| ensures rest[k].0 in tests {
          var t :| t in tests[1..] && t == rest[k].0;
          assert t in tests;
        }
      }
      row + rest
  }

  /** There are as many cells as tests times engines. */
  lemma {:induction false} MatrixLength(tests: seq<string>, browsers: seq<BrowserType>)
    ensures |Matrix(tests, browsers)| == |tests| * |browsers|
  {
    if tests != [] {
      MatrixLength(tests[1..], browsers);
      MulSucc(|tests| - 1, |browsers|);
    }
  }

  /** Cell `i * |browsers| + j` of the matrix pairs test `i` with engine `j`. */
  lemma {:induction false} MatrixAt(tests: seq<string>, browsers: seq<BrowserType>, i: nat, j: nat)
    requires i < |tests| && j < |browsers|
    ensures i * |browsers| + j < |Matrix(tests, browsers)|
    ensures Matrix(tests, browsers)[i * |browsers| + j] == (tests[i], browsers[j])
  {
    var m := |browsers|;
    MatrixLength(tests, browsers);
    if i > 0 {
      MatrixAt(tests[1..], browsers, i - 1, j);
      assert (i - 1) * m + j + m == i * m + j;
    }
  }

  lemma {:induction false} RowCount(test: string, browsers: seq<BrowserType>, c: Cell)
    ensures multiset(Row(test, browsers))[c] == if c.0 == test then multiset(browsers)[c.1] else 0
  {
    if browsers != [] {
      var init := browsers[..|browsers| - 1];
      assert browsers == init + [browsers[|browsers| - 1]];
      RowCount(test, init, c);
    }
  }

  /**
   * A cell occurs in the matrix as often as its test occurs among the tests
   * times as often as its engine occurs among the engines: with distinct
   * tests and engines, exactly once per pair.
   */
  lemma {:induction false} MatrixCount(tests: seq<string>, browsers: seq<BrowserType>, c: Cell)
    ensures multiset(Matrix(tests, browsers))[c] == multiset(tests)[c.0] * multiset(browsers)[c.1]
  {
    if tests != [] {
      var n := multiset(tests[1..])[c.0];
      var b := multiset(browsers)[c.1];
      MatrixSplit(tests, browsers, c);
      RowCount(tests[0], browsers, c);
      MatrixCount(tests[1..], browsers, c);
      MulSucc(n, b);
    }
  }

  lemma MatrixSplit(tests: seq<string>, browsers: seq<BrowserType>, c: Cell)
    requires tests != []
    ensures multiset(Matrix(tests, browsers))[c] ==
      multiset(Row(tests[0], browsers))[c] + multiset(Matrix(tests[1..], browsers))[c]
    ensures multiset(tests)[c.0] == multiset(tests[1..])[c.0] + (if c.0 == tests[0] then 1 else 0)
  {
    assert tests == [tests[0]] + tests[1..];
  }

  lemma MulSucc(x: nat, y: nat)
    ensures (x + 1) * y == x * y + y
  {
  }

  /** The map's iteration order does not change which cells are run. */
  lemma MatrixOrderIrrelevant(tests: seq<string>, order1: seq<BrowserType>, order2: seq<BrowserType>)
    requires multiset(order1) == multiset(order2)
    ensures multiset(Matrix(tests, order1)) == multiset(Matrix(tests, order2))
  {
    forall c: Cell
      ensures multiset(Matrix(tests, order1))[c] == multiset(Matrix(tests, order2))[c]
    {
      MatrixCount(tests, order1, c);
      MatrixCount(tests, order2, c);
    }
  }

  /** The `buffer_unordered` bound, `tests.len() * browser_map.len()`. */
  function ConcurrencyBound(tests: seq<string>, browserMap: set<BrowserType>): (bound: nat)
    ensures bound == 0 <==> tests == [] || browserMap == {}
  {
    |tests| * |browserMap|
  }

  /** The bound is the number of cells, so no cell waits for another to finish before it starts. */
  lemma BoundAdmitsEveryCell(tests: seq<string>, order: seq<BrowserType>, browserMap: set<BrowserType>)
    requires |order| == |browserMap|
    ensures ConcurrencyBound(tests, browserMap) == |Matrix(tests, order)|
  {
    MatrixLength(tests, order);
  }

  // ---------------------------------------------------------------------
  // One cell

  /**
   * What the collaborators do for one cell: building a browser context,
   * opening a page in it, and, once both succeed, the (result, output)
   * pair `Testable::run` yields.
   */
  datatype CellEnv = CellEnv(context: Result<(), Error>, page: Result<(), Error>, run: (Result<(), Error>, string))

  function CellOf(c: CellResult): Cell {
    match c
    case Ok(tr) => (tr.testName, tr.browserType)
    case Err((context, _)) => (context.testName, context.browserType)
  }

  /**
   * The future of one cell: a failure to build the context or to open the
   * page is a setup failure tagged with the cell; otherwise the test runs
   * and its result and output become the cell's test result.
   */
  function RunCell(test: string, browser: BrowserType, env: CellEnv): (r: CellResult)
    ensures CellOf(r) == (test, browser)
    ensures r.Err? <==> env.context.Err? || env.page.Err?
    ensures r.Err? ==> r.error.1 == if env.context.Err? then env.context.error else env.page.error
    ensures r.Ok? ==> (r.value.result, r.value.output) == env.run
  {
    if env.context.Err? then Err((FailedToOpenPage(test, browser), env.context.error))
    else if env.page.Err? then Err((FailedToOpenPage(test, browser), env.page.error))
    else Ok(TestResult(test, browser, env.run.0, env.run.1))
  }

  /** The futures of the cells `cells`, each run against what the collaborators do for it. */
  function RunCells(cells: seq<Cell>, env: Cell -> CellEnv): (rs: seq<CellResult>)
    ensures |rs| == |cells|
    ensures forall i :: 0 <= i < |cells| ==> rs[i] == RunCell(cells[i].0, cells[i].1, env(cells[i]))
  {
    if cells == [] then []
    else
      var last := cells[|cells| - 1];
      RunCells(cells[..|cells| - 1], env) + [RunCell(last.0, last.1, env(last))]
  }

  // ---------------------------------------------------------------------
  // The fold over finished cells

  function CellsOf(cs: seq<CellResult>): (cells: seq<Cell>)
    ensures |cells| == |cs|
  {
    if cs == [] then [] else CellsOf(cs[..|cs| - 1]) + [CellOf(cs[|cs| - 1])]
  }

  function ResultCells(rs: seq<TestResult>): (cells: seq<Cell>)
    ensures |cells| == |rs|
  {
    if rs == [] then [] else ResultCells(rs[..|rs| - 1]) + [(rs[|rs| - 1].testName, rs[|rs| - 1].browserType)]
  }

  /** The test results among the finished cells, in arrival order. */
  function Outcomes(arrivals: seq<CellResult>): seq<TestResult> {
    if arrivals == [] then []
    else
      var last := arrivals[|arrivals| - 1];
      Outcomes(arrivals[..|arrivals| - 1]) + (if last.Ok? then [last.value] else [])
  }

  /** The setup failures among the finished cells, in arrival order. */
  function SetupFailures(arrivals: seq<CellResult>): seq<(FailedToOpenPage, Error)> {
    if arrivals == [] then []
    else
      var last := arrivals[|arrivals| - 1];
      SetupFailures(arrivals[..|arrivals| - 1]) + (if last.Err? then [last.error] else [])
  }

  /** Every finished cell lands on exactly one side of the fold. */
  lemma {:induction false} FoldPartition(arrivals: seq<CellResult>)
    ensures |Outcomes(arrivals)| + |SetupFailures(arrivals)| == |arrivals|
  {
    if arrivals != [] {
      FoldPartition(arrivals[..|arrivals| - 1]);
    }
  }

  lemma {:induction false} OutcomesCount(arrivals: seq<CellResult>, t: TestResult)
    ensures multiset(Outcomes(arrivals))[t] == multiset(arrivals)[Ok(t)]
  {
    if arrivals != [] {
      var init := arrivals[..|arrivals| - 1];
      assert arrivals == init + [arrivals[|arrivals| - 1]];
      OutcomesCount(init, t);
    }
  }

  lemma {:induction false} SetupFailuresCount(arrivals: seq<CellResult>, f: (FailedToOpenPage, Error))
    ensures multiset(SetupFailures(arrivals))[f] == multiset(arrivals)[Err(f)]
  {
    if arrivals != [] {
      var init := arrivals[..|arrivals| - 1];
      assert arrivals == init + [arrivals[|arrivals| - 1]];
      SetupFailuresCount(init, f);
    }
  }

  /** The fold ends with the same results and the same failures whatever order the cells finish in. */
  lemma FoldOrderIndependent(a: seq<CellResult>, b: seq<CellResult>)
    requires multiset(a) == multiset(b)
    ensures multiset(Outcomes(a)) == multiset(Outcomes(b))
    ensures multiset(SetupFailures(a)) == multiset(SetupFailures(b))
  {
    forall t: TestResult
      ensures multiset(Outcomes(a))[t] == multiset(Outcomes(b))[t]
    {
      OutcomesCount(a, t);
      OutcomesCount(b, t);
    }
    forall f: (FailedToOpenPage, Error)
      ensures multiset(SetupFailures(a))[f] == multiset(SetupFailures(b))[f]
    {
      SetupFailuresCount(a, f);
      SetupFailuresCount(b, f);
    }
  }

  /** Without setup failures, the test results cover exactly the cells that finished. */
  lemma {:induction false} OutcomeCells(arrivals: seq<CellResult>)
    requires SetupFailures(arrivals) == []
    ensures ResultCells(Outcomes(arrivals)) == CellsOf(arrivals)
  {
    if arrivals != [] {
      var init := arrivals[..|arrivals| - 1];
      var last := arrivals[|arrivals| - 1];
      assert last.Ok?;
      OutcomeCells(init);
      var rs := Outcomes(arrivals);
      assert rs == Outcomes(init) + [last.value];
      assert rs[..|rs| - 1] == Outcomes(init);
    }
  }

  /** Running the cells yields exactly one finished cell per cell, each tagged with its own cell. */
  lemma {:induction false} RunCellsCells(cells: seq<Cell>, env: Cell -> CellEnv)
    ensures CellsOf(RunCells(cells, env)) == cells
  {
    if cells != [] {
      var init := cells[..|cells| - 1];
      RunCellsCells(init, env);
      var rs := RunCells(cells, env);
      assert rs[..|rs| - 1] == RunCells(init, env);
    }
  }

  /** There is no setup failure iff every cell's context and page open. */
  lemma {:induction false} RunCellsSetup(cells: seq<Cell>, env: Cell -> CellEnv)
    ensures SetupFailures(RunCells(cells, env)) == [] <==>
      forall i :: 0 <= i < |cells| ==> env(cells[i]).context.Ok? && env(cells[i]).page.Ok?
  {
    if cells != [] {
      var init := cells[..|cells| - 1];
      RunCellsSetup(init, env);
      var rs := RunCells(cells, env);
      assert rs[..|rs| - 1] == RunCells(init, env);
      if SetupFailures(rs) == [] {
        assert SetupFailures(RunCells(init, env)) == [];
        forall i | 0 <= i < |cells|
          ensures env(cells[i]).context.Ok? && env(cells[i]).page.Ok?
        {
          if i < |init| {
            assert cells[i] == init[i];
          }
        }
      }
    }
  }

  /** Without setup failures, the results are the finished cells in arrival order. */
  lemma {:induction false} OutcomesAllOk(arrivals: seq<CellResult>)
    requires SetupFailures(arrivals) == []
    ensures |Outcomes(arrivals)| == |arrivals|
    ensures forall i :: 0 <= i < |arrivals| ==> arrivals[i] == Ok(Outcomes(arrivals)[i])
  {
    if arrivals != [] {
      var init := arrivals[..|arrivals| - 1];
      assert arrivals[|arrivals| - 1].Ok?;
      OutcomesAllOk(init);
      forall i | 0 <= i < |arrivals|
        ensures arrivals[i] == Ok(Outcomes(arrivals)[i])
      {
        if i < |init| {
          assert arrivals[i] == init[i];
        }
      }
    }
  }

  // ---------------------------------------------------------------------
  // run_tests

  /**
   * The three bring-up blocks of `run_tests`, in launch order: the map holds
   * the engines that came up, and the error list, if any, holds one entry
   * per engine that did not.
   */
  method BringUp(launch: BrowserType -> Result<(), Error>) returns (browserMap: set<BrowserType>, initErrors: ErrorList?<FailedToInitialize>)
    ensures forall b :: b in browserMap <==> launch(b).Ok?
    ensures initErrors == null <==> InitFailures(LaunchOrder, launch) == []
    ensures initErrors != null ==> fresh(initErrors) && initErrors.entries == InitFailures(LaunchOrder, launch)
  {
    browserMap, initErrors := {}, null;
    browserMap, initErrors := RecordLaunch(Chromium, launch, [], browserMap, initErrors);
    assert [] + [Chromium] == [Chromium];
    browserMap, initErrors := RecordLaunch(Firefox, launch, [Chromium], browserMap, initErrors);
    assert [Chromium] + [Firefox] == [Chromium, Firefox];
    browserMap, initErrors := RecordLaunch(Webkit, launch, [Chromium, Firefox], browserMap, initErrors);
    assert [Chromium, Firefox] + [Webkit] == LaunchOrder;
    forall b: BrowserType
      ensures b in LaunchOrder
    {
      assert b.Chromium? || b.Firefox? || b.Webkit?;
    }
  }

  /**
   * The `fold` over finished cells: each test result is appended to the
   * results; each setup failure starts the error list or is pushed onto it.
   */
  method FoldCells(arrivals: seq<CellResult>) returns (results: seq<TestResult>, errorList: ErrorList?<FailedToOpenPage>)
    ensures results == Outcomes(arrivals)
    ensures errorList == null <==> SetupFailures(arrivals) == []
    ensures errorList != null ==> fresh(errorList) && errorList.entries == SetupFailures(arrivals)
  {
    results, errorList := [], null;
    for i := 0 to |arrivals|
      invariant results == Outcomes(arrivals[..i])
      invariant errorList == null <==> SetupFailures(arrivals[..i]) == []
      invariant errorList != null ==> fresh(errorList) && errorList.entries == SetupFailures(arrivals[..i])
    {
      assert arrivals[..i + 1][..i] == arrivals[..i];
      match arrivals[i] {
        case Ok(testResult) =>
          results := results + [testResult];
        case Err((context, err)) =>
          if errorList == null {
            errorList := new ErrorList(context, err);
          } else {
            errorList.Push(context, err);
          }
      }
    }
    assert arrivals[..|arrivals|] == arrivals;
  }

  /**
   * `run_tests`. `startup` is the outcome of starting Playwright and
   * installing its browsers, `launch` that of launching each engine,
   * `mapOrder` the order in which the browser map yields its engines, and
   * `arrivals` the finished cells in the order they complete: one per cell
   * of the matrix.
   */
  method RunTests(
    startup: Result<(), Error>,
    launch: BrowserType -> Result<(), Error>,
    tests: seq<string>,
    mapOrder: seq<BrowserType>,
    arrivals: seq<CellResult>)
    returns (r: RunResult)
    requires multiset(mapOrder) == multiset(LaunchOrder)
    requires multiset(CellsOf(arrivals)) == multiset(Matrix(tests, mapOrder))
    ensures startup.Err? ==> r == Err(Startup(startup.error))
    ensures startup.Ok? && InitFailures(LaunchOrder, launch) != [] ==>
      && r.Err? && r.error.InitFailed?
      && fresh(r.error.initErrors)
      && r.error.initErrors.entries == InitFailures(LaunchOrder, launch)
      && r.error.initErrors.Valid()
    ensures startup.Ok? && InitFailures(LaunchOrder, launch) == [] && SetupFailures(arrivals) != [] ==>
      && r.Err? && r.error.OpenFailed?
      && fresh(r.error.openErrors)
      && r.error.openErrors.entries == SetupFailures(arrivals)
      && r.error.openErrors.Valid()
    ensures startup.Ok? && InitFailures(LaunchOrder, launch) == [] && SetupFailures(arrivals) == [] ==>
      r == Ok(Outcomes(arrivals))
    ensures r.Ok? ==>
      && |r.value| == |tests| * |LaunchOrder|
      && multiset(ResultCells(r.value)) == multiset(Matrix(tests, LaunchOrder))
  {
    if startup.Err? {
      return Err(Startup(startup.error));
    }

    var browserMap, initErrors := BringUp(launch);
    if initErrors != null {
      return Err(InitFailed(initErrors));
    }

    var results, errorList := FoldCells(arrivals);
    if errorList != null {
      return Err(OpenFailed(errorList));
    }

    FoldPartition(arrivals);
    OutcomeCells(arrivals);
    MatrixOrderIrrelevant(tests, mapOrder, LaunchOrder);
    MatrixLength(tests, mapOrder);
    assert |mapOrder| == |multiset(mapOrder)| == |LaunchOrder|;
    assert |arrivals| == |multiset(CellsOf(arrivals))| == |Matrix(tests, mapOrder)|;
    return Ok(results);
  }

  /**
   * `run_tests` with its cells run by `RunCell`: `completion` lists the
   * cells of the matrix in the order their futures complete. Once every
   * engine is up, the run succeeds iff every cell's context and page open,
   * and then each result is its cell's test outcome, in completion order.
   */
  method RunMatrix(
    startup: Result<(), Error>,
    launch: BrowserType -> Result<(), Error>,
    tests: seq<string>,
    mapOrder: seq<BrowserType>,
    completion: seq<Cell>,
    env: Cell -> CellEnv)
    returns (r: RunResult)
    requires multiset(mapOrder) == multiset(LaunchOrder)
    requires multiset(completion) == multiset(Matrix(tests, mapOrder))
    ensures startup.Err? ==> r == Err(Startup(startup.error))
    ensures startup.Ok? && InitFailures(LaunchOrder, launch) != [] ==> r.Err? && r.error.InitFailed?
    ensures startup.Ok? && InitFailures(LaunchOrder, launch) == [] ==>
      (r.Ok? <==> forall i :: 0 <= i < |completion| ==> env(completion[i]).context.Ok? && env(completion[i]).page.Ok?)
    ensures r.Ok? ==>
      && |r.value| == |completion| == |tests| * |LaunchOrder|
      && forall i :: 0 <= i < |completion| ==>
        r.value[i] == TestResult(completion[i].0, completion[i].1, env(completion[i]).run.0, env(completion[i]).run.1)
  {
    var arrivals := RunCells(completion, env);
    RunCellsCells(completion, env);
    r := RunTests(startup, launch, tests, mapOrder, arrivals);
    if startup.Ok? && InitFailures(LaunchOrder, launch) == [] {
      RunCellsSetup(completion, env);
      if r.Ok? {
        CellOutcomes(completion, env);
      }
    }
  }

  /** Without setup failures, result `i` is the test outcome of cell `i`. */
  lemma CellOutcomes(cells: seq<Cell>, env: Cell -> CellEnv)
    requires SetupFailures(RunCells(cells, env)) == []
    ensures |Outcomes(RunCells(cells, env))| == |cells|
    ensures forall i :: 0 <= i < |cells| ==>
      Outcomes(RunCells(cells, env))[i] == TestResult(cells[i].0, cells[i].1, env(cells[i]).run.0, env(cells[i]).run.1)
  {
    var arrivals := RunCells(cells, env);
    OutcomesAllOk(arrivals);
    forall i | 0 <= i < |cells|
      ensures Outcomes(arrivals)[i] == TestResult(cells[i].0, cells[i].1, env(cells[i]).run.0, env(cells[i]).run.1)
    {
      assert arrivals[i] == RunCell(cells[i].0, cells[i].1, env(cells[i]));
    }
  }
}
