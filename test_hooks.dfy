/** TestHooks: the test-run and scenario brackets. The run start builds the
    shared services (configuration, the driver factory, the report manager
    and the metrics collector); each scenario opens a scope with its own
    WebDriverManager, resolves the page objects and the test data through
    it, opens a report entry and restarts the metrics timer; each scenario
    end records exactly one outcome, tries a screenshot on failure and
    disposes the scope; the run end flushes the report, exports the metrics
    and disposes the shared services. Clock stamps, file-system results and
    the scenario outcome are inputs. */
module Hooks {
  import opened Common
  import opened Drivers
  import opened WebDrivers
  import opened Reporting
  import opened Metrics
  import opened TestData
  import opened LoginPages
  import opened DashboardPages

  datatype HookError =
    | DriverUnavailable(cause: ManagerError)  // resolving a page object asked for a session and that threw
    | ReportUnavailable(reason: ReportError)  // the report could not be created

  const ScreenshotKey: string := "TestSettings:ScreenshotOnFailure"

  /** bool.Parse(TestSettings:ScreenshotOnFailure ?? "true"): None when the
      text does not parse (the parse throws). */
  function ScreenshotsEnabled(config: Config): (r: Option<bool>)
    ensures ScreenshotKey !in config ==> r == Some(true)
    ensures ScreenshotKey in config ==> r == ParseBool(config[ScreenshotKey])
  {
    assert ToLower("true") == "true";
    ParseBool(Lookup(config, ScreenshotKey).GetOr("true"))
  }

  /** Screenshots/<title>_<yyyyMMdd_HHmmss>.png */
  function ScreenshotPath(title: string, stamp: string, windows: bool): (path: string)
    ensures EndsWith(path, title + "_" + stamp + ".png")
    ensures |"Screenshots"| <= |path| && path[..|"Screenshots"|] == "Screenshots"
  {
    PathCombineParts("Screenshots", title + "_" + stamp + ".png", windows);
    PathCombine("Screenshots", title + "_" + stamp + ".png", windows)
  }

  /** Reports/TestMetrics_<yyyyMMdd_HHmmss>.json */
  function MetricsPath(stamp: string, windows: bool): (path: string)
    ensures EndsWith(path, "TestMetrics_" + stamp + ".json")
    ensures |"Reports"| <= |path| && path[..|"Reports"|] == "Reports"
  {
    PathCombineParts("Reports", "TestMetrics_" + stamp + ".json", windows);
    PathCombine("Reports", "TestMetrics_" + stamp + ".json", windows)
  }

  /** The outcome recorded for a scenario: Fail exactly when it has an
      error, never Skip. */
  function Outcome(testError: Option<string>): (result: TestResult)
    ensures result == TestResult.Fail <==> testError.Some?
    ensures result != TestResult.Skip
  {
    if testError.Some? then TestResult.Fail else TestResult.Pass
  }

  /** The status line a scenario end logs. */
  function OutcomeLine(testError: Option<string>): (line: LogLine)
    ensures line.status == Status.Fail <==> testError.Some?
    ensures testError.Some? ==> line.message == "Test failed: " + testError.value
  {
    match testError
    case Some(message) => LogLine(Status.Fail, "Test failed: " + message)
    case None => LogLine(Status.Pass, "Test completed successfully")
  }

  /** Whether a fresh WebDriverManager hands out a session: the browser name
      parses, the factory has one cached or can start one, and the timeout
      setting parses. */
  predicate SessionObtainable(config: Config, settings: FactorySettings, cached: bool, host: Host, outcomes: StartOutcomes) {
    && GetBrowserTypeFromString(BrowserSetting(config)).Success?
    && (cached || Startable(GetBrowserTypeFromString(BrowserSetting(config)).value, settings, host, outcomes))
    && TimeoutSetting(config).Success?
  }

  /** With the default configuration a cached session is always handed out. */
  lemma DefaultsObtainCachedSession(settings: FactorySettings, host: Host, outcomes: StartOutcomes)
    ensures SessionObtainable(map[], settings, true, host, outcomes)
  {
    assert TimeoutSetting(map[]) == Success(30);
  }

  /** A scenario's dependency-injection scope: the WebDriverManager it owns
      and the scoped services resolved from it. */
  class Scope {
    const manager: WebDriverManager
    var loginPage: LoginPage?
    var dashboardPage: DashboardPage?
    var testData: TestDataManager?
    var disposed: bool

    constructor (manager: WebDriverManager)
      ensures this.manager == manager
      ensures loginPage == null && dashboardPage == null && testData == null && !disposed
    {
      this.manager := manager;
      loginPage := null;
      dashboardPage := null;
      testData := null;
      disposed := false;
    }

    /** The manager holds a session, and the pages were resolved on it and
        the test data loaded from `listing`. */
    predicate Resolved(listing: Option<seq<DataFile>>, windows: bool)
      reads this, manager
    {
      && manager.driver != null
      && loginPage != null && loginPage.driver == manager.driver
      && dashboardPage != null && dashboardPage.driver == manager.driver
      && testData != null && testData.testData == Loaded(listing, windows)
    }

    /** Disposing the scope disposes the manager it created (which never
        throws); the session stays with the factory. */
    method Dispose()
      modifies this, manager
      ensures old(disposed) ==> unchanged(this, manager)
      ensures !old(disposed) ==> disposed && manager.disposed && manager.driver == old(manager.driver)
      ensures loginPage == old(loginPage) && dashboardPage == old(dashboardPage) && testData == old(testData)
    {
      if !disposed {
        manager.Dispose();
        disposed := true;
      }
    }
  }

  /** The static part: the service provider's singletons. */
  class TestRun {
    const config: Config
    const factory: DriverFactory
    const report: ExtentReportManager
    const metrics: TestMetricsCollector
    var providerDisposed: bool

    /** BeforeTestRun: build the configuration and the singletons. */
    constructor (config: Config, chromeArguments: Option<seq<string>>,
                 firefoxPreferences: Option<seq<(string, ConfigValue)>>)
      ensures this.config == config
      ensures fresh(factory) && factory.settings == FactorySettings(config, chromeArguments, firefoxPreferences)
      ensures factory.driver == null && !factory.disposed
      ensures fresh(report) && fresh(report.shared) && report.config == config
      ensures report.shared.extent.None? && report.shared.tests == [] && report.shared.current.None?
      ensures report.shared.Valid()
      ensures fresh(metrics) && metrics.metrics == [] && !metrics.timerRunning
      ensures !providerDisposed
    {
      this.config := config;
      factory := new DriverFactory(FactorySettings(config, chromeArguments, firefoxPreferences));
      var shared := new ReportState();
      report := new ExtentReportManager(config, shared);
      metrics := new TestMetricsCollector();
      providerDisposed := false;
    }

    /** AfterTestRun: flush the report (its own errors are swallowed); then,
        if the Reports directory can be created, export the metrics and
        build the summary; finally dispose the provider, which disposes the
        driver factory. The export and the summary each read the clock, so
        each takes its own reading. */
    method AfterTestRun(flushSucceeds: bool, reportsDirectoryCreated: bool, writeSucceeds: bool,
                        exportNow: nat, summaryNow: nat, stamp: string, windows: bool, quitSucceeds: bool, releaseSucceeds: bool)
      returns (exported: Option<MetricsExport>, summary: Option<TestSummary>)
      requires report.shared.Valid()
      modifies this, report.shared, factory, factory.driver
      ensures report.shared.Valid()
      ensures report.shared.tests == old(report.shared.tests)
      ensures report.shared.flushed == if old(report.shared.extent).Some? && flushSucceeds then report.shared.tests
                                       else old(report.shared.flushed)
      ensures exported.Some? <==> reportsDirectoryCreated && writeSucceeds
      ensures exported.Some? ==> exported.value.detailedMetrics == metrics.metrics
                                 && exported.value.summary == Summarize(metrics.metrics, exportNow)
      ensures summary.Some? <==> reportsDirectoryCreated
      ensures summary.Some? ==> summary.value == Summarize(metrics.metrics, summaryNow)
      ensures providerDisposed && factory.disposed
      ensures !old(factory.disposed) && old(factory.driver) != null && quitSucceeds ==> old(factory.driver).quit
    {
      exported := None;
      summary := None;
      report.FlushReports(flushSucceeds);
      if reportsDirectoryCreated {
        exported := metrics.ExportMetrics(MetricsPath(stamp, windows), exportNow, writeSucceeds);
        var s := metrics.GenerateSummary(summaryNow);
        summary := Some(s);
      }
      providerDisposed := true;
      factory.Dispose(quitSucceeds, releaseSucceeds);
    }
  }

  /** The binding instance the test runner creates for each scenario. */
  class TestHooks {
    const run: TestRun
    var testScope: Scope?
    var driverManager: WebDriverManager?
    var driverFactory: DriverFactory?

    constructor (run: TestRun)
      ensures this.run == run && testScope == null && driverManager == null && driverFactory == null
    {
      this.run := run;
      testScope := null;
      driverManager := null;
      driverFactory := null;
    }

    /** The scope and the manager belong to this run, and a held scope has
        not been disposed yet. */
    predicate Valid()
      reads this, run, run.report, run.report.shared, driverManager, testScope
    {
      && run.report.shared.Valid()
      && (driverManager != null ==> driverManager.factory == run.factory && driverManager.config == run.config)
      && (testScope != null ==> testScope.manager == driverManager && !testScope.disposed)
    }

    /** BeforeScenario: open a scope and its manager; resolving the login
        page and then the dashboard page asks the manager for the session
        (a failure aborts the hook before the report or the metrics are
        touched); resolve the test data; then open the report entry and
        restart the metrics timer, in that order. */
    method BeforeScenario(title: string, description: string,
                          listing: Option<seq<DataFile>>, environment: map<string, string>, windows: bool,
                          host: Host, outcomes: StartOutcomes,
                          workingDirectory: string, stamp: string, machine: Machine, initSucceeds: bool)
      returns (r: Result<(), HookError>)
      requires run.report.shared.Valid()
      modifies this, run.factory, run.factory.driver, run.report.shared, run.metrics
      ensures Valid()
      ensures testScope != null && fresh(testScope) && fresh(driverManager) && driverFactory == run.factory
      ensures run.factory.driver == old(run.factory.driver) || fresh(run.factory.driver)
      ensures (r.Failure? && r.error.DriverUnavailable?) <==>
                !SessionObtainable(run.config, run.factory.settings, old(run.factory.driver) != null, host, outcomes)
      ensures !(r.Failure? && r.error.DriverUnavailable?) ==> testScope.Resolved(listing, windows)
      ensures r.Failure? ==> unchanged(run.report.shared) && unchanged(run.metrics)
      ensures r.Success? <==>
                SessionObtainable(run.config, run.factory.settings, old(run.factory.driver) != null, host, outcomes)
                && (old(run.report.shared.extent).Some? || initSucceeds)
      ensures (r.Failure? && r.error.ReportUnavailable?) <==>
                SessionObtainable(run.config, run.factory.settings, old(run.factory.driver) != null, host, outcomes)
                && old(run.report.shared.extent).None? && !initSucceeds
      ensures r.Success? ==>
                && run.report.shared.tests == old(run.report.shared.tests) + [TestEntry(title, description, [], [])]
                && run.report.shared.current == Some(|old(run.report.shared.tests)|)
                && run.report.shared.flushed == old(run.report.shared.flushed)
                && run.metrics.metrics == old(run.metrics.metrics)
                && run.metrics.timerRunning && run.metrics.elapsedMs == 0
    {
      var scope, obtained := OpenScope(run, listing, environment, windows, host, outcomes);
      testScope := scope;
      driverFactory := run.factory;
      driverManager := scope.manager;
      if obtained.Failure? {
        return Failure(DriverUnavailable(obtained.error));
      }
      var started := StartReporting(run, title, description, workingDirectory, stamp, machine, initSucceeds);
      if started.Failure? {
        return Failure(ReportUnavailable(started.error));
      }
      r := Success(());
    }

    /** AfterScenario: exactly one outcome is logged to the current report
        entry and recorded in the metrics, Fail with the error message or
        Pass; on failure, when screenshots are enabled, a screenshot is taken
        and attached, every error in that attempt being swallowed; in every
        case the scope is disposed and released. `screenshot` is the file
        saved, if any. */
    method AfterScenario(title: string, testError: Option<string>, sinceStartMs: nat, utcNow: nat,
                         stamp: string, windows: bool, host: Host, outcomes: StartOutcomes,
                         captureSucceeds: bool, attachSucceeds: bool)
      returns (screenshot: Option<string>)
      requires Valid()
      modifies this, run.report.shared, run.metrics, driverManager, run.factory, run.factory.driver, testScope
      ensures run.report.shared.Valid()
      ensures run.metrics.metrics == old(run.metrics.metrics)
                + [TestMetric(title, Outcome(testError), run.metrics.elapsedMs, utcNow, testError.GetOr(""))]
      ensures !run.metrics.timerRunning
      ensures run.metrics.elapsedMs == if old(run.metrics.timerRunning) then old(run.metrics.elapsedMs) + sinceStartMs
                                       else old(run.metrics.elapsedMs)
      ensures run.report.shared.extent == old(run.report.shared.extent)
      ensures run.report.shared.current == old(run.report.shared.current)
      ensures run.report.shared.flushed == old(run.report.shared.flushed)
      ensures var logged := Logged(old(run.report.shared.tests), old(run.report.shared.current), OutcomeLine(testError));
              run.report.shared.tests
                == if screenshot.Some? && attachSucceeds then Attached(logged, old(run.report.shared.current), screenshot.value)
                   else logged
      ensures screenshot.Some? ==>
                testError.Some? && ScreenshotsEnabled(run.config) == Some(true) && captureSucceeds
                && screenshot.value == ScreenshotPath(title, stamp, windows)
      ensures (testError.Some? && ScreenshotsEnabled(run.config) == Some(true) && captureSucceeds
               && old(driverManager) != null && old(driverManager.driver) != null) ==> screenshot.Some?
      ensures testScope == null
      ensures old(testScope) != null ==> old(testScope).disposed && old(testScope).manager.disposed
    {
      RecordOutcome(run, title, testError, sinceStartMs, utcNow);
      screenshot := TryScreenshot(run, driverManager, testError, title, stamp, windows, host, outcomes, captureSucceeds, attachSucceeds);
      if testScope != null {
        testScope.Dispose();
      }
      testScope := null;
    }
  }

  /** The scope part of BeforeScenario: a new scope and manager, the
      session requested for the login page and again for the dashboard
      page, then the scenario's test data. */
  method OpenScope(run: TestRun, listing: Option<seq<DataFile>>, environment: map<string, string>, windows: bool,
                   host: Host, outcomes: StartOutcomes)
    returns (scope: Scope, obtained: Result<Session, ManagerError>)
    modifies run.factory, run.factory.driver
    ensures fresh(scope) && fresh(scope.manager) && !scope.disposed
    ensures scope.manager.factory == run.factory && scope.manager.config == run.config
    ensures run.factory.driver == old(run.factory.driver) || fresh(run.factory.driver)
    ensures obtained.Success? <==> SessionObtainable(run.config, run.factory.settings, old(run.factory.driver) != null, host, outcomes)
    ensures obtained.Success? ==> scope.manager.driver == obtained.value && scope.Resolved(listing, windows)
  {
    var manager := new WebDriverManager(run.config, run.factory);
    scope := new Scope(manager);
    obtained := ObtainSession(manager, host, outcomes);
    if obtained.Failure? {
      return;
    }
    ResolveServices(scope, obtained.value, listing, environment, windows, host, outcomes);
  }

  /** Resolving the scoped services of a scope whose manager holds a
      session: the login page on it, the dashboard page on the session a
      second request returns (the same one), then the test data. */
  method ResolveServices(scope: Scope, session: Session, listing: Option<seq<DataFile>>, environment: map<string, string>,
                         windows: bool, host: Host, outcomes: StartOutcomes)
    requires scope.manager.driver == session
    modifies scope, scope.manager, scope.manager.factory, scope.manager.factory.driver
    ensures scope.disposed == old(scope.disposed) && unchanged(scope.manager.factory)
    ensures scope.manager.driver == old(scope.manager.driver) && scope.manager.disposed == old(scope.manager.disposed)
    ensures scope.loginPage != null && scope.loginPage.driver == session
    ensures scope.dashboardPage != null && scope.dashboardPage.driver == session
    ensures scope.testData != null && scope.testData.testData == Loaded(listing, windows)
  {
    scope.loginPage := new LoginPage(session);
    var again := ReuseSession(scope.manager, host, outcomes);
    scope.dashboardPage := new DashboardPage(again);
    scope.testData := new TestDataManager(scope.manager.config, environment, listing, windows);
  }

  /** A later session request of a manager that holds a session: that same
      session, with nothing changed. */
  method ReuseSession(m: WebDriverManager, host: Host, outcomes: StartOutcomes) returns (session: Session)
    requires m.driver != null
    modifies m, m.factory, m.factory.driver
    ensures session == old(m.driver)
    ensures m.driver == old(m.driver) && m.disposed == old(m.disposed)
    ensures unchanged(m.factory)
  {
    var r := m.GetDriver(host, outcomes);
    session := r.value;
  }

  /** The first session request of a new manager. */
  method ObtainSession(m: WebDriverManager, host: Host, outcomes: StartOutcomes) returns (r: Result<Session, ManagerError>)
    requires m.driver == null
    modifies m, m.factory, m.factory.driver
    ensures m.factory.driver == old(m.factory.driver) || fresh(m.factory.driver)
    ensures r.Success? <==> SessionObtainable(m.config, m.factory.settings, old(m.factory.driver) != null, host, outcomes)
    ensures r.Success? ==> m.driver == r.value
    ensures m.disposed == old(m.disposed)
  {
    var parsed := GetBrowserTypeFromString(BrowserSetting(m.config));
    if parsed.Success? {
      AcquireSucceedsWhenStartable(parsed.value, m.factory.settings, host, outcomes);
    }
    r := m.GetDriver(host, outcomes);
  }

  /** The reporting part of BeforeScenario: open the report entry, then
      restart the metrics timer. */
  method StartReporting(run: TestRun, title: string, description: string,
                        workingDirectory: string, stamp: string, machine: Machine, initSucceeds: bool)
    returns (r: Result<(), ReportError>)
    requires run.report.shared.Valid()
    modifies run.report.shared, run.metrics
    ensures run.report.shared.Valid()
    ensures r.Failure? <==> old(run.report.shared.extent).None? && !initSucceeds
    ensures r.Failure? ==> unchanged(run.report.shared) && unchanged(run.metrics)
    ensures r.Success? ==>
              && run.report.shared.tests == old(run.report.shared.tests) + [TestEntry(title, description, [], [])]
              && run.report.shared.current == Some(|old(run.report.shared.tests)|)
              && run.report.shared.flushed == old(run.report.shared.flushed)
              && run.metrics.metrics == old(run.metrics.metrics)
              && run.metrics.timerRunning && run.metrics.elapsedMs == 0
  {
    var created := run.report.CreateTest(title, description, workingDirectory, stamp, machine, initSucceeds);
    if created.Failure? {
      return Failure(created.error);
    }
    run.metrics.StartTest(title);
    r := Success(());
  }

  /** The outcome part of AfterScenario: one status line on the current
      entry and one metrics record. */
  method RecordOutcome(run: TestRun, title: string, testError: Option<string>, sinceStartMs: nat, utcNow: nat)
    requires run.report.shared.Valid()
    modifies run.report.shared, run.metrics
    ensures run.report.shared.Valid()
    ensures run.report.shared.tests == Logged(old(run.report.shared.tests), old(run.report.shared.current), OutcomeLine(testError))
    ensures run.report.shared.extent == old(run.report.shared.extent)
    ensures run.report.shared.current == old(run.report.shared.current)
    ensures run.report.shared.flushed == old(run.report.shared.flushed)
    ensures run.metrics.metrics == old(run.metrics.metrics)
              + [TestMetric(title, Outcome(testError), run.metrics.elapsedMs, utcNow, testError.GetOr(""))]
    ensures !run.metrics.timerRunning
    ensures run.metrics.elapsedMs == if old(run.metrics.timerRunning) then old(run.metrics.elapsedMs) + sinceStartMs
                                     else old(run.metrics.elapsedMs)
  {
    match testError {
      case Some(message) =>
        run.report.LogFail("Test failed: " + message);
        run.metrics.EndTest(title, TestResult.Fail, message, sinceStartMs, utcNow);
      case None =>
        run.report.LogPass("Test completed successfully");
        run.metrics.EndTest(title, TestResult.Pass, "", sinceStartMs, utcNow);
    }
  }

  /** The screenshot attempt of a scenario end: only for a failed scenario,
      with screenshots enabled and a manager held. The session is asked for
      again (it may be started now), the capture saved and attached; any
      failure along the way leaves the report as it was. */
  method TryScreenshot(run: TestRun, manager: WebDriverManager?, testError: Option<string>, title: string, stamp: string,
                       windows: bool, host: Host, outcomes: StartOutcomes, captureSucceeds: bool, attachSucceeds: bool)
    returns (screenshot: Option<string>)
    requires run.report.shared.Valid() && (manager != null ==> manager.factory == run.factory)
    modifies run.report.shared, manager, run.factory, run.factory.driver
    ensures run.report.shared.Valid()
    ensures run.report.shared.extent == old(run.report.shared.extent)
    ensures run.report.shared.current == old(run.report.shared.current)
    ensures run.report.shared.flushed == old(run.report.shared.flushed)
    ensures run.report.shared.tests
              == if screenshot.Some? && attachSucceeds then Attached(old(run.report.shared.tests), old(run.report.shared.current), screenshot.value)
                 else old(run.report.shared.tests)
    ensures screenshot.Some? ==>
              testError.Some? && ScreenshotsEnabled(run.config) == Some(true) && captureSucceeds
              && screenshot.value == ScreenshotPath(title, stamp, windows)
    ensures (testError.Some? && ScreenshotsEnabled(run.config) == Some(true) && captureSucceeds
             && manager != null && old(manager.driver) != null) ==> screenshot.Some?
  {
    screenshot := None;
    if testError.None? || ScreenshotsEnabled(run.config) != Some(true) || manager == null {
      return;
    }
    var session := manager.GetDriver(host, outcomes);
    if session.Success? && captureSucceeds {
      var path := ScreenshotPath(title, stamp, windows);
      run.report.AttachScreenshot(path, true, attachSucceeds);
      screenshot := Some(path);
    }
  }

  /** A scenario start that succeeds: its entry is appended and current,
      and the timer runs from zero. */
  method StartScenario(hooks: TestHooks, title: string, description: string,
                       listing: Option<seq<DataFile>>, environment: map<string, string>, windows: bool,
                       host: Host, outcomes: StartOutcomes, machine: Machine)
    requires hooks.run.report.shared.Valid()
    requires SessionObtainable(hooks.run.config, hooks.run.factory.settings, hooks.run.factory.driver != null, host, outcomes)
    modifies hooks, hooks.run.factory, hooks.run.factory.driver, hooks.run.report.shared, hooks.run.metrics
    ensures hooks.Valid() && fresh(hooks.testScope) && fresh(hooks.driverManager)
    ensures hooks.run.factory.driver == old(hooks.run.factory.driver) || fresh(hooks.run.factory.driver)
    ensures hooks.run.report.shared.tests == old(hooks.run.report.shared.tests) + [TestEntry(title, description, [], [])]
    ensures hooks.run.report.shared.current == Some(|old(hooks.run.report.shared.tests)|)
    ensures hooks.run.metrics.metrics == old(hooks.run.metrics.metrics)
    ensures hooks.run.metrics.timerRunning && hooks.run.metrics.elapsedMs == 0
  {
    var before := hooks.BeforeScenario(title, description, listing, environment, windows, host, outcomes,
                                       "", "", machine, true);
    assert before.Success?;
  }

  /** A passing scenario, start to end: one new report entry carrying the
      pass line, and one Pass record lasting the scenario's time. */
  method PassingScenario(hooks: TestHooks, title: string, description: string,
                         listing: Option<seq<DataFile>>, environment: map<string, string>, windows: bool,
                         host: Host, outcomes: StartOutcomes, machine: Machine, elapsed: nat, now: nat)
    requires hooks.run.report.shared.Valid()
    requires SessionObtainable(hooks.run.config, hooks.run.factory.settings, hooks.run.factory.driver != null, host, outcomes)
    modifies hooks, hooks.run.factory, hooks.run.factory.driver, hooks.run.report.shared, hooks.run.metrics
    ensures hooks.run.report.shared.tests
              == old(hooks.run.report.shared.tests) + [TestEntry(title, description, [LogLine(Status.Pass, "Test completed successfully")], [])]
    ensures hooks.run.metrics.metrics == old(hooks.run.metrics.metrics) + [TestMetric(title, TestResult.Pass, elapsed, now, "")]
  {
    var run := hooks.run;
    ghost var tests0 := run.report.shared.tests;
    StartScenario(hooks, title, description, listing, environment, windows, host, outcomes, machine);
    ghost var entry := TestEntry(title, description, [], []);
    ghost var line := OutcomeLine(None);
    ghost var m0 := run.metrics.metrics;
    assert run.metrics.timerRunning && run.metrics.elapsedMs == 0 && m0 == old(run.metrics.metrics);
    assert run.report.shared.tests == tests0 + [entry] && run.report.shared.current == Some(|tests0|);
    var shot := hooks.AfterScenario(title, None, elapsed, now, "", windows, host, outcomes, false, false);
    assert run.metrics.elapsedMs == elapsed;
    assert run.metrics.metrics == m0 + [TestMetric(title, TestResult.Pass, elapsed, now, "")];
    assert shot.None?;
    assert line == LogLine(Status.Pass, "Test completed successfully");
    assert run.report.shared.tests == Logged(tests0 + [entry], Some(|tests0|), line);
    LoggedOnNewest(tests0, entry, line);
    assert [] + [line] == [line];
  }

  /** When the scenario start fails at the session and the runner still
      runs the scenario end, the failure line lands on the previous
      scenario's report entry (the current entry is shared), while the
      metrics record carries the new scenario's title. */
  method FailedStartBlamesPreviousEntry(run: TestRun, title: string, message: string,
                                        listing: Option<seq<DataFile>>, environment: map<string, string>,
                                        host: Host, outcomes: StartOutcomes, machine: Machine, now: nat)
    requires run.report.shared.Valid() && run.report.shared.current.Some?
    requires !SessionObtainable(run.config, run.factory.settings, run.factory.driver != null, host, outcomes)
    modifies run.factory, run.factory.driver, run.report.shared, run.metrics
    ensures var k := old(run.report.shared.current).value;
            && |run.report.shared.tests| == |old(run.report.shared.tests)|
            && run.report.shared.tests[k].name == old(run.report.shared.tests)[k].name
            && run.report.shared.tests[k].log == old(run.report.shared.tests)[k].log + [LogLine(Status.Fail, "Test failed: " + message)]
    ensures |run.metrics.metrics| == |old(run.metrics.metrics)| + 1
    ensures run.metrics.metrics[|run.metrics.metrics| - 1].testName == title
    ensures run.metrics.metrics[|run.metrics.metrics| - 1].result == TestResult.Fail
  {
    var hooks := new TestHooks(run);
    var before := hooks.BeforeScenario(title, "", listing, environment, false, host, outcomes, "", "", machine, true);
    var shot := hooks.AfterScenario(title, Some(message), 0, now, "", false, host, outcomes, false, false);
  }
}
