/** ExtentReportManager: an HTML report shared by the whole process. The
    report document and the "current test" are static, so every manager
    instance works on the same ones: the report is created on first use,
    each CreateTest appends an entry and makes it current, and the Log*
    methods append a line to whichever entry is current. The clock, the
    working directory, the machine facts and whether file operations throw
    are inputs. */
module Reporting {
  import opened Common

  datatype Status = Info | Pass | Fail | Warning | Skip

  datatype LogLine = LogLine(status: Status, message: string)

  /** One test node of the report. */
  datatype TestEntry = TestEntry(name: string, description: string, log: seq<LogLine>, screenshots: seq<string>)

  /** The report document's fixed settings and system-information rows. */
  datatype ReportInfo = ReportInfo(
    reportPath: string,
    documentTitle: string,
    reportName: string,
    systemInfo: seq<(string, string)>)

  /** Facts about the machine the report records. */
  datatype Machine = Machine(osVersion: string, userName: string, machineName: string, isWindows: bool)

  datatype ReportError = InitializationFailed

  /** The static fields every ExtentReportManager shares. */
  class ReportState {
    var extent: Option<ReportInfo>
    var tests: seq<TestEntry>
    /** The index of the current test (the static _test), if any. */
    var current: Option<nat>
    /** The entries as last written to disk by a flush. */
    var flushed: seq<TestEntry>

    constructor ()
      ensures extent.None? && tests == [] && current.None? && flushed == []
      ensures Valid()
    {
      extent := None;
      tests := [];
      current := None;
      flushed := [];
    }

    /** No entry exists before the report does, and the current test is one
        of the entries. */
    predicate Valid()
      reads this
    {
      && (extent.None? ==> tests == [] && current.None?)
      && (current.Some? ==> current.value < |tests|)
    }
  }

  /** Reports/TestReport_<yyyyMMdd_HHmmss>.html under the working directory. */
  function ReportPath(workingDirectory: string, stamp: string, windows: bool): (path: string)
    ensures EndsWith(path, "TestReport_" + stamp + ".html")
  {
    PathCombineParts(PathCombine(workingDirectory, "Reports", windows), "TestReport_" + stamp + ".html", windows);
    PathCombine(PathCombine(workingDirectory, "Reports", windows), "TestReport_" + stamp + ".html", windows)
  }

  /** The system-information rows: three configured values with their
      defaults, then the machine facts. */
  function SystemInfo(config: Config, machine: Machine): (rows: seq<(string, string)>)
    ensures |rows| == 6
    ensures rows[0].0 == "Application" && rows[1].0 == "Environment" && rows[2].0 == "Browser"
    ensures "TestSettings:ApplicationName" !in config ==> rows[0].1 == "Test Application"
    ensures "TestSettings:Environment" !in config ==> rows[1].1 == "Test"
    ensures "TestSettings:Browser" !in config ==> rows[2].1 == "Chrome"
  {
    [("Application", Lookup(config, "TestSettings:ApplicationName").GetOr("Test Application")),
     ("Environment", Lookup(config, "TestSettings:Environment").GetOr("Test")),
     ("Browser", Lookup(config, "TestSettings:Browser").GetOr("Chrome")),
     ("OS", machine.osVersion),
     ("User", machine.userName),
     ("Machine", machine.machineName)]
  }

  /** The report InitializeExtentReports builds. */
  function NewReport(config: Config, workingDirectory: string, stamp: string, machine: Machine): ReportInfo {
    ReportInfo(ReportPath(workingDirectory, stamp, machine.isWindows),
               "E2E Test Automation Report", "Test Execution Report", SystemInfo(config, machine))
  }

  /** The entries after `line` is logged: appended to the current entry's
      lines, nothing else touched; no current test means no change. */
  function Logged(tests: seq<TestEntry>, current: Option<nat>, line: LogLine): (r: seq<TestEntry>)
    requires current.Some? ==> current.value < |tests|
    ensures |r| == |tests|
    ensures forall i :: 0 <= i < |tests| && current != Some(i) ==> r[i] == tests[i]
    ensures current.Some? ==>
              var c := current.value;
              r[c] == tests[c].(log := tests[c].log + [line])
  {
    match current
    case None => tests
    case Some(c) => tests[c := tests[c].(log := tests[c].log + [line])]
  }

  /** The entries after a screenshot is attached: added to the current
      entry's attachments, its lines and every other entry untouched; no
      current test means no change. */
  function Attached(tests: seq<TestEntry>, current: Option<nat>, path: string): (r: seq<TestEntry>)
    requires current.Some? ==> current.value < |tests|
    ensures |r| == |tests|
    ensures forall i :: 0 <= i < |tests| && current != Some(i) ==> r[i] == tests[i]
    ensures current.Some? ==>
              var c := current.value;
              r[c] == tests[c].(screenshots := tests[c].screenshots + [path])
  {
    match current
    case None => tests
    case Some(c) => tests[c := tests[c].(screenshots := tests[c].screenshots + [path])]
  }

  /** A line logged while the newest entry is current lands on that entry. */
  lemma LoggedOnNewest(tests: seq<TestEntry>, entry: TestEntry, line: LogLine)
    ensures Logged(tests + [entry], Some(|tests|), line) == tests + [entry.(log := entry.log + [line])]
  {
    var r := Logged(tests + [entry], Some(|tests|), line);
    assert forall i :: 0 <= i < |r| ==> r[i] == (tests + [entry.(log := entry.log + [line])])[i];
  }

  /** All lines logged to the current entry, in order, and only there. */
  lemma {:induction false} LoggedSequence(tests: seq<TestEntry>, c: nat, lines: seq<LogLine>)
    requires c < |tests|
    ensures LogAll(tests, c, lines)[c] == tests[c].(log := tests[c].log + lines)
    ensures forall i :: 0 <= i < |tests| && i != c ==> LogAll(tests, c, lines)[i] == tests[i]
  {
    if lines != [] {
      var init := lines[..|lines| - 1];
      LoggedSequence(tests, c, init);
      assert init + [lines[|lines| - 1]] == lines;
    }
  }

  /** Logging `lines` one after another to entry `c`. */
  function LogAll(tests: seq<TestEntry>, c: nat, lines: seq<LogLine>): (r: seq<TestEntry>)
    requires c < |tests|
    ensures |r| == |tests|
  {
    if lines == [] then tests
    else Logged(LogAll(tests, c, lines[..|lines| - 1]), Some(c), lines[|lines| - 1])
  }

  class ExtentReportManager {
    const config: Config
    const shared: ReportState

    constructor (config: Config, shared: ReportState)
      ensures this.config == config && this.shared == shared
    {
      this.config := config;
      this.shared := shared;
    }

    /** GetExtentReports: the shared report, built on first use. A failed
        build (the reports directory cannot be created) raises and leaves
        no report. */
    method GetExtentReports(workingDirectory: string, stamp: string, machine: Machine, initSucceeds: bool)
      returns (r: Result<ReportInfo, ReportError>)
      requires shared.Valid()
      modifies shared
      ensures shared.Valid()
      ensures shared.tests == old(shared.tests) && shared.current == old(shared.current)
      ensures shared.flushed == old(shared.flushed)
      ensures old(shared.extent).Some? ==> r == Success(old(shared.extent).value) && shared.extent == old(shared.extent)
      ensures old(shared.extent).None? && initSucceeds ==>
                r == Success(NewReport(config, workingDirectory, stamp, machine)) && shared.extent == Some(r.value)
      ensures old(shared.extent).None? && !initSucceeds ==> r == Failure(InitializationFailed) && unchanged(shared)
    {
      if shared.extent.None? {
        if !initSucceeds {
          return Failure(InitializationFailed);
        }
        shared.extent := Some(NewReport(config, workingDirectory, stamp, machine));
      }
      r := Success(shared.extent.value);
    }

    /** CreateTest: a new empty entry at the end, made current. */
    method CreateTest(testName: string, description: string,
                      workingDirectory: string, stamp: string, machine: Machine, initSucceeds: bool)
      returns (r: Result<nat, ReportError>)
      requires shared.Valid()
      modifies shared
      ensures shared.Valid() && shared.flushed == old(shared.flushed)
      ensures old(shared.extent).None? && !initSucceeds ==>
                r == Failure(InitializationFailed) && unchanged(shared)
      ensures old(shared.extent).Some? || initSucceeds ==>
                && r == Success(|old(shared.tests)|)
                && shared.tests == old(shared.tests) + [TestEntry(testName, description, [], [])]
                && shared.current == Some(r.value)
                && shared.extent.Some?
    {
      var report := GetExtentReports(workingDirectory, stamp, machine, initSucceeds);
      if report.Failure? {
        return Failure(report.error);
      }
      shared.tests := shared.tests + [TestEntry(testName, description, [], [])];
      shared.current := Some(|shared.tests| - 1);
      r := Success(|shared.tests| - 1);
    }

    method Log(status: Status, message: string)
      requires shared.Valid()
      modifies shared
      ensures shared.Valid()
      ensures shared.tests == Logged(old(shared.tests), old(shared.current), LogLine(status, message))
      ensures shared.extent == old(shared.extent) && shared.current == old(shared.current)
      ensures shared.flushed == old(shared.flushed)
    {
      if shared.current.Some? {
        var c := shared.current.value;
        shared.tests := shared.tests[c := shared.tests[c].(log := shared.tests[c].log + [LogLine(status, message)])];
      }
    }

    method LogInfo(message: string)
      requires shared.Valid()
      modifies shared
      ensures shared.Valid()
      ensures shared.tests == Logged(old(shared.tests), old(shared.current), LogLine(Info, message))
      ensures shared.extent == old(shared.extent) && shared.current == old(shared.current)
      ensures shared.flushed == old(shared.flushed)
    {
      Log(Info, message);
    }

    method LogPass(message: string)
      requires shared.Valid()
      modifies shared
      ensures shared.Valid()
      ensures shared.tests == Logged(old(shared.tests), old(shared.current), LogLine(Pass, message))
      ensures shared.extent == old(shared.extent) && shared.current == old(shared.current)
      ensures shared.flushed == old(shared.flushed)
    {
      Log(Pass, message);
    }

    method LogFail(message: string)
      requires shared.Valid()
      modifies shared
      ensures shared.Valid()
      ensures shared.tests == Logged(old(shared.tests), old(shared.current), LogLine(Fail, message))
      ensures shared.extent == old(shared.extent) && shared.current == old(shared.current)
      ensures shared.flushed == old(shared.flushed)
    {
      Log(Fail, message);
    }

    method LogWarning(message: string)
      requires shared.Valid()
      modifies shared
      ensures shared.Valid()
      ensures shared.tests == Logged(old(shared.tests), old(shared.current), LogLine(Warning, message))
      ensures shared.extent == old(shared.extent) && shared.current == old(shared.current)
      ensures shared.flushed == old(shared.flushed)
    {
      Log(Warning, message);
    }

    method LogSkip(message: string)
      requires shared.Valid()
      modifies shared
      ensures shared.Valid()
      ensures shared.tests == Logged(old(shared.tests), old(shared.current), LogLine(Skip, message))
      ensures shared.extent == old(shared.extent) && shared.current == old(shared.current)
      ensures shared.flushed == old(shared.flushed)
    {
      Log(Skip, message);
    }

    /** AttachScreenshot: an existing file is attached to the current entry;
        a missing file, no current test, or an attach that throws (caught)
        leaves the report as it was. */
    method AttachScreenshot(screenshotPath: string, fileExists: bool, attachSucceeds: bool)
      requires shared.Valid()
      modifies shared
      ensures shared.Valid()
      ensures shared.extent == old(shared.extent) && shared.current == old(shared.current)
      ensures shared.flushed == old(shared.flushed)
      ensures shared.tests == if fileExists && attachSucceeds then Attached(old(shared.tests), old(shared.current), screenshotPath)
                              else old(shared.tests)
    {
      if fileExists && attachSucceeds && shared.current.Some? {
        var c := shared.current.value;
        shared.tests := shared.tests[c := shared.tests[c].(screenshots := shared.tests[c].screenshots + [screenshotPath])];
      }
    }

    /** FlushReports: writes every entry when a report exists; without one,
        or when the write throws (caught), nothing is written. */
    method FlushReports(flushSucceeds: bool)
      requires shared.Valid()
      modifies shared
      ensures shared.Valid()
      ensures shared.extent == old(shared.extent) && shared.tests == old(shared.tests)
      ensures shared.current == old(shared.current)
      ensures shared.flushed == if old(shared.extent).Some? && flushSucceeds then shared.tests else old(shared.flushed)
    {
      if shared.extent.Some? && flushSucceeds {
        shared.flushed := shared.tests;
      }
    }
  }

  /** The current test is shared by every manager: a test created through
      one manager receives the lines logged through another. */
  method SharedCurrentTest(a: ExtentReportManager, b: ExtentReportManager, machine: Machine)
    requires a.shared == b.shared && a.shared.Valid() && a.shared.extent.Some?
    modifies a.shared
    ensures |a.shared.tests| >= 1
    ensures a.shared.tests[|a.shared.tests| - 1].name == "second"
    ensures a.shared.tests[|a.shared.tests| - 1].log == [LogLine(Pass, "from a")]
  {
    var created := b.CreateTest("second", "", "", "", machine, true);
    a.LogPass("from a");
  }
}
