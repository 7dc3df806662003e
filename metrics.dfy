/** TestMetricsCollector: an append-only list of test outcome records, a
    single shared stopwatch, and the summary derived from the records.
    Durations are whole milliseconds; averages and the pass rate are reals. */
module Metrics {
  import opened Common

  datatype TestResult = Pass | Fail | Skip

  /** One outcome record; immutable once appended. */
  datatype TestMetric = TestMetric(
    testName: string,
    result: TestResult,
    durationMs: nat,
    timestamp: nat,
    errorMessage: string)

  /** An ad-hoc performance sample (built, logged and dropped by the source). */
  datatype PerformanceMetric = PerformanceMetric(name: string, value: real, unit: string, timestamp: nat)

  datatype TestSummary = TestSummary(
    totalTests: nat,
    passedTests: nat,
    failedTests: nat,
    skippedTests: nat,
    totalDurationMs: nat,
    averageDurationMs: real,
    executionDate: nat)

  /** The document written by ExportMetrics. */
  datatype MetricsExport = MetricsExport(summary: TestSummary, detailedMetrics: seq<TestMetric>)

  // ---------------------------------------------------------------------
  // Aggregation (the LINQ Count / Sum / Average of GenerateSummary)

  /** How many records have result `kind`. */
  function CountResult(rs: seq<TestMetric>, kind: TestResult): (n: nat)
    ensures n <= |rs|
  {
    if rs == [] then 0
    else CountResult(rs[..|rs| - 1], kind) + (if rs[|rs| - 1].result == kind then 1 else 0)
  }

  /** The sum of the record durations. */
  function SumDurations(rs: seq<TestMetric>): (total: nat)
    ensures forall i :: 0 <= i < |rs| ==> rs[i].durationMs <= total
  {
    if rs == [] then 0 else SumDurations(rs[..|rs| - 1]) + rs[|rs| - 1].durationMs
  }

  /** Every record has exactly one of the three results. */
  lemma {:induction false} CountsPartition(rs: seq<TestMetric>)
    ensures CountResult(rs, Pass) + CountResult(rs, Fail) + CountResult(rs, Skip) == |rs|
  {
    if rs != [] {
      CountsPartition(rs[..|rs| - 1]);
    }
  }

  /** GenerateSummary over a record list, at execution date `now`. */
  function Summarize(rs: seq<TestMetric>, now: nat): (s: TestSummary)
    ensures s.totalTests == |rs|
    ensures s.passedTests + s.failedTests + s.skippedTests == s.totalTests
    ensures forall i :: 0 <= i < |rs| ==> rs[i].durationMs <= s.totalDurationMs
    ensures |rs| == 0 ==> s.averageDurationMs == 0.0 && s.totalDurationMs == 0
    ensures |rs| > 0 ==> s.averageDurationMs * (|rs| as real) == s.totalDurationMs as real
    ensures s.executionDate == now
  {
    CountsPartition(rs);
    var total := SumDurations(rs);
    TestSummary(
      |rs|,
      CountResult(rs, Pass),
      CountResult(rs, Fail),
      CountResult(rs, Skip),
      total,
      if |rs| > 0 then total as real / |rs| as real else 0.0,
      now)
  }

  /** TestSummary.PassRate: passed / total * 100, and 0 for an empty run. */
  function PassRate(s: TestSummary): (rate: real)
    ensures s.totalTests == 0 ==> rate == 0.0
    ensures s.passedTests <= s.totalTests ==> 0.0 <= rate <= 100.0
    ensures s.totalTests > 0 ==> rate * (s.totalTests as real) == 100.0 * (s.passedTests as real)
  {
    if s.totalTests > 0 then
      var t := s.totalTests as real;
      var p := s.passedTests as real;
      assert s.passedTests <= s.totalTests ==> p / t <= 1.0 by {
        if s.passedTests <= s.totalTests {
          assert p <= t;
        }
      }
      p / t * 100.0
    else 0.0
  }

  /** The pass rate is 100 exactly when every test passed and 0 exactly
      when none did. */
  lemma PassRateExtremes(s: TestSummary)
    requires 0 < s.totalTests && s.passedTests <= s.totalTests
    ensures PassRate(s) == 100.0 <==> s.passedTests == s.totalTests
    ensures PassRate(s) == 0.0 <==> s.passedTests == 0
  {
    var r := PassRate(s);
    var t := s.totalTests as real;
    var p := s.passedTests as real;
    assert r * t == 100.0 * p;
    if r == 100.0 {
      assert 100.0 * t == 100.0 * p;
    }
    if r == 0.0 {
      assert 0.0 == 100.0 * p;
    }
    if p == 0.0 {
      assert r * t == 0.0;
    }
    if p == t {
      assert r * t == 100.0 * t;
    }
  }

  /** Appending one record (EndTest) moves exactly its own counter by one and
      adds its duration to the total. */
  lemma SummaryOfAppend(rs: seq<TestMetric>, m: TestMetric, now: nat)
    ensures Summarize(rs + [m], now).totalTests == Summarize(rs, now).totalTests + 1
    ensures Summarize(rs + [m], now).passedTests == Summarize(rs, now).passedTests + (if m.result == Pass then 1 else 0)
    ensures Summarize(rs + [m], now).failedTests == Summarize(rs, now).failedTests + (if m.result == Fail then 1 else 0)
    ensures Summarize(rs + [m], now).skippedTests == Summarize(rs, now).skippedTests + (if m.result == Skip then 1 else 0)
    ensures Summarize(rs + [m], now).totalDurationMs == Summarize(rs, now).totalDurationMs + m.durationMs
  {
    assert (rs + [m])[..|rs + [m]| - 1] == rs;
  }

  /** A run in which every record failed reports all of them as failed and a
      pass rate of zero. */
  lemma {:induction false} AllFailed(rs: seq<TestMetric>, now: nat)
    requires forall i :: 0 <= i < |rs| ==> rs[i].result == Fail
    ensures Summarize(rs, now).failedTests == |rs| == Summarize(rs, now).totalTests
    ensures Summarize(rs, now).passedTests == 0 && PassRate(Summarize(rs, now)) == 0.0
  {
    if rs != [] {
      var init := rs[..|rs| - 1];
      AllFailed(init, now);
      assert rs == init + [rs[|rs| - 1]];
      SummaryOfAppend(init, rs[|rs| - 1], now);
    }
  }

  // ---------------------------------------------------------------------
  // The collector

  class TestMetricsCollector {
    /** The recorded outcomes, oldest first. */
    var metrics: seq<TestMetric>
    /** The shared stopwatch: whether it runs, and the time it has
        accumulated up to its last stop. */
    var timerRunning: bool
    var elapsedMs: nat

    constructor ()
      ensures metrics == [] && !timerRunning && elapsedMs == 0
    {
      metrics := [];
      timerRunning := false;
      elapsedMs := 0;
    }

    /** Stopwatch.Restart: zero the timer and start it. No record is touched. */
    method StartTest(testName: string, category: string := "")
      modifies this
      ensures metrics == old(metrics)
      ensures timerRunning && elapsedMs == 0
    {
      timerRunning := true;
      elapsedMs := 0;
    }

    /** Stop the timer and append exactly one record carrying the elapsed
        time. `sinceStartMs` is the time since the timer last started and
        `utcNow` the timestamp. A stopped timer keeps its elapsed time, so an
        EndTest without a StartTest reuses the last duration. */
    method EndTest(testName: string, result: TestResult, errorMessage: string, sinceStartMs: nat, utcNow: nat)
      modifies this
      ensures !timerRunning
      ensures elapsedMs == if old(timerRunning) then old(elapsedMs) + sinceStartMs else old(elapsedMs)
      ensures metrics == old(metrics) + [TestMetric(testName, result, elapsedMs, utcNow, errorMessage)]
    {
      if timerRunning {
        elapsedMs := elapsedMs + sinceStartMs;
        timerRunning := false;
      }
      metrics := metrics + [TestMetric(testName, result, elapsedMs, utcNow, errorMessage)];
    }

    /** Builds the sample the source logs and then drops; the record list
        and the timer are untouched (the method modifies nothing). */
    method RecordPerformanceMetric(metricName: string, value: real, unit: string, utcNow: nat)
      returns (sample: PerformanceMetric)
      ensures sample.name == metricName && sample.value == value
      ensures sample.unit == unit && sample.timestamp == utcNow
    {
      sample := PerformanceMetric(metricName, value, unit, utcNow);
    }

    /** The summary of every record so far; reads the state and changes
        nothing, so two calls at the same date agree. */
    method GenerateSummary(utcNow: nat) returns (summary: TestSummary)
      ensures summary == Summarize(metrics, utcNow)
      ensures summary.totalTests == |metrics|
      ensures summary.passedTests + summary.failedTests + summary.skippedTests == |metrics|
    {
      summary := Summarize(metrics, utcNow);
    }

    /** Serialise the summary and every record. A failed write is logged and
        swallowed: the result is then None, and nothing is raised or changed. */
    method ExportMetrics(filePath: string, utcNow: nat, writeSucceeds: bool)
      returns (written: Option<MetricsExport>)
      ensures written.Some? <==> writeSucceeds
      ensures written.Some? ==> written.value.detailedMetrics == metrics
      ensures written.Some? ==> written.value.summary == Summarize(metrics, utcNow)
    {
      var summary := GenerateSummary(utcNow);
      if writeSucceeds {
        written := Some(MetricsExport(summary, metrics));
      } else {
        written := None;
      }
    }
  }

  /** Three failing scenarios in a row: three records, all failed. */
  method ThreeFailingScenarios(c: TestMetricsCollector, d1: nat, d2: nat, d3: nat, now: nat)
    returns (summary: TestSummary)
    requires c.metrics == []
    modifies c
    ensures summary.totalTests == 3 && summary.failedTests == 3 && PassRate(summary) == 0.0
  {
    c.StartTest("a");
    c.EndTest("a", Fail, "boom", d1, now);
    c.StartTest("b");
    c.EndTest("b", Fail, "boom", d2, now);
    c.StartTest("c");
    c.EndTest("c", Fail, "boom", d3, now);
    AllFailed(c.metrics, now);
    summary := c.GenerateSummary(now);
  }
}
