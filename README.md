# E2ETestFramework in Dafny

A Dafny model of the core of E2ETestFramework. E2ETestFramework is a C#
harness for end-to-end browser tests, built on Selenium WebDriver and
SpecFlow. It covers:

- **Driver lifecycle.** How a browser session is chosen, configured, cached and
  disposed (`DriverFactory`, `WebDriverManager`).
- **Scenario hooks.** How each scenario is opened and closed: the per-scenario
  scope, the report entry, the stopwatch, the screenshot on failure, and the
  end-of-run flush and export (`TestHooks`).
- **Reporting and metrics.** The shared HTML report state and the outcome
  metrics with their summary (`ExtentReportManager`, `TestMetricsCollector`).
- **Test data.** The JSON test-data store and its lookups (`TestDataManager`).
- **Page objects.** The login and dashboard pages: what they type, click and
  navigate to, and what they conclude from a page (`LoginPage`, `DashboardPage`).
- **Login steps.** The login step definitions, including the repeated
  invalid-login loop and the lockout checks (`LoginSteps`).

There is one Dafny module per source file:

| module | file |
|---|---|
| `Drivers` | `driver_factory.dfy` |
| `WebDrivers` | `web_driver_manager.dfy` |
| `Reporting` | `report_manager.dfy` |
| `Metrics` | `metrics.dfy` |
| `TestData` | `test_data_manager.dfy` |
| `LoginPages` | `login_page.dfy` |
| `DashboardPages` | `dashboard_page.dfy` |
| `LoginStepDefs` | `login_steps.dfy` |
| `Hooks` | `test_hooks.dfy` |
| `Common` | `common.dfy` |

`Common` holds `Option`/`Result`, the configuration map, ordinal string
helpers, white-space trimming and splitting, and the `bool.Parse`/`int.Parse`
rules.

Objects the source updates in place are classes with `modifies` frames:

- the factory, the manager and the session;
- the report state shared through static fields;
- the metrics collector;
- the scope, the hooks and the step class.

Pure decisions are functions, each with its lemmas:

- which browser a name means;
- which options a browser gets;
- which Chrome driver binary is used;
- what the report or the metrics look like after a step;
- what address the login page opens;
- what a page query returns.

The outside world is a parameter, never an effect:

- **Browser.** A `PageView` of what the page shows, and a `StartOutcomes` record
  saying which session construction would succeed.
- **Filesystem.** A `Host` holding directory listings and the set of existing
  files, and a listing of data files with their parsed content.
- **Clock.** Elapsed and current times in milliseconds, and time-stamp strings.
- **Environment.** A map of environment variables and a `Machine` record.
- **Library calls that may throw.** A boolean such as `initSucceeds`,
  `flushSucceeds`, `captureSucceeds` or `quitSucceeds`.

Behaviours the model keeps on purpose because the code has them:

- **Chrome fallback.** When the driver manager fails and an existing
  chromedriver binary is found but cannot be started, the error propagates:
  the last-resort native construction is not tried.
- **Browser name lists.** `CreateDriver(string)` parses with `Enum.TryParse`,
  which also accepts surrounding white space, integers, and comma-separated
  names whose values are ORed: "Firefox,Edge" builds Safari
  (`TryParseFirefoxEdge`), and "7" is an unnamed value that `CreateDriver`
  then refuses.
- **Bad timeout.** A `TestSettings:TimeoutSeconds` that does not parse makes
  `GetDriver` fail after the session has already been cached, so the next call
  returns the unconfigured session.
- **Failed scenario start.** When `BeforeScenario` fails before creating its
  report entry, the matching `AfterScenario` logs the failure to the previous
  scenario's entry (`FailedStartBlamesPreviousEntry`).
- **Null test data.** A test-data value that is JSON `null` reads as missing.
  Loading keeps it as a null entry, and `GetTestData` then calls `ToString()`
  on that null value. The call throws, and the catch returns `default(T)`.
- **Lockout message.** Below three recorded failed attempts, the lockout step
  requires the word "locked"; from three on it accepts any non-empty error
  message.

## Model

| member | source | states |
|---|---|---|
| Common.Lookup | E2ETestFramework/Core/WebDriverManager.cs:34 | a configuration read yields a value exactly when the key is present, and then the stored text |
| Common.TrimEnd | E2ETestFramework.Tests/StepDefinitions/LoginSteps.cs:269 | `TrimEnd('/')` keeps a prefix of the input, the result does not end in the character, and everything removed was that character |
| Common.ToLower | E2ETestFramework/Core/DriverFactory.cs:336 | lower-casing keeps the length and maps each character through the ASCII lower-case rule |
| Common.ToLowerIdempotent | E2ETestFramework/Core/DriverFactory.cs:336 | lower-casing twice is lower-casing once |
| Common.ParseBool | E2ETestFramework/Core/DriverFactory.cs:47 | `bool.Parse` gives true exactly for a case-insensitive "true" and false exactly for "false"; anything else fails |
| Common.BoolTextParses | E2ETestFramework/Core/DriverFactory.cs:265 | the text of a boolean parses back to that boolean |
| Common.ParseInt | E2ETestFramework/Core/WebDriverManager.cs:50 | `int.Parse` only yields values within the 32-bit range |
| Common.NatText | E2ETestFramework/Core/DriverFactory.cs:264 | the decimal text of a natural number is a non-empty digit string |
| Common.NatTextValue | E2ETestFramework/Core/DriverFactory.cs:264 | reading the digits of a number's text gives the number back |
| Common.IntText | E2ETestFramework/Core/DriverFactory.cs:264 | an integer's `ToString()` text is non-empty |
| Common.IntTextParses | E2ETestFramework/Core/DriverFactory.cs:269 | every 32-bit integer's text parses back to it with `int.TryParse` |
| Common.IntTextIsNotBool | E2ETestFramework/Core/DriverFactory.cs:265-269 | an integer's text never parses as a boolean, so the bool test cannot capture it |
| Common.PathCombineParts | E2ETestFramework/Core/DriverFactory.cs:117 | `Path.Combine(dir, name)` starts with the directory and ends with the name |
| Drivers.DriverOptions.constructor | E2ETestFramework/Core/DriverFactory.cs:75 | a fresh options object has no arguments, exclusions, additional options or preferences |
| Drivers.Session.constructor | E2ETestFramework/Core/DriverFactory.cs:88 | a new session records its browser, stage, binary and options, and starts unquit, unconfigured and with no actions |
| Drivers.GetBrowserTypeFromString | E2ETestFramework/Core/DriverFactory.cs:334-344 | the four names in any letter case pick their browser and any other name is refused with that name, as GetBrowserTypeFromStringAccepts proves |
| Drivers.GetBrowserTypeFromStringAccepts | E2ETestFramework/Core/DriverFactory.cs:334-344 | a name is accepted exactly when its lower-case form is chrome, firefox, edge or safari; the result names that browser; otherwise "Unsupported browser" with the given name |
| Drivers.BrowserFromCode | E2ETestFramework/Core/DriverFactory.cs:380-386 | an integer stands for a member exactly when it is 0 to 3, numbered in declaration order, and otherwise for an unnamed value with that code |
| Drivers.FlagOr | E2ETestFramework/Core/DriverFactory.cs:65 | the OR of two member values is a member value no smaller than either, and OR with 0 changes nothing |
| Drivers.FlagOrIsBitwiseOr | E2ETestFramework/Core/DriverFactory.cs:65 | that OR is the machine's bitwise OR on two-bit values |
| Drivers.NameFlag | E2ETestFramework/Core/DriverFactory.cs:65 | a comma-separated piece has a value exactly when, trimmed and lowered, it is a member's name, and the value belongs to that member |
| Drivers.CombineFlags | E2ETestFramework/Core/DriverFactory.cs:65 | a list of pieces fails exactly when some piece names no member; otherwise its value is a member value |
| Drivers.TryParseBrowserType | E2ETestFramework/Core/DriverFactory.cs:65 | `Enum.TryParse(name, ignoreCase: true)`: blank text fails, and an unnamed value comes only from text that is an integer outside 0 to 3 |
| Drivers.TryParseInteger | E2ETestFramework/Core/DriverFactory.cs:65 | text whose first non-blank character is a digit or sign parses, trimmed, as a 32-bit integer to the enum value with that code, named or not, and fails when the integer does not parse |
| Drivers.TryParseSingleName | E2ETestFramework/Core/DriverFactory.cs:65 | a word without commas that does not start like an integer parses exactly when, trimmed and lowered, it is a member's name, and then to that member |
| Drivers.TryParseNameList | E2ETestFramework/Core/DriverFactory.cs:65 | two member names joined by a comma parse to the member whose value is the OR of theirs |
| Drivers.TryParseFirefoxEdge | E2ETestFramework/Core/DriverFactory.cs:65 | "Firefox,Edge", in any letter case and spacing, parses as Safari |
| Drivers.TryParseSpelling | E2ETestFramework/Core/DriverFactory.cs:65 | every spelling of a member's name parses to that member |
| Common.TrimLeading | E2ETestFramework/Core/DriverFactory.cs:65 | the result is the input minus leading white space, and starts with a non-blank character unless empty |
| Common.TrimTrailing | E2ETestFramework/Core/DriverFactory.cs:65 | the result is the input minus trailing white space, and ends with a non-blank character unless empty |
| Common.Split | E2ETestFramework/Core/DriverFactory.cs:65 | splitting gives at least one piece, no piece holds the separator, and text without a separator is one piece |
| Common.SplitAtFirst | E2ETestFramework/Core/DriverFactory.cs:65 | the text before the first separator is the first piece and the rest splits on its own |
| Drivers.BrowserNameRoundTrip | E2ETestFramework/Core/DriverFactory.cs:334-344 | any spelling of a browser's name, in any case, parses back to that browser under both parsers |
| Drivers.FirstIndexWithBinary | E2ETestFramework/Core/DriverFactory.cs:115-123 | the directory scan stops within the listing |
| Drivers.FirstIndexWithBinaryIsFirst | E2ETestFramework/Core/DriverFactory.cs:115-123 | the scan stops at the first `chrome-*` directory holding a driver binary; no earlier one holds it |
| Drivers.LexTotal | E2ETestFramework/Core/DriverFactory.cs:132-134 | the ordinal order used to sort version directories is total |
| Drivers.LexTransitive | E2ETestFramework/Core/DriverFactory.cs:132-134 | the ordinal order is transitive |
| Drivers.LexAntisymmetric | E2ETestFramework/Core/DriverFactory.cs:132-134 | the ordinal order is antisymmetric |
| Drivers.Latest | E2ETestFramework/Core/DriverFactory.cs:132-134 | the first entry of the descending sort is a listed version and no listed version is greater |
| Drivers.LatestIsUnique | E2ETestFramework/Core/DriverFactory.cs:132-134 | any listed greatest version is the one chosen |
| Drivers.ExistingChromeDriver | E2ETestFramework/Core/DriverFactory.cs:109-157 | the search returns "" or a path that exists |
| Drivers.ExistingChromeDriverIsBinary | E2ETestFramework/Core/DriverFactory.cs:117-140 | a found path ends with the platform's chromedriver file name |
| Drivers.CachedChromeDriver | E2ETestFramework/Core/DriverFactory.cs:126-148 | the cache lookup returns "" or a path that exists |
| Drivers.NoDirectoryBinary | E2ETestFramework/Core/DriverFactory.cs:114-130 | when no `chrome-*` directory holds a binary, the result is the cache lookup's |
| Drivers.ExistingChromeDriverOrder | E2ETestFramework/Core/DriverFactory.cs:115-122 | the first directory holding a binary wins over the cache |
| Drivers.ExistingChromeDriverFromCache | E2ETestFramework/Core/DriverFactory.cs:130-148 | failing the directories, a binary is found exactly when the newest cached version holds one, and then it is that one |
| Drivers.ChromeChain | E2ETestFramework/Core/DriverFactory.cs:79-106 | the manager first, then the found binary or native only when it fails, as ChromeChainOrder proves |
| Drivers.ChromeChainOrder | E2ETestFramework/Core/DriverFactory.cs:79-106 | the driver manager is tried first; a fallback is tried only when it fails; the fallback is the found binary if any, else native; the chain fails exactly when every stage tried fails, with the last stage's error |
| Drivers.ChromeArguments | E2ETestFramework/Core/DriverFactory.cs:159-205 | the Chrome argument list, whose content ChromeArgumentsContent states |
| Drivers.ChromeArgumentsContent | E2ETestFramework/Core/DriverFactory.cs:159-205 | Chrome gets `--headless=new` exactly when headless or configured, always the window size, the fixed arguments, and the custom arguments last, in order |
| Drivers.EdgeArguments | E2ETestFramework/Core/DriverFactory.cs:305-316 | the Edge argument list, whose content EdgeArgumentsContent states |
| Drivers.EdgeArgumentsContent | E2ETestFramework/Core/DriverFactory.cs:305-316 | Edge gets `--headless=new` exactly when headless, and always the window size |
| Drivers.FirefoxArguments | E2ETestFramework/Core/DriverFactory.cs:228-233 | the Firefox argument list, whose content FirefoxArgumentsContent states |
| Drivers.FirefoxArgumentsContent | E2ETestFramework/Core/DriverFactory.cs:230-233 | Firefox gets `--headless` exactly when headless, plus width and height, and nothing else |
| Drivers.ConvertPreference | E2ETestFramework/Core/DriverFactory.cs:249-277 | a null value is skipped and only it; booleans, integers and strings keep their type and value; other text becomes a bool when it parses as one, else an int when it parses as one, else stays text |
| Drivers.ConversionRecoversTypedText | E2ETestFramework/Core/DriverFactory.cs:261-276 | untyped boolean text becomes a bool preference and 32-bit integer text an int preference; text is kept as a string exactly when neither parse succeeds |
| Drivers.ApplyPreferences | E2ETestFramework/Core/DriverFactory.cs:246-278 | the preferences set in order over the base, whose outcome PreferenceLastWins and PreferenceUntouched state |
| Drivers.PreferenceLastWins | E2ETestFramework/Core/DriverFactory.cs:246-278 | a preference key ends with the converted value of its last non-null binding |
| Drivers.PreferenceUntouched | E2ETestFramework/Core/DriverFactory.cs:246-278 | a key with no non-null binding keeps its base value, or stays absent |
| Drivers.HeadlessSetting | E2ETestFramework/Core/DriverFactory.cs:47 | an unset headless setting means false; set text gives the boolean `bool.Parse` reads from it, and text it rejects is an invalid-headless error carrying that text |
| Drivers.AcquireBuildsRequestedBrowser | E2ETestFramework/Core/DriverFactory.cs:51-58 | a built session is of the requested browser, and only a Chrome session built from a found binary carries a binary path |
| Drivers.AcquireWithoutFallback | E2ETestFramework/Core/DriverFactory.cs:51-332 | an unnamed enum value is unsupported; Safari off macOS is not supported; Firefox and Edge succeed exactly when the driver manager does, else rethrow its failure |
| Drivers.Acquire | E2ETestFramework/Core/DriverFactory.cs:38-61 | the construction plan for a browser: the requested browser or the browser's error, as AcquireBuildsRequestedBrowser, AcquireWithoutFallback and AcquireSucceedsWhenStartable prove |
| Drivers.AcquireChrome | E2ETestFramework/Core/DriverFactory.cs:73-107 | the Chrome plan, built by the first stage of the chain that starts, as ChromePrefersManaged and ChromeUsesFoundBinary prove |
| Drivers.AcquireSucceedsWhenStartable | E2ETestFramework/Core/DriverFactory.cs:38-106 | a construction succeeds exactly when the headless setting parses and a stage the browser tries would start |
| Drivers.ChromePrefersManaged | E2ETestFramework/Core/DriverFactory.cs:79-89 | when the driver manager works, Chrome is built by it |
| Drivers.ChromeUsesFoundBinary | E2ETestFramework/Core/DriverFactory.cs:90-101 | when the manager fails and a binary was found, exactly the manager and that binary are tried; success binds the session to it, failure is its error |
| Drivers.DriverFactory.constructor | E2ETestFramework/Core/DriverFactory.cs:29-36 | a new factory holds its settings, no driver, and is not disposed |
| Drivers.DriverFactory.CreateDriver | E2ETestFramework/Core/DriverFactory.cs:38-61 | a cached driver is returned unchanged; otherwise the result agrees with the construction plan and a new session is cached only on success |
| Drivers.DriverFactory.CreateDriverByName | E2ETestFramework/Core/DriverFactory.cs:63-71 | an unparsable name is an invalid-browser-name error that changes nothing; otherwise it behaves as CreateDriver for the parsed browser: a cached session is returned; a new one is fresh and cached on success, and the cache stays empty on failure |
| Drivers.DriverFactory.CreateChromeDriver | E2ETestFramework/Core/DriverFactory.cs:73-107 | the result agrees with the Chrome construction plan: options, stage and binary |
| Drivers.DriverFactory.NewChromeOptions | E2ETestFramework/Core/DriverFactory.cs:75-76 | fresh Chrome options hold exactly the configured Chrome option values |
| Drivers.DriverFactory.FindExistingChromeDriver | E2ETestFramework/Core/DriverFactory.cs:109-157 | the loop returns the search result: first directory with a binary, else the newest cached one, else "" |
| Drivers.DriverFactory.FindCachedChromeDriver | E2ETestFramework/Core/DriverFactory.cs:126-150 | the cache lookup returns the binary of the newest version directory if it exists, else "" |
| Drivers.DriverFactory.ConfigureChromeOptions | E2ETestFramework/Core/DriverFactory.cs:159-205 | appends the Chrome arguments, excludes `enable-automation`, sets `useAutomationExtension` to false, and leaves preferences alone |
| Drivers.DriverFactory.CreateFirefoxDriver | E2ETestFramework/Core/DriverFactory.cs:207-226 | succeeds exactly when the driver manager works, with the Firefox options; otherwise rethrows that failure |
| Drivers.DriverFactory.ConfigureFirefoxOptions | E2ETestFramework/Core/DriverFactory.cs:228-282 | appends the Firefox arguments; the preferences are the two fixed ones followed by the configured ones in binding order |
| Drivers.DriverFactory.CreateEdgeDriver | E2ETestFramework/Core/DriverFactory.cs:284-303 | succeeds exactly when the driver manager works, with the Edge options; otherwise rethrows that failure |
| Drivers.DriverFactory.ConfigureEdgeOptions | E2ETestFramework/Core/DriverFactory.cs:305-321 | appends the Edge arguments, excludes `enable-automation`, and sets `useAutomationExtension` to false |
| Drivers.DriverFactory.CreateSafariDriver | E2ETestFramework/Core/DriverFactory.cs:323-332 | off macOS it is "platform not supported"; on macOS it succeeds exactly when the native driver starts, with empty options |
| Drivers.DriverFactory.Dispose | E2ETestFramework/Core/DriverFactory.cs:346-377 | a second dispose changes nothing; the first quits the driver when Quit works and clears it only when Quit and Dispose both work; the factory ends disposed; nothing of the driver but its quit flag changes |
| Drivers.RecreateAfterDispose | E2ETestFramework/Core/DriverFactory.cs:346-377 | after a successful dispose the session is quit, and the next request builds a different, live session |
| WebDrivers.BrowserSetting | E2ETestFramework/Core/WebDriverManager.cs:34 | an unset browser setting means Chrome; a set one is passed on verbatim |
| WebDrivers.TimeoutSetting | E2ETestFramework/Core/WebDriverManager.cs:50 | an unset timeout is 30 seconds; set text gives the 32-bit integer it parses to, and text that does not parse is a timeout-invalid error carrying that text |
| WebDrivers.WebDriverManager.constructor | E2ETestFramework/Core/WebDriverManager.cs:14-20 | a new manager holds its configuration and factory, has no driver, and is not disposed |
| WebDrivers.WebDriverManager.GetDriver | E2ETestFramework/Core/WebDriverManager.cs:22-46 | a cached driver is returned; otherwise the setting is parsed and the factory asked; the new session is cached before configuration, and a bad timeout fails after caching; the factory's disposed flag never changes, and a failed creation leaves the factory's cache as it was; a session taken from the factory's cache keeps its quit flag and its action log |
| WebDrivers.WebDriverManager.ConfigureDriver | E2ETestFramework/Core/WebDriverManager.cs:48-57 | the implicit and page-load waits are set to the configured timeout and the window maximised; a bad timeout changes nothing |
| WebDrivers.WebDriverManager.Dispose | E2ETestFramework/Core/WebDriverManager.cs:59-78 | the manager is marked disposed and its driver is left to the factory |
| WebDrivers.GetDriverTwice | E2ETestFramework/Core/WebDriverManager.cs:22-30 | once a session is obtained, asking again returns the same session |
| Reporting.ReportState.constructor | E2ETestFramework/Reporting/ExtentReportManager.cs:11-12 | the shared report starts with no report, no tests and no current test |
| Reporting.ReportPath | E2ETestFramework/Reporting/ExtentReportManager.cs:42-43 | the report file is `TestReport_<stamp>.html` |
| Reporting.SystemInfo | E2ETestFramework/Reporting/ExtentReportManager.cs:63-68 | six system-information rows, the first three being Application, Environment and Browser, with their defaults |
| Reporting.Logged | E2ETestFramework/Reporting/ExtentReportManager.cs:86-114 | a log line is appended to the current test only, whose name, description and screenshots are kept; with no current test nothing changes |
| Reporting.Attached | E2ETestFramework/Reporting/ExtentReportManager.cs:122 | a screenshot is appended to the current test only, whose name, description and log are kept |
| Reporting.LoggedOnNewest | E2ETestFramework/Reporting/ExtentReportManager.cs:79-102 | logging right after creating a test logs to that test |
| Reporting.LoggedSequence | E2ETestFramework/Reporting/ExtentReportManager.cs:86-114 | successive log calls append their lines in order to the current test, keep its other fields, and leave the other tests alone |
| Reporting.LogAll | E2ETestFramework/Reporting/ExtentReportManager.cs:86-114 | a run of log calls keeps the number of tests |
| Reporting.ExtentReportManager.constructor | E2ETestFramework/Reporting/ExtentReportManager.cs:17-21 | a manager holds its configuration and the shared state |
| Reporting.ExtentReportManager.GetExtentReports | E2ETestFramework/Reporting/ExtentReportManager.cs:23-77 | initialises the report once, returns the existing one afterwards, and on failure rethrows with nothing set |
| Reporting.ExtentReportManager.CreateTest | E2ETestFramework/Reporting/ExtentReportManager.cs:79-84 | appends an empty test entry and makes it current, or fails without changes when the report cannot be created |
| Reporting.ExtentReportManager.Log | E2ETestFramework/Reporting/ExtentReportManager.cs:86-114 | a status line goes to the current test only |
| Reporting.ExtentReportManager.LogInfo | E2ETestFramework/Reporting/ExtentReportManager.cs:86-90 | an Info line goes to the current test only |
| Reporting.ExtentReportManager.LogPass | E2ETestFramework/Reporting/ExtentReportManager.cs:92-96 | a Pass line goes to the current test only |
| Reporting.ExtentReportManager.LogFail | E2ETestFramework/Reporting/ExtentReportManager.cs:98-102 | a Fail line goes to the current test only |
| Reporting.ExtentReportManager.LogWarning | E2ETestFramework/Reporting/ExtentReportManager.cs:104-108 | a Warning line goes to the current test only |
| Reporting.ExtentReportManager.LogSkip | E2ETestFramework/Reporting/ExtentReportManager.cs:110-114 | a Skip line goes to the current test only |
| Reporting.ExtentReportManager.AttachScreenshot | E2ETestFramework/Reporting/ExtentReportManager.cs:116-130 | the screenshot is attached to the current test only when the file exists and attaching works; otherwise nothing changes |
| Reporting.ExtentReportManager.FlushReports | E2ETestFramework/Reporting/ExtentReportManager.cs:132-143 | with a report and a working flush, the written entries become the current ones; otherwise nothing is written |
| Reporting.SharedCurrentTest | E2ETestFramework/Reporting/ExtentReportManager.cs:79-96 | a test created through one manager receives the lines logged through another |
| Metrics.CountResult | E2ETestFramework/Metrics/TestMetricsCollector.cs:61-63 | a count of one result kind never exceeds the number of records |
| Metrics.SumDurations | E2ETestFramework/Metrics/TestMetricsCollector.cs:64 | the total duration bounds every record's duration |
| Metrics.CountsPartition | E2ETestFramework/Metrics/TestMetricsCollector.cs:60-63 | passed, failed and skipped add up to the total |
| Metrics.Summarize | E2ETestFramework/Metrics/TestMetricsCollector.cs:56-72 | total is the record count, the three counts partition it, the average times the count is the total duration, and it is zero with no records |
| Metrics.PassRate | E2ETestFramework/Metrics/TestMetricsCollector.cs:123 | the pass rate is 0 with no tests, otherwise passed/total × 100, within 0..100 |
| Metrics.PassRateExtremes | E2ETestFramework/Metrics/TestMetricsCollector.cs:123 | the rate is 100 exactly when all passed and 0 exactly when none passed |
| Metrics.SummaryOfAppend | E2ETestFramework/Metrics/TestMetricsCollector.cs:39-72 | one more record raises the total by one, its own kind's count by one, and the total duration by its duration |
| Metrics.AllFailed | E2ETestFramework/Metrics/TestMetricsCollector.cs:56-123 | when every record failed, failed equals total, nothing passed, and the pass rate is 0 |
| Metrics.TestMetricsCollector.constructor | E2ETestFramework/Metrics/TestMetricsCollector.cs:13-18 | no records, and a stopped stopwatch at zero |
| Metrics.TestMetricsCollector.StartTest | E2ETestFramework/Metrics/TestMetricsCollector.cs:20-24 | restarts the stopwatch from zero and keeps the records |
| Metrics.TestMetricsCollector.EndTest | E2ETestFramework/Metrics/TestMetricsCollector.cs:26-41 | stops the stopwatch and appends one record with the name, result, elapsed time, time stamp and error message |
| Metrics.TestMetricsCollector.RecordPerformanceMetric | E2ETestFramework/Metrics/TestMetricsCollector.cs:43-54 | the sample carries the given name, value, unit and time |
| Metrics.TestMetricsCollector.GenerateSummary | E2ETestFramework/Metrics/TestMetricsCollector.cs:56-72 | the summary of the recorded outcomes |
| Metrics.TestMetricsCollector.ExportMetrics | E2ETestFramework/Metrics/TestMetricsCollector.cs:74-94 | when the write works, the document holds the summary and every record; a failed write is swallowed |
| Metrics.ThreeFailingScenarios | E2ETestFramework/Metrics/TestMetricsCollector.cs:20-123 | three failing scenarios give a summary of three tests, three failed, and a 0 pass rate |
| TestData.DataDirectory | E2ETestFramework/Utils/TestDataManager.cs:25 | the data directory defaults to `TestData` |
| TestData.BaseName | E2ETestFramework/Utils/TestDataManager.cs:30 | the file name is the part after the last directory separator |
| TestData.LastDot | E2ETestFramework/Utils/TestDataManager.cs:30 | the extension starts at the last dot, if any |
| TestData.FileStem | E2ETestFramework/Utils/TestDataManager.cs:30 | the category name contains no directory separator |
| TestData.FileStemOfDataFile | E2ETestFramework/Utils/TestDataManager.cs:26-30 | `<dir>/<name>.json` is filed under the category `<name>` |
| TestData.LastDotOfJsonName | E2ETestFramework/Utils/TestDataManager.cs:30 | the extension of `<name>.json` starts right after `<name>` |
| TestData.BaseNameAfterSeparator | E2ETestFramework/Utils/TestDataManager.cs:30 | the file name after a separator is recovered exactly |
| TestData.Load | E2ETestFramework/Utils/TestDataManager.cs:21-45 | each listed file in turn stored under its stem until the first failure, as FirstFailure, LoadedCategories, LaterFileWins and KeptUntilOverwritten state |
| TestData.Loaded | E2ETestFramework/Utils/TestDataManager.cs:21-45 | the data a listing loads, or nothing when the listing throws; LoadTestData's loop computes it |
| TestData.FirstFailure | E2ETestFramework/Utils/TestDataManager.cs:28-44 | loading stops at the first file whose read or parse throws; every earlier file was read |
| TestData.LoadedCategories | E2ETestFramework/Utils/TestDataManager.cs:28-39 | a category is loaded exactly when it was there before or some non-null document before the first failure has that stem |
| TestData.LaterFileWins | E2ETestFramework/Utils/TestDataManager.cs:36 | a category holds the entries of the last loaded document with its stem |
| TestData.KeptUntilOverwritten | E2ETestFramework/Utils/TestDataManager.cs:28-39 | a category no loaded document names keeps its entries |
| TestData.LoadTestData | E2ETestFramework/Utils/TestDataManager.cs:21-45 | the loop stores every non-null document under its stem until the first failure; a listing that throws loads nothing |
| TestData.TestDataManager.constructor | E2ETestFramework/Utils/TestDataManager.cs:13-19 | the data held is what loading the listing gives |
| TestData.TestDataManager.GetTestData | E2ETestFramework/Utils/TestDataManager.cs:47-69 | a value is returned only for a present, non-null key, and then it is the decoded value |
| TestData.TestDataManager.GetUserCredentials | E2ETestFramework/Utils/TestDataManager.cs:81-84 | the `users` entry for the type, or an empty dictionary |
| TestData.TestDataManager.GetConnectionString | E2ETestFramework/Utils/TestDataManager.cs:71-74 | the configured connection string, or "" |
| TestData.TestDataManager.GetEnvironmentVariable | E2ETestFramework/Utils/TestDataManager.cs:76-79 | the environment variable, or "" |
| TestData.CredentialsFromLoadedFile | E2ETestFramework/Utils/TestDataManager.cs:28-84 | credentials come from the last loaded `users.json` |
| LoginPages.LoginTarget | E2ETestFramework/Pages/LoginPage.cs:183-193 | off the test site the URL is opened verbatim; on it the target ends in `/login`, and a URL without it loses exactly its trailing slashes (none remain) before `/login` is added |
| LoginPages.LoginSlashDoubled | E2ETestFramework/Pages/LoginPage.cs:183-185 | a test-site login URL with one trailing slash becomes that URL with `/login` added a second time |
| LoginPages.LoginTargetIdempotent | E2ETestFramework/Pages/LoginPage.cs:183-193 | navigating to the chosen target again chooses it again |
| LoginPages.TrailingSlashesIgnored | E2ETestFramework/Pages/LoginPage.cs:185 | any number of trailing slashes gives the same login address |
| LoginPages.IsLoginPageLoaded | E2ETestFramework/Pages/LoginPage.cs:74-79 | the page counts as loaded when the username field, the password field and the login button all show; AccessibleIsLoaded ties it to accessibility |
| LoginPages.HasAccessibleElements | E2ETestFramework/Pages/LoginPage.cs:81-109 | the three controls show, each field has an aria-label, a placeholder or a shown label, and the button an aria-label or text; AccessibleIsLoaded and LabelsGiveAccessibility relate it to the other checks |
| LoginPages.HasProperFormLabels | E2ETestFramework/Pages/LoginPage.cs:111-133 | both fields show and each has a shown label or an aria-label, the button not consulted; LabelsGiveAccessibility relates it to accessibility |
| LoginPages.AccessibleIsLoaded | E2ETestFramework/Pages/LoginPage.cs:74-109 | a page with accessible elements is a loaded login page |
| LoginPages.LabelsGiveAccessibility | E2ETestFramework/Pages/LoginPage.cs:81-133 | labels plus a named button imply accessibility, but placeholders alone give accessibility without proper labels |
| LoginPages.LoginPage.constructor | E2ETestFramework/Pages/LoginPage.cs:20-23 | the page holds its session |
| LoginPages.LoginPage.NavigateTo | E2ETestFramework/Pages/LoginPage.cs:167-203 | an empty URL and a non-absolute URL are rejected without navigating; otherwise exactly one navigation to the login target |
| LoginPages.LoginPage.EnterUsername | E2ETestFramework/Pages/LoginPage.cs:25-29 | types the username into the username field |
| LoginPages.LoginPage.EnterPassword | E2ETestFramework/Pages/LoginPage.cs:31-35 | types the password into the password field |
| LoginPages.LoginPage.ClickLoginButton | E2ETestFramework/Pages/LoginPage.cs:37-41 | clicks the submit button |
| LoginPages.LoginActions | E2ETestFramework/Pages/LoginPage.cs:43-49 | a login types the username, then the password, then clicks submit; LoginSubmitsOnce and LoginPage.Login build on it |
| LoginPages.LoginPage.Login | E2ETestFramework/Pages/LoginPage.cs:43-49 | types username, then password, then clicks submit |
| LoginPages.LoginPage.ClickForgotPassword | E2ETestFramework/Pages/LoginPage.cs:61-72 | clicks the link only when it is shown |
| LoginPages.IsErrorMessageDisplayed | E2ETestFramework/Pages/LoginPage.cs:56-59 | the error is displayed exactly when the flash element shows; GetErrorMessage reads text exactly then |
| LoginPages.GetErrorMessage | E2ETestFramework/Pages/LoginPage.cs:51-59 | the error text is read exactly when the error element is shown |
| DashboardPages.WelcomeMessage | E2ETestFramework/Pages/DashboardPage.cs:25-55 | the flash wins; else the header followed by " - " and the sub-header when that shows, or the header alone; else the secure-area text exactly when the address mentions "secure", otherwise the generic welcome |
| DashboardPages.DashboardTitleText | E2ETestFramework/Pages/DashboardPage.cs:57-70 | the title text, which DashboardTitleHasTwoOutcomes shows is the `h2` text or "Secure Area" |
| DashboardPages.IsDashboardLoaded | E2ETestFramework/Pages/DashboardPage.cs:126-142 | the dashboard counts as loaded when the header, title or user menu shows or the address mentions "secure"; LoadedMeansLoggedIn relates it to login |
| DashboardPages.IsUserLoggedIn | E2ETestFramework/Pages/DashboardPage.cs:144-173 | the user counts as logged in when the flash or header shows, the address mentions "secure", or a readable title mentions "Secure Area" or "secure"; WelcomeMeansLoggedIn, LoadedMeansLoggedIn and UnreadableTitle relate it to the other queries |
| DashboardPages.DashboardTitleHasTwoOutcomes | E2ETestFramework/Pages/DashboardPage.cs:57-70 | since title and header share a selector, the title is the `h2` text or "Secure Area" |
| DashboardPages.WelcomeMeansLoggedIn | E2ETestFramework/Pages/DashboardPage.cs:25-173 | any welcome message other than the generic one means the user is logged in |
| DashboardPages.LoadedMeansLoggedIn | E2ETestFramework/Pages/DashboardPage.cs:126-173 | the dashboard counts as loaded exactly when `h2`, the user menu or a "secure" address is there, and without the menu that means logged in |
| DashboardPages.UnreadableTitle | E2ETestFramework/Pages/DashboardPage.cs:159-172 | when reading the title throws, login is decided by the flash, the header and the address alone |
| DashboardPages.ClickIfDisplayed | E2ETestFramework/Pages/DashboardPage.cs:74-82 | a click happens exactly when the element is shown |
| DashboardPages.DashboardPage.constructor | E2ETestFramework/Pages/DashboardPage.cs:20-23 | the page holds its session |
| DashboardPages.DashboardPage.ClickUserMenu | E2ETestFramework/Pages/DashboardPage.cs:72-83 | clicks the user menu only when shown |
| DashboardPages.DashboardPage.Logout | E2ETestFramework/Pages/DashboardPage.cs:85-96 | clicks Logout only when shown |
| DashboardPages.DashboardPage.GoToProfile | E2ETestFramework/Pages/DashboardPage.cs:98-110 | opens the menu if shown, then clicks Profile if shown |
| DashboardPages.DashboardPage.GoToSettings | E2ETestFramework/Pages/DashboardPage.cs:112-124 | opens the menu if shown, then clicks Settings if shown |
| LoginStepDefs.BaseUrl | E2ETestFramework.Tests/StepDefinitions/LoginSteps.cs:263-283 | the first non-empty of `TestSettings__BaseUrl` and `BASE_URL` without trailing slashes, else the public test site; never ends in a slash |
| LoginStepDefs.LoginUrl | E2ETestFramework.Tests/StepDefinitions/LoginSteps.cs:37-38 | the login address is the base URL followed by `/login` |
| LoginStepDefs.LoginUrlOpenedVerbatim | E2ETestFramework.Tests/StepDefinitions/LoginSteps.cs:37-41 | the page opens the step's login address unchanged |
| LoginStepDefs.DefaultLoginUrl | E2ETestFramework.Tests/StepDefinitions/LoginSteps.cs:280 | with no variables set the step opens `https://the-internet.herokuapp.com/login` |
| LoginStepDefs.Substituted | E2ETestFramework.Tests/StepDefinitions/LoginSteps.cs:74-75 | "empty" becomes "", and any other text is kept |
| LoginStepDefs.LoginSubmitsOnce | E2ETestFramework/Pages/LoginPage.cs:43-49 | a login submits the form exactly once |
| LoginStepDefs.EachAttemptSubmitsOnce | E2ETestFramework.Tests/StepDefinitions/LoginSteps.cs:95-117 | k rounds of the loop submit the form k times, whatever the navigations between them |
| LoginStepDefs.RecordedFailedAttempts | E2ETestFramework.Tests/StepDefinitions/LoginSteps.cs:193-194 | a missing count reads as 0, a boxed int as its value, anything else is an invalid cast |
| LoginStepDefs.ShouldContain | E2ETestFramework.Tests/StepDefinitions/LoginSteps.cs:143-152 | a containment check passes exactly when the expected text is non-empty and occurs |
| LoginStepDefs.LoginSteps.constructor | E2ETestFramework.Tests/StepDefinitions/LoginSteps.cs:20-32 | the steps hold their pages and data, no failed attempts and an empty context |
| LoginStepDefs.LoginSteps.GivenIAmOnTheLoginPage | E2ETestFramework.Tests/StepDefinitions/LoginSteps.cs:34-45 | navigates once to the login address and passes exactly when the login page is loaded; an invalid address fails without navigating |
| LoginStepDefs.LoginSteps.EnterCredentials | E2ETestFramework.Tests/StepDefinitions/LoginSteps.cs:50-53 | types the username then the password of the credentials; a missing key fails after the keys typed so far |
| LoginStepDefs.LoginSteps.WhenIEnterValidUsernameAndPassword | E2ETestFramework.Tests/StepDefinitions/LoginSteps.cs:47-57 | types the `validUser` credentials and records the username in the scenario context; a missing username types nothing, a missing password types only the username, and neither changes the context |
| LoginStepDefs.LoginSteps.WhenIEnterInvalidUsernameAndPassword | E2ETestFramework.Tests/StepDefinitions/LoginSteps.cs:59-68 | types the `invalidUser` credentials; a missing username types nothing and a missing password types only the username |
| LoginStepDefs.LoginSteps.WhenIEnterUsernameAndPassword | E2ETestFramework.Tests/StepDefinitions/LoginSteps.cs:70-81 | types the given username and password, with "empty" meaning "" |
| LoginStepDefs.LoginSteps.WhenIEnterInvalidCredentialsTimes | E2ETestFramework.Tests/StepDefinitions/LoginSteps.cs:90-120 | n > 0 rounds raise the failed-attempt count by n and record it, performing the rounds' actions; a failed return navigation stops the step after the first round that needed it, counting exactly the rounds played and having performed exactly their actions; n ≤ 0 does nothing |
| LoginStepDefs.LoginSteps.RepeatLogin | E2ETestFramework.Tests/StepDefinitions/LoginSteps.cs:95-117 | the loop performs every round and counts each, or stops after the first round that needed a return navigation that failed, with exactly that many rounds counted and performed |
| LoginStepDefs.FirstExit | E2ETestFramework.Tests/StepDefinitions/LoginSteps.cs:95-117 | the first non-final round after which the page has left the form, if any: every earlier round kept the form |
| LoginStepDefs.LoginSteps.PlayRound | E2ETestFramework.Tests/StepDefinitions/LoginSteps.cs:97-116 | one round types, submits and counts the attempt, then returns to the login page when needed before the last round; a failed return leaves only the login's actions behind |
| LoginStepDefs.LoginSteps.ReturnToLoginPage | E2ETestFramework.Tests/StepDefinitions/LoginSteps.cs:111-115 | navigates back to the login address, or fails without navigating |
| LoginStepDefs.LoginSteps.ThenMyAccountShouldBeLocked | E2ETestFramework.Tests/StepDefinitions/LoginSteps.cs:188-207 | passes exactly when the count reads and the error message is shown |
| LoginStepDefs.LoginSteps.ThenIShouldSeeALockoutMessage | E2ETestFramework.Tests/StepDefinitions/LoginSteps.cs:209-233 | from three attempts any non-empty error passes, below three it must contain "locked"; a missing error element or a bad count fails |
| LoginStepDefs.LoginSteps.ThenIShouldSeeAWelcomeMessage | E2ETestFramework.Tests/StepDefinitions/LoginSteps.cs:129-157 | requires a logged-in page with a welcome message containing "logged into" on the test site, or the recorded username elsewhere; elsewhere without a recorded username any non-empty message passes |
| LoginStepDefs.LockoutCheckWeakensWithAttempts | E2ETestFramework.Tests/StepDefinitions/LoginSteps.cs:218-231 | a message passing the below-threshold check also passes the at-threshold one |
| LoginStepDefs.SecureAreaFallbackPasses | E2ETestFramework/Pages/DashboardPage.cs:49-52 | the secure-area fallback text satisfies the "logged into" check |
| LoginStepDefs.ThreeAttemptsReachLockout | E2ETestFramework.Tests/StepDefinitions/LoginSteps.cs:90-218 | three invalid logins record three attempts and submit the form three times |
| Hooks.ScreenshotsEnabled | E2ETestFramework.Tests/Hooks/TestHooks.cs:131 | screenshots default to on; a set value is parsed as a boolean |
| Hooks.ScreenshotPath | E2ETestFramework.Tests/Hooks/TestHooks.cs:135 | the screenshot is `Screenshots/<title>_<stamp>.png` |
| Hooks.MetricsPath | E2ETestFramework.Tests/Hooks/TestHooks.cs:182 | the metrics file is `Reports/TestMetrics_<stamp>.json` |
| Hooks.Outcome | E2ETestFramework.Tests/Hooks/TestHooks.cs:122-150 | a scenario fails exactly when it has an error, and is never skipped |
| Hooks.OutcomeLine | E2ETestFramework.Tests/Hooks/TestHooks.cs:124-148 | the logged line is a failure exactly when there is an error, reading "Test failed: " and the message |
| Hooks.SessionObtainable | E2ETestFramework.Tests/Hooks/TestHooks.cs:73-87 | a session is obtainable when the browser setting parses, one is cached or can be started, and the timeout parses, as OpenScope and ObtainSession state |
| Hooks.DefaultsObtainCachedSession | E2ETestFramework.Tests/Hooks/TestHooks.cs:73-87 | with default settings a cached session is always obtainable |
| Hooks.Scope.constructor | E2ETestFramework.Tests/Hooks/TestHooks.cs:94 | a new scope holds its manager, has no services resolved, and is not disposed |
| Hooks.Scope.Dispose | E2ETestFramework.Tests/Hooks/TestHooks.cs:162 | disposing the scope disposes its manager once and leaves the session to the factory |
| Hooks.TestRun.constructor | E2ETestFramework.Tests/Hooks/TestHooks.cs:26-88 | the run builds one factory, one report and one metrics collector from the configuration, all empty |
| Hooks.TestRun.AfterTestRun | E2ETestFramework.Tests/Hooks/TestHooks.cs:174-213 | flushes the report, exports the metrics when the directory and the write work, summarises, and disposes the provider and the factory; the export and the summary each use their own clock reading |
| Hooks.TestHooks.constructor | E2ETestFramework.Tests/Hooks/TestHooks.cs:22-24 | the hooks start with no scope, manager or factory |
| Hooks.TestHooks.BeforeScenario | E2ETestFramework.Tests/Hooks/TestHooks.cs:90-112 | opens a scope; fails on a driver error exactly when no session is obtainable, then on a report error; on success appends the scenario's report entry and restarts the stopwatch |
| Hooks.TestHooks.AfterScenario | E2ETestFramework.Tests/Hooks/TestHooks.cs:114-172 | logs the outcome, records one metric, attaches a screenshot only for an enabled, captured failure, and disposes and clears the scope |
| Hooks.OpenScope | E2ETestFramework.Tests/Hooks/TestHooks.cs:94-103 | a fresh scope over the shared factory; services resolve exactly when a session is obtainable |
| Hooks.ResolveServices | E2ETestFramework.Tests/Hooks/TestHooks.cs:73-103 | both pages share the scope's session and the data manager holds the loaded data |
| Hooks.ReuseSession | E2ETestFramework/Core/WebDriverManager.cs:22-30 | a manager with a session returns it unchanged |
| Hooks.ObtainSession | E2ETestFramework.Tests/Hooks/TestHooks.cs:75-78 | the first page resolution obtains a session exactly when one is obtainable |
| Hooks.StartReporting | E2ETestFramework.Tests/Hooks/TestHooks.cs:107-109 | creates the report entry and restarts the stopwatch, or fails without changes |
| Hooks.RecordOutcome | E2ETestFramework.Tests/Hooks/TestHooks.cs:122-150 | logs the outcome line to the current test and records the metric |
| Hooks.TryScreenshot | E2ETestFramework.Tests/Hooks/TestHooks.cs:128-144 | a screenshot is taken only for an enabled, captured failure, and always for one when the manager already holds a session; it is attached only when attaching works |
| Hooks.StartScenario | E2ETestFramework.Tests/Hooks/TestHooks.cs:90-112 | with an obtainable session the scenario gets a new, current report entry and a running stopwatch |
| Hooks.PassingScenario | E2ETestFramework.Tests/Hooks/TestHooks.cs:90-172 | a passing scenario leaves one report entry logged "Test completed successfully" and one Pass metric |
| Hooks.FailedStartBlamesPreviousEntry | E2ETestFramework.Tests/Hooks/TestHooks.cs:97-125 | when no session is obtainable, the failure is logged to the previous scenario's entry, while the metric carries the new title |

## Left out

- LoginPages.LoginTarget: `String.Contains` and `String.EndsWith("/login")` compare ordinally in the model; .NET's one-string `EndsWith` uses the current culture, which can differ for text with ignorable characters.
- Configuration keys: .NET configuration looks keys up without regard to case; the model looks them up exactly, so a Config is taken to hold each key spelt as the source spells it.
- Culture-sensitive `ToLower` is modelled as ASCII lower-casing only.
- `bool.Parse`/`int.Parse` are not modelled on leading or trailing whitespace.
- Drivers.TryParseBrowserType: the integer branch trims the full Unicode white-space set, where .NET's number parser trims only ASCII white space; and member names are compared with ASCII case folding only.
- JSON deserialisation is a decode oracle (`decode`). JSON serialisation of the exported metrics is the `MetricsExport` value.
- The order and filter of `Directory.GetFiles` and `Directory.GetDirectories` are an input listing. Any failure to list the data directory is a single `None`.
- Logging (Microsoft.Extensions.Logging and the Serilog `Log` calls) is not modelled.
- `Thread.Sleep`, the report lock and concurrency are not modelled. The model is single-threaded.
- Drivers.Latest: uses ordinal string order, where `OrderByDescending` uses the current culture's comparer; the two orders can rank some names differently.
- Durations are whole milliseconds (`nat`); average duration and pass rate are `real` values, not floating point.
- LoginStepDefs.LoginSteps.WhenIEnterInvalidCredentialsTimes: does not model the 32-bit wrap-around of `_failedAttempts`, because the count is unbounded.
- The BasePage waits: typing and clicking are assumed to find their element. Element visibility within the wait is an input (`PageView.visible`). BasePage's own timeout parse is not part of this model.
- SupportsKeyboardNavigation (LoginPage.cs:135-165) is not modelled. It depends on the browser's focus order after simulated Tab presses, which no input here describes.
- A failure of `InitializeExtentReports` after `_extent` is assigned, which would leave a partly set-up report, is not modelled. Initialisation either succeeds fully or leaves nothing set.
- The dependency-injection container is not modelled: singletons are created eagerly by `TestRun`. A missing or malformed `appsettings.json` is not modelled.
- The Then steps that only assert a page predicate are not separate members: ThenIShouldBeRedirectedToTheDashboard, ThenIShouldSeeAnErrorMessage (both overloads), ThenIShouldRemainOnTheLoginPage, ThenTheLoginPageShouldBeAccessible, ThenAllFormElementsShouldHaveProperLabels and ThenThePageShouldSupportKeyboardNavigation. Their predicates are modelled.
- WhenIClickTheLoginButton is covered by `LoginPages.LoginPage.ClickLoginButton`.
- In WhenIEnterInvalidCredentialsTimes, the lookups of the credential keys happen once, before the loop. The credentials are constant, so a missing key can only fail in the first round; the observable result is the same.
- Screenshot capture and saving are one oracle (`captureSucceeds`). The saved file is taken to exist when it is attached.
- That the test runner calls AfterScenario after a failed BeforeScenario is an assumption about SpecFlow, which is not part of this model.
- Selenium's handling of a negative timeout is not modelled; the configured value is stored as given.
- Whether a URL is absolute (`Uri.TryCreate`) is an input (`isAbsoluteUri`). In the repeated-login step it is the same for every round.
- Drivers.DriverFactory.CreateChromeDriver: does not model which directory the found binary's service uses, because `Path.GetDirectoryName` is an opaque library call; the session records the binary path itself.
