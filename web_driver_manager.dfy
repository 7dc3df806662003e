/** WebDriverManager: the scenario-level holder of one session. The first
    request asks the shared DriverFactory for a session for the configured
    browser and applies the configured timeouts and a maximised window; later
    requests return the same handle. */
module WebDrivers {
  import opened Common
  import opened Drivers

  datatype ManagerError =
    | Creation(cause: DriverError)          // parsing the browser name or building the session threw
    | TimeoutSettingInvalid(text: string)   // int.Parse of TestSettings:TimeoutSeconds threw

  const BrowserKey: string := "TestSettings:Browser"
  const TimeoutKey: string := "TestSettings:TimeoutSeconds"

  /** The configured browser name, "Chrome" when unset. */
  function BrowserSetting(config: Config): (name: string)
    ensures BrowserKey !in config ==> name == "Chrome" && GetBrowserTypeFromString(name) == Success(Chrome)
    ensures BrowserKey in config ==> name == config[BrowserKey]
  {
    assert ToLower("Chrome") == "chrome";
    Lookup(config, BrowserKey).GetOr("Chrome")
  }

  /** int.Parse(TestSettings:TimeoutSeconds ?? "30"). */
  function TimeoutSetting(config: Config): (r: Result<int, ManagerError>)
    ensures TimeoutKey !in config ==> r == Success(30)
    ensures r.Success? ==> Int32Min <= r.value <= Int32Max
    ensures TimeoutKey in config ==> (r.Success? <==> ParseInt(config[TimeoutKey]).Some?)
    ensures TimeoutKey in config ==>
              var text := config[TimeoutKey];
              && (ParseInt(text).Some? ==> r == Success(ParseInt(text).value))
              && (ParseInt(text).None? ==> r == Failure(TimeoutSettingInvalid(text)))
  {
    var text := Lookup(config, TimeoutKey).GetOr("30");
    assert text == "30" ==> text == IntText(30);
    IntTextParses(30);
    match ParseInt(text)
    case Some(seconds) => Success(seconds)
    case None => Failure(TimeoutSettingInvalid(text))
  }

  /** The timeouts and window state ConfigureDriver leaves on a session. */
  predicate Configured(s: Session, seconds: int)
    reads s
  {
    s.implicitWaitSeconds == seconds && s.pageLoadSeconds == seconds && s.maximized
  }

  class WebDriverManager {
    const config: Config
    const factory: DriverFactory
    var driver: Session?
    var disposed: bool

    constructor (config: Config, factory: DriverFactory)
      ensures this.config == config && this.factory == factory
      ensures driver == null && !disposed
    {
      this.config := config;
      this.factory := factory;
      driver := null;
      disposed := false;
    }

    /** GetDriver: the held session when there is one. Otherwise the browser
        name is parsed and the factory asked for a session (a failure of
        either leaves nothing held); the session is held BEFORE the timeouts
        are configured, so an unparsable timeout raises yet leaves an
        unconfigured session held, which later calls return as it is. */
    method GetDriver(host: Host, outcomes: StartOutcomes) returns (r: Result<Session, ManagerError>)
      modifies this, factory, factory.driver
      ensures disposed == old(disposed)
      ensures factory.driver == old(factory.driver) || fresh(factory.driver)
      ensures factory.disposed == old(factory.disposed)
      ensures driver == null ==> factory.driver == old(factory.driver)
      ensures old(driver) != null ==> r == Success(old(driver)) && driver == old(driver) && unchanged(factory)
      ensures old(driver) == null && GetBrowserTypeFromString(BrowserSetting(config)).Failure? ==>
                r == Failure(Creation(GetBrowserTypeFromString(BrowserSetting(config)).error))
                && driver == null && unchanged(factory)
      ensures old(driver) == null && GetBrowserTypeFromString(BrowserSetting(config)).Success? ==>
                var browser := GetBrowserTypeFromString(BrowserSetting(config)).value;
                && (old(factory.driver) != null ==> driver == old(factory.driver))
                && (old(factory.driver) == null ==>
                      (driver == null <==> Acquire(browser, factory.settings, host, outcomes).Failure?)
                      && (driver == null ==> r == Failure(Creation(Acquire(browser, factory.settings, host, outcomes).error)))
                      && (driver != null ==> fresh(driver) && Realises(driver, Acquire(browser, factory.settings, host, outcomes).value)))
      ensures old(driver) == null && driver != null ==> factory.driver == driver
      ensures old(driver) == null && driver != null ==>
                match TimeoutSetting(config)
                case Success(seconds) => r == Success(driver) && Configured(driver, seconds)
                case Failure(e) => r == Failure(e) && (old(factory.driver) != null ==> unchanged(driver))
      ensures old(driver) == null && old(factory.driver) != null && driver != null ==>
                driver.quit == old(factory.driver.quit) && driver.actions == old(factory.driver.actions)
    {
      if driver != null {
        return Success(driver);
      }
      var parsed := GetBrowserTypeFromString(BrowserSetting(config));
      if parsed.Failure? {
        return Failure(Creation(parsed.error));
      }
      var created := factory.CreateDriver(parsed.value, host, outcomes);
      if created.Failure? {
        return Failure(Creation(created.error));
      }
      driver := created.value;
      r := ConfigureDriver(driver);
    }

    /** ConfigureDriver: both timeouts take the configured number of seconds
        and the window is maximised; an unparsable setting changes nothing. */
    method ConfigureDriver(s: Session) returns (r: Result<Session, ManagerError>)
      modifies s
      ensures match TimeoutSetting(config)
              case Success(seconds) => r == Success(s) && Configured(s, seconds)
              case Failure(e) => r == Failure(e) && unchanged(s)
      ensures s.quit == old(s.quit) && s.actions == old(s.actions)
    {
      var timeout := TimeoutSetting(config);
      if timeout.Failure? {
        return Failure(timeout.error);
      }
      s.implicitWaitSeconds := timeout.value;
      s.pageLoadSeconds := timeout.value;
      s.maximized := true;
      r := Success(s);
    }

    /** Dispose marks the manager disposed once; the session is the
        factory's to close and is left alone. */
    method Dispose()
      modifies this
      ensures disposed && driver == old(driver)
    {
      if !disposed {
        disposed := true;
      }
    }
  }

  /** Two requests in a row hand back one and the same session. */
  method GetDriverTwice(m: WebDriverManager, host: Host, outcomes: StartOutcomes)
    returns (first: Result<Session, ManagerError>, second: Result<Session, ManagerError>)
    modifies m, m.factory, m.factory.driver
    ensures first.Success? ==> second == first
  {
    first := m.GetDriver(host, outcomes);
    if first.Success? {
      second := m.GetDriver(host, outcomes);
    } else {
      second := first;
    }
  }
}
