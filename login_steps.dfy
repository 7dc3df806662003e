/** LoginSteps: the step definitions behind the login feature. They pick
    the base address from the environment, type credentials from the test
    data, count failed attempts in the scenario context, and check the pages
    afterwards. A step that throws (a failed assertion, a missing dictionary
    key, a refused address) ends in a StepError; what the browser shows is
    given as page views. */
module LoginStepDefs {
  import opened Common
  import opened Drivers
  import opened LoginPages
  import opened DashboardPages
  import opened TestData

  datatype StepError =
    | MissingCredential(key: string)      // the credentials dictionary has no such key
    | NavigationFailed(cause: PageError)  // NavigateTo refused the address
    | PageQueryFailed(cause: PageError)   // waiting for an element timed out
    | InvalidCast                         // the context value is not a boxed int
    | AssertionFailed(because: string)    // a Should() check failed

  /** What the scenario context holds: boxed ints and strings. */
  datatype ContextValue = CtxInt(n: int) | CtxText(s: string)

  const BaseUrlVariable: string := "TestSettings__BaseUrl"
  const BaseUrlFallbackVariable: string := "BASE_URL"
  const DefaultBaseUrl: string := "https://the-internet.herokuapp.com"
  const LockoutThreshold: int := 3

  /** GetBaseUrl: the first non-empty of the two environment variables,
      without trailing slashes, else the public test site. */
  function BaseUrl(environment: map<string, string>): (url: string)
    ensures Lookup(environment, BaseUrlVariable).GetOr("") != "" ==>
              url == TrimEnd(environment[BaseUrlVariable], '/')
    ensures Lookup(environment, BaseUrlVariable).GetOr("") == "" && Lookup(environment, BaseUrlFallbackVariable).GetOr("") != "" ==>
              url == TrimEnd(environment[BaseUrlFallbackVariable], '/')
    ensures Lookup(environment, BaseUrlVariable).GetOr("") == "" && Lookup(environment, BaseUrlFallbackVariable).GetOr("") == "" ==>
              url == DefaultBaseUrl
    ensures url == [] || url[|url| - 1] != '/'
  {
    var configured := Lookup(environment, BaseUrlVariable).GetOr("");
    if configured != "" then TrimEnd(configured, '/')
    else
      var fallback := Lookup(environment, BaseUrlFallbackVariable).GetOr("");
      if fallback != "" then TrimEnd(fallback, '/')
      else DefaultBaseUrl
  }

  /** The login address: the base address followed by "/login". */
  function LoginUrl(environment: map<string, string>): (url: string)
    ensures EndsWith(url, LoginPath)
    ensures url[..|url| - |LoginPath|] == BaseUrl(environment)
  {
    var url := BaseUrl(environment) + LoginPath;
    assert url[|url| - |LoginPath|..] == LoginPath;
    url
  }

  /** NavigateTo opens the login address exactly as built, since it already
      ends in "/login". */
  lemma LoginUrlOpenedVerbatim(environment: map<string, string>)
    ensures LoginTarget(LoginUrl(environment)) == LoginUrl(environment)
  {
  }

  /** With neither variable set, the step opens the test site's login page. */
  lemma DefaultLoginUrl()
    ensures LoginUrl(map[]) == "https://the-internet.herokuapp.com/login"
  {
  }

  /** The "empty" keyword in a step stands for an empty field. */
  function Substituted(text: string): (r: string)
    ensures text != "empty" ==> r == text
    ensures r == "" <==> text == "" || text == "empty"
  {
    if text == "empty" then "" else text
  }

  /** The number of login submissions among recorded actions. */
  function Submissions(actions: seq<Action>): nat {
    if actions == [] then 0
    else Submissions(actions[..|actions| - 1]) + (if actions[|actions| - 1] == Click(LoginButton) then 1 else 0)
  }

  lemma {:induction false} SubmissionsAppend(a: seq<Action>, b: seq<Action>)
    ensures Submissions(a + b) == Submissions(a) + Submissions(b)
  {
    if b != [] {
      assert (a + b)[..|a + b| - 1] == a + b[..|b| - 1];
      SubmissionsAppend(a, b[..|b| - 1]);
    } else {
      assert a + b == a;
    }
  }

  /** Writing a context key twice keeps the second value. */
  lemma OverwrittenTwice(context: map<string, ContextValue>, key: string, first: ContextValue, second: ContextValue)
    ensures context[key := first][key := second] == context[key := second]
  {
  }

  /** One login submits the form once. */
  lemma LoginSubmitsOnce(username: string, password: string)
    ensures Submissions(LoginActions(username, password)) == 1
  {
    var login := LoginActions(username, password);
    var typed := [TypeInto(UsernameField, username)];
    assert typed[..0] == [];
    assert Submissions(typed) == 0;
    assert login[..2][..1] == typed;
    assert Submissions(login[..2]) == 0;
    assert login[..2] == login[..|login| - 1];
  }

  /** The actions of the first `k` rounds of the repeated-login step: a login
      each round, then, in every round but the last, a trip back to the
      login page when the form no longer shows after that round (the round
      is in `leftForm`). */
  function AttemptActions(k: nat, attempts: int, username: string, password: string,
                          leftForm: set<nat>, loginUrl: string): seq<Action>
  {
    if k == 0 then []
    else
      AttemptActions(k - 1, attempts, username, password, leftForm, loginUrl)
      + RoundActions(k - 1, attempts, username, password, leftForm, loginUrl)
  }

  /** The actions of round `k`: one login, then the way back to the login
      page when the round is not the last and the form is gone. */
  function RoundActions(k: nat, attempts: int, username: string, password: string,
                        leftForm: set<nat>, loginUrl: string): seq<Action>
  {
    LoginActions(username, password) + (if k < attempts - 1 && k in leftForm then [Navigate(loginUrl)] else [])
  }

  /** The first round, from `j` on, after which the way back to the login
      page is needed: the first non-final round in `leftForm`, or
      `attempts - 1` when there is none. */
  function FirstExit(leftForm: set<nat>, attempts: int, j: nat): (k: nat)
    decreases attempts - j
    ensures j <= k
    ensures forall m: nat :: j <= m < k ==> m !in leftForm
    ensures k < attempts - 1 ==> k in leftForm
    ensures j <= attempts - 1 ==> k <= attempts - 1
  {
    if j >= attempts - 1 || j in leftForm then j else FirstExit(leftForm, attempts, j + 1)
  }

  /** One more round appends that round's actions. */
  lemma AttemptActionsGrow(prefix: seq<Action>, k: nat, attempts: int, username: string, password: string,
                           leftForm: set<nat>, loginUrl: string)
    ensures prefix + AttemptActions(k + 1, attempts, username, password, leftForm, loginUrl)
            == prefix + AttemptActions(k, attempts, username, password, leftForm, loginUrl)
               + RoundActions(k, attempts, username, password, leftForm, loginUrl)
  {
  }

  /** Every round submits the form exactly once. */
  lemma {:induction false} EachAttemptSubmitsOnce(k: nat, attempts: int, username: string, password: string,
                                                  leftForm: set<nat>, loginUrl: string)
    ensures Submissions(AttemptActions(k, attempts, username, password, leftForm, loginUrl)) == k
  {
    if k > 0 {
      var before := AttemptActions(k - 1, attempts, username, password, leftForm, loginUrl);
      var back: seq<Action> := if k - 1 < attempts - 1 && k - 1 in leftForm then [Navigate(loginUrl)] else [];
      EachAttemptSubmitsOnce(k - 1, attempts, username, password, leftForm, loginUrl);
      SubmissionsAppend(before, LoginActions(username, password));
      SubmissionsAppend(before + LoginActions(username, password), back);
      assert AttemptActions(k, attempts, username, password, leftForm, loginUrl)
             == before + LoginActions(username, password) + back;
      LoginSubmitsOnce(username, password);
      assert Submissions(back) == 0 by {
        if back != [] {
          assert back[..0] == [];
        }
      }
    }
  }

  /** The failed-attempt count as the lockout steps read it: a missing entry
      is 0, and an entry that is not an int fails the cast. */
  function RecordedFailedAttempts(context: map<string, ContextValue>): (r: Result<int, StepError>)
    ensures "failedAttempts" !in context ==> r == Success(0)
    ensures "failedAttempts" in context ==>
              (r.Success? <==> context["failedAttempts"].CtxInt?)
              && (r.Success? ==> r.value == context["failedAttempts"].n)
              && (r.Failure? ==> r.error == InvalidCast)
  {
    if "failedAttempts" !in context then Success(0)
    else match context["failedAttempts"]
      case CtxInt(n) => Success(n)
      case CtxText(_) => Failure(InvalidCast)
  }

  /** The text Object.ToString gives for a context value. */
  function ContextText(v: ContextValue): string {
    match v
    case CtxInt(n) => IntText(n)
    case CtxText(s) => s
  }

  /** FluentAssertions' Contain: an empty expected text is refused. */
  function ShouldContain(actual: string, expected: string, because: string): (r: Result<(), StepError>)
    ensures r.Success? <==> expected != "" && Contains(actual, expected)
  {
    if expected == "" || !Contains(actual, expected) then Failure(AssertionFailed(because)) else Success(())
  }

  class LoginSteps {
    const loginPage: LoginPage
    const testData: TestDataManager
    /** The deserialiser GetUserCredentials applies to a users entry. */
    const decodeCredentials: JsonValue -> Option<map<string, string>>
    var failedAttempts: int
    /** The scenario context entries this step class writes and reads. */
    var context: map<string, ContextValue>

    constructor (loginPage: LoginPage, testData: TestDataManager,
                 decodeCredentials: JsonValue -> Option<map<string, string>>)
      ensures this.loginPage == loginPage && this.testData == testData
      ensures this.decodeCredentials == decodeCredentials
      ensures failedAttempts == 0 && context == map[]
    {
      this.loginPage := loginPage;
      this.testData := testData;
      this.decodeCredentials := decodeCredentials;
      failedAttempts := 0;
      context := map[];
    }

    /** GivenIAmOnTheLoginPage: open the login address, then require the
        login form to show (`loaded` is the page afterwards). */
    method GivenIAmOnTheLoginPage(isAbsoluteUri: bool, loaded: PageView) returns (r: Result<(), StepError>)
      modifies loginPage.driver`actions
      ensures var url := LoginUrl(testData.environment);
              && (!isAbsoluteUri ==>
                    r == Failure(NavigationFailed(InvalidUrlFormat(url)))
                    && loginPage.driver.actions == old(loginPage.driver.actions))
              && (isAbsoluteUri ==>
                    loginPage.driver.actions == old(loginPage.driver.actions) + [Navigate(url)]
                    && (r.Success? <==> IsLoginPageLoaded(loaded)))
    {
      var url := LoginUrl(testData.environment);
      LoginUrlOpenedVerbatim(testData.environment);
      var nav := loginPage.NavigateTo(url, isAbsoluteUri);
      if nav.Failure? {
        return Failure(NavigationFailed(nav.error));
      }
      if !IsLoginPageLoaded(loaded) {
        return Failure(AssertionFailed("Login page should be loaded"));
      }
      r := Success(());
    }

    /** Types the username and password of a users entry; a missing key
        throws when it is read, so a missing password comes after the
        username has been typed. */
    method EnterCredentials(userType: string) returns (r: Result<(string, string), StepError>)
      modifies loginPage.driver`actions
      ensures var creds := testData.GetUserCredentials(userType, decodeCredentials);
              && ("username" !in creds ==>
                    r == Failure(MissingCredential("username"))
                    && loginPage.driver.actions == old(loginPage.driver.actions))
              && ("username" in creds && "password" !in creds ==>
                    r == Failure(MissingCredential("password"))
                    && loginPage.driver.actions == old(loginPage.driver.actions) + [TypeInto(UsernameField, creds["username"])])
              && ("username" in creds && "password" in creds ==>
                    r == Success((creds["username"], creds["password"]))
                    && loginPage.driver.actions == old(loginPage.driver.actions)
                         + [TypeInto(UsernameField, creds["username"]), TypeInto(PasswordField, creds["password"])])
    {
      var creds := testData.GetUserCredentials(userType, decodeCredentials);
      if "username" !in creds {
        return Failure(MissingCredential("username"));
      }
      loginPage.EnterUsername(creds["username"]);
      if "password" !in creds {
        return Failure(MissingCredential("password"));
      }
      loginPage.EnterPassword(creds["password"]);
      r := Success((creds["username"], creds["password"]));
    }

    /** WhenIEnterValidUsernameAndPassword: the "validUser" credentials are
        typed and the username is remembered in the context. */
    method WhenIEnterValidUsernameAndPassword() returns (r: Result<(), StepError>)
      modifies this, loginPage.driver`actions
      ensures failedAttempts == old(failedAttempts)
      ensures var creds := testData.GetUserCredentials("validUser", decodeCredentials);
              && (r.Success? <==> "username" in creds && "password" in creds)
              && (r.Success? ==>
                    context == old(context)["username" := CtxText(creds["username"])]
                    && loginPage.driver.actions == old(loginPage.driver.actions)
                         + [TypeInto(UsernameField, creds["username"]), TypeInto(PasswordField, creds["password"])])
              && (r.Failure? ==> context == old(context))
              && ("username" !in creds ==> loginPage.driver.actions == old(loginPage.driver.actions))
              && ("username" in creds && "password" !in creds ==>
                    loginPage.driver.actions == old(loginPage.driver.actions) + [TypeInto(UsernameField, creds["username"])])
    {
      var entered := EnterCredentials("validUser");
      if entered.Failure? {
        return Failure(entered.error);
      }
      context := context["username" := CtxText(entered.value.0)];
      r := Success(());
    }

    /** WhenIEnterInvalidUsernameAndPassword: the "invalidUser" credentials
        are typed; nothing is remembered. */
    method WhenIEnterInvalidUsernameAndPassword() returns (r: Result<(), StepError>)
      modifies loginPage.driver`actions
      ensures var creds := testData.GetUserCredentials("invalidUser", decodeCredentials);
              && (r.Success? <==> "username" in creds && "password" in creds)
              && (r.Success? ==>
                    loginPage.driver.actions == old(loginPage.driver.actions)
                      + [TypeInto(UsernameField, creds["username"]), TypeInto(PasswordField, creds["password"])])
              && ("username" !in creds ==> loginPage.driver.actions == old(loginPage.driver.actions))
              && ("username" in creds && "password" !in creds ==>
                    loginPage.driver.actions == old(loginPage.driver.actions) + [TypeInto(UsernameField, creds["username"])])
    {
      var entered := EnterCredentials("invalidUser");
      if entered.Failure? {
        return Failure(entered.error);
      }
      r := Success(());
    }

    /** WhenIEnterUsernameAndPassword: the step's texts, with "empty" read as
        an empty field. */
    method WhenIEnterUsernameAndPassword(username: string, password: string)
      modifies loginPage.driver`actions
      ensures loginPage.driver.actions == old(loginPage.driver.actions)
                + [TypeInto(UsernameField, Substituted(username)), TypeInto(PasswordField, Substituted(password))]
    {
      loginPage.EnterUsername(Substituted(username));
      loginPage.EnterPassword(Substituted(password));
    }

    /** WhenIEnterInvalidCredentialsTimes: `attempts` rounds of typing the
        "invalidUser" credentials and submitting, each counted in the field
        and copied into the context. Between rounds, a page that no longer
        shows the form (round i in `leftForm`) is left for the
        login address, and a refused address ends the step. */
    method WhenIEnterInvalidCredentialsTimes(attempts: int, leftForm: set<nat>, isAbsoluteUri: bool)
      returns (r: Result<(), StepError>)
      modifies this, loginPage.driver`actions
      ensures attempts <= 0 ==>
                r == Success(()) && failedAttempts == old(failedAttempts) && context == old(context)
                && loginPage.driver.actions == old(loginPage.driver.actions)
      ensures var creds := testData.GetUserCredentials("invalidUser", decodeCredentials);
              attempts > 0 && "username" !in creds ==>
                r == Failure(MissingCredential("username"))
                && failedAttempts == old(failedAttempts) && context == old(context)
                && loginPage.driver.actions == old(loginPage.driver.actions)
      ensures var creds := testData.GetUserCredentials("invalidUser", decodeCredentials);
              attempts > 0 && "username" in creds && "password" !in creds ==>
                r == Failure(MissingCredential("password"))
                && failedAttempts == old(failedAttempts) && context == old(context)
                && loginPage.driver.actions == old(loginPage.driver.actions) + [TypeInto(UsernameField, creds["username"])]
      ensures var creds := testData.GetUserCredentials("invalidUser", decodeCredentials);
              attempts > 0 && "username" in creds && "password" in creds
              && (isAbsoluteUri || forall j: nat :: j < attempts - 1 ==> j !in leftForm) ==>
                r == Success(())
                && failedAttempts == old(failedAttempts) + attempts
                && context == old(context)["failedAttempts" := CtxInt(failedAttempts)]
                && loginPage.driver.actions == old(loginPage.driver.actions)
                     + AttemptActions(attempts, attempts, creds["username"], creds["password"],
                                      leftForm, LoginUrl(testData.environment))
      ensures var creds := testData.GetUserCredentials("invalidUser", decodeCredentials);
              attempts > 0 && "username" in creds && "password" in creds
              && !isAbsoluteUri && (exists j: nat :: j < attempts - 1 && j in leftForm) ==>
                r.Failure?
                && old(failedAttempts) < failedAttempts < old(failedAttempts) + attempts
                && context == old(context)["failedAttempts" := CtxInt(failedAttempts)]
                && failedAttempts == old(failedAttempts) + FirstExit(leftForm, attempts, 0) + 1
                && loginPage.driver.actions == old(loginPage.driver.actions)
                     + AttemptActions(FirstExit(leftForm, attempts, 0), attempts, creds["username"], creds["password"],
                                      leftForm, LoginUrl(testData.environment))
                     + LoginActions(creds["username"], creds["password"])
    {
      if attempts <= 0 {
        return Success(());
      }
      var creds := testData.GetUserCredentials("invalidUser", decodeCredentials);
      if "username" !in creds {
        return Failure(MissingCredential("username"));
      }
      if "password" !in creds {
        loginPage.EnterUsername(creds["username"]);
        return Failure(MissingCredential("password"));
      }
      r := RepeatLogin(attempts, creds["username"], creds["password"], leftForm, isAbsoluteUri,
                       LoginUrl(testData.environment));
    }

    /** The rounds of WhenIEnterInvalidCredentialsTimes once both credential
        keys are known to be present; `url` is the login address. */
    method RepeatLogin(attempts: int, username: string, password: string, leftForm: set<nat>, isAbsoluteUri: bool,
                       url: string)
      returns (r: Result<(), StepError>)
      requires attempts > 0 && url == LoginUrl(testData.environment)
      modifies this, loginPage.driver`actions
      ensures (isAbsoluteUri || forall j: nat :: j < attempts - 1 ==> j !in leftForm) ==>
                r == Success(())
                && failedAttempts == old(failedAttempts) + attempts
                && context == old(context)["failedAttempts" := CtxInt(failedAttempts)]
                && loginPage.driver.actions == old(loginPage.driver.actions)
                     + AttemptActions(attempts, attempts, username, password, leftForm, url)
      ensures !isAbsoluteUri && (exists j: nat :: j < attempts - 1 && j in leftForm) ==>
                r.Failure?
                && old(failedAttempts) < failedAttempts < old(failedAttempts) + attempts
                && context == old(context)["failedAttempts" := CtxInt(failedAttempts)]
                && failedAttempts == old(failedAttempts) + FirstExit(leftForm, attempts, 0) + 1
                && loginPage.driver.actions == old(loginPage.driver.actions)
                     + AttemptActions(FirstExit(leftForm, attempts, 0), attempts, username, password, leftForm, url)
                     + LoginActions(username, password)
    {
      var i := 0;
      while i < attempts
        invariant 0 <= i <= attempts
        invariant failedAttempts == old(failedAttempts) + i
        invariant context == if i == 0 then old(context) else old(context)["failedAttempts" := CtxInt(failedAttempts)]
        invariant loginPage.driver.actions
                    == old(loginPage.driver.actions) + AttemptActions(i, attempts, username, password, leftForm, url)
        invariant forall j: nat :: j < i && j < attempts - 1 ==> isAbsoluteUri || j !in leftForm
      {
        ghost var previous := failedAttempts;
        var played := PlayRound(i, attempts, username, password, leftForm, isAbsoluteUri, url);
        if i > 0 {
          OverwrittenTwice(old(context), "failedAttempts", CtxInt(previous), CtxInt(failedAttempts));
        }
        if played.Failure? {
          assert FirstExit(leftForm, attempts, 0) == i;
          return played;
        }
        AttemptActionsGrow(old(loginPage.driver.actions), i, attempts, username, password, leftForm, url);
        i := i + 1;
      }
      r := Success(());
    }

    /** Round i: one login, then, when it is not the last round and the
        form is gone, the way back to the login page. */
    method PlayRound(i: nat, attempts: int, username: string, password: string, leftForm: set<nat>, isAbsoluteUri: bool,
                     url: string)
      returns (r: Result<(), StepError>)
      requires url == LoginUrl(testData.environment)
      modifies this`failedAttempts, this`context, loginPage.driver`actions
      ensures failedAttempts == old(failedAttempts) + 1
      ensures context == old(context)["failedAttempts" := CtxInt(failedAttempts)]
      ensures r.Success? <==> isAbsoluteUri || !(i < attempts - 1 && i in leftForm)
      ensures r.Failure? ==>
                r.error.NavigationFailed?
                && loginPage.driver.actions == old(loginPage.driver.actions) + LoginActions(username, password)
      ensures r.Success? ==>
                loginPage.driver.actions
                  == old(loginPage.driver.actions) + RoundActions(i, attempts, username, password, leftForm, url)
    {
      loginPage.Login(username, password);
      failedAttempts := failedAttempts + 1;
      context := context["failedAttempts" := CtxInt(failedAttempts)];
      if i < attempts - 1 && i in leftForm {
        r := ReturnToLoginPage(isAbsoluteUri);
      } else {
        r := Success(());
      }
    }

    /** Opens the login address again between rounds. */
    method ReturnToLoginPage(isAbsoluteUri: bool) returns (r: Result<(), StepError>)
      modifies loginPage.driver`actions
      ensures r.Success? <==> isAbsoluteUri
      ensures r.Failure? ==> r.error.NavigationFailed? && loginPage.driver.actions == old(loginPage.driver.actions)
      ensures r.Success? ==>
                loginPage.driver.actions == old(loginPage.driver.actions) + [Navigate(LoginUrl(testData.environment))]
    {
      var url := LoginUrl(testData.environment);
      LoginUrlOpenedVerbatim(testData.environment);
      var nav := loginPage.NavigateTo(url, isAbsoluteUri);
      if nav.Failure? {
        return Failure(NavigationFailed(nav.error));
      }
      r := Success(());
    }

    /** ThenMyAccountShouldBeLocked: both sides of the threshold require the
        error message to show, so the count only has to be readable. */
    function ThenMyAccountShouldBeLocked(view: PageView): (r: Result<(), StepError>)
      reads this
      ensures r.Success? <==> RecordedFailedAttempts(context).Success? && IsErrorMessageDisplayed(view)
    {
      var recorded := RecordedFailedAttempts(context);
      if recorded.Failure? then Failure(recorded.error)
      else if recorded.value >= LockoutThreshold then
        if IsErrorMessageDisplayed(view) then Success(())
        else Failure(AssertionFailed("Error message should be displayed after multiple failed attempts"))
      else if IsErrorMessageDisplayed(view) then Success(())
      else Failure(AssertionFailed("Error message should be displayed"))
    }

    /** ThenIShouldSeeALockoutMessage: the error message is read first; with
        at least three recorded attempts any non-empty message passes,
        below that it must mention "locked". */
    function ThenIShouldSeeALockoutMessage(view: PageView): (r: Result<(), StepError>)
      reads this
      ensures !IsErrorMessageDisplayed(view) ==> r == Failure(PageQueryFailed(ElementNotFound(ErrorMessage)))
      ensures IsErrorMessageDisplayed(view) && RecordedFailedAttempts(context).Failure? ==> r == Failure(InvalidCast)
      ensures IsErrorMessageDisplayed(view) && RecordedFailedAttempts(context).Success? ==>
                var n := RecordedFailedAttempts(context).value;
                var message := TextOf(view, ErrorMessage);
                && (n >= LockoutThreshold ==> (r.Success? <==> message != ""))
                && (n < LockoutThreshold ==> (r.Success? <==> Contains(message, "locked")))
    {
      match GetErrorMessage(view)
      case Failure(e) => Failure(PageQueryFailed(e))
      case Success(message) =>
        var recorded := RecordedFailedAttempts(context);
        if recorded.Failure? then Failure(recorded.error)
        else if recorded.value >= LockoutThreshold then
          if message != "" then Success(()) else Failure(AssertionFailed("Error message should be displayed"))
        else ShouldContain(message, "locked", "Lockout message should be displayed")
    }

    /** ThenIShouldSeeAWelcomeMessage: the user must be logged in and the
        welcome message non-empty; on the test site it must say "logged
        into", elsewhere it must contain the remembered username, if any. */
    function ThenIShouldSeeAWelcomeMessage(view: PageView): (r: Result<(), StepError>)
      reads this
      ensures r.Success? ==> IsUserLoggedIn(view) && WelcomeMessage(view) != ""
      ensures Contains(BaseUrl(testData.environment), TestSiteHost) ==>
                (r.Success? <==> IsUserLoggedIn(view) && Contains(WelcomeMessage(view), "logged into"))
      ensures !Contains(BaseUrl(testData.environment), TestSiteHost) && "username" in context ==>
                (r.Success? <==> IsUserLoggedIn(view) && WelcomeMessage(view) != ""
                                 && ContextText(context["username"]) != ""
                                 && Contains(WelcomeMessage(view), ContextText(context["username"])))
      ensures !Contains(BaseUrl(testData.environment), TestSiteHost) && "username" !in context ==>
                (r.Success? <==> IsUserLoggedIn(view) && WelcomeMessage(view) != "")
    {
      if !IsUserLoggedIn(view) then Failure(AssertionFailed("User should be logged in"))
      else
        var message := WelcomeMessage(view);
        if message == "" then Failure(AssertionFailed("Welcome message should be displayed"))
        else if Contains(BaseUrl(testData.environment), TestSiteHost) then
          ShouldContain(message, "logged into", "Welcome message should indicate successful login")
        else if "username" in context then
          ShouldContain(message, ContextText(context["username"]), "Welcome message should contain username")
        else Success(())
    }
  }

  /** Passing the lockout-message check below the threshold implies passing
      it at or above: a message mentioning "locked" is non-empty. */
  lemma LockoutCheckWeakensWithAttempts(message: string)
    ensures Contains(message, "locked") ==> message != ""
  {
    if Contains(message, "locked") {
      var i: nat :| i <= |message| && OccursAt(message, "locked", i);
      assert message[i..i + 6] == "locked";
    }
  }

  /** On the test site the secure-area fallback text passes the welcome
      check. */
  lemma SecureAreaFallbackPasses()
    ensures Contains(SecureAreaFallback, "logged into")
  {
    assert SecureAreaFallback == "You " + "logged into" + " a secure area!";
    assert SecureAreaFallback[4..15] == "logged into";
    assert OccursAt(SecureAreaFallback, "logged into", 4);
  }

  /** Three invalid rounds on a fresh step instance record three attempts,
      so the lockout checks take their threshold branch. */
  method ThreeAttemptsReachLockout(steps: LoginSteps, leftForm: set<nat>)
    requires steps.failedAttempts == 0 && steps.context == map[]
    requires var creds := steps.testData.GetUserCredentials("invalidUser", steps.decodeCredentials);
             "username" in creds && "password" in creds
    modifies steps, steps.loginPage.driver`actions
    ensures RecordedFailedAttempts(steps.context) == Success(3)
    ensures Submissions(steps.loginPage.driver.actions) == Submissions(old(steps.loginPage.driver.actions)) + 3
  {
    ghost var before := steps.loginPage.driver.actions;
    var creds := steps.testData.GetUserCredentials("invalidUser", steps.decodeCredentials);
    var url := LoginUrl(steps.testData.environment);
    ghost var rounds := AttemptActions(3, 3, creds["username"], creds["password"], leftForm, url);
    var r := steps.WhenIEnterInvalidCredentialsTimes(3, leftForm, true);
    assert steps.loginPage.driver.actions == before + rounds;
    EachAttemptSubmitsOnce(3, 3, creds["username"], creds["password"], leftForm, url);
    SubmissionsAppend(before, rounds);
  }
}
