/** LoginPage: the page object for the login form. Navigation validates the
    address and, for the public test site, steers it to the login path; the
    load and accessibility checks are boolean rules over what the page shows.
    Typing and clicking are recorded as session actions. */
module LoginPages {
  import opened Common
  import opened Drivers

  const UsernameField: Locator := Id("username")
  const PasswordField: Locator := Id("password")
  const LoginButton: Locator := Css("button[type='submit']")
  const ErrorMessage: Locator := Id("flash")
  const ForgotPasswordLink: Locator := LinkText("Forgot Password?")
  const UsernameLabel: Locator := Css("label[for='username']")
  const PasswordLabel: Locator := Css("label[for='password']")

  /** The public practice site the framework targets by default. */
  const TestSiteHost: string := "the-internet.herokuapp.com"
  const LoginPath: string := "/login"

  datatype PageError =
    | EmptyUrl                        // ArgumentException: URL cannot be null or empty
    | InvalidUrlFormat(url: string)   // ArgumentException: not an absolute URI
    | ElementNotFound(element: Locator)

  /** The address NavigateTo opens for an accepted URL: on the test site, a
      URL not already ending in "/login" loses its trailing slashes and gains
      "/login"; any other URL is used verbatim. */
  function LoginTarget(url: string): (target: string)
    ensures !Contains(url, TestSiteHost) ==> target == url
    ensures Contains(url, TestSiteHost) ==> EndsWith(target, LoginPath) && Contains(target, TestSiteHost)
    ensures EndsWith(url, LoginPath) ==> target == url
    ensures Contains(url, TestSiteHost) && !EndsWith(url, LoginPath) ==>
              var stem := target[..|target| - |LoginPath|];
              && |stem| <= |url| && url[..|stem|] == stem
              && (forall i :: |stem| <= i < |url| ==> url[i] == '/')
              && (stem == [] || stem[|stem| - 1] != '/')
  {
    if Contains(url, TestSiteHost) then
      if EndsWith(url, LoginPath) then url
      else
        var stem := TrimEnd(url, '/');
        ContainsSurvivesTrimEnd(url, TestSiteHost, '/');
        ContainsPrefix(stem, LoginPath, TestSiteHost);
        assert (stem + LoginPath)[..|stem|] == stem;
        stem + LoginPath
    else url
  }

  /** Rewriting is idempotent: an address NavigateTo produced is opened
      unchanged when it is given again. */
  lemma LoginTargetIdempotent(url: string)
    ensures LoginTarget(LoginTarget(url)) == LoginTarget(url)
  {
  }

  /** A base address with any number of trailing slashes reaches the same
      login page as the bare one. */
  lemma {:induction false} TrailingSlashesIgnored(base: string, slashes: nat)
    requires Contains(base, TestSiteHost) && base != [] && base[|base| - 1] != '/'
    requires !EndsWith(base, LoginPath)
    ensures LoginTarget(base + Repeat('/', slashes)) == base + LoginPath
  {
    var url := base + Repeat('/', slashes);
    ContainsPrefix(base, Repeat('/', slashes), TestSiteHost);
    TrimEndRepeat(base, slashes);
    if slashes > 0 {
      assert url[|url| - 1] == '/';
      assert !EndsWith(url, LoginPath) by {
        assert LoginPath[|LoginPath| - 1] == 'n';
      }
    } else {
      assert url == base;
    }
  }

  /** A login address with one trailing slash no longer ends in "/login",
      so the slash is dropped and "/login" is added a second time. */
  lemma LoginSlashDoubled(base: string)
    requires Contains(base, TestSiteHost) && EndsWith(base, LoginPath)
    ensures LoginTarget(base + "/") == base + LoginPath
  {
    var url := base + "/";
    assert base[|base| - 1] == LoginPath[|LoginPath| - 1] == 'n';
    ContainsPrefix(base, "/", TestSiteHost);
    assert !EndsWith(url, LoginPath) by {
      assert url[|url| - 1] == '/';
    }
    TrimEndRepeat(base, 1);
    assert Repeat('/', 1) == "/";
  }

  function Repeat(c: char, n: nat): (s: string)
    ensures |s| == n && forall i :: 0 <= i < n ==> s[i] == c
  {
    if n == 0 then [] else Repeat(c, n - 1) + [c]
  }

  lemma {:induction false} TrimEndRepeat(base: string, n: nat)
    requires base == [] || base[|base| - 1] != '/'
    ensures TrimEnd(base + Repeat('/', n), '/') == base
  {
    if n > 0 {
      assert (base + Repeat('/', n))[..|base| + n - 1] == base + Repeat('/', n - 1);
      TrimEndRepeat(base, n - 1);
    } else {
      assert base + Repeat('/', 0) == base;
    }
  }

  /** IsLoginPageLoaded: the username field, password field and login button
      are all displayed. */
  predicate IsLoginPageLoaded(view: PageView) {
    UsernameField in view.visible && PasswordField in view.visible && LoginButton in view.visible
  }

  /** HasAccessibleElements: the three controls must be found (otherwise the
      wait throws and the answer is false); each field needs an aria-label,
      a placeholder or a displayed label, and the button an aria-label or a
      text. */
  predicate HasAccessibleElements(view: PageView) {
    && IsLoginPageLoaded(view)
    && (HasAttribute(view, UsernameField, "aria-label") || HasAttribute(view, UsernameField, "placeholder")
        || UsernameLabel in view.visible)
    && (HasAttribute(view, PasswordField, "aria-label") || HasAttribute(view, PasswordField, "placeholder")
        || PasswordLabel in view.visible)
    && (HasAttribute(view, LoginButton, "aria-label") || TextOf(view, LoginButton) != "")
  }

  /** HasProperFormLabels: both fields found, and each with a displayed label
      or an aria-label; the button is not consulted. */
  predicate HasProperFormLabels(view: PageView) {
    && UsernameField in view.visible && PasswordField in view.visible
    && (UsernameLabel in view.visible || HasAttribute(view, UsernameField, "aria-label"))
    && (PasswordLabel in view.visible || HasAttribute(view, PasswordField, "aria-label"))
  }

  /** An accessible page is a loaded page. */
  lemma AccessibleIsLoaded(view: PageView)
    ensures HasAccessibleElements(view) ==> IsLoginPageLoaded(view)
  {
  }

  /** Proper labels plus a named, displayed button make the page accessible;
      the converse fails, since a placeholder alone makes a field accessible
      but not labelled. */
  lemma LabelsGiveAccessibility(view: PageView)
    ensures HasProperFormLabels(view) && LoginButton in view.visible
            && (HasAttribute(view, LoginButton, "aria-label") || TextOf(view, LoginButton) != "")
            ==> HasAccessibleElements(view)
    ensures var placeholders := PageView("", None, {UsernameField, PasswordField, LoginButton},
                                         map[LoginButton := "Login"],
                                         map[(UsernameField, "placeholder") := "Username",
                                             (PasswordField, "placeholder") := "Password"]);
            HasAccessibleElements(placeholders) && !HasProperFormLabels(placeholders)
  {
    var placeholders := PageView("", None, {UsernameField, PasswordField, LoginButton},
                                 map[LoginButton := "Login"],
                                 map[(UsernameField, "placeholder") := "Username",
                                     (PasswordField, "placeholder") := "Password"]);
    assert UsernameLabel != UsernameField && UsernameLabel != PasswordField && UsernameLabel != LoginButton;
    assert UsernameLabel !in placeholders.visible;
  }

  class LoginPage {
    const driver: Session

    constructor (driver: Session)
      ensures this.driver == driver
    {
      this.driver := driver;
    }

    /** NavigateTo: an empty URL, or one that is not an absolute URI
        (`isAbsoluteUri`), is refused before anything happens; otherwise the
        session opens LoginTarget(url). */
    method NavigateTo(url: string, isAbsoluteUri: bool) returns (r: Result<string, PageError>)
      modifies driver`actions
      ensures url == "" ==> r == Failure(EmptyUrl)
      ensures url != "" && !isAbsoluteUri ==> r == Failure(InvalidUrlFormat(url))
      ensures r.Failure? ==> driver.actions == old(driver.actions)
      ensures url != "" && isAbsoluteUri ==>
                r == Success(LoginTarget(url)) && driver.actions == old(driver.actions) + [Navigate(LoginTarget(url))]
    {
      if url == "" {
        return Failure(EmptyUrl);
      }
      if !isAbsoluteUri {
        return Failure(InvalidUrlFormat(url));
      }
      var target := LoginTarget(url);
      driver.actions := driver.actions + [Navigate(target)];
      r := Success(target);
    }

    method EnterUsername(username: string)
      modifies driver`actions
      ensures driver.actions == old(driver.actions) + [TypeInto(UsernameField, username)]
    {
      driver.actions := driver.actions + [TypeInto(UsernameField, username)];
    }

    method EnterPassword(password: string)
      modifies driver`actions
      ensures driver.actions == old(driver.actions) + [TypeInto(PasswordField, password)]
    {
      driver.actions := driver.actions + [TypeInto(PasswordField, password)];
    }

    method ClickLoginButton()
      modifies driver`actions
      ensures driver.actions == old(driver.actions) + [Click(LoginButton)]
    {
      driver.actions := driver.actions + [Click(LoginButton)];
    }

    /** Login: username, then password, then the button. */
    method Login(username: string, password: string)
      modifies driver`actions
      ensures driver.actions == old(driver.actions) + LoginActions(username, password)
    {
      EnterUsername(username);
      EnterPassword(password);
      ClickLoginButton();
    }

    /** ClickForgotPassword clicks the link only when it is displayed. */
    method ClickForgotPassword(view: PageView)
      modifies driver`actions
      ensures driver.actions == old(driver.actions) + (if ForgotPasswordLink in view.visible then [Click(ForgotPasswordLink)] else [])
    {
      if ForgotPasswordLink in view.visible {
        driver.actions := driver.actions + [Click(ForgotPasswordLink)];
      }
    }
  }

  /** The actions one login attempt performs. */
  function LoginActions(username: string, password: string): seq<Action> {
    [TypeInto(UsernameField, username), TypeInto(PasswordField, password), Click(LoginButton)]
  }

  /** GetErrorMessage: the flash text; waiting for a flash that never shows
      throws. */
  function GetErrorMessage(view: PageView): (r: Result<string, PageError>)
    ensures r.Success? <==> IsErrorMessageDisplayed(view)
    ensures r.Success? ==> r.value == TextOf(view, ErrorMessage)
  {
    if ErrorMessage in view.visible then Success(TextOf(view, ErrorMessage)) else Failure(ElementNotFound(ErrorMessage))
  }

  predicate IsErrorMessageDisplayed(view: PageView) {
    ErrorMessage in view.visible
  }
}
