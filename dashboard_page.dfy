/** DashboardPage: the page object for the secure area reached after a
    login. Its queries are decision cascades over what the page shows; its
    navigation helpers click an element only when it is displayed. */
module DashboardPages {
  import opened Common
  import opened Drivers

  const WelcomeFlash: Locator := Css(".flash.success")
  const UserMenu: Locator := Id("user-menu")
  const LogoutButton: Locator := LinkText("Logout")
  const ProfileLink: Locator := LinkText("Profile")
  const SettingsLink: Locator := LinkText("Settings")
  /** The title and the secure-area header are located by the same selector. */
  const DashboardTitle: Locator := Css("h2")
  const SecureAreaHeader: Locator := Css("h2")
  const SecureAreaContent: Locator := Css("h4.subheader")

  const SecureAreaFallback: string := "You logged into a secure area!"
  const WelcomeFallback: string := "Welcome to the secure area!"
  const TitleFallback: string := "Secure Area"

  /** GetWelcomeMessage: the success flash wins; then the secure-area header,
      followed by " - " and the sub-header when that is shown; then a fixed
      text chosen by whether the address mentions "secure". */
  function WelcomeMessage(view: PageView): (m: string)
    ensures WelcomeFlash in view.visible ==> m == TextOf(view, WelcomeFlash)
    ensures WelcomeFlash !in view.visible && SecureAreaHeader in view.visible ==>
              var header := TextOf(view, SecureAreaHeader);
              |header| <= |m| && m[..|header|] == header
              && (SecureAreaContent in view.visible ==> m[|header|..] == " - " + TextOf(view, SecureAreaContent))
              && (SecureAreaContent !in view.visible ==> m == header)
    ensures WelcomeFlash !in view.visible && SecureAreaHeader !in view.visible ==>
              (m == SecureAreaFallback <==> Contains(view.url, "secure"))
              && (m == WelcomeFallback <==> !Contains(view.url, "secure"))
  {
    if WelcomeFlash in view.visible then TextOf(view, WelcomeFlash)
    else if SecureAreaHeader in view.visible then
      var header := TextOf(view, SecureAreaHeader);
      if SecureAreaContent in view.visible then
        var m := header + " - " + TextOf(view, SecureAreaContent);
        assert m[..|header|] == header;
        assert m[|header|..] == " - " + TextOf(view, SecureAreaContent);
        m
      else header
    else if Contains(view.url, "secure") then SecureAreaFallback
    else WelcomeFallback
  }

  /** GetDashboardTitle: the title text when displayed, then the header text
      when displayed, else "Secure Area". */
  function DashboardTitleText(view: PageView): string {
    if DashboardTitle in view.visible then TextOf(view, DashboardTitle)
    else if SecureAreaHeader in view.visible then TextOf(view, SecureAreaHeader)
    else TitleFallback
  }

  /** The header branch can never be taken: both branches test the same
      selector, so the title is the h2 text or the fixed fallback. */
  lemma DashboardTitleHasTwoOutcomes(view: PageView)
    ensures DashboardTitleText(view) == if Css("h2") in view.visible then TextOf(view, Css("h2")) else TitleFallback
  {
  }

  /** IsDashboardLoaded: the header, the title or the user menu is
      displayed, or the address mentions "secure". */
  predicate IsDashboardLoaded(view: PageView) {
    SecureAreaHeader in view.visible || DashboardTitle in view.visible || UserMenu in view.visible
    || Contains(view.url, "secure")
  }

  /** IsUserLoggedIn: the flash or the header is displayed, the address
      mentions "secure", or the page title (when it can be read) mentions
      "Secure Area" or "secure". */
  predicate IsUserLoggedIn(view: PageView) {
    || WelcomeFlash in view.visible || SecureAreaHeader in view.visible
    || Contains(view.url, "secure")
    || (view.title.Some? && (Contains(view.title.value, "Secure Area") || Contains(view.title.value, "secure")))
  }

  /** A welcome message other than the last fallback comes from evidence
      that also makes IsUserLoggedIn hold. */
  lemma WelcomeMeansLoggedIn(view: PageView)
    ensures WelcomeMessage(view) != WelcomeFallback ==> IsUserLoggedIn(view)
  {
  }

  /** A loaded dashboard shows a logged-in user unless the user menu alone
      made it count as loaded. */
  lemma LoadedMeansLoggedIn(view: PageView)
    ensures IsDashboardLoaded(view) && UserMenu !in view.visible ==> IsUserLoggedIn(view)
    ensures IsDashboardLoaded(view) <==> Css("h2") in view.visible || UserMenu in view.visible || Contains(view.url, "secure")
  {
  }

  /** The page title is consulted last: a title that cannot be read only
      matters when nothing else shows the user is logged in. */
  lemma UnreadableTitle(view: PageView)
    requires view.title.None?
    ensures IsUserLoggedIn(view) <==>
              WelcomeFlash in view.visible || SecureAreaHeader in view.visible || Contains(view.url, "secure")
  {
  }

  /** The clicks a click-if-displayed helper performs. */
  function ClickIfDisplayed(view: PageView, element: Locator): (clicks: seq<Action>)
    ensures clicks == [] || clicks == [Click(element)]
    ensures clicks != [] <==> element in view.visible
  {
    if element in view.visible then [Click(element)] else []
  }

  class DashboardPage {
    const driver: Session

    constructor (driver: Session)
      ensures this.driver == driver
    {
      this.driver := driver;
    }

    /** ClickUserMenu: one click on the menu when it is displayed, nothing
        otherwise. */
    method ClickUserMenu(view: PageView)
      modifies driver`actions
      ensures driver.actions == old(driver.actions) + ClickIfDisplayed(view, UserMenu)
    {
      if UserMenu in view.visible {
        driver.actions := driver.actions + [Click(UserMenu)];
      }
    }

    method Logout(view: PageView)
      modifies driver`actions
      ensures driver.actions == old(driver.actions) + ClickIfDisplayed(view, LogoutButton)
    {
      if LogoutButton in view.visible {
        driver.actions := driver.actions + [Click(LogoutButton)];
      }
    }

    /** GoToProfile: the menu as ClickUserMenu does (page as `before`), then
        the profile link when it shows (page as `afterMenu`). */
    method GoToProfile(before: PageView, afterMenu: PageView)
      modifies driver`actions
      ensures driver.actions == old(driver.actions) + ClickIfDisplayed(before, UserMenu) + ClickIfDisplayed(afterMenu, ProfileLink)
    {
      ClickUserMenu(before);
      if ProfileLink in afterMenu.visible {
        driver.actions := driver.actions + [Click(ProfileLink)];
      }
    }

    method GoToSettings(before: PageView, afterMenu: PageView)
      modifies driver`actions
      ensures driver.actions == old(driver.actions) + ClickIfDisplayed(before, UserMenu) + ClickIfDisplayed(afterMenu, SettingsLink)
    {
      ClickUserMenu(before);
      if SettingsLink in afterMenu.visible {
        driver.actions := driver.actions + [Click(SettingsLink)];
      }
    }
  }
}
