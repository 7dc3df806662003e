/** DriverFactory: turns a browser choice into a live session handle. It
    caches the first session it builds and hands that same handle back for
    every later request, whatever browser is asked for. Chrome is acquired
    through a fallback chain (managed setup, then an already downloaded
    binary, then the library's own resolution). Disposal quits the cached
    session once. Whether each construction stage succeeds, the platform and
    the directory listings are inputs. */
module Drivers {
  import opened Common

  /** The BrowserType enum. A C# enum variable can also hold an integer with
      no name, which is what `Unnamed` stands for. */
  datatype BrowserType = Chrome | Firefox | Edge | Safari | Unnamed(code: int)

  /** The stages that can construct a session. */
  datatype Stage = Managed | ExistingBinary | Native

  datatype DriverError =
    | UnsupportedBrowserType(code: int)   // CreateDriver(BrowserType): no case for the value
    | InvalidBrowserName(name: string)    // CreateDriver(string): Enum.TryParse failed
    | UnsupportedBrowser(name: string)    // GetBrowserTypeFromString: no case for the name
    | InvalidHeadlessSetting(text: string) // bool.Parse of TestSettings:Headless failed
    | PlatformNotSupported                // Safari off macOS
    | StartFailed(stage: Stage)           // constructing the session at `stage` threw

  /** A browser preference or capability value. */
  datatype PrefValue = BoolPref(b: bool) | IntPref(i: int) | StringPref(s: string)

  /** A value bound from the FirefoxPreferences configuration section.
      `OtherValue` is any other non-null object, given by its ToString() text. */
  datatype ConfigValue = BoolValue(b: bool) | IntValue(i: int) | StringValue(s: string) | OtherValue(text: string) | NullValue

  /** A Selenium element locator (By.Id, By.CssSelector, By.LinkText). */
  datatype Locator = Id(id: string) | Css(selector: string) | LinkText(linkText: string)

  /** A browser action a page object performs through a session. */
  datatype Action = Navigate(url: string) | TypeInto(element: Locator, text: string) | Click(element: Locator)

  /** What a page shows when it is queried: its address, its title (None
      when reading it throws), the locators whose element becomes visible
      within the wait, the text of each element, and element attributes
      (a missing entry is a null attribute). */
  datatype PageView = PageView(
    url: string,
    title: Option<string>,
    visible: set<Locator>,
    texts: map<Locator, string>,
    attributes: map<(Locator, string), string>)

  /** IWebElement.Text of the element `locator` finds. */
  function TextOf(view: PageView, locator: Locator): string {
    if locator in view.texts then view.texts[locator] else ""
  }

  /** !string.IsNullOrEmpty(element.GetAttribute(name)). */
  predicate HasAttribute(view: PageView, locator: Locator, name: string) {
    (locator, name) in view.attributes && view.attributes[(locator, name)] != ""
  }

  /** What an options object holds once configured. */
  datatype OptionsValue = OptionsValue(
    arguments: seq<string>,
    excludedArguments: seq<string>,
    additionalOptions: map<string, PrefValue>,
    preferences: map<string, PrefValue>)

  /** A ChromeOptions / FirefoxOptions / EdgeOptions object. */
  class DriverOptions {
    var arguments: seq<string>
    var excludedArguments: seq<string>
    var additionalOptions: map<string, PrefValue>
    var preferences: map<string, PrefValue>

    constructor ()
      ensures Value() == OptionsValue([], [], map[], map[])
    {
      arguments := [];
      excludedArguments := [];
      additionalOptions := map[];
      preferences := map[];
    }

    function Value(): OptionsValue
      reads this
    {
      OptionsValue(arguments, excludedArguments, additionalOptions, preferences)
    }
  }

  /** A live browser automation session (an IWebDriver). */
  class Session {
    const browser: BrowserType
    /** The stage that built the session. */
    const stage: Stage
    /** The explicit driver binary it was bound to; "" when the driver
        manager or the library resolved the binary. */
    const binaryPath: string
    const options: DriverOptions
    var quit: bool
    var implicitWaitSeconds: int
    var pageLoadSeconds: int
    var maximized: bool
    /** Every navigation, keystroke and click performed, oldest first. */
    var actions: seq<Action>

    constructor (browser: BrowserType, stage: Stage, binaryPath: string, options: DriverOptions)
      ensures this.browser == browser && this.stage == stage
      ensures this.binaryPath == binaryPath && this.options == options
      ensures !quit && !maximized && actions == []
      ensures implicitWaitSeconds == 0 && pageLoadSeconds == 0
    {
      this.browser := browser;
      this.stage := stage;
      this.binaryPath := binaryPath;
      this.options := options;
      quit := false;
      maximized := false;
      actions := [];
      implicitWaitSeconds := 0;
      pageLoadSeconds := 0;
    }
  }

  // ---------------------------------------------------------------------
  // Browser names

  /** The lower-case name GetBrowserTypeFromString accepts for a browser. */
  function BrowserName(b: BrowserType): string {
    match b
    case Chrome => "chrome"
    case Firefox => "firefox"
    case Edge => "edge"
    case Safari => "safari"
    case Unnamed(_) => ""
  }

  /** DriverFactory.GetBrowserTypeFromString: the name, lowered, picks the
      browser; any other name throws. */
  function GetBrowserTypeFromString(browserName: string): Result<BrowserType, DriverError> {
    match ToLower(browserName)
    case "chrome" => Success(Chrome)
    case "firefox" => Success(Firefox)
    case "edge" => Success(Edge)
    case "safari" => Success(Safari)
    case _ => Failure(UnsupportedBrowser(browserName))
  }

  /** Exactly the four names, in any letter case, are accepted, each for
      the browser it names; any other name is refused with that name. */
  lemma GetBrowserTypeFromStringAccepts(browserName: string)
    ensures var r := GetBrowserTypeFromString(browserName);
            && (r.Success? <==> ToLower(browserName) in {"chrome", "firefox", "edge", "safari"})
            && (r.Success? ==> !r.value.Unnamed? && BrowserName(r.value) == ToLower(browserName))
            && (r.Failure? ==> r.error == UnsupportedBrowser(browserName))
  {
  }

  /** The enum's underlying value: the members are numbered in order. */
  function BrowserCode(b: BrowserType): int {
    match b
    case Chrome => 0
    case Firefox => 1
    case Edge => 2
    case Safari => 3
    case Unnamed(code) => code
  }

  /** The enum value an integer stands for: a member or an unnamed value. */
  function BrowserFromCode(code: int): (b: BrowserType)
    ensures BrowserCode(b) == code
    ensures b.Unnamed? <==> !(0 <= code <= 3)
  {
    if code == 0 then Chrome
    else if code == 1 then Firefox
    else if code == 2 then Edge
    else if code == 3 then Safari
    else Unnamed(code)
  }

  /** The bitwise OR of two of the enum's values, bit by bit: the low bit
      is set when either has it, and so is the high bit. */
  function FlagOr(a: int, b: int): (r: int)
    requires 0 <= a <= 3 && 0 <= b <= 3
    ensures 0 <= r <= 3 && a <= r && b <= r
    ensures b == 0 ==> r == a
  {
    (if a % 2 == 1 || b % 2 == 1 then 1 else 0) + (if a >= 2 || b >= 2 then 2 else 0)
  }

  /** FlagOr is the machine's OR on the two-bit values. */
  lemma FlagOrIsBitwiseOr(a: int, b: int)
    requires 0 <= a <= 3 && 0 <= b <= 3
    ensures FlagOr(a, b) == ((a as bv2) | (b as bv2)) as int
  {
    if a == 0 {
      if b == 0 {} else if b == 1 {} else if b == 2 {} else {}
    } else if a == 1 {
      if b == 0 {} else if b == 1 {} else if b == 2 {} else {}
    } else if a == 2 {
      if b == 0 {} else if b == 1 {} else if b == 2 {} else {}
    } else {
      if b == 0 {} else if b == 1 {} else if b == 2 {} else {}
    }
  }

  /** The value of one comma-separated piece: a member name once trimmed,
      compared ignoring case. */
  function NameFlag(piece: string): (r: Option<int>)
    ensures r.Some? <==> ToLower(Trim(piece)) in {"chrome", "firefox", "edge", "safari"}
    ensures r.Some? ==> 0 <= r.value <= 3 && BrowserName(BrowserFromCode(r.value)) == ToLower(Trim(piece))
  {
    var l := ToLower(Trim(piece));
    if l == "chrome" then Some(0)
    else if l == "firefox" then Some(1)
    else if l == "edge" then Some(2)
    else if l == "safari" then Some(3)
    else None
  }

  /** The OR of every piece's value, or nothing when some piece names no member. */
  function CombineFlags(pieces: seq<string>): (r: Option<int>)
    ensures r.Some? ==> 0 <= r.value <= 3
    ensures r.None? <==> exists i :: 0 <= i < |pieces| && NameFlag(pieces[i]).None?
  {
    if pieces == [] then Some(0)
    else
      match NameFlag(pieces[0])
      case None => None
      case Some(f) =>
        match CombineFlags(pieces[1..])
        case None => None
        case Some(g) => Some(FlagOr(f, g))
  }

  /** Enum.TryParse<BrowserType>(name, ignoreCase: true): blank text fails;
      text whose first non-blank character is a digit or a sign is an
      integer, named or not; anything else is a comma-separated list of
      member names whose values are ORed together. */
  function TryParseBrowserType(browserName: string): (r: Option<BrowserType>)
    ensures Trim(browserName) == [] ==> r.None?
    ensures r.Some? && r.value.Unnamed? ==> ParseInt(Trim(browserName)) == Some(r.value.code)
  {
    var lead := TrimLeading(browserName);
    if lead == [] then None
    else if IsDigit(lead[0]) || lead[0] == '-' || lead[0] == '+' then
      match ParseInt(Trim(browserName))
      case Some(v) => Some(BrowserFromCode(v))
      case None => None
    else
      match CombineFlags(Split(browserName, ','))
      case Some(f) => Some(BrowserFromCode(f))
      case None => None
  }

  /** A piece that is a member's name once trimmed and lowered has that
      member's value, and starts with a letter rather than a digit or sign. */
  lemma NamedPiece(piece: string, b: BrowserType)
    requires !b.Unnamed? && ToLower(Trim(piece)) == BrowserName(b)
    ensures NameFlag(piece) == Some(BrowserCode(b))
    ensures var t := Trim(piece); t != [] && !IsDigit(t[0]) && t[0] != '-' && t[0] != '+'
    ensures TrimLeading(piece) != [] && TrimLeading(piece)[0] == Trim(piece)[0]
  {
    var t := Trim(piece);
    assert ToLower(t)[0] == LowerChar(t[0]);
    assert 'a' <= ToLower(t)[0] <= 'z';
  }

  /** Text without a comma is a single piece. */
  lemma SinglePiece(browserName: string)
    requires ',' !in browserName
    ensures CombineFlags(Split(browserName, ',')) == NameFlag(browserName)
  {
    assert Split(browserName, ',')[1..] == [];
  }

  /** One comma between two comma-free texts makes two pieces. */
  lemma TwoPieces(first: string, second: string)
    requires ',' !in first && ',' !in second
    ensures Split(first + "," + second, ',') == [first, second]
  {
    SplitAtFirst(first, ',', second);
    assert first + [','] + second == first + "," + second;
  }

  lemma CombineTwo(first: string, second: string, f: int, g: int)
    requires NameFlag(first) == Some(f) && NameFlag(second) == Some(g)
    ensures CombineFlags([first, second]) == Some(FlagOr(f, FlagOr(g, 0)))
  {
    assert [second][1..] == [];
    assert CombineFlags([second]) == Some(FlagOr(g, 0));
    assert [first, second][1..] == [second];
  }

  /** A list that starts with a non-blank piece starts with that piece's
      first non-blank character. */
  lemma ListStartsWithFirst(first: string, second: string)
    requires TrimLeading(first) != []
    ensures TrimLeading(first + "," + second) != [] && TrimLeading(first + "," + second)[0] == TrimLeading(first)[0]
  {
    TrimLeadingAppend(first, [','] + second);
    assert first + ([','] + second) == first + "," + second;
  }

  /** A single word that is not an integer parses exactly when, trimmed
      and compared ignoring case, it is a member's name, and then to that
      member. */
  lemma TryParseSingleName(browserName: string)
    requires ',' !in browserName
    requires var t := Trim(browserName); t != [] && !IsDigit(t[0]) && t[0] != '-' && t[0] != '+'
    ensures var r := TryParseBrowserType(browserName);
            && (r.Some? <==> ToLower(Trim(browserName)) in {"chrome", "firefox", "edge", "safari"})
            && (r.Some? ==> !r.value.Unnamed? && BrowserName(r.value) == ToLower(Trim(browserName)))
  {
    TrimKeepsFirst(browserName);
    SinglePiece(browserName);
  }

  /** A list of two member names parses to the member whose value is the
      OR of theirs. */
  lemma TryParseNameList(first: string, second: string, a: BrowserType, b: BrowserType)
    requires ',' !in first && ',' !in second
    requires !a.Unnamed? && ToLower(Trim(first)) == BrowserName(a)
    requires !b.Unnamed? && ToLower(Trim(second)) == BrowserName(b)
    ensures TryParseBrowserType(first + "," + second) == Some(BrowserFromCode(FlagOr(BrowserCode(a), BrowserCode(b))))
  {
    NamedPiece(first, a);
    NamedPiece(second, b);
    TwoPieces(first, second);
    CombineTwo(first, second, BrowserCode(a), BrowserCode(b));
    ListStartsWithFirst(first, second);
  }

  /** "Firefox,Edge", in any letter case and spacing, names neither
      browser: 1 OR 2 is 3, which is Safari. */
  lemma TryParseFirefoxEdge(first: string, second: string)
    requires ',' !in first && ',' !in second
    requires ToLower(Trim(first)) == "firefox" && ToLower(Trim(second)) == "edge"
    ensures TryParseBrowserType(first + "," + second) == Some(Safari)
  {
    TryParseNameList(first, second, Firefox, Edge);
  }

  /** Text that starts like an integer is read as one, trimmed: in range it
      gives the enum value with that code, named or not ("7" is unnamed,
      " 2 " is Edge); otherwise the parse fails. */
  lemma TryParseInteger(browserName: string)
    requires var t := Trim(browserName); t != [] && (IsDigit(t[0]) || t[0] == '-' || t[0] == '+')
    ensures ParseInt(Trim(browserName)).Some? ==>
              TryParseBrowserType(browserName) == Some(BrowserFromCode(ParseInt(Trim(browserName)).value))
    ensures ParseInt(Trim(browserName)).None? ==> TryParseBrowserType(browserName).None?
  {
    TrimKeepsFirst(browserName);
  }

  /** A member's name is a non-empty run of lower-case letters. */
  lemma NameLetters(b: BrowserType)
    requires !b.Unnamed?
    ensures var n := BrowserName(b); n != [] && forall i :: 0 <= i < |n| ==> 'a' <= n[i] <= 'z'
  {
  }

  /** Text that lowers to letters only holds no comma and no white space
      to trim, and does not start like an integer. */
  lemma LetterSpelling(spelling: string)
    requires spelling != []
    requires forall i :: 0 <= i < |spelling| ==> 'a' <= LowerChar(spelling[i]) <= 'z'
    ensures ',' !in spelling && Trim(spelling) == spelling
    ensures !IsDigit(spelling[0]) && spelling[0] != '-' && spelling[0] != '+'
  {
    TrimUntouched(spelling);
  }

  /** Every spelling of a member's name parses to that member. */
  lemma TryParseSpelling(spelling: string, b: BrowserType)
    requires !b.Unnamed? && ToLower(spelling) == BrowserName(b)
    ensures TryParseBrowserType(spelling) == Some(b)
  {
    NameLetters(b);
    var l := ToLower(spelling);
    assert forall i :: 0 <= i < |spelling| ==> l[i] == LowerChar(spelling[i]);
    LetterSpelling(spelling);
    TryParseSingleName(spelling);
    var r := TryParseBrowserType(spelling);
    assert r.Some? && !r.value.Unnamed? && BrowserName(r.value) == BrowserName(b);
    BrowserNameInjective(r.value, b);
  }

  /** Different members have different names. */
  lemma BrowserNameInjective(a: BrowserType, b: BrowserType)
    requires !a.Unnamed? && !b.Unnamed? && BrowserName(a) == BrowserName(b)
    ensures a == b
  {
  }

  /** Parsing is insensitive to letter case: every spelling of a browser's
      name, including the enum's own "Chrome", gives that browser, and the
      two parsers agree on every name they accept. */
  lemma BrowserNameRoundTrip(b: BrowserType, spelling: string)
    requires !b.Unnamed? && ToLower(spelling) == BrowserName(b)
    ensures GetBrowserTypeFromString(spelling) == Success(b)
    ensures TryParseBrowserType(spelling) == Some(b)
    ensures GetBrowserTypeFromString(BrowserName(b)) == Success(b)
  {
    GetBrowserTypeSpelling(b, spelling);
    TryParseSpelling(spelling, b);
  }

  lemma GetBrowserTypeSpelling(b: BrowserType, spelling: string)
    requires !b.Unnamed? && ToLower(spelling) == BrowserName(b)
    ensures GetBrowserTypeFromString(spelling) == Success(b)
    ensures GetBrowserTypeFromString(BrowserName(b)) == Success(b)
  {
    ToLowerIdempotent(spelling);
    assert ToLower(BrowserName(b)) == ToLower(spelling) == BrowserName(b);
  }

  // ---------------------------------------------------------------------
  // The host: platform, directory listings and files that exist

  /** A directory listing: its entries, no such directory, or a listing that threw. */
  datatype Listing = Listed(entries: seq<string>) | Absent | ListingFailed

  datatype Host = Host(
    isWindows: bool,
    isMacOS: bool,
    /** Directory.GetDirectories(DriverDirectory, "chrome-*"), in listing order. */
    chromeDirectories: Listing,
    /** The sub-directories of <user profile>/.cache/selenium/chromedriver. */
    cacheVersions: Listing,
    /** Every file path for which File.Exists holds. */
    files: set<string>)

  /** Whether each construction stage would succeed if it were tried. */
  datatype StartOutcomes = StartOutcomes(managed: bool, existing: bool, native: bool)

  function ChromeDriverFileName(host: Host): string {
    if host.isWindows then "chromedriver.exe" else "chromedriver"
  }

  function BinaryIn(dir: string, host: Host): string {
    PathCombine(dir, ChromeDriverFileName(host), host.isWindows)
  }

  /** The first `chrome-*` directory at or after `from` whose binary
      exists (|dirs| when none). */
  function FirstIndexWithBinary(dirs: seq<string>, host: Host, from: nat): (k: nat)
    requires from <= |dirs|
    ensures from <= k <= |dirs|
    decreases |dirs| - from
  {
    if from == |dirs| then |dirs|
    else if BinaryIn(dirs[from], host) in host.files then from
    else FirstIndexWithBinary(dirs, host, from + 1)
  }

  /** No directory before the index found has a binary, and the one at it
      does (unless the search ran off the end). */
  lemma {:induction false} FirstIndexWithBinaryIsFirst(dirs: seq<string>, host: Host, from: nat)
    requires from <= |dirs|
    ensures var k := FirstIndexWithBinary(dirs, host, from);
            && (forall j :: from <= j < k ==> BinaryIn(dirs[j], host) !in host.files)
            && (k < |dirs| ==> BinaryIn(dirs[k], host) in host.files)
    decreases |dirs| - from
  {
    if from < |dirs| && BinaryIn(dirs[from], host) !in host.files {
      FirstIndexWithBinaryIsFirst(dirs, host, from + 1);
      var k := FirstIndexWithBinary(dirs, host, from + 1);
      assert FirstIndexWithBinary(dirs, host, from) == k;
      forall j | from <= j < k
        ensures BinaryIn(dirs[j], host) !in host.files
      {
        if j > from {
          assert from + 1 <= j < k;
        }
      }
    }
  }

  // Ordinal string order, for OrderByDescending over directory names

  predicate LexLessEq(a: string, b: string) {
    a == [] || (b != [] && (a[0] < b[0] || (a[0] == b[0] && LexLessEq(a[1..], b[1..]))))
  }

  lemma {:induction false} LexTotal(a: string, b: string)
    ensures LexLessEq(a, b) || LexLessEq(b, a)
  {
    if a != [] && b != [] && a[0] == b[0] {
      LexTotal(a[1..], b[1..]);
    }
  }

  lemma {:induction false} LexTransitive(a: string, b: string, c: string)
    requires LexLessEq(a, b) && LexLessEq(b, c)
    ensures LexLessEq(a, c)
  {
    if a != [] && a[0] == b[0] && b[0] == c[0] {
      LexTransitive(a[1..], b[1..], c[1..]);
    }
  }

  lemma {:induction false} LexAntisymmetric(a: string, b: string)
    requires LexLessEq(a, b) && LexLessEq(b, a)
    ensures a == b
  {
    if a != [] {
      LexAntisymmetric(a[1..], b[1..]);
    }
  }

  lemma LexBoundRaised(vs: seq<string>, g: string, h: string)
    requires forall v :: v in vs ==> LexLessEq(v, g)
    requires LexLessEq(g, h)
    ensures forall v :: v in vs ==> LexLessEq(v, h)
  {
    forall v | v in vs ensures LexLessEq(v, h) {
      LexTransitive(v, g, h);
    }
  }

  /** The first entry of the listing sorted in descending order: its greatest
      name. */
  function Latest(vs: seq<string>): (g: string)
    requires |vs| > 0
    ensures g in vs
    ensures forall v :: v in vs ==> LexLessEq(v, g)
  {
    if |vs| == 1 then
      LexTotal(vs[0], vs[0]);
      vs[0]
    else
      var rest := Latest(vs[1..]);
      LexTotal(vs[0], rest);
      if LexLessEq(vs[0], rest) then
        assert forall v :: v in vs ==> v == vs[0] || v in vs[1..];
        rest
      else
        LexBoundRaised(vs[1..], rest, vs[0]);
        LexTotal(vs[0], vs[0]);
        assert forall v :: v in vs ==> v == vs[0] || v in vs[1..];
        vs[0]
  }

  /** The greatest name is unique: any name above every entry is it. */
  lemma LatestIsUnique(vs: seq<string>, g: string)
    requires |vs| > 0 && g in vs && forall v :: v in vs ==> LexLessEq(v, g)
    ensures g == Latest(vs)
  {
    LexAntisymmetric(g, Latest(vs));
  }

  /** FindExistingChromeDriver as a value: the binary of the first `chrome-*`
      directory that has one; else the binary of the greatest cache version,
      when it exists; else "" (also when a listing throws). */
  function ExistingChromeDriver(host: Host): (path: string)
    ensures path == "" || path in host.files
  {
    match host.chromeDirectories
    case Listed(dirs) =>
      var k := FirstIndexWithBinary(dirs, host, 0);
      FirstIndexWithBinaryIsFirst(dirs, host, 0);
      if k < |dirs| then BinaryIn(dirs[k], host) else CachedChromeDriver(host)
    case _ => ""
  }

  /** Whatever the search finds is a driver binary. */
  lemma ExistingChromeDriverIsBinary(host: Host)
    ensures var path := ExistingChromeDriver(host);
            path == "" || EndsWith(path, ChromeDriverFileName(host))
  {
    match host.chromeDirectories
    case Listed(dirs) =>
      var k := FirstIndexWithBinary(dirs, host, 0);
      if k < |dirs| {
        PathCombineParts(dirs[k], ChromeDriverFileName(host), host.isWindows);
      } else if host.cacheVersions.Listed? && host.cacheVersions.entries != [] {
        PathCombineParts(Latest(host.cacheVersions.entries), ChromeDriverFileName(host), host.isWindows);
      }
    case _ =>
  }

  /** The cache fallback of the search: the binary under the greatest
      version name, when it exists. */
  function CachedChromeDriver(host: Host): (path: string)
    ensures path == "" || path in host.files
  {
    match host.cacheVersions
    case Listed(vs) =>
      if vs == [] then ""
      else
        var p := BinaryIn(Latest(vs), host);
        if p in host.files then p else ""
    case _ => ""
  }

  /** With no binary in any `chrome-*` directory, the cache decides. */
  lemma NoDirectoryBinary(host: Host)
    requires host.chromeDirectories.Listed?
    requires forall j :: 0 <= j < |host.chromeDirectories.entries| ==>
               BinaryIn(host.chromeDirectories.entries[j], host) !in host.files
    ensures ExistingChromeDriver(host) == CachedChromeDriver(host)
  {
    var dirs := host.chromeDirectories.entries;
    FirstIndexWithBinaryIsFirst(dirs, host, 0);
    assert FirstIndexWithBinary(dirs, host, 0) == |dirs|;
  }

  /** The search order: a `chrome-*` directory with a binary wins over the
      cache, and among them the first in listing order wins; the cache is
      consulted only when no such directory exists, and then only its
      greatest version. */
  lemma ExistingChromeDriverOrder(host: Host, i: nat)
    requires host.chromeDirectories.Listed? && i < |host.chromeDirectories.entries|
    requires BinaryIn(host.chromeDirectories.entries[i], host) in host.files
    requires forall j :: 0 <= j < i ==> BinaryIn(host.chromeDirectories.entries[j], host) !in host.files
    ensures ExistingChromeDriver(host) == BinaryIn(host.chromeDirectories.entries[i], host)
  {
    var dirs := host.chromeDirectories.entries;
    FirstIndexWithBinaryIsFirst(dirs, host, 0);
    var k := FirstIndexWithBinary(dirs, host, 0);
    assert k <= i;
    assert k >= i;
  }

  lemma ExistingChromeDriverFromCache(host: Host)
    requires host.chromeDirectories.Listed?
    requires forall d :: d in host.chromeDirectories.entries ==> BinaryIn(d, host) !in host.files
    requires host.cacheVersions.Listed? && host.cacheVersions.entries != []
    ensures ExistingChromeDriver(host) != "" <==> BinaryIn(Latest(host.cacheVersions.entries), host) in host.files
    ensures ExistingChromeDriver(host) != "" ==> ExistingChromeDriver(host) == BinaryIn(Latest(host.cacheVersions.entries), host)
  {
    var dirs := host.chromeDirectories.entries;
    assert forall j :: 0 <= j < |dirs| ==> dirs[j] in dirs;
    NoDirectoryBinary(host);
  }

  // ---------------------------------------------------------------------
  // The Chrome fallback chain

  datatype ChainRun = ChainRun(tried: seq<Stage>, outcome: Result<Stage, DriverError>)

  function StageSucceeds(stage: Stage, outcomes: StartOutcomes): bool {
    match stage
    case Managed => outcomes.managed
    case ExistingBinary => outcomes.existing
    case Native => outcomes.native
  }

  /** CreateChromeDriver's stage order: managed setup first; only if it threw,
      the existing binary when the search found one, and otherwise the native
      driver. The last stage tried decides: its failure propagates. */
  function ChromeChain(existingPath: string, outcomes: StartOutcomes): ChainRun {
    if outcomes.managed then ChainRun([Managed], Success(Managed))
    else
      var second := if existingPath != "" then ExistingBinary else Native;
      ChainRun([Managed, second],
               if StageSucceeds(second, outcomes) then Success(second) else Failure(StartFailed(second)))
  }

  /** Managed setup is always tried first, and a second stage only when it
      throws: the found binary if there is one, else the native driver. The
      last stage tried decides the outcome, and the chain fails only when
      every stage it tried failed. */
  lemma ChromeChainOrder(existingPath: string, outcomes: StartOutcomes)
    ensures var run := ChromeChain(existingPath, outcomes);
            && 1 <= |run.tried| <= 2 && run.tried[0] == Managed
            && (|run.tried| == 2 <==> !outcomes.managed)
            && (|run.tried| == 2 ==> run.tried[1] == (if existingPath != "" then ExistingBinary else Native))
            && (run.outcome.Success? <==> StageSucceeds(run.tried[|run.tried| - 1], outcomes))
            && (run.outcome.Success? ==> run.outcome.value == run.tried[|run.tried| - 1])
            && (run.outcome.Failure? ==> run.outcome.error == StartFailed(run.tried[|run.tried| - 1]))
            && (run.outcome.Failure? <==> forall k :: 0 <= k < |run.tried| ==> !StageSucceeds(run.tried[k], outcomes))
  {
  }

  // ---------------------------------------------------------------------
  // Option lists

  const ChromeFixedArguments: seq<string> := [
    "--no-sandbox", "--disable-dev-shm-usage", "--disable-gpu", "--window-size=1920,1080",
    "--disable-extensions", "--disable-web-security", "--allow-running-insecure-content",
    "--disable-blink-features=AutomationControlled",
    "--disable-background-timer-throttling", "--disable-backgrounding-occluded-windows",
    "--disable-renderer-backgrounding",
    "--ignore-certificate-errors", "--ignore-ssl-errors", "--ignore-certificate-errors-spki-list"]

  const EdgeFixedArguments: seq<string> := [
    "--no-sandbox", "--disable-dev-shm-usage", "--disable-gpu", "--window-size=1920,1080",
    "--disable-extensions"]

  function CustomArguments(custom: Option<seq<string>>): seq<string> {
    custom.GetOr([])
  }

  /** The arguments ConfigureChromeOptions adds, in order. */
  function ChromeArguments(headless: bool, custom: Option<seq<string>>): seq<string> {
    (if headless then ["--headless=new"] else []) + ChromeFixedArguments + CustomArguments(custom)
  }

  /** Chrome runs headless exactly when the setting or a custom argument
      asks for it, always at 1920x1080, and the custom arguments come last,
      unchanged. */
  lemma ChromeArgumentsContent(headless: bool, custom: Option<seq<string>>)
    ensures var args := ChromeArguments(headless, custom);
            && ("--headless=new" in args <==> headless || "--headless=new" in CustomArguments(custom))
            && "--window-size=1920,1080" in args
            && |args| == (if headless then 1 else 0) + |ChromeFixedArguments| + |CustomArguments(custom)|
            && args[|args| - |CustomArguments(custom)|..] == CustomArguments(custom)
  {
    var fixed := (if headless then ["--headless=new"] else []) + ChromeFixedArguments;
    assert "--window-size=1920,1080" == ChromeFixedArguments[3];
    assert "--window-size=1920,1080" in fixed;
    assert "--headless=new" in fixed <==> headless;
    assert ChromeArguments(headless, custom) == fixed + CustomArguments(custom);
  }

  /** The arguments ConfigureEdgeOptions adds, in order. */
  function EdgeArguments(headless: bool): seq<string> {
    (if headless then ["--headless=new"] else []) + EdgeFixedArguments
  }

  /** Edge runs headless exactly when the setting asks for it, always at
      1920x1080. */
  lemma EdgeArgumentsContent(headless: bool)
    ensures "--headless=new" in EdgeArguments(headless) <==> headless
    ensures "--window-size=1920,1080" in EdgeArguments(headless)
  {
    assert "--window-size=1920,1080" == EdgeFixedArguments[3];
  }

  /** The arguments ConfigureFirefoxOptions adds, in order. */
  function FirefoxArguments(headless: bool): seq<string> {
    (if headless then ["--headless"] else []) + ["--width=1920", "--height=1080"]
  }

  /** Firefox runs headless exactly when the setting asks for it, always
      1920 wide and 1080 high. */
  lemma FirefoxArgumentsContent(headless: bool)
    ensures var args := FirefoxArguments(headless);
            && ("--headless" in args <==> headless)
            && "--width=1920" in args && "--height=1080" in args
            && |args| == (if headless then 3 else 2)
  {
  }

  /** The anti-automation-detection switches Chrome and Edge both get. */
  const AntiDetectionExcluded: seq<string> := ["enable-automation"]

  /** The preferences ConfigureFirefoxOptions sets before the custom ones. */
  const FirefoxBasePreferences: map<string, PrefValue> :=
    map["dom.webdriver.enabled" := BoolPref(false), "useAutomationExtension" := BoolPref(false)]

  /** The conversion applied to one custom Firefox preference; None means the
      preference is skipped. */
  function ConvertPreference(v: ConfigValue): (r: Option<PrefValue>)
    ensures r.None? <==> v.NullValue?
    ensures v.BoolValue? ==> r == Some(BoolPref(v.b))
    ensures v.IntValue? ==> r == Some(IntPref(v.i))
    ensures v.StringValue? ==> r == Some(StringPref(v.s))
    ensures v.OtherValue? && ParseBool(v.text).Some? ==> r == Some(BoolPref(ParseBool(v.text).value))
    ensures v.OtherValue? && ParseBool(v.text).None? && ParseInt(v.text).Some? ==> r == Some(IntPref(ParseInt(v.text).value))
    ensures v.OtherValue? && ParseBool(v.text).None? && ParseInt(v.text).None? ==> r == Some(StringPref(v.text))
  {
    match v
    case BoolValue(b) => Some(BoolPref(b))
    case IntValue(i) => Some(IntPref(i))
    case StringValue(s) => Some(StringPref(s))
    case OtherValue(text) =>
      (match ParseBool(text)
       case Some(b) => Some(BoolPref(b))
       case None =>
         match ParseInt(text)
         case Some(i) => Some(IntPref(i))
         case None => Some(StringPref(text)))
    case NullValue => None
  }

  /** An object whose text is a printed boolean or 32-bit integer comes back
      as that boolean or integer; any other text is kept as a string. */
  lemma ConversionRecoversTypedText(b: bool, i: int, text: string)
    requires Int32Min <= i <= Int32Max
    ensures ConvertPreference(OtherValue(BoolText(b))) == Some(BoolPref(b))
    ensures ConvertPreference(OtherValue(IntText(i))) == Some(IntPref(i))
    ensures ConvertPreference(OtherValue(text)) == Some(StringPref(text))
            <==> ParseBool(text).None? && ParseInt(text).None?
  {
    BoolTextParses(b);
    IntTextIsNotBool(i);
    IntTextParses(i);
  }

  /** SetPreference for each custom preference in order: a later value for a
      key replaces the earlier one, and skipped values change nothing. */
  function ApplyPreferences(base: map<string, PrefValue>, prefs: seq<(string, ConfigValue)>): map<string, PrefValue>
  {
    if prefs == [] then base
    else
      var m := ApplyPreferences(base, prefs[..|prefs| - 1]);
      var (key, value) := prefs[|prefs| - 1];
      match ConvertPreference(value)
      case Some(pv) => m[key := pv]
      case None => m
  }

  /** The last non-null value given for a key is the one set. */
  lemma {:induction false} PreferenceLastWins(base: map<string, PrefValue>, prefs: seq<(string, ConfigValue)>, i: nat)
    requires i < |prefs| && !prefs[i].1.NullValue?
    requires forall j :: i < j < |prefs| && prefs[j].0 == prefs[i].0 ==> prefs[j].1.NullValue?
    ensures prefs[i].0 in ApplyPreferences(base, prefs)
    ensures ApplyPreferences(base, prefs)[prefs[i].0] == ConvertPreference(prefs[i].1).value
  {
    var init := prefs[..|prefs| - 1];
    if i < |prefs| - 1 {
      assert init[i] == prefs[i];
      PreferenceLastWins(base, init, i);
    }
  }

  /** A key given no non-null custom value keeps its base value (or stays unset). */
  lemma {:induction false} PreferenceUntouched(base: map<string, PrefValue>, prefs: seq<(string, ConfigValue)>, key: string)
    requires forall j :: 0 <= j < |prefs| && prefs[j].0 == key ==> prefs[j].1.NullValue?
    ensures key in ApplyPreferences(base, prefs) <==> key in base
    ensures key in base ==> ApplyPreferences(base, prefs)[key] == base[key]
  {
    if prefs != [] {
      PreferenceUntouched(base, prefs[..|prefs| - 1], key);
    }
  }

  // ---------------------------------------------------------------------
  // Settings and the construction plan

  /** The configuration DriverFactory reads. */
  datatype FactorySettings = FactorySettings(
    config: Config,
    /** TestSettings:ChromeArguments; None when the section is missing. */
    chromeArguments: Option<seq<string>>,
    /** TestSettings:FirefoxPreferences in binding order; None when missing. */
    firefoxPreferences: Option<seq<(string, ConfigValue)>>)

  const HeadlessKey: string := "TestSettings:Headless"

  /** bool.Parse(config["TestSettings:Headless"] ?? "false"). */
  function HeadlessSetting(settings: FactorySettings): (r: Result<bool, DriverError>)
    ensures HeadlessKey !in settings.config ==> r == Success(false)
    ensures r.Failure? ==> r.error.InvalidHeadlessSetting?
    ensures HeadlessKey in settings.config ==>
              var text := settings.config[HeadlessKey];
              && (ParseBool(text).Some? ==> r == Success(ParseBool(text).value))
              && (ParseBool(text).None? ==> r == Failure(InvalidHeadlessSetting(text)))
  {
    var text := Lookup(settings.config, HeadlessKey).GetOr("false");
    assert ToLower("false") == "false";
    match ParseBool(text)
    case Some(b) => Success(b)
    case None => Failure(InvalidHeadlessSetting(text))
  }

  function ChromeOptionsValue(headless: bool, settings: FactorySettings): OptionsValue {
    OptionsValue(ChromeArguments(headless, settings.chromeArguments), AntiDetectionExcluded,
                 map["useAutomationExtension" := BoolPref(false)], map[])
  }

  function FirefoxOptionsValue(headless: bool, settings: FactorySettings): OptionsValue {
    OptionsValue(FirefoxArguments(headless), [], map[],
                 ApplyPreferences(FirefoxBasePreferences, settings.firefoxPreferences.GetOr([])))
  }

  function EdgeOptionsValue(headless: bool): OptionsValue {
    OptionsValue(EdgeArguments(headless), AntiDetectionExcluded,
                 map["useAutomationExtension" := BoolPref(false)], map[])
  }

  /** What a successful construction produces. */
  datatype Plan = Plan(browser: BrowserType, stage: Stage, binaryPath: string, options: OptionsValue)

  /** CreateChromeDriver as a value. */
  function AcquireChrome(headless: bool, settings: FactorySettings, host: Host, outcomes: StartOutcomes): Result<Plan, DriverError> {
    var path := ExistingChromeDriver(host);
    var run := ChromeChain(path, outcomes);
    match run.outcome
    case Success(stage) =>
      Success(Plan(Chrome, stage, if stage == ExistingBinary then path else "", ChromeOptionsValue(headless, settings)))
    case Failure(e) => Failure(e)
  }

  /** The construction CreateDriver(BrowserType) performs when nothing is
      cached: the headless setting is parsed first, then the browser's own
      construction runs. */
  function Acquire(browser: BrowserType, settings: FactorySettings, host: Host, outcomes: StartOutcomes): Result<Plan, DriverError> {
    match HeadlessSetting(settings)
    case Failure(e) => Failure(e)
    case Success(headless) =>
      match browser
      case Chrome => AcquireChrome(headless, settings, host, outcomes)
      case Firefox =>
        if outcomes.managed then Success(Plan(Firefox, Managed, "", FirefoxOptionsValue(headless, settings)))
        else Failure(StartFailed(Managed))
      case Edge =>
        if outcomes.managed then Success(Plan(Edge, Managed, "", EdgeOptionsValue(headless)))
        else Failure(StartFailed(Managed))
      case Safari =>
        if !host.isMacOS then Failure(PlatformNotSupported)
        else if outcomes.native then Success(Plan(Safari, Native, "", OptionsValue([], [], map[], map[])))
        else Failure(StartFailed(Native))
      case Unnamed(code) => Failure(UnsupportedBrowserType(code))
  }

  /** A construction builds the browser asked for, and only Chrome's
      existing-binary stage binds a driver path. */
  lemma AcquireBuildsRequestedBrowser(browser: BrowserType, settings: FactorySettings, host: Host, outcomes: StartOutcomes)
    ensures var r := Acquire(browser, settings, host, outcomes);
            && (r.Success? ==> r.value.browser == browser)
            && (r.Success? && r.value.binaryPath != "" ==> browser == Chrome && r.value.stage == ExistingBinary)
  {
  }

  /** Safari needs macOS; Firefox and Edge have no fallback and rethrow the
      managed stage's failure; an unnamed value is refused. */
  lemma AcquireWithoutFallback(browser: BrowserType, settings: FactorySettings, host: Host, outcomes: StartOutcomes)
    requires HeadlessSetting(settings).Success? && browser != Chrome
    ensures browser.Unnamed? ==> Acquire(browser, settings, host, outcomes) == Failure(UnsupportedBrowserType(browser.code))
    ensures browser == Safari && !host.isMacOS ==> Acquire(browser, settings, host, outcomes) == Failure(PlatformNotSupported)
    ensures browser == Firefox || browser == Edge ==>
              (Acquire(browser, settings, host, outcomes).Success? <==> outcomes.managed)
              && (!outcomes.managed ==> Acquire(browser, settings, host, outcomes) == Failure(StartFailed(Managed)))
  {
  }

  /** When a construction succeeds, stated without building its options:
      the headless setting parses and some stage the browser tries works. */
  predicate Startable(browser: BrowserType, settings: FactorySettings, host: Host, outcomes: StartOutcomes) {
    && HeadlessSetting(settings).Success?
    && match browser
       case Chrome => outcomes.managed || StageSucceeds(if ExistingChromeDriver(host) != "" then ExistingBinary else Native, outcomes)
       case Firefox => outcomes.managed
       case Edge => outcomes.managed
       case Safari => host.isMacOS && outcomes.native
       case Unnamed(_) => false
  }

  /** A construction succeeds exactly when the browser is startable. */
  lemma AcquireSucceedsWhenStartable(browser: BrowserType, settings: FactorySettings, host: Host, outcomes: StartOutcomes)
    ensures Acquire(browser, settings, host, outcomes).Success? <==> Startable(browser, settings, host, outcomes)
  {
  }

  /** Chrome's managed setup, when it works, is the stage used. */
  lemma ChromePrefersManaged(settings: FactorySettings, host: Host, outcomes: StartOutcomes)
    requires HeadlessSetting(settings).Success? && outcomes.managed
    ensures Acquire(Chrome, settings, host, outcomes).Success?
    ensures Acquire(Chrome, settings, host, outcomes).value.stage == Managed
  {
    var headless := HeadlessSetting(settings).value;
    assert Acquire(Chrome, settings, host, outcomes) == AcquireChrome(headless, settings, host, outcomes);
  }

  /** Managed setup fails and the search finds a binary: the session is bound
      to that binary, and the native stage is never tried. */
  lemma ChromeUsesFoundBinary(headless: bool, settings: FactorySettings, host: Host, outcomes: StartOutcomes)
    requires !outcomes.managed && ExistingChromeDriver(host) != ""
    ensures ChromeChain(ExistingChromeDriver(host), outcomes).tried == [Managed, ExistingBinary]
    ensures outcomes.existing ==>
              AcquireChrome(headless, settings, host, outcomes).Success?
              && AcquireChrome(headless, settings, host, outcomes).value.binaryPath == ExistingChromeDriver(host)
    ensures !outcomes.existing ==>
              AcquireChrome(headless, settings, host, outcomes) == Failure(StartFailed(ExistingBinary))
  {
  }

  /** A session was built as `plan` says. */
  predicate Realises(s: Session, plan: Plan)
    reads s, s.options
  {
    && s.browser == plan.browser && s.stage == plan.stage
    && s.binaryPath == plan.binaryPath && s.options.Value() == plan.options
    && !s.quit && s.actions == []
  }

  /** A construction result matches the planned one. */
  predicate Agrees(r: Result<Session, DriverError>, a: Result<Plan, DriverError>)
    reads if r.Success? then {r.value, r.value.options} else {}
  {
    match r
    case Success(s) => a.Success? && Realises(s, a.value)
    case Failure(e) => a == Failure(e)
  }

  // ---------------------------------------------------------------------
  // The factory

  class DriverFactory {
    const settings: FactorySettings
    var driver: Session?
    var disposed: bool

    constructor (settings: FactorySettings)
      ensures this.settings == settings && driver == null && !disposed
    {
      this.settings := settings;
      driver := null;
      disposed := false;
    }

    /** CreateDriver(BrowserType): the cached session when there is one,
        whatever browser is asked for; otherwise a new session as `Acquire`
        plans it, which becomes the cached one. A failure caches nothing.
        Disposal is not consulted. */
    method CreateDriver(browserType: BrowserType, host: Host, outcomes: StartOutcomes)
      returns (r: Result<Session, DriverError>)
      modifies this
      ensures disposed == old(disposed)
      ensures old(driver) != null ==> r == Success(old(driver)) && driver == old(driver)
      ensures old(driver) == null ==> Agrees(r, Acquire(browserType, settings, host, outcomes))
      ensures old(driver) == null && r.Success? ==> fresh(r.value) && fresh(r.value.options) && driver == r.value
      ensures old(driver) == null && r.Failure? ==> driver == null
    {
      if driver != null {
        return Success(driver);
      }
      var headless := HeadlessSetting(settings);
      if headless.Failure? {
        return Failure(headless.error);
      }
      match browserType {
        case Chrome =>
          r := CreateChromeDriver(headless.value, host, outcomes);
        case Firefox =>
          r := CreateFirefoxDriver(headless.value, outcomes);
        case Edge =>
          r := CreateEdgeDriver(headless.value, outcomes);
        case Safari =>
          r := CreateSafariDriver(host, outcomes);
        case Unnamed(code) =>
          return Failure(UnsupportedBrowserType(code));
      }
      if r.Success? {
        driver := r.value;
      }
    }

    /** CreateDriver(string): the name must parse as a BrowserType before the
        cache is looked at, so a bad name throws even with a cached session. */
    method CreateDriverByName(browserName: string, host: Host, outcomes: StartOutcomes)
      returns (r: Result<Session, DriverError>)
      modifies this
      ensures TryParseBrowserType(browserName).None? ==>
                r == Failure(InvalidBrowserName(browserName)) && driver == old(driver)
      ensures TryParseBrowserType(browserName).Some? && old(driver) != null ==>
                r == Success(old(driver)) && driver == old(driver)
      ensures TryParseBrowserType(browserName).Some? && old(driver) == null ==>
                Agrees(r, Acquire(TryParseBrowserType(browserName).value, settings, host, outcomes))
      ensures TryParseBrowserType(browserName).Some? && old(driver) == null && r.Success? ==>
                fresh(r.value) && fresh(r.value.options) && driver == r.value
      ensures TryParseBrowserType(browserName).Some? && old(driver) == null && r.Failure? ==> driver == null
      ensures disposed == old(disposed)
    {
      var parsed := TryParseBrowserType(browserName);
      if parsed.None? {
        return Failure(InvalidBrowserName(browserName));
      }
      r := CreateDriver(parsed.value, host, outcomes);
    }

    method CreateChromeDriver(headless: bool, host: Host, outcomes: StartOutcomes)
      returns (r: Result<Session, DriverError>)
      ensures r.Success? ==> fresh(r.value) && fresh(r.value.options)
      ensures Agrees(r, AcquireChrome(headless, settings, host, outcomes))
    {
      var options := NewChromeOptions(headless);
      if outcomes.managed {
        var s := new Session(Chrome, Managed, "", options);
        return Success(s);
      }
      var path := FindExistingChromeDriver(host);
      if path != "" {
        if outcomes.existing {
          var s := new Session(Chrome, ExistingBinary, path, options);
          r := Success(s);
        } else {
          r := Failure(StartFailed(ExistingBinary));
        }
        return;
      }
      if outcomes.native {
        var s := new Session(Chrome, Native, "", options);
        r := Success(s);
      } else {
        r := Failure(StartFailed(Native));
      }
    }

    /** Fresh options configured for Chrome. */
    method NewChromeOptions(headless: bool) returns (options: DriverOptions)
      ensures fresh(options) && options.Value() == ChromeOptionsValue(headless, settings)
    {
      options := new DriverOptions();
      ConfigureChromeOptions(options, headless);
      assert options.arguments == [] + ChromeArguments(headless, settings.chromeArguments);
      assert options.excludedArguments == [] + AntiDetectionExcluded;
    }

    /** The existing-binary search, directory by directory. */
    method FindExistingChromeDriver(host: Host) returns (path: string)
      ensures path == ExistingChromeDriver(host)
    {
      if !host.chromeDirectories.Listed? {
        return "";
      }
      var dirs := host.chromeDirectories.entries;
      var i := 0;
      while i < |dirs|
        invariant 0 <= i <= |dirs|
        invariant FirstIndexWithBinary(dirs, host, i) == FirstIndexWithBinary(dirs, host, 0)
      {
        var candidate := BinaryIn(dirs[i], host);
        if candidate in host.files {
          return candidate;
        }
        i := i + 1;
      }
      path := FindCachedChromeDriver(host);
    }

    /** The cache step of the search: the greatest version's binary. */
    method FindCachedChromeDriver(host: Host) returns (path: string)
      ensures path == CachedChromeDriver(host)
    {
      path := "";
      if host.cacheVersions.Listed? && host.cacheVersions.entries != [] {
        var candidate := BinaryIn(Latest(host.cacheVersions.entries), host);
        if candidate in host.files {
          path := candidate;
        }
      }
    }

    method ConfigureChromeOptions(options: DriverOptions, headless: bool)
      modifies options
      ensures options.arguments == old(options.arguments) + ChromeArguments(headless, settings.chromeArguments)
      ensures options.excludedArguments == old(options.excludedArguments) + AntiDetectionExcluded
      ensures options.additionalOptions == old(options.additionalOptions)["useAutomationExtension" := BoolPref(false)]
      ensures options.preferences == old(options.preferences)
    {
      if headless {
        options.arguments := options.arguments + ["--headless=new"];
      }
      options.arguments := options.arguments + ChromeFixedArguments;
      options.excludedArguments := options.excludedArguments + AntiDetectionExcluded;
      options.additionalOptions := options.additionalOptions["useAutomationExtension" := BoolPref(false)];
      var custom := CustomArguments(settings.chromeArguments);
      if |custom| > 0 {
        options.arguments := options.arguments + custom;
      }
    }

    method CreateFirefoxDriver(headless: bool, outcomes: StartOutcomes) returns (r: Result<Session, DriverError>)
      ensures r.Success? ==> fresh(r.value) && fresh(r.value.options)
      ensures r.Success? <==> outcomes.managed
      ensures r.Success? ==> Realises(r.value, Plan(Firefox, Managed, "", FirefoxOptionsValue(headless, settings)))
      ensures r.Failure? ==> r.error == StartFailed(Managed)
    {
      if !outcomes.managed {
        return Failure(StartFailed(Managed));
      }
      var options := new DriverOptions();
      ConfigureFirefoxOptions(options, headless);
      assert map[] + FirefoxBasePreferences == FirefoxBasePreferences;
      var s := new Session(Firefox, Managed, "", options);
      r := Success(s);
    }

    method ConfigureFirefoxOptions(options: DriverOptions, headless: bool)
      modifies options
      ensures options.arguments == old(options.arguments) + FirefoxArguments(headless)
      ensures options.preferences ==
                ApplyPreferences(old(options.preferences) + FirefoxBasePreferences, settings.firefoxPreferences.GetOr([]))
      ensures options.excludedArguments == old(options.excludedArguments)
      ensures options.additionalOptions == old(options.additionalOptions)
    {
      if headless {
        options.arguments := options.arguments + ["--headless"];
      }
      options.arguments := options.arguments + ["--width=1920", "--height=1080"];
      options.preferences := options.preferences["dom.webdriver.enabled" := BoolPref(false)];
      options.preferences := options.preferences["useAutomationExtension" := BoolPref(false)];
      ghost var base := options.preferences;
      assert base == old(options.preferences) + FirefoxBasePreferences;
      var prefs := settings.firefoxPreferences.GetOr([]);
      var i := 0;
      while i < |prefs|
        invariant 0 <= i <= |prefs|
        invariant options.preferences == ApplyPreferences(base, prefs[..i])
        invariant options.arguments == old(options.arguments) + FirefoxArguments(headless)
        invariant options.excludedArguments == old(options.excludedArguments)
        invariant options.additionalOptions == old(options.additionalOptions)
      {
        var (key, value) := prefs[i];
        var converted := ConvertPreference(value);
        if converted.Some? {
          options.preferences := options.preferences[key := converted.value];
        }
        assert prefs[..i + 1][..i] == prefs[..i];
        i := i + 1;
      }
      assert prefs[..i] == prefs;
    }

    method CreateEdgeDriver(headless: bool, outcomes: StartOutcomes) returns (r: Result<Session, DriverError>)
      ensures r.Success? ==> fresh(r.value) && fresh(r.value.options)
      ensures r.Success? <==> outcomes.managed
      ensures r.Success? ==> Realises(r.value, Plan(Edge, Managed, "", EdgeOptionsValue(headless)))
      ensures r.Failure? ==> r.error == StartFailed(Managed)
    {
      if !outcomes.managed {
        return Failure(StartFailed(Managed));
      }
      var options := new DriverOptions();
      ConfigureEdgeOptions(options, headless);
      var s := new Session(Edge, Managed, "", options);
      r := Success(s);
    }

    method ConfigureEdgeOptions(options: DriverOptions, headless: bool)
      modifies options
      ensures options.arguments == old(options.arguments) + EdgeArguments(headless)
      ensures options.excludedArguments == old(options.excludedArguments) + AntiDetectionExcluded
      ensures options.additionalOptions == old(options.additionalOptions)["useAutomationExtension" := BoolPref(false)]
      ensures options.preferences == old(options.preferences)
    {
      if headless {
        options.arguments := options.arguments + ["--headless=new"];
      }
      options.arguments := options.arguments + EdgeFixedArguments;
      options.excludedArguments := options.excludedArguments + AntiDetectionExcluded;
      options.additionalOptions := options.additionalOptions["useAutomationExtension" := BoolPref(false)];
    }

    method CreateSafariDriver(host: Host, outcomes: StartOutcomes) returns (r: Result<Session, DriverError>)
      ensures r.Success? ==> fresh(r.value) && fresh(r.value.options)
      ensures !host.isMacOS ==> r == Failure(PlatformNotSupported)
      ensures host.isMacOS ==> (r.Success? <==> outcomes.native)
      ensures r.Success? ==> Realises(r.value, Plan(Safari, Native, "", OptionsValue([], [], map[], map[])))
      ensures host.isMacOS && r.Failure? ==> r.error == StartFailed(Native)
    {
      if !host.isMacOS {
        return Failure(PlatformNotSupported);
      }
      if !outcomes.native {
        return Failure(StartFailed(Native));
      }
      var options := new DriverOptions();
      var s := new Session(Safari, Native, "", options);
      r := Success(s);
    }

    /** Dispose: the first call quits and releases the cached session and
        clears the cache if both steps succeed; a quit or release that throws
        is swallowed and the handle stays cached. The factory is disposed
        afterwards in every case, and later calls change nothing. */
    method Dispose(quitSucceeds: bool, releaseSucceeds: bool)
      modifies this, (if driver == null then {} else {driver})`quit
      ensures disposed
      ensures old(disposed) ==> driver == old(driver) && (old(driver) != null ==> unchanged(old(driver)))
      ensures !old(disposed) && old(driver) != null ==>
                old(driver).quit == (quitSucceeds || old(driver.quit))
                && driver == (if quitSucceeds && releaseSucceeds then null else old(driver))
      ensures old(driver) == null ==> driver == null
    {
      if !disposed {
        if driver != null {
          if quitSucceeds {
            driver.quit := true;
            if releaseSucceeds {
              driver := null;
            }
          }
        }
        disposed := true;
      }
    }
  }

  /** Dispose then CreateDriver: once disposal cleared the cache, the next
      request builds a new session and never hands back the one that quit. */
  method RecreateAfterDispose(f: DriverFactory, host: Host, outcomes: StartOutcomes)
    returns (first: Result<Session, DriverError>, second: Result<Session, DriverError>)
    requires f.driver == null && !f.disposed
    modifies f
    ensures first.Success? ==> first.value.quit
    ensures first.Success? && second.Success? ==> second.value != first.value && !second.value.quit
  {
    first := f.CreateDriver(Chrome, host, outcomes);
    if first.Success? {
      f.Dispose(true, true);
      second := f.CreateDriver(Chrome, host, outcomes);
    } else {
      second := first;
    }
  }
}
