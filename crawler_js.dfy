/** The Puppeteer/Chrome crawler (crawler.js): delay draws, challenge-page
    detection, proxy gating, one lookup attempt driven by what the browser
    reports, and the retry loop `main`.

    The browser is an oracle (`Page`): every title, body text and selector
    answer the crawler asks for is a field. A read the source guards with
    `.catch(() => '')` is given as the text it then uses (so a failed read is
    simply ""). `Math.random()` is a real drawn from [0, 1); sleeps are not
    modelled, only the number of polls and re-checks. */
module CrawlerJs {
  import opened Text
  import opened Records
  import opened Selectors
  import opened GroupPatterns
  import opened Polling
  import opened Retries

  // ---------------------------------------------------------------------
  // Random draws

  /** `Math.floor(Math.random() * n)` for the draw `r`. */
  function RandomInt(r: real, n: int): int
  {
    (r * n as real).Floor
  }

  /** A draw from [0, 1) scaled by a positive `n` lands in 0..n-1. */
  lemma RandomIntRange(r: real, n: int)
    requires 0.0 <= r < 1.0 && n >= 1
    ensures 0 <= RandomInt(r, n) < n
  {
  }

  /** Every value in 0..n-1 is drawn for some `r`. */
  lemma RandomIntReaches(k: int, n: int)
    requires 0 <= k < n
    ensures var r := k as real / n as real; 0.0 <= r < 1.0 && RandomInt(r, n) == k
  {
  }

  /** `humanDelay(minMs, maxMs)` for the draw `r`. */
  function HumanDelayFor(r: real, minMs: int, maxMs: int): int
  {
    RandomInt(r, maxMs - minMs + 1) + minMs
  }

  /** `humanDelay`: the number of milliseconds it waits. */
  method HumanDelay(minMs: int, maxMs: int) returns (delay: int)
    ensures minMs <= maxMs ==> minMs <= delay <= maxMs
  {
    var r: real :| 0.0 <= r < 1.0;
    if minMs <= maxMs {
      RandomIntRange(r, maxMs - minMs + 1);
    }
    delay := HumanDelayFor(r, minMs, maxMs);
  }

  /** Conversely, every whole number of milliseconds in [minMs, maxMs] is
      one `humanDelay` can wait. */
  lemma HumanDelayCoversRange(minMs: int, maxMs: int, d: int)
    requires minMs <= d <= maxMs
    ensures exists r: real :: 0.0 <= r < 1.0 && HumanDelayFor(r, minMs, maxMs) == d
  {
    RandomIntReaches(d - minMs, maxMs - minMs + 1);
    var r := (d - minMs) as real / (maxMs - minMs + 1) as real;
    assert HumanDelayFor(r, minMs, maxMs) == d;
  }

  /** The pause after one keystroke, for the three draws the source makes:
      50 + floor(100 r1), plus 100 + floor(200 r3) when `r2 < 0.1`. */
  function KeystrokeDelay(r1: real, r2: real, r3: real): int
  {
    var delay := RandomInt(r1, 100) + 50;
    if r2 < 0.1 then delay + RandomInt(r3, 200) + 100 else delay
  }

  /** A keystroke waits 50..149 ms, or 150..448 ms when the longer pause is added. */
  lemma KeystrokeDelayRange(r1: real, r2: real, r3: real)
    requires 0.0 <= r1 < 1.0 && 0.0 <= r2 < 1.0 && 0.0 <= r3 < 1.0
    ensures r2 >= 0.1 ==> 50 <= KeystrokeDelay(r1, r2, r3) <= 149
    ensures r2 < 0.1 ==> 150 <= KeystrokeDelay(r1, r2, r3) <= 448
  {
  }

  /** The typing loop of `lookupInsuranceGroup` (and of `humanType`): one
      delay per character, and whether the longer pause was drawn for it. */
  method TypeKeys(text: string) returns (delays: seq<int>, paused: seq<bool>)
    ensures |delays| == |text| && |paused| == |text|
    ensures forall i :: 0 <= i < |text| ==>
              if paused[i] then 150 <= delays[i] <= 448 else 50 <= delays[i] <= 149
  {
    delays, paused := [], [];
    for i := 0 to |text|
      invariant |delays| == i && |paused| == i
      invariant forall j :: 0 <= j < i ==>
                  if paused[j] then 150 <= delays[j] <= 448 else 50 <= delays[j] <= 149
    {
      var r1: real :| 0.0 <= r1 < 1.0;
      var r2: real :| 0.0 <= r2 < 1.0;
      var r3: real :| 0.0 <= r3 < 1.0;
      KeystrokeDelayRange(r1, r2, r3);
      delays := delays + [KeystrokeDelay(r1, r2, r3)];
      paused := paused + [r2 < 0.1];
    }
  }

  // ---------------------------------------------------------------------
  // Browser fingerprint

  const UserAgents: seq<string> := [
    "Mozilla/5.0 (Windows NT 10.0; Win64; x64) AppleWebKit/537.36 (KHTML, like Gecko) Chrome/120.0.0.0 Safari/537.36",
    "Mozilla/5.0 (Windows NT 10.0; Win64; x64) AppleWebKit/537.36 (KHTML, like Gecko) Chrome/121.0.0.0 Safari/537.36",
    "Mozilla/5.0 (Windows NT 10.0; Win64; x64) AppleWebKit/537.36 (KHTML, like Gecko) Chrome/122.0.0.0 Safari/537.36",
    "Mozilla/5.0 (Windows NT 10.0; Win64; x64) AppleWebKit/537.36 (KHTML, like Gecko) Chrome/123.0.0.0 Safari/537.36",
    "Mozilla/5.0 (Macintosh; Intel Mac OS X 10_15_7) AppleWebKit/537.36 (KHTML, like Gecko) Chrome/120.0.0.0 Safari/537.36",
    "Mozilla/5.0 (Macintosh; Intel Mac OS X 10_15_7) AppleWebKit/537.36 (KHTML, like Gecko) Chrome/121.0.0.0 Safari/537.36"
  ]

  datatype Screen = Screen(width: nat, height: nat)

  const ScreenSizes: seq<Screen> := [
    Screen(1920, 1080), Screen(1366, 768), Screen(1536, 864), Screen(1440, 900), Screen(1680, 1050)
  ]

  /** `USER_AGENTS[Math.floor(Math.random() * USER_AGENTS.length)]` and the
      same for `SCREEN_SIZES`: each is a catalog entry. */
  method PickFingerprint() returns (userAgent: string, screen: Screen)
    ensures userAgent in UserAgents && screen in ScreenSizes
  {
    var r1: real :| 0.0 <= r1 < 1.0;
    var r2: real :| 0.0 <= r2 < 1.0;
    RandomIntRange(r1, |UserAgents|);
    RandomIntRange(r2, |ScreenSizes|);
    userAgent := UserAgents[RandomInt(r1, |UserAgents|)];
    screen := ScreenSizes[RandomInt(r2, |ScreenSizes|)];
  }

  // ---------------------------------------------------------------------
  // Proxy gating

  /** An environment variable is "set" when it is a non-empty string (`process.env.X || ''`). */
  predicate IsSet(v: string) { v != "" }

  function ProxyServerArg(env: ProxyEnv): string
  {
    "--proxy-server=http://" + env.host + ":" + env.port
  }

  function WindowSizeArg(screen: Screen): string
  {
    "--window-size=" + Show(screen.width) + "," + Show(screen.height)
  }

  function BaseArgs(screen: Screen): seq<string>
  {
    [ "--no-sandbox", "--disable-setuid-sandbox", "--disable-dev-shm-usage", "--disable-gpu",
      WindowSizeArg(screen), "--disable-blink-features=AutomationControlled", "--disable-extensions",
      "--disable-plugins", "--lang=en-GB", "--disable-web-security", "--allow-running-insecure-content",
      "--ignore-certificate-errors", "--ignore-certificate-errors-spki-list" ]
  }

  /** The `launchArgs` array handed to `puppeteer.launch`. */
  function LaunchArgs(env: ProxyEnv, screen: Screen): seq<string>
  {
    BaseArgs(screen) + (if IsSet(env.host) && IsSet(env.port) then [ProxyServerArg(env)] else [])
  }

  predicate IsProxyArg(a: string)
  {
    |a| >= 15 && a[..15] == "--proxy-server="
  }

  lemma NotProxyArg(a: string)
    requires |a| > 2 && a[2] != 'p'
    ensures !IsProxyArg(a)
  {
  }

  /** A `--proxy-server` argument is passed exactly when host and port are
      both set, and then it names that host and port. */
  lemma ProxyArgGating(env: ProxyEnv, screen: Screen)
    ensures (exists a :: a in LaunchArgs(env, screen) && IsProxyArg(a)) <==> IsSet(env.host) && IsSet(env.port)
    ensures forall a :: a in LaunchArgs(env, screen) && IsProxyArg(a) ==> a == ProxyServerArg(env)
  {
    var base := BaseArgs(screen);
    forall a | a in base ensures !IsProxyArg(a) {
      NotProxyArg(a);
    }
    var p := ProxyServerArg(env);
    assert p[..15] == "--proxy-server=";
    if IsSet(env.host) && IsSet(env.port) {
      assert p in LaunchArgs(env, screen);
    }
  }

  /** The credentials `page.authenticate` is called with, if it is called. */
  function Authentication(env: ProxyEnv): Option<(string, string)>
  {
    if IsSet(env.host) && IsSet(env.port) && IsSet(env.user) && IsSet(env.pass)
    then Some((env.user, env.pass)) else None
  }

  /** Authentication happens only on top of a proxy argument, and exactly
      when user and password are set as well. */
  lemma AuthenticationGating(env: ProxyEnv, screen: Screen)
    ensures Authentication(env).Some? ==> ProxyServerArg(env) in LaunchArgs(env, screen)
    ensures Authentication(env).Some? <==>
              (exists a :: a in LaunchArgs(env, screen) && IsProxyArg(a)) && IsSet(env.user) && IsSet(env.pass)
    ensures Authentication(env).Some? ==> Authentication(env).value == (env.user, env.pass)
  {
    ProxyArgGating(env, screen);
    if Authentication(env).Some? {
      assert LaunchArgs(env, screen)[13] == ProxyServerArg(env);
    }
  }

  function ProxyNote(env: ProxyEnv): string
  {
    if !(IsSet(env.host) && IsSet(env.port)) then "No proxy configured"
    else if IsSet(env.user) && IsSet(env.pass) then "Using authenticated proxy: " + env.host + ":" + env.port
    else "Using proxy: " + env.host + ":" + env.port
  }

  function SetOrEmpty(v: string): string
  {
    if IsSet(v) then "SET" else "EMPTY"
  }

  // ---------------------------------------------------------------------
  // Challenge-page detection (`isCloudflareChallenge`)

  const Indicators: seq<string> := [
    "just a moment", "checking your browser", "please wait", "ddos protection", "cloudflare",
    "ray id", "enable javascript", "attention required", "security check"
  ]

  /** One call of `isCloudflareChallenge`: the title and the body text it
      read (`None` where the read was rejected and `''` taken instead), or an
      exception out of the `try` block. */
  datatype Probe = Read(title: Option<string>, body: Option<string>) | Threw

  function OrEmpty(s: Option<string>): string
  {
    if s.Some? then s.value else ""
  }

  /** Some indicator occurs in the lower-cased title or in the lower-cased
      first 2000 characters of the body; an exception means "no challenge". */
  predicate IsCloudflareChallenge(p: Probe)
  {
    p.Read? &&
    exists k :: 0 <= k < |Indicators| &&
                (Contains(Lower(OrEmpty(p.title)), Indicators[k])
                 || Contains(Lower(Take(OrEmpty(p.body), 2000)), Indicators[k]))
  }

  /** A failed read counts as an empty string, an exception as no challenge,
      and the case of title and body never matters. */
  lemma ChallengeReadFailures(title: string, body: string)
    ensures !IsCloudflareChallenge(Threw)
    ensures IsCloudflareChallenge(Read(None, Some(body))) == IsCloudflareChallenge(Read(Some(""), Some(body)))
    ensures IsCloudflareChallenge(Read(Some(title), None)) == IsCloudflareChallenge(Read(Some(title), Some("")))
    ensures IsCloudflareChallenge(Read(Some(Upper(title)), Some(Upper(body))))
            == IsCloudflareChallenge(Read(Some(title), Some(body)))
  {
    LowerOfUpper(title);
    assert Take(Upper(body), 2000) == Upper(Take(body, 2000));
    LowerOfUpper(Take(body, 2000));
  }

  /** Body text past the first 2000 characters is never looked at. */
  lemma ChallengeIgnoresTail(title: string, body: string, tail: string)
    requires |body| >= 2000
    ensures IsCloudflareChallenge(Read(Some(title), Some(body + tail)))
            == IsCloudflareChallenge(Read(Some(title), Some(body)))
  {
    assert Take(body + tail, 2000) == Take(body, 2000);
  }

  // ---------------------------------------------------------------------
  // What the browser reports during one attempt

  /** One poll of the results loop: the body text it read and the challenge check after it. */
  datatype PollView = PollView(text: string, probe: Probe)

  /** What is read when no registration field was found. */
  datatype MissView = MissView(text: string, url: string, title: string, probe: Probe)

  datatype Page = Page(
    fault: Option<Fault>,          // an exception thrown at one step of the attempt, if any
    proxyCheckNote: string,        // the line `verifyProxyIp` logs; it never fails the attempt
    landing: Probe,                // the challenge check 5 s after navigation
    rechecks: nat -> Probe,        // the grace loop's checks, one per second
    stuckTitle: string,            // the title read when the challenge did not clear
    cookiePresent: nat -> bool,    // which CookieSelectors `page.$` finds
    inputVisible: nat -> bool,     // which InputSelectors show a visible element within 3 s
    xpathInput: bool,              // whether the fallback XPath finds an input
    missing: MissView,             // what is read when no registration field was found
    buttonPresent: nat -> bool,    // which ButtonSelectors `page.$` finds
    buttonXPath: nat -> bool,      // which ButtonXPaths `page.$x` finds
    buttonsJson: string,           // the diagnostic list of buttons, as logged
    noButtonUrl: string,           // URL and title read when no submit control was found
    noButtonTitle: string,
    polls: nat -> PollView,        // what each poll of the results loop sees
    finalText: string)             // body text read once the polling loop is over

  const CookieSelectors: seq<string> := [
    "button.cnf-cookies_save-cookie-prefs", "#onetrust-accept-btn-handler",
    "button[id*=\"accept\"]", "[data-testid=\"cookie-accept\"]"
  ]

  const InputSelectors: seq<string> := [
    "input[name=\"vrm\"]", "input[name=\"registration\"]", "input[id*=\"registration\"]",
    "input[id*=\"vrm\"]", "input[placeholder*=\"registration\" i]", "input[placeholder*=\"reg\" i]",
    "input[data-testid*=\"registration\"]", "input[data-testid*=\"vrm\"]", "input[type=\"text\"]"
  ]

  const ButtonSelectors: seq<string> := [
    "button.btn", "button[type=\"submit\"]", "button[data-testid*=\"submit\"]", "input[type=\"submit\"]"
  ]

  const ButtonXPaths: seq<string> := [
    "//button[contains(text(), 'Find group')]", "//button[contains(text(), 'Find')]",
    "//button[contains(@class, 'btn')]"
  ]

  // ---------------------------------------------------------------------
  // The grace period after an initial challenge

  const GraceChecks := 15

  /** Which re-checks no longer see the challenge. */
  function Clears(rechecks: nat -> Probe): nat -> bool
  {
    (i: nat) => !IsCloudflareChallenge(rechecks(i))
  }

  /** The `for (let i = 0; i < 15; i++)` loop: the re-check at which the
      challenge was gone, if any. */
  method AwaitClearance(rechecks: nat -> Probe) returns (passedAt: Option<nat>)
    ensures passedAt == FirstMatch(GraceChecks, Clears(rechecks))
  {
    ghost var clears := Clears(rechecks);
    var i := 0;
    while i < GraceChecks
      invariant 0 <= i <= GraceChecks
      invariant FirstMatchFrom(GraceChecks, clears, i) == FirstMatch(GraceChecks, clears)
    {
      if !IsCloudflareChallenge(rechecks(i)) {
        assert clears(i);
        return Some(i);
      }
      assert !clears(i);
      i := i + 1;
    }
    passedAt := None;
  }

  // ---------------------------------------------------------------------
  // Waiting for the results

  /** `maxWait * 2` polls, half a second apart. */
  const MaxPolls := 40

  /** The page shows a result: "insurance group" or "the car", and some "N / 50". */
  predicate ResultsLoaded(text: string)
  {
    && (Contains(Lower(text), "insurance group") || Contains(Lower(text), "the car"))
    && Search(OutOf50, text).Some?
  }

  predicate SaysNotFound(text: string)
  {
    Contains(Lower(text), "couldn't find") || Contains(Lower(text), "not found")
    || Contains(Lower(text), "no results")
  }

  /** A poll that neither aborts nor ends the loop. */
  predicate Undecided(v: PollView)
  {
    !IsCloudflareChallenge(v.probe) && !ResultsLoaded(v.text) && !SaysNotFound(v.text)
  }

  /** What one poll concludes, the checks taken in the source's order. */
  function PollVerdict(v: PollView): Verdict
  {
    if IsCloudflareChallenge(v.probe) then ChallengeShown
    else if ResultsLoaded(v.text) then ResultShown
    else if SaysNotFound(v.text) then NotFoundShown
    else Pending
  }

  function Verdicts(polls: nat -> PollView): nat -> Verdict
  {
    (j: nat) => PollVerdict(polls(j))
  }

  function PollEndOf(polls: nat -> PollView): PollEnd
  {
    PollFrom(Verdicts(polls), MaxPolls, 0)
  }

  /** The polling `for` loop: how it ends, and whether `resultsLoaded` was set. */
  method PollResults(polls: nat -> PollView) returns (end: PollEnd, resultsLoaded: bool)
    ensures end == PollEndOf(polls)
    ensures resultsLoaded <==> end.Ready?
    ensures PollCount(end, MaxPolls) <= MaxPolls
  {
    ghost var verdicts := Verdicts(polls);
    resultsLoaded := false;
    var i := 0;
    while i < MaxPolls
      invariant 0 <= i <= MaxPolls
      invariant PollFrom(verdicts, MaxPolls, i) == PollFrom(verdicts, MaxPolls, 0)
    {
      var view := polls(i);
      assert PollVerdict(view) == verdicts(i);
      if IsCloudflareChallenge(view.probe) {
        return Challenged(i), false;
      }
      if ResultsLoaded(view.text) {
        return Ready(i), true;
      }
      if SaysNotFound(view.text) {
        return NotFound(i), false;
      }
      i := i + 1;
    }
    end := OutOfTime;
  }

  /** On a page that counts as loaded the first pattern always matches, so
      the group comes from the "N / 50" text and the ceiling stays 50. */
  lemma LoadedPageReadsOutOf50(text: string)
    requires ResultsLoaded(text)
    ensures ExtractedJs(text) == Some((Search(OutOf50, text).value.caps.group, 50))
  {
  }

  /** The `for (const pattern of patterns)` loop: the first pattern that
      matches sets `groupNum`, and `maxGroup` if it has a second group. */
  method ExtractGroup(text: string) returns (group: Option<(nat, nat)>)
    ensures group == ExtractedJs(text)
  {
    FirstHitFacts(JsPatterns, text);
    var groupNum: Option<nat> := None;
    var maxGroup := 50;
    for k := 0 to |JsPatterns|
      invariant forall j :: 0 <= j < k ==> Search(JsPatterns[j], text).None?
    {
      var hit := Search(JsPatterns[k], text);
      if hit.Some? {
        groupNum := Some(hit.value.caps.group);
        if hit.value.caps.maxGroup.Some? {
          maxGroup := hit.value.caps.maxGroup.value;
        }
        break;
      }
    }
    group := if groupNum.Some? then Some((groupNum.value, maxGroup)) else None;
  }

  // ---------------------------------------------------------------------
  // One attempt (`lookupInsuranceGroup`)

  /** The points an attempt passes, in the order the source reaches them. */
  datatype Step =
    | Start        // before the browser is launched
    | Opened       // browser and page are up
    | Landed       // the target URL has loaded
    | Passed       // no challenge, or it cleared during the grace period
    | InputFound   // a registration field was found
    | Typed        // the registration has been typed
    | ButtonFound  // a submit control was found
    | Submitted    // the form has been submitted
    | ResultsShown // a poll showed the result

  function StepsLeft(s: Step): nat
  {
    match s
    case Start => 8
    case Opened => 7
    case Landed => 6
    case Passed => 5
    case InputFound => 4
    case Typed => 3
    case ButtonFound => 2
    case Submitted => 1
    case ResultsShown => 0
  }

  /** No input selector matched and the XPath fallback found nothing either. */
  predicate NoInput(page: Page)
  {
    FirstMatch(|InputSelectors|, page.inputVisible).None? && !page.xpathInput
  }

  predicate NoButton(page: Page)
  {
    FirstMatch(|ButtonSelectors|, page.buttonPresent).None? && FirstMatch(|ButtonXPaths|, page.buttonXPath).None?
  }

  /** The challenge was seen on landing and every re-check still saw it. */
  predicate StuckOnChallenge(page: Page)
  {
    IsCloudflareChallenge(page.landing) && FirstMatch(GraceChecks, Clears(page.rechecks)).None?
  }

  /** The record an attempt against `page` returns once it has reached step
      `s`, debug trace aside: each step either takes one of the source's exit
      paths or moves on to the next step. */
  function From(s: Step, registration: string, page: Page): Attempt
    decreases StepsLeft(s), page
  {
    match s
    case Start =>
      if FaultAt(page.fault, Launch).Some? then CrashRecord(registration, FaultAt(page.fault, Launch).value)
      else From(Opened, registration, page)
    case Opened =>
      if FaultAt(page.fault, Navigate).Some? then CrashRecord(registration, FaultAt(page.fault, Navigate).value)
      else From(Landed, registration, page)
    case Landed =>
      if StuckOnChallenge(page) then BlockedRecord(registration, Some(page.stuckTitle))
      else From(Passed, registration, page)
    case Passed =>
      if NoInput(page) then
        if IsCloudflareChallenge(page.missing.probe) then BlockedRecord(registration, Some(page.missing.title))
        else Failure(registration, InputMissingError, false, [], None,
                     Some(Take(page.missing.text, 3000)), Some(page.missing.url))
      else From(InputFound, registration, page)
    case InputFound =>
      if FaultAt(page.fault, Fill).Some? then CrashRecord(registration, FaultAt(page.fault, Fill).value)
      else From(Typed, registration, page)
    case Typed =>
      if NoButton(page)
      then Failure(registration, ButtonMissingError, false, [], Some(page.noButtonTitle), None, Some(page.noButtonUrl))
      else From(ButtonFound, registration, page)
    case ButtonFound =>
      if FaultAt(page.fault, Submit).Some? then CrashRecord(registration, FaultAt(page.fault, Submit).value)
      else From(Submitted, registration, page)
    case Submitted =>
      (match PollEndOf(page.polls)
       case Challenged(_) => BlockedRecord(registration, None)
       case Ready(_) => From(ResultsShown, registration, page)
       case _ => Failure(registration, TimeoutError, false, [], None, Some(Take(page.finalText, 1500)), None))
    case ResultsShown =>
      (match ExtractedJs(page.finalText)
       case Some((n, m)) => Success(registration, n, m, DisplayText(n, m))
       case None => Failure(registration, NoGroupError, false, [], None, Some(Take(page.finalText, 1500)), None))
  }

  /** The record one attempt against `page` returns, debug trace aside. */
  function Expected(registration: string, page: Page): Attempt
  {
    From(Start, registration, page)
  }

  /** `lookupInsuranceGroup`: one attempt, logging as it goes. The steps
      after navigation are in `AfterLanding`, `AfterPassed`, `AfterInput`
      and `AfterSubmit`. */
  method LookupInsuranceGroup(registration: string, env: ProxyEnv, page: Page) returns (result: Attempt)
    ensures Bare(result) == Expected(registration, page)
  {
    var debug := ["ENV check - PROXY_HOST: " + SetOrEmpty(env.host) + ", PROXY_PORT: " + SetOrEmpty(env.port)];
    var userAgent, screen := PickFingerprint();
    debug := debug + ["User-Agent: " + Take(userAgent, 50) + "...", ProxyNote(env)];
    var args := LaunchArgs(env, screen);
    var fault := FaultAt(page.fault, Launch);
    if fault.Some? {
      return Failure(registration, fault.value, false, debug + ["Exception: " + fault.value], None, None, None);
    }
    assert Expected(registration, page) == From(Opened, registration, page);
    if Authentication(env).Some? {
      debug := debug + ["Proxy authentication configured"];
    }
    if IsSet(env.host) && IsSet(env.port) {
      debug := debug + [page.proxyCheckNote];
    }
    debug := debug + ["Navigating to confused.com..."];
    fault := FaultAt(page.fault, Navigate);
    if fault.Some? {
      return Failure(registration, fault.value, false, debug + ["Exception: " + fault.value], None, None, None);
    }
    assert Expected(registration, page) == From(Landed, registration, page);
    result := AfterLanding(registration, page, debug);
  }

  /** The challenge check after landing and its grace period. */
  method AfterLanding(registration: string, page: Page, debug: seq<string>) returns (result: Attempt)
    ensures Bare(result) == From(Landed, registration, page)
  {
    var trace := debug;
    if IsCloudflareChallenge(page.landing) {
      trace := trace + ["Cloudflare challenge detected, waiting8 seconds..."];
      var passedAt := AwaitClearance(page.rechecks);
      if passedAt.None? {
        trace := trace + ["Cloudflare challenge did not pass"];
        return Failure(registration, BlockedError, true, trace, Some(page.stuckTitle), None, None);
      }
      trace := trace + ["Cloudflare passed after " + Show(passedAt.value + 1) + "s"];
    }
    assert From(Landed, registration, page) == From(Passed, registration, page);
    result := AfterPassed(registration, page, trace + ["Page loaded successfully"]);
  }

  /** The cookie banner and the search for the registration field. */
  method AfterPassed(registration: string, page: Page, debug: seq<string>) returns (result: Attempt)
    ensures Bare(result) == From(Passed, registration, page)
  {
    var trace := debug;
    var cookie, _ := FindFirst(CookieSelectors, page.cookiePresent);
    if cookie.Some? {
      trace := trace + ["Accepted cookies"];
    }
    var input, selector := FindFirst(InputSelectors, page.inputVisible);
    if input.Some? {
      trace := trace + ["Found input with: " + selector];
    } else if page.xpathInput {
      trace := trace + ["Found input with XPath"];
    } else {
      var miss := page.missing;
      trace := trace + ["Final URL: " + miss.url, "Page title: " + miss.title];
      if IsCloudflareChallenge(miss.probe) {
        return Failure(registration, BlockedError, true, trace, Some(miss.title), None, None);
      }
      return Failure(registration, InputMissingError, false, trace, None, Some(Take(miss.text, 3000)), Some(miss.url));
    }
    assert From(Passed, registration, page) == From(InputFound, registration, page);
    result := AfterInput(registration, page, trace);
  }

  /** Typing the registration, finding the submit control and clicking it. */
  method AfterInput(registration: string, page: Page, debug: seq<string>) returns (result: Attempt)
    ensures Bare(result) == From(InputFound, registration, page)
  {
    var fault := FaultAt(page.fault, Fill);
    if fault.Some? {
      return Failure(registration, fault.value, false, debug + ["Exception: " + fault.value], None, None, None);
    }
    assert From(InputFound, registration, page) == From(Typed, registration, page);
    var delays, paused := TypeKeys(registration);
    var trace := debug + ["Typed: " + registration];

    var button, selector := FindFirst(ButtonSelectors, page.buttonPresent);
    if button.Some? {
      trace := trace + ["Found button with: " + selector];
    } else {
      var xpath, path := FindFirst(ButtonXPaths, page.buttonXPath);
      if xpath.None? {
        trace := trace + ["Buttons found on page: " + page.buttonsJson,
                          "Final URL: " + page.noButtonUrl, "Page title: " + page.noButtonTitle];
        return Failure(registration, ButtonMissingError, false, trace, Some(page.noButtonTitle), None, Some(page.noButtonUrl));
      }
      trace := trace + ["Found button with XPath: " + path];
    }
    assert From(InputFound, registration, page) == From(ButtonFound, registration, page);
    fault := FaultAt(page.fault, Submit);
    if fault.Some? {
      return Failure(registration, fault.value, false, trace + ["Exception: " + fault.value], None, None, None);
    }
    assert From(InputFound, registration, page) == From(Submitted, registration, page);
    result := AfterSubmit(registration, page, trace + ["Clicked submit"]);
  }

  /** Waiting for the results and reading the group off the page. */
  method AfterSubmit(registration: string, page: Page, debug: seq<string>) returns (result: Attempt)
    ensures Bare(result) == From(Submitted, registration, page)
  {
    var trace := debug;
    var end, resultsLoaded := PollResults(page.polls);
    if end.Challenged? {
      return Failure(registration, BlockedError, true, trace, None, None, None);
    }
    if end.Ready? {
      trace := trace + ["Results loaded in " + ShowTenths((end.at + 1) * 500) + "s"];
    } else if end.NotFound? {
      trace := trace + ["Vehicle not found"];
    }
    if !resultsLoaded {
      return Failure(registration, TimeoutError, false, trace, None, Some(Take(page.finalText, 1500)), None);
    }
    var group := ExtractGroup(page.finalText);
    if group.Some? {
      var (n, m) := group.value;
      return Success(registration, n, m, DisplayText(n, m));
    }
    return Failure(registration, NoGroupError, false, trace, None, Some(Take(page.finalText, 1500)), None);
  }

  // ---------------------------------------------------------------------
  // What an attempt's record guarantees

  /** After a challenge on landing the attempt is abandoned as blocked
      exactly when all fifteen re-checks still see it; otherwise it goes on
      as if no challenge had been seen. */
  lemma GracePeriod(registration: string, page: Page)
    ensures (IsCloudflareChallenge(page.landing) && forall i :: 0 <= i < GraceChecks ==> IsCloudflareChallenge(page.rechecks(i)))
            ==> From(Landed, registration, page) == BlockedRecord(registration, Some(page.stuckTitle))
    ensures !(IsCloudflareChallenge(page.landing) && forall i :: 0 <= i < GraceChecks ==> IsCloudflareChallenge(page.rechecks(i)))
            ==> From(Landed, registration, page) == From(Passed, registration, page)
  {
    FirstMatchFacts(GraceChecks, Clears(page.rechecks));
    assert forall i :: 0 <= i < GraceChecks ==> (Clears(page.rechecks)(i) <==> !IsCloudflareChallenge(page.rechecks(i)));
  }

  /** A blocked record is only produced after a challenge was seen: on
      landing and at every re-check, on the page left without a
      registration field, or at a poll. */
  lemma {:induction false} BlockedOnlyOnChallenge(s: Step, registration: string, page: Page)
    requires Blocked(From(s, registration, page))
    ensures || StuckOnChallenge(page)
            || (NoInput(page) && IsCloudflareChallenge(page.missing.probe))
            || (exists i :: 0 <= i < MaxPolls && IsCloudflareChallenge(page.polls(i).probe))
    decreases StepsLeft(s)
  {
    match s
    case Start => BlockedOnlyOnChallenge(Opened, registration, page);
    case Opened => BlockedOnlyOnChallenge(Landed, registration, page);
    case Landed =>
      if !StuckOnChallenge(page) {
        BlockedOnlyOnChallenge(Passed, registration, page);
      }
    case Passed =>
      if !NoInput(page) {
        BlockedOnlyOnChallenge(InputFound, registration, page);
      }
    case InputFound => BlockedOnlyOnChallenge(Typed, registration, page);
    case Typed => BlockedOnlyOnChallenge(ButtonFound, registration, page);
    case ButtonFound => BlockedOnlyOnChallenge(Submitted, registration, page);
    case Submitted =>
      var verdicts := Verdicts(page.polls);
      var end := PollFrom(verdicts, MaxPolls, 0);
      PollFromFacts(verdicts, MaxPolls, 0);
      if end.Challenged? {
        assert verdicts(end.at) == ChallengeShown;
        assert IsCloudflareChallenge(page.polls(end.at).probe);
      } else {
        assert end.Ready?;
        BlockedOnlyOnChallenge(ResultsShown, registration, page);
      }
    case ResultsShown =>
  }

  /** A missing registration field is reported as blocked (and so retried)
      exactly when the challenge check on that page fires; otherwise it is
      the terminal "input not found" record with its text sample and URL. */
  lemma MissingInputClassification(registration: string, page: Page)
    requires page.fault.None?
    requires !IsCloudflareChallenge(page.landing)
    requires NoInput(page)
    ensures Blocked(Expected(registration, page)) <==> IsCloudflareChallenge(page.missing.probe)
    ensures !Blocked(Expected(registration, page)) ==>
              Expected(registration, page) ==
              Failure(registration, InputMissingError, false, [], None,
                      Some(Take(page.missing.text, 3000)), Some(page.missing.url))
  {
    assert Expected(registration, page) == From(Opened, registration, page);
    assert Expected(registration, page) == From(Landed, registration, page);
    assert Expected(registration, page) == From(Passed, registration, page);
  }

  /** The polling loop ended on a poll that showed a loaded result page
      without a challenge, every earlier poll having been undecided. */
  predicate EndedOnLoadedPage(polls: nat -> PollView)
  {
    var end := PollEndOf(polls);
    && end.Ready? && end.at < MaxPolls
    && !IsCloudflareChallenge(polls(end.at).probe) && ResultsLoaded(polls(end.at).text)
    && forall j :: 0 <= j < end.at ==> Undecided(polls(j))
  }

  lemma ReadyEndFacts(polls: nat -> PollView)
    requires PollEndOf(polls).Ready?
    ensures EndedOnLoadedPage(polls)
  {
    var verdicts := Verdicts(polls);
    PollFromFacts(verdicts, MaxPolls, 0);
    var end := PollEndOf(polls);
    assert verdicts(end.at) == ResultShown;
    forall j | 0 <= j < end.at ensures Undecided(polls(j)) {
      assert verdicts(j) == Pending;
    }
  }

  /** A successful record is the one the last step makes, and reaching it
      means polling ended on a result. */
  lemma {:induction false} SuccessAfterResults(s: Step, registration: string, page: Page)
    requires From(s, registration, page).Success?
    ensures From(s, registration, page) == From(ResultsShown, registration, page)
    ensures s != ResultsShown ==> PollEndOf(page.polls).Ready?
    decreases StepsLeft(s)
  {
    match s
    case Start => SuccessAfterResults(Opened, registration, page);
    case Opened => SuccessAfterResults(Landed, registration, page);
    case Landed => SuccessAfterResults(Passed, registration, page);
    case Passed => SuccessAfterResults(InputFound, registration, page);
    case InputFound => SuccessAfterResults(Typed, registration, page);
    case Typed => SuccessAfterResults(ButtonFound, registration, page);
    case ButtonFound => SuccessAfterResults(Submitted, registration, page);
    case Submitted => SuccessAfterResults(ResultsShown, registration, page);
    case ResultsShown =>
  }

  /** Success only follows a polling loop that ended on a poll showing a
      loaded result page without a challenge, every earlier poll having been
      undecided; its numbers are what the patterns extract from the final
      text, and the display text reads back as the same group, with the
      ceiling read as 50 when its numeral starts with "50". */
  lemma SuccessFollowsLoadedPage(s: Step, registration: string, page: Page)
    requires From(s, registration, page).Success?
    ensures s != ResultsShown ==> EndedOnLoadedPage(page.polls)
    ensures var r := From(s, registration, page);
            && ExtractedJs(page.finalText) == Some((r.insuranceGroup, r.maxGroup))
            && r.displayText == DisplayText(r.insuranceGroup, r.maxGroup)
            && ExtractedJs(r.displayText)
               == Some((r.insuranceGroup, if StartsWith50(Show(r.maxGroup)) then 50 else r.maxGroup))
  {
    SuccessAfterResults(s, registration, page);
    if s != ResultsShown {
      ReadyEndFacts(page.polls);
    }
    var r := From(s, registration, page);
    DisplayTextRoundTripJs(r.insuranceGroup, r.maxGroup);
  }

  /** The attempt clicks submit: no exception is thrown, no challenge
      outlasts the grace period, and both a registration field and a submit
      control are found. */
  predicate ReachesSubmit(page: Page)
  {
    page.fault.None? && !StuckOnChallenge(page) && !NoInput(page) && !NoButton(page)
  }

  /** Once submit has been clicked, how polling ends decides the record: a
      challenge gives the blocked record; an exit without a loaded page (a
      "not found" text or all 40 polls spent) gives the timeout record; a
      loaded page gives the extracted group or, when no pattern matches, the
      "could not find" record. Both failures carry the first 1500 characters
      of the final text. */
  lemma PollOutcomeDecidesRecord(registration: string, page: Page)
    requires ReachesSubmit(page)
    ensures var end := PollEndOf(page.polls);
            var r := Expected(registration, page);
            var group := ExtractedJs(page.finalText);
            && (end.Challenged? ==> r == BlockedRecord(registration, None))
            && (end.NotFound? || end.OutOfTime? ==>
                  r == Failure(registration, TimeoutError, false, [], None, Some(Take(page.finalText, 1500)), None))
            && (end.Ready? && group.None? ==>
                  r == Failure(registration, NoGroupError, false, [], None, Some(Take(page.finalText, 1500)), None))
            && (end.Ready? && group.Some? ==>
                  r == Success(registration, group.value.0, group.value.1, DisplayText(group.value.0, group.value.1)))
  {
    assert Expected(registration, page) == From(Opened, registration, page);
    assert Expected(registration, page) == From(Landed, registration, page);
    assert Expected(registration, page) == From(Passed, registration, page);
    assert Expected(registration, page) == From(InputFound, registration, page);
    assert Expected(registration, page) == From(Typed, registration, page);
    assert Expected(registration, page) == From(ButtonFound, registration, page);
    assert Expected(registration, page) == From(Submitted, registration, page);
    if PollEndOf(page.polls).Ready? {
      assert Expected(registration, page) == From(ResultsShown, registration, page);
    }
  }

  /** Every failure that is not an exception carries one of the five fixed
      messages; only "Blocked by Cloudflare" carries the retry flag; a text
      sample is at most 3000 characters. */
  lemma {:induction false} FailureMessages(s: Step, registration: string, page: Page)
    requires page.fault.None?
    requires From(s, registration, page).Failure?
    ensures From(s, registration, page).error in
              {BlockedError, InputMissingError, ButtonMissingError, TimeoutError, NoGroupError}
    ensures Blocked(From(s, registration, page)) <==> From(s, registration, page).error == BlockedError
    ensures From(s, registration, page).pageTextSample.Some? ==>
              |From(s, registration, page).pageTextSample.value| <= 3000
    decreases StepsLeft(s)
  {
    match s
    case Start => FailureMessages(Opened, registration, page);
    case Opened => FailureMessages(Landed, registration, page);
    case Landed =>
      if !StuckOnChallenge(page) {
        FailureMessages(Passed, registration, page);
      }
    case Passed =>
      if !NoInput(page) {
        FailureMessages(InputFound, registration, page);
      }
    case InputFound => FailureMessages(Typed, registration, page);
    case Typed =>
      if !NoButton(page) {
        FailureMessages(ButtonFound, registration, page);
      }
    case ButtonFound => FailureMessages(Submitted, registration, page);
    case Submitted =>
      if PollEndOf(page.polls).Ready? {
        FailureMessages(ResultsShown, registration, page);
      }
    case ResultsShown =>
  }

  // ---------------------------------------------------------------------
  // Retry loop (`main`)

  function RetryNote(attempt: nat): string
  {
    "Cloudflare blocked, retrying (attempt " + Show(attempt + 2) + "/" + Show(MaxRetries) + ")..."
  }

  /** `main`: attempts until one is not blocked, at most five in all.
      `outcomes` are the records the attempts returned, in order: attempt `k`
      runs against `pages(k)`, every attempt but the last was blocked, and
      the last is blocked only if all five were made. The retry note is
      pushed onto a record that the next attempt then replaces, so the record
      `main` returns is always the last attempt's record unchanged.
      `Retries.ShapeIsRuns` shows these are exactly the records `Runs` lists. */
  method RunWithRetries(registration: string, env: ProxyEnv, pages: nat -> Page)
    returns (result: Attempt, outcomes: seq<Attempt>)
    ensures 1 <= |outcomes| <= MaxRetries && result == outcomes[|outcomes| - 1]
    ensures forall k :: 0 <= k < |outcomes| ==> Bare(outcomes[k]) == Expected(registration, pages(k))
    ensures forall k :: 0 <= k < |outcomes| - 1 ==> Blocked(outcomes[k])
    ensures |outcomes| < MaxRetries ==> !Blocked(result)
  {
    outcomes := [];
    var attempt := 0;
    while true
      invariant attempt < MaxRetries && |outcomes| == attempt
      invariant forall k :: 0 <= k < attempt ==> Bare(outcomes[k]) == Expected(registration, pages(k))
      invariant forall k :: 0 <= k < attempt ==> Blocked(outcomes[k])
      decreases MaxRetries - attempt
    {
      result := LookupInsuranceGroup(registration, env, pages(attempt));
      outcomes := outcomes + [result];
      if result.Success? {
        return;
      }
      if result.cloudflareBlocked && attempt < MaxRetries - 1 {
        result := result.(debug := result.debug + [RetryNote(attempt)]);
        attempt := attempt + 1;
        continue;
      }
      break;
    }
  }
}
