/** The Playwright/Firefox crawler (crawler.py): fingerprint choice,
    keystroke timing, challenge-page detection, proxy configuration, one
    lookup attempt driven by what the browser reports, and the retry loop.

    The browser is an oracle (`Page`): every title, body text and selector
    answer the crawler would ask for is a field, in the order it is asked.
    `random` is a nondeterministic choice inside the range the source draws
    from; sleeps are not modelled, only the time budget of the polling loop. */
module CrawlerPy {
  import opened Text
  import opened Records
  import opened Selectors
  import opened GroupPatterns
  import opened Polling
  import opened Retries

  // ---------------------------------------------------------------------
  // Fingerprint catalogs and their sampling

  datatype UaEntry = UaEntry(ua: string, platform: string, os: string)

  const UserAgents: seq<UaEntry> := [
    UaEntry("Mozilla/5.0 (Windows NT 10.0; Win64; x64; rv:121.0) Gecko/20100101 Firefox/121.0", "Win32", "Windows"),
    UaEntry("Mozilla/5.0 (Windows NT 10.0; Win64; x64; rv:120.0) Gecko/20100101 Firefox/120.0", "Win32", "Windows"),
    UaEntry("Mozilla/5.0 (Windows NT 10.0; Win64; x64; rv:122.0) Gecko/20100101 Firefox/122.0", "Win32", "Windows"),
    UaEntry("Mozilla/5.0 (Windows NT 10.0; Win64; x64; rv:119.0) Gecko/20100101 Firefox/119.0", "Win32", "Windows"),
    UaEntry("Mozilla/5.0 (Windows NT 10.0; Win64; x64; rv:123.0) Gecko/20100101 Firefox/123.0", "Win32", "Windows"),
    UaEntry("Mozilla/5.0 (Macintosh; Intel Mac OS X 10.15; rv:121.0) Gecko/20100101 Firefox/121.0", "MacIntel", "macOS"),
    UaEntry("Mozilla/5.0 (Macintosh; Intel Mac OS X 10.15; rv:120.0) Gecko/20100101 Firefox/120.0", "MacIntel", "macOS"),
    UaEntry("Mozilla/5.0 (Macintosh; Intel Mac OS X 14.0; rv:121.0) Gecko/20100101 Firefox/121.0", "MacIntel", "macOS"),
    UaEntry("Mozilla/5.0 (X11; Linux x86_64; rv:121.0) Gecko/20100101 Firefox/121.0", "Linux x86_64", "Linux"),
    UaEntry("Mozilla/5.0 (X11; Ubuntu; Linux x86_64; rv:120.0) Gecko/20100101 Firefox/120.0", "Linux x86_64", "Linux"),
    UaEntry("Mozilla/5.0 (X11; Linux x86_64; rv:122.0) Gecko/20100101 Firefox/122.0", "Linux x86_64", "Linux")
  ]

  datatype Viewport = Viewport(width: nat, height: nat)

  const ScreenConfigs: seq<Viewport> := [
    Viewport(1920, 1080), Viewport(1366, 768), Viewport(1536, 864),
    Viewport(1440, 900), Viewport(1680, 1050), Viewport(2560, 1440),
    Viewport(1280, 720), Viewport(1600, 900), Viewport(1280, 800)
  ]

  datatype LocaleEntry = LocaleEntry(locale: string, timezone: string)

  const LocaleConfigs: seq<LocaleEntry> := [LocaleEntry("en-GB", "Europe/London")]

  const AcceptLanguages: seq<string> := ["en-GB,en;q=0.9", "en-GB,en-US;q=0.9,en;q=0.8"]

  datatype Fingerprint = Fingerprint(
    userAgent: string, platform: string, osType: string, viewport: Viewport,
    locale: string, timezone: string, acceptLanguage: string)

  /** Each group of fields is one whole catalog entry: the user agent, its
      platform and its OS family are never mixed across entries. */
  predicate FromCatalogs(fp: Fingerprint)
  {
    && UaEntry(fp.userAgent, fp.platform, fp.osType) in UserAgents
    && fp.viewport in ScreenConfigs
    && LocaleEntry(fp.locale, fp.timezone) in LocaleConfigs
    && fp.acceptLanguage in AcceptLanguages
  }

  /** `generate_random_fingerprint`: one `random.choice` per catalog. */
  method GenerateRandomFingerprint() returns (fp: Fingerprint)
    ensures FromCatalogs(fp)
  {
    var u :| 0 <= u < |UserAgents|;
    var v :| 0 <= v < |ScreenConfigs|;
    var l :| 0 <= l < |LocaleConfigs|;
    var a :| 0 <= a < |AcceptLanguages|;
    var entry, locale := UserAgents[u], LocaleConfigs[l];
    fp := Fingerprint(entry.ua, entry.platform, entry.os, ScreenConfigs[v],
                      locale.locale, locale.timezone, AcceptLanguages[a]);
  }

  /** The platform string each OS family declares. */
  function PlatformOf(os: string): string
  {
    if os == "Windows" then "Win32" else if os == "macOS" then "MacIntel" else "Linux x86_64"
  }

  /** Within the catalog the declared platform always agrees with the OS family. */
  lemma CatalogPlatformsAgree(fp: Fingerprint)
    requires FromCatalogs(fp)
    ensures fp.platform == PlatformOf(fp.osType)
    ensures fp.osType in {"Windows", "macOS", "Linux"}
  {
  }

  // ---------------------------------------------------------------------
  // Keystroke timing (`human_type`)

  const FastPairs: seq<string> := ["th", "he", "in", "er", "an", "re", "on", "at", "en", "nd"]

  datatype KeyClass = FastPair | UpperCase | Digit | Space | Plain

  /** Which branch of `human_type` a character takes, given the lower-cased
      previous character (`""` before the first one). */
  function ClassifyKey(prev: string, c: char): KeyClass
  {
    if prev + [LowerChar(c)] in FastPairs then FastPair
    else if IsUpper(c) then UpperCase
    else if IsDigit(c) then Digit
    else if c == ' ' then Space
    else Plain
  }

  /** The delays (ms) each branch can draw; a plain key may add a 80..200 ms hesitation to its 50..100. */
  predicate DelayFits(k: KeyClass, d: int)
  {
    match k
    case FastPair => 30 <= d <= 60
    case UpperCase => 80 <= d <= 140
    case Digit => 100 <= d <= 180
    case Space => 40 <= d <= 120
    case Plain => 50 <= d <= 100 || 130 <= d <= 300
  }

  /** `prev_char` when the `i`-th character is typed. */
  function PrevChar(text: string, i: nat): string
    requires i <= |text|
  {
    if i == 0 then "" else [LowerChar(text[i - 1])]
  }

  /** The branch the `i`-th character of `text` takes. */
  function KeyAt(text: string, i: nat): KeyClass
    requires i < |text|
  {
    ClassifyKey(PrevChar(text, i), text[i])
  }

  /** `human_type`: the delay after each character and the final pause. */
  method HumanType(text: string) returns (delays: seq<int>, pause: int)
    ensures |delays| == |text|
    ensures forall i :: 0 <= i < |text| ==> DelayFits(KeyAt(text, i), delays[i])
    ensures 50 <= pause <= 150
  {
    var prevChar := "";
    delays := [];
    for i := 0 to |text|
      invariant |delays| == i
      invariant prevChar == PrevChar(text, i)
      invariant forall j :: 0 <= j < i ==> DelayFits(KeyAt(text, j), delays[j])
    {
      var c := text[i];
      var key := ClassifyKey(prevChar, c);  // the `if ... in fast_pairs / elif ...` chain
      assert key == KeyAt(text, i);
      var delay: int;
      if key == FastPair {
        delay :| 30 <= delay <= 60;
      } else if key == UpperCase {
        delay :| 80 <= delay <= 140;
      } else if key == Digit {
        delay :| 100 <= delay <= 180;
      } else if key == Space {
        delay :| 40 <= delay <= 120;
      } else {
        delay :| 50 <= delay <= 100;
        var hesitate: bool :| true;  // random.random() < 0.08
        if hesitate {
          var extra :| 80 <= extra <= 200;
          delay := delay + extra;
        }
      }
      delays := delays + [delay];
      prevChar := [LowerChar(c)];
    }
    pause :| 50 <= pause <= 150;
  }

  /** Every keystroke delay lies in 30..300 ms. */
  lemma KeyDelayRange(k: KeyClass, d: int)
    requires DelayFits(k, d)
    ensures 30 <= d <= 300
  {
  }

  /** The first character can never be a fast bigram: `prev_char` starts empty. */
  lemma FirstKeyNeverFast(c: char)
    ensures ClassifyKey("", c) != FastPair
  {
    assert |"" + [LowerChar(c)]| == 1;
  }

  function Sum(s: seq<int>): int
  {
    if s == [] then 0 else s[0] + Sum(s[1..])
  }

  lemma {:induction false} SumBounds(ds: seq<int>)
    requires forall i :: 0 <= i < |ds| ==> 30 <= ds[i] <= 300
    ensures 30 * |ds| <= Sum(ds) <= 300 * |ds|
  {
    if ds != [] {
      assert forall i :: 0 <= i < |ds| - 1 ==> ds[1..][i] == ds[i + 1];
      SumBounds(ds[1..]);
    }
  }

  /** Typing time grows at most linearly: between 30 and 300 ms per
      character plus the 50..150 ms final pause. */
  lemma TypingTimeBound(text: string, delays: seq<int>, pause: int)
    requires |delays| == |text|
    requires forall i :: 0 <= i < |text| ==> DelayFits(KeyAt(text, i), delays[i])
    requires 50 <= pause <= 150
    ensures 30 * |text| + 50 <= Sum(delays) + pause <= 300 * |text| + 150
  {
    forall i | 0 <= i < |delays| ensures 30 <= delays[i] <= 300 {
      KeyDelayRange(KeyAt(text, i), delays[i]);
    }
    SumBounds(delays);
  }

  // ---------------------------------------------------------------------
  // Challenge-page detection (`is_cloudflare_challenge`)

  const Indicators: seq<string> := [
    "just a moment", "checking your browser", "please wait", "ddos protection", "cloudflare",
    "ray id", "enable javascript", "unusual activity", "security check", "attention required"
  ]

  /** Python's `x if x else ""` for a possibly-`None` string. */
  function OrEmpty(s: Option<string>): string
  {
    if s.Some? then s.value else ""
  }

  /** `is_cloudflare_challenge`: some indicator occurs in the lower-cased
      title or in the first 500 characters of the lower-cased body text; a
      missing title or text reads as "". */
  predicate IsCloudflareChallenge(title: Option<string>, text: Option<string>)
  {
    exists k :: 0 <= k < |Indicators| &&
                (Contains(Lower(OrEmpty(title)), Indicators[k])
                 || Contains(Take(Lower(OrEmpty(text)), 500), Indicators[k]))
  }

  /** Upper- or lower-casing the title and text never changes the verdict,
      and a missing title or text is the same as an empty one. */
  lemma ChallengeIgnoresCase(title: string, text: string)
    ensures IsCloudflareChallenge(Some(Upper(title)), Some(Upper(text))) == IsCloudflareChallenge(Some(title), Some(text))
    ensures IsCloudflareChallenge(Some(Lower(title)), Some(Lower(text))) == IsCloudflareChallenge(Some(title), Some(text))
    ensures IsCloudflareChallenge(None, Some(text)) == IsCloudflareChallenge(Some(""), Some(text))
    ensures IsCloudflareChallenge(Some(title), None) == IsCloudflareChallenge(Some(title), Some(""))
  {
    LowerOfUpper(title);
    LowerOfUpper(text);
    LowerOfLower(title);
    LowerOfLower(text);
  }

  /** Text past the first 500 characters of the body is never looked at. */
  lemma ChallengeIgnoresTail(title: string, text: string, tail: string)
    requires |text| >= 500
    ensures IsCloudflareChallenge(Some(title), Some(text + tail)) == IsCloudflareChallenge(Some(title), Some(text))
  {
    assert Take(Lower(text + tail), 500) == Take(Lower(text), 500);
  }

  // ---------------------------------------------------------------------
  // Proxy configuration

  datatype ProxyConfig = ProxyConfig(server: string, credentials: Option<(string, string)>)

  /** The `proxy_config` dict: present only if host and port both hold a
      character that is not Python whitespace; credentials only if user and
      password are both non-empty. */
  function ProxyConfigFor(env: ProxyEnv): (r: Option<ProxyConfig>)
    ensures r.Some? <==> !AllSpace(Python, env.host) && !AllSpace(Python, env.port)
    ensures r.Some? ==> r.value.server == "http://" + env.host + ":" + env.port
    ensures r.Some? ==> (r.value.credentials.Some? <==> env.user != "" && env.pass != "")
    ensures r.Some? && r.value.credentials.Some? ==> r.value.credentials.value == (env.user, env.pass)
  {
    StripEmpty(Python, env.host);
    StripEmpty(Python, env.port);
    if env.host != "" && env.port != "" && Strip(Python, env.host) != "" && Strip(Python, env.port) != "" then
      Some(ProxyConfig("http://" + env.host + ":" + env.port,
                       if env.user != "" && env.pass != "" then Some((env.user, env.pass)) else None))
    else None
  }

  function ProxyNote(env: ProxyEnv): string
  {
    if ProxyConfigFor(env).Some? then "Using proxy: " + env.host + ":" + env.port else "No proxy configured"
  }

  // ---------------------------------------------------------------------
  // What the browser reports during one attempt

  datatype Snapshot = Snapshot(title: string, text: string)

  /** What the page shows when no input selector matched: body text, URL, title. */
  datatype MissView = MissView(text: string, url: string, title: string)

  datatype Page = Page(
    fault: Option<Fault>,           // an exception raised at one step of the attempt, if any
    proxyCheckNote: string,         // the line `verify_proxy_ip` logs; it never fails the attempt
    landing: Snapshot,              // title and body text two seconds after navigation
    cookieVisible: nat -> bool,     // which CookieSelectors are visible when checked
    inputVisible: nat -> bool,      // which InputSelectors are visible when checked
    missing: MissView,              // what is read when no registration field was found
    buttonVisible: nat -> bool,     // which ButtonSelectors are visible when checked
    polls: nat -> Snapshot,         // title and body text at each poll of the results loop
    finalText: string)              // body text read once the polling loop is over

  const CookieSelectors: seq<string> := [
    "button:has-text(\"Accept all\")", "button:has-text(\"Accept\")", "#onetrust-accept-btn-handler"
  ]

  const InputSelectors: seq<string> := [
    "input[data-testid=\"vrm-input\"]", "input[name=\"vrm\"]", "input[name=\"registration\"]",
    "input[id=\"vrm\"]", "input[placeholder*=\"registration\" i]", "input[placeholder*=\"reg\" i]",
    "input[placeholder*=\"number plate\" i]", "input[aria-label*=\"registration\" i]",
    "input[type=\"text\"][maxlength]", "input.vrm-input", "#registration-input", "[data-cy=\"vrm-input\"] input"
  ]

  const ButtonSelectors: seq<string> := [
    "button[data-testid=\"vrm-submit\"]", "button:has-text(\"Find insurance group\")",
    "button:has-text(\"Find\")", "button[type=\"submit\"]"
  ]

  // ---------------------------------------------------------------------
  // Waiting for the results

  const PollStepMs := 300
  const PollBudgetMs := 20000
  /** 0.3 s steps against a 20 s budget: the 67th poll brings the clock to 20.1 s. */
  const MaxPolls := 67

  /** The page shows this registration's result. */
  predicate ResultsReady(registration: string, text: string)
  {
    && Contains(Upper(text), Upper(registration))
    && !Contains(Lower(text), "retrieving data")
    && Contains(Lower(text), "your car insurance group")
  }

  predicate SaysNotFound(text: string)
  {
    Contains(Lower(text), "couldn't find") || Contains(Lower(text), "not found")
  }

  predicate PollChallenged(s: Snapshot)
  {
    IsCloudflareChallenge(Some(s.title), Some(s.text))
  }

  /** A poll that neither aborts nor ends the loop. */
  predicate Undecided(registration: string, s: Snapshot)
  {
    !PollChallenged(s) && !ResultsReady(registration, s.text) && !SaysNotFound(s.text)
  }

  /** What one poll concludes, the checks taken in the source's order. */
  function PollVerdict(registration: string, s: Snapshot): Verdict
  {
    if PollChallenged(s) then ChallengeShown
    else if ResultsReady(registration, s.text) then ResultShown
    else if SaysNotFound(s.text) then NotFoundShown
    else Pending
  }

  function Verdicts(registration: string, polls: nat -> Snapshot): nat -> Verdict
  {
    (j: nat) => PollVerdict(registration, polls(j))
  }

  /** How this crawler's polling loop ends. */
  function PollEndOf(registration: string, polls: nat -> Snapshot): PollEnd
  {
    PollFrom(Verdicts(registration, polls), MaxPolls, 0)
  }

  /** The `while waited < max_wait` loop, with the clock in whole milliseconds. */
  method PollResults(registration: string, polls: nat -> Snapshot) returns (end: PollEnd, waitedMs: nat)
    ensures end == PollEndOf(registration, polls)
    ensures waitedMs == PollStepMs * PollCount(end, MaxPolls)
    ensures PollCount(end, MaxPolls) <= MaxPolls
  {
    ghost var verdicts := Verdicts(registration, polls);
    waitedMs := 0;
    var i := 0;
    while waitedMs < PollBudgetMs
      invariant waitedMs == PollStepMs * i && i <= MaxPolls
      invariant PollFrom(verdicts, MaxPolls, i) == PollFrom(verdicts, MaxPolls, 0)
      decreases PollBudgetMs - waitedMs
    {
      waitedMs := waitedMs + PollStepMs;
      var verdict := PollVerdict(registration, polls(i));
      assert verdict == verdicts(i);
      if verdict == ChallengeShown {
        end := Challenged(i);
        return;
      }
      if verdict == ResultShown {
        end := Ready(i);
        return;
      }
      if verdict == NotFoundShown {
        end := NotFound(i);
        return;
      }
      i := i + 1;
    }
    end := OutOfTime;
  }

  /** The `for pattern in patterns` loop: the first pattern that matches sets both numbers. */
  method ExtractGroup(text: string, registration: string) returns (group: Option<(nat, nat)>)
    ensures group == ExtractedPy(text, registration)
  {
    var patterns := PyPatterns(registration);
    FirstHitFacts(patterns, text);
    group := None;
    for k := 0 to |patterns|
      invariant forall j :: 0 <= j < k ==> Search(patterns[j], text).None?
    {
      var hit := Search(patterns[k], text);
      if hit.Some? {
        group := Some((hit.value.caps.group, hit.value.caps.maxGroup.value));
        return;
      }
    }
  }

  // ---------------------------------------------------------------------
  // One attempt (`lookup_insurance_group`)

  /** The points an attempt passes, in the order the source reaches them. */
  datatype Step =
    | Start        // before the browser is launched
    | Opened       // browser, context and page are up
    | Loaded       // the target URL has loaded
    | InputFound   // a registration field was found
    | Typed        // the registration has been typed
    | ButtonFound  // a submit control was found
    | Submitted    // the form has been submitted
    | ResultsShown // a poll showed the result

  function StepsLeft(s: Step): nat
  {
    match s
    case Start => 7
    case Opened => 6
    case Loaded => 5
    case InputFound => 4
    case Typed => 3
    case ButtonFound => 2
    case Submitted => 1
    case ResultsShown => 0
  }

  /** The record an attempt against `page` returns once it has reached step
      `s`, debug trace aside: each step either takes one of the source's exit
      paths or moves on to the next step. */
  function From(s: Step, registration: string, page: Page): Attempt
    decreases StepsLeft(s), page
  {
    match s
    case Start =>
      if FaultAt(page.fault, Launch).Some? then CrashRecord(registration, FaultAt(page.fault, Launch).value)
      else From(Opened, registration, page)
    case Opened =>
      if FaultAt(page.fault, Navigate).Some? then CrashRecord(registration, FaultAt(page.fault, Navigate).value)
      else From(Loaded, registration, page)
    case Loaded =>
      if PollChallenged(page.landing) then BlockedRecord(registration, Some(page.landing.title))
      else if FirstMatch(|InputSelectors|, page.inputVisible).None? then
        if IsCloudflareChallenge(Some(page.missing.title), Some(page.missing.text))
        then BlockedRecord(registration, Some(page.missing.title))
        else Failure(registration, InputMissingError, false, [], None,
                     Some(Take(page.missing.text, 3000)), Some(page.missing.url))
      else From(InputFound, registration, page)
    case InputFound =>
      if FaultAt(page.fault, Fill).Some? then CrashRecord(registration, FaultAt(page.fault, Fill).value)
      else From(Typed, registration, page)
    case Typed =>
      if FirstMatch(|ButtonSelectors|, page.buttonVisible).None?
      then Failure(registration, ButtonMissingError, false, [], None, None, None)
      else From(ButtonFound, registration, page)
    case ButtonFound =>
      if FaultAt(page.fault, Submit).Some? then CrashRecord(registration, FaultAt(page.fault, Submit).value)
      else From(Submitted, registration, page)
    case Submitted =>
      (match PollEndOf(registration, page.polls)
       case Challenged(_) => BlockedRecord(registration, None)
       case Ready(_) => From(ResultsShown, registration, page)
       case _ => Failure(registration, TimeoutError, false, [], None, Some(Take(page.finalText, 1500)), None))
    case ResultsShown =>
      (match ExtractedPy(page.finalText, registration)
       case Some((n, m)) => Success(registration, n, m, DisplayText(n, m))
       case None => Failure(registration, NoGroupError, false, [], None, Some(Take(page.finalText, 1500)), None))
  }

  /** The record one attempt against `page` returns, debug trace aside. */
  function Expected(registration: string, page: Page): Attempt
  {
    From(Start, registration, page)
  }

  /** `lookup_insurance_group`: one attempt, logging as it goes. The steps
      after the page has loaded are in `AfterLoad`, `AfterInput` and `AfterSubmit`. */
  method LookupInsuranceGroup(registration: string, env: ProxyEnv, page: Page) returns (result: Attempt)
    ensures Bare(result) == Expected(registration, page)
  {
    var proxy := ProxyConfigFor(env);
    var fp := GenerateRandomFingerprint();
    var debug := ["Fingerprint: " + Take(fp.userAgent, 60) + "... | " + fp.osType, ProxyNote(env)];
    var fault := FaultAt(page.fault, Launch);
    if fault.Some? {
      return Failure(registration, fault.value, false, debug, None, None, None);
    }
    assert Expected(registration, page) == From(Opened, registration, page);
    if proxy.Some? {
      debug := debug + [page.proxyCheckNote];
    }
    fault := FaultAt(page.fault, Navigate);
    if fault.Some? {
      return Failure(registration, fault.value, false, debug, None, None, None);
    }
    assert Expected(registration, page) == From(Loaded, registration, page);
    debug := debug + ["Page loaded"];
    result := AfterLoad(registration, page, debug);
  }

  /** The early challenge check and the search for the registration field. */
  method AfterLoad(registration: string, page: Page, debug: seq<string>) returns (result: Attempt)
    ensures Bare(result) == From(Loaded, registration, page)
  {
    var landing := page.landing;
    if IsCloudflareChallenge(Some(landing.title), Some(landing.text)) {
      var trace := debug + ["Cloudflare challenge detected (title: " + landing.title + ")"];
      return Failure(registration, BlockedError, true, trace, Some(landing.title), None, None);
    }

    // Clicking the cookie banner (or finding none) changes nothing the model observes.
    var cookie, clicked := FindFirst(CookieSelectors, page.cookieVisible);

    var input, selector := FindFirst(InputSelectors, page.inputVisible);
    if input.None? {
      var miss := page.missing;
      var trace := debug + ["Final URL: " + miss.url, "Page title: " + miss.title];
      if IsCloudflareChallenge(Some(miss.title), Some(miss.text)) {
        return Failure(registration, BlockedError, true, trace, Some(miss.title), None, None);
      }
      return Failure(registration, InputMissingError, false, trace, None, Some(Take(miss.text, 3000)), Some(miss.url));
    }
    result := AfterInput(registration, page, debug + ["Found input with selector: " + selector]);
  }

  /** Typing the registration, finding the submit control and clicking it. */
  method AfterInput(registration: string, page: Page, debug: seq<string>) returns (result: Attempt)
    ensures Bare(result) == From(InputFound, registration, page)
  {
    var fault := FaultAt(page.fault, Fill);
    if fault.Some? {
      return Failure(registration, fault.value, false, debug, None, None, None);
    }
    assert From(InputFound, registration, page) == From(Typed, registration, page);
    var delays, pause := HumanType(registration);
    var trace := debug + ["Typed: " + registration];

    var button, _ := FindFirst(ButtonSelectors, page.buttonVisible);
    if button.None? {
      return Failure(registration, ButtonMissingError, false, trace, None, None, None);
    }
    assert From(InputFound, registration, page) == From(ButtonFound, registration, page);
    fault := FaultAt(page.fault, Submit);
    if fault.Some? {
      return Failure(registration, fault.value, false, trace, None, None, None);
    }
    assert From(InputFound, registration, page) == From(Submitted, registration, page);
    result := AfterSubmit(registration, page, trace + ["Clicked submit"]);
  }

  /** Waiting for the results and reading the group off the page. */
  method AfterSubmit(registration: string, page: Page, debug: seq<string>) returns (result: Attempt)
    ensures Bare(result) == From(Submitted, registration, page)
  {
    var end, waitedMs := PollResults(registration, page.polls);
    if end.Challenged? {
      return Failure(registration, BlockedError, true, debug, None, None, None);
    }
    if !end.Ready? {
      return Failure(registration, TimeoutError, false, debug, None, Some(Take(page.finalText, 1500)), None);
    }
    var trace := debug + ["Results loaded in " + ShowTenths(waitedMs) + "s"];

    var group := ExtractGroup(page.finalText, registration);
    if group.Some? {
      var (n, m) := group.value;
      return Success(registration, n, m, DisplayText(n, m));
    }
    return Failure(registration, NoGroupError, false, trace, None, Some(Take(page.finalText, 1500)), None);
  }

  // ---------------------------------------------------------------------
  // What an attempt's record guarantees

  /** A blocked record is only produced after a challenge was seen: on
      landing, on the page left without a registration field, or at a poll. */
  lemma {:induction false} BlockedOnlyOnChallenge(s: Step, registration: string, page: Page)
    requires Blocked(From(s, registration, page))
    ensures || PollChallenged(page.landing)
            || (FirstMatch(|InputSelectors|, page.inputVisible).None?
                && IsCloudflareChallenge(Some(page.missing.title), Some(page.missing.text)))
            || (exists i :: 0 <= i < MaxPolls && PollChallenged(page.polls(i)))
    decreases StepsLeft(s)
  {
    match s
    case Start => BlockedOnlyOnChallenge(Opened, registration, page);
    case Opened => BlockedOnlyOnChallenge(Loaded, registration, page);
    case Loaded =>
      if !PollChallenged(page.landing) && FirstMatch(|InputSelectors|, page.inputVisible).Some? {
        BlockedOnlyOnChallenge(InputFound, registration, page);
      }
    case InputFound => BlockedOnlyOnChallenge(Typed, registration, page);
    case Typed => BlockedOnlyOnChallenge(ButtonFound, registration, page);
    case ButtonFound => BlockedOnlyOnChallenge(Submitted, registration, page);
    case Submitted =>
      var verdicts := Verdicts(registration, page.polls);
      var end := PollFrom(verdicts, MaxPolls, 0);
      PollFromFacts(verdicts, MaxPolls, 0);
      if end.Challenged? {
        assert verdicts(end.at) == ChallengeShown;
        assert PollChallenged(page.polls(end.at));
      } else {
        assert end.Ready?;
        BlockedOnlyOnChallenge(ResultsShown, registration, page);
      }
    case ResultsShown =>
  }

  /** A missing registration field is reported as blocked (and so retried)
      exactly when the page it left behind looks like a challenge; otherwise
      it is the terminal "input not found" record with its text sample and URL. */
  lemma MissingInputClassification(registration: string, page: Page)
    requires page.fault.None?
    requires !PollChallenged(page.landing)
    requires FirstMatch(|InputSelectors|, page.inputVisible).None?
    ensures Blocked(Expected(registration, page))
            <==> IsCloudflareChallenge(Some(page.missing.title), Some(page.missing.text))
    ensures !Blocked(Expected(registration, page)) ==>
              Expected(registration, page) ==
              Failure(registration, InputMissingError, false, [], None,
                      Some(Take(page.missing.text, 3000)), Some(page.missing.url))
  {
    assert Expected(registration, page) == From(Opened, registration, page);
    assert Expected(registration, page) == From(Loaded, registration, page);
  }

  /** The polling loop ended on a poll that showed this registration's
      result without a challenge, every earlier poll having been undecided. */
  predicate EndedOnResult(registration: string, polls: nat -> Snapshot)
  {
    var end := PollEndOf(registration, polls);
    && end.Ready? && end.at < MaxPolls
    && !PollChallenged(polls(end.at)) && ResultsReady(registration, polls(end.at).text)
    && forall j :: 0 <= j < end.at ==> Undecided(registration, polls(j))
  }

  lemma ReadyEndFacts(registration: string, polls: nat -> Snapshot)
    requires PollEndOf(registration, polls).Ready?
    ensures EndedOnResult(registration, polls)
  {
    var verdicts := Verdicts(registration, polls);
    PollFromFacts(verdicts, MaxPolls, 0);
    var end := PollEndOf(registration, polls);
    assert verdicts(end.at) == ResultShown;
    forall j | 0 <= j < end.at ensures Undecided(registration, polls(j)) {
      assert verdicts(j) == Pending;
    }
  }

  /** A successful record is the one the last step makes, and reaching it
      means polling ended on a result. */
  lemma {:induction false} SuccessAfterResults(s: Step, registration: string, page: Page)
    requires From(s, registration, page).Success?
    ensures From(s, registration, page) == From(ResultsShown, registration, page)
    ensures s != ResultsShown ==> PollEndOf(registration, page.polls).Ready?
    decreases StepsLeft(s)
  {
    match s
    case Start => SuccessAfterResults(Opened, registration, page);
    case Opened => SuccessAfterResults(Loaded, registration, page);
    case Loaded => SuccessAfterResults(InputFound, registration, page);
    case InputFound => SuccessAfterResults(Typed, registration, page);
    case Typed => SuccessAfterResults(ButtonFound, registration, page);
    case ButtonFound => SuccessAfterResults(Submitted, registration, page);
    case Submitted => SuccessAfterResults(ResultsShown, registration, page);
    case ResultsShown =>
  }

  /** Success only follows a polling loop that ended on a poll showing this
      registration's result without a challenge, every earlier poll having
      been undecided; its numbers are what the patterns extract from the
      final text, and the display text reads back as the same numbers. */
  lemma SuccessFollowsReadyPage(s: Step, registration: string, page: Page)
    requires From(s, registration, page).Success?
    ensures s != ResultsShown ==> EndedOnResult(registration, page.polls)
    ensures var r := From(s, registration, page);
            && ExtractedPy(page.finalText, registration) == Some((r.insuranceGroup, r.maxGroup))
            && r.displayText == DisplayText(r.insuranceGroup, r.maxGroup)
            && ExtractedPy(r.displayText, registration) == Some((r.insuranceGroup, r.maxGroup))
  {
    SuccessAfterResults(s, registration, page);
    if s != ResultsShown {
      ReadyEndFacts(registration, page.polls);
    }
    var r := From(s, registration, page);
    DisplayTextRoundTripPy(r.insuranceGroup, r.maxGroup, registration);
  }

  /** The attempt clicks submit: no exception is raised, the landing page is
      no challenge, and both the registration field and a submit control
      are found. */
  predicate ReachesSubmit(page: Page)
  {
    && page.fault.None?
    && !PollChallenged(page.landing)
    && FirstMatch(|InputSelectors|, page.inputVisible).Some?
    && FirstMatch(|ButtonSelectors|, page.buttonVisible).Some?
  }

  /** Once submit has been clicked, how polling ends decides the record: a
      challenge gives the blocked record; an exit without this
      registration's result (a "not found" text or the budget spent) gives
      the timeout record; a ready page gives the extracted group or, when no
      pattern matches, the "could not find" record. Both failures carry the
      first 1500 characters of the final text. */
  lemma PollOutcomeDecidesRecord(registration: string, page: Page)
    requires ReachesSubmit(page)
    ensures var end := PollEndOf(registration, page.polls);
            var r := Expected(registration, page);
            var group := ExtractedPy(page.finalText, registration);
            && (end.Challenged? ==> r == BlockedRecord(registration, None))
            && (end.NotFound? || end.OutOfTime? ==>
                  r == Failure(registration, TimeoutError, false, [], None, Some(Take(page.finalText, 1500)), None))
            && (end.Ready? && group.None? ==>
                  r == Failure(registration, NoGroupError, false, [], None, Some(Take(page.finalText, 1500)), None))
            && (end.Ready? && group.Some? ==>
                  r == Success(registration, group.value.0, group.value.1, DisplayText(group.value.0, group.value.1)))
  {
    assert Expected(registration, page) == From(Opened, registration, page);
    assert Expected(registration, page) == From(Loaded, registration, page);
    assert Expected(registration, page) == From(InputFound, registration, page);
    assert Expected(registration, page) == From(Typed, registration, page);
    assert Expected(registration, page) == From(ButtonFound, registration, page);
    assert Expected(registration, page) == From(Submitted, registration, page);
    if PollEndOf(registration, page.polls).Ready? {
      assert Expected(registration, page) == From(ResultsShown, registration, page);
    }
  }

  /** Every failure that is not an exception carries one of the five fixed
      messages; only "Blocked by Cloudflare" carries the retry flag; a text
      sample is at most 3000 characters. */
  lemma {:induction false} FailureMessages(s: Step, registration: string, page: Page)
    requires page.fault.None?
    requires From(s, registration, page).Failure?
    ensures From(s, registration, page).error in
              {BlockedError, InputMissingError, ButtonMissingError, TimeoutError, NoGroupError}
    ensures Blocked(From(s, registration, page)) <==> From(s, registration, page).error == BlockedError
    ensures From(s, registration, page).pageTextSample.Some? ==>
              |From(s, registration, page).pageTextSample.value| <= 3000
    decreases StepsLeft(s)
  {
    match s
    case Start => FailureMessages(Opened, registration, page);
    case Opened => FailureMessages(Loaded, registration, page);
    case Loaded =>
      if !PollChallenged(page.landing) && FirstMatch(|InputSelectors|, page.inputVisible).Some? {
        FailureMessages(InputFound, registration, page);
      }
    case InputFound => FailureMessages(Typed, registration, page);
    case Typed =>
      if FirstMatch(|ButtonSelectors|, page.buttonVisible).Some? {
        FailureMessages(ButtonFound, registration, page);
      }
    case ButtonFound => FailureMessages(Submitted, registration, page);
    case Submitted =>
      if PollEndOf(registration, page.polls).Ready? {
        FailureMessages(ResultsShown, registration, page);
      }
    case ResultsShown =>
  }

  // ---------------------------------------------------------------------
  // Retry loop (`main`)

  function RetryNote(attempt: nat): string
  {
    "Cloudflare blocked, retrying (attempt " + Show(attempt + 2) + "/" + Show(MaxRetries) + ")..."
  }

  /** `main`: attempts until one is not blocked, at most five in all.
      `outcomes` are the records the attempts returned, in order: attempt `k`
      runs against `pages(k)`, every attempt but the last was blocked, and
      the last is blocked only if all five were made. The retry note is
      appended to a record that the next attempt then replaces, so the record
      `main` prints is always the last attempt's record unchanged.
      `Retries.ShapeIsRuns` shows these are exactly the records `Runs` lists. */
  method RunWithRetries(registration: string, env: ProxyEnv, pages: nat -> Page)
    returns (result: Attempt, outcomes: seq<Attempt>)
    ensures 1 <= |outcomes| <= MaxRetries && result == outcomes[|outcomes| - 1]
    ensures forall k :: 0 <= k < |outcomes| ==> Bare(outcomes[k]) == Expected(registration, pages(k))
    ensures forall k :: 0 <= k < |outcomes| - 1 ==> Blocked(outcomes[k])
    ensures |outcomes| < MaxRetries ==> !Blocked(result)
  {
    outcomes := [];
    var attempt := 0;
    while true
      invariant attempt < MaxRetries && |outcomes| == attempt
      invariant forall k :: 0 <= k < attempt ==> Bare(outcomes[k]) == Expected(registration, pages(k))
      invariant forall k :: 0 <= k < attempt ==> Blocked(outcomes[k])
      decreases MaxRetries - attempt
    {
      result := LookupInsuranceGroup(registration, env, pages(attempt));
      outcomes := outcomes + [result];
      if result.Success? {
        break;
      }
      if result.cloudflareBlocked && attempt < MaxRetries - 1 {
        result := result.(debug := result.debug + [RetryNote(attempt)]);
        attempt := attempt + 1;
        continue;
      }
      break;
    }
  }
}
