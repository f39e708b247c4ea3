# Insurance-group scraper: a Dafny model

The repository looks up the insurance group of a UK vehicle registration by
driving a real browser against a comparison site protected by Cloudflare. It
has two crawler engines and a small HTTP front end:

- `crawler.py` (Playwright/Firefox). It picks a browser fingerprint from
  fixed catalogs, types with per-keystroke delay classes, detects challenge
  pages and builds the proxy configuration. One lookup attempt finds the
  registration field and the submit control, polls for the result in 0.3 s
  steps against a 20 s budget, and extracts `Group N / M` with three
  patterns. `main` retries attempts that were blocked by a challenge.
- `crawler.js` (Puppeteer/Chrome). It does the same with its own constants:
  `humanDelay`, a 50–149 ms keystroke rule with an occasional longer pause,
  nine challenge phrases over the first 2000 body characters, and proxy and
  authentication gating. It also has a 15-re-check grace period after a
  landing challenge, CSS selectors with XPath fallbacks, 40 half-second
  polls and its own three extraction patterns.
- `server.js`. `POST /lookup` validates and normalises `registration`,
  calls crawler.js's `main` and chooses the status code.

The browser is an oracle. Each attempt runs against a `Page` value that
holds every title, body text and selector answer the crawler would ask for,
plus an optional exception at one stage. Each attempt method is proved
against a step-by-step specification function (`From` / `Expected`) of the
record it returns, debug trace aside. Lemmas then state what those records
guarantee:

- blocked only after a challenge was seen;
- success only after a ready page, and the display text reads back;
- the fixed set of failure messages.

Random draws are nondeterministic choices within the source's ranges. For
crawler.js these are reals in [0, 1) fed through `Math.floor`.

Modules, one file each:

- `Text` (text.dfy): each language's whitespace, ASCII case mapping, trimming, substring search and numerals.
- `Records` (records.dfy): the attempt record, environment, faults.
- `Selectors` (selectors.dfy): the ordered "first match wins" search.
- `GroupPatterns` (patterns.dfy): hand-written matchers for the extraction regexes.
- `Polling` (polling.dfy): the shared shape of the results loop.
- `Retries` (retries.dfy): the retry policy of both `main` functions.
- `CrawlerPy` (crawler_py.dfy), `CrawlerJs` (crawler_js.dfy), `Server` (server.dfy).

Behaviour of the code that is easy to misread, and that the model keeps:

- **Retry annotations.** `main` appends the "retrying (attempt k/5)" line to
  the blocked attempt's record and then replaces that record with the next
  attempt's (crawler.py:418-423, crawler.js:570-575). A success carries no
  debug trace, so no retry annotation ever reaches the caller.
- **Input not found.** A missing registration field is retried only when
  the page left behind passes the challenge test, so that the record is
  flagged as blocked (crawler.py:316-324, crawler.js:326-335). Otherwise the
  "input field" failure is final.
- **What triggers a retry.** Both retry loops read only the
  `cloudflare_blocked` flag, never the error text or the page sample
  (crawler.py:418, crawler.js:572).
- **Not-found pages.** A page saying "not found" ends polling early, but the
  record is the same "Timeout waiting for results" failure (crawler.py:383-389,
  crawler.js:468-485). There is no separate negative-result record.
- **Challenge window.** crawler.py looks at the first 500 characters of the
  body text (crawler.py:157); crawler.js looks at the first 2000
  (crawler.js:76).

## Model

| member | source | states |
|---|---|---|
| Text.LowerOfUpper | crawler.py:141-142 | Lower-casing forgets any earlier upper-casing |
| Text.ContainsMeans | crawler.py:157 | `p in s` / `includes` holds exactly when `p` occurs at some index of `s` |
| Text.StripEmpty | crawler.py:190 | A string strips to "" exactly when every character is whitespace in that language (Python also counts U+001C..U+001F and U+0085, JavaScript U+FEFF) |
| Text.RemoveSpacesOne | server.js:32 | A whitespace character is removed and any other character kept |
| Text.RemoveSpacesAppend | server.js:32 | Removing whitespace from a concatenation removes it from each part and keeps the parts in order |
| Text.RemoveSpacesIgnoresStrip | server.js:32 | Removing whitespace after a `trim` gives the same as removing it from the untrimmed string |
| Text.UpperStrip | server.js:32 | Upper-casing and trimming can be done in either order |
| Text.RemoveSpacesNoSpace | server.js:32 | Removing whitespace from a whitespace-free string changes nothing |
| Text.ShowRoundTrip | crawler.py:398 | Reading back a printed number with `int()` / `parseInt` gives the number |
| Selectors.FirstMatchFacts | crawler.py:297-305 | The selector found matched and no earlier one did; nothing is found exactly when none matched |
| Selectors.FindFirst | crawler.js:383-394 | The loop finds exactly the first matching selector and hands back its text |
| Polling.PollFromFacts | crawler.py:363-385 | Polling stops at the first non-pending poll, whose verdict names the outcome; running out means every poll was pending |
| Polling.PollFromFirst | crawler.py:363-385 | Conversely, the first non-pending poll ends the loop with its own verdict, and all-pending polls run the loop out |
| Polling.PollFromPrefix | crawler.js:446-475 | Two verdict streams that agree up to the poll that ended the loop (or on every poll, when it ran out) end it the same way: later polls have no influence |
| GroupPatterns.Search | crawler.py:396 | A match carries a ceiling exactly when the pattern has a second group |
| GroupPatterns.SearchMeans | crawler.py:396 | The search reports the leftmost position where the pattern matches, with its captures; nothing exactly when it matches nowhere |
| GroupPatterns.FirstHitFacts | crawler.py:395-399 | The first pattern in list order that matches gives the result; none exactly when no pattern matches |
| GroupPatterns.ExtractedPyMeans | crawler.py:393-399 | crawler.py finds a group iff one of its three patterns matches; the numbers are the first matching pattern's captures |
| GroupPatterns.ExtractedJsMeans | crawler.js:492-509 | crawler.js finds a group iff one of its patterns matches; a `N / 50` match keeps the ceiling at 50; when a later pattern is the first to match, group and ceiling are its two captures |
| GroupPatterns.GroupSlashFindsDisplay | crawler.py:393 | `Group\s+(\d+)\s*/\s*(\d+)` matches "Group n/m" at its start with captures n and m, in either language |
| GroupPatterns.NoPrefixedPatternInDisplay | crawler.py:393 | The two prefixed crawler.py patterns never match a display text |
| GroupPatterns.DisplayTextRoundTripPy | crawler.py:404 | crawler.py's extraction reads its own display text back as (n, m) |
| GroupPatterns.OutOf50OnDisplay | crawler.js:493 | `(\d+)\s*/\s*50` matches "Group n/m" exactly when m's numeral starts with "50", capturing n |
| GroupPatterns.DisplayTextRoundTripJs | crawler.js:524 | crawler.js reads "Group n/m" back as n and m, except that a ceiling whose numeral starts with "50" reads as 50 |
| Retries.RunsFacts | crawler.py:410-429 | The retry policy makes 1..5 attempts; every attempt but the last was blocked; the last is blocked only if all five were made |
| Retries.ShapeIsRuns | crawler.js:559-585 | Any record sequence with that shape is exactly the policy's sequence, so the shape determines the attempts |
| CrawlerPy.GenerateRandomFingerprint | crawler.py:49-62 | User agent, platform and OS come from one catalog entry; viewport, locale/timezone and language from their catalogs |
| CrawlerPy.CatalogPlatformsAgree | crawler.py:16-28 | In the catalog the platform always agrees with the OS family |
| CrawlerPy.HumanType | crawler.py:94-114 | One delay per character inside its branch's range, in the source's branch order; final pause 50..150 ms |
| CrawlerPy.KeyDelayRange | crawler.py:100-111 | Every keystroke delay is within 30..300 ms |
| CrawlerPy.FirstKeyNeverFast | crawler.py:96-100 | The first character never takes the fast-bigram branch |
| CrawlerPy.TypingTimeBound | crawler.py:97-114 | Typing takes between 30·len+50 and 300·len+150 ms |
| CrawlerPy.ChallengeIgnoresCase | crawler.py:141-142 | Changing the case of title or text never changes the verdict; a missing title or text counts as empty |
| CrawlerPy.ChallengeIgnoresTail | crawler.py:157 | Text past the first 500 characters is never looked at |
| CrawlerPy.ProxyConfigFor | crawler.py:189-194 | A proxy config exists iff host and port both hold a character that is not Python whitespace; credentials iff user and password are both non-empty |
| CrawlerPy.PollResults | crawler.py:362-385 | The loop ends as the polling specification says, after at most 67 polls, with 300 ms counted per poll |
| CrawlerPy.ExtractGroup | crawler.py:393-399 | The extraction loop yields exactly the first matching pattern's captures |
| CrawlerPy.LookupInsuranceGroup | crawler.py:183-407 | The attempt's record, debug trace aside, is the one its step specification gives for the page |
| CrawlerPy.AfterLoad | crawler.py:251-333 | The early challenge check and the field search give the specified record |
| CrawlerPy.AfterInput | crawler.py:335-360 | Typing, the submit search and the click give the specified record |
| CrawlerPy.AfterSubmit | crawler.py:361-405 | Polling and extraction give the specified record |
| CrawlerPy.BlockedOnlyOnChallenge | crawler.py:255-378 | A blocked record only follows a challenge on landing, on the page without a field, or at a poll |
| CrawlerPy.SuccessAfterResults | crawler.py:380-404 | A successful record is the one the extraction step makes, and reaching it means polling ended on a ready page |
| CrawlerPy.ReadyEndFacts | crawler.py:363-385 | A polling loop that ended ready ended on an unchallenged poll showing the result, after undecided polls |
| CrawlerPy.MissingInputClassification | crawler.py:307-333 | A missing field is blocked iff that page looks like a challenge; otherwise it is the "input field" failure with a 3000-character sample and URL |
| CrawlerPy.SuccessFollowsReadyPage | crawler.py:380-404 | Success means polling ended on an unchallenged poll showing this registration's result, every earlier poll undecided; the numbers are the extraction's; the display text reads back the same |
| CrawlerPy.PollOutcomeDecidesRecord | crawler.py:362-405 | After submit, a challenge ending the polling gives the blocked record; a "not found" or spent budget the timeout record with a 1500-character sample; a ready page the extracted group, or the "could not find" record with a 1500-character sample |
| CrawlerPy.FailureMessages | crawler.py:258-405 | Non-exception failures carry one of five messages; only "Blocked by Cloudflare" is flagged; samples are at most 3000 characters |
| CrawlerPy.RunWithRetries | crawler.py:410-431 | At most five attempts, each on a fresh page; each earlier one was blocked; fewer than five means the last was not blocked; the result is the last record |
| CrawlerJs.RandomIntRange | crawler.js:44 | `Math.floor(Math.random() * n)` lies in 0..n-1 |
| CrawlerJs.RandomIntReaches | crawler.js:44 | Every value in 0..n-1 is drawn for some random number |
| CrawlerJs.HumanDelay | crawler.js:43-46 | The wait is a whole number of ms in [minMs, maxMs] |
| CrawlerJs.HumanDelayCoversRange | crawler.js:43-46 | Every whole number of ms in [minMs, maxMs] can be drawn |
| CrawlerJs.KeystrokeDelayRange | crawler.js:358-362 | A keystroke waits 50..149 ms, or 150..448 ms when the extra pause is drawn |
| CrawlerJs.TypeKeys | crawler.js:356-363 | One delay per character, each within the range of whether its pause was drawn |
| CrawlerJs.PickFingerprint | crawler.js:142-146 | User agent and screen size are catalog entries |
| CrawlerJs.ProxyArgGating | crawler.js:164-173 | A `--proxy-server` argument is passed iff host and port are set, and it names them |
| CrawlerJs.AuthenticationGating | crawler.js:194-200 | `page.authenticate` runs iff the proxy argument is passed and user and password are set, with those credentials |
| CrawlerJs.ChallengeReadFailures | crawler.js:73-98 | A failed title or body read counts as ""; an exception means no challenge; case never matters |
| CrawlerJs.ChallengeIgnoresTail | crawler.js:76 | Body text past 2000 characters is never looked at |
| CrawlerJs.AwaitClearance | crawler.js:219-228 | The grace loop stops at the first of 15 re-checks that no longer sees the challenge, or finds none |
| CrawlerJs.GracePeriod | crawler.js:215-240 | After a landing challenge the attempt is blocked iff all 15 re-checks still see it; otherwise it goes on unchanged |
| CrawlerJs.PollResults | crawler.js:443-475 | The loop ends as the polling specification says, after at most 40 polls; `resultsLoaded` iff it ended on a loaded page |
| CrawlerJs.LoadedPageReadsOutOf50 | crawler.js:462-505 | On a page that counts as loaded the first pattern wins and the ceiling stays 50 |
| CrawlerJs.ExtractGroup | crawler.js:497-509 | The extraction loop yields the first matching pattern's group, with ceiling 50 unless it has a second group |
| CrawlerJs.LookupInsuranceGroup | crawler.js:128-552 | The attempt's record, debug trace aside, is the one its step specification gives for the page |
| CrawlerJs.AfterLanding | crawler.js:214-242 | The landing check and grace period give the specified record |
| CrawlerJs.AfterPassed | crawler.js:244-345 | The cookie banner, field search and XPath fallback give the specified record |
| CrawlerJs.AfterInput | crawler.js:347-441 | Typing, the submit search with XPath fallback and the click give the specified record |
| CrawlerJs.AfterSubmit | crawler.js:442-534 | Polling and extraction give the specified record |
| CrawlerJs.BlockedOnlyOnChallenge | crawler.js:215-459 | A blocked record only follows a challenge that outlasted the grace period, one on the page without a field, or one at a poll |
| CrawlerJs.SuccessAfterResults | crawler.js:462-526 | A successful record is the one the extraction step makes, and reaching it means polling ended on a loaded page |
| CrawlerJs.ReadyEndFacts | crawler.js:446-475 | A polling loop that ended loaded ended on an unchallenged loaded poll, after undecided polls |
| CrawlerJs.MissingInputClassification | crawler.js:318-345 | A missing field is blocked iff that page's challenge check fires; otherwise it is the "input field" failure with a 3000-character sample and URL |
| CrawlerJs.SuccessFollowsLoadedPage | crawler.js:462-526 | Success means polling ended on an unchallenged loaded poll, every earlier poll undecided; the numbers are the extraction's; the display text reads back the same |
| CrawlerJs.PollOutcomeDecidesRecord | crawler.js:443-534 | After submit, a challenge ending the polling gives the blocked record; a "not found" or 40 spent polls the timeout record with a 1500-character sample; a loaded page the extracted group, or the "could not find" record with a 1500-character sample |
| CrawlerJs.FailureMessages | crawler.js:232-534 | Non-exception failures carry one of five messages; only "Blocked by Cloudflare" is flagged; samples are at most 3000 characters |
| CrawlerJs.RunWithRetries | crawler.js:559-585 | At most five attempts, each on a fresh page; each earlier one was blocked; fewer than five means the last was not blocked; the result is the last record |
| Server.CleanFacts | server.js:32 | The cleaned registration has no whitespace and no lower-case letter, and cleaning it again changes nothing |
| Server.CleanKeepsVisible | server.js:32 | A registration that is already upper-case and whitespace-free is left as it is |
| Server.CleanIsUpperWithoutSpaces | server.js:32 | The cleaned registration is the upper-cased input with exactly its whitespace characters removed |
| Server.CodeUnits | server.js:34 | `length` counts at least one and at most two code units per character |
| Server.CodeUnitsIsLengthWithoutAstral | server.js:34 | The code-unit count equals the character count exactly when no character lies outside the Basic Multilingual Plane |
| Server.CodeUnitsAppend | server.js:34 | Code units add up over concatenation, so each astral character counts two and every other one |
| Server.OneAstralCharReachesCrawler | server.js:34-43 | A registration of one astral character is two code units long and is passed to the crawler |
| Server.CrawlerInput | server.js:32-43 | The crawler is called only with the cleaned registration, which is whitespace-free, upper-case and 2..8 UTF-16 code units long, and only when both checks pass |
| Server.HandleLookup | server.js:21-52 | Missing or empty registration gives 400 "Missing…"; a cleaned length outside 2..8 UTF-16 code units gives 400 "Invalid…"; a thrown crawler gives 500 "Crawler failed" with message or rendering; otherwise 200 with the record |
| Server.CrawlerOnlySeesCleanInput | server.js:41-44 | The response depends on the crawler only through its answer for the cleaned registration |
| Server.SameCleanSameResponse | server.js:32 | Registrations that differ only in case or whitespace get the same response |
| Server.BlankIsInvalidFormat | server.js:34-39 | A non-empty all-whitespace registration gets 400 "Invalid registration number format" |

## Left out

- **Browser, network and timing.** Browser automation, network I/O and real
  sleeps are not modelled. The page is an oracle, and the clock appears only
  as the polling budget and counts.
- **Proxy IP check.** `verify_proxy_ip` / `verifyProxyIp` appears only as the
  debug line it logs. It never fails an attempt.
- **Pointer geometry.** `bezier_curve`, `generate_human_curve_points`,
  `move_and_click` and `short_delay` are floating-point geometry and sleeps.
  Clicking is not modelled.
- **Debug traces.** The methods build the trace lines the source logs, but
  the contracts compare records with the trace emptied (`Bare`). The
  trace's contents are not specified.
- **Exceptions.** Exceptions are modelled at four stages: launch,
  navigation, filling the field and clicking submit. A reader such as
  `page.title()` in crawler.py is assumed not to throw.
- **`carDetails`.** The `carDetails` extraction (crawler.js:511-516) is left
  out. The success record has no such field.
- **Character set.** Whitespace follows each language's own definition.
  Case mapping and digits are ASCII only. Python's `lower()` maps the
  Kelvin sign and the dotted capital I onto ASCII letters, and
  `re.IGNORECASE` matches the long s against "s". JavaScript's
  `toUpperCase` turns "ß" into "SS". Python's `\d` and `int()` accept
  non-ASCII decimal digits. The model treats all of these as ordinary
  characters.
- **String positions in crawler.js.** `slice(0, n)` counts UTF-16 code
  units, the model counts characters. The two agree unless the text holds
  characters outside the Basic Multilingual Plane. The length check of
  server.js:34 is modelled in code units (`Server.CodeUnits`).
- **Lone surrogates.** A JavaScript string may hold an unpaired surrogate
  code unit. The model's strings are sequences of Unicode scalar values, so
  a request body carrying one is not modelled.
- **JavaScript numbers.** crawler.js reads captures with `parseInt` into
  doubles and prints them with a template literal. Above 2^53 the value is
  rounded, and from 10^21 on it prints in exponent form. The model's
  numbers are unbounded, so the members below are exact only for numerals
  below 2^53:
- ShowRoundTrip: for crawler.py's `int()` and f-string it holds only for
  numerals of at most 4300 digits (see below); for crawler.js's `parseInt`
  and template literal it holds only below 2^53.
- GroupPatterns.ExtractedJsMeans: the captured numbers are exact only below 2^53.
- GroupPatterns.DisplayTextRoundTripJs: holds for crawler.js only when n and m are below 2^53.
- CrawlerJs.ExtractGroup: `groupNum` and `maxGroup` equal the captured numerals only below 2^53.
- CrawlerJs.LoadedPageReadsOutOf50: the group number is exact only below 2^53.
- CrawlerJs.SuccessFollowsLoadedPage: the record's numbers and display text are exact only below 2^53.
- CrawlerJs.PollOutcomeDecidesRecord: the success record's numbers are exact only below 2^53.
- **Python's digit limit.** Since Python 3.11 (and the security releases
  3.7.14, 3.8.14, 3.9.14 and 3.10.7), `int()` refuses a string of more than
  4300 digits, leading zeros included. At crawler.py:398 such a capture
  raises ValueError, and the `except` at crawler.py:406-407 turns it into a
  non-blocked Failure carrying the message, which is not retried. The f-string
  at crawler.py:404 cannot fail after `int()` succeeded, since the value
  then has at most 4300 digits. The model's captures are unbounded numbers,
  so the members below assume every capture has at most 4300 digits:
- GroupPatterns.DisplayTextRoundTripPy: crawler.py reads its own display text back only when n and m have at most 4300 digits.
- CrawlerPy.ExtractGroup: yields the captures where crawler.py raises for a capture of more than 4300 digits.
- CrawlerPy.SuccessFollowsReadyPage: a capture of more than 4300 digits gives a Failure in crawler.py, never this Success.
- CrawlerPy.PollOutcomeDecidesRecord: on a ready page with a capture of more than 4300 digits crawler.py returns the ValueError Failure, not Success.
- **Regular expressions.** General regex semantics are not modelled. The
  five `Group N / M` shapes are hand-written matchers.
- **Unescaped registration.** crawler.py splices the registration into a
  regex unescaped (crawler.py:393). The model treats it as a literal, which
  agrees for alphanumeric registrations.
- **Process boundary.** Environment loading, command-line handling, JSON
  printing, process exit codes and the Express set-up (server.js:1-19,
  54-61) are left out.
- **Crawler under the server.** In the server, crawler.js's `main` is a
  parameter: what it returns or throws for each registration.
- **Fingerprint application.** crawler.js's choice of user agent and screen
  size is modelled. Applying them to the page is not.
- **`TypeKeys`.** crawler.js's `humanType` helper (crawler.js:54-66) uses
  the same keystroke rule, so it is covered by `TypeKeys`. Its
  `page.click` / `page.type` calls are not modelled.
- **`RunWithRetries` (both crawlers).** It returns the attempt records
  alongside the final one, so the retry policy can be stated. The retry
  note is appended exactly as the source does it. The contract says
  nothing further about that note, because the next attempt's record
  replaces it.
- **Poll timing in crawler.py.** crawler.py's float clock is modelled in
  whole milliseconds: 300 ms steps against 20000 ms. This gives the same
  67 polls as the float loop.
