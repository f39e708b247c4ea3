/** The `POST /lookup` handler of the HTTP server (server.js): validating
    and normalising the `registration` field of the JSON body, then handing
    it to crawler.js's `main` and choosing the status code of the response.
    The crawler's behaviour is a parameter: what `main` returns or throws
    for a given registration. */
module Server {
  import opened Text
  import opened Records

  /** The value of `req.body.registration`, as far as the handler tells values apart. */
  datatype JsValue = Undefined | Null | Bool(b: bool) | Number(n: int) | Str(s: string) | Object

  /** What an awaited call of crawler.js's `main` produces. A thrown value
      has a `message` ("" when absent or empty) and a `String(error)` rendering. */
  datatype CrawlOutcome = Returned(record: Attempt) | Threw(message: string, rendered: string)

  datatype Payload =
    | Error(error: string, details: Option<string>)  // `{ success: false, error, details? }`
    | Record(record: Attempt)                         // the crawler's record, passed through

  datatype Response = Response(status: nat, payload: Payload)

  const MissingError := "Missing 'registration' string in body"
  const FormatError := "Invalid registration number format"
  const CrawlerError := "Crawler failed"

  /** `!registration || typeof registration !== "string"` is false: a non-empty string. */
  predicate IsRegistrationString(v: JsValue)
  {
    v.Str? && v.s != ""
  }

  /** `registration.trim().toUpperCase().replace(/\s+/g, "")`. */
  function Clean(s: string): string
  {
    RemoveSpaces(JavaScript, Upper(Strip(JavaScript, s)))
  }

  /** The cleaned registration has no whitespace and no lower-case letter,
      and cleaning it again changes nothing. */
  lemma CleanFacts(s: string)
    ensures NoSpace(JavaScript, Clean(s)) && NoLower(Clean(s))
    ensures Clean(Clean(s)) == Clean(s)
  {
    var c := Clean(s);
    UpperNoLower(Strip(JavaScript, s));
    RemoveSpacesKeepsCase(JavaScript, Upper(Strip(JavaScript, s)));
    StripNoSpace(JavaScript, c);
    UpperOfNoLower(c);
    RemoveSpacesNoSpace(JavaScript, c);
  }

  /** Cleaning keeps every visible character: only whitespace is dropped. */
  lemma CleanKeepsVisible(s: string)
    requires NoSpace(JavaScript, s) && NoLower(s)
    ensures Clean(s) == s
  {
    StripNoSpace(JavaScript, s);
    UpperOfNoLower(s);
    RemoveSpacesNoSpace(JavaScript, s);
  }

  /** The trim is redundant: the cleaned registration is the upper-cased
      input with every whitespace character removed. With
      `Text.RemoveSpacesOne` and `Text.RemoveSpacesAppend` this says that
      cleaning keeps every other character, upper-cased, in its order. */
  lemma CleanIsUpperWithoutSpaces(s: string)
    ensures Clean(s) == RemoveSpaces(JavaScript, Upper(s))
  {
    UpperStrip(JavaScript, s);
    RemoveSpacesIgnoresStrip(JavaScript, Upper(s));
  }

  /** A character outside the Basic Multilingual Plane, which a JavaScript
      string holds as a surrogate pair. */
  predicate Astral(c: char)
  {
    c as int >= 0x1_0000
  }

  /** `s.length` in JavaScript: the number of UTF-16 code units, two for
      each astral character and one for every other. */
  function CodeUnits(s: string): (n: nat)
    ensures |s| <= n <= 2 * |s|
  {
    if s == [] then 0 else (if Astral(s[0]) then 2 else 1) + CodeUnits(s[1..])
  }

  /** The code-unit count agrees with the character count exactly when
      the string has no astral character. */
  lemma {:induction false} CodeUnitsIsLengthWithoutAstral(s: string)
    ensures CodeUnits(s) == |s| <==> forall i :: 0 <= i < |s| ==> !Astral(s[i])
  {
    if s != [] {
      CodeUnitsIsLengthWithoutAstral(s[1..]);
      if CodeUnits(s) == |s| {
        forall i | 0 <= i < |s| ensures !Astral(s[i]) {
          if i > 0 { assert s[i] == s[1..][i - 1]; }
        }
      }
    }
  }

  /** Code units add up over concatenation. */
  lemma {:induction false} CodeUnitsAppend(a: string, b: string)
    ensures CodeUnits(a + b) == CodeUnits(a) + CodeUnits(b)
  {
    if a == [] {
      assert a + b == b;
    } else {
      assert (a + b)[1..] == a[1..] + b;
      CodeUnitsAppend(a[1..], b);
    }
  }

  /** `cleanReg.length < 2 || cleanReg.length > 8` is false, with `length`
      counting UTF-16 code units. */
  predicate ValidLength(reg: string)
  {
    2 <= CodeUnits(reg) <= 8
  }

  /** The registration the crawler is called with, if the handler gets that far. */
  function CrawlerInput(body: JsValue): (r: Option<string>)
    ensures r.Some? ==> NoSpace(JavaScript, r.value) && NoLower(r.value) && ValidLength(r.value)
    ensures r.Some? <==> IsRegistrationString(body) && ValidLength(Clean(body.s))
    ensures r.Some? ==> r.value == Clean(body.s)
  {
    if IsRegistrationString(body) && ValidLength(Clean(body.s)) then
      CleanFacts(body.s);
      Some(Clean(body.s))
    else None
  }

  /** The `/lookup` handler: the response for a body whose `registration`
      is `body`, when the crawler behaves as `crawl`. */
  function HandleLookup(body: JsValue, crawl: string -> CrawlOutcome): (r: Response)
    ensures !IsRegistrationString(body) ==> r == Response(400, Error(MissingError, None))
    ensures IsRegistrationString(body) && !ValidLength(Clean(body.s))
            ==> r == Response(400, Error(FormatError, None))
    ensures CrawlerInput(body).None? ==> r.status == 400
    ensures CrawlerInput(body).Some? ==>
              match crawl(CrawlerInput(body).value)
              case Returned(record) => r == Response(200, Record(record))
              case Threw(message, rendered) =>
                r == Response(500, Error(CrawlerError, Some(if message != "" then message else rendered)))
  {
    if !IsRegistrationString(body) then Response(400, Error(MissingError, None))
    else
      var cleanReg := Clean(body.s);
      if CodeUnits(cleanReg) < 2 || CodeUnits(cleanReg) > 8 then Response(400, Error(FormatError, None))
      else match crawl(cleanReg)
        case Returned(record) => Response(200, Record(record))
        case Threw(message, rendered) =>
          Response(500, Error(CrawlerError, Some(if message != "" then message else rendered)))
  }

  /** The handler's answer does not depend on how the crawler behaves for
      any registration other than the one it would be called with; when the
      request is rejected it does not depend on the crawler at all. */
  lemma CrawlerOnlySeesCleanInput(body: JsValue, crawl1: string -> CrawlOutcome, crawl2: string -> CrawlOutcome)
    requires CrawlerInput(body).Some? ==> crawl1(CrawlerInput(body).value) == crawl2(CrawlerInput(body).value)
    ensures HandleLookup(body, crawl1) == HandleLookup(body, crawl2)
  {
  }

  /** Requests that differ only in case or whitespace get the same answer. */
  lemma SameCleanSameResponse(s1: string, s2: string, crawl: string -> CrawlOutcome)
    requires s1 != "" && s2 != "" && Clean(s1) == Clean(s2)
    ensures HandleLookup(Str(s1), crawl) == HandleLookup(Str(s2), crawl)
  {
  }

  /** A single astral character is two code units long, so it passes the
      length check and reaches the crawler, although it is one character. */
  lemma OneAstralCharReachesCrawler(c: char)
    requires Astral(c)
    ensures CrawlerInput(Str([c])) == Some([c])
  {
    assert NoSpace(JavaScript, [c]) && NoLower([c]);
    CleanKeepsVisible([c]);
  }

  /** A blank registration passes the first check but never reaches the
      crawler: it cleans to "" and fails the length check. */
  lemma BlankIsInvalidFormat(s: string, crawl: string -> CrawlOutcome)
    requires s != "" && AllSpace(JavaScript, s)
    ensures HandleLookup(Str(s), crawl) == Response(400, Error(FormatError, None))
  {
    StripEmpty(JavaScript, s);
  }
}
