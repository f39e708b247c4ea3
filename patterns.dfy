// Hand-written matchers for the handful of "Group N / M" regular
// expressions the two crawlers apply to the result page.
//
// Each pattern is a literal prefix, an optional `[^\d]*`, and the tail
// `(\d+)\s*/\s*(\d+)` (or `(\d+)\s*/\s*50`). Greedy quantifiers in these
// shapes never need to give characters back: `\d+` is always followed by
// a non-digit, `\s*` / `\s+` by a non-space, and `[^\d]*` cannot cross a
// digit. So matching at a position is a deterministic scan, and a search
// (`re.search`, `String.prototype.match` without `g`) takes the leftmost
// position at which the scan succeeds.
module GroupPatterns {
  import opened Text
  import opened Records

  // The capture groups of one match: the group number and, for patterns
  // with a second group, the ceiling.
  datatype Captures = Captures(group: nat, maxGroup: Option<nat>)

  datatype Pattern =
    | YourCarGroup                        // Your car insurance group[^\d]*Group\s+(\d+)\s*/\s*(\d+)
    | BracketedRegistration(reg: string)  // \(REG\)[^\d]*Group\s+(\d+)\s*/\s*(\d+)
    | GroupSlash(lang: Lang)              // Group\s+(\d+)\s*/\s*(\d+), in either language
    | OutOf50                             // (\d+)\s*/\s*50
    | InsuranceGroupSlash                 // insurance group[^\d]*(\d+)\s*/\s*(\d+)

  // End of the run of digits starting at `i`.
  function DigitsEnd(s: string, i: nat): (j: nat)
    requires i <= |s|
    ensures i <= j <= |s|
    ensures AllDigits(s[i..j])
    ensures j == |s| || !IsDigit(s[j])
    decreases |s| - i
  {
    if i < |s| && IsDigit(s[i]) then DigitsEnd(s, i + 1) else i
  }

  // End of the run of whitespace (`\s` in the language `lang`) starting at `i`.
  function SpacesEnd(lang: Lang, s: string, i: nat): (j: nat)
    requires i <= |s|
    ensures i <= j <= |s|
    ensures AllSpace(lang, s[i..j])
    ensures j == |s| || !IsSpace(lang, s[j])
    decreases |s| - i
  {
    if i < |s| && IsSpace(lang, s[i]) then SpacesEnd(lang, s, i + 1) else i
  }

  // `lit` matches at `i` ignoring ASCII case (`re.IGNORECASE`, the `/i` flag).
  predicate MatchesAt(s: string, i: nat, lit: string)
  {
    i + |lit| <= |s| && Lower(s[i..i + |lit|]) == Lower(lit)
  }

  // `(\d+)\s*/\s*(\d+)` anchored at `i`.
  function SlashPairAt(lang: Lang, s: string, i: nat): Option<(nat, nat)>
    requires i <= |s|
  {
    var e1 := DigitsEnd(s, i);
    var a := SpacesEnd(lang, s, e1);
    if e1 == i || a == |s| || s[a] != '/' then None
    else
      var b := SpacesEnd(lang, s, a + 1);
      var e2 := DigitsEnd(s, b);
      if e2 == b then None else Some((DigitsValue(s[i..e1]), DigitsValue(s[b..e2])))
  }

  // `(\d+)\s*/\s*50` (crawler.js) anchored at `i`.
  function OutOf50At(s: string, i: nat): Option<nat>
    requires i <= |s|
  {
    var e1 := DigitsEnd(s, i);
    var a := SpacesEnd(JavaScript, s, e1);
    if e1 == i || a == |s| || s[a] != '/' then None
    else if OccursAt("50", s, SpacesEnd(JavaScript, s, a + 1)) then Some(DigitsValue(s[i..e1]))
    else None
  }

  // `Group\s+(\d+)\s*/\s*(\d+)` anchored at `i`, ignoring case.
  function GroupSlashAt(lang: Lang, s: string, i: nat): Option<(nat, nat)>
    requires i <= |s|
  {
    if !MatchesAt(s, i, "group") then None
    else
      var w := SpacesEnd(lang, s, i + 5);
      if w == i + 5 then None else SlashPairAt(lang, s, w)
  }

  // `[^\d]*Group\s+(\d+)\s*/\s*(\d+)` (crawler.py) anchored at `i`. The first position
  // in the digit-free stretch where the tail matches is used; every such
  // position leads to the same first digit, so the captures agree with the
  // greedy (last-position) choice.
  function SkipToGroupSlash(s: string, i: nat): Option<(nat, nat)>
    requires i <= |s|
    decreases |s| - i
  {
    match GroupSlashAt(Python, s, i)
    case Some(r) => Some(r)
    case None => if i < |s| && !IsDigit(s[i]) then SkipToGroupSlash(s, i + 1) else None
  }

  // `[^\d]*(\d+)\s*/\s*(\d+)` (crawler.js) anchored at `i`: the digits start at the first digit.
  function SkipToSlashPair(s: string, i: nat): Option<(nat, nat)>
    requires i <= |s|
    decreases |s| - i
  {
    if i < |s| && !IsDigit(s[i]) then SkipToSlashPair(s, i + 1) else SlashPairAt(JavaScript, s, i)
  }

  function BothGroups(r: Option<(nat, nat)>): (c: Option<Captures>)
    ensures c.Some? ==> c.value.maxGroup.Some?
  {
    match r
    case Some((n, m)) => Some(Captures(n, Some(m)))
    case None => None
  }

  function YourCarGroupAt(s: string, i: nat): Option<(nat, nat)>
    requires i <= |s|
  {
    if MatchesAt(s, i, "your car insurance group") then SkipToGroupSlash(s, i + 24) else None
  }

  function BracketedRegistrationAt(reg: string, s: string, i: nat): Option<(nat, nat)>
    requires i <= |s|
  {
    var close := i + 1 + |reg|;
    if close < |s| && s[i] == '(' && MatchesAt(s, i + 1, reg) && s[close] == ')'
    then SkipToGroupSlash(s, close + 1)
    else None
  }

  function InsuranceGroupSlashAt(s: string, i: nat): Option<(nat, nat)>
    requires i <= |s|
  {
    if MatchesAt(s, i, "insurance group") then SkipToSlashPair(s, i + 15) else None
  }

  function OneGroup(r: Option<nat>): (c: Option<Captures>)
    ensures c.Some? ==> c.value.maxGroup.None?
  {
    match r
    case Some(n) => Some(Captures(n, None))
    case None => None
  }

  // The pattern matched with its first character at `i`.
  function MatchAt(p: Pattern, s: string, i: nat): (r: Option<Captures>)
    requires i <= |s|
    ensures r.Some? && !p.OutOf50? ==> r.value.maxGroup.Some?
    ensures r.Some? && p.OutOf50? ==> r.value.maxGroup.None?
  {
    match p
    case YourCarGroup => BothGroups(YourCarGroupAt(s, i))
    case BracketedRegistration(reg) => BothGroups(BracketedRegistrationAt(reg, s, i))
    case GroupSlash(lang) => BothGroups(GroupSlashAt(lang, s, i))
    case OutOf50 => OneGroup(OutOf50At(s, i))
    case InsuranceGroupSlash => BothGroups(InsuranceGroupSlashAt(s, i))
  }

  datatype Hit = Hit(at: nat, caps: Captures)

  // What the pattern's anchored matcher reports at each position of `s`
  // (nothing past its end).
  function MatchesOf(p: Pattern, s: string): nat -> Option<Captures>
  {
    (j: nat) => if j <= |s| then MatchAt(p, s, j) else None
  }

  // The leftmost position in `i .. n` at which `at` reports a match;
  // `LeftmostFacts` states what it means.
  function Leftmost(at: nat -> Option<Captures>, n: nat, i: nat): Option<Hit>
    decreases n + 1 - i, at
  {
    if i > n then None
    else match at(i)
      case Some(c) => Some(Hit(i, c))
      case None => Leftmost(at, n, i + 1)
  }

  // The hit is a match in `i .. n` with no match before it; there is no hit
  // exactly when nothing matches in `i .. n`.
  lemma {:induction false} LeftmostFacts(at: nat -> Option<Captures>, n: nat, i: nat)
    ensures var r := Leftmost(at, n, i);
      && (r.Some? ==> i <= r.value.at <= n && at(r.value.at) == Some(r.value.caps))
      && (r.Some? ==> forall j :: i <= j < r.value.at ==> at(j).None?)
      && (r.None? <==> forall j :: i <= j <= n ==> at(j).None?)
    decreases n + 1 - i
  {
    if i <= n && at(i).None? {
      LeftmostFacts(at, n, i + 1);
    }
  }

  // `re.search(p, s)` / `s.match(p)`: the leftmost match. A pattern with a
  // single capture group leaves the ceiling unset.
  function Search(p: Pattern, s: string): (r: Option<Hit>)
    ensures r.Some? ==> (r.value.caps.maxGroup.None? <==> p.OutOf50?)
  {
    LeftmostFacts(MatchesOf(p, s), |s|, 0);
    Leftmost(MatchesOf(p, s), |s|, 0)
  }

  // The search reports the leftmost position of `s` at which the pattern
  // matches, with that match's captures, and nothing when it matches nowhere.
  lemma SearchMeans(p: Pattern, s: string)
    ensures var r := Search(p, s);
      && (r.Some? ==> r.value.at <= |s| && MatchAt(p, s, r.value.at) == Some(r.value.caps))
      && (r.Some? ==> forall j :: 0 <= j < r.value.at ==> MatchAt(p, s, j).None?)
      && (r.None? <==> forall j :: 0 <= j <= |s| ==> MatchAt(p, s, j).None?)
  {
    var at := MatchesOf(p, s);
    LeftmostFacts(at, |s|, 0);
    forall j | 0 <= j <= |s|
      ensures at(j) == MatchAt(p, s, j)
    {
    }
  }

  datatype PatternHit = PatternHit(index: nat, caps: Captures)

  // The first pattern of the list that matches somewhere in `s`; `FirstHitFacts`
  // states what it means.
  function FirstHit(patterns: seq<Pattern>, s: string): (r: Option<PatternHit>)
    ensures r.Some? ==> r.value.index < |patterns|
    ensures r.Some? ==> (r.value.caps.maxGroup.None? <==> patterns[r.value.index].OutOf50?)
  {
    if patterns == [] then None
    else match Search(patterns[0], s)
      case Some(h) => Some(PatternHit(0, h.caps))
      case None =>
        match FirstHit(patterns[1..], s)
        case None => None
        case Some(ph) => Some(PatternHit(ph.index + 1, ph.caps))
  }

  // The hit names a pattern that matches, with that pattern's captures, and
  // no earlier pattern matches; there is no hit exactly when no pattern matches.
  lemma {:induction false} FirstHitFacts(patterns: seq<Pattern>, s: string)
    ensures var r := FirstHit(patterns, s);
      && (r.Some? ==> r.value.index < |patterns| && Search(patterns[r.value.index], s).Some?
                      && Search(patterns[r.value.index], s).value.caps == r.value.caps)
      && (r.Some? ==> forall j :: 0 <= j < r.value.index ==> Search(patterns[j], s).None?)
      && (r.None? <==> forall j :: 0 <= j < |patterns| ==> Search(patterns[j], s).None?)
  {
    if patterns != [] && Search(patterns[0], s).None? {
      var rest := patterns[1..];
      FirstHitFacts(rest, s);
      assert forall j :: 1 <= j < |patterns| ==> patterns[j] == rest[j - 1];
    }
  }

  // The three patterns of crawler.py, in the order they are tried.
  function PyPatterns(registration: string): seq<Pattern>
  {
    [YourCarGroup, BracketedRegistration(registration), GroupSlash(Python)]
  }

  // The three patterns of crawler.js, in the order they are tried.
  const JsPatterns: seq<Pattern> := [OutOf50, GroupSlash(JavaScript), InsuranceGroupSlash]

  // `(group_num, max_group)` as crawler.py's extraction loop leaves them.
  function ExtractedPy(text: string, registration: string): Option<(nat, nat)>
  {
    match FirstHit(PyPatterns(registration), text)
    case None => None
    case Some(h) => Some((h.caps.group, h.caps.maxGroup.value))
  }

  // `(groupNum, maxGroup)` as crawler.js's extraction loop leaves them:
  // `maxGroup` keeps its initial 50 unless the matching pattern has a second group.
  function ExtractedJs(text: string): Option<(nat, nat)>
  {
    match FirstHit(JsPatterns, text)
    case None => None
    case Some(h) =>
      Some((h.caps.group, match h.caps.maxGroup case Some(m) => m case None => 50))
  }

  // crawler.py finds a group exactly when one of its patterns matches, and
  // the numbers are the first matching pattern's two captures.
  lemma ExtractedPyMeans(text: string, registration: string)
    ensures ExtractedPy(text, registration).Some?
            <==> exists j :: 0 <= j < 3 && Search(PyPatterns(registration)[j], text).Some?
    ensures forall j :: 0 <= j < 3 && Search(PyPatterns(registration)[j], text).Some?
              && (forall i :: 0 <= i < j ==> Search(PyPatterns(registration)[i], text).None?)
              ==> var c := Search(PyPatterns(registration)[j], text).value.caps;
                  c.maxGroup.Some? && ExtractedPy(text, registration) == Some((c.group, c.maxGroup.value))
  {
    FirstHitFacts(PyPatterns(registration), text);
  }

  // crawler.js finds a group exactly when one of its patterns matches. The
  // first matching pattern gives the group; the ceiling stays 50 when that
  // is the "/ 50" pattern and is the pattern's second capture otherwise.
  lemma ExtractedJsMeans(text: string)
    ensures ExtractedJs(text).Some? <==> exists j :: 0 <= j < 3 && Search(JsPatterns[j], text).Some?
    ensures Search(OutOf50, text).Some? ==> ExtractedJs(text) == Some((Search(OutOf50, text).value.caps.group, 50))
    ensures forall j :: 0 < j < 3 && Search(JsPatterns[j], text).Some?
              && (forall i :: 0 <= i < j ==> Search(JsPatterns[i], text).None?)
              ==> var c := Search(JsPatterns[j], text).value.caps;
                  c.maxGroup.Some? && ExtractedJs(text) == Some((c.group, c.maxGroup.value))
  {
    FirstHitFacts(JsPatterns, text);
  }

  // ---------------------------------------------------------------------
  // Reading back the display string "Group n/m"

  lemma {:induction false} DigitsEndOfRun(s: string, i: nat, j: nat)
    requires i <= j <= |s|
    requires AllDigits(s[i..j])
    requires j == |s| || !IsDigit(s[j])
    ensures DigitsEnd(s, i) == j
    decreases j - i
  {
    if i < j {
      assert IsDigit(s[i..j][0]);
      var t := s[i + 1..j];
      assert AllDigits(t) by {
        forall k | 0 <= k < |t| ensures IsDigit(t[k]) {
          assert t[k] == s[i..j][k + 1];
        }
      }
      DigitsEndOfRun(s, i + 1, j);
    }
  }

  predicate DisplayChar(c: char)
  {
    c == 'G' || c == 'r' || c == 'o' || c == 'u' || c == 'p' || c == ' ' || c == '/' || IsDigit(c)
  }

  predicate StartsWith50(s: string)
  {
    |s| >= 2 && s[..2] == "50"
  }

  lemma DisplayTextShape(n: nat, m: nat)
    ensures |DisplayText(n, m)| == 7 + |Show(n)| + |Show(m)|
    ensures DisplayText(n, m)[..6] == "Group "
    ensures DisplayText(n, m)[6..6 + |Show(n)|] == Show(n)
    ensures DisplayText(n, m)[6 + |Show(n)|] == '/'
    ensures DisplayText(n, m)[7 + |Show(n)|..] == Show(m)
    ensures forall k :: 0 <= k < |DisplayText(n, m)| ==> DisplayChar(DisplayText(n, m)[k])
  {
    var d, a, b := DisplayText(n, m), Show(n), Show(m);
    assert d == "Group " + a + "/" + b;
    forall k | 0 <= k < |d| ensures DisplayChar(d[k]) {
      if k < 6 {
        assert d[k] == "Group "[k];
      } else if k < 6 + |a| {
        assert d[k] == a[k - 6];
      } else if k > 6 + |a| {
        assert d[k] == b[k - 7 - |a|];
      }
    }
  }

  // A digit or a slash is whitespace in neither language, so a run of
  // whitespace stops there.
  lemma SpacesEndAtDigitOrSlash(lang: Lang, s: string, i: nat)
    requires i < |s| && (IsDigit(s[i]) || s[i] == '/')
    ensures SpacesEnd(lang, s, i) == i
  {
  }

  // The numbers of the display text, read from its first digit.
  lemma SlashPairOnDisplay(lang: Lang, n: nat, m: nat)
    ensures |DisplayText(n, m)| > 6
    ensures SlashPairAt(lang, DisplayText(n, m), 6) == Some((n, m))
  {
    var d := DisplayText(n, m);
    var e := 6 + |Show(n)|;
    DisplayTextShape(n, m);
    DigitsEndOfRun(d, 6, e);
    SpacesEndAtDigitOrSlash(lang, d, e);
    assert IsDigit(d[e + 1]) by { assert d[e + 1] == Show(m)[0]; }
    SpacesEndAtDigitOrSlash(lang, d, e + 1);
    assert d[e + 1..|d|] == Show(m);
    DigitsEndOfRun(d, e + 1, |d|);
    ShowRoundTrip(n);
    ShowRoundTrip(m);
  }

  lemma GroupSlashOnDisplay(lang: Lang, n: nat, m: nat)
    ensures GroupSlashAt(lang, DisplayText(n, m), 0) == Some((n, m))
  {
    var d := DisplayText(n, m);
    DisplayTextShape(n, m);
    assert d[0..5] == "Group" by { assert d[0..5] == d[..6][..5]; }
    assert Lower("Group") == "group";
    assert MatchesAt(d, 0, "group");
    assert d[5] == ' ' && IsDigit(d[6]) by { assert d[5] == d[..6][5]; assert d[6] == Show(n)[0]; }
    SpacesEndAtDigitOrSlash(lang, d, 6);
    assert SpacesEnd(lang, d, 5) == 6;
    SlashPairOnDisplay(lang, n, m);
  }

  lemma GroupSlashFindsDisplay(lang: Lang, n: nat, m: nat)
    ensures Search(GroupSlash(lang), DisplayText(n, m)) == Some(Hit(0, Captures(n, Some(m))))
  {
    GroupSlashOnDisplay(lang, n, m);
  }

  /** The display text holds neither a 'y' (so "your car insurance group"
      cannot start anywhere) nor a '('. */
  lemma NoPrefixedPatternInDisplay(n: nat, m: nat, reg: string)
    ensures Search(YourCarGroup, DisplayText(n, m)).None?
    ensures Search(BracketedRegistration(reg), DisplayText(n, m)).None?
  {
    var d := DisplayText(n, m);
    DisplayTextShape(n, m);
    forall j | 0 <= j <= |d| ensures MatchAt(YourCarGroup, d, j).None? {
      var lit := "your car insurance group";
      if MatchesAt(d, j, lit) {
        assert LowerChar(d[j]) == 'y' by {
          assert Lower(d[j..j + 24])[0] == LowerChar(d[j]);
          assert Lower(lit)[0] == 'y';
        }
        assert false;
      }
    }
    forall j | 0 <= j <= |d| ensures MatchAt(BracketedRegistration(reg), d, j).None? {
      if j < |d| { assert DisplayChar(d[j]); }
    }
    SearchMeans(YourCarGroup, d);
    SearchMeans(BracketedRegistration(reg), d);
  }

  /** crawler.py reads its own display text back: the third pattern matches
      at the start and the first two match nowhere. */
  lemma DisplayTextRoundTripPy(n: nat, m: nat, reg: string)
    ensures ExtractedPy(DisplayText(n, m), reg) == Some((n, m))
  {
    var d := DisplayText(n, m);
    GroupSlashFindsDisplay(Python, n, m);
    NoPrefixedPatternInDisplay(n, m, reg);
    FirstHitFacts(PyPatterns(reg), d);
    var h := FirstHit(PyPatterns(reg), d);
    assert Search(PyPatterns(reg)[2], d).Some?;
    assert h.Some? && h.value.index == 2;
  }

  // `(\d+)\s*/\s*50` anchored inside the group number of the display text:
  // the digits run to the slash, and what follows decides.
  lemma OutOf50InGroup(n: nat, m: nat, j: nat)
    requires 6 <= j < 6 + |Show(n)|
    ensures |DisplayText(n, m)| > j
    ensures OutOf50At(DisplayText(n, m), j).Some? <==> StartsWith50(Show(m))
    ensures j == 6 ==> OutOf50At(DisplayText(n, m), j) == if StartsWith50(Show(m)) then Some(n) else None
  {
    var d := DisplayText(n, m);
    var e := 6 + |Show(n)|;
    DisplayTextShape(n, m);
    assert IsDigit(d[e + 1]) by { assert d[e + 1] == Show(m)[0]; }
    SpacesEndAtDigitOrSlash(JavaScript, d, e);
    SpacesEndAtDigitOrSlash(JavaScript, d, e + 1);
    assert OccursAt("50", d, e + 1) <==> StartsWith50(Show(m)) by {
      if e + 3 <= |d| { assert d[e + 1..e + 3] == Show(m)[..2]; }
    }
    assert AllDigits(d[j..e]) by {
      forall k | 0 <= k < e - j ensures IsDigit(d[j..e][k]) { assert d[j..e][k] == Show(n)[j - 6 + k]; }
    }
    DigitsEndOfRun(d, j, e);
    if j == 6 {
      ShowRoundTrip(n);
      assert d[6..e] == Show(n);
    }
  }

  // ... and anchored anywhere else it does not match.
  lemma OutOf50OutsideGroup(n: nat, m: nat, j: nat)
    requires j <= |DisplayText(n, m)|
    requires j < 6 || j >= 6 + |Show(n)|
    ensures OutOf50At(DisplayText(n, m), j).None?
  {
    var d := DisplayText(n, m);
    var e := 6 + |Show(n)|;
    DisplayTextShape(n, m);
    if j < 6 {
      assert DigitsEnd(d, j) == j by { assert d[j] == "Group "[j]; }
    } else if j > e {
      assert AllDigits(d[j..]) by {
        forall k | 0 <= k < |d| - j ensures IsDigit(d[j..][k]) { assert d[j..][k] == Show(m)[j - e - 1 + k]; }
      }
      DigitsEndOfRun(d, j, |d|);
    }
  }

  // `(\d+)\s*/\s*50` searched in the display text: it matches at the group
  // number exactly when the ceiling's numeral starts with "50".
  lemma OutOf50OnDisplay(n: nat, m: nat)
    ensures StartsWith50(Show(m)) ==> Search(OutOf50, DisplayText(n, m)) == Some(Hit(6, Captures(n, None)))
    ensures !StartsWith50(Show(m)) ==> Search(OutOf50, DisplayText(n, m)).None?
  {
    var d := DisplayText(n, m);
    DisplayTextShape(n, m);
    forall j | 0 <= j <= |d|
      ensures j != 6 && (j < 6 || !StartsWith50(Show(m))) ==> MatchAt(OutOf50, d, j).None?
      ensures j == 6 ==> MatchAt(OutOf50, d, j) == OneGroup(if StartsWith50(Show(m)) then Some(n) else None)
    {
      if 6 <= j < 6 + |Show(n)| {
        OutOf50InGroup(n, m, j);
      } else {
        OutOf50OutsideGroup(n, m, j);
      }
    }
    SearchMeans(OutOf50, d);
    if StartsWith50(Show(m)) {
      var r := Search(OutOf50, d);
      assert MatchAt(OutOf50, d, 6) == Some(Captures(n, None));
      assert r.Some?;
      assert r.value.at == 6;
    }
  }

  /** crawler.js reads its display text back unless the ceiling's numeral
      starts with "50" and is not 50 itself: then the first pattern wins and
      reports 50 (so "Group 14/500" reads as group 14 of 50). */
  lemma DisplayTextRoundTripJs(n: nat, m: nat)
    ensures ExtractedJs(DisplayText(n, m)) == Some((n, if StartsWith50(Show(m)) then 50 else m))
  {
    var d := DisplayText(n, m);
    OutOf50OnDisplay(n, m);
    GroupSlashFindsDisplay(JavaScript, n, m);
    FirstHitFacts(JsPatterns, d);
    var h := FirstHit(JsPatterns, d);
    if StartsWith50(Show(m)) {
      assert Search(JsPatterns[0], d).Some?;
      assert h.Some? && h.value.index == 0;
    } else {
      assert Search(JsPatterns[1], d).Some?;
      assert h.Some? && h.value.index == 1;
    }
  }
}
