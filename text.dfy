/** Text helpers shared by both crawlers and the server: character classes,
    case mapping, whitespace trimming, substring search and decimal
    numerals. Whitespace follows each language's own definition; case
    mapping and digits are restricted to ASCII. */
module Text {

  /** The language whose whitespace rules apply. */
  datatype Lang = Python | JavaScript

  /** Whitespace as the language's `\s`, `str.strip()` and `String.prototype.trim`
      see it. Both count tab through carriage return, space, U+00A0, U+1680,
      U+2000..U+200A, U+2028, U+2029, U+202F, U+205F and U+3000. Python's
      `str.isspace` also counts U+001C..U+001F and U+0085; JavaScript also
      counts U+FEFF. */
  predicate IsSpace(lang: Lang, c: char)
  {
    || '\t' <= c <= '\r' || c == ' ' || c == '\U{A0}' || c == '\U{1680}'
    || '\U{2000}' <= c <= '\U{200A}' || c == '\U{2028}' || c == '\U{2029}'
    || c == '\U{202F}' || c == '\U{205F}' || c == '\U{3000}'
    || (lang == Python && ('\U{1C}' <= c <= '\U{1F}' || c == '\U{85}'))
    || (lang == JavaScript && c == '\U{FEFF}')
  }

  predicate IsDigit(c: char) { '0' <= c <= '9' }

  predicate IsUpper(c: char) { 'A' <= c <= 'Z' }

  predicate IsLower(c: char) { 'a' <= c <= 'z' }

  function LowerChar(c: char): char
  {
    if IsUpper(c) then (c as int + 32) as char else c
  }

  function UpperChar(c: char): char
  {
    if IsLower(c) then (c as int - 32) as char else c
  }

  /** `str.lower()` / `toLowerCase()` on ASCII. */
  function Lower(s: string): (r: string)
    ensures |r| == |s|
    ensures forall i :: 0 <= i < |s| ==> r[i] == LowerChar(s[i])
  {
    seq(|s|, i requires 0 <= i < |s| => LowerChar(s[i]))
  }

  /** `str.upper()` / `toUpperCase()` on ASCII. */
  function Upper(s: string): (r: string)
    ensures |r| == |s|
    ensures forall i :: 0 <= i < |s| ==> r[i] == UpperChar(s[i])
  {
    seq(|s|, i requires 0 <= i < |s| => UpperChar(s[i]))
  }

  /** Lower-casing forgets every case change made before it. */
  lemma LowerOfUpper(s: string)
    ensures Lower(Upper(s)) == Lower(s)
  {
    assert forall i :: 0 <= i < |s| ==> LowerChar(UpperChar(s[i])) == LowerChar(s[i]);
  }

  lemma LowerOfLower(s: string)
    ensures Lower(Lower(s)) == Lower(s)
  {
    assert forall i :: 0 <= i < |s| ==> LowerChar(LowerChar(s[i])) == LowerChar(s[i]);
  }

  /** `s[:n]` in Python, `s.slice(0, n)` in JavaScript. */
  function Take(s: string, n: nat): (r: string)
    ensures |r| <= n && |r| <= |s|
    ensures r == s[..|r|]
    ensures |s| <= n ==> r == s
  {
    if |s| <= n then s else s[..n]
  }

  /** `p` occurs in `s` starting at index `i`. */
  predicate OccursAt(p: string, s: string, i: int)
  {
    0 <= i && i + |p| <= |s| && s[i..i + |p|] == p
  }

  /** Python's `p in s` and JavaScript's `s.includes(p)` on strings, scanned
      from the left; `ContainsMeans` states it as an occurrence. */
  predicate Contains(s: string, p: string)
    decreases |s|
  {
    |p| <= |s| && (s[..|p|] == p || Contains(s[1..], p))
  }

  /** `Contains` holds exactly when `p` occurs at some index of `s`. */
  lemma {:induction false} ContainsMeans(s: string, p: string)
    ensures Contains(s, p) <==> exists i :: OccursAt(p, s, i)
    decreases |s|
  {
    if |p| <= |s| && s[..|p|] == p {
      assert OccursAt(p, s, 0);
    } else if |p| <= |s| {
      ContainsMeans(s[1..], p);
      if exists i :: OccursAt(p, s, i) {
        var i :| OccursAt(p, s, i);
        assert s[1..][i - 1..i - 1 + |p|] == s[i..i + |p|];
        assert OccursAt(p, s[1..], i - 1);
      }
      if Contains(s[1..], p) {
        var i :| OccursAt(p, s[1..], i);
        assert s[i + 1..i + 1 + |p|] == s[1..][i..i + |p|];
        assert OccursAt(p, s, i + 1);
      }
    }
  }

  predicate AllSpace(lang: Lang, s: string)
  {
    forall i :: 0 <= i < |s| ==> IsSpace(lang, s[i])
  }

  predicate NoSpace(lang: Lang, s: string)
  {
    forall i :: 0 <= i < |s| ==> !IsSpace(lang, s[i])
  }

  predicate NoLower(s: string)
  {
    forall i :: 0 <= i < |s| ==> !IsLower(s[i])
  }

  function TrimStart(lang: Lang, s: string): string
  {
    if s != [] && IsSpace(lang, s[0]) then TrimStart(lang, s[1..]) else s
  }

  function TrimEnd(lang: Lang, s: string): string
  {
    if s != [] && IsSpace(lang, s[|s| - 1]) then TrimEnd(lang, s[..|s| - 1]) else s
  }

  /** Python's `str.strip()` and JavaScript's `trim()`. */
  function Strip(lang: Lang, s: string): string
  {
    TrimEnd(lang, TrimStart(lang, s))
  }

  lemma {:induction false} TrimStartFacts(lang: Lang, s: string)
    ensures TrimStart(lang, s) == [] <==> AllSpace(lang, s)
    ensures TrimStart(lang, s) != [] ==> !IsSpace(lang, TrimStart(lang, s)[0])
    ensures NoSpace(lang, s) ==> TrimStart(lang, s) == s
  {
    if s != [] && IsSpace(lang, s[0]) {
      TrimStartFacts(lang, s[1..]);
      assert AllSpace(lang, s) <==> AllSpace(lang, s[1..]) by {
        if AllSpace(lang, s[1..]) {
          forall i | 0 <= i < |s| ensures IsSpace(lang, s[i]) {
            if i > 0 { assert s[i] == s[1..][i - 1]; }
          }
        }
      }
    }
  }

  lemma {:induction false} TrimEndFacts(lang: Lang, s: string)
    ensures TrimEnd(lang, s) == [] ==> AllSpace(lang, s)
    ensures s != [] && !IsSpace(lang, s[0]) ==> TrimEnd(lang, s) != []
    ensures NoSpace(lang, s) ==> TrimEnd(lang, s) == s
  {
    if s != [] && IsSpace(lang, s[|s| - 1]) {
      var t := s[..|s| - 1];
      TrimEndFacts(lang, t);
      if TrimEnd(lang, s) == [] {
        forall i | 0 <= i < |s| ensures IsSpace(lang, s[i]) {
          if i < |s| - 1 { assert s[i] == t[i]; }
        }
      }
      if !IsSpace(lang, s[0]) {
        assert t != [] && t[0] == s[0];
      }
    }
  }

  /** A string strips to nothing exactly when it is all whitespace: the
      truthiness test `s.strip()` in Python asks whether `s` holds a
      character that is not whitespace. */
  lemma StripEmpty(lang: Lang, s: string)
    ensures Strip(lang, s) == [] <==> AllSpace(lang, s)
  {
    TrimStartFacts(lang, s);
    TrimEndFacts(lang, TrimStart(lang, s));
    if AllSpace(lang, s) {
      assert TrimStart(lang, s) == [];
    }
  }

  lemma StripNoSpace(lang: Lang, s: string)
    requires NoSpace(lang, s)
    ensures Strip(lang, s) == s
  {
    TrimStartFacts(lang, s);
    TrimEndFacts(lang, s);
  }

  /** `s.replace(/\s+/g, "")`: every whitespace character removed. */
  function RemoveSpaces(lang: Lang, s: string): (r: string)
    ensures NoSpace(lang, r)
    ensures |r| <= |s|
  {
    if s == [] then []
    else (if IsSpace(lang, s[0]) then [] else [s[0]]) + RemoveSpaces(lang, s[1..])
  }

  /** Removing whitespace works character by character: a whitespace
      character disappears and any other character is kept ... */
  lemma RemoveSpacesOne(lang: Lang, c: char)
    ensures RemoveSpaces(lang, [c]) == if IsSpace(lang, c) then [] else [c]
  {
    assert [c][1..] == [];
  }

  /** ... and the pieces of a string are cleaned independently and kept in
      order. Together with `RemoveSpacesOne` this determines the result for
      every input. */
  lemma {:induction false} RemoveSpacesAppend(lang: Lang, a: string, b: string)
    ensures RemoveSpaces(lang, a + b) == RemoveSpaces(lang, a) + RemoveSpaces(lang, b)
  {
    if a != [] {
      assert (a + b)[0] == a[0];
      assert (a + b)[1..] == a[1..] + b;
      RemoveSpacesAppend(lang, a[1..], b);
    } else {
      assert a + b == b;
    }
  }

  lemma {:induction false} RemoveSpacesKeepsCase(lang: Lang, s: string)
    requires NoLower(s)
    ensures NoLower(RemoveSpaces(lang, s))
  {
    if s != [] {
      assert NoLower(s[1..]) by {
        forall i | 0 <= i < |s| - 1 ensures !IsLower(s[1..][i]) { assert s[1..][i] == s[i + 1]; }
      }
      RemoveSpacesKeepsCase(lang, s[1..]);
    }
  }

  lemma {:induction false} RemoveSpacesNoSpace(lang: Lang, s: string)
    requires NoSpace(lang, s)
    ensures RemoveSpaces(lang, s) == s
  {
    if s != [] {
      assert NoSpace(lang, s[1..]) by {
        forall i | 0 <= i < |s| - 1 ensures !IsSpace(lang, s[1..][i]) { assert s[1..][i] == s[i + 1]; }
      }
      RemoveSpacesNoSpace(lang, s[1..]);
      assert s == [s[0]] + s[1..];
    }
  }

  /** Trimming before removing whitespace changes nothing: the whitespace
      `trim` drops would be removed anyway. */
  lemma {:induction false} RemoveSpacesIgnoresTrimStart(lang: Lang, s: string)
    ensures RemoveSpaces(lang, TrimStart(lang, s)) == RemoveSpaces(lang, s)
  {
    if s != [] && IsSpace(lang, s[0]) {
      RemoveSpacesIgnoresTrimStart(lang, s[1..]);
    }
  }

  lemma {:induction false} RemoveSpacesIgnoresTrimEnd(lang: Lang, s: string)
    ensures RemoveSpaces(lang, TrimEnd(lang, s)) == RemoveSpaces(lang, s)
  {
    if s != [] && IsSpace(lang, s[|s| - 1]) {
      var t := s[..|s| - 1];
      RemoveSpacesIgnoresTrimEnd(lang, t);
      assert s == t + [s[|s| - 1]];
      RemoveSpacesAppend(lang, t, [s[|s| - 1]]);
      RemoveSpacesOne(lang, s[|s| - 1]);
    }
  }

  lemma RemoveSpacesIgnoresStrip(lang: Lang, s: string)
    ensures RemoveSpaces(lang, Strip(lang, s)) == RemoveSpaces(lang, s)
  {
    RemoveSpacesIgnoresTrimEnd(lang, TrimStart(lang, s));
    RemoveSpacesIgnoresTrimStart(lang, s);
  }

  /** Upper-casing never turns whitespace into something else or back. */
  lemma UpperCharKeepsSpace(lang: Lang, c: char)
    ensures IsSpace(lang, UpperChar(c)) <==> IsSpace(lang, c)
  {
  }

  /** Trimming and upper-casing can be done in either order. */
  lemma {:induction false} UpperTrimStart(lang: Lang, s: string)
    ensures Upper(TrimStart(lang, s)) == TrimStart(lang, Upper(s))
  {
    if s != [] {
      UpperCharKeepsSpace(lang, s[0]);
      assert Upper(s)[1..] == Upper(s[1..]);
      if IsSpace(lang, s[0]) {
        UpperTrimStart(lang, s[1..]);
      }
    }
  }

  lemma {:induction false} UpperTrimEnd(lang: Lang, s: string)
    ensures Upper(TrimEnd(lang, s)) == TrimEnd(lang, Upper(s))
  {
    if s != [] {
      UpperCharKeepsSpace(lang, s[|s| - 1]);
      assert Upper(s)[..|s| - 1] == Upper(s[..|s| - 1]);
      if IsSpace(lang, s[|s| - 1]) {
        UpperTrimEnd(lang, s[..|s| - 1]);
      }
    }
  }

  lemma UpperStrip(lang: Lang, s: string)
    ensures Upper(Strip(lang, s)) == Strip(lang, Upper(s))
  {
    UpperTrimStart(lang, s);
    UpperTrimEnd(lang, TrimStart(lang, s));
  }

  lemma UpperNoLower(s: string)
    ensures NoLower(Upper(s))
  {
  }

  lemma UpperOfNoLower(s: string)
    requires NoLower(s)
    ensures Upper(s) == s
  {
  }

  function DigitChar(d: nat): (c: char)
    requires d < 10
    ensures IsDigit(c)
  {
    ('0' as int + d) as char
  }

  function DigitValue(c: char): (d: nat)
    requires IsDigit(c)
    ensures d < 10
  {
    c as int - '0' as int
  }

  predicate AllDigits(s: string)
  {
    forall i :: 0 <= i < |s| ==> IsDigit(s[i])
  }

  /** Decimal numeral of `n`, as Python's f-string and JavaScript's template literal print an integer. */
  function Show(n: nat): (s: string)
    ensures |s| >= 1 && AllDigits(s)
    decreases n
  {
    if n < 10 then [DigitChar(n)] else Show(n / 10) + [DigitChar(n % 10)]
  }

  /** Value of a run of decimal digits, as Python's `int()` and JavaScript's `parseInt(_, 10)` read it. */
  function DigitsValue(s: string): nat
    requires AllDigits(s)
  {
    if s == [] then 0 else 10 * DigitsValue(s[..|s| - 1]) + DigitValue(s[|s| - 1])
  }

  /** Printing a number and reading it back gives the number. */
  lemma {:induction false} ShowRoundTrip(n: nat)
    ensures DigitsValue(Show(n)) == n
    decreases n
  {
    if n >= 10 {
      ShowRoundTrip(n / 10);
      var s := Show(n);
      assert s[..|s| - 1] == Show(n / 10);
    }
  }

  /** Seconds with one decimal, as `f"{waited:.1f}"` and `toFixed(1)` print a whole number of milliseconds. */
  function ShowTenths(ms: nat): string
  {
    Show(ms / 1000) + "." + Show((ms / 100) % 10)
  }
}
