/** The "ordered selectors, first match wins" search both crawlers use for
    the cookie banner, the registration field and the submit control. Which
    of the listed selectors the browser reports (visible within its timeout,
    or present in the DOM) is an oracle indexed by the selector's position; a
    selector whose probe throws counts as unmatched, as the source's
    `except: continue` does. */
module Selectors {
  import opened Records

  /** The first position from `i` on, below `count`, whose selector matched;
      `FirstMatchFacts` states what it means. */
  function FirstMatchFrom(count: nat, matched: nat -> bool, i: nat): Option<nat>
    decreases count - i, matched
  {
    if i >= count then None
    else if matched(i) then Some(i)
    else FirstMatchFrom(count, matched, i + 1)
  }

  /** The first of `count` selectors the page matches. */
  function FirstMatch(count: nat, matched: nat -> bool): Option<nat>
  {
    FirstMatchFrom(count, matched, 0)
  }

  lemma {:induction false} FirstMatchFromFacts(count: nat, matched: nat -> bool, i: nat)
    ensures var r := FirstMatchFrom(count, matched, i);
      && (r.Some? ==> i <= r.value < count && matched(r.value))
      && (r.Some? ==> forall j :: i <= j < r.value ==> !matched(j))
      && (r.None? <==> forall j :: i <= j < count ==> !matched(j))
    decreases count - i
  {
    if i < count && !matched(i) {
      FirstMatchFromFacts(count, matched, i + 1);
    }
  }

  /** The position found is in range, its selector matched and no earlier
      one did; nothing is found exactly when no selector matched. */
  lemma FirstMatchFacts(count: nat, matched: nat -> bool)
    ensures var r := FirstMatch(count, matched);
      && (r.Some? ==> r.value < count && matched(r.value))
      && (r.Some? ==> forall j :: 0 <= j < r.value ==> !matched(j))
      && (r.None? <==> forall j :: 0 <= j < count ==> !matched(j))
  {
    FirstMatchFromFacts(count, matched, 0);
  }

  /** The `for selector in ...: ... break` loop; it also hands back the
      selector text that matched, which the crawlers log. */
  method FindFirst(selectors: seq<string>, matched: nat -> bool) returns (found: Option<nat>, selector: string)
    ensures found == FirstMatch(|selectors|, matched)
    ensures found.Some? ==> found.value < |selectors| && selector == selectors[found.value]
  {
    found := None;
    selector := "";
    var i := 0;
    while i < |selectors|
      invariant 0 <= i <= |selectors|
      invariant FirstMatchFrom(|selectors|, matched, i) == FirstMatch(|selectors|, matched)
    {
      if matched(i) {
        found := Some(i);
        selector := selectors[i];
        return;
      }
      i := i + 1;
    }
  }
}
