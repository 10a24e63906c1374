// What each rule of `normalize_url` yields, in terms of characters, pairs and numbers
// (crates/core/src/normalize.rs:61-170).
module Canonical {
  import opened Prelude
  import opened Urls
  import opened Selections

  // ----- characters -----

  predicate LowerOf(ch: char, low: char) {
    if 'A' <= ch <= 'Z' then low as int == ch as int + 32 else low == ch
  }

  lemma CaseMeans(a: string, b: string)
    ensures EqIgnoreCase(a, b) <==> SameLetters(a, b)
  {
    if EqIgnoreCase(a, b) {
      assert |Lower(a)| == |Lower(b)|;
      forall i | 0 <= i < |a| ensures LowerChar(a[i]) == LowerChar(b[i]) { assert Lower(a)[i] == Lower(b)[i]; }
    }
  }

  // ----- the path -----

  // A slash right after a slash.
  predicate Repeats(path: string, i: nat) { 0 < i < |path| && path[i] == '/' && path[i - 1] == '/' }

  function KeptIn(path: string): nat -> bool { (i: nat) => !Repeats(path, i) }

  // Collapsing removes exactly those.
  lemma {:induction false} CollapseSelects(path: string)
    ensures Selects(Collapse(path), path, KeptIn(path))
  {
    if path == "" {
      SelectsNothing<char>(KeptIn(path));
    } else {
      var front := Front(path);
      CollapseSelects(front);
      SelectsSame(Collapse(front), front, KeptIn(front), KeptIn(path));
      SelectsMore(Collapse(front), front, Last(path), KeptIn(path));
      assert front + [Last(path)] == path;
    }
  }

  // A dot with no slash after it.
  predicate DotInLast(path: string) {
    exists i :: 0 <= i < |path| && path[i] == '.' && forall j :: i < j < |path| ==> path[j] != '/'
  }

  lemma {:induction false} ExtensionMeans(path: string)
    ensures HasExtension(path) <==> DotInLast(path)
  {
    if path != "" {
      var front, last := Front(path), |path| - 1;
      ExtensionMeans(front);
      if DotInLast(front) && path[last] != '/' {
        var i :| 0 <= i < |front| && front[i] == '.' && forall j :: i < j < |front| ==> front[j] != '/';
        assert path[i] == '.';
      }
      if DotInLast(path) && path[last] != '.' {
        var i :| 0 <= i < |path| && path[i] == '.' && forall j :: i < j < |path| ==> path[j] != '/';
        assert front[i] == '.';
      }
    }
  }

  // A path without repeated slashes after the slash policy.
  predicate PolicyGives(path: string, policy: SlashPolicy, r: string) {
    match policy
    case Preserve => r == path
    case Add => r == if EndsInSlash(path) || DotInLast(path) then path else path + "/"
    case Remove => r == if |path| > 1 && EndsInSlash(path) then Front(path) else path
  }

  predicate EndsInSlash(path: string) { path != "" && Last(path) == '/' }

  lemma PolicyMeans(path: string, policy: SlashPolicy)
    requires NoDoubleSlash(path)
    ensures PolicyGives(path, policy, ApplySlash(path, policy))
  {
    ExtensionMeans(path);
    if policy.Remove? && |path| > 1 && EndsInSlash(path) {
      assert path[|path| - 2] != '/';
      assert TrimEnd(Front(path)) == Front(path);
    }
  }

  // ----- the query -----

  predicate IsTracking(rules: Rules, key: string) {
    rules.stripTracking && exists i :: 0 <= i < |rules.tracking| && SameLetters(rules.tracking[i], key)
  }

  lemma KeptMeans(rules: Rules, pair: Pair)
    ensures Kept(rules, pair) <==> !IsTracking(rules, pair.0)
  {
    if rules.stripTracking {
      forall i | 0 <= i < |rules.tracking|
        ensures EqIgnoreCase(rules.tracking[i], pair.0) <==> SameLetters(rules.tracking[i], pair.0)
      {
        CaseMeans(rules.tracking[i], pair.0);
      }
    }
  }

  function Survives(rules: Rules, pairs: seq<Pair>): nat -> bool {
    (i: nat) => i < |pairs| && !IsTracking(rules, pairs[i].0)
  }

  lemma {:induction false} KeepAppends(rules: Rules, pairs: seq<Pair>, pair: Pair)
    ensures KeepUntracked(rules, pairs + [pair]) == KeepUntracked(rules, pairs) + KeepUntracked(rules, [pair])
  {
    if pairs == [] {
      assert [] + [pair] == [pair];
    } else {
      KeepAppends(rules, pairs[1..], pair);
      assert (pairs + [pair])[1..] == pairs[1..] + [pair];
    }
  }

  // The filter keeps the pairs whose key is no tracking name, in order.
  lemma {:induction false} KeepSelects(rules: Rules, pairs: seq<Pair>)
    ensures Selects(KeepUntracked(rules, pairs), pairs, Survives(rules, pairs))
  {
    if pairs == [] {
      SelectsNothing<Pair>(Survives(rules, pairs));
    } else {
      KeepSelects(rules, Front(pairs));
      SelectsLast(rules, KeepUntracked(rules, Front(pairs)), pairs);
      KeepLast(rules, pairs);
    }
  }

  lemma SelectsLast(rules: Rules, kept: seq<Pair>, pairs: seq<Pair>)
    requires pairs != [] && Selects(kept, Front(pairs), Survives(rules, Front(pairs)))
    ensures Selects(if Survives(rules, pairs)(|pairs| - 1) then kept + [Last(pairs)] else kept, pairs, Survives(rules, pairs))
  {
    SelectsSame(kept, Front(pairs), Survives(rules, Front(pairs)), Survives(rules, pairs));
    SelectsMore(kept, Front(pairs), Last(pairs), Survives(rules, pairs));
    assert Front(pairs) + [Last(pairs)] == pairs;
  }

  lemma KeepLast(rules: Rules, pairs: seq<Pair>)
    requires pairs != []
    ensures KeepUntracked(rules, pairs) ==
      if Survives(rules, pairs)(|pairs| - 1) then KeepUntracked(rules, Front(pairs)) + [Last(pairs)]
      else KeepUntracked(rules, Front(pairs))
  {
    assert pairs == Front(pairs) + [Last(pairs)];
    KeepAppends(rules, Front(pairs), Last(pairs));
    KeptMeans(rules, Last(pairs));
    assert KeepUntracked(rules, [Last(pairs)]) == if Kept(rules, Last(pairs)) then [Last(pairs)] else [];
  }

  lemma {:induction false} KeptValues(rules: Rules, pairs: seq<Pair>, key: string)
    ensures ValuesOf(key, KeepUntracked(rules, pairs)) == if IsTracking(rules, key) then [] else ValuesOf(key, pairs)
  {
    if pairs != [] {
      KeptValues(rules, pairs[1..], key);
      KeptMeans(rules, pairs[0]);
      var rest := KeepUntracked(rules, pairs[1..]);
      assert ([pairs[0]] + rest)[1..] == rest && [] + rest == rest;
    }
  }

  // With a query rule on, every key keeps its values in order, but tracking keys lose them.
  lemma QueryMeans(url: Url, rules: Rules, key: string)
    requires rules.stripTracking || rules.sortQuery
    ensures ValuesOf(key, Pairs(Normalize(url, rules).query))
      == if IsTracking(rules, key) then [] else ValuesOf(key, Pairs(url.query))
  {
    var kept := KeepUntracked(rules, Pairs(url.query));
    KeptValues(rules, Pairs(url.query), key);
    SortStable(kept, key);
    SortSorted(kept);
    if rules.sortQuery && SortByKey(kept) == [] { assert multiset(kept) == multiset{}; }
  }

  // A key before another: a proper prefix, or smaller where they first differ.
  predicate KeyBefore(a: string, b: string) {
    a <= b || exists k :: 0 <= k < |a| && k < |b| && a[..k] == b[..k] && a[k] < b[k]
  }

  lemma {:induction false} LeqMeans(a: string, b: string)
    ensures Leq(a, b) <==> KeyBefore(a, b)
  {
    if a != "" && b != "" {
      LeqMeans(a[1..], b[1..]);
      if a[0] == b[0] { SameFirst(a, b); }
      else if a[0] < b[0] { assert a[..0] == b[..0]; }
    }
  }

  lemma SameFirst(a: string, b: string)
    requires a != "" && b != "" && a[0] == b[0]
    ensures KeyBefore(a, b) <==> KeyBefore(a[1..], b[1..])
  {
    assert a == [a[0]] + a[1..] && b == [b[0]] + b[1..];
    if !(a <= b) && KeyBefore(a, b) {
      var k :| 0 <= k < |a| && k < |b| && a[..k] == b[..k] && a[k] < b[k];
      assert a[1..][..k - 1] == a[..k][1..] && b[1..][..k - 1] == b[..k][1..];
    }
    if !(a[1..] <= b[1..]) && KeyBefore(a[1..], b[1..]) {
      var k :| 0 <= k < |a[1..]| && k < |b[1..]| && a[1..][..k] == b[1..][..k] && a[1..][k] < b[1..][k];
      assert a[..k + 1] == [a[0]] + a[1..][..k] && b[..k + 1] == [b[0]] + b[1..][..k];
    }
  }

  predicate InKeyOrder(pairs: seq<Pair>) {
    forall i, j :: 0 <= i < j < |pairs| ==> KeyBefore(pairs[i].0, pairs[j].0)
  }

  // The pairs that survive, in their old order or in that of their keys; never an empty list.
  lemma QueryPairs(url: Url, rules: Rules)
    requires rules.stripTracking || rules.sortQuery
    ensures var (before, after) := (Pairs(url.query), Normalize(url, rules).query);
      && (after.Some? ==> after.value != [])
      && (!rules.sortQuery ==> Selects(Pairs(after), before, Survives(rules, before)))
      && (rules.sortQuery ==> InKeyOrder(Pairs(after)))
  {
    var kept := KeepUntracked(rules, Pairs(url.query));
    KeepSelects(rules, Pairs(url.query));
    if rules.sortQuery {
      var sorted := SortByKey(kept);
      SortSorted(kept);
      forall i, j | 0 <= i < j < |sorted| ensures KeyBefore(sorted[i].0, sorted[j].0) {
        LeqMeans(sorted[i].0, sorted[j].0);
      }
    }
  }

  // ----- every field -----

  predicate OwnPort(scheme: Scheme, port: nat) { (scheme.Http? && port == 80) || (scheme.Https? && port == 443) }

  // Scheme, host, port, path and fragment, rule by rule.
  lemma FieldsMean(url: Url, rules: Rules)
    ensures var r := Normalize(url, rules);
      && r.scheme == url.scheme
      && |r.host| == |url.host|
      && (forall i :: 0 <= i < |url.host| ==>
            if rules.lowercaseHost then LowerOf(url.host[i], r.host[i]) else r.host[i] == url.host[i])
      && r.port == (if rules.stripDefaultPorts && url.port.Some? && OwnPort(url.scheme, url.port.value) then None else url.port)
      && r.fragment == (if rules.stripFragment then None else url.fragment)
      && (!rules.stripTracking && !rules.sortQuery ==> r.query == url.query)
  {
    if rules.lowercaseHost {
      forall i | 0 <= i < |url.host| ensures LowerOf(url.host[i], Lower(url.host)[i]) {}
    }
  }

  // The path: repeated slashes go, then the policy has its say.
  lemma PathMeans(url: Url, rules: Rules) returns (single: string)
    ensures Selects(single, url.path, KeptIn(url.path)) && NoDoubleSlash(single)
    ensures PolicyGives(single, rules.slash, Normalize(url, rules).path)
  {
    single := Collapse(url.path);
    CollapseSelects(url.path);
    CollapseShape(url.path);
    PolicyMeans(single, rules.slash);
  }
}
