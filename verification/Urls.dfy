// URL canonicalisation (crates/core/src/normalize.rs).
//
// A URL is its parsed record: http(s) only, path as characters, query as the
// decoded pair list. Parsing and percent-encoding belong to the `url` crate.
module Urls {
  import opened Prelude

  datatype Scheme = Http | Https

  type Pair = (string, string)

  datatype Url = Url(
    scheme: Scheme, host: string, port: Option<nat>, path: string,
    query: Option<seq<Pair>>, fragment: Option<string>)

  datatype SlashPolicy = Preserve | Add | Remove

  datatype Rules = Rules(
    stripFragment: bool, stripDefaultPorts: bool, lowercaseHost: bool,
    sortQuery: bool, stripTracking: bool, slash: SlashPolicy,
    tracking: seq<string>)

  // ----- the rules, one by one -----

  function LowerChar(ch: char): char {
    if 'A' <= ch <= 'Z' then ch - 'A' + 'a' else ch
  }

  function Lower(s: string): (r: string)
    ensures |r| == |s|
  {
    seq(|s|, i requires 0 <= i < |s| => LowerChar(s[i]))
  }

  function DefaultPort(scheme: Scheme): nat {
    match scheme case Http => 80 case Https => 443
  }

  // `collapse_slashes`: a slash is dropped when the character before it is one.
  function Collapse(path: string): string {
    if |path| == 0 then ""
    else
      var front := Collapse(path[..|path| - 1]);
      if path[|path| - 1] == '/' && |path| > 1 && path[|path| - 2] == '/' then front
      else front + [path[|path| - 1]]
  }

  function TrimEnd(path: string): string {
    if |path| > 0 && path[|path| - 1] == '/' then TrimEnd(path[..|path| - 1]) else path
  }

  predicate EndsWithSlash(path: string) {
    |path| > 0 && path[|path| - 1] == '/'
  }

  // A dot after the last slash.
  predicate HasExtension(path: string) {
    |path| > 0 && path[|path| - 1] != '/' &&
    (path[|path| - 1] == '.' || HasExtension(path[..|path| - 1]))
  }

  // `Url::set_path` on an http(s) URL: the empty path is the root.
  function RootIfEmpty(path: string): string {
    if path == "" then "/" else path
  }

  function ApplySlash(path: string, policy: SlashPolicy): string {
    match policy
    case Preserve => path
    case Add => if EndsWithSlash(path) || HasExtension(path) then path else path + "/"
    case Remove => if |path| > 1 && EndsWithSlash(path) then RootIfEmpty(TrimEnd(path)) else path
  }

  // ----- the query -----

  predicate EqIgnoreCase(a: string, b: string) {
    Lower(a) == Lower(b)
  }

  predicate Kept(rules: Rules, pair: Pair) {
    rules.stripTracking ==> !exists i :: 0 <= i < |rules.tracking| && EqIgnoreCase(rules.tracking[i], pair.0)
  }

  function KeepUntracked(rules: Rules, pairs: seq<Pair>): seq<Pair> {
    if pairs == [] then []
    else (if Kept(rules, pairs[0]) then [pairs[0]] else []) + KeepUntracked(rules, pairs[1..])
  }

  // Lexicographic order on characters.
  predicate Leq(a: string, b: string) {
    a == "" || (b != "" && (a[0] < b[0] || (a[0] == b[0] && Leq(a[1..], b[1..]))))
  }

  // Insertion keeps equal keys in their original order: `sort_by` is stable.
  function InsertByKey(pair: Pair, pairs: seq<Pair>): seq<Pair> {
    if pairs == [] || Leq(pair.0, pairs[0].0) then [pair] + pairs
    else [pairs[0]] + InsertByKey(pair, pairs[1..])
  }

  function SortByKey(pairs: seq<Pair>): seq<Pair> {
    if pairs == [] then [] else InsertByKey(pairs[0], SortByKey(pairs[1..]))
  }

  function Pairs(query: Option<seq<Pair>>): seq<Pair> {
    match query case None => [] case Some(pairs) => pairs
  }

  function RewriteQuery(rules: Rules, query: Option<seq<Pair>>): Option<seq<Pair>> {
    var kept := KeepUntracked(rules, Pairs(query));
    var pairs := if rules.sortQuery then SortByKey(kept) else kept;
    if pairs == [] then None else Some(pairs)
  }

  // What `normalize_url` computes.
  function Normalize(url: Url, rules: Rules): Url {
    Url(
      url.scheme,
      if rules.lowercaseHost then Lower(url.host) else url.host,
      if rules.stripDefaultPorts && url.port == Some(DefaultPort(url.scheme)) then None else url.port,
      ApplySlash(Collapse(url.path), rules.slash),
      if rules.stripTracking || rules.sortQuery then RewriteQuery(rules, url.query) else url.query,
      if rules.stripFragment then None else url.fragment)
  }

  // ----- Normalize is a canonical form: applying it twice changes nothing -----

  lemma LowerIdempotent(s: string)
    ensures Lower(Lower(s)) == Lower(s)
  {
  }

  predicate NoDoubleSlash(path: string) {
    forall i :: 0 < i < |path| ==> !(path[i - 1] == '/' && path[i] == '/')
  }

  lemma {:induction false} CollapseShape(path: string)
    ensures NoDoubleSlash(Collapse(path))
    ensures EndsWithSlash(Collapse(path)) == EndsWithSlash(path)
    ensures Collapse(path) == "" <==> path == ""
  {
    if path != "" { CollapseShape(path[..|path| - 1]); }
  }

  lemma {:induction false} CollapseFixes(path: string)
    requires NoDoubleSlash(path)
    ensures Collapse(path) == path
  {
    if path != "" {
      CollapseFixes(path[..|path| - 1]);
      assert path == path[..|path| - 1] + [path[|path| - 1]];
    }
  }

  lemma {:induction false} TrimEndShape(path: string)
    ensures !EndsWithSlash(TrimEnd(path)) && TrimEnd(path) <= path
  {
    if EndsWithSlash(path) { TrimEndShape(path[..|path| - 1]); }
  }

  lemma SlashShape(path: string, policy: SlashPolicy)
    requires NoDoubleSlash(path)
    ensures NoDoubleSlash(ApplySlash(path, policy))
    ensures ApplySlash(ApplySlash(path, policy), policy) == ApplySlash(path, policy)
  {
    if policy.Remove? { TrimEndShape(path); }
  }

  lemma PathIdempotent(path: string, policy: SlashPolicy)
    ensures
      var once := ApplySlash(Collapse(path), policy);
      ApplySlash(Collapse(once), policy) == once
  {
    CollapseShape(path);
    SlashShape(Collapse(path), policy);
    CollapseFixes(ApplySlash(Collapse(path), policy));
  }

  // ----- stable sorting by key -----

  lemma {:induction false} LeqTotal(a: string, b: string)
    ensures Leq(a, b) || Leq(b, a)
  {
    if a != "" && b != "" { LeqTotal(a[1..], b[1..]); }
  }

  lemma {:induction false} LeqAntisymmetric(a: string, b: string)
    requires Leq(a, b) && Leq(b, a)
    ensures a == b
  {
    if a != "" && b != "" {
      LeqAntisymmetric(a[1..], b[1..]);
      assert a == [a[0]] + a[1..] && b == [b[0]] + b[1..];
    }
  }

  lemma {:induction false} LeqTransitive(a: string, b: string, c: string)
    requires Leq(a, b) && Leq(b, c)
    ensures Leq(a, c)
  {
    if a != "" && b != "" && c != "" && a[0] == b[0] == c[0] { LeqTransitive(a[1..], b[1..], c[1..]); }
  }

  predicate KeySorted(pairs: seq<Pair>) {
    forall i, j :: 0 <= i < j < |pairs| ==> Leq(pairs[i].0, pairs[j].0)
  }

  // The values of one key, in order.
  function ValuesOf(key: string, pairs: seq<Pair>): seq<string> {
    if pairs == [] then []
    else (if pairs[0].0 == key then [pairs[0].1] else []) + ValuesOf(key, pairs[1..])
  }

  lemma {:induction false} InsertSorted(pair: Pair, pairs: seq<Pair>)
    requires KeySorted(pairs)
    ensures KeySorted(InsertByKey(pair, pairs))
    ensures multiset(InsertByKey(pair, pairs)) == multiset(pairs) + multiset{pair}
  {
    if pairs == [] {
    } else if Leq(pair.0, pairs[0].0) {
      forall j | 0 <= j < |pairs| ensures Leq(pair.0, pairs[j].0) {
        if j > 0 { LeqTransitive(pair.0, pairs[0].0, pairs[j].0); }
      }
    } else {
      LeqTotal(pair.0, pairs[0].0);
      InsertSorted(pair, pairs[1..]);
      var rest := InsertByKey(pair, pairs[1..]);
      assert pairs == [pairs[0]] + pairs[1..];
      forall j | 0 <= j < |rest| ensures Leq(pairs[0].0, rest[j].0) {
        assert rest[j] in multiset(rest);
        assert rest[j] == pair || rest[j] in pairs[1..];
      }
    }
  }

  lemma {:induction false} InsertValues(pair: Pair, pairs: seq<Pair>, key: string)
    requires KeySorted(pairs)
    ensures ValuesOf(key, InsertByKey(pair, pairs)) == (if pair.0 == key then [pair.1] else []) + ValuesOf(key, pairs)
  {
    if pairs != [] && !Leq(pair.0, pairs[0].0) {
      InsertValues(pair, pairs[1..], key);
      var rest := InsertByKey(pair, pairs[1..]);
      assert ([pairs[0]] + rest)[1..] == rest;
      LeqReflexive(pair.0);
    } else {
      assert ([pair] + pairs)[1..] == pairs;
    }
  }

  lemma {:induction false} LeqReflexive(a: string)
    ensures Leq(a, a)
  {
    if a != "" { LeqReflexive(a[1..]); }
  }

  // Sorting orders the keys and keeps each key's values in their order.
  lemma {:induction false} SortStable(pairs: seq<Pair>, key: string)
    ensures ValuesOf(key, SortByKey(pairs)) == ValuesOf(key, pairs)
  {
    if pairs != [] {
      SortStable(pairs[1..], key);
      SortSorted(pairs[1..]);
      InsertValues(pairs[0], SortByKey(pairs[1..]), key);
    }
  }

  lemma {:induction false} SortSorted(pairs: seq<Pair>)
    ensures KeySorted(SortByKey(pairs)) && multiset(SortByKey(pairs)) == multiset(pairs)
  {
    if pairs != [] {
      SortSorted(pairs[1..]);
      InsertSorted(pairs[0], SortByKey(pairs[1..]));
      assert pairs == [pairs[0]] + pairs[1..];
    }
  }

  ghost predicate SameValues(a: seq<Pair>, b: seq<Pair>) {
    forall key :: ValuesOf(key, a) == ValuesOf(key, b)
  }

  // A sorted list is determined by the values of each key.
  lemma {:induction false} SortedDetermined(a: seq<Pair>, b: seq<Pair>)
    requires KeySorted(a) && KeySorted(b) && SameValues(a, b)
    ensures a == b
  {
    EmptyTogether(a, b);
    if a != [] {
      FirstKey(a, b);
      FirstKey(b, a);
      LeqAntisymmetric(a[0].0, b[0].0);
      assert ValuesOf(a[0].0, a)[0] == a[0].1 && ValuesOf(a[0].0, b)[0] == b[0].1;
      forall key ensures ValuesOf(key, a[1..]) == ValuesOf(key, b[1..]) {
        assert ValuesOf(key, a) == ValuesOf(key, b);
        DropFirst(key, a);
        DropFirst(key, b);
      }
      SortedDetermined(a[1..], b[1..]);
      assert a == [a[0]] + a[1..] && b == [b[0]] + b[1..];
    }
  }

  lemma EmptyTogether(a: seq<Pair>, b: seq<Pair>)
    requires SameValues(a, b)
    ensures a == [] <==> b == []
  {
    if a != [] { FirstValue(a); }
    if b != [] { FirstValue(b); }
  }

  lemma FirstValue(a: seq<Pair>)
    requires a != []
    ensures ValuesOf(a[0].0, a) != []
  {
  }

  lemma DropFirst(key: string, a: seq<Pair>)
    requires a != []
    ensures ValuesOf(key, a[1..]) == ValuesOf(key, a)[Bit(a[0].0 == key)..]
  {
  }

  lemma {:induction false} HasValue(key: string, pairs: seq<Pair>)
    requires ValuesOf(key, pairs) != []
    ensures exists i :: 0 <= i < |pairs| && pairs[i].0 == key
  {
    if pairs[0].0 == key {
      assert pairs[0].0 == key;
    } else {
      HasValue(key, pairs[1..]);
      var i :| 0 <= i < |pairs[1..]| && pairs[1..][i].0 == key;
      assert pairs[i + 1].0 == key;
    }
  }

  lemma FirstKey(a: seq<Pair>, b: seq<Pair>)
    requires KeySorted(b) && a != [] && b != [] && ValuesOf(a[0].0, a) == ValuesOf(a[0].0, b)
    ensures Leq(b[0].0, a[0].0)
  {
    assert ValuesOf(a[0].0, b) != [];
    HasValue(a[0].0, b);
    var i :| 0 <= i < |b| && b[i].0 == a[0].0;
    LeqReflexive(a[0].0);
  }

  // ----- the whole query -----

  lemma {:induction false} KeepKeeps(rules: Rules, pairs: seq<Pair>)
    ensures forall i :: 0 <= i < |KeepUntracked(rules, pairs)| ==> Kept(rules, KeepUntracked(rules, pairs)[i])
  {
    if pairs != [] { KeepKeeps(rules, pairs[1..]); }
  }

  lemma {:induction false} KeepAll(rules: Rules, pairs: seq<Pair>)
    requires forall i :: 0 <= i < |pairs| ==> Kept(rules, pairs[i])
    ensures KeepUntracked(rules, pairs) == pairs
  {
    if pairs != [] {
      KeepAll(rules, pairs[1..]);
      assert pairs == [pairs[0]] + pairs[1..];
    }
  }

  lemma {:induction false} SortFixes(pairs: seq<Pair>)
    requires KeySorted(pairs)
    ensures SortByKey(pairs) == pairs
  {
    SortSorted(pairs);
    forall key ensures ValuesOf(key, SortByKey(pairs)) == ValuesOf(key, pairs) { SortStable(pairs, key); }
    SortedDetermined(SortByKey(pairs), pairs);
  }

  lemma QueryIdempotent(rules: Rules, query: Option<seq<Pair>>)
    ensures RewriteQuery(rules, RewriteQuery(rules, query)) == RewriteQuery(rules, query)
  {
    var kept := KeepUntracked(rules, Pairs(query));
    KeepKeeps(rules, Pairs(query));
    SortSorted(kept);
    var pairs := if rules.sortQuery then SortByKey(kept) else kept;
    forall i | 0 <= i < |pairs| ensures Kept(rules, pairs[i]) {
      assert pairs[i] in multiset(pairs);
      assert pairs[i] in kept;
    }
    KeepAll(rules, pairs);
    if rules.sortQuery { SortFixes(pairs); }
  }

  // Under every set of rules.
  lemma NormalizeIdempotent(url: Url, rules: Rules)
    ensures Normalize(Normalize(url, rules), rules) == Normalize(url, rules)
  {
    LowerIdempotent(url.host);
    PathIdempotent(url.path, rules.slash);
    QueryIdempotent(rules, url.query);
  }

  // With sorting on, two queries are rewritten to the same one exactly when, tracking
  // parameters aside, every key has the same values in the same order.
  lemma QueryCanonical(rules: Rules, a: Option<seq<Pair>>, b: Option<seq<Pair>>)
    requires rules.sortQuery
    ensures RewriteQuery(rules, a) == RewriteQuery(rules, b) <==>
      SameValues(KeepUntracked(rules, Pairs(a)), KeepUntracked(rules, Pairs(b)))
  {
    var keptA, keptB := KeepUntracked(rules, Pairs(a)), KeepUntracked(rules, Pairs(b));
    SortSorted(keptA);
    SortSorted(keptB);
    assert RewriteQuery(rules, a) == RewriteQuery(rules, b) <==> SortByKey(keptA) == SortByKey(keptB);
    SortEqual(keptA, keptB);
  }

  lemma SortEqual(a: seq<Pair>, b: seq<Pair>)
    ensures SortByKey(a) == SortByKey(b) <==> SameValues(a, b)
  {
    if SortByKey(a) == SortByKey(b) {
      forall key ensures ValuesOf(key, a) == ValuesOf(key, b) {
        SortStable(a, key);
        SortStable(b, key);
      }
    } else if SameValues(a, b) {
      SortSorted(a);
      SortSorted(b);
      forall key ensures ValuesOf(key, SortByKey(a)) == ValuesOf(key, SortByKey(b)) {
        SortStable(a, key);
        SortStable(b, key);
      }
      SortedDetermined(SortByKey(a), SortByKey(b));
    }
  }
}
