// `normalize_url` as the repository writes it: a URL edited in place, one rule
// after the other, each with its guard (crates/core/src/normalize.rs:61-166).
module UrlBuffer {
  import opened Prelude
  import opened Urls

  // `collapse_slashes`, with its one-character memory.
  method CollapseSlashes(path: string) returns (out: string)
    ensures out == Collapse(path)
  {
    out := "";
    var lastWasSlash := false;
    var i := 0;
    while i < |path|
      invariant 0 <= i <= |path|
      invariant out == Collapse(path[..i])
      invariant lastWasSlash == (i > 0 && path[i - 1] == '/')
    {
      assert path[..i + 1][..i] == path[..i];
      if path[i] != '/' || !lastWasSlash {
        out := out + [path[i]];
      }
      lastWasSlash := path[i] == '/';
      i := i + 1;
    }
    assert path[..i] == path;
  }

  predicate HasDoubleSlash(path: string) {
    exists i :: 0 < i < |path| && path[i - 1] == '/' && path[i] == '/'
  }

  // ----- the stable sort, in place -----

  ghost predicate AllBefore(pair: Pair, pairs: seq<Pair>, p: nat)
    requires p <= |pairs|
  {
    forall i :: 0 <= i < p ==> !Leq(pair.0, pairs[i].0)
  }

  lemma {:induction false} InsertAt(pair: Pair, pairs: seq<Pair>, p: nat)
    requires p <= |pairs| && AllBefore(pair, pairs, p)
    requires p < |pairs| ==> Leq(pair.0, pairs[p].0)
    ensures InsertByKey(pair, pairs) == pairs[..p] + [pair] + pairs[p..]
  {
    if p > 0 {
      var rest := pairs[1..];
      InsertAt(pair, rest, p - 1);
      assert pairs[..p] == [pairs[0]] + rest[..p - 1] && pairs[p..] == rest[p - 1..];
    }
  }

  // The array with the pair p places into the rest.
  ghost function Sunk(front: seq<Pair>, rest: seq<Pair>, p: nat, pair: Pair): seq<Pair>
    requires p <= |rest|
  {
    front + rest[..p] + [pair] + rest[p..]
  }

  lemma SinkOne(front: seq<Pair>, rest: seq<Pair>, p: nat, pair: Pair)
    requires p < |rest| && AllBefore(pair, rest, p)
    ensures !Leq(pair.0, rest[p].0) ==> AllBefore(pair, rest, p + 1)
    ensures var now := Sunk(front, rest, p, pair);
            now[|front| + p] == pair && now[|front| + p + 1] == rest[p] &&
            now[|front| + p := rest[p]][|front| + p + 1 := pair] == Sunk(front, rest, p + 1, pair)
  {
    assert rest[..p + 1] == rest[..p] + [rest[p]];
    assert rest[p..] == [rest[p]] + rest[p + 1..];
  }

  method SwapNext(a: array<Pair>, j: nat)
    requires j + 1 < a.Length
    modifies a
    ensures a[..] == old(a[..])[j := old(a[j + 1])][j + 1 := old(a[j])]
  {
    a[j], a[j + 1] := a[j + 1], a[j];
  }

  ghost function SunkAt(pairs: seq<Pair>, i: nat): seq<Pair>
    requires i < |pairs|
  {
    pairs[..i] + InsertByKey(pairs[i], pairs[i + 1..])
  }

  lemma NothingSunk(pairs: seq<Pair>, i: nat)
    requires i < |pairs|
    ensures Sunk(pairs[..i], pairs[i + 1..], 0, pairs[i]) == pairs
  {
  }

  // Moves a[i] into the sorted rest behind it, before its equals.
  method SinkInto(a: array<Pair>, i: nat)
    requires i < a.Length
    modifies a
    ensures a[..] == SunkAt(old(a[..]), i)
  {
    ghost var was := a[..];
    ghost var front, rest := was[..i], was[i + 1..];
    var pair, p := a[i], 0;
    NothingSunk(was, i);
    while i + p + 1 < a.Length && !Leq(pair.0, a[i + p + 1].0)
      invariant p <= |rest| && |front| == i && |rest| == a.Length - i - 1
      invariant a[..] == Sunk(front, rest, p, pair)
      invariant AllBefore(pair, rest, p)
    {
      SinkOne(front, rest, p, pair);
      assert a[i + p] == a[..][i + p] && a[i + p + 1] == a[..][i + p + 1];
      SwapNext(a, i + p);
      p := p + 1;
    }
    if p < |rest| {
      SinkOne(front, rest, p, pair);
      assert a[i + p + 1] == a[..][i + p + 1];
    }
    InsertAt(pair, rest, p);
    SunkIs(front, rest, p, pair);
  }

  lemma SunkIs(front: seq<Pair>, rest: seq<Pair>, p: nat, pair: Pair)
    requires p <= |rest| && InsertByKey(pair, rest) == rest[..p] + [pair] + rest[p..]
    ensures Sunk(front, rest, p, pair) == front + InsertByKey(pair, rest)
  {
  }

  method SortInPlace(a: array<Pair>)
    modifies a
    ensures a[..] == SortByKey(old(a[..]))
  {
    var i := a.Length;
    ghost var was := a[..];
    while i > 0
      invariant 0 <= i <= a.Length == |was|
      invariant a[..] == was[..i] + SortByKey(was[i..]) && |SortByKey(was[i..])| == a.Length - i
    {
      i := i - 1;
      assert a[..i] == was[..i] && a[i] == was[i] && a[i + 1..] == SortByKey(was[i + 1..]);
      assert was[i..][1..] == was[i + 1..];
      SinkInto(a, i);
    }
    assert was[0..] == was;
  }

  class Buffer {
    var scheme: Scheme
    var host: string
    var port: Option<nat>
    var path: string
    var query: Option<seq<Pair>>
    var fragment: Option<string>

    function Value(): Url
      reads this
    {
      Url(scheme, host, port, path, query, fragment)
    }

    // `url.clone()`
    constructor (url: Url)
      ensures Value() == url
    {
      scheme, host, port := url.scheme, url.host, url.port;
      path, query, fragment := url.path, url.query, url.fragment;
    }

    method ApplyTrailingSlashPolicy(policy: SlashPolicy)
      modifies this`path
      ensures path == ApplySlash(old(path), policy)
    {
      match policy
      case Preserve =>
      case Add =>
        if !EndsWithSlash(path) && !HasExtension(path) { path := path + "/"; }
      case Remove =>
        if |path| > 1 && EndsWithSlash(path) { path := RootIfEmpty(TrimEnd(path)); }
    }

    method RewriteQueryInPlace(rules: Rules)
      modifies this`query
      ensures query == RewriteQuery(rules, old(query))
    {
      var pairs := KeepUntracked(rules, Pairs(query));
      if rules.sortQuery {
        var a := new Pair[|pairs|](i requires 0 <= i < |pairs| => pairs[i]);
        assert a[..] == pairs;
        SortInPlace(a);
        pairs := a[..];
      }
      query := if pairs == [] then None else Some(pairs);
    }

    // Every rule is guarded by a test that it would do something; the result is
    // the canonical form all the same.
    method NormalizeInPlace(rules: Rules)
      modifies this
      ensures Value() == Normalize(old(Value()), rules)
      ensures Normalize(Value(), rules) == Value()
    {
      ghost var before := Value();
      if rules.stripFragment { fragment := None; }
      if rules.lowercaseHost {
        var lower := Lower(host);
        if lower != host { host := lower; }
      }
      if rules.stripDefaultPorts && port == Some(DefaultPort(scheme)) { port := None; }
      if HasDoubleSlash(path) {
        path := CollapseSlashes(path);
      } else {
        CollapseFixes(path);
      }
      ApplyTrailingSlashPolicy(rules.slash);
      if rules.stripTracking || rules.sortQuery { RewriteQueryInPlace(rules); }
      NormalizeIdempotent(before, rules);
    }
  }
}
