// The bounded report of a relocation scan: best candidates first
// (crates/parser/src/adaptive.rs:770-782).
module Ranking {
  datatype Signals = Signals(
    tag: real, text: real, attrs: real, keyAttrs: real, path: real, parent: real, siblings: real, children: real)

  datatype Candidate = Candidate(index: nat, tagPath: seq<string>, confidence: nat, signals: Signals)

  const MAX_REPORT_CANDIDATES: nat := 256

  // Ranks strictly before: higher confidence, then earlier in the document.
  predicate Before(a: Candidate, b: Candidate) {
    a.confidence > b.confidence || (a.confidence == b.confidence && a.index < b.index)
  }

  predicate Ranked(s: seq<Candidate>) {
    forall i, j :: 0 <= i < j < |s| ==> Before(s[i], s[j])
  }

  // Every element has an index of its own.
  predicate Indexed(s: seq<Candidate>) {
    forall i, j :: 0 <= i < j < |s| ==> s[i].index != s[j].index
  }

  // ----- the offline ranking: sort everything -----

  function Insert(x: Candidate, s: seq<Candidate>): (r: seq<Candidate>)
    ensures |r| == |s| + 1
  {
    if s == [] || Before(x, s[0]) then [x] + s else [s[0]] + Insert(x, s[1..])
  }

  function Sorted(s: seq<Candidate>): (r: seq<Candidate>)
    ensures |r| == |s|
  {
    if s == [] then [] else Insert(s[|s| - 1], Sorted(s[..|s| - 1]))
  }

  function Top(s: seq<Candidate>, n: nat): seq<Candidate> {
    if |s| <= n then s else s[..n]
  }

  lemma {:induction false} InsertContents(x: Candidate, s: seq<Candidate>)
    ensures multiset(Insert(x, s)) == multiset(s) + multiset{x}
  {
    if s != [] && !Before(x, s[0]) {
      InsertContents(x, s[1..]);
      assert s == [s[0]] + s[1..];
    }
  }

  lemma {:induction false} InsertRanked(x: Candidate, s: seq<Candidate>)
    requires Ranked(s) && forall i :: 0 <= i < |s| ==> s[i].index != x.index
    ensures Ranked(Insert(x, s))
  {
    if s != [] && !Before(x, s[0]) {
      InsertRanked(x, s[1..]);
      var rest := Insert(x, s[1..]);
      forall j | 0 <= j < |rest| ensures Before(s[0], rest[j]) {
        InsertContents(x, s[1..]);
        assert rest[j] in multiset(rest);
      }
    }
  }

  // `Sorted` holds the same candidates, each ranked before all that follow it.
  lemma {:induction false} SortedIsRanking(s: seq<Candidate>)
    requires Indexed(s)
    ensures multiset(Sorted(s)) == multiset(s) && Ranked(Sorted(s))
  {
    if s != [] {
      var rest := s[..|s| - 1];
      SortedIsRanking(rest);
      assert s == rest + [s[|s| - 1]];
      InsertContents(s[|s| - 1], Sorted(rest));
      forall i | 0 <= i < |rest| ensures Sorted(rest)[i].index != s[|s| - 1].index {
        assert Sorted(rest)[i] in multiset(rest);
      }
      InsertRanked(s[|s| - 1], Sorted(rest));
    }
  }

  lemma SameHead(s: seq<Candidate>, t: seq<Candidate>)
    requires Ranked(s) && Ranked(t) && s != [] && t != [] && t[0] in s && s[0] in t
    ensures s[0] == t[0]
  {
  }

  lemma Tail(s: seq<Candidate>)
    requires s != []
    ensures multiset(s[1..]) == multiset(s) - multiset{s[0]}
  {
    assert s == [s[0]] + s[1..];
  }

  // A ranking is determined by what it ranks.
  lemma {:induction false} RankingUnique(s: seq<Candidate>, t: seq<Candidate>)
    requires Ranked(s) && Ranked(t) && multiset(s) == multiset(t)
    ensures s == t
  {
    if s == [] {
      assert |multiset(t)| == 0;
    } else {
      assert s[0] in multiset(t);
      assert t[0] in multiset(s);
      SameHead(s, t);
      Tail(s);
      Tail(t);
      RankingUnique(s[1..], t[1..]);
    }
  }

  // Cutting before or after an insertion makes no difference to the first n.
  lemma {:induction false} CutCommutes(x: Candidate, s: seq<Candidate>, n: nat)
    ensures Top(Insert(x, Top(s, n)), n) == Top(Insert(x, s), n)
  {
    if n > 0 && s != [] && !Before(x, s[0]) {
      CutCommutes(x, s[1..], n - 1);
      assert Top(s, n) == [s[0]] + Top(s[1..], n - 1);
      assert Top(s, n)[1..] == Top(s[1..], n - 1);
      TopOfCons(s[0], Insert(x, Top(s[1..], n - 1)), n);
      TopOfCons(s[0], Insert(x, s[1..]), n);
    } else if n > 0 && s != [] {
      assert Top([x] + Top(s, n), n) == Top([x] + s, n);
    }
  }

  lemma TopOfCons(x: Candidate, s: seq<Candidate>, n: nat)
    requires n > 0
    ensures Top([x] + s, n) == [x] + Top(s, n - 1)
  {
  }

  lemma {:induction false} InsertAt(x: Candidate, s: seq<Candidate>, p: nat)
    requires p <= |s| && (forall i :: 0 <= i < p ==> !Before(x, s[i])) && (p < |s| ==> Before(x, s[p]))
    ensures Insert(x, s) == s[..p] + [x] + s[p..]
  {
    if p > 0 {
      InsertAt(x, s[1..], p - 1);
      var rest := s[1..];
      assert s[..p] == [s[0]] + rest[..p - 1];
      assert s[p..] == rest[p - 1..];
    }
  }

  // The report kept while scanning.
  class Reported {
    var best: seq<Candidate>

    constructor ()
      ensures best == []
    {
      best := [];
    }

    // Keeps the first 256 of the ranking of everything scanned.
    method InsertCandidate(candidate: Candidate, ghost scanned: seq<Candidate>)
      requires best == Top(Sorted(scanned), MAX_REPORT_CANDIDATES)
      modifies this
      ensures best == Top(Sorted(scanned + [candidate]), MAX_REPORT_CANDIDATES)
    {
      var position := 0;
      while position < |best| && !Before(candidate, best[position])
        invariant 0 <= position <= |best|
        invariant forall i :: 0 <= i < position ==> !Before(candidate, best[i])
      {
        position := position + 1;
      }
      InsertAt(candidate, best, position);
      CutCommutes(candidate, Sorted(scanned), MAX_REPORT_CANDIDATES);
      assert (scanned + [candidate])[..|scanned|] == scanned;
      best := best[..position] + [candidate] + best[position..];
      if |best| > MAX_REPORT_CANDIDATES { best := best[..|best| - 1]; }
    }
  }

  // ----- the best and how many share its confidence -----

  function Best(s: seq<Candidate>): nat
    requires s != []
  {
    if |s| == 1 then s[0].confidence
    else
      var before := Best(s[..|s| - 1]);
      if s[|s| - 1].confidence > before then s[|s| - 1].confidence else before
  }

  function Sharing(s: seq<Candidate>, confidence: nat): set<nat> {
    set i | 0 <= i < |s| && s[i].confidence == confidence
  }

  lemma {:induction false} BestIsMaximum(s: seq<Candidate>)
    requires s != []
    ensures forall i :: 0 <= i < |s| ==> s[i].confidence <= Best(s)
    ensures exists i :: 0 <= i < |s| && s[i].confidence == Best(s)
  {
    if |s| > 1 {
      BestIsMaximum(s[..|s| - 1]);
      var before := s[..|s| - 1];
      var i :| 0 <= i < |before| && before[i].confidence == Best(before);
      assert s[i] == before[i];
    }
    assert s[|s| - 1].confidence <= Best(s);
  }

  // The report starts with the earliest element of highest confidence.
  lemma FirstIsBest(s: seq<Candidate>)
    requires s != [] && Indexed(s)
    ensures Sorted(s)[0] in s && Sorted(s)[0].confidence == Best(s)
    ensures forall x :: x in s && x.confidence == Best(s) ==> Sorted(s)[0].index <= x.index
  {
    SortedIsRanking(s);
    BestIsMaximum(s);
    assert Sorted(s)[0] in multiset(s);
    forall x | x in s ensures x == Sorted(s)[0] || Before(Sorted(s)[0], x) {
      assert x in multiset(Sorted(s));
    }
    var i :| 0 <= i < |s| && s[i].confidence == Best(s);
    assert s[i] in s;
  }
}
