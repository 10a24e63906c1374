// Similarity of attribute lists (crates/parser/src/adaptive.rs:588-658, 714-730).
module Attributes {
  import opened Prelude
  import opened Text

  type Attrs = seq<(string, string)>

  const ATTR_VALUE_TOKENS: nat := 64
  const KEY_ATTRS: seq<string> := ["class", "id", "href", "src"]

  // ----- one value -----

  function ValueSimilarity(z: Alphabet, a: string, b: string): real {
    if a == b then 1.0
    else if a == [] || b == [] then 0.0
    else Jaccard(FirstTokens(z, a, ATTR_VALUE_TOKENS), FirstTokens(z, b, ATTR_VALUE_TOKENS))
  }

  lemma Fraction(x: nat, n: nat)
    requires x <= n && n > 0
    ensures 0.0 <= x as real / n as real <= 1.0
    ensures x as real / n as real == 1.0 <==> x == n
    ensures x as real / n as real == 0.0 <==> x == 0
  {
    var r := x as real / n as real;
    assert r * n as real == x as real;
  }

  // Overlap of two token lists: a symmetric fraction, 1 for the same tokens, 0 for none
  // in common.
  lemma JaccardLaws(a: seq<string>, b: seq<string>)
    ensures 0.0 <= Jaccard(a, b) <= 1.0 && Jaccard(a, b) == Jaccard(b, a)
    ensures Jaccard(a, b) == 1.0 <==> Elements(a) == Elements(b)
    ensures Jaccard(a, b) == 0.0 <==> (a != [] || b != []) && Elements(a) !! Elements(b)
  {
    var both, either := Elements(a) * Elements(b), Elements(a) + Elements(b);
    assert both == Elements(b) * Elements(a) && either == Elements(b) + Elements(a);
    assert either == both + (either - both);
    if a != [] || b != [] {
      assert a != [] ==> a[0] in either;
      assert b != [] ==> b[0] in either;
      Fraction(|both|, |either|);
      if |both| == |either| { assert either - both == {}; }
    }
  }

  lemma ValueBounds(z: Alphabet, a: string, b: string)
    ensures 0.0 <= ValueSimilarity(z, a, b) <= 1.0
  {
    JaccardLaws(FirstTokens(z, a, ATTR_VALUE_TOKENS), FirstTokens(z, b, ATTR_VALUE_TOKENS));
  }

  // ----- all attributes -----

  function Names(attrs: Attrs): set<string> { set a | a in attrs :: a.0 }

  // The value of the first attribute of that name.
  function First(attrs: Attrs, name: string): Option<string> {
    if attrs == [] then None
    else if attrs[0].0 == name then Some(attrs[0].1)
    else First(attrs[1..], name)
  }

  // Similarities of the values of the names both sides have.
  function Matches(z: Alphabet, fp: Attrs, candidate: Attrs): seq<real> {
    if fp == [] then []
    else
      var value := First(candidate, Last(fp).0);
      var before := Matches(z, Front(fp), candidate);
      if value.Some? then before + [ValueSimilarity(z, Last(fp).1, value.value)] else before
  }

  function Sum(s: seq<real>): real {
    if s == [] then 0.0 else Sum(Front(s)) + Last(s)
  }

  lemma SumMore(s: seq<real>, x: real)
    ensures Sum(s + [x]) == Sum(s) + x
  {
    assert Front(s + [x]) == s;
  }

  function Mean(s: seq<real>): real {
    if s == [] then 1.0 else Sum(s) / |s| as real
  }

  function NameSimilarity(a: Attrs, b: Attrs): real
    requires a != [] || b != []
  {
    NamesNonempty(a);
    NamesNonempty(b);
    |Names(a) * Names(b)| as real / |Names(a) + Names(b)| as real
  }

  lemma NamesNonempty(a: Attrs)
    ensures a != [] ==> |Names(a)| > 0 && forall s: set<string> :: |Names(a) + s| > 0 && |s + Names(a)| > 0
  {
    if a != [] {
      assert a[0] in a && a[0].0 in Names(a);
      forall s: set<string> ensures |Names(a) + s| > 0 && |s + Names(a)| > 0 {
        assert a[0].0 in Names(a) + s && a[0].0 in s + Names(a);
      }
    }
  }

  function AttrSimilarity(z: Alphabet, fp: Attrs, candidate: Attrs): real {
    if fp == [] && candidate == [] then 1.0
    else 0.5 * NameSimilarity(fp, candidate) + 0.5 * Mean(Matches(z, fp, candidate))
  }

  method CompareAttrs(z: Alphabet, fp: Attrs, candidate: Attrs) returns (r: real)
    ensures r == AttrSimilarity(z, fp, candidate)
  {
    if fp == [] && candidate == [] { return 1.0; }
    var keyScore := NameSimilarity(fp, candidate);
    var valueSum, valueCount := 0.0, 0;
    var i := 0;
    while i < |fp|
      invariant 0 <= i <= |fp|
      invariant valueCount == |Matches(z, fp[..i], candidate)| && valueSum == Sum(Matches(z, fp[..i], candidate))
    {
      assert Front(fp[..i + 1]) == fp[..i];
      var value := First(candidate, fp[i].0);
      if value.Some? {
        var one := ValueSimilarity(z, fp[i].1, value.value);
        SumMore(Matches(z, fp[..i], candidate), one);
        valueSum := valueSum + one;
        valueCount := valueCount + 1;
      }
      i := i + 1;
    }
    assert fp[..i] == fp;
    var valueScore := if valueCount == 0 then 1.0 else valueSum / valueCount as real;
    return 0.5 * keyScore + 0.5 * valueScore;
  }

  // ----- what the mean means -----

  predicate Fractions(s: seq<real>) { forall i :: 0 <= i < |s| ==> 0.0 <= s[i] <= 1.0 }

  predicate Ones(s: seq<real>) { forall i :: 0 <= i < |s| ==> s[i] == 1.0 }

  lemma {:induction false} SumBounds(s: seq<real>)
    requires Fractions(s)
    ensures 0.0 <= Sum(s) <= |s| as real
    ensures Ones(s) ==> Sum(s) == |s| as real
  {
    if s != [] { SumBounds(Front(s)); }
  }

  lemma MeanBounds(s: seq<real>)
    requires Fractions(s)
    ensures 0.0 <= Mean(s) <= 1.0 && (Ones(s) ==> Mean(s) == 1.0)
  {
    SumBounds(s);
    if s != [] { Quotient(Sum(s), |s|); }
  }

  lemma Quotient(x: real, n: nat)
    requires 0.0 <= x <= n as real && n > 0
    ensures 0.0 <= x / n as real <= 1.0 && (x == n as real ==> x / n as real == 1.0)
  {
    var r := x / n as real;
    assert r * n as real == x;
  }

  lemma {:induction false} MatchesBounds(z: Alphabet, fp: Attrs, candidate: Attrs)
    ensures Fractions(Matches(z, fp, candidate))
  {
    if fp != [] {
      MatchesBounds(z, Front(fp), candidate);
      var value := First(candidate, Last(fp).0);
      if value.Some? { ValueBounds(z, Last(fp).1, value.value); }
    }
  }

  lemma NameBounds(a: Attrs, b: Attrs)
    requires a != [] || b != []
    ensures 0.0 <= NameSimilarity(a, b) <= 1.0
    ensures NameSimilarity(a, b) == 1.0 <==> Names(a) == Names(b)
    ensures NameSimilarity(a, b) == 0.0 <==> Names(a) !! Names(b)
  {
    NamesNonempty(a);
    NamesNonempty(b);
    var both, either := Names(a) * Names(b), Names(a) + Names(b);
    assert either == both + (either - both);
    Fraction(|both|, |either|);
    if |both| == |either| { assert either - both == {}; }
  }

  lemma AttrBounds(z: Alphabet, fp: Attrs, candidate: Attrs)
    ensures 0.0 <= AttrSimilarity(z, fp, candidate) <= 1.0
  {
    if fp != [] || candidate != [] {
      NameBounds(fp, candidate);
      MatchesBounds(z, fp, candidate);
      MeanBounds(Matches(z, fp, candidate));
    }
  }

  // ----- equal lists, disjoint lists -----

  predicate Unique(attrs: Attrs) {
    forall i, j :: 0 <= i < j < |attrs| ==> attrs[i].0 != attrs[j].0
  }

  lemma {:induction false} FirstOfUnique(attrs: Attrs, k: nat)
    requires Unique(attrs) && k < |attrs|
    ensures First(attrs, attrs[k].0) == Some(attrs[k].1)
  {
    if k > 0 { FirstOfUnique(attrs[1..], k - 1); }
  }

  lemma {:induction false} FirstIsThere(attrs: Attrs, name: string)
    ensures First(attrs, name).Some? <==> name in Names(attrs)
  {
    if attrs != [] {
      FirstIsThere(attrs[1..], name);
      assert attrs == [attrs[0]] + attrs[1..];
      assert attrs[0] in attrs;
      if name in Names(attrs) && attrs[0].0 != name {
        var a :| a in attrs && a.0 == name;
        assert a in attrs[1..] && a.0 in Names(attrs[1..]);
      }
      if name in Names(attrs[1..]) {
        var a :| a in attrs[1..] && a.0 == name;
        assert a in attrs && a.0 in Names(attrs);
      }
    }
  }

  lemma {:induction false} SelfMatches(z: Alphabet, attrs: Attrs, k: nat)
    requires Unique(attrs) && k <= |attrs|
    ensures Ones(Matches(z, attrs[..k], attrs))
  {
    if k > 0 {
      assert Front(attrs[..k]) == attrs[..k - 1];
      SelfMatches(z, attrs, k - 1);
      FirstOfUnique(attrs, k - 1);
    }
  }

  // Compared with itself, a list without repeated names scores 1.
  lemma SameAttrs(z: Alphabet, attrs: Attrs)
    requires Unique(attrs)
    ensures AttrSimilarity(z, attrs, attrs) == 1.0
  {
    if attrs != [] {
      NameBounds(attrs, attrs);
      assert attrs[..|attrs|] == attrs;
      SelfMatches(z, attrs, |attrs|);
      MatchesBounds(z, attrs, attrs);
      MeanBounds(Matches(z, attrs, attrs));
    }
  }

  lemma {:induction false} NoMatches(z: Alphabet, fp: Attrs, candidate: Attrs)
    requires Names(fp) !! Names(candidate)
    ensures Matches(z, fp, candidate) == []
  {
    if fp != [] {
      assert Last(fp) in fp && Last(fp).0 in Names(fp);
      FirstIsThere(candidate, Last(fp).0);
      forall n | n in Names(Front(fp)) ensures n in Names(fp) {
        var a :| a in Front(fp) && a.0 == n;
        assert a in fp;
      }
      NoMatches(z, Front(fp), candidate);
    }
  }

  // Lists that share no name, not both empty, score a half: with no value to compare,
  // the values count as equal.
  lemma NothingShared(z: Alphabet, fp: Attrs, candidate: Attrs)
    requires (fp != [] || candidate != []) && Names(fp) !! Names(candidate)
    ensures AttrSimilarity(z, fp, candidate) == 0.5
  {
    NameBounds(fp, candidate);
    NoMatches(z, fp, candidate);
  }

  // ----- the key attributes -----

  function AsciiLower(s: string): string {
    seq(|s|, i requires 0 <= i < |s| => if 'A' <= s[i] <= 'Z' then s[i] - 'A' + 'a' else s[i])
  }

  // The first attribute of that name, in any case.
  function Lookup(attrs: Attrs, name: string): Option<string> {
    if attrs == [] then None
    else if AsciiLower(attrs[0].0) == AsciiLower(name) then Some(attrs[0].1)
    else Lookup(attrs[1..], name)
  }

  // One entry for each key the fingerprint has: 0 where the candidate lacks it.
  function KeyMatches(z: Alphabet, keys: seq<string>, fp: Attrs, candidate: Attrs): seq<real> {
    if keys == [] then []
    else
      var mine, theirs := Lookup(fp, Last(keys)), Lookup(candidate, Last(keys));
      var before := KeyMatches(z, Front(keys), fp, candidate);
      if mine.None? then before
      else before + [if theirs.Some? then ValueSimilarity(z, mine.value, theirs.value) else 0.0]
  }

  function KeySimilarity(z: Alphabet, fp: Attrs, candidate: Attrs): real {
    Mean(KeyMatches(z, KEY_ATTRS, fp, candidate))
  }

  method SumKeys(z: Alphabet, keys: seq<string>, fp: Attrs, candidate: Attrs) returns (sum: real, considered: nat)
    ensures considered == |KeyMatches(z, keys, fp, candidate)| && sum == Sum(KeyMatches(z, keys, fp, candidate))
  {
    sum, considered := 0.0, 0;
    var i := 0;
    while i < |keys|
      invariant 0 <= i <= |keys|
      invariant considered == |KeyMatches(z, keys[..i], fp, candidate)|
      invariant sum == Sum(KeyMatches(z, keys[..i], fp, candidate))
    {
      ghost var before := KeyMatches(z, keys[..i], fp, candidate);
      assert Front(keys[..i + 1]) == keys[..i];
      var mine := Lookup(fp, keys[i]);
      if mine.Some? {
        considered := considered + 1;
        var theirs := Lookup(candidate, keys[i]);
        if theirs.Some? {
          var one := ValueSimilarity(z, mine.value, theirs.value);
          sum := sum + one;
          SumMore(before, one);
        } else {
          SumMore(before, 0.0);
        }
      }
      i := i + 1;
    }
    assert keys[..i] == keys;
  }

  method CompareKeys(z: Alphabet, fp: Attrs, candidate: Attrs) returns (r: real)
    ensures r == KeySimilarity(z, fp, candidate)
  {
    var sum, considered := SumKeys(z, KEY_ATTRS, fp, candidate);
    return if considered == 0 then 1.0 else sum / considered as real;
  }

  lemma {:induction false} KeyMatchesBounds(z: Alphabet, keys: seq<string>, fp: Attrs, candidate: Attrs)
    ensures Fractions(KeyMatches(z, keys, fp, candidate))
    ensures fp == candidate ==> Ones(KeyMatches(z, keys, fp, candidate))
  {
    if keys != [] {
      KeyMatchesBounds(z, Front(keys), fp, candidate);
      var mine, theirs := Lookup(fp, Last(keys)), Lookup(candidate, Last(keys));
      if mine.Some? && theirs.Some? { ValueBounds(z, mine.value, theirs.value); }
    }
  }

  lemma KeyBounds(z: Alphabet, fp: Attrs, candidate: Attrs)
    ensures 0.0 <= KeySimilarity(z, fp, candidate) <= 1.0
    ensures fp == candidate ==> KeySimilarity(z, fp, candidate) == 1.0
  {
    KeyMatchesBounds(z, KEY_ATTRS, fp, candidate);
    MeanBounds(KeyMatches(z, KEY_ATTRS, fp, candidate));
  }

  // ----- the similarities in terms of names, values and tokens -----

  // This many of that many.
  predicate Ratio(r: real, part: nat, whole: nat) { whole > 0 && r == part as real / whole as real }

  // What the mean is: as many times as there are entries, it is
  // their sum.
  lemma {:induction false} MeanMeans(s: seq<real>, x: real)
    ensures Mean([]) == 1.0 && Sum([]) == 0.0 && Sum(s + [x]) == Sum(s) + x
    ensures s != [] ==> Mean(s) * |s| as real == Sum(s)
  {
    SumMore(s, x);
  }

  lemma JaccardMeans(a: seq<string>, b: seq<string>)
    requires a != [] || b != []
    ensures Ratio(Jaccard(a, b), |Elements(a) * Elements(b)|, |Elements(a) + Elements(b)|)
  {
    var either := Elements(a) + Elements(b);
    assert a != [] ==> a[0] in either;
    assert b != [] ==> b[0] in either;
  }

  // Equal values score 1, an empty one against another 0; otherwise tokens are compared, 64
  // of each at most.
  lemma ValueMeans(z: Alphabet, a: string, b: string)
    ensures var r := ValueSimilarity(z, a, b);
      var (mine, theirs) := (FirstTokens(z, a, 64), FirstTokens(z, b, 64));
      if a == b then r == 1.0
      else if a == [] || b == [] then r == 0.0
      else if mine == [] && theirs == [] then r == 1.0
      else Ratio(r, |Elements(mine) * Elements(theirs)|, |Elements(mine) + Elements(theirs)|)
  {
    var mine, theirs := FirstTokens(z, a, 64), FirstTokens(z, b, 64);
    if mine != [] || theirs != [] { JaccardMeans(mine, theirs); }
  }

  // The first attribute of that name.
  lemma {:induction false} FirstMeans(attrs: Attrs, name: string)
    ensures First(attrs, name).None? <==> forall k :: 0 <= k < |attrs| ==> attrs[k].0 != name
    ensures First(attrs, name).Some? ==>
      exists k :: 0 <= k < |attrs| && attrs[k] == (name, First(attrs, name).value)
        && forall j :: 0 <= j < k ==> attrs[j].0 != name
  {
    if attrs != [] && attrs[0].0 != name {
      var rest := attrs[1..];
      FirstMeans(rest, name);
      forall k | 0 <= k < |rest| ensures rest[k] == attrs[k + 1] {}
      if First(rest, name).Some? {
        var k :| 0 <= k < |rest| && rest[k] == (name, First(rest, name).value) && forall j :: 0 <= j < k ==> rest[j].0 != name;
        assert attrs[k + 1] == (name, First(attrs, name).value);
        forall j | 0 <= j < k + 1 ensures attrs[j].0 != name { if j > 0 { assert rest[j - 1].0 != name; } }
      } else {
        forall k | 0 <= k < |attrs| ensures attrs[k].0 != name { if k > 0 { assert rest[k - 1].0 != name; } }
      }
    }
  }

  // One value similarity for each attribute whose name the other side has.
  lemma MatchesMean(z: Alphabet, fp: Attrs, x: (string, string), candidate: Attrs)
    ensures Matches(z, [], candidate) == []
    ensures Matches(z, fp + [x], candidate) == Matches(z, fp, candidate)
      + (if First(candidate, x.0).None? then [] else [ValueSimilarity(z, x.1, First(candidate, x.0).value)])
  {
    assert Front(fp + [x]) == fp;
  }

  // Half the share of names, half the mean of the values.
  lemma AttrsMean(z: Alphabet, fp: Attrs, candidate: Attrs) returns (names: real, values: real)
    requires fp != [] || candidate != []
    ensures Ratio(names, |Names(fp) * Names(candidate)|, |Names(fp) + Names(candidate)|)
    ensures values == Mean(Matches(z, fp, candidate))
    ensures AttrSimilarity(z, fp, candidate) == 0.5 * names + 0.5 * values
  {
    NamesNonempty(fp);
    NamesNonempty(candidate);
    names, values := NameSimilarity(fp, candidate), Mean(Matches(z, fp, candidate));
  }

  lemma LowerMeans(a: string, b: string)
    ensures AsciiLower(a) == AsciiLower(b) <==> SameLetters(a, b)
    ensures |AsciiLower(a)| == |a| && forall i :: 0 <= i < |a| ==>
      if 'A' <= a[i] <= 'Z' then AsciiLower(a)[i] as int == a[i] as int + 32 else AsciiLower(a)[i] == a[i]
  {
    if AsciiLower(a) == AsciiLower(b) {
      assert |AsciiLower(a)| == |AsciiLower(b)| == |b|;
      forall i | 0 <= i < |a|
        ensures a[i] == b[i] || ('A' <= a[i] <= 'Z' && b[i] as int == a[i] as int + 32)
          || ('A' <= b[i] <= 'Z' && a[i] as int == b[i] as int + 32)
      {
        assert AsciiLower(a)[i] == AsciiLower(b)[i];
      }
    }
  }

  // The first attribute of that name up to case.
  lemma {:induction false} LookupMeans(attrs: Attrs, name: string)
    ensures Lookup(attrs, name).None? <==> forall k :: 0 <= k < |attrs| ==> !SameLetters(attrs[k].0, name)
    ensures Lookup(attrs, name).Some? ==>
      exists k :: 0 <= k < |attrs| && SameLetters(attrs[k].0, name) && attrs[k].1 == Lookup(attrs, name).value
        && forall j :: 0 <= j < k ==> !SameLetters(attrs[j].0, name)
  {
    if attrs != [] {
      LowerMeans(attrs[0].0, name);
      if !SameLetters(attrs[0].0, name) {
        var rest := attrs[1..];
        LookupMeans(rest, name);
        forall k | 0 <= k < |rest| ensures rest[k] == attrs[k + 1] {}
        if Lookup(rest, name).Some? {
          var k :| 0 <= k < |rest| && SameLetters(rest[k].0, name) && rest[k].1 == Lookup(rest, name).value
            && forall j :: 0 <= j < k ==> !SameLetters(rest[j].0, name);
          assert SameLetters(attrs[k + 1].0, name);
          forall j | 0 <= j < k + 1 ensures !SameLetters(attrs[j].0, name) {
            if j > 0 { assert !SameLetters(rest[j - 1].0, name); }
          }
        } else {
          forall k | 0 <= k < |attrs| ensures !SameLetters(attrs[k].0, name) {
            if k > 0 { assert !SameLetters(rest[k - 1].0, name); }
          }
        }
      }
    }
  }

  // What one key adds: nothing if the fingerprint lacks it, 0 if only the candidate does.
  function KeyEntry(z: Alphabet, key: string, fp: Attrs, candidate: Attrs): seq<real> {
    var mine, theirs := Lookup(fp, key), Lookup(candidate, key);
    if mine.None? then [] else [if theirs.None? then 0.0 else ValueSimilarity(z, mine.value, theirs.value)]
  }

  lemma KeyMatchesMore(z: Alphabet, keys: seq<string>, key: string, fp: Attrs, candidate: Attrs)
    ensures KeyMatches(z, keys + [key], fp, candidate) == KeyMatches(z, keys, fp, candidate) + KeyEntry(z, key, fp, candidate)
  {
    assert Front(keys + [key]) == keys;
  }

  // The mean over class, id, href and src.
  lemma KeysMean(z: Alphabet, fp: Attrs, candidate: Attrs)
    ensures KeySimilarity(z, fp, candidate)
      == Mean(KeyEntry(z, "class", fp, candidate) + KeyEntry(z, "id", fp, candidate)
              + KeyEntry(z, "href", fp, candidate) + KeyEntry(z, "src", fp, candidate))
  {
    var one, two, three := ["class"], ["class", "id"], ["class", "id", "href"];
    assert one + ["id"] == two && two + ["href"] == three && three + ["src"] == KEY_ATTRS;
    KeyMatchesMore(z, [], "class", fp, candidate);
    assert [] + ["class"] == one;
    assert KeyMatches(z, one, fp, candidate) == KeyEntry(z, "class", fp, candidate);
    KeyMatchesMore(z, one, "id", fp, candidate);
    KeyMatchesMore(z, two, "href", fp, candidate);
    KeyMatchesMore(z, three, "src", fp, candidate);
  }
}
