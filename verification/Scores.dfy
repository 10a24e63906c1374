// What the numbers of a relocation report are, said over tokens, tags and the longest
// common subsequence of two lists (crates/parser/src/adaptive.rs:202-329, 396-586).
module Scores {
  import opened Prelude
  import opened Selections
  import opened Text
  import opened Attributes
  import opened Ranking
  import opened Relocate
  import Lcs

  // ----- one ordered comparison -----

  // x is common to both lists, and nothing longer is.
  ghost predicate Longest<T(!new)>(x: seq<T>, a: seq<T>, b: seq<T>) {
    Lcs.Common(x, a, b) && forall y :: Lcs.Common(y, a, b) ==> |y| <= |x|
  }

  function Longer<T>(a: seq<T>, b: seq<T>): nat { if |a| >= |b| then |a| else |b| }

  // r is the share of the longer list that the two have in common, in order; 1 if both
  // are empty.
  ghost predicate Overlap<T(!new)>(r: real, a: seq<T>, b: seq<T>) {
    if a == [] && b == [] then r == 1.0
    else exists x :: Longest(x, a, b) && r == |x| as real / Longer(a, b) as real
  }

  lemma OverlapMeans<T(!new)>(a: seq<T>, b: seq<T>)
    ensures Overlap(Lcs.Similarity(a, b), a, b)
  {
    Lcs.IsLongest(a, b);
    var x :| |x| == Lcs.Length(a, b) && Lcs.Common(x, a, b);
    assert Longest(x, a, b);
  }

  lemma OverlapUnique<T(!new)>(r: real, a: seq<T>, b: seq<T>)
    requires Overlap(r, a, b)
    ensures r == Lcs.Similarity(a, b)
  {
    if a != [] || b != [] {
      var x :| Longest(x, a, b) && r == |x| as real / Longer(a, b) as real;
      Lcs.IsLongest(a, b);
      var y :| |y| == Lcs.Length(a, b) && Lcs.Common(y, a, b);
      assert |y| <= |x|;
    }
  }

  predicate Disjoint<T(==)>(a: seq<T>, b: seq<T>) { forall x :: x in a ==> x !in b }

  // It is 1 exactly for equal lists, and 0 for lists that share nothing.
  lemma OverlapLaws<T(!new)>(r: real, a: seq<T>, b: seq<T>)
    requires Overlap(r, a, b)
    ensures 0.0 <= r <= 1.0 && (r == 1.0 <==> a == b)
    ensures r == 0.0 <==> (a != [] || b != []) && Disjoint(a, b)
  {
    OverlapUnique(r, a, b);
    Lcs.SimilarityLaws(a, b);
    Lcs.IsLongest(a, b);
    if a != [] || b != [] {
      Zero(Lcs.Length(a, b), Longer(a, b));
      var x :| |x| == Lcs.Length(a, b) && Lcs.Common(x, a, b);
      if x != [] { SomethingShared(x, a, b); }
      if !Disjoint(a, b) { OneShared(a, b); }
    }
  }

  lemma Zero(x: nat, n: nat)
    requires n > 0
    ensures x as real / n as real == 0.0 <==> x == 0
  {
    assert x as real / n as real * n as real == x as real;
  }

  lemma OneShared<T(!new)>(a: seq<T>, b: seq<T>)
    requires !Disjoint(a, b)
    ensures exists x :: |x| == 1 && Lcs.Common(x, a, b)
  {
    var c :| c in a && c in b;
    var i: nat :| i < |a| && a[i] == c;
    var j: nat :| j < |b| && b[j] == c;
    assert Lcs.Picks([c], a, [i]) && Lcs.Picks([c], b, [j]);
  }

  lemma InBoth<T(!new)>(x: seq<T>, a: seq<T>, b: seq<T>)
    requires Lcs.Common(x, a, b)
    ensures forall k :: 0 <= k < |x| ==> x[k] in a && x[k] in b
  {
    var p :| Lcs.Picks(x, a, p);
    var q :| Lcs.Picks(x, b, q);
  }

  lemma SomethingShared<T(!new)>(x: seq<T>, a: seq<T>, b: seq<T>)
    requires x != [] && Lcs.Common(x, a, b)
    ensures !Disjoint(a, b)
  {
    InBoth(x, a, b);
    assert x[0] in a && x[0] in b;
  }

  // ----- the signals -----

  function TokensOf(z: Alphabet, e: Element, opts: Options): seq<string> {
    FirstTokens(z, TextOf(z, e, opts.maxTextChars), opts.maxTokens)
  }

  // A text looked for against an element's: 1 if none is looked for.
  ghost predicate TextSignal(r: real, z: Alphabet, text: string, e: Element, opts: Options) {
    if text == [] then r == 1.0 else Overlap(r, FirstTokens(z, text, opts.maxTokens), TokensOf(z, e, opts))
  }

  // A parent of another name counts nothing; of the same, 40% for the name and 30% each
  // for its attributes and its text.
  ghost predicate ParentSignal(r: real, z: Alphabet, fp: Fingerprint, parent: Option<Element>, opts: Options) {
    if fp.parentTag.None? || parent.None? then r == (if fp.parentTag.None? && parent.None? then 1.0 else 0.0)
    else if fp.parentTag.value != parent.value.tag then r == 0.0
    else
      exists text :: TextSignal(text, z, fp.parentText, parent.value, opts)
        && r == 0.4 + 0.3 * AttrSimilarity(z, fp.parentAttrs, CollectAttrs(z, parent.value.attrs, opts.maxTextChars)) + 0.3 * text
  }

  ghost predicate SignalsMean(z: Alphabet, fp: Fingerprint, doc: Document, opts: Options, i: nat, s: Signals)
    requires Linked(doc) && i < |doc|
  {
    var e := doc[i];
    var attrs := CollectAttrs(z, e.attrs, opts.maxTextChars);
    && s.tag == (if fp.tag == e.tag then 1.0 else 0.0)
    && TextSignal(s.text, z, fp.text, e, opts)
    && s.attrs == AttrSimilarity(z, fp.attrs, attrs) && s.keyAttrs == KeySimilarity(z, fp.attrs, attrs)
    && Overlap(s.path, fp.ancestorTags + [fp.tag], AncestorTags(e) + [e.tag])
    && ParentSignal(s.parent, z, fp, if e.parent.Some? then Some(doc[e.parent.value]) else None, opts)
    && Overlap(s.siblings, fp.siblingTags, SiblingTags(e))
    && (if opts.includeChildren then Overlap(s.children, fp.childTags, ChildTags(e)) else s.children == 1.0)
  }

  // 1 exactly if no text is looked for or the tokens are the same, 0 exactly if there is a
  // text and no token in common.
  lemma TextLaws(r: real, z: Alphabet, text: string, e: Element, opts: Options)
    requires TextSignal(r, z, text, e, opts)
    ensures 0.0 <= r <= 1.0
    ensures r == 1.0 <==> text == [] || FirstTokens(z, text, opts.maxTokens) == TokensOf(z, e, opts)
    ensures r == 0.0 <==> OtherText(z, text, e, opts)
  {
    if text != [] { OverlapLaws(r, FirstTokens(z, text, opts.maxTokens), TokensOf(z, e, opts)); }
  }

  lemma TextMeans(z: Alphabet, text: string, e: Element, opts: Options)
    ensures TextSignal(TextScore(z, text, TokensOf(z, e, opts), opts), z, text, e, opts)
  {
    OverlapMeans(FirstTokens(z, text, opts.maxTokens), TokensOf(z, e, opts));
  }

  lemma ParentMeans(z: Alphabet, fp: Fingerprint, parent: Option<Element>, opts: Options)
    ensures ParentSignal(ParentScore(z, fp, if parent.Some? then Some(ParentContextOf(z, parent.value, opts)) else None, opts),
                         z, fp, parent, opts)
  {
    if parent.Some? { TextMeans(z, fp.parentText, parent.value, opts); }
  }

  // Every element is scored under its position, its path and these signals.
  lemma ScoredMeans(z: Alphabet, fp: Fingerprint, doc: Document, opts: Options, i: nat)
    requires Linked(doc) && i < |doc|
    ensures var x := Scored(z, fp, doc, opts, i);
      x.index == i && x.tagPath == AncestorTags(doc[i]) + [doc[i].tag] && SignalsMean(z, fp, doc, opts, i, x.signals)
  {
    var e := doc[i];
    TextMeans(z, fp.text, e, opts);
    ParentMeans(z, fp, if e.parent.Some? then Some(doc[e.parent.value]) else None, opts);
    OverlapMeans(fp.ancestorTags + [fp.tag], AncestorTags(e) + [e.tag]);
    OverlapMeans(fp.siblingTags, SiblingTags(e));
    OverlapMeans(fp.childTags, ChildTags(e));
  }

  // ----- what a signal is worth -----

  predicate Near(confidence: nat, percent: real) { -0.5 < confidence as real - percent <= 0.5 }

  // The confidence is 15, 20, 20, 10, 15, 10, 5 and 5 times the signals, within a half.
  lemma Worth(z: Alphabet, fp: Fingerprint, doc: Document, opts: Options, i: nat)
    requires Linked(doc) && i < |doc|
    ensures var x := Scored(z, fp, doc, opts, i);
      var s := x.signals;
      Near(x.confidence, 15.0 * s.tag + 20.0 * s.text + 20.0 * s.attrs + 10.0 * s.keyAttrs
                         + 15.0 * s.path + 10.0 * s.parent + 5.0 * s.siblings + 5.0 * s.children)
  {
    ConfidenceIsPercent(z, fp, doc, opts, i);
  }

  // One signal at 0 and the others at 1.
  lemma OneMissing(z: Alphabet, fp: Fingerprint, doc: Document, opts: Options, i: nat)
    requires Linked(doc) && i < |doc|
    ensures var x := Scored(z, fp, doc, opts, i);
      && (x.signals == Signals(0.0, 1.0, 1.0, 1.0, 1.0, 1.0, 1.0, 1.0) ==> x.confidence == 85)
      && (x.signals == Signals(1.0, 0.0, 1.0, 1.0, 1.0, 1.0, 1.0, 1.0) ==> x.confidence == 80)
      && (x.signals == Signals(1.0, 1.0, 0.0, 1.0, 1.0, 1.0, 1.0, 1.0) ==> x.confidence == 80)
      && (x.signals == Signals(1.0, 1.0, 1.0, 0.0, 1.0, 1.0, 1.0, 1.0) ==> x.confidence == 90)
      && (x.signals == Signals(1.0, 1.0, 1.0, 1.0, 0.0, 1.0, 1.0, 1.0) ==> x.confidence == 85)
      && (x.signals == Signals(1.0, 1.0, 1.0, 1.0, 1.0, 0.0, 1.0, 1.0) ==> x.confidence == 90)
      && (x.signals == Signals(1.0, 1.0, 1.0, 1.0, 1.0, 1.0, 0.0, 1.0) ==> x.confidence == 95)
      && (x.signals == Signals(1.0, 1.0, 1.0, 1.0, 1.0, 1.0, 1.0, 0.0) ==> x.confidence == 95)
  {
    Worth(z, fp, doc, opts, i);
  }

  // All signals are fractions; another tag leaves at most 85, a text that shares nothing 80.
  lemma Losses(z: Alphabet, fp: Fingerprint, doc: Document, opts: Options, i: nat)
    requires Linked(doc) && i < |doc|
    ensures var x := Scored(z, fp, doc, opts, i);
      && (doc[i].tag != fp.tag ==> x.confidence <= 85)
      && (OtherText(z, fp.text, doc[i], opts) ==> x.confidence <= 80)
  {
    Worth(z, fp, doc, opts, i);
    ConfidenceIsPercent(z, fp, doc, opts, i);
    ScoredMeans(z, fp, doc, opts, i);
    TextLaws(Scored(z, fp, doc, opts, i).signals.text, z, fp.text, doc[i], opts);
  }

  // There is a text to look for, and this element's shares no token with it.
  predicate OtherText(z: Alphabet, text: string, e: Element, opts: Options) {
    var tokens := FirstTokens(z, text, opts.maxTokens);
    text != [] && (tokens != [] || TokensOf(z, e, opts) != []) && Disjoint(tokens, TokensOf(z, e, opts))
  }

  // All a signal looks at, apart from the text, is as the fingerprint has it.
  predicate SameButText(z: Alphabet, fp: Fingerprint, doc: Document, opts: Options, i: nat)
    requires Linked(doc) && i < |doc|
  {
    var e, max := doc[i], opts.maxTextChars;
    && e.tag == fp.tag && CollectAttrs(z, e.attrs, max) == fp.attrs && AncestorTags(e) == fp.ancestorTags
    && SiblingTags(e) == fp.siblingTags && ChildTags(e) == fp.childTags
    && e.parent.Some? == fp.parentTag.Some?
    && (e.parent.Some? ==>
          var p := doc[e.parent.value];
          p.tag == fp.parentTag.value && CollectAttrs(z, p.attrs, max) == fp.parentAttrs && TextOf(z, p, max) == fp.parentText)
  }

  // A parent that is as remembered counts in full.
  lemma ParentInFull(r: real, z: Alphabet, fp: Fingerprint, parent: Option<Element>, opts: Options)
    requires ParentSignal(r, z, fp, parent, opts) && parent.Some? == fp.parentTag.Some? && Unique(fp.parentAttrs)
    requires parent.Some? ==>
      var p := parent.value;
      p.tag == fp.parentTag.value && CollectAttrs(z, p.attrs, opts.maxTextChars) == fp.parentAttrs
      && TextOf(z, p, opts.maxTextChars) == fp.parentText
    ensures r == 1.0
  {
    if parent.Some? {
      var text :| TextSignal(text, z, fp.parentText, parent.value, opts)
        && r == 0.4 + 0.3 * AttrSimilarity(z, fp.parentAttrs, CollectAttrs(z, parent.value.attrs, opts.maxTextChars)) + 0.3 * text;
      SameAttrs(z, fp.parentAttrs);
      TextLaws(text, z, fp.parentText, parent.value, opts);
    }
  }

  lemma OthersInFull(z: Alphabet, fp: Fingerprint, doc: Document, opts: Options, i: nat, s: Signals)
    requires Linked(doc) && i < |doc| && SameButText(z, fp, doc, opts, i) && SignalsMean(z, fp, doc, opts, i, s)
    requires Unique(fp.attrs) && Unique(fp.parentAttrs)
    ensures s == Signals(1.0, s.text, 1.0, 1.0, 1.0, 1.0, 1.0, 1.0)
  {
    var e := doc[i];
    SameAttrs(z, fp.attrs);
    KeyBounds(z, fp.attrs, fp.attrs);
    OverlapLaws(s.path, fp.ancestorTags + [fp.tag], AncestorTags(e) + [e.tag]);
    ParentInFull(s.parent, z, fp, if e.parent.Some? then Some(doc[e.parent.value]) else None, opts);
    OverlapLaws(s.siblings, fp.siblingTags, SiblingTags(e));
    if opts.includeChildren { OverlapLaws(s.children, fp.childTags, ChildTags(e)); }
  }

  lemma NearExactly(n: nat, m: nat)
    requires Near(n, m as real)
    ensures n == m
  {
  }

  // An element that differs in its text alone scores 80 and a fifth of what the text
  // signal is in percent: 80 if no token is shared, 100 for the same tokens.
  lemma TextIsAFifth(z: Alphabet, fp: Fingerprint, doc: Document, opts: Options, i: nat)
    requires Linked(doc) && i < |doc| && SameButText(z, fp, doc, opts, i)
    requires Unique(fp.attrs) && Unique(fp.parentAttrs)
    ensures var x := Scored(z, fp, doc, opts, i);
      && Near(x.confidence, 80.0 + 20.0 * x.signals.text)
      && (OtherText(z, fp.text, doc[i], opts) ==> x.confidence == 80)
      && (fp.text == [] || FirstTokens(z, fp.text, opts.maxTokens) == TokensOf(z, doc[i], opts) ==> x.confidence == 100)
  {
    var x := Scored(z, fp, doc, opts, i);
    ScoredMeans(z, fp, doc, opts, i);
    OthersInFull(z, fp, doc, opts, i, x.signals);
    Worth(z, fp, doc, opts, i);
    TextLaws(x.signals.text, z, fp.text, doc[i], opts);
    if x.signals.text == 0.0 { NearExactly(x.confidence, 80); }
    if x.signals.text == 1.0 { NearExactly(x.confidence, 100); }
  }

  // ----- what the report lists -----

  // Where an element has another tag, or a text with no token of the one looked for.
  predicate Unlike(z: Alphabet, e: Element, wanted: Element, opts: Options) {
    e.tag != wanted.tag || OtherText(z, TextOf(z, wanted, opts.maxTextChars), e, opts)
  }

  // An element looked for in its own document is found, whatever the threshold, if all
  // others are unlike it.
  lemma ToldApart(z: Alphabet, doc: Document, opts: Options, i: nat)
    requires Linked(doc) && i < |doc| <= Relocate.Limit(opts) && opts.maxTextChars == 4096
    requires NamesUnique(doc[i]) && (doc[i].parent.Some? ==> NamesUnique(doc[doc[i].parent.value]))
    requires forall j :: 0 <= j < |doc| && j != i ==> Unlike(z, doc[j], doc[i], opts)
    ensures var r := Offline(z, FingerprintOf(z, doc, i), doc, opts);
      r.status == Found && r.candidates != [] && r.candidates[0].index == i && r.topConfidence == Some(100)
  {
    var fp := FingerprintOf(z, doc, i);
    var all := AllScored(z, fp, doc, opts, |doc|);
    UnchangedIsFound(z, doc, opts, i);
    forall j | 0 <= j < |all| && j != i ensures all[j].confidence < all[i].confidence { Losses(z, fp, doc, opts, j); }
    assert UniqueTop(all, i) && all[i].confidence >= Threshold(opts);
    StatusMeans(z, fp, doc, opts);
  }

  // The highest confidence.
  predicate Highest(all: seq<Candidate>, top: nat) {
    && (exists i :: 0 <= i < |all| && all[i].confidence == top)
    && (forall i :: 0 <= i < |all| ==> all[i].confidence <= top)
  }

  lemma BestIsHighest(all: seq<Candidate>)
    requires all != []
    ensures Highest(all, Best(all))
  {
    BestIsMaximum(all);
  }

  // How much is scanned, what is compared with what, and the maximum.
  lemma FiguresMean(z: Alphabet, fp: Fingerprint, doc: Document, opts: Options)
    requires Linked(doc)
    ensures var r := Offline(z, fp, doc, opts);
      var most := if opts.maxElements == 0 then 1 else opts.maxElements;
      && r.scanned == (if |doc| <= most then |doc| else most)
      && r.threshold == (if opts.threshold <= 100 then opts.threshold else 100)
      && (r.topConfidence.None? <==> doc == [])
      && (doc != [] ==> Highest(AllScored(z, fp, doc, opts, r.scanned), r.topConfidence.value))
  {
    if doc != [] {
      BestIsHighest(AllScored(z, fp, doc, opts, if |doc| <= Relocate.Limit(opts) then |doc| else Relocate.Limit(opts)));
    }
  }

  predicate Ahead(a: Candidate, b: Candidate) {
    a.confidence > b.confidence || (a.confidence == b.confidence && a.index < b.index)
  }

  // The n best of all, or all of them: best first, of equals the earlier one, and ahead of
  // whatever is not listed.
  ghost predicate BestOf(list: seq<Candidate>, all: seq<Candidate>, n: nat) {
    && |list| == (if |all| <= n then |all| else n) && (forall x :: x in list ==> x in all)
    && (forall j, k :: 0 <= j < k < |list| ==> Ahead(list[j], list[k]))
    && (forall x, y :: x in list && y in all && y !in list ==> Ahead(x, y))
  }

  lemma CutRanking(all: seq<Candidate>, n: nat)
    requires Indexed(all)
    ensures BestOf(Top(Sorted(all), n), all, n)
  {
    SortedIsRanking(all);
    SameMembers(Sorted(all), all);
    var sorted := Sorted(all);
    var list := Top(sorted, n);
    forall x, y | x in list && y in all && y !in list ensures Ahead(x, y) { Behind(sorted, n, x, y); }
  }

  lemma SameMembers(s: seq<Candidate>, t: seq<Candidate>)
    requires multiset(s) == multiset(t)
    ensures forall x :: x in s <==> x in t
  {
    forall x ensures x in s <==> x in t { assert x in s <==> x in multiset(s); }
  }

  lemma Behind(sorted: seq<Candidate>, n: nat, x: Candidate, y: Candidate)
    requires Ranked(sorted) && x in Top(sorted, n) && y in sorted && y !in Top(sorted, n)
    ensures Ahead(x, y)
  {
    var list := Top(sorted, n);
    var i :| 0 <= i < |list| && list[i] == x;
    var j :| 0 <= j < |sorted| && sorted[j] == y;
    assert sorted[i] == x && i < j;
  }

  // The list of a document within the limit: its 256 best.
  lemma ListMeans(z: Alphabet, fp: Fingerprint, doc: Document, opts: Options)
    requires Linked(doc) && |doc| <= Relocate.Limit(opts)
    ensures BestOf(Offline(z, fp, doc, opts).candidates, AllScored(z, fp, doc, opts, |doc|), 256)
  {
    if doc != [] { CutRanking(AllScored(z, fp, doc, opts, |doc|), 256); }
  }

  // ----- what is collected -----

  function FirstFew<T>(s: seq<T>, n: nat): seq<T> { if |s| <= n then s else s[..n] }

  predicate Backwards<T(==)>(s: seq<T>, t: seq<T>) {
    |s| == |t| && forall k :: 0 <= k < |s| ==> s[k] == t[|s| - 1 - k]
  }

  lemma {:induction false} ReversedIsBackwards<T>(s: seq<T>)
    ensures Backwards(Reversed(s), s)
  {
    if s != [] { ReversedIsBackwards(s[1..]); }
  }

  function Elemental(nodes: seq<Option<string>>): nat -> bool { (i: nat) => i < |nodes| && nodes[i].Some? }

  // These are the names of the elements among the nodes, in order.
  ghost predicate ElementNames(tags: seq<string>, nodes: seq<Option<string>>) {
    Selects(Somes(tags), nodes, Elemental(nodes))
  }

  function Somes(tags: seq<string>): (r: seq<Option<string>>)
    ensures |r| == |tags|
  {
    seq(|tags|, i requires 0 <= i < |tags| => Some(tags[i]))
  }

  lemma {:induction false} WrappedMore(nodes: seq<Option<string>>, x: Option<string>)
    ensures Wrapped(nodes + [x]) == Wrapped(nodes) + (if x.Some? then [x.value] else [])
  {
    if nodes != [] {
      WrappedMore(nodes[1..], x);
      assert (nodes + [x])[1..] == nodes[1..] + [x];
    }
  }

  lemma {:induction false} WrappedMeans(nodes: seq<Option<string>>)
    ensures ElementNames(Wrapped(nodes), nodes)
  {
    if nodes == [] {
      SelectsNothing<Option<string>>(Elemental(nodes));
      assert Somes(Wrapped(nodes)) == [];
    } else {
      WrappedMeans(Front(nodes));
      WrappedMore(Front(nodes), Last(nodes));
      assert Front(nodes) + [Last(nodes)] == nodes;
      NamesMore(Wrapped(Front(nodes)), Front(nodes), Last(nodes));
      assert Wrapped(nodes) == if Last(nodes).Some? then Wrapped(Front(nodes)) + [Last(nodes).value] else Wrapped(Front(nodes));
    }
  }

  lemma SomesMore(tags: seq<string>, tag: string)
    ensures Somes(tags + [tag]) == Somes(tags) + [Some(tag)]
  {
  }

  lemma SameElemental(front: seq<Option<string>>, x: Option<string>)
    ensures forall i: nat :: i < |front| ==> Elemental(front)(i) == Elemental(front + [x])(i)
    ensures Elemental(front + [x])(|front|) == x.Some?
  {
  }

  lemma NamesMore(tags: seq<string>, front: seq<Option<string>>, x: Option<string>)
    requires ElementNames(tags, front)
    ensures ElementNames(if x.Some? then tags + [x.value] else tags, front + [x])
  {
    var keep := Elemental(front + [x]);
    SameElemental(front, x);
    SelectsSame(Somes(tags), front, Elemental(front), keep);
    SelectsMore(Somes(tags), front, x, keep);
    if x.Some? { SomesMore(tags, x.value); }
  }

  // The elements among the 32 nearest nodes above, outermost first.
  lemma AncestorsMean(e: Element) returns (up: seq<string>)
    ensures ElementNames(up, FirstFew(e.above, 32)) && Backwards(AncestorTags(e), up)
  {
    up := Wrapped(FirstFew(e.above, 32));
    WrappedMeans(FirstFew(e.above, 32));
    ReversedIsBackwards(up);
  }

  // The elements among the 32 nearest nodes before, in the document's order, then those
  // among as many nodes after as there were fewer than 32.
  lemma SiblingsMean(e: Element) returns (back: seq<string>, left: seq<string>, right: seq<string>)
    ensures ElementNames(back, FirstFew(e.before, 32)) && |back| <= 32 && Backwards(left, back)
    ensures ElementNames(right, FirstFew(e.after, 32 - |back|))
    ensures SiblingTags(e) == left + right
  {
    back := Wrapped(FirstFew(e.before, 32));
    left := Reversed(back);
    WrappedMeans(FirstFew(e.before, 32));
    ReversedIsBackwards(back);
    WrappedShortens(FirstFew(e.before, 32));
    right := Wrapped(FirstFew(e.after, 32 - |back|));
    WrappedMeans(FirstFew(e.after, 32 - |back|));
  }

  predicate NoCapital(s: string) { forall i :: 0 <= i < |s| ==> !('A' <= s[i] <= 'Z') }

  // Attributes by lower-case name and the first characters of the value with single blanks.
  predicate AttrsCollected(z: Alphabet, e: Element, max: nat, attrs: Attrs) {
    |attrs| == |e.attrs| && forall i :: 0 <= i < |attrs| ==>
      && SameLetters(attrs[i].0, e.attrs[i].0) && NoCapital(attrs[i].0)
      && attrs[i].1 == FirstFew(Joined(Words(z, e.attrs[i].1)), max)
  }

  // These attributes, and the first characters of the text, then with single blanks.
  predicate Collected(z: Alphabet, e: Element, max: nat, attrs: Attrs, text: string) {
    AttrsCollected(z, e, max, attrs) && text == Joined(Words(z, FirstFew(Concat(e.segments), max)))
  }

  lemma CollectedMeans(z: Alphabet, e: Element, max: nat)
    ensures Collected(z, e, max, CollectAttrs(z, e.attrs, max), TextOf(z, e, max))
    ensures ChildTags(e) == FirstFew(e.children, 32)
  {
    forall i | 0 <= i < |e.attrs| ensures SameLetters(AsciiLower(e.attrs[i].0), e.attrs[i].0) {
      LowerMeans(e.attrs[i].0, e.attrs[i].0);
    }
  }

  // A fingerprint is taken with 4096 characters, and knows its parent as it knows itself.
  lemma FingerprintMeans(z: Alphabet, doc: Document, i: nat)
    requires Linked(doc) && i < |doc|
    ensures var (fp, e) := (FingerprintOf(z, doc, i), doc[i]);
      && fp.tag == e.tag && Collected(z, e, 4096, fp.attrs, fp.text)
      && fp.ancestorTags == AncestorTags(e) && fp.siblingTags == SiblingTags(e) && fp.childTags == ChildTags(e)
      && fp.depth == |fp.ancestorTags|
    ensures var (fp, e) := (FingerprintOf(z, doc, i), doc[i]);
      if e.parent.None? then (fp.parentTag, fp.parentAttrs, fp.parentText) == (None, [], [])
      else
        var p := doc[e.parent.value];
        fp.parentTag == Some(p.tag) && Collected(z, p, 4096, fp.parentAttrs, fp.parentText)
  {
    CollectedMeans(z, doc[i], 4096);
    if doc[i].parent.Some? { CollectedMeans(z, doc[doc[i].parent.value], 4096); }
  }
}
