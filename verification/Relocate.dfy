// Adaptive relocation: fingerprint an element, score every element of a document
// against it, decide (crates/parser/src/adaptive.rs:82-586). A document is its
// elements in order, each with what traversal shows of its surroundings.
module Relocate {
  import opened Prelude
  import opened Text
  import opened Attributes
  import opened Ranking
  import Lcs

  const MAX_PATH_DEPTH: nat := 32
  const MAX_SIBLINGS: nat := 32
  const MAX_CHILDREN: nat := 32
  const DEFAULT_MAX_TEXT_CHARS: nat := 4096

  // Surrounding nodes are element names, or None for anything but an element.
  datatype Element = Element(
    tag: string,
    attrs: Attrs,
    segments: seq<string>,           // text of the subtree, piece by piece
    above: seq<Option<string>>,      // nearest first
    before: seq<Option<string>>,     // siblings, nearest first
    after: seq<Option<string>>,      // siblings, nearest first
    children: seq<string>,           // child elements
    parent: Option<nat>)             // position of the parent element in the document

  type Document = seq<Element>

  predicate Linked(doc: Document) {
    forall i :: 0 <= i < |doc| && doc[i].parent.Some? ==> doc[i].parent.value < |doc|
  }

  datatype Options = Options(
    threshold: nat, maxElements: nat, maxTextChars: nat, maxTokens: nat, includeChildren: bool)

  datatype Fingerprint = Fingerprint(
    tag: string, attrs: Attrs, text: string, ancestorTags: seq<string>,
    parentTag: Option<string>, parentAttrs: Attrs, parentText: string,
    siblingTags: seq<string>, childTags: seq<string>, depth: nat)

  datatype Status = Found | Ambiguous | BelowThreshold | NotFound | TooLarge

  datatype Report = Report(
    status: Status, candidates: seq<Candidate>, scanned: nat, threshold: nat, topConfidence: Option<nat>)

  // ----- what is collected from an element -----

  function Take<T>(s: seq<T>, n: nat): seq<T> { if |s| <= n then s else s[..n] }

  function Reversed<T>(s: seq<T>): seq<T> { if s == [] then [] else Reversed(s[1..]) + [s[0]] }

  // The elements among some nodes.
  function Wrapped(nodes: seq<Option<string>>): seq<string> {
    if nodes == [] then []
    else (if nodes[0].Some? then [nodes[0].value] else []) + Wrapped(nodes[1..])
  }

  function CollectAttrs(z: Alphabet, attrs: Attrs, maxChars: nat): Attrs {
    seq(|attrs|, i requires 0 <= i < |attrs| => (AsciiLower(attrs[i].0), NormalValue(z, attrs[i].1, maxChars)))
  }

  function TextOf(z: Alphabet, e: Element, maxChars: nat): string {
    NormalWs(z, Truncated(Concat(e.segments), maxChars))
  }

  function AncestorTags(e: Element): seq<string> { Reversed(Wrapped(Take(e.above, MAX_PATH_DEPTH))) }

  // Elements among the 32 nodes before; then nodes after, as many as are left of 32.
  function SiblingTags(e: Element): seq<string> {
    var tags := Reversed(Wrapped(Take(e.before, MAX_SIBLINGS)));
    tags + Wrapped(Take(e.after, if |tags| <= MAX_SIBLINGS then MAX_SIBLINGS - |tags| else 0))
  }

  function ChildTags(e: Element): seq<string> { Take(e.children, MAX_CHILDREN) }

  function ParentOf(doc: Document, e: Element): Option<Element>
    requires e.parent.Some? ==> e.parent.value < |doc|
  {
    if e.parent.Some? then Some(doc[e.parent.value]) else None
  }

  function FingerprintOf(z: Alphabet, doc: Document, i: nat): Fingerprint
    requires Linked(doc) && i < |doc|
  {
    var e, max := doc[i], DEFAULT_MAX_TEXT_CHARS;
    var p := ParentOf(doc, e);
    Fingerprint(
      e.tag, CollectAttrs(z, e.attrs, max), TextOf(z, e, max), AncestorTags(e),
      if p.Some? then Some(p.value.tag) else None,
      if p.Some? then CollectAttrs(z, p.value.attrs, max) else [],
      if p.Some? then TextOf(z, p.value, max) else [],
      SiblingTags(e), ChildTags(e), |AncestorTags(e)|)
  }

  datatype ParentContext = ParentContext(tag: string, attrs: Attrs, tokens: seq<string>)

  datatype Context = Context(
    tag: string, attrs: Attrs, tokens: seq<string>, tagPath: seq<string>,
    siblingTags: seq<string>, childTags: seq<string>, parent: Option<ParentContext>)

  function ParentContextOf(z: Alphabet, e: Element, opts: Options): ParentContext {
    ParentContext(e.tag, CollectAttrs(z, e.attrs, opts.maxTextChars),
                  FirstTokens(z, TextOf(z, e, opts.maxTextChars), opts.maxTokens))
  }

  function ContextOf(z: Alphabet, doc: Document, e: Element, opts: Options): Context
    requires e.parent.Some? ==> e.parent.value < |doc|
  {
    var p := ParentOf(doc, e);
    Context(e.tag, CollectAttrs(z, e.attrs, opts.maxTextChars),
            FirstTokens(z, TextOf(z, e, opts.maxTextChars), opts.maxTokens), AncestorTags(e) + [e.tag],
            SiblingTags(e), ChildTags(e), if p.Some? then Some(ParentContextOf(z, p.value, opts)) else None)
  }

  lemma {:induction false} WrappedShortens(nodes: seq<Option<string>>)
    ensures |Wrapped(nodes)| <= |nodes| && |Reversed(Wrapped(nodes))| == |Wrapped(nodes)|
  {
    if nodes != [] { WrappedShortens(nodes[1..]); }
    ReversedLength(Wrapped(nodes));
  }

  lemma {:induction false} ReversedLength<T>(s: seq<T>)
    ensures |Reversed(s)| == |s|
  {
    if s != [] { ReversedLength(s[1..]); }
  }

  // What is compared is bounded, however large the document: 32 tags of each kind, and
  // the character and token limits.
  lemma ContextBounded(z: Alphabet, doc: Document, e: Element, opts: Options)
    requires e.parent.Some? ==> e.parent.value < |doc|
    ensures var c := ContextOf(z, doc, e, opts);
      && |c.tagPath| <= MAX_PATH_DEPTH + 1 && |c.siblingTags| <= MAX_SIBLINGS && |c.childTags| <= MAX_CHILDREN
      && |TextOf(z, e, opts.maxTextChars)| <= opts.maxTextChars && |c.tokens| <= Text.Limit(opts.maxTokens)
      && forall i :: 0 <= i < |c.attrs| ==> |c.attrs[i].1| <= opts.maxTextChars
  {
    WrappedShortens(Take(e.above, MAX_PATH_DEPTH));
    WrappedShortens(Take(e.before, MAX_SIBLINGS));
    WrappedShortens(Take(e.after, MAX_SIBLINGS - |Wrapped(Take(e.before, MAX_SIBLINGS))|));
    NormalWsShortens(z, Truncated(Concat(e.segments), opts.maxTextChars));
  }

  // ----- the score -----

  const W_TAG: real := 0.15
  const W_TEXT: real := 0.20
  const W_ATTRS: real := 0.20
  const W_KEY_ATTRS: real := 0.10
  const W_PATH: real := 0.15
  const W_PARENT: real := 0.10
  const W_SIBLINGS: real := 0.05
  const W_CHILDREN: real := 0.05

  function Same(a: string, b: string): real { if a == b then 1.0 else 0.0 }

  // A text the fingerprint does not have is neutral.
  function TextScore(z: Alphabet, text: string, tokens: seq<string>, opts: Options): real {
    if text == [] then 1.0 else Lcs.Similarity(FirstTokens(z, text, opts.maxTokens), tokens)
  }

  function ParentScore(z: Alphabet, fp: Fingerprint, parent: Option<ParentContext>, opts: Options): real {
    if fp.parentTag.None? && parent.None? then 1.0
    else if fp.parentTag.None? || parent.None? then 0.0
    else
      Same(fp.parentTag.value, parent.value.tag)
      * (0.4 + 0.3 * AttrSimilarity(z, fp.parentAttrs, parent.value.attrs)
         + 0.3 * TextScore(z, fp.parentText, parent.value.tokens, opts))
  }

  function SignalsOf(z: Alphabet, fp: Fingerprint, c: Context, opts: Options): Signals {
    Signals(
      Same(fp.tag, c.tag),
      TextScore(z, fp.text, c.tokens, opts),
      AttrSimilarity(z, fp.attrs, c.attrs),
      KeySimilarity(z, fp.attrs, c.attrs),
      Lcs.Similarity(fp.ancestorTags + [fp.tag], c.tagPath),
      ParentScore(z, fp, c.parent, opts),
      Lcs.Similarity(fp.siblingTags, c.siblingTags),
      if opts.includeChildren then Lcs.Similarity(fp.childTags, c.childTags) else 1.0)
  }

  function Raw(s: Signals): real {
    s.tag * W_TAG + s.text * W_TEXT + s.attrs * W_ATTRS + s.keyAttrs * W_KEY_ATTRS
    + s.path * W_PATH + s.parent * W_PARENT + s.siblings * W_SIBLINGS + s.children * W_CHILDREN
  }

  function Clamped(x: real): (r: real)
    ensures 0.0 <= r <= 1.0 && (0.0 <= x <= 1.0 ==> r == x)
  {
    if x < 0.0 then 0.0 else if x > 1.0 then 1.0 else x
  }

  // Percent, halves away from zero.
  function Percent(x: real): (n: nat)
    requires 0.0 <= x <= 1.0
    ensures n <= 100 && 0.0 - 0.5 < n as real - x * 100.0 <= 0.5
  {
    (x * 100.0 + 0.5).Floor
  }

  function Scored(z: Alphabet, fp: Fingerprint, doc: Document, opts: Options, i: nat): Candidate
    requires Linked(doc) && i < |doc|
  {
    var c := ContextOf(z, doc, doc[i], opts);
    var s := SignalsOf(z, fp, c, opts);
    Candidate(i, c.tagPath, Percent(Clamped(Raw(s))), s)
  }

  // ----- laws of the score -----

  predicate InUnit(x: real) { 0.0 <= x <= 1.0 }

  predicate AllInUnit(s: Signals) {
    InUnit(s.tag) && InUnit(s.text) && InUnit(s.attrs) && InUnit(s.keyAttrs)
    && InUnit(s.path) && InUnit(s.parent) && InUnit(s.siblings) && InUnit(s.children)
  }

  lemma TextScoreBounds(z: Alphabet, text: string, tokens: seq<string>, opts: Options)
    ensures InUnit(TextScore(z, text, tokens, opts))
    ensures tokens == FirstTokens(z, text, opts.maxTokens) ==> TextScore(z, text, tokens, opts) == 1.0
  {
    Lcs.SimilarityLaws(FirstTokens(z, text, opts.maxTokens), tokens);
  }

  lemma ParentScoreBounds(z: Alphabet, fp: Fingerprint, parent: Option<ParentContext>, opts: Options)
    ensures InUnit(ParentScore(z, fp, parent, opts))
  {
    if fp.parentTag.Some? && parent.Some? {
      AttrBounds(z, fp.parentAttrs, parent.value.attrs);
      TextScoreBounds(z, fp.parentText, parent.value.tokens, opts);
    }
  }

  // Every signal is a fraction, so the weighted sum needs no clamping and the
  // confidence is the sum in percent, within a half.
  lemma SignalsInUnit(z: Alphabet, fp: Fingerprint, c: Context, opts: Options)
    ensures AllInUnit(SignalsOf(z, fp, c, opts)) && InUnit(Raw(SignalsOf(z, fp, c, opts)))
  {
    TextScoreBounds(z, fp.text, c.tokens, opts);
    AttrBounds(z, fp.attrs, c.attrs);
    KeyBounds(z, fp.attrs, c.attrs);
    Lcs.SimilarityLaws(fp.ancestorTags + [fp.tag], c.tagPath);
    ParentScoreBounds(z, fp, c.parent, opts);
    Lcs.SimilarityLaws(fp.siblingTags, c.siblingTags);
    Lcs.SimilarityLaws(fp.childTags, c.childTags);
    RawInUnit(SignalsOf(z, fp, c, opts));
  }

  lemma RawInUnit(s: Signals)
    requires AllInUnit(s)
    ensures InUnit(Raw(s))
    ensures Raw(s) == 1.0 <==> s == Signals(1.0, 1.0, 1.0, 1.0, 1.0, 1.0, 1.0, 1.0)
  {
  }

  lemma ConfidenceIsPercent(z: Alphabet, fp: Fingerprint, doc: Document, opts: Options, i: nat)
    requires Linked(doc) && i < |doc|
    ensures var x := Scored(z, fp, doc, opts, i);
      AllInUnit(x.signals) && x.confidence <= 100 && 0.0 - 0.5 < x.confidence as real - Raw(x.signals) * 100.0 <= 0.5
  {
    SignalsInUnit(z, fp, ContextOf(z, doc, doc[i], opts), opts);
  }

  // ----- the offline report -----

  function Limit(opts: Options): nat { if opts.maxElements >= 1 then opts.maxElements else 1 }

  function Threshold(opts: Options): nat { if opts.threshold <= 100 then opts.threshold else 100 }

  // The first n elements, scored.
  function AllScored(z: Alphabet, fp: Fingerprint, doc: Document, opts: Options, n: nat): (r: seq<Candidate>)
    requires Linked(doc) && n <= |doc|
    ensures |r| == n && forall i :: 0 <= i < n ==> r[i] == Scored(z, fp, doc, opts, i)
  {
    seq(n, i requires 0 <= i < n => Scored(z, fp, doc, opts, i))
  }

  function Verdict(threshold: nat, top: nat, tied: nat): Status {
    if top < threshold then BelowThreshold else if tied > 1 then Ambiguous else Found
  }

  // Score everything, sort, cut; then look at the maximum and who shares it.
  function Offline(z: Alphabet, fp: Fingerprint, doc: Document, opts: Options): Report
    requires Linked(doc)
  {
    if |doc| == 0 then Report(NotFound, [], 0, Threshold(opts), None)
    else if |doc| > Limit(opts) then
      Report(TooLarge, [], Limit(opts), Threshold(opts), Some(Best(AllScored(z, fp, doc, opts, Limit(opts)))))
    else
      var all := AllScored(z, fp, doc, opts, |doc|);
      Report(Verdict(Threshold(opts), Best(all), |Sharing(all, Best(all))|), Top(Sorted(all), MAX_REPORT_CANDIDATES),
             |doc|, Threshold(opts), Some(Best(all)))
  }

  // ----- the scan -----

  method BuildText(z: Alphabet, e: Element, opts: Options) returns (tokens: seq<string>)
    ensures tokens == FirstTokens(z, TextOf(z, e, opts.maxTextChars), opts.maxTokens)
  {
    var text := CollectText(z, e.segments, opts.maxTextChars);
    tokens := Tokenize(z, text, opts.maxTokens);
  }

  method BuildParentContext(z: Alphabet, e: Element, opts: Options) returns (p: ParentContext)
    ensures p == ParentContextOf(z, e, opts)
  {
    var tokens := BuildText(z, e, opts);
    p := ParentContext(e.tag, CollectAttrs(z, e.attrs, opts.maxTextChars), tokens);
  }

  // The fingerprint's tokens, computed once.
  datatype Precomputed = Precomputed(fp: Fingerprint, tokens: seq<string>, parentTokens: seq<string>)

  predicate Prepared(z: Alphabet, pre: Precomputed, opts: Options) {
    && pre.tokens == FirstTokens(z, pre.fp.text, opts.maxTokens)
    && pre.parentTokens == FirstTokens(z, pre.fp.parentText, opts.maxTokens)
  }

  method Prepare(z: Alphabet, fp: Fingerprint, opts: Options) returns (pre: Precomputed)
    ensures pre.fp == fp && Prepared(z, pre, opts)
  {
    var tokens := Tokenize(z, fp.text, opts.maxTokens);
    var parentTokens := Tokenize(z, fp.parentText, opts.maxTokens);
    pre := Precomputed(fp, tokens, parentTokens);
  }

  method ScoreText(z: Alphabet, wanted: string, prepared: seq<string>, tokens: seq<string>, opts: Options) returns (r: real)
    requires prepared == FirstTokens(z, wanted, opts.maxTokens)
    ensures r == TextScore(z, wanted, tokens, opts)
  {
    r := 1.0;
    if wanted != [] { r := Lcs.SequenceSimilarity(prepared, tokens); }
  }

  method ScoreParent(z: Alphabet, pre: Precomputed, parent: Option<ParentContext>, opts: Options) returns (r: real)
    requires Prepared(z, pre, opts)
    ensures r == ParentScore(z, pre.fp, parent, opts)
  {
    if pre.fp.parentTag.None? || parent.None? {
      return if pre.fp.parentTag.None? && parent.None? then 1.0 else 0.0;
    }
    var attrs := CompareAttrs(z, pre.fp.parentAttrs, parent.value.attrs);
    var text := ScoreText(z, pre.fp.parentText, pre.parentTokens, parent.value.tokens, opts);
    return Same(pre.fp.parentTag.value, parent.value.tag) * (0.4 + 0.3 * attrs + 0.3 * text);
  }

  method ScoreSignals(z: Alphabet, pre: Precomputed, c: Context, opts: Options) returns (s: Signals)
    requires Prepared(z, pre, opts)
    ensures s == SignalsOf(z, pre.fp, c, opts)
  {
    var fp := pre.fp;
    var text := ScoreText(z, fp.text, pre.tokens, c.tokens, opts);
    var attrs := CompareAttrs(z, fp.attrs, c.attrs);
    var keyAttrs := CompareKeys(z, fp.attrs, c.attrs);
    var path := Lcs.SequenceSimilarity(fp.ancestorTags + [fp.tag], c.tagPath);
    var parent := ScoreParent(z, pre, c.parent, opts);
    var siblings := Lcs.SequenceSimilarity(fp.siblingTags, c.siblingTags);
    var children := 1.0;
    if opts.includeChildren { children := Lcs.SequenceSimilarity(fp.childTags, c.childTags); }
    s := Signals(Same(fp.tag, c.tag), text, attrs, keyAttrs, path, parent, siblings, children);
  }

  // Contexts of parents already met, by position.
  type Cache = map<nat, ParentContext>

  predicate Remembers(z: Alphabet, doc: Document, opts: Options, cache: Cache) {
    forall p :: p in cache ==> p < |doc| && cache[p] == ParentContextOf(z, doc[p], opts)
  }

  // One element, with its parent's context from the cache when it is there.
  method ScoreElement(z: Alphabet, pre: Precomputed, doc: Document, opts: Options, index: nat, cache: Cache)
    returns (candidate: Candidate, cache': Cache)
    requires Linked(doc) && index < |doc| && Prepared(z, pre, opts) && Remembers(z, doc, opts, cache)
    ensures candidate == Scored(z, pre.fp, doc, opts, index) && Remembers(z, doc, opts, cache')
  {
    var element := doc[index];
    cache' := cache;
    var parent := None;
    if element.parent.Some? {
      var id := element.parent.value;
      if id !in cache' {
        var built := BuildParentContext(z, doc[id], opts);
        cache' := cache'[id := built];
      }
      parent := Some(cache'[id]);
    }
    var tokens := BuildText(z, element, opts);
    var c := Context(element.tag, CollectAttrs(z, element.attrs, opts.maxTextChars), tokens,
                     AncestorTags(element) + [element.tag], SiblingTags(element), ChildTags(element), parent);
    assert c == ContextOf(z, doc, element, opts);
    var s := ScoreSignals(z, pre, c, opts);
    candidate := Candidate(index, c.tagPath, Percent(Clamped(Raw(s))), s);
  }

  // The running maximum and tie count.
  predicate TopOf(s: seq<Candidate>, top: Option<nat>, tied: nat) {
    if s == [] then top == None && tied == 0 else top == Some(Best(s)) && tied == |Sharing(s, Best(s))|
  }

  // What one more candidate does to them.
  lemma TopExtends(s: seq<Candidate>, x: Candidate, top: Option<nat>, tied: nat)
    requires TopOf(s, top, tied)
    ensures top.None? || x.confidence > top.value ==> TopOf(s + [x], Some(x.confidence), 1)
    ensures top.Some? && x.confidence == top.value ==> TopOf(s + [x], top, tied + 1)
    ensures top.Some? && x.confidence < top.value ==> TopOf(s + [x], top, tied)
  {
    var t := s + [x];
    assert t[..|s|] == s;
    SharingExtends(s, x);
    if s != [] { BestIsMaximum(s); }
    if top.None? || x.confidence > top.value { assert Sharing(s, x.confidence) == {}; }
  }

  lemma SharingExtends(s: seq<Candidate>, x: Candidate)
    ensures forall n :: n != x.confidence ==> Sharing(s + [x], n) == Sharing(s, n)
    ensures Sharing(s + [x], x.confidence) == Sharing(s, x.confidence) + {|s|}
  {
  }

  lemma ScoredMore(z: Alphabet, fp: Fingerprint, doc: Document, opts: Options, n: nat)
    requires Linked(doc) && n < |doc|
    ensures AllScored(z, fp, doc, opts, n + 1) == AllScored(z, fp, doc, opts, n) + [Scored(z, fp, doc, opts, n)]
  {
    OneMore(AllScored(z, fp, doc, opts, n), AllScored(z, fp, doc, opts, n + 1));
  }

  lemma OneMore(s: seq<Candidate>, t: seq<Candidate>)
    requires |t| == |s| + 1 && forall i :: 0 <= i < |s| ==> s[i] == t[i]
    ensures t == s + [t[|s|]]
  {
  }

  method Count(top: Option<nat>, tied: nat, x: Candidate, ghost s: seq<Candidate>) returns (top': Option<nat>, tied': nat)
    requires TopOf(s, top, tied)
    ensures TopOf(s + [x], top', tied')
  {
    TopExtends(s, x, top, tied);
    top', tied' := top, tied;
    match top {
      case None => top', tied' := Some(x.confidence), 1;
      case Some(best) =>
        if x.confidence > best { top', tied' := Some(x.confidence), 1; }
        else if x.confidence == best { tied' := tied + 1; }
    }
  }

  // The loop over the document.
  method Scan(z: Alphabet, fp: Fingerprint, doc: Document, opts: Options, maxElements: nat)
    returns (best: seq<Candidate>, scanned: nat, tooLarge: bool, top: Option<nat>, tied: nat)
    requires Linked(doc)
    ensures tooLarge <==> |doc| > maxElements
    ensures scanned == if tooLarge then maxElements else |doc|
    ensures TopOf(AllScored(z, fp, doc, opts, scanned), top, tied)
    ensures best == Top(Sorted(AllScored(z, fp, doc, opts, scanned)), MAX_REPORT_CANDIDATES)
  {
    var pre := Prepare(z, fp, opts);
    var cache: Cache := map[];
    var reported := new Reported();
    scanned, tooLarge, top, tied := 0, false, None, 0;
    while scanned < |doc|
      invariant scanned <= |doc| && scanned <= maxElements && fresh(reported)
      invariant Remembers(z, doc, opts, cache)
      invariant TopOf(AllScored(z, fp, doc, opts, scanned), top, tied)
      invariant reported.best == Top(Sorted(AllScored(z, fp, doc, opts, scanned)), MAX_REPORT_CANDIDATES)
    {
      if scanned >= maxElements {
        tooLarge := true;
        break;
      }
      ghost var all := AllScored(z, fp, doc, opts, scanned);
      var candidate;
      candidate, cache := ScoreElement(z, pre, doc, opts, scanned, cache);
      ScoredMore(z, fp, doc, opts, scanned);
      top, tied := Count(top, tied, candidate, all);
      reported.InsertCandidate(candidate, all);
      scanned := scanned + 1;
    }
    best := reported.best;
  }

  // The whole scan equals the offline definition.
  method Relocated(z: Alphabet, fp: Fingerprint, doc: Document, opts: Options) returns (report: Report)
    requires Linked(doc)
    ensures report == Offline(z, fp, doc, opts)
  {
    var threshold := if opts.threshold <= 100 then opts.threshold else 100;
    var maxElements := if opts.maxElements >= 1 then opts.maxElements else 1;
    var candidates, scanned, tooLarge, top, tied := Scan(z, fp, doc, opts, maxElements);
    var status;
    if tooLarge {
      candidates := [];
      status := TooLarge;
    } else if scanned == 0 {
      status := NotFound;
    } else if top.value < threshold {
      status := BelowThreshold;
    } else if tied > 1 {
      status := Ambiguous;
    } else {
      status := Found;
    }
    report := Report(status, candidates, scanned, threshold, top);
  }

  // ----- what the report means -----

  // Element i has this confidence, and no other element reaches it.
  predicate UniqueTop(all: seq<Candidate>, i: nat) {
    i < |all| && forall j :: 0 <= j < |all| && j != i ==> all[j].confidence < all[i].confidence
  }

  // Candidates listed in document order.
  predicate InPlace(all: seq<Candidate>) {
    forall i :: 0 <= i < |all| ==> all[i].index == i
  }

  // The head of the ranking, in its place.
  predicate IsHead(all: seq<Candidate>, b: nat) {
    && b < |all| && all[b] == Sorted(all)[0] && all[b].confidence == Best(all)
    && (forall j :: 0 <= j < |all| ==> all[j].confidence <= Best(all))
    && (forall j :: 0 <= j < b ==> all[j].confidence < Best(all))
  }

  lemma HeadInPlace(all: seq<Candidate>)
    requires all != [] && InPlace(all)
    ensures IsHead(all, Sorted(all)[0].index)
  {
    BestIsMaximum(all);
    FirstIsBest(all);
    forall j | 0 <= j < Sorted(all)[0].index && j < |all| ensures all[j].confidence < Best(all) {
      assert all[j] in all;
    }
  }

  // One shares the top exactly when the head beats all others.
  lemma AloneAtTop(all: seq<Candidate>, b: nat)
    requires IsHead(all, b)
    ensures |Sharing(all, Best(all))| >= 1
    ensures |Sharing(all, Best(all))| == 1 <==> UniqueTop(all, b)
  {
    var sharing := Sharing(all, Best(all));
    assert b in sharing;
    if |sharing| == 1 {
      assert |sharing - {b}| == 0;
      forall j | 0 <= j < |all| && j != b ensures all[j].confidence < all[b].confidence {
        assert j !in sharing - {b};
      }
    }
    if UniqueTop(all, b) { assert sharing == {b}; }
  }

  lemma VerdictMeans(all: seq<Candidate>, threshold: nat)
    requires all != [] && InPlace(all)
    ensures var v := Verdict(threshold, Best(all), |Sharing(all, Best(all))|);
      && (v == Found <==> HasMatch(all, threshold))
      && (v == BelowThreshold <==> forall i :: 0 <= i < |all| ==> all[i].confidence < threshold)
      && (v == Found ==> UniqueTop(all, Sorted(all)[0].index))
  {
    var b := Sorted(all)[0].index;
    HeadInPlace(all);
    AloneAtTop(all, b);
    if HasMatch(all, threshold) {
      var i :| 0 <= i < |all| && UniqueTop(all, i) && all[i].confidence >= threshold;
      assert all[b].confidence >= all[i].confidence;
      assert i == b;
    }
  }

  // One element beats all others and reaches the threshold.
  predicate HasMatch(all: seq<Candidate>, threshold: nat) {
    exists i :: 0 <= i < |all| && UniqueTop(all, i) && all[i].confidence >= threshold
  }

  // Found exactly when, in a document within the limit, one element beats all others and
  // reaches the threshold; it then heads the list. TooLarge exactly when the document has
  // more elements than the limit; nothing is listed then.
  lemma StatusMeans(z: Alphabet, fp: Fingerprint, doc: Document, opts: Options)
    requires Linked(doc)
    ensures var r := Offline(z, fp, doc, opts);
      var all := AllScored(z, fp, doc, opts, |doc|);
      && (r.status == TooLarge <==> |doc| > Limit(opts)) && (r.status == NotFound <==> doc == [])
      && (r.status == TooLarge ==> r.candidates == [])
      && (r.status == Found <==> (|doc| <= Limit(opts) && HasMatch(all, Threshold(opts))))
      && (r.status == BelowThreshold <==>
            (0 < |doc| <= Limit(opts) && forall i :: 0 <= i < |doc| ==> all[i].confidence < Threshold(opts)))
      && (r.status == Found ==> r.candidates != [] && UniqueTop(all, r.candidates[0].index))
  {
    if doc != [] { VerdictMeans(AllScored(z, fp, doc, opts, |doc|), Threshold(opts)); }
  }

  // ----- an unchanged element -----

  predicate NamesUnique(e: Element) {
    forall i, j :: 0 <= i < j < |e.attrs| ==> AsciiLower(e.attrs[i].0) != AsciiLower(e.attrs[j].0)
  }

  lemma SelfSignals(z: Alphabet, doc: Document, opts: Options, i: nat)
    requires Linked(doc) && i < |doc| && opts.maxTextChars == DEFAULT_MAX_TEXT_CHARS
    requires NamesUnique(doc[i]) && (doc[i].parent.Some? ==> NamesUnique(doc[doc[i].parent.value]))
    ensures SignalsOf(z, FingerprintOf(z, doc, i), ContextOf(z, doc, doc[i], opts), opts)
      == Signals(1.0, 1.0, 1.0, 1.0, 1.0, 1.0, 1.0, 1.0)
  {
    var fp, c := FingerprintOf(z, doc, i), ContextOf(z, doc, doc[i], opts);
    TextScoreBounds(z, fp.text, c.tokens, opts);
    SameAttrs(z, fp.attrs);
    KeyBounds(z, fp.attrs, c.attrs);
    Lcs.SimilarityLaws(fp.ancestorTags + [fp.tag], c.tagPath);
    Lcs.SimilarityLaws(fp.siblingTags, c.siblingTags);
    Lcs.SimilarityLaws(fp.childTags, c.childTags);
    if c.parent.Some? {
      SameAttrs(z, fp.parentAttrs);
      TextScoreBounds(z, fp.parentText, c.parent.value.tokens, opts);
    }
  }

  lemma TopAt100(all: seq<Candidate>, i: nat)
    requires i < |all| && InPlace(all) && all[i].confidence == 100
    requires forall k :: 0 <= k < |all| ==> all[k].confidence <= 100
    ensures Best(all) == 100 && Sorted(all)[0].confidence == 100 && Sorted(all)[0].index <= i
    ensures |Sharing(all, Best(all))| >= 1
    ensures |Sharing(all, Best(all))| == 1 ==> Sorted(all)[0].index == i
  {
    var b := Sorted(all)[0].index;
    HeadInPlace(all);
    AloneAtTop(all, b);
    assert all[i].confidence <= Best(all) && all[b].confidence <= 100;
  }

  // A fingerprint looked for in the document it was taken from: its element scores 100,
  // the maximum, whatever the threshold; it is reported as the match, or as one of
  // several that tie at 100.
  lemma UnchangedIsFound(z: Alphabet, doc: Document, opts: Options, i: nat)
    requires Linked(doc) && i < |doc| <= Limit(opts) && opts.maxTextChars == DEFAULT_MAX_TEXT_CHARS
    requires NamesUnique(doc[i]) && (doc[i].parent.Some? ==> NamesUnique(doc[doc[i].parent.value]))
    ensures var fp := FingerprintOf(z, doc, i);
      var r := Offline(z, fp, doc, opts);
      && Scored(z, fp, doc, opts, i).confidence == 100 && r.topConfidence == Some(100)
      && (r.status == Found || r.status == Ambiguous)
      && r.candidates != [] && r.candidates[0].confidence == 100 && r.candidates[0].index <= i
      && (r.status == Found ==> r.candidates[0].index == i)
  {
    var fp := FingerprintOf(z, doc, i);
    var all := AllScored(z, fp, doc, opts, |doc|);
    SelfSignals(z, doc, opts, i);
    assert all[i].confidence == 100;
    forall k | 0 <= k < |all| ensures all[k].confidence <= 100 {
      ConfidenceIsPercent(z, fp, doc, opts, k);
    }
    TopAt100(all, i);
  }
}
