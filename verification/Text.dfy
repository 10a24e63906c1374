// Text primitives of the element scorer (crates/parser/src/adaptive.rs:434-466,
// 664-730). What counts as a space or a letter, and lower case, are parameters.
module Text {
  import opened Prelude

  // `isSpace`, `isAlphanumeric` and `toLowercase` of a character.
  datatype Alphabet = Alphabet(isSpace: char -> bool, isAlnum: char -> bool, lower: char -> string) {
    predicate Valid() { isSpace(' ') }
  }

  // ----- words -----

  predicate EndsInSpace(z: Alphabet, s: string) { s != [] && z.isSpace(Last(s)) }

  // `split_whitespace`.
  function Words(z: Alphabet, s: string): seq<string> {
    if s == [] then []
    else
      var ws := Words(z, Front(s));
      if z.isSpace(Last(s)) then ws
      else if Front(s) == [] || EndsInSpace(z, Front(s)) || ws == [] then ws + [[Last(s)]]
      else Front(ws) + [Last(ws) + [Last(s)]]
  }

  predicate IsWord(z: Alphabet, w: string) {
    w != [] && forall i :: 0 <= i < |w| ==> !z.isSpace(w[i])
  }

  // Words with one blank between them.
  function Joined(ws: seq<string>): string {
    if ws == [] then [] else if |ws| == 1 then ws[0] else Joined(Front(ws)) + " " + Last(ws)
  }

  lemma {:induction false} WordsAreWords(z: Alphabet, s: string)
    ensures AllWords(z, Words(z, s))
  {
    if s != [] { WordsAreWords(z, Front(s)); }
  }

  lemma {:induction false} WordsAppendSpace(z: Alphabet, s: string, w: string)
    requires IsWord(z, w) && (s == [] || EndsInSpace(z, s))
    ensures Words(z, s + w) == Words(z, s) + [w]
  {
    assert Front(s + w) == s + Front(w);
    if |w| > 1 {
      WordsAppendSpace(z, s, Front(w));
      assert w == Front(w) + [Last(w)];
      assert Last(s + Front(w)) == Front(w)[|w| - 2];
    } else {
      assert s + Front(w) == s;
      assert w == [Last(w)];
    }
  }

  lemma OneWord(z: Alphabet, w: string)
    requires IsWord(z, w)
    ensures Words(z, w) == [w]
  {
    WordsAppendSpace(z, [], w);
    assert [] + w == w;
  }

  // Splitting undoes joining.
  lemma {:induction false} SplitJoined(z: Alphabet, ws: seq<string>)
    requires z.Valid() && AllWords(z, ws)
    ensures Words(z, Joined(ws)) == ws
  {
    if |ws| == 1 {
      assert IsWord(z, ws[0]);
      OneWord(z, ws[0]);
    } else if |ws| > 1 {
      SplitJoined(z, Front(ws));
      assert IsWord(z, Last(ws));
      NewWord(z, Joined(Front(ws)), Last(ws));
      assert ws == Front(ws) + [Last(ws)];
    }
  }

  predicate AllWords(z: Alphabet, ws: seq<string>) { forall i :: 0 <= i < |ws| ==> IsWord(z, ws[i]) }

  lemma NewWord(z: Alphabet, s: string, w: string)
    requires z.Valid() && IsWord(z, w)
    ensures Words(z, s + " " + w) == Words(z, s) + [w]
  {
    assert Front(s + " ") == s;
    WordsAppendSpace(z, s + " ", w);
  }

  // ----- normalize_ws -----

  function NormalWs(z: Alphabet, s: string): string { Joined(Words(z, s)) }

  lemma NormalWsIdempotent(z: Alphabet, s: string)
    requires z.Valid()
    ensures NormalWs(z, NormalWs(z, s)) == NormalWs(z, s)
  {
    WordsAreWords(z, s);
    SplitJoined(z, Words(z, s));
  }

  lemma {:induction false} JoinedEmpty(z: Alphabet, s: string)
    ensures Joined(Words(z, s)) == [] <==> Words(z, s) == []
  {
    WordsAreWords(z, s);
    var ws := Words(z, s);
    if |ws| == 1 { assert IsWord(z, ws[0]); }
  }

  lemma JoinedGrows(ws: seq<string>, c: char)
    requires ws != []
    ensures Joined(Front(ws) + [Last(ws) + [c]]) == Joined(ws) + [c]
  {
    var more := Front(ws) + [Last(ws) + [c]];
    assert Front(more) == Front(ws);
    assert (Joined(Front(ws)) + " " + Last(ws)) + [c] == Joined(Front(ws)) + " " + (Last(ws) + [c]);
  }

  lemma JoinedNewWord(ws: seq<string>, c: char)
    ensures Joined(ws + [[c]]) == if ws == [] then [c] else Joined(ws) + " " + [c]
  {
    assert Front(ws + [[c]]) == ws;
  }

  // Normalising never makes a text longer.
  lemma {:induction false} NormalWsShortens(z: Alphabet, s: string)
    ensures |NormalWs(z, s)| + (if Words(z, s) != [] && EndsInSpace(z, s) then 1 else 0) <= |s|
  {
    if s != [] {
      var t := Front(s);
      NormalWsShortens(z, t);
      if !z.isSpace(Last(s)) {
        JoinedNewWord(Words(z, t), Last(s));
        if Words(z, t) != [] { JoinedGrows(Words(z, t), Last(s)); }
      }
    }
  }

  method NormalizeWs(z: Alphabet, s: string) returns (out: string)
    ensures out == NormalWs(z, s)
  {
    out := [];
    var pendingSpace := false;
    var i := 0;
    while i < |s|
      invariant 0 <= i <= |s|
      invariant out == NormalWs(z, s[..i])
      invariant pendingSpace <==> out != [] && EndsInSpace(z, s[..i])
    {
      var ch := s[i];
      assert Front(s[..i + 1]) == s[..i];
      JoinedEmpty(z, s[..i]);
      if z.isSpace(ch) {
        if out != [] { pendingSpace := true; }
      } else {
        ghost var ws := Words(z, s[..i]);
        JoinedNewWord(ws, ch);
        if ws != [] { JoinedGrows(ws, ch); }
        if pendingSpace {
          out := out + " ";
          pendingSpace := false;
        }
        out := out + [ch];
      }
      i := i + 1;
    }
    assert s[..i] == s;
  }

  // ----- normalize_value -----

  function Truncated(s: string, max: nat): string { if |s| <= max then s else s[..max] }

  function NormalValue(z: Alphabet, s: string, max: nat): string { Truncated(NormalWs(z, s), max) }

  // Only single blanks, and none in front.
  predicate Tidy(z: Alphabet, s: string) {
    && (s != [] ==> !z.isSpace(s[0]))
    && (forall i :: 0 <= i < |s| && z.isSpace(s[i]) ==> s[i] == ' ')
    && (forall i :: 0 <= i < |s| - 1 ==> !(z.isSpace(s[i]) && z.isSpace(s[i + 1])))
  }

  // On such a string only a trailing blank goes.
  lemma {:induction false} TidyFixed(z: Alphabet, s: string)
    requires Tidy(z, s)
    ensures NormalWs(z, s) == if EndsInSpace(z, s) then Front(s) else s
  {
    if s != [] {
      TidyFixed(z, Front(s));
      if !z.isSpace(Last(s)) { LetterFixed(z, s); }
    }
  }

  lemma LetterFixed(z: Alphabet, s: string)
    requires Tidy(z, s) && s != [] && !z.isSpace(Last(s))
    requires NormalWs(z, Front(s)) == if EndsInSpace(z, Front(s)) then Front(Front(s)) else Front(s)
    ensures NormalWs(z, s) == s
  {
    var t := Front(s);
    var ws := Words(z, t);
    JoinedEmpty(z, t);
    assert s == t + [Last(s)];
    JoinedNewWord(ws, Last(s));
    if t != [] && EndsInSpace(z, t) {
      assert t == Front(t) + " ";
    } else if t != [] {
      JoinedGrows(ws, Last(s));
    }
  }

  lemma {:induction false} JoinedTidy(z: Alphabet, ws: seq<string>)
    requires z.Valid() && AllWords(z, ws)
    ensures Tidy(z, Joined(ws)) && !EndsInSpace(z, Joined(ws))
    ensures ws != [] ==> Joined(ws) != []
  {
    if |ws| == 1 {
      assert IsWord(z, ws[0]);
    } else if |ws| > 1 {
      JoinedTidy(z, Front(ws));
      assert IsWord(z, Last(ws));
      var s := Joined(Front(ws));
      assert s != [] && !z.isSpace(Last(s));
      TidyAppend(z, s, Last(ws));
    }
  }

  lemma TidyAppend(z: Alphabet, s: string, w: string)
    requires z.Valid() && Tidy(z, s) && s != [] && !z.isSpace(Last(s)) && IsWord(z, w)
    ensures Tidy(z, s + " " + w) && !EndsInSpace(z, s + " " + w)
  {
    var t := s + " " + w;
    assert t[|s|] == ' ';
    forall i | |s| < i < |t| ensures t[i] == w[i - |s| - 1] {}
  }

  lemma TidyCut(z: Alphabet, n: string, max: nat)
    requires Tidy(z, n) && !EndsInSpace(z, n)
    ensures Tidy(z, Truncated(n, max))
    ensures EndsInSpace(z, Truncated(n, max)) <==> 0 < max < |n| && z.isSpace(n[max - 1])
  {
  }

  // Normalising a value again changes it exactly when truncation left a trailing blank.
  lemma NormalValueIdempotent(z: Alphabet, s: string, max: nat)
    requires z.Valid()
    ensures NormalValue(z, NormalValue(z, s, max), max) == NormalValue(z, s, max)
      <==> (max == 0 || |NormalWs(z, s)| <= max || NormalWs(z, s)[max - 1] != ' ')
  {
    var n := NormalWs(z, s);
    WordsAreWords(z, s);
    JoinedTidy(z, Words(z, s));
    TidyCut(z, n, max);
    TidyFixed(z, Truncated(n, max));
  }

  // "a b" cut to two characters keeps its blank; normalised again it loses it.
  lemma TrailingBlank(z: Alphabet)
    requires z.Valid() && !z.isSpace('a') && !z.isSpace('b')
    ensures NormalValue(z, "a b", 2) == "a " && NormalValue(z, "a ", 2) == "a"
  {
    assert Tidy(z, "a b") && Tidy(z, "a ");
    TidyFixed(z, "a b");
    TidyFixed(z, "a ");
    assert Last("a b") == 'b' && Last("a ") == ' ';
    assert "a b"[..2] == "a " && Front("a ") == "a";
  }

  // ----- collect_text -----

  function Concat(segments: seq<string>): string {
    if segments == [] then [] else Concat(Front(segments)) + Last(segments)
  }

  method CollectText(z: Alphabet, segments: seq<string>, maxChars: nat) returns (text: string)
    ensures text == NormalWs(z, Truncated(Concat(segments), maxChars))
  {
    var raw, count := [], 0;
    var k := 0;
    while k < |segments| && count < maxChars
      invariant 0 <= k <= |segments| && count == |raw|
      invariant raw == Truncated(Concat(segments[..k]), maxChars)
    {
      var segment := segments[k];
      ghost var before := Concat(segments[..k]);
      assert Front(segments[..k + 1]) == segments[..k];
      var i := 0;
      while i < |segment| && count < maxChars
        invariant 0 <= i <= |segment| && count == |raw| <= maxChars
        invariant raw == before + segment[..i]
      {
        raw := raw + [segment[i]];
        count := count + 1;
        i := i + 1;
      }
      assert before + segment[..i] == (before + segment)[..|raw|];
      k := k + 1;
    }
    if k < |segments| { CapCommutes(segments, k, maxChars); }
    assert segments[..|segments|] == segments;
    text := NormalizeWs(z, raw);
  }

  lemma {:induction false} CapCommutes(segments: seq<string>, k: nat, max: nat)
    requires k <= |segments| && |Concat(segments[..k])| >= max
    ensures Truncated(Concat(segments), max) == Truncated(Concat(segments[..k]), max)
  {
    if k == |segments| {
      assert segments[..k] == segments;
    } else {
      assert Front(segments)[..k] == segments[..k];
      CapCommutes(Front(segments), k, max);
    }
  }

  // ----- tokenize -----

  function Cleaned(z: Alphabet, w: string): string {
    if w == [] then [] else Cleaned(z, Front(w)) + (if z.isAlnum(Last(w)) then z.lower(Last(w)) else [])
  }

  function Tokens(z: Alphabet, ws: seq<string>): seq<string> {
    if ws == [] then []
    else
      var token := Cleaned(z, Last(ws));
      Tokens(z, Front(ws)) + (if token != [] then [token] else [])
  }

  // The limit is looked at after a token is taken, so 0 still yields one.
  function Limit(maxTokens: nat): nat { if maxTokens == 0 then 1 else maxTokens }

  function FirstTokens(z: Alphabet, s: string, maxTokens: nat): seq<string> {
    var all := Tokens(z, Words(z, s));
    if |all| <= Limit(maxTokens) then all else all[..Limit(maxTokens)]
  }

  method Clean(z: Alphabet, w: string) returns (token: string)
    ensures token == Cleaned(z, w)
  {
    token := [];
    var i := 0;
    while i < |w|
      invariant 0 <= i <= |w|
      invariant token == Cleaned(z, w[..i])
    {
      assert Front(w[..i + 1]) == w[..i];
      if z.isAlnum(w[i]) { token := token + z.lower(w[i]); }
      i := i + 1;
    }
    assert w[..i] == w;
  }

  method Tokenize(z: Alphabet, s: string, maxTokens: nat) returns (tokens: seq<string>)
    ensures tokens == FirstTokens(z, s, maxTokens)
  {
    tokens := [];
    var words := Words(z, s);
    var i := 0;
    while i < |words|
      invariant 0 <= i <= |words|
      invariant tokens == Tokens(z, words[..i]) && |tokens| < Limit(maxTokens)
    {
      assert Front(words[..i + 1]) == words[..i];
      var token := Clean(z, words[i]);
      i := i + 1;
      if token != [] {
        tokens := tokens + [token];
        if |tokens| >= maxTokens {
          TokensExtend(z, words, i);
          return;
        }
      }
    }
    assert words[..i] == words;
  }

  lemma {:induction false} TokensExtend(z: Alphabet, ws: seq<string>, k: nat)
    requires k <= |ws|
    ensures Tokens(z, ws[..k]) <= Tokens(z, ws)
  {
    if k == |ws| {
      assert ws[..k] == ws;
    } else {
      assert Front(ws)[..k] == ws[..k];
      TokensExtend(z, Front(ws), k);
    }
  }

  // ----- overlap of two token lists -----

  function Elements(s: seq<string>): set<string> { set x | x in s }

  function Jaccard(a: seq<string>, b: seq<string>): real {
    if a == [] && b == [] then 1.0
    else |Elements(a) * Elements(b)| as real / Union(a, b) as real
  }

  function Union(a: seq<string>, b: seq<string>): (n: nat)
    ensures n > 0 <==> a != [] || b != []
  {
    var u := Elements(a) + Elements(b);
    assert a != [] ==> a[0] in u;
    assert b != [] ==> b[0] in u;
    assert a == [] && b == [] ==> u == {};
    |u|
  }

  // ----- laws that fix the words, the tokens and what is collected -----

  // What one more character does to the words.
  function Extended(ws: seq<string>, starts: bool, ch: char): seq<string> {
    if starts || ws == [] then ws + [[ch]] else Front(ws) + [Last(ws) + [ch]]
  }

  lemma WordsMore(z: Alphabet, s: string, ch: char)
    ensures Words(z, s + [ch]) ==
      if z.isSpace(ch) then Words(z, s) else Extended(Words(z, s), s == [] || EndsInSpace(z, s), ch)
  {
    assert Front(s + [ch]) == s;
  }

  lemma ExtendedAfter(a: seq<string>, b: seq<string>, starts: bool, ch: char)
    requires b == [] ==> starts
    ensures Extended(a + b, starts, ch) == a + Extended(b, starts, ch)
  {
    if b != [] { assert Front(a + b) == a + Front(b); }
  }

  // A space ends a word, wherever it stands, and belongs to none.
  lemma {:induction false} WordsSplit(z: Alphabet, a: string, space: char, b: string)
    requires z.isSpace(space)
    ensures Words(z, a + [space] + b) == Words(z, a) + Words(z, b)
  {
    WordsMore(z, a, space);
    if b == [] {
      assert a + [space] + b == a + [space];
    } else {
      var t, ch := a + [space] + Front(b), Last(b);
      WordsSplit(z, a, space, Front(b));
      assert a + [space] + b == t + [ch] && b == Front(b) + [ch];
      WordsMore(z, t, ch);
      WordsMore(z, Front(b), ch);
      SpaceBefore(z, a, space, Front(b));
      if !z.isSpace(ch) { ExtendedAfter(Words(z, a), Words(z, Front(b)), Front(b) == [] || EndsInSpace(z, Front(b)), ch); }
    }
  }

  lemma SpaceBefore(z: Alphabet, a: string, space: char, b: string)
    requires z.isSpace(space)
    ensures EndsInSpace(z, a + [space] + b) <==> b == [] || EndsInSpace(z, b)
    ensures Words(z, b) == [] ==> b == [] || EndsInSpace(z, b)
  {
    assert Last(a + [space] + b) == if b == [] then space else Last(b);
  }

  // A text without spaces is one word, or none.
  lemma WordsOfOne(z: Alphabet, w: string)
    requires forall i :: 0 <= i < |w| ==> !z.isSpace(w[i])
    ensures Words(z, w) == if w == [] then [] else [w]
  {
    if w != [] { OneWord(z, w); }
  }

  // Joining puts one blank between words and nothing else.
  lemma JoinedMeans(ws: seq<string>, w: string)
    ensures Joined([]) == [] && Joined([w]) == w && (ws != [] ==> Joined(ws + [w]) == Joined(ws) + " " + w)
  {
    assert Front(ws + [w]) == ws;
  }

  lemma {:induction false} CleanedConcat(z: Alphabet, a: string, b: string)
    ensures Cleaned(z, a + b) == Cleaned(z, a) + Cleaned(z, b)
  {
    if b == [] {
      assert a + b == a;
    } else {
      CleanedConcat(z, a, Front(b));
      assert Front(a + b) == a + Front(b);
    }
  }

  // A token keeps the lower case of a word's letters and digits and drops the rest.
  lemma CleanedMeans(z: Alphabet, a: string, ch: char)
    ensures Cleaned(z, []) == [] && Cleaned(z, [ch]) == if z.isAlnum(ch) then z.lower(ch) else []
    ensures Cleaned(z, a + [ch]) == Cleaned(z, a) + Cleaned(z, [ch])
  {
    CleanedConcat(z, a, [ch]);
  }

  // One token a word, none for a word without letters and digits.
  lemma TokensMean(z: Alphabet, ws: seq<string>, w: string)
    ensures Tokens(z, []) == []
    ensures Tokens(z, ws + [w]) == Tokens(z, ws) + (if Cleaned(z, w) == [] then [] else [Cleaned(z, w)])
  {
    assert Front(ws + [w]) == ws;
  }

  // As many of them as the limit says, but never fewer than one.
  lemma FirstTokensMean(z: Alphabet, s: string, maxTokens: nat)
    ensures var (all, first) := (Tokens(z, Words(z, s)), FirstTokens(z, s, maxTokens));
      first <= all && (|first| == |all| || |first| == if maxTokens == 0 then 1 else maxTokens)
  {
  }

  lemma {:induction false} ConcatMeans(a: seq<string>, b: seq<string>)
    ensures Concat(a + b) == Concat(a) + Concat(b)
  {
    if b == [] {
      assert a + b == a;
    } else {
      ConcatMeans(a, Front(b));
      assert Front(a + b) == a + Front(b);
    }
  }

  // The first characters, all of them if there are no more.
  lemma TruncatedMeans(s: string, max: nat)
    ensures Truncated(s, max) <= s && |Truncated(s, max)| == if |s| <= max then |s| else max
  {
  }
}
