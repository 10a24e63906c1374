// Ordered-sequence similarity: the longest common subsequence over two rolling
// rows (crates/parser/src/adaptive.rs:732-768).
module Lcs {
  import opened Prelude
  import opened Selections

  // ----- common subsequences -----

  // x is what s holds at these positions.
  ghost predicate Picks<T>(x: seq<T>, s: seq<T>, p: seq<nat>) {
    |p| == |x| && Increasing(p, |s|) && forall i :: 0 <= i < |x| ==> s[p[i]] == x[i]
  }

  ghost predicate Common<T>(x: seq<T>, a: seq<T>, b: seq<T>) {
    (exists p :: Picks(x, a, p)) && (exists q :: Picks(x, b, q))
  }

  // ----- the recurrence the rows follow -----

  function Max(x: nat, y: nat): nat { if x >= y then x else y }

  function Length<T(==)>(a: seq<T>, b: seq<T>): nat
    decreases |a| + |b|
  {
    if a == [] || b == [] then 0
    else if a[|a| - 1] == b[|b| - 1] then Length(Front(a), Front(b)) + 1
    else Max(Length(Front(a), b), Length(a, Front(b)))
  }

  // ----- it is the true maximum -----

  // A common subsequence of that length.
  ghost function Witness<T>(a: seq<T>, b: seq<T>): (r: (seq<nat>, seq<nat>))
    ensures |r.0| == |r.1| == Length(a, b)
    ensures Increasing(r.0, |a|) && Increasing(r.1, |b|)
    ensures forall i :: 0 <= i < |r.0| ==> a[r.0[i]] == b[r.1[i]]
    decreases |a| + |b|
  {
    if a == [] || b == [] then ([], [])
    else if a[|a| - 1] == b[|b| - 1] then
      var (p, q) := Witness(Front(a), Front(b));
      (p + [|a| - 1], q + [|b| - 1])
    else if Length(Front(a), b) >= Length(a, Front(b)) then Witness(Front(a), b)
    else Witness(a, Front(b))
  }

  lemma Attained<T>(a: seq<T>, b: seq<T>)
    ensures exists x :: |x| == Length(a, b) && Common(x, a, b)
  {
    var (p, q) := Witness(a, b);
    var x := seq(|p|, i requires 0 <= i < |p| => a[p[i]]);
    assert Picks(x, a, p) && Picks(x, b, q);
  }

  // Dropping the last element of one sequence costs at most one.
  lemma {:induction false} DropLast<T>(a: seq<T>, b: seq<T>)
    ensures a != [] ==> Length(Front(a), b) <= Length(a, b) <= Length(Front(a), b) + 1
    ensures b != [] ==> Length(a, Front(b)) <= Length(a, b) <= Length(a, Front(b)) + 1
    decreases |a| + |b|
  {
    if a != [] && b != [] {
      DropLast(Front(a), b);
      DropLast(a, Front(b));
    }
  }

  lemma {:induction false} NoLonger<T>(a: seq<T>, b: seq<T>, x: seq<T>, p: seq<nat>, q: seq<nat>)
    requires Picks(x, a, p) && Picks(x, b, q)
    ensures |x| <= Length(a, b)
    decreases |a| + |b|
  {
    if x != [] {
      DropLast(a, b);
      if p[|p| - 1] < |a| - 1 {
        Inside(x, a, p);
        NoLonger(Front(a), b, x, p, q);
      } else if q[|q| - 1] < |b| - 1 {
        Inside(x, b, q);
        NoLonger(a, Front(b), x, p, q);
      } else {
        Shorter(x, a, p);
        Shorter(x, b, q);
        NoLonger(Front(a), Front(b), Front(x), Front(p), Front(q));
      }
    }
  }

  lemma Inside<T>(x: seq<T>, s: seq<T>, p: seq<nat>)
    requires Picks(x, s, p) && x != [] && p[|p| - 1] < |s| - 1
    ensures Picks(x, Front(s), p)
  {
  }

  lemma Shorter<T>(x: seq<T>, s: seq<T>, p: seq<nat>)
    requires Picks(x, s, p) && x != [] && p[|p| - 1] == |s| - 1
    ensures Picks(Front(x), Front(s), Front(p))
  {
  }

  // A common subsequence of this length exists, and none is longer.
  lemma IsLongest<T>(a: seq<T>, b: seq<T>)
    ensures exists x :: |x| == Length(a, b) && Common(x, a, b)
    ensures forall x :: Common(x, a, b) ==> |x| <= Length(a, b)
  {
    Attained(a, b);
    forall x | Common(x, a, b) ensures |x| <= Length(a, b) {
      var p :| Picks(x, a, p);
      var q :| Picks(x, b, q);
      NoLonger(a, b, x, p, q);
    }
  }

  // ----- similarity -----

  function Similarity<T(==)>(a: seq<T>, b: seq<T>): real {
    if a == [] && b == [] then 1.0
    else Length(a, b) as real / Max(|a|, |b|) as real
  }

  lemma {:induction false} LengthSymmetric<T>(a: seq<T>, b: seq<T>)
    ensures Length(a, b) == Length(b, a)
    decreases |a| + |b|
  {
    if a != [] && b != [] {
      LengthSymmetric(Front(a), Front(b));
      LengthSymmetric(Front(a), b);
      LengthSymmetric(a, Front(b));
    }
  }

  // No longer than either sequence, and as long as both only for equal ones.
  lemma {:induction false} LengthBounds<T>(a: seq<T>, b: seq<T>)
    ensures Length(a, b) <= |a| && Length(a, b) <= |b|
    ensures Length(a, b) == |a| == |b| <==> a == b
    decreases |a| + |b|
  {
    if a != [] && b != [] {
      LengthBounds(Front(a), Front(b));
      LengthBounds(Front(a), b);
      LengthBounds(a, Front(b));
      assert a == Front(a) + [a[|a| - 1]] && b == Front(b) + [b[|b| - 1]];
    }
  }

  lemma SimilarityLaws<T>(a: seq<T>, b: seq<T>)
    ensures 0.0 <= Similarity(a, b) <= 1.0
    ensures Similarity(a, b) == Similarity(b, a)
    ensures Similarity(a, b) == 1.0 <==> a == b
  {
    LengthBounds(a, b);
    LengthSymmetric(a, b);
    if a != [] || b != [] { Ratio(Length(a, b), Max(|a|, |b|)); }
  }

  lemma Ratio(x: nat, n: nat)
    requires x <= n && n > 0
    ensures 0.0 <= x as real / n as real <= 1.0
    ensures x as real / n as real == 1.0 <==> x == n
  {
    var r := x as real / n as real;
    assert r * n as real == x as real;
  }

  // ----- the rows -----

  // The row for this prefix of `a`: position j holds the length against b[..j].
  ghost predicate IsRow<T>(row: seq<nat>, a: seq<T>, b: seq<T>, filled: nat) {
    |row| == |b| + 1 && filled <= |row| && forall j :: 0 <= j < filled ==> row[j] == Length(a, b[..j])
  }

  lemma NextCell<T>(a: seq<T>, b: seq<T>, i: nat, j: nat)
    requires i < |a| && j < |b|
    ensures Length(a[..i + 1], b[..j + 1]) ==
      if a[i] == b[j] then Length(a[..i], b[..j]) + 1
      else Max(Length(a[..i], b[..j + 1]), Length(a[..i + 1], b[..j]))
  {
    assert Front(a[..i + 1]) == a[..i] && Front(b[..j + 1]) == b[..j];
  }

  // Fills `current` from `previous`; whatever `current` held before is overwritten.
  method FillRow<T(==)>(a: seq<T>, b: seq<T>, i: nat, previous: array<nat>, current: array<nat>)
    requires i < |a| && previous != current && current.Length == |b| + 1
    requires IsRow(previous[..], a[..i], b, |b| + 1)
    modifies current
    ensures IsRow(current[..], a[..i + 1], b, |b| + 1)
  {
    current[0] := 0;
    var j := 0;
    while j < |b|
      invariant 0 <= j <= |b|
      invariant IsRow(current[..], a[..i + 1], b, j + 1)
    {
      NextCell(a, b, i, j);
      assert previous[..][j] == Length(a[..i], b[..j]) && previous[..][j + 1] == Length(a[..i], b[..j + 1]);
      assert current[..][j] == Length(a[..i + 1], b[..j]);
      current[j + 1] := if a[i] == b[j] then previous[j] + 1 else Max(previous[j + 1], current[j]);
      j := j + 1;
    }
  }

  method SequenceSimilarity<T(==)>(a: seq<T>, b: seq<T>) returns (r: real)
    ensures r == Similarity(a, b)
  {
    if a == [] && b == [] { return 1.0; }
    if a == [] || b == [] { return 0.0; }
    var n, m := |a|, |b|;
    var previous := new nat[m + 1](_ => 0);
    var current := new nat[m + 1](_ => 0);
    var i := 0;
    while i < n
      invariant 0 <= i <= n && fresh(previous) && fresh(current)
      invariant previous != current && current.Length == m + 1
      invariant IsRow(previous[..], a[..i], b, m + 1)
    {
      FillRow(a, b, i, previous, current);
      previous, current := current, previous;
      i := i + 1;
    }
    assert a[..n] == a && b[..m] == b;
    assert previous[..][m] == Length(a, b);
    return previous[m] as real / Max(n, m) as real;
  }
}
