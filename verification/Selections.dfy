// Subsequences named by the positions they are taken from.
module Selections {
  predicate Increasing(q: seq<nat>, n: nat) {
    && (forall k :: 0 <= k < |q| ==> q[k] < n)
    && (forall j, k :: 0 <= j < k < |q| ==> q[j] < q[k])
  }

  // `out` is what `s` holds at the positions of q, which are those to be kept.
  ghost predicate SelectsBy<T>(out: seq<T>, s: seq<T>, keep: nat -> bool, q: seq<nat>) {
    && |q| == |out| && Increasing(q, |s|) && (forall k :: 0 <= k < |q| ==> out[k] == s[q[k]])
    && forall i: nat :: i < |s| ==> (keep(i) <==> i in q)
  }

  ghost predicate Selects<T>(out: seq<T>, s: seq<T>, keep: nat -> bool) {
    exists q: seq<nat> :: SelectsBy(out, s, keep, q)
  }

  lemma SelectsMore<T>(out: seq<T>, s: seq<T>, x: T, keep: nat -> bool)
    requires Selects(out, s, keep)
    ensures Selects(if keep(|s|) then out + [x] else out, s + [x], keep)
  {
    var q: seq<nat> :| SelectsBy(out, s, keep, q);
    if keep(|s|) {
      var more: seq<nat> := q + [|s|];
      forall i: nat | i < |s| + 1 ensures keep(i) <==> i in more { assert i in more <==> i in q || i == |s|; }
      assert SelectsBy(out + [x], s + [x], keep, more);
    } else {
      assert SelectsBy(out, s + [x], keep, q);
    }
  }

  lemma SelectsSame<T>(out: seq<T>, s: seq<T>, keep: nat -> bool, keep': nat -> bool)
    requires Selects(out, s, keep) && forall i: nat :: i < |s| ==> keep(i) == keep'(i)
    ensures Selects(out, s, keep')
  {
    var q: seq<nat> :| SelectsBy(out, s, keep, q);
    assert SelectsBy(out, s, keep', q);
  }

  lemma SelectsNothing<T>(keep: nat -> bool)
    ensures Selects<T>([], [], keep)
  {
    assert SelectsBy<T>([], [], keep, []);
  }
}
