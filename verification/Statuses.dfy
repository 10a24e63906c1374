// What the breaker makes of each HTTP status, over all event runs of one host, in
// terms of the events themselves (crates/fetch/src/health.rs:135-166).
module Statuses {
  import opened Prelude
  import opened Breaker

  predicate Within(e: Event, lo: nat, hi: nat) { e.Reply? && lo <= e.status <= hi }

  predicate Good(e: Event) { Within(e, 200, 399) }

  // Rate limits, blocks and server errors.
  predicate Bad(e: Event) { Within(e, 429, 429) || Within(e, 403, 403) || Within(e, 500, 599) }

  predicate Noise(e: Event) { e.Reply? && !Good(e) && !Bad(e) }

  // Replies with a status in this range.
  function Between(events: seq<Event>, lo: nat, hi: nat): set<nat> {
    set i: nat | i < |events| && Within(events[i], lo, hi)
  }

  function NoiseIn(events: seq<Event>): set<nat> { set i: nat | i < |events| && Noise(events[i]) }

  function RepliesIn(events: seq<Event>): set<nat> { set i: nat | i < |events| && events[i].Reply? }

  lemma BetweenLast(events: seq<Event>, lo: nat, hi: nat)
    requires events != []
    ensures |Between(events, lo, hi)| == |Between(Front(events), lo, hi)| + Bit(Within(Last(events), lo, hi))
  {
    var n := |events| - 1;
    assert n !in Between(Front(events), lo, hi);
    assert Between(events, lo, hi) == Between(Front(events), lo, hi) + (if Within(Last(events), lo, hi) then {n} else {});
  }

  lemma NoiseLast(events: seq<Event>)
    requires events != []
    ensures |NoiseIn(events)| == |NoiseIn(Front(events))| + Bit(Noise(Last(events)))
  {
    var n := |events| - 1;
    assert n !in NoiseIn(Front(events));
    assert NoiseIn(events) == NoiseIn(Front(events)) + (if Noise(Last(events)) then {n} else {});
  }

  lemma RepliesLast(events: seq<Event>)
    requires events != []
    ensures |RepliesIn(events)| == |RepliesIn(Front(events))| + Bit(Last(events).Reply?)
  {
    var n := |events| - 1;
    assert n !in RepliesIn(Front(events));
    assert RepliesIn(events) == RepliesIn(Front(events)) + (if Last(events).Reply? then {n} else {});
  }

  lemma CountersLast(t: Limits, events: seq<Event>)
    requires t.Valid() && events != []
    ensures var (h, last, h') := (State(t, Front(events)), Last(events), State(t, events));
      && h'.successes == h.successes + Bit(Within(last, 200, 399))
      && h'.failures429 == h.failures429 + Bit(Within(last, 429, 429))
      && h'.failures403 == h.failures403 + Bit(Within(last, 403, 403))
      && h'.failures5xx == h.failures5xx + Bit(Within(last, 500, 599))
      && h'.failures4xx == h.failures4xx + Bit(Noise(last)) && h'.requests == h.requests + Bit(last.Reply?)
  {
  }

  // Each counter is the number of replies in its own range of statuses.
  lemma {:induction false} CountersByStatus(t: Limits, events: seq<Event>)
    requires t.Valid()
    ensures var h := State(t, events);
      && h.successes == |Between(events, 200, 399)| && h.failures429 == |Between(events, 429, 429)|
      && h.failures403 == |Between(events, 403, 403)| && h.failures5xx == |Between(events, 500, 599)|
      && h.failures4xx == |NoiseIn(events)| && h.requests == |RepliesIn(events)|
  {
    if events != [] {
      CountersByStatus(t, Front(events));
      CountersLast(t, events);
      BetweenLast(events, 200, 399);
      BetweenLast(events, 429, 429);
      BetweenLast(events, 403, 403);
      BetweenLast(events, 500, 599);
      NoiseLast(events);
      RepliesLast(events);
    }
  }

  // ----- the failures that count -----

  // A question that finds the cooldown over.
  predicate Probes(t: Limits, events: seq<Event>, i: nat)
    requires t.Valid() && i < |events|
  {
    var h := State(t, events[..i]);
    events[i].Ask? && h.circuit.Open? && (h.cooldownUntil.Some? ==> events[i].now >= h.cooldownUntil.value)
  }

  predicate Resets(t: Limits, events: seq<Event>, i: nat)
    requires t.Valid() && i < |events|
  {
    Good(events[i]) || Probes(t, events, i)
  }

  // The start of the run, or the event after the last success or probe.
  predicate LastReset(t: Limits, events: seq<Event>, k: nat)
    requires t.Valid() && k <= |events|
  {
    (k == 0 || Resets(t, events, k - 1)) && forall i :: k <= i < |events| ==> !Resets(t, events, i)
  }

  function BadSince(events: seq<Event>, k: nat): set<nat> { set i: nat | k <= i < |events| && Bad(events[i]) }

  lemma BadLast(events: seq<Event>, k: nat)
    requires k < |events|
    ensures |BadSince(events, k)| == |BadSince(Front(events), k)| + Bit(Bad(Last(events)))
  {
    var n := |events| - 1;
    assert n !in BadSince(Front(events), k);
    assert BadSince(events, k) == BadSince(Front(events), k) + (if Bad(Last(events)) then {n} else {});
  }

  lemma ResetFront(t: Limits, events: seq<Event>, i: nat)
    requires t.Valid() && i < |events| - 1
    ensures Resets(t, Front(events), i) == Resets(t, events, i)
  {
    assert Front(events)[..i] == events[..i];
  }

  // The failure count is the number of bad replies since the last success; a probe counts
  // for all but one of the threshold.
  lemma {:induction false} FailuresSince(t: Limits, events: seq<Event>, k: nat)
    requires t.Valid() && k <= |events| && LastReset(t, events, k)
    ensures State(t, events).consecutive
      == |BadSince(events, k)| + (if k > 0 && Probes(t, events, k - 1) then t.threshold - 1 else 0)
  {
    if k == |events| {
      assert BadSince(events, k) == {};
      if k > 0 { assert events[..k - 1] == Front(events); }
    } else {
      forall i | 0 <= i < |events| - 1 ensures Resets(t, Front(events), i) == Resets(t, events, i) {
        ResetFront(t, events, i);
      }
      if k > 0 { assert Front(events)[..k - 1] == events[..k - 1]; }
      FailuresSince(t, Front(events), k);
      BadLast(events, k);
      assert !Resets(t, events, |events| - 1) && events[..|events| - 1] == Front(events);
    }
  }

  // The circuit is open exactly when that number has reached the threshold, and half-open
  // exactly when nothing bad came after a probe.
  lemma CircuitBy(t: Limits, events: seq<Event>, k: nat)
    requires t.Valid() && k <= |events| && LastReset(t, events, k)
    ensures var h := State(t, events);
      var probed := k > 0 && Probes(t, events, k - 1);
      && (h.circuit.Open? <==> |BadSince(events, k)| >= if probed then 1 else t.threshold)
      && (h.circuit.HalfOpen? <==> probed && BadSince(events, k) == {})
  {
    FailuresSince(t, events, k);
    BreakerInvariant(t, events);
    HalfOpenBy(t, events, k);
    if BadSince(events, k) != {} { assert |BadSince(events, k)| >= 1; }
  }

  lemma {:induction false} HalfOpenBy(t: Limits, events: seq<Event>, k: nat)
    requires t.Valid() && k <= |events| && LastReset(t, events, k)
    ensures State(t, events).circuit.HalfOpen? ==> k > 0 && Probes(t, events, k - 1)
    ensures k > 0 && Probes(t, events, k - 1) ==> !State(t, events).circuit.Closed?
  {
    if k == |events| {
      if k > 0 { assert events[..k - 1] == Front(events); }
    } else {
      forall i | 0 <= i < |events| - 1 ensures Resets(t, Front(events), i) == Resets(t, events, i) {
        ResetFront(t, events, i);
      }
      if k > 0 { assert Front(events)[..k - 1] == events[..k - 1]; }
      HalfOpenBy(t, Front(events), k);
      assert !Resets(t, events, |events| - 1) && events[..|events| - 1] == Front(events);
    }
  }

  // Rate limiting alone opens the circuit.
  lemma LimitedOpens(t: Limits, n: nat)
    requires t.Valid()
    ensures var h := State(t, seq(n, _ => Reply(429, 0)));
      h.failures429 == h.requests == n && (h.circuit.Open? <==> n >= t.threshold)
  {
    var events := seq(n, _ => Reply(429, 0));
    CountersByStatus(t, events);
    CircuitBy(t, events, 0);
    AllBelow(Between(events, 429, 429), n);
    AllBelow(RepliesIn(events), n);
    AllBelow(BadSince(events, 0), n);
  }

  lemma {:induction false} AllBelow(s: set<nat>, n: nat)
    requires forall i: nat :: i in s <==> i < n
    ensures |s| == n
  {
    if n > 0 {
      AllBelow(s - {n - 1}, n - 1);
      assert s == (s - {n - 1}) + {n - 1};
    } else {
      assert s == {};
    }
  }

  // ----- openings and cooldowns -----

  // The last event is a bad reply that makes or keeps the count at the threshold.
  predicate OpensNow(t: Limits, events: seq<Event>)
    requires t.Valid()
  {
    events != [] && Bad(Last(events)) && State(t, events).consecutive >= t.threshold
  }

  // An opening with no success after it.
  predicate StillOpening(t: Limits, events: seq<Event>, i: nat)
    requires t.Valid() && i < |events|
  {
    OpensNow(t, events[..i + 1]) && forall j :: i < j < |events| ==> !Good(events[j])
  }

  function OpeningsSince(t: Limits, events: seq<Event>): set<nat>
    requires t.Valid()
  {
    set i: nat | i < |events| && StillOpening(t, events, i)
  }

  lemma OpeningFront(t: Limits, events: seq<Event>, i: nat)
    requires t.Valid() && i < |events| - 1
    ensures StillOpening(t, events, i) <==> StillOpening(t, Front(events), i) && !Good(Last(events))
  {
    assert Front(events)[..i + 1] == events[..i + 1];
  }

  lemma OpeningsLast(t: Limits, events: seq<Event>)
    requires t.Valid() && events != []
    ensures OpeningsSince(t, events) ==
      if Good(Last(events)) then {}
      else OpeningsSince(t, Front(events)) + (if OpensNow(t, events) then {|events| - 1} else {})
  {
    assert events[..|events|] == events;
    forall i: nat | i < |events| - 1
      ensures StillOpening(t, events, i) <==> StillOpening(t, Front(events), i) && !Good(Last(events))
    {
      OpeningFront(t, events, i);
    }
  }

  lemma StrikesLast(t: Limits, events: seq<Event>)
    requires t.Valid() && events != []
    ensures Strikes(t, events) == if Good(Last(events)) then 0 else Strikes(t, Front(events)) + Bit(OpensNow(t, events))
  {
    BreakerInvariant(t, Front(events));
  }

  lemma {:induction false} StrikesCounted(t: Limits, events: seq<Event>)
    requires t.Valid()
    ensures Strikes(t, events) == |OpeningsSince(t, events)|
  {
    if events != [] {
      StrikesCounted(t, Front(events));
      StrikesLast(t, events);
      OpeningsLast(t, events);
      OneMore(OpeningsSince(t, Front(events)), |events| - 1);
    }
  }

  lemma OneMore(s: set<nat>, n: nat)
    requires n !in s
    ensures |s + {n}| == |s| + 1 && s + {} == s
  {
  }

  // The cooldown doubles with each opening since the last success, up to ten minutes, and
  // each opening blocks the host for the cooldown before it.
  lemma CooldownByOpenings(t: Limits, events: seq<Event>)
    requires t.Valid()
    ensures var k := |OpeningsSince(t, events)|;
      State(t, events).cooldown ==
        if k == 0 then t.base
        else if t.base * Power(k) <= 600_000_000_000 then t.base * Power(k) else 600_000_000_000
    ensures OpensNow(t, events) ==>
      State(t, events).cooldownUntil == Some(Last(events).now + State(t, Front(events)).cooldown)
  {
    StrikesCounted(t, events);
    CooldownFormula(t, events);
  }

  // A question is refused exactly while the circuit is open and its deadline ahead.
  lemma RefusedWhile(t: Limits, events: seq<Event>, now: int)
    requires t.Valid()
    ensures Asked(t, After(t, events), now).1 <==>
      var h := State(t, events); !(h.circuit.Open? && h.cooldownUntil.Some? && now < h.cooldownUntil.value)
  {
    BreakerInvariant(t, events);
  }
}
