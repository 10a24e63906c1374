// The per-host circuit breaker (crates/fetch/src/health.rs). Times and durations
// are nanoseconds; every reading of the clock is a parameter.
module Breaker {
  import opened Prelude

  const MAX_COOLDOWN: nat := 600_000_000_000

  datatype Circuit = Closed | Open | HalfOpen

  datatype DomainStats = DomainStats(
    requests: nat, successes: nat, failures4xx: nat, failures429: nat, failures403: nat, failures5xx: nat,
    consecutive: nat, circuit: Circuit, cooldownUntil: Option<int>, cooldown: nat)
  {
    // The cooldown has not elapsed.
    predicate Cooling(now: int) { cooldownUntil.Some? && now < cooldownUntil.value }
  }

  function NewStats(base: nat): DomainStats {
    DomainStats(0, 0, 0, 0, 0, 0, 0, Closed, None, base)
  }

  datatype Outcome = Success | Limited | Forbidden | Broken | Other

  function Classify(status: nat): Outcome {
    if 200 <= status < 400 then Success
    else if status == 429 then Limited
    else if status == 403 then Forbidden
    else if 500 <= status <= 599 then Broken
    else Other
  }

  predicate IsStrike(outcome: Outcome) { outcome.Limited? || outcome.Forbidden? || outcome.Broken? }

  datatype Limits = Limits(threshold: nat, base: nat) {
    predicate Valid() { threshold >= 1 }
  }

  function Capped(d: nat): nat { if d <= MAX_COOLDOWN then d else MAX_COOLDOWN }

  // ----- one host -----

  // What `is_available` does to the host's record, and its answer.
  function Asked(t: Limits, h: Option<DomainStats>, now: int): (Option<DomainStats>, bool)
    requires t.Valid()
  {
    if h.Some? && h.value.circuit.Open? then
      if h.value.Cooling(now) then (h, false)
      else (Some(h.value.(circuit := HalfOpen, consecutive := t.threshold - 1)), true)
    else (h, true)
  }

  function WithOutcome(h: DomainStats, outcome: Outcome): DomainStats {
    var h := h.(requests := h.requests + 1);
    match outcome
    case Success => h.(successes := h.successes + 1)
    case Limited => h.(failures429 := h.failures429 + 1)
    case Forbidden => h.(failures403 := h.failures403 + 1)
    case Broken => h.(failures5xx := h.failures5xx + 1)
    case Other => h.(failures4xx := h.failures4xx + 1)
  }

  // What `record_response` does to it.
  function Replied(t: Limits, h: Option<DomainStats>, status: nat, now: int): DomainStats {
    var outcome := Classify(status);
    var h := WithOutcome(if h.Some? then h.value else NewStats(t.base), outcome);
    if outcome.Success? then h.(consecutive := 0, circuit := Closed, cooldownUntil := None, cooldown := t.base)
    else if outcome.Other? then h
    else if h.consecutive + 1 >= t.threshold then
      h.(consecutive := h.consecutive + 1, circuit := Open, cooldownUntil := Some(now + h.cooldown),
         cooldown := Capped(2 * h.cooldown))
    else h.(consecutive := h.consecutive + 1)
  }

  class DomainHealthTracker {
    var domains: map<string, DomainStats>
    const limits: Limits

    function Of(host: string): Option<DomainStats>
      reads this
    {
      if host in domains then Some(domains[host]) else None
    }

    constructor (openThreshold: nat, baseCooldown: nat)
      ensures limits.Valid() && limits.base == baseCooldown && (openThreshold >= 1 ==> limits.threshold == openThreshold)
      ensures forall host :: Of(host) == None
    {
      limits := Limits(if openThreshold >= 1 then openThreshold else 1, baseCooldown);
      domains := map[];
    }

    method IsAvailable(host: string, now: int) returns (available: bool)
      requires limits.Valid()
      modifies this
      ensures (Of(host), available) == Asked(limits, old(Of(host)), now)
      ensures forall other :: other != host ==> Of(other) == old(Of(other))
    {
      if host !in domains { return true; }
      var entry := domains[host];
      match entry.circuit {
        case Closed => available := true;
        case HalfOpen => available := true;
        case Open =>
          if entry.Cooling(now) {
            available := false;
          } else {
            entry := entry.(circuit := HalfOpen);
            entry := entry.(consecutive := limits.threshold - 1);
            domains := domains[host := entry];
            available := true;
          }
      }
    }

    method RecordResponse(host: string, status: nat, now: int)
      requires limits.Valid()
      modifies this
      ensures Of(host) == Some(Replied(limits, old(Of(host)), status, now))
      ensures forall other :: other != host ==> Of(other) == old(Of(other))
    {
      var entry := if host in domains then domains[host] else NewStats(limits.base);
      entry := entry.(requests := entry.requests + 1);
      if 200 <= status < 400 {
        entry := entry.(successes := entry.successes + 1);
        entry := entry.(consecutive := 0, circuit := Closed, cooldownUntil := None, cooldown := limits.base);
        domains := domains[host := entry];
        return;
      }
      if status == 429 {
        entry := entry.(failures429 := entry.failures429 + 1);
      } else if status == 403 {
        entry := entry.(failures403 := entry.failures403 + 1);
      } else if 500 <= status <= 599 {
        entry := entry.(failures5xx := entry.failures5xx + 1);
      } else {
        entry := entry.(failures4xx := entry.failures4xx + 1);
        domains := domains[host := entry];
        return;
      }
      entry := entry.(consecutive := entry.consecutive + 1);
      if entry.consecutive >= limits.threshold {
        entry := entry.(circuit := Open, cooldownUntil := Some(now + entry.cooldown));
        entry := entry.(cooldown := Capped(entry.cooldown * 2));
      }
      domains := domains[host := entry];
    }
  }

  // ----- runs of one host: questions and responses in any order -----

  datatype Event = Ask(now: int) | Reply(status: nat, now: int)

  function Next(t: Limits, h: Option<DomainStats>, e: Event): Option<DomainStats>
    requires t.Valid()
  {
    if e.Ask? then Asked(t, h, e.now).0 else Some(Replied(t, h, e.status, e.now))
  }

  function After(t: Limits, events: seq<Event>): Option<DomainStats>
    requires t.Valid()
  {
    if events == [] then None else Next(t, After(t, Front(events)), Last(events))
  }

  // The state a host without a record behaves as.
  function State(t: Limits, events: seq<Event>): DomainStats
    requires t.Valid()
  {
    var h := After(t, events);
    if h.Some? then h.value else NewStats(t.base)
  }

  function Replies(events: seq<Event>, outcome: Outcome): nat {
    if events == [] then 0
    else Replies(Front(events), outcome) + Bit(Last(events).Reply? && Classify(Last(events).status) == outcome)
  }

  // Failures recorded at or over the threshold since the last success.
  function Strikes(t: Limits, events: seq<Event>): nat
    requires t.Valid()
  {
    if events == [] then 0
    else
      var before := Strikes(t, Front(events));
      match Last(events)
      case Ask(_) => before
      case Reply(status, _) =>
        if Classify(status).Success? then 0
        else before + Bit(IsStrike(Classify(status)) && State(t, Front(events)).consecutive + 1 >= t.threshold)
  }

  // The last event is such a failure: it opens the circuit, or opens it anew.
  predicate Opens(t: Limits, events: seq<Event>)
    requires t.Valid()
  {
    events != [] && Strikes(t, events) == Strikes(t, Front(events)) + 1
  }

  // ----- the state machine's invariant -----

  predicate Consistent(t: Limits, h: DomainStats) {
    match h.circuit
    case Closed => h.consecutive < t.threshold && h.cooldownUntil == None
    case HalfOpen => h.consecutive + 1 == t.threshold && h.cooldownUntil.Some?
    case Open => h.consecutive >= t.threshold && h.cooldownUntil.Some?
  }

  // In every run, for every threshold and cooldown, the circuit's state fixes the
  // failure count and whether there is a deadline.
  lemma {:induction false} BreakerInvariant(t: Limits, events: seq<Event>)
    requires t.Valid()
    ensures Consistent(t, State(t, events))
  {
    if events != [] { BreakerInvariant(t, Front(events)); }
  }

  // The counters are the numbers of responses of each kind, and sum to `requests`.
  lemma {:induction false} CountersExact(t: Limits, events: seq<Event>)
    requires t.Valid()
    ensures var h := State(t, events);
      && h.successes == Replies(events, Success) && h.failures4xx == Replies(events, Other)
      && h.failures429 == Replies(events, Limited) && h.failures403 == Replies(events, Forbidden)
      && h.failures5xx == Replies(events, Broken)
      && h.requests == h.successes + h.failures4xx + h.failures429 + h.failures403 + h.failures5xx
  {
    if events != [] {
      CountersExact(t, Front(events));
      if Last(events).Reply? { CountersStep(t, After(t, Front(events)), Last(events).status, Last(events).now); }
    }
  }

  lemma CountersStep(t: Limits, h: Option<DomainStats>, status: nat, now: int)
    ensures var before := if h.Some? then h.value else NewStats(t.base);
      var after := WithOutcome(before, Classify(status));
      Replied(t, h, status, now) ==
        after.(consecutive := Replied(t, h, status, now).consecutive, circuit := Replied(t, h, status, now).circuit,
               cooldownUntil := Replied(t, h, status, now).cooldownUntil, cooldown := Replied(t, h, status, now).cooldown)
  {
  }

  // ----- the doubling cooldown -----

  function Power(k: nat): nat { if k == 0 then 1 else 2 * Power(k - 1) }

  // The cooldown after k strikes: doubled k times, capped unless it is the first.
  function Cooldown(base: nat, k: nat): nat {
    if k == 0 then base else Capped(base * Power(k))
  }

  lemma CooldownDoubles(base: nat, k: nat)
    ensures Cooldown(base, k + 1) == Capped(2 * Cooldown(base, k))
  {
    if k > 0 { assert base * Power(k + 1) == 2 * (base * Power(k)); }
    else { assert base * Power(1) == 2 * base; }
  }

  lemma {:induction false} CooldownFormula(t: Limits, events: seq<Event>)
    requires t.Valid()
    ensures State(t, events).cooldown == Cooldown(t.base, Strikes(t, events))
    ensures Opens(t, events) ==>
      State(t, events).circuit.Open?
      && State(t, events).cooldownUntil == Some(Last(events).now + Cooldown(t.base, Strikes(t, events) - 1))
  {
    if events != [] {
      CooldownFormula(t, Front(events));
      CooldownDoubles(t.base, Strikes(t, Front(events)));
    }
  }

  // ----- nothing is admitted before the deadline -----

  predicate InOrder(events: seq<Event>) {
    forall i, j :: 0 <= i < j < |events| ==> events[i].now <= events[j].now
  }

  predicate NoSuccess(events: seq<Event>) {
    forall e :: e in events && e.Reply? ==> !Classify(e.status).Success?
  }

  // Nobody is admitted before `deadline` by the next event.
  ghost predicate Holds(t: Limits, events: seq<Event>, deadline: int)
    requires t.Valid()
  {
    forall now :: now < deadline ==> !Asked(t, After(t, events), now).1
  }

  lemma {:induction false} CooldownGrows(base: nat, j: nat, k: nat)
    requires base <= MAX_COOLDOWN && j <= k
    ensures Cooldown(base, j) <= Cooldown(base, k)
  {
    if j < k {
      CooldownGrows(base, j, k - 1);
      CooldownDoubles(base, k - 1);
      CooldownCapped(base, k - 1);
    }
  }

  lemma CooldownCapped(base: nat, k: nat)
    requires base <= MAX_COOLDOWN
    ensures Cooldown(base, k) <= MAX_COOLDOWN
  {
  }

  // What protects the deadline: the circuit stays open, and later strikes only move
  // the deadline forward.
  lemma {:induction false} DeadlineStands(t: Limits, opening: seq<Event>, later: seq<Event>)
    requires t.Valid() && t.base <= MAX_COOLDOWN && Protected(t, opening, later)
    ensures var h := State(t, opening + later);
      h.circuit.Open? && h.cooldownUntil.Some? && h.cooldownUntil.value >= State(t, opening).cooldownUntil.value
      && Strikes(t, opening + later) >= Strikes(t, opening)
  {
    var all := opening + later;
    CooldownFormula(t, opening);
    if later == [] {
      assert all == opening;
    } else {
      assert Front(all) == opening + Front(later);
      assert Last(all) == Last(later) && Last(all) in later;
      DeadlineStands(t, opening, Front(later));
      CooldownFormula(t, all);
      BreakerInvariant(t, Front(all));
      if Opens(t, all) {
        CooldownGrows(t.base, Strikes(t, opening) - 1, Strikes(t, all) - 1);
        assert all[|opening| - 1] == Last(opening);
      }
    }
  }

  // Some strike opened the circuit; since then, clocks read less than its deadline
  // and no success was recorded.
  predicate Protected(t: Limits, opening: seq<Event>, later: seq<Event>)
    requires t.Valid()
  {
    && Opens(t, opening) && InOrder(opening + later) && NoSuccess(later)
    && State(t, opening).cooldownUntil.Some?
    && forall e :: e in later ==> e.now < State(t, opening).cooldownUntil.value
  }

  ghost predicate KeepsDeadlines(t: Limits)
    requires t.Valid()
  {
    forall opening, later :: Protected(t, opening, later) ==>
      Holds(t, opening + later, State(t, opening).cooldownUntil.value)
  }

  // After the circuit opened, and until its deadline or a success, every question is
  // refused, whatever late responses come in. This needs a base cooldown within the
  // cap: a longer one is cut by a second late failure, which moves the deadline back.
  lemma NothingBeforeDeadline(t: Limits)
    requires t.Valid()
    ensures KeepsDeadlines(t) <==> t.base <= MAX_COOLDOWN
  {
    if t.base <= MAX_COOLDOWN {
      forall opening, later | Protected(t, opening, later)
        ensures Holds(t, opening + later, State(t, opening).cooldownUntil.value)
      {
        DeadlineStands(t, opening, later);
      }
    } else {
      var opening, later := Failures(t.threshold), [Reply(503, 0)];
      FailuresOpen(t, t.threshold);
      FailuresOpen(t, t.threshold + 1);
      assert opening + later == Failures(t.threshold + 1);
      assert Protected(t, opening, later);
      assert Asked(t, After(t, opening + later), MAX_COOLDOWN).1;
    }
  }

  // n server errors, all at time 0.
  function Failures(n: nat): seq<Event> { seq(n, _ => Reply(503, 0)) }

  lemma {:induction false} FailuresOpen(t: Limits, n: nat)
    requires t.Valid() && n <= t.threshold + 1
    ensures n > 0 ==> Front(Failures(n)) == Failures(n - 1) && (n >= t.threshold ==> Opens(t, Failures(n)))
    ensures var h := State(t, Failures(n));
      && h.consecutive == n && (n < t.threshold ==> h.cooldown == t.base)
      && (n == t.threshold ==> h.circuit.Open? && h.cooldownUntil == Some(t.base as int) && h.cooldown == Capped(2 * t.base))
      && (n > t.threshold ==> h.circuit.Open? && h.cooldownUntil == Some(Capped(2 * t.base) as int))
      && (n > 0 ==> After(t, Failures(n)).Some?)
  {
    if n > 0 {
      FailuresOpen(t, n - 1);
      assert Front(Failures(n)) == Failures(n - 1);
    }
  }

  // ----- serial use -----

  // Every response belongs to the question before it, which was admitted.
  predicate Serial(t: Limits, events: seq<Event>)
    requires t.Valid()
  {
    forall i :: 0 <= i < |events| && events[i].Reply? ==>
      i > 0 && events[i - 1].Ask? && Asked(t, After(t, events[..i - 1]), events[i - 1].now).1
  }

  function Total(base: nat, n: nat): nat {
    if n == 0 then 0 else Total(base, n - 1) + Cooldown(base, n - 1)
  }

  // The time of the first opening since the last success.
  function FirstOpening(t: Limits, events: seq<Event>): int
    requires t.Valid() && Strikes(t, events) > 0
    decreases |events|
  {
    if Strikes(t, Front(events)) == 0 then Last(events).now else FirstOpening(t, Front(events))
  }

  predicate PaidUp(t: Limits, events: seq<Event>)
    requires t.Valid()
  {
    var h := State(t, events);
    var n := Strikes(t, events);
    && (n > 0 ==> !h.circuit.Closed? && h.cooldownUntil.Some?
                  && h.cooldownUntil.value >= FirstOpening(t, events) + Total(t.base, n))
    && (n == 0 ==> h.circuit.Closed?)
    && (h.circuit.HalfOpen? ==> h.cooldownUntil.Some? && events != [] && Last(events).now >= h.cooldownUntil.value)
  }

  lemma {:induction false} PaidUpAlways(t: Limits, events: seq<Event>)
    requires t.Valid() && InOrder(events) && Serial(t, events)
    ensures PaidUp(t, events)
  {
    if events != [] {
      var before := Front(events);
      SerialFront(t, events);
      PaidUpAlways(t, before);
      if Last(events).Reply? { AdmittedLast(t, events); }
      if |events| >= 2 { assert before[|before| - 1].now <= Last(events).now; }
      PaidUpStep(t, events);
    }
  }

  lemma PaidUpStep(t: Limits, events: seq<Event>)
    requires t.Valid() && events != [] && PaidUp(t, Front(events))
    requires |events| >= 2 ==> Last(Front(events)).now <= Last(events).now
    requires Last(events).Reply? ==> |events| >= 2 && !State(t, Front(events)).circuit.Open?
    ensures PaidUp(t, events)
  {
    BreakerInvariant(t, Front(events));
    CooldownFormula(t, Front(events));
  }

  lemma SerialFront(t: Limits, events: seq<Event>)
    requires t.Valid() && InOrder(events) && Serial(t, events) && events != []
    ensures InOrder(Front(events)) && Serial(t, Front(events))
  {
    var before := Front(events);
    forall i | 0 <= i < |before| && before[i].Reply?
      ensures i > 0 && before[i - 1].Ask? && Asked(t, After(t, before[..i - 1]), before[i - 1].now).1
    {
      assert before[..i - 1] == events[..i - 1];
    }
  }

  // In serial use the circuit is not open when a response comes in.
  lemma AdmittedLast(t: Limits, events: seq<Event>)
    requires t.Valid() && Serial(t, events) && events != [] && Last(events).Reply?
    ensures |events| >= 2 && !State(t, Front(events)).circuit.Open?
  {
    var before := Front(events);
    assert before[..|before| - 1] == events[..|events| - 2];
  }

  // With one request in flight at a time, the openings since the last success spread
  // out: each comes no earlier than all cooldowns so far, added to the first opening.
  lemma OpeningsSpread(t: Limits, events: seq<Event>)
    requires t.Valid() && InOrder(events) && Serial(t, events) && Opens(t, events)
    ensures Last(events).now >= FirstOpening(t, events) + Total(t.base, Strikes(t, events) - 1)
  {
    var before := Front(events);
    SerialFront(t, events);
    PaidUpAlways(t, before);
    AdmittedLast(t, events);
    if Strikes(t, before) > 0 { assert before[|before| - 1].now <= Last(events).now; }
  }

  // ----- half-open -----

  // Once half-open, the circuit admits every question until a response is recorded.
  lemma {:induction false} HalfOpenAdmitsAll(t: Limits, events: seq<Event>, questions: seq<Event>, now: int)
    requires t.Valid() && State(t, events).circuit.HalfOpen? && forall e :: e in questions ==> e.Ask?
    ensures After(t, events + questions) == After(t, events) && Asked(t, After(t, events + questions), now).1
  {
    if questions == [] {
      assert events + questions == events;
    } else {
      assert Front(events + questions) == events + Front(questions);
      HalfOpenAdmitsAll(t, events, Front(questions), now);
    }
  }

  // And the circuit gets there: after enough failures and the cooldown, a question makes it
  // half-open, and two more are admitted before any response.
  lemma HalfOpenAdmitsTwo(t: Limits)
    requires t.Valid()
    ensures
      var events := Failures(t.threshold) + [Ask(t.base)];
      && State(t, events).circuit.HalfOpen?
      && Asked(t, After(t, events), t.base).1
      && Asked(t, After(t, events + [Ask(t.base)]), t.base).1
  {
    var failed, events := Failures(t.threshold), Failures(t.threshold) + [Ask(t.base)];
    FailuresOpen(t, t.threshold);
    assert Front(events) == failed && Last(events) == Ask(t.base);
    HalfOpenAdmitsAll(t, events, [], t.base);
    HalfOpenAdmitsAll(t, events, [Ask(t.base)], t.base);
    assert events + [] == events;
  }
}
