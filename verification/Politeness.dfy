// Per-host pacing (crates/fetch/src/politeness.rs): a token bucket kept as a
// virtual-time schedule, behind a minimum delay. Times are nanoseconds.
module Politeness {
  import opened Prelude

  // ----- one bucket -----

  datatype Bucket = Bucket(interval: nat, burst: nat, next: int) {
    predicate Valid() { burst >= 1 }

    // How far behind the clock the schedule may fall: a full bucket.
    function Credit(): int { interval * (burst - 1) }

    // The slot a call at `now` is given.
    function Slot(now: int): int {
      if now - next > Credit() then now - Credit() else next
    }

    function After(now: int): Bucket { this.(next := Slot(now) + interval) }

    // When that call may start.
    function Release(now: int): int { if Slot(now) > now then Slot(now) else now }
  }

  function Full(interval: nat, burst: nat, now: int): (b: Bucket)
    ensures b.Valid()
  {
    var size := if burst >= 1 then burst else 1;
    Bucket(interval, size, now - interval * (size - 1))
  }

  class TokenBucket {
    const interval: nat
    const burst: nat
    var nextAvailable: int

    function Value(): Bucket
      reads this
    {
      Bucket(interval, burst, nextAvailable)
    }

    constructor (interval: nat, burst: nat, now: int)
      ensures Value() == Full(interval, burst, now)
    {
      var size := if burst >= 1 then burst else 1;
      var initialLag := interval * (size - 1);
      this.interval, this.burst := interval, size;
      nextAvailable := now - initialLag;
    }

    method Reserve(now: int) returns (wait: nat)
      requires Value().Valid()
      modifies this
      ensures Value() == old(Value()).After(now)
      ensures now + wait == old(Value()).Release(now)
    {
      var maxIdleCredit := interval * (burst - 1);
      if now - nextAvailable > maxIdleCredit { nextAvailable := now - maxIdleCredit; }
      var slot := nextAvailable;
      nextAvailable := slot + interval;
      wait := if slot > now then slot - now else 0;
    }
  }

  // ----- runs of one bucket -----

  // The bucket before the i-th of these calls; clock readings in any order.
  function At(b: Bucket, calls: seq<int>, i: nat): (r: Bucket)
    requires i <= |calls|
    ensures r.interval == b.interval && r.burst == b.burst
  {
    if i == 0 then b else At(b, calls, i - 1).After(calls[i - 1])
  }

  function SlotOf(b: Bucket, calls: seq<int>, i: nat): int
    requires i < |calls|
  {
    At(b, calls, i).Slot(calls[i])
  }

  function ReleaseOf(b: Bucket, calls: seq<int>, i: nat): int
    requires i < |calls|
  {
    At(b, calls, i).Release(calls[i])
  }

  // A call starts at its slot, or at most a full bucket after it.
  lemma SlotBeforeRelease(b: Bucket, calls: seq<int>, i: nat)
    requires b.Valid() && i < |calls|
    ensures SlotOf(b, calls, i) <= ReleaseOf(b, calls, i) <= SlotOf(b, calls, i) + b.Credit()
  {
    CreditNonnegative(b);
  }

  lemma CreditNonnegative(b: Bucket)
    requires b.Valid()
    ensures b.Credit() >= 0
  {
  }

  lemma {:induction false} SlotsApart(b: Bucket, calls: seq<int>, i: nat, j: nat)
    requires b.Valid() && i <= j < |calls|
    ensures SlotOf(b, calls, j) >= SlotOf(b, calls, i) + (j - i) * b.interval
  {
    if i < j {
      SlotsApart(b, calls, i, j - 1);
      assert At(b, calls, j).next == SlotOf(b, calls, j - 1) + b.interval;
      assert (j - i) * b.interval == (j - 1 - i) * b.interval + b.interval;
    }
  }

  lemma {:induction false} SpreadOfSet(k: set<nat>, lo: nat, hi: nat)
    requires lo <= hi && forall i :: i in k ==> lo <= i <= hi
    ensures |k| <= hi - lo + 1
  {
    if lo < hi { SpreadOfSet(k - {hi}, lo, hi - 1); }
    if hi in k { assert k == (k - {hi}) + {hi}; } else { assert k == k - {hi}; }
    if lo == hi { assert k - {hi} == {}; }
  }

  lemma {:induction false} Extremes(k: set<nat>) returns (lo: nat, hi: nat)
    requires k != {}
    ensures lo in k && hi in k && forall i :: i in k ==> lo <= i <= hi
    decreases |k|
  {
    var x :| x in k;
    if k == {x} { return x, x; }
    assert k == (k - {x}) + {x};
    lo, hi := Extremes(k - {x});
    if x < lo { lo := x; }
    if x > hi { hi := x; }
  }

  // The rate bound, over every window and every choice of calls: k calls that start
  // within a window of length L satisfy (k - burst) * interval <= L.
  lemma WindowBound(b: Bucket, calls: seq<int>, k: set<nat>, from: int, length: nat)
    requires b.Valid()
    requires forall i :: i in k ==> i < |calls| && from <= ReleaseOf(b, calls, i) <= from + length
    ensures (|k| - b.burst) * b.interval <= length
  {
    if k != {} {
      var lo, hi := Extremes(k);
      SpreadOfSet(k, lo, hi);
      SlotsApart(b, calls, lo, hi);
      SlotBeforeRelease(b, calls, lo);
      SlotBeforeRelease(b, calls, hi);
      WindowArithmetic(|k|, hi - lo, b.interval, b.burst, length);
    } else {
      assert (0 - b.burst) * b.interval <= 0;
    }
  }

  lemma WindowArithmetic(k: nat, spread: nat, interval: nat, burst: nat, length: nat)
    requires k <= spread + 1 && burst >= 1
    requires spread * interval <= length + interval * (burst - 1)
    ensures (k - burst) * interval <= length
  {
    Scaled(k - burst, spread + 1 - burst, interval);
    assert (spread + 1 - burst) * interval == spread * interval - interval * (burst - 1);
  }

  // The bound is met: of many calls at one instant on a new bucket, `burst` start at
  // once and the others one interval apart.
  lemma BurstThenRate(interval: nat, burst: nat, now: int, n: nat, i: nat)
    requires burst >= 1 && i < n
    ensures ReleaseOf(Full(interval, burst, now), seq(n, _ => now), i)
      == if i < burst then now else now + (i - (burst - 1)) * interval
  {
    BurstSlots(interval, burst, now, n, i);
    assert i * interval - interval * (burst - 1) == (i - (burst - 1)) * interval;
    if i < burst { Scaled(i, burst - 1, interval); } else { Scaled(burst - 1, i, interval); }
  }

  lemma {:induction false} BurstSlots(interval: nat, burst: nat, now: int, n: nat, i: nat)
    requires burst >= 1 && i < n
    ensures SlotOf(Full(interval, burst, now), seq(n, _ => now), i) == now - interval * (burst - 1) + i * interval
  {
    if i > 0 {
      BurstSlots(interval, burst, now, n, i - 1);
      assert i * interval == (i - 1) * interval + interval;
      Scaled(0, i, interval);
    }
  }

  lemma Scaled(a: int, b: int, n: nat)
    requires a <= b
    ensures a * n <= b * n
  {
  }

  // ----- the token counter -----

  // A bucket of `burst` tokens, refilled continuously, that may go into debt.
  datatype Counter = Counter(interval: nat, burst: nat, tokens: real, last: int) {
    function Refilled(now: int): real
      requires interval > 0
    {
      var sum := tokens + (now - last) as real / interval as real;
      if sum > burst as real then burst as real else sum
    }

    function Take(now: int): Counter
      requires interval > 0
    {
      Counter(interval, burst, Refilled(now) - 1.0, now)
    }

    // A call waits for its debt to be paid back.
    function Wait(now: int): real
      requires interval > 0
    {
      var tokens := Refilled(now) - 1.0;
      if tokens < 0.0 then (0.0 - tokens) * interval as real else 0.0
    }
  }

  // The schedule's lag behind the clock is the number of tokens, less one.
  predicate Represents(b: Bucket, t: Counter) {
    && b.interval == t.interval > 0 && b.burst == t.burst >= 1
    && t.tokens * b.interval as real == (t.last - b.next + b.interval) as real
  }

  lemma Product(a: nat, b: nat)
    ensures a as real * b as real == (a * b) as real
  {
  }

  lemma OneLess(x: real, i: real)
    ensures (x - 1.0) * i == x * i - i && (0.0 - x) * i == 0.0 - x * i
  {
  }

  lemma Ordered(x: real, y: real, i: real)
    requires i > 0.0
    ensures x < y <==> x * i < y * i
  {
  }

  lemma RefilledScaled(t: Counter, now: int)
    requires t.interval > 0
    ensures var scaled := t.tokens * t.interval as real + (now - t.last) as real;
      var full := (t.burst * t.interval) as real;
      t.Refilled(now) * t.interval as real == if scaled > full then full else scaled
  {
    var i := t.interval as real;
    var more := (now - t.last) as real / i;
    assert more * i == (now - t.last) as real;
    assert (t.tokens + more) * i == t.tokens * i + more * i;
    Ordered(t.burst as real, t.tokens + more, i);
    Product(t.burst, t.interval);
  }

  // The refilled tokens, scaled, are the distance from the slot plus one interval.
  lemma RefilledIsLag(b: Bucket, t: Counter, now: int)
    requires Represents(b, t) && t.last <= now
    ensures t.Refilled(now) * b.interval as real == (now - b.Slot(now) + b.interval) as real
  {
    RefilledScaled(t, now);
    assert b.burst * b.interval == b.Credit() + b.interval;
  }

  lemma ReserveIsTake(b: Bucket, t: Counter, now: int)
    requires Represents(b, t) && t.last <= now
    ensures Represents(b.After(now), t.Take(now)) && (b.Release(now) - now) as real == t.Wait(now)
  {
    var i := b.interval as real;
    var left := t.Refilled(now) - 1.0;
    RefilledIsLag(b, t, now);
    OneLess(t.Refilled(now), i);
    OneLess(left, i);
    Ordered(left, 0.0, i);
  }

  // ----- runs of both -----

  function CounterAt(t: Counter, calls: seq<int>, i: nat): (r: Counter)
    requires i <= |calls| && t.interval > 0
    ensures r.interval == t.interval
  {
    if i == 0 then t else CounterAt(t, calls, i - 1).Take(calls[i - 1])
  }

  lemma {:induction false} RunsAgree(interval: nat, burst: nat, start: int, calls: seq<int>, i: nat)
    requires interval > 0 && burst >= 1 && i <= |calls|
    requires forall j :: 0 <= j < i ==> (if j == 0 then start else calls[j - 1]) <= calls[j]
    ensures var t := CounterAt(Counter(interval, burst, burst as real, start), calls, i);
      Represents(At(Full(interval, burst, start), calls, i), t) && t.last == if i == 0 then start else calls[i - 1]
  {
    if i == 0 {
      assert burst as real * interval as real == (interval * burst) as real;
      assert interval * burst == interval * (burst - 1) + interval;
    } else {
      RunsAgree(interval, burst, start, calls, i - 1);
      assert (if i - 1 == 0 then start else calls[i - 2]) <= calls[i - 1];
      ReserveIsTake(At(Full(interval, burst, start), calls, i - 1),
                    CounterAt(Counter(interval, burst, burst as real, start), calls, i - 1), calls[i - 1]);
    }
  }

  // With a clock that does not run backwards, `reserve` makes every caller wait exactly
  // as long as the token counter that starts full.
  lemma ScheduleIsTokenBucket(interval: nat, burst: nat, start: int, calls: seq<int>, i: nat)
    requires interval > 0 && burst >= 1 && i < |calls|
    requires forall j :: 0 <= j < |calls| ==> (if j == 0 then start else calls[j - 1]) <= calls[j]
    ensures (ReleaseOf(Full(interval, burst, start), calls, i) - calls[i]) as real
         == CounterAt(Counter(interval, burst, burst as real, start), calls, i).Wait(calls[i])
  {
    RunsAgree(interval, burst, start, calls, i);
    ReserveIsTake(At(Full(interval, burst, start), calls, i),
                  CounterAt(Counter(interval, burst, burst as real, start), calls, i), calls[i]);
  }

  // ----- delay, then rate -----

  datatype RateLimit = RateLimit(interval: nat, burst: nat)

  // What the manager remembers about one host.
  datatype Host = Host(last: Option<int>, bucket: Option<Bucket>)

  // The time the minimum delay grants.
  function Granted(delay: nat, last: Option<int>, now: int): int {
    if delay == 0 then now
    else
      var allowed := (if last.Some? then last.value else now - delay) + delay;
      if allowed > now then allowed else now
  }

  function BucketFor(rate: RateLimit, bucket: Option<Bucket>, now: int): Bucket {
    if bucket.Some? then bucket.value else Full(rate.interval, rate.burst, now)
  }

  // One `wait_for_slot` entered at `now`, with exact sleeps: the host afterwards and
  // the time the caller goes ahead. The sleep between the two halves lets other
  // callers in, but the halves use different tables, and callers reach the second
  // half in the order the first half granted.
  function Paced(delay: nat, rate: Option<RateLimit>, h: Host, now: int): (Host, int) {
    var granted := Granted(delay, h.last, now);
    var last := if delay == 0 then h.last else Some(granted);
    if rate.None? then (Host(last, h.bucket), granted)
    else
      var b := BucketFor(rate.value, h.bucket, granted);
      (Host(last, Some(b.After(granted))), b.Release(granted))
  }

  class PolitenessManager {
    var lastRequest: map<string, int>
    var coalesce: map<string, TokenBucket>
    const delay: nat
    const rate: Option<RateLimit>

    ghost function Buckets(): set<object>
      reads this
    {
      set host | host in coalesce :: coalesce[host] as object
    }

    ghost predicate Valid()
      reads this, Buckets()
    {
      && (rate.Some? ==> rate.value.burst >= 1)
      && (forall host :: host in coalesce ==>
            rate.Some? && coalesce[host].interval == rate.value.interval && coalesce[host].burst == rate.value.burst)
      && (forall a, b :: a in coalesce && b in coalesce && a != b ==> coalesce[a] != coalesce[b])
    }

    ghost function HostOf(host: string): Host
      reads this, Buckets()
    {
      Host(if host in lastRequest then Some(lastRequest[host]) else None,
           if host in coalesce then Some(coalesce[host].Value()) else None)
    }

    constructor (delay: nat, rate: Option<RateLimit>)
      requires rate.Some? ==> rate.value.burst >= 1
      ensures Valid() && this.delay == delay && this.rate == rate
      ensures forall host :: HostOf(host) == Host(None, None)
    {
      this.delay, this.rate := delay, rate;
      lastRequest, coalesce := map[], map[];
    }

    // The half before the first sleep.
    method DelayHalf(host: string, now: int) returns (waitUntil: int)
      requires Valid()
      modifies this`lastRequest
      ensures waitUntil == Granted(delay, old(HostOf(host)).last, now)
      ensures lastRequest == if delay == 0 then old(lastRequest) else old(lastRequest)[host := waitUntil]
    {
      waitUntil := now;
      if delay != 0 {
        var entry := if host in lastRequest then lastRequest[host] else now - delay;
        waitUntil := if entry + delay > now then entry + delay else now;
        lastRequest := lastRequest[host := waitUntil];
      }
    }

    // The half before the second sleep.
    method RateHalf(host: string, now: int) returns (start: int)
      requires Valid()
      modifies this`coalesce, Buckets()
      ensures Valid()
      ensures forall other :: other != host ==> HostOf(other) == old(HostOf(other))
      ensures HostOf(host).last == old(HostOf(host)).last
      ensures rate.None? ==> start == now && HostOf(host) == old(HostOf(host))
      ensures rate.Some? ==>
        var b := BucketFor(rate.value, old(HostOf(host)).bucket, now);
        HostOf(host).bucket == Some(b.After(now)) && start == b.Release(now)
    {
      start := now;
      if rate.Some? {
        if host !in coalesce {
          var bucket := new TokenBucket(rate.value.interval, rate.value.burst, now);
          coalesce := coalesce[host := bucket];
        }
        var wait := coalesce[host].Reserve(now);
        start := now + wait;
      }
    }

    method WaitForSlot(host: string, now: int) returns (start: int)
      requires Valid()
      modifies this`lastRequest, this`coalesce, Buckets()
      ensures Valid()
      ensures (HostOf(host), start) == Paced(delay, rate, old(HostOf(host)), now)
      ensures forall other :: other != host ==> HostOf(other) == old(HostOf(other))
    {
      var waitUntil := DelayHalf(host, now);
      assert forall other :: other != host ==> HostOf(other) == old(HostOf(other));
      start := RateHalf(host, waitUntil);
    }
  }

  // ----- runs of one host -----

  function HostAt(delay: nat, rate: Option<RateLimit>, calls: seq<int>, i: nat): Host
    requires i <= |calls|
  {
    if i == 0 then Host(None, None) else Paced(delay, rate, HostAt(delay, rate, calls, i - 1), calls[i - 1]).0
  }

  // When the i-th caller goes ahead.
  function StartOf(delay: nat, rate: Option<RateLimit>, calls: seq<int>, i: nat): int
    requires i < |calls|
  {
    Paced(delay, rate, HostAt(delay, rate, calls, i), calls[i]).1
  }

  function GrantOf(delay: nat, rate: Option<RateLimit>, calls: seq<int>, i: nat): int
    requires i < |calls|
  {
    Granted(delay, HostAt(delay, rate, calls, i).last, calls[i])
  }

  // Between calls the bucket is at most one interval ahead of the last grant, or its
  // interval is longer than the delay.
  predicate Level(delay: nat, rate: Option<RateLimit>, h: Host) {
    && (h.bucket.Some? ==> rate.Some? && h.bucket.value.interval == rate.value.interval && h.bucket.value.Valid())
    && (h.bucket.Some? && delay > 0 ==>
          h.last.Some? && (rate.value.interval <= delay ==> h.bucket.value.next <= h.last.value + rate.value.interval))
  }

  lemma LevelKept(delay: nat, rate: Option<RateLimit>, h: Host, now: int)
    requires Level(delay, rate, h) && (rate.Some? ==> rate.value.burst >= 1)
    ensures Level(delay, rate, Paced(delay, rate, h, now).0)
  {
    if rate.Some? { CreditNonnegative(BucketFor(rate.value, h.bucket, Granted(delay, h.last, now))); }
  }

  lemma {:induction false} LevelAlways(delay: nat, rate: Option<RateLimit>, calls: seq<int>, i: nat)
    requires i <= |calls| && (rate.Some? ==> rate.value.burst >= 1)
    ensures Level(delay, rate, HostAt(delay, rate, calls, i))
  {
    if i > 0 {
      LevelAlways(delay, rate, calls, i - 1);
      LevelKept(delay, rate, HostAt(delay, rate, calls, i - 1), calls[i - 1]);
    }
  }

  // Two calls in a row on one host.
  lemma NextStart(delay: nat, rate: Option<RateLimit>, h: Host, now: int, later: int)
    requires Level(delay, rate, h) && (rate.Some? ==> rate.value.burst >= 1) && delay > 0
    ensures Paced(delay, rate, Paced(delay, rate, h, now).0, later).1 >= Paced(delay, rate, h, now).1 + delay
  {
    if rate.Some? { CreditNonnegative(BucketFor(rate.value, h.bucket, Granted(delay, h.last, now))); }
  }

  // The bucket half of a run is a run of the bucket alone, called at the granted times.
  function Grants(delay: nat, rate: Option<RateLimit>, calls: seq<int>): seq<int> {
    seq(|calls|, i requires 0 <= i < |calls| => GrantOf(delay, rate, calls, i))
  }

  lemma {:induction false} BucketRun(delay: nat, rate: RateLimit, calls: seq<int>, i: nat)
    requires 0 < i <= |calls|
    ensures var grants := Grants(delay, Some(rate), calls);
      HostAt(delay, Some(rate), calls, i).bucket == Some(At(Full(rate.interval, rate.burst, grants[0]), grants, i))
  {
    if i > 1 { BucketRun(delay, rate, calls, i - 1); }
    else { assert At(Full(rate.interval, rate.burst, GrantOf(delay, Some(rate), calls, 0)), Grants(delay, Some(rate), calls), 0)
        == Full(rate.interval, rate.burst, GrantOf(delay, Some(rate), calls, 0)); }
  }

  lemma StartIsRelease(delay: nat, rate: RateLimit, calls: seq<int>, i: nat)
    requires i < |calls|
    ensures var grants := Grants(delay, Some(rate), calls);
      StartOf(delay, Some(rate), calls, i) == ReleaseOf(Full(rate.interval, rate.burst, grants[0]), grants, i)
  {
    if i > 0 { BucketRun(delay, rate, calls, i); }
  }

  // Both limits survive their composition, whatever the delay, the interval and the
  // order in which clock readings arrive: starts are at least `delay` apart, and no
  // window holds more than the bucket allows.
  lemma BothLimitsHold(delay: nat, rate: RateLimit, calls: seq<int>, k: set<nat>, from: int, length: nat)
    requires rate.burst >= 1
    requires forall i :: i in k ==> i < |calls| && from <= StartOf(delay, Some(rate), calls, i) <= from + length
    ensures delay > 0 ==> forall i :: 0 < i < |calls| ==>
      StartOf(delay, Some(rate), calls, i) >= StartOf(delay, Some(rate), calls, i - 1) + delay
    ensures (|k| - rate.burst) * rate.interval <= length
  {
    forall i | 0 < i < |calls| && delay > 0
      ensures StartOf(delay, Some(rate), calls, i) >= StartOf(delay, Some(rate), calls, i - 1) + delay
    {
      LevelAlways(delay, Some(rate), calls, i - 1);
      NextStart(delay, Some(rate), HostAt(delay, Some(rate), calls, i - 1), calls[i - 1], calls[i]);
    }
    if calls != [] {
      var grants := Grants(delay, Some(rate), calls);
      forall i | i in k ensures ReleaseOf(Full(rate.interval, rate.burst, grants[0]), grants, i)
        == StartOf(delay, Some(rate), calls, i) { StartIsRelease(delay, rate, calls, i); }
      WindowBound(Full(rate.interval, rate.burst, grants[0]), grants, k, from, length);
    } else {
      assert k == {};
      assert (0 - rate.burst) * rate.interval <= 0;
    }
  }

  // Without a rate limit the delay alone still spaces every pair.
  lemma DelayHolds(delay: nat, calls: seq<int>, i: nat)
    requires delay > 0 && 0 < i < |calls|
    ensures StartOf(delay, None, calls, i) >= StartOf(delay, None, calls, i - 1) + delay
  {
  }

  // Granted times strictly increase, so with exact sleeps callers enter the second
  // half in the order in which they went through the first.
  lemma {:induction false} HalvesInOrder(delay: nat, rate: Option<RateLimit>, calls: seq<int>, i: nat, j: nat)
    requires delay > 0 && i < j < |calls|
    ensures GrantOf(delay, rate, calls, i) < GrantOf(delay, rate, calls, j)
    decreases j
  {
    if i < j - 1 { HalvesInOrder(delay, rate, calls, i, j - 1); }
  }

  // ----- and not a moment later than that -----

  // Not before the call, nor within the delay of an earlier grant.
  predicate Allowed(delay: nat, rate: Option<RateLimit>, calls: seq<int>, i: nat, time: int)
    requires i < |calls|
  {
    time >= calls[i] && forall j: nat :: j < i ==> time >= GrantOf(delay, rate, calls, j) + delay
  }

  // The delay grants each call the first moment that is allowed.
  lemma GrantIsFirstAllowed(delay: nat, rate: Option<RateLimit>, calls: seq<int>, i: nat)
    requires delay > 0 && i < |calls|
    ensures Allowed(delay, rate, calls, i, GrantOf(delay, rate, calls, i))
    ensures forall time :: Allowed(delay, rate, calls, i, time) ==> time >= GrantOf(delay, rate, calls, i)
  {
    GrantAllowed(delay, rate, calls, i);
    if i > 0 {
      forall time | Allowed(delay, rate, calls, i, time) ensures time >= GrantOf(delay, rate, calls, i) {
        assert time >= GrantOf(delay, rate, calls, i - 1) + delay;
      }
    }
  }

  lemma GrantAllowed(delay: nat, rate: Option<RateLimit>, calls: seq<int>, i: nat)
    requires delay > 0 && i < |calls|
    ensures Allowed(delay, rate, calls, i, GrantOf(delay, rate, calls, i))
  {
    forall j: nat | j < i ensures GrantOf(delay, rate, calls, i) >= GrantOf(delay, rate, calls, j) + delay {
      if j < i - 1 { HalvesInOrder(delay, rate, calls, j, i - 1); }
    }
  }

  // A call to a host idle for the delay, or with no delay, goes ahead when it is made.
  lemma IdleIsGranted(delay: nat, rate: Option<RateLimit>, calls: seq<int>, i: nat)
    requires i < |calls|
    requires delay == 0 || forall j: nat :: j < i ==> calls[i] >= GrantOf(delay, rate, calls, j) + delay
    ensures GrantOf(delay, rate, calls, i) == calls[i]
  {
    if delay > 0 {
      GrantIsFirstAllowed(delay, rate, calls, i);
      assert Allowed(delay, rate, calls, i, calls[i]);
    }
  }

  // Without a rate limit nothing is added; with one, what the token counter asks for at the
  // granted times, starting full at the first of them.
  lemma StartAfterGrant(delay: nat, rate: Option<RateLimit>, calls: seq<int>, i: nat)
    requires i < |calls| && (rate.Some? ==> rate.value.burst >= 1 && rate.value.interval > 0)
    requires delay > 0 || forall j :: 0 < j < |calls| ==> calls[j - 1] <= calls[j]
    ensures rate.None? ==> StartOf(delay, rate, calls, i) == GrantOf(delay, rate, calls, i)
    ensures rate.Some? ==>
      var (grants, r) := (Grants(delay, rate, calls), rate.value);
      (StartOf(delay, rate, calls, i) - grants[i]) as real
        == CounterAt(Counter(r.interval, r.burst, r.burst as real, grants[0]), grants, i).Wait(grants[i])
  {
    if rate.Some? {
      var grants := Grants(delay, rate, calls);
      StartIsRelease(delay, rate.value, calls, i);
      GrantsInOrder(delay, rate, calls);
      ScheduleIsTokenBucket(rate.value.interval, rate.value.burst, grants[0], grants, i);
    }
  }

  lemma GrantsInOrder(delay: nat, rate: Option<RateLimit>, calls: seq<int>)
    requires delay > 0 || forall j :: 0 < j < |calls| ==> calls[j - 1] <= calls[j]
    ensures var grants := Grants(delay, rate, calls);
      forall j :: 0 <= j < |grants| ==> (if j == 0 then grants[0] else grants[j - 1]) <= grants[j]
  {
    var grants := Grants(delay, rate, calls);
    forall j | 0 < j < |grants| ensures grants[j - 1] <= grants[j] {
      if delay > 0 { HalvesInOrder(delay, rate, calls, j - 1, j); }
    }
  }

  // The manager grants and starts what these runs say.
  lemma PacedIsRun(delay: nat, rate: Option<RateLimit>, calls: seq<int>, now: int)
    ensures Paced(delay, rate, HostAt(delay, rate, calls, |calls|), now).1 == StartOf(delay, rate, calls + [now], |calls|)
  {
    HostSame(delay, rate, calls, now, |calls|);
  }

  lemma {:induction false} HostSame(delay: nat, rate: Option<RateLimit>, calls: seq<int>, now: int, i: nat)
    requires i <= |calls|
    ensures HostAt(delay, rate, calls + [now], i) == HostAt(delay, rate, calls, i)
  {
    if i > 0 { HostSame(delay, rate, calls, now, i - 1); }
  }
}
