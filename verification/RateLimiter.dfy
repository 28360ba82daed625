/** The token-bucket rate limiter. */
module RateLimiting {
  import opened Wrappers

  const EPSILON: real := 0.000000001

  /** Ten minutes in milliseconds: buckets idle for longer are dropped. */
  const STALE_MS: real := 600000.0

  datatype Bucket = Bucket(tokens: real, lastRefill: real)

  /** The limiter's parameters: burst size and refill rate per millisecond, which a window of zero makes infinite. */
  datatype Limits = Limits(max: real, rate: real) | Instant(max: real)

  function Min(a: real, b: real): real {
    if a <= b then a else b
  }

  function Refill(l: Limits, b: Bucket, now: real): Bucket {
    if now - b.lastRefill <= 0.0 then b
    else Bucket(if l.Instant? then l.max else Min(l.max, b.tokens + (now - b.lastRefill) * l.rate), now)
  }

  /** `consume`: the bucket afterwards and whether the request was admitted. */
  function Consumed(l: Limits, b: Option<Bucket>, now: real): (Option<Bucket>, bool) {
    if b.None? then (Some(Bucket(l.max - 1.0, now)), true)
    else
      var full := Refill(l, b.value, now);
      if full.tokens < EPSILON then (Some(full), false) else (Some(full.(tokens := full.tokens - 1.0)), true)
  }

  /** `canConsume`, which also refills the bucket it looks at. */
  function Peeked(l: Limits, b: Option<Bucket>, now: real): (Option<Bucket>, bool) {
    if b.None? then (b, true)
    else
      var full := Refill(l, b.value, now);
      (Some(full), full.tokens >= EPSILON)
  }

  predicate Stale(b: Bucket, now: real) {
    now - b.lastRefill > STALE_MS
  }

  class RateLimiter {
    var buckets: map<string, Bucket>
    const maxTokens: real
    const refillRatePerMs: Option<real>     // None stands for infinity

    constructor (maxRequests: real, windowMs: real)
      requires windowMs == 0.0 ==> maxRequests > 0.0
      ensures buckets == map[]
      ensures Params() == if windowMs == 0.0 then Instant(maxRequests) else Limits(maxRequests, maxRequests / windowMs)
    {
      maxTokens, buckets := maxRequests, map[];
      refillRatePerMs := if windowMs == 0.0 then None else Some(maxRequests / windowMs);
    }

    function Params(): Limits {
      if refillRatePerMs.None? then Instant(maxTokens) else Limits(maxTokens, refillRatePerMs.value)
    }

    ghost function Held(name: string): Option<Bucket>
      reads this
    {
      if name in buckets then Some(buckets[name]) else None
    }

    method Refilled(bucket: Bucket, now: real) returns (b: Bucket)
      ensures b == Refill(Params(), bucket, now)
    {
      b := bucket;
      var elapsed := now - b.lastRefill;
      if elapsed <= 0.0 {
        return;
      }
      if refillRatePerMs.None? {
        return Bucket(maxTokens, now);
      }
      var refill := elapsed * refillRatePerMs.value;
      b := Bucket(if maxTokens <= b.tokens + refill then maxTokens else b.tokens + refill, now);
    }

    /** Admits the request exactly as `Consumed` says, and touches no other bucket. */
    method Consume(name: string, now: real) returns (admitted: bool)
      modifies this
      ensures (Held(name), admitted) == Consumed(Params(), old(Held(name)), now)
      ensures forall other :: other != name ==> Held(other) == old(Held(other))
    {
      if name !in buckets {
        buckets := buckets[name := Bucket(maxTokens - 1.0, now)];
        return true;
      }
      var bucket := Refilled(buckets[name], now);
      if bucket.tokens < EPSILON {
        buckets := buckets[name := bucket];
        return false;
      }
      buckets := buckets[name := bucket.(tokens := bucket.tokens - 1.0)];
      return true;
    }

    method CanConsume(name: string, now: real) returns (possible: bool)
      modifies this
      ensures (Held(name), possible) == Peeked(Params(), old(Held(name)), now)
      ensures forall other :: other != name ==> Held(other) == old(Held(other))
    {
      if name !in buckets {
        return true;
      }
      var bucket := Refilled(buckets[name], now);
      buckets := buckets[name := bucket];
      return bucket.tokens >= EPSILON;
    }

    method Reset()
      modifies this
      ensures buckets == map[]
    {
      buckets := map[];
    }

    /** Drops exactly the stale buckets. */
    method Cleanup(now: real)
      modifies this
      ensures forall name ::
        Held(name) == (if old(Held(name)).Some? && Stale(old(Held(name)).value, now) then None else old(Held(name)))
    {
      var todo := buckets.Keys;
      while todo != {}
        invariant todo <= buckets.Keys
        invariant forall name :: name in todo ==> Held(name) == old(Held(name))
        invariant forall name | name !in todo ::
          Held(name) == (if old(Held(name)).Some? && Stale(old(Held(name)).value, now) then None else old(Held(name)))
      {
        var name :| name in todo;
        if now - buckets[name].lastRefill > STALE_MS {
          buckets := buckets - {name};
        }
        todo := todo - {name};
      }
    }
  }

  // ---- Histories of one bucket ----------------------------------------------------------------

  datatype Kind = Take | Look | Clean

  /** A call for the name, or a cleanup pass, at its time. */
  datatype Call = Call(kind: Kind, at: real)

  function Apply(l: Limits, b: Option<Bucket>, c: Call): (Option<Bucket>, bool) {
    match c.kind
    case Take => Consumed(l, b, c.at)
    case Look => Peeked(l, b, c.at)
    case Clean => (if b.Some? && Stale(b.value, c.at) then None else b, true)
  }

  function BucketAfter(l: Limits, calls: seq<Call>): Option<Bucket> {
    if calls == [] then None else Apply(l, BucketAfter(l, calls[..|calls| - 1]), calls[|calls| - 1]).0
  }

  /** Whether call `i` was let through. */
  function Outcome(l: Limits, calls: seq<Call>, i: nat): bool
    requires i < |calls|
  {
    Apply(l, BucketAfter(l, calls[..i]), calls[i]).1
  }

  ghost predicate Monotone(calls: seq<Call>) {
    forall i, j :: 0 <= i <= j < |calls| ==> calls[i].at <= calls[j].at
  }

  ghost predicate NoCleanup(calls: seq<Call>) {
    forall i :: 0 <= i < |calls| ==> calls[i].kind != Clean
  }

  /** How many `consume` calls were admitted in the closed interval. */
  ghost function Admitted(l: Limits, calls: seq<Call>, from: real, to: real): nat {
    if calls == [] then 0
    else
      var n := |calls| - 1;
      Admitted(l, calls[..n], from, to)
      + (if calls[n].kind == Take && from <= calls[n].at <= to && Outcome(l, calls, n) then 1 else 0)
  }

  ghost predicate LimitsOk(l: Limits) {
    l.max > 0.0 && (l.Limits? ==> l.rate >= 0.0)
  }

  /** A bucket left alone until it is stale has filled up. */
  ghost predicate FillsInTime(l: Limits) {
    l.Limits? ==> l.rate * STALE_MS >= l.max + 1.0 - EPSILON
  }

  /** Tokens stay above -1, by the epsilon below which nothing is admitted, and never exceed the burst. */
  ghost predicate BucketOk(l: Limits, b: Option<Bucket>) {
    b.Some? ==>
      -1.0 < b.value.tokens <= l.max && (l.max >= EPSILON ==> EPSILON - 1.0 <= b.value.tokens)
  }

  lemma Scale(rate: real, a: real, b: real)
    requires rate >= 0.0 && a <= b
    ensures rate * a <= rate * b
    ensures rate * (b - a) == rate * b - rate * a && rate * (b - a) >= 0.0
  {
  }

  lemma RefillBounds(l: Limits, b: Bucket, now: real)
    requires LimitsOk(l) && BucketOk(l, Some(b)) && b.lastRefill <= now
    ensures var r := Refill(l, b, now);
      && b.tokens <= r.tokens <= l.max && r.lastRefill == now
      && (l.Limits? ==> r.tokens <= b.tokens + l.rate * (now - b.lastRefill))
  {
    if l.Limits? {
      var gain := (now - b.lastRefill) * l.rate;
      Scale(l.rate, b.lastRefill, now);
      assert gain == l.rate * (now - b.lastRefill);
      assert Refill(l, b, now).tokens == if now == b.lastRefill then b.tokens else Min(l.max, b.tokens + gain);
    }
  }

  lemma {:induction false} BucketInvariant(l: Limits, calls: seq<Call>)
    requires LimitsOk(l) && Monotone(calls)
    ensures BucketOk(l, BucketAfter(l, calls))
    ensures BucketAfter(l, calls).Some? ==>
      calls != [] && BucketAfter(l, calls).value.lastRefill <= calls[|calls| - 1].at
  {
    if calls != [] {
      var n := |calls| - 1;
      BucketInvariant(l, calls[..n]);
      var b := BucketAfter(l, calls[..n]);
      if b.Some? {
        assert calls[..n][n - 1].at <= calls[n].at;
        RefillBounds(l, b.value, calls[n].at);
      }
    }
  }

  /** The bucket's side of the bound: a count and the tokens left are covered by the burst and the refill. */
  ghost predicate Covered(l: Limits, b: Option<Bucket>, count: nat, from: real)
    requires l.Limits?
  {
    if b.None? || b.value.lastRefill < from then count == 0
    else count as real + b.value.tokens <= l.max + l.rate * (b.value.lastRefill - from)
  }

  lemma RefillCovered(l: Limits, b: Bucket, now: real, count: nat, from: real)
    requires l.Limits? && LimitsOk(l) && BucketOk(l, Some(b)) && b.lastRefill <= now && Covered(l, Some(b), count, from)
    ensures Covered(l, Some(Refill(l, b, now)), count, from)
  {
    RefillBounds(l, b, now);
    if from <= b.lastRefill {
      Scale(l.rate, b.lastRefill - from, now - from);
      assert l.rate * ((now - from) - (b.lastRefill - from)) == l.rate * (now - b.lastRefill);
    } else if from <= now {
      Scale(l.rate, from, now);
    }
  }

  lemma CallCovered(l: Limits, b: Option<Bucket>, c: Call, count: nat, from: real)
    requires l.Limits? && LimitsOk(l) && BucketOk(l, b) && (b.Some? ==> b.value.lastRefill <= c.at) && c.kind != Clean
    requires Covered(l, b, count, from)
    ensures var (b', admitted) := Apply(l, b, c);
      Covered(l, b', count + (if c.kind == Take && from <= c.at && admitted then 1 else 0), from)
  {
    if b.Some? {
      RefillBounds(l, b.value, c.at);
      RefillCovered(l, b.value, c.at, count, from);
    } else if from <= c.at {
      Scale(l.rate, from, c.at);
    }
  }

  /** What an interval has admitted so far is covered. */
  lemma {:induction false} Budget(l: Limits, calls: seq<Call>, from: real, to: real)
    requires l.Limits? && LimitsOk(l) && Monotone(calls) && NoCleanup(calls) && from <= to
    requires forall i :: 0 <= i < |calls| ==> calls[i].at <= to
    ensures Covered(l, BucketAfter(l, calls), Admitted(l, calls, from, to), from)
  {
    hide Covered, Apply, BucketOk;
    if calls == [] {
      assert Covered(l, None, 0, from) by { NothingCovered(l, from); }
    } else {
      var n := |calls| - 1;
      Budget(l, calls[..n], from, to);
      BucketInvariant(l, calls[..n]);
      CallCovered(l, BucketAfter(l, calls[..n]), calls[n], Admitted(l, calls[..n], from, to), from);
    }
  }

  lemma NothingCovered(l: Limits, from: real)
    requires l.Limits?
    ensures Covered(l, None, 0, from)
  {
  }

  /** The calls up to `to` are the first `k`, and only they count. */
  ghost predicate CutsAt(l: Limits, calls: seq<Call>, from: real, to: real, k: int) {
    && 0 <= k <= |calls| && Admitted(l, calls, from, to) == Admitted(l, calls[..k], from, to)
    && forall i :: 0 <= i < k ==> calls[i].at <= to
  }

  lemma {:induction false} AdmittedPrefix(l: Limits, calls: seq<Call>, from: real, to: real)
    requires Monotone(calls)
    ensures exists k :: CutsAt(l, calls, from, to, k)
  {
    hide Admitted;
    if calls == [] || calls[|calls| - 1].at <= to {
      assert calls[..|calls|] == calls;
      assert CutsAt(l, calls, from, to, |calls|);
    } else {
      var n := |calls| - 1;
      AdmittedPrefix(l, calls[..n], from, to);
      var k :| CutsAt(l, calls[..n], from, to, k);
      assert calls[..n][..k] == calls[..k];
      LateCallIsNotCounted(l, calls, from, to);
      assert CutsAt(l, calls, from, to, k) by {
        assert forall i :: 0 <= i < k ==> calls[..n][i] == calls[i];
      }
    }
  }

  lemma LateCallIsNotCounted(l: Limits, calls: seq<Call>, from: real, to: real)
    requires calls != [] && to < calls[|calls| - 1].at
    ensures Admitted(l, calls, from, to) == Admitted(l, calls[..|calls| - 1], from, to)
  {
  }

  lemma CoveredBound(l: Limits, b: Option<Bucket>, count: nat, from: real, to: real)
    requires l.Limits? && LimitsOk(l) && BucketOk(l, b) && Covered(l, b, count, from) && from <= to
    requires b.Some? ==> b.value.lastRefill <= to
    ensures count as real < l.max + 1.0 + l.rate * (to - from)
  {
    Scale(l.rate, from, to);
    if b.Some? && from <= b.value.lastRefill {
      Scale(l.rate, b.value.lastRefill - from, to - from);
    }
  }

  /**
   * The limiter's bound: over any history of `consume` and `canConsume` calls with a monotone clock, the
   * calls admitted in any interval number strictly fewer than the burst plus one plus the refill.
   */
  lemma AdmissionBound(l: Limits, calls: seq<Call>, from: real, to: real)
    requires l.Limits? && LimitsOk(l) && Monotone(calls) && NoCleanup(calls) && from <= to
    ensures Admitted(l, calls, from, to) as real < l.max + 1.0 + l.rate * (to - from)
  {
    hide Apply, BucketAfter, Admitted, Monotone, Covered, BucketOk;
    AdmittedPrefix(l, calls, from, to);
    var k :| CutsAt(l, calls, from, to, k);
    PrefixMonotone(calls, k);
    Budget(l, calls[..k], from, to);
    BucketInvariant(l, calls[..k]);
    CoveredBound(l, BucketAfter(l, calls[..k]), Admitted(l, calls[..k], from, to), from, to);
  }

  ghost predicate Bounded(l: Limits, calls: seq<Call>, from: real, to: real)
    requires l.Limits?
  {
    Monotone(calls) && NoCleanup(calls) && from <= to ==>
      Admitted(l, calls, from, to) as real < l.max + 1.0 + l.rate * (to - from)
  }

  ghost predicate AlwaysBounded(l: Limits)
    requires l.Limits?
  {
    forall calls, from, to :: Bounded(l, calls, from, to)
  }

  /** For `maxRequests` per window the bound holds of every history exactly if `maxRequests` is positive. */
  lemma BoundNeedsPositiveBurst(maxRequests: real, windowMs: real)
    requires windowMs > 0.0
    ensures maxRequests > 0.0 <==> AlwaysBounded(Limits(maxRequests, maxRequests / windowMs))
  {
    var l := Limits(maxRequests, maxRequests / windowMs);
    if maxRequests > 0.0 {
      RateIsPositive(maxRequests, windowMs);
      forall calls, from, to ensures Bounded(l, calls, from, to) {
        if Monotone(calls) && NoCleanup(calls) && from <= to {
          AdmissionBound(l, calls, from, to);
        }
      }
    } else {
      FirstCallBreaksBound(l);
      assert !Bounded(l, [Call(Take, 0.0)], 0.0, 0.0);
    }
  }

  lemma RateIsPositive(maxRequests: real, windowMs: real)
    requires windowMs > 0.0 && maxRequests > 0.0
    ensures maxRequests / windowMs >= 0.0
  {
  }

  lemma FirstCallBreaksBound(l: Limits)
    requires l.Limits? && l.max <= 0.0
    ensures !Bounded(l, [Call(Take, 0.0)], 0.0, 0.0)
  {
    var calls := [Call(Take, 0.0)];
    assert calls[..0] == [];
    assert Outcome(l, calls, 0);
    assert Admitted(l, calls, 0.0, 0.0) == Admitted(l, [], 0.0, 0.0) + 1;
    assert l.rate * (0.0 - 0.0) == 0.0;
  }

  // ---- Nothing is refused without need --------------------------------------------------------

  /** What a span refills, a window of zero having refilled the moment it begins. */
  function Gain(l: Limits, span: real): real {
    if l.Instant? then 0.0 else l.rate * span
  }

  /** Since `from` the bucket has given no more than what it held then and has gained. */
  ghost predicate Earned(l: Limits, calls: seq<Call>, from: real) {
    BucketAfter(l, calls).Some? ==>
      var b := BucketAfter(l, calls).value;
      && calls != [] && b.lastRefill == calls[|calls| - 1].at && from <= b.lastRefill
      && (l.Instant? ==> from == b.lastRefill)
      && b.tokens >= l.max + Gain(l, b.lastRefill - from) - Admitted(l, calls, from, b.lastRefill) as real
  }

  lemma {:induction false} NoneAdmittedBefore(l: Limits, calls: seq<Call>, from: real, to: real)
    requires forall i :: 0 <= i < |calls| ==> calls[i].at < from
    ensures Admitted(l, calls, from, to) == 0
  {
    if calls != [] {
      NoneAdmittedBefore(l, calls[..|calls| - 1], from, to);
    }
  }

  lemma {:induction false} NoneAdmittedYet(l: Limits, calls: seq<Call>, from: real, to: real)
    requires NoCleanup(calls) && BucketAfter(l, calls).None?
    ensures Admitted(l, calls, from, to) == 0
  {
    if calls != [] {
      var n := |calls| - 1;
      assert calls[..n] + [calls[n]] == calls;
      NoneAdmittedYet(l, calls[..n], from, to);
    }
  }

  /** The interval may as well end later than the last call. */
  lemma {:induction false} AdmittedUntil(l: Limits, calls: seq<Call>, from: real, to: real, later: real)
    requires to <= later && forall i :: 0 <= i < |calls| ==> calls[i].at <= to
    ensures Admitted(l, calls, from, to) == Admitted(l, calls, from, later)
  {
    if calls != [] {
      AdmittedUntil(l, calls[..|calls| - 1], from, to, later);
    }
  }

  /** A refill keeps the account: a bucket it fills starts a new one. */
  lemma RefillEarned(l: Limits, calls: seq<Call>, from: real, now: real) returns (since: real)
    requires Earned(l, calls, from) && BucketAfter(l, calls).Some?
    requires forall i :: 0 <= i < |calls| ==> calls[i].at <= calls[|calls| - 1].at <= now
    ensures var full := Refill(l, BucketAfter(l, calls).value, now);
      && since <= now && (l.Instant? ==> since == now) && full.lastRefill == now
      && full.tokens >= l.max + Gain(l, now - since) - Admitted(l, calls, since, now) as real
  {
    hide Admitted, BucketAfter;
    var b := BucketAfter(l, calls).value;
    if now == b.lastRefill {
      since := from;
    } else if l.Instant? || l.max <= b.tokens + (now - b.lastRefill) * l.rate {
      since := now;
      NoneAdmittedBefore(l, calls, now, now);
      assert Gain(l, 0.0) == 0.0;
    } else {
      since := from;
      AdmittedUntil(l, calls, from, b.lastRefill, now);
      assert l.rate * (now - from) == l.rate * (b.lastRefill - from) + (now - b.lastRefill) * l.rate;
    }
  }

  lemma {:induction false} EarnedSince(l: Limits, calls: seq<Call>) returns (from: real)
    requires Monotone(calls) && NoCleanup(calls)
    ensures Earned(l, calls, from)
  {
    if calls == [] {
      from := 0.0;
    } else {
      var n := |calls| - 1;
      from := EarnedSince(l, calls[..n]);
      if BucketAfter(l, calls[..n]).Some? {
        from := RefillEarned(l, calls[..n], from, calls[n].at);
      } else {
        from := calls[n].at;
        NoneAdmittedYet(l, calls[..n], from, from);
        assert Gain(l, 0.0) == 0.0;
      }
    }
  }

  /**
   * The limiter refuses only what the limit demands: a call is refused only if some interval ending with it has
   * admitted, up to the epsilon, the burst and all that was refilled in it.
   */
  lemma RefusalIsNeeded(l: Limits, calls: seq<Call>, i: nat) returns (from: real)
    requires Monotone(calls) && NoCleanup(calls) && i < |calls| && !Outcome(l, calls, i)
    ensures from <= calls[i].at
    ensures Admitted(l, calls[..i], from, calls[i].at) as real >
      l.max - EPSILON + if l.Instant? then 0.0 else l.rate * (calls[i].at - from)
  {
    hide Admitted, BucketAfter;
    from := EarnedSince(l, calls[..i]);
    from := RefillEarned(l, calls[..i], from, calls[i].at);
  }

  /** `canConsume` foretells: it says of any moment what `consume` would have answered. */
  lemma LookForetells(l: Limits, calls: seq<Call>, at: real)
    ensures Outcome(l, calls + [Call(Look, at)], |calls|) == Outcome(l, calls + [Call(Take, at)], |calls|)
  {
    assert (calls + [Call(Look, at)])[..|calls|] == calls == (calls + [Call(Take, at)])[..|calls|];
  }

  // ---- Observation and cleanup are invisible --------------------------------------------------

  lemma RefillTwice(l: Limits, b: Bucket, first: real, second: real)
    requires (l.Limits? ==> l.rate >= 0.0) && b.tokens <= l.max && first <= second
    ensures Refill(l, Refill(l, b, first), second) == Refill(l, b, second)
  {
    if l.Limits? && b.lastRefill < first < second {
      assert (first - b.lastRefill) * l.rate + (second - first) * l.rate == (second - b.lastRefill) * l.rate;
      assert (second - first) * l.rate >= 0.0;
    }
  }

  /** A look leaves a bucket that behaves, in every later call, like the one it found. */
  lemma LookThenCall(l: Limits, b: Option<Bucket>, look: real, c: Call)
    requires LimitsOk(l) && BucketOk(l, b) && look <= c.at && c.kind != Clean
    ensures Apply(l, Peeked(l, b, look).0, c) == Apply(l, b, c)
  {
    if b.Some? {
      RefillTwice(l, b.value, look, c.at);
    }
  }

  ghost predicate LastOutcomeIs(l: Limits, calls: seq<Call>, other: seq<Call>)
    requires calls != [] && other != []
  {
    Outcome(l, calls, |calls| - 1) == Outcome(l, other, |other| - 1)
  }

  lemma PrefixMonotone(calls: seq<Call>, n: nat)
    requires n <= |calls| && Monotone(calls)
    ensures Monotone(calls[..n])
  {
  }

  lemma Extend(l: Limits, calls: seq<Call>, c: Call)
    requires Monotone(calls) && (calls != [] ==> calls[|calls| - 1].at <= c.at)
    ensures Monotone(calls + [c]) && Outcome(l, calls + [c], |calls|) == Apply(l, BucketAfter(l, calls), c).1
    ensures BucketAfter(l, calls + [c]) == Apply(l, BucketAfter(l, calls), c).0
    ensures NoCleanup(calls) && c.kind != Clean ==> NoCleanup(calls + [c])
  {
    hide Apply;
    assert (calls + [c])[..|calls|] == calls;
  }

  /** A look right before the last call. */
  lemma LookBeforeLast(l: Limits, a: seq<Call>, look: Call, last: Call)
    requires LimitsOk(l) && look.kind == Look && last.kind != Clean && Monotone(a)
    requires (a != [] ==> a[|a| - 1].at <= look.at) && look.at <= last.at
    ensures BucketAfter(l, a + [look] + [last]) == BucketAfter(l, a + [last])
    ensures LastOutcomeIs(l, a + [look] + [last], a + [last])
  {
    hide Apply, BucketOk, Monotone, BucketAfter, Outcome;
    BucketInvariant(l, a);
    LookThenCall(l, BucketAfter(l, a), look.at, last);
    LookApplies(l, a, look);
    Extend(l, a, look);
    Extend(l, a + [look], last);
    Extend(l, a, last);
  }

  lemma LastInOrder(a: seq<Call>, look: Call, last: Call)
    requires Monotone(a + [look] + [last])
    ensures (a != [] ==> a[|a| - 1].at <= look.at) && look.at <= last.at
  {
    var long := a + [look] + [last];
    assert long[|a|] == look && long[|a| + 1] == last;
    assert a != [] ==> long[|a| - 1] == a[|a| - 1];
  }

  /** Inserting a `canConsume` anywhere in a history changes the outcome of no later call. */
  lemma {:induction false} LooksAreInvisible(l: Limits, a: seq<Call>, look: Call, b: seq<Call>)
    requires LimitsOk(l) && look.kind == Look && b != []
    requires Monotone(a + [look] + b) && NoCleanup(a + b)
    ensures BucketAfter(l, a + [look] + b) == BucketAfter(l, a + b)
    ensures LastOutcomeIs(l, a + [look] + b, a + b)
  {
    hide Apply, BucketOk, Monotone, BucketAfter, Outcome, NoCleanup;
    var m := |b| - 1;
    var shorter, last := b[..m], b[m];
    var long, short := a + [look] + b, a + b;
    LastIsNoCleanup(short);
    PrefixMonotone(long, |a|);
    assert long[..|a|] == a && short[|short| - 1] == last;
    if m == 0 {
      assert b == [last];
      LastInOrder(a, look, last);
      LookBeforeLast(l, a, look, last);
    } else {
      assert long[..|long| - 1] == a + [look] + shorter && short[..|short| - 1] == a + shorter;
      PrefixMonotone(long, |long| - 1);
      LooksAreInvisible(l, a, look, shorter);
      OneMoreCall(l, a + [look] + shorter, a + shorter, last);
      assert long == a + [look] + shorter + [last] && short == a + shorter + [last];
    }
  }

  lemma LastIsNoCleanup(calls: seq<Call>)
    requires NoCleanup(calls) && calls != []
    ensures calls[|calls| - 1].kind != Clean && NoCleanup(calls[..|calls| - 1])
  {
  }

  /** Histories that leave the same bucket go on alike. */
  lemma OneMoreCall(l: Limits, a: seq<Call>, b: seq<Call>, c: Call)
    requires BucketAfter(l, a) == BucketAfter(l, b)
    ensures BucketAfter(l, a + [c]) == BucketAfter(l, b + [c]) && LastOutcomeIs(l, a + [c], b + [c])
  {
    hide Apply;
    assert (a + [c])[..|a|] == a && (b + [c])[..|b|] == b;
  }

  lemma LookApplies(l: Limits, a: seq<Call>, look: Call)
    requires look.kind == Look
    ensures Apply(l, BucketAfter(l, a), look) == Peeked(l, BucketAfter(l, a), look.at)
  {
  }

  function WithoutCleanup(calls: seq<Call>): seq<Call> {
    if calls == [] then []
    else
      var n := |calls| - 1;
      WithoutCleanup(calls[..n]) + (if calls[n].kind == Clean then [] else [calls[n]])
  }

  /** Every stale bucket has refilled completely, as a dropped one would appear when next used. */
  ghost predicate StaleMeansFull(l: Limits) {
    forall b: Bucket, now :: BucketOk(l, Some(b)) && Stale(b, now) ==> Refill(l, b, now).tokens == l.max
  }

  /** The exact condition, on the limiter's parameters, under which dropping stale buckets is harmless. */
  lemma StaleMeansFullExactly(l: Limits)
    requires LimitsOk(l) && l.max >= EPSILON
    ensures StaleMeansFull(l) <==> FillsInTime(l)
  {
    hide Refill, Stale, BucketOk;
    if FillsInTime(l) {
      forall b: Bucket, now | BucketOk(l, Some(b)) && Stale(b, now) ensures Refill(l, b, now).tokens == l.max {
        LongIdleFills(l, b, now);
      }
    } else {
      var b, now := StaleButNotFull(l);
      assert BucketOk(l, Some(b)) && Stale(b, now);
    }
  }

  lemma LongIdleFills(l: Limits, b: Bucket, now: real)
    requires LimitsOk(l) && l.max >= EPSILON && FillsInTime(l)
    requires BucketOk(l, Some(b)) && Stale(b, now)
    ensures Refill(l, b, now).tokens == l.max
  {
    var idle := now - b.lastRefill;
    if l.Limits? {
      Scale(l.rate, STALE_MS, idle);
      assert idle * l.rate == l.rate * idle;
    }
  }

  /** The emptiest bucket, looked at just after it turns stale. */
  lemma StaleButNotFull(l: Limits) returns (b: Bucket, now: real)
    requires LimitsOk(l) && l.max >= EPSILON && !FillsInTime(l)
    ensures BucketOk(l, Some(b)) && Stale(b, now) && Refill(l, b, now).tokens < l.max
  {
    b := Bucket(EPSILON - 1.0, 0.0);
    var extra := ShortWait(l.rate, l.max + 1.0 - EPSILON - l.rate * STALE_MS);
    now := STALE_MS + extra;
    assert now * l.rate == l.rate * STALE_MS + extra * l.rate;
    assert (now - 0.0) * l.rate == now * l.rate;
  }

  lemma ShortWait(rate: real, gap: real) returns (extra: real)
    requires rate >= 0.0 && gap > 0.0
    ensures extra > 0.0 && extra * rate < gap
  {
    if rate == 0.0 {
      extra := 1.0;
    } else {
      extra := gap / (2.0 * rate);
      assert extra * rate == gap / 2.0;
    }
  }

  /** A dropped bucket and the kept one it stands for. */
  ghost predicate Alike(l: Limits, kept: Option<Bucket>, dropped: Option<Bucket>, now: real) {
    || kept == dropped
    || (dropped.None? && kept.Some? && kept.value.lastRefill <= now
        && forall t :: now <= t ==> Refill(l, kept.value, t).tokens == l.max)
  }

  lemma AlikeStep(l: Limits, kept: Option<Bucket>, dropped: Option<Bucket>, now: real, c: Call)
    requires LimitsOk(l) && l.max >= EPSILON && StaleMeansFull(l) && BucketOk(l, kept)
    requires Alike(l, kept, dropped, now) && now <= c.at
    requires kept.Some? ==> kept.value.lastRefill <= now
    ensures c.kind != Clean ==>
      && Apply(l, kept, c).1 == Apply(l, dropped, c).1
      && Alike(l, Apply(l, kept, c).0, Apply(l, dropped, c).0, c.at)
    ensures c.kind == Clean ==> Alike(l, kept, Apply(l, dropped, c).0, c.at)
  {
    if c.kind == Clean {
      if kept == dropped && kept.Some? && Stale(kept.value, c.at) {
        forall t | c.at <= t ensures Refill(l, kept.value, t).tokens == l.max {
          assert Stale(kept.value, t);
        }
      }
    } else if kept != dropped {
      RefillBounds(l, kept.value, c.at);
      if c.kind == Look {
        forall t | c.at <= t ensures Refill(l, Refill(l, kept.value, c.at), t).tokens == l.max {
          RefillTwice(l, kept.value, c.at, t);
        }
      }
    }
  }

  lemma {:induction false} WithoutCleanupIsMonotone(calls: seq<Call>)
    requires Monotone(calls)
    ensures Monotone(WithoutCleanup(calls))
    ensures forall c :: c in WithoutCleanup(calls) ==> calls != [] && c.at <= calls[|calls| - 1].at
  {
    if calls != [] {
      var n := |calls| - 1;
      WithoutCleanupIsMonotone(calls[..n]);
      LastIsLatest(calls, n);
      assert forall c :: c in WithoutCleanup(calls[..n]) ==> c.at <= calls[n].at;
      MonotoneAppend(WithoutCleanup(calls[..n]), calls[n]);
      assert WithoutCleanup(calls) == WithoutCleanup(calls[..n]) + (if calls[n].kind == Clean then [] else [calls[n]]);
    }
  }

  /**
   * If `windowMs * (maxRequests + 1 - EPSILON) <= 600000 * maxRequests`, deleting stale buckets changes no
   * outcome: the last call of every history answers as it does in the history without the cleanup passes.
   */
  lemma {:induction false} CleanupIsInvisible(l: Limits, calls: seq<Call>)
    requires LimitsOk(l) && l.max >= EPSILON && FillsInTime(l)
    requires Monotone(calls) && calls != []
    ensures Alike(l, BucketAfter(l, WithoutCleanup(calls)), BucketAfter(l, calls), calls[|calls| - 1].at)
    ensures calls[|calls| - 1].kind != Clean ==>
      WithoutCleanup(calls) != [] && LastOutcomeIs(l, calls, WithoutCleanup(calls))
  {
    hide Apply, BucketOk, Alike, StaleMeansFull, Monotone, Refill, Stale, BucketAfter, WithoutCleanup, Outcome;
    var n := |calls| - 1;
    var before, c := calls[..n], calls[n];
    var kept := WithoutCleanup(before);
    var now := if n == 0 then c.at else before[n - 1].at;
    StaleMeansFullExactly(l);
    PrefixMonotone(calls, n);
    LastIsLatest(calls, n);
    if n > 0 {
      CleanupIsInvisible(l, before);
    } else {
      NothingAlike(l, now);
    }
    WithoutCleanupIsMonotone(before);
    BucketInvariant(l, kept);
    assert kept != [] ==> kept[|kept| - 1] in kept;
    AlikeStep(l, BucketAfter(l, kept), BucketAfter(l, before), now, c);
    LastCall(l, calls);
  }

  /** The last call, as it acts on the full history's bucket and on the one without cleanup passes. */
  lemma LastCall(l: Limits, calls: seq<Call>)
    requires calls != []
    ensures var n := |calls| - 1;
      var c, kept, all := calls[n], WithoutCleanup(calls[..n]), WithoutCleanup(calls);
      && BucketAfter(l, calls) == Apply(l, BucketAfter(l, calls[..n]), c).0
      && (c.kind == Clean ==> all == kept)
      && (c.kind != Clean ==>
        && all != [] && BucketAfter(l, all) == Apply(l, BucketAfter(l, kept), c).0
        && Outcome(l, all, |all| - 1) == Apply(l, BucketAfter(l, kept), c).1
        && Outcome(l, calls, n) == Apply(l, BucketAfter(l, calls[..n]), c).1)
  {
    hide Apply;
    var n := |calls| - 1;
    var kept, c := WithoutCleanup(calls[..n]), calls[n];
    if c.kind != Clean {
      var all := kept + [c];
      assert WithoutCleanup(calls) == all && all[..|kept|] == kept && all[|kept|] == c;
    } else {
      assert WithoutCleanup(calls) == kept;
    }
  }

  lemma LastIsLatest(calls: seq<Call>, n: nat)
    requires Monotone(calls) && n + 1 == |calls|
    ensures n > 0 ==> calls[..n][n - 1].at <= calls[n].at
  {
  }

  lemma MonotoneAppend(calls: seq<Call>, c: Call)
    requires Monotone(calls) && forall k :: k in calls ==> k.at <= c.at
    ensures Monotone(calls + [c])
  {
  }

  lemma NothingAlike(l: Limits, now: real)
    ensures Alike(l, None, None, now)
  {
  }

  // ---- When cleanup shows ---------------------------------------------------------------------

  /** A history that has left its bucket with `x` tokens at its last call, made at `t`. */
  ghost predicate LeftWith(l: Limits, calls: seq<Call>, x: real, t: real) {
    && calls != [] && Monotone(calls) && calls[|calls| - 1].at == t
    && BucketAfter(l, calls) == Some(Bucket(x, t))
  }

  /** How many whole tokens are left. */
  function Whole(x: real): nat {
    if x < EPSILON then 0 else x.Floor + 1
  }

  lemma TakeAtOnce(l: Limits, x: real, t: real)
    requires x >= EPSILON
    ensures Apply(l, Some(Bucket(x, t)), Call(Take, t)) == (Some(Bucket(x - 1.0, t)), true)
  {
  }

  lemma {:induction false} Drain(l: Limits, calls: seq<Call>, x: real, t: real) returns (drained: seq<Call>, rest: real)
    requires LeftWith(l, calls, x, t) && NoCleanup(calls)
    ensures LeftWith(l, drained, rest, t) && NoCleanup(drained) && rest < EPSILON
    decreases Whole(x)
  {
    hide Apply, BucketAfter, Outcome, Monotone, NoCleanup;
    if x < EPSILON {
      drained, rest := calls, x;
    } else {
      Extend(l, calls, Call(Take, t));
      TakeAtOnce(l, x, t);
      drained, rest := Drain(l, calls + [Call(Take, t)], x - 1.0, t);
    }
  }

  /** A request made the moment the next token is there takes it whole. */
  lemma TakeOnRefill(l: Limits, x: real, t: real) returns (at: real)
    requires l.Limits? && l.rate > 0.0 && x < EPSILON <= l.max
    ensures at >= t && Apply(l, Some(Bucket(x, t)), Call(Take, at)) == (Some(Bucket(EPSILON - 1.0, at)), true)
    ensures forall y :: y < x ==> !Apply(l, Some(Bucket(y, t)), Call(Take, at)).1
  {
    var wait := (EPSILON - x) / l.rate;
    at := t + wait;
    Quotient(EPSILON - x, l.rate);
    assert at - t == wait && wait * l.rate == EPSILON - x && (at - t) * l.rate == EPSILON - x;
    assert Refill(l, Bucket(x, t), at) == Bucket(EPSILON, at);
    forall y | y < x ensures !Apply(l, Some(Bucket(y, t)), Call(Take, at)).1 {
      assert Refill(l, Bucket(y, t), at) == Bucket(Min(l.max, y + (at - t) * l.rate), at);
    }
  }

  /** A history after which the bucket is as empty as it can get; without refill, merely empty. */
  lemma Exhaust(l: Limits) returns (calls: seq<Call>, x: real, t: real)
    requires l.Limits? && LimitsOk(l) && l.max >= EPSILON
    ensures LeftWith(l, calls, x, t) && NoCleanup(calls)
    ensures if l.rate == 0.0 then x < EPSILON else x == EPSILON - 1.0
  {
    var first := [Call(Take, 0.0)];
    assert first == [] + [Call(Take, 0.0)];
    assert BucketAfter(l, []) == None && Monotone([]) && NoCleanup([]);
    assert Apply(l, None, Call(Take, 0.0)).0 == Some(Bucket(l.max - 1.0, 0.0));
    Extend(l, [], Call(Take, 0.0));
    hide Apply, BucketAfter, Outcome, Monotone, NoCleanup;
    calls, x := Drain(l, first, l.max - 1.0, 0.0);
    t := 0.0;
    if l.rate != 0.0 {
      var at := TakeOnRefill(l, x, t);
      Extend(l, calls, Call(Take, at));
      calls, x, t := calls + [Call(Take, at)], EPSILON - 1.0, at;
    }
  }

  lemma Quotient(a: real, b: real)
    requires a > 0.0 && b > 0.0
    ensures a / b > 0.0
  {
  }

  ghost predicate TakesFrom(calls: seq<Call>, t: real) {
    NoCleanup(calls) && Monotone(calls) && forall c :: c in calls ==> c.at >= t
  }

  /** Calls that two buckets with unequal tokens answer differently in the end. */
  lemma {:induction false} Distinguish(l: Limits, p: seq<Call>, x: real, q: seq<Call>, y: real, t: real)
    returns (b: seq<Call>)
    requires LimitsOk(l) && l.Limits? && l.rate > 0.0 && l.max >= EPSILON && x < y <= l.max
    requires LeftWith(l, p, x, t) && LeftWith(l, q, y, t)
    ensures b != [] && TakesFrom(b, t) && !LastOutcomeIs(l, p + b, q + b)
    decreases Whole(y)
  {
    hide Apply, BucketAfter, Outcome, Monotone, NoCleanup;
    if x < EPSILON {
      var at := AnswersDiffer(l, x, y, t);
      b := [Call(Take, at)];
      OneTake(at, t);
      Extend(l, p, b[0]);
      Extend(l, q, b[0]);
    } else {
      var c := Call(Take, t);
      Extend(l, p, c);
      Extend(l, q, c);
      TakeAtOnce(l, x, t);
      TakeAtOnce(l, y, t);
      var rest := Distinguish(l, p + [c], x - 1.0, q + [c], y - 1.0, t);
      b := [c] + rest;
      FirstTake(rest, t);
      assert p + b == p + [c] + rest && q + b == q + [c] + rest;
    }
  }

  lemma OneTake(at: real, t: real)
    requires at >= t
    ensures TakesFrom([Call(Take, at)], t)
  {
  }

  lemma FirstTake(rest: seq<Call>, t: real)
    requires TakesFrom(rest, t)
    ensures TakesFrom([Call(Take, t)] + rest, t)
  {
    assert forall i :: 0 <= i < |rest| ==> rest[i] in rest;
  }

  lemma AnswersDiffer(l: Limits, x: real, y: real, t: real) returns (at: real)
    requires l.Limits? && l.rate > 0.0 && l.max >= EPSILON && x < y && x < EPSILON
    ensures at >= t
    ensures !Apply(l, Some(Bucket(x, t)), Call(Take, at)).1 && Apply(l, Some(Bucket(y, t)), Call(Take, at)).1
  {
    if y < EPSILON {
      at := TakeOnRefill(l, y, t);
    } else {
      at := t;
    }
  }

  lemma {:induction false} WithoutCleanupKeeps(calls: seq<Call>)
    requires NoCleanup(calls)
    ensures WithoutCleanup(calls) == calls
  {
    if calls != [] {
      var n := |calls| - 1;
      var before := calls[..n];
      assert calls == before + [calls[n]];
      WithoutCleanupKeeps(before);
      assert WithoutCleanup(calls) == WithoutCleanup(before) + [calls[n]];
    }
  }

  lemma {:induction false} WithoutCleanupDrops(a: seq<Call>, clean: Call, b: seq<Call>)
    requires NoCleanup(a) && clean.kind == Clean && NoCleanup(b)
    ensures WithoutCleanup(a + [clean] + b) == a + b
  {
    var all := a + [clean] + b;
    var n := |all| - 1;
    if b == [] {
      assert all[..n] == a && a + b == a;
      WithoutCleanupKeeps(a);
    } else {
      var m := |b| - 1;
      assert all[..n] == a + [clean] + b[..m] && all[n] == b[m] && a + b == a + b[..m] + [b[m]];
      WithoutCleanupDrops(a, clean, b[..m]);
    }
  }

  /** A history with one cleanup pass whose last answer the pass changes. */
  lemma CleanupShows(l: Limits) returns (calls: seq<Call>)
    requires LimitsOk(l) && l.max >= EPSILON && !FillsInTime(l)
    ensures Monotone(calls) && calls != [] && calls[|calls| - 1].kind != Clean
    ensures WithoutCleanup(calls) != [] && !LastOutcomeIs(l, calls, WithoutCleanup(calls))
  {
    hide Apply, BucketAfter, Outcome, Monotone, WithoutCleanup;
    var a, x, t := Exhaust(l);
    var extra := ShortWait(l.rate, l.max + 1.0 - EPSILON - l.rate * STALE_MS);
    var at := t + STALE_MS + extra;
    var clean, take := Call(Clean, at), Call(Take, at);
    var full := Refill(l, Bucket(x, t), at).tokens;
    IdleTooShort(l, x, t, at, extra);
    Extend(l, a, clean);
    Extend(l, a, take);
    Extend(l, a + [clean], take);
    CleanThenTake(l, Bucket(x, t), at);
    var kept, dropped := a + [take], a + [clean] + [take];
    assert kept[|kept| - 1] == take && dropped[|dropped| - 1] == take;
    var b := [];
    if full >= EPSILON {
      b := Distinguish(l, kept, full - 1.0, dropped, l.max - 1.0, at);
    } else {
      assert kept + b == kept && dropped + b == dropped;
    }
    calls := a + [clean] + ([take] + b);
    assert calls == dropped + b && a + ([take] + b) == kept + b;
    WithoutCleanupDrops(a, clean, [take] + b);
    Joined(dropped, b, at);
  }

  lemma Joined(calls: seq<Call>, b: seq<Call>, at: real)
    requires Monotone(calls) && calls != [] && calls[|calls| - 1].at == at && (b == [] || TakesFrom(b, at))
    ensures Monotone(calls + b)
  {
    assert forall i :: 0 <= i < |b| ==> b[i] in b;
    assert forall i :: 0 <= i < |calls| ==> calls[i].at <= at;
  }

  lemma IdleTooShort(l: Limits, x: real, t: real, at: real, extra: real)
    requires l.Limits? && LimitsOk(l) && l.max >= EPSILON && at == t + STALE_MS + extra && extra > 0.0
    requires extra * l.rate < l.max + 1.0 - EPSILON - l.rate * STALE_MS
    requires if l.rate == 0.0 then x < EPSILON else x == EPSILON - 1.0
    ensures var full := Refill(l, Bucket(x, t), at).tokens; full < l.max && (full >= EPSILON ==> l.rate > 0.0)
  {
    assert (at - t) * l.rate == l.rate * STALE_MS + extra * l.rate;
  }

  /** After a stale bucket is dropped the next request is admitted from a full one; else it depends. */
  lemma CleanThenTake(l: Limits, b: Bucket, at: real)
    requires Stale(b, at)
    ensures Apply(l, Some(b), Call(Clean, at)).0 == None
    ensures Apply(l, None, Call(Take, at)) == (Some(Bucket(l.max - 1.0, at)), true)
    ensures var full := Refill(l, b, at).tokens;
      Apply(l, Some(b), Call(Take, at)) ==
        (if full < EPSILON then (Some(Bucket(full, at)), false) else (Some(Bucket(full - 1.0, at)), true))
  {
  }

  /** No history's last answer depends on its cleanup passes. */
  ghost predicate CleanupNeverShows(l: Limits) {
    forall calls: seq<Call> :: Monotone(calls) && calls != [] && calls[|calls| - 1].kind != Clean ==>
      WithoutCleanup(calls) != [] && LastOutcomeIs(l, calls, WithoutCleanup(calls))
  }

  /** Deleting stale buckets changes no outcome of any history exactly under the condition on the parameters. */
  lemma CleanupIsInvisibleExactly(l: Limits)
    requires LimitsOk(l) && l.max >= EPSILON
    ensures CleanupNeverShows(l) <==> FillsInTime(l)
  {
    hide WithoutCleanup, LastOutcomeIs, LimitsOk, Alike, BucketAfter;
    if FillsInTime(l) {
      forall calls: seq<Call> | Monotone(calls) && calls != [] && calls[|calls| - 1].kind != Clean
        ensures WithoutCleanup(calls) != [] && LastOutcomeIs(l, calls, WithoutCleanup(calls))
      {
        CleanupIsInvisible(l, calls);
      }
    } else {
      var calls := CleanupShows(l);
    }
  }
}
