/** The circuit breaker, with overlapping calls: a call begins, and succeeds or fails some time later. */
module CircuitBreaking {

  datatype CircuitState = Closed | Open | HalfOpen

  datatype Params = Params(failureThreshold: int, successThreshold: int, resetTimeoutMs: int)

  datatype Breaker = Breaker(state: CircuitState, failures: int, successes: int, lastFailure: int)

  const INITIAL: Breaker := Breaker(Closed, 0, 0, 0)

  function Moved(b: Breaker, state: CircuitState): Breaker {
    if b.state == state then b
    else match state
      case Closed => Breaker(Closed, 0, 0, b.lastFailure)
      case HalfOpen => b.(state := HalfOpen, successes := 0)
      case Open => b.(state := Open)
  }

  /** The start of `execute`: the breaker afterwards, and whether the operation is called. */
  function Begun(p: Params, b: Breaker, now: int): (Breaker, bool) {
    if b.state != Open then (b, true)
    else if now - b.lastFailure >= p.resetTimeoutMs then (Moved(b, HalfOpen), true)
    else (b, false)
  }

  function Succeeded(p: Params, b: Breaker): Breaker {
    match b.state
    case HalfOpen =>
      var counted := b.(successes := b.successes + 1);
      if counted.successes >= p.successThreshold then Moved(counted, Closed) else counted
    case Closed => b.(failures := 0)
    case Open => b
  }

  function Failed(p: Params, b: Breaker, now: int): Breaker {
    var dated := b.(lastFailure := now);
    if b.state == HalfOpen then Moved(dated, Open)
    else
      var counted := dated.(failures := dated.failures + 1);
      if counted.failures >= p.failureThreshold then Moved(counted, Open) else counted
  }

  class CircuitBreaker {
    var state: CircuitState
    var failureCount: int
    var successCount: int
    var lastFailureTime: int
    const params: Params

    constructor (params: Params)
      ensures Value() == INITIAL && this.params == params
    {
      this.params := params;
      state, failureCount, successCount, lastFailureTime := Closed, 0, 0, 0;
    }

    function Value(): Breaker
      reads this
    {
      Breaker(state, failureCount, successCount, lastFailureTime)
    }

    method Transition(newState: CircuitState)
      modifies this
      ensures Value() == Moved(old(Value()), newState)
    {
      if state == newState {
        return;
      }
      state := newState;
      if newState == Closed {
        failureCount := 0;
        successCount := 0;
      } else if newState == HalfOpen {
        successCount := 0;
      }
    }

    method Begin(now: int) returns (admitted: bool)
      modifies this
      ensures (Value(), admitted) == Begun(params, old(Value()), now)
      ensures admitted <==> old(state) != Open || now - lastFailureTime >= params.resetTimeoutMs
      ensures state == if old(state) == Open && admitted then HalfOpen else old(state)
    {
      if state == Open {
        if now - lastFailureTime >= params.resetTimeoutMs {
          Transition(HalfOpen);
        } else {
          return false;
        }
      }
      return true;
    }

    method OnSuccess()
      modifies this
      ensures Value() == Succeeded(params, old(Value()))
      ensures old(state) == HalfOpen ==>
        state == if old(successCount) + 1 >= params.successThreshold then Closed else HalfOpen
      ensures old(state) != HalfOpen ==> state == old(state)
    {
      if state == HalfOpen {
        successCount := successCount + 1;
        if successCount >= params.successThreshold {
          Transition(Closed);
        }
      } else if state == Closed {
        failureCount := 0;
      }
    }

    method OnFailure(now: int)
      modifies this
      ensures Value() == Failed(params, old(Value()), now)
      ensures lastFailureTime == now && (old(state) == HalfOpen ==> state == Open)
      ensures old(state) == Closed ==>
        state == if old(failureCount) + 1 >= params.failureThreshold then Open else Closed
      ensures old(state) == Open ==> state == Open
    {
      lastFailureTime := now;
      if state == HalfOpen {
        Transition(Open);
        return;
      }
      failureCount := failureCount + 1;
      if failureCount >= params.failureThreshold {
        Transition(Open);
      }
    }

    method Reset()
      modifies this
      ensures Value() == Moved(old(Value()), Closed) && state == Closed
    {
      Transition(Closed);
    }
  }

  // ---- Histories ------------------------------------------------------------------------------

  datatype Event = Begin(at: int) | Success | Failure(at: int) | Reset

  function Step(p: Params, b: Breaker, e: Event): Breaker {
    match e
    case Begin(at) => Begun(p, b, at).0
    case Success => Succeeded(p, b)
    case Failure(at) => Failed(p, b, at)
    case Reset => Moved(b, Closed)
  }

  function After(p: Params, events: seq<Event>): Breaker {
    if events == [] then INITIAL else Step(p, After(p, events[..|events| - 1]), events[|events| - 1])
  }

  ghost predicate ThresholdsOk(p: Params) {
    p.failureThreshold >= 1 && p.successThreshold >= 1
  }

  /** The run of failed completions since the last successful one. */
  ghost function FailureRun(events: seq<Event>): nat {
    if events == [] then 0
    else
      var last := events[|events| - 1];
      if last.Success? then 0 else FailureRun(events[..|events| - 1]) + (if last.Failure? then 1 else 0)
  }

  ghost function SuccessCount(events: seq<Event>): nat {
    if events == [] then 0
    else SuccessCount(events[..|events| - 1]) + (if events[|events| - 1].Success? then 1 else 0)
  }

  /** The breaker has been in `state` since it had handled `k` events, and entered it then. */
  ghost predicate InSince(p: Params, events: seq<Event>, k: nat, state: CircuitState) {
    && k <= |events|
    && (forall j :: k <= j <= |events| ==> After(p, events[..j]).state == state)
    && (k > 0 ==> After(p, events[..k - 1]).state != state)
  }

  ghost function LastFailureAt(events: seq<Event>): int {
    if events == [] then 0
    else if events[|events| - 1].Failure? then events[|events| - 1].at
    else LastFailureAt(events[..|events| - 1])
  }

  /** Closed exactly while the failure count is below its threshold; trial successes stay below theirs. */
  lemma {:induction false} CountsStayBelow(p: Params, events: seq<Event>)
    requires ThresholdsOk(p)
    ensures var b := After(p, events);
      && (b.state == Closed <==> b.failures < p.failureThreshold)
      && (b.state == HalfOpen ==> 0 <= b.successes < p.successThreshold)
      && 0 <= b.failures
  {
    if events != [] {
      CountsStayBelow(p, events[..|events| - 1]);
    }
  }

  lemma {:induction false} LastFailureIsKept(p: Params, events: seq<Event>)
    ensures After(p, events).lastFailure == LastFailureAt(events)
  {
    if events != [] {
      LastFailureIsKept(p, events[..|events| - 1]);
    }
  }

  lemma InSincePrefix(p: Params, events: seq<Event>, k: nat, state: CircuitState)
    requires InSince(p, events, k, state) && k < |events|
    ensures InSince(p, events[..|events| - 1], k, state)
    ensures After(p, events[..|events| - 1]).state == state && After(p, events).state == state
  {
    var n := |events| - 1;
    forall j | k <= j <= n ensures After(p, events[..n][..j]).state == state {
      assert events[..n][..j] == events[..j];
    }
    if k > 0 {
      assert events[..n][..k - 1] == events[..k - 1];
    }
    assert events[..|events|] == events;
  }

  /** The first state of a closed or a half-open period has counted nothing. */
  lemma EntryCounts(p: Params, events: seq<Event>, state: CircuitState)
    requires InSince(p, events, |events|, state) && state != Open
    ensures if state == Closed then After(p, events).failures == 0 else After(p, events).successes == 0
  {
    assert events[..|events|] == events;
  }

  /** While closed, the failure count is the run of failed completions since the last success or close. */
  lemma {:induction false} ClosedCountsTheRun(p: Params, events: seq<Event>, k: nat)
    requires InSince(p, events, k, Closed)
    ensures After(p, events).failures == FailureRun(events[k..])
  {
    if k == |events| {
      EntryCounts(p, events, Closed);
    } else {
      var n := |events| - 1;
      InSincePrefix(p, events, k, Closed);
      ClosedCountsTheRun(p, events[..n], k);
      assert events[k..][..n - k] == events[..n][k..];
      assert events[k..][n - k] == events[n];
    }
  }

  /** While half-open, the success count is the number of successful completions since the trial began. */
  lemma {:induction false} HalfOpenCountsSuccesses(p: Params, events: seq<Event>, k: nat)
    requires InSince(p, events, k, HalfOpen)
    ensures After(p, events).successes == SuccessCount(events[k..])
  {
    if k == |events| {
      EntryCounts(p, events, HalfOpen);
    } else {
      var n := |events| - 1;
      InSincePrefix(p, events, k, HalfOpen);
      HalfOpenCountsSuccesses(p, events[..n], k);
      assert events[k..][..n - k] == events[..n][k..];
      assert events[k..][n - k] == events[n];
    }
  }

  /** Every history has been in its last state since some moment. */
  lemma {:induction false} SinceWhen(p: Params, events: seq<Event>) returns (k: nat)
    ensures InSince(p, events, k, After(p, events).state)
  {
    assert events[..|events|] == events;
    if events == [] {
      k := 0;
    } else {
      var n := |events| - 1;
      var before := After(p, events[..n]).state;
      if before == After(p, events).state {
        k := SinceWhen(p, events[..n]);
        forall j | k <= j <= |events| ensures After(p, events[..j]).state == before {
          if j < |events| { assert events[..n][..j] == events[..j]; }
        }
        if k > 0 { assert events[..n][..k - 1] == events[..k - 1]; }
      } else {
        k := |events|;
      }
    }
  }

  /**
   * The state after any history and one more event, by what has happened since the present state began.  A closed
   * breaker opens at the failure that completes the threshold; a half-open one opens at any failure and closes at
   * the success that completes the threshold; an open one half-opens at the first call after the timeout, counted
   * from the last failure.  A reset closes it, and nothing else moves it.
   */
  lemma StateIsHistory(p: Params, events: seq<Event>, k: nat, state: CircuitState, e: Event)
    requires InSince(p, events, k, state)
    ensures After(p, events + [e]).state ==
      match state
      case Closed => if e.Failure? && FailureRun(events[k..]) + 1 >= p.failureThreshold then Open else Closed
      case HalfOpen =>
        if e.Failure? then Open
        else if e.Reset? || (e.Success? && SuccessCount(events[k..]) + 1 >= p.successThreshold) then Closed
        else HalfOpen
      case Open =>
        if e.Reset? then Closed
        else if e.Begin? && e.at - LastFailureAt(events) >= p.resetTimeoutMs then HalfOpen
        else Open
  {
    hide FailureRun, SuccessCount, LastFailureAt;
    assert events[..|events|] == events && (events + [e])[..|events|] == events;
    LastFailureIsKept(p, events);
    if state == Closed {
      ClosedCountsTheRun(p, events, k);
    } else if state == HalfOpen {
      HalfOpenCountsSuccesses(p, events, k);
    }
  }

  /** A call is let through unless the breaker is open and the timeout since the last failure is not over. */
  lemma AdmitsUnlessOpen(p: Params, events: seq<Event>, now: int)
    ensures Begun(p, After(p, events), now).1 <==>
      After(p, events).state != Open || now - LastFailureAt(events) >= p.resetTimeoutMs
  {
    LastFailureIsKept(p, events);
  }

  /** No reset, and every timed event before `limit`. */
  ghost predicate QuietUntil(events: seq<Event>, limit: int) {
    forall e :: e in events ==> !e.Reset? && (e.Begin? || e.Failure? ==> e.at < limit)
  }

  /**
   * Once a failure at `at` leaves the breaker open, then without a reset it stays open, and starts no
   * protected call, until the reset timeout counted from that failure has passed, whatever calls already
   * running do.  Failures of such calls only push the moment back.
   */
  lemma {:induction false} OpenRejectsUntilTimeout(p: Params, before: seq<Event>, at: int, later: seq<Event>, now: int)
    requires After(p, before + [Failure(at)]).state == Open
    requires QuietUntil(later, at + p.resetTimeoutMs) && now < at + p.resetTimeoutMs
    requires forall e :: e in later && e.Failure? ==> at <= e.at
    ensures var b := After(p, before + [Failure(at)] + later);
      b.state == Open && b.lastFailure >= at && !Begun(p, b, now).1
  {
    var tripped := before + [Failure(at)];
    assert tripped[..|tripped| - 1] == before;
    if later == [] {
      assert tripped + later == tripped;
    } else {
      var n := |later| - 1;
      assert (tripped + later)[..|tripped| + n] == tripped + later[..n];
      assert (tripped + later)[|tripped| + n] == later[n] && later[n] in later;
      OpenRejectsUntilTimeout(p, before, at, later[..n], now);
    }
  }

  /** A failed trial opens the breaker again, and it starts no call until the timeout since that failure is over. */
  lemma FailedTrialReopens(p: Params, before: seq<Event>, at: int, later: seq<Event>, now: int)
    requires After(p, before).state == HalfOpen
    requires QuietUntil(later, at + p.resetTimeoutMs) && now < at + p.resetTimeoutMs
    requires forall e :: e in later && e.Failure? ==> at <= e.at
    ensures After(p, before + [Failure(at)]).state == Open
    ensures After(p, before + [Failure(at)] + later).state == Open
    ensures !Begun(p, After(p, before + [Failure(at)] + later), now).1
  {
    var k := SinceWhen(p, before);
    StateIsHistory(p, before, k, HalfOpen, Failure(at));
    OpenRejectsUntilTimeout(p, before, at, later, now);
  }

  /** And the first call after the timeout is a trial: it is let through and half-opens the breaker. */
  lemma TimeoutAllowsTrial(p: Params, events: seq<Event>, now: int)
    requires After(p, events).state == Open
    ensures Begun(p, After(p, events), now).1 <==> now - LastFailureAt(events) >= p.resetTimeoutMs
    ensures Begun(p, After(p, events), now).1 ==> After(p, events + [Begin(now)]).state == HalfOpen
  {
    LastFailureIsKept(p, events);
    assert (events + [Begin(now)])[..|events|] == events;
  }
}
