/** The queue lock behind both key stores, and every run of clients that use it through `withLock`. */
module PerKeyLocks {

  /** A client of the lock: the index of its request among all requests. */
  type Ticket = nat

  /** The queue of each name, and the tickets whose promise has been resolved. */
  datatype Lock = Lock(queues: map<string, seq<Ticket>>, resolved: set<Ticket>)

  function QueueOf(l: Lock, name: string): seq<Ticket> {
    if name in l.queues then l.queues[name] else []
  }

  function Acquired(l: Lock, name: string, t: Ticket): Lock {
    var queue := QueueOf(l, name) + [t];
    Lock(l.queues[name := queue], if |queue| == 1 then l.resolved + {t} else l.resolved)
  }

  function Released(l: Lock, name: string): Lock {
    if name !in l.queues then l
    else
      var queue := if l.queues[name] == [] then [] else l.queues[name][1..];
      Lock(l.queues[name := queue], if queue != [] then l.resolved + {queue[0]} else l.resolved)
  }

  class PerKeyLock {
    var queues: map<string, seq<Ticket>>
    var resolved: set<Ticket>

    constructor ()
      ensures queues == map[] && resolved == {}
    {
      queues, resolved := map[], {};
    }

    method Acquire(name: string, t: Ticket)
      modifies this
      ensures Lock(queues, resolved) == Acquired(old(Lock(queues, resolved)), name, t)
    {
      var queue := if name in queues then queues[name] else [];
      queue := queue + [t];
      queues := queues[name := queue];
      if |queue| == 1 {
        resolved := resolved + {t};
      }
    }

    method Release(name: string)
      modifies this
      ensures Lock(queues, resolved) == Released(old(Lock(queues, resolved)), name)
    {
      if name !in queues {
        return;
      }
      var queue := queues[name];
      if queue != [] {
        queue := queue[1..];
      }
      queues := queues[name := queue];
      if |queue| > 0 {
        resolved := resolved + {queue[0]};
      }
    }
  }

  // ---- Runs of withLock -----------------------------------------------------------------------

  datatype Phase = Waiting | Holding | Left

  datatype Client = Client(name: string, phase: Phase)

  /** `left` lists, per name, the clients that have released, in that order; no step reads it. */
  datatype State = State(lock: Lock, clients: seq<Client>, left: map<string, seq<Ticket>>)

  datatype Step =
    | Request(name: string)   // withLock is called: `acquire`
    | Enter(t: Ticket)        // its promise being resolved, the client enters its critical section
    | Leave(t: Ticket)        // the section ends, normally or by throwing: `release` in `finally`

  predicate Enabled(s: State, step: Step) {
    match step
    case Request(_) => true
    case Enter(t) => t < |s.clients| && s.clients[t].phase == Waiting && t in s.lock.resolved
    case Leave(t) => t < |s.clients| && s.clients[t].phase == Holding
  }

  function LeftOf(s: State, name: string): seq<Ticket> {
    if name in s.left then s.left[name] else []
  }

  function Next(s: State, step: Step): State
    requires Enabled(s, step)
  {
    match step
    case Request(name) =>
      State(Acquired(s.lock, name, |s.clients|), s.clients + [Client(name, Waiting)], s.left)
    case Enter(t) => s.(clients := s.clients[t := s.clients[t].(phase := Holding)])
    case Leave(t) =>
      var name := s.clients[t].name;
      State(Released(s.lock, name), s.clients[t := s.clients[t].(phase := Left)], s.left[name := LeftOf(s, name) + [t]])
  }

  const START: State := State(Lock(map[], {}), [], map[])

  /** The requests for a name, in the order they were made. */
  ghost function Requests(clients: seq<Client>, name: string): seq<Ticket> {
    if clients == [] then []
    else
      var last := |clients| - 1;
      Requests(clients[..last], name) + (if clients[last].name == name then [last] else [])
  }

  /** Requests split into those served and those queued, in order. */
  ghost predicate SplitOk(s: State, name: string) {
    Requests(s.clients, name) == LeftOf(s, name) + QueueOf(s.lock, name)
  }

  /** The head of a queue, and nobody else in it, has been woken; whoever holds is at the head. */
  ghost predicate PlaceOk(s: State, name: string, i: nat)
    requires i < |QueueOf(s.lock, name)|
  {
    var t := QueueOf(s.lock, name)[i];
    && t < |s.clients| && s.clients[t].name == name && s.clients[t].phase != Left
    && (i > 0 ==> s.clients[t].phase == Waiting)
    && (t in s.lock.resolved <==> i == 0)
  }

  /** A client that has not left stands in the queue of its name. */
  ghost predicate StandsInQueue(s: State, t: Ticket) {
    t < |s.clients| && s.clients[t].phase != Left ==> t in QueueOf(s.lock, s.clients[t].name)
  }

  /** The lock's invariant. */
  ghost predicate Inv(s: State) {
    && (forall name :: SplitOk(s, name))
    && (forall name, i: nat :: i < |QueueOf(s.lock, name)| ==> PlaceOk(s, name, i))
    && (forall t: Ticket :: StandsInQueue(s, t))
    && (forall t :: t in s.lock.resolved ==> t < |s.clients|)
  }

  lemma {:induction false} RequestsAreDistinct(clients: seq<Client>, name: string)
    ensures forall t: Ticket :: t in Requests(clients, name) <==> t < |clients| && clients[t].name == name
    ensures forall i, j :: 0 <= i < j < |Requests(clients, name)| ==>
      Requests(clients, name)[i] < Requests(clients, name)[j]
  {
    if clients != [] {
      var last := |clients| - 1;
      RequestsAreDistinct(clients[..last], name);
      var earlier := Requests(clients[..last], name);
      assert forall i :: 0 <= i < |earlier| ==> earlier[i] in earlier && earlier[i] < last;
    }
  }

  lemma RequestsAppend(clients: seq<Client>, c: Client, name: string)
    ensures Requests(clients + [c], name) == Requests(clients, name) + (if c.name == name then [|clients|] else [])
  {
    assert (clients + [c])[..|clients|] == clients;
  }

  lemma {:induction false} RequestsIgnorePhase(a: seq<Client>, b: seq<Client>, name: string)
    requires |a| == |b| && forall t :: 0 <= t < |a| ==> a[t].name == b[t].name
    ensures Requests(a, name) == Requests(b, name)
  {
    if a != [] {
      RequestsIgnorePhase(a[..|a| - 1], b[..|a| - 1], name);
    }
  }

  lemma QueueIsDistinct(s: State, name: string)
    requires Inv(s)
    ensures forall i, j :: 0 <= i < j < |QueueOf(s.lock, name)| ==> QueueOf(s.lock, name)[i] != QueueOf(s.lock, name)[j]
  {
    RequestsAreDistinct(s.clients, name);
    assert SplitOk(s, name);
    var all, left, queue := Requests(s.clients, name), LeftOf(s, name), QueueOf(s.lock, name);
    forall i, j | 0 <= i < j < |queue| ensures queue[i] != queue[j] {
      assert all[|left| + i] == queue[i] && all[|left| + j] == queue[j];
    }
  }

  lemma RequestQueue(s: State, name: string, n: string)
    ensures QueueOf(Next(s, Request(name)).lock, n) ==
      QueueOf(s.lock, n) + (if n == name then [|s.clients|] else [])
  {
  }

  lemma RequestKeepsPlace(s: State, name: string, n: string, i: nat)
    requires Inv(s) && i < |QueueOf(Next(s, Request(name)).lock, n)|
    ensures PlaceOk(Next(s, Request(name)), n, i)
  {
    hide SplitOk, StandsInQueue, QueueOf;
    var s' := Next(s, Request(name));
    RequestQueue(s, name, n);
    RequestQueue(s, name, name);
    if i < |QueueOf(s.lock, n)| {
      assert PlaceOk(s, n, i) && QueueOf(s'.lock, n)[i] == QueueOf(s.lock, n)[i];
    } else {
      assert QueueOf(s'.lock, n)[i] == |s.clients|;
    }
  }

  lemma RequestKeepsStanding(s: State, name: string, t: Ticket)
    requires Inv(s)
    ensures StandsInQueue(Next(s, Request(name)), t)
  {
    hide SplitOk, PlaceOk, QueueOf;
    if t < |s.clients| {
      assert StandsInQueue(s, t);
      RequestQueue(s, name, s.clients[t].name);
    } else {
      RequestQueue(s, name, name);
    }
  }

  lemma RequestKeepsInv(s: State, name: string)
    requires Inv(s)
    ensures Inv(Next(s, Request(name)))
  {
    hide PlaceOk, StandsInQueue, QueueOf;
    var s' := Next(s, Request(name));
    forall n ensures SplitOk(s', n) {
      assert SplitOk(s, n);
      RequestsAppend(s.clients, Client(name, Waiting), n);
      RequestQueue(s, name, n);
    }
    forall n, i: nat | i < |QueueOf(s'.lock, n)| ensures PlaceOk(s', n, i) {
      RequestKeepsPlace(s, name, n, i);
    }
    forall t: Ticket ensures StandsInQueue(s', t) {
      RequestKeepsStanding(s, name, t);
    }
    assert s'.lock.resolved <= s.lock.resolved + {|s.clients|};
  }

  lemma EnterKeepsInv(s: State, t: Ticket)
    requires Inv(s) && Enabled(s, Enter(t))
    ensures Inv(Next(s, Enter(t)))
  {
    var s' := Next(s, Enter(t));
    forall n ensures SplitOk(s', n) {
      assert SplitOk(s, n);
      RequestsIgnorePhase(s'.clients, s.clients, n);
    }
    forall n, i: nat | i < |QueueOf(s'.lock, n)| ensures PlaceOk(s', n, i) {
      assert PlaceOk(s, n, i);
    }
    forall u: Ticket ensures StandsInQueue(s', u) {
      assert StandsInQueue(s, u);
    }
  }

  lemma LeaverIsHead(s: State, t: Ticket)
    requires Inv(s) && t < |s.clients| && s.clients[t].phase == Holding
    ensures var queue := QueueOf(s.lock, s.clients[t].name); queue != [] && queue[0] == t
  {
    var name := s.clients[t].name;
    var queue := QueueOf(s.lock, name);
    assert StandsInQueue(s, t);
    var i :| 0 <= i < |queue| && queue[i] == t;
    assert PlaceOk(s, name, i);
  }

  lemma LeaveQueue(s: State, t: Ticket, n: string)
    requires Inv(s) && Enabled(s, Leave(t))
    ensures QueueOf(s.lock, s.clients[t].name) != [] && QueueOf(s.lock, s.clients[t].name)[0] == t
    ensures QueueOf(Next(s, Leave(t)).lock, n) ==
      if n == s.clients[t].name then QueueOf(s.lock, n)[1..] else QueueOf(s.lock, n)
    ensures var rest := QueueOf(Next(s, Leave(t)).lock, s.clients[t].name);
      Next(s, Leave(t)).lock.resolved == (if rest != [] then s.lock.resolved + {rest[0]} else s.lock.resolved)
  {
    LeaverIsHead(s, t);
  }

  lemma LeaveKeepsPlace(s: State, t: Ticket, n: string, i: nat)
    requires Inv(s) && Enabled(s, Leave(t)) && i < |QueueOf(Next(s, Leave(t)).lock, n)|
    ensures PlaceOk(Next(s, Leave(t)), n, i)
  {
    hide SplitOk, StandsInQueue, QueueOf, Released;
    var name := s.clients[t].name;
    var s', queue := Next(s, Leave(t)), QueueOf(s.lock, name);
    LeaveQueue(s, t, n);
    LeaveQueue(s, t, name);
    QueueIsDistinct(s, name);
    if n == name {
      assert PlaceOk(s, n, i + 1) && QueueOf(s'.lock, n)[i] == queue[i + 1];
    } else {
      assert PlaceOk(s, n, i);
      if |queue| > 1 {
        assert PlaceOk(s, name, 1);
      }
    }
  }

  lemma LeaveKeepsStanding(s: State, t: Ticket, u: Ticket)
    requires Inv(s) && Enabled(s, Leave(t))
    ensures StandsInQueue(Next(s, Leave(t)), u)
  {
    hide SplitOk, PlaceOk, QueueOf, Released;
    if u < |s.clients| && s.clients[u].phase != Left && u != t {
      assert StandsInQueue(s, u);
      LeaveQueue(s, t, s.clients[u].name);
      var queue := QueueOf(s.lock, s.clients[u].name);
      var i :| 0 <= i < |queue| && queue[i] == u;
      assert i > 0 ==> queue[1..][i - 1] == u;
    }
  }

  lemma LeaveKeepsSplit(s: State, t: Ticket, n: string)
    requires Inv(s) && Enabled(s, Leave(t))
    ensures SplitOk(Next(s, Leave(t)), n)
  {
    hide PlaceOk, StandsInQueue, QueueOf, Released;
    var s', queue := Next(s, Leave(t)), QueueOf(s.lock, n);
    assert SplitOk(s, n);
    LeaveQueue(s, t, n);
    RequestsIgnorePhase(s'.clients, s.clients, n);
    if n == s.clients[t].name {
      assert LeftOf(s, n) + queue == (LeftOf(s, n) + [t]) + queue[1..];
    }
  }

  lemma LeaveKeepsInv(s: State, t: Ticket)
    requires Inv(s) && Enabled(s, Leave(t))
    ensures Inv(Next(s, Leave(t)))
  {
    hide SplitOk, PlaceOk, StandsInQueue, QueueOf, Released;
    var s', name := Next(s, Leave(t)), s.clients[t].name;
    forall n ensures SplitOk(s', n) {
      LeaveKeepsSplit(s, t, n);
    }
    forall n, i: nat | i < |QueueOf(s'.lock, n)| ensures PlaceOk(s', n, i) {
      LeaveKeepsPlace(s, t, n, i);
    }
    forall u: Ticket ensures StandsInQueue(s', u) {
      LeaveKeepsStanding(s, t, u);
    }
    LeaveQueue(s, t, name);
    if QueueOf(s'.lock, name) != [] {
      assert QueueOf(s'.lock, name)[0] == QueueOf(s.lock, name)[1];
      Place(s, name, 1);
    }
  }

  lemma StepKeepsInv(s: State, step: Step)
    requires Inv(s) && Enabled(s, step)
    ensures Inv(Next(s, step))
  {
    match step
    case Request(name) => RequestKeepsInv(s, name);
    case Enter(t) => EnterKeepsInv(s, t);
    case Leave(t) => LeaveKeepsInv(s, t);
  }

  /** A run: every step is enabled where it is taken. */
  ghost predicate Run(s: State, steps: seq<Step>)
    decreases |steps|
  {
    steps == [] || (Enabled(s, steps[0]) && Run(Next(s, steps[0]), steps[1..]))
  }

  ghost function After(s: State, steps: seq<Step>): State
    requires Run(s, steps)
    decreases |steps|
  {
    if steps == [] then s else After(Next(s, steps[0]), steps[1..])
  }

  lemma {:induction false} EveryRunKeepsInv(s: State, steps: seq<Step>)
    requires Inv(s) && Run(s, steps)
    ensures Inv(After(s, steps))
    decreases |steps|
  {
    hide Inv;
    if steps != [] {
      StepKeepsInv(s, steps[0]);
      EveryRunKeepsInv(Next(s, steps[0]), steps[1..]);
    }
  }

  lemma StartInv()
    ensures Inv(START)
  {
  }

  // ---- What the invariant gives ---------------------------------------------------------------

  /** Who has been granted the lock of a name, in order: those who left, then the holder if there is one. */
  ghost function Granted(s: State, name: string): seq<Ticket> {
    var queue := QueueOf(s.lock, name);
    LeftOf(s, name)
    + (if queue != [] && queue[0] < |s.clients| && s.clients[queue[0]].phase == Holding then [queue[0]] else [])
  }

  /** At most one holder per name, and grants in request order. */
  lemma MutualExclusion(s: State, name: string)
    requires Inv(s)
    ensures forall a, b | 0 <= a < |s.clients| && 0 <= b < |s.clients| ::
      s.clients[a] == Client(name, Holding) && s.clients[b] == Client(name, Holding) ==> a == b
    ensures Granted(s, name) <= Requests(s.clients, name)
    ensures forall t :: 0 <= t < |s.clients| && s.clients[t] == Client(name, Holding) ==>
      Granted(s, name) == LeftOf(s, name) + [t]
  {
    forall t | 0 <= t < |s.clients| && s.clients[t] == Client(name, Holding)
      ensures QueueOf(s.lock, name) != [] && QueueOf(s.lock, name)[0] == t
    {
      LeaverIsHead(s, t);
    }
    var left, queue := LeftOf(s, name), QueueOf(s.lock, name);
    assert SplitOk(s, name);
    if queue != [] { assert PlaceOk(s, name, 0); }
  }

  /** What the invariant says of one place in one queue. */
  lemma Place(s: State, name: string, i: nat)
    requires Inv(s) && i < |QueueOf(s.lock, name)|
    ensures PlaceOk(s, name, i)
  {
  }

  lemma Split(s: State, name: string)
    requires Inv(s)
    ensures SplitOk(s, name)
  {
  }

  /** No lost wake-up: a non-empty queue can always move, its head entering or leaving. */
  lemma NoLostWakeup(s: State, name: string)
    requires Inv(s) && QueueOf(s.lock, name) != []
    ensures var head := QueueOf(s.lock, name)[0];
      head in s.lock.resolved && (Enabled(s, Enter(head)) || Enabled(s, Leave(head)))
  {
    assert PlaceOk(s, name, 0);
  }

  /** Names do not disturb each other. */
  lemma NamesAreIndependent(s: State, step: Step, name: string)
    requires Enabled(s, step)
    requires match step
      case Request(n) => n != name
      case Enter(t) => s.clients[t].name != name
      case Leave(t) => s.clients[t].name != name
    ensures QueueOf(Next(s, step).lock, name) == QueueOf(s.lock, name) && LeftOf(Next(s, step), name) == LeftOf(s, name)
  {
  }

  /** The work left: two moves for each waiting client, one for each holder. */
  ghost function Work(clients: seq<Client>): nat {
    if clients == [] then 0
    else
      var last := clients[|clients| - 1];
      Work(clients[..|clients| - 1]) + (match last.phase case Waiting => 2 case Holding => 1 case Left => 0)
  }

  lemma {:induction false} WorkUpdate(clients: seq<Client>, t: Ticket, phase: Phase)
    requires t < |clients|
    requires (clients[t].phase == Waiting && phase == Holding) || (clients[t].phase == Holding && phase == Left)
    ensures Work(clients[t := clients[t].(phase := phase)]) == Work(clients) - 1
  {
    var n := |clients| - 1;
    var updated := clients[t := clients[t].(phase := phase)];
    if t < n {
      WorkUpdate(clients[..n], t, phase);
      assert updated[..n] == clients[..n][t := clients[t].(phase := phase)];
    } else {
      assert updated[..n] == clients[..n];
    }
  }

  lemma {:induction false} NoWorkNobodyWaits(clients: seq<Client>)
    ensures Work(clients) == 0 <==> forall t: Ticket :: t < |clients| ==> clients[t].phase == Left
  {
    if clients != [] {
      NoWorkNobodyWaits(clients[..|clients| - 1]);
    }
  }

  lemma MoveUsesOneUnit(s: State, step: Step)
    requires Enabled(s, step) && !step.Request?
    ensures Work(Next(s, step).clients) == Work(s.clients) - 1
  {
    match step
    case Enter(t) => WorkUpdate(s.clients, t, Holding);
    case Leave(t) => WorkUpdate(s.clients, t, Left);
  }

  lemma SomeMoveIsEnabled(s: State) returns (step: Step)
    requires Inv(s) && Work(s.clients) > 0
    ensures !step.Request? && Enabled(s, step)
  {
    NoWorkNobodyWaits(s.clients);
    var t :| 0 <= t < |s.clients| && s.clients[t].phase != Left;
    var name := s.clients[t].name;
    assert StandsInQueue(s, t);
    NoLostWakeup(s, name);
    var head := QueueOf(s.lock, name)[0];
    step := if Enabled(s, Enter(head)) then Enter(head) else Leave(head);
  }

  /**
   * Everybody is served: if no more requests come and every critical section ends, then whatever order the
   * moves come in, there are exactly as many as the work left, none can get stuck before, and afterwards
   * nobody waits or holds.
   */
  lemma {:induction false} AllWaitersAreServed(s: State, steps: seq<Step>)
    requires Inv(s) && Run(s, steps) && forall i :: 0 <= i < |steps| ==> !steps[i].Request?
    ensures var s' := After(s, steps);
      && Inv(s') && |s'.clients| == |s.clients| && |steps| + Work(s'.clients) == Work(s.clients)
      && (|steps| == Work(s.clients) <==> forall t: Ticket :: t < |s'.clients| ==> s'.clients[t].phase == Left)
      && (|steps| < Work(s.clients) ==> exists step: Step :: !step.Request? && Enabled(s', step))
    decreases |steps|
  {
    hide Inv;
    if steps == [] {
      NoWorkNobodyWaits(s.clients);
      if Work(s.clients) > 0 {
        var step := SomeMoveIsEnabled(s);
      }
    } else {
      StepKeepsInv(s, steps[0]);
      MoveUsesOneUnit(s, steps[0]);
      AllWaitersAreServed(Next(s, steps[0]), steps[1..]);
    }
  }
}
