/** What holds over every run of lifecycle operations and rotations, and exactly which overlaps break it. */
module LifecycleRuns {
  import opened Wrappers
  import opened KeyModel
  import opened RotationMachine
  import opened RotationTheorems
  import opened LifecycleMachine
  import opened LifecycleInvariant

  // ---- Final states ---------------------------------------------------------------------------

  ghost predicate AllFinal(cfg: Config, w: World, ms: seq<Move>)
    requires Course(cfg, w, ms)
    decreases |ms|
  {
    ms == [] || (FinalStep(w.s, Moved(cfg, w, ms[0]).s) && AllFinal(cfg, Moved(cfg, w, ms[0]), ms[1..]))
  }

  ghost predicate NoneOvertaken(cfg: Config, w: World, ms: seq<Move>)
    requires Course(cfg, w, ms)
    decreases |ms|
  {
    ms == [] || (!Overtaken(w, ms[0]) && NoneOvertaken(cfg, Moved(cfg, w, ms[0]), ms[1..]))
  }

  /** Before any operation or rotation: one record per id. */
  ghost predicate AtRest(w: World) {
    w.s.rots == map[] && w.clients == map[] && RecordsOk(w.s)
  }

  lemma RestIsOk(w: World)
    requires AtRest(w)
    ensures WorldOk(w)
  {
  }

  /**
   * In every run of operations and rotations, however their calls interleave and whichever of them throw: a
   * revoked record never changes again, a failed one can only become revoked and none returns to pending,
   * if and only if no write is overtaken.
   */
  lemma {:induction false} TerminalStatesAreFinal(cfg: Config, w: World, ms: seq<Move>)
    requires WorldOk(w) && Course(cfg, w, ms)
    ensures AllFinal(cfg, w, ms) <==> NoneOvertaken(cfg, w, ms)
    ensures AllFinal(cfg, w, ms) ==> WorldOk(Later(cfg, w, ms))
    decreases |ms|
  {
    hide WorldOk, Overtaken, FinalStep, CanMove, Moved;
    if ms != [] {
      var w' := Moved(cfg, w, ms[0]);
      FinalUnlessOvertaken(cfg, w, ms[0]);
      if FinalStep(w.s, w'.s) {
        FinalKeeps(cfg, w, ms[0]);
        TerminalStatesAreFinal(cfg, w', ms[1..]);
      }
    }
  }

  lemma {:induction false} RevokedStays(cfg: Config, w: World, ms: seq<Move>, name: string, id: string)
    requires Course(cfg, w, ms) && AllFinal(cfg, w, ms)
    requires Find(KeysOf(w.s, name), id).Some? && Find(KeysOf(w.s, name), id).value.status == Revoked
    ensures Find(KeysOf(Later(cfg, w, ms).s, name), id) == Find(KeysOf(w.s, name), id)
    decreases |ms|
  {
    hide Find, KeysOf, CanMove, Moved;
    if ms != [] {
      RevokedStays(cfg, Moved(cfg, w, ms[0]), ms[1..], name, id);
    }
  }

  // ---- One operation on a secret at a time ----------------------------------------------------

  ghost predicate InProgress(w: World, a: Actor) {
    match a
    case Clock => false
    case Rotor(rid) => InFlight(w.s, rid)
    case Caller(cid) => cid in w.clients && !w.clients[cid].call.Returned?
  }

  ghost predicate Busy(w: World, name: string) {
    exists a :: InProgress(w, a) && HoldOf(w, a).name == name
  }

  /** An operation or rotation of a secret begins only when none of that secret is in progress. */
  ghost predicate Waits(w: World, m: Move) {
    match m
    case Rotate(Start(_, name, _, _)) => !Busy(w, name)
    case Begin(_, name, _) => !Busy(w, name)
    case _ => true
  }

  ghost predicate Orderly(cfg: Config, w: World, ms: seq<Move>)
    requires Course(cfg, w, ms)
    decreases |ms|
  {
    ms == [] || (Waits(w, ms[0]) && Orderly(cfg, Moved(cfg, w, ms[0]), ms[1..]))
  }

  ghost predicate OneByOne(w: World) {
    forall a, b :: InProgress(w, a) && InProgress(w, b) && a != b ==> HoldOf(w, a).name != HoldOf(w, b).name
  }

  /** What the actor has read is what is stored. */
  ghost predicate FreshOf(w: World, a: Actor) {
    forall key :: Holds(HoldOf(w, a), key) ==> Find(KeysOf(w.s, HoldOf(w, a).name), key.keyId) == Some(key)
  }

  ghost predicate OrderlyOk(w: World) {
    WorldOk(w) && OneByOne(w) && forall a :: FreshOf(w, a)
  }

  lemma RestIsOrderly(w: World)
    requires AtRest(w)
    ensures OrderlyOk(w)
  {
    RestIsOk(w);
  }

  lemma FreshIsNotOvertaken(cfg: Config, w: World, m: Move)
    requires WorldOk(w) && CanMove(w, m) && FreshOf(w, ActorOf(m))
    ensures !Overtaken(w, m)
  {
    hide Put, Find, HoldOf, KeysOf, EndedSince, Fits, RecordsOk, UnsavedOk, ActorOf, NameOf, AccessOf, Moved;
    var a, name, x := ActorOf(m), NameOf(w, m), AccessOf(w, m);
    assert HoldOk(HoldOf(w, a)) && ToldOf(w, a);
    EachMoveTouches(cfg, w, m);
    var h := HoldOf(w, a);
    if x.Wrote? && h.unsaved.None? {
      var key := if h.outgoing.Some? then h.outgoing.value else h.target.value;
      assert Holds(h, key);
    }
  }

  lemma ProgressFrame(cfg: Config, w: World, m: Move)
    requires CanMove(w, m)
    ensures var w', a := Moved(cfg, w, m), ActorOf(m);
      && (forall b :: b != a ==> (InProgress(w', b) <==> InProgress(w, b)))
      && (m.Proceed? || (m.Rotate? && m.l.Advance?) ==> InProgress(w, a))
      && (m.Rotate? && m.l.Tick? ==> !InProgress(w', a))
  {
    hide StepLocal, CallStep, WriteOf, ReadOf, EntriesAfter;
  }

  lemma HoldersAreInProgress(w: World, a: Actor)
    ensures HoldOf(w, a) != NoHold(HoldOf(w, a).name) ==> InProgress(w, a)
  {
  }

  lemma OneByOneKept(cfg: Config, w: World, m: Move)
    requires CanMove(w, m) && Waits(w, m) && OneByOne(w) && MoveTouches(cfg, w, m)
    ensures OneByOne(Moved(cfg, w, m))
  {
    hide HoldOf, Moved, InProgress, Passes, KeysOf, Fits;
    ProgressFrame(cfg, w, m);
    var w', a := Moved(cfg, w, m), ActorOf(m);
    forall b | b != a && InProgress(w', a) && InProgress(w', b) ensures HoldOf(w', a).name != HoldOf(w', b).name {
      assert InProgress(w, b) && HoldOf(w', b) == HoldOf(w, b);
      StartsNamed(w, m);
    }
  }

  lemma StartsNamed(w: World, m: Move)
    requires CanMove(w, m)
    ensures (m.Proceed? || (m.Rotate? && m.l.Advance?)) ==> HoldOf(w, ActorOf(m)).name == NameOf(w, m)
  {
  }

  lemma FreshKept(cfg: Config, w: World, m: Move, b: Actor)
    requires OrderlyOk(w) && CanMove(w, m) && MoveTouches(cfg, w, m) && OneByOne(Moved(cfg, w, m))
    ensures FreshOf(Moved(cfg, w, m), b)
  {
    hide HoldOf, Moved, InProgress, KeysOf, Fits, Find, Put, Distinct, UnsavedOk, OneByOne, Rewritten, ToldOf;
    var w', a, name, x := Moved(cfg, w, m), ActorOf(m), NameOf(w, m), AccessOf(w, m);
    assert FreshOf(w, b) && HoldOk(HoldOf(w, b)) && HoldOk(HoldOf(w, a)) && FreshOf(w, a);
    var n := HoldOf(w', b).name;
    forall key | Holds(HoldOf(w', b), key) ensures Find(KeysOf(w'.s, n), key.keyId) == Some(key) {
      FindAfter(w, w', a, name, x, n, key.keyId);
      if b != a {
        if x.Wrote? && n == name {
          HolderApart(cfg, w, m, b);
        }
      } else if x.Read? && key == x.key {
        FindIsUnique(KeysOf(w.s, n), x.key);
      } else {
        assert Holds(HoldOf(w, a), key);
        OutgoingApart(w, w', a, name, x, key);
      }
    }
  }

  /** A holder on another actor's secret would have been in progress beside it. */
  lemma HolderApart(cfg: Config, w: World, m: Move, b: Actor)
    requires OneByOne(w) && CanMove(w, m) && AccessOf(w, m).Wrote? && b != ActorOf(m)
    requires HoldOf(w, b) != NoHold(HoldOf(w, b).name)
    ensures HoldOf(w, b).name != NameOf(w, m)
  {
    hide HoldOf, Moved, InProgress;
    HoldersAreInProgress(w, b);
    ProgressFrame(cfg, w, m);
    StartsNamed(w, m);
  }

  /** What an activation still holds after its first write is another record. */
  lemma OutgoingApart(w: World, w': World, a: Actor, name: string, x: Access, key: SecretKey)
    requires Touched(w, w', a, name, x) && FreshOf(w, a) && HoldOk(HoldOf(w, a))
    requires Holds(HoldOf(w', a), key) && Holds(HoldOf(w, a), key)
    ensures x.Wrote? ==> x.key.keyId != key.keyId
  {
    hide HoldOf, KeysOf, Find, Put;
    var h := HoldOf(w, a);
    if x.Wrote? {
      assert Holds(h, h.target.value) && Holds(h, h.outgoing.value);
    }
  }

  lemma OrderlyStepKeeps(cfg: Config, w: World, m: Move)
    requires OrderlyOk(w) && CanMove(w, m) && Waits(w, m)
    ensures FinalStep(w.s, Moved(cfg, w, m).s) && OrderlyOk(Moved(cfg, w, m)) && MoveTouches(cfg, w, m)
  {
    hide WorldOk, OneByOne, FreshOf, FinalStep, Moved, Overtaken, MoveTouches, Waits;
    assert FreshOf(w, ActorOf(m));
    FreshIsNotOvertaken(cfg, w, m);
    FinalUnlessOvertaken(cfg, w, m);
    FinalKeeps(cfg, w, m);
    MoveTouchesOk(cfg, w, m);
    OneByOneKept(cfg, w, m);
    forall b ensures FreshOf(Moved(cfg, w, m), b) {
      FreshKept(cfg, w, m, b);
    }
  }

  lemma MoveTouchesOk(cfg: Config, w: World, m: Move)
    requires WorldOk(w) && CanMove(w, m)
    ensures MoveTouches(cfg, w, m)
  {
    hide MoveTouches, HoldOk, Fits;
    EachMoveTouches(cfg, w, m);
  }

  /** When operations and rotations of the same secret do not overlap, terminal states are final. */
  lemma {:induction false} OrderlyRunsAreFinal(cfg: Config, w: World, ms: seq<Move>)
    requires OrderlyOk(w) && Course(cfg, w, ms) && Orderly(cfg, w, ms)
    ensures AllFinal(cfg, w, ms) && OrderlyOk(Later(cfg, w, ms))
    decreases |ms|
  {
    hide OrderlyOk, Waits, FinalStep, CanMove, Moved, MoveTouches;
    if ms != [] {
      OrderlyStepKeeps(cfg, w, ms[0]);
      OrderlyRunsAreFinal(cfg, Moved(cfg, w, ms[0]), ms[1..]);
    }
  }
}
