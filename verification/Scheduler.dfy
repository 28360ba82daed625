/**
 * Automatic rotation: `start`, `stop` and the self-rescheduling loop, as a machine whose steps are what
 * runs between two awaits or timer callbacks.
 */
module Schedules {
  import opened Wrappers

  /** Each `start` begins a chain of passes, each pass setting the timer of the next. */
  type Chain = nat

  /** A pass over the secrets, awaiting the rotation of the one at `index`. */
  datatype Pass = Pass(number: nat, begun: int, index: nat)

  datatype Timer = Timer(number: nat, due: int)

  /** A scheduled rotation that began. */
  datatype Begun = Begun(chain: Chain, pass: nat, index: nat, at: int)

  datatype Config = Config(intervalMs: int, secrets: nat)

  /** `scheduled` is the timer that `stop` would clear; it may have fired already. */
  datatype State = State(
    now: int,
    active: bool,
    scheduled: Option<Chain>,
    passes: map<Chain, Pass>,
    timers: map<Chain, Timer>,
    started: seq<int>,
    begins: seq<Begun>)

  datatype Step =
    | Tick(ms: nat)
    | StartSchedule
    | StopSchedule
    | Settle(c: Chain)      // the awaited rotation of a pass ended, and its error callback
    | Fire(c: Chain)

  /** The longest delay of a Node timer; a delay out of range becomes one millisecond. */
  const LONGEST_DELAY := 2147483647

  function Delay(ms: int): int {
    if ms < 1 || ms > LONGEST_DELAY then 1 else ms
  }

  predicate Enabled(s: State, step: Step) {
    match step
    case Tick(_) => true
    case StartSchedule => !s.active
    case StopSchedule => true
    case Settle(c) => c in s.passes
    case Fire(c) => c in s.timers && s.timers[c].due <= s.now
  }

  /**
   * The loop comes to the secret at `index`: it rotates it if the schedule is active, and else ends.  After the last
   * secret it sets the timer of the next pass.
   */
  function Visit(cfg: Config, s: State, c: Chain, p: Pass, index: nat): State {
    if index >= cfg.secrets then
      var left := p.begun + cfg.intervalMs - s.now;
      s.(passes := s.passes - {c},
         timers := s.timers[c := Timer(p.number + 1, s.now + Delay(if left > 0 then left else 0))],
         scheduled := Some(c))
    else if s.active then
      s.(passes := s.passes[c := p.(index := index)], begins := s.begins + [Begun(c, p.number, index, s.now)])
    else s.(passes := s.passes - {c})
  }

  function Next(cfg: Config, s: State, step: Step): State
    requires Enabled(s, step)
  {
    match step
    case Tick(ms) => s.(now := s.now + ms)
    case StartSchedule =>
      var c := |s.started|;
      Visit(cfg, s.(active := true, started := s.started + [s.now]), c, Pass(0, s.now, 0), 0)
    case StopSchedule =>
      s.(active := false, scheduled := None,
         timers := if s.scheduled.Some? then s.timers - {s.scheduled.value} else s.timers)
    case Settle(c) => Visit(cfg, s, c, s.passes[c], s.passes[c].index + 1)
    case Fire(c) =>
      var t := s.timers[c];
      Visit(cfg, s.(timers := s.timers - {c}), c, Pass(t.number, s.now, 0), 0)
  }

  ghost predicate Run(cfg: Config, s: State, steps: seq<Step>)
    decreases |steps|
  {
    steps == [] || (Enabled(s, steps[0]) && Run(cfg, Next(cfg, s, steps[0]), steps[1..]))
  }

  ghost function After(cfg: Config, s: State, steps: seq<Step>): State
    requires Run(cfg, s, steps)
    decreases |steps|
  {
    if steps == [] then s else After(cfg, Next(cfg, s, steps[0]), steps[1..])
  }

  function Idle(now: int): State {
    State(now, false, None, map[], map[], [], [])
  }

  // ---- Passes keep their distance -------------------------------------------------------------

  /** The time is at least `n` intervals after the chain's start. */
  ghost predicate InTime(cfg: Config, s: State, c: Chain, n: nat, at: int) {
    c < |s.started| && at >= s.started[c] + n * cfg.intervalMs
  }

  ghost predicate BeginsInTime(cfg: Config, s: State) {
    forall b :: b in s.begins ==> InTime(cfg, s, b.chain, b.pass, b.at)
  }

  ghost predicate Paced(cfg: Config, s: State) {
    && BeginsInTime(cfg, s)
    && (forall c :: c in s.passes ==>
          InTime(cfg, s, c, s.passes[c].number, s.passes[c].begun) && s.passes[c].begun <= s.now)
    && (forall c :: c in s.timers ==> InTime(cfg, s, c, s.timers[c].number, s.timers[c].due))
  }

  lemma OneIntervalLater(cfg: Config, s: State, c: Chain, n: nat, at: int, later: int)
    requires InTime(cfg, s, c, n, at) && later >= at + cfg.intervalMs
    ensures InTime(cfg, s, c, n + 1, later)
  {
    assert (n + 1) * cfg.intervalMs == n * cfg.intervalMs + cfg.intervalMs;
  }

  lemma StepKeepsPace(cfg: Config, s: State, step: Step)
    requires 0 < cfg.intervalMs <= LONGEST_DELAY && Paced(cfg, s) && Enabled(s, step)
    ensures Paced(cfg, Next(cfg, s, step))
  {
    match step
    case StartSchedule =>
      assert 0 * cfg.intervalMs == 0;
      var begun := s.(active := true, started := s.started + [s.now]);
      assert begun.started[..|s.started|] == s.started;
      VisitKeepsPace(cfg, begun, |s.started|, Pass(0, s.now, 0), 0);
    case Settle(c) => VisitKeepsPace(cfg, s, c, s.passes[c], s.passes[c].index + 1);
    case Fire(c) => VisitKeepsPace(cfg, s.(timers := s.timers - {c}), c, Pass(s.timers[c].number, s.now, 0), 0);
    case _ =>
  }

  lemma VisitKeepsPace(cfg: Config, s: State, c: Chain, p: Pass, index: nat)
    requires 0 < cfg.intervalMs <= LONGEST_DELAY && Paced(cfg, s)
    requires InTime(cfg, s, c, p.number, p.begun) && p.begun <= s.now
    ensures Paced(cfg, Visit(cfg, s, c, p, index))
  {
    if index >= cfg.secrets {
      OneIntervalLater(cfg, s, c, p.number, p.begun, Visit(cfg, s, c, p, index).timers[c].due);
    }
  }

  lemma {:induction false} RunKeepsPace(cfg: Config, s: State, steps: seq<Step>)
    requires 0 < cfg.intervalMs <= LONGEST_DELAY && Paced(cfg, s) && Run(cfg, s, steps)
    ensures Paced(cfg, After(cfg, s, steps))
    decreases |steps|
  {
    hide Paced, Next, Enabled;
    if steps != [] {
      StepKeepsPace(cfg, s, steps[0]);
      RunKeepsPace(cfg, Next(cfg, s, steps[0]), steps[1..]);
    }
  }

  /** Every rotation of pass `n` begins no earlier than `n` intervals after the start, in every run. */
  ghost predicate AlwaysPaced(cfg: Config) {
    forall now, steps :: Run(cfg, Idle(now), steps) ==> BeginsInTime(cfg, After(cfg, Idle(now), steps))
  }

  lemma LongIntervalRun(cfg: Config) returns (steps: seq<Step>)
    requires cfg.intervalMs > LONGEST_DELAY && cfg.secrets >= 1
    ensures Run(cfg, Idle(0), steps) && !BeginsInTime(cfg, After(cfg, Idle(0), steps))
  {
    var s0 := Idle(0);
    var s1 := Next(cfg, s0, StartSchedule);
    var s2, visits := FirstPass(cfg, s1);
    var late := [Tick(1), Fire(0)];
    var s3 := Next(cfg, s2, Tick(1));
    var s4 := Next(cfg, s3, Fire(0));
    var b := Begun(0, 1, 0, 1);
    assert b in s4.begins && 1 * cfg.intervalMs == cfg.intervalMs;
    assert late[1..] == [Fire(0)] && [Fire(0)][1..] == [];
    assert Run(cfg, s4, []) && Run(cfg, s3, [Fire(0)]) && Run(cfg, s2, late);
    assert After(cfg, s4, []) == s4 && After(cfg, s3, [Fire(0)]) == s4 && After(cfg, s2, late) == s4;
    RunsJoin(cfg, s1, visits, late);
    steps := [StartSchedule] + (visits + late);
    assert steps[1..] == visits + late;
  }

  lemma {:induction false} RunsJoin(cfg: Config, s: State, a: seq<Step>, b: seq<Step>)
    requires Run(cfg, s, a) && Run(cfg, After(cfg, s, a), b)
    ensures Run(cfg, s, a + b) && After(cfg, s, a + b) == After(cfg, After(cfg, s, a), b)
    decreases |a|
  {
    if a == [] {
      assert a + b == b;
    } else {
      RunsJoin(cfg, Next(cfg, s, a[0]), a[1..], b);
      assert (a + b)[1..] == a[1..] + b;
    }
  }

  /** All rotations of the first pass end at once. */
  lemma {:induction false} FirstPass(cfg: Config, s: State) returns (last: State, steps: seq<Step>)
    requires s.active && s.now == 0 && s.started == [0] && 0 in s.passes && s.timers == map[]
    requires s.passes[0].number == 0 && s.passes[0].begun == 0 && s.passes[0].index < cfg.secrets
    requires cfg.intervalMs > LONGEST_DELAY
    ensures Run(cfg, s, steps) && last == After(cfg, s, steps)
    ensures last.active && last.now == 0 && last.started == [0] && 0 in last.timers && last.timers[0] == Timer(1, 1)
    decreases cfg.secrets - s.passes[0].index
  {
    var s' := Next(cfg, s, Settle(0));
    if s.passes[0].index + 1 < cfg.secrets {
      var rest;
      last, rest := FirstPass(cfg, s');
      steps := [Settle(0)] + rest;
      assert steps[1..] == rest;
    } else {
      last, steps := s', [Settle(0)];
      assert steps[1..] == [];
    }
  }

  /**
   * Pass `n` begins no earlier than `n` intervals after the start, for any durations and failures, exactly
   * if the interval is one that a timer can wait for; a longer one makes the second pass follow at once.
   */
  lemma PaceNeedsTimerRange(cfg: Config)
    requires cfg.intervalMs > 0 && cfg.secrets >= 1
    ensures AlwaysPaced(cfg) <==> cfg.intervalMs <= LONGEST_DELAY
  {
    if cfg.intervalMs <= LONGEST_DELAY {
      forall now, steps | Run(cfg, Idle(now), steps) ensures BeginsInTime(cfg, After(cfg, Idle(now), steps)) {
        RunKeepsPace(cfg, Idle(now), steps);
      }
    } else {
      var steps := LongIntervalRun(cfg);
      assert !BeginsInTime(cfg, After(cfg, Idle(0), steps));
    }
  }

  // ---- Passes are complete --------------------------------------------------------------------

  /** The rotations that a chain has begun, in order. */
  ghost function Of(begins: seq<Begun>, c: Chain): seq<Begun> {
    if begins == [] then []
    else
      var n := |begins| - 1;
      Of(begins[..n], c) + (if begins[n].chain == c then [begins[n]] else [])
  }

  lemma OfMore(begins: seq<Begun>, b: Begun, c: Chain)
    ensures Of(begins + [b], c) == Of(begins, c) + (if b.chain == c then [b] else [])
  {
    assert (begins + [b])[..|begins|] == begins;
  }

  /** Rotation `k` of a chain is that of the secret at place `index` of its pass, all passes before being whole. */
  ghost predicate InTurn(cfg: Config, visits: seq<Begun>) {
    forall k :: 0 <= k < |visits| ==>
      visits[k].index < cfg.secrets && k == visits[k].pass * cfg.secrets + visits[k].index
  }

  /** How far a chain has come, by what is left of it. */
  ghost predicate Counted(cfg: Config, s: State, c: Chain) {
    var visits := Of(s.begins, c);
    && InTurn(cfg, visits)
    && (c >= |s.started| ==> visits == [] && c !in s.passes && c !in s.timers)
    && (c in s.passes ==>
          && c !in s.timers && s.passes[c].index < cfg.secrets
          && |visits| == s.passes[c].number * cfg.secrets + s.passes[c].index + 1)
    && (c in s.timers ==> |visits| == s.timers[c].number * cfg.secrets)
  }

  ghost predicate InOrder(cfg: Config, s: State) {
    forall c: Chain :: Counted(cfg, s, c)
  }

  lemma OneMoreInTurn(cfg: Config, visits: seq<Begun>, b: Begun)
    requires InTurn(cfg, visits) && b.index < cfg.secrets && |visits| == b.pass * cfg.secrets + b.index
    ensures InTurn(cfg, visits + [b])
  {
  }

  /** Visiting the secret that is next for its chain. */
  lemma VisitCounts(cfg: Config, s: State, c: Chain, p: Pass, index: nat)
    requires InTurn(cfg, Of(s.begins, c)) && c < |s.started| && c !in s.timers
    requires index <= cfg.secrets && |Of(s.begins, c)| == p.number * cfg.secrets + index
    ensures Counted(cfg, Visit(cfg, s, c, p, index), c)
  {
    hide Of, InTurn;
    if index >= cfg.secrets {
      assert (p.number + 1) * cfg.secrets == p.number * cfg.secrets + cfg.secrets;
    } else if s.active {
      var b := Begun(c, p.number, index, s.now);
      OfMore(s.begins, b, c);
      OneMoreInTurn(cfg, Of(s.begins, c), b);
    }
  }

  lemma VisitKeepsOthers(cfg: Config, s: State, c: Chain, p: Pass, index: nat, d: Chain)
    requires d != c && Counted(cfg, s, d)
    ensures Counted(cfg, Visit(cfg, s, c, p, index), d)
  {
    hide Of, InTurn;
    OfMore(s.begins, Begun(c, p.number, index, s.now), d);
    assert Of(s.begins, d) + [] == Of(s.begins, d);
  }

  lemma VisitKeepsOrder(cfg: Config, s: State, c: Chain, p: Pass, index: nat)
    requires forall d: Chain :: d != c ==> Counted(cfg, s, d)
    requires InTurn(cfg, Of(s.begins, c)) && c < |s.started| && c !in s.timers
    requires index <= cfg.secrets && |Of(s.begins, c)| == p.number * cfg.secrets + index
    ensures InOrder(cfg, Visit(cfg, s, c, p, index))
  {
    hide Of, InTurn, Visit, Counted;
    VisitCounts(cfg, s, c, p, index);
    forall d: Chain | d != c ensures Counted(cfg, Visit(cfg, s, c, p, index), d) {
      VisitKeepsOthers(cfg, s, c, p, index, d);
    }
  }

  lemma StepKeepsOrder(cfg: Config, s: State, step: Step)
    requires InOrder(cfg, s) && Enabled(s, step)
    ensures InOrder(cfg, Next(cfg, s, step))
  {
    hide Of, Visit, InTurn;
    match step
    case StartSchedule =>
      var c := |s.started|;
      var begun := s.(active := true, started := s.started + [s.now]);
      assert Counted(cfg, s, c);
      assert 0 * cfg.secrets == 0;
      forall d: Chain | d != c ensures Counted(cfg, begun, d) { assert Counted(cfg, s, d); }
      VisitKeepsOrder(cfg, begun, c, Pass(0, s.now, 0), 0);
    case Settle(c) =>
      assert Counted(cfg, s, c);
      VisitKeepsOrder(cfg, s, c, s.passes[c], s.passes[c].index + 1);
    case Fire(c) =>
      assert Counted(cfg, s, c);
      var fired := s.(timers := s.timers - {c});
      forall d: Chain | d != c ensures Counted(cfg, fired, d) { assert Counted(cfg, s, d); }
      VisitKeepsOrder(cfg, fired, c, Pass(s.timers[c].number, s.now, 0), 0);
    case _ =>
      var s' := Next(cfg, s, step);
      forall d: Chain ensures Counted(cfg, s', d) { assert Counted(cfg, s, d); }
  }

  lemma {:induction false} RunKeepsOrder(cfg: Config, s: State, steps: seq<Step>)
    requires InOrder(cfg, s) && Run(cfg, s, steps)
    ensures InOrder(cfg, After(cfg, s, steps))
    decreases |steps|
  {
    hide InOrder, Next, Enabled;
    if steps != [] {
      StepKeepsOrder(cfg, s, steps[0]);
      RunKeepsOrder(cfg, Next(cfg, s, steps[0]), steps[1..]);
    }
  }

  /**
   * In every run, the rotations begun after one `start` are those of the secrets in their order, one whole pass
   * after the other: none is skipped, repeated or taken out of turn.
   */
  lemma PassesVisitInTurn(cfg: Config, now: int, steps: seq<Step>, c: Chain, k: nat)
    requires Run(cfg, Idle(now), steps)
    ensures var visits := Of(After(cfg, Idle(now), steps).begins, c);
      k < |visits| ==> visits[k].index < cfg.secrets && k == visits[k].pass * cfg.secrets + visits[k].index
  {
    hide Of;
    var s := Idle(now);
    forall d: Chain ensures Counted(cfg, s, d) { NothingBegun(cfg, now, d); }
    RunKeepsOrder(cfg, s, steps);
    assert Counted(cfg, After(cfg, s, steps), c);
  }

  lemma NothingBegun(cfg: Config, now: int, c: Chain)
    ensures Counted(cfg, Idle(now), c)
  {
  }

  /**
   * While the schedule is active, no pass stops short: when a rotation settles, that of the next secret begins, and
   * after the last one the timer of the next pass is set, for one interval after this pass began or, if that is over
   * or out of a timer's range, for a millisecond from now; when a timer fires, its pass begins with the first secret.
   */
  lemma ActivePassGoesOn(cfg: Config, s: State, step: Step)
    requires s.active && Enabled(s, step) && cfg.secrets >= 1
    ensures var s' := Next(cfg, s, step);
      match step
      case Settle(c) =>
        var p := s.passes[c];
        if p.index + 1 < cfg.secrets then
          s'.begins == s.begins + [Begun(c, p.number, p.index + 1, s.now)] && c in s'.passes
        else
          var left := p.begun + cfg.intervalMs - s.now;
          c in s'.timers && s'.timers[c] ==
            Timer(p.number + 1, if 0 < left <= LONGEST_DELAY then p.begun + cfg.intervalMs else s.now + 1)
      case Fire(c) => s'.begins == s.begins + [Begun(c, s.timers[c].number, 0, s.now)] && c in s'.passes
      case _ => true
  {
  }

  // ---- Stopping -------------------------------------------------------------------------------

  /**
   * After `stop` no further scheduled rotation begins until there is another `start`, whatever rotations
   * were in flight and whatever timers their passes still set.
   */
  lemma {:induction false} StoppedStaysQuiet(cfg: Config, s: State, steps: seq<Step>)
    requires !s.active && Run(cfg, s, steps) && StartSchedule !in steps
    ensures After(cfg, s, steps).begins == s.begins && !After(cfg, s, steps).active
    decreases |steps|
  {
    if steps != [] {
      assert steps[0] in steps && forall x :: x in steps[1..] ==> x in steps;
      StoppedStaysQuiet(cfg, Next(cfg, s, steps[0]), steps[1..]);
    }
  }

  /** Nothing of a schedule is left: no pass runs and no timer is pending. */
  predicate AtRest(s: State) {
    s.passes == map[] && s.timers == map[]
  }

  ghost predicate Alive(s: State, c: Chain) {
    c in s.passes || c in s.timers
  }

  ghost predicate OneLoop(s: State) {
    && (forall c, d :: Alive(s, c) && Alive(s, d) ==> c == d)
    && (forall c :: c in s.passes ==> c !in s.timers)
  }

  /** Every `start` of the run comes when nothing of an earlier schedule is left. */
  ghost predicate RestedStarts(cfg: Config, s: State, steps: seq<Step>)
    requires Run(cfg, s, steps)
    decreases |steps|
  {
    steps == [] ||
    ((steps[0].StartSchedule? ==> AtRest(s)) && RestedStarts(cfg, Next(cfg, s, steps[0]), steps[1..]))
  }

  ghost predicate AlwaysOneLoop(cfg: Config, s: State, steps: seq<Step>)
    requires Run(cfg, s, steps)
    decreases |steps|
  {
    OneLoop(s) && (steps == [] || AlwaysOneLoop(cfg, Next(cfg, s, steps[0]), steps[1..]))
  }

  /** A chain is numbered by the starts before it. */
  ghost predicate ChainsBegun(s: State) {
    forall c: Chain :: Alive(s, c) ==> c < |s.started|
  }

  lemma StepKeepsOneLoop(cfg: Config, s: State, step: Step)
    requires OneLoop(s) && Enabled(s, step) && (step.StartSchedule? ==> AtRest(s))
    ensures OneLoop(Next(cfg, s, step))
  {
    var s' := Next(cfg, s, step);
    assert forall c :: Alive(s', c) ==> Alive(s, c) || (step.StartSchedule? && c == |s.started|);
  }

  lemma StepKeepsChainsBegun(cfg: Config, s: State, step: Step)
    requires ChainsBegun(s) && Enabled(s, step)
    ensures ChainsBegun(Next(cfg, s, step))
  {
    var s' := Next(cfg, s, step);
    assert forall c :: Alive(s', c) ==> Alive(s, c) || (step.StartSchedule? && c == |s.started|);
  }

  /** A `start` before that leaves a second loop running. */
  lemma EarlyStartDoubles(cfg: Config, s: State)
    requires ChainsBegun(s) && Enabled(s, StartSchedule) && !AtRest(s)
    ensures !OneLoop(Next(cfg, s, StartSchedule))
  {
    var s', new_ := Next(cfg, s, StartSchedule), |s.started|;
    var c: Chain :| c in s.passes || c in s.timers;
    assert Alive(s, c) && Alive(s', c) && Alive(s', new_) && c != new_;
  }

  /** In every run, there is never more than one loop exactly if every `start` comes when nothing is left. */
  lemma {:induction false} OneLoopExactly(cfg: Config, s: State, steps: seq<Step>)
    requires OneLoop(s) && ChainsBegun(s) && Run(cfg, s, steps)
    ensures AlwaysOneLoop(cfg, s, steps) <==> RestedStarts(cfg, s, steps)
    decreases |steps|
  {
    hide OneLoop, ChainsBegun, Next, AtRest;
    if steps != [] {
      StepKeepsChainsBegun(cfg, s, steps[0]);
      if steps[0].StartSchedule? && !AtRest(s) {
        EarlyStartDoubles(cfg, s);
      } else {
        StepKeepsOneLoop(cfg, s, steps[0]);
        OneLoopExactly(cfg, Next(cfg, s, steps[0]), steps[1..]);
      }
    }
  }

  /** A pending timer is the one `stop` would clear. */
  ghost predicate TimerIsScheduled(s: State) {
    forall c :: c in s.timers ==> s.scheduled == Some(c)
  }

  lemma StepKeepsScheduled(cfg: Config, s: State, step: Step)
    requires OneLoop(s) && TimerIsScheduled(s) && Enabled(s, step) && (step.StartSchedule? ==> AtRest(s))
    ensures TimerIsScheduled(Next(cfg, s, step))
  {
    forall c: Chain | c in s.timers ensures Alive(s, c) {}
    if step.Settle? { assert Alive(s, step.c); }
  }

  lemma {:induction false} RunKeepsScheduled(cfg: Config, s: State, steps: seq<Step>)
    requires OneLoop(s) && TimerIsScheduled(s) && Run(cfg, s, steps) && RestedStarts(cfg, s, steps)
    ensures TimerIsScheduled(After(cfg, s, steps))
    decreases |steps|
  {
    hide OneLoop, TimerIsScheduled, Next, AtRest;
    if steps != [] {
      StepKeepsOneLoop(cfg, s, steps[0]);
      StepKeepsScheduled(cfg, s, steps[0]);
      RunKeepsScheduled(cfg, Next(cfg, s, steps[0]), steps[1..]);
    }
  }

  /** Where every `start` has come at rest, a `stop` between two passes clears the timer and leaves nothing behind. */
  lemma StopBetweenPassesRests(cfg: Config, now: int, steps: seq<Step>)
    requires Run(cfg, Idle(now), steps) && RestedStarts(cfg, Idle(now), steps)
    ensures var s := After(cfg, Idle(now), steps);
      s.passes == map[] ==> AtRest(Next(cfg, s, StopSchedule))
  {
    RunKeepsScheduled(cfg, Idle(now), steps);
  }

  /** A `start` while the stopped schedule's pass is still awaiting a rotation leaves two loops running. */
  lemma EarlyRestartDoubles(cfg: Config, now: int)
    requires cfg.secrets >= 1
    ensures var steps := [StartSchedule, StopSchedule, StartSchedule];
      Run(cfg, Idle(now), steps) &&
      var s := After(cfg, Idle(now), steps);
      s.active && 0 in s.passes && 1 in s.passes && !OneLoop(s)
  {
    var s0 := Idle(now);
    var s1 := Next(cfg, s0, StartSchedule);
    var s2 := Next(cfg, s1, StopSchedule);
    var s3 := Next(cfg, s2, StartSchedule);
    var steps := [StartSchedule, StopSchedule, StartSchedule];
    assert steps[1..] == [StopSchedule, StartSchedule] && steps[1..][1..] == [StartSchedule];
    assert steps[1..][1..][1..] == [];
    assert Run(cfg, s3, []) && Run(cfg, s2, [StartSchedule]) && Run(cfg, s1, steps[1..]);
    assert After(cfg, s2, [StartSchedule]) == s3 && After(cfg, s1, steps[1..]) == s3;
    assert Alive(s3, 0) && Alive(s3, 1);
  }
}
