/** What concurrent runs of the file-based key store mean to its callers: what a reader finds, and which calls fail. */
module FileSystemRuns {
  import opened Wrappers
  import opened KeyModel
  import opened FileSystemKeyStores
  import L = PerKeyLocks

  // ---- What a reader finds --------------------------------------------------------------------

  /** A decided operation that has changed what is stored under the id. */
  predicate Touches(e: Logged, id: string) {
    e.outcome == Done && id == (if e.op.Delete? then e.op.keyId else e.op.key.keyId)
  }

  /** The last of the operations that changed the id, if one did. */
  predicate LastTouch(log: seq<Logged>, id: string, i: int) {
    0 <= i < |log| && Touches(log[i], id) && forall j :: i < j < |log| ==> !Touches(log[j], id)
  }

  lemma ReplayMore(keys: Keys, log: seq<Logged>, e: Logged, id: string)
    requires Legal(Some(keys), log + [e])
    requires var end := Replay(Some(keys), log); end.Some? && Distinct(end.value)
    ensures Legal(Some(keys), log)
    ensures var before, after := Replay(Some(keys), log), Replay(Some(keys), log + [e]);
      && after.Some? && Distinct(after.value)
      && Find(after.value, id) ==
           if !Touches(e, id) then Find(before.value, id) else if e.op.Delete? then None else Some(e.op.key)
  {
    hide Replay, Legal, Perform, Find, Distinct;
    LogExtended(Some(keys), log, e);
    PerformEffect(Replay(Some(keys), log).value, e.op, id);
  }

  /** Replaying a log, an id is found with what was written last under it, and as at first if nothing was. */
  lemma {:induction false} LastWriteWins(keys: Keys, log: seq<Logged>, id: string)
    requires Distinct(keys) && Legal(Some(keys), log)
    ensures var end := Replay(Some(keys), log);
      && end.Some? && Distinct(end.value)
      && (forall i :: LastTouch(log, id, i) ==>
            Find(end.value, id) == if log[i].op.Delete? then None else Some(log[i].op.key))
      && ((forall i :: 0 <= i < |log| ==> !Touches(log[i], id)) ==> Find(end.value, id) == Find(keys, id))
  {
    hide Distinct, Find, Touches;
    if log != [] {
      var n := |log| - 1;
      assert log == log[..n] + [log[n]];
      LegalPrefix(keys, log);
      LastWriteWins(keys, log[..n], id);
      ReplayMore(keys, log[..n], log[n], id);
      forall i | LastTouch(log, id, i)
        ensures Find(Replay(Some(keys), log).value, id) == if log[i].op.Delete? then None else Some(log[i].op.key)
      {
        if i < n {
          assert !Touches(log[n], id);
          assert LastTouch(log[..n], id, i) by {
            assert forall j :: i < j < n ==> log[..n][j] == log[j];
          }
        }
      }
    }
  }

  lemma LegalPrefix(keys: Keys, log: seq<Logged>)
    requires log != [] && Legal(Some(keys), log)
    ensures Legal(Some(keys), log[..|log| - 1])
  {
  }

  /**
   * In every concurrent run, what a secret's file holds under an id is what the last operation reported done on that
   * id wrote there, and what it held at first if there was none.
   */
  lemma ReadersFindTheLastWrite(c: Codec, s: State, steps: seq<Step>, name: string, id: string)
    requires CodecOk(c) && Initial(s) && Run(c, s, steps)
    requires Contents(c, s.files, name).Some? && Distinct(Contents(c, s.files, name).value)
    ensures var initial, end, log :=
        Contents(c, s.files, name), Contents(c, After(c, s, steps).files, name), LogOf(After(c, s, steps), name);
      && end.Some? && Distinct(end.value)
      && (forall i :: LastTouch(log, id, i) ==>
            Find(end.value, id) == if log[i].op.Delete? then None else Some(log[i].op.key))
      && ((forall i :: 0 <= i < |log| ==> !Touches(log[i], id)) ==> Find(end.value, id) == Find(initial.value, id))
  {
    hide Run, After, Contents, Legal, Replay, Find, Distinct, Touches;
    StoreIsLinearizable(c, s, steps, name);
    LastWriteWins(Contents(c, s.files, name).value, LogOf(After(c, s, steps), name), id);
  }

  // ---- Only failing calls fail an operation ---------------------------------------------------

  /** A file system call of the client's operation fails. */
  predicate Fails(step: Step, t: L.Ticket) {
    match step
    case ReadFile(u, ok) => u == t && !ok
    case WriteFile(u, _, ok) => u == t && !ok
    case RenameFile(u, ok, _) => u == t && !ok
    case _ => false
  }

  ghost predicate EndsInIoError(s: State, t: L.Ticket) {
    t < |s.pcs| && s.pcs[t] == Close(IoError)
  }

  lemma StepFails(c: Codec, s: State, step: Step, t: L.Ticket)
    requires |s.ops| == |s.pcs| == |s.lock.clients| && Enabled(c, s, step)
    ensures var s' := Next(c, s, step);
      && |s'.ops| == |s'.pcs| == |s'.lock.clients|
      && (EndsInIoError(s', t) <==> EndsInIoError(s, t) || Fails(step, t))
  {
    hide CodecOk, L.Acquired, L.Released, Assign, Unset, Serialize, HasKey, Parsed;
  }

  /**
   * In every run an operation ends with an I/O error exactly if one of its own file system calls failed: faults are
   * not invented, not hidden and not passed on to other callers.
   */
  lemma {:induction false} FailuresAreReal(c: Codec, s: State, steps: seq<Step>, t: L.Ticket)
    requires |s.ops| == |s.pcs| == |s.lock.clients| && Run(c, s, steps)
    ensures EndsInIoError(After(c, s, steps), t) <==>
      EndsInIoError(s, t) || exists i :: 0 <= i < |steps| && Fails(steps[i], t)
    decreases |steps|
  {
    hide EndsInIoError, Fails, Next, Enabled;
    if steps != [] {
      StepFails(c, s, steps[0], t);
      var s', rest := Next(c, s, steps[0]), steps[1..];
      FailuresAreReal(c, s', rest, t);
      if i :| 0 <= i < |rest| && Fails(rest[i], t) {
        assert steps[i + 1] == rest[i];
      }
      forall i | 0 <= i < |steps| && Fails(steps[i], t)
        ensures Fails(steps[0], t) || exists j :: 0 <= j < |rest| && Fails(rest[j], t)
      {
        if i > 0 { assert rest[i - 1] == steps[i]; }
      }
    }
  }
}
