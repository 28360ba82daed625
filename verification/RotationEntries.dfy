/**
 * How long a rollback entry can be found.  The list keeps the newest `maxEntries`, so a rotation in flight loses its
 * entry exactly when that many have been recorded after it.
 */
module RotationEntries {
  import opened KeyModel
  import opened RotationMachine
  import opened RotationInvariant
  import opened RotationTheorems
  import Provider = StagedProvider
  import Results = RotationResults

  /** The step records a rollback entry. */
  predicate Records(cfg: Config, s: State, l: Label)
    requires Enabled(s, l)
  {
    l.Advance? && s.rots[l.rid].pc.EmitGenerated? && cfg.rollback.Some? && s.rots[l.rid].made.Some?
  }

  /** How many entries the run records. */
  ghost function Recorded(cfg: Config, s: State, ls: seq<Label>): nat
    requires Run(cfg, s, ls)
    decreases |ls|
  {
    if ls == [] then 0
    else (if Records(cfg, s, ls[0]) then 1 else 0) + Recorded(cfg, Apply(cfg, s, ls[0]), ls[1..])
  }

  // ---- One entry ------------------------------------------------------------------------------

  /** The one entry with the id has `later` entries after it; none has it once that many are not kept. */
  ghost predicate EntryAt(entries: seq<Entry>, id: Rid, later: nat) {
    forall i :: 0 <= i < |entries| ==> (entries[i].id == id <==> i == |entries| - 1 - later)
  }

  lemma {:induction false} CompleteKeepsIds(entries: seq<Entry>, id: Rid)
    ensures |CompleteEntry(entries, id)| == |entries|
    ensures forall i :: 0 <= i < |entries| ==> CompleteEntry(entries, id)[i].id == entries[i].id
  {
    if entries != [] && entries[0].id != id {
      CompleteKeepsIds(entries[1..], id);
      assert CompleteEntry(entries, id) == [entries[0]] + CompleteEntry(entries[1..], id);
      forall i | 0 <= i < |entries| ensures CompleteEntry(entries, id)[i].id == entries[i].id {
        if i > 0 { assert entries[i] == entries[1..][i - 1]; }
      }
    }
  }

  lemma PushMoves(entries: seq<Entry>, e: Entry, maxEntries: int, id: Rid, later: nat)
    requires 0 < maxEntries && |entries| <= maxEntries && EntryAt(entries, id, later) && e.id != id
    ensures var after := PushEntry(entries, e, maxEntries);
      && EntryAt(after, id, later + 1) && |after| == (if |entries| == maxEntries then maxEntries else |entries| + 1)
  {
    var all, after := entries + [e], PushEntry(entries, e, maxEntries);
    var from := |all| - |after|;
    assert after == all[from..];
  }

  /** The run records no other entry under the id. */
  ghost predicate OthersRecord(cfg: Config, s: State, ls: seq<Label>, id: Rid)
    requires Run(cfg, s, ls)
    decreases |ls|
  {
    ls == [] ||
    ((Records(cfg, s, ls[0]) ==> ls[0].rid != id) && OthersRecord(cfg, Apply(cfg, s, ls[0]), ls[1..], id))
  }

  lemma EntriesFrame(cfg: Config, s: State, l: Label)
    requires Enabled(s, l)
    ensures var s' := Apply(cfg, s, l);
      && (Records(cfg, s, l) ==>
            l.Advance? && exists e: Entry :: e.id == l.rid && s'.entries == PushEntry(s.entries, e, cfg.rollback.value))
      && (!Records(cfg, s, l) ==>
            |s'.entries| == |s.entries| && forall i :: 0 <= i < |s.entries| ==> s'.entries[i].id == s.entries[i].id)
  {
    hide StepLocal;
    if l.Advance? {
      var r := s.rots[l.rid];
      CompleteKeepsIds(s.entries, l.rid);
      if Records(cfg, s, l) {
        var e := Entry(l.rid, r.secret, r.made.value.keyId, r.prevId, false, false);
        assert e.id == l.rid && Apply(cfg, s, l).entries == PushEntry(s.entries, e, cfg.rollback.value);
      }
    }
  }

  /**
   * An entry is found exactly as long as fewer than `maxEntries` have been recorded after it: the run begins where
   * `later` have been, with the entry still in the list or the list full.
   */
  lemma {:induction false} EntryIsKeptExactly(cfg: Config, s: State, ls: seq<Label>, id: Rid, later: nat)
    requires Run(cfg, s, ls) && OthersRecord(cfg, s, ls, id)
    requires cfg.rollback.Some? && 0 < cfg.rollback.value && |s.entries| <= cfg.rollback.value
    requires EntryAt(s.entries, id, later) && (later < |s.entries| || |s.entries| == cfg.rollback.value)
    ensures Kept(After(cfg, s, ls).entries, id) <==> later + Recorded(cfg, s, ls) < cfg.rollback.value
    decreases |ls|
  {
    hide Apply, Enabled, Records, EntryAt, Kept, PushEntry;
    if ls == [] {
      KeptWhere(s.entries, id, later);
    } else {
      var s' := Apply(cfg, s, ls[0]);
      EntriesFrame(cfg, s, ls[0]);
      if Records(cfg, s, ls[0]) {
        var e: Entry :| e.id == ls[0].rid && s'.entries == PushEntry(s.entries, e, cfg.rollback.value);
        PushMoves(s.entries, e, cfg.rollback.value, id, later);
        EntryIsKeptExactly(cfg, s', ls[1..], id, later + 1);
      } else {
        SameIds(s.entries, s'.entries, id, later);
        EntryIsKeptExactly(cfg, s', ls[1..], id, later);
      }
    }
  }

  lemma KeptWhere(entries: seq<Entry>, id: Rid, later: nat)
    requires EntryAt(entries, id, later)
    ensures Kept(entries, id) <==> later < |entries|
  {
    if later < |entries| {
      assert entries[|entries| - 1 - later] in entries;
    }
  }

  lemma SameIds(entries: seq<Entry>, after: seq<Entry>, id: Rid, later: nat)
    requires EntryAt(entries, id, later) && |after| == |entries|
    requires forall i :: 0 <= i < |entries| ==> after[i].id == entries[i].id
    ensures EntryAt(after, id, later)
  {
  }

  // ---- Room for all ---------------------------------------------------------------------------

  /** An entry with the id is among the last `n`, unless entries are never dropped. */
  ghost predicate AmongLast(entries: seq<Entry>, id: Rid, n: nat) {
    exists i :: 0 <= i < |entries| && |entries| - n <= i && entries[i].id == id
  }

  /** There is no rollback manager, it drops nothing, or it keeps `n` entries. */
  predicate HasRoomFor(cfg: Config, n: nat) {
    cfg.rollback.Some? ==> cfg.rollback.value == 0 || n <= cfg.rollback.value
  }

  /** Each rotation that has recorded an entry still has it among the last `n`. */
  ghost predicate AllKept(s: State, n: nat) {
    forall rid :: InFlight(s, rid) && s.rots[rid].hasEntry ==> AmongLast(s.entries, rid, n)
  }

  /** A run whose steps are good but for evictions. */
  ghost predicate GoodIfKept(cfg: Config, s: State, ls: seq<Label>, want: Claims)
    requires Run(cfg, s, ls)
    decreases |ls|
  {
    ls == [] ||
    (var l := ls[0];
     && (l.Start? ==> l.secret !in s.rotating)
     && (l.Advance? ==> StepOk(true, KeysOf(s, s.rots[l.rid].secret), s.rots[l.rid], l.o, want))
     && GoodIfKept(cfg, Apply(cfg, s, l), ls[1..], want))
  }

  lemma PushKeeps(entries: seq<Entry>, e: Entry, maxEntries: int, n: nat)
    requires maxEntries == 0 || n + 1 <= maxEntries
    ensures var after := PushEntry(entries, e, maxEntries);
      && AmongLast(after, e.id, n + 1)
      && forall id :: AmongLast(entries, id, n) ==> AmongLast(after, id, n + 1)
  {
    var all, after := entries + [e], PushEntry(entries, e, maxEntries);
    var from := |all| - |after|;
    assert after == all[from..] && after[|after| - 1] == e;
    forall id | AmongLast(entries, id, n) ensures AmongLast(after, id, n + 1) {
      var i :| 0 <= i < |entries| && |entries| - n <= i && entries[i].id == id;
      assert after[i - from] == entries[i];
    }
  }

  lemma KeptAmongLast(entries: seq<Entry>, id: Rid, n: nat)
    requires AmongLast(entries, id, n)
    ensures Kept(entries, id)
  {
    var i :| 0 <= i < |entries| && |entries| - n <= i && entries[i].id == id;
    assert entries[i] in entries;
  }

  lemma SameAmongLast(entries: seq<Entry>, after: seq<Entry>, id: Rid, n: nat)
    requires AmongLast(entries, id, n) && |after| == |entries|
    requires forall i :: 0 <= i < |entries| ==> after[i].id == entries[i].id
    ensures AmongLast(after, id, n)
  {
    var i :| 0 <= i < |entries| && |entries| - n <= i && entries[i].id == id;
    assert after[i].id == id;
  }

  lemma GoodWhenKept(cfg: Config, s: State, l: Label, n: nat, want: Claims)
    requires Enabled(s, l) && AllKept(s, n) && (l.Start? ==> l.secret !in s.rotating)
    requires l.Advance? ==> StepOk(true, KeysOf(s, s.rots[l.rid].secret), s.rots[l.rid], l.o, want)
    ensures GoodStep(s, l, want)
  {
    hide Kept, AmongLast, NewKeyIsActive, PreviousIsOut;
    if l.Advance? && s.rots[l.rid].hasEntry {
      assert InFlight(s, l.rid);
      KeptAmongLast(s.entries, l.rid, n);
    }
  }

  lemma SwitchKeepsEntry(cfg: Config, now: Time, next: Provider.VersionId, kept: bool, sl: Slice, r: Rotation,
                         o: Outcome)
    requires Possible(r, o) && (r.pc.ActivateExpire? || r.pc.ActivateUpdate?)
    ensures Progress(cfg, now, next, kept, sl, r, o).r.hasEntry == r.hasEntry
  {
    hide Find, Put, GetActive, FirstCompensation;
  }

  lemma ProgressEntry(cfg: Config, now: Time, next: Provider.VersionId, kept: bool, sl: Slice, r: Rotation, o: Outcome)
    requires Possible(r, o) && !Ending(r.pc)
    ensures Progress(cfg, now, next, kept, sl, r, o).r.hasEntry ==>
      r.hasEntry || (r.pc.EmitGenerated? && cfg.rollback.Some?)
  {
    hide Find, Put, GetActive, FirstCompensation, WriteKey;
    if r.pc.ActivateExpire? || r.pc.ActivateUpdate? {
      SwitchKeepsEntry(cfg, now, next, kept, sl, r, o);
    }
  }

  lemma CompensationKeepsEntry(now: Time, sl: Slice, r: Rotation, o: Outcome)
    requires Possible(r, o) && Ending(r.pc)
    ensures Compensation(now, sl, r, o).r.hasEntry == r.hasEntry
  {
    hide Find, Put, GetActive, AfterCancel, AfterMark;
  }

  lemma EmitsItsKey(cfg: Config, s: State, rid: Rid, want: Claims)
    requires Inv(cfg, s, want) && InFlight(s, rid) && s.rots[rid].pc.EmitGenerated?
    ensures s.rots[rid].made.Some?
  {
    hide HistoryOk, Overlay, Serves, QuietOk;
    Results.InFlightOk(cfg, s, rid, want);
  }

  /** A rotation comes to have an entry when that is recorded. */
  lemma EntryRecorded(cfg: Config, s: State, l: Label, rid: Rid, want: Claims)
    requires Inv(cfg, s, want) && Enabled(s, l) && InFlight(Apply(cfg, s, l), rid)
    requires Apply(cfg, s, l).rots[rid].hasEntry
    ensures InFlight(s, rid) && (!s.rots[rid].hasEntry ==> Records(cfg, s, l) && l.rid == rid)
  {
    hide Progress, Compensation, Inv, EntriesAfter;
    if l.Advance? {
      var r, kept, sl := s.rots[l.rid], Kept(s.entries, l.rid), SliceOf(s, s.rots[l.rid].secret);
      AdvanceFrame(cfg, s, l.rid, l.o);
      if Ending(r.pc) {
        CompensationKeepsEntry(s.now, sl, r, l.o);
      } else {
        ProgressEntry(cfg, s.now, s.nextVersion, kept, sl, r, l.o);
        if r.pc.EmitGenerated? {
          EmitsItsKey(cfg, s, l.rid, want);
        }
      }
    }
  }

  lemma StepKeepsAll(cfg: Config, s: State, l: Label, n: nat, want: Claims)
    requires Inv(cfg, s, want) && Enabled(s, l) && AllKept(s, n)
    requires HasRoomFor(cfg, n + if Records(cfg, s, l) then 1 else 0)
    ensures AllKept(Apply(cfg, s, l), n + if Records(cfg, s, l) then 1 else 0)
  {
    hide Apply, Inv, Enabled, Records, AmongLast, PushEntry;
    var s', n' := Apply(cfg, s, l), n + if Records(cfg, s, l) then 1 else 0;
    EntriesFrame(cfg, s, l);
    forall rid | InFlight(s', rid) && s'.rots[rid].hasEntry ensures AmongLast(s'.entries, rid, n') {
      EntryRecorded(cfg, s, l, rid, want);
      if Records(cfg, s, l) {
        RecordsWithManager(cfg, s, l);
        var e: Entry :| e.id == l.rid && s'.entries == PushEntry(s.entries, e, cfg.rollback.value);
        PushKeeps(s.entries, e, cfg.rollback.value, n);
      } else {
        SameAmongLast(s.entries, s'.entries, rid, n);
      }
    }
  }

  lemma RecordsWithManager(cfg: Config, s: State, l: Label)
    requires Enabled(s, l) && Records(cfg, s, l)
    ensures cfg.rollback.Some?
  {
  }

  /**
   * The results that ask that no entry be evicted hold of every run for which the rollback manager has room: it
   * keeps as many entries as the run records besides the `n` that rotations in flight already rely on, or drops
   * none at all.
   */
  lemma {:induction false} RoomKeepsRunsGood(cfg: Config, s: State, ls: seq<Label>, n: nat, want: Claims)
    requires Inv(cfg, s, want) && Run(cfg, s, ls) && GoodIfKept(cfg, s, ls, want) && AllKept(s, n)
    requires HasRoomFor(cfg, n + Recorded(cfg, s, ls))
    ensures GoodRun(cfg, s, ls, want)
    decreases |ls|
  {
    hide Apply, Inv, Enabled, Records, AllKept, StepOk;
    if ls != [] {
      var n' := n + if Records(cfg, s, ls[0]) then 1 else 0;
      GoodWhenKept(cfg, s, ls[0], n, want);
      StepKeepsAll(cfg, s, ls[0], n, want);
      StepKeeps(cfg, s, ls[0], want);
      RoomKeepsRunsGood(cfg, Apply(cfg, s, ls[0]), ls[1..], n', want);
    }
  }

  /** Before any rotation nothing relies on an entry. */
  lemma NothingRecorded(s: State, want: Claims)
    requires Initial(s, want)
    ensures AllKept(s, 0)
  {
  }

  /** So from the start: it is enough to keep as many entries as the run records. */
  lemma RoomFromTheStart(cfg: Config, s: State, ls: seq<Label>, want: Claims)
    requires Initial(s, want) && Run(cfg, s, ls) && GoodIfKept(cfg, s, ls, want)
    requires HasRoomFor(cfg, Recorded(cfg, s, ls))
    ensures GoodRun(cfg, s, ls, want)
  {
    hide Inv, AllKept, GoodIfKept, GoodRun, Run;
    Results.InitialInv(cfg, s, want);
    NothingRecorded(s, want);
    RoomKeepsRunsGood(cfg, s, ls, 0, want);
  }
}
