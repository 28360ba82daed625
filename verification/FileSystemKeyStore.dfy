/**
 * The file-based key store.  `save`, `update` and `delete` read the secret's file, change the record and
 * rewrite the file in separate awaited calls, inside a per-name lock; queries read without the lock.
 */
module FileSystemKeyStores {
  import opened Wrappers
  import opened KeyModel
  import L = PerKeyLocks

  // ---- Serialization --------------------------------------------------------------------------

  datatype SerializedKey = SerializedKey(
    keyId: string,
    secretName: string,
    encryptedMaterial: string,
    format: string,
    validFrom: string,
    validUntil: Option<string>,
    status: string,
    createdAt: string,
    rotatedAt: Option<string>,
    revokedAt: Option<string>,
    metadata: Option<map<string, Meta>>)

  type Record = seq<SerializedKey>

  /**
   * The foreign calls the store depends on: the file path of a name, a fresh temporary path, ISO dates, and
   * JSON with optional encryption (the number is the initialization vector).
   */
  datatype Codec = Codec(
    path: string -> string,
    temp: (string, nat) -> string,
    iso: Time -> string,
    parse: string -> Time,
    encode: (nat, Record) -> string,
    decode: string -> Option<Record>)

  /** Paths of distinct names differ and are no temporary paths; dates and files read back as written. */
  ghost predicate CodecOk(c: Codec) {
    && (forall a, b :: c.path(a) == c.path(b) ==> a == b)
    && (forall a, b, n :: c.path(a) != c.temp(b, n))
    && (forall t :: c.parse(c.iso(t)) == t)
    && (forall n, r :: c.decode(c.encode(n, r)) == Some(r))
  }

  function StatusText(s: Status): string {
    match s
    case Pending => "pending"
    case Active => "active"
    case Expired => "expired"
    case Revoked => "revoked"
    case Failed => "failed"
  }

  function ParseStatus(text: string): Status {
    if text == "pending" then Pending
    else if text == "active" then Active
    else if text == "expired" then Expired
    else if text == "revoked" then Revoked
    else Failed
  }

  function FormatText(f: Format): string {
    match f
    case Base64 => "base64"
    case Hex => "hex"
    case Pem => "pem"
    case Raw => "raw"
  }

  function ParseFormat(text: string): Format {
    if text == "base64" then Base64 else if text == "hex" then Hex else if text == "pem" then Pem else Raw
  }

  function MapOption<T, U>(f: T -> U, o: Option<T>): Option<U> {
    if o.Some? then Some(f(o.value)) else None
  }

  function Serialize(c: Codec, k: SecretKey): SerializedKey {
    SerializedKey(k.keyId, k.secretName, k.material, FormatText(k.format), c.iso(k.validFrom),
                  MapOption(c.iso, k.validUntil), StatusText(k.status), c.iso(k.createdAt),
                  MapOption(c.iso, k.rotatedAt), MapOption(c.iso, k.revokedAt), k.metadata)
  }

  function Deserialize(c: Codec, s: SerializedKey): SecretKey {
    SecretKey(s.keyId, s.secretName, s.encryptedMaterial, ParseFormat(s.format), c.parse(s.validFrom),
              MapOption(c.parse, s.validUntil), ParseStatus(s.status), c.parse(s.createdAt),
              MapOption(c.parse, s.rotatedAt), MapOption(c.parse, s.revokedAt), s.metadata)
  }

  /** A key read back is the key written. */
  lemma SerializationRoundTrip(c: Codec, k: SecretKey)
    requires CodecOk(c)
    ensures Deserialize(c, Serialize(c, k)) == k
  {
    hide StatusText, ParseStatus, FormatText, ParseFormat;
    StatusRoundTrip(k.status);
    FormatRoundTrip(k.format);
    OptionRoundTrip(c, k.validUntil);
    OptionRoundTrip(c, k.rotatedAt);
    OptionRoundTrip(c, k.revokedAt);
    assert c.parse(c.iso(k.validFrom)) == k.validFrom && c.parse(c.iso(k.createdAt)) == k.createdAt;
  }

  lemma OptionRoundTrip(c: Codec, o: Option<Time>)
    requires CodecOk(c)
    ensures MapOption(c.parse, MapOption(c.iso, o)) == o
  {
    if o.Some? {
      assert c.parse(c.iso(o.value)) == o.value;
    }
  }

  lemma StatusRoundTrip(s: Status)
    ensures ParseStatus(StatusText(s)) == s
  {
    var text := StatusText(s);
    assert text[0] ==
      match s case Pending => 'p' case Active => 'a' case Expired => 'e' case Revoked => 'r' case Failed => 'f';
  }

  lemma FormatRoundTrip(f: Format)
    ensures ParseFormat(FormatText(f)) == f
  {
    var text := FormatText(f);
    assert text[0] == match f case Base64 => 'b' case Hex => 'h' case Pem => 'p' case Raw => 'r';
  }

  function DeserializeAll(c: Codec, r: Record): Keys {
    if r == [] then [] else [Deserialize(c, r[0])] + DeserializeAll(c, r[1..])
  }

  /** `keys[id] = ...` on the parsed JSON object. */
  function Assign(r: Record, s: SerializedKey): Record {
    if r == [] then [s]
    else if r[0].keyId == s.keyId then [s] + r[1..]
    else [r[0]] + Assign(r[1..], s)
  }

  function Unset(r: Record, id: string): Record {
    if r == [] then [] else if r[0].keyId == id then r[1..] else [r[0]] + Unset(r[1..], id)
  }

  predicate HasKey(r: Record, id: string) {
    exists s :: s in r && s.keyId == id
  }

  lemma {:induction false} AssignIsPut(c: Codec, r: Record, k: SecretKey)
    requires CodecOk(c)
    ensures DeserializeAll(c, Assign(r, Serialize(c, k))) == Put(DeserializeAll(c, r), k)
  {
    SerializationRoundTrip(c, k);
    if r == [] {
    } else if r[0].keyId == k.keyId {
      assert ([Serialize(c, k)] + r[1..])[1..] == r[1..];
    } else {
      AssignIsPut(c, r[1..], k);
      assert ([r[0]] + Assign(r[1..], Serialize(c, k)))[1..] == Assign(r[1..], Serialize(c, k));
      assert DeserializeAll(c, r)[1..] == DeserializeAll(c, r[1..]);
    }
  }

  lemma {:induction false} UnsetIsRemove(c: Codec, r: Record, id: string)
    ensures DeserializeAll(c, Unset(r, id)) == Remove(DeserializeAll(c, r), id)
  {
    if r != [] {
      assert DeserializeAll(c, r)[1..] == DeserializeAll(c, r[1..]);
      if r[0].keyId != id {
        UnsetIsRemove(c, r[1..], id);
        assert ([r[0]] + Unset(r[1..], id))[1..] == Unset(r[1..], id);
      }
    }
  }

  /** Unsetting an entry of a parsed file with one entry per id takes out its position alone, in order. */
  lemma {:induction false} UnsetAt(r: Record, i: nat)
    requires i < |r| && forall a, b :: 0 <= a < b < |r| ==> r[a].keyId != r[b].keyId
    ensures Unset(r, r[i].keyId) == r[..i] + r[i + 1..]
  {
    if i == 0 {
      assert r[..0] + r[1..] == r[1..];
    } else {
      UnsetAt(r[1..], i - 1);
      OthersStay(r, i);
    }
  }

  lemma OthersStay(r: Record, i: nat)
    requires 0 < i < |r|
    ensures [r[0]] + (r[1..][..i - 1] + r[1..][i..]) == r[..i] + r[i + 1..]
  {
    assert [r[0]] + r[1..][..i - 1] == r[..i];
  }

  lemma {:induction false} HasKeyIsFind(c: Codec, r: Record, id: string)
    ensures HasKey(r, id) <==> Find(DeserializeAll(c, r), id).Some?
  {
    if r != [] {
      HasKeyIsFind(c, r[1..], id);
      assert DeserializeAll(c, r)[1..] == DeserializeAll(c, r[1..]);
      assert forall s :: s in r <==> s == r[0] || s in r[1..];
    }
  }

  // ---- The sequential store -------------------------------------------------------------------

  datatype Op = Save(key: SecretKey) | Modify(key: SecretKey) | Delete(secretName: string, keyId: string)

  function NameOf(op: Op): string {
    match op
    case Save(key) => key.secretName
    case Modify(key) => key.secretName
    case Delete(name, _) => name
  }

  /** How an operation ends: `IoError` is a failing read or write, `Corrupt` a file that does not parse. */
  datatype Outcome = Done | NotFound | Corrupt | IoError

  /** One operation on the in-memory store; `None` stands for a secret whose file does not parse. */
  function Perform(content: Option<Keys>, op: Op): (Option<Keys>, Outcome) {
    if content.None? then (None, Corrupt)
    else
      match op
      case Save(key) => (Some(Put(content.value, key)), Done)
      case Modify(key) =>
        if Find(content.value, key.keyId).None? then (content, NotFound) else (Some(Put(content.value, key)), Done)
      case Delete(_, id) => (Some(Remove(content.value, id)), Done)
  }

  /**
   * Record by record, what an operation on parsed content does: `save` and `update` store their key under its id, if
   * `update` finds it there; `delete` takes its id out; no other record changes, and ids stay distinct.
   */
  lemma PerformEffect(keys: Keys, op: Op, x: string)
    requires Distinct(keys)
    ensures var (after, outcome) := Perform(Some(keys), op);
      && after.Some? && Distinct(after.value)
      && outcome == (if op.Modify? && Find(keys, op.key.keyId) == None then NotFound else Done)
      && Find(after.value, x) ==
           if outcome == NotFound then Find(keys, x)
           else if op.Delete? then if x == op.keyId then None else Find(keys, x)
           else if x == op.key.keyId then Some(op.key) else Find(keys, x)
  {
    hide Put, Remove, Find, Ids, Distinct;
    match op
    case Delete(_, id) => FindRemove(keys, id, x);
    case _ =>
      FindPut(keys, op.key, x);
      if Find(keys, op.key.keyId).None? { PutNew(keys, op.key); } else { PutAt(keys, op.key); }
  }

  datatype Logged = Logged(ticket: L.Ticket, op: Op, outcome: Outcome)

  /** Running the logged operations one after the other; a failed I/O call has no effect. */
  function Replay(content: Option<Keys>, log: seq<Logged>): Option<Keys> {
    if log == [] then content
    else
      var before := Replay(content, log[..|log| - 1]);
      var last := log[|log| - 1];
      if last.outcome == IoError then before else Perform(before, last.op).0
  }

  /** Each logged outcome is the one the sequential store gives at that point, or an I/O failure. */
  ghost predicate Legal(content: Option<Keys>, log: seq<Logged>) {
    log == [] ||
    (var before, last := Replay(content, log[..|log| - 1]), log[|log| - 1];
     Legal(content, log[..|log| - 1]) && (last.outcome == IoError || last.outcome == Perform(before, last.op).1))
  }

  // ---- The concurrent store -------------------------------------------------------------------

  /** Where a client's `withLock` body stands. */
  datatype Pc =
    | Start
    | Read
    | WriteTemp(record: Record)
    | Rename(temp: string)
    | Close(outcome: Outcome)

  datatype State = State(
    lock: L.State,
    ops: seq<Op>,                    // by ticket
    pcs: seq<Pc>,
    files: map<string, string>,
    log: map<string, seq<Logged>>)   // for proofs: decided operations per name, in order of decision

  datatype Step =
    | Request(op: Op)
    | Enter(t: L.Ticket)
    | ReadFile(t: L.Ticket, ok: bool)
    | WriteFile(t: L.Ticket, nonce: nat, ok: bool)
    | RenameFile(t: L.Ticket, ok: bool, unlinked: bool)  // a failed rename tries to unlink the temporary file
    | Leave(t: L.Ticket)

  predicate At(s: State, t: L.Ticket) {
    t < |s.lock.clients| && t < |s.ops| && t < |s.pcs|
  }

  /** A temporary path is unique: it carries the time and a random suffix. */
  predicate Enabled(c: Codec, s: State, step: Step) {
    match step
    case Request(_) => true
    case Enter(t) => At(s, t) && s.pcs[t].Start? && L.Enabled(s.lock, L.Enter(t))
    case ReadFile(t, _) => At(s, t) && s.pcs[t].Read?
    case WriteFile(t, nonce, _) => At(s, t) && s.pcs[t].WriteTemp? && c.temp(NameOf(s.ops[t]), nonce) !in s.files
    case RenameFile(t, _, _) => At(s, t) && s.pcs[t].Rename? && s.pcs[t].temp in s.files
    case Leave(t) => At(s, t) && s.pcs[t].Close? && L.Enabled(s.lock, L.Leave(t))
  }

  function LogOf(s: State, name: string): seq<Logged> {
    if name in s.log then s.log[name] else []
  }

  /** The client's operation is decided: it will release the lock with this outcome. */
  function Decide(s: State, t: L.Ticket, outcome: Outcome): State
    requires At(s, t)
  {
    var op := s.ops[t];
    s.(pcs := s.pcs[t := Close(outcome)],
       log := s.log[NameOf(op) := LogOf(s, NameOf(op)) + [Logged(t, op, outcome)]])
  }

  /** The parsed file, an empty object if there is none (ENOENT). */
  function Parsed(c: Codec, files: map<string, string>, name: string): Option<Record> {
    if c.path(name) in files then c.decode(files[c.path(name)]) else Some([])
  }

  function AfterRead(c: Codec, s: State, t: L.Ticket): State
    requires At(s, t)
  {
    var op := s.ops[t];
    var parsed := Parsed(c, s.files, NameOf(op));
    if parsed.None? then Decide(s, t, Corrupt)
    else
      var r := parsed.value;
      match op
      case Save(key) => s.(pcs := s.pcs[t := WriteTemp(Assign(r, Serialize(c, key)))])
      case Modify(key) =>
        if !HasKey(r, key.keyId) then Decide(s, t, NotFound)
        else s.(pcs := s.pcs[t := WriteTemp(Assign(r, Serialize(c, key)))])
      case Delete(_, id) => s.(pcs := s.pcs[t := WriteTemp(Unset(r, id))])
  }

  function Next(c: Codec, s: State, step: Step): State
    requires Enabled(c, s, step)
  {
    match step
    case Request(op) =>
      s.(lock := L.Next(s.lock, L.Request(NameOf(op))), ops := s.ops + [op], pcs := s.pcs + [Start])
    case Enter(t) => s.(lock := L.Next(s.lock, L.Enter(t)), pcs := s.pcs[t := Read])
    case ReadFile(t, ok) => if ok then AfterRead(c, s, t) else Decide(s, t, IoError)
    case WriteFile(t, nonce, ok) =>
      var temp := c.temp(NameOf(s.ops[t]), nonce);
      var file := c.encode(nonce, s.pcs[t].record);
      if ok then s.(files := s.files[temp := file], pcs := s.pcs[t := Rename(temp)])
      else Decide(s, t, IoError)
    case RenameFile(t, ok, unlinked) =>
      var path, temp := c.path(NameOf(s.ops[t])), s.pcs[t].temp;
      if ok then Decide(s.(files := (s.files - {temp})[path := s.files[temp]]), t, Done)
      else Decide(if unlinked then s.(files := s.files - {temp}) else s, t, IoError)
    case Leave(t) => s.(lock := L.Next(s.lock, L.Leave(t)))
  }

  /** What a query of the secret sees when it reads the file, at any moment and without the lock. */
  function Contents(c: Codec, files: map<string, string>, name: string): Option<Keys> {
    var parsed := Parsed(c, files, name);
    if parsed.None? then None else Some(DeserializeAll(c, parsed.value))
  }

  // ---- The store's methods --------------------------------------------------------------------

  /** The store as one caller at a time sees it; `faults` are the answers of the file system. */
  class FileSystemKeyStore {
    const codec: Codec
    var files: map<string, string>

    constructor (codec: Codec, files: map<string, string>)
      ensures this.codec == codec && this.files == files
    {
      this.codec, this.files := codec, files;
    }

    ghost function Held(name: string): Option<Keys>
      reads this
    {
      Contents(codec, files, name)
    }

    /** A secret's file parses and holds one record per id. */
    ghost predicate Tidy(name: string)
      reads this
    {
      Held(name).Some? && Distinct(Held(name).value)
    }

    ghost predicate Stored(name: string, id: string)
      reads this
    {
      Held(name).Some? && Find(Held(name).value, id).Some?
    }

    /** An operation fails on the first call that fails, and on a file that does not parse. */
    twostate predicate Ends(name: string, found: bool, readFails: bool, writeFails: bool, renameFails: bool,
                            outcome: Outcome)
      reads this
    {
      outcome ==
        if readFails then IoError
        else if old(Held(name)) == None then Corrupt
        else if !found then NotFound
        else if writeFails || renameFails then IoError
        else Done
    }

    /** The outcome is the sequential store's, with its effect, or an I/O failure without any. */
    twostate predicate Did(op: Op, outcome: Outcome)
      reads this
    {
      && (if outcome == IoError then Held(NameOf(op)) == old(Held(NameOf(op)))
          else (Held(NameOf(op)), outcome) == Perform(old(Held(NameOf(op))), op))
      && forall other :: other != NameOf(op) ==> Held(other) == old(Held(other))
    }

    /** `None` with the outcome if reading fails; a missing file reads as no records. */
    method ReadSecretFile(name: string, readFails: bool) returns (r: Result<Record, Outcome>)
      ensures readFails ==> r == Failure(IoError)
      ensures !readFails ==>
        r == match Parsed(codec, files, name) case None => Failure(Corrupt) case Some(v) => Success(v)
    {
      if readFails {
        return Failure(IoError);
      }
      if codec.path(name) !in files {
        return Success([]);
      }
      var parsed := codec.decode(files[codec.path(name)]);
      return if parsed.None? then Failure(Corrupt) else Success(parsed.value);
    }

    /** Writes a fresh temporary file and renames it over the secret's file. */
    method WriteSecretFile(name: string, record: Record, nonce: nat, writeFails: bool, renameFails: bool,
                           unlinkFails: bool)
      returns (outcome: Outcome)
      requires CodecOk(codec) && codec.temp(name, nonce) !in files
      modifies this
      ensures outcome == if writeFails || renameFails then IoError else Done
      ensures Held(name) == if outcome == Done then Some(DeserializeAll(codec, record)) else old(Held(name))
      ensures forall other :: other != name ==> Held(other) == old(Held(other))
    {
      hide DeserializeAll;
      var path, temp := codec.path(name), codec.temp(name, nonce);
      if writeFails {
        return IoError;
      }
      files := files[temp := codec.encode(nonce, record)];
      if renameFails {
        if !unlinkFails {
          files := files - {temp};
        }
        return IoError;
      }
      files := (files - {temp})[path := files[temp]];
      return Done;
    }

    method Save(key: SecretKey, nonce: nat, readFails: bool, writeFails: bool, renameFails: bool, unlinkFails: bool)
      returns (outcome: Outcome)
      requires CodecOk(codec) && codec.temp(key.secretName, nonce) !in files
      modifies this
      ensures Did(Op.Save(key), outcome)
      ensures Ends(key.secretName, true, readFails, writeFails, renameFails, outcome)
      ensures outcome != Done ==> Held(key.secretName) == old(Held(key.secretName))
      ensures old(Tidy(key.secretName)) && outcome == Done ==>
        && Tidy(key.secretName)
        && forall x :: Find(Held(key.secretName).value, x) ==
             if x == key.keyId then Some(key) else Find(old(Held(key.secretName)).value, x)
    {
      hide CodecOk, Put, Remove, Find, Distinct, Ids, DeserializeAll, Assign, Unset, Parsed, Serialize;
      ghost var before := Held(key.secretName);
      if Tidy(key.secretName) {
        PerformEffect(before.value, Op.Save(key), "");
        forall x { PerformEffect(before.value, Op.Save(key), x); }
      }
      var keys := ReadSecretFile(key.secretName, readFails);
      if keys.Failure? {
        return keys.error;
      }
      AssignIsPut(codec, keys.value, key);
      outcome := WriteSecretFile(key.secretName, Assign(keys.value, Serialize(codec, key)), nonce,
                                 writeFails, renameFails, unlinkFails);
    }

    method Update(key: SecretKey, nonce: nat, readFails: bool, writeFails: bool, renameFails: bool, unlinkFails: bool)
      returns (outcome: Outcome)
      requires CodecOk(codec) && codec.temp(key.secretName, nonce) !in files
      modifies this
      ensures Did(Op.Modify(key), outcome)
      ensures Ends(key.secretName, old(Stored(key.secretName, key.keyId)), readFails, writeFails, renameFails, outcome)
      ensures outcome != Done ==> Held(key.secretName) == old(Held(key.secretName))
      ensures old(Tidy(key.secretName)) && outcome == Done ==>
        && Tidy(key.secretName)
        && forall x :: Find(Held(key.secretName).value, x) ==
             if x == key.keyId then Some(key) else Find(old(Held(key.secretName)).value, x)
    {
      hide CodecOk, HasKey, Put, Remove, Find, Distinct, Ids, DeserializeAll, Assign, Unset, Parsed, Serialize;
      ghost var before := Held(key.secretName);
      if Tidy(key.secretName) {
        PerformEffect(before.value, Op.Modify(key), "");
        forall x { PerformEffect(before.value, Op.Modify(key), x); }
      }
      var keys := ReadSecretFile(key.secretName, readFails);
      if keys.Failure? {
        return keys.error;
      }
      HasKeyIsFind(codec, keys.value, key.keyId);
      if !HasKey(keys.value, key.keyId) {
        return NotFound;
      }
      AssignIsPut(codec, keys.value, key);
      outcome := WriteSecretFile(key.secretName, Assign(keys.value, Serialize(codec, key)), nonce,
                                 writeFails, renameFails, unlinkFails);
    }

    method Delete(name: string, keyId: string, nonce: nat, readFails: bool, writeFails: bool, renameFails: bool,
                  unlinkFails: bool)
      returns (outcome: Outcome)
      requires CodecOk(codec) && codec.temp(name, nonce) !in files
      modifies this
      ensures Did(Op.Delete(name, keyId), outcome)
      ensures Ends(name, true, readFails, writeFails, renameFails, outcome)
      ensures outcome != Done ==> Held(name) == old(Held(name))
      ensures old(Tidy(name)) && outcome == Done ==>
        && Tidy(name)
        && forall x :: Find(Held(name).value, x) ==
             if x == keyId then None else Find(old(Held(name)).value, x)
    {
      hide CodecOk, Put, Remove, Find, Distinct, Ids, DeserializeAll, Assign, Unset, Parsed, Serialize;
      ghost var before := Held(name);
      if Tidy(name) {
        PerformEffect(before.value, Op.Delete(name, keyId), "");
        forall x { PerformEffect(before.value, Op.Delete(name, keyId), x); }
      }
      var keys := ReadSecretFile(name, readFails);
      if keys.Failure? {
        return keys.error;
      }
      UnsetIsRemove(codec, keys.value, keyId);
      outcome := WriteSecretFile(name, Unset(keys.value, keyId), nonce, writeFails, renameFails, unlinkFails);
    }

    /** All records of a secret; the other queries select from these as the in-memory store does. */
    method List(name: string, readFails: bool) returns (r: Result<Keys, Outcome>)
      ensures readFails ==> r == Failure(IoError)
      ensures !readFails ==> r == match Held(name) case None => Failure(Corrupt) case Some(keys) => Success(keys)
    {
      var keys := ReadSecretFile(name, readFails);
      return if keys.Failure? then Failure(keys.error) else Success(DeserializeAll(codec, keys.value));
    }
  }

  // ---- Runs -----------------------------------------------------------------------------------

  ghost predicate Initial(s: State) {
    s.lock == L.START && s.ops == [] && s.pcs == [] && s.log == map[]
  }

  ghost predicate Run(c: Codec, s: State, steps: seq<Step>)
    decreases |steps|
  {
    steps == [] || (Enabled(c, s, steps[0]) && Run(c, Next(c, s, steps[0]), steps[1..]))
  }

  ghost function After(c: Codec, s: State, steps: seq<Step>): State
    requires Run(c, s, steps)
    decreases |steps|
  {
    if steps == [] then s else After(c, Next(c, s, steps[0]), steps[1..])
  }

  // ---- The invariant --------------------------------------------------------------------------

  ghost function Tickets(log: seq<Logged>): seq<L.Ticket> {
    if log == [] then [] else Tickets(log[..|log| - 1]) + [log[|log| - 1].ticket]
  }

  /** A client between its read and its rename holds what its operation makes of the current content. */
  ghost predicate PendingOk(c: Codec, files: map<string, string>, op: Op, pc: Pc) {
    var content := Contents(c, files, NameOf(op));
    && (pc.WriteTemp? ==> Perform(content, op) == (Some(DeserializeAll(c, pc.record)), Done))
    && (pc.Rename? ==>
         && (forall name :: pc.temp != c.path(name))
         && pc.temp in files && c.decode(files[pc.temp]).Some?
         && Perform(content, op) == (Some(DeserializeAll(c, c.decode(files[pc.temp]).value)), Done))
  }

  ghost predicate ClientOk(c: Codec, s: State, t: L.Ticket)
    requires At(s, t)
  {
    && s.lock.clients[t].name == NameOf(s.ops[t])
    && (s.lock.clients[t].phase == L.Waiting <==> s.pcs[t].Start?)
    && (s.lock.clients[t].phase == L.Left ==> s.pcs[t].Close?)
    && PendingOk(c, s.files, s.ops[t], s.pcs[t])
  }

  ghost predicate ClientsOk(c: Codec, s: State) {
    && |s.ops| == |s.pcs| == |s.lock.clients|
    && (forall t: L.Ticket :: At(s, t) ==> ClientOk(c, s, t))
    && TempsApart(s)
  }

  ghost predicate TempsApart(s: State) {
    forall t: L.Ticket, u: L.Ticket :: At(s, t) && At(s, u) && s.pcs[t].Rename? && s.pcs[u].Rename? && t != u ==>
      s.pcs[t].temp != s.pcs[u].temp
  }

  /** The clients whose operation is decided: those who left, and the holder once it closes. */
  ghost function Decided(s: State, name: string): seq<L.Ticket> {
    var queue := L.QueueOf(s.lock.lock, name);
    L.LeftOf(s.lock, name)
    + (if queue != [] && queue[0] < |s.pcs| && s.pcs[queue[0]].Close? then [queue[0]] else [])
  }

  ghost predicate LogOk(c: Codec, s: State, initial: map<string, string>, name: string) {
    && Tickets(LogOf(s, name)) == Decided(s, name)
    && Legal(Contents(c, initial, name), LogOf(s, name))
    && Contents(c, s.files, name) == Replay(Contents(c, initial, name), LogOf(s, name))
    && EntriesOk(s, LogOf(s, name))
  }

  ghost predicate EntriesOk(s: State, log: seq<Logged>) {
    forall i :: 0 <= i < |log| ==> EntryOk(s, log[i])
  }

  predicate EntryOk(s: State, e: Logged) {
    e.ticket < |s.ops| && e.ticket < |s.pcs| && e.op == s.ops[e.ticket] && s.pcs[e.ticket] == Close(e.outcome)
  }

  ghost predicate Inv(c: Codec, s: State, initial: map<string, string>) {
    && L.Inv(s.lock)
    && ClientsOk(c, s)
    && forall name :: LogOk(c, s, initial, name)
  }

  // ---- Preservation ---------------------------------------------------------------------------

  lemma PathsApart(c: Codec, files: map<string, string>, name: string, path: string, file: string)
    requires path != c.path(name)
    ensures Contents(c, files[path := file], name) == Contents(c, files, name)
    ensures Contents(c, files - {path}, name) == Contents(c, files, name)
  {
  }

  /** Only the head of a queue is past its start. */
  lemma OthersWait(c: Codec, s: State, t: L.Ticket, u: L.Ticket)
    requires L.Inv(s.lock) && ClientsOk(c, s) && At(s, t) && At(s, u) && t != u
    requires NameOf(s.ops[t]) == NameOf(s.ops[u])
    requires s.lock.clients[t].phase == L.Holding
    ensures s.pcs[u].Start? || s.pcs[u].Close?
  {
    assert ClientOk(c, s, t) && ClientOk(c, s, u);
    L.MutualExclusion(s.lock, NameOf(s.ops[t]));
  }

  /** Nothing a client has decided is revised. */
  ghost predicate ClosedKept(a: State, b: State) {
    forall t: L.Ticket :: t < |a.ops| && t < |a.pcs| && a.pcs[t].Close? ==>
      t < |b.ops| && t < |b.pcs| && b.pcs[t] == a.pcs[t] && b.ops[t] == a.ops[t]
  }

  lemma EntriesKept(a: State, b: State, log: seq<Logged>)
    requires EntriesOk(a, log) && ClosedKept(a, b)
    ensures EntriesOk(b, log)
  {
    forall i | 0 <= i < |log| ensures EntryOk(b, log[i]) {
      assert EntryOk(a, log[i]);
    }
  }

  /** A log stays in order through a step that does not concern it. */
  lemma LogUntouched(c: Codec, a: State, b: State, initial: map<string, string>, name: string)
    requires LogOk(c, a, initial, name) && ClosedKept(a, b)
    requires LogOf(b, name) == LogOf(a, name) && Decided(b, name) == Decided(a, name)
    requires Contents(c, b.files, name) == Contents(c, a.files, name)
    ensures LogOk(c, b, initial, name)
  {
    hide Contents, Legal, Replay, Decided, Tickets, EntriesOk, ClosedKept;
    EntriesKept(a, b, LogOf(a, name));
  }

  lemma RequestKeeps(c: Codec, s: State, op: Op, initial: map<string, string>)
    requires CodecOk(c) && Inv(c, s, initial)
    ensures Inv(c, Next(c, s, Request(op)), initial)
  {
    hide L.Inv, LogOk, ClientsOk, Decided, Contents, L.Acquired;
    var s' := Next(c, s, Request(op));
    L.StepKeepsInv(s.lock, L.Request(NameOf(op)));
    RequestKeepsClients(c, s, op);
    forall name ensures LogOk(c, s', initial, name) {
      RequestKeepsDecided(c, s, op, name);
      LogUntouched(c, s, s', initial, name);
    }
  }

  lemma RequestKeepsClients(c: Codec, s: State, op: Op)
    requires ClientsOk(c, s)
    ensures ClientsOk(c, Next(c, s, Request(op)))
  {
    hide PendingOk;
    var s' := Next(c, s, Request(op));
    forall t: L.Ticket | At(s', t) ensures ClientOk(c, s', t) {
      if t < |s.ops| {
        assert ClientOk(c, s, t);
      } else {
        StartIsOk(c, s'.files, op);
      }
    }
    assert TempsApart(s') by {
      assert forall t: L.Ticket :: At(s', t) && s'.pcs[t].Rename? ==> At(s, t) && s.pcs[t] == s'.pcs[t];
    }
  }

  lemma ClosedIsOk(c: Codec, files: map<string, string>, op: Op, outcome: Outcome)
    ensures PendingOk(c, files, op, Close(outcome))
  {
  }

  lemma StartIsOk(c: Codec, files: map<string, string>, op: Op)
    ensures PendingOk(c, files, op, Start) && PendingOk(c, files, op, Read)
  {
  }

  lemma RequestKeepsDecided(c: Codec, s: State, op: Op, name: string)
    requires L.Inv(s.lock) && ClientsOk(c, s)
    ensures Decided(Next(c, s, Request(op)), name) == Decided(s, name)
  {
    hide L.Inv;
    L.RequestQueue(s.lock, NameOf(op), name);
    if L.QueueOf(s.lock.lock, name) != [] {
      L.Place(s.lock, name, 0);
    }
  }

  lemma EnterKeeps(c: Codec, s: State, t: L.Ticket, initial: map<string, string>)
    requires CodecOk(c) && Inv(c, s, initial) && Enabled(c, s, Enter(t))
    ensures Inv(c, Next(c, s, Enter(t)), initial)
  {
    hide L.Inv, LogOk, ClientsOk, Contents, Decided;
    var s' := Next(c, s, Enter(t));
    L.StepKeepsInv(s.lock, L.Enter(t));
    EnterKeepsClients(c, s, t);
    forall name ensures LogOk(c, s', initial, name) {
      EnterKeepsDecided(c, s, t, name);
      LogUntouched(c, s, s', initial, name);
    }
  }

  lemma EnterKeepsDecided(c: Codec, s: State, t: L.Ticket, name: string)
    requires Enabled(c, s, Enter(t))
    ensures Decided(Next(c, s, Enter(t)), name) == Decided(s, name)
  {
  }

  lemma EnterKeepsClients(c: Codec, s: State, t: L.Ticket)
    requires ClientsOk(c, s) && Enabled(c, s, Enter(t))
    ensures ClientsOk(c, Next(c, s, Enter(t)))
  {
    hide PendingOk;
    var s' := Next(c, s, Enter(t));
    forall u: L.Ticket | At(s', u) ensures ClientOk(c, s', u) {
      assert ClientOk(c, s, u);
      StartIsOk(c, s.files, s.ops[u]);
    }
    assert TempsApart(s') by {
      assert forall u: L.Ticket :: At(s', u) && s'.pcs[u].Rename? ==> At(s, u) && s.pcs[u] == s'.pcs[u];
    }
  }

  lemma LeaveKeeps(c: Codec, s: State, t: L.Ticket, initial: map<string, string>)
    requires CodecOk(c) && Inv(c, s, initial) && Enabled(c, s, Leave(t))
    ensures Inv(c, Next(c, s, Leave(t)), initial)
  {
    hide L.Inv, LogOk, ClientsOk, Contents, Decided, L.Released;
    var s' := Next(c, s, Leave(t));
    L.StepKeepsInv(s.lock, L.Leave(t));
    LeaveKeepsClients(c, s, t);
    forall name ensures LogOk(c, s', initial, name) {
      LeaveKeepsDecided(c, s, t, name);
      LogUntouched(c, s, s', initial, name);
    }
  }

  lemma LeaveKeepsClients(c: Codec, s: State, t: L.Ticket)
    requires ClientsOk(c, s) && Enabled(c, s, Leave(t))
    ensures ClientsOk(c, Next(c, s, Leave(t)))
  {
    hide PendingOk, L.Released;
    var s' := Next(c, s, Leave(t));
    forall u: L.Ticket | At(s', u) ensures ClientOk(c, s', u) {
      assert ClientOk(c, s, u);
    }
    assert TempsApart(s') by {
      assert forall u: L.Ticket :: At(s', u) ==> At(s, u);
    }
  }

  lemma LeaveKeepsDecided(c: Codec, s: State, t: L.Ticket, name: string)
    requires L.Inv(s.lock) && ClientsOk(c, s) && Enabled(c, s, Leave(t))
    ensures Decided(Next(c, s, Leave(t)), name) == Decided(s, name)
  {
    hide PendingOk, L.Inv, L.QueueOf, L.Released;
    assert ClientOk(c, s, t);
    L.LeaveQueue(s.lock, t, name);
    var queue := L.QueueOf(s.lock.lock, name);
    if name == NameOf(s.ops[t]) && |queue| > 1 {
      L.Place(s.lock, name, 1);
      assert ClientOk(c, s, queue[1]);
    }
  }

  /** Deciding the holder's operation extends its secret's log by exactly that operation. */
  lemma DecideKeepsLogs(c: Codec, s: State, files: map<string, string>, t: L.Ticket, outcome: Outcome,
                        initial: map<string, string>)
    requires Inv(c, s, initial) && At(s, t) && s.lock.clients[t].phase == L.Holding && !s.pcs[t].Close?
    requires forall name :: name != NameOf(s.ops[t]) ==> Contents(c, files, name) == Contents(c, s.files, name)
    requires var old_, new_ := Contents(c, s.files, NameOf(s.ops[t])), Contents(c, files, NameOf(s.ops[t]));
      if outcome == IoError then new_ == old_ else Perform(old_, s.ops[t]) == (new_, outcome)
    requires ClientsOk(c, s.(files := files, pcs := s.pcs[t := Close(outcome)]))
    ensures Inv(c, Decide(s.(files := files), t, outcome), initial)
  {
    hide Contents, L.Inv, Perform, ClientsOk, LogOk, Decided;
    var s' := Decide(s.(files := files), t, outcome);
    LogIsNotRead(c, s.(files := files, pcs := s.pcs[t := Close(outcome)]), s');
    forall name ensures LogOk(c, s', initial, name) {
      if name == NameOf(s.ops[t]) {
        DecideExtendsLog(c, s, files, t, outcome, initial);
      } else {
        DecideExtendsDecided(c, s, files, t, outcome, name);
        LogUntouched(c, s, s', initial, name);
      }
    }
  }

  lemma LogIsNotRead(c: Codec, a: State, b: State)
    requires ClientsOk(c, a) && b == a.(log := b.log)
    ensures ClientsOk(c, b)
  {
    hide PendingOk;
    forall t: L.Ticket | At(b, t) ensures ClientOk(c, b, t) {
      assert ClientOk(c, a, t);
    }
    assert TempsApart(b) by {
      assert forall t: L.Ticket :: At(b, t) ==> At(a, t);
    }
  }

  lemma DecideExtendsLog(c: Codec, s: State, files: map<string, string>, t: L.Ticket, outcome: Outcome,
                         initial: map<string, string>)
    requires At(s, t) && L.Inv(s.lock) && ClientsOk(c, s) && LogOk(c, s, initial, NameOf(s.ops[t]))
    requires s.lock.clients[t].phase == L.Holding && !s.pcs[t].Close?
    requires var old_, new_ := Contents(c, s.files, NameOf(s.ops[t])), Contents(c, files, NameOf(s.ops[t]));
      if outcome == IoError then new_ == old_ else Perform(old_, s.ops[t]) == (new_, outcome)
    ensures LogOk(c, Decide(s.(files := files), t, outcome), initial, NameOf(s.ops[t]))
  {
    hide Contents, L.Inv, Perform, ClientsOk, Decided, Tickets, Replay, Legal, EntriesOk, ClosedKept;
    var name, log := NameOf(s.ops[t]), LogOf(s, NameOf(s.ops[t]));
    var e := Logged(t, s.ops[t], outcome);
    var s' := Decide(s.(files := files), t, outcome);
    DecideExtendsDecided(c, s, files, t, outcome, name);
    LogExtended(Contents(c, initial, name), log, e);
    assert ClosedKept(s, s') by { DecideKeepsClosed(s, files, t, outcome); }
    EntriesKept(s, s', log);
    OneMoreEntry(s', log, e);
    assert LogOf(s', name) == log + [e];
  }

  lemma DecideKeepsClosed(s: State, files: map<string, string>, t: L.Ticket, outcome: Outcome)
    requires At(s, t) && !s.pcs[t].Close?
    ensures ClosedKept(s, Decide(s.(files := files), t, outcome))
  {
  }

  lemma OneMoreEntry(s: State, log: seq<Logged>, e: Logged)
    requires EntriesOk(s, log) && EntryOk(s, e)
    ensures EntriesOk(s, log + [e])
  {
  }

  lemma LogExtended(content: Option<Keys>, log: seq<Logged>, e: Logged)
    ensures Tickets(log + [e]) == Tickets(log) + [e.ticket]
    ensures Replay(content, log + [e]) ==
      if e.outcome == IoError then Replay(content, log) else Perform(Replay(content, log), e.op).0
    ensures Legal(content, log + [e]) <==>
      Legal(content, log) && (e.outcome == IoError || e.outcome == Perform(Replay(content, log), e.op).1)
  {
    assert (log + [e])[..|log|] == log && (log + [e])[|log|] == e;
  }

  lemma DecideExtendsDecided(c: Codec, s: State, files: map<string, string>, t: L.Ticket, outcome: Outcome,
                             name: string)
    requires L.Inv(s.lock) && ClientsOk(c, s) && At(s, t) && s.lock.clients[t].phase == L.Holding && !s.pcs[t].Close?
    ensures Decided(Decide(s.(files := files), t, outcome), name)
      == Decided(s, name) + (if name == NameOf(s.ops[t]) then [t] else [])
  {
    hide PendingOk, L.Inv;
    assert ClientOk(c, s, t);
    L.LeaverIsHead(s.lock, t);
    if L.QueueOf(s.lock.lock, name) != [] && name != NameOf(s.ops[t]) {
      L.Place(s.lock, name, 0);
    }
  }

  /** The files changed only where no other client is in the middle of something. */
  lemma OthersKeep(c: Codec, s: State, files: map<string, string>, t: L.Ticket, pc: Pc)
    requires L.Inv(s.lock) && ClientsOk(c, s) && At(s, t) && s.lock.clients[t].phase == L.Holding
    requires forall name :: name != NameOf(s.ops[t]) ==> Contents(c, files, name) == Contents(c, s.files, name)
    requires forall u: L.Ticket :: At(s, u) && u != t && s.pcs[u].Rename? && NameOf(s.ops[u]) != NameOf(s.ops[t]) ==>
      s.pcs[u].temp in files && files[s.pcs[u].temp] == s.files[s.pcs[u].temp]
    requires PendingOk(c, files, s.ops[t], pc) && !pc.Start?
    requires pc.Rename? ==> forall u: L.Ticket :: At(s, u) && u != t && s.pcs[u].Rename? ==> s.pcs[u].temp != pc.temp
    ensures ClientsOk(c, s.(files := files, pcs := s.pcs[t := pc]))
  {
    hide Contents, Perform, L.Inv;
    var s' := s.(files := files, pcs := s.pcs[t := pc]);
    assert ClientOk(c, s, t);
    forall u: L.Ticket | At(s', u) ensures ClientOk(c, s', u) {
      assert ClientOk(c, s, u);
      if u != t && NameOf(s.ops[u]) == NameOf(s.ops[t]) {
        OthersWait(c, s, t, u);
      }
    }
    assert TempsApart(s') by {
      assert forall u: L.Ticket :: At(s', u) && u != t ==> At(s, u) && s'.pcs[u] == s.pcs[u];
    }
  }

  lemma HolderAt(c: Codec, s: State, t: L.Ticket)
    requires ClientsOk(c, s) && At(s, t) && !s.pcs[t].Start? && !s.pcs[t].Close?
    ensures s.lock.clients[t].phase == L.Holding && s.lock.clients[t].name == NameOf(s.ops[t])
  {
    assert ClientOk(c, s, t);
  }

  lemma TempsExist(c: Codec, s: State)
    requires ClientsOk(c, s)
    ensures forall u: L.Ticket :: At(s, u) && s.pcs[u].Rename? ==>
      s.pcs[u].temp in s.files && forall name :: s.pcs[u].temp != c.path(name)
  {
    hide Contents, Perform;
    forall u: L.Ticket | At(s, u) && s.pcs[u].Rename?
      ensures s.pcs[u].temp in s.files && forall name :: s.pcs[u].temp != c.path(name)
    {
      assert ClientOk(c, s, u);
    }
  }

  /** What the holder makes of the file is what its operation makes of the content. */
  lemma ReadIsPerform(c: Codec, s: State, t: L.Ticket)
    requires CodecOk(c) && At(s, t) && s.pcs[t].Read?
    ensures var s', content := AfterRead(c, s, t), Contents(c, s.files, NameOf(s.ops[t]));
      var pc := s'.pcs[t];
      && PendingOk(c, s.files, s.ops[t], pc) && !pc.Start? && !pc.Rename?
      && s' == (if pc.Close? then Decide(s, t, pc.outcome) else s.(pcs := s.pcs[t := pc]))
      && (pc.Close? ==> pc.outcome != IoError && Perform(content, s.ops[t]) == (content, pc.outcome))
  {
    var op := s.ops[t];
    var parsed := Parsed(c, s.files, NameOf(op));
    if parsed.Some? {
      match op
      case Save(key) => AssignIsPut(c, parsed.value, key);
      case Modify(key) => AssignIsPut(c, parsed.value, key); HasKeyIsFind(c, parsed.value, key.keyId);
      case Delete(_, id) => UnsetIsRemove(c, parsed.value, id);
    }
  }

  lemma ReadKeeps(c: Codec, s: State, t: L.Ticket, ok: bool, initial: map<string, string>)
    requires CodecOk(c) && Inv(c, s, initial) && Enabled(c, s, ReadFile(t, ok))
    ensures Inv(c, Next(c, s, ReadFile(t, ok)), initial)
  {
    hide L.Inv, LogOk, ClientsOk, Decided, AfterRead, Contents, Perform, PendingOk;
    TempsExist(c, s);
    HolderAt(c, s, t);
    ReadIsPerform(c, s, t);
    var s' := Next(c, s, ReadFile(t, ok));
    var pc := s'.pcs[t];
    if !ok {
      ClosedIsOk(c, s.files, s.ops[t], IoError);
    }
    assert s.(files := s.files) == s;
    OthersKeep(c, s, s.files, t, pc);
    if pc.Close? {
      DecideKeepsLogs(c, s, s.files, t, pc.outcome, initial);
    } else {
      forall name ensures LogOk(c, s', initial, name) {
        assert LogOk(c, s, initial, name);
        SameDecided(c, s, s.files, t, pc, name);
        LogUntouched(c, s, s', initial, name);
      }
    }
  }

  lemma SameDecided(c: Codec, s: State, files: map<string, string>, t: L.Ticket, pc: Pc, name: string)
    requires At(s, t) && !s.pcs[t].Close? && !pc.Close?
    ensures Decided(s.(files := files, pcs := s.pcs[t := pc]), name) == Decided(s, name)
  {
  }

  lemma WriteKeeps(c: Codec, s: State, t: L.Ticket, nonce: nat, ok: bool, initial: map<string, string>)
    requires CodecOk(c) && Inv(c, s, initial) && Enabled(c, s, WriteFile(t, nonce, ok))
    ensures Inv(c, Next(c, s, WriteFile(t, nonce, ok)), initial)
  {
    hide L.Inv, LogOk, Decided, Contents, Perform;
    HolderAt(c, s, t);
    TempsExist(c, s);
    assert ClientOk(c, s, t);
    var s' := Next(c, s, WriteFile(t, nonce, ok));
    var pc, temp := s'.pcs[t], c.temp(NameOf(s.ops[t]), nonce);
    forall name ensures Contents(c, s'.files, name) == Contents(c, s.files, name) {
      if ok {
        PathsApart(c, s.files, name, temp, s'.files[temp]);
      }
    }
    OthersKeep(c, s, s'.files, t, pc);
    if ok {
      forall name ensures LogOk(c, s', initial, name) {
        assert LogOk(c, s, initial, name);
        SameDecided(c, s, s'.files, t, pc, name);
        LogUntouched(c, s, s', initial, name);
      }
    } else {
      assert s.(files := s.files) == s;
      DecideKeepsLogs(c, s, s.files, t, IoError, initial);
    }
  }

  /** A rename replaces the content of one secret, in one step, by what was written for it. */
  lemma RenameReplaces(c: Codec, s: State, t: L.Ticket, name: string)
    requires CodecOk(c) && At(s, t) && ClientOk(c, s, t) && s.pcs[t].Rename?
    ensures var temp, path := s.pcs[t].temp, c.path(NameOf(s.ops[t]));
      var files := (s.files - {temp})[path := s.files[temp]];
      && (name != NameOf(s.ops[t]) ==> Contents(c, files, name) == Contents(c, s.files, name))
      && Perform(Contents(c, s.files, NameOf(s.ops[t])), s.ops[t]) == (Contents(c, files, NameOf(s.ops[t])), Done)
      && Contents(c, s.files - {temp}, name) == Contents(c, s.files, name)
  {
  }

  lemma RenameKeeps(c: Codec, s: State, t: L.Ticket, ok: bool, unlinked: bool, initial: map<string, string>)
    requires CodecOk(c) && Inv(c, s, initial) && Enabled(c, s, RenameFile(t, ok, unlinked))
    ensures Inv(c, Next(c, s, RenameFile(t, ok, unlinked)), initial)
  {
    hide L.Inv, LogOk, Decided, Contents, Perform;
    HolderAt(c, s, t);
    TempsExist(c, s);
    assert ClientOk(c, s, t);
    var s' := Next(c, s, RenameFile(t, ok, unlinked));
    var outcome := if ok then Done else IoError;
    forall name ensures Contents(c, s'.files, name) == Contents(c, s.files, name) || (ok && name == NameOf(s.ops[t])) {
      RenameReplaces(c, s, t, name);
    }
    RenameReplaces(c, s, t, NameOf(s.ops[t]));
    OthersKeep(c, s, s'.files, t, Close(outcome));
    DecideKeepsLogs(c, s, s'.files, t, outcome, initial);
    assert s' == Decide(s.(files := s'.files), t, outcome);
  }

  lemma StepKeeps(c: Codec, s: State, step: Step, initial: map<string, string>)
    requires CodecOk(c) && Inv(c, s, initial) && Enabled(c, s, step)
    ensures Inv(c, Next(c, s, step), initial)
  {
    hide CodecOk, Inv, Enabled, Next;
    match step
    case Request(op) => RequestKeeps(c, s, op, initial);
    case Enter(t) => EnterKeeps(c, s, t, initial);
    case ReadFile(t, ok) => ReadKeeps(c, s, t, ok, initial);
    case WriteFile(t, nonce, ok) => WriteKeeps(c, s, t, nonce, ok, initial);
    case RenameFile(t, ok, unlinked) => RenameKeeps(c, s, t, ok, unlinked, initial);
    case Leave(t) => LeaveKeeps(c, s, t, initial);
  }

  lemma {:induction false} RunKeeps(c: Codec, s: State, steps: seq<Step>, initial: map<string, string>)
    requires CodecOk(c) && Inv(c, s, initial) && Run(c, s, steps)
    ensures Inv(c, After(c, s, steps), initial)
    decreases |steps|
  {
    hide CodecOk, Inv, Enabled, Next;
    if steps != [] {
      StepKeeps(c, s, steps[0], initial);
      RunKeeps(c, Next(c, s, steps[0]), steps[1..], initial);
    }
  }

  lemma StartKeeps(c: Codec, s: State)
    requires Initial(s)
    ensures Inv(c, s, s.files)
  {
    L.StartInv();
  }

  // ---- Linearizability ------------------------------------------------------------------------

  /**
   * Every concurrent run is linearizable, in lock-grant order.  For each secret: the operations decided so
   * far are the first of those granted the lock, lacking at most the current holder's; each reported what
   * the in-memory store would report at that point (or an I/O failure without effect); and the file holds
   * what running them one by one gives.  No update is lost although reads and writes are separate calls,
   * and a query, which reads without the lock, sees exactly the decided operations.
   */
  lemma StoreIsLinearizable(c: Codec, s: State, steps: seq<Step>, name: string)
    requires CodecOk(c) && Initial(s) && Run(c, s, steps)
    ensures var s', initial := After(c, s, steps), Contents(c, s.files, name);
      var log, granted := LogOf(s', name), L.Granted(s'.lock, name);
      && Tickets(log) <= granted && |granted| <= |log| + 1
      && granted <= L.Requests(s'.lock.clients, name)
      && Legal(initial, log)
      && Contents(c, s'.files, name) == Replay(initial, log)
      && (forall e :: e in log ==> EntryOk(s', e) && NameOf(e.op) == name)
  {
    hide Run, After, Contents, Legal, Replay;
    StartKeeps(c, s);
    RunKeeps(c, s, steps, s.files);
    var s' := After(c, s, steps);
    assert LogOk(c, s', s.files, name);
    GrantedCoversDecided(c, s', name);
    L.MutualExclusion(s'.lock, name);
    TicketsAt(LogOf(s', name));
    NamesInLog(c, s', s.files, name);
  }

  lemma {:induction false} TicketsAt(log: seq<Logged>)
    ensures |Tickets(log)| == |log| && forall i :: 0 <= i < |log| ==> Tickets(log)[i] == log[i].ticket
  {
    if log != [] {
      TicketsAt(log[..|log| - 1]);
    }
  }

  lemma NamesInLog(c: Codec, s: State, initial: map<string, string>, name: string)
    requires Inv(c, s, initial)
    ensures forall e :: e in LogOf(s, name) ==> e.ticket < |s.ops| && NameOf(s.ops[e.ticket]) == name
  {
    hide Contents, Legal, Replay, PendingOk, L.Inv;
    assert LogOk(c, s, initial, name);
    TicketsAt(LogOf(s, name));
    L.RequestsAreDistinct(s.lock.clients, name);
    var all, log := L.Requests(s.lock.clients, name), LogOf(s, name);
    L.Split(s.lock, name);
    forall i | 0 <= i < |log| ensures log[i].ticket < |s.ops| && NameOf(s.ops[log[i].ticket]) == name {
      assert Decided(s, name)[i] == all[i];
      assert all[i] in all;
      assert ClientOk(c, s, all[i]);
    }
  }

  lemma GrantedCoversDecided(c: Codec, s: State, name: string)
    requires L.Inv(s.lock) && ClientsOk(c, s)
    ensures Decided(s, name) <= L.Granted(s.lock, name) && |L.Granted(s.lock, name)| <= |Decided(s, name)| + 1
  {
    hide PendingOk, L.Inv;
    var queue := L.QueueOf(s.lock.lock, name);
    if queue != [] {
      L.Place(s.lock, name, 0);
      assert ClientOk(c, s, queue[0]);
    }
  }
}
