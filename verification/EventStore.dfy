/** The event store: memory, a write buffer with a flush timer, a queue of writes, and daily JSON-lines files. */
module EventStores {
  import opened Wrappers

  datatype Event = Event(kind: string, body: string)

  /** `JSON.stringify` and `JSON.parse`; a line that does not parse gives None. */
  datatype Codec = Codec(stringify: Event -> string, parse: string -> Option<Event>)

  ghost predicate CodecOk(c: Codec) {
    forall e :: '\n' !in c.stringify(e) && c.stringify(e) != "" && c.parse(c.stringify(e)) == Some(e)
  }

  // ---- Files ----------------------------------------------------------------------------------

  /** `events.map(JSON.stringify).join('\n')`. */
  function Join(c: Codec, batch: seq<Event>): string {
    if batch == [] then ""
    else if |batch| == 1 then c.stringify(batch[0])
    else c.stringify(batch[0]) + "\n" + Join(c, batch[1..])
  }

  /** What one write appends. */
  function Lines(c: Codec, batch: seq<Event>): string {
    Join(c, batch) + "\n"
  }

  /** `data.split('\n')`. */
  function Split(s: string): (r: seq<string>)
    ensures |r| >= 1
  {
    if s == "" then [""]
    else if s[0] == '\n' then [""] + Split(s[1..])
    else
      var rest := Split(s[1..]);
      [[s[0]] + rest[0]] + rest[1..]
  }

  function ParseLines(c: Codec, lines: seq<string>): seq<Event> {
    if lines == [] then []
    else
      var parsed := if lines[0] == "" then None else c.parse(lines[0]);
      (if parsed.Some? then [parsed.value] else []) + ParseLines(c, lines[1..])
  }

  /** `loadForDate`: empty lines and lines that do not parse are skipped. */
  function Load(c: Codec, data: string): seq<Event> {
    ParseLines(c, Split(data))
  }

  ghost predicate Terminated(s: string) {
    s == "" || s[|s| - 1] == '\n'
  }

  lemma SplitCons(s: string)
    requires s != ""
    ensures Split(s) == GrownLines(s[0], Split(s[1..]))
  {
  }

  lemma SplitNothing()
    ensures Split("") == [""]
  {
  }

  lemma PrependLine(first: seq<string>, x: seq<string>, y: seq<string>, n: nat)
    requires |first| == 1 && n <= |x|
    ensures (first + x)[..n + 1] + y == first + (x[..n] + y)
  {
  }

  lemma {:induction false} SplitConcat(a: string, b: string)
    requires Terminated(a)
    ensures var n := |Split(a)| - 1;
      Split(a)[n] == "" && Split(a + b) == Split(a)[..n] + Split(b) && (a != "" ==> n >= 1)
  {
    hide Split;
    if a == "" {
      assert a + b == b;
      SplitNothing();
      assert Split(a)[..0] + Split(b) == Split(b);
    } else {
      var rest := a[1..];
      SplitConcat(rest, b);
      assert (a + b)[1..] == rest + b && (a + b)[0] == a[0];
      SplitCons(a);
      SplitCons(a + b);
      GrownConcat(a[0], Split(rest), Split(b));
    }
  }

  /** The lines of a text with one more character in front. */
  function GrownLines(first: char, lines: seq<string>): seq<string>
    requires lines != []
  {
    if first == '\n' then [""] + lines else [[first] + lines[0]] + lines[1..]
  }

  lemma GrownConcat(first: char, lines: seq<string>, more: seq<string>)
    requires lines != [] && more != [] && lines[|lines| - 1] == "" && (first != '\n' ==> |lines| >= 2)
    ensures var n, grown := |lines| - 1, GrownLines(first, lines);
      grown[|grown| - 1] == "" && |grown| >= 2
      && GrownLines(first, lines[..n] + more) == grown[..|grown| - 1] + more
  {
    var n := |lines| - 1;
    if first == '\n' {
      PrependLine([""], lines, more, n);
    } else {
      assert (lines[..n] + more)[0] == lines[0];
      assert (lines[..n] + more)[1..] == lines[1..][..n - 1] + more;
      PrependLine([[first] + lines[0]], lines[1..], more, n - 1);
    }
  }

  lemma {:induction false} ParseConcat(c: Codec, a: seq<string>, b: seq<string>)
    ensures ParseLines(c, a + b) == ParseLines(c, a) + ParseLines(c, b)
  {
    if a == [] {
      assert a + b == b;
    } else {
      assert (a + b)[1..] == a[1..] + b;
      ParseConcat(c, a[1..], b);
    }
  }

  /** Appending to a file of complete lines appends to what it loads. */
  lemma LoadConcat(c: Codec, a: string, b: string)
    requires Terminated(a)
    ensures Load(c, a + b) == Load(c, a) + Load(c, b)
  {
    var n := |Split(a)| - 1;
    SplitConcat(a, b);
    assert Split(a) == Split(a)[..n] + [""];
    ParseConcat(c, Split(a)[..n], [""]);
    ParseConcat(c, Split(a)[..n], Split(b));
    assert ParseLines(c, [""]) == [];
  }

  lemma {:induction false} SplitLine(line: string)
    requires '\n' !in line
    ensures Split(line + "\n") == [line, ""]
  {
    if line == "" {
      assert line + "\n" == "\n";
      assert "\n"[1..] == "";
      assert Split("\n") == [""] + Split("");
    } else {
      assert (line + "\n")[1..] == line[1..] + "\n";
      SplitLine(line[1..]);
      assert [line[0]] + line[1..] == line;
    }
  }

  /** What a batch writes loads as the batch, an empty batch's blank line as nothing. */
  lemma {:induction false} LoadWrittenBatch(c: Codec, batch: seq<Event>)
    requires CodecOk(c)
    ensures Load(c, Lines(c, batch)) == batch && Terminated(Lines(c, batch))
  {
    if batch == [] {
      SplitLine("");
      assert "" + "\n" == "\n";
      assert ParseLines(c, ["", ""]) == ParseLines(c, [""]);
    } else {
      var line := c.stringify(batch[0]) + "\n";
      SplitLine(c.stringify(batch[0]));
      assert ParseLines(c, [c.stringify(batch[0]), ""]) == [batch[0]] + ParseLines(c, [""]);
      assert Load(c, line) == [batch[0]];
      if |batch| == 1 {
        assert Lines(c, batch) == line;
      } else {
        LoadWrittenBatch(c, batch[1..]);
        assert Lines(c, batch) == line + Lines(c, batch[1..]);
        LoadConcat(c, line, Lines(c, batch[1..]));
      }
    }
  }

  // ---- The store ------------------------------------------------------------------------------

  datatype Options = Options(maxInMemory: int, persistOnWrite: bool)

  type Day = nat

  /** `queue` holds the batches chained on `writeQueue` and not written yet. */
  datatype Store = Store(
    events: seq<Event>,
    buffer: seq<Event>,
    timer: bool,
    queue: seq<seq<Event>>,
    files: map<Day, string>)

  function Remember(o: Options, events: seq<Event>, e: Event): seq<Event> {
    var all := events + [e];
    if |all| > o.maxInMemory then JsSlice(all, -o.maxInMemory) else all
  }

  function Emitted(o: Options, s: Store, e: Event): Store {
    var kept := s.(events := Remember(o, s.events, e));
    if o.persistOnWrite then kept.(queue := s.queue + [[e]])
    else kept.(buffer := s.buffer + [e], timer := true)
  }

  function TimerFired(s: Store): Store {
    s.(buffer := [], timer := false, queue := s.queue + [s.buffer])
  }

  function Flushed(s: Store): Store {
    var stopped := s.(timer := false);
    if s.buffer == [] then stopped else stopped.(buffer := [], queue := s.queue + [s.buffer])
  }

  function FileOf(files: map<Day, string>, day: Day): string {
    if day in files then files[day] else ""
  }

  /** The first queued write happens; a failing one is logged and its batch is lost. */
  function Written(c: Codec, s: Store, day: Day, ok: bool): Store
    requires s.queue != []
  {
    var next := s.(queue := s.queue[1..]);
    if ok then next.(files := s.files[day := FileOf(s.files, day) + Lines(c, s.queue[0])]) else next
  }

  class EventStore {
    var events: seq<Event>
    var writeBuffer: seq<Event>
    var writeTimer: bool
    var writeQueue: seq<seq<Event>>
    var files: map<Day, string>
    const options: Options

    constructor (options: Options, files: map<Day, string>)
      ensures Value() == Store([], [], false, [], files) && this.options == options
    {
      this.options, this.files := options, files;
      events, writeBuffer, writeTimer, writeQueue := [], [], false, [];
    }

    function Value(): Store
      reads this
    {
      Store(events, writeBuffer, writeTimer, writeQueue, files)
    }

    method Emit(e: Event)
      modifies this
      ensures Value() == Emitted(options, old(Value()), e)
      ensures if options.persistOnWrite
        then writeQueue == old(writeQueue) + [[e]] && writeBuffer == old(writeBuffer)
        else writeQueue == old(writeQueue) && writeBuffer == old(writeBuffer) + [e] && writeTimer
    {
      events := events + [e];
      if |events| > options.maxInMemory {
        events := JsSlice(events, -options.maxInMemory);
      }
      if options.persistOnWrite {
        writeQueue := writeQueue + [[e]];
      } else {
        writeBuffer := writeBuffer + [e];
        ScheduleFlush();
      }
    }

    method ScheduleFlush()
      modifies this`writeTimer
      ensures writeTimer == (old(writeTimer) || writeBuffer != [])
    {
      if writeTimer || |writeBuffer| == 0 {
        return;
      }
      writeTimer := true;
    }

    method OnTimer()
      modifies this
      ensures Value() == TimerFired(old(Value()))
      ensures writeQueue == old(writeQueue) + [old(writeBuffer)] && writeBuffer == [] && !writeTimer
      ensures events == old(events) && files == old(files)
    {
      var batch := writeBuffer;
      writeBuffer := [];
      writeTimer := false;
      writeQueue := writeQueue + [batch];
    }

    method Flush()
      modifies this
      ensures Value() == Flushed(old(Value()))
      ensures writeQueue == old(writeQueue) + (if old(writeBuffer) == [] then [] else [old(writeBuffer)])
      ensures writeBuffer == [] && !writeTimer && events == old(events) && files == old(files)
    {
      if writeTimer {
        writeTimer := false;
      }
      if |writeBuffer| == 0 {
        return;
      }
      var batch := writeBuffer;
      writeBuffer := [];
      writeQueue := writeQueue + [batch];
    }

    method Clear()
      modifies this
      ensures Value() == old(Value()).(events := [], buffer := [])
    {
      events := [];
      writeBuffer := [];
    }

    method Destroy()
      modifies this
      ensures Value() == old(Value()).(events := [], buffer := [], timer := false)
    {
      writeTimer := false;
      events := [];
      writeBuffer := [];
    }
  }

  // ---- Runs -----------------------------------------------------------------------------------

  datatype Action = Emit(e: Event) | Timer | Flush | Write(ok: bool) | NextDay | Clear | Destroy

  datatype State = State(s: Store, today: Day)

  predicate Enabled(st: State, a: Action) {
    match a
    case Timer => st.s.timer
    case Write(_) => st.s.queue != []
    case _ => true
  }

  function Next(c: Codec, o: Options, st: State, a: Action): State
    requires Enabled(st, a)
  {
    match a
    case Emit(e) => st.(s := Emitted(o, st.s, e))
    case Timer => st.(s := TimerFired(st.s))
    case Flush => st.(s := Flushed(st.s))
    case Write(ok) => st.(s := Written(c, st.s, st.today, ok))
    case NextDay => st.(today := st.today + 1)
    case Clear => st.(s := st.s.(events := [], buffer := []))
    case Destroy => st.(s := st.s.(events := [], buffer := [], timer := false))
  }

  ghost predicate Run(c: Codec, o: Options, st: State, actions: seq<Action>)
    decreases |actions|
  {
    actions == [] || (Enabled(st, actions[0]) && Run(c, o, Next(c, o, st, actions[0]), actions[1..]))
  }

  ghost function After(c: Codec, o: Options, st: State, actions: seq<Action>): State
    requires Run(c, o, st, actions)
    decreases |actions|
  {
    if actions == [] then st else After(c, o, Next(c, o, st, actions[0]), actions[1..])
  }

  function EmittedBy(actions: seq<Action>): seq<Event> {
    if actions == [] then []
    else (if actions[0].Emit? then [actions[0].e] else []) + EmittedBy(actions[1..])
  }

  function Flatten(queue: seq<seq<Event>>): seq<Event> {
    if queue == [] then [] else queue[0] + Flatten(queue[1..])
  }

  /** Everything the files of the days before `end` load, in order of days. */
  function LoadDays(c: Codec, files: map<Day, string>, end: nat): seq<Event> {
    if end == 0 then [] else LoadDays(c, files, end - 1) + Load(c, FileOf(files, end - 1))
  }

  /** On disk, then queued, then buffered. */
  ghost function Owned(c: Codec, st: State): seq<Event> {
    LoadDays(c, st.s.files, st.today + 1) + Flatten(st.s.queue) + st.s.buffer
  }

  /** Files hold whole lines and none is dated after today. */
  ghost predicate FilesOk(st: State) {
    forall d :: d in st.s.files ==> d <= st.today && Terminated(st.s.files[d])
  }

  ghost predicate Lossless(a: Action) {
    !a.Clear? && !a.Destroy? && !(a.Write? && !a.ok)
  }

  lemma {:induction false} FlattenAppend(queue: seq<seq<Event>>, batch: seq<Event>)
    ensures Flatten(queue + [batch]) == Flatten(queue) + batch
  {
    if queue == [] {
      assert queue + [batch] == [batch];
      assert Flatten([batch]) == batch + Flatten([]);
    } else {
      assert (queue + [batch])[1..] == queue[1..] + [batch];
      FlattenAppend(queue[1..], batch);
    }
  }

  lemma {:induction false} LoadDaysAppend(c: Codec, files: map<Day, string>, day: Day, text: string, end: nat)
    ensures end <= day ==> LoadDays(c, files[day := text], end) == LoadDays(c, files, end)
  {
    if 0 < end <= day {
      LoadDaysAppend(c, files, day, text, end - 1);
    }
  }

  lemma QueueingConserves(c: Codec, st: State, timer: bool)
    ensures Owned(c, st.(s := st.s.(buffer := [], timer := timer, queue := st.s.queue + [st.s.buffer]))) == Owned(c, st)
  {
    hide LoadDays;
    FlattenAppend(st.s.queue, st.s.buffer);
    var disk := LoadDays(c, st.s.files, st.today + 1);
    assert disk + (Flatten(st.s.queue) + st.s.buffer) + [] == disk + Flatten(st.s.queue) + st.s.buffer;
  }

  lemma EmitConserves(c: Codec, o: Options, st: State, e: Event)
    requires o.persistOnWrite ==> st.s.buffer == []
    ensures Owned(c, st.(s := Emitted(o, st.s, e))) == Owned(c, st) + [e]
  {
    hide LoadDays, Remember;
    FlattenAppend(st.s.queue, [e]);
    var disk, queued := LoadDays(c, st.s.files, st.today + 1), Flatten(st.s.queue);
    assert disk + queued + (st.s.buffer + [e]) == disk + queued + st.s.buffer + [e];
    assert disk + (queued + [e]) + [] == disk + queued + [] + [e];
  }

  lemma WriteConserves(c: Codec, st: State)
    requires CodecOk(c) && FilesOk(st) && st.s.queue != []
    ensures var st' := st.(s := Written(c, st.s, st.today, true));
      FilesOk(st') && Owned(c, st') == Owned(c, st)
  {
    hide Load, Lines, CodecOk, LoadDays, Flatten, Terminated;
    var batch, old_, later := st.s.queue[0], FileOf(st.s.files, st.today), Flatten(st.s.queue[1..]);
    var text := old_ + Lines(c, batch);
    assert Terminated(old_) by { TerminatedFile(st); }
    LoadWrittenBatch(c, batch);
    TerminatedConcat(old_, Lines(c, batch));
    AppendLoads(c, st.s.files, st.today, text, batch);
    FlattenFirst(st.s.queue);
    Regroup(LoadDays(c, st.s.files, st.today + 1), batch, later, st.s.buffer);
  }

  lemma Regroup(a: seq<Event>, b: seq<Event>, c: seq<Event>, d: seq<Event>)
    ensures (a + b) + c + d == a + (b + c) + d
  {
  }

  lemma FlattenFirst(queue: seq<seq<Event>>)
    requires queue != []
    ensures Flatten(queue) == queue[0] + Flatten(queue[1..])
  {
  }

  lemma TerminatedFile(st: State)
    requires FilesOk(st)
    ensures Terminated(FileOf(st.s.files, st.today))
  {
  }

  lemma OneMoreDay(c: Codec, files: map<Day, string>, day: Day)
    ensures LoadDays(c, files, day + 1) == LoadDays(c, files, day) + Load(c, FileOf(files, day))
  {
  }

  /** Appending a written batch to today's file adds exactly that batch to what all days load. */
  lemma AppendLoads(c: Codec, files: map<Day, string>, day: Day, text: string, batch: seq<Event>)
    requires CodecOk(c) && Terminated(FileOf(files, day)) && text == FileOf(files, day) + Lines(c, batch)
    ensures LoadDays(c, files[day := text], day + 1) == LoadDays(c, files, day + 1) + batch
  {
    hide Load, Lines, CodecOk, Terminated, LoadDays;
    var old_ := FileOf(files, day);
    LoadWrittenBatch(c, batch);
    LoadConcat(c, old_, Lines(c, batch));
    LoadDaysAppend(c, files, day, text, day);
    OneMoreDay(c, files, day);
    OneMoreDay(c, files[day := text], day);
    assert LoadDays(c, files, day) + (Load(c, old_) + batch) == LoadDays(c, files, day) + Load(c, old_) + batch;
  }

  lemma TerminatedConcat(a: string, b: string)
    requires Terminated(a) && Terminated(b)
    ensures Terminated(a + b)
  {
    if b == "" {
      assert a + b == a;
    }
  }

  lemma NextDayConserves(c: Codec, st: State)
    requires FilesOk(st)
    ensures Owned(c, st.(today := st.today + 1)) == Owned(c, st)
  {
    assert Load(c, "") == [] by {
      assert Split("") == [""] && ParseLines(c, [""]) == ParseLines(c, [""][1..]);
    }
    assert st.today + 1 !in st.s.files;
    var disk := LoadDays(c, st.s.files, st.today + 1);
    assert disk + [] == disk;
  }

  lemma ActionConserves(c: Codec, o: Options, st: State, a: Action)
    requires CodecOk(c) && FilesOk(st) && Enabled(st, a) && Lossless(a) && (o.persistOnWrite ==> st.s.buffer == [])
    ensures var st' := Next(c, o, st, a);
      && FilesOk(st') && (o.persistOnWrite ==> st'.s.buffer == [])
      && Owned(c, st') == Owned(c, st) + (if a.Emit? then [a.e] else [])
  {
    hide Owned, Remember, CodecOk, Terminated;
    assert Owned(c, st) + [] == Owned(c, st);
    match a
    case Emit(e) => EmitConserves(c, o, st, e);
    case Timer => QueueingConserves(c, st, false);
    case Flush =>
      if st.s.buffer == [] {
        TimerIsNotRead(c, st);
      } else {
        QueueingConserves(c, st, false);
      }
    case Write(_) => WriteConserves(c, st);
    case NextDay => NextDayConserves(c, st);
  }

  lemma TimerIsNotRead(c: Codec, st: State)
    ensures Owned(c, st.(s := st.s.(timer := false))) == Owned(c, st)
  {
  }

  /**
   * No event is lost, duplicated or reordered: with successful writes and no `clear` or `destroy`, what the
   * files load, then the queued batches, then the buffer, is what they held at first followed by every
   * event emitted since, in order.
   */
  lemma {:induction false} EventsAreConserved(c: Codec, o: Options, st: State, actions: seq<Action>)
    requires CodecOk(c) && FilesOk(st) && (o.persistOnWrite ==> st.s.buffer == [])
    requires Run(c, o, st, actions) && forall a :: a in actions ==> Lossless(a)
    ensures FilesOk(After(c, o, st, actions))
    ensures Owned(c, After(c, o, st, actions)) == Owned(c, st) + EmittedBy(actions)
    decreases |actions|
  {
    hide CodecOk, FilesOk, Next, Enabled, Owned, Lossless;
    if actions == [] {
      assert Owned(c, st) + [] == Owned(c, st);
    } else {
      assert actions[0] in actions;
      ActionConserves(c, o, st, actions[0]);
      EventsAreConserved(c, o, Next(c, o, st, actions[0]), actions[1..]);
      var first := if actions[0].Emit? then [actions[0].e] else [];
      assert Owned(c, st) + first + EmittedBy(actions[1..]) == Owned(c, st) + (first + EmittedBy(actions[1..]));
    }
  }

  // ---- What is lost ---------------------------------------------------------------------------

  /** What one action loses: a failing write its own batch, `clear` and `destroy` what is still buffered. */
  ghost function LostBy(st: State, a: Action): seq<Event>
    requires Enabled(st, a)
  {
    match a
    case Write(ok) => if ok then [] else st.s.queue[0]
    case Clear => st.s.buffer
    case Destroy => st.s.buffer
    case _ => []
  }

  ghost function Lost(c: Codec, o: Options, st: State, actions: seq<Action>): seq<Event>
    requires Run(c, o, st, actions)
    decreases |actions|
  {
    if actions == [] then [] else LostBy(st, actions[0]) + Lost(c, o, Next(c, o, st, actions[0]), actions[1..])
  }

  /** A failing write takes its batch out of the events and leaves the others in order. */
  lemma FailedWriteLosesItsBatch(c: Codec, st: State)
    requires st.s.queue != []
    ensures var st' := st.(s := Written(c, st.s, st.today, false));
      exists before, after ::
        Owned(c, st) == before + st.s.queue[0] + after && Owned(c, st') == before + after && st'.s.files == st.s.files
  {
    hide LoadDays, Flatten;
    FlattenFirst(st.s.queue);
    var disk, later := LoadDays(c, st.s.files, st.today + 1), Flatten(st.s.queue[1..]);
    assert disk + (st.s.queue[0] + later) + st.s.buffer == disk + st.s.queue[0] + (later + st.s.buffer);
    assert disk + later + st.s.buffer == disk + (later + st.s.buffer);
  }

  lemma EmitAccounts(c: Codec, o: Options, st: State, e: Event)
    ensures multiset(Owned(c, st.(s := Emitted(o, st.s, e)))) == multiset(Owned(c, st)) + multiset{e}
  {
    hide LoadDays, Remember;
    FlattenAppend(st.s.queue, [e]);
  }

  lemma DroppingAccounts(c: Codec, st: State, timer: bool)
    ensures multiset(Owned(c, st)) ==
      multiset(Owned(c, st.(s := st.s.(events := [], buffer := [], timer := timer)))) + multiset(st.s.buffer)
  {
    hide LoadDays, Flatten;
  }

  lemma ActionAccounts(c: Codec, o: Options, st: State, a: Action)
    requires CodecOk(c) && FilesOk(st) && Enabled(st, a)
    ensures var st' := Next(c, o, st, a);
      && FilesOk(st')
      && multiset(Owned(c, st')) + multiset(LostBy(st, a)) ==
           multiset(Owned(c, st)) + multiset(if a.Emit? then [a.e] else [])
  {
    hide Owned, Remember, CodecOk, Terminated, Flatten;
    match a
    case Emit(e) => EmitAccounts(c, o, st, e);
    case Write(ok) =>
      if ok {
        WriteConserves(c, st);
      } else {
        FailedWriteLosesItsBatch(c, st);
      }
    case Clear => DroppingAccounts(c, st, st.s.timer);
    case Destroy => DroppingAccounts(c, st, false);
    case Timer => QueueingConserves(c, st, false);
    case Flush =>
      if st.s.buffer == [] {
        TimerIsNotRead(c, st);
      } else {
        QueueingConserves(c, st, false);
      }
    case NextDay => NextDayConserves(c, st);
  }

  /**
   * In every run at all, an event emitted is on disk, queued or buffered just once, or it was lost to a failing write
   * of its own batch or to a `clear` or `destroy` that found it buffered; nothing else loses or repeats one.
   */
  lemma {:induction false} EveryEventIsAccountedFor(c: Codec, o: Options, st: State, actions: seq<Action>)
    requires CodecOk(c) && FilesOk(st) && Run(c, o, st, actions)
    ensures multiset(Owned(c, After(c, o, st, actions))) + multiset(Lost(c, o, st, actions)) ==
      multiset(Owned(c, st)) + multiset(EmittedBy(actions))
    decreases |actions|
  {
    hide CodecOk, FilesOk, Next, Enabled, Owned, LostBy;
    if actions != [] {
      var st' := Next(c, o, st, actions[0]);
      ActionAccounts(c, o, st, actions[0]);
      EveryEventIsAccountedFor(c, o, st', actions[1..]);
      var lost, later := LostBy(st, actions[0]), Lost(c, o, st', actions[1..]);
      var first, rest := if actions[0].Emit? then [actions[0].e] else [], EmittedBy(actions[1..]);
      assert multiset(lost + later) == multiset(lost) + multiset(later);
      assert multiset(first + rest) == multiset(first) + multiset(rest);
      assert Owned(c, After(c, o, st, actions)) == Owned(c, After(c, o, st', actions[1..]));
      SumsJoin(Owned(c, st), Owned(c, st'), Owned(c, After(c, o, st', actions[1..])), lost, later, first, rest);
    }
  }

  lemma SumsJoin(a: seq<Event>, b: seq<Event>, c: seq<Event>, lost: seq<Event>, later: seq<Event>, first: seq<Event>,
                 rest: seq<Event>)
    requires multiset(b) + multiset(lost) == multiset(a) + multiset(first)
    requires multiset(c) + multiset(later) == multiset(b) + multiset(rest)
    ensures multiset(c) + (multiset(lost) + multiset(later)) == multiset(a) + (multiset(first) + multiset(rest))
  {
    assert multiset(c) + (multiset(lost) + multiset(later)) == (multiset(c) + multiset(later)) + multiset(lost);
    assert (multiset(b) + multiset(rest)) + multiset(lost) == (multiset(b) + multiset(lost)) + multiset(rest);
  }

  /** In every run at all, a non-empty buffer has an armed flush timer, so it will be written. */
  lemma {:induction false} BufferHasTimer(c: Codec, o: Options, st: State, actions: seq<Action>)
    requires (st.s.buffer != [] ==> st.s.timer) && Run(c, o, st, actions)
    ensures After(c, o, st, actions).s.buffer != [] ==> After(c, o, st, actions).s.timer
    decreases |actions|
  {
    if actions != [] {
      BufferHasTimer(c, o, Next(c, o, st, actions[0]), actions[1..]);
    }
  }

  /** The last `n` elements, or all of them. */
  ghost function LastOf(events: seq<Event>, n: nat): seq<Event> {
    if |events| <= n then events else events[|events| - n..]
  }

  /**
   * Memory holds the last `maxInMemory` events emitted, if that is at least one; a limit of zero trims
   * nothing, because `slice(-0)` keeps the whole list.
   */
  lemma {:induction false} MemoryIsASuffix(c: Codec, o: Options, st: State, actions: seq<Action>, history: seq<Event>)
    requires Run(c, o, st, actions) && forall a :: a in actions ==> !a.Clear? && !a.Destroy?
    requires o.maxInMemory >= 0 && Remembered(o, st.s.events, history)
    ensures Remembered(o, After(c, o, st, actions).s.events, history + EmittedBy(actions))
    decreases |actions|
  {
    hide Remembered;
    if actions == [] {
      assert history + [] == history;
    } else {
      var a := actions[0];
      assert a in actions;
      var first := if a.Emit? then [a.e] else [];
      RememberKeeps(c, o, st, a, history);
      MemoryIsASuffix(c, o, Next(c, o, st, a), actions[1..], history + first);
      assert history + first + EmittedBy(actions[1..]) == history + (first + EmittedBy(actions[1..]));
    }
  }

  ghost predicate Remembered(o: Options, events: seq<Event>, history: seq<Event>)
    requires o.maxInMemory >= 0
  {
    events == if o.maxInMemory == 0 then history else LastOf(history, o.maxInMemory)
  }

  lemma RememberKeeps(c: Codec, o: Options, st: State, a: Action, history: seq<Event>)
    requires o.maxInMemory >= 0 && Enabled(st, a) && !a.Clear? && !a.Destroy? && Remembered(o, st.s.events, history)
    ensures Remembered(o, Next(c, o, st, a).s.events, history + (if a.Emit? then [a.e] else []))
  {
    if a.Emit? {
      RememberSuffix(o, history, st.s.events, a.e);
    } else {
      assert history + [] == history;
    }
  }

  lemma RememberSuffix(o: Options, history: seq<Event>, events: seq<Event>, e: Event)
    requires o.maxInMemory >= 0
    requires events == if o.maxInMemory == 0 then history else LastOf(history, o.maxInMemory)
    ensures Remember(o, events, e) ==
      if o.maxInMemory == 0 then history + [e] else LastOf(history + [e], o.maxInMemory)
  {
  }
}
