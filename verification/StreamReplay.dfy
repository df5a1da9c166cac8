/**
  Stored stream messages and their replay (src/langgraph_runtime_inmem/inmem_stream.py, and
  the replay merge of `join_event_streaming` in src/langgraph_runtime_inmem/ops.py).
 */
module StreamReplay {
  import opened Wrappers
  import opened KeyedLists
  import opened Strings
  import StableSort

  type Id = nat

  datatype ThreadKey = Threadless | OnThread(id: Id)

  datatype Message = Message(id: string, data: string)

  /** The resumable messages of one run. */
  datatype RunLog = RunLog(run: Id, messages: seq<Message>)

  /** Per thread, the logs in the order their runs first appeared. */
  type Stores = map<ThreadKey, seq<RunLog>>

  function LogRun(l: RunLog): nat { l.run }

  /** `_generate_ms_seq_id` at a time in milliseconds. */
  function Stamp(ms: nat): string
  {
    Decimal(ms) + "-0"
  }

  function LogsOf(stores: Stores, thread: ThreadKey): seq<RunLog>
  {
    if thread in stores then stores[thread] else []
  }

  function Messages(logs: seq<RunLog>, run: Id): seq<Message>
  {
    match Find(logs, LogRun, run)
    case None => []
    case Some(l) => l.messages
  }

  /** `logs[run] += messages`, where a missing log is created. */
  function Extend(logs: seq<RunLog>, run: Id, messages: seq<Message>): seq<RunLog>
  {
    match Find(logs, LogRun, run)
    case None => logs + [RunLog(run, messages)]
    case Some(l) => Replace(logs, LogRun, run, RunLog(run, l.messages + messages))
  }

  datatype Op =
    | Put(ms: nat, thread: ThreadKey, run: Id, data: string, resumable: bool)
    | Restore(onThread: ThreadKey, ofRun: Id, after: Option<string>)

  /** What an operation does to the stores; looking a run up creates its empty log. */
  function Apply(stores: Stores, op: Op): Stores
  {
    match op
    case Put(ms, thread, run, data, resumable) =>
      if resumable then stores[thread := Extend(LogsOf(stores, thread), run, [Message(Stamp(ms), data)])] else stores
    case Restore(thread, run, last) =>
      if last.Some? && thread in stores then stores[thread := Extend(stores[thread], run, [])] else stores
  }

  function After(ops: seq<Op>): Stores
  {
    if ops == [] then map[] else Apply(After(ops[..|ops| - 1]), ops[|ops| - 1])
  }

  function Later(last: string): Message -> bool { (m: Message) => Less(last, m.id) }

  /** `restore_messages` */
  function Restored(stores: Stores, thread: ThreadKey, run: Id, last: Option<string>): seq<Message>
  {
    if last.None? then [] else Where(Messages(LogsOf(stores, thread), run), Later(last.value))
  }

  // ---------------------------------------------------------------- what is stored

  predicate Adds(op: Op, thread: ThreadKey, run: Id)
  {
    op.Put? && op.resumable && op.thread == thread && op.run == run
  }

  /** The resumable puts of one run, in order. */
  function Resumable(ops: seq<Op>, thread: ThreadKey, run: Id): seq<Op>
  {
    if ops == [] then []
    else
      var op := ops[|ops| - 1];
      Resumable(ops[..|ops| - 1], thread, run)
        + (if Adds(op, thread, run) then [op] else [])
  }

  lemma {:induction false} ResumableArePuts(ops: seq<Op>, thread: ThreadKey, run: Id)
    ensures forall op | op in Resumable(ops, thread, run) :: op.Put? && op in ops
  {
    if ops != [] {
      ResumableArePuts(ops[..|ops| - 1], thread, run);
    }
  }

  function MessageOf(op: Op): Message
  {
    if op.Put? then Message(Stamp(op.ms), op.data) else Message("", "")
  }

  function MessagesOf(ops: seq<Op>): seq<Message>
  {
    seq(|ops|, k requires 0 <= k < |ops| => MessageOf(ops[k]))
  }

  ghost predicate StoresOk(stores: Stores)
  {
    forall t | t in stores :: Unique(stores[t], LogRun)
  }

  lemma ExtendIs(logs: seq<RunLog>, run: Id, messages: seq<Message>, r: Id)
    requires Unique(logs, LogRun)
    ensures Unique(Extend(logs, run, messages), LogRun)
    ensures Messages(Extend(logs, run, messages), r) == Messages(logs, r) + (if r == run then messages else [])
  {
    FindMember(logs, LogRun, run);
    FindMember(logs, LogRun, r);
    var logs' := Extend(logs, run, messages);
    match Find(logs, LogRun, run)
    case None =>
      var l := RunLog(run, messages);
      AppendMembers(logs, LogRun, l);
      if r == run { FindUnique(logs', LogRun, l); } else { SameFind(logs, logs', r); }
    case Some(l) =>
      var l' := RunLog(run, l.messages + messages);
      ReplaceMembers(logs, LogRun, run, l');
      if r == run { FindUnique(logs', LogRun, l'); } else { SameFind(logs, logs', r); }
  }

  lemma SameFind(logs: seq<RunLog>, logs': seq<RunLog>, r: Id)
    requires Unique(logs, LogRun) && Unique(logs', LogRun)
    requires forall l: RunLog | l.run == r :: l in logs <==> l in logs'
    ensures Find(logs, LogRun, r) == Find(logs', LogRun, r)
  {
    FindMember(logs, LogRun, r);
    FindMember(logs', LogRun, r);
    var f, f' := Find(logs, LogRun, r), Find(logs', LogRun, r);
    if f.Some? { FindUnique(logs', LogRun, f.value); }
    if f'.Some? { FindUnique(logs, LogRun, f'.value); }
  }

  lemma {:induction false} AfterOk(ops: seq<Op>)
    ensures StoresOk(After(ops))
  {
    if ops != [] {
      AfterOk(ops[..|ops| - 1]);
      var stores, op := After(ops[..|ops| - 1]), ops[|ops| - 1];
      match op
      case Put(ms, thread, run, data, _) => ExtendIs(LogsOf(stores, thread), run, [Message(Stamp(ms), data)], run);
      case Restore(thread, run, _) => ExtendIs(LogsOf(stores, thread), run, [], run);
    }
  }

  /** The log of a run holds its resumable messages, each once, in the order they were put. */
  lemma {:induction false} LogHoldsPuts(ops: seq<Op>, thread: ThreadKey, run: Id)
    ensures Messages(LogsOf(After(ops), thread), run) == MessagesOf(Resumable(ops, thread, run))
  {
    if ops != [] {
      var before, op := ops[..|ops| - 1], ops[|ops| - 1];
      LogHoldsPuts(before, thread, run);
      AfterOk(before);
      OneOp(After(before), op, thread, run);
      var rest := Resumable(before, thread, run);
      assert MessagesOf(rest + [op]) == MessagesOf(rest) + [MessageOf(op)];
      assert rest + [] == rest;
    }
  }

  lemma OneOp(stores: Stores, op: Op, thread: ThreadKey, run: Id)
    requires StoresOk(stores)
    ensures Messages(LogsOf(Apply(stores, op), thread), run) ==
            Messages(LogsOf(stores, thread), run) + (if Adds(op, thread, run) then [MessageOf(op)] else [])
  {
    match op
    case Put(ms, t, r, data, resumable) => if resumable { ExtendIs(LogsOf(stores, t), r, [Message(Stamp(ms), data)], run); }
    case Restore(t, r, _) => ExtendIs(LogsOf(stores, t), r, [], run);
  }

  // ---------------------------------------------------------------- a clock that never goes back

  /** Stamps of one width, never decreasing. */
  ghost predicate SteadyClock(ops: seq<Op>, width: nat)
  {
    && (forall i | 0 <= i < |ops| && ops[i].Put? :: |Decimal(ops[i].ms)| == width)
    && (forall i, j | 0 <= i < j < |ops| && ops[i].Put? && ops[j].Put? :: ops[i].ms <= ops[j].ms)
  }

  lemma StampOrder(a: nat, b: nat)
    requires |Decimal(a)| == |Decimal(b)|
    ensures Less(Stamp(a), Stamp(b)) <==> a < b
  {
    ValueOfDecimal(a);
    ValueOfDecimal(b);
    NumeralOrder(Decimal(a), Decimal(b));
    if a != b { LessIgnoresSuffix(Decimal(a), Decimal(b), "-0", "-0"); } else { LessTrichotomy(Stamp(a), Stamp(b)); }
  }

  ghost predicate Ascending(puts: seq<Op>, width: nat)
  {
    && (forall k | 0 <= k < |puts| :: puts[k].Put? && |Decimal(puts[k].ms)| == width)
    && (forall i, j | 0 <= i < j < |puts| :: puts[i].Put? && puts[j].Put? ==> puts[i].ms <= puts[j].ms)
  }

  lemma {:induction false} ResumableAscend(ops: seq<Op>, thread: ThreadKey, run: Id, width: nat)
    requires SteadyClock(ops, width)
    ensures Ascending(Resumable(ops, thread, run), width)
  {
    if ops != [] {
      var before, op := ops[..|ops| - 1], ops[|ops| - 1];
      ResumableAscend(before, thread, run, width);
      ResumableArePuts(before, thread, run);
      var rest := Resumable(before, thread, run);
      forall k | 0 <= k < |rest| && op.Put? ensures rest[k].ms <= op.ms {
        assert rest[k] in before;
        var i :| 0 <= i < |before| && before[i] == rest[k];
        assert ops[i] == before[i];
      }
    }
  }

  // ---------------------------------------------------------------- replay of one run

  predicate OlderId(a: Message, b: Message)
  {
    AtMost(a.id, b.id)
  }

  lemma MessagesAscend(puts: seq<Op>, width: nat)
    requires Ascending(puts, width)
    ensures StableSort.Sorted(MessagesOf(puts), OlderId)
  {
    var ms := MessagesOf(puts);
    forall i, j | 0 <= i < j < |ms| ensures OlderId(ms[i], ms[j]) { StampOrder(puts[j].ms, puts[i].ms); }
  }

  /** Where the messages later than an id begin. */
  function Cut(messages: seq<Message>, last: string): (k: nat)
    ensures k <= |messages|
    ensures forall j | 0 <= j < k :: !Less(last, messages[j].id)
    ensures k < |messages| ==> Less(last, messages[k].id)
  {
    if messages == [] || Less(last, messages[0].id) then 0 else 1 + Cut(messages[1..], last)
  }

  lemma {:induction false} LaterIsSuffix(messages: seq<Message>, last: string)
    requires StableSort.Sorted(messages, OlderId)
    ensures Where(messages, Later(last)) == messages[Cut(messages, last)..]
  {
    if messages != [] {
      LaterIsSuffix(messages[1..], last);
      if Less(last, messages[0].id) {
        var rest := messages[1..];
        if rest != [] {
          assert OlderId(messages[0], messages[1]);
          LessThenAtMost(last, messages[0].id, rest[0].id);
        }
        assert Cut(rest, last) == 0;
        assert [messages[0]] + rest == messages;
      } else {
        assert messages[1..][Cut(messages[1..], last)..] == messages[Cut(messages, last)..];
      }
    }
  }

  lemma LessThenAtMost(a: string, b: string, c: string)
    requires Less(a, b) && AtMost(b, c)
    ensures Less(a, c)
  {
    LessTrichotomy(b, c);
    if Less(b, c) { LessTransitive(a, b, c); }
  }

  /** Replay of a run after any id is the contiguous suffix of its messages with a later id; without an id nothing is. */
  lemma ReplayIsSuffix(ops: seq<Op>, thread: ThreadKey, run: Id, last: string, width: nat)
    requires SteadyClock(ops, width)
    ensures var log := MessagesOf(Resumable(ops, thread, run));
            var k := Cut(log, last);
            && Restored(After(ops), thread, run, Some(last)) == log[k..]
            && Restored(After(ops), thread, run, None) == []
            && (forall j | 0 <= j < |log| :: Less(last, log[j].id) <==> k <= j)
  {
    var log := MessagesOf(Resumable(ops, thread, run));
    LogHoldsPuts(ops, thread, run);
    ResumableAscend(ops, thread, run, width);
    MessagesAscend(Resumable(ops, thread, run), width);
    LaterIsSuffix(log, last);
    var k := Cut(log, last);
    forall j | k <= j < |log| ensures Less(last, log[j].id) {
      if k < j { assert OlderId(log[k], log[j]); LessThenAtMost(last, log[k].id, log[j].id); }
    }
  }

  /** Resuming from a stored message's id yields exactly the messages of later milliseconds. */
  lemma ResumeByTime(ops: seq<Op>, thread: ThreadKey, run: Id, i: nat, width: nat)
    requires SteadyClock(ops, width) && i < |Resumable(ops, thread, run)|
    ensures var puts := Resumable(ops, thread, run);
            puts[i].Put? &&
            var k := Cut(MessagesOf(puts), Stamp(puts[i].ms));
            && i < k
            && Restored(After(ops), thread, run, Some(Stamp(puts[i].ms))) == MessagesOf(puts)[k..]
            && forall j | 0 <= j < |puts| :: puts[j].Put? && (puts[i].ms < puts[j].ms <==> k <= j)
  {
    var puts := Resumable(ops, thread, run);
    ResumableAscend(ops, thread, run, width);
    ReplayIsSuffix(ops, thread, run, Stamp(puts[i].ms), width);
    forall j | 0 <= j < |puts| ensures Less(Stamp(puts[i].ms), MessagesOf(puts)[j].id) <==> puts[i].ms < puts[j].ms {
      StampOrder(puts[i].ms, puts[j].ms);
    }
    assert MessagesOf(puts)[i].id == Stamp(puts[i].ms);
  }

  /** A resume loses nothing exactly when the next message was put in a later millisecond. */
  lemma ResumeIsComplete(ops: seq<Op>, thread: ThreadKey, run: Id, i: nat, width: nat)
    requires SteadyClock(ops, width) && i < |Resumable(ops, thread, run)|
    ensures var puts := Resumable(ops, thread, run);
            && (forall k | 0 <= k < |puts| :: puts[k].Put?)
            && (Restored(After(ops), thread, run, Some(Stamp(puts[i].ms))) == MessagesOf(puts)[i + 1..] <==>
                i + 1 == |puts| || puts[i].ms < puts[i + 1].ms)
  {
    var puts := Resumable(ops, thread, run);
    ResumableAscend(ops, thread, run, width);
    ResumeByTime(ops, thread, run, i, width);
    var k := Cut(MessagesOf(puts), Stamp(puts[i].ms));
    if i + 1 < |puts| {
      assert puts[i].ms < puts[i + 1].ms <==> k <= i + 1;
      if MessagesOf(puts)[k..] == MessagesOf(puts)[i + 1..] { assert |puts| - k == |puts| - (i + 1); }
    }
  }

  /** Two messages of one millisecond: resuming after the first loses the second. */
  lemma SameMillisecondIsLost(ms: nat, a: string, b: string)
    ensures var ops := [Put(ms, OnThread(0), 0, a, true), Put(ms, OnThread(0), 0, b, true)];
            Restored(After(ops), OnThread(0), 0, Some(Stamp(ms))) == []
  {
    var first, second := Put(ms, OnThread(0), 0, a, true), Put(ms, OnThread(0), 0, b, true);
    var ops := [first, second];
    var width := |Decimal(ms)|;
    assert ops[..1] == [first] && [first][..0] == [];
    assert Resumable([first], OnThread(0), 0) == [first];
    assert Resumable(ops, OnThread(0), 0) == [first] + [second];
    ResumeByTime(ops, OnThread(0), 0, 0, width);
  }

  // ---------------------------------------------------------------- replay of a thread

  datatype Tagged = Tagged(message: Message, run: Id)

  predicate OlderTagged(a: Tagged, b: Tagged)
  {
    AtMost(a.message.id, b.message.id)
  }

  function Tag(messages: seq<Message>, run: Id): seq<Tagged>
  {
    seq(|messages|, k requires 0 <= k < |messages| => Tagged(messages[k], run))
  }

  /** `all_events` before sorting. */
  function Collected(logs: seq<RunLog>, last: string): seq<Tagged>
  {
    if logs == [] then []
    else Tag(Where(logs[0].messages, Later(last)), logs[0].run) + Collected(logs[1..], last)
  }

  /** The events replayed to a thread stream that resumes after an id. */
  function ThreadReplay(stores: Stores, thread: ThreadKey, last: string): seq<Tagged>
  {
    StableSort.Sort(Collected(LogsOf(stores, thread), last), OlderTagged)
  }

  function OfRun(run: Id): Tagged -> bool { (e: Tagged) => e.run == run }

  lemma {:induction false} WhereTag(messages: seq<Message>, run: Id, r: Id)
    ensures Where(Tag(messages, run), OfRun(r)) == if r == run then Tag(messages, run) else []
  {
    if messages != [] {
      assert Tag(messages, run)[1..] == Tag(messages[1..], run);
      WhereTag(messages[1..], run, r);
    }
  }

  lemma {:induction false} CollectedOfRun(logs: seq<RunLog>, last: string, run: Id)
    requires Unique(logs, LogRun)
    ensures Where(Collected(logs, last), OfRun(run)) == Tag(Where(Messages(logs, run), Later(last)), run)
  {
    if logs != [] {
      UniqueTail(logs, LogRun);
      CollectedOfRun(logs[1..], last, run);
      var head := Where(logs[0].messages, Later(last));
      WhereAppend(Tag(head, logs[0].run), Collected(logs[1..], last), OfRun(run));
      WhereTag(head, logs[0].run, run);
      if logs[0].run == run {
        FindMember(logs[1..], LogRun, run);
        assert Messages(logs[1..], run) == [];
      }
    }
  }

  lemma {:induction false} TagSorted(messages: seq<Message>, run: Id)
    requires StableSort.Sorted(messages, OlderId)
    ensures StableSort.Sorted(Tag(messages, run), OlderTagged)
  {
    var t := Tag(messages, run);
    forall i, j | 0 <= i < j < |t| ensures OlderTagged(t[i], t[j]) { assert OlderId(messages[i], messages[j]); }
  }

  lemma IdOrderIsTotal()
    ensures StableSort.TotalPreorder(OlderTagged)
  {
    forall x: Tagged, y: Tagged ensures OlderTagged(x, y) || OlderTagged(y, x) {
      LessTrichotomy(x.message.id, y.message.id);
    }
    forall x: Tagged, y: Tagged, z: Tagged | OlderTagged(x, y) && OlderTagged(y, z) ensures OlderTagged(x, z) {
      AtMostTransitive(x.message.id, y.message.id, z.message.id);
    }
  }

  /**
    Thread-level replay is sorted by id, and its events of any one run are exactly that
    run's replay: each once, in the run's own order.
   */
  lemma ThreadReplayMerges(ops: seq<Op>, thread: ThreadKey, last: string, run: Id, width: nat)
    requires SteadyClock(ops, width)
    ensures var replay := ThreadReplay(After(ops), thread, last);
            && StableSort.Sorted(replay, OlderTagged)
            && Where(replay, OfRun(run)) == Tag(Restored(After(ops), thread, run, Some(last)), run)
  {
    var logs := LogsOf(After(ops), thread);
    AfterOk(ops);
    IdOrderIsTotal();
    StableSort.SortSorts(Collected(logs, last), OlderTagged);
    CollectedOfRun(logs, last, run);
    var restored := Restored(After(ops), thread, run, Some(last));
    ReplayIsSuffix(ops, thread, run, last, width);
    ResumableAscend(ops, thread, run, width);
    MessagesAscend(Resumable(ops, thread, run), width);
    SortedSuffix(MessagesOf(Resumable(ops, thread, run)), Cut(MessagesOf(Resumable(ops, thread, run)), last));
    TagSorted(restored, run);
    StableSort.SortKeepsRuns(Collected(logs, last), OlderTagged, OfRun(run));
  }

  lemma SortedSuffix(messages: seq<Message>, k: nat)
    requires StableSort.Sorted(messages, OlderId) && k <= |messages|
    ensures StableSort.Sorted(messages[k..], OlderId)
  {
  }

  // ---------------------------------------------------------------- the stream manager

  class StreamManager {
    var stores: Stores

    constructor ()
      ensures stores == After([])
    {
      stores := map[];
    }

    /** The storing half of `put`. */
    method Put(ms: nat, thread: ThreadKey, run: Id, data: string, resumable: bool) returns (id: string)
      modifies this
      ensures id == Stamp(ms)
      ensures stores == Apply(old(stores), Op.Put(ms, thread, run, data, resumable))
    {
      id := Decimal(ms) + "-0";
      if resumable {
        var logs := if thread in stores then stores[thread] else [];
        stores := stores[thread := Extend(logs, run, [Message(id, data)])];
      }
    }

    /** `restore_messages` */
    method RestoreMessages(run: Id, thread: ThreadKey, last: Option<string>) returns (out: seq<Message>)
      modifies this
      ensures out == Restored(old(stores), thread, run, last)
      ensures stores == Apply(old(stores), Restore(thread, run, last))
    {
      out := [];
      if last.None? || thread !in stores { return; }
      var messages := Messages(stores[thread], run);
      stores := stores[thread := Extend(stores[thread], run, [])];
      ghost var touched := stores;
      var i := 0;
      while i < |messages|
        invariant stores == touched
        invariant 0 <= i <= |messages|
        invariant out == Where(messages[..i], Later(last.value))
      {
        assert messages[..i + 1] == messages[..i] + [messages[i]];
        WhereAppend(messages[..i], [messages[i]], Later(last.value));
        if Less(last.value, messages[i].id) { out := out + [messages[i]]; }
        i := i + 1;
      }
      assert messages[..i] == messages;
    }

    /** The replay part of `join_event_streaming`. */
    method ReplayThread(thread: ThreadKey, last: string) returns (events: seq<Tagged>)
      ensures events == ThreadReplay(stores, thread, last)
    {
      var logs := if thread in stores then stores[thread] else [];
      events := [];
      var i := 0;
      while i < |logs|
        invariant 0 <= i <= |logs|
        invariant events + Collected(logs[i..], last) == Collected(logs, last)
      {
        var messages := Where(logs[i].messages, Later(last));
        CollectStep(logs, last, i, events);
        events := AppendTagged(events, messages, logs[i].run);
        i := i + 1;
      }
      assert logs[i..] == [] && events == Collected(logs, last);
      events := StableSort.Sort(events, OlderTagged);
    }
  }

  method AppendTagged(before: seq<Tagged>, messages: seq<Message>, run: Id) returns (events: seq<Tagged>)
    ensures events == before + Tag(messages, run)
  {
    events := before;
    var j := 0;
    while j < |messages|
      invariant 0 <= j <= |messages|
      invariant events == before + Tag(messages, run)[..j]
    {
      events := events + [Tagged(messages[j], run)];
      j := j + 1;
    }
  }

  lemma CollectStep(logs: seq<RunLog>, last: string, i: nat, events: seq<Tagged>)
    requires i < |logs| && events + Collected(logs[i..], last) == Collected(logs, last)
    ensures events + Tag(Where(logs[i].messages, Later(last)), logs[i].run) + Collected(logs[i + 1..], last) ==
            Collected(logs, last)
  {
    assert logs[i..][1..] == logs[i + 1..];
    assert logs[i..][0] == logs[i];
    var here := Tag(Where(logs[i].messages, Later(last)), logs[i].run);
    assert events + here + Collected(logs[i + 1..], last) == events + (here + Collected(logs[i + 1..], last));
  }
}
