/**
  The resumable reader refines reading the unbounded log: increasing ids, each with the
  event appended at that position, gaps only where the buffer has evicted, the terminal
  marker after everything, and no duplicate after a reconnect.
 */
module DeployLogTheorems {
  import opened Wrappers
  import opened DeployLog

  // ---------------------------------------------------------------- the buffer is a window of the log

  predicate WindowOf(events: seq<Event>, total: nat, history: seq<Event>)
  {
    && total == |history|
    && |events| == (if |history| < BUFFER_SIZE then |history| else BUFFER_SIZE)
    && events == history[|history| - |events|..]
  }

  predicate OpInv(o: Op)
  {
    && WindowOf(o.events, o.totalAppended, o.history)
    && (o.status != Running ==> o.readTask.ReadOver? && o.watchdog.WatchdogOver?)
    && (o.readTask.Draining? ==> o.readTask.verdict != Running)
  }

  lemma AppendKeepsInv(o: Op, e: Event)
    requires OpInv(o) && o.status == Running
    ensures OpInv(Append(o, e)) && Append(o, e).history == o.history + [e]
  {
  }

  lemma {:induction false} FlushKeepsInv(o: Op, tail: seq<string>)
    requires OpInv(o) && o.status == Running
    ensures var o' := FlushTail(o, tail);
            OpInv(o') && o'.status == Running && o.history <= o'.history
    decreases |tail|
  {
    if tail != [] {
      AppendKeepsInv(o, Log(tail[0], ErrorLevel));
      FlushKeepsInv(Append(o, Log(tail[0], ErrorLevel)), tail[1..]);
    }
  }

  /** The log only grows, and not at all once the operation has a terminal status. */
  predicate Grows(o: Op, o': Op)
  {
    && OpInv(o') && o.history <= o'.history
    && (o.status != Running ==> o'.history == o.history && o'.status == o.status)
  }

  lemma LineKeepsInv(o: Op, line: Line)
    requires OpInv(o) && OpEnabled(o, GotLine(line))
    ensures Grows(o, OpStep(o, GotLine(line)))
  {
    match LineEvent(line)
    case Ok(Some(e)) => AppendKeepsInv(o, e);
    case _ =>
  }

  lemma FlushedKeepsInv(o: Op)
    requires OpInv(o) && OpEnabled(o, Flushed)
    ensures Grows(o, OpStep(o, Flushed))
  {
    FlushKeepsInv(o, o.stderrTail);
  }

  lemma WatchdogKeepsInv(o: Op, a: OpAction)
    requires OpInv(o) && OpEnabled(o, a) && (a.TimedOut? || a.GraceExpired? || a.WatchdogLeft?)
    ensures Grows(o, OpStep(o, a))
  {
    if !a.WatchdogLeft? && o.status == Running {
      var o1 := Append(o, Log(a.msg, ErrorLevel));
      AppendKeepsInv(o, Log(a.msg, ErrorLevel));
      assert OpInv(o1.(watchdog := Grace)) && OpInv(o1.(watchdog := WatchdogOver));
    }
  }

  lemma TasksKeepInv(o: Op, a: OpAction)
    requires OpInv(o) && OpEnabled(o, a) && (a.GotStderr? || a.OutputEnded? || a.ReadFailed? || a.ReadTornDown?)
    ensures Grows(o, OpStep(o, a))
  {
  }

  lemma OpStepKeepsInv(o: Op, a: OpAction)
    requires OpInv(o) && OpEnabled(o, a)
    ensures Grows(o, OpStep(o, a))
  {
    match a
    case GotLine(line) => LineKeepsInv(o, line);
    case Flushed => FlushedKeepsInv(o);
    case TimedOut(_, _) => WatchdogKeepsInv(o, a);
    case GraceExpired(_) => WatchdogKeepsInv(o, a);
    case WatchdogLeft => WatchdogKeepsInv(o, a);
    case GotStderr(_) => TasksKeepInv(o, a);
    case OutputEnded(_) => TasksKeepInv(o, a);
    case ReadFailed => TasksKeepInv(o, a);
    case ReadTornDown => TasksKeepInv(o, a);
  }

  // ---------------------------------------------------------------- what a session has yielded

  /** The id up to which the client is served after `out`, having resumed from `from`. */
  function Served(out: seq<Out>, from: nat): nat
  {
    if out == [] then from else out[|out| - 1].id
  }

  /** Everything in between was evicted before it could be read. */
  predicate Follows(id: nat, previous: nat, history: seq<Event>)
  {
    previous < id && (id == previous + 1 || id - 1 + BUFFER_SIZE <= |history|)
  }

  /** Output `i` is the event of its position, and what it skips had been evicted. */
  predicate ReadOk(out: seq<Out>, i: nat, from: nat, history: seq<Event>)
    requires i < |out| && out[i].LogEvent?
  {
    && 1 <= out[i].id <= |history|
    && out[i].event == history[out[i].id - 1]
    && Follows(out[i].id, Served(out[..i], from), history)
  }

  /** `out` reads `history` from position `from` on. */
  predicate Reads(out: seq<Out>, from: nat, history: seq<Event>)
  {
    forall i | 0 <= i < |out| && out[i].LogEvent? :: ReadOk(out, i, from, history)
  }

  predicate NoTerminal(out: seq<Out>)
  {
    forall o | o in out :: o.LogEvent?
  }

  predicate ItemOk(item: (nat, Event), id: int, history: seq<Event>)
  {
    item.0 == id && 1 <= id <= |history| && item.1 == history[id - 1]
  }

  /** A snapshot still to be yielded: consecutive positions of the log, up to `total`. */
  predicate Continues(items: seq<(nat, Event)>, total: nat, served: nat, history: seq<Event>)
  {
    && total <= |history|
    && (items == [] ==> served == total)
    && (items != [] ==> Follows(items[0].0, served, history))
    && (forall i | 0 <= i < |items| :: ItemOk(items[i], total - |items| + i + 1, history))
  }

  /** Where the generator stands, having served the client up to `Served(out, from)`. */
  predicate GenOk(gen: Generator, out: seq<Out>, from: nat, history: seq<Event>, status: Status)
  {
    match gen
    case AtTop(cursor) => NoTerminal(out) && cursor == Served(out, from) && cursor <= |history|
    case Emitting(items, total, final) =>
      && NoTerminal(out)
      && Continues(items, total, Served(out, from), history)
      && (final ==> status != Running && total == |history|)
    case Closed =>
      && status != Running
      && |out| > 0 && NoTerminal(out[..|out| - 1])
      && out[|out| - 1] == Terminal(status == Succeeded, |history| + 1)
      && Served(out[..|out| - 1], from) == |history|
  }

  predicate SessionInv(s: Session)
  {
    && OpInv(s.op)
    && (s.resumed.None? ==> s.out == [] && s.gen.AtTop?)
    && (s.resumed.Some? ==>
          && Reads(s.out, s.resumed.value, s.op.history)
          && GenOk(s.gen, s.out, s.resumed.value, s.op.history, s.op.status))
  }

  lemma ReadsGrows(out: seq<Out>, from: nat, history: seq<Event>, history': seq<Event>)
    requires Reads(out, from, history) && history <= history'
    ensures Reads(out, from, history')
  {
    forall i | 0 <= i < |out| && out[i].LogEvent? ensures ReadOk(out, i, from, history') {
      assert ReadOk(out, i, from, history);
    }
  }

  lemma ReadsMore(out: seq<Out>, from: nat, history: seq<Event>, o: Out)
    requires Reads(out, from, history)
    requires o.LogEvent? ==>
               && 1 <= o.id <= |history| && o.event == history[o.id - 1]
               && Follows(o.id, Served(out, from), history)
    ensures Reads(out + [o], from, history) && Served(out + [o], from) == o.id
  {
    var out' := out + [o];
    forall i | 0 <= i < |out'| && out'[i].LogEvent? ensures ReadOk(out', i, from, history) {
      if i < |out| {
        assert out'[..i] == out[..i] && out'[i] == out[i];
        assert ReadOk(out, i, from, history);
      } else {
        assert out'[..i] == out;
      }
    }
  }

  /** The snapshot behind a cursor continues the log from there. */
  lemma ItemsContinue(events: seq<Event>, total: nat, history: seq<Event>, cursor: nat)
    requires WindowOf(events, total, history)
    ensures var from := if cursor <= |history| then cursor else |history|;
            Continues(Items(events, total, cursor), total, from, history)
  {
    var items := Items(events, total, cursor);
    var dequeStart := |history| - |events|;
    var skip := if cursor > dequeStart then cursor - dequeStart else 0;
    forall i | 0 <= i < |items| ensures ItemOk(items[i], total - |items| + i + 1, history) {
      assert events[skip + i] == history[dequeStart + skip + i];
    }
  }

  lemma RestContinues(items: seq<(nat, Event)>, total: nat, served: nat, history: seq<Event>)
    requires Continues(items, total, served, history) && items != []
    ensures Continues(items[1..], total, items[0].0, history)
    ensures ItemOk(items[0], items[0].0, history) && Follows(items[0].0, served, history)
  {
    var rest := items[1..];
    assert ItemOk(items[0], total - |items| + 1, history);
    forall i | 0 <= i < |rest| ensures ItemOk(rest[i], total - |rest| + i + 1, history) {
      assert ItemOk(items[i + 1], total - |items| + (i + 1) + 1, history);
    }
  }

  lemma ContinuesGrows(items: seq<(nat, Event)>, total: nat, served: nat, history: seq<Event>, history': seq<Event>)
    requires Continues(items, total, served, history) && history <= history'
    ensures Continues(items, total, served, history')
  {
    forall i | 0 <= i < |items| ensures ItemOk(items[i], total - |items| + i + 1, history') {
      assert ItemOk(items[i], total - |items| + i + 1, history);
    }
  }

  lemma OpKeepsSession(s: Session, a: OpAction)
    requires SessionInv(s) && OpEnabled(s.op, a)
    ensures SessionInv(Apply(s, OpActs(a)))
  {
    OpStepKeepsInv(s.op, a);
    GrowthKeepsSession(s, OpStep(s.op, a));
  }

  lemma GrowthKeepsSession(s: Session, o: Op)
    requires SessionInv(s) && Grows(s.op, o)
    ensures SessionInv(s.(op := o))
  {
    if s.resumed.Some? {
      ReadsGrows(s.out, s.resumed.value, s.op.history, o.history);
      if s.gen.Emitting? {
        ContinuesGrows(s.gen.items, s.gen.total, Served(s.out, s.resumed.value), s.op.history, o.history);
      }
    }
  }

  lemma GenKeepsSession(s: Session)
    requires SessionInv(s)
    ensures SessionInv(Apply(s, GenActs))
  {
    match s.gen
    case AtTop(cursor) => ItemsContinue(s.op.events, s.op.totalAppended, s.op.history, cursor);
    case Emitting(items, total, final) =>
      EmitKeepsReading(s.op, s.gen, s.out, s.resumed.value);
    case Closed =>
  }

  lemma EmitKeepsReading(op: Op, gen: Generator, out: seq<Out>, from: nat)
    requires OpInv(op) && gen.Emitting? && Reads(out, from, op.history) && GenOk(gen, out, from, op.history, op.status)
    ensures var (g, o) := GenStep(op, gen);
            var out' := if o.Some? then out + [o.value] else out;
            Reads(out', from, op.history) && GenOk(g, out', from, op.history, op.status)
  {
    if gen.items != [] {
      YieldKeepsReading(op, gen, out, from);
    } else if gen.final {
      TerminalKeepsReading(op, gen, out, from);
    } else if op.status != Running {
      ItemsContinue(op.events, op.totalAppended, op.history, gen.total);
    }
  }

  lemma YieldKeepsReading(op: Op, gen: Generator, out: seq<Out>, from: nat)
    requires gen.Emitting? && gen.items != []
    requires Reads(out, from, op.history) && GenOk(gen, out, from, op.history, op.status)
    ensures var out' := out + [LogEvent(gen.items[0].0, gen.items[0].1)];
            && Reads(out', from, op.history)
            && GenOk(gen.(items := gen.items[1..]), out', from, op.history, op.status)
  {
    RestContinues(gen.items, gen.total, Served(out, from), op.history);
    ReadsMore(out, from, op.history, LogEvent(gen.items[0].0, gen.items[0].1));
  }

  lemma TerminalKeepsReading(op: Op, gen: Generator, out: seq<Out>, from: nat)
    requires gen.Emitting? && gen.items == [] && gen.final
    requires Reads(out, from, op.history) && GenOk(gen, out, from, op.history, op.status)
    ensures var out' := out + [Terminal(op.status == Succeeded, |op.history| + 1)];
            Reads(out', from, op.history) && GenOk(Closed, out', from, op.history, op.status)
  {
    var o := Terminal(op.status == Succeeded, |op.history| + 1);
    ReadsMore(out, from, op.history, o);
    assert (out + [o])[..|out|] == out;
  }

  lemma {:induction false} SessionReachable(o: Op, cursor: nat, acts: seq<Action>)
    requires OpInv(o) && Execute(Connect(o, cursor), acts).Some?
    ensures SessionInv(Execute(Connect(o, cursor), acts).value)
    decreases |acts|
  {
    if acts != [] {
      var s := Execute(Connect(o, cursor), acts[..|acts| - 1]).value;
      SessionReachable(o, cursor, acts[..|acts| - 1]);
      match acts[|acts| - 1]
      case OpActs(a) => OpKeepsSession(s, a);
      case GenActs => GenKeepsSession(s);
    }
  }

  // ---------------------------------------------------------------- operations and sessions that can occur

  function ExecuteOp(acts: seq<OpAction>): Option<Op>
  {
    if acts == [] then Some(NewOp)
    else
      match ExecuteOp(acts[..|acts| - 1])
      case None => None
      case Some(o) =>
        if OpEnabled(o, acts[|acts| - 1]) then Some(OpStep(o, acts[|acts| - 1])) else None
  }

  lemma {:induction false} ReachableOpInv(acts: seq<OpAction>)
    requires ExecuteOp(acts).Some?
    ensures OpInv(ExecuteOp(acts).value)
  {
    if acts != [] {
      ReachableOpInv(acts[..|acts| - 1]);
      OpStepKeepsInv(ExecuteOp(acts[..|acts| - 1]).value, acts[|acts| - 1]);
    }
  }

  /** `s` is a session of a client that connected to `o` with `cursor`. */
  ghost predicate SessionOf(s: Session, o: Op, cursor: nat)
  {
    OpInv(o) && exists acts :: Execute(Connect(o, cursor), acts) == Some(s)
  }

  lemma SessionOfInv(s: Session, o: Op, cursor: nat)
    requires SessionOf(s, o, cursor)
    ensures SessionInv(s)
  {
    var acts :| Execute(Connect(o, cursor), acts) == Some(s);
    SessionReachable(o, cursor, acts);
  }

  /** The reader starts where the client left off, or at the end of the log if the client claims more. */
  lemma {:induction false} ResumePoint(o: Op, cursor: nat, acts: seq<Action>)
    requires OpInv(o) && Execute(Connect(o, cursor), acts).Some?
    ensures var s := Execute(Connect(o, cursor), acts).value;
            && Grows(o, s.op)
            && (s.resumed.Some? ==>
                  && s.resumed.value <= cursor
                  && (cursor <= |o.history| ==> s.resumed.value == cursor)
                  && (cursor > |o.history| ==> s.resumed.value >= |o.history|))
    decreases |acts|
  {
    if acts != [] {
      var s := Execute(Connect(o, cursor), acts[..|acts| - 1]).value;
      ResumePoint(o, cursor, acts[..|acts| - 1]);
      SessionReachable(o, cursor, acts[..|acts| - 1]);
      match acts[|acts| - 1]
      case OpActs(a) => OpStepKeepsInv(s.op, a);
      case GenActs => FirstPollUsesCursor(o, cursor, acts[..|acts| - 1]);
    }
  }

  lemma {:induction false} FirstPollUsesCursor(o: Op, cursor: nat, acts: seq<Action>)
    requires OpInv(o) && Execute(Connect(o, cursor), acts).Some?
    ensures var s := Execute(Connect(o, cursor), acts).value;
            s.resumed.None? ==> s.gen == AtTop(cursor)
    decreases |acts|
  {
    if acts != [] {
      FirstPollUsesCursor(o, cursor, acts[..|acts| - 1]);
    }
  }

  // ---------------------------------------------------------------- what a client sees

  lemma EventAtItsId(s: Session, i: nat)
    requires SessionInv(s) && i < |s.out| && s.out[i].LogEvent?
    ensures 1 <= s.out[i].id <= |s.op.history| && s.out[i].event == s.op.history[s.out[i].id - 1]
  {
    SessionReads(s);
    assert ReadOk(s.out, i, s.resumed.value, s.op.history);
  }

  lemma LaterHasGreaterId(s: Session, i: nat, j: nat)
    requires SessionInv(s) && i < j < |s.out|
    ensures s.out[i].id < s.out[j].id && s.out[i].LogEvent?
  {
    SessionReads(s);
    SessionRises(s);
    Increasing(s.out, s.resumed.value, i, j);
    OnlyLastIsTerminal(s, i);
  }

  /** Ids strictly increase, and each log event is the one appended at its position. */
  lemma IdsIncrease(s: Session, o: Op, cursor: nat)
    requires SessionOf(s, o, cursor)
    ensures forall i, j | 0 <= i < j < |s.out| :: s.out[i].id < s.out[j].id
    ensures forall i | 0 <= i < |s.out| && s.out[i].LogEvent? ::
              1 <= s.out[i].id <= |s.op.history| && s.out[i].event == s.op.history[s.out[i].id - 1]
    ensures forall i | 0 <= i < |s.out| - 1 :: s.out[i].LogEvent?
  {
    SessionOfInv(s, o, cursor);
    forall i, j | 0 <= i < j < |s.out| ensures s.out[i].id < s.out[j].id { LaterHasGreaterId(s, i, j); }
    forall i | 0 <= i < |s.out| && s.out[i].LogEvent?
      ensures 1 <= s.out[i].id <= |s.op.history| && s.out[i].event == s.op.history[s.out[i].id - 1]
    {
      EventAtItsId(s, i);
    }
    forall i | 0 <= i < |s.out| - 1 ensures s.out[i].LogEvent? { LaterHasGreaterId(s, i, |s.out| - 1); }
  }

  lemma SessionReads(s: Session)
    requires SessionInv(s)
    ensures s.out != [] ==> s.resumed.Some?
    ensures s.resumed.Some? ==> Reads(s.out, s.resumed.value, s.op.history)
  {
  }

  lemma OnlyLastIsTerminal(s: Session, i: nat)
    requires SessionInv(s) && i < |s.out|
    ensures s.out[i].Terminal? ==> s.gen.Closed? && i == |s.out| - 1
  {
    assert s.out[i] in s.out;
    if i < |s.out| - 1 {
      assert s.out[..|s.out| - 1][i] == s.out[i];
      assert s.out[i] in s.out[..|s.out| - 1];
    }
  }

  /** Each output is past what was served before it. */
  predicate Rising(out: seq<Out>, from: nat)
  {
    forall j | 0 <= j < |out| :: Served(out[..j], from) < out[j].id
  }

  lemma SessionRises(s: Session)
    requires SessionInv(s) && s.resumed.Some?
    ensures Rising(s.out, s.resumed.value)
  {
    SessionReads(s);
    forall j | 0 <= j < |s.out| ensures Served(s.out[..j], s.resumed.value) < s.out[j].id {
      OnlyLastIsTerminal(s, j);
      if s.out[j].LogEvent? {
        assert ReadOk(s.out, j, s.resumed.value, s.op.history);
      }
    }
  }

  lemma {:induction false} Increasing(out: seq<Out>, from: nat, i: nat, j: nat)
    requires Rising(out, from) && i < j < |out|
    ensures out[i].id < out[j].id
    decreases j - i
  {
    assert Served(out[..j], from) == out[j - 1].id;
    if i + 1 < j {
      Increasing(out, from, i, j - 1);
    }
  }

  lemma PastStart(out: seq<Out>, from: nat, i: nat)
    requires Rising(out, from) && i < |out|
    ensures from < out[i].id
  {
    assert out[..0] == [] && Served(out[..0], from) < out[0].id;
    if 0 < i { Increasing(out, from, 0, i); }
  }

  /** Nothing is appended behind the terminal marker. */
  lemma ClosedIsFinal(s: Session, o: Op, cursor: nat, a: OpAction)
    requires SessionOf(s, o, cursor) && s.gen.Closed? && OpEnabled(s.op, a)
    ensures OpStep(s.op, a).history == s.op.history && OpStep(s.op, a).status == s.op.status
  {
    SessionOfInv(s, o, cursor);
    OpStepKeepsInv(s.op, a);
  }

  /**
    Reconnecting with the last id received, whether of a log event or of the terminal
    marker, yields no log event a second time.
   */
  lemma ReconnectAddsNoDuplicate(s1: Session, o1: Op, c1: nat, o2: Op, s2: Session, i: nat)
    requires SessionOf(s1, o1, c1) && s1.out != [] && Grows(s1.op, o2)
    requires SessionOf(s2, o2, s1.out[|s1.out| - 1].id)
    requires i < |s2.out| && s2.out[i].LogEvent?
    ensures s2.out[i].id > s1.out[|s1.out| - 1].id
    ensures s2.out[i] !in s1.out
  {
    var last := s1.out[|s1.out| - 1].id;
    SessionOfInv(s1, o1, c1);
    LastIdIsInLog(s1);
    YieldsPastCursor(s2, o2, last, i);
    IdsBelowLast(s1, s2.out[i]);
  }

  /** The last id is a position of the log, or the terminal id of a log that no longer grows. */
  lemma LastIdIsInLog(s: Session)
    requires SessionInv(s) && s.out != []
    ensures var last := s.out[|s.out| - 1].id;
            last <= |s.op.history| || (last == |s.op.history| + 1 && s.op.status != Running)
  {
    SessionReads(s);
    OnlyLastIsTerminal(s, |s.out| - 1);
  }

  lemma IdsBelowLast(s: Session, x: Out)
    requires SessionInv(s) && s.out != [] && x.id > s.out[|s.out| - 1].id
    ensures x !in s.out
  {
    var n := |s.out|;
    forall j | 0 <= j < n ensures s.out[j] != x {
      if j < n - 1 { LaterHasGreaterId(s, j, n - 1); }
    }
  }

  lemma YieldsPastCursor(s: Session, o: Op, cursor: nat, i: nat)
    requires SessionOf(s, o, cursor) && i < |s.out| && s.out[i].LogEvent?
    ensures s.out[i].id > (if cursor <= |o.history| then cursor else |o.history|)
    ensures s.out[i].id <= |s.op.history| && Grows(o, s.op)
  {
    SessionOfInv(s, o, cursor);
    SessionReads(s);
    var acts :| Execute(Connect(o, cursor), acts) == Some(s);
    ResumePoint(o, cursor, acts);
    SessionRises(s);
    PastStart(s.out, s.resumed.value, i);
  }
}
