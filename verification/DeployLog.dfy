/**
  The deploy log of src/langgraph_runtime_inmem/routes.py: events go into a ring buffer of
  2000 slots with absolute 1-based ids, and a server-sent-event generator reads it with a
  resumable cursor while the subprocess reader and the watchdog keep appending.
  `history` is the unbounded log that the buffer is a window of.
 */
module DeployLog {
  import opened Wrappers

  const BUFFER_SIZE := 2000
  const STDERR_TAIL_SIZE := 50

  /** The `event` field of a line; the first four are _NAMED_EVENT_TYPES. */
  datatype Kind = Step | ResultEvent | UploadProgress | Heartbeat | Other(name: string) | Absent

  predicate IsNamed(kind: Kind)
  {
    kind.Step? || kind.ResultEvent? || kind.UploadProgress? || kind.Heartbeat?
  }

  /** The level of a log event: "log", ErrorLevel, or the CLI's own event type if it is truthy. */
  datatype Level = Plain | ErrorLevel | FromCli(kind: Kind)

  datatype Event = Named(kind: Kind, raw: string) | Log(message: string, level: Level)

  datatype Status = Running | Succeeded | Failed

  /** `_read_subprocess`: reading lines, then draining stderr with its verdict, then over. */
  datatype ReadTask = ReadingLines | Draining(verdict: Status) | ReadOver

  datatype Watchdog = Sleeping | Grace | WatchdogOver

  datatype Op = Op(
    history: seq<Event>,
    events: seq<Event>,
    totalAppended: nat,
    status: Status,
    exitCode: Option<int>,
    stderrTail: seq<string>,
    readTask: ReadTask,
    watchdog: Watchdog)

  const NewOp := Op([], [], 0, Running, None, [], ReadingLines, Sleeping)

  /** `collections.deque(maxlen=max).append`. */
  function Push<T>(buffer: seq<T>, x: T, max: nat): seq<T>
    requires max > 0
  {
    if |buffer| < max then buffer + [x] else buffer[|buffer| - max + 1..] + [x]
  }

  function Append(o: Op, e: Event): Op
  {
    o.(history := o.history + [e], events := Push(o.events, e, BUFFER_SIZE), totalAppended := o.totalAppended + 1)
  }

  /** One line of the subprocess's output after json.loads. */
  datatype Line =
    | NotJson(text: string)
    | NotAnObject                        // JSON without .get, or with an unhashable event type
    | Object(kind: Kind, message: string, raw: string)  // an absent message is ""

  /** What a line appends; Err is the exception that ends the reading as failed. */
  function LineEvent(line: Line): Result<Option<Event>, ()>
  {
    match line
    case NotJson(text) => Ok(Some(Log(text, Plain)))
    case NotAnObject => Err(())
    case Object(kind, message, raw) =>
      if IsNamed(kind) then Ok(Some(Named(kind, raw)))
      else if message == [] then Ok(None)
      else Ok(Some(Log(message, if kind.Absent? || kind == Other("") then Plain else FromCli(kind))))
  }

  function FlushTail(o: Op, tail: seq<string>): Op
    decreases |tail|
  {
    if tail == [] then o else FlushTail(Append(o, Log(tail[0], ErrorLevel)), tail[1..])
  }

  datatype OpAction =
    | GotLine(line: Line)
    | GotStderr(text: string)
    | OutputEnded(exitCode: int)   // stdout is exhausted and the process has exited
    | ReadFailed
    | Flushed                      // stderr drained or timed out: tail flushed, status set, watchdog cancelled
    | ReadTornDown                 // the reader task is cancelled: the status stays
    | TimedOut(alive: bool, msg: string)
    | GraceExpired(msg: string)
    | WatchdogLeft                 // the process exited in the grace period, or the watchdog was cancelled

  predicate OpEnabled(o: Op, a: OpAction)
  {
    match a
    case GotLine(_) => o.readTask.ReadingLines?
    case GotStderr(_) => true
    case OutputEnded(_) => o.readTask.ReadingLines?
    case ReadFailed => o.readTask.ReadingLines?
    case Flushed => o.readTask.Draining?
    case ReadTornDown => !o.readTask.ReadOver?
    case TimedOut(_, _) => o.watchdog.Sleeping?
    case GraceExpired(_) => o.watchdog.Grace?
    case WatchdogLeft => !o.watchdog.WatchdogOver?
  }

  function OpStep(o: Op, a: OpAction): Op
    requires OpEnabled(o, a)
  {
    match a
    case GotLine(line) =>
      (match LineEvent(line)
       case Ok(Some(e)) => Append(o, e)
       case Ok(None) => o
       case Err(_) => o.(readTask := Draining(Failed)))
    case GotStderr(text) => if text == [] then o else o.(stderrTail := Push(o.stderrTail, text, STDERR_TAIL_SIZE))
    case OutputEnded(code) =>
      o.(exitCode := Some(code), readTask := Draining(if code == 0 then Succeeded else Failed))
    case ReadFailed => o.(readTask := Draining(Failed))
    case Flushed =>
      var verdict := o.readTask.verdict;
      var o1 := if verdict == Failed then FlushTail(o, o.stderrTail) else o;
      o1.(status := verdict, readTask := ReadOver, watchdog := WatchdogOver)
    case ReadTornDown => o.(readTask := ReadOver)
    case TimedOut(alive, msg) =>
      if o.status == Running && alive then Append(o, Log(msg, ErrorLevel)).(watchdog := Grace)
      else o.(watchdog := WatchdogOver)
    case GraceExpired(msg) => Append(o, Log(msg, ErrorLevel)).(watchdog := WatchdogOver)
    case WatchdogLeft => o.(watchdog := WatchdogOver)
  }

  // ---------------------------------------------------------------- the generator

  datatype Out = LogEvent(id: nat, event: Event) | Terminal(success: bool, id: nat)

  /** `generate` between two yields or sleeps. */
  datatype Generator =
    | AtTop(cursor: nat)
    | Emitting(items: seq<(nat, Event)>, total: nat, final: bool)
    | Closed

  /** The part of the buffer behind the cursor, with its absolute ids. */
  function Items(events: seq<Event>, total: nat, cursor: nat): seq<(nat, Event)>
    requires |events| <= total
  {
    var dequeStart := total - |events|;
    var skip := if cursor > dequeStart then cursor - dequeStart else 0;
    if skip >= |events| then []
    else seq(|events| - skip, i requires 0 <= i < |events| - skip => (dequeStart + skip + i + 1, events[skip + i]))
  }

  predicate OpShape(o: Op)
  {
    |o.events| <= o.totalAppended
  }

  /** One turn of the generator: at most one yield. */
  function GenStep(o: Op, g: Generator): (r: (Generator, Option<Out>))
    requires OpShape(o)
  {
    match g
    case AtTop(cursor) => (Emitting(Items(o.events, o.totalAppended, cursor), o.totalAppended, false), None)
    case Emitting(items, total, final) =>
      if items != [] then (Emitting(items[1..], total, final), Some(LogEvent(items[0].0, items[0].1)))
      else if final then (Closed, Some(Terminal(o.status == Succeeded, o.totalAppended + 1)))
      else if o.status != Running then (Emitting(Items(o.events, o.totalAppended, total), o.totalAppended, true), None)
      else (AtTop(total), None)
    case Closed => (Closed, None)
  }

  /** A connection: the operation, its generator, what was yielded, and the cursor it resumed from. */
  datatype Session = Session(op: Op, gen: Generator, out: seq<Out>, resumed: Option<nat>)

  datatype Action = OpActs(a: OpAction) | GenActs

  predicate Enabled(s: Session, a: Action)
  {
    match a
    case OpActs(oa) => OpEnabled(s.op, oa)
    case GenActs => OpShape(s.op)
  }

  /** `resumed` records, at the first poll, how much of the log the client's cursor stands for. */
  function Apply(s: Session, a: Action): Session
    requires Enabled(s, a)
  {
    match a
    case OpActs(oa) => s.(op := OpStep(s.op, oa))
    case GenActs =>
      var (g, o) := GenStep(s.op, s.gen);
      Session(s.op, g,
              if o.Some? then s.out + [o.value] else s.out,
              if s.resumed.None? && s.gen.AtTop?
              then Some(if s.gen.cursor <= s.op.totalAppended then s.gen.cursor else s.op.totalAppended)
              else s.resumed)
  }

  function Connect(o: Op, cursor: nat): Session
  {
    Session(o, AtTop(cursor), [], None)
  }

  /** The session after a sequence of actions from its start. */
  function Execute(s: Session, acts: seq<Action>): Option<Session>
    decreases |acts|
  {
    if acts == [] then Some(s)
    else
      match Execute(s, acts[..|acts| - 1])
      case None => None
      case Some(s1) =>
        var a := acts[|acts| - 1];
        if Enabled(s1, a) then Some(Apply(s1, a)) else None
  }
}
