/**
  `DeployOperation`, its writers and the loop of `generate`
  (src/langgraph_runtime_inmem/routes.py), updating their fields in place.
 */
module DeployOperation {
  import opened Wrappers
  import opened DeployLog

  class Operation {
    var events: seq<Event>
    var totalAppended: nat
    var status: Status
    var exitCode: Option<int>
    var stderrTail: seq<string>
    var readTask: ReadTask
    var watchdog: Watchdog
    ghost var history: seq<Event>

    ghost function View(): Op
      reads this
    {
      Op(history, events, totalAppended, status, exitCode, stderrTail, readTask, watchdog)
    }

    constructor ()
      ensures View() == NewOp
    {
      events, totalAppended, status, exitCode := [], 0, Running, None;
      stderrTail, readTask, watchdog, history := [], ReadingLines, Sleeping, [];
    }

    /** `events.append` of a bounded deque, and the counter that goes with it. */
    method AppendEvent(e: Event)
      modifies this`events, this`totalAppended, this`history
      ensures View() == Append(old(View()), e)
    {
      if |events| >= BUFFER_SIZE {
        events := events[|events| - BUFFER_SIZE + 1..];
      }
      events := events + [e];
      totalAppended := totalAppended + 1;
      history := history + [e];
    }

    /** The body of the loop of `_read_subprocess`. */
    method HandleLine(line: Line)
      requires OpEnabled(View(), GotLine(line))
      modifies this
      ensures View() == OpStep(old(View()), GotLine(line))
    {
      match line {
        case NotJson(text) => AppendEvent(Log(text, Plain));
        case NotAnObject => readTask := Draining(Failed);
        case Object(kind, message, raw) =>
          if IsNamed(kind) {
            AppendEvent(Named(kind, raw));
          } else if message != [] {
            AppendEvent(Log(message, if kind.Absent? || kind == Other("") then Plain else FromCli(kind)));
          }
      }
    }

    method HandleStderr(text: string)
      modifies this`stderrTail
      ensures View() == OpStep(old(View()), GotStderr(text))
    {
      if text != [] {
        stderrTail := Push(stderrTail, text, STDERR_TAIL_SIZE);
      }
    }

    /** stdout is exhausted and the process has exited, or the reading raised. */
    method EndOfOutput(exit: Option<int>)
      requires readTask.ReadingLines?
      modifies this`exitCode, this`readTask
      ensures View() == OpStep(old(View()), if exit.Some? then OutputEnded(exit.value) else ReadFailed)
    {
      if exit.Some? {
        exitCode := exit;
        readTask := Draining(if exit.value == 0 then Succeeded else Failed);
      } else {
        readTask := Draining(Failed);
      }
    }

    /** The `finally` clause of `_read_subprocess`: the status is assigned last. */
    method Finish()
      requires OpEnabled(View(), Flushed)
      modifies this
      ensures View() == OpStep(old(View()), Flushed)
    {
      var verdict := readTask.verdict;
      if verdict == Failed {
        ghost var o := View();
        var i := 0;
        while i < |stderrTail|
          invariant 0 <= i <= |stderrTail|
          invariant FlushTail(o, o.stderrTail) == FlushTail(View(), stderrTail[i..])
          invariant stderrTail == o.stderrTail && readTask == o.readTask
        {
          AppendEvent(Log(stderrTail[i], ErrorLevel));
          i := i + 1;
        }
      }
      status := verdict;
      readTask := ReadOver;
      watchdog := WatchdogOver;
    }

    /** `_timeout_watchdog` after its first sleep. */
    method Timeout(alive: bool, msg: string)
      requires OpEnabled(View(), TimedOut(alive, msg))
      modifies this
      ensures View() == OpStep(old(View()), TimedOut(alive, msg))
    {
      if !(status == Running && alive) {
        watchdog := WatchdogOver;
        return;
      }
      AppendEvent(Log(msg, ErrorLevel));
      watchdog := Grace;
    }

    /** `_timeout_watchdog` when the process survives SIGTERM. */
    method GraceTimeout(msg: string)
      requires OpEnabled(View(), GraceExpired(msg))
      modifies this
      ensures View() == OpStep(old(View()), GraceExpired(msg))
    {
      AppendEvent(Log(msg, ErrorLevel));
      watchdog := WatchdogOver;
    }
  }

  /** The loop over `snapshot[skip:]` that gives each event its absolute id. */
  method NumberSnapshot(snapshot: seq<Event>, total: nat, cursor: nat) returns (items: seq<(nat, Event)>)
    requires |snapshot| <= total
    ensures items == Items(snapshot, total, cursor)
  {
    var dequeStart := total - |snapshot|;
    var skip := if cursor > dequeStart then cursor - dequeStart else 0;
    items := [];
    var offset := 0;
    while skip + offset < |snapshot|
      invariant skip + offset <= |snapshot| || offset == 0
      invariant |items| == offset
      invariant forall i | 0 <= i < offset :: items[i] == (dequeStart + skip + i + 1, snapshot[skip + i])
    {
      items := items + [(dequeStart + skip + offset + 1, snapshot[skip + offset])];
      offset := offset + 1;
    }
  }

  /** The generator of one connection. */
  class LogStream {
    const op: Operation
    var gen: Generator

    constructor (op: Operation, cursor: nat)
      ensures this.op == op && gen == AtTop(cursor)
    {
      this.op := op;
      gen := AtTop(cursor);
    }

    /** `generate` runs to its next yield or sleep. */
    method Resume() returns (yielded: Option<Out>)
      requires OpShape(op.View())
      modifies this
      ensures (gen, yielded) == GenStep(op.View(), old(gen))
    {
      yielded := None;
      match gen {
        case AtTop(cursor) =>
          var items := NumberSnapshot(op.events, op.totalAppended, cursor);
          gen := Emitting(items, op.totalAppended, false);
        case Emitting(items, total, final) =>
          if items != [] {
            yielded := Some(LogEvent(items[0].0, items[0].1));
            gen := Emitting(items[1..], total, final);
          } else if final {
            yielded := Some(Terminal(op.status == Succeeded, op.totalAppended + 1));
            gen := Closed;
          } else if op.status != Running {
            var rest := NumberSnapshot(op.events, op.totalAppended, total);
            gen := Emitting(rest, op.totalAppended, true);
          } else {
            gen := AtTop(total);
          }
        case Closed =>
      }
    }
  }
}
