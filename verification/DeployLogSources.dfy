/**
  The deploy log told from what happened alone: which event each line, timeout and
  standard-error text became, and which exit code a session's terminal marker reports.
 */
module DeployLogSources {
  import opened Wrappers
  import opened DeployLog
  import opened DeployLogTheorems
  import opened DeployLogRefinement

  /** The events that a line of the subprocess writes. */
  function LineWrites(line: Line): seq<Event>
  {
    match line
    case NotJson(text) => [Log(text, Plain)]
    case NotAnObject => []
    case Object(kind, message, raw) =>
      match kind
      case Step => [Named(Step, raw)]
      case ResultEvent => [Named(ResultEvent, raw)]
      case UploadProgress => [Named(UploadProgress, raw)]
      case Heartbeat => [Named(Heartbeat, raw)]
      case Absent => if message == "" then [] else [Log(message, Plain)]
      case Other(name) => if message == "" then [] else [Log(message, if name == "" then Plain else FromCli(Other(name)))]
  }

  /** The non-empty texts on standard error so far. */
  function StderrTexts(acts: seq<OpAction>): seq<string>
  {
    if acts == [] then []
    else
      var a := acts[|acts| - 1];
      StderrTexts(acts[..|acts| - 1]) + (if a.GotStderr? && a.text != "" then [a.text] else [])
  }

  function Last<T>(xs: seq<T>, n: nat): seq<T>
  {
    if n < |xs| then xs[|xs| - n..] else xs
  }

  function ErrorLines(texts: seq<string>): seq<Event>
  {
    seq(|texts|, i requires 0 <= i < |texts| => Log(texts[i], ErrorLevel))
  }

  /** The whole log: lines, timeouts before the end, and, unless the exit code was 0, the last texts on standard error. */
  function Written(acts: seq<OpAction>): seq<Event>
  {
    if acts == [] then []
    else
      var before := acts[..|acts| - 1];
      Written(before) +
      match acts[|acts| - 1]
      case GotLine(line) => LineWrites(line)
      case TimedOut(alive, msg) => if alive && Flushed !in before then [Log(msg, ErrorLevel)] else []
      case GraceExpired(msg) => [Log(msg, ErrorLevel)]
      case Flushed => if OutputEnded(0) in before then [] else ErrorLines(Last(StderrTexts(before), 50))
      case _ => []
  }

  /** Status, verdict and exit code tell what happened. */
  ghost predicate StatusTells(o: Op, acts: seq<OpAction>)
  {
    && (o.status == Running <==> Flushed !in acts)
    && (o.status == Succeeded <==> Flushed in acts && OutputEnded(0) in acts)
    && (!o.readTask.ReadOver? ==> Flushed !in acts)
    && (o.readTask.ReadingLines? ==> o.exitCode.None?)
    && (o.readTask.Draining? ==> o.readTask.verdict == if OutputEnded(0) in acts then Succeeded else Failed)
    && (forall code :: OutputEnded(code) in acts <==> o.exitCode == Some(code))
  }

  lemma OneMore(acts: seq<OpAction>, a: OpAction)
    ensures (acts + [a])[..|acts + [a]| - 1] == acts && (acts + [a])[|acts + [a]| - 1] == a
    ensures forall x :: x in acts + [a] <==> x in acts || x == a
  {
  }

  lemma StatusStep(o: Op, acts: seq<OpAction>, a: OpAction)
    requires OpEnabled(o, a) && StatusTells(o, acts)
    ensures StatusTells(OpStep(o, a), acts + [a])
  {
    OneMore(acts, a);
    if a.Flushed? { FlushShape(o, o.stderrTail); }
  }

  lemma {:induction false} FlushShape(o: Op, tail: seq<string>)
    ensures FlushTail(o, tail).history == o.history + ErrorLines(tail)
    ensures var o' := FlushTail(o, tail);
            o'.exitCode == o.exitCode && o'.stderrTail == o.stderrTail
    decreases |tail|
  {
    if tail != [] {
      FlushShape(Append(o, Log(tail[0], ErrorLevel)), tail[1..]);
      assert ErrorLines(tail) == [Log(tail[0], ErrorLevel)] + ErrorLines(tail[1..]);
    }
  }

  lemma PushIsLast(texts: seq<string>, x: string, n: nat)
    requires n > 0
    ensures Push(Last(texts, n), x, n) == Last(texts + [x], n)
  {
  }

  lemma TailStep(o: Op, acts: seq<OpAction>, a: OpAction)
    requires OpEnabled(o, a) && o.stderrTail == Last(StderrTexts(acts), 50)
    ensures OpStep(o, a).stderrTail == Last(StderrTexts(acts + [a]), 50)
  {
    OneMore(acts, a);
    if a.GotStderr? { PushIsLast(StderrTexts(acts), a.text, 50); }
    if a.Flushed? { FlushShape(o, o.stderrTail); }
  }

  lemma LogStep(o: Op, acts: seq<OpAction>, a: OpAction)
    requires OpEnabled(o, a) && StatusTells(o, acts) && o.stderrTail == Last(StderrTexts(acts), 50)
    requires o.history == Written(acts)
    ensures OpStep(o, a).history == Written(acts + [a])
  {
    OneMore(acts, a);
    if a.Flushed? { FlushShape(o, o.stderrTail); }
  }

  /** After every course of events the log is the one written, and the status tells how it ended. */
  lemma {:induction false} LogIsWritten(acts: seq<OpAction>)
    requires ExecuteOp(acts).Some?
    ensures var o := ExecuteOp(acts).value;
            o.history == Written(acts) && StatusTells(o, acts) && o.stderrTail == Last(StderrTexts(acts), 50)
  {
    if acts != [] {
      var before, a := acts[..|acts| - 1], acts[|acts| - 1];
      LogIsWritten(before);
      var o := ExecuteOp(before).value;
      StatusStep(o, before, a);
      TailStep(o, before, a);
      LogStep(o, before, a);
      assert before + [a] == acts;
    }
  }

  // ---------------------------------------------------------------- sessions

  /** What happened to the operation during a session. */
  function OpsOf(acts: seq<Action>): seq<OpAction>
  {
    if acts == [] then []
    else
      var a := acts[|acts| - 1];
      OpsOf(acts[..|acts| - 1]) + (if a.OpActs? then [a.a] else [])
  }

  lemma {:induction false} SessionOp(ops: seq<OpAction>, cursor: nat, acts: seq<Action>)
    requires ExecuteOp(ops).Some? && Execute(Connect(ExecuteOp(ops).value, cursor), acts).Some?
    ensures ExecuteOp(ops + OpsOf(acts)) == Some(Execute(Connect(ExecuteOp(ops).value, cursor), acts).value.op)
    decreases |acts|
  {
    if acts == [] {
      assert ops + [] == ops;
    } else {
      var before, a := acts[..|acts| - 1], acts[|acts| - 1];
      SessionOp(ops, cursor, before);
      if a.OpActs? {
        assert ops + OpsOf(acts) == (ops + OpsOf(before)) + [a.a];
        OneMore(ops + OpsOf(before), a.a);
      } else {
        assert OpsOf(acts) == OpsOf(before);
      }
    }
  }

  lemma OutputTells(s: Session)
    requires SessionInv(s)
    ensures forall i | 0 <= i < |s.out| && s.out[i].LogEvent? ::
              1 <= s.out[i].id <= |s.op.history| && s.out[i].event == s.op.history[s.out[i].id - 1]
    ensures forall i | 0 <= i < |s.out| && s.out[i].Terminal? ::
              i == |s.out| - 1 && s.out[i] == Terminal(s.op.status == Succeeded, |s.op.history| + 1) && s.op.status != Running
    ensures s.gen.Closed? ==> s.out != [] && s.out[|s.out| - 1].Terminal? && s.op.status != Running
  {
    forall i | 0 <= i < |s.out| && s.out[i].LogEvent?
      ensures 1 <= s.out[i].id <= |s.op.history| && s.out[i].event == s.op.history[s.out[i].id - 1]
    {
      EventAtItsId(s, i);
    }
    forall i | 0 <= i < |s.out| && s.out[i].Terminal? ensures s.gen.Closed? && i == |s.out| - 1 { OnlyLastIsTerminal(s, i); }
  }

  /**
    What a client reads in a session, told from everything that happened to the operation
    before and during it: each log event is the one written at its position, and the
    terminal marker follows the whole log and reports success exactly for exit code 0.
   */
  lemma SessionTells(ops: seq<OpAction>, cursor: nat, acts: seq<Action>, s: Session)
    requires ExecuteOp(ops).Some? && Execute(Connect(ExecuteOp(ops).value, cursor), acts) == Some(s)
    ensures var log, all := Written(ops + OpsOf(acts)), ops + OpsOf(acts);
            && (forall i | 0 <= i < |s.out| && s.out[i].LogEvent? ::
                  1 <= s.out[i].id <= |log| && s.out[i].event == log[s.out[i].id - 1])
            && (forall i | 0 <= i < |s.out| && s.out[i].Terminal? ::
                  i == |s.out| - 1 && s.out[i] == Terminal(OutputEnded(0) in all, |log| + 1))
            && (s.gen.Closed? ==> s.out != [] && s.out[|s.out| - 1].Terminal? && Flushed in all)
  {
    ReachableOpInv(ops);
    SessionOp(ops, cursor, acts);
    LogIsWritten(ops + OpsOf(acts));
    SessionReachable(ExecuteOp(ops).value, cursor, acts);
    OutputTells(s);
  }
}
