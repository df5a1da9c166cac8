/**
  The in-memory store of src/langgraph_runtime_inmem/ops.py: runs, threads, crons,
  assistants and assistant versions in lists that the operations search and update.
  Each operation runs without interleaving; authorization handlers return an arbitrary
  verdict, passed in as a Boolean or as the set of permitted threads.
 */
module RunStore {
  import opened Wrappers
  import opened KeyedLists
  import StableSort

  type Id = nat
  type Json = string

  datatype RunStatus = Pending | Running | Success | Failed | TimedOut | Interrupted

  datatype ThreadStatus = Idle | Busy | ThreadInterrupted | ThreadError

  datatype Run = Run(id: Id, thread: Id, assistant: Id, status: RunStatus, createdAt: int, temporary: bool)

  /** `owner` is the assistant named in the thread's metadata. */
  datatype Thread = Thread(id: Id, status: ThreadStatus, owner: Option<Id>)

  datatype Cron = Cron(id: Id, assistant: Id, thread: Option<Id>)

  /** A run configuration: the `configurable` key if it is there, and the other keys; empty strings are falsy. */
  datatype Config = Config(configurable: Option<Json>, other: Json)

  /** `{}`, the only falsy configuration. */
  const NoConfig := Config(None, [])

  /** `config.get("configurable")`, empty if missing. */
  function Configurable(config: Config): Json
  {
    OrElse(config.configurable, [])
  }

  datatype Settings = Settings(
    graphId: string, config: Config, context: Json, metadata: map<string, Json>, name: string,
    description: Option<string>)

  datatype Assistant = Assistant(id: Id, version: nat, settings: Settings)

  datatype Version = Version(assistant: Id, version: nat, settings: Settings)

  datatype Store = Store(
    runs: seq<Run>, threads: seq<Thread>, crons: seq<Cron>,
    assistants: seq<Assistant>, versions: seq<Version>,
    attempts: map<Id, nat>)   // the retry counter

  const EmptyStore := Store([], [], [], [], [], map[])

  function RunId(r: Run): nat { r.id }
  function ThreadId(t: Thread): nat { t.id }
  function CronId(c: Cron): nat { c.id }
  function AssistantId(a: Assistant): nat { a.id }

  predicate IsActive(r: Run)
  {
    r.status == Pending || r.status == Running
  }

  /** Some pending or running run of the thread is stored. */
  predicate HasActive(runs: seq<Run>, thread: Id)
  {
    exists r | r in runs :: r.thread == thread && IsActive(r)
  }

  predicate HasRunning(runs: seq<Run>, thread: Id)
  {
    exists r | r in runs :: r.thread == thread && r.status == Running
  }

  function WithThreadStatus(s: Store, t: Thread, status: ThreadStatus): Store
  {
    s.(threads := Replace(s.threads, ThreadId, t.id, t.(status := status)))
  }

  function WithRunStatus(s: Store, r: Run, status: RunStatus): Store
  {
    s.(runs := Replace(s.runs, RunId, r.id, r.(status := status)))
  }

  // ---------------------------------------------------------------- Threads

  /** `Threads.put` and `Threads.copy`: a new idle thread, unless the id is taken. */
  function ThreadsPut(s: Store, id: Id, owner: Option<Id>): Store
  {
    if Find(s.threads, ThreadId, id).Some? then s
    else s.(threads := s.threads + [Thread(id, Idle, owner)])
  }

  /** What a checkpoint and an exception make of a thread without active runs. */
  function BaseStatus(hasNext: bool, error: bool): ThreadStatus
  {
    if error then ThreadError else if hasNext then ThreadInterrupted else Idle
  }

  /** `Threads.set_status`. */
  function ThreadsSetStatus(s: Store, thread: Id, hasNext: bool, error: bool): Store
  {
    match Find(s.threads, ThreadId, thread)
    case None => s   // 404
    case Some(t) => WithThreadStatus(s, t, if HasActive(s.runs, thread) then Busy else BaseStatus(hasNext, error))
  }

  /** What the worker reports at the end of a run. */
  datatype Verdict = Final(status: RunStatus) | Rollback

  /** The run part of `set_joint_status`: deleted, or with its final status. */
  function JointRuns(s: Store, r: Run, v: Verdict): Store
  {
    if v.Rollback? then s.(runs := Where(s.runs, NotRun(r))) else WithRunStatus(s, r, v.status)
  }

  /** `Threads.set_joint_status`; Err is the 404 for a missing thread or run. */
  function SetJointStatus(s: Store, thread: Id, run: Id, verdict: Verdict, hasNext: bool, error: bool): Result<Store, ()>
  {
    match (Find(s.threads, ThreadId, thread), Find(Where(s.runs, OnThread(thread)), RunId, run))
    case (Some(t), Some(r)) =>
      var s1 := JointRuns(s, r, verdict);
      var busy := (verdict.Final? && IsActive(r.(status := verdict.status))) || HasActive(s1.runs, thread);
      Ok(WithThreadStatus(s1, t, if busy then Busy else BaseStatus(hasNext, error)))
    case _ => Err(())
  }

  function OnThread(thread: Id): Run -> bool { (r: Run) => r.thread == thread }
  function OffThread(thread: Id): Run -> bool { (r: Run) => r.thread != thread }
  function NotRun(x: Run): Run -> bool { (r: Run) => r.id != x.id }
  function NotThread(thread: Id): Thread -> bool { (t: Thread) => t.id != thread }
  function CronOffThread(thread: Id): Cron -> bool { (c: Cron) => c.thread != Some(thread) }

  /** `Threads.delete`, with its runs and crons; Err is the 404 for a missing or forbidden thread. */
  function ThreadsDelete(s: Store, thread: Id, allowed: bool): Result<Store, ()>
  {
    if !allowed || Find(s.threads, ThreadId, thread).None? then Err(())
    else
      Ok(s.(runs := Where(s.runs, OffThread(thread)),
            crons := Where(s.crons, CronOffThread(thread)),
            threads := Where(s.threads, NotThread(thread))))
  }

  // ---------------------------------------------------------------- Runs

  datatype PutArgs = PutArgs(
    run: Id, assistant: Id,
    thread: Option<Id>, newThread: Id,   // newThread is the uuid4 drawn when no thread is named
    createMissing: bool,                 // if_not_exists == "create"
    preventIfInflight: bool,             // prevent_insert_if_inflight
    createdAt: int, temporary: bool, owner: Option<Id>,
    assistantAllowed: bool, threadAllowed: bool)

  datatype PutReply = Refused | Inflight(runs: seq<Run>) | Created(run: Run, inflight: seq<Run>)

  function ActiveOn(thread: Id): Run -> bool { (r: Run) => r.thread == thread && IsActive(r) }

  /** The thread part of `Runs.put`: the named or new thread, busy from now on; None if there is none to use. */
  function EnsureThread(s: Store, p: PutArgs): Option<(Store, Id)>
  {
    var found := if p.thread.Some? then Find(s.threads, ThreadId, p.thread.value) else None;
    match found
    case Some(t) =>
      if !p.threadAllowed then None
      else if t.status == Busy then Some((s, t.id))
      else Some((s.(threads := Replace(s.threads, ThreadId, t.id, Thread(t.id, Busy, Some(p.assistant)))), t.id))
    case None =>
      if p.thread.None? || p.createMissing then
        var id := if p.thread.Some? then p.thread.value else p.newThread;
        Some((s.(threads := s.threads + [Thread(id, Busy, p.owner)]), id))
      else None
  }

  /** `Runs.put`. */
  function RunsPut(s: Store, p: PutArgs): (Store, PutReply)
  {
    if Find(s.assistants, AssistantId, p.assistant).None? || !p.assistantAllowed then (s, Refused)
    else
      match EnsureThread(s, p)
      case None => (s, Refused)
      case Some((s1, thread)) =>
        var inflight := Where(s1.runs, ActiveOn(thread));
        if p.preventIfInflight && inflight != [] then (s1, Inflight(inflight))
        else
          var r := Run(p.run, thread, p.assistant, Pending, p.createdAt, p.temporary);
          (s1.(runs := s1.runs + [r]), Created(r, inflight))
  }

  /** `Runs.delete`; the thread's status is left alone.  Err is the 404. */
  function RunsDelete(s: Store, run: Id, thread: Id, allowed: bool): Result<Store, ()>
  {
    if !allowed then Ok(s)
    else
      match Find(Where(s.runs, OnThread(thread)), RunId, run)
      case None => Err(())
      case Some(r) => Ok(s.(runs := Where(s.runs, NotRun(r))))
  }

  /** `Runs.set_status`. */
  function RunsSetStatus(s: Store, run: Id, status: RunStatus): Store
  {
    match Find(s.runs, RunId, run)
    case None => s
    case Some(r) => WithRunStatus(s, r, status)
  }

  // ---------------------------------------------------------------- Runs.next

  function DueAt(now: int): Run -> bool { (r: Run) => r.status == Pending && r.createdAt < now }

  predicate OlderOrSame(a: Run, b: Run)
  {
    a.createdAt <= b.createdAt
  }

  /** The due pending runs, oldest first. */
  function Candidates(s: Store, now: int): seq<Run>
  {
    StableSort.Sort(Where(s.runs, DueAt(now)), OlderOrSame)
  }

  function Attempt(s: Store, run: Id): nat
  {
    (if run in s.attempts then s.attempts[run] else 0) + 1
  }

  predicate CanStart(s: Store, r: Run)
  {
    && Find(s.runs, RunId, r.id) == Some(r)
    && Find(s.threads, ThreadId, r.thread).Some?
    && !HasRunning(s.runs, r.thread)
  }

  function Start(s: Store, r: Run): Store
  {
    WithRunStatus(s, r, Running).(attempts := s.attempts[r.id := Attempt(s, r.id)])
  }

  /** The loop of `Runs.next` over the candidates it may take. */
  function StartAll(s: Store, candidates: seq<Run>): (Store, seq<(Run, nat)>)
    decreases |candidates|
  {
    if candidates == [] then (s, [])
    else
      var r := candidates[0];
      if CanStart(s, r) then
        var (s', rest) := StartAll(Start(s, r), candidates[1..]);
        (s', [(r.(status := Running), Attempt(s, r.id))] + rest)
      else
        StartAll(s, candidates[1..])
  }

  function Take<T>(xs: seq<T>, n: nat): seq<T>
  {
    if n < |xs| then xs[..n] else xs
  }

  /** `Runs.next`: the new store, and the runs handed out with their attempt numbers. */
  function RunsNext(s: Store, limit: nat, now: int): (Store, seq<(Run, nat)>)
  {
    StartAll(s, Take(Candidates(s, now), limit))
  }

  // ---------------------------------------------------------------- Runs.cancel

  datatype Selection =
    | OfAssistant(assistant: Id)
    | WithStatus(pending: bool, running: bool)
    | Named(thread: Id, runs: set<Id>)

  predicate Selected(sel: Selection, r: Run)
  {
    match sel
    case OfAssistant(a) => r.assistant == a && IsActive(r)
    case WithStatus(pending, running) => (pending && r.status == Pending) || (running && r.status == Running)
    case Named(thread, runs) => r.thread == thread && r.id in runs
  }

  /** `permitted` are the threads the caller may update, `subscribed` the runs with a stream queue. */
  datatype CancelArgs = CancelArgs(sel: Selection, rollback: bool, permitted: set<Id>, subscribed: set<Id>)

  predicate Cancelable(c: CancelArgs, r: Run)
  {
    Selected(c.sel, r) && r.thread in c.permitted && IsActive(r)
  }

  /** Deleted at once instead of interrupted. */
  predicate Eager(c: CancelArgs, r: Run)
  {
    c.rollback && r.id !in c.subscribed
  }

  function CancelableBy(c: CancelArgs): Run -> bool { (r: Run) => Cancelable(c, r) }

  /** The status part of one turn of the loop of `Runs.cancel`. */
  function Interrupt(s: Store, r: Run): Store
  {
    var t := Find(s.threads, ThreadId, r.thread);
    var s1 := if r.status == Pending && t.Some? then WithThreadStatus(s, t.value, Idle) else s;
    WithRunStatus(s1, r, RunStatus.Interrupted)
  }

  function InterruptAll(s: Store, c: CancelArgs, runs: seq<Run>): Store
    decreases |runs|
  {
    if runs == [] then s
    else InterruptAll(if Eager(c, runs[0]) then s else Interrupt(s, runs[0]), c, runs[1..])
  }

  /** `Runs.cancel`: interrupt, then run the eager deletions that the loop collected. */
  function RunsCancel(s: Store, c: CancelArgs): Store
  {
    var victims := Where(s.runs, CancelableBy(c));
    InterruptAll(s, c, victims).(runs := DeleteEach(InterruptAll(s, c, victims).runs, c, victims))
  }

  function DeleteEach(runs: seq<Run>, c: CancelArgs, victims: seq<Run>): seq<Run>
    decreases |victims|
  {
    if victims == [] then runs
    else DeleteEach(if Eager(c, victims[0]) then Where(runs, NotRun(victims[0])) else runs, c, victims[1..])
  }

  // ---------------------------------------------------------------- Crons

  /** `Crons.put`; Err is the 404 for a missing or forbidden assistant or thread. */
  function CronsPut(s: Store, id: Id, assistant: Id, thread: Option<Id>, allowed: bool): Result<Store, ()>
  {
    if Find(s.assistants, AssistantId, assistant).None? || !allowed then Err(())
    else if thread.Some? && Find(s.threads, ThreadId, thread.value).None? then Err(())
    else if Find(s.crons, CronId, id).Some? then Ok(s)
    else Ok(s.(crons := s.crons + [Cron(id, assistant, thread)]))
  }

  function NotCron(id: Id, allowed: bool): Cron -> bool { (c: Cron) => !(c.id == id && allowed) }

  /** `Crons.delete`. */
  function CronsDelete(s: Store, id: Id, allowed: bool): Store
  {
    s.(crons := Where(s.crons, NotCron(id, allowed)))
  }

  // ---------------------------------------------------------------- Assistants

  /** Keeping `configurable` and `context` alike; Err is the 400 for giving both. */
  function Unify(config: Config, context: Option<Json>): Result<(Config, Option<Json>), ()>
  {
    var given := context.Some? && context.value != [];
    if Configurable(config) != [] && given then Err(())
    else if Configurable(config) != [] then Ok((config, config.configurable))
    else if given then Ok((config.(configurable := context), context))
    else Ok((config, context))
  }

  datatype AssistantReply = AssistantDone | BadRequest | Conflict | NotFound

  /** `Assistants.put`. */
  function AssistantsPut(s: Store, id: Id, x: Settings, doNothing: bool, allowed: bool): (Store, AssistantReply)
  {
    match Unify(x.config, Some(x.context))
    case Err(_) => (s, BadRequest)
    case Ok((config, context)) =>
      match Find(s.assistants, AssistantId, id)
      case Some(_) => (s, if allowed && doNothing then AssistantDone else Conflict)
      case None =>
        var settings := x.(config := config, context := if context.Some? then context.value else x.context);
        (s.(assistants := s.assistants + [Assistant(id, 1, settings)],
            versions := s.versions + [Version(id, 1, settings)]), AssistantDone)
  }

  /** The fields of a patch; None and the empty configuration leave the assistant's value. */
  datatype Patch = Patch(
    graphId: Option<string>, config: Config, context: Option<Json>, metadata: map<string, Json>,
    name: Option<string>, description: Option<string>)

  function OrElse<T>(x: Option<T>, y: T): T
  {
    if x.Some? then x.value else y
  }

  function Patched(old_: Settings, p: Patch, config: Config, context: Option<Json>): Settings
  {
    Settings(OrElse(p.graphId, old_.graphId),
             if config == NoConfig then old_.config else config,
             OrElse(context, old_.context),
             old_.metadata + p.metadata,
             OrElse(p.name, old_.name),
             if p.description.Some? then p.description else old_.description)
  }

  function OfId(id: Id): Version -> bool { (v: Version) => v.assistant == id }
  function NotOfId(id: Id): Version -> bool { (v: Version) => v.assistant != id }

  function MaxVersion(versions: seq<Version>): nat
  {
    if versions == [] then 0
    else if versions[0].version > MaxVersion(versions[1..]) then versions[0].version
    else MaxVersion(versions[1..])
  }

  /** A new version with the settings, and the assistant pointing at it. */
  function Revised(s: Store, id: Id, settings: Settings): Store
  {
    var n := MaxVersion(Where(s.versions, OfId(id))) + 1;
    s.(assistants := Replace(s.assistants, AssistantId, id, Assistant(id, n, settings)),
       versions := s.versions + [Version(id, n, settings)])
  }

  /** `Assistants.patch`. */
  function AssistantsPatch(s: Store, id: Id, p: Patch, allowed: bool): (Store, AssistantReply)
  {
    match Unify(p.config, p.context)
    case Err(_) => (s, BadRequest)
    case Ok((config, context)) =>
      match Find(s.assistants, AssistantId, id)
      case None => (s, NotFound)
      case Some(a) =>
        if !allowed then (s, NotFound)
        else
          (Revised(s, id, Patched(a.settings, p, config, context)), AssistantDone)
  }

  function NumberedVersion(id: Id, n: nat): Version -> bool { (v: Version) => v.assistant == id && v.version == n }

  /** `Assistants.set_latest`: graph id and context stay what they are. */
  function AssistantsSetLatest(s: Store, id: Id, n: nat, allowed: bool): (Store, AssistantReply)
  {
    match Find(s.assistants, AssistantId, id)
    case None => (s, NotFound)
    case Some(a) =>
      var found := Where(s.versions, NumberedVersion(id, n));
      if !allowed || found == [] then (s, NotFound)
      else
        var v := found[0];
        var settings := v.settings.(graphId := a.settings.graphId, context := a.settings.context);
        (s.(assistants := Replace(s.assistants, AssistantId, id, Assistant(id, v.version, settings))), AssistantDone)
  }

  function NotAssistant(id: Id): Assistant -> bool { (a: Assistant) => a.id != id }
  function CronNotOf(id: Id): Cron -> bool { (c: Cron) => c.assistant != id }
  function OwnedBy(id: Id): Thread -> bool { (t: Thread) => t.owner == Some(id) }

  function DeleteThreads(s: Store, threads: seq<Thread>, deletable: set<Id>): Store
    decreases |threads|
  {
    if threads == [] then s
    else
      var r := ThreadsDelete(s, threads[0].id, threads[0].id in deletable);
      DeleteThreads(if r.Ok? then r.value else s, threads[1..], deletable)
  }

  /** `Assistants.delete`: owned threads, in-flight runs, the assistant, its versions and its crons. */
  function AssistantsDelete(
    s: Store, id: Id, allowed: bool, deleteThreads: bool, deletable: set<Id>, permitted: set<Id>): (Store, AssistantReply)
  {
    if Find(s.assistants, AssistantId, id).None? || !allowed then (s, NotFound)
    else
      var s1 := if deleteThreads then DeleteThreads(s, Where(s.threads, OwnedBy(id)), deletable) else s;
      var s2 := RunsCancel(s1, CancelArgs(OfAssistant(id), false, permitted, {}));
      (s2.(assistants := Where(s2.assistants, NotAssistant(id)),
           versions := Where(s2.versions, NotOfId(id)),
           crons := Where(s2.crons, CronNotOf(id))), AssistantDone)
  }
}
