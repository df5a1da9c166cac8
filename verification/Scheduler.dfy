/**
  The scheduling loop of src/langgraph_runtime_inmem/queue.py in shared-loop mode, the
  outcome handling of src/langgraph_api/worker.py, and the API operations on the store,
  interleaved in any order.
 */
module Scheduler {
  import opened Wrappers
  import opened RunStore
  import opened RunStoreInvariant

  /** Operations that clients and the cron scheduler call. */
  datatype StoreAction =
    | PutThread(thread: Id, owner: Option<Id>)
    | PostThreadState(thread: Id, hasNext: bool, error: bool)
    | DeleteThread(thread: Id, allowed: bool)
    | PutRun(p: PutArgs)
    | DeleteRun(run: Id, thread: Id, allowed: bool)
    | CancelRuns(c: CancelArgs)
    | PutCron(cron: Id, assistant: Id, onThread: Option<Id>, allowed: bool)
    | DeleteCron(cron: Id, allowed: bool)
    | PutAssistant(assistant: Id, settings: Settings, doNothing: bool, allowed: bool)
    | PatchAssistant(assistant: Id, patch: Patch, allowed: bool)
    | SetLatest(assistant: Id, version: nat, allowed: bool)
    | DeleteAssistant(assistant: Id, allowed: bool, deleteThreads: bool, deletable: set<Id>, permitted: set<Id>)

  function OrSame(r: Result<Store, ()>, s: Store): Store
  {
    if r.Ok? then r.value else s
  }

  function StoreStep(s: Store, a: StoreAction): Store
  {
    match a
    case PutThread(thread, owner) => ThreadsPut(s, thread, owner)
    case PostThreadState(thread, hasNext, error) => ThreadsSetStatus(s, thread, hasNext, error)
    case DeleteThread(thread, allowed) => OrSame(ThreadsDelete(s, thread, allowed), s)
    case PutRun(p) => RunsPut(s, p).0
    case DeleteRun(run, thread, allowed) => OrSame(RunsDelete(s, run, thread, allowed), s)
    case CancelRuns(c) => RunsCancel(s, c)
    case PutCron(cron, assistant, onThread, allowed) => OrSame(CronsPut(s, cron, assistant, onThread, allowed), s)
    case DeleteCron(cron, allowed) => CronsDelete(s, cron, allowed)
    case PutAssistant(assistant, settings, doNothing, allowed) => AssistantsPut(s, assistant, settings, doNothing, allowed).0
    case PatchAssistant(assistant, patch, allowed) => AssistantsPatch(s, assistant, patch, allowed).0
    case SetLatest(assistant, version, allowed) => AssistantsSetLatest(s, assistant, version, allowed).0
    case DeleteAssistant(assistant, allowed, deleteThreads, deletable, permitted) =>
      AssistantsDelete(s, assistant, allowed, deleteThreads, deletable, permitted).0
  }

  /** Ids of new runs and threads are drawn fresh. */
  predicate StoreEnabled(s: Store, a: StoreAction)
  {
    a.PutRun? ==> FreshIds(s, a.p) && a.p.run !in s.attempts
  }

  // ---------------------------------------------------------------- the worker

  /** How executing the graph ended. */
  datatype Execution = Succeeds | TimesOut | RollsBack | UserInterrupts | FailsRetriably | Fails

  /** A task running `worker(run, attempt)`; `ended` from its end to its done callback. */
  datatype Worker = Worker(run: Run, attempt: nat, ended: bool)

  /** A run past its attempts is not executed: it fails at once. */
  function Classify(attempt: nat, maxRetries: nat, e: Execution): Execution
  {
    if attempt > maxRetries then Fails else e
  }

  /** "handle exceptions and set status" of `worker`. */
  function RecordOutcome(s: Store, run: Run, e: Execution, hasNext: bool): Store
  {
    match e
    case FailsRetriably => RunsSetStatus(s, run.id, Pending)
    case _ =>
      if run.temporary then OrSame(ThreadsDelete(s, run.thread, true), s)
      else
        var (verdict, next, error) :=
          match e
          case Succeeds => (Final(Success), hasNext, false)
          case TimesOut => (Final(RunStatus.TimedOut), hasNext, true)
          case RollsBack => (Rollback, false, false)
          case UserInterrupts => (Final(RunStatus.Interrupted), hasNext, false)
          case _ => (Final(Failed), hasNext, true);
        OrSame(SetJointStatus(s, run.thread, run.id, verdict, next, error), s)
  }

  // ---------------------------------------------------------------- the scheduler

  datatype Limits = Limits(concurrency: nat, maxRetries: nat)  // N_JOBS_PER_WORKER, BG_JOB_MAX_RETRIES

  datatype World = World(
    store: Store,
    workers: seq<Worker>,     // WORKERS
    free: int,                // runners.qsize()
    captured: Option<nat>,    // the limit passed to a Runs.next call under way
    starts: seq<(Run, nat)>)  // every run handed out so far, with its attempt

  function Init(l: Limits): World
  {
    World(EmptyStore, [], l.concurrency, None, [])
  }

  datatype Action =
    | Api(a: StoreAction)
    | Capture                 // runners.wait() returned; Runs.next(limit=runners.qsize()) starts
    | Poll(now: int)          // Runs.next picks runs; each takes a runner token and becomes a task
    | WorkerEnds(i: nat, e: Execution, hasNext: bool)
    | Cleanup(i: nat)         // its done callback returns the token

  predicate Enabled(w: World, a: Action)
  {
    match a
    case Api(sa) => StoreEnabled(w.store, sa)
    case Capture => w.captured.None? && w.free > 0
    case Poll(_) => w.captured.Some?
    case WorkerEnds(i, _, _) => i < |w.workers| && !w.workers[i].ended
    case Cleanup(i) => i < |w.workers| && w.workers[i].ended
  }

  function Spawn(out: seq<(Run, nat)>): seq<Worker>
  {
    seq(|out|, k requires 0 <= k < |out| => Worker(out[k].0, out[k].1, false))
  }

  function DoPoll(w: World, now: int): World
    requires w.captured.Some?
  {
    var (store, out) := RunsNext(w.store, w.captured.value, now);
    World(store, w.workers + Spawn(out), w.free - |out|, None, w.starts + out)
  }

  function EndWorker(w: World, l: Limits, i: nat, e: Execution, hasNext: bool): World
    requires i < |w.workers|
  {
    var k := w.workers[i];
    w.(store := RecordOutcome(w.store, k.run, Classify(k.attempt, l.maxRetries, e), hasNext),
       workers := w.workers[i := k.(ended := true)])
  }

  function Apply(w: World, l: Limits, a: Action): World
    requires Enabled(w, a)
  {
    match a
    case Api(sa) => w.(store := StoreStep(w.store, sa))
    case Capture => w.(captured := Some(w.free))
    case Poll(now) => DoPoll(w, now)
    case WorkerEnds(i, e, hasNext) => EndWorker(w, l, i, e, hasNext)
    case Cleanup(i) => w.(workers := w.workers[..i] + w.workers[i + 1..], free := w.free + 1)
  }

  function Execute(l: Limits, acts: seq<Action>): Option<World>
  {
    if acts == [] then Some(Init(l))
    else
      match Execute(l, acts[..|acts| - 1])
      case None => None
      case Some(w) =>
        var a := acts[|acts| - 1];
        if Enabled(w, a) then Some(Apply(w, l, a)) else None
  }
}
