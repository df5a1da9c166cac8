/**
  The scheduling loop and its cleanup (src/langgraph_runtime_inmem/queue.py) and the end of
  a worker (src/langgraph_api/worker.py), as steps on the store and the runner queue.
 */
module RunQueue {
  import opened Wrappers
  import opened RunStore
  import opened RunsNextTheorems
  import opened InMemStore
  import opened Scheduler
  import opened SchedulerTheorems

  class RunQueue {
    const store: GlobalStore
    const limits: Limits
    var workers: seq<Worker>
    var free: int              // runners.qsize()
    var captured: Option<nat>  // the limit of a Runs.next call under way
    ghost var starts: seq<(Run, nat)>

    ghost function View(): World
      reads this, store
    {
      World(store.View(), workers, free, captured, starts)
    }

    ghost predicate Valid()
      reads this, store
    {
      Inv(View(), limits)
    }

    constructor (store: GlobalStore, limits: Limits)
      requires store.View() == EmptyStore
      ensures this.store == store && this.limits == limits && View() == Init(limits) && Valid()
    {
      this.store, this.limits := store, limits;
      workers, free, captured, starts := [], limits.concurrency, None, [];
      new;
      ReachableInv(limits, []);
    }

    /** `await runners.wait()` returned: `Runs.next(limit=runners.qsize())` begins. */
    method Capture()
      requires Valid() && Enabled(View(), Action.Capture)
      modifies this
      ensures Valid() && View() == Apply(old(View()), limits, Action.Capture)
    {
      ApplyKeepsInv(View(), limits, Action.Capture);
      captured := Some(free);
    }

    /** A task for each run handed out; each takes a token without waiting. */
    method SpawnAll(out: seq<(Run, nat)>)
      requires |out| <= free
      modifies this`free, this`workers
      ensures free == old(free) - |out| && workers == old(workers) + Spawn(out)
    {
      var i := 0;
      while i < |out|
        invariant 0 <= i <= |out|
        invariant free == old(free) - i
        invariant workers == old(workers) + Spawn(out)[..i]
      {
        assert 0 < free;   // get_nowait finds a token
        free := free - 1;
        var (run, attempt) := out[i];
        workers := workers + [Worker(run, attempt, false)];
        i := i + 1;
      }
    }

    /** The `async for` over `Runs.next`. */
    method Poll(now: int)
      requires Valid() && Enabled(View(), Action.Poll(now))
      modifies this, store
      ensures View() == Apply(old(View()), limits, Action.Poll(now)) && Valid()
    {
      ghost var w := View();
      ApplyKeepsInv(w, limits, Action.Poll(now));
      NextIsBounded(w.store, captured.value, now);
      var out := store.NextRuns(captured.value, now);
      SpawnAll(out);
      captured := None;
      starts := starts + out;
      assert View() == DoPoll(w, now);
    }

    /** `worker` reports how the run ended. */
    method EndWorker(i: nat, e: Execution, hasNext: bool)
      requires Valid() && Enabled(View(), WorkerEnds(i, e, hasNext))
      modifies this, store
      ensures Valid() && View() == Apply(old(View()), limits, WorkerEnds(i, e, hasNext))
    {
      ApplyKeepsInv(View(), limits, WorkerEnds(i, e, hasNext));
      var worker := workers[i];
      var outcome := if worker.attempt > limits.maxRetries then Fails else e;
      Record(worker.run, outcome, hasNext);
      workers := workers[i := worker.(ended := true)];
    }

    /** "handle exceptions and set status" */
    method Record(run: Run, e: Execution, hasNext: bool)
      requires store.Valid()
      modifies store
      ensures store.View() == RecordOutcome(old(store.View()), run, e, hasNext)
    {
      var ok := true;
      match e {
        case FailsRetriably =>
          store.SetRunStatus(run.id, Pending);
        case Succeeds =>
          if !run.temporary { ok := store.SetJointStatus(run.thread, run.id, Final(Success), hasNext, false); }
        case TimesOut =>
          if !run.temporary { ok := store.SetJointStatus(run.thread, run.id, Final(RunStatus.TimedOut), hasNext, true); }
        case RollsBack =>
          if !run.temporary { ok := store.SetJointStatus(run.thread, run.id, Rollback, false, false); }
        case UserInterrupts =>
          if !run.temporary { ok := store.SetJointStatus(run.thread, run.id, Final(RunStatus.Interrupted), hasNext, false); }
        case Fails =>
          if !run.temporary { ok := store.SetJointStatus(run.thread, run.id, Final(Failed), hasNext, true); }
      }
      if run.temporary && e != FailsRetriably { ok := store.DeleteThread(run.thread, true); }
    }

    /** The done callback: the token goes back without waiting. */
    method Cleanup(i: nat)
      requires Valid() && Enabled(View(), Action.Cleanup(i))
      modifies this
      ensures Valid() && View() == Apply(old(View()), limits, Action.Cleanup(i))
    {
      ApplyKeepsInv(View(), limits, Action.Cleanup(i));
      workers := workers[..i] + workers[i + 1..];
      assert free < limits.concurrency;   // put_nowait finds room
      free := free + 1;
    }
  }
}
