/**
  Safety of the scheduler over every history of puts, polls, cancellations, worker
  outcomes, retries and deletions.
 */
module SchedulerTheorems {
  import opened Wrappers
  import opened KeyedLists
  import opened RunStore
  import opened RunStoreInvariant
  import opened RunsNextTheorems
  import opened Scheduler

  // ---------------------------------------------------------------- the store under the API

  lemma StoreStepKeeps(s: Store, a: StoreAction)
    requires StoreInv(s) && StoreEnabled(s, a)
    ensures StoreInv(StoreStep(s, a))
  {
    match a
    case PutThread(thread, owner) => ThreadsPutKeeps(s, thread, owner);
    case PostThreadState(thread, hasNext, error) => ThreadsSetStatusKeeps(s, thread, hasNext, error);
    case DeleteThread(thread, allowed) => ThreadsDeleteKeeps(s, thread, allowed);
    case PutRun(p) => RunsPutKeeps(s, p);
    case DeleteRun(run, thread, allowed) => RunsDeleteKeeps(s, run, thread, allowed);
    case CancelRuns(c) => RunsCancelKeeps(s, c);
    case PutCron(cron, assistant, onThread, allowed) => CronsPutKeeps(s, cron, assistant, onThread, allowed);
    case DeleteCron(cron, allowed) => CronsDeleteKeeps(s, cron, allowed);
    case PutAssistant(assistant, settings, doNothing, allowed) =>
      AssistantsPutKeeps(s, assistant, settings, doNothing, allowed);
    case PatchAssistant(assistant, patch, allowed) => AssistantsPatchKeeps(s, assistant, patch, allowed);
    case SetLatest(assistant, version, allowed) => AssistantsSetLatestKeeps(s, assistant, version, allowed);
    case DeleteAssistant(assistant, allowed, deleteThreads, deletable, permitted) =>
      AssistantsDeleteKeeps(s, assistant, allowed, deleteThreads, deletable, permitted);
  }

  lemma RecordOutcomeKeeps(s: Store, run: Run, e: Execution, hasNext: bool)
    requires StoreInv(s)
    ensures StoreInv(RecordOutcome(s, run, e, hasNext))
  {
    match e
    case FailsRetriably => RunsSetStatusKeeps(s, run.id, Pending);
    case _ =>
      ThreadsDeleteKeeps(s, run.thread, true);
      SetJointStatusKeeps(s, run.thread, run.id, Final(Success), hasNext, false);
      SetJointStatusKeeps(s, run.thread, run.id, Final(RunStatus.TimedOut), hasNext, true);
      SetJointStatusKeeps(s, run.thread, run.id, Rollback, false, false);
      SetJointStatusKeeps(s, run.thread, run.id, Final(RunStatus.Interrupted), hasNext, false);
      SetJointStatusKeeps(s, run.thread, run.id, Final(Failed), hasNext, true);
  }

  /** Between two stores: no run became pending or running except, possibly, the run `born`. */
  ghost predicate NoneRevived(s: Store, s': Store, born: Option<Id>)
  {
    && s'.attempts == s.attempts
    && forall r | r in s'.runs && IsActive(r) :: r in s.runs || Some(r.id) == born
  }

  lemma CancelRevivesNone(s: Store, c: CancelArgs)
    requires StoreInv(s)
    ensures NoneRevived(s, RunsCancel(s, c), None)
  {
    var victims := Where(s.runs, CancelableBy(c));
    WhereMembers(s.runs, CancelableBy(c), RunId);
    InterruptAllRevivesNone(s, c, victims);
    DeleteEachShrinks(InterruptAll(s, c, victims).runs, c, victims);
  }

  lemma {:induction false} InterruptAllRevivesNone(s: Store, c: CancelArgs, runs: seq<Run>)
    requires StoreInv(s) && Unique(runs, RunId) && (forall r | r in runs :: r in s.runs)
    ensures NoneRevived(s, InterruptAll(s, c, runs), None)
    decreases |runs|
  {
    if runs != [] {
      UniqueTail(runs, RunId);
      if Eager(c, runs[0]) {
        InterruptAllRevivesNone(s, c, runs[1..]);
      } else {
        InterruptKeeps(s, runs[0]);
        InterruptRuns(s, runs[0]);
        InterruptAllRevivesNone(Interrupt(s, runs[0]), c, runs[1..]);
      }
    }
  }

  lemma {:induction false} DeleteEachShrinks(runs: seq<Run>, c: CancelArgs, victims: seq<Run>)
    ensures forall r | r in DeleteEach(runs, c, victims) :: r in runs
    decreases |victims|
  {
    if victims != [] {
      var kept := if Eager(c, victims[0]) then Where(runs, NotRun(victims[0])) else runs;
      DeleteEachShrinks(kept, c, victims[1..]);
      forall r | r in kept ensures r in runs { WhereMember(runs, NotRun(victims[0]), r); }
    }
  }

  lemma ThreadsDeleteShrinks(s: Store, thread: Id, allowed: bool)
    requires StoreInv(s)
    ensures var s' := OrSame(ThreadsDelete(s, thread, allowed), s);
            s'.attempts == s.attempts && forall r | r in s'.runs :: r in s.runs
  {
    WhereMembers(s.runs, OffThread(thread), RunId);
  }

  lemma {:induction false} DeleteThreadsShrinks(s: Store, threads: seq<Thread>, deletable: set<Id>)
    requires StoreInv(s)
    ensures var s' := DeleteThreads(s, threads, deletable);
            s'.attempts == s.attempts && forall r | r in s'.runs :: r in s.runs
    decreases |threads|
  {
    if threads != [] {
      var allowed := threads[0].id in deletable;
      ThreadsDeleteShrinks(s, threads[0].id, allowed);
      ThreadsDeleteKeeps(s, threads[0].id, allowed);
      DeleteThreadsShrinks(OrSame(ThreadsDelete(s, threads[0].id, allowed), s), threads[1..], deletable);
    }
  }

  lemma DeleteAssistantRevivesNone(s: Store, a: StoreAction)
    requires StoreInv(s) && a.DeleteAssistant?
    ensures NoneRevived(s, StoreStep(s, a), None)
  {
    var threads := Where(s.threads, OwnedBy(a.assistant));
    DeleteThreadsShrinks(s, threads, a.deletable);
    DeleteThreadsKeeps(s, threads, a.deletable);
    var s1 := if a.deleteThreads then DeleteThreads(s, threads, a.deletable) else s;
    CancelRevivesNone(s1, CancelArgs(OfAssistant(a.assistant), false, a.permitted, {}));
  }

  function FreshRun(a: StoreAction): Option<Id>
  {
    if a.PutRun? then Some(a.p.run) else None
  }

  lemma StoreStepRevivesNone(s: Store, a: StoreAction)
    requires StoreInv(s) && StoreEnabled(s, a)
    ensures NoneRevived(s, StoreStep(s, a), FreshRun(a))
  {
    match a
    case DeleteThread(thread, allowed) => ThreadsDeleteShrinks(s, thread, allowed);
    case PutRun(p) => EnsureThreadKeeps(s, p);
    case DeleteRun(run, thread, allowed) =>
      var f := Find(Where(s.runs, OnThread(thread)), RunId, run);
      if f.Some? { WhereMembers(s.runs, NotRun(f.value), RunId); }
    case CancelRuns(c) => CancelRevivesNone(s, c);
    case DeleteAssistant(_, _, _, _, _) => DeleteAssistantRevivesNone(s, a);
    case PatchAssistant(_, _, _) =>
    case _ =>
  }

  // ---------------------------------------------------------------- the invariant of the world

  predicate ActiveWorker(w: World, i: int)
  {
    0 <= i < |w.workers| && !w.workers[i].ended
  }

  /** Tokens are conserved: one per free runner or worker task. */
  predicate TokensOk(w: World, l: Limits)
  {
    && 0 <= w.free && w.free + |w.workers| == l.concurrency
    && (w.captured.Some? ==> w.captured.value <= w.free)
  }

  /** One worker at most for a run, and no worker for a run that waits to be started. */
  ghost predicate WorkersOk(w: World)
  {
    && (forall i, j | ActiveWorker(w, i) && ActiveWorker(w, j) && w.workers[i].run.id == w.workers[j].run.id :: i == j)
    && (forall i, r | ActiveWorker(w, i) && r in w.store.runs && r.status == Pending :: r.id != w.workers[i].run.id)
    && (forall i | ActiveWorker(w, i) :: w.workers[i].run.id in w.store.attempts)
  }

  function Count(starts: seq<(Run, nat)>, x: Id): nat
  {
    if starts == [] then 0
    else Count(starts[..|starts| - 1], x) + (if starts[|starts| - 1].0.id == x then 1 else 0)
  }

  function Attempts(s: Store, x: Id): nat
  {
    if x in s.attempts then s.attempts[x] else 0
  }

  /** The retry counter counts the starts. */
  ghost predicate CountsOk(w: World)
  {
    forall x :: Attempts(w.store, x) == Count(w.starts, x)
  }

  ghost predicate Inv(w: World, l: Limits)
  {
    StoreInv(w.store) && TokensOk(w, l) && WorkersOk(w) && CountsOk(w)
  }

  lemma ApiKeepsInv(w: World, l: Limits, a: StoreAction)
    requires Inv(w, l) && StoreEnabled(w.store, a)
    ensures Inv(w.(store := StoreStep(w.store, a)), l)
  {
    StoreStepKeeps(w.store, a);
    StoreStepRevivesNone(w.store, a);
    var w' := w.(store := StoreStep(w.store, a));
    assert forall i :: ActiveWorker(w', i) <==> ActiveWorker(w, i);
    forall x ensures Attempts(w'.store, x) == Count(w'.starts, x) { assert Attempts(w.store, x) == Count(w.starts, x); }
  }

  lemma {:induction false} CountAppend(a: seq<(Run, nat)>, b: seq<(Run, nat)>, x: Id)
    ensures Count(a + b, x) == Count(a, x) + Count(b, x)
  {
    if b == [] {
      assert a + b == a;
    } else {
      assert (a + b)[..|a + b| - 1] == a + b[..|b| - 1];
      CountAppend(a, b[..|b| - 1], x);
    }
  }

  lemma {:induction false} CountDistinct(out: seq<(Run, nat)>, x: Id)
    requires forall j, k | 0 <= j < k < |out| :: out[j].0.id != out[k].0.id
    ensures Count(out, x) == if x in HandedIds(out) then 1 else 0
  {
    if out != [] {
      var rest := out[..|out| - 1];
      CountDistinct(rest, x);
      assert forall k | 0 <= k < |rest| :: rest[k] == out[k];
      if x in HandedIds(rest) { var k :| 0 <= k < |rest| && rest[k].0.id == x; assert out[k].0.id == x; }
    }
  }

  /** The tasks after a poll: those there were, then one per run handed out. */
  lemma PolledWorkers(w: World, now: int, i: int)
    requires w.captured.Some? && ActiveWorker(DoPoll(w, now), i)
    ensures var out := RunsNext(w.store, w.captured.value, now).1;
            if i < |w.workers| then ActiveWorker(w, i) && DoPoll(w, now).workers[i] == w.workers[i]
            else i - |w.workers| < |out| && DoPoll(w, now).workers[i].run == out[i - |w.workers|].0
  {
  }

  /** A run handed out had no task. */
  lemma HandedHasNoWorker(w: World, now: int, k: int, i: int)
    requires w.captured.Some? && WorkersOk(w) && ActiveWorker(w, i)
    requires Started(w.store, RunsNext(w.store, w.captured.value, now).0, RunsNext(w.store, w.captured.value, now).1)
    requires 0 <= k < |RunsNext(w.store, w.captured.value, now).1|
    ensures RunsNext(w.store, w.captured.value, now).1[k].0.id != w.workers[i].run.id
  {
    var out := RunsNext(w.store, w.captured.value, now).1;
    assert out[k].0.(status := Pending) in w.store.runs;
  }

  lemma PollKeepsOneWorker(w: World, now: int, i: int, j: int)
    requires w.captured.Some? && WorkersOk(w)
    requires Started(w.store, RunsNext(w.store, w.captured.value, now).0, RunsNext(w.store, w.captured.value, now).1)
    requires ActiveWorker(DoPoll(w, now), i) && ActiveWorker(DoPoll(w, now), j) && i < j
    ensures DoPoll(w, now).workers[i].run.id != DoPoll(w, now).workers[j].run.id
  {
    PolledWorkers(w, now, i);
    PolledWorkers(w, now, j);
    if i < |w.workers| && |w.workers| <= j {
      HandedHasNoWorker(w, now, j - |w.workers|, i);
    }
  }

  lemma PollKeepsPendingFree(w: World, now: int, i: int, r: Run)
    requires w.captured.Some? && WorkersOk(w)
    requires Started(w.store, RunsNext(w.store, w.captured.value, now).0, RunsNext(w.store, w.captured.value, now).1)
    requires ActiveWorker(DoPoll(w, now), i) && r in DoPoll(w, now).store.runs && r.status == Pending
    ensures r.id != DoPoll(w, now).workers[i].run.id
  {
    var out := RunsNext(w.store, w.captured.value, now).1;
    PolledWorkers(w, now, i);
    assert r in w.store.runs && r.id !in HandedIds(out);
    if |w.workers| <= i { assert out[i - |w.workers|].0.id in HandedIds(out); }
  }

  lemma PollCountsWorkers(w: World, now: int, i: int)
    requires w.captured.Some? && WorkersOk(w)
    requires Started(w.store, RunsNext(w.store, w.captured.value, now).0, RunsNext(w.store, w.captured.value, now).1)
    requires ActiveWorker(DoPoll(w, now), i)
    ensures DoPoll(w, now).workers[i].run.id in DoPoll(w, now).store.attempts
  {
    var (s', out) := RunsNext(w.store, w.captured.value, now);
    var x := DoPoll(w, now).workers[i].run.id;
    PolledWorkers(w, now, i);
    if i < |w.workers| {
      StartedAttemptKeys(w.store, w.captured.value, now, x);
    } else {
      assert out[i - |w.workers|].0.id in HandedIds(out);
      assert Attempt(s', x) == Attempt(w.store, x) + 1;
    }
  }

  lemma PollKeepsWorkers(w: World, l: Limits, now: int)
    requires Inv(w, l) && w.captured.Some?
    ensures WorkersOk(DoPoll(w, now))
  {
    NextStarts(w.store, w.captured.value, now);
    var w' := DoPoll(w, now);
    forall i, j | ActiveWorker(w', i) && ActiveWorker(w', j) && w'.workers[i].run.id == w'.workers[j].run.id ensures i == j {
      if i < j { PollKeepsOneWorker(w, now, i, j); } else if j < i { PollKeepsOneWorker(w, now, j, i); }
    }
    forall i, r | ActiveWorker(w', i) && r in w'.store.runs && r.status == Pending ensures r.id != w'.workers[i].run.id {
      PollKeepsPendingFree(w, now, i, r);
    }
    forall i | ActiveWorker(w', i) ensures w'.workers[i].run.id in w'.store.attempts { PollCountsWorkers(w, now, i); }
  }

  lemma {:induction false} StartAllAttemptKeys(s: Store, todo: seq<Run>, x: Id)
    ensures x in s.attempts ==> x in StartAll(s, todo).0.attempts
    decreases |todo|
  {
    if todo != [] {
      if CanStart(s, todo[0]) { StartAllAttemptKeys(Start(s, todo[0]), todo[1..], x); }
      else { StartAllAttemptKeys(s, todo[1..], x); }
    }
  }

  lemma StartedAttemptKeys(s: Store, limit: nat, now: int, x: Id)
    ensures x in s.attempts ==> x in RunsNext(s, limit, now).0.attempts
  {
    StartAllAttemptKeys(s, Take(Candidates(s, now), limit), x);
  }

  lemma PollKeepsInv(w: World, l: Limits, now: int)
    requires Inv(w, l) && w.captured.Some?
    ensures Inv(DoPoll(w, now), l)
  {
    NextStarts(w.store, w.captured.value, now);
    NextIsBounded(w.store, w.captured.value, now);
    PollKeepsWorkers(w, l, now);
    var (s', out) := RunsNext(w.store, w.captured.value, now);
    forall x ensures Attempts(s', x) == Count(w.starts + out, x) {
      assert Attempts(w.store, x) == Count(w.starts, x);
      CountAppend(w.starts, out, x);
      CountDistinct(out, x);
      assert Attempt(s', x) == Attempt(w.store, x) + (if x in HandedIds(out) then 1 else 0);
    }
  }

  /** Only the worker's own run can become pending. */
  lemma OutcomeRevives(s: Store, run: Run, e: Execution, hasNext: bool)
    requires StoreInv(s)
    ensures NoneRevived(s, RecordOutcome(s, run, e, hasNext), Some(run.id))
  {
    match e
    case FailsRetriably =>
      FindMember(s.runs, RunId, run.id);
      match Find(s.runs, RunId, run.id) {
        case None =>
        case Some(r) => ReplaceMembers(s.runs, RunId, r.id, r.(status := Pending));
      }
    case _ =>
      if run.temporary {
        ThreadsDeleteShrinks(s, run.thread, true);
      } else {
        JointRevivesNone(s, run, Final(Success), hasNext, false);
        JointRevivesNone(s, run, Final(RunStatus.TimedOut), hasNext, true);
        JointRevivesNone(s, run, Rollback, false, false);
        JointRevivesNone(s, run, Final(RunStatus.Interrupted), hasNext, false);
        JointRevivesNone(s, run, Final(Failed), hasNext, true);
      }
  }

  lemma JointRevivesNone(s: Store, run: Run, v: Verdict, hasNext: bool, error: bool)
    requires StoreInv(s) && (v.Final? ==> v.status != Pending && v.status != Running)
    ensures NoneRevived(s, OrSame(SetJointStatus(s, run.thread, run.id, v, hasNext, error), s), None)
  {
    FoundRun(s, run.thread, run.id);
    match Find(Where(s.runs, OnThread(run.thread)), RunId, run.id)
    case None =>
    case Some(r) =>
      if v.Rollback? { WhereMembers(s.runs, NotRun(r), RunId); }
      else { ReplaceMembers(s.runs, RunId, r.id, r.(status := v.status)); }
  }

  lemma EndKeepsInv(w: World, l: Limits, i: nat, e: Execution, hasNext: bool)
    requires Inv(w, l) && Enabled(w, WorkerEnds(i, e, hasNext))
    ensures Inv(EndWorker(w, l, i, e, hasNext), l)
  {
    var run := w.workers[i].run;
    var e' := Classify(w.workers[i].attempt, l.maxRetries, e);
    RecordOutcomeKeeps(w.store, run, e', hasNext);
    OutcomeRevives(w.store, run, e', hasNext);
    var w' := EndWorker(w, l, i, e, hasNext);
    assert forall j :: ActiveWorker(w', j) <==> ActiveWorker(w, j) && j != i;
    assert ActiveWorker(w, i);
    forall x ensures Attempts(w'.store, x) == Count(w'.starts, x) { assert Attempts(w.store, x) == Count(w.starts, x); }
  }

  lemma CleanupKeepsInv(w: World, l: Limits, i: nat)
    requires Inv(w, l) && Enabled(w, Cleanup(i))
    ensures Inv(Apply(w, l, Cleanup(i)), l)
  {
    var w' := Apply(w, l, Cleanup(i));
    forall j | ActiveWorker(w', j)
      ensures ActiveWorker(w, if j < i then j else j + 1) && w'.workers[j] == w.workers[if j < i then j else j + 1]
    {
    }
    forall x ensures Attempts(w'.store, x) == Count(w'.starts, x) { assert Attempts(w.store, x) == Count(w.starts, x); }
  }

  lemma ApplyKeepsInv(w: World, l: Limits, a: Action)
    requires Inv(w, l) && Enabled(w, a)
    ensures Inv(Apply(w, l, a), l)
  {
    match a
    case Api(sa) => ApiKeepsInv(w, l, sa);
    case Capture =>
      forall x ensures Attempts(w.store, x) == Count(w.starts, x) { }
      CaptureKeepsWorkers(w);
    case Poll(now) => PollKeepsInv(w, l, now);
    case WorkerEnds(i, e, hasNext) => EndKeepsInv(w, l, i, e, hasNext);
    case Cleanup(i) => CleanupKeepsInv(w, l, i);
  }

  lemma CaptureKeepsWorkers(w: World)
    requires WorkersOk(w) && w.free >= 0
    ensures WorkersOk(w.(captured := Some(w.free)))
  {
    var w' := w.(captured := Some(w.free));
    assert forall i :: ActiveWorker(w', i) <==> ActiveWorker(w, i);
  }

  ghost predicate History(l: Limits, acts: seq<Action>)
  {
    Execute(l, acts).Some?
  }

  lemma {:induction false} ReachableInv(l: Limits, acts: seq<Action>)
    requires History(l, acts)
    ensures Inv(Execute(l, acts).value, l)
  {
    if acts != [] {
      ReachableInv(l, acts[..|acts| - 1]);
      ApplyKeepsInv(Execute(l, acts[..|acts| - 1]).value, l, acts[|acts| - 1]);
    }
  }

  // ---------------------------------------------------------------- guarantees

  /** In every reachable state no thread has two running runs. */
  lemma RunningRunsExclude(l: Limits, acts: seq<Action>, r: Run, q: Run)
    requires History(l, acts)
    requires r in Execute(l, acts).value.store.runs && q in Execute(l, acts).value.store.runs
    requires r.status == Running && q.status == Running && r.thread == q.thread
    ensures r == q
  {
    ReachableInv(l, acts);
  }

  /** In every reachable state each reference in the store leads to a stored record. */
  lemma ReferencesResolve(l: Limits, acts: seq<Action>)
    requires History(l, acts)
    ensures var s := Execute(l, acts).value.store;
            && (forall r | r in s.runs :: exists t | t in s.threads :: t.id == r.thread)
            && (forall c | c in s.crons && c.thread.Some? :: exists t | t in s.threads :: t.id == c.thread.value)
            && (forall c | c in s.crons :: exists a | a in s.assistants :: a.id == c.assistant)
            && (forall v | v in s.versions :: exists a | a in s.assistants :: a.id == v.assistant)
  {
    ReachableInv(l, acts);
    var s := Execute(l, acts).value.store;
    assert forall k | k in Threads(s) :: exists t | t in s.threads :: t.id == k;
    assert forall k | k in Assistants(s) :: exists a | a in s.assistants :: a.id == k;
  }

  /** Free runners plus worker tasks equal the concurrency. */
  lemma {:induction false} TokensConserved(l: Limits, acts: seq<Action>)
    requires History(l, acts)
    ensures Execute(l, acts).value.free + |Execute(l, acts).value.workers| == l.concurrency
  {
    ReachableInv(l, acts);
  }

  /** `get_nowait` never finds the runner queue empty: a poll hands out at most as many runs as there are tokens. */
  lemma TokensSuffice(l: Limits, acts: seq<Action>, now: int)
    requires History(l, acts) && Enabled(Execute(l, acts).value, Poll(now))
    ensures var w := Execute(l, acts).value; |RunsNext(w.store, w.captured.value, now).1| <= w.free
  {
    ReachableInv(l, acts);
    var w := Execute(l, acts).value;
    NextIsBounded(w.store, w.captured.value, now);
  }

  /** A poll may hand out as many runs as there are runners without a task when its limit is taken. */
  lemma CaptureTakesAllFree(l: Limits, acts: seq<Action>)
    requires History(l, acts + [Capture])
    ensures History(l, acts)
    ensures Execute(l, acts + [Capture]).value.captured == Some(l.concurrency - |Execute(l, acts).value.workers|)
  {
    assert (acts + [Capture])[..|acts + [Capture]| - 1] == acts;
    ReachableInv(l, acts);
  }

  /** `put_nowait` never finds the runner queue full. */
  lemma TokensReturn(l: Limits, acts: seq<Action>, i: nat)
    requires History(l, acts) && Enabled(Execute(l, acts).value, Cleanup(i))
    ensures Execute(l, acts).value.free < l.concurrency
  {
    ReachableInv(l, acts);
  }

  /** Two worker tasks at work never execute the same run. */
  lemma OneTaskPerRun(l: Limits, acts: seq<Action>, i: int, j: int)
    requires History(l, acts)
    requires ActiveWorker(Execute(l, acts).value, i) && ActiveWorker(Execute(l, acts).value, j) && i != j
    ensures Execute(l, acts).value.workers[i].run.id != Execute(l, acts).value.workers[j].run.id
  {
    ReachableInv(l, acts);
  }
}
