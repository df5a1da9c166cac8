/**
  When a thread's status tells whether it has work, over whole histories, and what
  `prevent_insert_if_inflight` guarantees.
 */
module ThreadStatusTheorems {
  import opened Wrappers
  import opened KeyedLists
  import opened RunStore
  import opened RunStoreInvariant
  import opened RunsCancelTheorems
  import opened RunsNextTheorems
  import opened Scheduler
  import opened SchedulerTheorems

  // ---------------------------------------------------------------- gentle steps

  predicate CancelsNoRunning(s: Store, c: CancelArgs)
  {
    forall r | r in s.runs && Cancelable(c, r) :: r.status == Pending
  }

  ghost predicate GentleCancel(s: Store, c: CancelArgs)
  {
    CancelsNoRunning(s, c) && CancelHarmless(s, c)
  }

  /** What `Assistants.delete` cancels, after deleting the threads the assistant owns. */
  function WithoutOwnedThreads(s: Store, a: StoreAction): Store
    requires a.DeleteAssistant?
  {
    if a.deleteThreads then DeleteThreads(s, Where(s.threads, OwnedBy(a.assistant)), a.deletable) else s
  }

  function AssistantCancel(a: StoreAction): CancelArgs
    requires a.DeleteAssistant?
  {
    CancelArgs(OfAssistant(a.assistant), false, a.permitted, {})
  }

  /** Cancels hit no running run and reset just the threads they empty; deletes leave work where there was some. */
  ghost predicate Gentle(s: Store, a: StoreAction)
  {
    match a
    case CancelRuns(c) => GentleCancel(s, c)
    case DeleteRun(run, thread, allowed) => DeleteHarmless(s, run, thread, allowed)
    case DeleteAssistant(_, _, _, _, _) => GentleCancel(WithoutOwnedThreads(s, a), AssistantCancel(a))
    case _ => true
  }

  // ---------------------------------------------------------------- one step of the store

  lemma ThreadWriteKeepsBusy(s: Store, t: Thread, t': Thread)
    requires StoreInv(s) && BusyIff(s) && t'.id == t.id && (t'.status == Busy <==> HasActive(s.runs, t.id))
    ensures BusyIff(s.(threads := Replace(s.threads, ThreadId, t.id, t')))
  {
    ReplaceMembers(s.threads, ThreadId, t.id, t');
  }

  lemma PutThreadKeepsBusy(s: Store, id: Id, owner: Option<Id>)
    requires StoreInv(s) && BusyIff(s)
    ensures BusyIff(ThreadsPut(s, id, owner))
  {
    FindMember(s.threads, ThreadId, id);
    if Find(s.threads, ThreadId, id).None? {
      AppendMembers(s.threads, ThreadId, Thread(id, Idle, owner));
      assert !HasActive(s.runs, id);
    }
  }

  lemma DeleteThreadKeepsBusy(s: Store, thread: Id, allowed: bool)
    requires StoreInv(s) && BusyIff(s)
    ensures BusyIff(OrSame(ThreadsDelete(s, thread, allowed), s))
  {
    WhereMembers(s.runs, OffThread(thread), RunId);
    WhereMembers(s.threads, NotThread(thread), ThreadId);
    var runs := Where(s.runs, OffThread(thread));
    forall k | k != thread ensures HasActive(runs, k) <==> HasActive(s.runs, k) {
      if HasActive(s.runs, k) { var r :| r in s.runs && r.thread == k && IsActive(r); assert r in runs; }
    }
  }

  lemma {:induction false} DeleteThreadsKeepsBusy(s: Store, threads: seq<Thread>, deletable: set<Id>)
    requires StoreInv(s) && BusyIff(s)
    ensures BusyIff(DeleteThreads(s, threads, deletable))
    decreases |threads|
  {
    if threads != [] {
      var allowed := threads[0].id in deletable;
      DeleteThreadKeepsBusy(s, threads[0].id, allowed);
      ThreadsDeleteKeeps(s, threads[0].id, allowed);
      DeleteThreadsKeepsBusy(OrSame(ThreadsDelete(s, threads[0].id, allowed), s), threads[1..], deletable);
    }
  }

  /** `Runs.put` puts a run on the thread it marks busy, or finds one there. */
  lemma PutRunKeepsBusy(s: Store, p: PutArgs)
    requires StoreInv(s) && BusyIff(s) && FreshIds(s, p)
    ensures BusyIff(RunsPut(s, p).0)
  {
    EnsureThreadKeeps(s, p);
    match EnsureThread(s, p)
    case None =>
    case Some((s1, thread)) =>
      EnsuredThreadIsBusy(s, p);
      var inflight := Where(s.runs, ActiveOn(thread));
      WhereMembers(s.runs, ActiveOn(thread), RunId);
      var s' := RunsPut(s, p).0;
      if inflight != [] { assert inflight[0] in s.runs; }
      if s'.runs != s.runs {
        var r := Run(p.run, thread, p.assistant, Pending, p.createdAt, p.temporary);
        AppendMembers(s1.runs, RunId, r);
        assert r in s'.runs;
        forall k | k != thread ensures HasActive(s'.runs, k) <==> HasActive(s.runs, k) { }
      }
  }

  /** The thread that `Runs.put` uses is busy, and no other thread changes. */
  lemma EnsuredThreadIsBusy(s: Store, p: PutArgs)
    requires StoreInv(s) && FreshIds(s, p) && EnsureThread(s, p).Some?
    ensures var (s1, thread) := EnsureThread(s, p).value;
            forall t | t in s1.threads :: if t.id == thread then t.status == Busy else t in s.threads
  {
    var found := if p.thread.Some? then Find(s.threads, ThreadId, p.thread.value) else None;
    match found
    case Some(t) =>
      FindMember(s.threads, ThreadId, p.thread.value);
      ReplaceMembers(s.threads, ThreadId, t.id, Thread(t.id, Busy, Some(p.assistant)));
      forall x | x in s.threads && x.id == t.id ensures x == t { UniqueMember(s.threads, ThreadId, x, t); }
    case None =>
      var id := if p.thread.Some? then p.thread.value else p.newThread;
      if p.thread.Some? { FindMember(s.threads, ThreadId, id); }
      AppendMembers(s.threads, ThreadId, Thread(id, Busy, p.owner));
  }

  lemma DeleteAssistantKeepsBusy(s: Store, a: StoreAction)
    requires StoreInv(s) && BusyIff(s) && a.DeleteAssistant? && Gentle(s, a)
    ensures BusyIff(StoreStep(s, a))
  {
    var s1 := WithoutOwnedThreads(s, a);
    DeleteThreadsKeepsBusy(s, Where(s.threads, OwnedBy(a.assistant)), a.deletable);
    DeleteThreadsKeeps(s, Where(s.threads, OwnedBy(a.assistant)), a.deletable);
    CancelKeepsBusyIff(s1, AssistantCancel(a));
  }

  lemma StoreStepKeepsBusy(s: Store, a: StoreAction)
    requires StoreInv(s) && BusyIff(s) && StoreEnabled(s, a) && Gentle(s, a)
    ensures BusyIff(StoreStep(s, a))
  {
    match a
    case PutThread(thread, owner) => PutThreadKeepsBusy(s, thread, owner);
    case PostThreadState(thread, hasNext, error) =>
      FindMember(s.threads, ThreadId, thread);
      match Find(s.threads, ThreadId, thread) {
        case None =>
        case Some(t) =>
          ThreadWriteKeepsBusy(s, t, t.(status := if HasActive(s.runs, thread) then Busy else BaseStatus(hasNext, error)));
      }
    case DeleteThread(thread, allowed) => DeleteThreadKeepsBusy(s, thread, allowed);
    case PutRun(p) => PutRunKeepsBusy(s, p);
    case DeleteRun(run, thread, allowed) =>
      if RunsDelete(s, run, thread, allowed).Ok? { DeleteKeepsBusyIff(s, run, thread, allowed); }
    case CancelRuns(c) => CancelKeepsBusyIff(s, c);
    case DeleteAssistant(_, _, _, _, _) => DeleteAssistantKeepsBusy(s, a);
    case _ => OtherStepsKeepBusy(s, a);
  }

  lemma OtherStepsKeepBusy(s: Store, a: StoreAction)
    requires a.PutCron? || a.DeleteCron? || a.PutAssistant? || a.PatchAssistant? || a.SetLatest?
    ensures StoreStep(s, a).runs == s.runs && StoreStep(s, a).threads == s.threads
  {
  }

  // ---------------------------------------------------------------- running runs keep their tasks

  /** A stored run with an active task is running, on the thread its worker knows. */
  ghost predicate TasksRun(w: World)
  {
    forall i, r | ActiveWorker(w, i) && r in w.store.runs && r.id == w.workers[i].run.id ::
      r.status == Running && r.thread == w.workers[i].run.thread
  }

  /** Every stored run was stored before, is new, or was pending and is cancelled. */
  ghost predicate RunningUntouched(s: Store, s': Store, born: Option<Id>)
  {
    forall r | r in s'.runs :: r in s.runs || Some(r.id) == born || r.(status := Pending) in s.runs
  }

  lemma CancelLeavesRunning(s: Store, c: CancelArgs)
    requires StoreInv(s) && CancelsNoRunning(s, c)
    ensures RunningUntouched(s, RunsCancel(s, c), None)
  {
    forall q | q in RunsCancel(s, c).runs ensures q in s.runs || q.(status := Pending) in s.runs {
      CancelledRuns(s, c, q);
    }
  }

  lemma StoreStepLeavesRunning(s: Store, a: StoreAction)
    requires StoreInv(s) && StoreEnabled(s, a) && Gentle(s, a)
    ensures RunningUntouched(s, StoreStep(s, a), FreshRun(a))
  {
    match a
    case DeleteThread(thread, allowed) => ThreadsDeleteShrinks(s, thread, allowed);
    case PutRun(p) => EnsureThreadKeeps(s, p);
    case DeleteRun(run, thread, allowed) =>
      var f := Find(Where(s.runs, OnThread(thread)), RunId, run);
      if f.Some? { WhereMembers(s.runs, NotRun(f.value), RunId); }
    case CancelRuns(c) => CancelLeavesRunning(s, c);
    case DeleteAssistant(_, _, _, _, _) =>
      var s1 := WithoutOwnedThreads(s, a);
      DeleteThreadsShrinks(s, Where(s.threads, OwnedBy(a.assistant)), a.deletable);
      DeleteThreadsKeeps(s, Where(s.threads, OwnedBy(a.assistant)), a.deletable);
      CancelLeavesRunning(s1, AssistantCancel(a));
    case _ =>
  }

  lemma ApiKeepsTasks(w: World, l: Limits, a: StoreAction)
    requires Inv(w, l) && TasksRun(w) && StoreEnabled(w.store, a) && Gentle(w.store, a)
    ensures TasksRun(w.(store := StoreStep(w.store, a)))
  {
    StoreStepLeavesRunning(w.store, a);
    var w' := w.(store := StoreStep(w.store, a));
    forall i, r | ActiveWorker(w', i) && r in w'.store.runs && r.id == w'.workers[i].run.id
      ensures r.status == Running && r.thread == w'.workers[i].run.thread
    {
      assert ActiveWorker(w, i);
    }
  }

  lemma PollKeepsTasks(w: World, now: int, i: int, r: Run)
    requires w.captured.Some? && StoreInv(w.store) && WorkersOk(w) && TasksRun(w)
    requires Started(w.store, RunsNext(w.store, w.captured.value, now).0, RunsNext(w.store, w.captured.value, now).1)
    requires StoreInv(DoPoll(w, now).store)
    requires ActiveWorker(DoPoll(w, now), i) && r in DoPoll(w, now).store.runs && r.id == DoPoll(w, now).workers[i].run.id
    ensures r.status == Running && r.thread == DoPoll(w, now).workers[i].run.thread
  {
    var (s', out) := RunsNext(w.store, w.captured.value, now);
    PolledWorkers(w, now, i);
    if |w.workers| <= i {
      assert out[i - |w.workers|].0 in s'.runs;
      UniqueMember(s'.runs, RunId, r, out[i - |w.workers|].0);
    } else {
      forall k | 0 <= k < |out| ensures out[k].0.id != r.id { HandedHasNoWorker(w, now, k, i); }
    }
  }

  lemma PollKeepsBusy(s: Store, s': Store, out: seq<(Run, nat)>)
    requires StoreInv(s) && BusyIff(s) && Started(s, s', out)
    ensures BusyIff(s')
  {
    forall k ensures HasActive(s'.runs, k) <==> HasActive(s.runs, k) {
      if HasActive(s'.runs, k) {
        var r :| r in s'.runs && r.thread == k && IsActive(r);
        if r !in s.runs {
          var j :| 0 <= j < |out| && out[j].0 == r;
          assert out[j].0.(status := Pending) in s.runs;
        }
      }
      if HasActive(s.runs, k) {
        var r :| r in s.runs && r.thread == k && IsActive(r);
        if r.id in HandedIds(out) {
          var j :| 0 <= j < |out| && out[j].0.id == r.id;
          UniqueMember(s.runs, RunId, r, out[j].0.(status := Pending));
          assert out[j].0 in s'.runs;
        }
      }
    }
  }

  lemma RetryKeepsBusy(s: Store, run: Run)
    requires StoreInv(s) && BusyIff(s) && forall r | r in s.runs && r.id == run.id :: r.status == Running
    ensures BusyIff(RunsSetStatus(s, run.id, Pending))
  {
    FindMember(s.runs, RunId, run.id);
    match Find(s.runs, RunId, run.id)
    case None =>
    case Some(r) =>
      var r' := r.(status := Pending);
      ReplaceMembers(s.runs, RunId, r.id, r');
      KeyOfMember(s.runs, RunId, r);
      var s' := WithRunStatus(s, r, Pending);
      forall k ensures HasActive(s'.runs, k) <==> HasActive(s.runs, k) {
        if HasActive(s.runs, k) {
          var q :| q in s.runs && q.thread == k && IsActive(q);
          if q.id == r.id { UniqueMember(s.runs, RunId, q, r); assert r' in s'.runs; } else { assert q in s'.runs; }
        }
      }
  }

  lemma JointRunsAre(s: Store, r: Run, v: Verdict)
    requires StoreInv(s) && r in s.runs && v != Final(Running) && v != Final(Pending)
    ensures StoreInv(JointRuns(s, r, v))
    ensures forall q: Run | q.id != r.id :: q in JointRuns(s, r, v).runs <==> q in s.runs
    ensures forall k: Id | k != r.thread :: HasActive(JointRuns(s, r, v).runs, k) <==> HasActive(s.runs, k)
  {
    var s1 := JointRuns(s, r, v);
    if v.Rollback? {
      WhereMembers(s.runs, NotRun(r), RunId);
      RemoveRunKeeps(s, r);
    } else {
      ReplaceMembers(s.runs, RunId, r.id, r.(status := v.status));
      RunStatusKeeps(s, r, v.status);
    }
    forall k | k != r.thread && HasActive(s.runs, k) ensures HasActive(s1.runs, k) {
      var q :| q in s.runs && q.thread == k && IsActive(q);
      if q.id == r.id { UniqueMember(s.runs, RunId, q, r); }
    }
  }

  lemma JointThreadsAre(s: Store, t: Thread, t': Thread, s1: Store)
    requires StoreInv(s) && BusyIff(s) && t in s.threads && t'.id == t.id && s1.threads == s.threads
    requires forall k: Id | k != t.id :: HasActive(s1.runs, k) <==> HasActive(s.runs, k)
    requires t'.status == Busy <==> HasActive(s1.runs, t.id)
    ensures BusyIff(s1.(threads := Replace(s.threads, ThreadId, t.id, t')))
  {
    ReplaceMembers(s.threads, ThreadId, t.id, t');
  }

  lemma JointKeepsBusy(s: Store, thread: Id, run: Id, v: Verdict, hasNext: bool, error: bool)
    requires StoreInv(s) && BusyIff(s) && v != Final(Running) && v != Final(Pending)
    ensures BusyIff(OrSame(SetJointStatus(s, thread, run, v, hasNext, error), s))
  {
    FoundRun(s, thread, run);
    FindMember(s.threads, ThreadId, thread);
    match (Find(s.threads, ThreadId, thread), Find(Where(s.runs, OnThread(thread)), RunId, run))
    case (Some(t), Some(r)) =>
      JointRunsAre(s, r, v);
      var s1 := JointRuns(s, r, v);
      var t' := t.(status := if HasActive(s1.runs, thread) then Busy else BaseStatus(hasNext, error));
      JointThreadsAre(s, t, t', s1);
      assert SetJointStatus(s, thread, run, v, hasNext, error) == Ok(WithThreadStatus(s1, t, t'.status));
    case _ =>
  }

  lemma OutcomeKeepsBusy(s: Store, run: Run, e: Execution, hasNext: bool)
    requires StoreInv(s) && BusyIff(s) && forall r | r in s.runs && r.id == run.id :: r.status == Running
    ensures BusyIff(RecordOutcome(s, run, e, hasNext))
  {
    match e
    case FailsRetriably => RetryKeepsBusy(s, run);
    case _ =>
      DeleteThreadKeepsBusy(s, run.thread, true);
      JointKeepsBusy(s, run.thread, run.id, Final(Success), hasNext, false);
      JointKeepsBusy(s, run.thread, run.id, Final(RunStatus.TimedOut), hasNext, true);
      JointKeepsBusy(s, run.thread, run.id, Rollback, false, false);
      JointKeepsBusy(s, run.thread, run.id, Final(RunStatus.Interrupted), hasNext, false);
      JointKeepsBusy(s, run.thread, run.id, Final(Failed), hasNext, true);
  }

  lemma JointIsLocal(s: Store, thread: Id, run: Id, v: Verdict, hasNext: bool, error: bool)
    requires StoreInv(s) && v != Final(Running) && v != Final(Pending)
    ensures forall r | r in OrSame(SetJointStatus(s, thread, run, v, hasNext, error), s).runs && r.id != run :: r in s.runs
  {
    FoundRun(s, thread, run);
    match Find(Where(s.runs, OnThread(thread)), RunId, run)
    case None =>
    case Some(r) => JointRunsAre(s, r, v);
  }

  /** Ending one task changes no run but its own. */
  lemma OutcomeIsLocal(s: Store, run: Run, e: Execution, hasNext: bool)
    requires StoreInv(s)
    ensures forall r | r in RecordOutcome(s, run, e, hasNext).runs && r.id != run.id :: r in s.runs
  {
    match e
    case FailsRetriably =>
      FindMember(s.runs, RunId, run.id);
      match Find(s.runs, RunId, run.id) {
        case None =>
        case Some(r) => ReplaceMembers(s.runs, RunId, r.id, r.(status := Pending));
      }
    case _ =>
      ThreadsDeleteShrinks(s, run.thread, true);
      JointIsLocal(s, run.thread, run.id, Final(Success), hasNext, false);
      JointIsLocal(s, run.thread, run.id, Final(RunStatus.TimedOut), hasNext, true);
      JointIsLocal(s, run.thread, run.id, Rollback, false, false);
      JointIsLocal(s, run.thread, run.id, Final(RunStatus.Interrupted), hasNext, false);
      JointIsLocal(s, run.thread, run.id, Final(Failed), hasNext, true);
  }

  // ---------------------------------------------------------------- whole histories

  ghost predicate GentleAction(w: World, a: Action)
  {
    a.Api? ==> Gentle(w.store, a.a)
  }

  ghost predicate StatusInv(w: World, l: Limits)
  {
    Inv(w, l) && TasksRun(w) && BusyIff(w.store)
  }

  lemma EndKeepsStatus(w: World, l: Limits, i: nat, e: Execution, hasNext: bool)
    requires StatusInv(w, l) && Enabled(w, WorkerEnds(i, e, hasNext))
    ensures TasksRun(EndWorker(w, l, i, e, hasNext)) && BusyIff(EndWorker(w, l, i, e, hasNext).store)
  {
    assert ActiveWorker(w, i);
    var run := w.workers[i].run;
    var e' := Classify(w.workers[i].attempt, l.maxRetries, e);
    OutcomeKeepsBusy(w.store, run, e', hasNext);
    OutcomeIsLocal(w.store, run, e', hasNext);
    var w' := EndWorker(w, l, i, e, hasNext);
    forall j, r | ActiveWorker(w', j) && r in w'.store.runs && r.id == w'.workers[j].run.id
      ensures r.status == Running && r.thread == w'.workers[j].run.thread
    {
      assert ActiveWorker(w, j) && j != i;
    }
  }

  lemma PollKeepsStatus(w: World, l: Limits, now: int)
    requires StatusInv(w, l) && w.captured.Some?
    ensures TasksRun(DoPoll(w, now)) && BusyIff(DoPoll(w, now).store)
  {
    NextStarts(w.store, w.captured.value, now);
    PollKeepsInv(w, l, now);
    var (s', out) := RunsNext(w.store, w.captured.value, now);
    PollKeepsBusy(w.store, s', out);
    var w' := DoPoll(w, now);
    forall i, r | ActiveWorker(w', i) && r in w'.store.runs && r.id == w'.workers[i].run.id
      ensures r.status == Running && r.thread == w'.workers[i].run.thread
    {
      PollKeepsTasks(w, now, i, r);
    }
  }

  lemma CleanupKeepsTasks(w: World, l: Limits, i: nat)
    requires TasksRun(w) && Enabled(w, Cleanup(i))
    ensures TasksRun(Apply(w, l, Cleanup(i)))
  {
    var w' := Apply(w, l, Cleanup(i));
    forall j, r | ActiveWorker(w', j) && r in w'.store.runs && r.id == w'.workers[j].run.id
      ensures r.status == Running && r.thread == w'.workers[j].run.thread
    {
      assert ActiveWorker(w, if j < i then j else j + 1);
    }
  }

  lemma StepKeepsStatus(w: World, l: Limits, a: Action)
    requires StatusInv(w, l) && Enabled(w, a) && GentleAction(w, a)
    ensures StatusInv(Apply(w, l, a), l)
  {
    ApplyKeepsInv(w, l, a);
    match a
    case Api(sa) =>
      ApiKeepsTasks(w, l, sa);
      StoreStepKeepsBusy(w.store, sa);
    case Capture =>
      var w' := w.(captured := Some(w.free));
      assert forall i :: ActiveWorker(w', i) <==> ActiveWorker(w, i);
    case Poll(now) => PollKeepsStatus(w, l, now);
    case WorkerEnds(i, e, hasNext) => EndKeepsStatus(w, l, i, e, hasNext);
    case Cleanup(i) => CleanupKeepsTasks(w, l, i);
  }

  /** Every cancel and delete of the history was gentle when it came. */
  ghost predicate GentleHistory(l: Limits, acts: seq<Action>)
  {
    && History(l, acts)
    && (acts != [] ==>
          && GentleHistory(l, acts[..|acts| - 1])
          && GentleAction(Execute(l, acts[..|acts| - 1]).value, acts[|acts| - 1]))
  }

  lemma {:induction false} GentleStatus(l: Limits, acts: seq<Action>)
    requires GentleHistory(l, acts)
    ensures StatusInv(Execute(l, acts).value, l)
  {
    if acts == [] {
      ReachableInv(l, acts);
    } else {
      GentleStatus(l, acts[..|acts| - 1]);
      StepKeepsStatus(Execute(l, acts[..|acts| - 1]).value, l, acts[|acts| - 1]);
    }
  }

  /** The step calls neither `Runs.cancel` nor a direct `Runs.delete`. */
  predicate Plain(a: Action)
  {
    a.Api? ==> !a.a.CancelRuns? && !a.a.DeleteRun? && !a.a.DeleteAssistant?
  }

  /** Histories without cancels and direct deletes are gentle. */
  lemma {:induction false} PlainIsGentle(l: Limits, acts: seq<Action>)
    requires History(l, acts) && forall k | 0 <= k < |acts| :: Plain(acts[k])
    ensures GentleHistory(l, acts)
  {
    if acts != [] {
      PlainIsGentle(l, acts[..|acts| - 1]);
      assert Plain(acts[|acts| - 1]);
    }
  }

  /** In gentle histories a thread is busy exactly when it has a pending or running run. */
  lemma BusyMeansWork(l: Limits, acts: seq<Action>, t: Thread)
    requires GentleHistory(l, acts) && t in Execute(l, acts).value.store.threads
    ensures t.status == Busy <==> HasActive(Execute(l, acts).value.store.runs, t.id)
  {
    GentleStatus(l, acts);
  }

  // ---------------------------------------------------------------- one run at a time

  ghost predicate OneActive(s: Store)
  {
    forall r, q | r in s.runs && q in s.runs && IsActive(r) && IsActive(q) && r.thread == q.thread :: r == q
  }

  predicate Prevents(a: Action)
  {
    a.Api? && a.a.PutRun? ==> a.a.p.preventIfInflight
  }

  lemma PutKeepsOneActive(s: Store, p: PutArgs)
    requires StoreInv(s) && OneActive(s) && FreshIds(s, p) && p.preventIfInflight
    ensures OneActive(RunsPut(s, p).0)
  {
    EnsureThreadKeeps(s, p);
    match EnsureThread(s, p)
    case None =>
    case Some((s1, thread)) =>
      WhereMembers(s.runs, ActiveOn(thread), RunId);
      var inflight := Where(s.runs, ActiveOn(thread));
      if inflight == [] {
        assert forall r | r in s.runs && ActiveOn(thread)(r) :: r in inflight;
      }
  }

  lemma PollKeepsOneActive(s: Store, s': Store, out: seq<(Run, nat)>)
    requires StoreInv(s) && OneActive(s) && Started(s, s', out)
    ensures OneActive(s')
  {
    forall r, q | r in s'.runs && q in s'.runs && IsActive(r) && IsActive(q) && r.thread == q.thread ensures r == q {
      WasActive(s, s', out, r);
      WasActive(s, s', out, q);
    }
  }

  lemma WasActive(s: Store, s': Store, out: seq<(Run, nat)>, r: Run)
    requires Started(s, s', out) && r in s'.runs && IsActive(r)
    ensures if r.id in HandedIds(out) then r.status == Running && r.(status := Pending) in s.runs else r in s.runs
  {
    if r.id in HandedIds(out) {
      var k :| 0 <= k < |out| && out[k].0 == r;
      assert out[k].0.(status := Pending) in s.runs;
    }
  }

  lemma EndKeepsOneActive(s: Store, run: Run, e: Execution, hasNext: bool)
    requires StoreInv(s) && OneActive(s) && forall r | r in s.runs && r.id == run.id :: r.status == Running
    ensures OneActive(RecordOutcome(s, run, e, hasNext))
  {
    OutcomeRevives(s, run, e, hasNext);
    OutcomeIsLocal(s, run, e, hasNext);
    RecordOutcomeKeeps(s, run, e, hasNext);
    var s' := RecordOutcome(s, run, e, hasNext);
    forall r, q | r in s'.runs && q in s'.runs && IsActive(r) && IsActive(q) && r.thread == q.thread ensures r == q {
      OutcomeWasActive(s, run, e, hasNext, r);
      OutcomeWasActive(s, run, e, hasNext, q);
      UniqueIfSameId(s'.runs, r, q);
    }
  }

  lemma UniqueIfSameId(runs: seq<Run>, r: Run, q: Run)
    requires Unique(runs, RunId) && r in runs && q in runs
    ensures r.id == q.id ==> r == q
  {
  }

  /** An active run was active before, the ending task's own run included. */
  lemma OutcomeWasActive(s: Store, run: Run, e: Execution, hasNext: bool, r: Run)
    requires StoreInv(s) && r in RecordOutcome(s, run, e, hasNext).runs && IsActive(r)
    requires forall q | q in s.runs && q.id == run.id :: q.status == Running
    ensures exists q | q in s.runs :: q.id == r.id && q.thread == r.thread && IsActive(q)
  {
    OutcomeIsLocal(s, run, e, hasNext);
    OutcomeRevives(s, run, e, hasNext);
    if r !in s.runs {
      assert r.id == run.id;
      FindMember(s.runs, RunId, run.id);
      match e
      case FailsRetriably =>
        var q := Find(s.runs, RunId, run.id).value;
        ReplaceMembers(s.runs, RunId, q.id, q.(status := Pending));
      case _ => NonRetriesReviveNone(s, run, e, hasNext);
    }
  }

  lemma NonRetriesReviveNone(s: Store, run: Run, e: Execution, hasNext: bool)
    requires StoreInv(s) && !e.FailsRetriably?
    ensures NoneRevived(s, RecordOutcome(s, run, e, hasNext), None)
  {
    if run.temporary {
      ThreadsDeleteShrinks(s, run.thread, true);
    } else {
      JointRevivesNone(s, run, Final(Success), hasNext, false);
      JointRevivesNone(s, run, Final(RunStatus.TimedOut), hasNext, true);
      JointRevivesNone(s, run, Rollback, false, false);
      JointRevivesNone(s, run, Final(RunStatus.Interrupted), hasNext, false);
      JointRevivesNone(s, run, Final(Failed), hasNext, true);
    }
  }

  lemma StepKeepsOneActive(w: World, l: Limits, a: Action)
    requires StatusInv(w, l) && Enabled(w, a) && OneActive(w.store) && Prevents(a)
    ensures OneActive(Apply(w, l, a).store)
  {
    match a
    case Api(sa) =>
      if sa.PutRun? { PutKeepsOneActive(w.store, sa.p); } else { StoreStepRevivesNone(w.store, sa); }
    case Capture =>
    case Poll(now) =>
      NextStarts(w.store, w.captured.value, now);
      PollKeepsOneActive(w.store, DoPoll(w, now).store, RunsNext(w.store, w.captured.value, now).1);
    case WorkerEnds(i, e, hasNext) =>
      assert ActiveWorker(w, i);
      EndKeepsOneActive(w.store, w.workers[i].run, Classify(w.workers[i].attempt, l.maxRetries, e), hasNext);
    case Cleanup(_) =>
  }

  /** When every put prevents insertion while a run is in flight, no thread ever has two active runs. */
  lemma {:induction false} NeverTwoInflight(l: Limits, acts: seq<Action>)
    requires GentleHistory(l, acts) && forall k | 0 <= k < |acts| :: Prevents(acts[k])
    ensures OneActive(Execute(l, acts).value.store)
  {
    if acts != [] {
      var before := acts[..|acts| - 1];
      NeverTwoInflight(l, before);
      GentleStatus(l, before);
      StepKeepsOneActive(Execute(l, before).value, l, acts[|acts| - 1]);
    }
  }
}
