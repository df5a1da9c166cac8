/**
  How a run ends: for every way the execution of a graph can end, the status that the run
  and its thread have in the store afterwards, over every history.
 */
module OutcomeTheorems {
  import opened Wrappers
  import opened KeyedLists
  import opened RunStore
  import opened RunStoreInvariant
  import opened RunsCancelTheorems
  import opened StoreEffects
  import opened RunsNextTheorems
  import opened Scheduler
  import opened SchedulerTheorems

  // ---------------------------------------------------------------- a task knows its run

  /** The two are one run, except for the status. */
  predicate SameRun(r: Run, q: Run)
  {
    r.(status := q.status) == q
  }

  /** A stored run with the id of a task at work is that task's run. */
  ghost predicate TasksKnow(w: World)
  {
    forall i, r | ActiveWorker(w, i) && r in w.store.runs && r.id == w.workers[i].run.id :: SameRun(w.workers[i].run, r)
  }

  /** Every run of `after` is one of `before`, perhaps with another status, or the run `born`. */
  ghost predicate NoneForged(before: seq<Run>, after: seq<Run>, born: Option<Id>)
  {
    forall r | r in after :: Some(r.id) == born || exists q | q in before :: SameRun(q, r)
  }

  lemma FewerForgeNone(before: seq<Run>, after: seq<Run>)
    requires forall r | r in after :: r in before
    ensures NoneForged(before, after, None)
  {
    forall r | r in after ensures exists q | q in before :: SameRun(q, r) { assert SameRun(r, r); }
  }

  lemma CancelForgesNone(s: Store, c: CancelArgs)
    requires StoreInv(s)
    ensures NoneForged(s.runs, RunsCancel(s, c).runs, None)
  {
    forall r | r in RunsCancel(s, c).runs ensures exists q | q in s.runs :: SameRun(q, r) {
      CancelledRuns(s, c, r);
      if r in s.runs { assert SameRun(r, r); }
    }
  }

  lemma StatusForgesNone(s: Store, r: Run, status: RunStatus)
    requires StoreInv(s) && r in s.runs
    ensures NoneForged(s.runs, WithRunStatus(s, r, status).runs, None)
  {
    ReplaceMembers(s.runs, RunId, r.id, r.(status := status));
    forall x | x in WithRunStatus(s, r, status).runs ensures exists q | q in s.runs :: SameRun(q, x) {
      if x == r.(status := status) { assert SameRun(r, x); } else { assert SameRun(x, x); }
    }
  }

  lemma DeleteAssistantForgesNone(s: Store, a: StoreAction)
    requires StoreInv(s) && a.DeleteAssistant?
    ensures NoneForged(s.runs, StoreStep(s, a).runs, None)
  {
    var threads := Where(s.threads, OwnedBy(a.assistant));
    DeleteThreadsShrinks(s, threads, a.deletable);
    DeleteThreadsKeeps(s, threads, a.deletable);
    var s1 := if a.deleteThreads then DeleteThreads(s, threads, a.deletable) else s;
    CancelForgesNone(s1, CancelArgs(OfAssistant(a.assistant), false, a.permitted, {}));
    FewerForgeNone(s.runs, s.runs);
  }

  lemma ApiForgesNone(s: Store, a: StoreAction)
    requires StoreInv(s) && StoreEnabled(s, a)
    ensures NoneForged(s.runs, StoreStep(s, a).runs, FreshRun(a))
  {
    FewerForgeNone(s.runs, s.runs);
    match a
    case DeleteThread(thread, allowed) =>
      ThreadsDeleteShrinks(s, thread, allowed);
      FewerForgeNone(s.runs, StoreStep(s, a).runs);
    case PutRun(p) => PutForgesNone(s, p);
    case DeleteRun(run, thread, allowed) =>
      RunDeleteTells(s, run, thread, allowed);
      FewerForgeNone(s.runs, StoreStep(s, a).runs);
    case CancelRuns(c) => CancelForgesNone(s, c);
    case DeleteAssistant(_, _, _, _, _) => DeleteAssistantForgesNone(s, a);
    case _ => assert StoreStep(s, a).runs == s.runs;
  }

  lemma PutForgesNone(s: Store, p: PutArgs)
    requires StoreInv(s) && FreshIds(s, p)
    ensures NoneForged(s.runs, RunsPut(s, p).0.runs, Some(p.run))
  {
    EnsureThreadKeeps(s, p);
    forall r | r in RunsPut(s, p).0.runs && r.id != p.run ensures exists q | q in s.runs :: SameRun(q, r) { assert SameRun(r, r); }
  }

  /** The runs after `set_joint_status`. */
  function RunsAfter(s: Store, run: Run, v: Verdict): seq<Run>
  {
    var found := Find(Where(s.runs, OnThread(run.thread)), RunId, run.id);
    if Find(s.threads, ThreadId, run.thread).None? || found.None? then s.runs else JointRuns(s, found.value, v).runs
  }

  lemma JointRunsAre(s: Store, run: Run, v: Verdict, hasNext: bool, error: bool)
    ensures OrSame(SetJointStatus(s, run.thread, run.id, v, hasNext, error), s).runs == RunsAfter(s, run, v)
  {
  }

  lemma OneForgesNone(s: Store, r: Run, v: Verdict)
    requires StoreInv(s) && r in s.runs
    ensures NoneForged(s.runs, JointRuns(s, r, v).runs, None)
  {
    if v.Rollback? {
      WhereMembers(s.runs, NotRun(r), RunId);
      FewerForgeNone(s.runs, Where(s.runs, NotRun(r)));
    } else {
      StatusForgesNone(s, r, v.status);
    }
  }

  lemma JointForgesNone(s: Store, run: Run, v: Verdict)
    requires StoreInv(s)
    ensures NoneForged(s.runs, RunsAfter(s, run, v), None)
  {
    FoundRun(s, run.thread, run.id);
    var found := Find(Where(s.runs, OnThread(run.thread)), RunId, run.id);
    if Find(s.threads, ThreadId, run.thread).Some? && found.Some? {
      OneForgesNone(s, found.value, v);
    } else {
      FewerForgeNone(s.runs, s.runs);
    }
  }

  lemma RetryForgesNone(s: Store, run: Id)
    requires StoreInv(s)
    ensures NoneForged(s.runs, RunsSetStatus(s, run, Pending).runs, None)
  {
    FindMember(s.runs, RunId, run);
    match Find(s.runs, RunId, run)
    case None => FewerForgeNone(s.runs, s.runs);
    case Some(r) => StatusForgesNone(s, r, Pending);
  }

  lemma OutcomeForgesNone(s: Store, run: Run, e: Execution, hasNext: bool)
    requires StoreInv(s)
    ensures NoneForged(s.runs, RecordOutcome(s, run, e, hasNext).runs, None)
  {
    if e.FailsRetriably? {
      RetryForgesNone(s, run.id);
    } else if run.temporary {
      ThreadsDeleteShrinks(s, run.thread, true);
      FewerForgeNone(s.runs, OrSame(ThreadsDelete(s, run.thread, true), s).runs);
    } else {
      FinalForgesNone(s, run, e, hasNext);
    }
  }

  lemma FinalForgesNone(s: Store, run: Run, e: Execution, hasNext: bool)
    requires StoreInv(s) && !e.FailsRetriably? && !run.temporary
    ensures NoneForged(s.runs, RecordOutcome(s, run, e, hasNext).runs, None)
  {
    match e
    case Succeeds => JointForgesNone(s, run, Final(Success)); JointRunsAre(s, run, Final(Success), hasNext, false);
    case TimesOut =>
      JointForgesNone(s, run, Final(RunStatus.TimedOut));
      JointRunsAre(s, run, Final(RunStatus.TimedOut), hasNext, true);
    case RollsBack => JointForgesNone(s, run, Rollback); JointRunsAre(s, run, Rollback, false, false);
    case UserInterrupts =>
      JointForgesNone(s, run, Final(RunStatus.Interrupted));
      JointRunsAre(s, run, Final(RunStatus.Interrupted), hasNext, false);
    case Fails => JointForgesNone(s, run, Final(Failed)); JointRunsAre(s, run, Final(Failed), hasNext, true);
  }

  lemma ForgedNoneKnows(w: World, w': World, born: Option<Id>)
    requires TasksKnow(w) && NoneForged(w.store.runs, w'.store.runs, born)
    requires forall i | ActiveWorker(w', i) :: ActiveWorker(w, i) && w'.workers[i] == w.workers[i]
    requires forall i | ActiveWorker(w, i) :: Some(w.workers[i].run.id) != born
    ensures TasksKnow(w')
  {
    forall i, r | ActiveWorker(w', i) && r in w'.store.runs && r.id == w'.workers[i].run.id
      ensures SameRun(w'.workers[i].run, r)
    {
      var q :| q in w.store.runs && SameRun(q, r);
      assert SameRun(w.workers[i].run, q);
    }
  }

  /** A poll only changes statuses. */
  lemma StartedRunIsOld(s: Store, s': Store, out: seq<(Run, nat)>, r: Run) returns (q: Run)
    requires Started(s, s', out) && r in s'.runs
    ensures q in s.runs && SameRun(q, r)
  {
    if r in s.runs { q := r; } else { q := r.(status := Pending); }
  }

  lemma StartedRunIsHanded(s: Store, s': Store, out: seq<(Run, nat)>, k: nat, r: Run)
    requires Started(s, s', out) && Unique(s'.runs, RunId) && k < |out| && r in s'.runs && r.id == out[k].0.id
    ensures r == out[k].0
  {
    assert out[k].0 in s'.runs;
    UniqueMember(s'.runs, RunId, out[k].0, r);
  }

  /** A run of the store after a poll was there before, perhaps with another status. */
  lemma PolledRunIsOld(s: Store, limit: nat, now: int, r: Run) returns (q: Run)
    requires StoreInv(s) && r in RunsNext(s, limit, now).0.runs
    ensures q in s.runs && SameRun(q, r)
  {
    NextStarts(s, limit, now);
    q := StartedRunIsOld(s, RunsNext(s, limit, now).0, RunsNext(s, limit, now).1, r);
  }

  lemma PolledRunIsHanded(s: Store, limit: nat, now: int, k: nat, r: Run)
    requires StoreInv(s) && k < |RunsNext(s, limit, now).1|
    requires r in RunsNext(s, limit, now).0.runs && r.id == RunsNext(s, limit, now).1[k].0.id
    ensures r == RunsNext(s, limit, now).1[k].0
  {
    NextStarts(s, limit, now);
    StartedRunIsHanded(s, RunsNext(s, limit, now).0, RunsNext(s, limit, now).1, k, r);
  }

  lemma PollKeepsKnowing(w: World, now: int)
    requires w.captured.Some? && StoreInv(w.store) && TasksKnow(w)
    ensures TasksKnow(DoPoll(w, now))
  {
    var w' := DoPoll(w, now);
    forall i, r | ActiveWorker(w', i) && r in w'.store.runs && r.id == w'.workers[i].run.id
      ensures SameRun(w'.workers[i].run, r)
    {
      PolledWorkers(w, now, i);
      if i < |w.workers| {
        var q := PolledRunIsOld(w.store, w.captured.value, now, r);
        assert SameRun(w.workers[i].run, q);
      } else {
        PolledRunIsHanded(w.store, w.captured.value, now, i - |w.workers|, r);
      }
    }
  }

  lemma StepKeepsKnowing(w: World, l: Limits, a: Action)
    requires Inv(w, l) && Enabled(w, a) && TasksKnow(w)
    ensures TasksKnow(Apply(w, l, a))
  {
    var w' := Apply(w, l, a);
    match a
    case Api(sa) =>
      ApiForgesNone(w.store, sa);
      ForgedNoneKnows(w, w', FreshRun(sa));
    case Capture => FewerForgeNone(w.store.runs, w.store.runs); ForgedNoneKnows(w, w', None);
    case Poll(now) => PollKeepsKnowing(w, now);
    case WorkerEnds(i, e, hasNext) =>
      var k := w.workers[i];
      OutcomeForgesNone(w.store, k.run, Classify(k.attempt, l.maxRetries, e), hasNext);
      ForgedNoneKnows(w, w', None);
    case Cleanup(i) =>
      forall j, r | ActiveWorker(w', j) && r in w'.store.runs && r.id == w'.workers[j].run.id
        ensures SameRun(w'.workers[j].run, r)
      {
        assert ActiveWorker(w, if j < i then j else j + 1);
      }
  }

  /** After every history a stored run with the id of a task at work is that task's run, whatever its status. */
  lemma {:induction false} ReachableKnow(l: Limits, acts: seq<Action>)
    requires History(l, acts)
    ensures TasksKnow(Execute(l, acts).value)
  {
    if acts != [] {
      ReachableKnow(l, acts[..|acts| - 1]);
      ReachableInv(l, acts[..|acts| - 1]);
      StepKeepsKnowing(Execute(l, acts[..|acts| - 1]).value, l, acts[|acts| - 1]);
    }
  }

  // ---------------------------------------------------------------- the end of an attempt

  /** From `s` to `s'` the run `r` got the status, or was deleted, and every other run stays. */
  ghost predicate RunBecomes(s: Store, s': Store, r: Run, status: Option<RunStatus>)
  {
    && (forall q: Run | q.id != r.id :: q in s'.runs <==> q in s.runs)
    && (forall q: Run | q.id == r.id :: q in s'.runs <==> status.Some? && q == r.(status := status.value))
  }

  /** The thread is busy if it has another run pending or running, and else has the status; other threads stay. */
  ghost predicate ThreadBecomes(s: Store, s': Store, r: Run, status: ThreadStatus)
  {
    var busy := exists q | q in s.runs :: q.id != r.id && q.thread == r.thread && (q.status == Pending || q.status == Running);
    && (forall t: Thread | t.id != r.thread :: t in s'.threads <==> t in s.threads)
    && (exists t | t in s.threads :: t.id == r.thread && t.(status := if busy then Busy else status) in s'.threads)
    && Unique(s'.threads, ThreadId)
  }

  lemma RetryBecomes(s: Store, r: Run, run: Run, hasNext: bool)
    requires StoreInv(s) && r in s.runs && SameRun(run, r)
    ensures var s' := RecordOutcome(s, run, FailsRetriably, hasNext);
            s' == s.(runs := s'.runs) && RunBecomes(s, s', r, Some(Pending))
  {
    FindUnique(s.runs, RunId, r);
    ReplaceMembers(s.runs, RunId, r.id, r.(status := Pending));
    KeyOfMember(s.runs, RunId, r);
    forall q: Run | q.id == r.id && q in s.runs ensures q == r { UniqueMember(s.runs, RunId, q, r); }
  }

  lemma JointBecomes(s: Store, r: Run, run: Run, v: Verdict, hasNext: bool, error: bool)
    requires StoreInv(s) && r in s.runs && SameRun(run, r) && v != Final(Running) && v != Final(Pending)
    ensures var s' := OrSame(SetJointStatus(s, run.thread, run.id, v, hasNext, error), s);
            && RunBecomes(s, s', r, if v.Final? then Some(v.status) else None)
            && ThreadBecomes(s, s', r, if error then ThreadError else if hasNext then ThreadInterrupted else Idle)
  {
    JointFound(s, r.thread, r.id, v, hasNext, error);
    FoundRun(s, r.thread, r.id);
    JointRunBecomes(s, r, v);
    var t := Find(s.threads, ThreadId, r.thread).value;
    var s1 := JointRuns(s, r, v);
    var status := if HasActive(s1.runs, r.thread) then Busy else BaseStatus(hasNext, error);
    ReplaceMembers(s.threads, ThreadId, t.id, t.(status := status));
    KeyOfMember(s.threads, ThreadId, t);
    BusyAfter(s, s1, r, if v.Final? then Some(v.status) else None);
  }

  lemma JointRunBecomes(s: Store, r: Run, v: Verdict)
    requires StoreInv(s) && r in s.runs
    ensures RunBecomes(s, JointRuns(s, r, v), r, if v.Final? then Some(v.status) else None)
  {
    KeyOfMember(s.runs, RunId, r);
    forall q: Run | q.id == r.id && q in s.runs ensures q == r { UniqueMember(s.runs, RunId, q, r); }
    if v.Rollback? { WhereMembers(s.runs, NotRun(r), RunId); }
    else { ReplaceMembers(s.runs, RunId, r.id, r.(status := v.status)); }
  }

  lemma BusyAfter(s: Store, s': Store, r: Run, status: Option<RunStatus>)
    requires RunBecomes(s, s', r, status) && status != Some(Pending) && status != Some(Running)
    ensures HasActive(s'.runs, r.thread) <==>
            exists q | q in s.runs :: q.id != r.id && q.thread == r.thread && (q.status == Pending || q.status == Running)
  {
  }

  lemma TemporaryGoes(s: Store, r: Run)
    requires StoreInv(s) && r in s.runs
    ensures var s' := OrSame(ThreadsDelete(s, r.thread, true), s);
            && (forall t :: t in s'.threads <==> t in s.threads && t.id != r.thread)
            && (forall q :: q in s'.runs <==> q in s.runs && q.thread != r.thread)
  {
    assert r.thread in Threads(s);
    ThreadDeleteCascades(s, r.thread, true);
  }

  /**
    The end of an attempt at a stored run, for each way its execution can end.  Below the
    retry limit a retriable failure makes it pending again.  Otherwise a temporary thread
    goes with its runs, and any other run and its thread get the status of the outcome,
    which past the limit is an error whatever happened.
   */
  lemma OutcomeIsRecorded(l: Limits, acts: seq<Action>, i: nat, e: Execution, hasNext: bool, r: Run)
    requires History(l, acts) && Enabled(Execute(l, acts).value, WorkerEnds(i, e, hasNext))
    requires r in Execute(l, acts).value.store.runs && r.id == Execute(l, acts).value.workers[i].run.id
    ensures var w := Execute(l, acts).value;
            var s, s', past := w.store, EndWorker(w, l, i, e, hasNext).store, w.workers[i].attempt > l.maxRetries;
            && (!past && e == FailsRetriably ==> s' == s.(runs := s'.runs) && RunBecomes(s, s', r, Some(Pending)))
            && (r.temporary && (past || e != FailsRetriably) ==>
                  && (forall t :: t in s'.threads <==> t in s.threads && t.id != r.thread)
                  && (forall q :: q in s'.runs <==> q in s.runs && q.thread != r.thread))
            && (!r.temporary ==>
                  && (past || e == Fails ==> RunBecomes(s, s', r, Some(Failed)) && ThreadBecomes(s, s', r, ThreadError))
                  && (!past && e == TimesOut ==>
                        RunBecomes(s, s', r, Some(RunStatus.TimedOut)) && ThreadBecomes(s, s', r, ThreadError))
                  && (!past && e == Succeeds ==>
                        && RunBecomes(s, s', r, Some(Success))
                        && ThreadBecomes(s, s', r, if hasNext then ThreadInterrupted else Idle))
                  && (!past && e == UserInterrupts ==>
                        && RunBecomes(s, s', r, Some(RunStatus.Interrupted))
                        && ThreadBecomes(s, s', r, if hasNext then ThreadInterrupted else Idle))
                  && (!past && e == RollsBack ==> RunBecomes(s, s', r, None) && ThreadBecomes(s, s', r, Idle)))
  {
    ReachableInv(l, acts);
    ReachableKnow(l, acts);
    var w := Execute(l, acts).value;
    assert ActiveWorker(w, i);
    EndTells(w.store, r, w.workers[i].run, Classify(w.workers[i].attempt, l.maxRetries, e), hasNext);
  }

  lemma EndTells(s: Store, r: Run, run: Run, e: Execution, hasNext: bool)
    requires StoreInv(s) && r in s.runs && SameRun(run, r)
    ensures var s' := RecordOutcome(s, run, e, hasNext);
            if e == FailsRetriably then s' == s.(runs := s'.runs) && RunBecomes(s, s', r, Some(Pending))
            else if r.temporary then
              && (forall t :: t in s'.threads <==> t in s.threads && t.id != r.thread)
              && (forall q :: q in s'.runs <==> q in s.runs && q.thread != r.thread)
            else
              && RunBecomes(s, s', r, match e
                                      case Succeeds => Some(Success)
                                      case TimesOut => Some(RunStatus.TimedOut)
                                      case UserInterrupts => Some(RunStatus.Interrupted)
                                      case RollsBack => None
                                      case _ => Some(Failed))
              && ThreadBecomes(s, s', r, if e == TimesOut || e == Fails then ThreadError
                                         else if hasNext && e != RollsBack then ThreadInterrupted
                                         else Idle)
  {
    match e
    case FailsRetriably => RetryBecomes(s, r, run, hasNext);
    case Succeeds => TemporaryGoes(s, r); JointBecomes(s, r, run, Final(Success), hasNext, false);
    case TimesOut => TemporaryGoes(s, r); JointBecomes(s, r, run, Final(RunStatus.TimedOut), hasNext, true);
    case UserInterrupts => TemporaryGoes(s, r); JointBecomes(s, r, run, Final(RunStatus.Interrupted), hasNext, false);
    case RollsBack => TemporaryGoes(s, r); JointBecomes(s, r, run, Rollback, false, false);
    case Fails => TemporaryGoes(s, r); JointBecomes(s, r, run, Final(Failed), hasNext, true);
  }
}
