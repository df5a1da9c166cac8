/**
  Retries: how often a run is started, and where the attempts end.
 */
module RetryTheorems {
  import opened Wrappers
  import opened KeyedLists
  import opened RunStore
  import opened RunStoreInvariant
  import opened RunsCancelTheorems
  import opened RunsNextTheorems
  import opened Scheduler
  import opened SchedulerTheorems
  import opened ThreadStatusTheorems

  // ---------------------------------------------------------------- the cap

  ghost predicate StartsCapped(s: Store, l: Limits)
  {
    forall x :: Attempts(s, x) <= l.maxRetries + 1
  }

  ghost predicate PendingBelowCap(s: Store, l: Limits)
  {
    forall r | r in s.runs && r.status == Pending :: Attempts(s, r.id) <= l.maxRetries
  }

  ghost predicate AttemptsKnown(w: World)
  {
    forall i | ActiveWorker(w, i) :: w.workers[i].attempt == Attempts(w.store, w.workers[i].run.id)
  }

  ghost predicate CapInv(w: World, l: Limits)
  {
    Inv(w, l) && StartsCapped(w.store, l) && PendingBelowCap(w.store, l) && AttemptsKnown(w)
  }

  lemma HandedCounts(s: Store, s': Store, out: seq<(Run, nat)>, x: Id)
    requires Started(s, s', out)
    ensures Attempts(s', x) == if x in HandedIds(out) then Attempts(s, x) + 1 else Attempts(s, x)
  {
    assert Attempt(s', x) == Attempt(s, x) + (if x in HandedIds(out) then 1 else 0);
    assert Attempt(s, x) == Attempts(s, x) + 1 && Attempt(s', x) == Attempts(s', x) + 1;
  }

  lemma HandedWasPending(s: Store, s': Store, out: seq<(Run, nat)>, x: Id)
    requires Started(s, s', out) && x in HandedIds(out)
    ensures exists r | r in s.runs :: r.id == x && r.status == Pending
  {
    var k :| 0 <= k < |out| && out[k].0.id == x;
    var r := out[k].0.(status := Pending);
    assert r in s.runs;
  }

  lemma HandedBelowCap(s: Store, s': Store, out: seq<(Run, nat)>, l: Limits, x: Id)
    requires Started(s, s', out) && PendingBelowCap(s, l) && StartsCapped(s, l)
    ensures Attempts(s', x) <= l.maxRetries + 1
  {
    HandedCounts(s, s', out, x);
    assert Attempts(s, x) <= l.maxRetries + 1;
    if x in HandedIds(out) {
      HandedWasPending(s, s', out, x);
      var r :| r in s.runs && r.id == x && r.status == Pending;
      assert Attempts(s, r.id) <= l.maxRetries;
    }
  }

  lemma PollKeepsCap(w: World, l: Limits, now: int)
    requires CapInv(w, l) && w.captured.Some?
    ensures CapInv(DoPoll(w, now), l)
  {
    PollKeepsInv(w, l, now);
    NextStarts(w.store, w.captured.value, now);
    var (s', out) := RunsNext(w.store, w.captured.value, now);
    forall x ensures Attempts(s', x) <= l.maxRetries + 1 { HandedBelowCap(w.store, s', out, l, x); }
    forall r | r in s'.runs && r.status == Pending ensures Attempts(s', r.id) <= l.maxRetries {
      HandedCounts(w.store, s', out, r.id);
      assert r in w.store.runs && r.id !in HandedIds(out);
    }
    PollKeepsAttempts(w, l, now);
  }

  lemma OldAttempt(w: World, now: int, i: int)
    requires w.captured.Some? && WorkersOk(w) && AttemptsKnown(w) && ActiveWorker(w, i)
    requires Started(w.store, RunsNext(w.store, w.captured.value, now).0, RunsNext(w.store, w.captured.value, now).1)
    ensures w.workers[i].attempt == Attempts(RunsNext(w.store, w.captured.value, now).0, w.workers[i].run.id)
  {
    var (s', out) := RunsNext(w.store, w.captured.value, now);
    NotHandedAgain(w, now, i);
    HandedCounts(w.store, s', out, w.workers[i].run.id);
  }

  lemma NewAttempt(s: Store, s': Store, out: seq<(Run, nat)>, k: nat)
    requires Started(s, s', out) && k < |out|
    ensures out[k].1 == Attempts(s', out[k].0.id)
  {
    assert out[k].0.id in HandedIds(out);
    HandedCounts(s, s', out, out[k].0.id);
  }

  /** A task that was there keeps its run's attempt count; a new one carries the new count. */
  lemma PolledAttempt(w: World, now: int, i: int)
    requires w.captured.Some? && WorkersOk(w) && AttemptsKnown(w)
    requires Started(w.store, RunsNext(w.store, w.captured.value, now).0, RunsNext(w.store, w.captured.value, now).1)
    requires ActiveWorker(DoPoll(w, now), i)
    ensures var k := DoPoll(w, now).workers[i]; k.attempt == Attempts(DoPoll(w, now).store, k.run.id)
  {
    PolledWorkers(w, now, i);
    if i < |w.workers| {
      OldAttempt(w, now, i);
    } else {
      var (s', out) := RunsNext(w.store, w.captured.value, now);
      NewAttempt(w.store, s', out, i - |w.workers|);
    }
  }

  lemma NotHandedAgain(w: World, now: int, i: int)
    requires w.captured.Some? && WorkersOk(w) && ActiveWorker(w, i)
    requires Started(w.store, RunsNext(w.store, w.captured.value, now).0, RunsNext(w.store, w.captured.value, now).1)
    ensures w.workers[i].run.id !in HandedIds(RunsNext(w.store, w.captured.value, now).1)
  {
    var out := RunsNext(w.store, w.captured.value, now).1;
    forall k | 0 <= k < |out| ensures out[k].0.id != w.workers[i].run.id { HandedHasNoWorker(w, now, k, i); }
  }

  lemma PollKeepsAttempts(w: World, l: Limits, now: int)
    requires CapInv(w, l) && w.captured.Some?
    requires Started(w.store, RunsNext(w.store, w.captured.value, now).0, RunsNext(w.store, w.captured.value, now).1)
    ensures AttemptsKnown(DoPoll(w, now))
  {
    forall i | ActiveWorker(DoPoll(w, now), i)
      ensures DoPoll(w, now).workers[i].attempt == Attempts(DoPoll(w, now).store, DoPoll(w, now).workers[i].run.id)
    {
      PolledAttempt(w, now, i);
    }
  }

  lemma ApiKeepsCap(w: World, l: Limits, a: StoreAction)
    requires CapInv(w, l) && StoreEnabled(w.store, a)
    ensures CapInv(w.(store := StoreStep(w.store, a)), l)
  {
    ApiKeepsInv(w, l, a);
    StoreStepRevivesNone(w.store, a);
    var w' := w.(store := StoreStep(w.store, a));
    assert forall i :: ActiveWorker(w', i) <==> ActiveWorker(w, i);
    assert forall x :: Attempts(w'.store, x) == Attempts(w.store, x);
  }

  lemma EndKeepsCap(w: World, l: Limits, i: nat, e: Execution, hasNext: bool)
    requires CapInv(w, l) && Enabled(w, WorkerEnds(i, e, hasNext))
    ensures CapInv(EndWorker(w, l, i, e, hasNext), l)
  {
    EndKeepsInv(w, l, i, e, hasNext);
    var run := w.workers[i].run;
    var e' := Classify(w.workers[i].attempt, l.maxRetries, e);
    assert ActiveWorker(w, i);
    OutcomeRevives(w.store, run, e', hasNext);
    if !e'.FailsRetriably? { NonRetriesReviveNone(w.store, run, e', hasNext); }
    var w' := EndWorker(w, l, i, e, hasNext);
    assert forall j :: ActiveWorker(w', j) <==> ActiveWorker(w, j) && j != i;
    assert forall x :: Attempts(w'.store, x) == Attempts(w.store, x);
  }

  lemma CapKept(w: World, l: Limits, a: Action)
    requires CapInv(w, l) && Enabled(w, a)
    ensures CapInv(Apply(w, l, a), l)
  {
    ApplyKeepsInv(w, l, a);
    match a
    case Api(sa) => ApiKeepsCap(w, l, sa);
    case Capture =>
      assert forall i :: ActiveWorker(w.(captured := Some(w.free)), i) <==> ActiveWorker(w, i);
    case Poll(now) => PollKeepsCap(w, l, now);
    case WorkerEnds(i, e, hasNext) => EndKeepsCap(w, l, i, e, hasNext);
    case Cleanup(i) =>
      var w' := Apply(w, l, a);
      forall j | ActiveWorker(w', j) ensures w'.workers[j].attempt == Attempts(w'.store, w'.workers[j].run.id) {
        assert ActiveWorker(w, if j < i then j else j + 1);
      }
  }

  lemma {:induction false} ReachableCap(l: Limits, acts: seq<Action>)
    requires History(l, acts)
    ensures CapInv(Execute(l, acts).value, l)
  {
    if acts == [] {
      ReachableInv(l, acts);
    } else {
      ReachableCap(l, acts[..|acts| - 1]);
      CapKept(Execute(l, acts[..|acts| - 1]).value, l, acts[|acts| - 1]);
    }
  }

  /** Whatever happens, no run is started more than `BG_JOB_MAX_RETRIES + 1` times. */
  lemma StartedAtMost(l: Limits, acts: seq<Action>, x: Id)
    requires History(l, acts)
    ensures Count(Execute(l, acts).value.starts, x) <= l.maxRetries + 1
  {
    ReachableCap(l, acts);
    var w := Execute(l, acts).value;
    assert Attempts(w.store, x) == Count(w.starts, x);
  }

  /** The start numbers of a run are 1, 2, 3 and so on. */
  ghost predicate Numbered(starts: seq<(Run, nat)>)
  {
    forall i | 0 <= i < |starts| :: starts[i].1 == Count(starts[..i + 1], starts[i].0.id)
  }

  lemma AppendedNumber(starts: seq<(Run, nat)>, out: seq<(Run, nat)>, k: nat)
    requires k < |out| && out[k].1 == Count(starts, out[k].0.id) + 1
    requires forall i, j | 0 <= i < j < |out| :: out[i].0.id != out[j].0.id
    ensures out[k].1 == Count((starts + out)[..|starts| + k + 1], out[k].0.id)
  {
    var x, upTo := out[k].0.id, out[..k + 1];
    assert (starts + out)[..|starts| + k + 1] == starts + upTo;
    CountAppend(starts, upTo, x);
    CountDistinct(upTo, x);
    assert upTo[k].0.id == x;
  }

  lemma AppendedNumbers(starts: seq<(Run, nat)>, out: seq<(Run, nat)>)
    requires Numbered(starts)
    requires forall k | 0 <= k < |out| :: out[k].1 == Count(starts, out[k].0.id) + 1
    requires forall i, j | 0 <= i < j < |out| :: out[i].0.id != out[j].0.id
    ensures Numbered(starts + out)
  {
    var all := starts + out;
    forall i | 0 <= i < |all| ensures all[i].1 == Count(all[..i + 1], all[i].0.id) {
      if i < |starts| {
        assert all[..i + 1] == starts[..i + 1];
      } else {
        AppendedNumber(starts, out, i - |starts|);
      }
    }
  }

  lemma PollKeepsNumbers(w: World, l: Limits, now: int)
    requires Inv(w, l) && w.captured.Some? && Numbered(w.starts)
    ensures Numbered(DoPoll(w, now).starts)
  {
    NextStarts(w.store, w.captured.value, now);
    var out := RunsNext(w.store, w.captured.value, now).1;
    forall k | 0 <= k < |out| ensures out[k].1 == Count(w.starts, out[k].0.id) + 1 {
      assert Attempts(w.store, out[k].0.id) == Count(w.starts, out[k].0.id);
    }
    AppendedNumbers(w.starts, out);
  }

  lemma {:induction false} StartsAreNumbered(l: Limits, acts: seq<Action>)
    requires History(l, acts)
    ensures Numbered(Execute(l, acts).value.starts)
  {
    if acts != [] {
      var before := acts[..|acts| - 1];
      StartsAreNumbered(l, before);
      ReachableInv(l, before);
      var a := acts[|acts| - 1];
      if a.Poll? { PollKeepsNumbers(Execute(l, before).value, l, a.now); }
    }
  }

  // ---------------------------------------------------------------- a run that only fails retriably

  predicate SparesRun(s: Store, c: CancelArgs, x: Id)
  {
    forall r | r in s.runs && r.id == x :: !Cancelable(c, r)
  }

  /** The step neither cancels the run nor ends an attempt of it other than by a retriable failure. */
  predicate OnlyRetries(w: World, a: Action, x: Id)
  {
    match a
    case Api(sa) =>
      (match sa
       case CancelRuns(c) => SparesRun(w.store, c, x)
       case DeleteAssistant(_, _, _, _, _) => SparesRun(WithoutOwnedThreads(w.store, sa), AssistantCancel(sa), x)
       case _ => true)
    case WorkerEnds(i, e, _) => i < |w.workers| && w.workers[i].run.id == x ==> e.FailsRetriably?
    case _ => true
  }

  predicate HasWorker(w: World, x: Id)
  {
    exists i | 0 <= i < |w.workers| :: !w.workers[i].ended && w.workers[i].run.id == x
  }

  ghost predicate WorkerHolds(w: World, r: Run)
  {
    forall i | ActiveWorker(w, i) && w.workers[i].run.id == r.id ::
      w.workers[i].run.thread == r.thread && w.workers[i].run.temporary == r.temporary
  }

  /** Where a run that only fails retriably can be. */
  ghost predicate Retrying(w: World, l: Limits, r: Run)
  {
    if HasWorker(w, r.id) then r.status == Running && WorkerHolds(w, r)
    else r.status == Pending || (r.status == Failed && Attempts(w.store, r.id) == l.maxRetries + 1)
  }

  ghost predicate RetryInv(w: World, l: Limits, x: Id)
  {
    CapInv(w, l) && forall r | r in w.store.runs && r.id == x :: Retrying(w, l, r)
  }

  lemma SparedRun(s: Store, c: CancelArgs, x: Id, q: Run)
    requires StoreInv(s) && SparesRun(s, c, x) && q in RunsCancel(s, c).runs && q.id == x
    ensures q in s.runs
  {
    CancelledRuns(s, c, q);
  }

  lemma ApiSpares(w: World, a: StoreAction, x: Id, q: Run)
    requires StoreInv(w.store) && StoreEnabled(w.store, a) && OnlyRetries(w, Api(a), x)
    requires q in StoreStep(w.store, a).runs && q.id == x
    ensures q in w.store.runs || (q.status == Pending && FreshRun(a) == Some(x))
  {
    var s := w.store;
    match a
    case DeleteThread(thread, allowed) => ThreadsDeleteShrinks(s, thread, allowed);
    case PutRun(p) => EnsureThreadKeeps(s, p);
    case DeleteRun(run, thread, allowed) =>
      var f := Find(Where(s.runs, OnThread(thread)), RunId, run);
      if f.Some? { WhereMembers(s.runs, NotRun(f.value), RunId); }
    case CancelRuns(c) => SparedRun(s, c, x, q);
    case DeleteAssistant(_, _, _, _, _) =>
      var s1 := WithoutOwnedThreads(s, a);
      DeleteThreadsShrinks(s, Where(s.threads, OwnedBy(a.assistant)), a.deletable);
      DeleteThreadsKeeps(s, Where(s.threads, OwnedBy(a.assistant)), a.deletable);
      if q !in s.runs { SparedRun(s1, AssistantCancel(a), x, q); }
    case _ =>
  }

  lemma ApiKeepsRetrying(w: World, l: Limits, a: StoreAction, x: Id)
    requires RetryInv(w, l, x) && StoreEnabled(w.store, a) && OnlyRetries(w, Api(a), x)
    ensures RetryInv(w.(store := StoreStep(w.store, a)), l, x)
  {
    ApiKeepsCap(w, l, a);
    StoreStepRevivesNone(w.store, a);
    var w' := w.(store := StoreStep(w.store, a));
    assert HasWorker(w', x) <==> HasWorker(w, x);
    forall q | q in w'.store.runs && q.id == x ensures Retrying(w', l, q) {
      ApiSpares(w, a, x, q);
      if q in w.store.runs {
        assert Retrying(w, l, q);
        assert WorkerHolds(w, q) ==> WorkerHolds(w', q);
      } else {
        forall i | ActiveWorker(w, i) ensures w.workers[i].run.id != x { }
      }
    }
  }

  lemma PollKeepsRetrying(w: World, l: Limits, now: int, x: Id)
    requires RetryInv(w, l, x) && w.captured.Some?
    ensures RetryInv(DoPoll(w, now), l, x)
  {
    PollKeepsCap(w, l, now);
    NextStarts(w.store, w.captured.value, now);
    var w' := DoPoll(w, now);
    forall q | q in w'.store.runs && q.id == x ensures Retrying(w', l, q) { PolledRunRetries(w, l, now, x, q); }
  }

  lemma HandedRunRetries(w: World, l: Limits, now: int, k: nat, q: Run)
    requires w.captured.Some? && Inv(DoPoll(w, now), l)
    requires k < |RunsNext(w.store, w.captured.value, now).1| && RunsNext(w.store, w.captured.value, now).1[k].0 == q
    requires q.status == Running
    ensures Retrying(DoPoll(w, now), l, q)
  {
    var w' := DoPoll(w, now);
    var out := RunsNext(w.store, w.captured.value, now).1;
    var n := |w.workers|;
    assert w'.workers[n + k] == Worker(out[k].0, out[k].1, false);
    assert ActiveWorker(w', n + k);
    assert HasWorker(w', q.id);
  }

  lemma WaitingRunRetries(w: World, l: Limits, now: int, q: Run)
    requires w.captured.Some? && Retrying(w, l, q)
    requires q.id !in HandedIds(RunsNext(w.store, w.captured.value, now).1)
    requires Attempts(DoPoll(w, now).store, q.id) == Attempts(w.store, q.id)
    ensures Retrying(DoPoll(w, now), l, q)
  {
    var w' := DoPoll(w, now);
    var out := RunsNext(w.store, w.captured.value, now).1;
    var n := |w.workers|;
    forall i | ActiveWorker(w', i) && w'.workers[i].run.id == q.id
      ensures i < n && ActiveWorker(w, i) && w'.workers[i] == w.workers[i]
    {
      PolledWorkers(w, now, i);
      assert forall k | 0 <= k < |out| :: out[k].0.id in HandedIds(out);
    }
    if HasWorker(w, q.id) {
      var i :| 0 <= i < n && !w.workers[i].ended && w.workers[i].run.id == q.id;
      assert w'.workers[i] == w.workers[i];
    }
    if HasWorker(w', q.id) {
      var i :| 0 <= i < |w'.workers| && !w'.workers[i].ended && w'.workers[i].run.id == q.id;
      assert ActiveWorker(w', i);
      assert w.workers[i] == w'.workers[i];
    }
  }

  lemma PolledRunRetries(w: World, l: Limits, now: int, x: Id, q: Run)
    requires RetryInv(w, l, x) && w.captured.Some? && CapInv(DoPoll(w, now), l)
    requires Started(w.store, RunsNext(w.store, w.captured.value, now).0, RunsNext(w.store, w.captured.value, now).1)
    requires q in DoPoll(w, now).store.runs && q.id == x
    ensures Retrying(DoPoll(w, now), l, q)
  {
    var (s', out) := RunsNext(w.store, w.captured.value, now);
    HandedCounts(w.store, s', out, x);
    if x in HandedIds(out) {
      var k :| 0 <= k < |out| && out[k].0 == q;
      HandedRunRetries(w, l, now, k, q);
    } else {
      WaitingRunRetries(w, l, now, q);
    }
  }

  /** The end of an attempt of the run itself. */
  lemma OwnEndRetries(w: World, l: Limits, i: nat, hasNext: bool, x: Id, q: Run)
    requires RetryInv(w, l, x) && Enabled(w, WorkerEnds(i, FailsRetriably, hasNext)) && w.workers[i].run.id == x
    requires q in EndWorker(w, l, i, FailsRetriably, hasNext).store.runs && q.id == x
    ensures if w.workers[i].attempt <= l.maxRetries then q.status == Pending else q.status == Failed && !q.temporary
  {
    var s, run := w.store, w.workers[i].run;
    assert ActiveWorker(w, i) && HasWorker(w, x);
    if w.workers[i].attempt <= l.maxRetries {
      FindMember(s.runs, RunId, x);
      var f := Find(s.runs, RunId, x);
      if f.Some? { ReplaceMembers(s.runs, RunId, x, f.value.(status := Pending)); }
    } else if run.temporary {
      FindMember(s.threads, ThreadId, run.thread);
      WhereMember(s.runs, OffThread(run.thread), q);
    } else {
      LastEndFails(w, l, i, hasNext, x, q);
    }
  }

  lemma JointKeepsIds(s: Store, run: Run, v: Verdict, hasNext: bool, error: bool, q: Run) returns (r: Run)
    requires StoreInv(s) && q in OrSame(SetJointStatus(s, run.thread, run.id, v, hasNext, error), s).runs && v.Final?
    ensures r in s.runs && r.id == q.id
  {
    r := q;
    FoundRun(s, run.thread, run.id);
    var f := Find(Where(s.runs, OnThread(run.thread)), RunId, run.id);
    if f.Some? {
      ReplaceMembers(s.runs, RunId, run.id, f.value.(status := v.status));
      if q !in s.runs { r := f.value; }
    }
  }

  lemma LastEndFails(w: World, l: Limits, i: nat, hasNext: bool, x: Id, q: Run)
    requires RetryInv(w, l, x) && Enabled(w, WorkerEnds(i, FailsRetriably, hasNext)) && w.workers[i].run.id == x
    requires w.workers[i].attempt > l.maxRetries && !w.workers[i].run.temporary
    requires q in RecordOutcome(w.store, w.workers[i].run, Fails, hasNext).runs && q.id == x
    ensures q.status == Failed && !q.temporary
  {
    var s, run := w.store, w.workers[i].run;
    assert ActiveWorker(w, i) && HasWorker(w, x);
    var r := JointKeepsIds(s, run, Final(Failed), hasNext, true, q);
    assert Retrying(w, l, r);
    FoundRun(s, run.thread, x);
    assert r.thread in Threads(s);
    FindMember(s.threads, ThreadId, run.thread);
    ReplaceMembers(s.runs, RunId, x, r.(status := Failed));
  }

  lemma EndKeepsRetrying(w: World, l: Limits, i: nat, e: Execution, hasNext: bool, x: Id)
    requires RetryInv(w, l, x) && Enabled(w, WorkerEnds(i, e, hasNext)) && OnlyRetries(w, WorkerEnds(i, e, hasNext), x)
    ensures RetryInv(EndWorker(w, l, i, e, hasNext), l, x)
  {
    EndKeepsCap(w, l, i, e, hasNext);
    var w' := EndWorker(w, l, i, e, hasNext);
    assert ActiveWorker(w, i);
    assert forall j :: ActiveWorker(w', j) <==> ActiveWorker(w, j) && j != i;
    OutcomeIsLocal(w.store, w.workers[i].run, Classify(w.workers[i].attempt, l.maxRetries, e), hasNext);
    OutcomeRevives(w.store, w.workers[i].run, Classify(w.workers[i].attempt, l.maxRetries, e), hasNext);
    forall q | q in w'.store.runs && q.id == x ensures Retrying(w', l, q) {
      if w.workers[i].run.id == x {
        OwnEndRetries(w, l, i, hasNext, x, q);
        assert !HasWorker(w', x);
      } else {
        assert Retrying(w, l, q);
        OtherEndKeepsWorker(w, l, i, e, hasNext, x);
      }
    }
  }

  lemma OtherEndKeepsWorker(w: World, l: Limits, i: nat, e: Execution, hasNext: bool, x: Id)
    requires Enabled(w, WorkerEnds(i, e, hasNext)) && w.workers[i].run.id != x
    ensures HasWorker(EndWorker(w, l, i, e, hasNext), x) <==> HasWorker(w, x)
  {
    var w' := EndWorker(w, l, i, e, hasNext);
    if HasWorker(w, x) {
      var j :| 0 <= j < |w.workers| && !w.workers[j].ended && w.workers[j].run.id == x;
      assert w'.workers[j] == w.workers[j];
    }
    if HasWorker(w', x) {
      var j :| 0 <= j < |w'.workers| && !w'.workers[j].ended && w'.workers[j].run.id == x;
      assert w'.workers[j] == w.workers[j];
    }
  }

  lemma CleanupKeepsRetrying(w: World, l: Limits, i: nat, x: Id)
    requires RetryInv(w, l, x) && Enabled(w, Cleanup(i))
    ensures RetryInv(Apply(w, l, Cleanup(i)), l, x)
  {
    CapKept(w, l, Cleanup(i));
    var w' := Apply(w, l, Cleanup(i));
    forall j | ActiveWorker(w', j)
      ensures ActiveWorker(w, if j < i then j else j + 1) && w'.workers[j] == w.workers[if j < i then j else j + 1]
    {
    }
    assert HasWorker(w', x) <==> HasWorker(w, x) by {
      if HasWorker(w, x) {
        var j :| 0 <= j < |w.workers| && !w.workers[j].ended && w.workers[j].run.id == x;
        assert w'.workers[if j < i then j else j - 1] == w.workers[j];
      }
    }
    forall q | q in w'.store.runs && q.id == x ensures Retrying(w', l, q) { assert Retrying(w, l, q); }
  }

  lemma StepKeepsRetrying(w: World, l: Limits, a: Action, x: Id)
    requires RetryInv(w, l, x) && Enabled(w, a) && OnlyRetries(w, a, x)
    ensures RetryInv(Apply(w, l, a), l, x)
  {
    match a
    case Api(sa) => ApiKeepsRetrying(w, l, sa, x);
    case Capture =>
      CapKept(w, l, a);
      var w' := w.(captured := Some(w.free));
      assert HasWorker(w', x) <==> HasWorker(w, x);
      forall q | q in w'.store.runs && q.id == x ensures Retrying(w', l, q) { assert Retrying(w, l, q); }
    case Poll(now) => PollKeepsRetrying(w, l, now, x);
    case WorkerEnds(i, e, hasNext) => EndKeepsRetrying(w, l, i, e, hasNext, x);
    case Cleanup(i) => CleanupKeepsRetrying(w, l, i, x);
  }

  ghost predicate RetryHistory(l: Limits, acts: seq<Action>, x: Id)
  {
    && History(l, acts)
    && (acts != [] ==>
          && RetryHistory(l, acts[..|acts| - 1], x)
          && OnlyRetries(Execute(l, acts[..|acts| - 1]).value, acts[|acts| - 1], x))
  }

  lemma {:induction false} RetryHistoryInv(l: Limits, acts: seq<Action>, x: Id)
    requires RetryHistory(l, acts, x)
    ensures RetryInv(Execute(l, acts).value, l, x)
  {
    if acts == [] {
      ReachableCap(l, acts);
    } else {
      RetryHistoryInv(l, acts[..|acts| - 1], x);
      StepKeepsRetrying(Execute(l, acts[..|acts| - 1]).value, l, acts[|acts| - 1], x);
    }
  }

  /** The last attempt of such a run ends it: error, or its temporary thread is deleted with it. */
  lemma LastAttemptEnds(l: Limits, acts: seq<Action>, i: nat, hasNext: bool)
    requires History(l, acts)
    requires Enabled(Execute(l, acts).value, WorkerEnds(i, FailsRetriably, hasNext))
    requires RetryHistory(l, acts, Execute(l, acts).value.workers[i].run.id)
    requires Count(Execute(l, acts).value.starts, Execute(l, acts).value.workers[i].run.id) == l.maxRetries + 1
    ensures var w := Execute(l, acts).value;
            var s' := EndWorker(w, l, i, FailsRetriably, hasNext).store;
            var run := w.workers[i].run;
            && (forall q | q in s'.runs && q.id == run.id :: q.status == Failed && !q.temporary)
            && (run.temporary ==> run.thread !in Threads(s'))
  {
    var w := Execute(l, acts).value;
    var run := w.workers[i].run;
    RetryHistoryInv(l, acts, run.id);
    assert ActiveWorker(w, i);
    assert Attempts(w.store, run.id) == Count(w.starts, run.id);
    var s' := EndWorker(w, l, i, FailsRetriably, hasNext).store;
    forall q | q in s'.runs && q.id == run.id ensures q.status == Failed && !q.temporary {
      OwnEndRetries(w, l, i, hasNext, run.id, q);
    }
    if run.temporary { FailedTemporaryIsGone(w.store, run, hasNext); }
  }

  lemma FailedTemporaryIsGone(s: Store, run: Run, hasNext: bool)
    requires StoreInv(s) && run.temporary
    ensures run.thread !in Threads(RecordOutcome(s, run, Fails, hasNext))
  {
    WhereMembers(s.threads, NotThread(run.thread), ThreadId);
    FindMember(s.threads, ThreadId, run.thread);
    var kept := Where(s.threads, NotThread(run.thread));
    forall t | t in kept ensures t.id != run.thread { assert NotThread(run.thread)(t); }
  }

  // ---------------------------------------------------------------- progress

  /** Attempts left, counting a start and its end as two steps. */
  function Measure(w: World, l: Limits, x: Id): int
  {
    2 * (l.maxRetries + 1 - Count(w.starts, x)) + (if HasWorker(w, x) then 1 else 0)
  }

  /** The step starts the run or ends its task. */
  predicate Advances(w: World, a: Action, x: Id)
  {
    match a
    case Poll(now) => w.captured.Some? && x in HandedIds(RunsNext(w.store, w.captured.value, now).1)
    case WorkerEnds(i, _, _) => i < |w.workers| && w.workers[i].run.id == x
    case _ => false
  }

  /** A poll ends no task, and it starts no run that has one. */
  lemma PollKeepsTasks(w: World, now: int, x: Id)
    requires w.captured.Some? && WorkersOk(w) && HasWorker(w, x)
    requires Started(w.store, RunsNext(w.store, w.captured.value, now).0, RunsNext(w.store, w.captured.value, now).1)
    ensures HasWorker(DoPoll(w, now), x) && x !in HandedIds(RunsNext(w.store, w.captured.value, now).1)
  {
    var i :| 0 <= i < |w.workers| && !w.workers[i].ended && w.workers[i].run.id == x;
    assert ActiveWorker(w, i) && DoPoll(w, now).workers[i] == w.workers[i];
    var out := RunsNext(w.store, w.captured.value, now).1;
    forall k | 0 <= k < |out| ensures out[k].0.id != x { HandedHasNoWorker(w, now, k, i); }
  }

  /** A run without a task has one after the poll exactly when it was handed out. */
  lemma PollAddsTask(w: World, now: int, x: Id)
    requires w.captured.Some? && !HasWorker(w, x)
    ensures HasWorker(DoPoll(w, now), x) <==> x in HandedIds(RunsNext(w.store, w.captured.value, now).1)
  {
    var out, w', n := RunsNext(w.store, w.captured.value, now).1, DoPoll(w, now), |w.workers|;
    if HasWorker(w', x) {
      var i :| 0 <= i < |w'.workers| && !w'.workers[i].ended && w'.workers[i].run.id == x;
      assert ActiveWorker(w', i);
      PolledWorkers(w, now, i);
      assert n <= i && out[i - n].0.id == x;
    }
    if x in HandedIds(out) {
      var k :| 0 <= k < |out| && out[k].0.id == x;
      assert w'.workers[n + k].run == out[k].0 && !w'.workers[n + k].ended;
    }
  }

  lemma PollMeasure(w: World, l: Limits, now: int, x: Id)
    requires CapInv(w, l) && w.captured.Some?
    ensures Measure(DoPoll(w, now), l, x) == Measure(w, l, x) - (if Advances(w, Poll(now), x) then 1 else 0)
  {
    NextStarts(w.store, w.captured.value, now);
    PollCounts(w, now, x);
    if HasWorker(w, x) { PollKeepsTasks(w, now, x); } else { PollAddsTask(w, now, x); }
  }

  lemma PollCounts(w: World, now: int, x: Id)
    requires w.captured.Some?
    requires Started(w.store, RunsNext(w.store, w.captured.value, now).0, RunsNext(w.store, w.captured.value, now).1)
    ensures var out := RunsNext(w.store, w.captured.value, now).1;
            Count(DoPoll(w, now).starts, x) == Count(w.starts, x) + (if x in HandedIds(out) then 1 else 0)
  {
    var out := RunsNext(w.store, w.captured.value, now).1;
    CountAppend(w.starts, out, x);
    CountDistinct(out, x);
  }

  lemma EndMeasure(w: World, l: Limits, i: nat, e: Execution, hasNext: bool, x: Id)
    requires CapInv(w, l) && Enabled(w, WorkerEnds(i, e, hasNext))
    ensures Measure(EndWorker(w, l, i, e, hasNext), l, x) ==
            Measure(w, l, x) - (if Advances(w, WorkerEnds(i, e, hasNext), x) then 1 else 0)
  {
    var w' := EndWorker(w, l, i, e, hasNext);
    assert ActiveWorker(w, i);
    if w.workers[i].run.id == x {
      assert HasWorker(w, x);
      assert forall j | ActiveWorker(w, j) && w.workers[j].run.id == x :: j == i;
      assert forall j | 0 <= j < |w'.workers| && !w'.workers[j].ended :: ActiveWorker(w, j) && j != i;
      assert !HasWorker(w', x);
    } else {
      OtherEndKeepsWorker(w, l, i, e, hasNext, x);
    }
  }

  lemma CleanupMeasure(w: World, l: Limits, i: nat, x: Id)
    requires Enabled(w, Cleanup(i))
    ensures Measure(Apply(w, l, Cleanup(i)), l, x) == Measure(w, l, x)
  {
    var w' := Apply(w, l, Cleanup(i));
    if HasWorker(w', x) {
      var j :| 0 <= j < |w'.workers| && !w'.workers[j].ended && w'.workers[j].run.id == x;
      assert w.workers[if j < i then j else j + 1] == w'.workers[j];
    }
    if HasWorker(w, x) {
      var j :| 0 <= j < |w.workers| && !w.workers[j].ended && w.workers[j].run.id == x;
      assert w'.workers[if j < i then j else j - 1] == w.workers[j];
    }
  }

  lemma StepMeasure(w: World, l: Limits, a: Action, x: Id)
    requires CapInv(w, l) && Enabled(w, a)
    ensures Measure(Apply(w, l, a), l, x) == Measure(w, l, x) - (if Advances(w, a, x) then 1 else 0)
  {
    match a
    case Poll(now) => PollMeasure(w, l, now, x);
    case WorkerEnds(i, e, hasNext) => EndMeasure(w, l, i, e, hasNext, x);
    case Cleanup(i) => CleanupMeasure(w, l, i, x);
    case _ => assert Apply(w, l, a).workers == w.workers;
  }

  /** How often a history starts the run or ends its task. */
  function AdvancesIn(l: Limits, acts: seq<Action>, x: Id): nat
  {
    if acts == [] then 0
    else
      var before := acts[..|acts| - 1];
      var w := Execute(l, before);
      AdvancesIn(l, before, x) + (if w.Some? && Advances(w.value, acts[|acts| - 1], x) then 1 else 0)
  }

  /** Each start and each end of an attempt uses one up, nothing else does, and nothing gives one back. */
  lemma {:induction false} AttemptsRunOut(l: Limits, acts: seq<Action>, x: Id)
    requires History(l, acts)
    ensures 0 <= Measure(Execute(l, acts).value, l, x)
    ensures AdvancesIn(l, acts, x) + Measure(Execute(l, acts).value, l, x) == 2 * (l.maxRetries + 1)
  {
    ReachableCap(l, acts);
    var w := Execute(l, acts).value;
    assert Attempts(w.store, x) == Count(w.starts, x);
    if acts != [] {
      var before := acts[..|acts| - 1];
      AttemptsRunOut(l, before, x);
      ReachableCap(l, before);
      StepMeasure(Execute(l, before).value, l, acts[|acts| - 1], x);
    }
  }

  /**
    A run whose every attempt fails retriably has left the queue exactly when it was started
    and ended `maxRetries + 1` times, which is as often as can be; then it is an error.
   */
  lemma RetriesEndAsError(l: Limits, acts: seq<Action>, r: Run)
    requires RetryHistory(l, acts, r.id) && r in Execute(l, acts).value.store.runs
    ensures AdvancesIn(l, acts, r.id) <= 2 * (l.maxRetries + 1)
    ensures !IsActive(r) <==> AdvancesIn(l, acts, r.id) == 2 * (l.maxRetries + 1)
    ensures !IsActive(r) <==> r.status == Failed && Count(Execute(l, acts).value.starts, r.id) == l.maxRetries + 1
  {
    RetryHistoryInv(l, acts, r.id);
    AttemptsRunOut(l, acts, r.id);
    var w := Execute(l, acts).value;
    assert Retrying(w, l, r);
    assert Attempts(w.store, r.id) == Count(w.starts, r.id);
  }

  /** A run that only fails retriably is never stuck: its task can end, or the next poll that reaches it starts it. */
  lemma RetriesNeverStuck(l: Limits, acts: seq<Action>, r: Run, now: int, i: nat)
    requires RetryHistory(l, acts, r.id) && r in Execute(l, acts).value.store.runs && IsActive(r)
    requires var w := Execute(l, acts).value;
             r.status == Pending ==>
               && w.captured.Some? && !HasRunning(w.store.runs, r.thread)
               && i < w.captured.value && i < |Candidates(w.store, now)| && Candidates(w.store, now)[i] == r
               && forall j | 0 <= j < i :: Candidates(w.store, now)[j].thread != r.thread
    ensures var w := Execute(l, acts).value;
            if r.status == Running then HasWorker(w, r.id) else Advances(w, Poll(now), r.id)
  {
    RetryHistoryInv(l, acts, r.id);
    var w := Execute(l, acts).value;
    assert Retrying(w, l, r);
    if r.status == Pending {
      NextStartsHead(w.store, w.captured.value, now, i);
      var out := RunsNext(w.store, w.captured.value, now).1;
      var k :| 0 <= k < |out| && out[k].0 == r.(status := Running);
      assert out[k].0.id in HandedIds(out);
    }
  }
}
