/**
  What `Runs.cancel` and `Runs.delete` leave behind, and when a thread's status still
  tells whether the thread has work.
 */
module RunsCancelTheorems {
  import opened Wrappers
  import opened KeyedLists
  import opened RunStore
  import opened RunStoreInvariant

  /** `q` is one of the runs, interrupted. */
  predicate Cut(c: CancelArgs, runs: seq<Run>, q: Run)
  {
    exists r | r in runs :: !Eager(c, r) && q == r.(status := RunStatus.Interrupted)
  }

  /** The loop sets the thread idle. */
  predicate Idled(c: CancelArgs, runs: seq<Run>, thread: Id)
  {
    exists r | r in runs :: !Eager(c, r) && r.status == Pending && r.thread == thread
  }

  ghost predicate LoopsOver(s: Store, runs: seq<Run>)
  {
    StoreInv(s) && Unique(runs, RunId) && forall r | r in runs :: r in s.runs
  }

  lemma LoopStep(s: Store, runs: seq<Run>)
    requires LoopsOver(s, runs) && runs != []
    ensures LoopsOver(s, runs[1..]) && LoopsOver(Interrupt(s, runs[0]), runs[1..])
  {
    UniqueTail(runs, RunId);
    InterruptKeeps(s, runs[0]);
    InterruptRuns(s, runs[0]);
  }

  lemma {:induction false} InterruptAllRuns(s: Store, c: CancelArgs, runs: seq<Run>, q: Run)
    requires LoopsOver(s, runs)
    ensures q in InterruptAll(s, c, runs).runs <==> (q in s.runs && (q !in runs || Eager(c, q))) || Cut(c, runs, q)
    decreases |runs|
  {
    if runs != [] {
      LoopStep(s, runs);
      UniqueTail(runs, RunId);
      var r, rest := runs[0], runs[1..];
      assert forall x :: x in runs <==> x == r || x in rest;
      if Eager(c, r) {
        InterruptAllRuns(s, c, rest, q);
        assert Cut(c, runs, q) <==> Cut(c, rest, q);
      } else {
        InterruptAllRuns(Interrupt(s, r), c, rest, q);
        InterruptRuns(s, r);
        assert Cut(c, runs, q) <==> Cut(c, rest, q) || q == r.(status := RunStatus.Interrupted);
      }
    }
  }

  lemma {:induction false} DeleteEachRuns(runs: seq<Run>, c: CancelArgs, victims: seq<Run>, q: Run)
    ensures q in DeleteEach(runs, c, victims) <==> q in runs && forall v | v in victims && Eager(c, v) :: v.id != q.id
    decreases |victims|
  {
    if victims != [] {
      var v, rest := victims[0], victims[1..];
      var kept := if Eager(c, v) then Where(runs, NotRun(v)) else runs;
      DeleteEachRuns(kept, c, rest, q);
      WhereMember(runs, NotRun(v), q);
      assert forall x :: x in victims <==> x == v || x in rest;
    }
  }

  /** The runs after a cancel: those not cancelable, and the cancelable ones interrupted unless deleted. */
  lemma CancelledRuns(s: Store, c: CancelArgs, q: Run)
    requires StoreInv(s)
    ensures q in RunsCancel(s, c).runs <==>
              || (q in s.runs && !Cancelable(c, q))
              || (exists r | r in s.runs :: Cancelable(c, r) && !Eager(c, r) && q == r.(status := RunStatus.Interrupted))
  {
    var victims := Where(s.runs, CancelableBy(c));
    WhereMembers(s.runs, CancelableBy(c), RunId);
    InterruptAllRuns(s, c, victims, q);
    DeleteEachRuns(InterruptAll(s, c, victims).runs, c, victims, q);
    if q in s.runs && !Cancelable(c, q) {
      forall v | v in victims && Eager(c, v) ensures v.id != q.id {
        if v.id == q.id { UniqueMember(s.runs, RunId, v, q); }
      }
    }
    if Cut(c, victims, q) {
      var r :| r in victims && !Eager(c, r) && q == r.(status := RunStatus.Interrupted);
      forall v | v in victims && Eager(c, v) ensures v.id != q.id {
        if v.id == q.id { UniqueMember(s.runs, RunId, v, r); }
      }
    }
  }

  /**
    From `s` to `s'` exactly the runs that are `hit` were interrupted, or removed if the
    caller asked for a rollback and nobody subscribes; every other run stays as it was.
   */
  ghost predicate CutsExactly(s: Store, s': Store, hit: Run -> bool, rollback: bool, subscribed: set<Id>)
  {
    && (forall q :: q in s'.runs <==>
          || (q in s.runs && !hit(q))
          || (exists r | r in s.runs :: hit(r) && !(rollback && r.id !in subscribed) && q == r.(status := RunStatus.Interrupted)))
    && Unique(s'.runs, RunId)
  }

  lemma CutsCancelable(s: Store, c: CancelArgs, hit: Run -> bool)
    requires StoreInv(s) && forall r: Run :: hit(r) <==> Cancelable(c, r)
    ensures CutsExactly(s, RunsCancel(s, c), hit, c.rollback, c.subscribed)
  {
    forall q ensures q in RunsCancel(s, c).runs <==>
                     || (q in s.runs && !hit(q))
                     || (exists r | r in s.runs :: hit(r) && !(c.rollback && r.id !in c.subscribed)
                                                   && q == r.(status := RunStatus.Interrupted)) {
      CancelledRuns(s, c, q);
    }
    RunsCancelKeeps(s, c);
  }

  /** A bulk cancel hits the pending runs if those are asked for, and the running ones if those are. */
  lemma CancelByStatus(s: Store, pending: bool, running: bool, rollback: bool, permitted: set<Id>, subscribed: set<Id>)
    requires StoreInv(s)
    ensures CutsExactly(s, RunsCancel(s, CancelArgs(WithStatus(pending, running), rollback, permitted, subscribed)),
                        (r: Run) => r.thread in permitted
                                    && ((pending && r.status == Pending) || (running && r.status == Running)),
                        rollback, subscribed)
  {
    CutsCancelable(s, CancelArgs(WithStatus(pending, running), rollback, permitted, subscribed),
                   (r: Run) => r.thread in permitted
                               && ((pending && r.status == Pending) || (running && r.status == Running)));
  }

  /** A cancel by ids hits the active runs of the thread with those ids. */
  lemma CancelNamed(s: Store, thread: Id, runs: set<Id>, rollback: bool, permitted: set<Id>, subscribed: set<Id>)
    requires StoreInv(s)
    ensures CutsExactly(s, RunsCancel(s, CancelArgs(Named(thread, runs), rollback, permitted, subscribed)),
                        (r: Run) => r.thread == thread && r.thread in permitted && r.id in runs
                                    && (r.status == Pending || r.status == Running),
                        rollback, subscribed)
  {
    CutsCancelable(s, CancelArgs(Named(thread, runs), rollback, permitted, subscribed),
                   (r: Run) => r.thread == thread && r.thread in permitted && r.id in runs
                               && (r.status == Pending || r.status == Running));
  }

  /** The cancel within an assistant's deletion hits that assistant's active runs. */
  lemma CancelOfAssistant(s: Store, assistant: Id, rollback: bool, permitted: set<Id>, subscribed: set<Id>)
    requires StoreInv(s)
    ensures CutsExactly(s, RunsCancel(s, CancelArgs(OfAssistant(assistant), rollback, permitted, subscribed)),
                        (r: Run) => r.assistant == assistant && r.thread in permitted
                                    && (r.status == Pending || r.status == Running),
                        rollback, subscribed)
  {
    CutsCancelable(s, CancelArgs(OfAssistant(assistant), rollback, permitted, subscribed),
                   (r: Run) => r.assistant == assistant && r.thread in permitted
                               && (r.status == Pending || r.status == Running));
  }

  lemma InterruptThreads(s: Store, r: Run, i: nat)
    requires Unique(s.threads, ThreadId) && i < |s.threads|
    ensures |Interrupt(s, r).threads| == |s.threads|
    ensures var t := s.threads[i];
            Interrupt(s, r).threads[i] == if r.status == Pending && r.thread == t.id then t.(status := Idle) else t
  {
    var t := s.threads[i];
    var found := Find(s.threads, ThreadId, r.thread);
    if r.thread == t.id { FindUnique(s.threads, ThreadId, t); }
    FindMember(s.threads, ThreadId, r.thread);
    if found.Some? { ReplaceShape(s.threads, ThreadId, r.thread, found.value.(status := Idle)); }
  }

  lemma {:induction false} InterruptAllThreads(s: Store, c: CancelArgs, runs: seq<Run>, i: nat)
    requires LoopsOver(s, runs) && i < |s.threads|
    ensures |InterruptAll(s, c, runs).threads| == |s.threads|
    ensures var t := s.threads[i];
            InterruptAll(s, c, runs).threads[i] == if Idled(c, runs, t.id) then t.(status := Idle) else t
    decreases |runs|
  {
    if runs != [] {
      LoopStep(s, runs);
      InterruptThreads(s, runs[0], i);
      InterruptAllThreads(if Eager(c, runs[0]) then s else Interrupt(s, runs[0]), c, runs[1..], i);
      assert forall x :: x in runs <==> x == runs[0] || x in runs[1..];
    }
  }

  /** Some cancelable run of the thread is pending and stays, interrupted. */
  predicate IdledByCancel(s: Store, c: CancelArgs, thread: Id)
  {
    exists r | r in s.runs :: Cancelable(c, r) && !Eager(c, r) && r.status == Pending && r.thread == thread
  }

  /** The threads after a cancel. */
  lemma CancelledThreads(s: Store, c: CancelArgs, i: nat)
    requires StoreInv(s) && i < |s.threads|
    ensures |RunsCancel(s, c).threads| == |s.threads|
    ensures var t := s.threads[i];
            RunsCancel(s, c).threads[i] == if IdledByCancel(s, c, t.id) then t.(status := Idle) else t
  {
    var victims := Where(s.runs, CancelableBy(c));
    WhereMembers(s.runs, CancelableBy(c), RunId);
    InterruptAllThreads(s, c, victims, i);
    var t := s.threads[i];
    assert Idled(c, victims, t.id) <==> IdledByCancel(s, c, t.id);
  }

  // ---------------------------------------------------------------- busy threads

  /** A thread is busy exactly when it has a pending or running run. */
  ghost predicate BusyIff(s: Store)
  {
    forall t | t in s.threads :: t.status == Busy <==> HasActive(s.runs, t.id)
  }

  predicate HasVictim(s: Store, c: CancelArgs, thread: Id)
  {
    exists r | r in s.runs :: Cancelable(c, r) && r.thread == thread
  }

  predicate KeepsActive(s: Store, c: CancelArgs, thread: Id)
  {
    exists r | r in s.runs :: IsActive(r) && r.thread == thread && !Cancelable(c, r)
  }

  /** On each thread it touches, a cancel resets the thread just when it leaves no work there. */
  ghost predicate CancelHarmless(s: Store, c: CancelArgs)
  {
    forall t | t in s.threads && HasVictim(s, c, t.id) :: IdledByCancel(s, c, t.id) <==> !KeepsActive(s, c, t.id)
  }

  lemma ActiveAfterCancel(s: Store, c: CancelArgs, thread: Id)
    requires StoreInv(s)
    ensures HasActive(RunsCancel(s, c).runs, thread) <==> KeepsActive(s, c, thread)
  {
    if HasActive(RunsCancel(s, c).runs, thread) {
      var q :| q in RunsCancel(s, c).runs && q.thread == thread && IsActive(q);
      CancelledRuns(s, c, q);
    }
    if KeepsActive(s, c, thread) {
      var r :| r in s.runs && IsActive(r) && r.thread == thread && !Cancelable(c, r);
      CancelledRuns(s, c, r);
    }
  }

  lemma OneThreadAfterCancel(s: Store, c: CancelArgs, i: nat)
    requires StoreInv(s) && BusyIff(s) && i < |s.threads|
    ensures |RunsCancel(s, c).threads| == |s.threads|
    ensures var t, t' := s.threads[i], RunsCancel(s, c).threads[i];
            && t'.id == t.id
            && ((t'.status == Busy <==> HasActive(RunsCancel(s, c).runs, t.id)) <==>
                (HasVictim(s, c, t.id) ==> (IdledByCancel(s, c, t.id) <==> !KeepsActive(s, c, t.id))))
  {
    CancelledThreads(s, c, i);
    ActiveAfterCancel(s, c, s.threads[i].id);
    var t := s.threads[i];
    assert t in s.threads;
    assert HasVictim(s, c, t.id) ==> HasActive(s.runs, t.id);
    assert !HasVictim(s, c, t.id) ==> (HasActive(s.runs, t.id) <==> KeepsActive(s, c, t.id));
  }

  /** A cancel keeps thread statuses truthful if and only if it is harmless. */
  lemma CancelKeepsBusyIff(s: Store, c: CancelArgs)
    requires StoreInv(s) && BusyIff(s)
    ensures BusyIff(RunsCancel(s, c)) <==> CancelHarmless(s, c)
  {
    var s' := RunsCancel(s, c);
    if CancelHarmless(s, c) {
      forall t' | t' in s'.threads ensures t'.status == Busy <==> HasActive(s'.runs, t'.id) {
        CancelledThreadCount(s, c);
        var i :| 0 <= i < |s'.threads| && s'.threads[i] == t';
        OneThreadAfterCancel(s, c, i);
        assert s.threads[i] in s.threads;
      }
    }
    if BusyIff(s') {
      forall t | t in s.threads && HasVictim(s, c, t.id) ensures IdledByCancel(s, c, t.id) <==> !KeepsActive(s, c, t.id) {
        var i :| 0 <= i < |s.threads| && s.threads[i] == t;
        OneThreadAfterCancel(s, c, i);
        assert s'.threads[i] in s'.threads;
      }
    }
  }

  lemma CancelledThreadCount(s: Store, c: CancelArgs)
    requires StoreInv(s)
    ensures |RunsCancel(s, c).threads| == |s.threads|
  {
    var victims := Where(s.runs, CancelableBy(c));
    WhereMembers(s.runs, CancelableBy(c), RunId);
    InterruptAllThreadCount(s, c, victims);
  }

  lemma {:induction false} InterruptAllThreadCount(s: Store, c: CancelArgs, runs: seq<Run>)
    requires LoopsOver(s, runs)
    ensures |InterruptAll(s, c, runs).threads| == |s.threads|
    decreases |runs|
  {
    if runs != [] {
      LoopStep(s, runs);
      var t := Find(s.threads, ThreadId, runs[0].thread);
      if t.Some? { ReplaceShape(s.threads, ThreadId, t.value.id, t.value.(status := Idle)); }
      InterruptAllThreadCount(if Eager(c, runs[0]) then s else Interrupt(s, runs[0]), c, runs[1..]);
    }
  }

  /** Cancelling one of two runs of a thread leaves the thread idle with work on it. */
  lemma CancelCanIdleABusyThread(assistant: Id)
    ensures var running := Run(1, 7, assistant, Running, 0, false);
            var pending := Run(2, 7, assistant, Pending, 1, false);
            var s := EmptyStore.(runs := [running, pending], threads := [Thread(7, Busy, None)]);
            var c := CancelArgs(Named(7, {2}), false, {7}, {});
            StoreInv(s) && BusyIff(s) && !BusyIff(RunsCancel(s, c))
  {
    var running := Run(1, 7, assistant, Running, 0, false);
    var pending := Run(2, 7, assistant, Pending, 1, false);
    var s := EmptyStore.(runs := [running, pending], threads := [Thread(7, Busy, None)]);
    var c := CancelArgs(Named(7, {2}), false, {7}, {});
    assert s.threads[0] in s.threads && s.runs[0] in s.runs && s.runs[1] in s.runs;
    assert s.threads[0].id in Threads(s);
    assert HasActive(s.runs, 7);
    CancelKeepsBusyIff(s, c);
    assert HasVictim(s, c, 7) && IdledByCancel(s, c, 7) && KeepsActive(s, c, 7);
  }

  /** A direct delete leaves the statuses truthful unless it removes a thread's only active run. */
  predicate DeleteHarmless(s: Store, run: Id, thread: Id, allowed: bool)
  {
    allowed ==>
      forall r | r in s.runs && r.id == run && r.thread == thread && IsActive(r) ::
        exists q | q in s.runs :: q.id != run && q.thread == thread && IsActive(q)
  }

  lemma DeleteKeepsBusyIff(s: Store, run: Id, thread: Id, allowed: bool)
    requires StoreInv(s) && BusyIff(s) && RunsDelete(s, run, thread, allowed).Ok?
    ensures BusyIff(RunsDelete(s, run, thread, allowed).value) <==> DeleteHarmless(s, run, thread, allowed)
  {
    if allowed {
      FoundRun(s, thread, run);
      var r := Find(Where(s.runs, OnThread(thread)), RunId, run).value;
      var s' := RunsDelete(s, run, thread, allowed).value;
      WhereMembers(s.runs, NotRun(r), RunId);
      assert forall q :: q in s'.runs <==> q in s.runs && q.id != run;
      RunsElsewhere(s, s', r);
      var t :| t in s.threads && t.id == thread;
      assert IsActive(r) ==> HasActive(s.runs, thread);
      if BusyIff(s') && IsActive(r) {
        assert HasActive(s'.runs, thread);
      }
      if DeleteHarmless(s, run, thread, allowed) {
        forall k ensures HasActive(s'.runs, k) <==> HasActive(s.runs, k) {
          if k == thread && HasActive(s.runs, k) {
            var q :| q in s.runs && q.thread == k && IsActive(q);
            if q.id == run { assert q == r; }
          }
        }
      }
    }
  }

  lemma RunsElsewhere(s: Store, s': Store, r: Run)
    requires Unique(s.runs, RunId) && r in s.runs && forall q :: q in s'.runs <==> q in s.runs && q.id != r.id
    ensures forall k | k != r.thread :: HasActive(s'.runs, k) <==> HasActive(s.runs, k)
  {
    forall k | k != r.thread && HasActive(s.runs, k) ensures HasActive(s'.runs, k) {
      var q :| q in s.runs && q.thread == k && IsActive(q);
      if q.id == r.id { UniqueMember(s.runs, RunId, q, r); }
    }
  }
}
