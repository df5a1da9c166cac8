/**
  Histories of the scheduler that end with a thread status that does not tell the thread's
  work: a cancel that idles a thread with a run left, and a delete that leaves a thread busy
  without one.
 */
module ThreadStatusWitnesses {
  import opened Wrappers
  import opened KeyedLists
  import opened RunStore
  import opened RunStoreInvariant
  import opened RunsCancelTheorems
  import opened Scheduler
  import opened SchedulerTheorems

  lemma OneMore(l: Limits, acts: seq<Action>, w: World, a: Action)
    requires Execute(l, acts) == Some(w) && Enabled(w, a)
    ensures Execute(l, acts + [a]) == Some(Apply(w, l, a))
  {
    assert (acts + [a])[..|acts + [a]| - 1] == acts;
  }

  const SETTINGS := Settings("graph", NoConfig, [], map[], [], None)

  /** Run `run` of assistant 1, on thread 7 from the second put on. */
  function Put(run: Id, thread: Option<Id>): PutArgs
  {
    PutArgs(run, 1, thread, if thread.None? then 7 else 8, false, false, 0, false, None, true, true)
  }

  const OneRun: seq<Action> := [Api(PutAssistant(1, SETTINGS, false, true)), Api(PutRun(Put(1, None)))]

  function StoreOf(runs: seq<Run>): Store
  {
    Store(runs, [Thread(7, Busy, None)], [], [Assistant(1, 1, SETTINGS)], [Version(1, 1, SETTINGS)], map[])
  }

  function Pending1(): Run { Run(1, 7, 1, Pending, 0, false) }
  function Pending2(): Run { Run(2, 7, 1, Pending, 0, false) }

  lemma AfterOneRun(l: Limits)
    ensures Execute(l, OneRun) == Some(Init(l).(store := StoreOf([Pending1()])))
  {
    var s1 := AssistantsPut(EmptyStore, 1, SETTINGS, false, true).0;
    assert s1 == Store([], [], [], [Assistant(1, 1, SETTINGS)], [Version(1, 1, SETTINGS)], map[]);
    assert Execute(l, []) == Some(Init(l));
    var w1 := Init(l).(store := s1);
    OneMore(l, [], Init(l), OneRun[0]);
    assert [] + [OneRun[0]] == OneRun[..1];
    assert RunsPut(s1, Put(1, None)).0 == StoreOf([Pending1()]);
    OneMore(l, OneRun[..1], w1, OneRun[1]);
    assert OneRun[..1] + [OneRun[1]] == OneRun;
  }

  lemma SecondPut()
    ensures RunsPut(StoreOf([Pending1()]), Put(2, Some(7))).0 == StoreOf([Pending1(), Pending2()])
  {
    var s := StoreOf([Pending1()]);
    assert Find(s.threads, ThreadId, 7) == Some(Thread(7, Busy, None));
    assert Find(s.assistants, AssistantId, 1).Some?;
  }

  lemma BusyWithWork(runs: seq<Run>)
    requires Pending1() in runs
    ensures BusyIff(StoreOf(runs))
  {
    assert HasActive(runs, 7);
  }

  const CancelSecond := CancelArgs(Named(7, {2}), false, {7}, {})
  const TwoRuns: seq<Action> := OneRun + [Api(PutRun(Put(2, Some(7))))]

  lemma AfterTwoRuns(l: Limits)
    ensures Execute(l, TwoRuns) == Some(Init(l).(store := StoreOf([Pending1(), Pending2()])))
  {
    AfterOneRun(l);
    SecondPut();
    var w := Init(l).(store := StoreOf([Pending1()]));
    assert Keys(w.store.runs, RunId) == {1} && Threads(w.store) == {7};
    OneMore(l, OneRun, w, Api(PutRun(Put(2, Some(7)))));
  }

  lemma CancelBreaks(s: Store)
    requires s == StoreOf([Pending1(), Pending2()]) && StoreInv(s)
    ensures BusyIff(s) && !BusyIff(RunsCancel(s, CancelSecond))
  {
    var c := CancelSecond;
    assert s.runs[0] == Pending1() && s.runs[1] == Pending2() && s.threads[0] in s.threads;
    BusyWithWork(s.runs);
    assert HasVictim(s, c, 7) && IdledByCancel(s, c, 7) && KeepsActive(s, c, 7);
    CancelKeepsBusyIff(s, c);
  }

  lemma CancelledStore(s: Store)
    requires s == StoreOf([Pending1(), Pending2()])
    ensures var s' := RunsCancel(s, CancelSecond);
            && s'.threads == [Thread(7, Idle, None)]
            && s'.runs == [Pending1(), Pending2().(status := RunStatus.Interrupted)]
  {
    var c := CancelSecond;
    assert Where(s.runs[1..], CancelableBy(c)) == [Pending2()];
    assert Where(s.runs, CancelableBy(c)) == [Pending2()];
    var s1 := Interrupt(s, Pending2());
    assert Find(s.threads, ThreadId, 7) == Some(Thread(7, Busy, None));
    assert InterruptAll(s, c, [Pending2()]) == InterruptAll(s1, c, []);
    assert DeleteEach(s1.runs, c, [Pending2()]) == DeleteEach(s1.runs, c, []);
    assert Replace(s.runs[1..], RunId, 2, Pending2().(status := RunStatus.Interrupted))
        == [Pending2().(status := RunStatus.Interrupted)];
  }

  lemma ReachedInv(l: Limits, acts: seq<Action>, s: Store)
    requires Execute(l, acts) == Some(Init(l).(store := s))
    ensures StoreInv(s)
  {
    ReachableInv(l, acts);
  }

  lemma CancelStep(s: Store, c: CancelArgs)
    ensures StoreEnabled(s, CancelRuns(c)) && StoreStep(s, CancelRuns(c)) == RunsCancel(s, c)
  {
  }

  /** A history whose last step makes a thread status wrong. */
  ghost predicate Breaking(l: Limits, acts: seq<Action>, a: StoreAction)
  {
    var before, after := Execute(l, acts), Execute(l, acts + [Api(a)]);
    before.Some? && after.Some? && BusyIff(before.value.store) && !BusyIff(after.value.store)
  }

  lemma BreakingStep(l: Limits, acts: seq<Action>, s: Store, a: StoreAction)
    requires Execute(l, acts) == Some(Init(l).(store := s)) && StoreEnabled(s, a)
    requires BusyIff(s) && !BusyIff(StoreStep(s, a))
    ensures Breaking(l, acts, a) && Execute(l, acts + [Api(a)]).value.store == StoreStep(s, a)
  {
    OneMore(l, acts, Init(l).(store := s), Api(a));
  }

  /** Two puts on one thread, then a cancel of the second run: the thread is idle, the first run pending. */
  lemma CancelLeavesIdleWithWork(l: Limits)
    ensures Breaking(l, TwoRuns, CancelRuns(CancelSecond))
    ensures var s := Execute(l, TwoRuns + [Api(CancelRuns(CancelSecond))]).value.store;
            && s.threads == [Thread(7, Idle, None)]
            && s.runs == [Run(1, 7, 1, Pending, 0, false), Run(2, 7, 1, RunStatus.Interrupted, 0, false)]
  {
    var s := StoreOf([Pending1(), Pending2()]);
    AfterTwoRuns(l);
    ReachedInv(l, TwoRuns, s);
    CancelBreaks(s);
    CancelStep(s, CancelSecond);
    CancelledStore(s);
    BreakingStep(l, TwoRuns, s, CancelRuns(CancelSecond));
  }

  lemma DeleteBreaks(s: Store)
    requires s == StoreOf([Pending1()]) && StoreInv(s)
    ensures RunsDelete(s, 1, 7, true) == Ok(StoreOf([])) && BusyIff(s) && !BusyIff(StoreOf([]))
  {
    assert s.runs[0] == Pending1();
    BusyWithWork(s.runs);
    assert Where(s.runs, OnThread(7)) == [Pending1()];
    assert Find([Pending1()], RunId, 1) == Some(Pending1());
    assert Where(s.runs, NotRun(Pending1())) == [];
    DeleteKeepsBusyIff(s, 1, 7, true);
    assert !DeleteHarmless(s, 1, 7, true);
  }

  /** A put, then a direct delete of the run: the thread stays busy without any run. */
  lemma DeleteLeavesBusyWithoutWork(l: Limits)
    ensures Breaking(l, OneRun, DeleteRun(1, 7, true))
    ensures var s := Execute(l, OneRun + [Api(DeleteRun(1, 7, true))]).value.store;
            s.threads == [Thread(7, Busy, None)] && s.runs == []
  {
    var s := StoreOf([Pending1()]);
    AfterOneRun(l);
    ReachedInv(l, OneRun, s);
    DeleteBreaks(s);
    BreakingStep(l, OneRun, s, DeleteRun(1, 7, true));
  }
}
