/** What single operations do to the store, told without reference to how they do it. */
module StoreEffects {
  import opened Wrappers
  import opened KeyedLists
  import opened RunStore
  import opened RunStoreInvariant
  import opened RunsCancelTheorems

  // ---------------------------------------------------------------- Runs.put

  /** There is a thread that the put may use or make. */
  predicate ThreadUsable(s: Store, p: PutArgs)
  {
    if p.thread.Some? && p.thread.value in Threads(s) then p.threadAllowed else p.thread.None? || p.createMissing
  }

  lemma EnsuredThread(s: Store, p: PutArgs)
    requires StoreInv(s) && FreshIds(s, p)
    ensures EnsureThread(s, p).Some? <==> ThreadUsable(s, p)
    ensures EnsureThread(s, p).Some? ==>
              var (s1, thread) := EnsureThread(s, p).value;
              && thread == OrElse(p.thread, p.newThread)
              && (exists t | t in s1.threads :: t.id == thread && t.status == Busy)
              && (forall t | t in s.threads && t.id == thread ::
                    (if t.status == Busy then t else Thread(thread, Busy, Some(p.assistant))) in s1.threads)
              && (thread !in Threads(s) ==> Thread(thread, Busy, p.owner) in s1.threads)
              && Unique(s1.threads, ThreadId)
              && (forall t: Thread | t.id != thread :: t in s1.threads <==> t in s.threads)
  {
    var found := if p.thread.Some? then Find(s.threads, ThreadId, p.thread.value) else None;
    match found
    case Some(t) =>
      FindMember(s.threads, ThreadId, p.thread.value);
      var t' := Thread(t.id, Busy, Some(p.assistant));
      ReplaceMembers(s.threads, ThreadId, t.id, t');
    case None =>
      var id := if p.thread.Some? then p.thread.value else p.newThread;
      if p.thread.Some? { FindMember(s.threads, ThreadId, id); }
      AppendMembers(s.threads, ThreadId, Thread(id, Busy, p.owner));
      assert Thread(id, Busy, p.owner) in s.threads + [Thread(id, Busy, p.owner)];
  }

  /** The runs that `Runs.put` reports as in flight are exactly the thread's active ones. */
  ghost predicate AreInflight(s: Store, runs: seq<Run>, thread: Id)
  {
    Unique(runs, RunId) && forall r :: r in runs <==> r in s.runs && r.thread == thread && IsActive(r)
  }

  /** `Runs.put` refuses exactly when assistant or thread may not be used; otherwise one pending run is added or none. */
  lemma PutAddsOneRun(s: Store, p: PutArgs)
    requires StoreInv(s) && FreshIds(s, p)
    ensures var (s', reply) := RunsPut(s, p);
            && (reply.Refused? <==> !(p.assistant in Assistants(s) && p.assistantAllowed && ThreadUsable(s, p)))
            && (reply.Refused? ==> s' == s)
            && (reply.Inflight? ==> p.preventIfInflight && reply.runs != [] && s'.runs == s.runs
                                    && AreInflight(s, reply.runs, OrElse(p.thread, p.newThread)))
            && (reply.Created? ==>
                  && s'.runs == s.runs + [reply.run]
                  && reply.run == Run(p.run, OrElse(p.thread, p.newThread), p.assistant, Pending, p.createdAt, p.temporary)
                  && (exists t | t in s'.threads :: t.id == reply.run.thread && t.status == Busy)
                  && AreInflight(s, reply.inflight, reply.run.thread)
                  && (p.preventIfInflight ==> reply.inflight == []))
  {
    FindMember(s.assistants, AssistantId, p.assistant);
    EnsuredThread(s, p);
    EnsureThreadKeeps(s, p);
    var thread := OrElse(p.thread, p.newThread);
    WhereMembers(s.runs, ActiveOn(thread), RunId);
    assert AreInflight(s, Where(s.runs, ActiveOn(thread)), thread);
  }

  // ---------------------------------------------------------------- Threads.set_joint_status

  lemma JointFound(s: Store, thread: Id, run: Id, v: Verdict, hasNext: bool, error: bool)
    requires StoreInv(s) && v != Final(Running) && v != Final(Pending)
    requires exists r | r in s.runs :: r.id == run && r.thread == thread
    ensures var t, r := Find(s.threads, ThreadId, thread), Find(Where(s.runs, OnThread(thread)), RunId, run);
            && t.Some? && t.value in s.threads && t.value.id == thread
            && r.Some? && r.value in s.runs && r.value.id == run && r.value.thread == thread
            && var s1 := JointRuns(s, r.value, v);
               SetJointStatus(s, thread, run, v, hasNext, error) ==
               Ok(WithThreadStatus(s1, t.value, if HasActive(s1.runs, thread) then Busy else BaseStatus(hasNext, error)))
  {
    FoundRun(s, thread, run);
    FindMember(s.threads, ThreadId, thread);
    var r :| r in s.runs && r.id == run && r.thread == thread;
    assert r.thread in Threads(s);
  }

  /**
    The end of a run sets that run and its thread in one step: the run has its verdict or is
    gone, the thread is busy exactly when another active run of it remains.
   */
  lemma JointStatusIsJoint(s: Store, thread: Id, run: Id, v: Verdict, hasNext: bool, error: bool)
    requires StoreInv(s) && v != Final(Running) && v != Final(Pending)
    requires exists r | r in s.runs :: r.id == run && r.thread == thread
    ensures SetJointStatus(s, thread, run, v, hasNext, error).Ok?
    ensures var s' := SetJointStatus(s, thread, run, v, hasNext, error).value;
            && (forall r | r in s'.runs && r.id == run :: v.Final? && r.status == v.status)
            && (v.Final? ==> run in Keys(s'.runs, RunId))
            && (forall r: Run | r.id != run :: r in s'.runs <==> r in s.runs)
            && (forall t: Thread | t.id != thread :: t in s'.threads <==> t in s.threads)
            && (forall t | t in s'.threads && t.id == thread ::
                  if HasActive(s'.runs, thread) then t.status == Busy
                  else if error then t.status == ThreadError
                  else if hasNext then t.status == ThreadInterrupted
                  else t.status == Idle)
  {
    JointFound(s, thread, run, v, hasNext, error);
    var t, r := Find(s.threads, ThreadId, thread).value, Find(Where(s.runs, OnThread(thread)), RunId, run).value;
    var s1 := JointRuns(s, r, v);
    if v.Rollback? {
      WhereMembers(s.runs, NotRun(r), RunId);
    } else {
      ReplaceMembers(s.runs, RunId, r.id, r.(status := v.status));
      KeyOfMember(s.runs, RunId, r);
    }
    ReplaceMembers(s.threads, ThreadId, t.id, t.(status := if HasActive(s1.runs, thread) then Busy else BaseStatus(hasNext, error)));
  }

  /** `Threads.set_status`: busy with work, else what exception and checkpoint say; a missing thread changes nothing. */
  lemma SetStatusTells(s: Store, thread: Id, hasNext: bool, error: bool)
    requires StoreInv(s)
    ensures var s' := ThreadsSetStatus(s, thread, hasNext, error);
            && s' == s.(threads := s'.threads)
            && (forall t: Thread | t.id != thread :: t in s'.threads <==> t in s.threads)
            && (forall t | t in s.threads && t.id == thread ::
                  t.(status := if exists r | r in s.runs :: r.thread == thread && (r.status == Pending || r.status == Running)
                               then Busy
                               else if error then ThreadError
                               else if hasNext then ThreadInterrupted
                               else Idle) in s'.threads)
            && Threads(s') == Threads(s) && Unique(s'.threads, ThreadId)
  {
    FindMember(s.threads, ThreadId, thread);
    match Find(s.threads, ThreadId, thread)
    case None => assert forall t | t in s.threads :: t.id in Threads(s);
    case Some(t) =>
      ReplaceMembers(s.threads, ThreadId, thread,
                     t.(status := if HasActive(s.runs, thread) then Busy else BaseStatus(hasNext, error)));
      forall x | x in s.threads && x.id == thread ensures x == t { UniqueMember(s.threads, ThreadId, x, t); }
  }

  /** `Threads.put`: a new idle thread, or nothing if the id is taken. */
  lemma ThreadPutTells(s: Store, id: Id, owner: Option<Id>)
    requires StoreInv(s)
    ensures ThreadsPut(s, id, owner) ==
            if id in Threads(s) then s else s.(threads := s.threads + [Thread(id, Idle, owner)])
  {
    FindMember(s.threads, ThreadId, id);
  }

  /** `Runs.delete` removes exactly the run with the id on the thread; it is a 404 if there is none. */
  lemma RunDeleteTells(s: Store, run: Id, thread: Id, allowed: bool)
    requires StoreInv(s)
    ensures RunsDelete(s, run, thread, allowed).Ok? <==>
              !allowed || exists r | r in s.runs :: r.id == run && r.thread == thread
    ensures RunsDelete(s, run, thread, allowed).Ok? ==>
              var s' := RunsDelete(s, run, thread, allowed).value;
              && s' == s.(runs := s'.runs)
              && (forall r :: r in s'.runs <==> r in s.runs && !(allowed && r.id == run))
  {
    FoundRun(s, thread, run);
    match Find(Where(s.runs, OnThread(thread)), RunId, run)
    case None =>
    case Some(r) => WhereMembers(s.runs, NotRun(r), RunId);
  }

  // ---------------------------------------------------------------- cascades

  /** Deleting a thread deletes exactly its runs and crons with it. */
  lemma ThreadDeleteCascades(s: Store, thread: Id, allowed: bool)
    requires StoreInv(s)
    ensures ThreadsDelete(s, thread, allowed).Ok? <==> allowed && thread in Threads(s)
    ensures ThreadsDelete(s, thread, allowed).Ok? ==>
              var s' := ThreadsDelete(s, thread, allowed).value;
              && (forall r :: r in s'.runs <==> r in s.runs && r.thread != thread)
              && (forall c :: c in s'.crons <==> c in s.crons && c.thread != Some(thread))
              && (forall t :: t in s'.threads <==> t in s.threads && t.id != thread)
              && s'.assistants == s.assistants && s'.versions == s.versions
  {
    FindMember(s.threads, ThreadId, thread);
    WhereMembers(s.runs, OffThread(thread), RunId);
    WhereMembers(s.crons, CronOffThread(thread), CronId);
    WhereMembers(s.threads, NotThread(thread), ThreadId);
  }

  /** Deleting threads one after another deletes exactly those that may be deleted. */
  lemma {:induction false} OwnedThreadsGo(s: Store, owned: seq<Thread>, deletable: set<Id>, t: Thread)
    requires StoreInv(s)
    ensures t in DeleteThreads(s, owned, deletable).threads <==>
              t in s.threads && !(t.id in deletable && exists x | x in owned :: x.id == t.id)
    decreases |owned|
  {
    if owned != [] {
      var x, allowed := owned[0], owned[0].id in deletable;
      var r := ThreadsDelete(s, x.id, allowed);
      ThreadDeleteCascades(s, x.id, allowed);
      ThreadsDeleteKeeps(s, x.id, allowed);
      OwnedThreadsGo(if r.Ok? then r.value else s, owned[1..], deletable, t);
      assert forall y :: y in owned <==> y == x || y in owned[1..];
      if t in s.threads { KeyOfMember(s.threads, ThreadId, t); }
    }
  }

  /** And exactly their runs and crons go with them. */
  lemma {:induction false} OwnedRunsGo(s: Store, owned: seq<Thread>, deletable: set<Id>, r: Run)
    requires StoreInv(s)
    ensures r in DeleteThreads(s, owned, deletable).runs <==>
              r in s.runs && !(r.thread in deletable && exists x | x in owned :: x.id == r.thread)
    decreases |owned|
  {
    if owned != [] {
      var x, allowed := owned[0], owned[0].id in deletable;
      var d := ThreadsDelete(s, x.id, allowed);
      ThreadDeleteCascades(s, x.id, allowed);
      ThreadsDeleteKeeps(s, x.id, allowed);
      OwnedRunsGo(if d.Ok? then d.value else s, owned[1..], deletable, r);
      assert forall y :: y in owned <==> y == x || y in owned[1..];
    }
  }

  lemma {:induction false} OwnedCronsGo(s: Store, owned: seq<Thread>, deletable: set<Id>, c: Cron)
    requires StoreInv(s)
    ensures c in DeleteThreads(s, owned, deletable).crons <==>
              c in s.crons && !(c.thread.Some? && c.thread.value in deletable && exists x | x in owned :: x.id == c.thread.value)
    decreases |owned|
  {
    if owned != [] {
      var x, allowed := owned[0], owned[0].id in deletable;
      var d := ThreadsDelete(s, x.id, allowed);
      ThreadDeleteCascades(s, x.id, allowed);
      ThreadsDeleteKeeps(s, x.id, allowed);
      OwnedCronsGo(if d.Ok? then d.value else s, owned[1..], deletable, c);
      assert forall y :: y in owned <==> y == x || y in owned[1..];
    }
  }

  /** The thread goes with the assistant: it is owned, and `delete_threads` asks for it and may delete it. */
  predicate GoesWith(s: Store, id: Id, deleteThreads: bool, deletable: set<Id>, thread: Id)
  {
    deleteThreads && thread in deletable && exists t | t in s.threads :: t.id == thread && t.owner == Some(id)
  }

  lemma {:induction false} DeleteThreadsSameCatalog(s: Store, threads: seq<Thread>, deletable: set<Id>)
    ensures var s' := DeleteThreads(s, threads, deletable); s'.assistants == s.assistants && s'.versions == s.versions
    decreases |threads|
  {
    if threads != [] {
      var d := ThreadsDelete(s, threads[0].id, threads[0].id in deletable);
      DeleteThreadsSameCatalog(if d.Ok? then d.value else s, threads[1..], deletable);
    }
  }

  lemma {:induction false} InterruptAllSameCatalog(s: Store, c: CancelArgs, runs: seq<Run>)
    ensures var s' := InterruptAll(s, c, runs);
            s'.assistants == s.assistants && s'.versions == s.versions && s'.crons == s.crons
    decreases |runs|
  {
    if runs != [] {
      InterruptAllSameCatalog(if Eager(c, runs[0]) then s else Interrupt(s, runs[0]), c, runs[1..]);
    }
  }

  /**
    Deleting an assistant deletes it with exactly its versions, its crons and those of the
    threads that go, and the runs of those threads; of the other runs exactly its active
    ones that the caller may update are interrupted.
   */
  lemma AssistantDeleteCascades(
    s: Store, id: Id, deleteThreads: bool, deletable: set<Id>, permitted: set<Id>, gone: Id -> bool)
    requires StoreInv(s) && id in Assistants(s)
    requires forall t :: gone(t) <==> GoesWith(s, id, deleteThreads, deletable, t)
    ensures var s' := AssistantsDelete(s, id, true, deleteThreads, deletable, permitted).0;
            && (forall a :: a in s'.assistants <==> a in s.assistants && a.id != id)
            && (forall v :: v in s'.versions <==> v in s.versions && v.assistant != id)
            && (forall c :: c in s'.crons <==>
                  c in s.crons && c.assistant != id && !(c.thread.Some? && gone(c.thread.value)))
            && CutsExactly(s.(runs := Where(s.runs, (r: Run) => !gone(r.thread))), s',
                           (r: Run) => r.assistant == id && r.thread in permitted && (r.status == Pending || r.status == Running),
                           false, {})
  {
    FindMember(s.assistants, AssistantId, id);
    var owned := Where(s.threads, OwnedBy(id));
    WhereMembers(s.threads, OwnedBy(id), ThreadId);
    var s1 := if deleteThreads then DeleteThreads(s, owned, deletable) else s;
    DeleteThreadsKeeps(s, owned, deletable);
    CancelOfAssistant(s1, id, false, permitted, {});
    DeletedWithThreads(s, s1, id, deleteThreads, deletable, gone);
    DeleteThreadsSameCatalog(s, owned, deletable);
    var c := CancelArgs(OfAssistant(id), false, permitted, {});
    InterruptAllSameCatalog(s1, c, Where(s1.runs, CancelableBy(c)));
    var s2 := RunsCancel(s1, c);
    forall a ensures a in Where(s2.assistants, NotAssistant(id)) <==> a in s.assistants && a.id != id {
      WhereMember(s2.assistants, NotAssistant(id), a);
    }
    forall v ensures v in Where(s2.versions, NotOfId(id)) <==> v in s.versions && v.assistant != id {
      WhereMember(s2.versions, NotOfId(id), v);
    }
    forall x ensures x in Where(s2.crons, CronNotOf(id)) <==> x in s1.crons && x.assistant != id {
      WhereMember(s2.crons, CronNotOf(id), x);
    }
  }

  lemma DeletedWithThreads(s: Store, s1: Store, id: Id, deleteThreads: bool, deletable: set<Id>, gone: Id -> bool)
    requires StoreInv(s)
    requires s1 == if deleteThreads then DeleteThreads(s, Where(s.threads, OwnedBy(id)), deletable) else s
    requires forall t :: gone(t) <==> GoesWith(s, id, deleteThreads, deletable, t)
    ensures forall c :: c in s1.crons <==> c in s.crons && !(c.thread.Some? && gone(c.thread.value))
    ensures forall r :: r in s1.runs <==> r in Where(s.runs, (r: Run) => !gone(r.thread))
  {
    var owned := Where(s.threads, OwnedBy(id));
    WhereMembers(s.threads, OwnedBy(id), ThreadId);
    forall c ensures c in s1.crons <==> c in s.crons && !(c.thread.Some? && gone(c.thread.value)) {
      OwnedCronsGo(s, owned, deletable, c);
    }
    forall r ensures r in s1.runs <==> r in Where(s.runs, (r: Run) => !gone(r.thread)) {
      OwnedRunsGo(s, owned, deletable, r);
      WhereMember(s.runs, (r: Run) => !gone(r.thread), r);
    }
  }

  /** It is a 404, and changes nothing, exactly if the assistant is missing or may not be deleted. */
  lemma AssistantDeleteRefused(
    s: Store, id: Id, allowed: bool, deleteThreads: bool, deletable: set<Id>, permitted: set<Id>)
    ensures var (s', reply) := AssistantsDelete(s, id, allowed, deleteThreads, deletable, permitted);
            && (reply == NotFound <==> !(id in Assistants(s) && allowed))
            && (reply == NotFound ==> s' == s) && (reply == NotFound || reply == AssistantDone)
  {
    FindMember(s.assistants, AssistantId, id);
  }

  /** With `delete_threads`, exactly the owned threads that may be deleted go. */
  lemma AssistantDeleteThreads(s: Store, id: Id, deletable: set<Id>, permitted: set<Id>, t: Thread)
    requires StoreInv(s) && id in Assistants(s) && t in s.threads
    ensures t.id in Threads(AssistantsDelete(s, id, true, true, deletable, permitted).0) <==>
            !(t.owner == Some(id) && t.id in deletable)
  {
    FindMember(s.assistants, AssistantId, id);
    var owned := Where(s.threads, OwnedBy(id));
    WhereMembers(s.threads, OwnedBy(id), ThreadId);
    var s1 := DeleteThreads(s, owned, deletable);
    DeleteThreadsKeeps(s, owned, deletable);
    OwnedThreadsGo(s, owned, deletable, t);
    if exists x | x in owned :: x.id == t.id {
      var x :| x in owned && x.id == t.id;
      UniqueMember(s.threads, ThreadId, x, t);
    }
    SameIds(s, s1, t, owned, deletable);
    CancelKeepsThreadIds(s1, CancelArgs(OfAssistant(id), false, permitted, {}));
  }

  lemma SameIds(s: Store, s1: Store, t: Thread, owned: seq<Thread>, deletable: set<Id>)
    requires StoreInv(s) && s1 == DeleteThreads(s, owned, deletable) && t in s.threads
    ensures t.id in Threads(s1) <==> t in s1.threads
  {
    if t.id in Threads(s1) {
      var x :| x in s1.threads && x.id == t.id;
      OwnedThreadsGo(s, owned, deletable, x);
      UniqueMember(s.threads, ThreadId, x, t);
    }
    if t in s1.threads { KeyOfMember(s1.threads, ThreadId, t); }
  }

  lemma CancelKeepsThreadIds(s: Store, c: CancelArgs)
    requires StoreInv(s)
    ensures Threads(RunsCancel(s, c)) == Threads(s)
  {
    var s' := RunsCancel(s, c);
    CancelledThreadCount(s, c);
    forall i | 0 <= i < |s.threads| ensures s'.threads[i].id == s.threads[i].id { CancelledThreads(s, c, i); }
    forall k ensures k in Threads(s') <==> k in Threads(s) {
      if k in Threads(s') { var i :| 0 <= i < |s'.threads| && s'.threads[i].id == k; assert s.threads[i].id == k; }
      if k in Threads(s) { var i :| 0 <= i < |s.threads| && s.threads[i].id == k; assert s'.threads[i].id == k; }
    }
  }

  // ---------------------------------------------------------------- Crons

  /** A cron is accepted exactly when its assistant may be used and its thread, if any, is stored. */
  lemma CronPutIff(s: Store, id: Id, assistant: Id, thread: Option<Id>, allowed: bool)
    requires StoreInv(s)
    ensures CronsPut(s, id, assistant, thread, allowed).Ok? <==>
              assistant in Assistants(s) && allowed && (thread.Some? ==> thread.value in Threads(s))
    ensures CronsPut(s, id, assistant, thread, allowed).Ok? ==>
              var s' := CronsPut(s, id, assistant, thread, allowed).value;
              forall c :: c in s'.crons <==>
                c in s.crons || (c == Cron(id, assistant, thread) && id !in Keys(s.crons, CronId))
  {
    FindMember(s.assistants, AssistantId, assistant);
    if thread.Some? { FindMember(s.threads, ThreadId, thread.value); }
    FindMember(s.crons, CronId, id);
  }

  /** Exactly the cron with the id goes, if it may. */
  lemma CronDeleteTells(s: Store, id: Id, allowed: bool)
    requires StoreInv(s)
    ensures var s' := CronsDelete(s, id, allowed);
            && s' == s.(crons := s'.crons)
            && (forall c :: c in s'.crons <==> c in s.crons && !(allowed && c.id == id))
  {
    WhereMembers(s.crons, NotCron(id, allowed), CronId);
  }

  // ---------------------------------------------------------------- Assistants

  /** Every field of the settings that a put stores: given ones, except that a single context or `configurable` is both. */
  predicate PutSettings(x: Settings, y: Settings)
  {
    && y.graphId == x.graphId && y.metadata == x.metadata && y.name == x.name && y.description == x.description
    && y.config.other == x.config.other
    && (x.context != [] ==> y.context == x.context && y.config.configurable == Some(x.context))
    && (x.context == [] && x.config.configurable.Some? ==>
          y.config.configurable == x.config.configurable && y.context == x.config.configurable.value)
    && (x.context == [] && x.config.configurable.None? ==> y.config.configurable.None? && y.context == [])
  }

  /** `Assistants.put`: its reply tells what happened, and a new assistant has its first version. */
  lemma AssistantPutTells(s: Store, id: Id, x: Settings, doNothing: bool, allowed: bool)
    requires StoreInv(s)
    ensures var (s', reply) := AssistantsPut(s, id, x, doNothing, allowed);
            var both := x.context != [] && x.config.configurable.Some? && x.config.configurable.value != [];
            && (reply == BadRequest <==> both)
            && (reply == Conflict <==> !both && id in Assistants(s) && !(allowed && doNothing))
            && reply != NotFound
            && (both || id in Assistants(s) ==> s' == s)
            && (!both && id !in Assistants(s) ==>
                  exists y :: PutSettings(x, y)
                    && s' == s.(assistants := s.assistants + [Assistant(id, 1, y)], versions := s.versions + [Version(id, 1, y)]))
  {
    FindMember(s.assistants, AssistantId, id);
    match Unify(x.config, Some(x.context))
    case Err(_) =>
    case Ok((config, context)) =>
      var y := x.(config := config, context := OrElse(context, x.context));
      assert PutSettings(x, y);
  }

  /**
    Every field after a patch: given ones win, metadata key by key; a `configurable` or a
    context alone becomes both, and without either the old ones stay, except that a config
    with other keys replaces the old one.
   */
  predicate PatchedSettings(old_: Settings, p: Patch, y: Settings)
  {
    && (p.graphId.Some? ==> y.graphId == p.graphId.value) && (p.graphId.None? ==> y.graphId == old_.graphId)
    && (p.name.Some? ==> y.name == p.name.value) && (p.name.None? ==> y.name == old_.name)
    && (p.description.Some? ==> y.description == p.description) && (p.description.None? ==> y.description == old_.description)
    && y.metadata.Keys == p.metadata.Keys + old_.metadata.Keys
    && (forall k | k in p.metadata :: y.metadata[k] == p.metadata[k])
    && (forall k | k in old_.metadata && k !in p.metadata :: y.metadata[k] == old_.metadata[k])
    && (p.context.Some? && p.context.value != [] ==>
          y.context == p.context.value && y.config == Config(p.context, p.config.other))
    && ((p.context.None? || p.context.value == []) && p.config.configurable.Some? && p.config.configurable.value != [] ==>
          y.context == p.config.configurable.value && y.config == p.config)
    && ((p.context.None? || p.context.value == []) && (p.config.configurable.None? || p.config.configurable.value == []) ==>
          && (p.context.Some? ==> y.context == []) && (p.context.None? ==> y.context == old_.context)
          && (p.config.configurable.None? && p.config.other == [] ==> y.config == old_.config)
          && (p.config.configurable.Some? || p.config.other != [] ==> y.config == p.config))
  }

  /** `Assistants.patch`: what it replies, and every field of the assistant and of the version it records. */
  lemma AssistantPatchTells(s: Store, id: Id, p: Patch, allowed: bool)
    requires StoreInv(s)
    ensures var (s', reply) := AssistantsPatch(s, id, p, allowed);
            var both := p.context.Some? && p.context.value != [] && p.config.configurable.Some? && p.config.configurable.value != [];
            && (reply == BadRequest <==> both)
            && (reply == NotFound <==> !both && !(id in Assistants(s) && allowed))
            && reply != Conflict
            && (both || id !in Assistants(s) || !allowed ==> s' == s)
            && (!both && id in Assistants(s) && allowed ==>
                  exists a, n, y :: a in s.assistants && a.id == id && PatchedSettings(a.settings, p, y)
                    && s' == s.(assistants := s'.assistants, versions := s.versions + [Version(id, n, y)])
                    && Unique(s'.assistants, AssistantId)
                    && forall c :: c in s'.assistants <==> (c in s.assistants && c.id != id) || c == Assistant(id, n, y))
  {
    FindMember(s.assistants, AssistantId, id);
    match Unify(p.config, p.context)
    case Err(_) =>
    case Ok((config, context)) =>
      match Find(s.assistants, AssistantId, id) {
        case None =>
        case Some(a) =>
          var y, n := Patched(a.settings, p, config, context), MaxVersion(Where(s.versions, OfId(id))) + 1;
          PatchFields(a.settings, p);
          ReplaceMembers(s.assistants, AssistantId, id, Assistant(id, n, y));
      }
  }

  lemma PatchFields(old_: Settings, p: Patch)
    requires Unify(p.config, p.context).Ok?
    ensures var (config, context) := Unify(p.config, p.context).value;
            PatchedSettings(old_, p, Patched(old_, p, config, context))
  {
  }

  /** `Assistants.set_latest` is a 404, changing nothing, unless the assistant may be used and has the version. */
  lemma SetLatestRefused(s: Store, id: Id, n: nat, allowed: bool)
    ensures var (s', reply) := AssistantsSetLatest(s, id, n, allowed);
            var found := allowed && id in Assistants(s) && exists v | v in s.versions :: v.assistant == id && v.version == n;
            && reply == (if found then AssistantDone else NotFound)
            && (!found ==> s' == s)
            && s' == s.(assistants := s'.assistants)
  {
    FindMember(s.assistants, AssistantId, id);
    var versions := Where(s.versions, NumberedVersion(id, n));
    forall v ensures v in versions <==> v in s.versions && v.assistant == id && v.version == n {
      WhereMember(s.versions, NumberedVersion(id, n), v);
    }
    if versions != [] { assert versions[0] in versions; }
  }
}
