/**
  Referential integrity of the store and mutual exclusion of runs, kept by every operation.
 */
module RunStoreInvariant {
  import opened Wrappers
  import opened KeyedLists
  import opened RunStore

  /** At most one run of a thread is running. */
  predicate OneRunning(runs: seq<Run>)
  {
    forall r, q | r in runs && q in runs && r.status == Running && q.status == Running && r.thread == q.thread :: r == q
  }

  predicate Distinct(s: Store)
  {
    && Unique(s.runs, RunId) && Unique(s.threads, ThreadId)
    && Unique(s.crons, CronId) && Unique(s.assistants, AssistantId)
  }

  predicate RunsPlaced(runs: seq<Run>, threads: set<Id>)
  {
    forall r | r in runs :: r.thread in threads
  }

  predicate CronsPlaced(crons: seq<Cron>, threads: set<Id>, assistants: set<Id>)
  {
    forall c | c in crons :: c.assistant in assistants && (c.thread.Some? ==> c.thread.value in threads)
  }

  predicate VersionsPlaced(versions: seq<Version>, assistants: set<Id>)
  {
    forall v | v in versions :: v.assistant in assistants
  }

  function Threads(s: Store): set<Id> { Keys(s.threads, ThreadId) }
  function Assistants(s: Store): set<Id> { Keys(s.assistants, AssistantId) }

  predicate StoreInv(s: Store)
  {
    && Distinct(s)
    && OneRunning(s.runs)
    && RunsPlaced(s.runs, Threads(s))
    && CronsPlaced(s.crons, Threads(s), Assistants(s))
    && VersionsPlaced(s.versions, Assistants(s))
  }

  // ---------------------------------------------------------------- statuses

  lemma ThreadStatusKeeps(s: Store, t: Thread, t': Thread)
    requires StoreInv(s) && t'.id == t.id
    ensures StoreInv(s.(threads := Replace(s.threads, ThreadId, t.id, t')))
  {
    ReplaceMembers(s.threads, ThreadId, t.id, t');
  }

  /** Changing a run's status keeps the store sound, unless a second run of the thread becomes running. */
  lemma RunStatusKeeps(s: Store, r: Run, status: RunStatus)
    requires StoreInv(s) && r in s.runs
    requires status == Running ==> !HasRunning(s.runs, r.thread)
    ensures StoreInv(WithRunStatus(s, r, status))
  {
    var r' := r.(status := status);
    ReplaceMembers(s.runs, RunId, r.id, r');
    var runs := Replace(s.runs, RunId, r.id, r');
    forall a, b | a in runs && b in runs && a.status == Running && b.status == Running && a.thread == b.thread
      ensures a == b
    {
      if a.id != r.id && b.id != r.id { assert a in s.runs && b in s.runs; }
    }
  }

  lemma RemoveRunKeeps(s: Store, r: Run)
    requires StoreInv(s)
    ensures StoreInv(s.(runs := Where(s.runs, NotRun(r))))
  {
    WhereMembers(s.runs, NotRun(r), RunId);
  }

  // ---------------------------------------------------------------- threads

  lemma ThreadsPutKeeps(s: Store, id: Id, owner: Option<Id>)
    requires StoreInv(s)
    ensures StoreInv(ThreadsPut(s, id, owner))
  {
    FindMember(s.threads, ThreadId, id);
    if Find(s.threads, ThreadId, id).None? { AppendMembers(s.threads, ThreadId, Thread(id, Idle, owner)); }
  }

  lemma ThreadsSetStatusKeeps(s: Store, thread: Id, hasNext: bool, error: bool)
    requires StoreInv(s)
    ensures StoreInv(ThreadsSetStatus(s, thread, hasNext, error))
  {
    match Find(s.threads, ThreadId, thread)
    case None =>
    case Some(t) =>
      ThreadStatusKeeps(s, t, t.(status := if HasActive(s.runs, thread) then Busy else BaseStatus(hasNext, error)));
  }

  /** The run that a lookup by thread and id finds. */
  lemma FoundRun(s: Store, thread: Id, run: Id)
    requires Distinct(s)
    ensures var f := Find(Where(s.runs, OnThread(thread)), RunId, run);
            && (f.Some? ==> f.value in s.runs && f.value.id == run && f.value.thread == thread)
            && (forall r | r in s.runs && r.id == run && r.thread == thread :: f == Some(r))
  {
    var here := Where(s.runs, OnThread(thread));
    WhereMembers(s.runs, OnThread(thread), RunId);
    FindMember(here, RunId, run);
    forall r | r in s.runs && r.id == run && r.thread == thread ensures Find(here, RunId, run) == Some(r) {
      FindUnique(here, RunId, r);
    }
  }

  lemma SetJointStatusKeeps(s: Store, thread: Id, run: Id, verdict: Verdict, hasNext: bool, error: bool)
    requires StoreInv(s) && verdict != Final(Running)
    ensures var s' := SetJointStatus(s, thread, run, verdict, hasNext, error); s'.Ok? ==> StoreInv(s'.value)
  {
    FoundRun(s, thread, run);
    match (Find(s.threads, ThreadId, thread), Find(Where(s.runs, OnThread(thread)), RunId, run))
    case (Some(t), Some(r)) =>
      var s1 := if verdict.Rollback? then s.(runs := Where(s.runs, NotRun(r))) else WithRunStatus(s, r, verdict.status);
      if verdict.Rollback? { RemoveRunKeeps(s, r); } else { RunStatusKeeps(s, r, verdict.status); }
      var busy := (verdict.Final? && IsActive(r.(status := verdict.status))) || HasActive(s1.runs, thread);
      ThreadStatusKeeps(s1, t, t.(status := if busy then Busy else BaseStatus(hasNext, error)));
    case _ =>
  }

  lemma ThreadsDeleteKeeps(s: Store, thread: Id, allowed: bool)
    requires StoreInv(s)
    ensures var s' := ThreadsDelete(s, thread, allowed); s'.Ok? ==> StoreInv(s'.value)
  {
    WhereMembers(s.runs, OffThread(thread), RunId);
    WhereMembers(s.crons, CronOffThread(thread), CronId);
    WhereMembers(s.threads, NotThread(thread), ThreadId);
    var threads := Where(s.threads, NotThread(thread));
    forall k | k in Threads(s) && k != thread ensures k in Keys(threads, ThreadId) {
      var t :| t in s.threads && t.id == k;
      KeyOfMember(threads, ThreadId, t);
    }
  }

  // ---------------------------------------------------------------- runs

  /** Ids drawn for a new run, and for a new thread if one is made, are not in use. */
  predicate FreshIds(s: Store, p: PutArgs)
  {
    p.run !in Keys(s.runs, RunId) && p.newThread !in Threads(s)
  }

  lemma EnsureThreadKeeps(s: Store, p: PutArgs)
    requires StoreInv(s) && FreshIds(s, p)
    ensures var e := EnsureThread(s, p);
            e.Some? ==>
              && StoreInv(e.value.0) && e.value.1 in Threads(e.value.0)
              && e.value.0.runs == s.runs && e.value.0.assistants == s.assistants
              && e.value.0.versions == s.versions && e.value.0.attempts == s.attempts
  {
    var found := if p.thread.Some? then Find(s.threads, ThreadId, p.thread.value) else None;
    match found
    case Some(t) =>
      FindMember(s.threads, ThreadId, p.thread.value);
      ThreadStatusKeeps(s, t, Thread(t.id, Busy, Some(p.assistant)));
      ReplaceMembers(s.threads, ThreadId, t.id, Thread(t.id, Busy, Some(p.assistant)));
    case None =>
      var id := if p.thread.Some? then p.thread.value else p.newThread;
      if p.thread.Some? { FindMember(s.threads, ThreadId, id); }
      AppendMembers(s.threads, ThreadId, Thread(id, Busy, p.owner));
  }

  lemma RunsPutKeeps(s: Store, p: PutArgs)
    requires StoreInv(s) && FreshIds(s, p)
    ensures StoreInv(RunsPut(s, p).0)
  {
    EnsureThreadKeeps(s, p);
    match EnsureThread(s, p)
    case None =>
    case Some((s1, thread)) =>
      AppendMembers(s1.runs, RunId, Run(p.run, thread, p.assistant, Pending, p.createdAt, p.temporary));
  }

  lemma RunsDeleteKeeps(s: Store, run: Id, thread: Id, allowed: bool)
    requires StoreInv(s)
    ensures var s' := RunsDelete(s, run, thread, allowed); s'.Ok? ==> StoreInv(s'.value)
  {
    match Find(Where(s.runs, OnThread(thread)), RunId, run)
    case None =>
    case Some(r) => RemoveRunKeeps(s, r);
  }

  lemma RunsSetStatusKeeps(s: Store, run: Id, status: RunStatus)
    requires StoreInv(s) && status != Running
    ensures StoreInv(RunsSetStatus(s, run, status))
  {
    FindMember(s.runs, RunId, run);
    match Find(s.runs, RunId, run)
    case None =>
    case Some(r) => RunStatusKeeps(s, r, status);
  }

  lemma StartKeeps(s: Store, r: Run)
    requires StoreInv(s) && CanStart(s, r)
    ensures StoreInv(Start(s, r))
  {
    FindMember(s.runs, RunId, r.id);
    RunStatusKeeps(s, r, Running);
  }

  lemma {:induction false} StartAllKeeps(s: Store, candidates: seq<Run>)
    requires StoreInv(s)
    ensures StoreInv(StartAll(s, candidates).0)
    decreases |candidates|
  {
    if candidates != [] {
      var r := candidates[0];
      if CanStart(s, r) {
        StartKeeps(s, r);
        StartAllKeeps(Start(s, r), candidates[1..]);
      } else {
        StartAllKeeps(s, candidates[1..]);
      }
    }
  }

  lemma InterruptKeeps(s: Store, r: Run)
    requires StoreInv(s) && r in s.runs
    ensures StoreInv(Interrupt(s, r))
  {
    var t := Find(s.threads, ThreadId, r.thread);
    if r.status == Pending && t.Some? {
      ThreadStatusKeeps(s, t.value, t.value.(status := Idle));
      RunStatusKeeps(WithThreadStatus(s, t.value, Idle), r, RunStatus.Interrupted);
    } else {
      RunStatusKeeps(s, r, RunStatus.Interrupted);
    }
  }

  /** Interrupting changes no run but the interrupted one. */
  lemma InterruptRuns(s: Store, r: Run)
    requires Unique(s.runs, RunId) && r in s.runs
    ensures var runs := Interrupt(s, r).runs;
            && Unique(runs, RunId)
            && (forall q :: q in runs <==> (q in s.runs && q.id != r.id) || q == r.(status := RunStatus.Interrupted))
  {
    ReplaceMembers(s.runs, RunId, r.id, r.(status := RunStatus.Interrupted));
    KeyOfMember(s.runs, RunId, r);
  }

  lemma {:induction false} InterruptAllKeeps(s: Store, c: CancelArgs, runs: seq<Run>)
    requires StoreInv(s) && Unique(runs, RunId) && (forall r | r in runs :: r in s.runs)
    ensures StoreInv(InterruptAll(s, c, runs))
    decreases |runs|
  {
    if runs != [] {
      UniqueTail(runs, RunId);
      if Eager(c, runs[0]) {
        InterruptAllKeeps(s, c, runs[1..]);
      } else {
        InterruptKeeps(s, runs[0]);
        InterruptRuns(s, runs[0]);
        InterruptAllKeeps(Interrupt(s, runs[0]), c, runs[1..]);
      }
    }
  }

  lemma {:induction false} DeleteEachKeeps(s: Store, c: CancelArgs, victims: seq<Run>)
    requires StoreInv(s)
    ensures StoreInv(s.(runs := DeleteEach(s.runs, c, victims)))
    decreases |victims|
  {
    if victims != [] {
      RemoveRunKeeps(s, victims[0]);
      DeleteEachKeeps(if Eager(c, victims[0]) then s.(runs := Where(s.runs, NotRun(victims[0]))) else s, c, victims[1..]);
    }
  }

  lemma RunsCancelKeeps(s: Store, c: CancelArgs)
    requires StoreInv(s)
    ensures StoreInv(RunsCancel(s, c))
  {
    var victims := Where(s.runs, CancelableBy(c));
    WhereMembers(s.runs, CancelableBy(c), RunId);
    InterruptAllKeeps(s, c, victims);
    DeleteEachKeeps(InterruptAll(s, c, victims), c, victims);
  }

  // ---------------------------------------------------------------- crons and assistants

  lemma CronsPutKeeps(s: Store, id: Id, assistant: Id, thread: Option<Id>, allowed: bool)
    requires StoreInv(s)
    ensures var s' := CronsPut(s, id, assistant, thread, allowed); s'.Ok? ==> StoreInv(s'.value)
  {
    FindMember(s.assistants, AssistantId, assistant);
    if thread.Some? { FindMember(s.threads, ThreadId, thread.value); }
    FindMember(s.crons, CronId, id);
    if Find(s.crons, CronId, id).None? { AppendMembers(s.crons, CronId, Cron(id, assistant, thread)); }
  }

  lemma CronsDeleteKeeps(s: Store, id: Id, allowed: bool)
    requires StoreInv(s)
    ensures StoreInv(CronsDelete(s, id, allowed))
  {
    WhereMembers(s.crons, NotCron(id, allowed), CronId);
  }

  lemma AssistantsPutKeeps(s: Store, id: Id, x: Settings, doNothing: bool, allowed: bool)
    requires StoreInv(s)
    ensures StoreInv(AssistantsPut(s, id, x, doNothing, allowed).0)
  {
    FindMember(s.assistants, AssistantId, id);
    var s' := AssistantsPut(s, id, x, doNothing, allowed).0;
    if s' != s { AppendMembers(s.assistants, AssistantId, s'.assistants[|s.assistants|]); }
  }

  lemma ReplaceAssistantKeeps(s: Store, a: Assistant, versions: seq<Version>)
    requires StoreInv(s) && a.id in Assistants(s)
    requires forall v | v in versions :: v in s.versions || v.assistant == a.id
    ensures StoreInv(s.(assistants := Replace(s.assistants, AssistantId, a.id, a), versions := versions))
  {
    ReplaceMembers(s.assistants, AssistantId, a.id, a);
  }

  lemma AssistantsPatchKeeps(s: Store, id: Id, p: Patch, allowed: bool)
    requires StoreInv(s)
    ensures StoreInv(AssistantsPatch(s, id, p, allowed).0)
  {
    FindMember(s.assistants, AssistantId, id);
    var s' := AssistantsPatch(s, id, p, allowed).0;
    if s' != s {
      var v := s'.versions[|s.versions|];
      ReplaceAssistantKeeps(s, Assistant(id, v.version, v.settings), s.versions + [v]);
    }
  }

  lemma AssistantsSetLatestKeeps(s: Store, id: Id, n: nat, allowed: bool)
    requires StoreInv(s)
    ensures StoreInv(AssistantsSetLatest(s, id, n, allowed).0)
  {
    FindMember(s.assistants, AssistantId, id);
    match Find(s.assistants, AssistantId, id)
    case None =>
    case Some(a) =>
      var found := Where(s.versions, NumberedVersion(id, n));
      if found != [] {
        var v := found[0];
        ReplaceAssistantKeeps(
          s, Assistant(id, v.version, v.settings.(graphId := a.settings.graphId, context := a.settings.context)), s.versions);
      }
  }

  lemma {:induction false} DeleteThreadsKeeps(s: Store, threads: seq<Thread>, deletable: set<Id>)
    requires StoreInv(s)
    ensures StoreInv(DeleteThreads(s, threads, deletable))
    decreases |threads|
  {
    if threads != [] {
      ThreadsDeleteKeeps(s, threads[0].id, threads[0].id in deletable);
      var r := ThreadsDelete(s, threads[0].id, threads[0].id in deletable);
      DeleteThreadsKeeps(if r.Ok? then r.value else s, threads[1..], deletable);
    }
  }

  lemma RemoveAssistantKeeps(s: Store, id: Id)
    requires StoreInv(s)
    ensures StoreInv(s.(assistants := Where(s.assistants, NotAssistant(id)),
                        versions := Where(s.versions, NotOfId(id)),
                        crons := Where(s.crons, CronNotOf(id))))
  {
    WhereMembers(s.assistants, NotAssistant(id), AssistantId);
    WhereMembers(s.crons, CronNotOf(id), CronId);
    var assistants := Where(s.assistants, NotAssistant(id));
    forall k | k in Assistants(s) && k != id ensures k in Keys(assistants, AssistantId) {
      var a :| a in s.assistants && a.id == k;
      KeyOfMember(assistants, AssistantId, a);
    }
    forall v | v in Where(s.versions, NotOfId(id)) ensures v in s.versions && v.assistant != id {
      WhereMember(s.versions, NotOfId(id), v);
    }
  }

  lemma AssistantsDeleteKeeps(
    s: Store, id: Id, allowed: bool, deleteThreads: bool, deletable: set<Id>, permitted: set<Id>)
    requires StoreInv(s)
    ensures StoreInv(AssistantsDelete(s, id, allowed, deleteThreads, deletable, permitted).0)
  {
    var s1 := if deleteThreads then DeleteThreads(s, Where(s.threads, OwnedBy(id)), deletable) else s;
    DeleteThreadsKeeps(s, Where(s.threads, OwnedBy(id)), deletable);
    RunsCancelKeeps(s1, CancelArgs(OfAssistant(id), false, permitted, {}));
    RemoveAssistantKeeps(RunsCancel(s1, CancelArgs(OfAssistant(id), false, permitted, {})), id);
  }
}
