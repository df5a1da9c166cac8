/**
  The operations of src/langgraph_runtime_inmem/ops.py on the store's lists, changed in
  place.  Each method's new state is the one the functions of `RunStore` give.
 */
module InMemStore {
  import opened Wrappers
  import opened KeyedLists
  import opened RunStore
  import opened RunStoreInvariant
  import opened RunsCancelTheorems

  class GlobalStore {
    var runs: seq<Run>
    var threads: seq<Thread>
    var crons: seq<Cron>
    var assistants: seq<Assistant>
    var versions: seq<Version>
    var attempts: map<Id, nat>

    ghost function View(): Store
      reads this
    {
      Store(runs, threads, crons, assistants, versions, attempts)
    }

    ghost predicate Valid()
      reads this
    {
      StoreInv(View())
    }

    constructor ()
      ensures Valid() && View() == EmptyStore
    {
      runs, threads, crons, assistants, versions, attempts := [], [], [], [], [], map[];
    }

    // ---------------------------------------------------------------- Threads

    method PutThread(id: Id, owner: Option<Id>)
      requires Valid()
      modifies this
      ensures Valid() && View() == ThreadsPut(old(View()), id, owner)
    {
      ThreadsPutKeeps(View(), id, owner);
      if Find(threads, ThreadId, id).None? {
        threads := threads + [Thread(id, Idle, owner)];
      }
    }

    method SetThreadStatus(thread: Id, hasNext: bool, error: bool) returns (found: bool)
      requires Valid()
      modifies this
      ensures Valid() && View() == ThreadsSetStatus(old(View()), thread, hasNext, error)
      ensures found <==> thread in Threads(View())
    {
      ThreadsSetStatusKeeps(View(), thread, hasNext, error);
      FindMember(threads, ThreadId, thread);
      var t := Find(threads, ThreadId, thread);
      found := t.Some?;
      if found {
        var status := if error then ThreadError else if hasNext then ThreadInterrupted else Idle;
        if HasActive(runs, thread) { status := Busy; }
        ghost var t' := t.value.(status := status);
        ReplaceMembers(threads, ThreadId, thread, t');
        threads := Replace(threads, ThreadId, t.value.id, t.value.(status := status));
      }
    }

    /** The deleting loop of `Runs.delete`. */
    method RemoveRun(run: Id, thread: Id) returns (found: bool)
      requires Unique(runs, RunId)
      modifies this`runs
      ensures var f := Find(Where(old(runs), OnThread(thread)), RunId, run);
              && found == f.Some?
              && runs == if found then Where(old(runs), NotRun(f.value)) else old(runs)
    {
      var i := 0;
      while i < |runs| && !(runs[i].id == run && runs[i].thread == thread)
        invariant 0 <= i <= |runs|
        invariant forall j | 0 <= j < i :: !(OnThread(thread)(runs[j]) && RunId(runs[j]) == run)
      {
        i := i + 1;
      }
      found := i < |runs|;
      if found {
        FindWhere(runs, OnThread(thread), RunId, run, i);
        RemoveAt(runs, i, NotRun(runs[i]));
        runs := runs[..i] + runs[i + 1..];
      } else {
        FindNone(runs, OnThread(thread), RunId, run);
      }
    }

    /** The run part of `set_joint_status`. */
    method ApplyVerdict(r: Run, verdict: Verdict)
      requires Valid() && r in runs
      modifies this`runs
      ensures View() == JointRuns(old(View()), r, verdict)
    {
      match verdict
      case Rollback =>
        FoundRun(View(), r.thread, r.id);
        var found := RemoveRun(r.id, r.thread);
      case Final(status) =>
        runs := Replace(runs, RunId, r.id, r.(status := status));
    }

    method SetJointStatus(thread: Id, run: Id, verdict: Verdict, hasNext: bool, error: bool) returns (ok: bool)
      requires Valid() && verdict != Final(Running)
      modifies this
      ensures Valid()
      ensures var r := RunStore.SetJointStatus(old(View()), thread, run, verdict, hasNext, error);
              ok == r.Ok? && View() == if ok then r.value else old(View())
    {
      SetJointStatusKeeps(View(), thread, run, verdict, hasNext, error);
      FoundRun(View(), thread, run);
      var t := Find(threads, ThreadId, thread);
      var r := Find(Where(runs, OnThread(thread)), RunId, run);
      if t.None? || r.None? { return false; }
      ok := true;
      var status := if error then ThreadError else if hasNext then ThreadInterrupted else Idle;
      ApplyVerdict(r.value, verdict);
      if verdict == Final(Pending) || HasActive(runs, thread) { status := Busy; }
      threads := Replace(threads, ThreadId, t.value.id, t.value.(status := status));
    }

    method DeleteThread(thread: Id, allowed: bool) returns (ok: bool)
      requires Valid()
      modifies this
      ensures Valid()
      ensures var r := ThreadsDelete(old(View()), thread, allowed);
              ok == r.Ok? && View() == if ok then r.value else old(View())
    {
      ThreadsDeleteKeeps(View(), thread, allowed);
      var i := FindThread(thread);
      ok := allowed && i < |threads|;
      if ok {
        runs := Where(runs, OffThread(thread));
        crons := Where(crons, CronOffThread(thread));
        RemoveAt(threads, i, NotThread(thread));
        threads := threads[..i] + threads[i + 1..];
      }
    }

    method FindThread(thread: Id) returns (i: nat)
      requires Unique(threads, ThreadId)
      ensures i <= |threads|
      ensures i < |threads| <==> Find(threads, ThreadId, thread).Some?
      ensures i < |threads| ==> forall j | 0 <= j < |threads| :: NotThread(thread)(threads[j]) <==> j != i
    {
      FindMember(threads, ThreadId, thread);
      i := 0;
      while i < |threads| && threads[i].id != thread
        invariant 0 <= i <= |threads|
        invariant forall j | 0 <= j < i :: threads[j].id != thread
      {
        i := i + 1;
      }
    }

    // ---------------------------------------------------------------- Runs

    /** The thread part of `Runs.put`; `thread` is None if there is no thread to use. */
    method UseThread(p: PutArgs) returns (thread: Option<Id>)
      modifies this`threads
      ensures match EnsureThread(old(View()), p)
              case None => thread.None? && threads == old(threads)
              case Some((s, t)) => thread == Some(t) && View() == s
    {
      var found := if p.thread.Some? then Find(threads, ThreadId, p.thread.value) else None;
      if found.Some? && !p.threadAllowed { return None; }
      if found.None? && (p.thread.None? || p.createMissing) {
        var id := if p.thread.Some? then p.thread.value else p.newThread;
        threads := threads + [Thread(id, Busy, p.owner)];
        thread := Some(id);
      } else if found.Some? {
        var t := found.value;
        if t.status != Busy {
          threads := Replace(threads, ThreadId, t.id, Thread(t.id, Busy, Some(p.assistant)));
        }
        thread := Some(t.id);
      } else {
        thread := None;
      }
    }

    method PutRun(p: PutArgs) returns (reply: PutReply)
      requires Valid() && FreshIds(View(), p)
      modifies this
      ensures Valid()
      ensures (View(), reply) == RunsPut(old(View()), p)
    {
      RunsPutKeeps(View(), p);
      if Find(assistants, AssistantId, p.assistant).None? || !p.assistantAllowed { return Refused; }
      var thread := UseThread(p);
      if thread.None? { return Refused; }
      var inflight := Where(runs, ActiveOn(thread.value));
      if p.preventIfInflight && inflight != [] { return Inflight(inflight); }
      var run := Run(p.run, thread.value, p.assistant, Pending, p.createdAt, p.temporary);
      runs := runs + [run];
      reply := Created(run, inflight);
    }

    method DeleteRun(run: Id, thread: Id, allowed: bool) returns (ok: bool)
      requires Valid()
      modifies this
      ensures Valid()
      ensures var r := RunsDelete(old(View()), run, thread, allowed);
              ok == r.Ok? && View() == if ok then r.value else old(View())
    {
      RunsDeleteKeeps(View(), run, thread, allowed);
      if !allowed { return true; }
      ok := RemoveRun(run, thread);
    }

    method SetRunStatus(run: Id, status: RunStatus)
      requires Valid() && status != Running
      modifies this
      ensures Valid() && View() == RunsSetStatus(old(View()), run, status)
    {
      RunsSetStatusKeeps(View(), run, status);
      var r := Find(runs, RunId, run);
      if r.Some? { runs := Replace(runs, RunId, r.value.id, r.value.(status := status)); }
    }

    /** `Runs.next` */
    method NextRuns(limit: nat, now: int) returns (out: seq<(Run, nat)>)
      requires Valid()
      modifies this
      ensures Valid()
      ensures (View(), out) == RunsNext(old(View()), limit, now)
    {
      var pending := StableSort.Sort(Where(runs, DueAt(now)), OlderOrSame);
      var todo := Take(pending, limit);
      ghost var s := View();
      StartAllKeeps(s, todo);
      out := [];
      var i := 0;
      while i < |todo|
        invariant 0 <= i <= |todo|
        invariant StartAll(View(), todo[i..]).0 == StartAll(s, todo).0
        invariant out + StartAll(View(), todo[i..]).1 == StartAll(s, todo).1
      {
        StartNext(View(), todo, i, out);
        var started := TryStart(todo[i]);
        if started.Some? { out := out + [started.value]; }
        i := i + 1;
      }
      assert todo[i..] == [] && out + [] == out;
    }

    /** One turn of the loop of `Runs.next`: the run, if it starts, with its attempt number. */
    method TryStart(run: Run) returns (started: Option<(Run, nat)>)
      modifies this
      ensures if CanStart(old(View()), run) then
                View() == Start(old(View()), run) && started == Some((run.(status := Running), Attempt(old(View()), run.id)))
              else View() == old(View()) && started.None?
    {
      if Find(runs, RunId, run.id) != Some(run) { return None; }
      if Find(threads, ThreadId, run.thread).None? { return None; }
      if exists r | r in runs :: r.thread == run.thread && r.status == Running { return None; }
      var attempt := (if run.id in attempts then attempts[run.id] else 0) + 1;
      attempts := attempts[run.id := attempt];
      runs := Replace(runs, RunId, run.id, run.(status := Running));
      started := Some((run.(status := Running), attempt));
    }

    /** One turn of the loop of `Runs.cancel` for a run that is not deleted. */
    method InterruptRun(run: Run)
      modifies this
      ensures View() == Interrupt(old(View()), run)
    {
      if run.status == Pending {
        var t := Find(threads, ThreadId, run.thread);
        if t.Some? { threads := Replace(threads, ThreadId, t.value.id, t.value.(status := Idle)); }
      }
      runs := Replace(runs, RunId, run.id, run.(status := RunStatus.Interrupted));
    }

    /** The loop of `Runs.cancel`; `doomed` are the runs whose deletion it collects. */
    method InterruptEach(c: CancelArgs, victims: seq<Run>) returns (doomed: seq<Run>)
      requires LoopsOver(View(), victims)
      modifies this
      ensures View() == InterruptAll(old(View()), c, victims)
      ensures doomed == Where(victims, EagerBy(c))
    {
      ghost var s := View();
      doomed := [];
      var i := 0;
      while i < |victims|
        invariant 0 <= i <= |victims|
        invariant LoopsOver(View(), victims[i..])
        invariant InterruptAll(View(), c, victims[i..]) == InterruptAll(s, c, victims)
        invariant doomed == Where(victims[..i], EagerBy(c))
      {
        LoopStep(View(), victims[i..]);
        assert victims[i..][0] == victims[i] && victims[i..][1..] == victims[i + 1..];
        EagerNext(c, victims, i);
        if Eager(c, victims[i]) {
          doomed := doomed + [victims[i]];
        } else {
          InterruptRun(victims[i]);
        }
        i := i + 1;
      }
      assert victims[i..] == [] && victims[..i] == victims;
    }

    /** `Runs.cancel`; `cancelled` is empty where the source answers 404. */
    method CancelRuns(c: CancelArgs) returns (cancelled: seq<Run>)
      requires Valid()
      modifies this
      ensures Valid() && View() == RunsCancel(old(View()), c)
      ensures cancelled == Where(old(runs), CancelableBy(c))
    {
      ghost var s := View();
      RunsCancelKeeps(s, c);
      cancelled := Where(runs, CancelableBy(c));
      WhereMembers(runs, CancelableBy(c), RunId);
      var doomed := InterruptEach(c, cancelled);
      DoomedOnly(runs, c, cancelled);
      DoomedStay(s, c, cancelled, doomed);
      DeleteDoomed(c, doomed);
    }

    /** The eager deletions that the loop collected. */
    method DeleteDoomed(c: CancelArgs, doomed: seq<Run>)
      requires Stored(runs, doomed) && forall r | r in doomed :: Eager(c, r)
      modifies this`runs
      ensures runs == DeleteEach(old(runs), c, doomed)
    {
      var i := 0;
      while i < |doomed|
        invariant 0 <= i <= |doomed|
        invariant Stored(runs, doomed[i..])
        invariant DeleteEach(runs, c, doomed[i..]) == DeleteEach(old(runs), c, doomed)
      {
        var run := doomed[i];
        assert run in doomed;
        assert doomed[i..][0] == run && doomed[i..][1..] == doomed[i + 1..];
        StoredNext(runs, doomed[i..]);
        var found := RemoveRun(run.id, run.thread);
        i := i + 1;
      }
      assert doomed[i..] == [];
    }

    // ---------------------------------------------------------------- Crons

    method PutCron(id: Id, assistant: Id, thread: Option<Id>, allowed: bool) returns (ok: bool)
      requires Valid()
      modifies this
      ensures Valid()
      ensures var r := CronsPut(old(View()), id, assistant, thread, allowed);
              ok == r.Ok? && View() == if ok then r.value else old(View())
    {
      CronsPutKeeps(View(), id, assistant, thread, allowed);
      if Find(assistants, AssistantId, assistant).None? || !allowed { return false; }
      if thread.Some? && Find(threads, ThreadId, thread.value).None? { return false; }
      if Find(crons, CronId, id).None? { crons := crons + [Cron(id, assistant, thread)]; }
      ok := true;
    }

    method DeleteCron(id: Id, allowed: bool)
      requires Valid()
      modifies this
      ensures Valid() && View() == CronsDelete(old(View()), id, allowed)
    {
      CronsDeleteKeeps(View(), id, allowed);
      crons := Where(crons, NotCron(id, allowed));
    }

    // ---------------------------------------------------------------- Assistants

    method PutAssistant(id: Id, x: Settings, doNothing: bool, allowed: bool) returns (reply: AssistantReply)
      requires Valid()
      modifies this
      ensures Valid() && (View(), reply) == AssistantsPut(old(View()), id, x, doNothing, allowed)
    {
      AssistantsPutKeeps(View(), id, x, doNothing, allowed);
      var unified := UnifyContext(x.config, Some(x.context));
      KeptAlikeIff(x.config, Some(x.context), unified);
      if unified.Err? { return BadRequest; }
      if Find(assistants, AssistantId, id).Some? {
        return if allowed && doNothing then AssistantDone else Conflict;
      }
      var (config, context) := unified.value;
      var settings := x.(config := config, context := if context.Some? then context.value else x.context);
      assistants := assistants + [Assistant(id, 1, settings)];
      versions := versions + [Version(id, 1, settings)];
      reply := AssistantDone;
    }

    /** `max(v["version"] ...)` */
    method LatestVersion(id: Id) returns (n: nat)
      ensures n == MaxVersion(Where(versions, OfId(id)))
    {
      n := 0;
      var i := 0;
      while i < |versions|
        invariant 0 <= i <= |versions|
        invariant n == MaxVersion(Where(versions[..i], OfId(id)))
      {
        var v := versions[i];
        assert versions[..i + 1] == versions[..i] + [v];
        WhereAppend(versions[..i], [v], OfId(id));
        assert Where([v], OfId(id)) == if v.assistant == id then [v] else [];
        if v.assistant == id {
          MaxOfAppend(Where(versions[..i], OfId(id)), v);
          if v.version > n { n := v.version; }
        } else {
          assert Where(versions[..i], OfId(id)) + [] == Where(versions[..i], OfId(id));
        }
        i := i + 1;
      }
      assert versions[..i] == versions;
    }

    /** The new version entry of `Assistants.patch`, and the assistant's update to it. */
    method Revise(id: Id, settings: Settings)
      modifies this
      ensures View() == Revised(old(View()), id, settings)
    {
      var latest := LatestVersion(id);
      versions := versions + [Version(id, latest + 1, settings)];
      assistants := Replace(assistants, AssistantId, id, Assistant(id, latest + 1, settings));
    }

    method PatchAssistant(id: Id, p: Patch, allowed: bool) returns (reply: AssistantReply)
      requires Valid()
      modifies this
      ensures Valid() && (View(), reply) == AssistantsPatch(old(View()), id, p, allowed)
    {
      AssistantsPatchKeeps(View(), id, p, allowed);
      var unified := UnifyContext(p.config, p.context);
      KeptAlikeIff(p.config, p.context, unified);
      if unified.Err? { return BadRequest; }
      var found := Find(assistants, AssistantId, id);
      if found.None? || !allowed { return NotFound; }
      var (config, context) := unified.value;
      Revise(id, Patched(found.value.settings, p, config, context));
      reply := AssistantDone;
    }

    method SetLatest(id: Id, n: nat, allowed: bool) returns (reply: AssistantReply)
      requires Valid()
      modifies this
      ensures Valid() && (View(), reply) == AssistantsSetLatest(old(View()), id, n, allowed)
    {
      AssistantsSetLatestKeeps(View(), id, n, allowed);
      var found := Find(assistants, AssistantId, id);
      if found.None? || !allowed { return NotFound; }
      var a := found.value;
      var matching := Where(versions, NumberedVersion(id, n));
      if matching == [] { return NotFound; }
      var v := matching[0];
      var settings := Settings(a.settings.graphId, v.settings.config, a.settings.context, v.settings.metadata,
                               v.settings.name, v.settings.description);
      assistants := Replace(assistants, AssistantId, id, Assistant(id, v.version, settings));
      reply := AssistantDone;
    }

    /** The cascade over the threads an assistant owns. */
    method DeleteOwnedThreads(owned: seq<Thread>, deletable: set<Id>)
      requires Valid()
      modifies this
      ensures Valid() && View() == DeleteThreads(old(View()), owned, deletable)
    {
      var i := 0;
      while i < |owned|
        invariant 0 <= i <= |owned|
        invariant Valid() && DeleteThreads(View(), owned[i..], deletable) == DeleteThreads(old(View()), owned, deletable)
      {
        assert owned[i..][0] == owned[i] && owned[i..][1..] == owned[i + 1..];
        var ok := DeleteThread(owned[i].id, owned[i].id in deletable);   // a refusal is only logged
        i := i + 1;
      }
      assert owned[i..] == [];
    }

    method DeleteAssistant(id: Id, allowed: bool, deleteThreads: bool, deletable: set<Id>, permitted: set<Id>)
      returns (reply: AssistantReply)
      requires Valid()
      modifies this
      ensures Valid()
      ensures (View(), reply) == AssistantsDelete(old(View()), id, allowed, deleteThreads, deletable, permitted)
    {
      AssistantsDeleteKeeps(View(), id, allowed, deleteThreads, deletable, permitted);
      if Find(assistants, AssistantId, id).None? || !allowed { return NotFound; }
      if deleteThreads { DeleteOwnedThreads(Where(threads, OwnedBy(id)), deletable); }
      var cancelled := CancelRuns(CancelArgs(OfAssistant(id), false, permitted, {}));
      assistants := Where(assistants, NotAssistant(id));
      versions := Where(versions, NotOfId(id));
      crons := Where(crons, CronNotOf(id));
      reply := AssistantDone;
    }
  }

  /**
    `r` keeps config and context alike: it refuses exactly two non-empty ones, turns one
    into both, and leaves everything else alone.
   */
  ghost predicate KeptAlike(config: Config, context: Option<Json>, r: Result<(Config, Option<Json>), ()>)
  {
    var x, y := Configurable(config), OrElse(context, []);
    && (r.Err? <==> x != [] && y != [])
    && (r.Ok? ==>
          && r.value.0.other == config.other
          && (x != [] || y != [] ==>
                && r.value.0.configurable == r.value.1
                && r.value.1 in {Some(x), Some(y)} - {Some([])})
          && (x == [] && y == [] ==> r.value == (config, context)))
  }

  /** Being kept alike determines the result. */
  lemma KeptAlikeIff(config: Config, context: Option<Json>, r: Result<(Config, Option<Json>), ()>)
    ensures KeptAlike(config, context, r) <==> r == Unify(config, context)
  {
    match r
    case Err(e) => assert e == ();
    case Ok(v) =>
      assert v == (v.0, v.1) && v.0 == Config(v.0.configurable, v.0.other);
      assert config == Config(config.configurable, config.other);
  }

  /** "Keep config and context up to date with one another." */
  method UnifyContext(config: Config, context: Option<Json>) returns (r: Result<(Config, Option<Json>), ()>)
    ensures KeptAlike(config, context, r)
  {
    var config', context' := config, context;
    var given := context.Some? && context.value != [];
    if Configurable(config) != [] && given { return Err(()); }
    if Configurable(config) != [] {
      context' := config.configurable;
    } else if given {
      config' := config.(configurable := context);
    }
    r := Ok((config', context'));
  }

  // ---------------------------------------------------------------- what the loops need

  ghost predicate Stored(runs: seq<Run>, doomed: seq<Run>)
  {
    Unique(runs, RunId) && Unique(doomed, RunId) && forall r | r in doomed :: r in runs
  }

  lemma StoredNext(runs: seq<Run>, doomed: seq<Run>)
    requires Stored(runs, doomed) && doomed != []
    ensures Find(Where(runs, OnThread(doomed[0].thread)), RunId, doomed[0].id) == Some(doomed[0])
    ensures Stored(Where(runs, NotRun(doomed[0])), doomed[1..])
  {
    var run := doomed[0];
    UniqueTail(doomed, RunId);
    WhereMembers(runs, OnThread(run.thread), RunId);
    FindUnique(Where(runs, OnThread(run.thread)), RunId, run);
    WhereMembers(runs, NotRun(run), RunId);
  }

  function EagerBy(c: CancelArgs): Run -> bool { (r: Run) => Eager(c, r) }

  lemma StartNext(s: Store, todo: seq<Run>, i: nat, out: seq<(Run, nat)>)
    requires i < |todo|
    ensures var r := todo[i];
            var s' := if CanStart(s, r) then Start(s, r) else s;
            var out' := if CanStart(s, r) then out + [(r.(status := Running), Attempt(s, r.id))] else out;
            && StartAll(s', todo[i + 1..]).0 == StartAll(s, todo[i..]).0
            && out' + StartAll(s', todo[i + 1..]).1 == out + StartAll(s, todo[i..]).1
  {
    assert todo[i..][0] == todo[i] && todo[i..][1..] == todo[i + 1..];
  }

  lemma EagerNext(c: CancelArgs, runs: seq<Run>, i: nat)
    requires i < |runs|
    ensures Where(runs[..i + 1], EagerBy(c)) == Where(runs[..i], EagerBy(c)) + (if Eager(c, runs[i]) then [runs[i]] else [])
  {
    assert runs[..i + 1] == runs[..i] + [runs[i]];
    WhereAppend(runs[..i], [runs[i]], EagerBy(c));
    assert Where([runs[i]], EagerBy(c)) == if Eager(c, runs[i]) then [runs[i]] else [];
  }

  lemma {:induction false} DoomedOnly(runs: seq<Run>, c: CancelArgs, victims: seq<Run>)
    ensures DeleteEach(runs, c, Where(victims, EagerBy(c))) == DeleteEach(runs, c, victims)
    decreases |victims|
  {
    if victims != [] {
      var v, rest := victims[0], victims[1..];
      DoomedOnly(if Eager(c, v) then Where(runs, NotRun(v)) else runs, c, rest);
      if Eager(c, v) {
        assert Where(victims, EagerBy(c))[1..] == Where(rest, EagerBy(c));
      } else {
        assert Where(victims, EagerBy(c)) == Where(rest, EagerBy(c));
      }
    }
  }

  /** The runs to delete are still stored, as they were. */
  lemma DoomedStay(s: Store, c: CancelArgs, victims: seq<Run>, doomed: seq<Run>)
    requires LoopsOver(s, victims) && doomed == Where(victims, EagerBy(c))
    ensures Stored(InterruptAll(s, c, victims).runs, doomed) && forall r | r in doomed :: Eager(c, r)
  {
    InterruptAllKeeps(s, c, victims);
    WhereMembers(victims, EagerBy(c), RunId);
    forall r | r in doomed ensures r in InterruptAll(s, c, victims).runs { InterruptAllRuns(s, c, victims, r); }
  }

  lemma {:induction false} MaxOfAppend(versions: seq<Version>, v: Version)
    ensures MaxVersion(versions + [v]) == if v.version > MaxVersion(versions) then v.version else MaxVersion(versions)
  {
    if versions == [] {
      assert [] + [v] == [v];
    } else {
      assert (versions + [v])[1..] == versions[1..] + [v];
      MaxOfAppend(versions[1..], v);
    }
  }
}
