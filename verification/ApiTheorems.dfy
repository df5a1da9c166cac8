/** What each call of the API does to the store of a history, told without the operation it is passed to. */
module ApiTheorems {
  import opened Wrappers
  import opened KeyedLists
  import opened RunStore
  import opened RunStoreInvariant
  import opened RunsCancelTheorems
  import opened StoreEffects
  import opened Scheduler

    /** Each call of the API in a history has its effect on the store. */
  lemma ApiCallsAct(s: Store, a: StoreAction)
    requires StoreInv(s) && StoreEnabled(s, a)
    ensures var s' := StoreStep(s, a);
            match a
            case PutThread(thread, owner) =>
              s' == if thread in Threads(s) then s else s.(threads := s.threads + [Thread(thread, Idle, owner)])
            case PostThreadState(thread, hasNext, error) =>
              && s' == s.(threads := s'.threads)
              && forall t | t in s.threads && t.id == thread ::
                   t.(status := if HasActive(s.runs, thread) then Busy else if error then ThreadError
                                else if hasNext then ThreadInterrupted else Idle) in s'.threads
            case DeleteThread(thread, allowed) =>
              forall t :: t in s'.threads <==> t in s.threads && !(allowed && t.id == thread)
            case PutRun(p) =>
              p.assistant in Assistants(s) && p.assistantAllowed && ThreadUsable(s, p) && !p.preventIfInflight ==>
                s'.runs == s.runs + [Run(p.run, OrElse(p.thread, p.newThread), p.assistant, Pending, p.createdAt, p.temporary)]
            case DeleteRun(run, thread, allowed) =>
              (exists r | r in s.runs :: r.id == run && r.thread == thread) ==>
                forall r :: r in s'.runs <==> r in s.runs && !(allowed && r.id == run)
            case CancelRuns(c) =>
              forall r | r in s'.runs && r.thread in c.permitted ::
                && (c.sel.OfAssistant? && r.assistant == c.sel.assistant ==> !IsActive(r))
                && (c.sel.WithStatus? ==> !(c.sel.pending && r.status == Pending) && !(c.sel.running && r.status == Running))
                && (c.sel.Named? && r.thread == c.sel.thread && r.id in c.sel.runs ==> !IsActive(r))
            case PutCron(cron, assistant, onThread, allowed) =>
              assistant in Assistants(s) && allowed && (onThread.Some? ==> onThread.value in Threads(s)) ==>
                cron in Keys(s'.crons, CronId)
            case DeleteCron(cron, allowed) =>
              forall c :: c in s'.crons <==> c in s.crons && !(allowed && c.id == cron)
            case PutAssistant(assistant, settings, _, _) =>
              assistant in Assistants(s')
              || (settings.context != [] && settings.config.configurable.Some? && settings.config.configurable.value != [])
            case PatchAssistant(assistant, p, allowed) =>
              || |s'.versions| == |s.versions| + 1
              || assistant !in Assistants(s) || !allowed
              || (p.context.Some? && p.context.value != [] && p.config.configurable.Some? && p.config.configurable.value != [])
            case SetLatest(assistant, version, allowed) =>
              allowed && assistant in Assistants(s) && (exists v | v in s.versions :: v.assistant == assistant && v.version == version) ==>
                exists x | x in s'.assistants :: x.id == assistant && x.version == version
            case DeleteAssistant(assistant, allowed, _, _, _) => allowed ==> assistant !in Assistants(s')
  {
    match a
    case PutThread(thread, owner) => ThreadPutTells(s, thread, owner);
    case PostThreadState(thread, hasNext, error) => SetStatusTells(s, thread, hasNext, error);
    case DeleteThread(thread, allowed) => ThreadDeleteActs(s, thread, allowed);
    case PutRun(p) => PutAddsOneRun(s, p);
    case DeleteRun(run, thread, allowed) => RunDeleteTells(s, run, thread, allowed);
    case CancelRuns(c) => forall r | r in RunsCancel(s, c).runs ensures !Cancelable(c, r) { CancelledRuns(s, c, r); }
    case PutCron(cron, assistant, onThread, allowed) =>
      if assistant in Assistants(s) && allowed && (onThread.Some? ==> onThread.value in Threads(s)) {
        CronPutActs(s, cron, assistant, onThread, allowed);
      }
    case DeleteCron(cron, allowed) => CronDeleteTells(s, cron, allowed);
    case PutAssistant(assistant, settings, doNothing, allowed) => AssistantPutActs(s, assistant, settings, doNothing, allowed);
    case PatchAssistant(assistant, p, allowed) => AssistantPatchTells(s, assistant, p, allowed);
    case SetLatest(assistant, version, allowed) => SetLatestActs(s, assistant, version, allowed);
    case DeleteAssistant(assistant, allowed, deleteThreads, deletable, permitted) =>
      if allowed { AssistantDeleteActs(s, assistant, deleteThreads, deletable, permitted); }
  }

  lemma ThreadDeleteActs(s: Store, thread: Id, allowed: bool)
    requires StoreInv(s)
    ensures forall t :: t in OrSame(ThreadsDelete(s, thread, allowed), s).threads <==>
              t in s.threads && !(allowed && t.id == thread)
  {
    ThreadDeleteCascades(s, thread, allowed);
    assert forall t | t in s.threads :: t.id in Threads(s);
  }

  lemma CronPutActs(s: Store, cron: Id, assistant: Id, onThread: Option<Id>, allowed: bool)
    requires StoreInv(s) && assistant in Assistants(s) && allowed && (onThread.Some? ==> onThread.value in Threads(s))
    ensures CronsPut(s, cron, assistant, onThread, allowed).Ok?
    ensures cron in Keys(CronsPut(s, cron, assistant, onThread, allowed).value.crons, CronId)
  {
    CronPutIff(s, cron, assistant, onThread, allowed);
    var s' := CronsPut(s, cron, assistant, onThread, allowed).value;
    if cron in Keys(s.crons, CronId) {
      var c :| c in s.crons && c.id == cron;
      KeyOfMember(s'.crons, CronId, c);
    } else {
      KeyOfMember(s'.crons, CronId, Cron(cron, assistant, onThread));
    }
  }

  lemma AssistantPutActs(s: Store, id: Id, x: Settings, doNothing: bool, allowed: bool)
    requires StoreInv(s)
    ensures id in Assistants(AssistantsPut(s, id, x, doNothing, allowed).0)
            || (x.context != [] && x.config.configurable.Some? && x.config.configurable.value != [])
  {
    AssistantPutTells(s, id, x, doNothing, allowed);
    var s' := AssistantsPut(s, id, x, doNothing, allowed).0;
    if s' != s { KeyOfMember(s'.assistants, AssistantId, s'.assistants[|s.assistants|]); }
  }

  lemma SetLatestActs(s: Store, id: Id, n: nat, allowed: bool)
    requires StoreInv(s)
    ensures allowed && id in Assistants(s) && (exists v | v in s.versions :: v.assistant == id && v.version == n) ==>
              exists x | x in AssistantsSetLatest(s, id, n, allowed).0.assistants :: x.id == id && x.version == n
  {
    SetLatestRefused(s, id, n, allowed);
    FindMember(s.assistants, AssistantId, id);
    var found := Where(s.versions, NumberedVersion(id, n));
    var a := Find(s.assistants, AssistantId, id);
    if allowed && a.Some? && found != [] {
      WhereMember(s.versions, NumberedVersion(id, n), found[0]);
      var x := Assistant(id, n, found[0].settings.(graphId := a.value.settings.graphId, context := a.value.settings.context));
      ReplaceMembers(s.assistants, AssistantId, id, x);
    }
  }

  lemma AssistantDeleteActs(s: Store, id: Id, deleteThreads: bool, deletable: set<Id>, permitted: set<Id>)
    requires StoreInv(s)
    ensures id !in Assistants(AssistantsDelete(s, id, true, deleteThreads, deletable, permitted).0)
  {
    AssistantDeleteRefused(s, id, true, deleteThreads, deletable, permitted);
    if id in Assistants(s) {
      AssistantDeleteCascades(s, id, deleteThreads, deletable, permitted,
                              (t: Id) => GoesWith(s, id, deleteThreads, deletable, t));
    }
  }
}
