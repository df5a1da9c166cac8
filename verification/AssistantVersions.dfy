/** Assistants and their versions over every history of the store. */
module AssistantVersions {
  import opened Wrappers
  import opened KeyedLists
  import opened RunStore
  import opened RunStoreInvariant
  import opened StoreEffects
  import opened Scheduler
  import opened SchedulerTheorems

  /** The recorded versions of an assistant, oldest first. */
  function Recorded(s: Store, id: Id): seq<Version>
  {
    Where(s.versions, OfId(id))
  }

  /** What `set_latest` brings back. */
  predicate SameRestored(x: Settings, y: Settings)
  {
    x.config == y.config && x.metadata == y.metadata && x.name == y.name && x.description == y.description
  }

  /** Versions of the assistant, numbered 1, 2, ... */
  predicate Numbered(versions: seq<Version>, id: Id)
  {
    forall k | 0 <= k < |versions| :: versions[k].assistant == id && versions[k].version == k + 1
  }

  /** Versions are numbered 1, 2, ... and the assistant agrees with the one it points at. */
  ghost predicate Versioned(s: Store, a: Assistant)
  {
    var versions := Recorded(s, a.id);
    && Numbered(versions, a.id)
    && 1 <= a.version <= |versions|
    && SameRestored(a.settings, versions[a.version - 1].settings)
  }

  ghost predicate VersionsInv(s: Store)
  {
    forall a | a in s.assistants :: Versioned(s, a)
  }

  // ---------------------------------------------------------------- lists of versions

  lemma {:induction false} MaxOfNumbered(versions: seq<Version>, from: nat)
    requires forall k | 0 <= k < |versions| :: versions[k].version == from + k + 1
    ensures MaxVersion(versions) == if versions == [] then 0 else from + |versions|
  {
    if versions != [] {
      MaxOfNumbered(versions[1..], from + 1);
    }
  }

  // ---------------------------------------------------------------- one step

  /** The recorded versions of `id` are those of `s`, and perhaps more. */
  ghost predicate Extends(s: Store, s': Store, id: Id)
  {
    Recorded(s, id) <= Recorded(s', id)
  }

  lemma NewVersion(s: Store, v: Version, id: Id)
    ensures Recorded(s.(versions := s.versions + [v]), id) == Recorded(s, id) + (if v.assistant == id then [v] else [])
  {
    WhereAppend(s.versions, [v], OfId(id));
    assert Where([v], OfId(id)) == if v.assistant == id then [v] else [];
  }

  lemma PutKeepsVersions(s: Store, id: Id, x: Settings, doNothing: bool, allowed: bool, b: Id)
    requires StoreInv(s) && VersionsInv(s)
    ensures VersionsInv(AssistantsPut(s, id, x, doNothing, allowed).0)
    ensures Extends(s, AssistantsPut(s, id, x, doNothing, allowed).0, b)
  {
    var s' := AssistantsPut(s, id, x, doNothing, allowed).0;
    if s' != s {
      var a := s'.assistants[|s.assistants|];
      var v := Version(id, 1, a.settings);
      assert a == Assistant(id, 1, a.settings) && s'.versions == s.versions + [v];
      FindMember(s.assistants, AssistantId, id);
      forall x | x in s.versions ensures !OfId(id)(x) { assert x.assistant in Assistants(s); }
      WhereNone(s.versions, OfId(id));
      NewVersion(s, v, b);
      forall c | c in s'.assistants ensures Versioned(s', c) {
        NewVersion(s, v, c.id);
        if c in s.assistants { KeyOfMember(s.assistants, AssistantId, c); }
      }
    }
  }

  lemma RevisedIsVersioned(s: Store, s': Store, v: Version, c: Assistant)
    requires s'.versions == s.versions + [v] && Numbered(Recorded(s, v.assistant), v.assistant)
    requires v.version == |Recorded(s, v.assistant)| + 1
    requires if c.id == v.assistant then c == Assistant(c.id, v.version, v.settings) else Versioned(s, c)
    ensures Versioned(s', c)
  {
    NewVersion(s, v, c.id);
    assert Recorded(s', c.id) == Recorded(s, c.id) + (if v.assistant == c.id then [v] else []);
  }

  /** Numbers are given without a gap: the greatest is how many there are. */
  lemma LastIsGreatest(s: Store, id: Id)
    requires VersionsInv(s) && id in Assistants(s)
    ensures MaxVersion(Recorded(s, id)) == |Recorded(s, id)| && Numbered(Recorded(s, id), id)
  {
    var a :| a in s.assistants && a.id == id;
    assert Versioned(s, a);
    MaxOfNumbered(Recorded(s, id), 0);
  }

  lemma ReviseKeepsVersions(s: Store, id: Id, settings: Settings, b: Id)
    requires StoreInv(s) && VersionsInv(s) && id in Assistants(s)
    ensures VersionsInv(Revised(s, id, settings)) && Extends(s, Revised(s, id, settings), b)
  {
    LastIsGreatest(s, id);
    var n := |Recorded(s, id)| + 1;
    var a, v, s' := Assistant(id, n, settings), Version(id, n, settings), Revised(s, id, settings);
    assert s'.versions == s.versions + [v] && s'.assistants == Replace(s.assistants, AssistantId, id, a);
    NewVersion(s, v, b);
    ReplaceMembers(s.assistants, AssistantId, id, a);
    forall c | c in s'.assistants ensures Versioned(s', c) {
      assert c == a || (c in s.assistants && c.id != id);
      RevisedIsVersioned(s, s', v, c);
    }
  }

  lemma PatchKeepsVersions(s: Store, id: Id, p: Patch, allowed: bool, b: Id)
    requires StoreInv(s) && VersionsInv(s)
    ensures VersionsInv(AssistantsPatch(s, id, p, allowed).0)
    ensures Extends(s, AssistantsPatch(s, id, p, allowed).0, b)
  {
    FindMember(s.assistants, AssistantId, id);
    match Unify(p.config, p.context)
    case Err(_) =>
    case Ok((config, context)) =>
      match Find(s.assistants, AssistantId, id)
      case None =>
      case Some(a) => ReviseKeepsVersions(s, id, Patched(a.settings, p, config, context), b);
  }

  /** The version that `set_latest` finds. */
  lemma FoundVersion(s: Store, a: Assistant, n: nat)
    requires Versioned(s, a) && Where(s.versions, NumberedVersion(a.id, n)) != []
    ensures 1 <= n <= |Recorded(s, a.id)| && Where(s.versions, NumberedVersion(a.id, n))[0] == Recorded(s, a.id)[n - 1]
  {
    var found := Where(s.versions, NumberedVersion(a.id, n));
    WhereMember(s.versions, NumberedVersion(a.id, n), found[0]);
    WhereMember(s.versions, OfId(a.id), found[0]);
    var k :| 0 <= k < |Recorded(s, a.id)| && Recorded(s, a.id)[k] == found[0];
  }

  lemma SetLatestKeepsVersions(s: Store, id: Id, n: nat, allowed: bool)
    requires StoreInv(s) && VersionsInv(s)
    ensures VersionsInv(AssistantsSetLatest(s, id, n, allowed).0)
    ensures AssistantsSetLatest(s, id, n, allowed).0.versions == s.versions
  {
    var s' := AssistantsSetLatest(s, id, n, allowed).0;
    FindMember(s.assistants, AssistantId, id);
    match Find(s.assistants, AssistantId, id)
    case None =>
    case Some(a) =>
      var found := Where(s.versions, NumberedVersion(id, n));
      if allowed && found != [] {
        FoundVersion(s, a, n);
        var a' := Assistant(id, n, found[0].settings.(graphId := a.settings.graphId, context := a.settings.context));
        assert s'.assistants == Replace(s.assistants, AssistantId, id, a');
        ReplaceMembers(s.assistants, AssistantId, id, a');
        forall c | c in s'.assistants ensures Versioned(s', c) {
          if c.id != id { assert c in s.assistants && Versioned(s, c); } else { assert c == a' && Versioned(s, a); }
        }
      }
  }

  ghost predicate SameAssistants(s: Store, s': Store)
  {
    s'.assistants == s.assistants && s'.versions == s.versions
  }

  lemma DeletedCatalog(s: Store, a: StoreAction)
    requires a.DeleteAssistant? && StoreStep(s, a) != s
    ensures StoreStep(s, a).versions == Where(s.versions, NotOfId(a.assistant))
    ensures StoreStep(s, a).assistants == Where(s.assistants, NotAssistant(a.assistant))
  {
    var owned := Where(s.threads, OwnedBy(a.assistant));
    var s1 := if a.deleteThreads then DeleteThreads(s, owned, a.deletable) else s;
    var c := CancelArgs(OfAssistant(a.assistant), false, a.permitted, {});
    DeleteThreadsSameCatalog(s, owned, a.deletable);
    InterruptAllSameCatalog(s1, c, Where(s1.runs, CancelableBy(c)));
  }

  /** Deleting an assistant deletes its versions and no other. */
  lemma DeleteKeepsVersions(s: Store, a: StoreAction, b: Id)
    requires StoreInv(s) && VersionsInv(s) && a.DeleteAssistant?
    ensures VersionsInv(StoreStep(s, a))
    ensures b != a.assistant ==> Recorded(StoreStep(s, a), b) == Recorded(s, b)
  {
    var id := a.assistant;
    var s' := StoreStep(s, a);
    if s' != s {
      DeletedCatalog(s, a);
      if b != id { WhereWhere(s.versions, NotOfId(id), OfId(b)); }
      WhereMembers(s.assistants, NotAssistant(id), AssistantId);
      forall x | x in s'.assistants ensures Versioned(s', x) {
        WhereWhere(s.versions, NotOfId(id), OfId(x.id));
        assert Versioned(s, x);
      }
    }
  }

  lemma OtherApiSameAssistants(s: Store, a: StoreAction)
    requires !a.PutAssistant? && !a.PatchAssistant? && !a.SetLatest? && !a.DeleteAssistant?
    ensures SameAssistants(s, StoreStep(s, a))
  {
    match a
    case CancelRuns(c) => InterruptAllSameCatalog(s, c, Where(s.runs, CancelableBy(c)));
    case _ =>
  }

  lemma ApiKeepsVersions(s: Store, a: StoreAction, b: Id)
    requires StoreInv(s) && VersionsInv(s)
    ensures VersionsInv(StoreStep(s, a))
    ensures !(a.DeleteAssistant? && a.assistant == b) ==> Extends(s, StoreStep(s, a), b)
  {
    match a
    case PutAssistant(id, settings, doNothing, allowed) => PutKeepsVersions(s, id, settings, doNothing, allowed, b);
    case PatchAssistant(id, patch, allowed) => PatchKeepsVersions(s, id, patch, allowed, b);
    case SetLatest(id, n, allowed) => SetLatestKeepsVersions(s, id, n, allowed);
    case DeleteAssistant(_, _, _, _, _) => DeleteKeepsVersions(s, a, b);
    case _ => OtherApiSameAssistants(s, a);
      assert forall c | c in s.assistants :: Versioned(s, c);
  }

  lemma {:induction false} StartAllSameAssistants(s: Store, todo: seq<Run>)
    ensures SameAssistants(s, StartAll(s, todo).0)
    decreases |todo|
  {
    if todo != [] {
      if CanStart(s, todo[0]) { StartAllSameAssistants(Start(s, todo[0]), todo[1..]); }
      else { StartAllSameAssistants(s, todo[1..]); }
    }
  }

  lemma WorldStepKeepsVersions(w: World, l: Limits, a: Action, b: Id)
    requires Inv(w, l) && VersionsInv(w.store) && Enabled(w, a)
    ensures VersionsInv(Apply(w, l, a).store)
    ensures !(a.Api? && a.a.DeleteAssistant? && a.a.assistant == b) ==> Extends(w.store, Apply(w, l, a).store, b)
  {
    match a
    case Api(sa) => ApiKeepsVersions(w.store, sa, b);
    case Poll(now) =>
      StartAllSameAssistants(w.store, Take(Candidates(w.store, now), w.captured.value));
      KeptIfSame(w.store, Apply(w, l, a).store, b);
    case WorkerEnds(_, _, _) => KeptIfSame(w.store, Apply(w, l, a).store, b);
    case _ =>
  }

  lemma KeptIfSame(s: Store, s': Store, b: Id)
    requires VersionsInv(s) && SameAssistants(s, s')
    ensures VersionsInv(s') && Extends(s, s', b)
  {
    forall c | c in s'.assistants ensures Versioned(s', c) { assert Versioned(s, c); }
  }

  // ---------------------------------------------------------------- histories

  lemma {:induction false} ReachableVersions(l: Limits, acts: seq<Action>)
    requires History(l, acts)
    ensures VersionsInv(Execute(l, acts).value.store)
  {
    if acts != [] {
      var before := acts[..|acts| - 1];
      ReachableVersions(l, before);
      ReachableInv(l, before);
      WorldStepKeepsVersions(Execute(l, before).value, l, acts[|acts| - 1], 0);
    }
  }

  /** After every history the version numbers of a stored assistant are exactly 1..n. */
  lemma NumbersAreContiguous(l: Limits, acts: seq<Action>, a: Assistant, n: nat)
    requires History(l, acts) && a in Execute(l, acts).value.store.assistants
    ensures var s := Execute(l, acts).value.store;
            (exists v | v in s.versions :: v.assistant == a.id && v.version == n) <==> 1 <= n <= |Recorded(s, a.id)|
  {
    ReachableVersions(l, acts);
    var s := Execute(l, acts).value.store;
    assert Versioned(s, a);
    var versions := Recorded(s, a.id);
    if 1 <= n <= |versions| {
      assert versions[n - 1] in versions;
      WhereMember(s.versions, OfId(a.id), versions[n - 1]);
    }
    forall v | v in s.versions && v.assistant == a.id ensures v in versions { WhereMember(s.versions, OfId(a.id), v); }
  }

  /** After every history an assistant's config, metadata, name and description are those of its version. */
  lemma PointsAtItsVersion(l: Limits, acts: seq<Action>, a: Assistant)
    requires History(l, acts) && a in Execute(l, acts).value.store.assistants
    ensures exists v | v in Execute(l, acts).value.store.versions ::
              v.assistant == a.id && v.version == a.version && SameRestored(a.settings, v.settings)
  {
    ReachableVersions(l, acts);
    var s := Execute(l, acts).value.store;
    assert Versioned(s, a);
    var v := Recorded(s, a.id)[a.version - 1];
    WhereMember(s.versions, OfId(a.id), v);
  }

  /** A recorded version never changes, and no number is given again, until the assistant is deleted. */
  lemma {:induction false} VersionsNeverChange(l: Limits, acts: seq<Action>, more: seq<Action>, id: Id)
    requires History(l, acts + more)
    requires forall k | 0 <= k < |more| :: !(more[k].Api? && more[k].a.DeleteAssistant? && more[k].a.assistant == id)
    ensures History(l, acts)
    ensures Recorded(Execute(l, acts).value.store, id) <= Recorded(Execute(l, acts + more).value.store, id)
    decreases |more|
  {
    if more == [] {
      assert acts + more == acts;
    } else {
      var rest := more[..|more| - 1];
      assert (acts + more)[..|acts + more| - 1] == acts + rest;
      VersionsNeverChange(l, acts, rest, id);
      ReachableVersions(l, acts + rest);
      ReachableInv(l, acts + rest);
      var a := more[|more| - 1];
      assert (acts + more)[|acts + more| - 1] == a;
      WorldStepKeepsVersions(Execute(l, acts + rest).value, l, a, id);
    }
  }

  // ---------------------------------------------------------------- set_latest

  /** `set_latest` restores a version completely exactly when graph id and context never differed. */
  lemma SetLatestRestores(s: Store, a: Assistant, n: nat)
    requires StoreInv(s) && VersionsInv(s) && a in s.assistants && 1 <= n <= |Recorded(s, a.id)|
    ensures var v := Recorded(s, a.id)[n - 1];
            var (s', reply) := AssistantsSetLatest(s, a.id, n, true);
            && reply == AssistantDone
            && exists a' | a' in s'.assistants ::
                 && a'.id == a.id && a'.version == n
                 && (a'.settings == v.settings <==>
                     v.settings.graphId == a.settings.graphId && v.settings.context == a.settings.context)
  {
    var a' := LatestSet(s, a, n);
  }

  /** The assistant after `set_latest`. */
  lemma LatestSet(s: Store, a: Assistant, n: nat) returns (a': Assistant)
    requires StoreInv(s) && VersionsInv(s) && a in s.assistants && 1 <= n <= |Recorded(s, a.id)|
    ensures AssistantsSetLatest(s, a.id, n, true).1 == AssistantDone
    ensures a' in AssistantsSetLatest(s, a.id, n, true).0.assistants
    ensures var v := Recorded(s, a.id)[n - 1];
            a' == Assistant(a.id, n, v.settings.(graphId := a.settings.graphId, context := a.settings.context))
  {
    FindUnique(s.assistants, AssistantId, a);
    assert Versioned(s, a);
    var v := Recorded(s, a.id)[n - 1];
    WhereMember(s.versions, OfId(a.id), v);
    WhereMember(s.versions, NumberedVersion(a.id, n), v);
    FoundVersion(s, a, n);
    a' := Assistant(a.id, n, v.settings.(graphId := a.settings.graphId, context := a.settings.context));
    ReplaceMembers(s.assistants, AssistantId, a.id, a');
    KeyOfMember(s.assistants, AssistantId, a);
  }

  /** After a patch of the graph id, going back to version 1 leaves the new graph id. */
  lemma SetLatestKeepsGraph(id: Id)
    ensures var v1 := Settings("a", NoConfig, [], map[], [], None);
            var p := Patch(Some("b"), NoConfig, None, map[], None, None);
            var s1 := AssistantsPut(EmptyStore, id, v1, false, true).0;
            var s2 := AssistantsPatch(s1, id, p, true).0;
            var s3 := AssistantsSetLatest(s2, id, 1, true).0;
            s3.assistants == [Assistant(id, 1, v1.(graphId := "b"))] && s3.versions[0] == Version(id, 1, v1)
  {
    var v1 := Settings("a", NoConfig, [], map[], [], None);
    var p := Patch(Some("b"), NoConfig, None, map[], None, None);
    var s1 := AssistantsPut(EmptyStore, id, v1, false, true).0;
    assert s1.assistants == [Assistant(id, 1, v1)] && s1.versions == [Version(id, 1, v1)];
    var s2 := AssistantsPatch(s1, id, p, true).0;
    var v2 := v1.(graphId := "b");
    assert Where(s1.versions, OfId(id)) == [Version(id, 1, v1)];
    assert v1.metadata + p.metadata == v1.metadata;
    assert MaxVersion([Version(id, 1, v1)]) == 1;
    assert Patched(v1, p, p.config, None) == v2;
    assert s2.assistants == [Assistant(id, 2, v2)];
    assert s2.versions == [Version(id, 1, v1), Version(id, 2, v2)];
    NewVersionNumbered(s2.versions, id);
  }

  lemma NewVersionNumbered(versions: seq<Version>, id: Id)
    requires |versions| == 2 && versions[0].assistant == id && versions[0].version == 1 && versions[1].version == 2
    ensures Where(versions, NumberedVersion(id, 1)) == [versions[0]]
  {
    assert Where(versions[1..], NumberedVersion(id, 1)) == [];
  }

  // ---------------------------------------------------------------- "config and context up to date with one another"

  /** The assistant's context is its config's `configurable`, where a missing one is an empty one. */
  predicate InSync(x: Settings)
  {
    Configurable(x.config) == x.context
  }

  /** A new assistant is in sync. */
  lemma PutIsInSync(s: Store, id: Id, x: Settings, doNothing: bool, allowed: bool)
    requires StoreInv(s) && id !in Assistants(s) && AssistantsPut(s, id, x, doNothing, allowed).1 == AssistantDone
    ensures exists a | a in AssistantsPut(s, id, x, doNothing, allowed).0.assistants :: a.id == id && InSync(a.settings)
  {
    FindMember(s.assistants, AssistantId, id);
    var assistants := AssistantsPut(s, id, x, doNothing, allowed).0.assistants;
    assert assistants[|s.assistants|] in assistants;
  }

  /** What a patch must give so that config and context stay alike. */
  predicate PatchInSync(old_: Settings, p: Patch)
  {
    || Configurable(p.config) != []
    || (p.context.Some? && p.context.value != [])
    || old_.context == []
    || (p.config == NoConfig <==> p.context.None?)
  }

  /**
    A patch keeps an assistant in sync exactly when it gives a non-empty `configurable` or
    context, gives both an empty context and some config or neither, or there is no context
    to lose.
   */
  lemma PatchKeepsInSyncIff(s: Store, a: Assistant, p: Patch)
    requires StoreInv(s) && a in s.assistants && InSync(a.settings)
    requires AssistantsPatch(s, a.id, p, true).1 == AssistantDone
    ensures exists a' | a' in AssistantsPatch(s, a.id, p, true).0.assistants ::
              a'.id == a.id && (InSync(a'.settings) <==> PatchInSync(a.settings, p))
  {
    FindUnique(s.assistants, AssistantId, a);
    KeyOfMember(s.assistants, AssistantId, a);
    var (config, context) := Unify(p.config, p.context).value;
    var settings := Patched(a.settings, p, config, context);
    var s' := Revised(s, a.id, settings);
    var a' := Assistant(a.id, MaxVersion(Recorded(s, a.id)) + 1, settings);
    ReplaceMembers(s.assistants, AssistantId, a.id, a');
    assert s' == AssistantsPatch(s, a.id, p, true).0 && a' in s'.assistants;
    assert InSync(settings) <==> PatchInSync(a.settings, p);
  }

  /**
    From an empty store, creating an assistant with a context and patching it with any
    config that is not empty but has no or an empty `configurable` separates the two:
    `{"recursion_limit": 9}` does, and so does `{"configurable": {}}`.
   */
  lemma PatchCanSeparate(id: Id, context: Json, config: Config)
    requires context != [] && config != NoConfig && Configurable(config) == []
    ensures var x := Settings("g", NoConfig, context, map[], [], None);
            var p := Patch(None, config, None, map[], None, None);
            var s1 := AssistantsPut(EmptyStore, id, x, false, true).0;
            var (s2, reply) := AssistantsPatch(s1, id, p, true);
            && reply == AssistantDone
            && (exists a | a in s1.assistants :: a.id == id && InSync(a.settings))
            && (exists a | a in s2.assistants ::
                  a.id == id && a.settings.config == config && a.settings.context == context && !InSync(a.settings))
  {
    var x := Settings("g", NoConfig, context, map[], [], None);
    var p := Patch(None, config, None, map[], None, None);
    var s1 := AssistantsPut(EmptyStore, id, x, false, true).0;
    AssistantsPutKeeps(EmptyStore, id, x, false, true);
    var a := Assistant(id, 1, x.(config := NoConfig.(configurable := Some(context))));
    assert s1.assistants == [a] && a in s1.assistants;
    FindUnique(s1.assistants, AssistantId, a);
    KeyOfMember(s1.assistants, AssistantId, a);
    var settings := Patched(a.settings, p, config, None);
    var a' := Assistant(id, MaxVersion(Recorded(s1, id)) + 1, settings);
    ReplaceMembers(s1.assistants, AssistantId, id, a');
    assert a' in AssistantsPatch(s1, id, p, true).0.assistants;
  }

  /** The config `{"configurable": {}}` reads as empty, but replaces the old one. */
  lemma EmptyConfigurableSeparates(id: Id, context: Json)
    requires context != []
    ensures var x := Settings("g", NoConfig, context, map[], [], None);
            var p := Patch(None, Config(Some([]), []), None, map[], None, None);
            var s := AssistantsPatch(AssistantsPut(EmptyStore, id, x, false, true).0, id, p, true).0;
            exists a | a in s.assistants :: a.id == id && !InSync(a.settings)
  {
    PatchCanSeparate(id, context, Config(Some([]), []));
  }

  /**
    `set_latest` brings back the version's config and leaves the context, so it keeps the two
    alike exactly when the version's `configurable` is the current context.
   */
  lemma SetLatestKeepsInSyncIff(s: Store, a: Assistant, n: nat)
    requires StoreInv(s) && VersionsInv(s) && a in s.assistants && 1 <= n <= |Recorded(s, a.id)|
    ensures var v := Recorded(s, a.id)[n - 1];
            exists a' | a' in AssistantsSetLatest(s, a.id, n, true).0.assistants ::
              && a'.id == a.id && a'.settings.config == v.settings.config && a'.settings.context == a.settings.context
              && (InSync(a'.settings) <==> Configurable(v.settings.config) == a.settings.context)
  {
    var a' := LatestSet(s, a, n);
  }

  /** The history that separates the two: a put with one context, a patch with another, `set_latest` 1. */
  lemma SetLatestCanSeparate(id: Id, c1: Json, c2: Json)
    requires c1 != [] && c2 != [] && c1 != c2
    ensures var x := Settings("g", NoConfig, c1, map[], [], None);
            var p := Patch(None, NoConfig, Some(c2), map[], None, None);
            var s1 := AssistantsPut(EmptyStore, id, x, false, true).0;
            var s2 := AssistantsPatch(s1, id, p, true).0;
            var s3 := AssistantsSetLatest(s2, id, 1, true).0;
            && (exists a | a in s1.assistants :: a.id == id && InSync(a.settings))
            && (exists a | a in s2.assistants :: a.id == id && InSync(a.settings) && a.settings.context == c2)
            && (exists a | a in s3.assistants ::
                  a.id == id && Configurable(a.settings.config) == c1 && a.settings.context == c2)
  {
    var x := Settings("g", NoConfig, c1, map[], [], None);
    var p := Patch(None, NoConfig, Some(c2), map[], None, None);
    var s1 := AssistantsPut(EmptyStore, id, x, false, true).0;
    var x1 := x.(config := NoConfig.(configurable := Some(c1)));
    var a1, v1 := Assistant(id, 1, x1), Version(id, 1, x1);
    assert s1.assistants == [a1] && s1.versions == [v1];
    assert Where([v1], OfId(id)) == [v1];
    assert MaxVersion([v1]) == 1;
    var x2 := Patched(x1, p, NoConfig.(configurable := Some(c2)), Some(c2));
    var s2 := AssistantsPatch(s1, id, p, true).0;
    var a2, v2 := Assistant(id, 2, x2), Version(id, 2, x2);
    assert s2.assistants == [a2] && s2.versions == [v1, v2];
    NewVersionNumbered(s2.versions, id);
    var s3 := AssistantsSetLatest(s2, id, 1, true).0;
    var a3 := Assistant(id, 1, x1.(context := c2));
    assert s3.assistants == [a3];
    assert a1 in s1.assistants && a2 in s2.assistants && a3 in s3.assistants;
  }
}
