/**
  Safety of the stale-while-revalidate cache over whole histories: an old load never
  overwrites a newer mutation, a key has at most one unfinished load, and no state object
  outlives the calls and loads of its key.
 */
module SwrTheorems {
  import opened Wrappers
  import opened SwrProtocol
  import opened SwrInvariant

  // ---------------------------------------------------------------- histories

  ghost predicate History(acts: seq<Action>)
  {
    Execute(acts).Some?
  }

  lemma {:induction false} PrefixRuns(acts: seq<Action>, i: nat)
    requires History(acts) && i <= |acts|
    ensures History(acts[..i])
    decreases |acts|
  {
    if i == |acts| {
      assert acts[..i] == acts;
    } else {
      PrefixRuns(acts[..|acts| - 1], i);
      assert acts[..|acts| - 1][..i] == acts[..i];
    }
  }

  /** The world before action `i` of a history. */
  ghost function At(acts: seq<Action>, i: nat): World
    requires History(acts) && i <= |acts|
  {
    PrefixRuns(acts, i);
    Execute(acts[..i]).value
  }

  lemma AtStep(acts: seq<Action>, i: nat)
    requires History(acts) && i < |acts|
    ensures Enabled(At(acts, i), acts[i])
    ensures At(acts, i + 1) == Apply(At(acts, i), acts[i])
    ensures Inv(At(acts, i)) && Inv(At(acts, i + 1))
  {
    PrefixRuns(acts, i + 1);
    PrefixRuns(acts, i);
    assert acts[..i + 1][..i] == acts[..i];
    ReachableInv(acts[..i]);
    ReachableInv(acts[..i + 1]);
  }

  // ---------------------------------------------------------------- the registry

  /** Loads of one key are shared: two unfinished loads of a key are the same load. */
  lemma AtMostOneUnfinishedLoad(acts: seq<Action>, t: nat, u: nat)
    requires History(acts)
    requires var w := Execute(acts).value;
             Unfinished(w, t) && Unfinished(w, u) && w.loads[t].key == w.loads[u].key
    ensures t == u
  {
    ReachableInv(acts);
    var w := Execute(acts).value;
    assert LoadOk(w, t) && LoadOk(w, u);
  }

  /** `users` counts exactly the parties that acquired the state and have not released it. */
  lemma UsersAreOutstandingAcquires(acts: seq<Action>, id: nat)
    requires History(acts) && id < |Execute(acts).value.objects|
    ensures var w := Execute(acts).value;
            w.objects[id].users == |LoadHolders(w.loads, id)| + |WriteHolders(w.writes, id)|
  {
    ReachableInv(acts);
    assert ObjectOk(Execute(acts).value, id);
  }

  /** No load of the key is unfinished or has its callback pending, and no mutation of it is under way. */
  predicate Quiet(w: World, key: Key)
  {
    && (forall t | 0 <= t < |w.loads| && w.loads[t].key == key :: w.loads[t].phase == Done(false))
    && (forall m | 0 <= m < |w.writes| && w.writes[m].key == key :: w.writes[m].phase.Finished?)
  }

  lemma RegisteredKeyIsBusy(w: World, key: Key)
    requires Inv(w) && key in w.states
    ensures !Quiet(w, key)
  {
    var id := w.states[key];
    assert KeyTaskOk(w, key) && InUse(w, key) && ObjectOk(w, id);
    if t :| t in LoadHolders(w.loads, id) {
      assert LoadOk(w, t);
    } else if m :| m in WriteHolders(w.writes, id) {
      assert WriteOk(w, m);
    } else {
      assert LoadHolders(w.loads, id) == {} && WriteHolders(w.writes, id) == {};
    }
  }

  /** Nothing is left behind for a key that nobody uses. */
  lemma QuietKeyHasNoState(acts: seq<Action>, key: Key)
    requires History(acts) && Quiet(Execute(acts).value, key)
    ensures key !in Execute(acts).value.states
  {
    ReachableInv(acts);
    if key in Execute(acts).value.states {
      RegisteredKeyIsBusy(Execute(acts).value, key);
    }
  }

  /** Conversely a key in use has its state registered, and it is the state the load started from. */
  lemma UnfinishedLoadKeepsState(acts: seq<Action>, t: nat)
    requires History(acts) && Unfinished(Execute(acts).value, t)
    ensures var w := Execute(acts).value;
            var l := w.loads[t];
            l.key in w.states && w.states[l.key] == l.origin
  {
    ReachableInv(acts);
    assert LoadOk(Execute(acts).value, t);
  }

  // ---------------------------------------------------------------- epochs

  /** A load that can no longer store its value: it is over, or its epoch has passed. */
  predicate Outdated(w: World, t: nat)
  {
    && t < |w.loads|
    && var l := w.loads[t];
       l.phase.Done? || (!l.phase.StoreWriting? && l.origin < |w.objects| && l.startEpoch < w.objects[l.origin].writeEpoch)
  }

  /** Bumping the epoch outdates every load of the key that exists. */
  lemma BumpOutdates(w: World, m: nat, t: nat)
    requires Inv(w) && Enabled(w, MutateLocked(m)) && t < |w.loads| && w.loads[t].key == w.writes[m].key
    ensures Outdated(Apply(w, MutateLocked(m)), t)
  {
    assert LoadOk(w, t) && WriteOk(w, m);
  }

  /** What a step never undoes: identities, keys, start epochs, and the growth of epochs. */
  predicate Grows(w: World, w': World)
  {
    && |w.objects| <= |w'.objects| && |w.loads| <= |w'.loads| && |w.writes| <= |w'.writes|
    && (forall id | 0 <= id < |w.objects| :: w.objects[id].writeEpoch <= w'.objects[id].writeEpoch)
    && (forall t | 0 <= t < |w.loads| :: w'.loads[t].(phase := w.loads[t].phase) == w.loads[t])
    && (forall m | 0 <= m < |w.writes| :: w'.writes[m].(phase := w.writes[m].phase) == w.writes[m])
  }

  lemma AcquireGrows(w: World, key: Key)
    ensures Grows(w, Acquire(w, key).0) && Acquire(w, key).0.loads == w.loads
  {
  }

  lemma ReleaseGrows(w: World, w1: World, key: Key, id: nat)
    requires Grows(w, w1) && id < |w1.objects|
    ensures Grows(w, Release(w1, key, id)) && Release(w1, key, id).loads == w1.loads
  {
  }

  lemma StartGrows(w: World, key: Key)
    requires Inv(w)
    ensures Grows(w, StartLoad(w, key)) && w.loads <= StartLoad(w, key).loads
  {
    if key !in w.states {
      StartCreatesState(w, key);
    } else if w.objects[w.states[key]].task.Some? && Unfinished(w, w.objects[w.states[key]].task.value) {
      JoinChangesNothing(w, key);
    } else {
      StartUsesLiveState(w, key);
    }
  }

  /** The phase of load `t` after an action. */
  function PhaseAfter(w: World, a: Action, t: nat): LoadPhase
    requires t < |w.loads| && Enabled(w, a)
  {
    var l := w.loads[t];
    match a
    case LoaderReturned(u, value) => if u == t then StoreWaiting(Acquire(w, l.key).1, value) else l.phase
    case LoadLocked(u) =>
      if u != t then l.phase
      else if l.startEpoch != w.objects[l.phase.st].writeEpoch then Rereading
      else StoreWriting(l.phase.st, l.phase.value, false)
    case LoadLanded(u) => if u == t then l.phase.(landed := true) else l.phase
    case LoadStored(u) => if u == t then Done(true) else l.phase
    case LoadReread(u) => if u == t then Done(true) else l.phase
    case LoadAborted(u) => if u == t then Done(true) else l.phase
    case LoadCallback(u) => if u == t then Done(false) else l.phase
    case _ => l.phase
  }

  lemma StepOfLoads(w: World, a: Action, t: nat)
    requires Inv(w) && Enabled(w, a)
    ensures Grows(w, Apply(w, a))
    ensures t < |w.loads| ==> Apply(w, a).loads[t].phase == PhaseAfter(w, a, t)
  {
    if a.LoadStored? {
      StoredLoad(w, a.t, t);
    } else if a.LoadAborted? {
      AbortedLoad(w, a.t, t);
    } else if a.LoadLocked? {
      LockedLoad(w, a.t, t);
    } else if a.MutateReturned? || a.MutateAborted? {
      LeavingMutation(w, a, a.m);
    } else if a.EnsureLoad? || a.LoaderReturned? || a.MutateStarted? {
      EnteringStep(w, a, t);
    } else {
      StayingStep(w, a, t);
    }
  }

  lemma EnteringStep(w: World, a: Action, t: nat)
    requires Inv(w) && Enabled(w, a) && (a.EnsureLoad? || a.LoaderReturned? || a.MutateStarted?)
    ensures Grows(w, Apply(w, a))
    ensures t < |w.loads| ==> Apply(w, a).loads[t].phase == PhaseAfter(w, a, t)
  {
    match a
    case EnsureLoad(key) => StartGrows(w, key);
    case LoaderReturned(u, _) => AcquireGrows(w, w.loads[u].key);
    case MutateStarted(key, _) => AcquireGrows(w, key);
  }

  /** Steps that neither acquire nor release a state. */
  lemma StayingStep(w: World, a: Action, t: nat)
    requires Enabled(w, a)
    requires a.LoadLanded? || a.LoadReread? || a.LoadCallback? || a.MutateLocked? || a.MutateLanded? || a.BackendDropped?
    ensures Grows(w, Apply(w, a))
    ensures t < |w.loads| ==> Apply(w, a).loads[t].phase == PhaseAfter(w, a, t)
  {
  }

  lemma LockedLoad(w: World, u: nat, t: nat)
    requires Inv(w) && Enabled(w, LoadLocked(u))
    ensures Grows(w, Apply(w, LoadLocked(u)))
    ensures t < |w.loads| ==> Apply(w, LoadLocked(u)).loads[t].phase == PhaseAfter(w, LoadLocked(u), t)
  {
    var l := w.loads[u];
    ReleaseGrows(w, SetLoad(w, u, Rereading), l.key, l.phase.st);
  }

  lemma StoredLoad(w: World, u: nat, t: nat)
    requires Inv(w) && Enabled(w, LoadStored(u))
    ensures Grows(w, Apply(w, LoadStored(u)))
    ensures t < |w.loads| ==> Apply(w, LoadStored(u)).loads[t].phase == PhaseAfter(w, LoadStored(u), t)
  {
    var l := w.loads[u];
    ReleaseGrows(w, SetLock(SetLoad(w, u, Done(true)), l.phase.st, None), l.key, l.phase.st);
  }

  lemma AbortedLoad(w: World, u: nat, t: nat)
    requires Inv(w) && Enabled(w, LoadAborted(u))
    ensures Grows(w, Apply(w, LoadAborted(u)))
    ensures t < |w.loads| ==> Apply(w, LoadAborted(u)).loads[t].phase == PhaseAfter(w, LoadAborted(u), t)
  {
    var l := w.loads[u];
    var w1 := SetLoad(w, u, Done(true));
    if l.phase.StoreWaiting? {
      ReleaseGrows(w, w1, l.key, l.phase.st);
    } else if l.phase.StoreWriting? {
      ReleaseGrows(w, SetLock(w1, l.phase.st, None), l.key, l.phase.st);
    }
  }

  lemma LeavingMutation(w: World, a: Action, m: nat)
    requires Inv(w) && Enabled(w, a) && (a == MutateReturned(m) || a == MutateAborted(m))
    ensures Grows(w, Apply(w, a)) && Apply(w, a).loads == w.loads
  {
    var x := w.writes[m];
    var w1 := SetWrite(w, m, Finished);
    assert Grows(w, w1);
    ReleaseGrows(w, if x.phase.Writing? then SetLock(w1, x.st, None) else w1, x.key, x.st);
  }

  lemma OutdatedStays(w: World, a: Action, t: nat)
    requires Inv(w) && Enabled(w, a) && Outdated(w, t)
    ensures Outdated(Apply(w, a), t) && a != LoadLanded(t)
  {
    StepOfLoads(w, a, t);
    assert LoadOk(w, t);
  }

  lemma {:induction false} OutdatedForever(acts: seq<Action>, i: nat, j: nat, t: nat)
    requires History(acts) && i <= j <= |acts| && Outdated(At(acts, i), t)
    ensures Outdated(At(acts, j), t)
    ensures j < |acts| ==> acts[j] != LoadLanded(t)
    decreases j - i
  {
    if i < j {
      AtStep(acts, i);
      OutdatedStays(At(acts, i), acts[i], t);
      OutdatedForever(acts, i + 1, j, t);
    } else if j < |acts| {
      AtStep(acts, j);
      OutdatedStays(At(acts, j), acts[j], t);
    }
  }

  lemma {:induction false} KeysStay(acts: seq<Action>, i: nat, j: nat, t: nat)
    requires History(acts) && i <= j <= |acts| && t < |At(acts, i).loads|
    ensures t < |At(acts, j).loads| && At(acts, j).loads[t].key == At(acts, i).loads[t].key
    decreases j - i
  {
    if i < j {
      AtStep(acts, i);
      StepOfLoads(At(acts, i), acts[i], t);
      KeysStay(acts, i + 1, j, t);
    }
  }

  /**
    The central claim of the cache: whatever the interleaving, a load that reaches the
    backend after a mutation of the key bumped the epoch was started after the bump.
   */
  lemma StaleLoadNeverStores(acts: seq<Action>, bump: nat, m: nat, store: nat, t: nat)
    requires History(acts) && bump < store < |acts|
    requires acts[bump] == MutateLocked(m) && acts[store] == LoadLanded(t)
    requires m < |At(acts, bump).writes| && t < |At(acts, store).loads|
    requires At(acts, bump).writes[m].key == At(acts, store).loads[t].key
    ensures |At(acts, bump).loads| <= t
  {
    if t < |At(acts, bump).loads| {
      KeysStay(acts, bump, store, t);
      AtStep(acts, bump);
      BumpOutdates(At(acts, bump), m, t);
      OutdatedForever(acts, bump + 1, store, t);
      assert false;
    }
  }

  /** Action `a` may replace the cached value of `key`: a drop, a mutation, or a load not older than `n`. */
  predicate Replaces(w: World, a: Action, key: Key, n: nat)
  {
    match a
    case BackendDropped(k) => k == key
    case MutateLanded(m) => m < |w.writes| && w.writes[m].key == key
    case LoadLanded(t) => t < |w.loads| && w.loads[t].key == key && n <= t
    case _ => false
  }

  lemma OnlyLandingsTouchCache(w: World, a: Action, key: Key)
    requires Inv(w) && Enabled(w, a) && !Replaces(w, a, key, 0)
    ensures key in Apply(w, a).cache <==> key in w.cache
    ensures key in w.cache ==> Apply(w, a).cache[key] == w.cache[key]
  {
  }

  /**
    A mutated value stays in the cache until the backend drops it, a later mutation
    replaces it, or a load that was started after its epoch bump does.
   */
  lemma MutatedValueStays(acts: seq<Action>, bump: nat, m: nat, land: nat, now: nat)
    requires History(acts) && bump < land < now <= |acts|
    requires acts[bump] == MutateLocked(m) && acts[land] == MutateLanded(m)
    requires m < |At(acts, bump).writes| && m < |At(acts, land).writes|
    requires At(acts, bump).writes[m].key == At(acts, land).writes[m].key
    requires forall i | land < i < now ::
               !Replaces(At(acts, i), acts[i], At(acts, land).writes[m].key, |At(acts, bump).loads|)
    ensures var x := At(acts, land).writes[m];
            && x.key in At(acts, now).cache
            && At(acts, now).cache[x.key] == Entry(x.value, Mutation(m))
  {
    LandedAt(acts, land, m);
    NeverReplaced(acts, bump, m, land + 1, now, At(acts, land).writes[m].key);
  }

  lemma LandedAt(acts: seq<Action>, land: nat, m: nat)
    requires History(acts) && land < |acts| && acts[land] == MutateLanded(m) && m < |At(acts, land).writes|
    ensures var x := At(acts, land).writes[m];
            && x.key in At(acts, land + 1).cache
            && At(acts, land + 1).cache[x.key] == Entry(x.value, Mutation(m))
  {
    AtStep(acts, land);
    LandingStores(At(acts, land), m);
  }

  lemma NeverReplaced(acts: seq<Action>, bump: nat, m: nat, i: nat, j: nat, key: Key)
    requires History(acts) && bump < i <= j <= |acts| && acts[bump] == MutateLocked(m)
    requires m < |At(acts, bump).writes| && At(acts, bump).writes[m].key == key
    requires key in At(acts, i).cache
    requires forall k | i <= k < j :: !Replaces(At(acts, k), acts[k], key, |At(acts, bump).loads|)
    ensures key in At(acts, j).cache && At(acts, j).cache[key] == At(acts, i).cache[key]
  {
    forall k | i <= k < j ensures !Replaces(At(acts, k), acts[k], key, 0) {
      NotReplacedByOldLoad(acts, bump, m, k, key);
    }
    EntryPersists(acts, i, j, key);
  }

  lemma {:induction false} EntryPersists(acts: seq<Action>, i: nat, j: nat, key: Key)
    requires History(acts) && i <= j <= |acts| && key in At(acts, i).cache
    requires forall k | i <= k < j :: !Replaces(At(acts, k), acts[k], key, 0)
    ensures key in At(acts, j).cache && At(acts, j).cache[key] == At(acts, i).cache[key]
    decreases j - i
  {
    if i < j {
      StepKeepsEntry(acts, i, key);
      EntryPersists(acts, i + 1, j, key);
    }
  }

  lemma LandingStores(w: World, m: nat)
    requires Enabled(w, MutateLanded(m))
    ensures var x := w.writes[m];
            x.key in Apply(w, MutateLanded(m)).cache
            && Apply(w, MutateLanded(m)).cache[x.key] == Entry(x.value, Mutation(m))
  {
  }

  lemma StepKeepsEntry(acts: seq<Action>, i: nat, key: Key)
    requires History(acts) && i < |acts| && !Replaces(At(acts, i), acts[i], key, 0) && key in At(acts, i).cache
    ensures key in At(acts, i + 1).cache && At(acts, i + 1).cache[key] == At(acts, i).cache[key]
  {
    AtStep(acts, i);
    OnlyLandingsTouchCache(At(acts, i), acts[i], key);
  }

  lemma NotReplacedByOldLoad(acts: seq<Action>, bump: nat, m: nat, i: nat, key: Key)
    requires History(acts) && bump < i < |acts| && acts[bump] == MutateLocked(m)
    requires m < |At(acts, bump).writes| && At(acts, bump).writes[m].key == key
    requires !Replaces(At(acts, i), acts[i], key, |At(acts, bump).loads|)
    ensures !Replaces(At(acts, i), acts[i], key, 0)
  {
    if Replaces(At(acts, i), acts[i], key, 0) {
      StaleLoadNeverStores(acts, bump, m, i, acts[i].t);
    }
  }

  // ---------------------------------------------------------------- mutations among themselves

  /** How far a mutation has come. */
  function Progress(p: MutationPhase): nat
  {
    match p
    case Waiting => 0
    case Writing(landed) => if landed then 2 else 1
    case Finished => 3
  }

  lemma ReleaseKeepsWrites(w: World, key: Key, id: nat)
    requires id < |w.objects|
    ensures Release(w, key, id).writes == w.writes
  {
  }

  lemma StartKeepsWrites(w: World, key: Key)
    ensures StartLoad(w, key).writes == w.writes
  {
  }

  /** No step takes a mutation back. */
  lemma StepOfMutations(w: World, a: Action, m: nat)
    requires Enabled(w, a) && m < |w.writes|
    ensures var w' := Apply(w, a);
            && m < |w'.writes| && w'.writes[m].key == w.writes[m].key
            && Progress(w.writes[m].phase) <= Progress(w'.writes[m].phase)
  {
    match a
    case EnsureLoad(key) => StartKeepsWrites(w, key);
    case MutateReturned(n) =>
      var x := w.writes[n];
      ReleaseKeepsWrites(SetLock(SetWrite(w, n, Finished), x.st, None), x.key, x.st);
    case MutateAborted(n) =>
      var x := w.writes[n];
      var w1 := SetWrite(w, n, Finished);
      ReleaseKeepsWrites(if x.phase.Writing? then SetLock(w1, x.st, None) else w1, x.key, x.st);
    case _ =>
  }

  lemma {:induction false} MutationsAdvance(acts: seq<Action>, i: nat, j: nat, m: nat)
    requires History(acts) && i <= j <= |acts| && m < |At(acts, i).writes|
    ensures m < |At(acts, j).writes| && At(acts, j).writes[m].key == At(acts, i).writes[m].key
    ensures Progress(At(acts, i).writes[m].phase) <= Progress(At(acts, j).writes[m].phase)
    decreases j - i
  {
    if i < j {
      AtStep(acts, i);
      StepOfMutations(At(acts, i), acts[i], m);
      MutationsAdvance(acts, i + 1, j, m);
    }
  }

  /** Whoever gets the lock of a key finds no mutation of the key writing. */
  lemma LockExcludes(w: World, m: nat, n: nat)
    requires Inv(w) && Enabled(w, MutateLocked(n)) && m < |w.writes| && w.writes[m].key == w.writes[n].key
    ensures !w.writes[m].phase.Writing?
  {
    assert WriteOk(w, m) && WriteOk(w, n);
  }

  /**
    Mutations of one key land in the order of their epoch bumps: one that bumped earlier
    has landed before a later one bumps, or never lands.
   */
  lemma MutationsLandInOrder(acts: seq<Action>, first: nat, m: nat, second: nat, n: nat, land: nat)
    requires History(acts) && first < second < |acts| && land < |acts|
    requires acts[first] == MutateLocked(m) && acts[second] == MutateLocked(n) && acts[land] == MutateLanded(m)
    requires m < |At(acts, second).writes| && n < |At(acts, second).writes|
    requires At(acts, second).writes[m].key == At(acts, second).writes[n].key
    ensures land < second
  {
    AtStep(acts, first);
    AtStep(acts, second);
    AtStep(acts, land);
    assert At(acts, first + 1).writes[m].phase == Writing(false);
    MutationsAdvance(acts, first + 1, second, m);
    LockExcludes(At(acts, second), m, n);
    assert Progress(At(acts, second).writes[m].phase) == 3;
    if second <= land { MutationsAdvance(acts, second, land, m); }
  }

  predicate IsWriting(w: World, m: nat)
  {
    m < |w.writes| && w.writes[m].phase.Writing?
  }

  /** Only the lock makes a mutation write. */
  lemma WritingStarts(w: World, a: Action, m: nat)
    requires Enabled(w, a)
    ensures IsWriting(Apply(w, a), m) ==> IsWriting(w, m) || a == MutateLocked(m)
  {
    match a
    case EnsureLoad(key) => StartKeepsWrites(w, key);
    case MutateReturned(n) =>
      var x := w.writes[n];
      ReleaseKeepsWrites(SetLock(SetWrite(w, n, Finished), x.st, None), x.key, x.st);
    case MutateAborted(n) =>
      var x := w.writes[n];
      var w1 := SetWrite(w, n, Finished);
      ReleaseKeepsWrites(if x.phase.Writing? then SetLock(w1, x.st, None) else w1, x.key, x.st);
    case _ =>
  }

  lemma LockedAt(acts: seq<Action>, i: nat, m: nat)
    requires History(acts) && i < |acts| && !IsWriting(At(acts, i), m) && IsWriting(At(acts, i + 1), m)
    ensures acts[i] == MutateLocked(m)
  {
    AtStep(acts, i);
    WritingStarts(At(acts, i), acts[i], m);
  }

  /** A sequence that becomes true does so at some step. */
  lemma {:induction false} Becomes(p: seq<bool>, i: nat, j: nat) returns (k: nat)
    requires i <= j < |p| && !p[i] && p[j]
    ensures i <= k < j && !p[k] && p[k + 1]
    decreases j - i
  {
    if p[i + 1] { k := i; } else { k := Becomes(p, i + 1, j); }
  }

  lemma LockedBetween(acts: seq<Action>, i: nat, j: nat, m: nat) returns (lock: nat)
    requires History(acts) && i <= j <= |acts| && !IsWriting(At(acts, i), m) && IsWriting(At(acts, j), m)
    ensures i <= lock < j && acts[lock] == MutateLocked(m)
  {
    var writing := seq(|acts| + 1, k requires 0 <= k <= |acts| => IsWriting(At(acts, k), m));
    lock := Becomes(writing, i, j);
    LockedAt(acts, lock, m);
  }

  /** Any other mutation of the key that lands after a bump has bumped after it: it is a later one. */
  lemma LandingMutationIsLater(acts: seq<Action>, bump: nat, m: nat, land: nat, n: nat) returns (lock: nat)
    requires History(acts) && bump < land < |acts| && n != m
    requires acts[bump] == MutateLocked(m) && acts[land] == MutateLanded(n)
    requires m < |At(acts, bump).writes| && n < |At(acts, land).writes|
    requires At(acts, bump).writes[m].key == At(acts, land).writes[n].key
    ensures bump < lock < land && acts[lock] == MutateLocked(n)
  {
    AtStep(acts, bump);
    AtStep(acts, land);
    if n < |At(acts, bump).writes| {
      MutationsAdvance(acts, bump, land, n);
      LockExcludes(At(acts, bump), n, m);
    }
    lock := LockedBetween(acts, bump, land, n);
  }
}
