/**
  What every interleaving of the stale-while-revalidate protocol keeps: the state object
  of a key, and with it the write epoch, survives while any load or mutation of the key
  is under way, and is dropped as soon as none is.
 */
module SwrInvariant {
  import opened Wrappers
  import opened SwrProtocol

  predicate LoadHolds(l: Load, id: nat)
  {
    (l.phase.StoreWaiting? || l.phase.StoreWriting?) && l.phase.st == id
  }

  predicate WriteHolds(x: Write, id: nat)
  {
    !x.phase.Finished? && x.st == id
  }

  /** The loads between `_acquire_swr_state` and `_release_swr_state` of state object `id`. */
  function LoadHolders(loads: seq<Load>, id: nat): set<nat>
  {
    set t | 0 <= t < |loads| && LoadHolds(loads[t], id)
  }

  /** The mutations between `_acquire_swr_state` and `_release_swr_state` of state object `id`. */
  function WriteHolders(writes: seq<Write>, id: nat): set<nat>
  {
    set m | 0 <= m < |writes| && WriteHolds(writes[m], id)
  }

  function Holders(w: World, id: nat): nat
  {
    |LoadHolders(w.loads, id)| + |WriteHolders(w.writes, id)|
  }

  predicate Live(w: World, key: Key, id: nat)
  {
    key in w.states && w.states[key] == id && id < |w.objects|
  }

  predicate Writes(w: World, p: Party, id: nat)
  {
    match p
    case LoadTask(t) => t < |w.loads| && w.loads[t].phase.StoreWriting? && w.loads[t].phase.st == id
    case Mutation(m) => m < |w.writes| && w.writes[m].phase.Writing? && w.writes[m].st == id
  }

  /** `_SWR_STATES` maps different keys to different state objects. */
  predicate Registered(w: World)
  {
    && (forall k | k in w.states :: w.states[k] < |w.objects|)
    && (forall j, k | j in w.states && k in w.states && w.states[j] == w.states[k] :: j == k)
  }

  /** An unfinished load is the one its key's registered state holds, whose epoch it started from. */
  predicate LoadOk(w: World, t: nat)
    requires t < |w.loads|
  {
    var l := w.loads[t];
    && (!l.phase.Done? ==>
          && Live(w, l.key, l.origin)
          && w.objects[l.origin].task == Some(t)
          && l.startEpoch <= w.objects[l.origin].writeEpoch)
    && (l.phase.StoreWaiting? || l.phase.StoreWriting? ==> l.phase.st == l.origin)
    && (l.phase.StoreWriting? ==>
          && w.objects[l.origin].lockedBy == Some(LoadTask(t))
          && l.startEpoch == w.objects[l.origin].writeEpoch)
  }

  predicate WriteOk(w: World, m: nat)
    requires m < |w.writes|
  {
    var x := w.writes[m];
    && (!x.phase.Finished? ==> Live(w, x.key, x.st))
    && (x.phase.Writing? ==> w.objects[x.st].lockedBy == Some(Mutation(m)))
  }

  predicate ObjectOk(w: World, id: nat)
    requires id < |w.objects|
  {
    && w.objects[id].users == Holders(w, id)
    && (w.objects[id].lockedBy.Some? ==> Writes(w, w.objects[id].lockedBy.value, id))
  }

  /** The registered state's task, if any, is a load of the key whose callback is still to run. */
  predicate KeyTaskOk(w: World, key: Key)
    requires key in w.states && w.states[key] < |w.objects|
  {
    var s := w.objects[w.states[key]];
    s.task.Some? ==>
      && s.task.value < |w.loads|
      && w.loads[s.task.value].key == key
      && w.loads[s.task.value].phase != Done(false)
  }

  predicate InUse(w: World, key: Key)
    requires key in w.states && w.states[key] < |w.objects|
  {
    var s := w.objects[w.states[key]];
    s.users != 0 || s.task.Some?
  }

  /** The invariant, where the key `gap` may have an unused state that is about to be dropped. */
  predicate InvBut(w: World, gap: Option<Key>)
  {
    && Registered(w)
    && (forall t | 0 <= t < |w.loads| :: LoadOk(w, t))
    && (forall m | 0 <= m < |w.writes| :: WriteOk(w, m))
    && (forall id | 0 <= id < |w.objects| :: ObjectOk(w, id))
    && (forall k | k in w.states :: KeyTaskOk(w, k))
    && (forall k | k in w.states && gap != Some(k) :: InUse(w, k))
  }

  predicate Inv(w: World)
  {
    InvBut(w, None)
  }

  // ---------------------------------------------------------------- every action keeps it

  /** A locked state has a user, so the lock never decides whether a state is dropped. */
  lemma LockedHasUser(w: World, id: nat)
    requires id < |w.objects| && ObjectOk(w, id) && w.objects[id].lockedBy.Some?
    ensures w.objects[id].users > 0
  {
    match w.objects[id].lockedBy.value
    case LoadTask(t) => assert t in LoadHolders(w.loads, id);
    case Mutation(m) => assert m in WriteHolders(w.writes, id);
  }

  /** Joining the unfinished load of a key changes nothing. */
  lemma JoinChangesNothing(w: World, key: Key)
    requires Registered(w) && key in w.states
    requires w.objects[w.states[key]].task.Some? && Unfinished(w, w.objects[w.states[key]].task.value)
    ensures StartLoad(w, key) == w
  {
    var id := w.states[key];
    assert w.objects[id := w.objects[id].(users := w.objects[id].users + 1)]
                    [id := w.objects[id]] == w.objects;
  }

  /** Otherwise the new load is the registered state's task, with the state's epoch as its start. */
  lemma StartUsesLiveState(w: World, key: Key)
    requires Registered(w) && key in w.states
    requires w.objects[w.states[key]].task.None? || !Unfinished(w, w.objects[w.states[key]].task.value)
    ensures var id := w.states[key];
            StartLoad(w, key) ==
            w.(loads := w.loads + [Load(key, id, w.objects[id].writeEpoch, Loading)],
               objects := w.objects[id := w.objects[id].(task := Some(|w.loads|))])
  {
    var id := w.states[key];
    var w' := StartLoad(w, key);
    assert w'.objects == w.objects[id := w.objects[id].(task := Some(|w.loads|))];
  }

  lemma StartCreatesState(w: World, key: Key)
    requires Registered(w) && key !in w.states
    ensures var id := |w.objects|;
            StartLoad(w, key) ==
            w.(states := w.states[key := id],
               loads := w.loads + [Load(key, id, 0, Loading)],
               objects := w.objects + [SwrState(Some(|w.loads|), 0, None, 0)])
  {
    var w' := StartLoad(w, key);
    assert w'.objects == w.objects + [SwrState(Some(|w.loads|), 0, None, 0)];
  }

  lemma EnsureLoadKeepsInv(w: World, key: Key)
    requires Inv(w)
    ensures Inv(StartLoad(w, key))
  {
    if key !in w.states {
      StartCreatesState(w, key);
      AddLoadAndState(w, key);
    } else if w.objects[w.states[key]].task.Some? && Unfinished(w, w.objects[w.states[key]].task.value) {
      JoinChangesNothing(w, key);
    } else {
      StartUsesLiveState(w, key);
      AddLoad(w, key);
    }
  }

  lemma AddLoad(w: World, key: Key)
    requires Inv(w) && key in w.states
    requires w.objects[w.states[key]].task.None? || !Unfinished(w, w.objects[w.states[key]].task.value)
    ensures var id := w.states[key];
            Inv(w.(loads := w.loads + [Load(key, id, w.objects[id].writeEpoch, Loading)],
                   objects := w.objects[id := w.objects[id].(task := Some(|w.loads|))]))
  {
    var id := w.states[key];
    var w' := w.(loads := w.loads + [Load(key, id, w.objects[id].writeEpoch, Loading)],
                 objects := w.objects[id := w.objects[id].(task := Some(|w.loads|))]);
    forall i | 0 <= i < |w'.objects| ensures ObjectOk(w', i) {
      assert ObjectOk(w, i);
      assert LoadHolders(w'.loads, i) == LoadHolders(w.loads, i);
    }
    forall t | 0 <= t < |w'.loads| ensures LoadOk(w', t) {
      if t < |w.loads| { assert LoadOk(w, t); }
    }
    forall m | 0 <= m < |w'.writes| ensures WriteOk(w', m) {
      assert WriteOk(w, m);
    }
    forall k | k in w'.states ensures KeyTaskOk(w', k) && InUse(w', k) {
      assert KeyTaskOk(w, k) && InUse(w, k);
    }
  }

  lemma AddLoadAndState(w: World, key: Key)
    requires Inv(w) && key !in w.states
    ensures var id := |w.objects|;
            Inv(w.(states := w.states[key := id],
                   loads := w.loads + [Load(key, id, 0, Loading)],
                   objects := w.objects + [SwrState(Some(|w.loads|), 0, None, 0)]))
  {
    var id := |w.objects|;
    var w' := w.(states := w.states[key := id],
                 loads := w.loads + [Load(key, id, 0, Loading)],
                 objects := w.objects + [SwrState(Some(|w.loads|), 0, None, 0)]);
    NoHolderBeyond(w, id);
    forall i | 0 <= i < |w'.objects| ensures ObjectOk(w', i) {
      assert i < id ==> ObjectOk(w, i);
      assert LoadHolders(w'.loads, i) == LoadHolders(w.loads, i);
    }
    forall t | 0 <= t < |w'.loads| ensures LoadOk(w', t) {
      if t < |w.loads| { assert LoadOk(w, t); }
    }
    forall m | 0 <= m < |w'.writes| ensures WriteOk(w', m) {
      assert WriteOk(w, m);
    }
    forall k | k in w'.states ensures KeyTaskOk(w', k) && InUse(w', k) {
      if k != key { assert KeyTaskOk(w, k) && InUse(w, k); }
    }
  }

  lemma NoHolderBeyond(w: World, id: nat)
    requires Inv(w) && |w.objects| <= id
    ensures LoadHolders(w.loads, id) == {} && WriteHolders(w.writes, id) == {}
  {
    forall t | 0 <= t < |w.loads| ensures !LoadHolds(w.loads[t], id) { assert LoadOk(w, t); }
    forall m | 0 <= m < |w.writes| ensures !WriteHolds(w.writes[m], id) { assert WriteOk(w, m); }
  }

  // ---------------------------------------------------------------- one party moves on

  /** Only the membership of `x` changes between two sets. */
  lemma OneMemberChanges(before: set<nat>, after: set<nat>, x: nat)
    requires before - {x} == after - {x}
    ensures |after| == |before| + (if x in after then 1 else 0) - (if x in before then 1 else 0)
  {
    assert x in before ==> before == (before - {x}) + {x};
    assert x !in before ==> before == before - {x};
    assert x in after ==> after == (after - {x}) + {x};
    assert x !in after ==> after == after - {x};
  }

  lemma SetLoadHolders(w: World, t: nat, phase: LoadPhase, id: nat)
    requires t < |w.loads|
    ensures Holders(SetLoad(w, t, phase), id)
            == Holders(w, id) + (if LoadHolds(w.loads[t].(phase := phase), id) then 1 else 0)
               - (if LoadHolds(w.loads[t], id) then 1 else 0)
  {
    var loads := SetLoad(w, t, phase).loads;
    OneMemberChanges(LoadHolders(w.loads, id), LoadHolders(loads, id), t);
  }

  lemma SetWriteHolders(w: World, m: nat, phase: MutationPhase, id: nat)
    requires m < |w.writes|
    ensures Holders(SetWrite(w, m, phase), id)
            == Holders(w, id) + (if WriteHolds(w.writes[m].(phase := phase), id) then 1 else 0)
               - (if WriteHolds(w.writes[m], id) then 1 else 0)
  {
    var writes := SetWrite(w, m, phase).writes;
    OneMemberChanges(WriteHolders(w.writes, id), WriteHolders(writes, id), m);
  }

  /** An unfinished load may move to any phase if its state's users and lock move with it. */
  lemma LoadMoves(w: World, t: nat, phase: LoadPhase, s: SwrState)
    requires Inv(w) && Unfinished(w, t) && phase != Done(false)
    requires w.loads[t].origin < |w.objects|
    requires var l := w.loads[t];
             var old_ := w.objects[l.origin];
             && s.task == old_.task && s.writeEpoch == old_.writeEpoch
             && s.users == Holders(SetLoad(w, t, phase), l.origin)
             && (phase.StoreWaiting? || phase.StoreWriting? ==> phase.st == l.origin)
             && (phase.StoreWriting? ==> s.lockedBy == Some(LoadTask(t)) && l.startEpoch == s.writeEpoch)
             && (phase.StoreWriting? && !l.phase.StoreWriting? ==> old_.lockedBy.None?)
             && (!phase.StoreWriting? ==>
                   s.lockedBy == if l.phase.StoreWriting? then None else old_.lockedBy)
    ensures Inv(SetLoad(w, t, phase).(objects := w.objects[w.loads[t].origin := s]))
  {
    var l := w.loads[t];
    var w' := SetLoad(w, t, phase).(objects := w.objects[l.origin := s]);
    assert LoadOk(w, t);
    forall i | 0 <= i < |w'.objects| ensures ObjectOk(w', i) {
      assert ObjectOk(w, i);
      SetLoadHolders(w, t, phase, i);
    }
    forall u | 0 <= u < |w'.loads| ensures LoadOk(w', u) {
      assert LoadOk(w, u);
    }
    forall m | 0 <= m < |w'.writes| ensures WriteOk(w', m) {
      assert WriteOk(w, m);
    }
    forall k | k in w'.states ensures KeyTaskOk(w', k) && InUse(w', k) {
      assert KeyTaskOk(w, k) && InUse(w, k);
    }
  }

  lemma WriteMoves(w: World, m: nat, phase: MutationPhase, s: SwrState)
    requires Inv(w) && m < |w.writes| && !w.writes[m].phase.Finished? && !phase.Waiting?
    requires w.writes[m].st < |w.objects|
    requires var x := w.writes[m];
             var old_ := w.objects[x.st];
             && s.task == old_.task
             && s.users == Holders(SetWrite(w, m, phase), x.st)
             && (phase.Writing? ==> s.lockedBy == Some(Mutation(m)))
             && (phase.Writing? && x.phase.Waiting? ==>
                   old_.lockedBy.None? && s.writeEpoch == old_.writeEpoch + 1)
             && (!(phase.Writing? && x.phase.Waiting?) ==> s.writeEpoch == old_.writeEpoch)
             && (phase.Finished? ==> s.lockedBy == if x.phase.Writing? then None else old_.lockedBy)
    ensures InvBut(SetWrite(w, m, phase).(objects := w.objects[w.writes[m].st := s]), Some(w.writes[m].key))
  {
    var x := w.writes[m];
    var w' := SetWrite(w, m, phase).(objects := w.objects[x.st := s]);
    assert WriteOk(w, m);
    forall i | 0 <= i < |w'.objects| ensures ObjectOk(w', i) {
      assert ObjectOk(w, i);
      SetWriteHolders(w, m, phase, i);
    }
    forall t | 0 <= t < |w'.loads| ensures LoadOk(w', t) {
      assert LoadOk(w, t);
    }
    forall u | 0 <= u < |w'.writes| ensures WriteOk(w', u) {
      assert WriteOk(w, u);
    }
    forall k | k in w'.states ensures KeyTaskOk(w', k) && (k != x.key ==> InUse(w', k)) {
      assert KeyTaskOk(w, k) && InUse(w, k);
    }
  }

  /** Dropping the state of a key restores the invariant exactly when nobody needs the state. */
  lemma CleanupRestores(w: World, key: Key)
    requires InvBut(w, Some(key)) && key in w.states
    ensures Inv(Cleanup(w, key, w.states[key]))
  {
    var id := w.states[key];
    var w' := Cleanup(w, key, id);
    assert ObjectOk(w, id);
    if w.objects[id].lockedBy.Some? {
      LockedHasUser(w, id);
    }
    if w' != w {
      assert LoadHolders(w.loads, id) == {} && WriteHolders(w.writes, id) == {};
      forall t | 0 <= t < |w'.loads| ensures LoadOk(w', t) {
        assert LoadOk(w, t);
      }
      forall m | 0 <= m < |w'.writes| ensures WriteOk(w', m) {
        assert WriteOk(w, m);
        assert WriteHolds(w.writes[m], id) ==> m in WriteHolders(w.writes, id);
      }
      forall i | 0 <= i < |w'.objects| ensures ObjectOk(w', i) {
        assert ObjectOk(w, i);
      }
      forall k | k in w'.states ensures KeyTaskOk(w', k) && InUse(w', k) {
        assert KeyTaskOk(w, k);
      }
    }
  }

  // ---------------------------------------------------------------- every action keeps it

  lemma LoaderReturnKeepsInv(w: World, t: nat, value: Json)
    requires Inv(w) && Enabled(w, LoaderReturned(t, value))
    ensures Inv(Apply(w, LoaderReturned(t, value)))
  {
    var l := w.loads[t];
    assert LoadOk(w, t) && ObjectOk(w, l.origin);
    var phase := StoreWaiting(l.origin, value);
    SetLoadHolders(w, t, phase, l.origin);
    var s := w.objects[l.origin];
    LoadMoves(w, t, phase, s.(users := s.users + 1));
  }

  lemma LoadLockKeepsInv(w: World, t: nat)
    requires Inv(w) && Enabled(w, LoadLocked(t))
    ensures Inv(Apply(w, LoadLocked(t)))
  {
    var l := w.loads[t];
    assert LoadOk(w, t) && ObjectOk(w, l.origin);
    var s := w.objects[l.origin];
    if l.startEpoch != s.writeEpoch {
      LoadLeaves(w, t, Rereading);
    } else {
      var phase := StoreWriting(l.origin, l.phase.value, false);
      SetLoadHolders(w, t, phase, l.origin);
      LoadMoves(w, t, phase, s.(lockedBy := Some(LoadTask(t))));
    }
  }

  /** An unfinished load releases what it holds; its own task keeps the state registered. */
  lemma LoadLeaves(w: World, t: nat, phase: LoadPhase)
    requires Inv(w) && Unfinished(w, t) && (phase == Rereading || phase == Done(true))
    ensures var l := w.loads[t];
            var w1 := SetLoad(w, t, phase);
            && l.origin < |w.objects|
            && (l.phase.StoreWaiting? ==> Inv(Release(w1, l.key, l.origin)))
            && (l.phase.StoreWriting? ==> Inv(Release(SetLock(w1, l.origin, None), l.key, l.origin)))
            && (l.phase.Loading? || l.phase.Rereading? ==> Inv(w1))
  {
    var l := w.loads[t];
    assert LoadOk(w, t) && ObjectOk(w, l.origin);
    var s := w.objects[l.origin];
    SetLoadHolders(w, t, phase, l.origin);
    if l.phase.StoreWaiting? {
      LoadMoves(w, t, phase, s.(users := s.users - 1));
    } else if l.phase.StoreWriting? {
      var s' := s.(users := s.users - 1, lockedBy := None);
      LoadMoves(w, t, phase, s');
      assert Release(SetLock(SetLoad(w, t, phase), l.origin, None), l.key, l.origin).objects == w.objects[l.origin := s'];
    } else {
      LoadMoves(w, t, phase, s);
      assert w.objects[l.origin := s] == w.objects;
    }
  }

  lemma LoadLandKeepsInv(w: World, t: nat)
    requires Inv(w) && Enabled(w, LoadLanded(t))
    ensures Inv(Apply(w, LoadLanded(t)))
  {
    var l := w.loads[t];
    assert LoadOk(w, t) && ObjectOk(w, l.origin);
    var phase := l.phase.(landed := true);
    SetLoadHolders(w, t, phase, l.origin);
    LoadMoves(w, t, phase, w.objects[l.origin]);
    assert w.objects[l.origin := w.objects[l.origin]] == w.objects;
    CacheIsApart(SetLoad(w, t, phase), Apply(w, LoadLanded(t)));
  }

  /** The cached values play no part in the invariant. */
  lemma CacheIsApart(w: World, w': World)
    requires Inv(w) && w' == w.(cache := w'.cache)
    ensures Inv(w')
  {
    forall t | 0 <= t < |w'.loads| ensures LoadOk(w', t) { assert LoadOk(w, t); }
    forall m | 0 <= m < |w'.writes| ensures WriteOk(w', m) { assert WriteOk(w, m); }
    forall i | 0 <= i < |w'.objects| ensures ObjectOk(w', i) { assert ObjectOk(w, i); }
    forall k | k in w'.states ensures KeyTaskOk(w', k) && InUse(w', k) { assert KeyTaskOk(w, k) && InUse(w, k); }
  }

  lemma CallbackKeepsInv(w: World, t: nat)
    requires Inv(w) && Enabled(w, LoadCallback(t))
    ensures Inv(RunCallback(w, t))
  {
    var key := w.loads[t].key;
    var mine := key in w.states && w.states[key] < |w.objects| && w.objects[w.states[key]].task == Some(t);
    var w1 := SetLoad(w, t, Done(false));
    var w2 := if mine then w1.(objects := w1.objects[w.states[key] := w1.objects[w.states[key]].(task := None)]) else w1;
    forall i | 0 <= i < |w2.objects| ensures ObjectOk(w2, i) {
      assert ObjectOk(w, i);
      SetLoadHolders(w, t, Done(false), i);
    }
    forall u | 0 <= u < |w2.loads| ensures LoadOk(w2, u) { assert LoadOk(w, u); }
    forall m | 0 <= m < |w2.writes| ensures WriteOk(w2, m) { assert WriteOk(w, m); }
    forall k | k in w2.states ensures KeyTaskOk(w2, k) && (k != key ==> InUse(w2, k)) {
      assert KeyTaskOk(w, k) && InUse(w, k);
    }
    if mine {
      CleanupRestores(w2, key);
    } else {
      forall k | k in w2.states ensures InUse(w2, k) { assert InUse(w, k); }
    }
  }

  lemma AddWriteHolders(writes: seq<Write>, x: Write, id: nat)
    ensures WriteHolders(writes + [x], id)
            == if WriteHolds(x, id) then WriteHolders(writes, id) + {|writes|} else WriteHolders(writes, id)
  {
    forall m | 0 <= m < |writes| ensures m in WriteHolders(writes + [x], id) <==> m in WriteHolders(writes, id) {
      assert (writes + [x])[m] == writes[m];
    }
  }

  lemma MutateStartKeepsInv(w: World, key: Key, value: Json)
    requires Inv(w)
    ensures Inv(Apply(w, MutateStarted(key, value)))
  {
    if key in w.states {
      var id := w.states[key];
      var s := w.objects[id];
      JoinWriter(w, key, value, w.(objects := w.objects[id := s.(users := s.users + 1)],
                                   writes := w.writes + [Write(key, id, value, Waiting)]));
    } else {
      var id := |w.objects|;
      FirstWriter(w, key, value, w.(states := w.states[key := id],
                                    objects := w.objects + [SwrState(None, 0, None, 1)],
                                    writes := w.writes + [Write(key, id, value, Waiting)]));
    }
  }

  lemma JoinWriter(w: World, key: Key, value: Json, w': World)
    requires Inv(w) && key in w.states
    requires var id := w.states[key];
             w' == w.(objects := w.objects[id := w.objects[id].(users := w.objects[id].users + 1)],
                      writes := w.writes + [Write(key, id, value, Waiting)])
    ensures Inv(w')
  {
    var id := w.states[key];
    var x := Write(key, id, value, Waiting);
    forall i | 0 <= i < |w'.objects| ensures ObjectOk(w', i) {
      AddWriteHolders(w.writes, x, i);
      assert ObjectOk(w, i);
    }
    forall t | 0 <= t < |w'.loads| ensures LoadOk(w', t) { assert LoadOk(w, t); }
    forall m | 0 <= m < |w'.writes| ensures WriteOk(w', m) {
      if m < |w.writes| { assert WriteOk(w, m); }
    }
    forall k | k in w'.states ensures KeyTaskOk(w', k) && InUse(w', k) {
      assert KeyTaskOk(w, k) && InUse(w, k) && ObjectOk(w, w.states[k]);
    }
  }

  lemma FirstWriter(w: World, key: Key, value: Json, w': World)
    requires Inv(w) && key !in w.states
    requires var id := |w.objects|;
             w' == w.(states := w.states[key := id],
                      objects := w.objects + [SwrState(None, 0, None, 1)],
                      writes := w.writes + [Write(key, id, value, Waiting)])
    ensures Inv(w')
  {
    var id := |w.objects|;
    var x := Write(key, id, value, Waiting);
    NoHolderBeyond(w, id);
    forall i | 0 <= i < |w'.objects| ensures ObjectOk(w', i) {
      AddWriteHolders(w.writes, x, i);
      if i < id { assert ObjectOk(w, i); }
    }
    forall t | 0 <= t < |w'.loads| ensures LoadOk(w', t) { assert LoadOk(w, t); }
    forall m | 0 <= m < |w'.writes| ensures WriteOk(w', m) {
      if m < |w.writes| { assert WriteOk(w, m); }
    }
    forall k | k in w'.states ensures KeyTaskOk(w', k) && InUse(w', k) {
      if k != key { assert KeyTaskOk(w, k) && InUse(w, k); }
    }
  }

  lemma MutateActionKeepsInv(w: World, m: nat, a: Action)
    requires Inv(w) && Enabled(w, a)
    requires a == MutateLocked(m) || a == MutateLanded(m) || a == MutateReturned(m) || a == MutateAborted(m)
    ensures Inv(Apply(w, a))
  {
    var x := w.writes[m];
    assert WriteOk(w, m);
    assert ObjectOk(w, x.st);
    var s := w.objects[x.st];
    match a
    case MutateLocked(_) =>
      SetWriteHolders(w, m, Writing(false), x.st);
      var s' := s.(lockedBy := Some(Mutation(m)), writeEpoch := s.writeEpoch + 1);
      WriteMoves(w, m, Writing(false), s');
      StillUsed(Apply(w, a), m);
    case MutateLanded(_) =>
      SetWriteHolders(w, m, Writing(true), x.st);
      WriteMoves(w, m, Writing(true), s);
      assert w.objects[x.st := s] == w.objects;
      StillUsed(SetWrite(w, m, Writing(true)), m);
      CacheIsApart(SetWrite(w, m, Writing(true)), Apply(w, a));
    case MutateReturned(_) =>
      MutateEnds(w, m, a);
    case MutateAborted(_) =>
      MutateEnds(w, m, a);
  }

  lemma StillUsed(w: World, m: nat)
    requires m < |w.writes| && !w.writes[m].phase.Finished?
    requires InvBut(w, Some(w.writes[m].key))
    ensures Inv(w)
  {
    var x := w.writes[m];
    assert WriteOk(w, m) && ObjectOk(w, x.st);
    assert m in WriteHolders(w.writes, x.st);
    forall k | k in w.states ensures InUse(w, k) { }
  }

  lemma MutateEnds(w: World, m: nat, a: Action)
    requires Inv(w) && Enabled(w, a) && (a == MutateReturned(m) || a == MutateAborted(m))
    ensures Inv(Apply(w, a))
  {
    var x := w.writes[m];
    assert WriteOk(w, m) && ObjectOk(w, x.st);
    var s := w.objects[x.st];
    var s' := s.(users := s.users - 1, lockedBy := if x.phase.Writing? then None else s.lockedBy);
    var w1 := SetWrite(w, m, Finished).(objects := w.objects[x.st := s']);
    assert InvBut(w1, Some(x.key)) by {
      SetWriteHolders(w, m, Finished, x.st);
      WriteMoves(w, m, Finished, s');
    }
    MutateEndsWith(w, m, a, w1);
    CleanupRestores(w1, x.key);
  }

  lemma MutateEndsWith(w: World, m: nat, a: Action, w1: World)
    requires Enabled(w, a) && (a == MutateReturned(m) || a == MutateAborted(m))
    requires var x := w.writes[m];
             var s := w.objects[x.st];
             w1 == SetWrite(w, m, Finished).(objects := w.objects[x.st := s.(
                     users := s.users - 1, lockedBy := if x.phase.Writing? then None else s.lockedBy)])
    ensures Apply(w, a) == Cleanup(w1, w.writes[m].key, w.writes[m].st)
  {
    var x := w.writes[m];
    var w2 := if x.phase.Writing? then SetLock(SetWrite(w, m, Finished), x.st, None) else SetWrite(w, m, Finished);
    assert w2.objects[x.st := w2.objects[x.st].(users := w2.objects[x.st].users - 1)] == w1.objects;
  }

  lemma ApplyKeepsInv(w: World, a: Action)
    requires Inv(w) && Enabled(w, a)
    ensures Inv(Apply(w, a))
  {
    match a
    case EnsureLoad(key) => EnsureLoadKeepsInv(w, key);
    case LoadCallback(t) => CallbackKeepsInv(w, t);
    case MutateStarted(key, value) => MutateStartKeepsInv(w, key, value);
    case MutateLocked(m) => MutateActionKeepsInv(w, m, a);
    case MutateLanded(m) => MutateActionKeepsInv(w, m, a);
    case MutateReturned(m) => MutateActionKeepsInv(w, m, a);
    case MutateAborted(m) => MutateActionKeepsInv(w, m, a);
    case BackendDropped(_) => CacheIsApart(w, Apply(w, a));
    case LoaderReturned(t, value) => LoaderReturnKeepsInv(w, t, value);
    case LoadLocked(t) => LoadLockKeepsInv(w, t);
    case LoadLanded(t) => LoadLandKeepsInv(w, t);
    case LoadStored(t) => assert LoadOk(w, t); LoadLeaves(w, t, Done(true));
    case LoadReread(t) => LoadLeaves(w, t, Done(true));
    case LoadAborted(t) => assert LoadOk(w, t); LoadLeaves(w, t, Done(true));
  }

  /** The invariant holds after every history. */
  lemma {:induction false} ReachableInv(acts: seq<Action>)
    requires Execute(acts).Some?
    ensures Inv(Execute(acts).value)
  {
    if acts != [] {
      ReachableInv(acts[..|acts| - 1]);
      ApplyKeepsInv(Execute(acts[..|acts| - 1]).value, acts[|acts| - 1]);
    }
  }
}
