/**
  What the cache holds in every run of the protocol, told from the actions: which loads
  store, what a landing leaves behind, and where each cached value came from.
 */
module SwrContents {
  import opened Wrappers
  import opened SwrProtocol
  import opened SwrInvariant
  import opened SwrTheorems

  // ---------------------------------------------------------------- runs

  predicate Stepped(w: World, a: Action, w': World)
  {
    Enabled(w, a) && w' == Apply(w, a)
  }

  /** The worlds that a history goes through, from the empty one. */
  predicate Traced(acts: seq<Action>, ws: seq<World>)
  {
    && |ws| == |acts| + 1 && ws[0] == Init
    && forall i {:trigger Stepped(ws[i], acts[i], ws[i + 1])} | 0 <= i < |acts| :: Stepped(ws[i], acts[i], ws[i + 1])
  }

  /** Every history has its worlds. */
  lemma {:induction false} HistoryIsTraced(acts: seq<Action>) returns (ws: seq<World>)
    requires History(acts)
    ensures Traced(acts, ws) && ws[|acts|] == Execute(acts).value
  {
    if acts == [] {
      ws := [Init];
    } else {
      var n := |acts| - 1;
      var before := HistoryIsTraced(acts[..n]);
      ws := before + [Execute(acts).value];
      forall i | 0 <= i < |acts| ensures Stepped(ws[i], acts[i], ws[i + 1]) {
        if i < n { assert Stepped(before[i], acts[..n][i], before[i + 1]); }
      }
    }
  }

  lemma {:induction false} TracedInv(acts: seq<Action>, ws: seq<World>, i: nat)
    requires Traced(acts, ws) && i < |ws|
    ensures Inv(ws[i])
  {
    if i == 0 {
      ReachableInv([]);
    } else {
      var k := i - 1;
      TracedInv(acts, ws, k);
      assert Stepped(ws[k], acts[k], ws[k + 1]);
      ApplyKeepsInv(ws[k], acts[k]);
    }
  }

  // ---------------------------------------------------------------- births

  /** Action `e` created load `t` for `key`. */
  predicate Starts(acts: seq<Action>, ws: seq<World>, e: nat, t: nat, key: Key)
  {
    e < |acts| && e + 1 < |ws| && acts[e] == EnsureLoad(key) && |ws[e].loads| == t && |ws[e + 1].loads| == t + 1
  }

  /** Action `e` created mutation `m`, of `key` to `value`. */
  predicate Begins(acts: seq<Action>, ws: seq<World>, e: nat, m: nat, key: Key, value: Json)
  {
    e < |acts| && e < |ws| && acts[e] == MutateStarted(key, value) && |ws[e].writes| == m
  }

  lemma StartGrowsLoads(w: World, key: Key)
    requires Inv(w)
    ensures var w' := StartLoad(w, key);
            && w.loads <= w'.loads && |w'.loads| <= |w.loads| + 1
            && (|w'.loads| == |w.loads| + 1 ==>
                  var l := w'.loads[|w.loads|];
                  l.key == key && l.phase == Loading && key in w'.states && w'.states[key] == l.origin
                  && l.origin < |w'.objects| && w'.objects[l.origin].writeEpoch == l.startEpoch)
  {
    if key !in w.states {
      StartCreatesState(w, key);
    } else if w.objects[w.states[key]].task.Some? && Unfinished(w, w.objects[w.states[key]].task.value) {
      JoinChangesNothing(w, key);
    } else {
      StartUsesLiveState(w, key);
    }
  }

  lemma ReleaseKeepsLists(w: World, key: Key, id: nat)
    requires id < |w.objects|
    ensures Release(w, key, id).loads == w.loads && Release(w, key, id).writes == w.writes && Release(w, key, id).cache == w.cache
    ensures |Release(w, key, id).objects| == |w.objects|
    ensures forall i | 0 <= i < |w.objects| :: Release(w, key, id).objects[i].writeEpoch == w.objects[i].writeEpoch
  {
  }

  /** Only `EnsureLoad` makes loads and only `MutateStarted` makes mutations, one at a time. */
  lemma StepBirths(w: World, a: Action)
    requires Inv(w) && Enabled(w, a)
    ensures var w' := Apply(w, a);
            && |w.loads| <= |w'.loads| <= |w.loads| + (if a.EnsureLoad? then 1 else 0)
            && |w'.writes| == |w.writes| + (if a.MutateStarted? then 1 else 0)
            && (|w'.loads| == |w.loads| + 1 ==> w'.loads[|w.loads|].key == a.key && w'.loads[|w.loads|].phase == Loading)
  {
    match a
    case EnsureLoad(key) => StartGrowsLoads(w, key); StartKeepsWrites(w, key);
    case MutateReturned(m) =>
      var x := w.writes[m];
      ReleaseKeepsLists(SetLock(SetWrite(w, m, Finished), x.st, None), x.key, x.st);
    case MutateAborted(m) =>
      var x := w.writes[m];
      var w1 := SetWrite(w, m, Finished);
      ReleaseKeepsLists(if x.phase.Writing? then SetLock(w1, x.st, None) else w1, x.key, x.st);
    case LoadLocked(t) => ReleaseKeepsLists(SetLoad(w, t, Rereading), w.loads[t].key, w.loads[t].phase.st);
    case LoadStored(t) =>
      var l := w.loads[t];
      ReleaseKeepsLists(SetLock(SetLoad(w, t, Done(true)), l.phase.st, None), l.key, l.phase.st);
    case LoadAborted(t) => AbortKeepsLists(w, t);
    case _ =>
  }

  lemma AbortKeepsLists(w: World, t: nat)
    requires Enabled(w, LoadAborted(t))
    ensures |Apply(w, LoadAborted(t)).loads| == |w.loads| && Apply(w, LoadAborted(t)).writes == w.writes
    ensures |Apply(w, LoadAborted(t)).objects| == |w.objects|
    ensures forall i | 0 <= i < |w.objects| :: Apply(w, LoadAborted(t)).objects[i].writeEpoch == w.objects[i].writeEpoch
  {
    var l := w.loads[t];
    var w1 := SetLoad(w, t, Done(true));
    if l.phase.StoreWaiting? {
      ReleaseKeepsLists(w1, l.key, l.phase.st);
    } else if l.phase.StoreWriting? {
      ReleaseKeepsLists(SetLock(w1, l.phase.st, None), l.key, l.phase.st);
    }
  }

  lemma BirthsAt(acts: seq<Action>, ws: seq<World>, i: nat)
    requires Traced(acts, ws) && i < |acts|
    ensures |ws[i].loads| <= |ws[i + 1].loads| <= |ws[i].loads| + (if acts[i].EnsureLoad? then 1 else 0)
    ensures |ws[i + 1].writes| == |ws[i].writes| + (if acts[i].MutateStarted? then 1 else 0)
    ensures |ws[i + 1].loads| == |ws[i].loads| + 1 ==> ws[i + 1].loads[|ws[i].loads|].key == acts[i].key
  {
    TracedInv(acts, ws, i);
    assert Stepped(ws[i], acts[i], ws[i + 1]);
    StepBirths(ws[i], acts[i]);
  }

  lemma {:induction false} ListsGrow(acts: seq<Action>, ws: seq<World>, i: nat, j: nat)
    requires Traced(acts, ws) && i <= j < |ws|
    ensures |ws[i].loads| <= |ws[j].loads| && |ws[i].writes| <= |ws[j].writes|
    decreases j
  {
    if i < j {
      BirthsAt(acts, ws, j - 1);
      ListsGrow(acts, ws, i, j - 1);
    }
  }

  lemma KeyAt(acts: seq<Action>, ws: seq<World>, i: nat, t: nat)
    requires Traced(acts, ws) && i < |acts| && t < |ws[i].loads|
    ensures t < |ws[i + 1].loads| && ws[i + 1].loads[t].key == ws[i].loads[t].key
  {
    TracedInv(acts, ws, i);
    assert Stepped(ws[i], acts[i], ws[i + 1]);
    StepOfLoads(ws[i], acts[i], t);
  }

  lemma {:induction false} KeyStays(acts: seq<Action>, ws: seq<World>, i: nat, j: nat, t: nat)
    requires Traced(acts, ws) && i <= j < |ws| && t < |ws[i].loads|
    ensures t < |ws[j].loads| && ws[j].loads[t].key == ws[i].loads[t].key
    decreases j
  {
    if i < j {
      KeyStays(acts, ws, i, j - 1, t);
      KeyAt(acts, ws, j - 1, t);
    }
  }

  /** Every load was started by an `EnsureLoad` of its key. */
  lemma LoadWasStarted(acts: seq<Action>, ws: seq<World>, i: nat, t: nat) returns (e: nat)
    requires Traced(acts, ws) && i < |ws| && t < |ws[i].loads|
    ensures e < i && Starts(acts, ws, e, t, ws[i].loads[t].key)
  {
    var there := seq(|ws|, k requires 0 <= k < |ws| => t < |ws[k].loads|);
    e := Becomes(there, 0, i);
    BirthsAt(acts, ws, e);
    KeyStays(acts, ws, e + 1, i, t);
  }

  lemma StartedKey(acts: seq<Action>, ws: seq<World>, e: nat, i: nat, t: nat, key: Key)
    requires Traced(acts, ws) && Starts(acts, ws, e, t, key) && i < |ws| && t < |ws[i].loads|
    ensures e < i && ws[i].loads[t].key == key
  {
    if i <= e { ListsGrow(acts, ws, i, e); }
    BirthsAt(acts, ws, e);
    KeyStays(acts, ws, e + 1, i, t);
  }

  predicate Mutates(w: World, m: nat, key: Key, value: Json)
  {
    m < |w.writes| && w.writes[m].key == key && w.writes[m].value == value
  }

  lemma StepMutates(w: World, a: Action, m: nat, key: Key, value: Json)
    requires Inv(w) && Enabled(w, a)
    requires Mutates(w, m, key, value) || (a == MutateStarted(key, value) && m == |w.writes|)
    ensures Mutates(Apply(w, a), m, key, value)
  {
    if Mutates(w, m, key, value) { StepOfLoads(w, a, 0); }
  }

  lemma MutatesAt(acts: seq<Action>, ws: seq<World>, i: nat, m: nat, key: Key, value: Json)
    requires Traced(acts, ws) && i < |acts|
    requires Mutates(ws[i], m, key, value) || Begins(acts, ws, i, m, key, value)
    ensures Mutates(ws[i + 1], m, key, value)
  {
    TracedInv(acts, ws, i);
    assert Stepped(ws[i], acts[i], ws[i + 1]);
    StepMutates(ws[i], acts[i], m, key, value);
  }

  /** What a mutation writes, and where, is what `MutateStarted` said. */
  lemma {:induction false} MutationKeeps(acts: seq<Action>, ws: seq<World>, b: nat, i: nat, m: nat, key: Key, value: Json)
    requires Traced(acts, ws) && b < i < |ws| && Begins(acts, ws, b, m, key, value)
    ensures Mutates(ws[i], m, key, value)
    decreases i
  {
    if b + 1 < i { MutationKeeps(acts, ws, b, i - 1, m, key, value); }
    MutatesAt(acts, ws, i - 1, m, key, value);
  }

  /** Every mutation was begun, with the key and value it has. */
  lemma MutationBegan(acts: seq<Action>, ws: seq<World>, i: nat, m: nat) returns (b: nat)
    requires Traced(acts, ws) && i < |ws| && m < |ws[i].writes|
    ensures b < i && Begins(acts, ws, b, m, ws[i].writes[m].key, ws[i].writes[m].value)
  {
    var there := seq(|ws|, k requires 0 <= k < |ws| => m < |ws[k].writes|);
    b := Becomes(there, 0, i);
    BirthsAt(acts, ws, b);
    MutationKeeps(acts, ws, b, i, m, acts[b].key, acts[b].value);
  }

  // ---------------------------------------------------------------- which loads store

  /** The step is a mutation of the key bumping its epoch. */
  predicate Bumps(w: World, a: Action, key: Key)
  {
    a.MutateLocked? && a.m < |w.writes| && w.writes[a.m].key == key
  }

  lemma OtherStepsKeepEpochs(w: World, a: Action, id: nat)
    requires Inv(w) && Enabled(w, a) && !a.MutateLocked? && id < |w.objects|
    ensures id < |Apply(w, a).objects| && Apply(w, a).objects[id].writeEpoch == w.objects[id].writeEpoch
  {
    match a
    case EnsureLoad(key) => StartKeepsEpochs(w, key, id);
    case MutateReturned(m) =>
      var x := w.writes[m];
      ReleaseKeepsLists(SetLock(SetWrite(w, m, Finished), x.st, None), x.key, x.st);
    case MutateAborted(m) =>
      var x := w.writes[m];
      var w1 := SetWrite(w, m, Finished);
      ReleaseKeepsLists(if x.phase.Writing? then SetLock(w1, x.st, None) else w1, x.key, x.st);
    case LoadLocked(t) => ReleaseKeepsLists(SetLoad(w, t, Rereading), w.loads[t].key, w.loads[t].phase.st);
    case LoadStored(t) =>
      var l := w.loads[t];
      ReleaseKeepsLists(SetLock(SetLoad(w, t, Done(true)), l.phase.st, None), l.key, l.phase.st);
    case LoadAborted(t) => AbortKeepsLists(w, t);
    case _ =>
  }

  lemma StartKeepsEpochs(w: World, key: Key, id: nat)
    requires Inv(w) && id < |w.objects|
    ensures id < |StartLoad(w, key).objects| && StartLoad(w, key).objects[id].writeEpoch == w.objects[id].writeEpoch
  {
    if key !in w.states {
      StartCreatesState(w, key);
    } else if w.objects[w.states[key]].task.Some? && Unfinished(w, w.objects[w.states[key]].task.value) {
      JoinChangesNothing(w, key);
    } else {
      StartUsesLiveState(w, key);
    }
  }

  /** The epoch an unfinished load looks at moves exactly with the mutations of its key. */
  lemma EpochStep(w: World, a: Action, t: nat)
    requires Inv(w) && Enabled(w, a) && Unfinished(w, t)
    ensures var l := w.loads[t];
            && l.origin < |w.objects| && l.origin < |Apply(w, a).objects|
            && Apply(w, a).objects[l.origin].writeEpoch ==
               w.objects[l.origin].writeEpoch + (if Bumps(w, a, l.key) then 1 else 0)
  {
    assert LoadOk(w, t);
    if a.MutateLocked? {
      assert WriteOk(w, a.m);
    } else {
      OtherStepsKeepEpochs(w, a, w.loads[t].origin);
    }
  }

  /** No mutation of the key bumped its epoch between two points of a run. */
  predicate NoBump(acts: seq<Action>, ws: seq<World>, i: nat, j: nat, key: Key)
    requires j <= |acts| && j <= |ws|
  {
    forall k | i <= k < j :: !Bumps(ws[k], acts[k], key)
  }

  /** The load is for the key, and has the epoch of its state as its start epoch exactly if `unbumped`. */
  predicate EpochTells(w: World, t: nat, key: Key, unbumped: bool)
  {
    && t < |w.loads| && w.loads[t].key == key && w.loads[t].origin < |w.objects|
    && var epoch := w.objects[w.loads[t].origin].writeEpoch;
       w.loads[t].startEpoch <= epoch && (w.loads[t].startEpoch == epoch <==> unbumped)
  }

  lemma StartTells(w: World, key: Key)
    requires Inv(w) && |StartLoad(w, key).loads| == |w.loads| + 1
    ensures EpochTells(StartLoad(w, key), |w.loads|, key, true)
  {
    StartGrowsLoads(w, key);
  }

  lemma StepTells(w: World, a: Action, t: nat, key: Key, unbumped: bool)
    requires Inv(w) && Enabled(w, a) && t < |w.loads| && Unfinished(Apply(w, a), t) && EpochTells(w, t, key, unbumped)
    ensures EpochTells(Apply(w, a), t, key, unbumped && !Bumps(w, a, key))
  {
    StepOfLoads(w, a, t);
    StaysFinished(w, a, t);
    EpochStep(w, a, t);
  }

  lemma StaysFinished(w: World, a: Action, t: nat)
    requires Inv(w) && Enabled(w, a) && t < |w.loads| && Unfinished(Apply(w, a), t)
    ensures Unfinished(w, t)
  {
    StepOfLoads(w, a, t);
  }

  lemma EpochOkStep(acts: seq<Action>, ws: seq<World>, i: nat, t: nat, key: Key, unbumped: bool)
    requires Traced(acts, ws) && i < |acts| && t < |ws[i].loads|
    requires Unfinished(ws[i], t) ==> EpochTells(ws[i], t, key, unbumped)
    ensures Unfinished(ws[i + 1], t) ==> EpochTells(ws[i + 1], t, key, unbumped && !Bumps(ws[i], acts[i], key))
  {
    TracedInv(acts, ws, i);
    assert Stepped(ws[i], acts[i], ws[i + 1]);
    if Unfinished(ws[i + 1], t) {
      StaysFinished(ws[i], acts[i], t);
      StepTells(ws[i], acts[i], t, key, unbumped);
    }
  }

  lemma {:induction false} EpochSince(acts: seq<Action>, ws: seq<World>, e: nat, i: nat, t: nat, key: Key)
    requires Traced(acts, ws) && Starts(acts, ws, e, t, key) && e < i < |ws|
    ensures Unfinished(ws[i], t) ==> EpochTells(ws[i], t, key, NoBump(acts, ws, e + 1, i, key))
    decreases i
  {
    if e + 1 == i {
      TracedInv(acts, ws, e);
      assert Stepped(ws[e], acts[e], ws[i]);
      StartTells(ws[e], key);
    } else {
      EpochSince(acts, ws, e, i - 1, t, key);
      ListsGrow(acts, ws, e + 1, i - 1);
      EpochOkStep(acts, ws, i - 1, t, key, NoBump(acts, ws, e + 1, i - 1, key));
    }
  }

  /**
    A load that gets the lock goes on to store its value if and only if no mutation of its
    key bumped the epoch since the load was started.
   */
  lemma LoadStoresIff(acts: seq<Action>, ws: seq<World>, e: nat, i: nat, t: nat, key: Key)
    requires Traced(acts, ws) && i < |acts| && Starts(acts, ws, e, t, key) && acts[i] == LoadLocked(t)
    ensures e < i && t < |ws[i + 1].loads|
    ensures ws[i + 1].loads[t].phase.StoreWriting? <==> NoBump(acts, ws, e + 1, i, key)
    ensures ws[i + 1].loads[t].phase.Rereading? <==> !NoBump(acts, ws, e + 1, i, key)
  {
    TracedInv(acts, ws, i);
    assert Stepped(ws[i], acts[i], ws[i + 1]);
    StartedKey(acts, ws, e, i, t, key);
    EpochSince(acts, ws, e, i, t, key);
    StepOfLoads(ws[i], acts[i], t);
    assert LoadOk(ws[i], t);
  }

  // ---------------------------------------------------------------- what a landing leaves behind

  /** The loader has returned, and until it is over the load carries what it returned. */
  predicate Carries(p: LoadPhase, value: Json)
  {
    !p.Loading? && (p.StoreWaiting? || p.StoreWriting? ==> p.value == value)
  }

  lemma CarriesAt(acts: seq<Action>, ws: seq<World>, i: nat, t: nat, value: Json)
    requires Traced(acts, ws) && i < |acts|
    requires acts[i] == LoaderReturned(t, value) || (t < |ws[i].loads| && Carries(ws[i].loads[t].phase, value))
    ensures t < |ws[i + 1].loads| && Carries(ws[i + 1].loads[t].phase, value)
  {
    TracedInv(acts, ws, i);
    assert Stepped(ws[i], acts[i], ws[i + 1]);
    StepOfLoads(ws[i], acts[i], t);
  }

  lemma {:induction false} ReturnedStays(acts: seq<Action>, ws: seq<World>, i: nat, j: nat, t: nat, value: Json)
    requires Traced(acts, ws) && i < j < |ws| && acts[i] == LoaderReturned(t, value)
    ensures t < |ws[j].loads| && Carries(ws[j].loads[t].phase, value)
    decreases j
  {
    if i + 1 < j { ReturnedStays(acts, ws, i, j - 1, t, value); }
    CarriesAt(acts, ws, j - 1, t, value);
  }

  lemma LoadLandsIn(w: World, t: nat)
    requires Enabled(w, LoadLanded(t))
    ensures var l := w.loads[t];
            Apply(w, LoadLanded(t)).cache == w.cache[l.key := Entry(l.phase.value, LoadTask(t))]
  {
  }

  lemma LoadLands(acts: seq<Action>, ws: seq<World>, e: nat, i: nat, j: nat, t: nat, key: Key, value: Json)
    requires Traced(acts, ws) && i < j < |acts| && Starts(acts, ws, e, t, key)
    requires acts[i] == LoaderReturned(t, value) && acts[j] == LoadLanded(t)
    ensures key in ws[j + 1].cache && ws[j + 1].cache[key] == Entry(value, LoadTask(t))
  {
    assert Stepped(ws[j], acts[j], ws[j + 1]);
    ReturnedStays(acts, ws, i, j, t, value);
    StartedKey(acts, ws, e, j, t, key);
    LoadLandsIn(ws[j], t);
  }

  lemma EntryAt(acts: seq<Action>, ws: seq<World>, i: nat, key: Key)
    requires Traced(acts, ws) && i < |acts| && !Replaces(ws[i], acts[i], key, 0)
    ensures key in ws[i + 1].cache <==> key in ws[i].cache
    ensures key in ws[i].cache ==> ws[i + 1].cache[key] == ws[i].cache[key]
  {
    TracedInv(acts, ws, i);
    assert Stepped(ws[i], acts[i], ws[i + 1]);
    OnlyLandingsTouchCache(ws[i], acts[i], key);
  }

  lemma {:induction false} EntryStays(acts: seq<Action>, ws: seq<World>, i: nat, j: nat, key: Key)
    requires Traced(acts, ws) && i <= j < |ws| && key in ws[i].cache
    requires forall k | i <= k < j :: !Replaces(ws[k], acts[k], key, 0)
    ensures key in ws[j].cache && ws[j].cache[key] == ws[i].cache[key]
    decreases j
  {
    if i < j {
      EntryStays(acts, ws, i, j - 1, key);
      EntryAt(acts, ws, j - 1, key);
    }
  }

  /**
    A load that reaches the backend leaves there what its loader returned, under the key it
    was started for; it stays until the backend drops it or another landing replaces it.
   */
  lemma LoadedValueStays(
    acts: seq<Action>, ws: seq<World>, e: nat, i: nat, j: nat, now: nat, t: nat, key: Key, value: Json)
    requires Traced(acts, ws) && i < j < now < |ws| && Starts(acts, ws, e, t, key)
    requires acts[i] == LoaderReturned(t, value) && acts[j] == LoadLanded(t)
    requires forall k | j < k < now :: !Replaces(ws[k], acts[k], key, 0)
    ensures key in ws[now].cache && ws[now].cache[key] == Entry(value, LoadTask(t))
  {
    LoadLands(acts, ws, e, i, j, t, key, value);
    EntryStays(acts, ws, j + 1, now, key);
  }

  /** A mutation that reaches the backend leaves there the value it was called with, under its key. */
  lemma MutatedValueLands(acts: seq<Action>, ws: seq<World>, b: nat, j: nat, m: nat, key: Key, value: Json)
    requires Traced(acts, ws) && j < |acts| && Begins(acts, ws, b, m, key, value) && acts[j] == MutateLanded(m)
    ensures b < j && key in ws[j + 1].cache && ws[j + 1].cache[key] == Entry(value, Mutation(m))
  {
    assert Stepped(ws[j], acts[j], ws[j + 1]);
    if j <= b { ListsGrow(acts, ws, j, b); }
    MutationKeeps(acts, ws, b, j, m, key, value);
    LandingStores(ws[j], m);
  }

  /** A drop by the backend leaves nothing under the key. */
  lemma DroppedIsGone(acts: seq<Action>, ws: seq<World>, i: nat, key: Key)
    requires Traced(acts, ws) && i < |acts| && acts[i] == BackendDropped(key)
    ensures key !in ws[i + 1].cache
  {
    assert Stepped(ws[i], acts[i], ws[i + 1]);
  }

  // ---------------------------------------------------------------- where a cached value came from

  /** The step puts the entry there. */
  predicate Lands(w: World, a: Action, key: Key, entry: Entry)
  {
    match entry.author
    case LoadTask(t) => a == LoadLanded(t) && Holding(w, t, entry.value) && w.loads[t].key == key
    case Mutation(m) => a == MutateLanded(m) && Mutates(w, m, key, entry.value) && w.writes[m].phase.Writing?
  }

  /** Load `t` carries the value. */
  predicate Holding(w: World, t: nat, value: Json)
  {
    && t < |w.loads| && (w.loads[t].phase.StoreWaiting? || w.loads[t].phase.StoreWriting?)
    && w.loads[t].phase.value == value
  }

  lemma LandingStep(w: World, a: Action, key: Key)
    requires Enabled(w, a) && Replaces(w, a, key, 0) && key in Apply(w, a).cache
    ensures Lands(w, a, key, Apply(w, a).cache[key])
  {
    if a.MutateLanded? { LandingStores(w, a.m); }
    if a.LoadLanded? { LoadLandsIn(w, a.t); }
  }

  lemma {:induction false} CachedHasLanding(acts: seq<Action>, ws: seq<World>, now: nat, key: Key) returns (j: nat)
    requires Traced(acts, ws) && now < |ws| && key in ws[now].cache
    ensures j < now && Lands(ws[j], acts[j], key, ws[now].cache[key])
    decreases now
  {
    var k := now - 1;
    if Replaces(ws[k], acts[k], key, 0) {
      assert Stepped(ws[k], acts[k], ws[now]);
      LandingStep(ws[k], acts[k], key);
      j := k;
    } else {
      EntryAt(acts, ws, k, key);
      j := CachedHasLanding(acts, ws, k, key);
    }
  }

  lemma CarriedStep(w: World, a: Action, t: nat, value: Json)
    requires Inv(w) && Enabled(w, a) && Holding(Apply(w, a), t, value)
    ensures Holding(w, t, value) || a == LoaderReturned(t, value)
  {
    StepBirths(w, a);
    if t < |w.loads| { StepOfLoads(w, a, t); }
  }

  lemma HoldingStarts(acts: seq<Action>, ws: seq<World>, i: nat, t: nat, value: Json)
    requires Traced(acts, ws) && i < |acts| && !Holding(ws[i], t, value) && Holding(ws[i + 1], t, value)
    ensures acts[i] == LoaderReturned(t, value) && t < |ws[i].loads|
  {
    TracedInv(acts, ws, i);
    assert Stepped(ws[i], acts[i], ws[i + 1]);
    CarriedStep(ws[i], acts[i], t, value);
  }

  /** Every cached value that a load wrote was returned by its loader, for the key it was started for. */
  lemma CachedLoadHasCause(acts: seq<Action>, ws: seq<World>, now: nat, key: Key) returns (e: nat, i: nat, j: nat)
    requires Traced(acts, ws) && now < |ws| && key in ws[now].cache && ws[now].cache[key].author.LoadTask?
    ensures var entry := ws[now].cache[key];
            && e < i < j < now
            && Starts(acts, ws, e, entry.author.task, key)
            && acts[i] == LoaderReturned(entry.author.task, entry.value)
            && acts[j] == LoadLanded(entry.author.task)
  {
    var t, value := ws[now].cache[key].author.task, ws[now].cache[key].value;
    j := CachedHasLanding(acts, ws, now, key);
    var holding := seq(|ws|, k requires 0 <= k < |ws| => Holding(ws[k], t, value));
    i := Becomes(holding, 0, j);
    HoldingStarts(acts, ws, i, t, value);
    e := LoadWasStarted(acts, ws, i, t);
    KeyStays(acts, ws, i, j, t);
  }

  lemma WritingAt(acts: seq<Action>, ws: seq<World>, i: nat, m: nat)
    requires Traced(acts, ws) && i < |acts| && !IsWriting(ws[i], m) && IsWriting(ws[i + 1], m)
    ensures acts[i] == MutateLocked(m) && m < |ws[i].writes|
  {
    assert Stepped(ws[i], acts[i], ws[i + 1]);
    WritingStarts(ws[i], acts[i], m);
  }

  /** Every cached value that a mutation wrote is the one it was called with, written after its bump. */
  lemma CachedMutationHasCause(acts: seq<Action>, ws: seq<World>, now: nat, key: Key) returns (b: nat, lock: nat, j: nat)
    requires Traced(acts, ws) && now < |ws| && key in ws[now].cache && ws[now].cache[key].author.Mutation?
    ensures var entry := ws[now].cache[key];
            && b < lock < j < now
            && Begins(acts, ws, b, entry.author.mutation, key, entry.value)
            && acts[lock] == MutateLocked(entry.author.mutation)
            && acts[j] == MutateLanded(entry.author.mutation)
  {
    var m := ws[now].cache[key].author.mutation;
    j := CachedHasLanding(acts, ws, now, key);
    var writing := seq(|ws|, k requires 0 <= k < |ws| => IsWriting(ws[k], m));
    lock := Becomes(writing, 0, j);
    WritingAt(acts, ws, lock, m);
    b := MutationBegan(acts, ws, lock, m);
    MutationKeeps(acts, ws, b, j, m, ws[lock].writes[m].key, ws[lock].writes[m].value);
  }
}
