/**
  The stale-while-revalidate protocol of src/langgraph_api/cache.py, as a state machine
  over values.  One action is one coroutine segment between two awaits, so every
  interleaving of loads, mutations, failures, cancellations and backend drops over any
  number of keys is a sequence of actions.

  A waiter of `write_lock` may be granted the lock in any order; asyncio grants it in
  FIFO order, so every schedule of the program is a schedule here.
 */
module SwrProtocol {
  import opened Wrappers

  type Key = string
  type Json = string

  /** Who holds a write lock, or a counted reference to a state object. */
  datatype Party = LoadTask(task: nat) | Mutation(mutation: nat)

  /** `_SWRState`. */
  datatype SwrState = SwrState(task: Option<nat>, writeEpoch: nat, lockedBy: Option<Party>, users: int)

  datatype LoadPhase =
    | Loading                              // awaiting loader()
    | StoreWaiting(st: nat, value: Json)   // state acquired, waiting for write_lock
    | StoreWriting(st: nat, value: Json, landed: bool) // holds write_lock, writing the backend
    | Rereading                            // epoch moved on: nothing stored, re-reading the cache
    | Done(callbackPending: bool)

  /** A task running `_load_and_store_swr_value`; `origin` is the state it was created from. */
  datatype Load = Load(key: Key, origin: nat, startEpoch: nat, phase: LoadPhase)

  datatype MutationPhase = Waiting | Writing(landed: bool) | Finished

  /** A call of `_write_swr_value`. */
  datatype Write = Write(key: Key, st: nat, value: Json, phase: MutationPhase)

  /** A cached value, with the party whose write put it there. */
  datatype Entry = Entry(value: Json, author: Party)

  datatype World = World(
    states: map<Key, nat>,        // _SWR_STATES: key to state object
    objects: seq<SwrState>,       // every state object ever created; its index is its identity
    loads: seq<Load>,
    writes: seq<Write>,
    cache: map<Key, Entry>)

  const Init := World(map[], [], [], [], map[])

  // ---------------------------------------------------------------- the synchronous helpers

  /** `_acquire_swr_state`: the state object found or created, with one more user. */
  function Acquire(w: World, key: Key): (r: (World, nat))
  {
    if key in w.states && w.states[key] < |w.objects| then
      var id := w.states[key];
      (w.(objects := w.objects[id := w.objects[id].(users := w.objects[id].users + 1)]), id)
    else
      var id := |w.objects|;
      (w.(states := w.states[key := id], objects := w.objects + [SwrState(None, 0, None, 1)]), id)
  }

  /** `_maybe_cleanup_swr_state`. */
  function Cleanup(w: World, key: Key, id: nat): World
    requires id < |w.objects|
  {
    var s := w.objects[id];
    if s.users == 0 && s.task.None? && s.lockedBy.None? && key in w.states && w.states[key] == id
    then w.(states := w.states - {key})
    else w
  }

  /** `_release_swr_state`. */
  function Release(w: World, key: Key, id: nat): World
    requires id < |w.objects|
  {
    Cleanup(w.(objects := w.objects[id := w.objects[id].(users := w.objects[id].users - 1)]), key, id)
  }

  function SetLock(w: World, id: nat, holder: Option<Party>): World
    requires id < |w.objects|
  {
    w.(objects := w.objects[id := w.objects[id].(lockedBy := holder)])
  }

  function SetLoad(w: World, t: nat, phase: LoadPhase): World
    requires t < |w.loads|
  {
    w.(loads := w.loads[t := w.loads[t].(phase := phase)])
  }

  function SetWrite(w: World, m: nat, phase: MutationPhase): World
    requires m < |w.writes|
  {
    w.(writes := w.writes[m := w.writes[m].(phase := phase)])
  }

  predicate Unfinished(w: World, t: nat)
  {
    t < |w.loads| && !w.loads[t].phase.Done?
  }

  // ---------------------------------------------------------------- the actions

  datatype Action =
    | EnsureLoad(key: Key)                    // swr() on a miss, stale or expired hit; mutate() without a value
    | LoaderReturned(t: nat, value: Json)     // the loader's result arrives, the state is acquired
    | LoadLocked(t: nat)                      // write_lock granted, the epochs are compared
    | LoadLanded(t: nat)                      // the backend stores the loaded value
    | LoadStored(t: nat)                      // lock and state released, the coroutine returns
    | LoadReread(t: nat)                      // the re-read after a refused store returns
    | LoadAborted(t: nat)                     // the loader or the backend raised, or the load was cancelled
    | LoadCallback(t: nat)                    // its done callback runs
    | MutateStarted(key: Key, value: Json)    // _write_swr_value acquires the state
    | MutateLocked(m: nat)                    // write_lock granted, the epoch is bumped
    | MutateLanded(m: nat)                    // the backend stores the value
    | MutateReturned(m: nat)                  // lock and state released
    | MutateAborted(m: nat)                   // the backend raised, or the caller was cancelled
    | BackendDropped(key: Key)                // eviction or TTL

  predicate Enabled(w: World, a: Action)
  {
    match a
    case EnsureLoad(_) => true
    case LoaderReturned(t, _) => t < |w.loads| && w.loads[t].phase.Loading?
    case LoadLocked(t) =>
      t < |w.loads| && w.loads[t].phase.StoreWaiting? && w.loads[t].phase.st < |w.objects|
      && w.objects[w.loads[t].phase.st].lockedBy.None?
    case LoadLanded(t) => t < |w.loads| && w.loads[t].phase.StoreWriting? && !w.loads[t].phase.landed
    case LoadStored(t) =>
      t < |w.loads| && w.loads[t].phase.StoreWriting? && w.loads[t].phase.landed && w.loads[t].phase.st < |w.objects|
    case LoadReread(t) => t < |w.loads| && w.loads[t].phase.Rereading?
    case LoadAborted(t) =>
      Unfinished(w, t)
      && (w.loads[t].phase.StoreWaiting? || w.loads[t].phase.StoreWriting? ==> w.loads[t].phase.st < |w.objects|)
    case LoadCallback(t) => t < |w.loads| && w.loads[t].phase == Done(true)
    case MutateStarted(_, _) => true
    case MutateLocked(m) =>
      m < |w.writes| && w.writes[m].phase.Waiting? && w.writes[m].st < |w.objects|
      && w.objects[w.writes[m].st].lockedBy.None?
    case MutateLanded(m) => m < |w.writes| && w.writes[m].phase == Writing(false)
    case MutateReturned(m) => m < |w.writes| && w.writes[m].phase == Writing(true) && w.writes[m].st < |w.objects|
    case MutateAborted(m) => m < |w.writes| && !w.writes[m].phase.Finished? && w.writes[m].st < |w.objects|
    case BackendDropped(_) => true
  }

  /** The body of `_ensure_swr_load_task`: keep the unfinished task of the state, or create one. */
  function JoinOrCreate(w: World, key: Key, id: nat): World
    requires id < |w.objects|
  {
    var s := w.objects[id];
    if s.task.Some? && Unfinished(w, s.task.value) then w
    else
      w.(loads := w.loads + [Load(key, id, s.writeEpoch, Loading)],
         objects := w.objects[id := s.(task := Some(|w.loads|))])
  }

  /** `_ensure_swr_load_task`. */
  function StartLoad(w: World, key: Key): World
  {
    var (w1, id) := Acquire(w, key);
    Release(JoinOrCreate(w1, key, id), key, id)
  }

  /** The `_cleanup` done callback of a load task. */
  function RunCallback(w: World, t: nat): World
    requires t < |w.loads|
  {
    var key := w.loads[t].key;
    var w1 := SetLoad(w, t, Done(false));
    if key in w.states && w.states[key] < |w.objects| && w.objects[w.states[key]].task == Some(t) then
      var id := w.states[key];
      Cleanup(w1.(objects := w1.objects[id := w1.objects[id].(task := None)]), key, id)
    else w1
  }

  function Apply(w: World, a: Action): World
    requires Enabled(w, a)
  {
    match a
    case EnsureLoad(key) => StartLoad(w, key)
    case LoaderReturned(t, value) =>
      var (w1, id) := Acquire(w, w.loads[t].key);
      SetLoad(w1, t, StoreWaiting(id, value))
    case LoadLocked(t) =>
      var l := w.loads[t];
      var id := l.phase.st;
      if l.startEpoch != w.objects[id].writeEpoch
      then Release(SetLoad(w, t, Rereading), l.key, id)
      else SetLoad(SetLock(w, id, Some(LoadTask(t))), t, StoreWriting(id, l.phase.value, false))
    case LoadLanded(t) =>
      var l := w.loads[t];
      SetLoad(w, t, l.phase.(landed := true)).(cache := w.cache[l.key := Entry(l.phase.value, LoadTask(t))])
    case LoadStored(t) =>
      var l := w.loads[t];
      Release(SetLock(SetLoad(w, t, Done(true)), l.phase.st, None), l.key, l.phase.st)
    case LoadReread(t) => SetLoad(w, t, Done(true))
    case LoadAborted(t) =>
      var l := w.loads[t];
      var w1 := SetLoad(w, t, Done(true));
      if l.phase.StoreWaiting? then Release(w1, l.key, l.phase.st)
      else if l.phase.StoreWriting? then Release(SetLock(w1, l.phase.st, None), l.key, l.phase.st)
      else w1
    case LoadCallback(t) => RunCallback(w, t)
    case MutateStarted(key, value) =>
      var (w1, id) := Acquire(w, key);
      w1.(writes := w1.writes + [Write(key, id, value, Waiting)])
    case MutateLocked(m) =>
      var id := w.writes[m].st;
      var s := w.objects[id].(lockedBy := Some(Mutation(m)), writeEpoch := w.objects[id].writeEpoch + 1);
      SetWrite(w.(objects := w.objects[id := s]), m, Writing(false))
    case MutateLanded(m) =>
      var x := w.writes[m];
      SetWrite(w, m, Writing(true)).(cache := w.cache[x.key := Entry(x.value, Mutation(m))])
    case MutateReturned(m) =>
      var x := w.writes[m];
      Release(SetLock(SetWrite(w, m, Finished), x.st, None), x.key, x.st)
    case MutateAborted(m) =>
      var x := w.writes[m];
      var w1 := SetWrite(w, m, Finished);
      Release(if x.phase.Writing? then SetLock(w1, x.st, None) else w1, x.key, x.st)
    case BackendDropped(key) => w.(cache := w.cache - {key})
  }

  /** The world after a history of actions, if each was enabled when it was taken. */
  function Execute(acts: seq<Action>): Option<World>
  {
    if acts == [] then Some(Init)
    else
      match Execute(acts[..|acts| - 1])
      case None => None
      case Some(w) =>
        var a := acts[|acts| - 1];
        if Enabled(w, a) then Some(Apply(w, a)) else None
  }
}
