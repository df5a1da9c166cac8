/**
  The state objects, the `_SWR_STATES` registry and the coroutine segments of
  src/langgraph_api/cache.py, updating objects in place.  Each method is one segment
  between two awaits; its contract equates the new state with the action of the
  protocol, whose histories SwrTheorems is about.
 */
module SwrCache {
  import opened Wrappers
  import opened SwrProtocol

  /** A `_SWRState` object; `id` is its identity. */
  class StateObject {
    const id: nat
    var task: Option<nat>
    var writeEpoch: nat
    var lockedBy: Option<Party>
    var users: int

    constructor (id: nat)
      ensures this.id == id && Value() == SwrState(None, 0, None, 0)
    {
      this.id := id;
      task, writeEpoch, lockedBy, users := None, 0, None, 0;
    }

    function Value(): SwrState
      reads this
    {
      SwrState(task, writeEpoch, lockedBy, users)
    }
  }

  class Registry {
    var states: map<Key, StateObject>   // _SWR_STATES
    var objects: seq<StateObject>       // every state object ever created: what the locals `state` refer to
    var loads: seq<Load>                // the frames of the load tasks
    var writes: seq<Write>              // the frames of the _write_swr_value calls
    var cache: map<Key, Entry>          // the backend

    ghost predicate Valid()
      reads this
    {
      && (forall i | 0 <= i < |objects| :: objects[i].id == i)
      && (forall k | k in states :: states[k].id < |objects| && objects[states[k].id] == states[k])
    }

    ghost function View(): World
      reads this, objects
    {
      World(map k | k in states :: states[k].id,
            seq(|objects|, i requires 0 <= i < |objects| reads this, objects => objects[i].Value()),
            loads, writes, cache)
    }

    constructor ()
      ensures Valid() && View() == Init && fresh(objects)
    {
      states, objects, loads, writes, cache := map[], [], [], [], map[];
      new;
      assert View().states == map[];
    }

    // -------------------------------------------------------------- synchronous helpers

    method AcquireSwrState(key: Key) returns (state: StateObject)
      requires Valid()
      modifies this`states, this`objects, objects
      ensures Valid() && fresh(set o | o in objects && o !in old(objects))
      ensures old(objects) <= objects && state in objects
      ensures (View(), state.id) == Acquire(old(View()), key)
    {
      ghost var w := View();
      if key in states {
        state := states[key];
      } else {
        state := AddState(key);
        assert (w.objects + [SwrState(None, 0, None, 0)])[|w.objects| := SwrState(None, 0, None, 1)]
               == w.objects + [SwrState(None, 0, None, 1)];
      }
      ghost var w1 := View();
      state.users := state.users + 1;
      assert View() == w1.(objects := w1.objects[state.id := w1.objects[state.id].(users := w1.objects[state.id].users + 1)]);
    }

    /** The creation of a missing state within `_acquire_swr_state`. */
    method AddState(key: Key) returns (state: StateObject)
      requires Valid() && key !in states
      modifies this`states, this`objects
      ensures Valid() && fresh(state) && objects == old(objects) + [state] && states == old(states)[key := state]
      ensures state.id == |old(objects)|
      ensures View() == old(View()).(states := old(View()).states[key := |old(objects)|],
                                     objects := old(View()).objects + [SwrState(None, 0, None, 0)])
    {
      ghost var w := View();
      state := new StateObject(|objects|);
      states := states[key := state];
      objects := objects + [state];
      assert View().states == w.states[key := state.id];
      assert View().objects == w.objects + [SwrState(None, 0, None, 0)];
    }

    method MaybeCleanupSwrState(key: Key, state: StateObject)
      requires Valid() && state in objects
      modifies this`states
      ensures Valid()
      ensures View() == Cleanup(old(View()), key, state.id)
    {
      ghost var w := View();
      if state.users == 0 && state.task.None? && state.lockedBy.None? && key in states && states[key] == state {
        states := states - {key};
      }
      assert View().states == Cleanup(w, key, state.id).states;
    }

    method ReleaseSwrState(key: Key, state: StateObject)
      requires Valid() && state in objects
      modifies this`states, state`users
      ensures Valid()
      ensures View() == Release(old(View()), key, state.id)
    {
      ghost var w := View();
      state.users := state.users - 1;
      assert View() == w.(objects := w.objects[state.id := w.objects[state.id].(users := w.objects[state.id].users - 1)]);
      MaybeCleanupSwrState(key, state);
    }

    /** Taking and freeing `state.write_lock`. */
    method SetHolder(state: StateObject, holder: Option<Party>)
      requires Valid() && state in objects
      modifies state`lockedBy
      ensures Valid() && View() == SetLock(old(View()), state.id, holder)
    {
      ghost var w := View();
      state.lockedBy := holder;
      assert View().objects == SetLock(w, state.id, holder).objects;
    }

    /** `_ensure_swr_load_task`; the result is the load that the caller awaits or leaves running. */
    method EnsureSwrLoadTask(key: Key) returns (task: nat)
      requires Valid()
      modifies this, objects
      ensures Valid() && fresh(set o | o in objects && o !in old(objects)) && old(objects) <= objects
      ensures View() == Apply(old(View()), EnsureLoad(key))
      ensures Unfinished(View(), task)
    {
      var state := AcquireSwrState(key);
      task := JoinOrCreateTask(key, state);
      ReleaseSwrState(key, state);
    }

    method JoinOrCreateTask(key: Key, state: StateObject) returns (task: nat)
      requires Valid() && state in objects
      modifies this`loads, state`task
      ensures Valid()
      ensures View() == JoinOrCreate(old(View()), key, state.id)
      ensures state.task == Some(task) && Unfinished(View(), task)
    {
      ghost var w := View();
      if state.task.Some? && state.task.value < |loads| && !loads[state.task.value].phase.Done? {
        task := state.task.value;
      } else {
        task := |loads|;
        loads := loads + [Load(key, state.id, state.writeEpoch, Loading)];
        state.task := Some(task);
        assert View().objects == w.objects[state.id := w.objects[state.id].(task := Some(task))];
      }
    }

    // -------------------------------------------------------------- segments of a load task

    /** The loader returned: `_store_loaded_swr_value` acquires the state and asks for the lock. */
    method OnLoaderReturned(t: nat, value: Json)
      requires Valid() && Enabled(View(), LoaderReturned(t, value))
      modifies this, objects
      ensures Valid() && fresh(set o | o in objects && o !in old(objects)) && old(objects) <= objects
      ensures View() == Apply(old(View()), LoaderReturned(t, value))
    {
      var state := AcquireSwrState(loads[t].key);
      loads := loads[t := loads[t].(phase := StoreWaiting(state.id, value))];
    }

    /** The lock is granted: a load whose epoch has passed stores nothing. */
    method OnLoadLocked(t: nat)
      requires Valid() && Enabled(View(), LoadLocked(t))
      modifies this, objects
      ensures Valid() && objects == old(objects)
      ensures View() == Apply(old(View()), LoadLocked(t))
    {
      var load := loads[t];
      var state := objects[load.phase.st];
      if load.startEpoch != state.writeEpoch {
        loads := loads[t := load.(phase := Rereading)];
        ReleaseSwrState(load.key, state);
      } else {
        SetHolder(state, Some(LoadTask(t)));
        loads := loads[t := load.(phase := StoreWriting(state.id, load.phase.value, false))];
      }
    }

    method OnLoadLanded(t: nat)
      requires Valid() && Enabled(View(), LoadLanded(t))
      modifies this
      ensures Valid() && objects == old(objects)
      ensures View() == Apply(old(View()), LoadLanded(t))
    {
      var load := loads[t];
      cache := cache[load.key := Entry(load.phase.value, LoadTask(t))];
      loads := loads[t := load.(phase := load.phase.(landed := true))];
    }

    method OnLoadStored(t: nat)
      requires Valid() && Enabled(View(), LoadStored(t))
      modifies this, objects
      ensures Valid() && objects == old(objects)
      ensures View() == Apply(old(View()), LoadStored(t))
    {
      var load := loads[t];
      var state := objects[load.phase.st];
      FinishLoad(t);
      ReleaseSwrState(load.key, state);
    }

    method OnLoadReread(t: nat)
      requires Valid() && Enabled(View(), LoadReread(t))
      modifies this
      ensures Valid() && objects == old(objects)
      ensures View() == Apply(old(View()), LoadReread(t))
    {
      loads := loads[t := loads[t].(phase := Done(true))];
    }

    /** An exception or a cancellation leaves the load through its `finally` clauses. */
    method OnLoadAborted(t: nat)
      requires Valid() && Enabled(View(), LoadAborted(t))
      modifies this, objects
      ensures Valid() && objects == old(objects)
      ensures View() == Apply(old(View()), LoadAborted(t))
    {
      var load := loads[t];
      FinishLoad(t);
      if load.phase.StoreWaiting? || load.phase.StoreWriting? {
        ReleaseSwrState(load.key, objects[load.phase.st]);
      }
    }

    /** The load is over; leaving `async with state.write_lock` frees the lock. */
    method FinishLoad(t: nat)
      requires Valid() && t < |loads| && (loads[t].phase.StoreWriting? ==> loads[t].phase.st < |objects|)
      modifies this`loads, objects
      ensures Valid() && |loads| == |old(loads)|
      ensures var w1 := SetLoad(old(View()), t, Done(true));
              View() == if old(loads[t]).phase.StoreWriting? then SetLock(w1, old(loads[t]).phase.st, None) else w1
    {
      var load := loads[t];
      loads := loads[t := load.(phase := Done(true))];
      if load.phase.StoreWriting? { SetHolder(objects[load.phase.st], None); }
    }

    /** The `_cleanup` done callback. */
    method OnLoadCallback(t: nat)
      requires Valid() && Enabled(View(), LoadCallback(t))
      modifies this, objects
      ensures Valid() && objects == old(objects)
      ensures View() == Apply(old(View()), LoadCallback(t))
    {
      ghost var w := View();
      var key := loads[t].key;
      loads := loads[t := loads[t].(phase := Done(false))];
      if key in states && states[key].task == Some(t) {
        var state := states[key];
        state.task := None;
        assert View().objects == w.objects[state.id := w.objects[state.id].(task := None)];
        MaybeCleanupSwrState(key, state);
      }
    }

    // -------------------------------------------------------------- segments of _write_swr_value

    method OnMutateStarted(key: Key, value: Json)
      requires Valid()
      modifies this, objects
      ensures Valid() && fresh(set o | o in objects && o !in old(objects)) && old(objects) <= objects
      ensures View() == Apply(old(View()), MutateStarted(key, value))
    {
      var state := AcquireSwrState(key);
      ghost var w1 := View();
      writes := writes + [Write(key, state.id, value, Waiting)];
      assert View() == w1.(writes := w1.writes + [Write(key, state.id, value, Waiting)]);
    }

    method OnMutateLocked(m: nat)
      requires Valid() && Enabled(View(), MutateLocked(m))
      modifies this, objects
      ensures Valid() && objects == old(objects)
      ensures View() == Apply(old(View()), MutateLocked(m))
    {
      ghost var w := View();
      var state := objects[writes[m].st];
      state.lockedBy := Some(Mutation(m));
      state.writeEpoch := state.writeEpoch + 1;
      writes := writes[m := writes[m].(phase := Writing(false))];
      assert View().objects == Apply(w, MutateLocked(m)).objects;
    }

    method OnMutateLanded(m: nat)
      requires Valid() && Enabled(View(), MutateLanded(m))
      modifies this
      ensures Valid() && objects == old(objects)
      ensures View() == Apply(old(View()), MutateLanded(m))
    {
      cache := cache[writes[m].key := Entry(writes[m].value, Mutation(m))];
      writes := writes[m := writes[m].(phase := Writing(true))];
    }

    method OnMutateReturned(m: nat)
      requires Valid() && Enabled(View(), MutateReturned(m))
      modifies this, objects
      ensures Valid() && objects == old(objects)
      ensures View() == Apply(old(View()), MutateReturned(m))
    {
      var state := objects[writes[m].st];
      FinishWrite(m, state);
      ReleaseSwrState(writes[m].key, state);
    }

    method OnMutateAborted(m: nat)
      requires Valid() && Enabled(View(), MutateAborted(m))
      modifies this, objects
      ensures Valid() && objects == old(objects)
      ensures View() == Apply(old(View()), MutateAborted(m))
    {
      var state := objects[writes[m].st];
      FinishWrite(m, state);
      ReleaseSwrState(writes[m].key, state);
    }

    /** Leaving `async with state.write_lock` from any phase. */
    method FinishWrite(m: nat, state: StateObject)
      requires Valid() && m < |writes| && writes[m].st < |objects| && state == objects[writes[m].st]
      modifies this`writes, state`lockedBy
      ensures Valid() && |writes| == |old(writes)|
      ensures var w1 := SetWrite(old(View()), m, Finished);
              View() == if old(writes[m]).phase.Writing? then SetLock(w1, state.id, None) else w1
    {
      var write := writes[m];
      writes := writes[m := write.(phase := Finished)];
      if write.phase.Writing? { SetHolder(state, None); }
    }
  }
}
