/**
  The generic thread copy of src/langgraph_api/_checkpointer/_adapter.py, on a store that
  behaves as LangGraph's `BaseCheckpointSaver` documents: `aput` stores a checkpoint under
  its thread, namespace and id with the id in the config as its parent, `aput_writes`
  attaches a task's writes to it, and `alist` yields a thread's checkpoints in some order.
 */
module ThreadCopy {
  import opened Wrappers
  import opened KeyedLists
  import opened Strings
  import StableSort

  datatype Write = Write(task: string, channel: string, value: string)

  datatype Checkpoint = Checkpoint(
    ns: string, id: string, parent: Option<string>, payload: string,
    metadata: map<string, string>, writes: seq<Write>)

  /** A stored checkpoint. */
  datatype Row = Row(thread: string, cp: Checkpoint)

  function InThread(thread: string): Row -> bool { (r: Row) => r.thread == thread }
  function NotInThread(thread: string): Row -> bool { (r: Row) => r.thread != thread }
  function OfTask(task: string): Write -> bool { (w: Write) => w.task == task }

  function Checkpoints(rows: seq<Row>): seq<Checkpoint>
  {
    seq(|rows|, k requires 0 <= k < |rows| => rows[k].cp)
  }

  /** `alist` of a thread, all namespaces. */
  function Listed(rows: seq<Row>, thread: string): seq<Checkpoint>
  {
    Checkpoints(Where(rows, InThread(thread)))
  }

  predicate Clash(r: Row, thread: string, cp: Checkpoint)
  {
    r.thread == thread && r.cp.ns == cp.ns && r.cp.id == cp.id
  }

  predicate Contains(rows: seq<Row>, thread: string, cp: Checkpoint)
  {
    exists r | r in rows :: Clash(r, thread, cp)
  }

  /** `dict(cp.metadata)` with the thread id rewritten. */
  function Rewritten(metadata: map<string, string>, target: string): map<string, string>
  {
    if "thread_id" in metadata then metadata["thread_id" := target] else metadata
  }

  // ---------------------------------------------------------------- writes grouped by task

  datatype Group = Group(task: string, writes: seq<(string, string)>)

  /** `writes_by_task.setdefault(task, []).append((channel, value))`, on a dict that keeps insertion order. */
  function AddTo(groups: seq<Group>, w: Write): seq<Group>
  {
    if groups == [] then [Group(w.task, [(w.channel, w.value)])]
    else if groups[0].task == w.task then
      [Group(w.task, groups[0].writes + [(w.channel, w.value)])] + groups[1..]
    else [groups[0]] + AddTo(groups[1..], w)
  }

  function Grouped(writes: seq<Write>): seq<Group>
  {
    if writes == [] then [] else AddTo(Grouped(writes[..|writes| - 1]), writes[|writes| - 1])
  }

  /** The writes that one `aput_writes` call stores. */
  function Ungroup(g: Group): seq<Write>
  {
    seq(|g.writes|, k requires 0 <= k < |g.writes| => Write(g.task, g.writes[k].0, g.writes[k].1))
  }

  function Flatten(groups: seq<Group>): seq<Write>
  {
    if groups == [] then [] else Ungroup(groups[0]) + Flatten(groups[1..])
  }

  lemma {:induction false} UngroupTask(g: Group, task: string)
    ensures Where(Ungroup(g), OfTask(task)) == if g.task == task then Ungroup(g) else []
  {
    WhereAll(Ungroup(g), OfTask(task), g.task == task);
  }

  function WritesOf(groups: seq<Group>, task: string): seq<Write>
  {
    Where(Flatten(groups), OfTask(task))
  }

  lemma HeadWrites(g: Group, rest: seq<Group>, task: string)
    ensures WritesOf([g] + rest, task) == (if g.task == task then Ungroup(g) else []) + WritesOf(rest, task)
  {
    assert ([g] + rest)[1..] == rest;
    WhereAppend(Ungroup(g), Flatten(rest), OfTask(task));
    UngroupTask(g, task);
  }

  lemma GrowHead(g: Group, rest: seq<Group>, w: Write, task: string)
    requires g.task == w.task && forall h | h in rest :: h.task != w.task
    ensures WritesOf([Group(w.task, g.writes + [(w.channel, w.value)])] + rest, task) ==
            WritesOf([g] + rest, task) + (if w.task == task then [w] else [])
  {
    var g' := Group(w.task, g.writes + [(w.channel, w.value)]);
    HeadWrites(g, rest, task);
    HeadWrites(g', rest, task);
    if w.task == task {
      assert Ungroup(g') == Ungroup(g) + [w];
      OtherTasks(rest, task);
    }
  }

  /** Adding a write to its group appends it to the writes of its task and to no others. */
  lemma {:induction false} AddToTask(groups: seq<Group>, w: Write, task: string)
    requires DistinctTasks(groups)
    ensures WritesOf(AddTo(groups, w), task) == WritesOf(groups, task) + (if w.task == task then [w] else [])
  {
    var more := if w.task == task then [w] else [];
    if groups == [] {
      var g := Group(w.task, [(w.channel, w.value)]);
      HeadWrites(g, [], task);
      assert [g] + [] == [g] && Ungroup(g) == [w];
    } else {
      var g, rest := groups[0], groups[1..];
      assert groups == [g] + rest;
      if g.task == w.task {
        GrowHead(g, rest, w, task);
      } else {
        AddToTask(rest, w, task);
        HeadWrites(g, rest, task);
        HeadWrites(g, AddTo(rest, w), task);
        var here := if g.task == task then Ungroup(g) else [];
        assert here + (WritesOf(rest, task) + more) == (here + WritesOf(rest, task)) + more;
      }
    }
  }

  lemma {:induction false} AddToOnce(groups: seq<Group>, w: Write)
    ensures multiset(Flatten(AddTo(groups, w))) == multiset(Flatten(groups)) + multiset{w}
  {
    if groups == [] {
      var g := Group(w.task, [(w.channel, w.value)]);
      assert Ungroup(g) == [w] && Flatten([g]) == [w];
    } else {
      var g, rest := groups[0], groups[1..];
      if g.task == w.task {
        var g' := Group(w.task, g.writes + [(w.channel, w.value)]);
        assert Ungroup(g') == Ungroup(g) + [w];
        assert ([g'] + rest)[1..] == rest;
      } else {
        AddToOnce(rest, w);
        assert ([g] + AddTo(rest, w))[1..] == AddTo(rest, w);
      }
    }
  }

  ghost predicate DistinctTasks(groups: seq<Group>)
  {
    forall i, j | 0 <= i < j < |groups| :: groups[i].task != groups[j].task
  }

  lemma {:induction false} OtherTasks(groups: seq<Group>, task: string)
    requires forall g | g in groups :: g.task != task
    ensures WritesOf(groups, task) == []
  {
    if groups != [] {
      assert groups[0] in groups;
      OtherTasks(groups[1..], task);
      HeadWrites(groups[0], groups[1..], task);
      assert groups == [groups[0]] + groups[1..];
    }
  }

  lemma {:induction false} AddToTasks(groups: seq<Group>, w: Write)
    requires DistinctTasks(groups)
    ensures DistinctTasks(AddTo(groups, w))
    ensures forall g | g in AddTo(groups, w) :: g.task == w.task || exists h | h in groups :: h.task == g.task
  {
    if groups != [] && groups[0].task != w.task {
      AddToTasks(groups[1..], w);
    }
  }

  lemma {:induction false} GroupedTasks(writes: seq<Write>)
    ensures DistinctTasks(Grouped(writes))
  {
    if writes != [] {
      GroupedTasks(writes[..|writes| - 1]);
      AddToTasks(Grouped(writes[..|writes| - 1]), writes[|writes| - 1]);
    }
  }

  /** Grouping keeps every write once and every task's writes in order. */
  lemma {:induction false} GroupingKeepsTasks(writes: seq<Write>, task: string)
    ensures WritesOf(Grouped(writes), task) == Where(writes, OfTask(task))
    ensures multiset(Flatten(Grouped(writes))) == multiset(writes)
  {
    if writes != [] {
      var before, w := writes[..|writes| - 1], writes[|writes| - 1];
      GroupingKeepsTasks(before, task);
      GroupedTasks(before);
      AddToTask(Grouped(before), w, task);
      AddToOnce(Grouped(before), w);
      WhereAppend(before, [w], OfTask(task));
      assert writes == before + [w] && Where([w], OfTask(task)) == if w.task == task then [w] else [];
    }
  }

  // ---------------------------------------------------------------- the copy

  /** What the copy makes of one checkpoint. */
  function Copied(cp: Checkpoint, target: string): Checkpoint
  {
    cp.(metadata := Rewritten(cp.metadata, target), writes := Flatten(Grouped(cp.writes)))
  }

  predicate ById(a: Checkpoint, b: Checkpoint)
  {
    AtMost(a.id, b.id)
  }

  function CopyAll(cps: seq<Checkpoint>, target: string): seq<Row>
  {
    seq(|cps|, k requires 0 <= k < |cps| => Row(target, Copied(cps[k], target)))
  }

  function WithWrites(r: Row, writes: seq<Write>): Row
  {
    r.(cp := r.cp.(writes := r.cp.writes + writes))
  }

  class CheckpointSaver {
    var rows: seq<Row>

    /** `aput`: an existing checkpoint with the key is replaced. */
    method Put(thread: string, ns: string, parent: Option<string>, id: string, payload: string, metadata: map<string, string>)
      modifies this
      ensures var cp := Checkpoint(ns, id, parent, payload, metadata, []);
              if !Contains(old(rows), thread, cp) then rows == old(rows) + [Row(thread, cp)]
              else |rows| == |old(rows)| &&
                   forall i | 0 <= i < |rows| ::
                     rows[i] == if Clash(old(rows)[i], thread, cp) then Row(thread, cp.(writes := old(rows)[i].cp.writes))
                                else old(rows)[i]
    {
      var cp := Checkpoint(ns, id, parent, payload, metadata, []);
      var before := rows;
      if i :| 0 <= i < |before| && Clash(before[i], thread, cp) {
        assert before[i] in before;
        rows := seq(|before|, k requires 0 <= k < |before| =>
          if Clash(before[k], thread, cp) then Row(thread, cp.(writes := before[k].cp.writes)) else before[k]);
      } else {
        rows := rows + [Row(thread, cp)];
      }
    }

    /** `aput_writes`: the writes of a task join those of the checkpoint. */
    method PutWrites(thread: string, cp: Checkpoint, g: Group)
      modifies this
      ensures |rows| == |old(rows)|
      ensures forall i | 0 <= i < |rows| ::
                rows[i] == if Clash(old(rows)[i], thread, cp) then WithWrites(old(rows)[i], Ungroup(g)) else old(rows)[i]
    {
      var before := rows;
      rows := seq(|before|, k requires 0 <= k < |before| =>
        if Clash(before[k], thread, cp) then WithWrites(before[k], Ungroup(g)) else before[k]);
    }

    /** One turn of the loop of `acopy_thread`. */
    method CopyOne(cp: Checkpoint, target: string)
      requires !Contains(rows, target, cp)
      modifies this
      ensures rows == old(rows) + [Row(target, Copied(cp, target))]
    {
      ghost var before := rows;
      var metadata := cp.metadata;
      if "thread_id" in metadata { metadata := metadata["thread_id" := target]; }
      assert !Contains(rows, target, Checkpoint(cp.ns, cp.id, cp.parent, cp.payload, metadata, [])) by {
        forall r | r in rows ensures !Clash(r, target, Checkpoint(cp.ns, cp.id, cp.parent, cp.payload, metadata, [])) {
          assert !Clash(r, target, cp);
        }
      }
      Put(target, cp.ns, cp.parent, cp.id, cp.payload, metadata);
      var stored := Checkpoint(cp.ns, cp.id, cp.parent, cp.payload, metadata, []);
      var groups := GroupWrites(cp.writes);
      var i := 0;
      while i < |groups|
        invariant 0 <= i <= |groups|
        invariant rows == before + [Row(target, stored.(writes := Flatten(groups[..i])))]
      {
        FlattenAppend(groups[..i], groups[i]);
        assert groups[..i + 1] == groups[..i] + [groups[i]];
        assert forall k | 0 <= k < |before| :: before[k] in before && rows[k] == before[k];
        PutWrites(target, stored, groups[i]);
        i := i + 1;
      }
      assert groups[..i] == groups;
    }

    /** The fallback of `acopy_thread`, into a thread without checkpoints; `listed` is what `alist` yields. */
    method CopyThread(source: string, target: string, listed: seq<Checkpoint>)
      requires multiset(listed) == multiset(Listed(rows, source))
      requires DistinctKeys(listed)
      requires Where(rows, InThread(target)) == []
      modifies this
      ensures rows == old(rows) + CopyAll(StableSort.Sort(listed, ById), target)
    {
      var cps := StableSort.Sort(listed, ById);
      ghost var before, copies := rows, CopyAll(cps, target);
      SortKeepsKeys(listed);
      var i := 0;
      while i < |cps|
        invariant 0 <= i <= |cps|
        invariant rows == before + copies[..i]
      {
        NotCopiedYet(before, cps, target, i);
        CopyOne(cps[i], target);
        assert copies[..i + 1] == copies[..i] + [copies[i]];
        i := i + 1;
      }
      assert copies[..i] == copies;
    }
  }

  /** `writes_by_task`, in one pass over the pending writes. */
  method GroupWrites(writes: seq<Write>) returns (groups: seq<Group>)
    ensures groups == Grouped(writes)
  {
    groups := [];
    var i := 0;
    while i < |writes|
      invariant 0 <= i <= |writes|
      invariant groups == Grouped(writes[..i])
    {
      assert writes[..i + 1][..i] == writes[..i];
      groups := AddTo(groups, writes[i]);
      i := i + 1;
    }
    assert writes[..i] == writes;
  }

  lemma {:induction false} FlattenAppend(groups: seq<Group>, g: Group)
    ensures Flatten(groups + [g]) == Flatten(groups) + Ungroup(g)
  {
    if groups == [] {
      assert [] + [g] == [g];
    } else {
      assert (groups + [g])[1..] == groups[1..] + [g];
      FlattenAppend(groups[1..], g);
    }
  }

  // ---------------------------------------------------------------- keys stay distinct

  lemma IdOrderIsTotal()
    ensures StableSort.TotalPreorder(ById)
  {
    forall x: Checkpoint, y: Checkpoint ensures ById(x, y) || ById(y, x) { LessTrichotomy(x.id, y.id); }
    forall x: Checkpoint, y: Checkpoint, z: Checkpoint | ById(x, y) && ById(y, z) ensures ById(x, z) {
      AtMostTransitive(x.id, y.id, z.id);
    }
  }

  predicate SameKey(a: Checkpoint, b: Checkpoint)
  {
    a.ns == b.ns && a.id == b.id
  }

  ghost predicate DistinctKeys(cps: seq<Checkpoint>)
  {
    forall i, j | 0 <= i < j < |cps| :: !SameKey(cps[i], cps[j])
  }

  lemma {:induction false} OnceEach(cps: seq<Checkpoint>, x: Checkpoint)
    requires DistinctKeys(cps)
    ensures multiset(cps)[x] <= 1
  {
    if cps != [] {
      assert forall i | 0 <= i < |cps| - 1 :: cps[1..][i] == cps[i + 1];
      OnceEach(cps[1..], x);
      assert cps == [cps[0]] + cps[1..];
    }
  }

  lemma TwiceCounts(cps: seq<Checkpoint>, i: nat, j: nat)
    requires i < j < |cps| && cps[i] == cps[j]
    ensures multiset(cps)[cps[i]] >= 2
  {
    assert cps == cps[..i] + [cps[i]] + cps[i + 1..j] + [cps[j]] + cps[j + 1..];
  }

  lemma DistinctOfMultiset(xs: seq<Checkpoint>, ys: seq<Checkpoint>)
    requires DistinctKeys(xs) && multiset(xs) == multiset(ys)
    ensures DistinctKeys(ys)
  {
    forall i, j | 0 <= i < j < |ys| ensures !SameKey(ys[i], ys[j]) {
      assert ys[i] in multiset(ys) && ys[j] in multiset(ys);
      var a :| 0 <= a < |xs| && xs[a] == ys[i];
      var b :| 0 <= b < |xs| && xs[b] == ys[j];
      if ys[i] == ys[j] { TwiceCounts(ys, i, j); OnceEach(xs, ys[i]); }
    }
  }

  lemma SortKeepsKeys(listed: seq<Checkpoint>)
    requires DistinctKeys(listed)
    ensures DistinctKeys(StableSort.Sort(listed, ById))
  {
    IdOrderIsTotal();
    StableSort.SortSorts(listed, ById);
    DistinctOfMultiset(listed, StableSort.Sort(listed, ById));
  }

  lemma NotCopiedYet(before: seq<Row>, cps: seq<Checkpoint>, target: string, i: nat)
    requires Where(before, InThread(target)) == [] && DistinctKeys(cps) && i < |cps|
    ensures !Contains(before + CopyAll(cps, target)[..i], target, cps[i])
  {
    forall r | r in before + CopyAll(cps, target)[..i] ensures !Clash(r, target, cps[i]) {
      if r in before {
        WhereMember(before, InThread(target), r);
      } else {
        var j :| 0 <= j < i && CopyAll(cps, target)[j] == r;
        assert !SameKey(cps[j], cps[i]);
      }
    }
  }

  // ---------------------------------------------------------------- what the copy guarantees

  /** The rows after copying. */
  function AfterCopy(rows: seq<Row>, listed: seq<Checkpoint>, target: string): seq<Row>
  {
    rows + CopyAll(StableSort.Sort(listed, ById), target)
  }

  lemma {:induction false} CopyAllListed(cps: seq<Checkpoint>, target: string, thread: string)
    ensures Where(CopyAll(cps, target), InThread(thread)) == if thread == target then CopyAll(cps, target) else []
    ensures Where(CopyAll(cps, target), NotInThread(target)) == []
  {
    WhereAll(CopyAll(cps, target), InThread(thread), thread == target);
    WhereAll(CopyAll(cps, target), NotInThread(target), false);
  }

  /** No row of another thread changes; the source keeps its checkpoints. */
  lemma CopyLeavesOthers(rows: seq<Row>, listed: seq<Checkpoint>, target: string, other: string)
    requires other != target
    ensures Listed(AfterCopy(rows, listed, target), other) == Listed(rows, other)
    ensures Where(AfterCopy(rows, listed, target), NotInThread(target)) == Where(rows, NotInThread(target))
  {
    var copies := CopyAll(StableSort.Sort(listed, ById), target);
    WhereAppend(rows, copies, InThread(other));
    WhereAppend(rows, copies, NotInThread(target));
    CopyAllListed(StableSort.Sort(listed, ById), target, other);
  }

  /** The target holds exactly the copies, in id order. */
  lemma CopyIsComplete(rows: seq<Row>, listed: seq<Checkpoint>, target: string)
    requires Where(rows, InThread(target)) == []
    ensures var after := Listed(AfterCopy(rows, listed, target), target);
            && |after| == |listed|
            && (forall cp | cp in listed :: Copied(cp, target) in after)
            && after == Checkpoints(CopyAll(StableSort.Sort(listed, ById), target))
  {
    var cps := StableSort.Sort(listed, ById);
    WhereAppend(rows, CopyAll(cps, target), InThread(target));
    CopyAllListed(cps, target, target);
    IdOrderIsTotal();
    StableSort.SortSorts(listed, ById);
    assert |cps| == |listed| by { assert |multiset(cps)| == |multiset(listed)|; }
    var after := Listed(AfterCopy(rows, listed, target), target);
    forall cp | cp in listed ensures Copied(cp, target) in after {
      assert cp in multiset(cps);
      var k :| 0 <= k < |cps| && cps[k] == cp;
      assert after[k] == Copied(cp, target);
    }
  }

  /** A copy keeps namespace, id, parent and payload, all metadata but the thread id, and each task's writes in order. */
  lemma CopyIsFaithful(cp: Checkpoint, target: string, task: string, key: string)
    ensures var c := Copied(cp, target);
            && c.ns == cp.ns && c.id == cp.id && c.parent == cp.parent && c.payload == cp.payload
            && c.metadata.Keys == cp.metadata.Keys
            && (key in cp.metadata ==> c.metadata[key] == if key == "thread_id" then target else cp.metadata[key])
            && Where(c.writes, OfTask(task)) == Where(cp.writes, OfTask(task))
            && multiset(c.writes) == multiset(cp.writes)
  {
    GroupingKeepsTasks(cp.writes, task);
  }

  /** When parent ids sort before their children's, no child is stored before its parent. */
  lemma ParentsFirst(listed: seq<Checkpoint>, child: nat, parent: Checkpoint)
    requires var cps := StableSort.Sort(listed, ById);
             && child < |cps| && parent in listed
             && cps[child].parent == Some(parent.id) && parent.ns == cps[child].ns
             && Less(parent.id, cps[child].id)
    ensures exists k | 0 <= k < child :: StableSort.Sort(listed, ById)[k] == parent
  {
    var cps := StableSort.Sort(listed, ById);
    IdOrderIsTotal();
    StableSort.SortSorts(listed, ById);
    assert parent in multiset(cps);
    var k :| 0 <= k < |cps| && cps[k] == parent;
    LessTrichotomy(parent.id, cps[child].id);
    assert child < k ==> ById(cps[child], cps[k]);
  }
}
