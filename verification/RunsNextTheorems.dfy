/**
  What one call of `Runs.next` starts: at most `limit` runs, at most one per thread, each
  the oldest due pending run of a thread that has none running.
 */
module RunsNextTheorems {
  import opened KeyedLists
  import opened RunStore
  import opened RunStoreInvariant

  // ---------------------------------------------------------------- an independent description

  /** Which candidates start, judged on the store before the call: the first of each free thread. */
  function Pick(s: Store, candidates: seq<Run>, taken: set<Id>): seq<Run>
    decreases |candidates|
  {
    if candidates == [] then []
    else
      var r := candidates[0];
      if r.thread in Threads(s) && !HasRunning(s.runs, r.thread) && r.thread !in taken
      then [r] + Pick(s, candidates[1..], taken + {r.thread})
      else Pick(s, candidates[1..], taken)
  }

  function Handed(s: Store, picked: seq<Run>): seq<(Run, nat)>
  {
    if picked == [] then []
    else [(picked[0].(status := Running), Attempt(s, picked[0].id))] + Handed(s, picked[1..])
  }

  /** `s` is `s0` after runs on the threads `taken`, none of them among `todo`, were started. */
  ghost predicate Progress(s0: Store, s: Store, taken: set<Id>, todo: seq<Run>)
  {
    && StoreInv(s)
    && s.threads == s0.threads
    && Unique(todo, RunId)
    && (forall r | r in todo :: r in s.runs && r.status == Pending)
    && (forall t :: HasRunning(s.runs, t) <==> HasRunning(s0.runs, t) || t in taken)
    && (forall r | r in todo :: Attempt(s, r.id) == Attempt(s0, r.id))
  }

  lemma CanStartIff(s0: Store, s: Store, taken: set<Id>, todo: seq<Run>)
    requires Progress(s0, s, taken, todo) && todo != []
    ensures CanStart(s, todo[0]) <==>
            todo[0].thread in Threads(s0) && !HasRunning(s0.runs, todo[0].thread) && todo[0].thread !in taken
  {
    FindUnique(s.runs, RunId, todo[0]);
    FindMember(s.threads, ThreadId, todo[0].thread);
  }

  lemma StartProgress(s0: Store, s: Store, taken: set<Id>, todo: seq<Run>)
    requires Progress(s0, s, taken, todo) && todo != [] && CanStart(s, todo[0])
    ensures Progress(s0, Start(s, todo[0]), taken + {todo[0].thread}, todo[1..])
  {
    var r := todo[0];
    var s' := Start(s, r);
    StartKeeps(s, r);
    UniqueTail(todo, RunId);
    var r' := r.(status := Running);
    ReplaceMembers(s.runs, RunId, r.id, r');
    KeyOfMember(s.runs, RunId, r);
    forall t ensures HasRunning(s'.runs, t) <==> HasRunning(s0.runs, t) || t in taken + {r.thread} {
      assert r' in s'.runs;
      if HasRunning(s.runs, t) {
        var q :| q in s.runs && q.thread == t && q.status == Running;
        if q.id == r.id { UniqueMember(s.runs, RunId, q, r); }
        assert q in s'.runs;
      }
    }
    forall q | q in todo[1..] ensures q in s'.runs && q.status == Pending && Attempt(s', q.id) == Attempt(s0, q.id) {
      assert q in todo && RunId(q) != RunId(r);
    }
  }

  /** The loop that updates the store as it goes hands out exactly the picked runs. */
  lemma {:induction false} LoopPicks(s0: Store, s: Store, taken: set<Id>, todo: seq<Run>)
    requires Progress(s0, s, taken, todo)
    ensures StartAll(s, todo).1 == Handed(s0, Pick(s0, todo, taken))
    decreases |todo|
  {
    if todo != [] {
      CanStartIff(s0, s, taken, todo);
      if CanStart(s, todo[0]) {
        StartProgress(s0, s, taken, todo);
        LoopPicks(s0, Start(s, todo[0]), taken + {todo[0].thread}, todo[1..]);
      } else {
        UniqueTail(todo, RunId);
        assert Progress(s0, s, taken, todo[1..]);
        LoopPicks(s0, s, taken, todo[1..]);
      }
    }
  }

  // ---------------------------------------------------------------- candidates

  lemma AgeIsPreorder()
    ensures StableSort.TotalPreorder(OlderOrSame)
  {
  }

  lemma CandidatesAre(s: Store, now: int)
    requires StoreInv(s)
    ensures var c := Candidates(s, now);
            && Unique(c, RunId) && StableSort.Sorted(c, OlderOrSame)
            && (forall r :: r in c <==> r in s.runs && r.status == Pending && r.createdAt < now)
  {
    var due := Where(s.runs, DueAt(now));
    WhereMembers(s.runs, DueAt(now), RunId);
    AgeIsPreorder();
    StableSort.SortSorts(due, OlderOrSame);
    var c := Candidates(s, now);
    forall r ensures r in c <==> r in due { assert r in multiset(c) <==> r in multiset(due); }
    UniqueOfMultiset(due, c);
  }

  lemma {:induction false} CountAtMostOnce(xs: seq<Run>, x: Run)
    requires Unique(xs, RunId)
    ensures multiset(xs)[x] <= 1
  {
    if xs != [] {
      UniqueTail(xs, RunId);
      CountAtMostOnce(xs[1..], x);
      assert xs == [xs[0]] + xs[1..];
      if x == xs[0] { assert x !in xs[1..]; }
    }
  }

  lemma UniqueOfMultiset(xs: seq<Run>, ys: seq<Run>)
    requires Unique(xs, RunId) && multiset(xs) == multiset(ys)
    ensures Unique(ys, RunId)
  {
    forall i, j | 0 <= i < j < |ys| ensures ys[i].id != ys[j].id {
      assert ys[i] in multiset(ys) && ys[j] in multiset(ys);
      assert ys[i] in xs && ys[j] in xs;
      if ys[i].id == ys[j].id {
        UniqueMember(xs, RunId, ys[i], ys[j]);
        TwiceCounts(ys, i, j);
        CountAtMostOnce(xs, ys[i]);
      }
    }
  }

  lemma TwiceCounts(ys: seq<Run>, i: nat, j: nat)
    requires i < j < |ys| && ys[i] == ys[j]
    ensures multiset(ys)[ys[i]] >= 2
  {
    assert ys == ys[..i] + [ys[i]] + ys[i + 1..j] + [ys[j]] + ys[j + 1..];
  }

  // ---------------------------------------------------------------- what is picked

  /** A picked run is the first of its thread among the candidates. */
  lemma {:induction false} PickIsFirst(s: Store, candidates: seq<Run>, taken: set<Id>, k: nat) returns (i: nat)
    requires k < |Pick(s, candidates, taken)|
    ensures i < |candidates| && candidates[i] == Pick(s, candidates, taken)[k]
    ensures candidates[i].thread in Threads(s) && !HasRunning(s.runs, candidates[i].thread)
    ensures candidates[i].thread !in taken
    ensures forall j | 0 <= j < i :: candidates[j].thread != candidates[i].thread
    decreases |candidates|
  {
    var r := candidates[0];
    if r.thread in Threads(s) && !HasRunning(s.runs, r.thread) && r.thread !in taken {
      if k == 0 {
        i := 0;
      } else {
        var i' := PickIsFirst(s, candidates[1..], taken + {r.thread}, k - 1);
        i := i' + 1;
      }
    } else {
      var i' := PickIsFirst(s, candidates[1..], taken, k);
      i := i' + 1;
    }
  }

  lemma {:induction false} PickOnePerThread(s: Store, candidates: seq<Run>, taken: set<Id>, j: nat, k: nat)
    requires j < k < |Pick(s, candidates, taken)|
    ensures Pick(s, candidates, taken)[j].thread != Pick(s, candidates, taken)[k].thread
    decreases |candidates|
  {
    var r := candidates[0];
    if r.thread in Threads(s) && !HasRunning(s.runs, r.thread) && r.thread !in taken {
      if j == 0 {
        var i := PickIsFirst(s, candidates[1..], taken + {r.thread}, k - 1);
      } else {
        PickOnePerThread(s, candidates[1..], taken + {r.thread}, j - 1, k - 1);
      }
    } else {
      PickOnePerThread(s, candidates[1..], taken, j, k);
    }
  }

  /** Nothing that could start is passed over: a free thread's first candidate is picked. */
  lemma {:induction false} PickMisses(s: Store, candidates: seq<Run>, taken: set<Id>, i: nat)
    requires i < |candidates| && candidates[i].thread in Threads(s) && !HasRunning(s.runs, candidates[i].thread)
    requires candidates[i].thread !in taken
    requires forall j | 0 <= j < i :: candidates[j].thread != candidates[i].thread
    ensures candidates[i] in Pick(s, candidates, taken)
    decreases |candidates|
  {
    if i > 0 {
      var r := candidates[0];
      if r.thread in Threads(s) && !HasRunning(s.runs, r.thread) && r.thread !in taken {
        PickMisses(s, candidates[1..], taken + {r.thread}, i - 1);
      } else {
        PickMisses(s, candidates[1..], taken, i - 1);
      }
    }
  }

  lemma {:induction false} PickLength(s: Store, candidates: seq<Run>, taken: set<Id>)
    ensures |Pick(s, candidates, taken)| <= |candidates|
    decreases |candidates|
  {
    if candidates != [] {
      PickLength(s, candidates[1..], taken + {candidates[0].thread});
      PickLength(s, candidates[1..], taken);
    }
  }

  lemma {:induction false} HandedAt(s: Store, picked: seq<Run>)
    ensures |Handed(s, picked)| == |picked|
    ensures forall k | 0 <= k < |picked| ::
              Handed(s, picked)[k] == (picked[k].(status := Running), Attempt(s, picked[k].id))
  {
    if picked != [] {
      HandedAt(s, picked[1..]);
    }
  }

  // ---------------------------------------------------------------- Runs.next

  function Eligible(s: Store, limit: nat, now: int): seq<Run>
  {
    Take(Candidates(s, now), limit)
  }

  lemma NextPicks(s: Store, limit: nat, now: int)
    requires StoreInv(s)
    ensures RunsNext(s, limit, now).1 == Handed(s, Pick(s, Eligible(s, limit, now), {}))
    ensures Unique(Eligible(s, limit, now), RunId)
    ensures forall r | r in Eligible(s, limit, now) :: r in s.runs && r.status == Pending && r.createdAt < now
  {
    CandidatesAre(s, now);
    var todo := Eligible(s, limit, now);
    forall r | r in todo ensures r in Candidates(s, now) { }
    assert Progress(s, s, {}, todo);
    LoopPicks(s, s, {}, todo);
  }

  /** At most `limit` runs, of different threads. */
  lemma NextIsBounded(s: Store, limit: nat, now: int)
    requires StoreInv(s)
    ensures var out := RunsNext(s, limit, now).1;
            && |out| <= limit
            && (forall j, k | 0 <= j < k < |out| :: out[j].0.thread != out[k].0.thread)
  {
    NextPicks(s, limit, now);
    var todo := Eligible(s, limit, now);
    PickLength(s, todo, {});
    HandedAt(s, Pick(s, todo, {}));
    forall j, k | 0 <= j < k < |Pick(s, todo, {})|
      ensures Pick(s, todo, {})[j].thread != Pick(s, todo, {})[k].thread
    {
      PickOnePerThread(s, todo, {}, j, k);
    }
  }

  /**
    Each run handed out was pending and due, is the oldest such run of its thread, and
    its thread exists and had no running run; it comes with its next attempt number.
   */
  lemma NextStartsOldest(s: Store, limit: nat, now: int, k: nat) returns (r: Run)
    requires StoreInv(s) && k < |RunsNext(s, limit, now).1|
    ensures r in s.runs && r.status == Pending && r.createdAt < now
    ensures RunsNext(s, limit, now).1[k] == (r.(status := Running), Attempt(s, r.id))
    ensures r.thread in Threads(s) && !HasRunning(s.runs, r.thread)
    ensures forall q | q in s.runs && q.status == Pending && q.createdAt < now && q.thread == r.thread ::
              r.createdAt <= q.createdAt
  {
    NextPicks(s, limit, now);
    CandidatesAre(s, now);
    var todo := Eligible(s, limit, now);
    HandedAt(s, Pick(s, todo, {}));
    var i := PickIsFirst(s, todo, {}, k);
    r := todo[i];
    FirstIsOldest(Candidates(s, now), i, todo);
  }

  lemma FirstIsOldest(c: seq<Run>, i: nat, todo: seq<Run>)
    requires StableSort.Sorted(c, OlderOrSame) && todo <= c && i < |todo|
    requires forall j | 0 <= j < i :: todo[j].thread != todo[i].thread
    ensures forall q | q in c && q.thread == todo[i].thread :: todo[i].createdAt <= q.createdAt
  {
    assert forall j | 0 <= j <= i :: todo[j] == c[j];
    forall q | q in c && q.thread == todo[i].thread ensures todo[i].createdAt <= q.createdAt {
      var j :| 0 <= j < |c| && c[j] == q;
      if i < j { assert OlderOrSame(c[i], c[j]); }
    }
  }

  /** A due run at the head of the queue whose thread is free does start. */
  lemma NextStartsHead(s: Store, limit: nat, now: int, i: nat)
    requires StoreInv(s) && i < limit && i < |Candidates(s, now)|
    requires var r := Candidates(s, now)[i];
             && !HasRunning(s.runs, r.thread)
             && forall j | 0 <= j < i :: Candidates(s, now)[j].thread != r.thread
    ensures exists k :: 0 <= k < |RunsNext(s, limit, now).1|
                        && RunsNext(s, limit, now).1[k].0 == Candidates(s, now)[i].(status := Running)
  {
    NextPicks(s, limit, now);
    CandidatesAre(s, now);
    var todo := Eligible(s, limit, now);
    var r := Candidates(s, now)[i];
    assert todo[i] == r && r in s.runs;
    PickMisses(s, todo, {}, i);
    var picked := Pick(s, todo, {});
    HandedAt(s, picked);
    var k :| 0 <= k < |picked| && picked[k] == r;
    assert Handed(s, picked)[k].0 == r.(status := Running);
  }

  // ---------------------------------------------------------------- the store afterwards

  function HandedIds(out: seq<(Run, nat)>): set<Id>
  {
    set k | 0 <= k < |out| :: out[k].0.id
  }

  /** `s'` is `s` with exactly the runs of `out` running, each at its next attempt. */
  ghost predicate Started(s: Store, s': Store, out: seq<(Run, nat)>)
  {
    && s' == s.(runs := s'.runs, attempts := s'.attempts)
    && Keys(s'.runs, RunId) == Keys(s.runs, RunId)
    && (forall r :: r in s'.runs <==> (r in s.runs && r.id !in HandedIds(out)) || (exists k :: 0 <= k < |out| && out[k].0 == r))
    && (forall k | 0 <= k < |out| :: out[k].0.status == Running && out[k].1 == Attempt(s, out[k].0.id))
    && (forall k | 0 <= k < |out| :: out[k].0.(status := Pending) in s.runs)
    && (forall j, k | 0 <= j < k < |out| :: out[j].0.id != out[k].0.id)
    && (forall x :: Attempt(s', x) == Attempt(s, x) + (if x in HandedIds(out) then 1 else 0))
  }

  lemma StartOne(s: Store, r: Run)
    requires StoreInv(s) && CanStart(s, r) && r.status == Pending
    ensures Started(s, Start(s, r), [(r.(status := Running), Attempt(s, r.id))])
  {
    FindMember(s.runs, RunId, r.id);
    var r' := r.(status := Running);
    ReplaceMembers(s.runs, RunId, r.id, r');
    var out := [(r', Attempt(s, r.id))];
    assert out[0].0 == r';
    assert HandedIds(out) == {r.id};
  }

  lemma StartedThen(s: Store, s1: Store, s2: Store, a: seq<(Run, nat)>, b: seq<(Run, nat)>)
    requires Unique(s.runs, RunId)
    requires Started(s, s1, a) && Started(s1, s2, b)
    ensures Started(s, s2, a + b)
  {
    var out := a + b;
    assert forall k | 0 <= k < |a| :: out[k] == a[k];
    assert forall k | 0 <= k < |b| :: out[|a| + k] == b[k];
    StartedApart(s, s1, s2, a, b);
    assert HandedIds(out) == HandedIds(a) + HandedIds(b) by {
      forall x | x in HandedIds(a) + HandedIds(b) ensures x in HandedIds(out) {
        if x in HandedIds(a) { var k :| 0 <= k < |a| && a[k].0.id == x; assert out[k].0.id == x; }
        else { var k :| 0 <= k < |b| && b[k].0.id == x; assert out[|a| + k].0.id == x; }
      }
    }
    StartedRuns(s, s1, s2, a, b);
    forall k | 0 <= k < |out| ensures out[k].0.status == Running && out[k].1 == Attempt(s, out[k].0.id) && out[k].0.(status := Pending) in s.runs {
      if k >= |a| {
        assert out[k] == b[k - |a|];
        assert out[k].0.id in HandedIds(b);
        assert out[k].0.(status := Pending) in s1.runs;
      }
    }
    forall j, k | 0 <= j < k < |out| ensures out[j].0.id != out[k].0.id {
      if j < |a| <= k { assert out[j].0.id in HandedIds(a) && out[k].0.id in HandedIds(b); }
    }
  }

  /** A run that is running is not started again. */
  lemma StartedApart(s: Store, s1: Store, s2: Store, a: seq<(Run, nat)>, b: seq<(Run, nat)>)
    requires Started(s, s1, a) && Started(s1, s2, b)
    ensures HandedIds(a) !! HandedIds(b)
  {
    forall k | 0 <= k < |b| ensures b[k].0.id !in HandedIds(a) {
      var r := b[k].0.(status := Pending);
      assert r in s1.runs;
    }
  }

  lemma StartedRuns(s: Store, s1: Store, s2: Store, a: seq<(Run, nat)>, b: seq<(Run, nat)>)
    requires Started(s, s1, a) && Started(s1, s2, b) && HandedIds(a) !! HandedIds(b)
    requires HandedIds(a + b) == HandedIds(a) + HandedIds(b)
    ensures forall r :: r in s2.runs <==>
              (r in s.runs && r.id !in HandedIds(a + b)) || (exists k :: 0 <= k < |a + b| && (a + b)[k].0 == r)
  {
    var out := a + b;
    forall r ensures r in s2.runs <==> (r in s.runs && r.id !in HandedIds(out)) || (exists k :: 0 <= k < |out| && out[k].0 == r) {
      if exists k :: 0 <= k < |out| && out[k].0 == r {
        var k :| 0 <= k < |out| && out[k].0 == r;
        if k < |a| { assert a[k].0 == r && r.id in HandedIds(a); } else { assert b[k - |a|].0 == r; }
      }
      if r in s2.runs {
        if k :| 0 <= k < |b| && b[k].0 == r {
          assert out[|a| + k].0 == r;
        } else if k :| 0 <= k < |a| && a[k].0 == r {
          assert out[k].0 == r;
        }
      }
    }
  }

  lemma {:induction false} StartAllStarted(s: Store, todo: seq<Run>)
    requires StoreInv(s) && forall r | r in todo :: r.status == Pending
    ensures Started(s, StartAll(s, todo).0, StartAll(s, todo).1)
    decreases |todo|
  {
    if todo != [] {
      var r := todo[0];
      if CanStart(s, r) {
        StartOne(s, r);
        StartKeeps(s, r);
        StartAllStarted(Start(s, r), todo[1..]);
        StartedThen(s, Start(s, r), StartAll(Start(s, r), todo[1..]).0,
                    [(r.(status := Running), Attempt(s, r.id))], StartAll(Start(s, r), todo[1..]).1);
      } else {
        StartAllStarted(s, todo[1..]);
      }
    } else {
      assert HandedIds([]) == {};
    }
  }

  /** `Runs.next` changes nothing but the status and the attempt count of the runs it hands out. */
  lemma NextStarts(s: Store, limit: nat, now: int)
    requires StoreInv(s)
    ensures StoreInv(RunsNext(s, limit, now).0)
    ensures Started(s, RunsNext(s, limit, now).0, RunsNext(s, limit, now).1)
  {
    CandidatesAre(s, now);
    var todo := Eligible(s, limit, now);
    forall r | r in todo ensures r in Candidates(s, now) { }
    StartAllKeeps(s, todo);
    StartAllStarted(s, todo);
  }
}
