/**
  Python's `sorted` and `list.sort`: a sorted arrangement that keeps the order of
  elements with equal keys.  `AnyStableSortIsSort` shows that `Sort` is the only one.
 */
module StableSort {
  import opened KeyedLists

  ghost predicate TotalPreorder<T(!new)>(le: (T, T) -> bool)
  {
    && (forall x, y :: le(x, y) || le(y, x))
    && (forall x, y, z :: le(x, y) && le(y, z) ==> le(x, z))
  }

  predicate Sorted<T>(xs: seq<T>, le: (T, T) -> bool)
  {
    forall i, j | 0 <= i < j < |xs| :: le(xs[i], xs[j])
  }

  function Insert<T>(x: T, xs: seq<T>, le: (T, T) -> bool): seq<T>
  {
    if xs == [] || le(x, xs[0]) then [x] + xs else [xs[0]] + Insert(x, xs[1..], le)
  }

  function Sort<T>(xs: seq<T>, le: (T, T) -> bool): seq<T>
  {
    if xs == [] then [] else Insert(xs[0], Sort(xs[1..], le), le)
  }

  predicate Same<T>(x: T, y: T, le: (T, T) -> bool)
  {
    le(x, y) && le(y, x)
  }

  /** The elements with the same key as `k`, in their order. */
  function Ties<T>(xs: seq<T>, k: T, le: (T, T) -> bool): seq<T>
  {
    if xs == [] then []
    else (if Same(xs[0], k, le) then [xs[0]] else []) + Ties(xs[1..], k, le)
  }

  lemma {:induction false} InsertKeeps<T(!new)>(x: T, xs: seq<T>, le: (T, T) -> bool)
    requires TotalPreorder(le) && Sorted(xs, le)
    ensures Sorted(Insert(x, xs, le), le)
    ensures multiset(Insert(x, xs, le)) == multiset{x} + multiset(xs)
  {
    if xs == [] || le(x, xs[0]) {
      forall i, j | 0 <= i < j < |[x] + xs| ensures le(([x] + xs)[i], ([x] + xs)[j]) {
        if i == 0 && j > 1 { assert le(x, xs[0]) && le(xs[0], xs[j - 1]); }
      }
    } else {
      var rest := Insert(x, xs[1..], le);
      InsertKeeps(x, xs[1..], le);
      assert xs == [xs[0]] + xs[1..];
      forall y | y in rest ensures le(xs[0], y) {
        assert y in multiset(rest);
        assert le(xs[0], x);
        if y != x { assert y in xs[1..]; }
      }
    }
  }

  lemma {:induction false} SortSorts<T(!new)>(xs: seq<T>, le: (T, T) -> bool)
    requires TotalPreorder(le)
    ensures Sorted(Sort(xs, le), le)
    ensures multiset(Sort(xs, le)) == multiset(xs)
  {
    if xs != [] {
      SortSorts(xs[1..], le);
      InsertKeeps(xs[0], Sort(xs[1..], le), le);
      assert xs == [xs[0]] + xs[1..];
    }
  }

  lemma TiesCons<T>(x: T, xs: seq<T>, k: T, le: (T, T) -> bool)
    ensures Ties([x] + xs, k, le) == (if Same(x, k, le) then [x] else []) + Ties(xs, k, le)
  {
    assert ([x] + xs)[1..] == xs;
  }

  /** Among ties of `k`, `x` may come first. */
  ghost predicate MayLead<T(!new)>(x: T, k: T, le: (T, T) -> bool)
  {
    Same(x, k, le) ==> forall y | Same(y, k, le) :: le(x, y)
  }

  lemma TiesMayLead<T(!new)>(x: T, k: T, le: (T, T) -> bool)
    requires TotalPreorder(le)
    ensures MayLead(x, k, le)
  {
    if Same(x, k, le) {
      forall y | Same(y, k, le) ensures le(x, y) {
        assert le(x, k) && le(k, y);
      }
    }
  }

  lemma {:induction false} InsertKeepsTies<T(!new)>(x: T, xs: seq<T>, k: T, le: (T, T) -> bool)
    requires MayLead(x, k, le)
    ensures Ties(Insert(x, xs, le), k, le) == (if Same(x, k, le) then [x] else []) + Ties(xs, k, le)
  {
    if xs == [] || le(x, xs[0]) {
      TiesCons(x, xs, k, le);
    } else {
      InsertKeepsTies(x, xs[1..], k, le);
      TiesCons(xs[0], Insert(x, xs[1..], le), k, le);
    }
  }

  /** Stability: elements with equal keys keep their order. */
  lemma {:induction false} SortIsStable<T(!new)>(xs: seq<T>, k: T, le: (T, T) -> bool)
    requires TotalPreorder(le)
    ensures Ties(Sort(xs, le), k, le) == Ties(xs, k, le)
  {
    if xs != [] {
      SortIsStable(xs[1..], k, le);
      TiesMayLead(xs[0], k, le);
      InsertKeepsTies(xs[0], Sort(xs[1..], le), k, le);
    }
  }

  lemma {:induction false} TiesMember<T>(xs: seq<T>, k: T, le: (T, T) -> bool, y: T)
    ensures y in Ties(xs, k, le) <==> y in xs && Same(y, k, le)
  {
    if xs != [] {
      TiesMember(xs[1..], k, le, y);
      assert xs == [xs[0]] + xs[1..];
    }
  }

  /** There is only one sorted, stable arrangement. */
  lemma {:induction false} UniqueStableArrangement<T(!new)>(xs: seq<T>, ys: seq<T>, le: (T, T) -> bool)
    requires TotalPreorder(le) && Sorted(xs, le) && Sorted(ys, le)
    requires forall k :: Ties(xs, k, le) == Ties(ys, k, le)
    ensures xs == ys
  {
    if xs == [] {
      if ys != [] { HeadIsShared(ys, xs, le); }
    } else {
      HeadIsShared(xs, ys, le);
      SameHead(xs, ys, le);
      forall k ensures Ties(xs[1..], k, le) == Ties(ys[1..], k, le) {
        assert Ties(xs, k, le) == Ties(ys, k, le);
        TailTies(xs, k, le);
        TailTies(ys, k, le);
      }
      UniqueStableArrangement(xs[1..], ys[1..], le);
    }
  }

  /** `ys` holds the elements of `xs`, sorted, and elements with equal keys in the same order. */
  ghost predicate StableArrangement<T(!new)>(ys: seq<T>, xs: seq<T>, le: (T, T) -> bool)
  {
    Sorted(ys, le) && forall k :: Ties(ys, k, le) == Ties(xs, k, le)
  }

  /** So `Sort` is what any stable sort returns, whatever its algorithm. */
  lemma AnyStableSortIsSort<T(!new)>(xs: seq<T>, ys: seq<T>, le: (T, T) -> bool)
    requires TotalPreorder(le)
    ensures StableArrangement(ys, xs, le) <==> ys == Sort(xs, le)
  {
    SortSorts(xs, le);
    var zs := Sort(xs, le);
    forall k ensures Ties(zs, k, le) == Ties(xs, k, le) { SortIsStable(xs, k, le); }
    assert StableArrangement(zs, xs, le);
    if StableArrangement(ys, xs, le) {
      forall k ensures Ties(ys, k, le) == Ties(zs, k, le) { assert Ties(ys, k, le) == Ties(xs, k, le); }
      UniqueStableArrangement(ys, zs, le);
    }
  }

  lemma TailTies<T>(xs: seq<T>, k: T, le: (T, T) -> bool)
    requires xs != []
    ensures Ties(xs[1..], k, le) == if Same(xs[0], k, le) then Ties(xs, k, le)[1..] else Ties(xs, k, le)
    ensures Same(xs[0], k, le) ==> Ties(xs, k, le) != [] && Ties(xs, k, le)[0] == xs[0]
  {
  }

  lemma HeadIsShared<T(!new)>(xs: seq<T>, ys: seq<T>, le: (T, T) -> bool)
    requires TotalPreorder(le) && xs != []
    requires forall k :: Ties(xs, k, le) == Ties(ys, k, le)
    ensures xs[0] in ys
  {
    assert Ties(xs, xs[0], le) == Ties(ys, xs[0], le);
    TiesMember(xs, xs[0], le, xs[0]);
    TiesMember(ys, xs[0], le, xs[0]);
  }

  lemma SameHead<T(!new)>(xs: seq<T>, ys: seq<T>, le: (T, T) -> bool)
    requires TotalPreorder(le) && Sorted(xs, le) && Sorted(ys, le) && xs != [] && ys != []
    requires forall k :: Ties(xs, k, le) == Ties(ys, k, le)
    ensures xs[0] == ys[0]
  {
    HeadIsShared(xs, ys, le);
    HeadIsShared(ys, xs, le);
    var i :| 0 <= i < |xs| && xs[i] == ys[0];
    var j :| 0 <= j < |ys| && ys[j] == xs[0];
    assert le(xs[0], ys[0]) && le(ys[0], xs[0]);
    assert Ties(xs, xs[0], le) == Ties(ys, xs[0], le);
    TailTies(xs, xs[0], le);
    TailTies(ys, xs[0], le);
  }

  lemma {:induction false} InsertKeepsRuns<T(!new)>(x: T, ys: seq<T>, le: (T, T) -> bool, p: T -> bool)
    requires p(x) ==> forall y | y in Where(ys, p) :: le(x, y)
    ensures Where(Insert(x, ys, le), p) == (if p(x) then [x] else []) + Where(ys, p)
  {
    if ys == [] || le(x, ys[0]) {
      assert ([x] + ys)[1..] == ys;
    } else {
      assert ys[0] in ys;
      WhereMember(ys, p, ys[0]);
      forall y | y in Where(ys[1..], p) ensures y in Where(ys, p) { }
      InsertKeepsRuns(x, ys[1..], le, p);
      assert ([ys[0]] + Insert(x, ys[1..], le))[1..] == Insert(x, ys[1..], le);
    }
  }

  /** A part of the list that is in order already keeps its order. */
  lemma {:induction false} SortKeepsRuns<T(!new)>(xs: seq<T>, le: (T, T) -> bool, p: T -> bool)
    requires Sorted(Where(xs, p), le)
    ensures Where(Sort(xs, le), p) == Where(xs, p)
  {
    if xs != [] {
      var rest := Where(xs[1..], p);
      var d := if p(xs[0]) then 1 else 0;
      assert forall i | 0 <= i < |rest| :: rest[i] == Where(xs, p)[i + d];
      SortKeepsRuns(xs[1..], le, p);
      if p(xs[0]) {
        forall y | y in rest ensures le(xs[0], y) {
          var i :| 0 <= i < |rest| && rest[i] == y;
          assert Where(xs, p)[0] == xs[0];
        }
      }
      InsertKeepsRuns(xs[0], Sort(xs[1..], le), le, p);
    }
  }
}
