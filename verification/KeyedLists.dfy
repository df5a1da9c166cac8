/** Lists of records searched by key, as the in-memory store keeps them. */
module KeyedLists {
  import opened Wrappers

  predicate Unique<T>(xs: seq<T>, key: T -> nat)
  {
    forall i, j | 0 <= i < j < |xs| :: key(xs[i]) != key(xs[j])
  }

  function Keys<T>(xs: seq<T>, key: T -> nat): set<nat>
  {
    set i | 0 <= i < |xs| :: key(xs[i])
  }

  /** The first element with the key: `next((x for x in xs if ...), None)`. */
  function Find<T>(xs: seq<T>, key: T -> nat, k: nat): Option<T>
  {
    if xs == [] then None else if key(xs[0]) == k then Some(xs[0]) else Find(xs[1..], key, k)
  }

  /** Updating the first element with the key in place. */
  function Replace<T>(xs: seq<T>, key: T -> nat, k: nat, x: T): seq<T>
  {
    if xs == [] then [] else if key(xs[0]) == k then [x] + xs[1..] else [xs[0]] + Replace(xs[1..], key, k, x)
  }

  /** The elements with a property, in order. */
  function Where<T>(xs: seq<T>, p: T -> bool): seq<T>
  {
    if xs == [] then [] else (if p(xs[0]) then [xs[0]] else []) + Where(xs[1..], p)
  }

  lemma {:induction false} FindMember<T>(xs: seq<T>, key: T -> nat, k: nat)
    ensures Find(xs, key, k).Some? <==> k in Keys(xs, key)
    ensures Find(xs, key, k).Some? ==> Find(xs, key, k).value in xs && key(Find(xs, key, k).value) == k
  {
    if xs != [] {
      FindMember(xs[1..], key, k);
      assert forall i | 0 < i < |xs| :: xs[i] == xs[1..][i - 1];
      assert key(xs[0]) != k ==> (k in Keys(xs, key) <==> k in Keys(xs[1..], key));
    }
  }

  lemma KeyOfMember<T>(xs: seq<T>, key: T -> nat, x: T)
    requires x in xs
    ensures key(x) in Keys(xs, key)
  {
  }

  lemma UniqueMember<T>(xs: seq<T>, key: T -> nat, x: T, y: T)
    requires Unique(xs, key) && x in xs && y in xs && key(x) == key(y)
    ensures x == y
  {
  }

  lemma FindUnique<T>(xs: seq<T>, key: T -> nat, x: T)
    requires Unique(xs, key) && x in xs
    ensures Find(xs, key, key(x)) == Some(x)
  {
    FindMember(xs, key, key(x));
    KeyOfMember(xs, key, x);
    UniqueMember(xs, key, x, Find(xs, key, key(x)).value);
  }

  lemma UniqueTail<T>(xs: seq<T>, key: T -> nat)
    requires Unique(xs, key) && xs != []
    ensures Unique(xs[1..], key) && forall y | y in xs[1..] :: key(y) != key(xs[0])
  {
  }

  lemma {:induction false} ReplaceShape<T>(xs: seq<T>, key: T -> nat, k: nat, x: T)
    requires Unique(xs, key)
    ensures |Replace(xs, key, k, x)| == |xs|
    ensures forall i | 0 <= i < |xs| :: Replace(xs, key, k, x)[i] == if key(xs[i]) == k then x else xs[i]
  {
    if xs != [] {
      UniqueTail(xs, key);
      ReplaceShape(xs[1..], key, k, x);
    }
  }

  lemma ReplaceMembers<T>(xs: seq<T>, key: T -> nat, k: nat, x: T)
    requires Unique(xs, key) && key(x) == k
    ensures Unique(Replace(xs, key, k, x), key)
    ensures Keys(Replace(xs, key, k, x), key) == Keys(xs, key)
    ensures forall y :: y in Replace(xs, key, k, x) <==> (y in xs && key(y) != k) || (y == x && k in Keys(xs, key))
  {
    ReplaceShape(xs, key, k, x);
    var ys := Replace(xs, key, k, x);
    assert forall i | 0 <= i < |xs| :: key(ys[i]) == key(xs[i]);
    forall y ensures y in ys <==> (y in xs && key(y) != k) || (y == x && k in Keys(xs, key)) {
      if y in xs && key(y) != k {
        var i :| 0 <= i < |xs| && xs[i] == y;
        assert ys[i] == y;
      }
      if y == x && k in Keys(xs, key) {
        var i :| 0 <= i < |xs| && key(xs[i]) == k;
        assert ys[i] == x;
      }
    }
  }

  lemma {:induction false} WhereMember<T>(xs: seq<T>, p: T -> bool, y: T)
    ensures y in Where(xs, p) <==> y in xs && p(y)
  {
    if xs != [] {
      WhereMember(xs[1..], p, y);
      assert xs == [xs[0]] + xs[1..];
    }
  }

  lemma {:induction false} WhereUnique<T(!new)>(xs: seq<T>, p: T -> bool, key: T -> nat)
    requires Unique(xs, key)
    ensures Unique(Where(xs, p), key)
  {
    if xs != [] {
      UniqueTail(xs, key);
      WhereUnique(xs[1..], p, key);
      var rest := Where(xs[1..], p);
      forall y | y in rest ensures key(y) != key(xs[0]) { WhereMember(xs[1..], p, y); }
    }
  }

  lemma WhereMembers<T(!new)>(xs: seq<T>, p: T -> bool, key: T -> nat)
    requires Unique(xs, key)
    ensures Unique(Where(xs, p), key)
    ensures forall y :: y in Where(xs, p) <==> y in xs && p(y)
  {
    WhereUnique(xs, p, key);
    forall y ensures y in Where(xs, p) <==> y in xs && p(y) { WhereMember(xs, p, y); }
  }

  lemma AppendMembers<T>(xs: seq<T>, key: T -> nat, x: T)
    requires Unique(xs, key) && key(x) !in Keys(xs, key)
    ensures Unique(xs + [x], key)
    ensures Keys(xs + [x], key) == Keys(xs, key) + {key(x)}
    ensures forall y :: y in xs + [x] <==> y in xs || y == x
  {
    assert forall i | 0 <= i < |xs| :: key(xs[i]) in Keys(xs, key);
    assert (xs + [x])[|xs|] == x;
    forall k | k in Keys(xs, key) ensures k in Keys(xs + [x], key) {
      var i :| 0 <= i < |xs| && key(xs[i]) == k;
      assert (xs + [x])[i] == xs[i];
    }
  }

  lemma {:induction false} WhereAppend<T>(xs: seq<T>, ys: seq<T>, p: T -> bool)
    ensures Where(xs + ys, p) == Where(xs, p) + Where(ys, p)
  {
    if xs == [] {
      assert xs + ys == ys;
    } else {
      var head := if p(xs[0]) then [xs[0]] else [];
      assert (xs + ys)[1..] == xs[1..] + ys;
      assert (xs + ys)[0] == xs[0];
      WhereAppend(xs[1..], ys, p);
      assert Where(xs + ys, p) == head + Where(xs[1..] + ys, p);
    }
  }

  lemma {:induction false} WhereWhere<T>(xs: seq<T>, p: T -> bool, q: T -> bool)
    requires forall x | x in xs && q(x) :: p(x)
    ensures Where(Where(xs, p), q) == Where(xs, q)
  {
    if xs != [] {
      assert xs[0] in xs;
      WhereWhere(xs[1..], p, q);
      WhereAppend(if p(xs[0]) then [xs[0]] else [], Where(xs[1..], p), q);
    }
  }

  lemma {:induction false} WhereNone<T>(xs: seq<T>, p: T -> bool)
    requires forall x | x in xs :: !p(x)
    ensures Where(xs, p) == []
  {
    if xs != [] {
      assert xs[0] in xs;
      WhereNone(xs[1..], p);
    }
  }

  lemma {:induction false} WhereAll<T>(xs: seq<T>, p: T -> bool, b: bool)
    requires forall x | x in xs :: p(x) == b
    ensures Where(xs, p) == if b then xs else []
  {
    if xs != [] {
      assert xs[0] in xs;
      WhereAll(xs[1..], p, b);
      assert xs == [xs[0]] + xs[1..];
    }
  }

  /** Deleting the one element without the property: `del xs[i]`. */
  lemma {:induction false} RemoveAt<T>(xs: seq<T>, i: nat, p: T -> bool)
    requires i < |xs| && forall j | 0 <= j < |xs| :: p(xs[j]) <==> j != i
    ensures Where(xs, p) == xs[..i] + xs[i + 1..]
  {
    var rest := xs[1..];
    assert forall j | 0 <= j < |rest| :: rest[j] == xs[j + 1];
    if i == 0 {
      WhereAll(rest, p, true);
    } else {
      RemoveAt(rest, i - 1, p);
      assert rest[..i - 1] + rest[i..] == (xs[..i] + xs[i + 1..])[1..];
    }
  }

  /** The first element with a key that also has a property. */
  lemma {:induction false} FindWhere<T>(xs: seq<T>, p: T -> bool, key: T -> nat, k: nat, i: nat)
    requires i < |xs| && p(xs[i]) && key(xs[i]) == k
    requires forall j | 0 <= j < i :: !(p(xs[j]) && key(xs[j]) == k)
    ensures Find(Where(xs, p), key, k) == Some(xs[i])
  {
    if i > 0 {
      FindWhere(xs[1..], p, key, k, i - 1);
      var rest := Where(xs[1..], p);
      if p(xs[0]) { assert ([xs[0]] + rest)[1..] == rest; }
      else { assert [] + rest == rest; }
    }
  }

  lemma {:induction false} FindNone<T>(xs: seq<T>, p: T -> bool, key: T -> nat, k: nat)
    requires forall j | 0 <= j < |xs| :: !(p(xs[j]) && key(xs[j]) == k)
    ensures Find(Where(xs, p), key, k) == None
  {
    if xs != [] {
      FindNone(xs[1..], p, key, k);
      var rest := Where(xs[1..], p);
      if p(xs[0]) { assert ([xs[0]] + rest)[1..] == rest; }
      else { assert [] + rest == rest; }
    }
  }
}
