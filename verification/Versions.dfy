/** Channel version strings (src/langgraph_api/_checkpointer/_adapter.py, `get_next_version`). */
module Versions {
  import opened Wrappers
  import opened Strings

  /** The current version: none, a plain counter, or a printed version. */
  datatype Current = NoVersion | Counter(n: nat) | Printed(s: string)

  const WIDTH := 32

  /** `s.split(".")[0]` */
  function BeforeDot(s: string): string
  {
    if s == "" || s[0] == '.' then "" else [s[0]] + BeforeDot(s[1..])
  }

  /** The counter of a version; None is `int`'s ValueError. */
  function CounterOf(c: Current): Option<nat>
  {
    match c
    case NoVersion => Some(0)
    case Counter(n) => Some(n)
    case Printed(s) =>
      var head := BeforeDot(s);
      if head != "" && Numeral(head) then Some(Value(head)) else None
  }

  function Print(n: nat, random: string): string
  {
    Padded(n, WIDTH) + "." + random
  }

  /** `get_next_version`, with the random part drawn as `random`. */
  function NextVersion(c: Current, random: string): Option<string>
  {
    match CounterOf(c)
    case None => None
    case Some(n) => Some(Print(n + 1, random))
  }

  lemma {:induction false} SplitsAtDot(head: string, rest: string)
    requires '.' !in head
    ensures BeforeDot(head + "." + rest) == head
  {
    var s := head + "." + rest;
    if head == "" {
      assert s[0] == '.';
    } else {
      assert s[1..] == head[1..] + "." + rest;
      SplitsAtDot(head[1..], rest);
      assert head == [head[0]] + head[1..];
    }
  }

  lemma {:induction false} BeforeDotIs(s: string)
    ensures BeforeDot(s) <= s && '.' !in BeforeDot(s)
    ensures BeforeDot(s) == s || s[|BeforeDot(s)|] == '.'
  {
    if s != "" && s[0] != '.' { BeforeDotIs(s[1..]); }
  }

  /** The version starts with the digits, up to its end or its first dot. */
  predicate Leads(digits: string, s: string)
  {
    digits != "" && Numeral(digits) && digits <= s && (digits == s || s[|digits|] == '.')
  }

  lemma LeadIsBeforeDot(digits: string, s: string)
    requires Leads(digits, s)
    ensures digits == BeforeDot(s)
  {
    assert forall i | 0 <= i < |digits| :: digits[i] != '.';
    if digits == s {
      BeforeDotIs(s);
    } else {
      assert s == digits + "." + s[|digits| + 1..];
      SplitsAtDot(digits, s[|digits| + 1..]);
    }
  }

  /** There is a next version exactly for none, a counter, and a version that starts with digits up to its end or first dot. */
  lemma NextVersionIff(c: Current, random: string)
    ensures NextVersion(c, random).Some? <==> (c.Printed? ==> exists k | 0 <= k <= |c.s| :: Leads(c.s[..k], c.s))
  {
    if c.Printed? {
      BeforeDotIs(c.s);
      var head := BeforeDot(c.s);
      assert c.s[..|head|] == head;
      if exists k | 0 <= k <= |c.s| :: Leads(c.s[..k], c.s) {
        var k :| 0 <= k <= |c.s| && Leads(c.s[..k], c.s);
        LeadIsBeforeDot(c.s[..k], c.s);
      }
      assert CounterOf(c).Some? ==> Leads(c.s[..|head|], c.s);
    }
  }

  /** A next version is the counter plus one in at least 32 digits, a dot, and the random part. */
  lemma NextVersionShape(c: Current, random: string, lead: string) returns (digits: string)
    requires NextVersion(c, random).Some? && (c.Printed? ==> Leads(lead, c.s))
    ensures NextVersion(c, random) == Some(digits + "." + random)
    ensures Numeral(digits) && |digits| >= 32
    ensures Value(digits) == match c { case NoVersion => 1 case Counter(n) => n + 1 case Printed(_) => Value(lead) + 1 }
  {
    if c.Printed? { LeadIsBeforeDot(lead, c.s); }
    digits := Padded(CounterOf(c).value + 1, WIDTH);
    ValueOfPadded(CounterOf(c).value + 1, WIDTH);
  }

  /** Reading a printed version gives back its counter. */
  lemma ParsesBack(n: nat, random: string)
    ensures CounterOf(Printed(Print(n, random))) == Some(n)
  {
    SplitsAtDot(Padded(n, WIDTH), random);
    ValueOfPadded(n, WIDTH);
  }

  /** Printed versions of one width sort like their counters, whatever the random parts. */
  lemma PrintedOrder(m: nat, n: nat, x: string, y: string)
    requires m < n && |Padded(m, WIDTH)| == |Padded(n, WIDTH)|
    ensures Less(Print(m, x), Print(n, y))
  {
    var a, b := Padded(m, WIDTH), Padded(n, WIDTH);
    ValueOfPadded(m, WIDTH);
    ValueOfPadded(n, WIDTH);
    NumeralOrder(a, b);
    LessIgnoresSuffix(a, b, "." + x, "." + y);
    assert Print(m, x) == a + ("." + x) && Print(n, y) == b + ("." + y);
  }

  /** Below 10^32 a later version is a greater string. */
  lemma LaterIsGreater(m: nat, n: nat, x: string, y: string)
    requires m < n < Pow10(WIDTH)
    ensures Less(Print(m, x), Print(n, y))
  {
    FitsWidth(m, WIDTH);
    FitsWidth(n, WIDTH);
    PrintedOrder(m, n, x, y);
  }

  /** `versions` are made by calling `get_next_version` over and over, starting with none. */
  ghost predicate Chain(versions: seq<string>, randoms: seq<string>)
  {
    && |randoms| == |versions|
    && forall i | 0 <= i < |versions| ::
         NextVersion(if i == 0 then NoVersion else Printed(versions[i - 1]), randoms[i]) == Some(versions[i])
  }

  lemma {:induction false} ChainCounts(versions: seq<string>, randoms: seq<string>, i: nat)
    requires Chain(versions, randoms) && i < |versions|
    ensures versions[i] == Print(i + 1, randoms[i])
  {
    assert NextVersion(if i == 0 then NoVersion else Printed(versions[i - 1]), randoms[i]) == Some(versions[i]);
    if i > 0 {
      ChainCounts(versions, randoms, i - 1);
      ParsesBack(i, randoms[i - 1]);
    }
  }

  /** Along any chain of fewer than 10^32 calls the strings strictly increase. */
  lemma ChainIncreases(versions: seq<string>, randoms: seq<string>, i: nat, j: nat)
    requires Chain(versions, randoms) && i < j < |versions| && |versions| < Pow10(WIDTH)
    ensures Less(versions[i], versions[j])
  {
    ChainCounts(versions, randoms, i);
    ChainCounts(versions, randoms, j);
    LaterIsGreater(i + 1, j + 1, randoms[i], randoms[j]);
  }

  /** The counter reaches a power of ten that is wider than the padding. */
  ghost predicate Overflows(n: nat)
  {
    exists k | WIDTH <= k :: n == Pow10(k)
  }

  lemma {:induction false} PowerWidth(k: nat)
    ensures Decimal(Pow10(k))[0] == '1' && |Decimal(Pow10(k))| == k + 1
    ensures Decimal(Pow10(k) - 1)[0] == (if k == 0 then '0' else '9')
    ensures |Decimal(Pow10(k) - 1)| == if k == 0 then 1 else k
  {
    if k > 0 {
      PowerWidth(k - 1);
      var p := Pow10(k - 1);
      assert 10 * p / 10 == p && (10 * p - 1) / 10 == p - 1;
    }
  }

  /** From any counter, the next version is a greater string except exactly at those powers of ten. */
  lemma NextIsGreaterIff(n: nat, x: string, y: string)
    ensures Less(Print(n, x), Print(n + 1, y)) <==> !Overflows(n + 1)
  {
    if Overflows(n + 1) {
      var k :| WIDTH <= k && n + 1 == Pow10(k);
      PowerWidth(k);
      assert Print(n, x)[0] == '9' && Print(n + 1, y)[0] == '1';
    } else {
      SameWidth(n);
      PrintedOrder(n, n + 1, x, y);
    }
  }

  /** From 10^32 - 1 to 10^32 the version string gets smaller, whatever the random parts. */
  lemma FirstOverflow(x: string, y: string)
    ensures Less(Print(Pow10(WIDTH), y), Print(Pow10(WIDTH) - 1, x))
  {
    NextIsGreaterIff(Pow10(WIDTH) - 1, x, y);
    LessTrichotomy(Print(Pow10(WIDTH), y), Print(Pow10(WIDTH) - 1, x));
    PowerWidth(WIDTH);
  }

  lemma SameWidth(n: nat)
    requires !Overflows(n + 1)
    ensures |Padded(n, WIDTH)| == |Padded(n + 1, WIDTH)|
  {
    var k := |Decimal(n)|;
    DecimalWidth(n);
    FitsWidth(n + 1, k);
    if k >= WIDTH {
      assert n + 1 != Pow10(k);
      NotNarrower(n);
    } else {
      Pow10Monotone(k, WIDTH - 1);
      FitsWidth(n + 1, WIDTH);
    }
  }

  lemma NotNarrower(n: nat)
    ensures |Decimal(n)| <= |Decimal(n + 1)|
  {
    var k := |Decimal(n)|;
    DecimalWidth(n);
    if k > 1 { FitsWidth(n + 1, k - 1); }
  }
}
