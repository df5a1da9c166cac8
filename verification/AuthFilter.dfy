/**
  The filters that authorization handlers return (src/langgraph_runtime_inmem/ops.py):
  structural validation, and evaluation against metadata.
 */
module AuthFilter {
  import opened Wrappers

  datatype Json =
    | Null
    | Bool(b: bool)
    | Number(n: int)
    | Text(s: string)
    | List(items: seq<Json>)
    | Object(fields: map<string, Json>)

  type Metadata = map<string, Json>

  /** A value that is not a dict. */
  type PlainValue = v: Json | !v.Object? witness Null

  /** `{"$eq": v}`, `{"$contains": v}` or a plain value; a dict is always read as an operator. */
  datatype Condition = Eq(value: Json) | Contains(value: Json) | Direct(plain: PlainValue)

  /** The value of an `$or` or `$and` key. */
  datatype Groups = Absent | NotAList | Groups(filters: seq<Filter>)

  datatype Filter = Filter(or: Groups, and: Groups, conditions: seq<(string, Condition)>)

  /** `not filters` */
  predicate Empty(f: Filter)
  {
    f.or.Absent? && f.and.Absent? && f.conditions == []
  }

  function WithoutOr(f: Filter): Filter { f.(or := Absent) }
  function WithoutAnd(f: Filter): Filter { f.(and := Absent) }

  const MAX_NESTING := 2

  // ---------------------------------------------------------------- validation

  predicate ListOfTwo(g: Groups)
  {
    g.Groups? && |g.filters| >= 2
  }

  /** `_validate_filter_structure` raises nothing. */
  predicate Valid(f: Filter, level: nat)
    decreases 3 - level, 0
  {
    level <= MAX_NESTING &&
    (!Empty(f) ==>
       && (!f.or.Absent? ==>
             && ListOfTwo(f.or)
             && AllValid(f.or.filters, level + 1)
             && (!Empty(WithoutOr(f)) ==> Valid(WithoutOr(f), level + 1)))
       && (!f.and.Absent? ==>
             && ListOfTwo(f.and)
             && AllValid(f.and.filters, level + 1)
             && (!Empty(WithoutAnd(f)) ==> Valid(WithoutAnd(f), level + 1))))
  }

  predicate AllValid(fs: seq<Filter>, level: nat)
    decreases 3 - level, 1 + |fs|
  {
    fs == [] || (Valid(fs[0], level) && AllValid(fs[1..], level))
  }

  // ---------------------------------------------------------------- evaluation

  predicate Holds(m: Metadata, key: string, c: Condition)
  {
    match c
    case Eq(v) => key in m && m[key] == v
    case Direct(v) => key in m && m[key] == v
    case Contains(v) =>
      && key in m && m[key].List?
      && if v.List? then forall x | x in v.items :: x in m[key].items else v in m[key].items
  }

  function CheckConditions(m: Metadata, conditions: seq<(string, Condition)>): bool
  {
    conditions == [] || (Holds(m, conditions[0].0, conditions[0].1) && CheckConditions(m, conditions[1..]))
  }

  /** `_check_filter_match`; Err is the 500 for an invalid filter. */
  function Check(m: Metadata, f: Filter, level: nat): Result<bool, ()>
    decreases 3 - level, 0
  {
    if level > MAX_NESTING then Err(())
    else if Empty(f) then Ok(true)
    else if !f.or.Absent? then
      if !ListOfTwo(f.or) || !AllValid(f.or.filters, level + 1) then Err(())
      else
        match CheckAny(m, f.or.filters, level + 1)
        case Err(e) => Err(e)
        case Ok(false) => Ok(false)   // the other parts are not looked at
        case Ok(true) => if Empty(WithoutOr(f)) then Ok(true) else Check(m, WithoutOr(f), level + 1)
    else if !f.and.Absent? then
      if !ListOfTwo(f.and) || !AllValid(f.and.filters, level + 1) then Err(())
      else
        match CheckAll(m, f.and.filters, level + 1)
        case Err(e) => Err(e)
        case Ok(false) => Ok(false)
        case Ok(true) => if Empty(WithoutAnd(f)) then Ok(true) else Check(m, WithoutAnd(f), level + 1)
    else Ok(CheckConditions(m, f.conditions))
  }

  /** The loop over `$or` groups, stopping at the first match. */
  function CheckAny(m: Metadata, fs: seq<Filter>, level: nat): Result<bool, ()>
    decreases 3 - level, 1 + |fs|
  {
    if fs == [] then Ok(false)
    else
      match Check(m, fs[0], level)
      case Err(e) => Err(e)
      case Ok(true) => Ok(true)
      case Ok(false) => CheckAny(m, fs[1..], level)
  }

  /** The loop over `$and` groups, stopping at the first mismatch. */
  function CheckAll(m: Metadata, fs: seq<Filter>, level: nat): Result<bool, ()>
    decreases 3 - level, 1 + |fs|
  {
    if fs == [] then Ok(true)
    else
      match Check(m, fs[0], level)
      case Err(e) => Err(e)
      case Ok(false) => Ok(false)
      case Ok(true) => CheckAll(m, fs[1..], level)
  }

  // ---------------------------------------------------------------- the Boolean reading

  /**
    The value of each `$eq` and plain key is the given one; the value of each `$contains`
    key is a list holding the given value, or every element of a given list.
   */
  predicate Satisfied(m: Metadata, conditions: seq<(string, Condition)>)
  {
    && (forall c | c in conditions && c.1.Eq? :: c.0 in m && m[c.0] == c.1.value)
    && (forall c | c in conditions && c.1.Direct? :: c.0 in m && m[c.0] == c.1.plain)
    && (forall c | c in conditions && c.1.Contains? :: c.0 in m && m[c.0].List?)
    && (forall c | c in conditions && c.1.Contains? && !c.1.value.List? :: c.1.value in m[c.0].items)
    && (forall c, x | c in conditions && c.1.Contains? && c.1.value.List? && x in c.1.value.items :: x in m[c.0].items)
  }

  /** Some `$or` group, all `$and` groups, and all conditions; a malformed part never holds. */
  predicate Meaning(m: Metadata, f: Filter)
  {
    && (match f.or
        case Absent => true
        case NotAList => false
        case Groups(fs) => exists g | g in fs :: Meaning(m, g))
    && (match f.and
        case Absent => true
        case NotAList => false
        case Groups(fs) => forall g | g in fs :: Meaning(m, g))
    && Satisfied(m, f.conditions)
  }

  lemma {:induction false} ConditionsMean(m: Metadata, conditions: seq<(string, Condition)>)
    ensures CheckConditions(m, conditions) <==> Satisfied(m, conditions)
  {
    if conditions != [] {
      ConditionsMean(m, conditions[1..]);
      assert forall c :: c in conditions <==> c == conditions[0] || c in conditions[1..];
    }
  }

  /** Without operators evaluation answers whether all conditions are satisfied, however many there are. */
  lemma ConditionsAnswerIff(m: Metadata, cs: seq<(string, Condition)>, level: nat)
    requires level <= MAX_NESTING
    ensures var answer := Check(m, Filter(Absent, Absent, cs), level);
            && answer.Ok?
            && (answer.value <==>
                && (forall c | c in cs && c.1.Eq? :: c.0 in m && m[c.0] == c.1.value)
                && (forall c | c in cs && c.1.Direct? :: c.0 in m && m[c.0] == c.1.plain)
                && (forall c | c in cs && c.1.Contains? :: c.0 in m && m[c.0].List?)
                && (forall c | c in cs && c.1.Contains? && !c.1.value.List? :: c.1.value in m[c.0].items)
                && (forall c, x | c in cs && c.1.Contains? && c.1.value.List? && x in c.1.value.items :: x in m[c.0].items))
  {
    ConditionsMean(m, cs);
  }

  // ---------------------------------------------------------------- an answer is the right answer

  /** Whenever evaluation answers, valid filter or not, the answer is the Boolean reading. */
  lemma {:induction false} AnswerIsMeaning(m: Metadata, f: Filter, level: nat)
    requires Check(m, f, level).Ok?
    ensures Check(m, f, level).value == Meaning(m, f)
    decreases 3 - level, 0
  {
    ConditionsMean(m, f.conditions);
    if level <= MAX_NESTING && !Empty(f) {
      if !f.or.Absent? {
        AnyIsMeaning(m, f.or.filters, level + 1);
        if CheckAny(m, f.or.filters, level + 1) == Ok(true) && !Empty(WithoutOr(f)) {
          AnswerIsMeaning(m, WithoutOr(f), level + 1);
        }
      } else if !f.and.Absent? {
        AllIsMeaning(m, f.and.filters, level + 1);
        if CheckAll(m, f.and.filters, level + 1) == Ok(true) && !Empty(WithoutAnd(f)) {
          AnswerIsMeaning(m, WithoutAnd(f), level + 1);
        }
      }
    }
  }

  lemma {:induction false} AnyIsMeaning(m: Metadata, fs: seq<Filter>, level: nat)
    requires CheckAny(m, fs, level).Ok?
    ensures CheckAny(m, fs, level).value <==> exists g | g in fs :: Meaning(m, g)
    decreases 3 - level, 1 + |fs|
  {
    if fs != [] {
      assert forall g | g in fs :: g == fs[0] || g in fs[1..];
      AnswerIsMeaning(m, fs[0], level);
      if !Check(m, fs[0], level).value { AnyIsMeaning(m, fs[1..], level); } else { assert fs[0] in fs; }
    }
  }

  lemma {:induction false} AllIsMeaning(m: Metadata, fs: seq<Filter>, level: nat)
    requires CheckAll(m, fs, level).Ok?
    ensures CheckAll(m, fs, level).value <==> forall g | g in fs :: Meaning(m, g)
    decreases 3 - level, 1 + |fs|
  {
    if fs != [] {
      assert forall g | g in fs :: g == fs[0] || g in fs[1..];
      AnswerIsMeaning(m, fs[0], level);
      if Check(m, fs[0], level).value { AllIsMeaning(m, fs[1..], level); } else { assert fs[0] in fs; }
    }
  }

  // ---------------------------------------------------------------- a valid filter is answered

  lemma {:induction false} ValidIsAnswered(m: Metadata, f: Filter, level: nat)
    requires Valid(f, level)
    ensures Check(m, f, level).Ok?
    decreases 3 - level, 0
  {
    if !Empty(f) {
      if !f.or.Absent? {
        GroupsAreAnswered(m, f.or.filters, level + 1);
        if !Empty(WithoutOr(f)) { ValidIsAnswered(m, WithoutOr(f), level + 1); }
      } else if !f.and.Absent? {
        GroupsAreAnswered(m, f.and.filters, level + 1);
        if !Empty(WithoutAnd(f)) { ValidIsAnswered(m, WithoutAnd(f), level + 1); }
      }
    }
  }

  lemma {:induction false} GroupsAreAnswered(m: Metadata, fs: seq<Filter>, level: nat)
    requires AllValid(fs, level)
    ensures CheckAny(m, fs, level).Ok? && CheckAll(m, fs, level).Ok?
    decreases 3 - level, 1 + |fs|
  {
    if fs != [] {
      ValidIsAnswered(m, fs[0], level);
      GroupsAreAnswered(m, fs[1..], level);
    }
  }

  /** A filter that validation accepts at a level is evaluated there without error, to its Boolean reading. */
  lemma ValidFilterMeansWhatItSays(m: Metadata, f: Filter, level: nat)
    requires Valid(f, level)
    ensures Check(m, f, level) == Ok(Meaning(m, f))
  {
    ValidIsAnswered(m, f, level);
    AnswerIsMeaning(m, f, level);
  }

  // ---------------------------------------------------------------- how strict validation is

  /** Validation at a level implies validation at every lower one. */
  lemma {:induction false} ValidLower(f: Filter, level: nat)
    requires level > 0 && Valid(f, level)
    ensures Valid(f, level - 1)
    decreases 3 - level, 0
  {
    if !Empty(f) {
      if !f.or.Absent? {
        AllValidLower(f.or.filters, level + 1);
        if !Empty(WithoutOr(f)) { ValidLower(WithoutOr(f), level + 1); }
      }
      if !f.and.Absent? {
        AllValidLower(f.and.filters, level + 1);
        if !Empty(WithoutAnd(f)) { ValidLower(WithoutAnd(f), level + 1); }
      }
    }
  }

  lemma {:induction false} AllValidLower(fs: seq<Filter>, level: nat)
    requires level > 0 && AllValid(fs, level)
    ensures AllValid(fs, level - 1)
    decreases 3 - level, 1 + |fs|
  {
    if fs != [] {
      ValidLower(fs[0], level);
      AllValidLower(fs[1..], level);
    }
  }

  /**
    With both operators present, validation asks more of the groups than of either alone:
    each must be valid two levels down, because the other operator's rest contains it.
   */
  lemma BothOperators(f: Filter, level: nat)
    requires ListOfTwo(f.or) && ListOfTwo(f.and)
    ensures Valid(f, level) <==>
              && level + 2 <= MAX_NESTING
              && AllValid(f.or.filters, level + 2)
              && AllValid(f.and.filters, level + 2)
  {
    var noOr, noAnd := WithoutOr(f), WithoutAnd(f);
    if level + 2 <= MAX_NESTING {
      assert Valid(WithoutAnd(noOr), level + 2) && Valid(WithoutOr(noAnd), level + 2);
      if AllValid(f.or.filters, level + 2) { AllValidLower(f.or.filters, level + 2); }
      if AllValid(f.and.filters, level + 2) { AllValidLower(f.and.filters, level + 2); }
    } else if level + 1 <= MAX_NESTING {
      assert !AllValid(f.and.filters, level + 2) by { assert !Valid(f.and.filters[0], level + 2); }
    }
  }

  lemma {:induction false} AllValidIff(fs: seq<Filter>, level: nat)
    ensures AllValid(fs, level) <==> forall g | g in fs :: Valid(g, level)
    decreases |fs|
  {
    if fs != [] {
      AllValidIff(fs[1..], level);
      assert fs[0] in fs;
      assert forall g :: g in fs <==> g == fs[0] || g in fs[1..];
    }
  }

  /** `$or` or `$and` is well-formed: a list of at least two filters, each valid at the level. */
  predicate Groupable(g: Groups, level: nat)
  {
    g.Groups? && |g.filters| >= 2 && level <= 2 && forall f | f in g.filters :: Valid(f, level)
  }

  /**
    Exactly which filters validation accepts at a level: none below the second nesting, and
    otherwise those whose operators are well-formed one level down, or two if both are there.
   */
  lemma ValidIff(f: Filter, level: nat)
    ensures Valid(f, level) <==>
              && level <= 2
              && (f.or.Absent? && !f.and.Absent? ==> Groupable(f.and, level + 1))
              && (!f.or.Absent? && f.and.Absent? ==> Groupable(f.or, level + 1))
              && (!f.or.Absent? && !f.and.Absent? ==> Groupable(f.or, level + 2) && Groupable(f.and, level + 2))
  {
    if !f.or.Absent? { GroupableIff(f.or, level); }
    if !f.and.Absent? { GroupableIff(f.and, level); }
    if ListOfTwo(f.or) && ListOfTwo(f.and) { BothOperators(f, level); }
  }

  lemma GroupableIff(g: Groups, level: nat)
    ensures ListOfTwo(g) && AllValid(g.filters, level + 1) <==> Groupable(g, level + 1)
    ensures ListOfTwo(g) && AllValid(g.filters, level + 2) <==> Groupable(g, level + 2)
  {
    if g.Groups? && |g.filters| >= 2 {
      AllValidIff(g.filters, level + 1);
      AllValidIff(g.filters, level + 2);
      assert g.filters[0] in g.filters;
      assert Valid(g.filters[0], level + 1) ==> level + 1 <= MAX_NESTING;
      assert Valid(g.filters[0], level + 2) ==> level + 2 <= MAX_NESTING;
    }
  }

  function Plain(key: string, v: PlainValue): Filter
  {
    Filter(Absent, Absent, [(key, Direct(v))])
  }

  function AnyOf(a: Filter, b: Filter): Filter
  {
    Filter(Groups([a, b]), Absent, [])
  }

  lemma PlainValid(key: string, v: PlainValue, level: nat)
    ensures Valid(Plain(key, v), level) <==> level <= MAX_NESTING
  {
  }

  lemma PairValid(a: Filter, b: Filter, level: nat)
    ensures AllValid([a, b], level) <==> Valid(a, level) && Valid(b, level)
  {
    assert [a, b][1..] == [b] && [b][1..] == [];
    assert AllValid([b], level) <==> Valid(b, level) && AllValid([], level);
  }

  // ---------------------------------------------------------------- when evaluation refuses

  /** The `$and` part is malformed at a level. */
  predicate AndMalformed(f: Filter, level: nat)
  {
    !f.and.Absent? && (!ListOfTwo(f.and) || !AllValid(f.and.filters, level + 1))
  }

  /** Some `$or` group holds. */
  predicate OrHolds(m: Metadata, f: Filter)
  {
    f.or.Groups? && exists g | g in f.or.filters :: Meaning(m, g)
  }

  /** Two groups that are valid one level down leave room for that level. */
  lemma GroupsLeaveRoom(fs: seq<Filter>, level: nat)
    requires |fs| >= 1 && AllValid(fs, level)
    ensures level <= MAX_NESTING
  {
    assert Valid(fs[0], level);
  }

  /** Evaluation without `$or` refuses exactly a filter nested too deeply or with a malformed `$and`. */
  lemma AndRefusedIff(m: Metadata, f: Filter, level: nat)
    requires f.or.Absent?
    ensures Check(m, f, level).Err? <==> level > MAX_NESTING || AndMalformed(f, level)
  {
    if level <= MAX_NESTING && !f.and.Absent? && !AndMalformed(f, level) {
      GroupsLeaveRoom(f.and.filters, level + 1);
      GroupsAreAnswered(m, f.and.filters, level + 1);
    }
  }

  /**
    Evaluation refuses a filter exactly when it is nested too deeply, its `$or` is
    malformed, or its `$and` is malformed and looked at: the `$or`, if there is one, holds.
   */
  lemma RefusedIff(m: Metadata, f: Filter, level: nat)
    ensures Check(m, f, level).Err? <==>
              || level > MAX_NESTING
              || (if f.or.Absent? then AndMalformed(f, level)
                  else !ListOfTwo(f.or) || !AllValid(f.or.filters, level + 1)
                       || (OrHolds(m, f) && AndMalformed(f, level + 1)))
  {
    if f.or.Absent? {
      AndRefusedIff(m, f, level);
    } else if level <= MAX_NESTING && ListOfTwo(f.or) && AllValid(f.or.filters, level + 1) {
      GroupsLeaveRoom(f.or.filters, level + 1);
      GroupsAreAnswered(m, f.or.filters, level + 1);
      AnyIsMeaning(m, f.or.filters, level + 1);
      AndRefusedIff(m, WithoutOr(f), level + 1);
    }
  }

  /** With one operator at most, evaluation refuses exactly what validation refuses, on any metadata. */
  lemma OneOperatorRefusedIff(m: Metadata, f: Filter, level: nat)
    requires f.or.Absent? || f.and.Absent?
    ensures Check(m, f, level).Err? <==> !Valid(f, level)
  {
    RefusedIff(m, f, level);
    if level <= MAX_NESTING && ListOfTwo(f.or) && AllValid(f.or.filters, level + 1) {
      GroupsLeaveRoom(f.or.filters, level + 1);
    }
    if level <= MAX_NESTING && ListOfTwo(f.and) && AllValid(f.and.filters, level + 1) {
      GroupsLeaveRoom(f.and.filters, level + 1);
    }
  }

  /**
    Exactly which rejected filters evaluation answers: both operators are there, the `$or`
    is well-formed by itself, and either no group of it holds, so that the `$and` goes
    unseen, or the `$and` is well-formed too and only the groups of the `$or` reach one
    level deeper than validation allows them beside an `$and`.
   */
  lemma RejectedButAnsweredIff(m: Metadata, f: Filter, level: nat)
    ensures !Valid(f, level) && Check(m, f, level).Ok? <==>
              && level <= MAX_NESTING && !f.and.Absent?
              && ListOfTwo(f.or) && AllValid(f.or.filters, level + 1)
              && (if AndMalformed(f, level + 1) then !OrHolds(m, f) else !AllValid(f.or.filters, level + 2))
  {
    RefusedIff(m, f, level);
    if f.or.Absent? || f.and.Absent? {
      OneOperatorRefusedIff(m, f, level);
    } else if ListOfTwo(f.or) && ListOfTwo(f.and) {
      BothOperators(f, level);
      if AllValid(f.and.filters, level + 2) { GroupsLeaveRoom(f.and.filters, level + 2); }
    }
  }

  /** Nested `$or` beside an `$and`: rejected by validation, yet evaluated without error on any metadata. */
  lemma ValidationIsStricter(m: Metadata, v: PlainValue)
    ensures var p := Plain("k", v);
            var f := Filter(Groups([AnyOf(p, p), p]), Groups([p, p]), []);
            !Valid(f, 0) && Check(m, f, 0) == Ok(Meaning(m, f))
  {
    var p := Plain("k", v);
    var nested := AnyOf(p, p);
    var f := Filter(Groups([nested, p]), Groups([p, p]), []);
    PlainValid("k", v, 1);
    PlainValid("k", v, 2);
    PlainValid("k", v, 3);
    PairValid(p, p, 2);
    PairValid(p, p, 3);
    assert Valid(nested, 1) && !Valid(nested, 2);
    PairValid(nested, p, 1);
    PairValid(nested, p, 2);
    RejectedButAnsweredIff(m, f, 0);
    AnswerIsMeaning(m, f, 0);
  }

  /** A failing `$or` hides a malformed `$and`: which metadata does, for every such filter. */
  lemma FailedOrHidesTheRest(m: Metadata, f: Filter, level: nat)
    requires level <= MAX_NESTING && ListOfTwo(f.or) && AllValid(f.or.filters, level + 1) && AndMalformed(f, level + 1)
    ensures !Valid(f, level)
    ensures Check(m, f, level) == if OrHolds(m, f) then Err(()) else Ok(false)
  {
    RejectedButAnsweredIff(m, f, level);
    RefusedIff(m, f, level);
    if ListOfTwo(f.and) { BothOperators(f, level); }
    match Check(m, f, level)
    case Err(e) => assert e == ();
    case Ok(_) => AnswerIsMeaning(m, f, level);
  }

  /** A filter that one piece of metadata slips past and another does not. */
  lemma HiddenMalformedAnd(v: PlainValue)
    ensures var f := Filter(Groups([Plain("k", v), Plain("k", v)]), NotAList, []);
            !Valid(f, 0) && Check(map[], f, 0) == Ok(false) && Check(map["k" := v], f, 0).Err?
  {
    var p := Plain("k", v);
    var f := Filter(Groups([p, p]), NotAList, []);
    PlainValid("k", v, 1);
    PairValid(p, p, 1);
    FailedOrHidesTheRest(map[], f, 0);
    FailedOrHidesTheRest(map["k" := v], f, 0);
    assert ("k", Direct(v)) in p.conditions;
    assert f.or.filters[0] == p;
    assert !Meaning(map[], p) && Meaning(map["k" := v], p);
  }
}
