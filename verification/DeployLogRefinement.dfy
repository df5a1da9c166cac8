/**
  The reader of the ring buffer against the unbounded log, poll by poll: what a session has
  yielded is exactly the pieces of the log that its polls found in the buffer.  A position
  is missing if and only if it had been evicted when the poll that passed it was taken,
  and a reader that keeps up reads the whole log, whatever its length.
 */
module DeployLogRefinement {
  import opened Wrappers
  import opened DeployLog
  import opened DeployLogTheorems

  /** One look at the buffer: the log was `length` long, and the client had been served up to `from`. */
  datatype Poll = Poll(from: nat, length: nat)

  /** The generator's next turn copies the buffer. */
  predicate TakesSnapshot(s: Session)
  {
    s.gen.AtTop? || (s.gen.Emitting? && s.gen.items == [] && !s.gen.final && s.op.status != Running)
  }

  /** That copy, where a cursor past the end of the log stands for its end. */
  function PollOf(s: Session): Poll
    requires TakesSnapshot(s)
  {
    var cursor := if s.gen.AtTop? then s.gen.cursor else s.gen.total;
    Poll(if cursor <= |s.op.history| then cursor else |s.op.history|, |s.op.history|)
  }

  /** The polls of a session, in order. */
  function Polls(o: Op, cursor: nat, acts: seq<Action>): seq<Poll>
    requires Execute(Connect(o, cursor), acts).Some?
    decreases |acts|
  {
    if acts == [] then []
    else
      var before := acts[..|acts| - 1];
      var s := Execute(Connect(o, cursor), before).value;
      Polls(o, cursor, before) + (if acts[|acts| - 1].GenActs? && TakesSnapshot(s) then [PollOf(s)] else [])
  }

  // ---------------------------------------------------------------- what polls find

  /** Positions `from + 1` to `to` of the log. */
  function Slice(history: seq<Event>, from: nat, to: nat): seq<Out>
    requires from <= to <= |history|
  {
    seq(to - from, i requires 0 <= i < to - from => LogEvent(from + i + 1, history[from + i]))
  }

  /** What reading the unbounded log from a position to its end yields. */
  function WholeLog(history: seq<Event>, from: nat): seq<Out>
    requires from <= |history|
  {
    Slice(history, from, |history|)
  }

  /** The first position a poll finds is the one behind this. */
  function FoundFrom(p: Poll): nat
  {
    if p.from + BUFFER_SIZE < p.length then p.length - BUFFER_SIZE else p.from
  }

  /** The poll passes position `k`, which the buffer had evicted by then. */
  predicate EvictedAt(p: Poll, k: nat)
  {
    p.from < k <= p.length && k + BUFFER_SIZE <= p.length
  }

  /** Where poll `i` starts. */
  function StartOf(polls: seq<Poll>, from: nat, i: nat): nat
    requires i < |polls|
  {
    if i == 0 then from else polls[i - 1].length
  }

  /** Each poll goes on where the one before it ended. */
  predicate Chained(polls: seq<Poll>, from: nat, length: nat)
  {
    && (forall i | 0 <= i < |polls| :: polls[i].from <= polls[i].length <= length)
    && (forall i | 0 <= i < |polls| :: polls[i].from == StartOf(polls, from, i))
  }

  /** The position that the polls reached. */
  function Reached(polls: seq<Poll>, from: nat): nat
  {
    if polls == [] then from else polls[|polls| - 1].length
  }

  lemma ChainedPrefix(polls: seq<Poll>, from: nat, length: nat)
    requires Chained(polls, from, length) && polls != []
    ensures Chained(polls[..|polls| - 1], from, length)
    ensures polls[|polls| - 1].from == Reached(polls[..|polls| - 1], from)
  {
  }

  /** The pieces of the log that the polls found. */
  function Found(polls: seq<Poll>, from: nat, history: seq<Event>): seq<Out>
    requires Chained(polls, from, |history|)
    decreases |polls|
  {
    if polls == [] then []
    else
      var p := polls[|polls| - 1];
      ChainedPrefix(polls, from, |history|);
      Found(polls[..|polls| - 1], from, history) + Slice(history, FoundFrom(p), p.length)
  }

  lemma {:induction false} FoundGrows(polls: seq<Poll>, from: nat, history: seq<Event>, history': seq<Event>)
    requires Chained(polls, from, |history|) && history <= history'
    ensures Chained(polls, from, |history'|) && Found(polls, from, history') == Found(polls, from, history)
    decreases |polls|
  {
    if polls != [] {
      ChainedPrefix(polls, from, |history|);
      FoundGrows(polls[..|polls| - 1], from, history, history');
    }
  }

  lemma FoundMore(polls: seq<Poll>, from: nat, history: seq<Event>, p: Poll)
    requires Chained(polls, from, |history|) && p.from == Reached(polls, from) <= p.length <= |history|
    ensures Chained(polls + [p], from, |history|)
    ensures Found(polls + [p], from, history) == Found(polls, from, history) + Slice(history, FoundFrom(p), p.length)
  {
    assert (polls + [p])[..|polls|] == polls;
  }

  // ---------------------------------------------------------------- the session follows its polls

  function Events(items: seq<(nat, Event)>): seq<Out>
  {
    seq(|items|, i requires 0 <= i < |items| => LogEvent(items[i].0, items[i].1))
  }

  /** A copy of the buffer behind a cursor is what a poll finds. */
  lemma ItemsAreFound(events: seq<Event>, total: nat, history: seq<Event>, cursor: nat)
    requires WindowOf(events, total, history)
    ensures var p := Poll(if cursor <= total then cursor else total, total);
            Events(Items(events, total, cursor)) == Slice(history, FoundFrom(p), total)
  {
    var p := Poll(if cursor <= total then cursor else total, total);
    var items, start := Items(events, total, cursor), total - |events|;
    var skip := if cursor > start then cursor - start else 0;
    forall i | 0 <= i < |items| ensures items[i] == (FoundFrom(p) + i + 1, history[FoundFrom(p) + i]) {
      assert events[skip + i] == history[start + skip + i];
    }
  }

  /** Yielded and still to be yielded together are what was found, up to where the polls reached. */
  predicate GenTracks(gen: Generator, out: seq<Out>, found: seq<Out>, reached: nat, op: Op)
  {
    match gen
    case AtTop(cursor) => out == found && cursor == reached
    case Emitting(items, total, final) => out + Events(items) == found && total == reached
    case Closed =>
      && out == found + [Terminal(op.status == Succeeded, |op.history| + 1)]
      && reached == |op.history|
  }

  /** The session follows its polls. */
  predicate Tracks(s: Session, polls: seq<Poll>)
  {
    if s.resumed.None? then polls == [] && s.out == [] && s.gen.AtTop?
    else
      && polls != [] && Chained(polls, s.resumed.value, |s.op.history|)
      && GenTracks(s.gen, s.out, Found(polls, s.resumed.value, s.op.history), Reached(polls, s.resumed.value), s.op)
  }

  lemma OpTracks(s: Session, polls: seq<Poll>, a: OpAction)
    requires SessionInv(s) && Tracks(s, polls) && OpEnabled(s.op, a)
    ensures Tracks(Apply(s, OpActs(a)), polls)
  {
    OpStepKeepsInv(s.op, a);
    if s.resumed.Some? { FoundGrows(polls, s.resumed.value, s.op.history, OpStep(s.op, a).history); }
  }

  /** The generator right after a snapshot behind `cursor`. */
  lemma SnapshotGen(op: Op, polls: seq<Poll>, from: nat, cursor: nat, out: seq<Out>, final: bool)
    requires OpInv(op) && Chained(polls, from, |op.history|)
    requires out == Found(polls, from, op.history)
    requires Reached(polls, from) == if cursor <= |op.history| then cursor else |op.history|
    ensures var polls' := polls + [Poll(Reached(polls, from), |op.history|)];
            && Chained(polls', from, |op.history|)
            && GenTracks(Emitting(Items(op.events, op.totalAppended, cursor), op.totalAppended, final), out,
                         Found(polls', from, op.history), Reached(polls', from), op)
  {
    ItemsAreFound(op.events, op.totalAppended, op.history, cursor);
    FoundMore(polls, from, op.history, Poll(Reached(polls, from), |op.history|));
  }

  lemma SnapshotTracks(s: Session, polls: seq<Poll>)
    requires SessionInv(s) && Tracks(s, polls) && TakesSnapshot(s)
    ensures Tracks(Apply(s, GenActs), polls + [PollOf(s)])
  {
    match s.gen
    case AtTop(cursor) =>
      var from := Apply(s, GenActs).resumed.value;
      SnapshotGen(s.op, polls, from, cursor, s.out, false);
    case Emitting(items, total, _) =>
      assert s.out + Events(items) == s.out;
      SnapshotGen(s.op, polls, s.resumed.value, total, s.out, true);
  }

  lemma TakeFirst(out: seq<Out>, items: seq<(nat, Event)>)
    requires items != []
    ensures out + [LogEvent(items[0].0, items[0].1)] + Events(items[1..]) == out + Events(items)
  {
    assert Events(items) == [LogEvent(items[0].0, items[0].1)] + Events(items[1..]);
  }

  lemma OtherTurnTracks(s: Session, polls: seq<Poll>)
    requires SessionInv(s) && Tracks(s, polls) && !TakesSnapshot(s)
    ensures Tracks(Apply(s, GenActs), polls)
  {
    if s.gen.Emitting? {
      OtherTurnGen(s.op, s.gen, s.out, Found(polls, s.resumed.value, s.op.history), Reached(polls, s.resumed.value));
    }
  }

  lemma OtherTurnGen(op: Op, gen: Generator, out: seq<Out>, found: seq<Out>, reached: nat)
    requires OpInv(op) && gen.Emitting? && GenTracks(gen, out, found, reached, op)
    requires gen.items != [] || gen.final || op.status == Running
    requires gen.final ==> gen.total == |op.history|
    ensures var (g, o) := GenStep(op, gen); GenTracks(g, if o.Some? then out + [o.value] else out, found, reached, op)
  {
    if gen.items != [] { TakeFirst(out, gen.items); } else { assert out + Events(gen.items) == out; }
  }

  lemma {:induction false} SessionTracks(o: Op, cursor: nat, acts: seq<Action>)
    requires OpInv(o) && Execute(Connect(o, cursor), acts).Some?
    ensures Tracks(Execute(Connect(o, cursor), acts).value, Polls(o, cursor, acts))
    decreases |acts|
  {
    if acts != [] {
      var before := acts[..|acts| - 1];
      var s, polls := Execute(Connect(o, cursor), before).value, Polls(o, cursor, before);
      SessionTracks(o, cursor, before);
      SessionReachable(o, cursor, before);
      match acts[|acts| - 1]
      case OpActs(a) =>
        OpTracks(s, polls, a);
        assert polls + [] == polls;
      case GenActs =>
        if TakesSnapshot(s) {
          SnapshotTracks(s, polls);
        } else {
          OtherTurnTracks(s, polls);
          assert polls + [] == polls;
        }
    }
  }

  // ---------------------------------------------------------------- which positions are found

  /** Log events with increasing ids behind `lo`, up to `hi`. */
  predicate Within(out: seq<Out>, lo: nat, hi: nat)
  {
    && (forall i | 0 <= i < |out| :: out[i].LogEvent? && lo < out[i].id <= hi)
    && (forall i, j | 0 <= i < j < |out| :: out[i].id < out[j].id)
  }

  lemma WithinAppend(a: seq<Out>, b: seq<Out>, lo: nat, mid: nat, start: nat, hi: nat)
    requires Within(a, lo, mid) && Within(b, start, hi) && lo <= mid <= start <= hi
    ensures Within(a + b, lo, hi)
  {
  }

  lemma SliceHolds(history: seq<Event>, from: nat, to: nat, k: nat)
    requires from <= to <= |history| && 1 <= k <= |history|
    ensures Within(Slice(history, from, to), from, to)
    ensures LogEvent(k, history[k - 1]) in Slice(history, from, to) <==> from < k <= to
  {
    if from < k <= to { assert Slice(history, from, to)[k - from - 1] == LogEvent(k, history[k - 1]); }
  }

  lemma {:induction false} Ascending(polls: seq<Poll>, from: nat, length: nat)
    requires Chained(polls, from, length) && polls != []
    ensures from <= polls[|polls| - 1].from
    ensures forall i | 0 <= i < |polls| - 1 :: polls[i].length <= polls[|polls| - 1].from
    decreases |polls|
  {
    var n := |polls|;
    if n > 1 {
      var before := polls[..n - 1];
      ChainedPrefix(polls, from, length);
      Ascending(before, from, length);
      assert polls[n - 1].from == polls[n - 2].length && before[n - 2] == polls[n - 2];
      forall i | 0 <= i < n - 1 ensures polls[i].length <= polls[n - 1].from {
        assert before[i] == polls[i];
      }
    } else {
      assert polls[0].from == from;
    }
  }

  /** What the polls found lies between start and end, in increasing order. */
  lemma {:induction false} FoundWithin(polls: seq<Poll>, from: nat, history: seq<Event>)
    requires Chained(polls, from, |history|)
    ensures from <= Reached(polls, from) && Within(Found(polls, from, history), from, Reached(polls, from))
    decreases |polls|
  {
    if polls != [] {
      var p, before := polls[|polls| - 1], polls[..|polls| - 1];
      ChainedPrefix(polls, from, |history|);
      Ascending(polls, from, |history|);
      FoundWithin(before, from, history);
      if |history| > 0 { SliceHolds(history, FoundFrom(p), p.length, 1); }
      WithinAppend(Found(before, from, history), Slice(history, FoundFrom(p), p.length), from, p.from, FoundFrom(p), p.length);
    }
  }

  /** A position that the polls passed was found unless some poll passed it after its eviction. */
  lemma {:induction false} FoundIff(polls: seq<Poll>, from: nat, history: seq<Event>, k: nat)
    requires Chained(polls, from, |history|) && from < k <= Reached(polls, from)
    ensures k <= |history|
    ensures LogEvent(k, history[k - 1]) in Found(polls, from, history) <==>
              forall i | 0 <= i < |polls| :: !EvictedAt(polls[i], k)
    decreases |polls|
  {
    var n := |polls|;
    var p, before := polls[n - 1], polls[..n - 1];
    ChainedPrefix(polls, from, |history|);
    Ascending(polls, from, |history|);
    assert p.length <= |history|;
    SliceHolds(history, FoundFrom(p), p.length, k);
    assert forall i | 0 <= i < n - 1 :: before[i] == polls[i];
    if k <= p.from {
      FoundIff(before, from, history, k);
    } else {
      FoundWithin(before, from, history);
      assert LogEvent(k, history[k - 1]) !in Found(before, from, history);
      assert EvictedAt(polls[n - 1], k) <==> k <= FoundFrom(p);
    }
  }

  // ---------------------------------------------------------------- what a client receives

  /** Up to the last id yielded, yielded and found are the same. */
  lemma YieldedIff(out: seq<Out>, rest: seq<Out>, lo: nat, hi: nat, e: Out)
    requires Within(out + rest, lo, hi) && lo < e.id <= Served(out, lo)
    ensures e in out <==> e in out + rest
  {
    forall j | 0 <= j < |rest| ensures rest[j].id > e.id {
      assert (out + rest)[|out| + j] == rest[j] && (out + rest)[|out| - 1] == out[|out| - 1];
    }
  }

  lemma TracksReached(s: Session, polls: seq<Poll>)
    requires Tracks(s, polls) && s.resumed.Some?
    ensures Served(s.out, s.resumed.value) <= Reached(polls, s.resumed.value) || s.gen.Closed?
    ensures s.gen.Closed? ==> Reached(polls, s.resumed.value) == |s.op.history|
  {
    var found := Found(polls, s.resumed.value, s.op.history);
    FoundWithin(polls, s.resumed.value, s.op.history);
    if s.out != [] && !s.gen.Closed? { assert s.out[|s.out| - 1] == found[|s.out| - 1]; }
  }

  lemma ReadIff(s: Session, polls: seq<Poll>, k: nat)
    requires Tracks(s, polls) && s.resumed.Some?
    requires s.resumed.value < k <= Served(s.out, s.resumed.value) && k <= |s.op.history|
    ensures LogEvent(k, s.op.history[k - 1]) in s.out <==> forall i | 0 <= i < |polls| :: !EvictedAt(polls[i], k)
  {
    var from, e := s.resumed.value, LogEvent(k, s.op.history[k - 1]);
    var found := Found(polls, from, s.op.history);
    TracksReached(s, polls);
    FoundIff(polls, from, s.op.history, k);
    FoundWithin(polls, from, s.op.history);
    match s.gen
    case AtTop(_) =>
    case Emitting(items, _, _) => YieldedIff(s.out, Events(items), from, Reached(polls, from), e);
    case Closed => assert e in s.out <==> e in found;
  }

  /** `s` is the session after `acts` of a client that connected to `o` with `cursor`, and `polls` are its polls. */
  ghost predicate Ran(o: Op, cursor: nat, acts: seq<Action>, s: Session, polls: seq<Poll>)
  {
    OpInv(o) && Execute(Connect(o, cursor), acts) == Some(s) && Polls(o, cursor, acts) == polls
  }

  lemma RanTracks(o: Op, cursor: nat, acts: seq<Action>, s: Session, polls: seq<Poll>)
    requires Ran(o, cursor, acts, s, polls)
    ensures Tracks(s, polls)
  {
    SessionTracks(o, cursor, acts);
  }

  /**
    Every position the client has been served past was yielded to it if and only if it was
    still buffered at the poll that passed it.
   */
  lemma ReadOrEvicted(o: Op, cursor: nat, acts: seq<Action>, s: Session, polls: seq<Poll>, k: nat)
    requires Ran(o, cursor, acts, s, polls) && s.resumed.Some?
    requires s.resumed.value < k <= Served(s.out, s.resumed.value) && k <= |s.op.history|
    ensures LogEvent(k, s.op.history[k - 1]) in s.out <==> forall i | 0 <= i < |polls| :: !EvictedAt(polls[i], k)
  {
    RanTracks(o, cursor, acts, s, polls);
    ReadIff(s, polls, k);
  }

  lemma ClosedServes(s: Session, polls: seq<Poll>)
    requires Tracks(s, polls) && s.resumed.Some? && s.gen.Closed?
    ensures s.out != [] && s.out[|s.out| - 1] == Terminal(s.op.status == Succeeded, |s.op.history| + 1)
    ensures Served(s.out, s.resumed.value) == |s.op.history| + 1
  {
  }

  /**
    At the end the terminal marker follows the whole log, except for exactly the events
    that were evicted when the poll that passed them was taken.
   */
  lemma TerminalAfterEverything(o: Op, cursor: nat, acts: seq<Action>, s: Session, polls: seq<Poll>, k: nat)
    requires Ran(o, cursor, acts, s, polls) && s.resumed.Some? && s.gen.Closed?
    requires s.resumed.value < k <= |s.op.history|
    ensures s.out != [] && s.out[|s.out| - 1] == Terminal(s.op.status == Succeeded, |s.op.history| + 1)
    ensures LogEvent(k, s.op.history[k - 1]) in s.out <==> forall i | 0 <= i < |polls| :: !EvictedAt(polls[i], k)
  {
    RanTracks(o, cursor, acts, s, polls);
    ClosedServes(s, polls);
    ReadIff(s, polls, k);
  }

  // ---------------------------------------------------------------- a reader that keeps up

  /** At every poll the log was at most a buffer ahead of the client. */
  predicate KeepsUp(polls: seq<Poll>)
  {
    forall i | 0 <= i < |polls| :: polls[i].length <= polls[i].from + BUFFER_SIZE
  }

  lemma SliceJoin(history: seq<Event>, a: nat, b: nat, c: nat)
    requires a <= b <= c <= |history|
    ensures Slice(history, a, b) + Slice(history, b, c) == Slice(history, a, c)
  {
  }

  lemma KeepsUpPrefix(polls: seq<Poll>)
    requires polls != []
    ensures var p := polls[|polls| - 1];
            KeepsUp(polls) <==> KeepsUp(polls[..|polls| - 1]) && p.length <= p.from + BUFFER_SIZE
  {
    assert forall i | 0 <= i < |polls| - 1 :: polls[..|polls| - 1][i] == polls[i];
  }

  /** Polls that keep up find the whole log from their start to where they reached. */
  lemma {:induction false} KeepsUpFindsAll(polls: seq<Poll>, from: nat, history: seq<Event>)
    requires Chained(polls, from, |history|) && from <= |history| && KeepsUp(polls)
    ensures from <= Reached(polls, from) <= |history|
    ensures Found(polls, from, history) == Slice(history, from, Reached(polls, from))
    decreases |polls|
  {
    if polls != [] {
      var p, before := polls[|polls| - 1], polls[..|polls| - 1];
      ChainedPrefix(polls, from, |history|);
      KeepsUpPrefix(polls);
      KeepsUpFindsAll(before, from, history);
      SliceJoin(history, from, p.from, p.length);
    }
  }

  /** Polls that once fell behind find less. */
  lemma {:induction false} BehindFindsLess(polls: seq<Poll>, from: nat, history: seq<Event>)
    requires Chained(polls, from, |history|)
    ensures |Found(polls, from, history)| + from <= Reached(polls, from)
    ensures !KeepsUp(polls) ==> |Found(polls, from, history)| + from < Reached(polls, from)
    decreases |polls|
  {
    if polls != [] {
      var p, before := polls[|polls| - 1], polls[..|polls| - 1];
      ChainedPrefix(polls, from, |history|);
      KeepsUpPrefix(polls);
      BehindFindsLess(before, from, history);
      assert |Slice(history, FoundFrom(p), p.length)| == p.length - FoundFrom(p);
    }
  }

  lemma StartsInLog(s: Session, polls: seq<Poll>)
    requires Tracks(s, polls) && s.resumed.Some?
    ensures s.resumed.value <= |s.op.history|
  {
    assert polls[0].from == s.resumed.value;
  }

  /** The unbounded log from where the client resumed, and the terminal marker. */
  function WholeSession(s: Session): seq<Out>
    requires s.resumed.Some? && s.resumed.value <= |s.op.history|
  {
    WholeLog(s.op.history, s.resumed.value) + [Terminal(s.op.status == Succeeded, |s.op.history| + 1)]
  }

  lemma PrefixOf(out: seq<Out>, rest: seq<Out>, history: seq<Event>, from: nat, to: nat)
    requires from <= to <= |history| && out + rest == Slice(history, from, to)
    ensures out <= WholeLog(history, from)
  {
    SliceJoin(history, from, to, |history|);
    assert WholeLog(history, from) == out + (rest + Slice(history, to, |history|));
  }

  lemma KeptUp(s: Session, polls: seq<Poll>)
    requires Tracks(s, polls) && s.resumed.Some? && KeepsUp(polls) && s.resumed.value <= |s.op.history|
    ensures if s.gen.Closed? then s.out == WholeSession(s) else s.out <= WholeLog(s.op.history, s.resumed.value)
  {
    var from := s.resumed.value;
    KeepsUpFindsAll(polls, from, s.op.history);
    match s.gen
    case AtTop(_) =>
      assert s.out + [] == s.out;
      PrefixOf(s.out, [], s.op.history, from, Reached(polls, from));
    case Emitting(items, _, _) => PrefixOf(s.out, Events(items), s.op.history, from, Reached(polls, from));
    case Closed =>
  }

  /**
    A reader that keeps up is the unbounded reader: for a log of any length it yields the
    positions behind its cursor one by one, and at the end the whole rest of the log.
   */
  lemma UnboundedReader(o: Op, cursor: nat, acts: seq<Action>, s: Session, polls: seq<Poll>)
    requires Ran(o, cursor, acts, s, polls) && s.resumed.Some? && KeepsUp(polls)
    ensures s.resumed.value <= |s.op.history|
    ensures if s.gen.Closed? then s.out == WholeSession(s) else s.out <= WholeLog(s.op.history, s.resumed.value)
  {
    RanTracks(o, cursor, acts, s, polls);
    StartsInLog(s, polls);
    KeptUp(s, polls);
  }

  /** A closed session has yielded the whole log if and only if it kept up at every poll. */
  lemma WholeLogIffKeptUp(o: Op, cursor: nat, acts: seq<Action>, s: Session, polls: seq<Poll>)
    requires Ran(o, cursor, acts, s, polls) && s.resumed.Some? && s.gen.Closed?
    ensures s.resumed.value <= |s.op.history|
    ensures s.out == WholeSession(s) <==> KeepsUp(polls)
  {
    RanTracks(o, cursor, acts, s, polls);
    StartsInLog(s, polls);
    if KeepsUp(polls) { KeptUp(s, polls); } else { FellBehind(s, polls); }
  }

  lemma FellBehind(s: Session, polls: seq<Poll>)
    requires Tracks(s, polls) && s.resumed.Some? && s.gen.Closed? && !KeepsUp(polls) && s.resumed.value <= |s.op.history|
    ensures |s.out| < |WholeSession(s)|
  {
    BehindFindsLess(polls, s.resumed.value, s.op.history);
  }
}
