/**
  Publishing a run's stream (src/langgraph_api/stream.py): the inline publisher, and the
  publisher with a bounded queue and a background worker.  An event that cannot be
  serialized counts as the stream raising at that event.
 */
module Publisher {
  import opened Wrappers

  datatype Event = Event(mode: string, payload: string)

  /** `dataLoss` marks a `StreamPublishException`. */
  datatype Exception = Exception(text: string, dataLoss: bool)

  /** How the stream ends; an exception group carries at least one exception. */
  datatype Stop = Finished | Raised(e: Exception) | RaisedGroup(first: Exception, others: seq<Exception>)

  /** One call of `Runs.Stream.publish`. */
  datatype Call = Call(mode: string, payload: string, resumable: bool)

  datatype Job = Job(events: seq<Event>, stop: Stop, resumable: bool, modes: set<string>)

  /** The part of the mode before the first bar. */
  function EventType(mode: string): (r: string)
    ensures '|' !in r && (r == mode || r + "|" <= mode)
  {
    if mode == "" || mode[0] == '|' then "" else [mode[0]] + EventType(mode[1..])
  }

  function CallOf(job: Job, e: Event): Call
  {
    Call(e.mode, e.payload, job.resumable && EventType(e.mode) in job.modes)
  }

  function ErrorCall(e: Exception): Call
  {
    Call("error", e.text, false)
  }

  /** The exception reported for the stream, if any. */
  function Reported(stop: Stop): Option<Exception>
  {
    match stop
    case Finished => None
    case Raised(e) => Some(e)
    case RaisedGroup(first, _) => Some(first)
  }

  function EventCalls(job: Job): seq<Call>
  {
    seq(|job.events|, k requires 0 <= k < |job.events| => CallOf(job, job.events[k]))
  }

  function ErrorCalls(stop: Stop): seq<Call>
  {
    match Reported(stop)
    case None => []
    case Some(e) => [ErrorCall(e)]
  }

  /** Every event in stream order, then the stream's error. */
  function Calls(job: Job): seq<Call>
  {
    EventCalls(job) + ErrorCalls(job.stop)
  }

  // ---------------------------------------------------------------- the inline publisher

  /** The outcome of each publish call, by its position. */
  type Outcomes = nat -> Option<Exception>

  /** The first event whose publish fails, or the number of events. */
  function FirstFailure(failure: Outcomes, from: nat, n: nat): (k: nat)
    requires from <= n
    ensures from <= k <= n
    ensures forall j | from <= j < k :: failure(j).None?
    ensures k < n ==> failure(k).Some?
    decreases n - from
  {
    if from == n || failure(from).Some? then from else FirstFailure(failure, from + 1, n)
  }

  /** What the inline publisher reports: the first failed publish, or the stream's own end. */
  function InlineError(job: Job, failure: Outcomes): Option<Exception>
  {
    var k := FirstFailure(failure, 0, |job.events|);
    if k < |job.events| then failure(k) else Reported(job.stop)
  }

  /** The calls of the inline publisher, which stops at a failed publish. */
  function InlineCalls(job: Job, failure: Outcomes): seq<Call>
  {
    var k, e := FirstFailure(failure, 0, |job.events|), InlineError(job, failure);
    EventCalls(job)[..if k < |job.events| then k + 1 else k] + (if e.Some? then [ErrorCall(e.value)] else [])
  }

  lemma ErrorType()
    ensures EventType("error") == "error"
  {
    assert "error"[1..] == "rror" && "rror"[1..] == "ror" && "ror"[1..] == "or" && "or"[1..] == "r" && "r"[1..] == "";
    assert EventType("or") == "or";
    assert EventType("rror") == "rror";
  }

  /** An event that is published exactly as an error is. */
  predicate PassesForError(job: Job, e: Event, text: string)
  {
    e == Event("error", text) && !(job.resumable && "error" in job.modes)
  }

  lemma PassesIff(job: Job, e: Event, x: Exception)
    ensures CallOf(job, e) == ErrorCall(x) <==> PassesForError(job, e, x.text)
  {
    ErrorType();
    assert e == Event(e.mode, e.payload);
  }

  /**
    The publishers make the same calls exactly if no event's publish fails, or the last
    one's does and the stream's own end reports an error of the same text, or the last but
    one's does, the stream ends well, and its last event passes for that very error.
   */
  lemma InlineAgreesIff(job: Job, failure: Outcomes)
    ensures var n, k := |job.events|, FirstFailure(failure, 0, |job.events|);
            InlineCalls(job, failure) == Calls(job) <==>
              || k == n
              || (k + 1 == n && Reported(job.stop).Some? && Reported(job.stop).value.text == failure(k).value.text)
              || (k + 2 == n && job.stop.Finished? && PassesForError(job, job.events[k + 1], failure(k).value.text))
  {
    var n, k := |job.events|, FirstFailure(failure, 0, |job.events|);
    if k == n {
      assert EventCalls(job)[..n] == EventCalls(job);
    } else {
      var x := failure(k).value;
      assert EventCalls(job)[..k + 1] == Calls(job)[..k + 1];
      assert Calls(job) == Calls(job)[..k + 1] + Calls(job)[k + 1..];
      if InlineCalls(job, failure) == Calls(job) {
        assert InlineCalls(job, failure)[k + 1..] == [ErrorCall(x)];
      }
      TailIsError(job, k + 1, x);
    }
  }

  /** When the calls behind some events are just one error call. */
  lemma TailIsError(job: Job, k: nat, x: Exception)
    requires k <= |job.events|
    ensures Calls(job)[k..] == [ErrorCall(x)] <==>
              || (k == |job.events| && Reported(job.stop).Some? && Reported(job.stop).value.text == x.text)
              || (k + 1 == |job.events| && job.stop.Finished? && PassesForError(job, job.events[k], x.text))
  {
    var tail := Calls(job)[k..];
    if k < |job.events| {
      PassesIff(job, job.events[k], x);
      assert tail[0] == CallOf(job, job.events[k]);
    }
    if |tail| == 1 { assert tail == [tail[0]]; }
  }

  /** `_consume_inline`: the calls made and the exception it raises. */
  method ConsumeInline(job: Job, failure: Outcomes) returns (made: seq<Call>, raised: Option<Exception>)
    ensures made == InlineCalls(job, failure)
    ensures var e := InlineError(job, failure); raised == (if e.Some? && !e.value.dataLoss then e else None)
  {
    made := [];
    raised := None;
    var caught: Option<Exception> := None;
    var i := 0;
    while i < |job.events| && caught.None?
      invariant 0 <= i <= |job.events|
      invariant made == EventCalls(job)[..i]
      invariant caught.None? ==> forall j | 0 <= j < i :: failure(j).None?
      invariant caught.Some? ==> 0 < i && caught == failure(i - 1) && forall j | 0 <= j < i - 1 :: failure(j).None?
      decreases |job.events| - i
    {
      made := made + [CallOf(job, job.events[i])];
      caught := failure(i);
      i := i + 1;
    }
    if caught.None? {
      match job.stop {
        case Finished =>
        case Raised(e) => caught := Some(e);
        case RaisedGroup(first, _) => caught := Some(first);
      }
    }
    if caught.Some? {
      made := made + [ErrorCall(caught.value)];   // a failure of this call is suppressed
      if !caught.value.dataLoss { raised := caught; }
    }
  }

  // ---------------------------------------------------------------- the background queue

  datatype Item = Publish(call: Call) | Sentinel

  /** Where `_consume_async_queue` is. */
  datatype Producer =
    | Consuming(i: nat)                    // reading event i, then putting it
    | Failing(e: Exception)                // putting the error event
    | Closing(result: Option<Exception>)   // putting the sentinel
    | Joining(result: Option<Exception>)   // awaiting the worker task
    | Returned(result: Option<Exception>)

  datatype Worker = Waiting | Publishing(call: Call) | Ended

  datatype State = State(
    producer: Producer, queue: seq<Item>, worker: Worker,
    made: seq<Call>, published: nat, lost: nat)

  const Start := State(Consuming(0), [], Waiting, [], 0, 0)

  /** `asyncio.Queue.full`: a size of zero or less means no bound. */
  predicate Full(queue: seq<Item>, maxsize: int)
  {
    maxsize > 0 && |queue| >= maxsize
  }

  datatype Step = Produce | Work(failed: bool)

  predicate CanProduce(job: Job, maxsize: int, s: State)
  {
    match s.producer
    case Consuming(i) => i >= |job.events| || !Full(s.queue, maxsize)
    case Failing(_) => !Full(s.queue, maxsize)
    case Closing(_) => !Full(s.queue, maxsize)
    case Joining(_) => s.worker.Ended?
    case Returned(_) => false
  }

  predicate CanWork(s: State)
  {
    match s.worker
    case Waiting => s.queue != []
    case Publishing(_) => true
    case Ended => false
  }

  predicate Enabled(job: Job, maxsize: int, s: State, step: Step)
  {
    match step
    case Produce => CanProduce(job, maxsize, s)
    case Work(_) => CanWork(s)
  }

  function ProduceNext(job: Job, s: State): State
  {
    match s.producer
    case Consuming(i) =>
      if i < |job.events| then
        s.(producer := Consuming(i + 1), queue := s.queue + [Publish(CallOf(job, job.events[i]))])
      else
        (match Reported(job.stop)
         case None => s.(producer := Closing(None))
         case Some(e) => s.(producer := Failing(e)))
    case Failing(e) => s.(producer := Closing(Some(e)), queue := s.queue + [Publish(ErrorCall(e))])
    case Closing(result) => s.(producer := Joining(result), queue := s.queue + [Sentinel])
    case Joining(result) => s.(producer := Returned(result))
    case Returned(_) => s
  }

  function WorkNext(s: State, failed: bool): State
    requires CanWork(s)
  {
    match s.worker
    case Waiting =>
      (match s.queue[0]
       case Sentinel => s.(queue := s.queue[1..], worker := Ended)
       case Publish(call) => s.(queue := s.queue[1..], worker := Publishing(call)))
    case Publishing(call) =>
      s.(worker := Waiting, made := s.made + [call],
         published := s.published + (if failed then 0 else 1), lost := s.lost + (if failed then 1 else 0))
    case Ended => s
  }

  function Apply(job: Job, s: State, step: Step): State
    requires step.Work? ==> CanWork(s)
  {
    match step
    case Produce => ProduceNext(job, s)
    case Work(failed) => WorkNext(s, failed)
  }

  function Execute(job: Job, maxsize: int, steps: seq<Step>): Option<State>
  {
    if steps == [] then Some(Start)
    else
      match Execute(job, maxsize, steps[..|steps| - 1])
      case None => None
      case Some(s) =>
        var step := steps[|steps| - 1];
        if Enabled(job, maxsize, s, step) then Some(Apply(job, s, step)) else None
  }

  // ---------------------------------------------------------------- what every interleaving keeps

  /** Everything the producer ever puts. */
  function Items(job: Job): seq<Item>
  {
    var calls := Calls(job);
    seq(|calls| + 1, k requires 0 <= k <= |calls| => if k < |calls| then Publish(calls[k]) else Sentinel)
  }

  function Put(job: Job, p: Producer): nat
  {
    match p
    case Consuming(i) => i
    case Failing(_) => |job.events|
    case Closing(_) => |Calls(job)|
    case _ => |Calls(job)| + 1
  }

  /** What the worker has taken: the calls made, and the item it holds. */
  function Taken(s: State): seq<Item>
  {
    seq(|s.made|, k requires 0 <= k < |s.made| => Publish(s.made[k]))
      + (match s.worker case Waiting => [] case Publishing(call) => [Publish(call)] case Ended => [Sentinel])
  }

  predicate ProducerOk(job: Job, p: Producer)
  {
    match p
    case Consuming(i) => i <= |job.events|
    case Failing(e) => Reported(job.stop) == Some(e)
    case Closing(result) => result == Reported(job.stop)
    case Joining(result) => result == Reported(job.stop)
    case Returned(result) => result == Reported(job.stop)
  }

  /** Taken and queued items are the first items put, in order. */
  predicate Inv(job: Job, s: State)
  {
    && ProducerOk(job, s.producer)
    && Taken(s) + s.queue == Items(job)[..Put(job, s.producer)]
    && s.published + s.lost == |s.made|
    && (s.producer.Returned? ==> s.worker.Ended?)
  }

  lemma PutAppends(job: Job, s: State, item: Item)
    requires Inv(job, s) && Put(job, s.producer) < |Items(job)| && Items(job)[Put(job, s.producer)] == item
    ensures Taken(s) + (s.queue + [item]) == Items(job)[..Put(job, s.producer) + 1]
  {
    assert Taken(s) + (s.queue + [item]) == (Taken(s) + s.queue) + [item];
  }

  lemma ProduceKeepsInv(job: Job, maxsize: int, s: State)
    requires Inv(job, s) && CanProduce(job, maxsize, s)
    ensures Inv(job, ProduceNext(job, s))
  {
    match s.producer
    case Consuming(i) => if i < |job.events| { PutAppends(job, s, Publish(CallOf(job, job.events[i]))); }
    case Failing(e) => PutAppends(job, s, Publish(ErrorCall(e)));
    case Closing(_) => PutAppends(job, s, Sentinel);
    case _ =>
  }

  lemma WorkKeepsInv(job: Job, s: State, failed: bool)
    requires Inv(job, s) && CanWork(s)
    ensures Inv(job, WorkNext(s, failed))
  {
    var s' := WorkNext(s, failed);
    match s.worker
    case Waiting =>
      assert Taken(s') == Taken(s) + [s.queue[0]];
      assert Taken(s') + s'.queue == Taken(s) + s.queue;
    case Publishing(call) => assert Taken(s') == Taken(s);
    case Ended =>
  }

  lemma {:induction false} ReachableInv(job: Job, maxsize: int, steps: seq<Step>)
    requires Execute(job, maxsize, steps).Some?
    ensures Inv(job, Execute(job, maxsize, steps).value)
  {
    if steps != [] {
      var s := Execute(job, maxsize, steps[..|steps| - 1]).value;
      ReachableInv(job, maxsize, steps[..|steps| - 1]);
      match steps[|steps| - 1]
      case Produce => ProduceKeepsInv(job, maxsize, s);
      case Work(failed) => WorkKeepsInv(job, s, failed);
    }
  }

  lemma MadeAt(job: Job, s: State, k: nat)
    requires Inv(job, s) && k < |s.made|
    ensures k < |Calls(job)| && s.made[k] == Calls(job)[k]
  {
    assert Taken(s)[k] == Publish(s.made[k]);
    assert (Taken(s) + s.queue)[k] == Items(job)[..Put(job, s.producer)][k];
  }

  /** The calls made so far are a prefix of the inline publisher's calls, in every interleaving. */
  lemma MadeInOrder(job: Job, s: State)
    requires Inv(job, s)
    ensures s.made <= Calls(job)
  {
    if s.made != [] { MadeAt(job, s, |s.made| - 1); }
    forall k | 0 <= k < |s.made| ensures s.made[k] == Calls(job)[k] { MadeAt(job, s, k); }
  }

  /** Once the worker has met the sentinel, every call has been made. */
  lemma EndedMeansAllMade(job: Job, s: State)
    requires Inv(job, s) && s.worker.Ended?
    ensures s.made == Calls(job) && s.queue == []
  {
    MadeInOrder(job, s);
    var n := |s.made|;
    assert Taken(s)[n] == Sentinel;
    assert (Taken(s) + s.queue)[n] == Items(job)[n];
  }

  /** For every queue size, interleaving and failure pattern: when it returns, all calls were made, in order. */
  lemma ReturnsAfterAllCalls(job: Job, maxsize: int, steps: seq<Step>)
    requires Execute(job, maxsize, steps).Some? && Execute(job, maxsize, steps).value.producer.Returned?
    ensures var s := Execute(job, maxsize, steps).value;
            && s.made == Calls(job)
            && s.producer.result == Reported(job.stop)
            && s.published + s.lost == |Calls(job)|
  {
    ReachableInv(job, maxsize, steps);
    EndedMeansAllMade(job, Execute(job, maxsize, steps).value);
  }

  /** An error event is only ever the last call. */
  lemma ErrorIsLast(job: Job, k: nat)
    requires k < |Calls(job)|
    ensures k < |job.events| ==> Calls(job)[k] == CallOf(job, job.events[k])
    ensures k >= |job.events| ==>
              k == |Calls(job)| - 1 && Reported(job.stop).Some? && Calls(job)[k] == ErrorCall(Reported(job.stop).value)
  {
  }

  /** The part of a mode before the first bar is the type, and only that. */
  predicate IsType(t: string, mode: string)
  {
    '|' !in t && (t == mode || t + "|" <= mode)
  }

  lemma TypeIsUnique(t: string, mode: string)
    requires IsType(t, mode)
    ensures t == EventType(mode)
  {
    var r := EventType(mode);
    TypeEnds(t, mode);
    TypeEnds(r, mode);
  }

  /** A type ends where the mode does or at its first bar. */
  lemma TypeEnds(t: string, mode: string)
    requires IsType(t, mode)
    ensures t == mode[..|t|] && (|t| < |mode| ==> mode[|t|] == '|')
    ensures forall i | 0 <= i < |t| :: mode[i] != '|'
  {
    assert forall i | 0 <= i < |t| :: mode[i] == t[i] && t[i] in t;
    if t != mode { assert mode[|t|] == (t + "|")[|t|]; }
  }

  /**
    What each call carries: an event its own mode and payload, resumable exactly if the
    job and the type of the mode are; the error its text under "error", never resumable,
    and of an exception group the first.
   */
  lemma CallsCarry(job: Job, k: nat)
    requires k < |job.events|
    ensures Calls(job)[k].mode == job.events[k].mode && Calls(job)[k].payload == job.events[k].payload
    ensures Calls(job)[k].resumable <==> job.resumable && exists t | t in job.modes :: IsType(t, job.events[k].mode)
    ensures job.stop.Finished? ==> |Calls(job)| == |job.events|
    ensures job.stop.Raised? ==> Calls(job)[|job.events|..] == [Call("error", job.stop.e.text, false)]
    ensures job.stop.RaisedGroup? ==> Calls(job)[|job.events|..] == [Call("error", job.stop.first.text, false)]
  {
    var mode := job.events[k].mode;
    assert Calls(job)[k] == CallOf(job, job.events[k]);
    assert IsType(EventType(mode), mode);
    forall t | t in job.modes && IsType(t, mode) ensures t == EventType(mode) { TypeIsUnique(t, mode); }
  }

  // ---------------------------------------------------------------- no deadlock, and an end

  lemma NeverStuck(job: Job, maxsize: int, s: State)
    requires Inv(job, s) && !s.producer.Returned?
    ensures CanProduce(job, maxsize, s) || CanWork(s)
  {
    if !CanWork(s) && s.worker.Ended? {
      EndedMeansAllMade(job, s);
      assert |Taken(s) + s.queue| == |Calls(job)| + 1;
    } else if !CanWork(s) {
      assert s.queue == [];
      if s.producer.Joining? { SentinelNotTaken(job, s); }
    }
  }

  /** While the worker has not ended, the sentinel is not among the taken items. */
  lemma SentinelNotTaken(job: Job, s: State)
    requires Inv(job, s) && !s.worker.Ended? && s.producer.Joining?
    ensures s.queue != [] || s.worker.Publishing?
  {
    MadeInOrder(job, s);
    assert |Taken(s) + s.queue| == |Calls(job)| + 1;
  }

  /** Steps the two tasks can still take. */
  function Remaining(job: Job, s: State): nat
    requires ProducerOk(job, s.producer)
  {
    3 * (match s.producer
         case Consuming(i) => |job.events| - i + 4
         case Failing(_) => 3
         case Closing(_) => 2
         case Joining(_) => 1
         case Returned(_) => 0)
    + 2 * |s.queue| + (if s.worker.Publishing? then 1 else 0)
  }

  lemma EveryStepCounts(job: Job, maxsize: int, s: State, step: Step)
    requires Inv(job, s) && Enabled(job, maxsize, s, step)
    ensures ProducerOk(job, Apply(job, s, step).producer)
    ensures Remaining(job, Apply(job, s, step)) < Remaining(job, s)
  {
    match step
    case Produce => ProduceKeepsInv(job, maxsize, s);
    case Work(_) =>
  }

  /** No run of the two tasks is longer than its start allows. */
  lemma {:induction false} RunsAreBounded(job: Job, maxsize: int, steps: seq<Step>)
    requires Execute(job, maxsize, steps).Some?
    ensures ProducerOk(job, Execute(job, maxsize, steps).value.producer)
    ensures |steps| + Remaining(job, Execute(job, maxsize, steps).value) <= 3 * |job.events| + 12
  {
    if steps != [] {
      RunsAreBounded(job, maxsize, steps[..|steps| - 1]);
      ReachableInv(job, maxsize, steps[..|steps| - 1]);
      EveryStepCounts(job, maxsize, Execute(job, maxsize, steps[..|steps| - 1]).value, steps[|steps| - 1]);
    }
  }

  /** Each lost call is one whose publish failed. */
  ghost predicate LossExplained(s: State, failure: Outcomes)
  {
    s.lost == 0 || exists k :: 0 <= k < |s.made| && failure(k).Some?
  }

  lemma WorkExplainsLoss(s: State, failure: Outcomes)
    requires CanWork(s) && LossExplained(s, failure)
    ensures LossExplained(WorkNext(s, failure(|s.made|).Some?), failure)
  {
  }

  /** The queue, the worker task and the consumer of `_consume_async_queue`. */
  class Publication {
    const job: Job
    const maxsize: int
    var producer: Producer
    var queue: seq<Item>
    var worker: Worker
    var made: seq<Call>
    var published: nat
    var lost: nat

    ghost function View(): State
      reads this
    {
      State(producer, queue, worker, made, published, lost)
    }

    constructor (job: Job, maxsize: int)
      ensures this.job == job && this.maxsize == maxsize && View() == Start
    {
      this.job, this.maxsize := job, maxsize;
      producer, queue, worker, made, published, lost := Consuming(0), [], Waiting, [], 0, 0;
    }

    /** The consumer runs to its next await. */
    method Consume()
      requires CanProduce(job, maxsize, View())
      modifies this
      ensures View() == ProduceNext(job, old(View()))
    {
      match producer
      case Consuming(i) =>
        if i < |job.events| {
          queue := queue + [Publish(CallOf(job, job.events[i]))];
          producer := Consuming(i + 1);
        } else {
          match job.stop
          case Finished => producer := Closing(None);
          case Raised(e) => producer := Failing(e);
          case RaisedGroup(first, _) => producer := Failing(first);
        }
      case Failing(e) =>
        queue := queue + [Publish(ErrorCall(e))];
        producer := Closing(Some(e));
      case Closing(result) =>
        queue := queue + [Sentinel];
        producer := Joining(result);
      case Joining(result) =>
        producer := Returned(result);
    }

    /** The worker runs to its next await; `failed` is how the publish under way ended. */
    method Deliver(failed: bool)
      requires CanWork(View())
      modifies this
      ensures View() == WorkNext(old(View()), failed)
    {
      match worker
      case Waiting =>
        var item := queue[0];
        queue := queue[1..];
        match item {
          case Sentinel => worker := Ended;
          case Publish(call) => worker := Publishing(call);
        }
      case Publishing(call) =>
        made := made + [call];
        if failed { lost := lost + 1; } else { published := published + 1; }
        worker := Waiting;
    }

    /** The two tasks take turns, in any order, until neither can move. */
    method Run(failure: Outcomes) returns (raised: Option<Exception>)
      requires View() == Start
      modifies this
      ensures made == Calls(job) && published + lost == |made|
      ensures raised == Reported(job.stop)
      ensures (forall k | 0 <= k < |made| :: failure(k).None?) ==> lost == 0
    {
      while
        invariant Inv(job, View()) && LossExplained(View(), failure)
        decreases Remaining(job, View())
      {
        case CanProduce(job, maxsize, State(producer, queue, worker, made, published, lost)) =>
          ProduceKeepsInv(job, maxsize, View());
          EveryStepCounts(job, maxsize, View(), Produce);
          Consume();
        case CanWork(State(producer, queue, worker, made, published, lost)) =>
          var failed := failure(|made|).Some?;
          WorkKeepsInv(job, View(), failed);
          WorkExplainsLoss(View(), failure);
          EveryStepCounts(job, maxsize, View(), Work(failed));
          Deliver(failed);
      }
      if !producer.Returned? { NeverStuck(job, maxsize, View()); }
      EndedMeansAllMade(job, View());
      raised := producer.result;
    }
  }

  /** `consume`: either publisher, with "messages" and "metadata" added to the resumable modes. */
  method Consume(job: Job, useQueue: bool, maxsize: int, failure: Outcomes)
    returns (made: seq<Call>, raised: Option<Exception>)
    ensures var job' := job.(modes := job.modes + {"metadata"} + (if "messages-tuple" in job.modes then {"messages"} else {}));
            (forall k | 0 <= k < |job.events| :: failure(k).None?) ==>
              && made == Calls(job')
              && (raised.None? || raised == Reported(job.stop))
              && (raised.None? ==> job.stop.Finished? || (!useQueue && Reported(job.stop).value.dataLoss))
  {
    var modes := job.modes;
    if "messages-tuple" in modes { modes := modes + {"messages"}; }
    modes := modes + {"metadata"};
    var job' := job.(modes := modes);
    assert modes == job.modes + {"metadata"} + (if "messages-tuple" in job.modes then {"messages"} else {});
    if useQueue {
      var publication := new Publication(job', maxsize);
      raised := publication.Run(failure);
      made := publication.made;
    } else {
      made, raised := ConsumeInline(job', failure);
      assert EventCalls(job')[..|job.events|] == EventCalls(job');
    }
  }
}
