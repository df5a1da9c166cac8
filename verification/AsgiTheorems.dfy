/**
  Under every interleaving of the application, the loop callbacks, the awaiter and the
  reader: the end marker is queued exactly once, nobody waits forever, the reader gets
  every chunk in order, and each way the application can end surfaces in one place.
 */
module AsgiTheorems {
  import opened Wrappers
  import opened AsgiProtocol

  // ---------------------------------------------------------------- what the queues hold

  function Chunks(items: seq<Item>): seq<Bytes>
  {
    if items == [] then []
    else (if items[0].Chunk? then [items[0].body] else []) + Chunks(items[1..])
  }

  function Ends(items: seq<Item>): nat
  {
    if items == [] then 0 else (if items[0].StreamEnd? then 1 else 0) + Ends(items[1..])
  }

  /** The bodies still on their way through the loop's callbacks. */
  function InFlight(queue: seq<Callback>): seq<Bytes>
  {
    if queue == [] then []
    else (if queue[0].PutChunk? then [queue[0].body] else []) + InFlight(queue[1..])
  }

  lemma {:induction false} ChunksAppend(a: seq<Item>, b: seq<Item>)
    ensures Chunks(a + b) == Chunks(a) + Chunks(b)
  {
    if a == [] {
      assert a + b == b;
    } else {
      var head := if a[0].Chunk? then [a[0].body] else [];
      ChunksAppend(a[1..], b);
      assert (a + b)[0] == a[0] && (a + b)[1..] == a[1..] + b;
      assert Chunks(a + b) == head + (Chunks(a[1..]) + Chunks(b));
    }
  }

  lemma {:induction false} EndsAppend(a: seq<Item>, b: seq<Item>)
    ensures Ends(a + b) == Ends(a) + Ends(b)
  {
    if a == [] {
      assert a + b == b;
    } else {
      EndsAppend(a[1..], b);
      assert (a + b)[0] == a[0] && (a + b)[1..] == a[1..] + b;
    }
  }

  lemma {:induction false} InFlightAppend(a: seq<Callback>, b: seq<Callback>)
    ensures InFlight(a + b) == InFlight(a) + InFlight(b)
  {
    if a == [] {
      assert a + b == b;
    } else {
      var head := if a[0].PutChunk? then [a[0].body] else [];
      InFlightAppend(a[1..], b);
      assert (a + b)[0] == a[0] && (a + b)[1..] == a[1..] + b;
      assert InFlight(a + b) == head + (InFlight(a[1..]) + InFlight(b));
    }
  }

  lemma {:induction false} NothingInFlight(queue: seq<Callback>)
    requires forall i | 0 <= i < |queue| :: !queue[i].PutChunk?
    ensures InFlight(queue) == []
  {
    if queue != [] {
      NothingInFlight(queue[1..]);
    }
  }

  // ---------------------------------------------------------------- the invariant

  predicate FromSend(c: Callback)
  {
    c.SetResponseStarted? || c.PutChunk? || c.CloseStream?
  }

  /** Everything put into the body queue so far, taken or not. */
  function Queued(b: Body): seq<Item>
  {
    b.consumed + b.items
  }

  /** Chunks travel in order, and the end marker is queued once at most. */
  predicate BodyOk(b: Body, loop: seq<Callback>, sent: seq<Bytes>)
  {
    && Chunks(Queued(b)) + InFlight(loop) == sent
    && Ends(Queued(b)) == (if b.closed then 1 else 0)
  }

  /** Once the stream is closed, and not by a reader that left early, nothing follows the end marker. */
  predicate ClosedOk(b: Body, loop: seq<Callback>, s: Sender, c: Client)
  {
    && (b.closed && !c.closedEarly ==>
          && Queued(b) != [] && Queued(b)[|Queued(b)| - 1].StreamEnd?
          && NoChunks(loop)
          && (s.complete || s.app.Exited?))
    && (c.reader.Reading? ==> Ends(b.consumed) == 0)
    && (c.reader.AwaitingComplete? || c.reader.ReaderDone? ==> Ends(b.consumed) == 1)
  }

  predicate NoChunks(q: seq<Callback>)
  {
    forall c | c in q :: !c.PutChunk?
  }

  /** The order of the callbacks on the current loop. */
  predicate OrderOk(q: seq<Callback>)
  {
    && (forall i, j | 0 <= i < j < |q| && q[i].CloseStream? :: !q[j].PutChunk?)
    && (forall i, j | 0 <= i < j < |q| && q[i].SetOutcome? :: !FromSend(q[j]) && !q[j].SetOutcome?)
    && (forall i, j | 0 <= i < j < |q| && q[i].FinishApp? :: !q[j].FinishApp?)
  }

  predicate NoSends(q: seq<Callback>)
  {
    forall c | c in q :: !FromSend(c)
  }

  /** Which callbacks can be waiting on the current loop. */
  predicate LoopOk(q: seq<Callback>, s: Sender, f: Futures)
  {
    && OrderOk(q)
    && (CloseStream in q ==> s.complete)
    && (forall c | c in q && c.SetOutcome? :: s.app == Exited(c.outcome) && (f.app.None? || f.cancelledByReader))
    && (s.app.Exited? && f.app.None? ==> SetOutcome(s.app.outcome) in q)
    && (s.app.Exited? && SetOutcome(s.app.outcome) !in q ==> NoSends(q))
    && (FinishApp in q <==> f.app.Some? && !f.finished)
    && (s.started && f.started.Pending? ==> SetResponseStarted in q)
    && (SetResponseStarted in q ==> s.started)
  }

  predicate FuturesOk(s: Sender, f: Futures)
  {
    && (f.app.Some? && !f.cancelledByReader ==> s.app == Exited(f.app.value))
    && (f.cancelledByReader ==> f.app == Some(WasCancelled))
    && (f.finished ==> f.app.Some?)
    && (f.complete.Pending? <==> !f.finished)
    && (f.finished ==> !f.started.Pending?)
    && (f.started.HasException? ==> f.finished)
    && (f.started.IsCancelled? ==> f.finished || f.cancelledByCaller)
    && (f.started.HasResult? ==> s.started)
    && (!f.finished ==> s.complete == s.bodyDone)
    && (s.bodyDone ==> s.complete)
  }

  predicate ClientOk(w: World)
  {
    var f, c := w.futures, w.client;
    && (f.finished ==> w.body.closed)
    && (f.cancelledByReader ==> c.closed)
    && (c.closed ==> w.body.closed && f.app.Some? && c.awaiter.Responded?)
    && (c.closedEarly ==> c.closed)
    && (c.closed <==> c.reader.ReaderDone? || c.reader.ReaderClosed?)
    && (f.cancelledByCaller ==> c.awaiter.AwaiterCancelled?)
    && (c.awaiter.Responded? ==> f.started.HasResult? || (f.started.HasException? && !w.cfg.raises))
    && (c.awaiter.AwaiterRaised? ==> w.cfg.raises && f.started == HasException(c.awaiter.error))
    && (c.awaiter.AwaiterCancelled? ==> f.started.IsCancelled? || f.cancelledByCaller)
    && (!c.awaiter.Responded? ==> c.reader.Reading?)
    && (c.reader.ReaderDone? ==> c.reader.last == f.complete && !f.complete.Pending?)
  }

  /** What `response_started_event` tells the awaiter. */
  function ExpectedStart(o: Outcome, started: bool): Future
  {
    if started then HasResult
    else match o
         case Returned => HasException(ResponseNotComplete)
         case Raised(e) => HasException(e)
         case WasCancelled => IsCancelled
  }

  /** What `app_complete` tells the reader after the last chunk. */
  function ExpectedEnd(o: Outcome, started: bool, bodyDone: bool, raises: bool): Future
  {
    if !started then HasResult
    else match o
         case Returned => if bodyDone then HasResult else HasException(ResponseNotComplete)
         case Raised(e) => if raises then HasException(e) else HasResult
         case WasCancelled => IsCancelled
  }

  predicate OutcomeOk(raises: bool, s: Sender, f: Futures)
  {
    f.finished && !f.cancelledByReader && !f.cancelledByCaller ==>
      && s.app.Exited?
      && f.started == ExpectedStart(s.app.outcome, s.started)
      && f.complete == ExpectedEnd(s.app.outcome, s.started, s.bodyDone, raises)
  }

  predicate Inv(w: World)
  {
    && BodyOk(w.body, w.loop, w.sender.sent)
    && ClosedOk(w.body, w.loop, w.sender, w.client)
    && LoopOk(w.loop, w.sender, w.futures)
    && FuturesOk(w.sender, w.futures)
    && ClientOk(w)
    && OutcomeOk(w.cfg.raises, w.sender, w.futures)
  }

  // ---------------------------------------------------------------- queues

  lemma PushMembers(q: seq<Callback>, x: Callback)
    ensures forall c :: c in q + [x] <==> c in q || c == x
  {
  }

  lemma PopMembers(q: seq<Callback>)
    requires q != []
    ensures forall c :: c in q <==> c == q[0] || c in q[1..]
  {
    assert q == [q[0]] + q[1..];
  }

  lemma PopOrder(q: seq<Callback>)
    requires q != [] && OrderOk(q)
    ensures OrderOk(q[1..])
    ensures q[0].CloseStream? ==> NoChunks(q[1..])
    ensures q[0].SetOutcome? ==> NoSends(q[1..]) && forall c | c in q[1..] :: !c.SetOutcome?
    ensures q[0].FinishApp? ==> FinishApp !in q[1..]
  {
  }

  /** `close_stream` puts the end marker behind everything delivered so far. */
  lemma CloseBodyOk(b: Body, loop: seq<Callback>, sent: seq<Bytes>)
    requires BodyOk(b, loop, sent)
    ensures BodyOk(CloseBody(b), loop, sent)
    ensures !b.closed ==> Queued(CloseBody(b)) == Queued(b) + [StreamEnd]
  {
    if !b.closed {
      ChunksAppend(Queued(b), [StreamEnd]);
      EndsAppend(Queued(b), [StreamEnd]);
      assert Queued(CloseBody(b)) == Queued(b) + [StreamEnd];
      assert Chunks(Queued(b)) + [] == Chunks(Queued(b));
    }
  }

  // ---------------------------------------------------------------- the application's sends

  lemma AppStartsKeepsInv(w: World)
    requires Inv(w) && w.sender.app.Running?
    ensures Inv(SendStart(w))
  {
    InFlightAppend(w.loop, [SetResponseStarted]);
    PushMembers(w.loop, SetResponseStarted);
  }

  lemma SendChunkKeepsInv(w: World, body: Bytes)
    requires Inv(w) && w.sender.app.Running? && !w.sender.complete
    ensures Inv(SendChunk(w, body))
  {
    InFlightAppend(w.loop, [PutChunk(body)]);
    PushMembers(w.loop, PutChunk(body));
  }

  lemma SendLastKeepsInv(w: World)
    requires Inv(w) && w.sender.app.Running? && !w.sender.complete
    ensures Inv(w.(sender := w.sender.(complete := true, bodyDone := true), loop := w.loop + [CloseStream]))
  {
    InFlightAppend(w.loop, [CloseStream]);
    PushMembers(w.loop, CloseStream);
  }

  lemma AppExitsKeepsInv(w: World, o: Outcome)
    requires Inv(w) && w.sender.app.Running?
    ensures Inv(Apply(w, AppExits(o)))
  {
    InFlightAppend(w.loop, [SetOutcome(o)]);
    PushMembers(w.loop, SetOutcome(o));
  }

  // ---------------------------------------------------------------- the loop's callbacks

  lemma StartedKeepsInv(w: World)
    requires Inv(w) && Enabled(w, LoopRuns) && w.loop[0].SetResponseStarted?
    ensures Inv(RunCallback(w))
  {
    PopMembers(w.loop);
    PopOrder(w.loop);
  }

  lemma PutChunkKeepsInv(w: World, body: Bytes)
    requires Inv(w) && Enabled(w, LoopRuns) && w.loop[0] == PutChunk(body)
    ensures Inv(RunCallback(w))
  {
    PopMembers(w.loop);
    PopOrder(w.loop);
    var b' := w.body.(items := w.body.items + [Chunk(body)]);
    assert Queued(b') == Queued(w.body) + [Chunk(body)];
    ChunksAppend(Queued(w.body), [Chunk(body)]);
    EndsAppend(Queued(w.body), [Chunk(body)]);
    assert Chunks([Chunk(body)]) == [body] && Ends([Chunk(body)]) == 0;
    assert BodyOk(b', w.loop[1..], w.sender.sent);
  }

  lemma CloseKeepsInv(w: World)
    requires Inv(w) && Enabled(w, LoopRuns) && w.loop[0].CloseStream?
    ensures Inv(RunCallback(w))
  {
    PopMembers(w.loop);
    PopOrder(w.loop);
    CloseBodyOk(w.body, w.loop[1..], w.sender.sent);
  }

  lemma SetOutcomeKeepsInv(w: World)
    requires Inv(w) && Enabled(w, LoopRuns) && w.loop[0].SetOutcome?
    ensures Inv(RunCallback(w))
  {
    SetOutcomeKeepsLoop(w.loop, w.sender, w.futures);
    SetOutcomeKeepsBody(w);
  }

  lemma SetOutcomeKeepsLoop(q: seq<Callback>, s: Sender, f: Futures)
    requires LoopOk(q, s, f) && FuturesOk(s, f) && q != [] && q[0].SetOutcome?
    ensures f.app.Some? ==> LoopOk(q[1..], s, f)
    ensures f.app.None? ==> LoopOk(q[1..] + [FinishApp], s, f.(app := Some(q[0].outcome)))
  {
    PopMembers(q);
    PopOrder(q);
    PushMembers(q[1..], FinishApp);
    assert OrderOk(q[1..]);
    if f.app.None? {
      assert OrderOk(q[1..] + [FinishApp]);
    }
  }

  lemma SetOutcomeKeepsBody(w: World)
    requires Inv(w) && Enabled(w, LoopRuns) && w.loop[0].SetOutcome?
    ensures var w' := RunCallback(w);
            BodyOk(w'.body, w'.loop, w'.sender.sent) && ClosedOk(w'.body, w'.loop, w'.sender, w'.client)
  {
    PopMembers(w.loop);
    PushMembers(w.loop[1..], FinishApp);
    InFlightAppend(w.loop[1..], [FinishApp]);
  }

  lemma FinishKeepsInv(w: World)
    requires Inv(w) && Enabled(w, LoopRuns) && w.loop[0].FinishApp?
    ensures Inv(RunCallback(w))
  {
    FinishKeepsBody(w);
    FinishKeepsLoop(w);
    FinishIsExpected(w);
    FinishKeepsClient(w);
  }

  lemma FinishKeepsClient(w: World)
    requires Inv(w) && Enabled(w, LoopRuns) && w.loop[0].FinishApp?
    ensures ClientOk(RunCallback(w))
  {
    assert FinishApp in w.loop;
  }

  lemma FinishKeepsBody(w: World)
    requires Inv(w) && Enabled(w, LoopRuns) && w.loop[0].FinishApp?
    ensures var w' := RunCallback(w);
            BodyOk(w'.body, w'.loop, w'.sender.sent) && ClosedOk(w'.body, w'.loop, w'.sender, w'.client)
  {
    PopMembers(w.loop);
    CloseBodyOk(w.body, w.loop[1..], w.sender.sent);
    if !w.futures.cancelledByReader {
      assert SetOutcome(w.sender.app.outcome) !in w.loop;
      assert NoSends(w.loop);
    }
  }

  lemma FinishKeepsLoop(w: World)
    requires Inv(w) && Enabled(w, LoopRuns) && w.loop[0].FinishApp?
    ensures LoopOk(RunCallback(w).loop, RunCallback(w).sender, RunCallback(w).futures)
  {
    PopMembers(w.loop);
    PopOrder(w.loop);
  }

  /** Before `finish_app` runs on its own account, response.start has been processed if it was sent. */
  lemma FinishIsExpected(w: World)
    requires Inv(w) && Enabled(w, LoopRuns) && w.loop[0].FinishApp?
    ensures FuturesOk(w.sender, RunCallback(w).futures)
    ensures OutcomeOk(w.cfg.raises, w.sender, RunCallback(w).futures)
  {
    assert FinishApp in w.loop;
    if !w.futures.cancelledByReader {
      assert SetOutcome(w.sender.app.outcome) !in w.loop;
      assert NoSends(w.loop);
      assert SetResponseStarted !in w.loop;
    }
    FinishFuturesOk(w.cfg.raises, w.sender, w.futures);
  }

  lemma FinishFuturesOk(raises: bool, s: Sender, f: Futures)
    requires FuturesOk(s, f) && f.app.Some? && !f.finished
    requires !f.cancelledByReader && s.started ==> !f.started.Pending?
    ensures var f' := FinishFutures(f, raises, s.complete, f.app.value);
            FuturesOk(s, f') && OutcomeOk(raises, s, f')
  {
  }

  // ---------------------------------------------------------------- awaiter and reader

  lemma AwaiterKeepsInv(w: World)
    requires Inv(w) && Enabled(w, AwaiterWakes)
    ensures Inv(AwaiterResumes(w))
  {
  }

  lemma CallerKeepsInv(w: World)
    requires Inv(w) && Enabled(w, CallerCancels)
    ensures Inv(Apply(w, CallerCancels))
  {
  }

  lemma ReaderGetsKeepsInv(w: World)
    requires Inv(w) && Enabled(w, ReaderGets)
    ensures Inv(ReaderTakes(w))
  {
    assert Queued(ReaderTakes(w).body) == Queued(w.body);
    EndsAppend(w.body.consumed, [w.body.items[0]]);
    assert Ends([w.body.items[0]]) == if w.body.items[0].StreamEnd? then 1 else 0;
  }

  /** The reader leaves for good: after the end, with the verdict of app_complete, or early. */
  lemma AcloseKeepsInv(w: World, reader: Reader)
    requires Inv(w) && w.client.awaiter.Responded? && !w.client.closed
    requires reader.ReaderClosed?
             || (reader == ReaderDone(w.futures.complete) && w.client.reader.AwaitingComplete? && w.futures.finished)
    ensures Inv(Aclose(w, reader))
  {
    CloseBodyOk(w.body, w.loop, w.sender.sent);
    InFlightAppend(w.loop, [FinishApp]);
    CancelKeepsLoop(w.loop, w.sender, w.futures);
  }

  lemma CancelKeepsLoop(q: seq<Callback>, s: Sender, f: Futures)
    requires LoopOk(q, s, f) && FuturesOk(s, f)
    ensures f.app.None? ==>
              LoopOk(q + [FinishApp], s, f.(app := Some(WasCancelled), cancelledByReader := true))
    ensures NoChunks(q) ==> NoChunks(q + [FinishApp])
  {
    PushMembers(q, FinishApp);
    if f.app.None? {
      assert FinishApp !in q;
      assert OrderOk(q + [FinishApp]);
    }
  }

  lemma ApplyKeepsInv(w: World, a: Action)
    requires Inv(w) && Enabled(w, a)
    ensures Inv(Apply(w, a)) && Apply(w, a).cfg == w.cfg
  {
    match a
    case AppStarts => AppStartsKeepsInv(w);
    case AppSends(body, more) =>
      if !w.sender.complete {
        SendChunkKeepsInv(w, body);
        if !more { SendLastKeepsInv(SendChunk(w, body)); }
      }
    case AppExits(o) => AppExitsKeepsInv(w, o);
    case LoopRuns =>
      if w.loop[0].SetResponseStarted? { StartedKeepsInv(w); }
      else if w.loop[0].PutChunk? { PutChunkKeepsInv(w, w.loop[0].body); }
      else if w.loop[0].CloseStream? { CloseKeepsInv(w); }
      else if w.loop[0].SetOutcome? { SetOutcomeKeepsInv(w); }
      else { FinishKeepsInv(w); }
    case AwaiterWakes => AwaiterKeepsInv(w);
    case CallerCancels => CallerKeepsInv(w);
    case ReaderGets => ReaderGetsKeepsInv(w);
    case ReaderEnds => AcloseKeepsInv(w, ReaderDone(w.futures.complete));
    case ReaderCloses => AcloseKeepsInv(w, ReaderClosed);
  }

  lemma {:induction false} ReachableInv(cfg: Config, acts: seq<Action>)
    requires Execute(cfg, acts).Some?
    ensures Inv(Execute(cfg, acts).value) && Execute(cfg, acts).value.cfg == cfg
  {
    if acts != [] {
      ReachableInv(cfg, acts[..|acts| - 1]);
      ApplyKeepsInv(Execute(cfg, acts[..|acts| - 1]).value, acts[|acts| - 1]);
    }
  }

  ghost predicate History(cfg: Config, acts: seq<Action>)
  {
    Execute(cfg, acts).Some?
  }

  // ---------------------------------------------------------------- what the application did, from the actions alone

  /** The application has sent its last body message. */
  predicate SentLast(acts: seq<Action>)
  {
    exists i | 0 <= i < |acts| :: acts[i].AppSends? && !acts[i].more
  }

  /** The bodies to deliver: the non-empty ones up to the last message, and none for HEAD. */
  function BodiesSent(head: bool, acts: seq<Action>): seq<Bytes>
  {
    if acts == [] then []
    else
      var before, a := acts[..|acts| - 1], acts[|acts| - 1];
      BodiesSent(head, before) +
      (if a.AppSends? && a.body != [] && !head && !SentLast(before) then [a.body] else [])
  }

  /** Sent bodies and completion are what the application's body messages say. */
  predicate BodiesTell(s: Sender, head: bool, acts: seq<Action>)
  {
    && s.sent == BodiesSent(head, acts)
    && (s.bodyDone <==> SentLast(acts))
    && (s.app.Running? ==> s.complete == s.bodyDone)
  }

  /** Start and end of the application are what it did. */
  ghost predicate RunTells(w: World, acts: seq<Action>)
  {
    && (w.sender.started <==> AppStarts in acts)
    && (forall o :: w.sender.app == Exited(o) <==> AppExits(o) in acts)
  }

  /** Only an application that has exited leaves the awaiter an error to complete the response for. */
  lemma AwaiterFindsExit(w: World)
    requires Inv(w) && Enabled(w, AwaiterWakes) && w.futures.started.HasException?
    ensures w.sender.app.Exited?
  {
  }

  /** What a step does to sent bodies and completion. */
  predicate SenderStep(s: Sender, s': Sender, head: bool, a: Action)
  {
    && s'.sent == s.sent + (if a.AppSends? && a.body != [] && !head && !s.complete then [a.body] else [])
    && (s'.bodyDone <==> s.bodyDone || (a.AppSends? && !a.more && !s.complete))
    && (s'.app.Running? ==> s.app.Running? && (s'.complete <==> s.complete || (a.AppSends? && !a.more)))
    && (a.AppSends? ==> s.app.Running?)
  }

  lemma ApplySends(w: World, a: Action)
    requires Inv(w) && Enabled(w, a)
    ensures SenderStep(w.sender, Apply(w, a).sender, w.cfg.head, a)
  {
    if a.AwaiterWakes? && w.futures.started.HasException? { AwaiterFindsExit(w); }
  }

  lemma BodiesNext(s: Sender, s': Sender, head: bool, before: seq<Action>, a: Action)
    requires BodiesTell(s, head, before) && SenderStep(s, s', head, a)
    ensures BodiesTell(s', head, before + [a])
  {
    var acts := before + [a];
    assert acts[..|acts| - 1] == before && acts[|acts| - 1] == a;
    LastSent(before, a);
  }

  lemma RunStep(w: World, before: seq<Action>, a: Action)
    requires Enabled(w, a) && RunTells(w, before)
    ensures RunTells(Apply(w, a), before + [a])
  {
    assert forall x :: x in before + [a] <==> x in before || x == a;
  }

  lemma {:induction false} CallerTells(cfg: Config, acts: seq<Action>)
    requires History(cfg, acts)
    ensures Execute(cfg, acts).value.futures.cancelledByCaller <==> CallerCancels in acts
  {
    if acts != [] {
      var before, a := acts[..|acts| - 1], acts[|acts| - 1];
      CallerTells(cfg, before);
      CallerStep(Execute(cfg, before).value, a);
      assert before + [a] == acts;
      assert forall x :: x in before + [a] <==> x in before || x == a;
    }
  }

  lemma CallerStep(w: World, a: Action)
    requires Enabled(w, a)
    ensures Apply(w, a).futures.cancelledByCaller <==> w.futures.cancelledByCaller || a == CallerCancels
  {
  }

  lemma LastSent(before: seq<Action>, a: Action)
    ensures SentLast(before + [a]) <==> SentLast(before) || (a.AppSends? && !a.more)
  {
    var acts := before + [a];
    if SentLast(before) {
      var i :| 0 <= i < |before| && before[i].AppSends? && !before[i].more;
      assert acts[i] == before[i];
    }
    if a.AppSends? && !a.more { assert acts[|before|] == a; }
  }

  lemma {:induction false} ReachableTells(cfg: Config, acts: seq<Action>)
    requires History(cfg, acts)
    ensures Execute(cfg, acts).value.cfg == cfg
    ensures BodiesTell(Execute(cfg, acts).value.sender, cfg.head, acts) && RunTells(Execute(cfg, acts).value, acts)
  {
    ReachableInv(cfg, acts);
    if acts != [] {
      var before, a := acts[..|acts| - 1], acts[|acts| - 1];
      ReachableTells(cfg, before);
      ReachableInv(cfg, before);
      ApplySends(Execute(cfg, before).value, a);
      BodiesNext(Execute(cfg, before).value.sender, Execute(cfg, acts).value.sender, cfg.head, before, a);
      RunStep(Execute(cfg, before).value, before, a);
      assert before + [a] == acts;
    }
  }

  // ---------------------------------------------------------------- what awaiter and reader did, from the actions alone

  function GetsIn(acts: seq<Action>): nat
  {
    if acts == [] then 0 else GetsIn(acts[..|acts| - 1]) + (if acts[|acts| - 1].ReaderGets? then 1 else 0)
  }

  /** What the reader took is counted by its gets, and ends with the marker exactly when it stopped taking. */
  predicate GetsTell(consumed: seq<Item>, r: Reader, acts: seq<Action>)
  {
    && |consumed| == GetsIn(acts)
    && (r.AwaitingComplete? ==> consumed != [] && consumed[|consumed| - 1].StreamEnd?)
  }

  /** How awaiter and reader ended. */
  predicate EndsTell(w: World, acts: seq<Action>)
  {
    && (w.client.awaiter.AwaitingStart? <==> AwaiterWakes !in acts && CallerCancels !in acts)
    && (w.client.reader.ReaderDone? <==> ReaderEnds in acts)
    && (w.client.reader.ReaderClosed? <==> ReaderCloses in acts)
  }

  lemma ApplyGets(w: World, a: Action)
    requires Enabled(w, a)
    ensures var w' := Apply(w, a);
            && |w'.body.consumed| == |w.body.consumed| + (if a.ReaderGets? then 1 else 0)
            && (w'.client.reader.AwaitingComplete? ==>
                  if a.ReaderGets? then w'.body.consumed[|w.body.consumed|].StreamEnd?
                  else w.client.reader.AwaitingComplete? && w'.body.consumed == w.body.consumed)
  {
  }

  lemma EndsStep(w: World, before: seq<Action>, a: Action)
    requires Inv(w) && Enabled(w, a) && EndsTell(w, before)
    ensures EndsTell(Apply(w, a), before + [a])
  {
    assert forall x :: x in before + [a] <==> x in before || x == a;
  }

  lemma {:induction false} ReachableClient(cfg: Config, acts: seq<Action>)
    requires History(cfg, acts)
    ensures GetsTell(Execute(cfg, acts).value.body.consumed, Execute(cfg, acts).value.client.reader, acts)
    ensures EndsTell(Execute(cfg, acts).value, acts)
  {
    if acts != [] {
      var before, a := acts[..|acts| - 1], acts[|acts| - 1];
      ReachableClient(cfg, before);
      ReachableInv(cfg, before);
      ApplyGets(Execute(cfg, before).value, a);
      EndsStep(Execute(cfg, before).value, before, a);
      assert before + [a] == acts;
    }
  }

  /** Each get gives the reader one more item, and it stops at the end marker. */
  lemma EachGetTakesOne(cfg: Config, acts: seq<Action>)
    requires History(cfg, acts)
    ensures var w := Execute(cfg, acts).value;
            && |w.body.consumed| == GetsIn(acts)
            && (w.client.reader.AwaitingComplete? ==> w.body.consumed != [] && w.body.consumed[|w.body.consumed| - 1].StreamEnd?)
            && (w.client.reader.Reading? ==> forall i | 0 <= i < |w.body.consumed| :: w.body.consumed[i].Chunk?)
  {
    ReachableInv(cfg, acts);
    ReachableClient(cfg, acts);
    var w := Execute(cfg, acts).value;
    if w.client.reader.Reading? { NoEnds(w.body.consumed); }
  }

  lemma {:induction false} NoEnds(items: seq<Item>)
    requires Ends(items) == 0
    ensures forall i | 0 <= i < |items| :: items[i].Chunk?
  {
    if items != [] { NoEnds(items[1..]); }
  }

  // ---------------------------------------------------------------- what it means for the parties

  /** Once `finish_app` has run, the end marker has been queued exactly once and both futures are resolved. */
  lemma FinishResolvesEverything(cfg: Config, acts: seq<Action>)
    requires History(cfg, acts) && Execute(cfg, acts).value.futures.finished
    ensures var w := Execute(cfg, acts).value;
            && Ends(Queued(w.body)) == 1
            && !w.futures.started.Pending? && !w.futures.complete.Pending?
  {
    ReachableInv(cfg, acts);
  }

  lemma StepSettlesOnce(w: World, a: Action)
    requires Inv(w) && Enabled(w, a)
    ensures var f, f' := w.futures, Apply(w, a).futures;
            && (!f.started.Pending? ==> f'.started == f.started)
            && (!f.complete.Pending? ==> f'.complete == f.complete)
            && (f.app.Some? ==> f'.app == f.app)
  {
    if a.LoopRuns? && w.loop[0].FinishApp? { assert FinishApp in w.loop; }
  }

  /** A future that has been set keeps its result, error or cancellation, whatever happens later. */
  lemma {:induction false} FuturesSettleOnce(cfg: Config, acts: seq<Action>, more: seq<Action>)
    requires History(cfg, acts) && History(cfg, acts + more)
    ensures var f, f' := Execute(cfg, acts).value.futures, Execute(cfg, acts + more).value.futures;
            && (!f.started.Pending? ==> f'.started == f.started)
            && (!f.complete.Pending? ==> f'.complete == f.complete)
            && (f.app.Some? ==> f'.app == f.app)
    decreases |more|
  {
    if more == [] {
      assert acts + more == acts;
    } else {
      var rest, a := more[..|more| - 1], more[|more| - 1];
      assert (acts + more)[..|acts + more| - 1] == acts + rest && (acts + more)[|acts + more| - 1] == a;
      FuturesSettleOnce(cfg, acts, rest);
      ReachableInv(cfg, acts + rest);
      StepSettlesOnce(Execute(cfg, acts + rest).value, a);
    }
  }

  /** The end marker is never queued twice, whatever runs. */
  lemma EndMarkerAtMostOnce(cfg: Config, acts: seq<Action>)
    requires History(cfg, acts)
    ensures var w := Execute(cfg, acts).value;
            Ends(Queued(w.body)) == (if w.body.closed then 1 else 0)
  {
    ReachableInv(cfg, acts);
  }

  /** An application that has ended, or was cancelled, always has `finish_app` ahead of it or behind it. */
  lemma FinishWillRun(cfg: Config, acts: seq<Action>)
    requires History(cfg, acts)
    requires var w := Execute(cfg, acts).value; w.sender.app.Exited? || w.client.closed
    ensures var w := Execute(cfg, acts).value;
            w.futures.finished || FinishApp in w.loop || (exists o :: SetOutcome(o) in w.loop && w.futures.app.None?)
    ensures var w := Execute(cfg, acts).value;
            w.loop != [] ==> Enabled(w, LoopRuns)
  {
    ReachableInv(cfg, acts);
    var w := Execute(cfg, acts).value;
    if w.loop != [] { assert w.loop[0] in w.loop; }
    if w.futures.app.None? { assert SetOutcome(w.sender.app.outcome) in w.loop; }
  }

  /** The application exited, or the client closed the response. */
  predicate Ending(w: World)
  {
    w.sender.app.Exited? || w.client.closed
  }

  /** The callback runs still needed until `finish_app` has run. */
  function Ahead(w: World): nat
  {
    if w.futures.finished then 0
    else if FinishApp in w.loop then Before(w.loop) + 1
    else |w.loop| + 1
  }

  /** The callbacks before the first `finish_app`. */
  function Before(q: seq<Callback>): nat
  {
    if q == [] || q[0].FinishApp? then 0 else 1 + Before(q[1..])
  }

  lemma {:induction false} BeforeAppend(q: seq<Callback>, more: seq<Callback>)
    ensures Before(q) <= |q|
    ensures FinishApp in q ==> Before(q) < |q| && Before(q + more) == Before(q)
    ensures FinishApp !in q ==> Before(q) == |q| && Before(q + more) == |q| + Before(more)
  {
    if q == [] {
      assert q + more == more;
    } else {
      assert (q + more)[1..] == q[1..] + more;
      PopMembers(q);
      if !q[0].FinishApp? { BeforeAppend(q[1..], more); }
    }
  }

  /** While the end is under way, `finish_app` is in the queue or follows the outcome that is. */
  lemma EndingLoop(w: World)
    requires Inv(w) && Ending(w) && !w.futures.finished
    ensures w.loop != [] && (w.loop[0].FinishApp? ==> w.futures.app.Some?)
    ensures FinishApp !in w.loop ==> w.sender.app.Exited? && w.futures.app.None? && SetOutcome(w.sender.app.outcome) in w.loop
  {
    if w.loop != [] { assert w.loop[0] in w.loop; }
  }

  /** A step of somebody else leaves the way to `finish_app` as long as it is, or shorter. */
  lemma OthersDoNotDelay(w: World, a: Action)
    requires Inv(w) && Ending(w) && Enabled(w, a) && !a.LoopRuns?
    ensures Ending(Apply(w, a)) && Ahead(Apply(w, a)) <= Ahead(w)
    ensures w.futures.finished ==> Apply(w, a).futures.finished
  {
    var w' := Apply(w, a);
    if !w.futures.finished {
      EndingLoop(w);
      BeforeAppend(w.loop, w'.loop[|w.loop|..]);
      assert w'.loop == w.loop + w'.loop[|w.loop|..];
      BeforeAppend(w'.loop[|w.loop|..], []);
    }
  }

  /** Each callback run is one step on that way. */
  lemma LoopRunAdvances(w: World)
    requires Inv(w) && Ending(w) && Enabled(w, LoopRuns)
    ensures Ending(Apply(w, LoopRuns)) && (Ahead(w) > 0 ==> Ahead(Apply(w, LoopRuns)) < Ahead(w))
    ensures w.futures.finished ==> Apply(w, LoopRuns).futures.finished
  {
    if !w.futures.finished {
      EndingLoop(w);
      PopMembers(w.loop);
      BeforeAppend(w.loop, []);
      BeforeAppend(w.loop[1..], [FinishApp]);
    }
  }

  function LoopRunsIn(acts: seq<Action>): nat
  {
    if acts == [] then 0 else LoopRunsIn(acts[..|acts| - 1]) + (if acts[|acts| - 1].LoopRuns? then 1 else 0)
  }

  lemma {:induction false} WayShrinks(cfg: Config, acts: seq<Action>, more: seq<Action>)
    requires History(cfg, acts + more) && History(cfg, acts) && Ending(Execute(cfg, acts).value)
    ensures var w, w' := Execute(cfg, acts).value, Execute(cfg, acts + more).value;
            Ending(w') && (w'.futures.finished || Ahead(w') + LoopRunsIn(more) <= Ahead(w))
    decreases |more|
  {
    if more == [] {
      assert acts + more == acts;
    } else {
      var rest, a := more[..|more| - 1], more[|more| - 1];
      assert (acts + more)[..|acts + more| - 1] == acts + rest && (acts + more)[|acts + more| - 1] == a;
      WayShrinks(cfg, acts, rest);
      ReachableInv(cfg, acts + rest);
      var w := Execute(cfg, acts + rest).value;
      if a.LoopRuns? { LoopRunAdvances(w); } else { OthersDoNotDelay(w, a); }
    }
  }

  /**
    Once the application exited or the response was closed, any continuation with enough
    callback runs reaches `finish_app`, whatever other steps interleave; one more than the
    callbacks queued is always enough.
   */
  lemma FinishIsReached(cfg: Config, acts: seq<Action>, more: seq<Action>)
    requires History(cfg, acts + more) && History(cfg, acts) && Ending(Execute(cfg, acts).value)
    ensures Ahead(Execute(cfg, acts).value) <= |Execute(cfg, acts).value.loop| + 1
    ensures LoopRunsIn(more) >= Ahead(Execute(cfg, acts).value) ==> Execute(cfg, acts + more).value.futures.finished
  {
    WayShrinks(cfg, acts, more);
    BeforeAppend(Execute(cfg, acts).value.loop, []);
  }

  /** Until then a callback run is always possible. */
  lemma LoopCanRun(cfg: Config, acts: seq<Action>)
    requires History(cfg, acts) && Ending(Execute(cfg, acts).value) && !Execute(cfg, acts).value.futures.finished
    ensures Enabled(Execute(cfg, acts).value, LoopRuns)
  {
    ReachableInv(cfg, acts);
    EndingLoop(Execute(cfg, acts).value);
  }

  /** Nobody waits forever: after `finish_app`, whoever still waits can take its next step. */
  lemma NobodyWaitsForever(cfg: Config, acts: seq<Action>)
    requires History(cfg, acts) && Execute(cfg, acts).value.futures.finished
    ensures var w := Execute(cfg, acts).value;
            && (w.client.awaiter.AwaitingStart? ==> Enabled(w, AwaiterWakes))
            && (w.client.awaiter.Responded? && w.client.reader.Reading? ==> Enabled(w, ReaderGets))
            && (w.client.awaiter.Responded? && w.client.reader.AwaitingComplete? ==> Enabled(w, ReaderEnds))
  {
    ReachableInv(cfg, acts);
    var w := Execute(cfg, acts).value;
    EndsAppend(w.body.consumed, w.body.items);
  }

  /** The reader never sees a chunk out of order, and never one that was not sent. */
  lemma {:induction false} ChunksArePrefix(b: Body, loop: seq<Callback>, sent: seq<Bytes>)
    requires BodyOk(b, loop, sent)
    ensures Chunks(b.consumed) <= sent
  {
    ChunksAppend(b.consumed, b.items);
  }

  /** In every state the reader has a prefix of the bodies that the application sent. */
  lemma ReadChunksInOrder(cfg: Config, acts: seq<Action>)
    requires History(cfg, acts)
    ensures Chunks(Execute(cfg, acts).value.body.consumed) <= BodiesSent(cfg.head, acts)
  {
    ReachableInv(cfg, acts);
    ReachableTells(cfg, acts);
    var w := Execute(cfg, acts).value;
    ChunksArePrefix(w.body, w.loop, w.sender.sent);
  }

  lemma EndCounted(items: seq<Item>)
    requires items != [] && items[|items| - 1].StreamEnd?
    ensures Ends(items) >= 1
  {
    EndsAppend(items[..|items| - 1], [StreamEnd]);
    assert items == items[..|items| - 1] + [StreamEnd];
  }

  lemma LastEndIsAll(a: seq<Item>, b: seq<Item>)
    requires Ends(a) == 1 && Ends(a + b) == 1
    requires a + b != [] && (a + b)[|a + b| - 1].StreamEnd?
    ensures b == []
  {
    EndsAppend(a, b);
    if b != [] {
      EndCounted(b);
    }
  }

  /** Only a reader that was closed from outside can have left before the end. */
  lemma EarlyStep(w: World, a: Action)
    requires Inv(w) && Enabled(w, a) && (w.client.closedEarly ==> w.client.reader.ReaderClosed?)
    ensures Apply(w, a).client.closedEarly ==> Apply(w, a).client.reader.ReaderClosed?
  {
    if a.ReaderEnds? { EndsAppend(w.body.consumed, w.body.items); }
  }

  lemma {:induction false} EarlyMeansClosed(cfg: Config, acts: seq<Action>)
    requires History(cfg, acts)
    ensures Execute(cfg, acts).value.client.closedEarly ==> Execute(cfg, acts).value.client.reader.ReaderClosed?
  {
    if acts != [] {
      var before := acts[..|acts| - 1];
      EarlyMeansClosed(cfg, before);
      ReachableInv(cfg, before);
      EarlyStep(Execute(cfg, before).value, acts[|acts| - 1]);
    }
  }

  /** A reader that got the end marker has every chunk the application ever sent, in order. */
  lemma EndMeansEverything(cfg: Config, acts: seq<Action>)
    requires History(cfg, acts)
    requires var r := Execute(cfg, acts).value.client.reader; r.AwaitingComplete? || r.ReaderDone?
    ensures var w := Execute(cfg, acts).value;
            && Chunks(w.body.consumed) == BodiesSent(cfg.head, acts)
            && (SentLast(acts) || exists o :: AppExits(o) in acts)
  {
    ReachableInv(cfg, acts);
    ReachableTells(cfg, acts);
    EarlyMeansClosed(cfg, acts);
    var w := Execute(cfg, acts).value;
    EndsAppend(w.body.consumed, w.body.items);
    LastEndIsAll(w.body.consumed, w.body.items);
    assert Queued(w.body) == w.body.consumed;
    forall i | 0 <= i < |w.loop| ensures !w.loop[i].PutChunk? { assert w.loop[i] in w.loop; }
    NothingInFlight(w.loop);
    if w.sender.app.Exited? { assert AppExits(w.sender.app.outcome) in acts; }
  }

  /**
    Where the application's end surfaces.  Unless somebody cancelled, an error before
    response.start reaches the awaiter exactly when `raise_app_exceptions` is set, an
    application error after it reaches the reader exactly when the flag is set, and a
    response left incomplete or a cancellation reaches them whatever the flag says.
   */
  lemma OutcomeSurfaces(cfg: Config, acts: seq<Action>) returns (o: Outcome)
    requires History(cfg, acts)
    requires var w := Execute(cfg, acts).value;
             w.futures.finished && !w.futures.cancelledByReader && CallerCancels !in acts
    ensures AppExits(o) in acts
    ensures var w := Execute(cfg, acts).value;
            var start := ExpectedStart(o, AppStarts in acts);
            var end := ExpectedEnd(o, AppStarts in acts, SentLast(acts), cfg.raises);
            && (AwaiterWakes in acts ==>
                  w.client.awaiter == match start
                                      case HasException(e) => if cfg.raises then AwaiterRaised(e) else Responded
                                      case IsCancelled => AwaiterCancelled
                                      case _ => Responded)
            && (AwaiterWakes !in acts ==> w.client.awaiter == AwaitingStart)
            && (ReaderEnds in acts ==> w.client.reader == ReaderDone(end))
  {
    ReachableInv(cfg, acts);
    ReachableTells(cfg, acts);
    CallerTells(cfg, acts);
    ReachableClient(cfg, acts);
    o := Execute(cfg, acts).value.sender.app.outcome;
  }
}
