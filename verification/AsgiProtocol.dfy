/**
  `ASGITransport.handle_async_request` of src/langgraph_api/asgi_transport.py as a state
  machine.  The application may live on another event loop; what reaches the current loop
  goes through `loop`, the FIFO of its callbacks.  Between any two actions the other
  parties (application, loop, awaiter, reader) may act.
 */
module AsgiProtocol {
  import opened Wrappers

  type Bytes = seq<bv8>

  datatype Error = AppError(id: nat) | ResponseNotComplete

  /** An asyncio future without a payload. */
  datatype Future = Pending | HasResult | HasException(error: Error) | IsCancelled

  /** How the application coroutine ended. */
  datatype Outcome = Returned | Raised(error: Error) | WasCancelled

  datatype Item = Chunk(body: Bytes) | StreamEnd

  datatype Callback =
    | SetResponseStarted
    | PutChunk(body: Bytes)
    | CloseStream
    | SetOutcome(outcome: Outcome)   // the chained future copies the application's outcome
    | FinishApp

  datatype App = Running | Exited(outcome: Outcome)

  datatype Awaiter = AwaitingStart | Responded | AwaiterRaised(error: Error) | AwaiterCancelled

  datatype Reader = Reading | AwaitingComplete | ReaderDone(last: Future) | ReaderClosed

  datatype Config = Config(raises: bool, head: bool)  // raise_app_exceptions; method is HEAD

  /** The application and the flags its `send` calls set. */
  datatype Sender = Sender(
    app: App,
    started: bool,        // response_started
    complete: bool,       // response_complete
    bodyDone: bool,       // the application sent more_body=False
    sent: seq<Bytes>)     // bodies sent that are to be delivered

  datatype Futures = Futures(
    started: Future,          // response_started_event
    complete: Future,         // app_complete
    app: Option<Outcome>,     // app_future, None while pending
    finished: bool,           // finish_app has run
    cancelledByReader: bool,  // aclose() cancelled the application
    cancelledByCaller: bool)  // the coroutine awaiting the response was cancelled

  datatype Body = Body(
    items: seq<Item>,     // body_queue
    closed: bool,         // stream_closed
    consumed: seq<Item>)  // what the reader took from the queue

  datatype Client = Client(
    awaiter: Awaiter,
    reader: Reader,
    closed: bool,         // ASGIResponseStream._closed
    closedEarly: bool)    // aclose() ran before the end marker was queued

  datatype World = World(
    cfg: Config,
    sender: Sender,
    futures: Futures,
    loop: seq<Callback>,
    body: Body,
    client: Client)

  function Init(cfg: Config): World
  {
    World(cfg, Sender(Running, false, false, false, []), Futures(Pending, Pending, None, false, false, false),
          [], Body([], false, []), Client(AwaitingStart, Reading, false, false))
  }

  // ---------------------------------------------------------------- callbacks of the current loop

  /** Setting a future that may already be done: the first setting wins. */
  function Settle(f: Future, value: Future): Future
  {
    if f.Pending? then value else f
  }

  /** `close_stream`. */
  function CloseBody(b: Body): Body
  {
    if b.closed then b else b.(closed := true, items := b.items + [StreamEnd])
  }

  /** What `finish_app` does to the futures, on the outcome of `app_future`. */
  function FinishFutures(f: Futures, raises: bool, complete: bool, outcome: Outcome): Futures
  {
    var wasStarted := f.started.HasResult?;  // response_was_started()
    match outcome
    case WasCancelled =>
      if wasStarted then f.(finished := true, complete := Settle(f.complete, IsCancelled))
      else f.(finished := true, started := Settle(f.started, IsCancelled), complete := Settle(f.complete, HasResult))
    case Raised(e) =>
      if wasStarted then
        f.(finished := true, complete := Settle(f.complete, if raises then HasException(e) else HasResult))
      else
        f.(finished := true, started := Settle(f.started, HasException(e)), complete := Settle(f.complete, HasResult))
    case Returned =>
      if f.started.Pending? then
        f.(finished := true, started := HasException(ResponseNotComplete), complete := Settle(f.complete, HasResult))
      else if !complete then
        f.(finished := true, complete := Settle(f.complete, HasException(ResponseNotComplete)))
      else
        f.(finished := true, complete := Settle(f.complete, HasResult))
  }

  function RunCallback(w: World): World
    requires w.loop != [] && (w.loop[0].FinishApp? ==> w.futures.app.Some?)
  {
    var rest := w.loop[1..];
    match w.loop[0]
    case SetResponseStarted =>
      w.(loop := rest, futures := w.futures.(started := Settle(w.futures.started, HasResult)))
    case PutChunk(body) =>
      w.(loop := rest, body := w.body.(items := w.body.items + [Chunk(body)]))
    case CloseStream =>
      w.(loop := rest, body := CloseBody(w.body))
    case SetOutcome(outcome) =>
      if w.futures.app.Some? then w.(loop := rest)
      else w.(loop := rest + [FinishApp], futures := w.futures.(app := Some(outcome)))
    case FinishApp =>
      w.(loop := rest, body := CloseBody(w.body),
         futures := FinishFutures(w.futures, w.cfg.raises, w.sender.complete, w.futures.app.value))
  }

  // ---------------------------------------------------------------- the other parties

  /** `send` of http.response.start; a second one raises in the application and changes nothing. */
  function SendStart(w: World): World
  {
    if w.sender.started then w
    else w.(sender := w.sender.(started := true), loop := w.loop + [SetResponseStarted])
  }

  /** The part of a body message that hands its bytes to the loop. */
  function SendChunk(w: World, body: Bytes): World
  {
    if body == [] || w.cfg.head then w
    else w.(sender := w.sender.(sent := w.sender.sent + [body]), loop := w.loop + [PutChunk(body)])
  }

  /** `send` of http.response.body; after the response is complete it raises and changes nothing. */
  function SendBody(w: World, body: Bytes, more: bool): World
  {
    if w.sender.complete then w
    else
      var w1 := SendChunk(w, body);
      if more then w1
      else w1.(sender := w1.sender.(complete := true, bodyDone := true), loop := w1.loop + [CloseStream])
  }

  /** `handle_async_request` after `await response_started_event`. */
  function AwaiterResumes(w: World): World
    requires !w.futures.started.Pending?
  {
    match w.futures.started
    case HasResult => w.(client := w.client.(awaiter := Responded))
    case IsCancelled => w.(client := w.client.(awaiter := AwaiterCancelled))
    case HasException(e) =>
      if w.cfg.raises then w.(client := w.client.(awaiter := AwaiterRaised(e)))
      else
        w.(sender := w.sender.(complete := true),
           futures := w.futures.(complete := Settle(w.futures.complete, HasResult)),
           body := CloseBody(w.body),
           client := w.client.(awaiter := Responded))
  }

  /** `ASGIResponseStream.aclose`, leaving the reader in state `reader`. */
  function Aclose(w: World, reader: Reader): World
  {
    if w.client.closed then w.(client := w.client.(reader := reader))
    else
      var client := w.client.(reader := reader, closed := true, closedEarly := !w.body.closed);
      if w.futures.app.Some? then w.(client := client, body := CloseBody(w.body))
      else
        w.(client := client, body := CloseBody(w.body), loop := w.loop + [FinishApp],
           futures := w.futures.(app := Some(WasCancelled), cancelledByReader := true))
  }

  function ReaderTakes(w: World): World
    requires w.body.items != []
  {
    var item := w.body.items[0];
    w.(body := w.body.(consumed := w.body.consumed + [item], items := w.body.items[1..]),
       client := if item.StreamEnd? then w.client.(reader := AwaitingComplete) else w.client)
  }

  datatype Action =
    | AppStarts
    | AppSends(body: Bytes, more: bool)
    | AppExits(outcome: Outcome)
    | LoopRuns
    | AwaiterWakes
    | CallerCancels     // the coroutine awaiting response_started_event is cancelled
    | ReaderGets
    | ReaderEnds        // app_complete is awaited, the iterator ends or raises, aclose() runs
    | ReaderCloses      // aclose() from outside, or the iterator is abandoned

  predicate Enabled(w: World, a: Action)
  {
    var c := w.client;
    match a
    case AppStarts => w.sender.app.Running?
    case AppSends(_, _) => w.sender.app.Running?
    case AppExits(_) => w.sender.app.Running?
    case LoopRuns => w.loop != [] && (w.loop[0].FinishApp? ==> w.futures.app.Some?)
    case AwaiterWakes => c.awaiter.AwaitingStart? && !w.futures.started.Pending?
    case CallerCancels => c.awaiter.AwaitingStart?
    case ReaderGets => c.awaiter.Responded? && c.reader.Reading? && w.body.items != []
    case ReaderEnds => c.awaiter.Responded? && c.reader.AwaitingComplete? && !w.futures.complete.Pending?
    case ReaderCloses => c.awaiter.Responded? && (c.reader.Reading? || c.reader.AwaitingComplete?)
  }

  function Apply(w: World, a: Action): World
    requires Enabled(w, a)
  {
    match a
    case AppStarts => SendStart(w)
    case AppSends(body, more) => SendBody(w, body, more)
    case AppExits(o) => w.(sender := w.sender.(app := Exited(o)), loop := w.loop + [SetOutcome(o)])
    case LoopRuns => RunCallback(w)
    case AwaiterWakes => AwaiterResumes(w)
    case CallerCancels =>
      w.(client := w.client.(awaiter := AwaiterCancelled),
         futures := w.futures.(started := Settle(w.futures.started, IsCancelled), cancelledByCaller := true))
    case ReaderGets => ReaderTakes(w)
    case ReaderEnds => Aclose(w, ReaderDone(w.futures.complete))
    case ReaderCloses => Aclose(w, ReaderClosed)
  }

  function Execute(cfg: Config, acts: seq<Action>): Option<World>
  {
    if acts == [] then Some(Init(cfg))
    else
      match Execute(cfg, acts[..|acts| - 1])
      case None => None
      case Some(w) =>
        var a := acts[|acts| - 1];
        if Enabled(w, a) then Some(Apply(w, a)) else None
  }
}
