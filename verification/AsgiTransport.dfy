/**
  The closures and the response stream of `handle_async_request`
  (src/langgraph_api/asgi_transport.py) over their shared variables, updated in place.
  Each method is one callback or one segment between two awaits.
 */
module AsgiTransport {
  import opened Wrappers
  import opened AsgiProtocol

  class Exchange {
    const cfg: Config
    // nonlocal variables
    var responseStarted: bool
    var responseComplete: bool
    var streamClosed: bool
    var responseStartedEvent: Future
    var appComplete: Future
    var appFuture: Option<Outcome>
    var loop: seq<Callback>
    var bodyQueue: seq<Item>
    // the application, the awaiter and the response stream
    var app: App
    var awaiter: Awaiter
    var reader: Reader
    var closed: bool
    // history
    ghost var sent: seq<Bytes>
    ghost var bodyDone: bool
    ghost var consumed: seq<Item>
    ghost var finished: bool
    ghost var closedEarly: bool
    ghost var cancelledByReader: bool
    ghost var cancelledByCaller: bool

    ghost function View(): World
      reads this
    {
      World(cfg, Sender(app, responseStarted, responseComplete, bodyDone, sent),
            Futures(responseStartedEvent, appComplete, appFuture, finished, cancelledByReader, cancelledByCaller),
            loop, Body(bodyQueue, streamClosed, consumed), Client(awaiter, reader, closed, closedEarly))
    }

    constructor (cfg: Config)
      ensures View() == Init(cfg)
    {
      this.cfg := cfg;
      responseStarted, responseComplete, streamClosed := false, false, false;
      responseStartedEvent, appComplete, appFuture := Pending, Pending, None;
      loop, bodyQueue := [], [];
      app, awaiter, reader, closed := Running, AwaitingStart, Reading, false;
      sent, bodyDone, consumed, finished := [], false, [], false;
      closedEarly, cancelledByReader, cancelledByCaller := false, false, false;
    }

    /** `close_stream`. */
    method DoCloseStream()
      modifies this`streamClosed, this`bodyQueue
      ensures View() == old(View()).(body := CloseBody(old(View()).body))
    {
      if streamClosed { return; }
      streamClosed := true;
      bodyQueue := bodyQueue + [StreamEnd];
    }

    /** `send`, for http.response.start; `raised` reports the second one. */
    method Start() returns (raised: bool)
      modifies this
      ensures View() == SendStart(old(View()))
      ensures raised == old(responseStarted)
    {
      raised := responseStarted;
      if !raised {
        responseStarted := true;
        loop := loop + [SetResponseStarted];
      }
    }

    /** `send`, for http.response.body; `raised` reports a message after the last one. */
    method Send(body: Bytes, more: bool) returns (raised: bool)
      modifies this
      ensures View() == SendBody(old(View()), body, more)
      ensures raised == old(responseComplete)
    {
      raised := responseComplete;
      if raised { return; }
      if body != [] && !cfg.head {
        loop := loop + [PutChunk(body)];
        sent := sent + [body];
      }
      if !more {
        responseComplete := true;
        bodyDone := true;
        loop := loop + [CloseStream];
      }
    }

    method AppExit(outcome: Outcome)
      requires Enabled(View(), AppExits(outcome))
      modifies this
      ensures View() == Apply(old(View()), AppExits(outcome))
    {
      app := Exited(outcome);
      loop := loop + [SetOutcome(outcome)];
    }

    /** `response_was_started`. */
    predicate WasStarted()
      reads this
    {
      responseStartedEvent.HasResult?
    }

    /** `finish_app`. */
    method DoFinishApp()
      requires appFuture.Some?
      modifies this
      ensures View() == old(View()).(
                          futures := FinishFutures(old(View()).futures, cfg.raises, old(responseComplete), old(appFuture).value),
                          body := CloseBody(old(View()).body))
    {
      finished := true;
      match appFuture.value {
        case WasCancelled =>
          if WasStarted() {
            if appComplete.Pending? { appComplete := IsCancelled; }
          } else {
            if responseStartedEvent.Pending? { responseStartedEvent := IsCancelled; }
            if appComplete.Pending? { appComplete := HasResult; }
          }
        case Raised(e) =>
          if WasStarted() {
            if appComplete.Pending? {
              appComplete := if cfg.raises then HasException(e) else HasResult;
            }
          } else {
            if responseStartedEvent.Pending? { responseStartedEvent := HasException(e); }
            if appComplete.Pending? { appComplete := HasResult; }
          }
        case Returned =>
          if responseStartedEvent.Pending? {
            responseStartedEvent := HasException(ResponseNotComplete);
            if appComplete.Pending? { appComplete := HasResult; }
          } else if !responseComplete {
            if appComplete.Pending? { appComplete := HasException(ResponseNotComplete); }
          } else {
            if appComplete.Pending? { appComplete := HasResult; }
          }
      }
      DoCloseStream();
    }

    /** The current loop runs its next callback. */
    method RunNext()
      requires Enabled(View(), LoopRuns)
      modifies this
      ensures View() == Apply(old(View()), LoopRuns)
    {
      var callback := loop[0];
      loop := loop[1..];
      match callback {
        case SetResponseStarted =>
          if responseStartedEvent.Pending? { responseStartedEvent := HasResult; }
        case PutChunk(body) => bodyQueue := bodyQueue + [Chunk(body)];
        case CloseStream => DoCloseStream();
        case SetOutcome(outcome) =>
          if appFuture.None? {
            appFuture := Some(outcome);
            loop := loop + [FinishApp];
          }
        case FinishApp => DoFinishApp();
      }
    }

    /** `handle_async_request` resumes after `await response_started_event`. */
    method Resume()
      requires Enabled(View(), AwaiterWakes)
      modifies this
      ensures View() == Apply(old(View()), AwaiterWakes)
    {
      match responseStartedEvent {
        case HasResult => awaiter := Responded;
        case IsCancelled => awaiter := AwaiterCancelled;
        case HasException(e) =>
          if cfg.raises {
            awaiter := AwaiterRaised(e);
          } else {
            responseComplete := true;
            if appComplete.Pending? { appComplete := HasResult; }
            DoCloseStream();
            awaiter := Responded;
          }
      }
    }

    method CancelCaller()
      requires Enabled(View(), CallerCancels)
      modifies this
      ensures View() == Apply(old(View()), CallerCancels)
    {
      if responseStartedEvent.Pending? { responseStartedEvent := IsCancelled; }
      awaiter := AwaiterCancelled;
      cancelledByCaller := true;
    }

    /** One `body_queue.get()` of the response iterator. */
    method Get()
      requires Enabled(View(), ReaderGets)
      modifies this
      ensures View() == Apply(old(View()), ReaderGets)
    {
      var item := bodyQueue[0];
      bodyQueue := bodyQueue[1..];
      consumed := consumed + [item];
      if item.StreamEnd? { reader := AwaitingComplete; }
    }

    /** `aclose`; the iterator ends in state `last`. */
    method DoAclose(last: Reader)
      modifies this
      ensures View() == Aclose(old(View()), last)
    {
      reader := last;
      if closed { return; }
      closed := true;
      closedEarly := !streamClosed;
      DoCloseStream();
      if appFuture.None? { CancelApp(); }
    }

    /** `app_future.cancel()`: its done callback is scheduled. */
    method CancelApp()
      requires appFuture.None?
      modifies this
      ensures View() == old(View()).(
                          loop := old(loop) + [FinishApp],
                          futures := old(View()).futures.(app := Some(WasCancelled), cancelledByReader := true))
    {
      appFuture := Some(WasCancelled);
      cancelledByReader := true;
      loop := loop + [FinishApp];
    }

    method EndOfIteration()
      requires Enabled(View(), ReaderEnds)
      modifies this
      ensures View() == Apply(old(View()), ReaderEnds)
    {
      DoAclose(ReaderDone(appComplete));
    }

    method Abandon()
      requires Enabled(View(), ReaderCloses)
      modifies this
      ensures View() == Apply(old(View()), ReaderCloses)
    {
      DoAclose(ReaderClosed);
    }
  }
}
