/** The orchestrator of `src/app.rs`: the health-check handler, the SIP UDP
    receive loop, and the decision `App::run` takes when the first of its
    three tasks or the operator interrupt completes. Sockets, servers and
    the Ctrl+C signal appear only as the events and outcomes they deliver. */
module App {
  import opened Wrappers
  import Errors

  // ---------------------------------------------------------------------
  // Health endpoint (`handle_http_request`).

  datatype HttpRequest = HttpRequest(verb: string, path: string, headers: seq<(string, string)>, body: string)

  datatype HttpResponse = HttpResponse(status: nat, headers: seq<(string, string)>, body: string)

  const HTTP_OK := 200
  const HEALTH_CONTENT_TYPE := ("Content-Type", "application/json")
  /** The body literal exactly as the handler writes it, with a space after
      the comma and after the second colon. */
  const HEALTH_BODY := "{\"status\":\"ok\", \"service\": \"proxy-service\"}"

  /** Every request, whatever its method, path, headers or body, gets 200
      with a JSON content type and the fixed body. */
  function HandleHttpRequest(request: HttpRequest): (r: HttpResponse)
    ensures r.status == HTTP_OK
    ensures r.headers == [HEALTH_CONTENT_TYPE]
    ensures r.body == HEALTH_BODY
  {
    HttpResponse(HTTP_OK, [HEALTH_CONTENT_TYPE], HEALTH_BODY)
  }

  /** The health answer does not depend on the request. */
  lemma HealthIgnoresRequest(a: HttpRequest, b: HttpRequest)
    ensures HandleHttpRequest(a) == HandleHttpRequest(b)
  {}

  // ---------------------------------------------------------------------
  // SIP UDP listener (`spawn_sip_udp_listener`).

  /** The size of the receive buffer: a longer datagram is truncated. */
  const RECV_BUFFER_LEN := 65535

  /** What `UdpSocket::bind` did. */
  datatype BindResult = Bound | BindFailed(error: Errors.IoError)

  /** What one turn of the loop's `select!` observed: the shutdown channel
      yielding a message or reporting that it is closed, a datagram of the
      given size on the wire, or a receive error. */
  datatype UdpEvent =
    | ShutdownMessage
    | ShutdownChannelClosed
    | Datagram(size: nat)
    | RecvFailed(error: Errors.IoError)

  datatype ListenStatus = Listening | Ended(result: Result<(), Errors.AnyError>)

  /** Where the listener stands after some events: its status, how many
      events it has consumed, and the lengths of the packets it received. */
  datatype UdpTrace = UdpTrace(status: ListenStatus, consumed: nat, received: seq<nat>)

  /** The length `recv_from` reports for a datagram: what fits in the buffer. */
  function RecvLen(size: nat): (len: nat)
    ensures len <= RECV_BUFFER_LEN
    ensures len == size || (size > RECV_BUFFER_LEN && len == RECV_BUFFER_LEN)
  {
    if size <= RECV_BUFFER_LEN then size else RECV_BUFFER_LEN
  }

  /** The error the listener ends with after a fatal socket error. */
  function IoFailure(error: Errors.IoError): Errors.AnyError {
    Errors.Service(Errors.Io(error))
  }

  /** The receive loop over the events still to come. */
  function ListenLoop(events: seq<UdpEvent>): UdpTrace
    decreases |events|
  {
    if events == [] then UdpTrace(Listening, 0, [])
    else
      var rest := ListenLoop(events[1..]);
      match events[0]
      case ShutdownMessage => UdpTrace(Ended(Ok(())), 1, [])
      case ShutdownChannelClosed => UdpTrace(Ended(Ok(())), 1, [])
      case Datagram(size) => UdpTrace(rest.status, rest.consumed + 1, [RecvLen(size)] + rest.received)
      case RecvFailed(error) =>
        if error.kind == Errors.Interrupted then UdpTrace(rest.status, rest.consumed + 1, rest.received)
        else UdpTrace(Ended(Err(IoFailure(error))), 1, [])
  }

  /** The listener: bind, then run the loop. */
  function UdpListener(bind: BindResult, events: seq<UdpEvent>): UdpTrace {
    match bind
    case BindFailed(error) => UdpTrace(Ended(Err(IoFailure(error))), 0, [])
    case Bound => ListenLoop(events)
  }

  /** `ListenLoop(events)` seen after `i` events were consumed and the
      packets `received` were taken. */
  function Resume(i: nat, received: seq<nat>, t: UdpTrace): UdpTrace {
    UdpTrace(t.status, t.consumed + i, received + t.received)
  }

  /** The receive loop, one event per turn. */
  method RunUdpListener(bind: BindResult, events: seq<UdpEvent>) returns (trace: UdpTrace)
    ensures trace == UdpListener(bind, events)
  {
    if bind.BindFailed? {
      return UdpTrace(Ended(Err(IoFailure(bind.error))), 0, []);
    }
    var received: seq<nat> := [];
    var i := 0;
    while i < |events|
      invariant 0 <= i <= |events|
      invariant ListenLoop(events) == Resume(i, received, ListenLoop(events[i..]))
    {
      var e := events[i];
      assert events[i..][1..] == events[i + 1..];
      i := i + 1;
      match e
      case ShutdownMessage =>
        return UdpTrace(Ended(Ok(())), i, received);
      case ShutdownChannelClosed =>
        return UdpTrace(Ended(Ok(())), i, received);
      case Datagram(size) =>
        received := received + [RecvLen(size)];
      case RecvFailed(error) =>
        if error.kind != Errors.Interrupted {
          return UdpTrace(Ended(Err(IoFailure(error))), i, received);
        }
    }
    return UdpTrace(Listening, i, received);
  }

  /** An event that ends the loop: a shutdown, or a receive error other
      than `Interrupted`. */
  predicate Terminal(e: UdpEvent) {
    e.ShutdownMessage? || e.ShutdownChannelClosed? || (e.RecvFailed? && e.error.kind != Errors.Interrupted)
  }

  /** What a terminal event makes the listener return. */
  function Verdict(e: UdpEvent): Result<(), Errors.AnyError>
    requires Terminal(e)
  {
    if e.RecvFailed? then Err(IoFailure(e.error)) else Ok(())
  }

  /** The reported lengths of the datagrams among `events`, in order. */
  function DatagramLengths(events: seq<UdpEvent>): seq<nat> {
    if events == [] then []
    else if events[0].Datagram? then [RecvLen(events[0].size)] + DatagramLengths(events[1..])
    else DatagramLengths(events[1..])
  }

  /** The loop ends at the first terminal event, consuming exactly the
      events up to it, with the result that event calls for; the packets
      before it are received and nothing else happens. */
  lemma {:induction false} LoopStopsAtFirstTerminal(events: seq<UdpEvent>, k: nat)
    requires k < |events| && Terminal(events[k])
    requires forall j :: 0 <= j < k ==> !Terminal(events[j])
    ensures ListenLoop(events) == UdpTrace(Ended(Verdict(events[k])), k + 1, DatagramLengths(events[..k]))
  {
    if k > 0 {
      var tail := events[1..];
      assert forall j :: 0 <= j < k - 1 ==> tail[j] == events[j + 1];
      LoopStopsAtFirstTerminal(tail, k - 1);
      assert events[..k][1..] == tail[..k - 1];
    }
  }

  /** Without a terminal event the loop consumes every event and is still
      listening; it has received every datagram. */
  lemma {:induction false} LoopWithoutTerminal(events: seq<UdpEvent>)
    requires forall j :: 0 <= j < |events| ==> !Terminal(events[j])
    ensures ListenLoop(events) == UdpTrace(Listening, |events|, DatagramLengths(events))
  {
    if events != [] {
      var tail := events[1..];
      assert forall j :: 0 <= j < |tail| ==> tail[j] == events[j + 1];
      LoopWithoutTerminal(tail);
    }
  }

  /** Every received length fits the 65535-byte buffer. */
  lemma {:induction false} ReceivedFitBuffer(events: seq<UdpEvent>)
    ensures forall j :: 0 <= j < |ListenLoop(events).received| ==>
              ListenLoop(events).received[j] <= RECV_BUFFER_LEN
  {
    if events != [] {
      ReceivedFitBuffer(events[1..]);
    }
  }

  /** A datagram never ends the loop: the loop continues on the remaining
      events as if the packet had not been there, except that it is counted
      and its length recorded. */
  lemma DatagramAbsorbed(size: nat, rest: seq<UdpEvent>)
    ensures ListenLoop([Datagram(size)] + rest) == Resume(1, [RecvLen(size)], ListenLoop(rest))
  {}

  /** An `Interrupted` receive error is absorbed the same way. */
  lemma InterruptedAbsorbed(rest: seq<UdpEvent>)
    ensures ListenLoop([RecvFailed(Errors.IoError(Errors.Interrupted))] + rest) == Resume(1, [], ListenLoop(rest))
  {}

  /** Any other receive error ends the listener with that I/O error. */
  lemma FatalRecvErrorEnds(error: Errors.IoError, rest: seq<UdpEvent>)
    requires error.kind != Errors.Interrupted
    ensures ListenLoop([RecvFailed(error)] + rest) == UdpTrace(Ended(Err(Errors.Service(Errors.Io(error)))), 1, [])
  {}

  /** A bind failure ends the listener with an I/O error before any event. */
  lemma BindFailureEndsFirst(error: Errors.IoError, events: seq<UdpEvent>)
    ensures UdpListener(BindFailed(error), events).status == Ended(Err(Errors.Service(Errors.Io(error))))
    ensures UdpListener(BindFailed(error), events).consumed == 0
  {}

  /** Once the loop reaches a shutdown, whether the message arrives or the
      channel closes because its sender was dropped, the listener ends with
      `Ok(())`. */
  lemma ShutdownEndsListenerOk(before: seq<UdpEvent>, shutdown: UdpEvent, after: seq<UdpEvent>)
    requires shutdown.ShutdownMessage? || shutdown.ShutdownChannelClosed?
    requires forall j :: 0 <= j < |before| ==> !Terminal(before[j])
    ensures UdpListener(Bound, before + [shutdown] + after).status == Ended(Ok(()))
    ensures UdpListener(Bound, before + [shutdown] + after).consumed == |before| + 1
  {
    var events := before + [shutdown] + after;
    assert events[|before|] == shutdown;
    assert forall j :: 0 <= j < |before| ==> events[j] == before[j];
    LoopStopsAtFirstTerminal(events, |before|);
  }

  // ---------------------------------------------------------------------
  // Orchestrator (`App::run`).

  /** A `tokio::task::JoinError` for a task that panicked, known by its
      display text. */
  datatype JoinError = JoinError(text: string)

  /** What awaiting a task's `JoinHandle` yields. */
  datatype Joined<T> = Finished(value: T) | Panicked(joinError: JoinError)

  /** How the gRPC task's TLS set-up went; the two failures are both
      `expect` calls, so they panic the task. */
  datatype TlsSetup = TlsReady | TlsLoadFailed | TlsConfigRejected

  /** Whether hyper's `Server::bind` could bind; it panics when it cannot. */
  datatype HttpBind = HttpBound | HttpBindFailed

  const GRPC_SERVE_CONTEXT := "gRPC sunucusu hatayla sonlandı"

  /** The gRPC task: TLS set-up, then serving until shutdown. A serve error
      comes back under a context string; `panic` is what the runtime reports
      if the task panics. */
  function GrpcTask(tls: TlsSetup, serve: Result<(), Errors.TransportError>, panic: JoinError)
    : (j: Joined<Result<(), Errors.AnyError>>)
    ensures j.Panicked? <==> !tls.TlsReady?
    ensures j.Panicked? ==> j.joinError == panic
    ensures j.Finished? ==> (j.value.Ok? <==> serve.Ok?)
    ensures j.Finished? && serve.Err? ==>
              j.value.error == Errors.Context(GRPC_SERVE_CONTEXT, Errors.Transport(serve.error))
  {
    if !tls.TlsReady? then Panicked(panic)
    else match serve
      case Ok(_) => Finished(Ok(()))
      case Err(e) => Finished(Err(Errors.Context(GRPC_SERVE_CONTEXT, Errors.Transport(e))))
  }

  /** The HTTP task: it logs a server error and still ends normally, so
      only a panic (a failed bind) makes it fail. */
  function HttpTask(bind: HttpBind, serve: Result<(), string>, panic: JoinError): (j: Joined<()>)
    ensures j.Finished? <==> bind.HttpBound?
    ensures j.Panicked? ==> j.joinError == panic
  {
    match bind
    case HttpBindFailed => Panicked(panic)
    case HttpBound => Finished(())
  }

  /** The branch of the `select!` that completed first, with what it
      produced. The race itself is not modelled: any winner may occur. */
  datatype Winner =
    | GrpcDone(grpc: Joined<Result<(), Errors.AnyError>>)
    | UdpDone(udp: Joined<Result<(), Errors.AnyError>>)
    | HttpDone(http: Joined<()>)
    | CtrlC
    /** `tokio::signal::ctrl_c()` returned an error; its `expect` panics. */
    | CtrlCFailed(error: Errors.IoError)

  /** The three shutdown channels, in the order `run` sends on them. */
  datatype ShutdownTarget = GrpcShutdown | UdpShutdown | HttpShutdown

  const SHUTDOWN_SENDS := [GrpcShutdown, UdpShutdown, HttpShutdown]

  /** What `run` does: return a result after the explicit shutdown sends it
      made, or panic. */
  datatype RunOutcome = Returned(result: Result<(), Errors.AnyError>, sent: seq<ShutdownTarget>) | RunPanicked

  const GRPC_PANIC_PREFIX := "gRPC sunucu görevi panic'ledi: "
  const UDP_PANIC_PREFIX := "UDP dinleyici görevi panic'ledi: "
  const HTTP_PANIC_PREFIX := "HTTP sunucu görevi panic'ledi: "

  /** The winner is a listener that failed: a task that returned an error or
      panicked. A listener that returns `Ok` is not a failure. */
  predicate ListenerFailed(w: Winner) {
    match w
    case GrpcDone(j) => j.Panicked? || j.value.Err?
    case UdpDone(j) => j.Panicked? || j.value.Err?
    case HttpDone(j) => j.Panicked?
    case CtrlC => false
    case CtrlCFailed(_) => false
  }

  /** The graceful path: all three shutdown signals, then `Ok(())`. */
  function GracefulShutdown(): RunOutcome {
    Returned(Ok(()), SHUTDOWN_SENDS)
  }

  /** The branch for a gRPC or UDP task: its error is returned as is, a
      panic becomes an error message, a clean end is the graceful path. */
  function TaskEnded(j: Joined<Result<(), Errors.AnyError>>, panicPrefix: string): RunOutcome {
    match j
    case Finished(Err(e)) => Returned(Err(e), [])
    case Finished(Ok(_)) => GracefulShutdown()
    case Panicked(je) => Returned(Err(Errors.Message(panicPrefix + je.text)), [])
  }

  /** `App::run` after its `select!`: a failing listener makes `run` return
      an error at once, without the explicit shutdown sends; any other
      winner leads to all three sends and `Ok(())`. */
  function Run(w: Winner): (o: RunOutcome)
    ensures o.RunPanicked? <==> w.CtrlCFailed?
    ensures o.Returned? ==> (o.result.Err? <==> ListenerFailed(w))
    ensures o.Returned? ==> o.sent == if o.result.Ok? then SHUTDOWN_SENDS else []
    ensures w.GrpcDone? && w.grpc.Finished? && w.grpc.value.Err? ==> o == Returned(w.grpc.value, [])
    ensures w.UdpDone? && w.udp.Finished? && w.udp.value.Err? ==> o == Returned(w.udp.value, [])
    ensures w.GrpcDone? && w.grpc.Panicked? ==>
              o == Returned(Err(Errors.Message(GRPC_PANIC_PREFIX + w.grpc.joinError.text)), [])
    ensures w.UdpDone? && w.udp.Panicked? ==>
              o == Returned(Err(Errors.Message(UDP_PANIC_PREFIX + w.udp.joinError.text)), [])
    ensures w.HttpDone? && w.http.Panicked? ==>
              o == Returned(Err(Errors.Message(HTTP_PANIC_PREFIX + w.http.joinError.text)), [])
  {
    match w
    case GrpcDone(j) => TaskEnded(j, GRPC_PANIC_PREFIX)
    case UdpDone(j) => TaskEnded(j, UDP_PANIC_PREFIX)
    case HttpDone(j) =>
      (match j
       case Finished(_) => GracefulShutdown()
       case Panicked(je) => Returned(Err(Errors.Message(HTTP_PANIC_PREFIX + je.text)), []))
    case CtrlC => GracefulShutdown()
    case CtrlCFailed(_) => RunPanicked
  }

  /** Whatever the HTTP server's own result, a bound HTTP task that wins
      leads to the graceful path. */
  lemma HttpServeErrorSwallowed(serve: Result<(), string>, panic: JoinError)
    ensures Run(HttpDone(HttpTask(HttpBound, serve, panic))) == GracefulShutdown()
  {}

  /** A TLS set-up failure panics the gRPC task; if it wins, `run` fails. */
  lemma TlsFailureFailsRun(tls: TlsSetup, serve: Result<(), Errors.TransportError>, panic: JoinError)
    requires !tls.TlsReady?
    ensures Run(GrpcDone(GrpcTask(tls, serve, panic)))
            == Returned(Err(Errors.Message(GRPC_PANIC_PREFIX + panic.text)), [])
  {}

  /** A gRPC serve error that wins is what `run` returns, under its context. */
  lemma GrpcServeErrorFailsRun(e: Errors.TransportError, panic: JoinError)
    ensures Run(GrpcDone(GrpcTask(TlsReady, Err(e), panic)))
            == Returned(Err(Errors.Context(GRPC_SERVE_CONTEXT, Errors.Transport(e))), [])
  {}

  /** The UDP listener's own end, when it wins, decides `run`: an I/O
      failure (a bind failure or a fatal receive error) is returned as is;
      a shutdown leads to the graceful path. */
  lemma UdpEndDecidesRun(bind: BindResult, events: seq<UdpEvent>)
    requires UdpListener(bind, events).status.Ended?
    ensures var result := UdpListener(bind, events).status.result;
            Run(UdpDone(Finished(result))) ==
            if result.Err? then Returned(result, []) else GracefulShutdown()
  {}
}
