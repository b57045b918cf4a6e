# Proxy service decision logic in Dafny

This project models the decision logic of the SIP proxy service: one
process that runs a SIP UDP listener, a TLS gRPC routing service and a
plain HTTP health endpoint, and shuts them all down together. The network
plumbing itself is not modelled. Four modules model the four source
files; `Wrappers` supplies `Option` and `Result`:

- `Errors` (`errors.dfy`). It holds the `ServiceError` taxonomy
  (`ConfigError`, `GrpcTransportError`, `GrpcStatus`, `SipParseError`,
  `Io`), the `anyhow::Error` values the other modules return, the gRPC
  `Status` value, and the total conversion of a `ServiceError` into a
  `Status`.
- `Config` (`config.dfy`). `AppConfig::load_from_env` is a pure function
  from an environment (`map<string, string>`) to `Result<AppConfig, AnyError>`.
  The module also holds the port reader of the standard library's socket
  address parser, proved equal to a reference definition: one or more
  decimal digits with value at most 65535.
- `ProxyService` (`service.dfy`). `get_next_hop` always answers with the
  fixed B2BUA hop.
- `App` (`app.dfy`). It holds three things:
  - the health handler;
  - the SIP UDP receive loop, written as a method with a `while` loop over a
    sequence of events and proved equal to a specification function, with
    lemmas about that function;
  - the outcome decision of `App::run`, once the `select!` race has a
    winner, including whether the three explicit shutdown sends happen.
- `Wrappers` (`wrappers.dfy`). It defines `Option` and `Result`, usable
  with `:-` in place of Rust's `?`.

Points a reader may not expect, all as the code does them:

- The health body is `{"status":"ok", "service": "proxy-service"}`. It has a
  space after the comma and one after the second colon.
- `get_next_hop` accepts an empty `destination_uri`; it does not reject it
  as invalid-argument.
- The next hop `sentiric-b2bua-service:12081` is a literal in the handler.
  It is not the configured B2BUA URL, whose default is `b2bua-service:12081`.
- When a listener fails, `run` returns at once without the explicit
  shutdown sends. Only the graceful paths (a clean task end or Ctrl+C) send
  the three signals.
- Of all receive errors, the UDP loop absorbs only `Interrupted`. Every
  other kind ends the listener.
- Configuration failures are `anyhow` errors. An address parse error is not
  wrapped, and a missing TLS variable becomes `NotPresent` under a context
  string. Neither is a `ServiceError::ConfigError`.

The Rust `AddrParseError` does not record which text failed to parse. The
model's `AddrParse(input)` does, so that the order of the checks can be
stated. I/O, the clock and the network enter only as parameters: the bind
outcome, the event sequence, the winner of the race, and task results.

## Model

| member | source | states |
|---|---|---|
| `Errors.ToStatus` | src/error.rs:19-27 | A wrapped status comes back unchanged. A SIP parse error becomes InvalidArgument with message "Geçersiz SIP: " + msg. A transport error becomes Unavailable with the transport prefix. Config and Io errors become Internal. Each code holds exactly when its source variants are given: InvalidArgument only from SipParseError or a wrapped InvalidArgument, and likewise for Unavailable and Internal. |
| `Config.ReadDigitsValue` | src/config.rs:32-34 | The standard library's digit reader uses checked u16 `*10` and `+d` from an accumulator. It succeeds iff the text is all digits and acc·10^n + value ≤ 65535, and then yields that number. |
| `Config.ParsePortIffIsPort` | src/config.rs:32-34 | A port text parses iff it is non-empty, all decimal digits, and at most 65535; it yields its decimal value. |
| `Config.ParseV6AddrIffPort` | src/config.rs:32-33 | `"[::]:" + p` parses iff `p` is a valid port, giving the unspecified IPv6 host with that port. |
| `Config.ParseV4AddrIffPort` | src/config.rs:34 | `"0.0.0.0:" + p` parses iff `p` is a valid port, giving the unspecified IPv4 host with that port. |
| `Config.LoadFromEnv` | src/config.rs:27-53 | On success all three TLS variables are set and copied verbatim. Each optional field is the variable's value verbatim when set, else its default: "production", "info", "0.1.0", "registrar-service:12061", "b2bua-service:12081". |
| `Config.LoadSucceedsIff` | src/config.rs:27-53 | Loading succeeds iff the three port strings (set or default) are valid ports and the three TLS variables are set. |
| `Config.LoadErrorOrder` | src/config.rs:32-51 | The first failing check is the error. The order is the gRPC, HTTP and SIP addresses, each as `AddrParse` of its text, then cert, key and CA, each as `NotPresent` under "ZORUNLU: <name> eksik". |
| `Config.InvalidPortFails` | src/config.rs:28-34 | A set port variable whose value is not a valid port makes loading fail. |
| `Config.MissingTlsFails` | src/config.rs:49-51 | An unset cert, key or CA variable makes loading fail. |
| `Config.LoadedAddresses` | src/config.rs:28-39 | On success the gRPC and HTTP addresses are on `[::]` and the SIP address is on `0.0.0.0`, each port being the decimal value of its port string. |
| `Config.DefaultAddresses` | src/config.rs:28-34 | With no port variables set and the TLS paths present, the addresses are `[::]:12071`, `[::]:12070` and `0.0.0.0:5060`. |
| `ProxyService.GetNextHop` | src/grpc/service.rs:16-30 | It always returns Ok, never a Status. The uri is "sentiric-b2bua-service:12081" and the gateway id is "sentiric-b2bua". |
| `ProxyService.GetNextHopIgnoresRequest` | src/grpc/service.rs:21-29 | Any two requests get equal responses. |
| `ProxyService.GetNextHopAcceptsEmptyUri` | src/grpc/service.rs:16-30 | An empty destination URI is answered with Ok. |
| `App.HandleHttpRequest` | src/app.rs:24-30 | Every request gets status 200, the single header `Content-Type: application/json`, and the body literal with its spaces. |
| `App.HealthIgnoresRequest` | src/app.rs:24-30 | Any two requests get equal responses. |
| `App.RecvLen` | src/app.rs:39-53 | A reported datagram length never exceeds the 65535-byte buffer. It equals the datagram's size when the datagram fits. |
| `App.RunUdpListener` | src/app.rs:33-65 | The loop handles one event per turn. Its result equals the specification `UdpListener(bind, events)`: status, number of events consumed, and received lengths. |
| `App.LoopStopsAtFirstTerminal` | src/app.rs:41-64 | The loop ends at the first shutdown or non-`Interrupted` error, consuming exactly the events up to it. A shutdown gives `Ok(())`; an error gives `Err(Io(e))`. Only the datagrams before that event are received. |
| `App.LoopWithoutTerminal` | src/app.rs:41-62 | With no shutdown and no fatal error, the loop consumes every event, is still listening, and has received every datagram. |
| `App.ReceivedFitBuffer` | src/app.rs:39-53 | Every received length is at most 65535. |
| `App.DatagramAbsorbed` | src/app.rs:51-53 | A datagram does not end the loop. The rest runs as if it were absent; the datagram is only counted and its length recorded. |
| `App.InterruptedAbsorbed` | src/app.rs:54-58 | An `Interrupted` receive error does not end the loop and records nothing. |
| `App.FatalRecvErrorEnds` | src/app.rs:54-58 | Any other receive error ends the listener with `Err(Io(e))` after that one event. |
| `App.BindFailureEndsFirst` | src/app.rs:36-37 | A bind failure ends the listener with `Err(Io(e))` having consumed no event. |
| `App.ShutdownEndsListenerOk` | src/app.rs:44-64 | A shutdown message and a closed channel both end the listener with `Ok(())`, provided only packets and interruptions came before. |
| `App.GrpcTask` | src/app.rs:106-121 | The task panics iff the TLS set-up fails. Otherwise it ends Ok iff serving ends Ok; a serve error comes back under "gRPC sunucusu hatayla sonlandı". |
| `App.HttpTask` | src/app.rs:125-141 | The task ends normally iff it could bind, whatever the server's result. |
| `App.Run` | src/app.rs:146-195 | `run` panics only if the Ctrl+C handler fails. Otherwise it returns Err iff the winner failed (it returned Err or panicked). It sends all three shutdown signals, in order, iff it returns Ok. A task's Err(e) is returned as that same e, and each panic becomes its own message. |
| `App.HttpServeErrorSwallowed` | src/app.rs:138-140 | A bound HTTP task that wins leads to the graceful path, whatever its server returned. |
| `App.TlsFailureFailsRun` | src/app.rs:107-157 | A TLS set-up failure that wins makes `run` return the gRPC panic error without sending. |
| `App.GrpcServeErrorFailsRun` | src/app.rs:112-152 | A gRPC serve error that wins is returned, under its context, without sending. |
| `App.UdpEndDecidesRun` | src/app.rs:160-166 | If the UDP listener has ended and wins, an I/O failure is returned as is with no sends, and a clean end leads to the graceful path. |

## Left out

- Errors.ToStatus: the Internal status message is only the error's variant name, which begins the real `{:#?}` rendering. The rest of that debug text is library formatting and is not modelled.
- Status details and metadata, and everything `Response::new` adds around the next-hop record, are not modelled.
- Config.LoadFromEnv: an environment value that is not valid Unicode (`VarError::NotUnicode`) is not modelled, because the environment is a map of strings.
- Config.ParseSocketAddr accepts only the two hosts the loader ever writes (`[::]` and `0.0.0.0`). It is not a general socket address parser.
- Logging and tracing set-up in `App::bootstrap` and `dotenvy` loading are left out. They are library configuration.
- TLS credential loading (`load_server_tls_config`) is left out; its source is not part of this model. Only its success or failure enters, as `TlsSetup`.
- Socket and server I/O is left out: UDP bind and receive, the tonic and hyper servers, and the Ctrl+C signal. These appear only as events and outcomes.
- App.RunUdpListener: the 65535-byte receive buffer's contents, the sender address, and per-platform truncation behaviour are not modelled. A datagram is known only by its size, and the reported length is the part that fits the buffer.
- The concurrency itself is left out: task spawning, `select!` fairness and scheduling, and channel semantics. The race is a free choice of `Winner`, and a channel is only "shutdown observed".
- On the error path of `run` the senders are dropped, not sent to. What the listeners then observe happens after `run` returns, so it is not part of `Run`'s outcome. That a closed channel ends the UDP listener like a message is stated by `App.ShutdownEndsListenerOk`; together with `App.Run`'s `sent` clause it also says that the UDP shutdown sent on the graceful path ends a listener that has seen only packets and interruptions.
- The process exit status is not modelled: the caller of `run` is not part of this model.
