# Teleportation control plane of meepo, in Dafny

meepo is a peer-to-peer tunnel tool. A *teleportation* makes a remote address reachable
through a peer. Its two halves are a *source*, which the initiating peer creates around a
local listener, and a *sink*, which the receiving peer creates. This project models the
decision logic of the control plane in `pkg/meepo`:

- creating a teleportation (`NewTeleportation`, served by `onNewTeleportation`);
- the per-stream handshake (the source's do-teleport callback, served by `onDoTeleport`);
- tearing a teleportation down (`CloseTeleportation`, served by `onCloseTeleportation`);
- the front door `Teleport`, which reuses a teleportation that already points at the same
  remote through the same peer, or creates a new one.

One peer is the class `MeepoNode.Meepo`. It holds:

- two name-keyed registries: `sources` (teleportations this peer started) and `sinks`
  (teleportations a peer asked it to serve);
- the once-gate (`sync.Once`) of every listener a `NewTeleportation` opened, as a flag;
- the transport-state subscriptions it holds;
- `effects`, an ordered log of what it did to the outside world. The log records requests
  sent, responses sent, listeners opened and closed, halves added and removed, closes
  requested, and `OnDoTeleport` calls.

`Valid()` states the registry invariants. It also states that each listener appears closed
in the log exactly as often as its gate has fired, which is never more than once.

Every collaborator is an input outcome, `Ok(value)` or `Err(text)`. This covers the RPC
round trip (`doRequest`), transport lookup and creation, address checks and resolution,
`net.Listen`, and the constructors of the two halves. An outcome is only looked at when the
code reaches the call, so each contract shows which failure comes first. The registry
primitives are not part of this model and are plain map operations: adding a half replaces
any half of the same name.

Module `Rules` holds the parts that only compute a value: the name rule, the local address
rule, the verdict on a response, which failure comes first, first-match reuse, option
forwarding, and the once-only wake-up of `Teleport`'s wait. Module `Scenarios` composes the
contracts across two calls and across two peers.

Behaviour of the code that the model keeps:

- The default name is `remote.Network() + ":" + remote.String()`, the network and the
  address joined by a colon, not the address alone (pkg/meepo/new_teleportation.go:75-78).
- When the source half cannot be built, `NewTeleportation` does not close the listener it
  opened, and the listener's accept loop keeps running. `NewTeleportation`'s contract records
  the `Listened` effect with no matching close (pkg/meepo/new_teleportation.go:111-136,
  190-193).
- A local failure after the peer has acknowledged does not roll back the peer's sink.
- `Teleport` carries on after its wait even when the wait ended because the transport went
  to Failed or Closed.
- The initiator reads an empty `Error` text as success (pkg/meepo/new_teleportation.go:97).
  A receiver that refuses with an error whose text is empty registers no sink, yet the
  initiator registers a source (`Scenarios.CreateAfterEmptyRefusal`).

## Model

| member | source | states |
|---|---|---|
| `Rules.ChooseName` | pkg/meepo/new_teleportation.go:75-78 | A given `name` option is used as is, even when empty. With none, the name is the remote's network, a colon, then its address. |
| `Rules.DefaultNameInjective` | pkg/meepo/new_teleportation.go:76 | Two remotes whose networks have no colon get the same default name only if they are the same remote. |
| `Rules.ResponseError` | pkg/meepo/new_teleportation.go:90-101 | A round trip fails iff `doRequest` failed (its error) or the response's `Error` is non-empty (that text). An empty `Error` is success. |
| `Rules.NewTeleportationFailure` | pkg/meepo/new_teleportation.go:62-193 | `NewTeleportation`'s error comes from the first failing step, in order: address check, peer verdict, transport lookup, listen, source construction. There is none iff all succeed. |
| `MeepoNode.Meepo.NewTeleportation` | pkg/meepo/new_teleportation.go:45-206 | A bad local address returns its error before any request. Any failure registers nothing and subscribes nothing. After the ack, lookup, listen or construction failures do not undo the peer's sink. A construction failure leaves the listener open. On success, exactly one source is added under its name, with one Failed-state auto-close. |
| `MeepoNode.Meepo.DoTeleport` | pkg/meepo/new_teleportation.go:145-176 | Sends `doTeleport` with the name and stream label. Fails iff the request fails or the response `Error` is non-empty; otherwise returns nil. |
| `MeepoNode.Meepo.CloseListenerOnce` | pkg/meepo/new_teleportation.go:109-118 | The listener is closed the first time its gate fires and never again. Afterwards it has been closed exactly once. |
| `MeepoNode.Meepo.OnSourceClosed` | pkg/meepo/new_teleportation.go:177-188 | The source's close and error handlers remove the source by name, then close the listener through the shared gate: at most once overall. |
| `MeepoNode.Meepo.OnAcceptLoopExit` | pkg/meepo/new_teleportation.go:120-136 | When the accept loop ends, the listener is closed through the same gate, unless a handler already closed it. |
| `MeepoNode.Meepo.OnTransportFailed` | pkg/meepo/new_teleportation.go:195-198 | The Failed-state handler closes its half, then unsubscribes itself. |
| `MeepoNode.Meepo.AddSource` | pkg/meepo/new_teleportation.go:200 | Registers the source under its own name, replacing any previous entry. |
| `Rules.SinkFailure` | pkg/meepo/new_teleportation.go:221-261 | `onNewTeleportation` checks, in order: transport, source address, sink address, sink construction. The first failure is the error replied. |
| `MeepoNode.Meepo.OnNewTeleportation` | pkg/meepo/new_teleportation.go:208-277 | On the first failure it replies with that error and changes no registry or subscription. On success it subscribes the Failed auto-close, adds the sink under the request's name, then replies with an empty error. |
| `MeepoNode.Meepo.AddSink` | pkg/meepo/new_teleportation.go:268 | Registers the sink under its own name, replacing any previous entry. |
| `MeepoNode.Meepo.OnDoTeleport` | pkg/meepo/new_teleportation.go:279-311 | An unknown name replies "teleportation not exist" without calling `OnDoTeleport`. Otherwise `OnDoTeleport` runs, and its error is replied verbatim, or an empty error. |
| `MeepoNode.Meepo.OnSinkClosed` | pkg/meepo/new_teleportation.go:248-255 | The sink's close and error handlers remove the sink by name. |
| `MeepoNode.Meepo.GetTeleportation` | pkg/meepo/close_teleportation.go:28-32 | Searches one registry, then the other, in the given order. Fails with "teleportation not exist" iff the name is in neither. |
| `MeepoNode.Meepo.CloseTeleportation` | pkg/meepo/close_teleportation.go:20-62 | An unknown name returns the lookup error and sends nothing. Otherwise `closeTeleportation` goes to the peer of the found half's transport. On a failure or non-empty `Error`, that error is returned and nothing is closed. On an ack, it returns nil with the local close only requested. Registries are never changed synchronously. |
| `MeepoNode.Meepo.OnCloseTeleportation` | pkg/meepo/close_teleportation.go:64-96 | Looks up sink first. An unknown name replies the lookup error and closes nothing. Otherwise it requests the close, then replies success whatever the close will do. |
| `Rules.AwaitDone` | pkg/meepo/teleport.go:36-53 | Connected, Failed and Closed all end the wait. Over the transitions delivered while subscribed, `done` is closed exactly once if any of them occurs, and never otherwise. |
| `MeepoNode.Meepo.Subscribe` | pkg/meepo/teleport.go:45-50 | A subscription is stored under a fresh handle. |
| `MeepoNode.Meepo.Unsubscribe` | pkg/meepo/teleport.go:46-50 | Unsubscribing removes exactly that handle. |
| `MeepoNode.Meepo.ListTeleportationsByPeerID` | pkg/meepo/teleport.go:55-58 | Lists exactly the source halves whose transport leads to the peer, in an unspecified order. |
| `Rules.FirstMatch` | pkg/meepo/teleport.go:60-66 | Finds the first listed half whose sink equals `remote` in both network and string; a match on only one does not count. Returns that half's local address, or nothing iff no half matches. |
| `Rules.FindExistingSource` | pkg/meepo/teleport.go:60-66 | The search loop returns the first-match address. |
| `Rules.FirstMatchUnique` | pkg/meepo/teleport.go:60-66 | When all matching halves share a local address, the order of the list does not change the result. |
| `Rules.ForwardedNameAndLocal` | pkg/meepo/teleport.go:68-75 | A `name` option that is absent or not a string silently gives the teleportation the default name. A `local` option that is absent or not an address silently gives a generated local address, so the address step cannot fail. A string name and an address are used as given. |
| `MeepoNode.Meepo.Teleport` | pkg/meepo/teleport.go:17-83 | A transport error is returned before anything changes. Whatever follows, the three wait subscriptions are gone again on return. If a source for the peer already points at `remote`, its local address is returned with no new teleportation, no request and no effect. Otherwise it does exactly what `NewTeleportation` with the forwarded options does: the same effects, listener, error, and on success one new source and its Failed-state auto-close. |
| `Scenarios.TeleportTwice` | pkg/meepo/teleport.go:55-82 | Teleporting twice to the same peer and remote creates one teleportation. The second call returns the same local address. |
| `Scenarios.CreateAcrossPeers` | pkg/meepo/new_teleportation.go:90-101 | When both sides succeed, the initiator finds the source source-first and the receiver finds a sink sink-first. When the receiver refuses, it registers no sink. When its refusal has error text, the initiator fails and registers no source. |
| `Scenarios.CreateAfterEmptyRefusal` | pkg/meepo/new_teleportation.go:96-101 | A refusal with empty error text reads as an ack: the receiver has no new sink, but the initiator registers a source. |
| `Scenarios.DoTeleportWithoutSink` | pkg/meepo/new_teleportation.go:290-296 | A stream on a name the receiver does not serve fails with "teleportation not exist", and the receiver prepares nothing. |
| `Scenarios.CloseAcrossPeers` | pkg/meepo/close_teleportation.go:28-93 | After the ack and both scheduled closes have run their handlers, the initiator holds no source and the receiver no sink of that name, and each other registry is unchanged. A peer holding no half of the name in its other registry no longer finds the name. The initiator's listener was closed once. |
| `Scenarios.FailureRacesClose` | pkg/meepo/new_teleportation.go:177-198 | When a transport failure races an explicit close and an error, the source is absent afterwards. Both handlers remove it, so removal is logged twice and is idempotent on the registry. Its listener is closed exactly once. |

## Left out

- Socket listening, the accept loop's body, the `DialRequest` channel and byte forwarding are
  real network I/O. What remains is the `Listened` effect, the end of the accept loop, and
  the listener's once-gate.
- Goroutines are out. A background `Close` is a `Closing` effect. Its outcome is only logged
  by the source and is not modelled. When a half's `Close` runs its close handler is decided
  inside the `teleportation` package, which is not part of this model. The handlers are
  separate operations instead.
- `sync.Once` is a sequential flag, so races become interleavings of whole operations.
- The blocking and correlation of `doRequest` are not modelled. Outgoing requests carry no
  correlation id. The transport state machine and `OnTransportState` delivery are given as
  the list of transitions delivered to `Teleport`'s handlers.
- `Teleport`: if the new transport never reaches Connected, Failed or Closed, the source
  blocks forever. The model requires that one such transition is delivered.
- `fmt.Errorf(res.Error)` reads the peer's text as a format string. The model passes the
  text through unchanged.
- `NewTeleportation`'s options are typed (`Option<Addr>`, `Option<string>`), so
  `cast.ToString` of a non-string name is not modelled. `Teleport`'s options keep their
  dynamic type.
- Logging, JSON tags and the `init` decoder registrations (pkg/meepo/new_teleportation.go:313-318,
  pkg/meepo/close_teleportation.go:98-101) are out.
- The registry, the transport registry, `checkAddrIsListenable`, `getListenableAddr` and
  `resolveTeleportation*Addr` are not part of this model. Their results are inputs, so the
  network of a generated local address is not related to the remote's.
- The error branch of `listTeleportationsByPeerID` (pkg/meepo/teleport.go:56-58) cannot occur,
  because listing is a plain map operation.
- `NewTransport` registering the created transport is not modelled. The lookup inside the
  delegated `NewTeleportation` is its own input outcome.
- Rules.TransportFailure: `Teleport` recognises a missing transport with `errors.Is`, which also matches a wrapped `TransportNotExistError` and rejects a different error with the same text. The model compares the error text with "transport not exist".
- MeepoNode.Meepo.Teleport: the three wait subscriptions are removed by deferred calls at function return, after the listing and the delegated `NewTeleportation`. The model removes them right after the wait. A transition delivered in between would only call the once-gated wake-up again, which does nothing, so the model does not capture that window.
- Scenarios.CreateAcrossPeers: the initiator's failure is promised only for a refusal with error text. A refusal with empty text reads as success, as `Scenarios.CreateAfterEmptyRefusal` shows.
- Scenarios.CloseAcrossPeers: "neither peer finds the name" is promised only for a peer that holds no half of that name in its other registry. Source and sink names are separate key spaces, so such a half survives the close.
