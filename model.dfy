/** The entities of the teleportation control plane: addresses, transports, the two halves of
    a teleportation, the control messages, and the externally visible effects of a peer. */
module Model {
  import opened Wrappers

  /** A `net.Addr`, seen through its two accessors `Network()` and `String()`. */
  datatype Addr = Addr(network: string, address: string)

  /** The transport to one peer; the control plane only asks it for the peer's identity. */
  datatype Transport = Transport(peerID: string)

  datatype TransportState = Connecting | Connected | Failed | Closed

  /** Text of the registry's `TeleportationNotExistError`. */
  const TeleportationNotExist: string := "teleportation not exist"

  /** Text of the transport registry's `TransportNotExistError`. */
  const TransportNotExist: string := "transport not exist"

  datatype Role = SourceRole | SinkRole

  /** One half of a teleportation. A source half is created by the initiating peer and owns
      the local listener `listener` (an index into the peer's listener gates); a sink half is
      created by the receiving peer. Both expose `Name`, `Source`, `Sink` and `Transport`. */
  datatype Teleportation =
    | SourceHalf(name: string, source: Addr, sink: Addr, transport: Transport, listener: nat)
    | SinkHalf(name: string, source: Addr, sink: Addr, transport: Transport)

  datatype LookupOrder = SourceFirst | SinkFirst

  datatype MethodName = NewTeleportationMethod | DoTeleportMethod | CloseTeleportationMethod

  /** Bodies of the three control requests. */
  datatype Request =
    | NewTeleportationRequest(name: string, localNetwork: string, localAddress: string,
                              remoteNetwork: string, remoteAddress: string)
    | DoTeleportRequest(name: string, streamLabel: string)
    | CloseTeleportationRequest(name: string)
  {
    function MethodOf(): MethodName {
      match this
      case NewTeleportationRequest(_, _, _, _, _) => NewTeleportationMethod
      case DoTeleportRequest(_, _) => DoTeleportMethod
      case CloseTeleportationRequest(_) => CloseTeleportationMethod
    }
  }

  /** A request as a handler receives it: correlation identifier, sender and body. */
  datatype Envelope = Envelope(id: nat, peerID: string, body: Request)

  /** A response inverts a request: same correlation identifier and method, and an error
      text that is empty on success. */
  datatype Response = Response(id: nat, methodName: MethodName, error: string)

  /** `invertMessage` (error "") and `invertMessageWithError`. */
  function Invert(req: Envelope, error: string): (res: Response)
    ensures res.id == req.id && res.methodName == req.body.MethodOf() && res.error == error
  {
    Response(req.id, req.body.MethodOf(), error)
  }

  /** What a transport-state subscription does when it fires. */
  datatype Action =
    | CloseOnFailure(half: Teleportation)   // close the half, then unsubscribe
    | SignalDone                             // wake up a waiting `Teleport`

  datatype Subscription = Subscription(peerID: string, state: TransportState, action: Action)

  /** The externally visible effects of a peer, in the order they happen. */
  datatype Effect =
    | Sent(to: string, request: Request)     // `doRequest` to a peer
    | Replied(response: Response)            // `sendMessage` of a response
    | Listened(addr: Addr, listener: nat)     // `net.Listen` succeeded; its accept loop runs
    | ListenerClosed(listener: nat)           // `lis.Close()`, behind the listener's once-gate
    | Added(half: Teleportation)              // `addTeleportationSource` / `addTeleportationSink`
    | Removed(role: Role, name: string)       // `removeTeleportationSource` / `removeTeleportationSink`
    | Closing(half: Teleportation)            // `Close()` of a half called or scheduled
    | Teleported(name: string, streamLabel: string) // `OnDoTeleport(label)` of a sink half called

  /** Options of `NewTeleportation`: `WithLocalAddress` and `WithName`. */
  datatype NewTeleportationOptions = NewTeleportationOptions(local: Option<Addr>, name: Option<string>)

  /** A value stored in `Teleport`'s option map, by dynamic type. */
  datatype OptionValue = AddrValue(addr: Addr) | StringValue(text: string) | OtherValue

  /** Options of `Teleport`: the raw `local` and `name` entries of its option map. */
  datatype TeleportOptions = TeleportOptions(local: Option<OptionValue>, name: Option<OptionValue>)

  /** Outcomes of the collaborators `NewTeleportation` consults, in call order. */
  datatype NewTeleportationEnv = NewTeleportationEnv(
    checked: Outcome<Addr>,        // checkAddrIsListenable(local), only when a local address is given
    generated: Addr,               // getListenableAddr(), only when none is given
    response: Outcome<string>,     // doRequest: a local failure, or the response's Error field
    transport: Outcome<Transport>, // getTransport(id)
    listen: Outcome<()>,           // net.Listen(local)
    construct: Outcome<()>)        // teleportation.NewTeleportationSource

  /** Outcomes of the collaborators `onNewTeleportation` consults, in call order. */
  datatype SinkEnv = SinkEnv(
    transport: Outcome<Transport>, // getTransport(req.PeerID)
    source: Outcome<Addr>,         // resolveTeleportationSourceAddr(LocalNetwork, LocalAddress)
    sink: Outcome<Addr>,           // resolveTeleportationSinkAddr(RemoteNetwork, RemoteAddress)
    construct: Outcome<()>)        // teleportation.NewTeleportationSink

  /** Outcomes of the collaborators `Teleport` consults. */
  datatype TeleportEnv = TeleportEnv(
    lookup: Outcome<Transport>,       // getTransport(peerID)
    created: Outcome<Transport>,      // NewTransport(peerID), only when the lookup found none
    events: seq<TransportState>,      // transitions delivered while the wait is subscribed
    create: NewTeleportationEnv)      // everything the delegated NewTeleportation consults
}
