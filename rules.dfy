/** The decision rules of the control plane that compute a value from their inputs: the
    teleportation name, the local address, the verdict on a response, the first-match reuse
    rule of `Teleport`, the forwarding of `Teleport`'s options, and the once-only wake-up of
    `Teleport`'s wait for its transport. */
module Rules {
  import opened Wrappers
  import opened Model

  // ---------------------------------------------------------------------------------------
  // Naming

  /** The name a teleportation gets when none is supplied: the remote address's network and
      its string form, joined by a colon. */
  function DefaultName(remote: Addr): string {
    remote.network + ":" + remote.address
  }

  /** The name `NewTeleportation` registers under: the supplied one when the `name` option is
      present (even when it is empty), otherwise the default name. */
  function ChooseName(name: Option<string>, remote: Addr): (r: string)
    ensures name.Some? ==> r == name.value
    ensures name.None? ==> |r| == |remote.network| + 1 + |remote.address|
    ensures name.None? ==> r[..|remote.network|] == remote.network && r[|remote.network|] == ':'
    ensures name.None? ==> r[|remote.network| + 1..] == remote.address
  {
    match name
    case Some(n) => n
    case None => DefaultName(remote)
  }

  /** The default name spells the network, then a colon, then the address. */
  lemma DefaultNameLayout(remote: Addr)
    ensures |DefaultName(remote)| == |remote.network| + 1 + |remote.address|
    ensures DefaultName(remote)[|remote.network|] == ':'
    ensures forall i :: 0 <= i < |remote.network| ==> DefaultName(remote)[i] == remote.network[i]
  {
  }

  /** Two remotes whose networks have no colon (as "tcp", "udp" or "unix") get the same
      default name only when they are the same remote; so the default name identifies the
      remote the teleportation points at. */
  lemma {:induction false} DefaultNameInjective(a: Addr, b: Addr)
    requires ':' !in a.network && ':' !in b.network
    requires DefaultName(a) == DefaultName(b)
    ensures a == b
  {
    var s := DefaultName(a);
    DefaultNameLayout(a);
    DefaultNameLayout(b);
    if |a.network| < |b.network| {
      assert false;
    } else if |b.network| < |a.network| {
      assert false;
    }
    assert a.network == s[..|a.network|] == b.network;
    assert a.address == s[|a.network| + 1..] == b.address;
  }

  /** Two different remotes can share a default name when a network contains a colon. */
  lemma DefaultNameNotInjectiveWithColon()
    ensures DefaultName(Addr("a:b", "c")) == DefaultName(Addr("a", "b:c"))
    ensures Addr("a:b", "c") != Addr("a", "b:c")
  {
  }

  // ---------------------------------------------------------------------------------------
  // Local address

  /** The local address `NewTeleportation` listens on: a supplied address must pass the
      listenability check (whose error is returned as is), otherwise a listenable address is
      generated. */
  function LocalAddress(local: Option<Addr>, env: NewTeleportationEnv): (r: Outcome<Addr>)
    ensures local.None? ==> r == Ok(env.generated)
    ensures local.Some? ==> r == env.checked
    ensures r.Err? ==> local.Some?
  {
    if local.Some? then env.checked else Ok(env.generated)
  }

  // ---------------------------------------------------------------------------------------
  // Responses

  /** The verdict on a request's round trip: the local failure of `doRequest`, or else the
      response's error text when it is non-empty. `None` means the peer acknowledged. */
  function ResponseError(out: Outcome<string>): (r: Option<string>)
    ensures r.None? <==> out == Ok("")
    ensures out.Err? ==> r == Some(out.error)
    ensures out.Ok? && out.value != "" ==> r == Some(out.value)
  {
    match out
    case Err(e) => Some(e)
    case Ok(text) => if text == "" then None else Some(text)
  }

  // ---------------------------------------------------------------------------------------
  // Which failure comes first

  /** The body of the `newTeleportation` request: the name and both endpoints. */
  function NewRequest(name: string, local: Addr, remote: Addr): (req: Request)
    ensures req.MethodOf() == NewTeleportationMethod && req.name == name
  {
    NewTeleportationRequest(name, local.network, local.address, remote.network, remote.address)
  }

  /** The error `NewTeleportation` returns, in the order the collaborators are consulted:
      the local address check, the peer's verdict, the transport lookup, listening, and the
      construction of the source half. `None` when every step succeeds. */
  function NewTeleportationFailure(opts: NewTeleportationOptions, env: NewTeleportationEnv): (r: Option<string>)
    ensures r.None? <==>
      LocalAddress(opts.local, env).Ok? && env.response == Ok("") && env.transport.Ok? &&
      env.listen.Ok? && env.construct.Ok?
    ensures LocalAddress(opts.local, env).Err? ==> r == Some(LocalAddress(opts.local, env).error)
    ensures LocalAddress(opts.local, env).Ok? && ResponseError(env.response).Some? ==>
      r == ResponseError(env.response)
  {
    if LocalAddress(opts.local, env).Err? then Some(LocalAddress(opts.local, env).error)
    else if ResponseError(env.response).Some? then ResponseError(env.response)
    else if env.transport.Err? then Some(env.transport.error)
    else if env.listen.Err? then Some(env.listen.error)
    else if env.construct.Err? then Some(env.construct.error)
    else None
  }

  /** The source half `NewTeleportation` registers when every step succeeds. */
  function NewSource(opts: NewTeleportationOptions, remote: Addr, env: NewTeleportationEnv, listener: nat): (t: Teleportation)
    requires NewTeleportationFailure(opts, env).None?
    ensures t.SourceHalf? && t.name == ChooseName(opts.name, remote) && t.sink == remote
    ensures Ok(t.source) == LocalAddress(opts.local, env) && Ok(t.transport) == env.transport
  {
    SourceHalf(ChooseName(opts.name, remote), LocalAddress(opts.local, env).value, remote,
               env.transport.value, listener)
  }

  /** Whether `NewTeleportation` gets as far as opening its listener: the address is settled,
      the peer acknowledged, the transport was found and listening succeeded. */
  predicate OpensListener(opts: NewTeleportationOptions, env: NewTeleportationEnv) {
    LocalAddress(opts.local, env).Ok? && ResponseError(env.response).None? && env.transport.Ok? &&
    env.listen.Ok?
  }

  /** What `NewTeleportation` to peer `id` does to the outside world, in order: nothing when
      the local address is refused; otherwise the request, then (once acknowledged, with a
      transport and a listener) the listener, then (once constructed) the registration.
      `listener` is the index the new listener gets. */
  function NewTeleportationEffects(id: string, remote: Addr, opts: NewTeleportationOptions,
                                   env: NewTeleportationEnv, listener: nat): seq<Effect>
  {
    match LocalAddress(opts.local, env)
    case Err(_) => []
    case Ok(local) =>
      var sent := Sent(id, NewRequest(ChooseName(opts.name, remote), local, remote));
      if !OpensListener(opts, env) then [sent]
      else if env.construct.Err? then [sent, Listened(local, listener)]
      else [sent, Listened(local, listener), Added(NewSource(opts, remote, env, listener))]
  }

  /** The error `onNewTeleportation` replies with: transport lookup first, then the source
      address, then the sink address, then the construction of the sink half. */
  function SinkFailure(env: SinkEnv): (r: Option<string>)
    ensures r.None? <==> env.transport.Ok? && env.source.Ok? && env.sink.Ok? && env.construct.Ok?
    ensures env.transport.Err? ==> r == Some(env.transport.error)
    ensures env.transport.Ok? && env.source.Err? ==> r == Some(env.source.error)
    ensures env.transport.Ok? && env.source.Ok? && env.sink.Err? ==> r == Some(env.sink.error)
  {
    if env.transport.Err? then Some(env.transport.error)
    else if env.source.Err? then Some(env.source.error)
    else if env.sink.Err? then Some(env.sink.error)
    else if env.construct.Err? then Some(env.construct.error)
    else None
  }

  /** `Teleport`'s transport step: a lookup error other than "transport not exist" is
      returned as is; a missing transport is created, and its creation error returned. */
  function TransportFailure(env: TeleportEnv): (r: Option<string>)
    ensures env.lookup.Ok? ==> r.None?
    ensures env.lookup.Err? && env.lookup.error != TransportNotExist ==> r == Some(env.lookup.error)
    ensures env.lookup.Err? && env.lookup.error == TransportNotExist ==>
      r == (if env.created.Err? then Some(env.created.error) else None)
  {
    match env.lookup
    case Ok(_) => None
    case Err(e) =>
      if e != TransportNotExist then Some(e)
      else if env.created.Err? then Some(env.created.error)
      else None
  }

  /** Whether `Teleport` created the transport and has to wait for it to settle. */
  predicate CreatesTransport(env: TeleportEnv) {
    env.lookup.Err? && env.lookup.error == TransportNotExist && env.created.Ok?
  }

  // ---------------------------------------------------------------------------------------
  // Reuse of an existing teleportation by `Teleport`

  /** `Teleport`'s match: both the network and the string form of the addresses agree. */
  predicate SameAddr(a: Addr, b: Addr) {
    a.network == b.network && a.address == b.address
  }

  /** Whether `t` already points at `remote`. */
  predicate PointsAt(t: Teleportation, remote: Addr) {
    SameAddr(t.sink, remote)
  }

  /** The local address of the first teleportation of `tss` (in list order) that points at
      `remote`, if any. */
  function FirstMatch(tss: seq<Teleportation>, remote: Addr): (r: Option<Addr>)
    ensures r.None? <==> forall i :: 0 <= i < |tss| ==> !PointsAt(tss[i], remote)
    ensures r.Some? ==>
      exists i :: 0 <= i < |tss| && PointsAt(tss[i], remote) && r.value == tss[i].source &&
        forall j :: 0 <= j < i ==> !PointsAt(tss[j], remote)
  {
    if tss == [] then None
    else if PointsAt(tss[0], remote) then Some(tss[0].source)
    else
      var r := FirstMatch(tss[1..], remote);
      assert forall i :: 1 <= i < |tss| ==> tss[i] == tss[1..][i - 1];
      r
  }

  /** When every teleportation of `tss` pointing at `remote` has the same local address,
      that address is the one found, whatever the order of `tss`. */
  lemma FirstMatchUnique(tss: seq<Teleportation>, remote: Addr, t: Teleportation)
    requires t in tss && PointsAt(t, remote)
    requires forall u :: u in tss && PointsAt(u, remote) ==> u.source == t.source
    ensures FirstMatch(tss, remote) == Some(t.source)
  {
  }

  /** The search loop of `Teleport` over the listed teleportations: the first one that
      points at `remote` wins. */
  method FindExistingSource(tss: seq<Teleportation>, remote: Addr) returns (found: Option<Addr>)
    ensures found == FirstMatch(tss, remote)
  {
    var i := 0;
    while i < |tss|
      invariant 0 <= i <= |tss|
      invariant FirstMatch(tss, remote) == FirstMatch(tss[i..], remote)
    {
      var ts := tss[i];
      if SameAddr(ts.sink, remote) {
        return Some(ts.source);
      }
      assert tss[i..][1..] == tss[i + 1..];
      i := i + 1;
    }
    return None;
  }

  // ---------------------------------------------------------------------------------------
  // Options forwarded by `Teleport`

  /** `Teleport` forwards its `local` option only when it holds an address and its `name`
      option only when it holds a string; anything else is dropped. */
  function ForwardOptions(o: TeleportOptions): (r: NewTeleportationOptions)
    ensures r.local.Some? <==> o.local.Some? && o.local.value.AddrValue?
    ensures r.local.Some? ==> o.local == Some(AddrValue(r.local.value))
    ensures r.name.Some? <==> o.name.Some? && o.name.value.StringValue?
    ensures r.name.Some? ==> o.name == Some(StringValue(r.name.value))
  {
    NewTeleportationOptions(
      if o.local.Some? && o.local.value.AddrValue? then Some(o.local.value.addr) else None,
      if o.name.Some? && o.name.value.StringValue? then Some(o.name.value.text) else None)
  }

  /** What the forwarding means for the teleportation `Teleport` creates: a `name` option
      that is absent or not a string silently gives the default name, and a `local` option
      that is absent or not an address silently gives a generated local address, which
      cannot fail the address step. A string name and an address are used as given. */
  lemma ForwardedNameAndLocal(o: TeleportOptions, remote: Addr, env: NewTeleportationEnv)
    ensures (o.name.None? || !o.name.value.StringValue?) ==>
      ChooseName(ForwardOptions(o).name, remote) == DefaultName(remote)
    ensures o.name.Some? && o.name.value.StringValue? ==>
      ChooseName(ForwardOptions(o).name, remote) == o.name.value.text
    ensures (o.local.None? || !o.local.value.AddrValue?) ==>
      LocalAddress(ForwardOptions(o).local, env) == Ok(env.generated)
    ensures o.local.Some? && o.local.value.AddrValue? ==>
      LocalAddress(ForwardOptions(o).local, env) == env.checked
  {
  }

  // ---------------------------------------------------------------------------------------
  // Waiting for a freshly created transport

  /** The transitions that end `Teleport`'s wait: Connected, Failed and Closed alike. */
  predicate Settling(s: TransportState) {
    s == Connected || s == Failed || s == Closed
  }

  predicate Settles(events: seq<TransportState>) {
    exists i :: 0 <= i < |events| && Settling(events[i])
  }

  /** The three handlers `Teleport` subscribes share one callback that closes the `done`
      channel through a once-gate. Given the transitions delivered while they are
      subscribed, the channel is closed exactly once when any of them settles and never
      otherwise, so a second settling transition cannot close it again. */
  method AwaitDone(events: seq<TransportState>) returns (done: bool, closes: nat)
    ensures closes <= 1
    ensures done <==> Settles(events)
    ensures closes == (if Settles(events) then 1 else 0)
  {
    var doneOnce := false;
    done, closes := false, 0;
    for i := 0 to |events|
      invariant doneOnce == done
      invariant done <==> Settles(events[..i])
      invariant closes == (if done then 1 else 0)
    {
      if Settling(events[i]) {
        // the shared callback closes `done` only the first time its gate fires
        if !doneOnce {
          doneOnce := true;
          done := true;
          closes := closes + 1;
        }
      }
      assert events[..i + 1] == events[..i] + [events[i]];
    }
    assert events[..|events|] == events;
  }
}
