/** Two-call and two-peer consequences of the control plane's contracts: what a caller can
    rely on from the specifications of `MeepoNode.Meepo` alone. The response a receiving
    peer sends is handed to the initiator as the outcome of its round trip. */
module Scenarios {
  import opened Wrappers
  import opened Model
  import opened Rules
  import opened MeepoNode

  /** The response a peer sent last. */
  function LastReply(m: Meepo): (res: Response)
    reads m
    requires |m.effects| > 0 && m.effects[|m.effects| - 1].Replied?
    ensures Replied(res) == m.effects[|m.effects| - 1]
  {
    m.effects[|m.effects| - 1].response
  }

  /** Teleporting twice to the same remote through the same peer creates one teleportation:
      the second call reuses it and returns the same local address. */
  method TeleportTwice(m: Meepo, peerID: string, remote: Addr, opts: TeleportOptions,
                       env1: TeleportEnv, env2: TeleportEnv) returns (a1: Outcome<Addr>, a2: Outcome<Addr>)
    requires m.Valid()
    requires !Reusable(m.sources, peerID, remote)
    requires CreatesTransport(env1) ==> Settles(env1.events)
    requires env1.create.transport.Ok? ==> env1.create.transport.value.peerID == peerID
    requires env2.lookup.Ok?
    modifies m
    ensures m.Valid()
    ensures a1.Ok? ==> a2 == a1
    ensures a1.Ok? ==>
      exists t: Teleportation :: m.sources == old(m.sources)[t.name := t] && t.source == a1.value && t.sink == remote
  {
    a1 := m.Teleport(peerID, remote, opts, env1);
    ghost var sources1 := m.sources;
    if a1.Ok? {
      var o := ForwardOptions(opts);
      var t := NewSource(o, remote, env1.create, |old(m.listenerClosed)|);
      assert sources1 == old(m.sources)[t.name := t];
      assert t.name in sources1 && sources1[t.name] == t && t.transport.peerID == peerID;
      assert t in PeerSources(sources1, peerID);
      forall u | u in PeerSources(sources1, peerID) && PointsAt(u, remote)
        ensures u == t
      {
        var k :| k in sources1 && sources1[k].transport.peerID == peerID && sources1[k] == u;
        if k != t.name {
          assert false;
        }
      }
    }
    a2 := m.Teleport(peerID, remote, opts, env2);
  }

  /** A `newTeleportation` round trip between initiator `a` and receiver `b`. When `a`
      succeeds, `a` finds the teleportation source first and `b` finds it sink first; when
      `b` refuses with an error that has text (for instance an address it cannot resolve),
      `b` registers no sink and `a` registers no source. */
  method CreateAcrossPeers(a: Meepo, b: Meepo, aID: string, bID: string, corr: nat, remote: Addr,
                           opts: NewTeleportationOptions, env: NewTeleportationEnv, sinkEnv: SinkEnv)
    returns (r: Outcome<Teleportation>)
    requires a.Valid() && b.Valid() && a != b
    requires LocalAddress(opts.local, env).Ok?
    modifies a, b
    ensures a.Valid() && b.Valid()
    ensures r.Ok? && SinkFailure(sinkEnv).None? ==>
      a.GetTeleportation(r.value.name, SourceFirst) == Ok(r.value) &&
      b.GetTeleportation(r.value.name, SinkFirst).Ok? &&
      b.GetTeleportation(r.value.name, SinkFirst).value.SinkHalf?
    ensures SinkFailure(sinkEnv).Some? ==> b.sinks == old(b.sinks)
    ensures SinkFailure(sinkEnv).Some? && SinkFailure(sinkEnv) != Some("") ==>
      r.Err? && a.sources == old(a.sources)
  {
    var local := LocalAddress(opts.local, env).value;
    var name := ChooseName(opts.name, remote);
    b.OnNewTeleportation(Envelope(corr, aID, NewRequest(name, local, remote)), sinkEnv);
    var reply := LastReply(b);
    r := a.NewTeleportation(bID, remote, opts, env.(response := Ok(reply.error)));
  }

  /** A refusal whose error text is empty reads as an acknowledgement: the receiver
      registers no sink, yet the initiator registers a source for the teleportation. */
  method CreateAfterEmptyRefusal(a: Meepo, b: Meepo, aID: string, bID: string, corr: nat, remote: Addr,
                                 opts: NewTeleportationOptions, env: NewTeleportationEnv, sinkEnv: SinkEnv)
    returns (r: Outcome<Teleportation>)
    requires a.Valid() && b.Valid() && a != b
    requires LocalAddress(opts.local, env).Ok? && env.transport.Ok? && env.listen.Ok? && env.construct.Ok?
    requires SinkFailure(sinkEnv) == Some("")
    modifies a, b
    ensures a.Valid() && b.Valid()
    ensures b.sinks == old(b.sinks)
    ensures r.Ok? && a.sources == old(a.sources)[r.value.name := r.value]
  {
    var local := LocalAddress(opts.local, env).value;
    var name := ChooseName(opts.name, remote);
    b.OnNewTeleportation(Envelope(corr, aID, NewRequest(name, local, remote)), sinkEnv);
    var reply := LastReply(b);
    r := a.NewTeleportation(bID, remote, opts, env.(response := Ok(reply.error)));
  }

  /** A stream of a teleportation the receiver does not serve is refused: the initiator's
      do-teleport callback fails with "teleportation not exist", so the stream is not
      relayed. */
  method DoTeleportWithoutSink(a: Meepo, b: Meepo, aID: string, bID: string, corr: nat,
                               name: string, streamLabel: string, prepared: Outcome<()>)
    returns (err: Option<string>)
    requires a.Valid() && b.Valid() && a != b
    requires name !in b.sinks
    modifies a, b
    ensures err == Some(TeleportationNotExist)
    ensures forall i :: |old(b.effects)| <= i < |b.effects| ==> !b.effects[i].Teleported?
  {
    b.OnDoTeleport(Envelope(corr, aID, DoTeleportRequest(name, streamLabel)), prepared);
    var reply := LastReply(b);
    err := a.DoTeleport(bID, name, streamLabel, Ok(reply.error));
  }

  /** Closing a teleportation from its initiator: the receiver acknowledges and schedules
      its close, the initiator then schedules its own. Once both scheduled closes have run
      the halves' close handlers, the initiator no longer holds the source and the receiver no
      longer holds the sink, and the initiator's listener has been closed once. Source and
      sink names are separate key spaces: a peer that also holds a half of the same name in
      its other registry still finds that one. */
  method CloseAcrossPeers(a: Meepo, b: Meepo, aID: string, corr: nat, name: string)
    returns (err: Option<string>)
    requires a.Valid() && b.Valid() && a != b
    requires name in a.sources && name in b.sinks
    modifies a, b
    ensures a.Valid() && b.Valid()
    ensures err.None?
    ensures Closing(old(a.sources[name])) in a.effects && Closing(old(b.sinks[name])) in b.effects
    ensures name !in a.sources && a.sinks == old(a.sinks)
    ensures name !in b.sinks && b.sources == old(b.sources)
    ensures name !in old(a.sinks) ==> a.GetTeleportation(name, SourceFirst).Err?
    ensures name !in old(b.sources) ==> b.GetTeleportation(name, SinkFirst).Err?
    ensures multiset(a.effects)[ListenerClosed(old(a.sources[name]).listener)] == 1
  {
    var t := a.sources[name];
    b.OnCloseTeleportation(Envelope(corr, aID, CloseTeleportationRequest(name)));
    var reply := LastReply(b);
    err := a.CloseTeleportation(name, Ok(reply.error));
    assert Closing(t) in a.effects;
    // the scheduled closes complete and call the halves' close handlers
    a.OnSourceClosed(name, t.listener);
    b.OnSinkClosed(name);
  }

  /** A transport failure and an explicit close race on one source half: the Failed
      handler closes the half, the close and error handlers both run, and the accept loop
      ends; the source is deregistered (by both handlers, the second time with nothing left to
      remove) and its listener is closed exactly once. */
  method FailureRacesClose(m: Meepo, h: nat, name: string)
    requires m.Valid() && name in m.sources
    requires h in m.subs && m.subs[h] == Subscription(m.sources[name].transport.peerID, Failed, CloseOnFailure(m.sources[name]))
    modifies m
    ensures m.Valid()
    ensures name !in m.sources && h !in m.subs
    ensures multiset(m.effects)[Removed(SourceRole, name)] == multiset(old(m.effects))[Removed(SourceRole, name)] + 2
    ensures multiset(m.effects)[ListenerClosed(old(m.sources[name]).listener)] == 1
  {
    var t := m.sources[name];
    m.OnTransportFailed(h);
    m.OnSourceClosed(name, t.listener);   // close handler
    m.OnSourceClosed(name, t.listener);   // error handler
    m.OnAcceptLoopExit(t.listener);
  }
}
