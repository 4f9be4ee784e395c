/** One peer of the tunnel tool, as its teleportation control plane sees it: the registry of
    source halves (teleportations this peer started) and of sink halves (teleportations a
    peer asked it to serve), the once-gates of the source listeners, the transport-state
    subscriptions it holds, and the ordered log of what it did to the outside world. */
module MeepoNode {
  import opened Wrappers
  import opened Model
  import opened Rules

  /** The source halves whose transport leads to `peerID`. */
  function PeerSources(sources: map<string, Teleportation>, peerID: string): set<Teleportation> {
    set k | k in sources && sources[k].transport.peerID == peerID :: sources[k]
  }

  /** Whether a source half for `peerID` already points at `remote`. */
  predicate Reusable(sources: map<string, Teleportation>, peerID: string, remote: Addr) {
    exists t :: t in PeerSources(sources, peerID) && PointsAt(t, remote)
  }

  class Meepo {
    /** Source registry, keyed by name. */
    var sources: map<string, Teleportation>
    /** Sink registry, keyed by name; an independent key space. */
    var sinks: map<string, Teleportation>
    /** `lisCloseOnce` of each listener a `NewTeleportation` opened: true once it fired. */
    var listenerClosed: seq<bool>
    /** Transport-state subscriptions, by handle. */
    var subs: map<nat, Subscription>
    var nextHandle: nat
    /** What this peer did to the outside world, in order. */
    var effects: seq<Effect>

    ghost predicate Valid()
      reads this
    {
      (forall k :: k in sources ==>
         sources[k].SourceHalf? && sources[k].name == k && sources[k].listener < |listenerClosed|) &&
      (forall k :: k in sinks ==> sinks[k].SinkHalf? && sinks[k].name == k) &&
      (forall h :: h in subs ==> h < nextHandle) &&
      // every listener is closed at most once, and exactly when its gate has fired
      (forall l :: 0 <= l < |listenerClosed| ==>
         multiset(effects)[ListenerClosed(l)] == if listenerClosed[l] then 1 else 0) &&
      (forall e :: e in effects && e.ListenerClosed? ==> e.listener < |listenerClosed|)
    }

    constructor ()
      ensures Valid()
      ensures sources == map[] && sinks == map[] && listenerClosed == []
      ensures subs == map[] && effects == []
    {
      sources, sinks := map[], map[];
      listenerClosed := [];
      subs, nextHandle := map[], 0;
      effects := [];
    }

    // -------------------------------------------------------------------------------------
    // Registry lookups

    /** Looks `name` up in one registry, then the other, in the given order. */
    function GetTeleportation(name: string, order: LookupOrder): (r: Outcome<Teleportation>)
      reads this
      ensures r.Err? <==> name !in sources && name !in sinks
      ensures r.Err? ==> r.error == TeleportationNotExist
      ensures order == SourceFirst && name in sources ==> r == Ok(sources[name])
      ensures order == SinkFirst && name in sinks ==> r == Ok(sinks[name])
      ensures r.Ok? ==> (name in sources && r.value == sources[name]) ||
                        (name in sinks && r.value == sinks[name])
    {
      match order
      case SourceFirst =>
        if name in sources then Ok(sources[name])
        else if name in sinks then Ok(sinks[name])
        else Err(TeleportationNotExist)
      case SinkFirst =>
        if name in sinks then Ok(sinks[name])
        else if name in sources then Ok(sources[name])
        else Err(TeleportationNotExist)
    }

    /** The source halves whose transport leads to `peerID`, in the registry's (unspecified)
        iteration order. */
    method ListTeleportationsByPeerID(peerID: string) returns (tss: seq<Teleportation>)
      ensures forall t :: t in tss <==> t in PeerSources(sources, peerID)
    {
      tss := [];
      var keys := sources.Keys;
      while keys != {}
        invariant keys <= sources.Keys
        invariant forall t :: t in tss ==> t in PeerSources(sources, peerID)
        invariant forall k :: k in sources.Keys - keys && sources[k].transport.peerID == peerID ==>
          sources[k] in tss
        decreases keys
      {
        var k :| k in keys;
        if sources[k].transport.peerID == peerID {
          tss := tss + [sources[k]];
        }
        keys := keys - {k};
      }
    }

    // -------------------------------------------------------------------------------------
    // Primitives

    /** `OnTransportState`: subscribe `action` to the transitions of `peerID`'s transport into
        `state`, under a fresh handle. */
    method Subscribe(peerID: string, state: TransportState, action: Action) returns (h: nat)
      requires Valid()
      modifies this
      ensures Valid()
      ensures h == old(nextHandle) && h !in old(subs) && nextHandle == h + 1
      ensures subs == old(subs)[h := Subscription(peerID, state, action)]
      ensures sources == old(sources) && sinks == old(sinks)
      ensures listenerClosed == old(listenerClosed) && effects == old(effects)
    {
      h := nextHandle;
      subs := subs[h := Subscription(peerID, state, action)];
      nextHandle := nextHandle + 1;
    }

    /** `UnsetOnTransportState`. */
    method Unsubscribe(h: nat)
      requires Valid()
      modifies this
      ensures Valid()
      ensures subs == old(subs) - {h} && nextHandle == old(nextHandle)
      ensures sources == old(sources) && sinks == old(sinks)
      ensures listenerClosed == old(listenerClosed) && effects == old(effects)
    {
      subs := subs - {h};
    }

    /** Appends effects that close no listener. */
    method Record(es: seq<Effect>)
      requires Valid()
      requires forall i :: 0 <= i < |es| ==> !es[i].ListenerClosed?
      modifies this
      ensures Valid()
      ensures effects == old(effects) + es
      ensures sources == old(sources) && sinks == old(sinks) && listenerClosed == old(listenerClosed)
      ensures subs == old(subs) && nextHandle == old(nextHandle)
    {
      forall l | 0 <= l < |listenerClosed|
        ensures multiset(effects + es)[ListenerClosed(l)] == multiset(effects)[ListenerClosed(l)]
      {
        assert ListenerClosed(l) !in multiset(es);
      }
      effects := effects + es;
    }

    /** `net.Listen` succeeded: a new listener, not yet closed, whose accept loop runs. */
    method OpenListener(addr: Addr) returns (listener: nat)
      requires Valid()
      modifies this
      ensures Valid()
      ensures listener == |old(listenerClosed)| && listenerClosed == old(listenerClosed) + [false]
      ensures effects == old(effects) + [Listened(addr, listener)]
      ensures sources == old(sources) && sinks == old(sinks)
      ensures subs == old(subs) && nextHandle == old(nextHandle)
    {
      listener := |listenerClosed|;
      Record([Listened(addr, listener)]);
      listenerClosed := listenerClosed + [false];
    }

    /** `addTeleportationSource`: registers (or replaces) the source half under its name. */
    method AddSource(ts: Teleportation)
      requires Valid() && ts.SourceHalf? && ts.listener < |listenerClosed|
      modifies this
      ensures Valid()
      ensures sources == old(sources)[ts.name := ts] && effects == old(effects) + [Added(ts)]
      ensures sinks == old(sinks) && listenerClosed == old(listenerClosed)
      ensures subs == old(subs) && nextHandle == old(nextHandle)
    {
      Record([Added(ts)]);
      sources := sources[ts.name := ts];
    }

    /** `addTeleportationSink`: registers (or replaces) the sink half under its name. */
    method AddSink(ts: Teleportation)
      requires Valid() && ts.SinkHalf?
      modifies this
      ensures Valid()
      ensures sinks == old(sinks)[ts.name := ts] && effects == old(effects) + [Added(ts)]
      ensures sources == old(sources) && listenerClosed == old(listenerClosed)
      ensures subs == old(subs) && nextHandle == old(nextHandle)
    {
      Record([Added(ts)]);
      sinks := sinks[ts.name := ts];
    }

    /** `lisCloseOnce.Do(lisCloser)`: the listener is closed the first time only. */
    method CloseListenerOnce(listener: nat)
      requires Valid() && listener < |listenerClosed|
      modifies this
      ensures Valid()
      ensures listenerClosed == old(listenerClosed)[listener := true]
      ensures effects == old(effects) + (if old(listenerClosed[listener]) then [] else [ListenerClosed(listener)])
      ensures multiset(effects)[ListenerClosed(listener)] == 1
      ensures sources == old(sources) && sinks == old(sinks)
      ensures subs == old(subs) && nextHandle == old(nextHandle)
    {
      if !listenerClosed[listener] {
        listenerClosed := listenerClosed[listener := true];
        effects := effects + [ListenerClosed(listener)];
      }
    }

    // -------------------------------------------------------------------------------------
    // NewTeleportation (initiator)

    /** Creates a teleportation to `remote` through peer `id`. Nothing is registered unless
        every step succeeds; on success exactly one source half is registered, under its name. */
    method NewTeleportation(id: string, remote: Addr, opts: NewTeleportationOptions, env: NewTeleportationEnv)
      returns (r: Outcome<Teleportation>)
      requires Valid()
      modifies this
      ensures Valid()
      ensures sinks == old(sinks)
      ensures r.Err? <==> NewTeleportationFailure(opts, env).Some?
      ensures r.Err? ==> r.error == NewTeleportationFailure(opts, env).value
      ensures r.Err? ==> sources == old(sources) && subs == old(subs) && nextHandle == old(nextHandle)
      ensures r.Ok? ==>
        r.value == NewSource(opts, remote, env, |old(listenerClosed)|) &&
        sources == old(sources)[r.value.name := r.value] &&
        subs == old(subs)[old(nextHandle) := Subscription(r.value.transport.peerID, Failed, CloseOnFailure(r.value))] &&
        nextHandle == old(nextHandle) + 1
      // the request is sent only once the local address is settled; the listener is opened
      // only after the peer's acknowledgement and a transport lookup, and stays open when the
      // source half cannot be constructed
      ensures effects == old(effects) + NewTeleportationEffects(id, remote, opts, env, |old(listenerClosed)|)
      ensures listenerClosed == old(listenerClosed) + (if OpensListener(opts, env) then [false] else [])
    {
      var local: Addr;
      if opts.local.Some? {
        if env.checked.Err? {
          return Err(env.checked.error);
        }
        local := env.checked.value;
      } else {
        local := env.generated;
      }

      var name := ChooseName(opts.name, remote);
      Record([Sent(id, NewRequest(name, local, remote))]);
      var failure := ResponseError(env.response);
      if failure.Some? {
        return Err(failure.value);
      }

      if env.transport.Err? {
        return Err(env.transport.error);
      }
      var tp := env.transport.value;

      if env.listen.Err? {
        return Err(env.listen.error);
      }
      // the listener is open and its accept loop runs from here on
      var listener := OpenListener(local);

      if env.construct.Err? {
        return Err(env.construct.error);
      }
      var ts := SourceHalf(name, local, remote, tp, listener);

      var _ := Subscribe(tp.peerID, Failed, CloseOnFailure(ts));

      AddSource(ts);
      return Ok(ts);
    }

    /** The source half's do-teleport callback: before relaying a newly accepted stream, ask
        the peer to prepare its sink for `streamLabel`; an error means the stream is not
        relayed. */
    method DoTeleport(id: string, name: string, streamLabel: string, response: Outcome<string>)
      returns (err: Option<string>)
      requires Valid()
      modifies this
      ensures Valid()
      ensures err.None? <==> response == Ok("")
      ensures err == ResponseError(response)
      ensures effects == old(effects) + [Sent(id, DoTeleportRequest(name, streamLabel))]
      ensures sources == old(sources) && sinks == old(sinks) && listenerClosed == old(listenerClosed)
      ensures subs == old(subs) && nextHandle == old(nextHandle)
    {
      Record([Sent(id, DoTeleportRequest(name, streamLabel))]);
      err := ResponseError(response);
    }

    /** The source half's close and error handlers (identical): deregister the source by name
        and close its listener, at most once across them and the accept loop. */
    method OnSourceClosed(name: string, listener: nat)
      requires Valid() && listener < |listenerClosed|
      modifies this
      ensures Valid()
      ensures sources == old(sources) - {name} && sinks == old(sinks)
      ensures listenerClosed == old(listenerClosed)[listener := true]
      ensures effects == old(effects) + [Removed(SourceRole, name)] +
        (if old(listenerClosed[listener]) then [] else [ListenerClosed(listener)])
      ensures multiset(effects)[ListenerClosed(listener)] == 1
      ensures subs == old(subs) && nextHandle == old(nextHandle)
    {
      sources := sources - {name};
      Record([Removed(SourceRole, name)]);
      CloseListenerOnce(listener);
    }

    /** The end of a listener's accept loop (its listener failed to accept): close the
        listener, unless one of the handlers already did. */
    method OnAcceptLoopExit(listener: nat)
      requires Valid() && listener < |listenerClosed|
      modifies this
      ensures Valid()
      ensures listenerClosed == old(listenerClosed)[listener := true]
      ensures effects == old(effects) + (if old(listenerClosed[listener]) then [] else [ListenerClosed(listener)])
      ensures multiset(effects)[ListenerClosed(listener)] == 1
      ensures sources == old(sources) && sinks == old(sinks)
      ensures subs == old(subs) && nextHandle == old(nextHandle)
    {
      CloseListenerOnce(listener);
    }

    /** The Failed-state handler subscribed for a half: close it, then unsubscribe itself. */
    method OnTransportFailed(h: nat)
      requires Valid() && h in subs && subs[h].state == Failed && subs[h].action.CloseOnFailure?
      modifies this
      ensures Valid()
      ensures effects == old(effects) + [Closing(old(subs)[h].action.half)]
      ensures subs == old(subs) - {h} && h !in subs && nextHandle == old(nextHandle)
      ensures sources == old(sources) && sinks == old(sinks) && listenerClosed == old(listenerClosed)
    {
      Record([Closing(subs[h].action.half)]);
      Unsubscribe(h);
    }

    // -------------------------------------------------------------------------------------
    // onNewTeleportation and onDoTeleport (receiver)

    /** Serves a `newTeleportation` request: the first failing step is replied with its error
        text and registers nothing; on success the sink half is registered, then the success
        response is sent. */
    method OnNewTeleportation(req: Envelope, env: SinkEnv)
      requires Valid() && req.body.NewTeleportationRequest?
      modifies this
      ensures Valid()
      ensures sources == old(sources) && listenerClosed == old(listenerClosed)
      ensures SinkFailure(env).Some? ==>
        sinks == old(sinks) && subs == old(subs) && nextHandle == old(nextHandle) &&
        effects == old(effects) + [Replied(Invert(req, SinkFailure(env).value))]
      ensures SinkFailure(env).None? ==>
        var ts := SinkHalf(req.body.name, env.source.value, env.sink.value, env.transport.value);
        sinks == old(sinks)[req.body.name := ts] &&
        subs == old(subs)[old(nextHandle) := Subscription(ts.transport.peerID, Failed, CloseOnFailure(ts))] &&
        nextHandle == old(nextHandle) + 1 &&
        effects == old(effects) + [Added(ts), Replied(Invert(req, ""))]
    {
      if env.transport.Err? {
        Record([Replied(Invert(req, env.transport.error))]);
        return;
      }
      var tp := env.transport.value;

      if env.source.Err? {
        Record([Replied(Invert(req, env.source.error))]);
        return;
      }
      if env.sink.Err? {
        Record([Replied(Invert(req, env.sink.error))]);
        return;
      }

      if env.construct.Err? {
        Record([Replied(Invert(req, env.construct.error))]);
        return;
      }
      var ts := SinkHalf(req.body.name, env.source.value, env.sink.value, tp);
      var _ := Subscribe(tp.peerID, Failed, CloseOnFailure(ts));

      AddSink(ts);

      Record([Replied(Invert(req, ""))]);
    }

    /** Serves a `doTeleport` request: an unknown name is refused without touching any sink;
        otherwise the sink's `OnDoTeleport` runs and its error, if any, is replied verbatim. */
    method OnDoTeleport(req: Envelope, prepared: Outcome<()>)
      requires Valid() && req.body.DoTeleportRequest?
      modifies this
      ensures Valid()
      ensures req.body.name !in old(sinks) ==>
        effects == old(effects) + [Replied(Invert(req, TeleportationNotExist))]
      ensures req.body.name in old(sinks) ==>
        effects == old(effects) + [Teleported(req.body.name, req.body.streamLabel),
                                   Replied(Invert(req, if prepared.Err? then prepared.error else ""))]
      ensures sources == old(sources) && sinks == old(sinks) && listenerClosed == old(listenerClosed)
      ensures subs == old(subs) && nextHandle == old(nextHandle)
    {
      if req.body.name !in sinks {
        Record([Replied(Invert(req, TeleportationNotExist))]);
        return;
      }

      Record([Teleported(req.body.name, req.body.streamLabel)]);
      if prepared.Err? {
        Record([Replied(Invert(req, prepared.error))]);
        return;
      }

      Record([Replied(Invert(req, ""))]);
    }

    /** The sink half's close and error handlers (identical): deregister the sink by name. */
    method OnSinkClosed(name: string)
      requires Valid()
      modifies this
      ensures Valid()
      ensures sinks == old(sinks) - {name} && sources == old(sources)
      ensures effects == old(effects) + [Removed(SinkRole, name)]
      ensures listenerClosed == old(listenerClosed) && subs == old(subs) && nextHandle == old(nextHandle)
    {
      sinks := sinks - {name};
      Record([Removed(SinkRole, name)]);
    }

    // -------------------------------------------------------------------------------------
    // CloseTeleportation and onCloseTeleportation

    /** Asks the peer to close teleportation `name` (looked up source first). Returns nil as
        soon as the peer acknowledges; the local close is then only scheduled. */
    method CloseTeleportation(name: string, response: Outcome<string>) returns (err: Option<string>)
      requires Valid()
      modifies this
      ensures Valid()
      ensures sources == old(sources) && sinks == old(sinks) && listenerClosed == old(listenerClosed)
      ensures subs == old(subs) && nextHandle == old(nextHandle)
      ensures match old(GetTeleportation(name, SourceFirst))
        case Err(e) => err == Some(e) && effects == old(effects)
        case Ok(t) =>
          err == ResponseError(response) &&
          effects == old(effects) + [Sent(t.transport.peerID, CloseTeleportationRequest(name))] +
                     (if err.None? then [Closing(t)] else [])
    {
      var found := GetTeleportation(name, SourceFirst);
      if found.Err? {
        return Some(found.error);
      }
      var tp := found.value;

      Record([Sent(tp.transport.peerID, CloseTeleportationRequest(name))]);
      err := ResponseError(response);
      if err.Some? {
        return;
      }

      // go tp.Close(): its outcome is only logged
      Record([Closing(tp)]);
      return None;
    }

    /** Serves a `closeTeleportation` request (looked up sink first): an unknown name is
        replied with the lookup error and closes nothing; otherwise the close is scheduled and
        success is replied whatever the close will do. */
    method OnCloseTeleportation(req: Envelope)
      requires Valid() && req.body.CloseTeleportationRequest?
      modifies this
      ensures Valid()
      ensures sources == old(sources) && sinks == old(sinks) && listenerClosed == old(listenerClosed)
      ensures subs == old(subs) && nextHandle == old(nextHandle)
      ensures match old(GetTeleportation(req.body.name, SinkFirst))
        case Err(e) => effects == old(effects) + [Replied(Invert(req, e))]
        case Ok(t) => effects == old(effects) + [Closing(t), Replied(Invert(req, ""))]
    {
      var found := GetTeleportation(req.body.name, SinkFirst);
      if found.Err? {
        Record([Replied(Invert(req, found.error))]);
        return;
      }

      // go ts.Close(): its outcome is only logged
      Record([Closing(found.value)]);
      Record([Replied(Invert(req, ""))]);
    }

    // -------------------------------------------------------------------------------------
    // Teleport (front door)

    /** Makes `remote` reachable through peer `peerID` and returns the local address to dial:
        an existing source half of that peer already pointing at `remote` is reused (no new
        teleportation, no round trip); otherwise a new one is created. */
    method Teleport(peerID: string, remote: Addr, opts: TeleportOptions, env: TeleportEnv)
      returns (r: Outcome<Addr>)
      requires Valid()
      requires CreatesTransport(env) ==> Settles(env.events)
      modifies this
      ensures Valid()
      ensures sinks == old(sinks)
      ensures TransportFailure(env).Some? ==>
        r == Err(TransportFailure(env).value) &&
        sources == old(sources) && effects == old(effects) && listenerClosed == old(listenerClosed) &&
        subs == old(subs) && nextHandle == old(nextHandle)
      // the three wait subscriptions are gone again in every other case
      ensures TransportFailure(env).None? && Reusable(old(sources), peerID, remote) ==>
        r.Ok? &&
        (exists t :: t in PeerSources(old(sources), peerID) && PointsAt(t, remote) && r.value == t.source) &&
        sources == old(sources) && effects == old(effects) && listenerClosed == old(listenerClosed) &&
        subs == old(subs) && nextHandle == old(nextHandle) + (if CreatesTransport(env) then 3 else 0)
      ensures TransportFailure(env).None? && !Reusable(old(sources), peerID, remote) ==>
        var o := ForwardOptions(opts);
        var h := old(nextHandle) + (if CreatesTransport(env) then 3 else 0);
        effects == old(effects) + NewTeleportationEffects(peerID, remote, o, env.create, |old(listenerClosed)|) &&
        listenerClosed == old(listenerClosed) + (if OpensListener(o, env.create) then [false] else []) &&
        match NewTeleportationFailure(o, env.create)
        case Some(e) => r == Err(e) && sources == old(sources) && subs == old(subs) && nextHandle == h
        case None =>
          var t := NewSource(o, remote, env.create, |old(listenerClosed)|);
          r == Ok(t.source) && sources == old(sources)[t.name := t] &&
          subs == old(subs)[h := Subscription(t.transport.peerID, Failed, CloseOnFailure(t))] &&
          nextHandle == h + 1
    {
      if env.lookup.Err? {
        if env.lookup.error != TransportNotExist {
          return Err(env.lookup.error);
        }
        if env.created.Err? {
          return Err(env.created.error);
        }
        var tp := env.created.value;
        // wait for the first of Connected, Failed or Closed; whichever it is, carry on
        var h1 := Subscribe(tp.peerID, Connected, SignalDone);
        var h2 := Subscribe(tp.peerID, Failed, SignalDone);
        var h3 := Subscribe(tp.peerID, Closed, SignalDone);
        var _, _ := AwaitDone(env.events);
        Unsubscribe(h3);
        Unsubscribe(h2);
        Unsubscribe(h1);
        assert subs == old(subs);
      }

      var tss := ListTeleportationsByPeerID(peerID);
      var found := FindExistingSource(tss, remote);
      if found.Some? {
        return Ok(found.value);
      }

      var ts := NewTeleportation(peerID, remote, ForwardOptions(opts), env.create);
      if ts.Err? {
        return Err(ts.error);
      }
      return Ok(ts.value.source);
    }
  }
}
