/** Which handshake messages can succeed: exactly those whose claim about the other chain was true at the height they name. */
module Openings {
  import opened Prelude
  import opened Heights
  import opened Paths
  import opened Denoms
  import opened Versions
  import opened Tendermint
  import opened IbcStore
  import opened Connections
  import opened Channels
  import opened Dispatch
  import opened World
  import opened Invariants
  import opened NodeSteps
  import opened Preservation
  import opened HandshakeSteps
  import opened Safety
  import opened Acceptance

  // ---------------------------------------------------------------- channels

  /** The transfer module decides by its own rule; any other module answers for itself. */
  predicate Consents(s: Store, port: PortId, rule: bool, reply: Reply) {
    if port == s.config.transferPort then rule else reply.accept
  }

  /** The connection's version names the ordering. */
  predicate Listed(conn: ConnectionEnd, ordering: Order) {
    && |conn.versions| > 0
    && match ordering
       case Ordered => "ORDER_ORDERED" in conn.versions[0].features
       case Unordered => "ORDER_UNORDERED" in conn.versions[0].features
       case NoOrder => false
  }

  /** Unfrozen and within its trusting period. */
  ghost predicate ClientUsable(s: Store, host: Host, c: ClientId) {
    && c in s.clients
    && var cl := s.clients[c];
       && cl.state.frozenHeight.None?
       && cl.state.latestHeight in cl.consensus
       && host.time <= cl.consensus[cl.state.latestHeight].timestamp + cl.state.trustingPeriod
  }

  /** A channel can be proposed exactly over one existing connection that lists its ordering, while the client is usable; the
      transfer module proposes unordered channels only, with its version or none. */
  lemma ProposedExactly(env: Env, s: Store, host: Host, port: PortId, hops: seq<ConnectionId>, portOnB: PortId, ordering: Order,
                        version: string, reply: Reply)
    ensures HandleChannel(env, s, host, ChanOpenInit(port, hops, portOnB, ordering, version), reply).Done? <==>
              && |hops| == 1 && hops[0] in s.connections
              && Listed(s.connections[hops[0]], ordering)
              && ClientUsable(s, host, s.connections[hops[0]].clientId)
              && Consents(s, port, ordering == Unordered && version in ["", "ics20-1"], reply)
  {
  }

  /** Block `h` of the other chain holds end `e` of channel `k`, and the client over this connection can show it. */
  ghost predicate EndVisible(env: Env, x: Node, y: Node, host: Host, conn: ConnectionEnd, h: Height, k: ChanKey, e: ChannelEnd) {
    && Usable(env, x.store, host, conn.clientId, h)
    && ValidPath(env.alnum, ChannelEndPath(k.port, k.channel))
    && h in y.history
    && k in y.history[h].store.channels && y.history[h].store.channels[k].end == e
  }

  ghost predicate EndShown(env: Env, x: Node, host: Host, conn: ConnectionEnd, h: Height, k: ChanKey, e: ChannelEnd, proof: Bytes) {
    Proven(env, x.store, host, conn.clientId, conn.counterparty.prefix, proof, h, ChannelEndPath(k.port, k.channel), ChannelValue(e))
  }

  lemma EndShownExactly(env: Env, x: Node, y: Node, host: Host, id: ConnectionId, h: Height, k: ChanKey, e: ChannelEnd)
    requires ProofsComplete(env) && Both(env, x, y) && TrackedConn(x, id) && x.store.connections[id].state == ConnOpen
    ensures (exists proof :: EndShown(env, x, host, x.store.connections[id], h, k, e, proof)) <==>
              EndVisible(env, x, y, host, x.store.connections[id], h, k, e)
  {
    hide LocalInv, PeerChannel, Contracts, ProofsComplete, Proven, Usable, ValidPath, ClientsGenuine;
    GenuineClients(env, x, y);
    var conn := x.store.connections[id];
    assert Mirrored(x.store, y.store, id);
    var path, v := ChannelEndPath(k.port, k.channel), ChannelValue(e);
    assert k == TracePrefix(k.port, k.channel);
    ProvableExactly(env, x, y, host, conn.clientId, h, path, v);
    forall proof | Proven(env, x.store, host, conn.clientId, y.store.config.prefix, proof, h, path, v)
      ensures EndShown(env, x, host, conn, h, k, e, proof)
    {
    }
  }

  ghost predicate Answering(env: Env, x: Node, y: Node, host: Host, port: PortId, hop: ConnectionId, keyOnA: ChanKey, versionOnA: string,
                            ordering: Order, h: Height, reply: Reply) {
    && TrackedConn(x, hop)
    && var conn := x.store.connections[hop];
       && conn.state == ConnOpen && conn.counterparty.connectionId.Some?
       && Listed(conn, ordering)
       && Consents(x.store, port, ordering == Unordered && versionOnA == "ics20-1", reply)
       && EndVisible(env, x, y, host, conn, h, keyOnA,
                     ChannelEnd(Init, ordering, Counterparty(port, None), [conn.counterparty.connectionId.value], versionOnA))
  }

  ghost predicate AnsweredWith(env: Env, s: Store, host: Host, port: PortId, hop: ConnectionId, keyOnA: ChanKey, versionOnA: string,
                               ordering: Order, h: Height, reply: Reply, proof: Bytes) {
    HandleChannel(env, s, host, ChanOpenTry(port, [hop], keyOnA, versionOnA, ordering, proof, h), reply).Done?
  }

  lemma AnsweringCore(env: Env, x: Node, y: Node, host: Host, port: PortId, hop: ConnectionId, keyOnA: ChanKey, versionOnA: string,
                      ordering: Order, h: Height, reply: Reply)
    requires ProofsComplete(env) && Both(env, x, y) && TrackedConn(x, hop)
    ensures (exists proof :: AnsweredWith(env, x.store, host, port, hop, keyOnA, versionOnA, ordering, h, reply, proof)) <==>
              Answering(env, x, y, host, port, hop, keyOnA, versionOnA, ordering, h, reply)
  {
    hide LocalInv, PeerInv, Contracts, ProofsComplete, Proven, EndVisible;
    var conn := x.store.connections[hop];
    if conn.state == ConnOpen && conn.counterparty.connectionId.Some? {
      var e := ChannelEnd(Init, ordering, Counterparty(port, None), [conn.counterparty.connectionId.value], versionOnA);
      EndShownExactly(env, x, y, host, hop, h, keyOnA, e);
      forall proof
        ensures AnsweredWith(env, x.store, host, port, hop, keyOnA, versionOnA, ordering, h, reply, proof) <==>
                  && Listed(conn, ordering) && Consents(x.store, port, ordering == Unordered && versionOnA == "ics20-1", reply)
                  && EndShown(env, x, host, conn, h, keyOnA, e, proof)
      {
      }
    }
  }

  /** A proposed channel can be answered exactly when the other chain really proposed it, towards this port, over the other end of
      an open connection that allows its ordering, and the module agrees. */
  lemma AnsweringExactly(env: Env, w: Pair, x: Node, y: Node, host: Host, port: PortId, hop: ConnectionId, keyOnA: ChanKey,
                         versionOnA: string, ordering: Order, h: Height, reply: Reply)
    requires Live(env, w, x, y) && ProofsComplete(env) && TrackedConn(x, hop)
    ensures (exists proof :: AnsweredWith(env, x.store, host, port, hop, keyOnA, versionOnA, ordering, h, reply, proof)) <==>
              Answering(env, x, y, host, port, hop, keyOnA, versionOnA, ordering, h, reply)
  {
    hide *;
    LiveBoth(env, w, x, y);
    AnsweringCore(env, x, y, host, port, hop, keyOnA, versionOnA, ordering, h, reply);
  }

  /** The end the other chain must hold for this one to move on. */
  function MirrorEnd(st: ChanState, k: ChanKey, e: ChannelEnd, conn: ConnectionEnd, version: string): ChannelEnd
    requires conn.counterparty.connectionId.Some?
  {
    ChannelEnd(st, e.ordering, RemoteOf(k), [conn.counterparty.connectionId.value], version)
  }

  /** What moves channel `k` on: the state it must be in, the end it must see, and the module's consent. */
  ghost predicate Movable(env: Env, x: Node, y: Node, host: Host, m: ChanMsg, reply: Reply) {
    match m
    case ChanOpenAck(k, chanOnB, versionOnB, _, h) =>
      && Tracked(x, k)
      && var e := x.store.channels[k].end;
         var conn := ConnectionOf(x.store, e);
         && e.state == Init && conn.state == ConnOpen && conn.counterparty.connectionId.Some?
         && Consents(x.store, k.port, versionOnB == "ics20-1", reply)
         && EndVisible(env, x, y, host, conn, h, TracePrefix(e.remote.portId, chanOnB), MirrorEnd(TryOpen, k, e, conn, versionOnB))
    case ChanOpenConfirm(k, _, h) =>
      && Tracked(x, k)
      && var e := x.store.channels[k].end;
         var conn := ConnectionOf(x.store, e);
         && e.state == TryOpen && e.remote.channelId.Some? && conn.counterparty.connectionId.Some?
         && Consents(x.store, k.port, true, reply)
         && EndVisible(env, x, y, host, conn, h, PeerKey(e), MirrorEnd(Open, k, e, conn, e.version))
    case ChanCloseConfirm(k, _, h) =>
      && Tracked(x, k)
      && var e := x.store.channels[k].end;
         var conn := ConnectionOf(x.store, e);
         && (e.state == TryOpen || e.state == Open) && e.remote.channelId.Some? && conn.counterparty.connectionId.Some?
         && Consents(x.store, k.port, true, reply)
         && EndVisible(env, x, y, host, conn, h, PeerKey(e), MirrorEnd(Closed, k, e, conn, e.version))
    case _ => false
  }

  /** The channel a message that carries a proof about an existing end acts on. */
  predicate MovesEnd(m: ChanMsg) { m.ChanOpenAck? || m.ChanOpenConfirm? || m.ChanCloseConfirm? }

  function Moved(m: ChanMsg): ChanKey
    requires MovesEnd(m)
  {
    if m.ChanOpenAck? then m.keyOnA else m.keyOnB
  }

  ghost predicate MovedWith(env: Env, s: Store, host: Host, m: ChanMsg, reply: Reply, proof: Bytes)
    requires MovesEnd(m)
  {
    HandleChannel(env, s, host, m.(proof := proof), reply).Done?
  }

  lemma EndConnection(env: Env, x: Node, y: Node, k: ChanKey)
    requires Both(env, x, y) && Tracked(x, k)
    ensures var e := x.store.channels[k].end;
            var conn := ConnectionOf(x.store, e);
            && |e.hops| == 1 && TrackedConn(x, e.hops[0]) && x.store.connections[e.hops[0]] == conn
            && e.ordering != NoOrder
            && (e.state == Init <==> e.remote.channelId.None?)
            && (e.state != Init ==> conn.state == ConnOpen)
            && (conn.state == ConnOpen ==> conn.counterparty.connectionId.Some?)
  {
    hide LocalInv, PeerInv, Contracts;
    ChannelFacts(env, x, k);
    hide SendInv, AckOrderInv, RecvInv;
    StoreFacts(env, x);
    hide StoreInv;
    assert ConnShape(x.store, ConnectionOf(x.store, x.store.channels[k].end));
  }

  lemma AckMoves(env: Env, x: Node, y: Node, host: Host, m: ChanMsg, reply: Reply)
    requires ProofsComplete(env) && Both(env, x, y) && m.ChanOpenAck? && Tracked(x, m.keyOnA)
    ensures (exists proof :: MovedWith(env, x.store, host, m, reply, proof)) <==> Movable(env, x, y, host, m, reply)
  {
    hide LocalInv, PeerInv, Contracts, ProofsComplete, Proven, EndVisible;
    var k := m.keyOnA;
    var e := x.store.channels[k].end;
    var conn := ConnectionOf(x.store, e);
    EndConnection(env, x, y, k);
    if e.state == Init && conn.state == ConnOpen {
      var far, f := TracePrefix(e.remote.portId, m.chanOnB), MirrorEnd(TryOpen, k, e, conn, m.versionOnB);
      EndShownExactly(env, x, y, host, e.hops[0], m.proofHeight, far, f);
      forall proof
        ensures MovedWith(env, x.store, host, m, reply, proof) <==>
                  Consents(x.store, k.port, m.versionOnB == "ics20-1", reply) && EndShown(env, x, host, conn, m.proofHeight, far, f, proof)
      {
      }
    }
  }

  lemma ConfirmMoves(env: Env, x: Node, y: Node, host: Host, m: ChanMsg, reply: Reply)
    requires ProofsComplete(env) && Both(env, x, y) && (m.ChanOpenConfirm? || m.ChanCloseConfirm?) && Tracked(x, m.keyOnB)
    ensures (exists proof :: MovedWith(env, x.store, host, m, reply, proof)) <==> Movable(env, x, y, host, m, reply)
  {
    hide LocalInv, PeerInv, Contracts, ProofsComplete, Proven, EndVisible;
    var k := m.keyOnB;
    var e := x.store.channels[k].end;
    var conn := ConnectionOf(x.store, e);
    EndConnection(env, x, y, k);
    if (if m.ChanOpenConfirm? then e.state == TryOpen else e.state == TryOpen || e.state == Open) {
      var f := MirrorEnd(if m.ChanOpenConfirm? then Open else Closed, k, e, conn, e.version);
      EndShownExactly(env, x, y, host, e.hops[0], m.proofHeight, PeerKey(e), f);
      forall proof
        ensures MovedWith(env, x.store, host, m, reply, proof) <==>
                  Consents(x.store, k.port, true, reply) && EndShown(env, x, host, conn, m.proofHeight, PeerKey(e), f, proof)
      {
      }
    }
  }

  lemma MovesCore(env: Env, x: Node, y: Node, host: Host, m: ChanMsg, reply: Reply)
    requires ProofsComplete(env) && Both(env, x, y) && MovesEnd(m) && Tracked(x, Moved(m))
    ensures (exists proof :: MovedWith(env, x.store, host, m, reply, proof)) <==> Movable(env, x, y, host, m, reply)
  {
    hide Both, ProofsComplete, MovedWith, Movable, Tracked;
    if m.ChanOpenAck? { AckMoves(env, x, y, host, m, reply); } else { ConfirmMoves(env, x, y, host, m, reply); }
  }

  /** An end is opened, or closed after its peer, exactly when it is in the right state and the other chain really held the
      matching end, in the matching state, at the named height. */
  lemma MovesExactly(env: Env, w: Pair, x: Node, y: Node, host: Host, m: ChanMsg, reply: Reply)
    requires Live(env, w, x, y) && ProofsComplete(env) && MovesEnd(m) && Tracked(x, Moved(m))
    ensures (exists proof :: MovedWith(env, x.store, host, m, reply, proof)) <==> Movable(env, x, y, host, m, reply)
  {
    hide *;
    LiveBoth(env, w, x, y);
    MovesCore(env, x, y, host, m, reply);
  }

  // ---------------------------------------------------------------- closing first

  ghost predicate Closable(x: Node, host: Host, k: ChanKey, reply: Reply) {
    && k in x.store.channels
    && var e := x.store.channels[k].end;
       && (e.state == TryOpen || e.state == Open)
       && Consents(x.store, k.port, false, reply)
       && HasConnection(x.store, e)
       && ClientUsable(x.store, host, ConnectionOf(x.store, e).clientId)
  }

  lemma ClosableCore(env: Env, x: Node, host: Host, k: ChanKey, reply: Reply)
    requires LocalInv(env, x)
    ensures HandleChannel(env, x.store, host, ChanCloseInit(k), reply).Done? <==> Closable(x, host, k, reply)
  {
    hide LocalInv;
    if k in x.store.channels {
      ChannelFacts(env, x, k);
      hide SendInv, AckOrderInv, RecvInv;
    }
  }

  /** An end may be closed first exactly when it has a counterpart, is not closed, its client is usable and its module, which is
      not the transfer module, agrees. */
  lemma ClosableExactly(env: Env, w: Pair, x: Node, y: Node, host: Host, k: ChanKey, reply: Reply)
    requires Live(env, w, x, y)
    ensures HandleChannel(env, x.store, host, ChanCloseInit(k), reply).Done? <==> Closable(x, host, k, reply)
  {
    hide *;
    LiveBoth(env, w, x, y);
    BothLocal(env, x, y);
    ClosableCore(env, x, host, k, reply);
  }

  // ---------------------------------------------------------------- connections

  /** Block `h` of the other chain, whose prefix this is, holds `v` at the path, and the client can show it. */
  ghost predicate Visible(env: Env, x: Node, y: Node, host: Host, c: ClientId, prefix: Bytes, h: Height, path: Path, v: Value) {
    prefix == y.store.config.prefix && Usable(env, x.store, host, c, h) && Stored(env, y, h, path, v)
  }

  ghost predicate Shown(env: Env, x: Node, host: Host, c: ClientId, prefix: Bytes, h: Height, path: Path, v: Value) {
    exists proof :: Proven(env, x.store, host, c, prefix, proof, h, path, v)
  }

  lemma ShownExactly(env: Env, x: Node, y: Node, host: Host, c: ClientId, prefix: Bytes, h: Height, path: Path, v: Value)
    requires ProofsComplete(env) && Both(env, x, y) && c in x.tracks
    ensures Shown(env, x, host, c, prefix, h, path, v) <==> Visible(env, x, y, host, c, prefix, h, path, v)
  {
    hide LocalInv, PeerInv, Contracts, ProofsComplete, Proven, Usable, Stored, ClientsGenuine, Lookup;
    GenuineClients(env, x, y);
    ProvableExactly(env, x, y, host, c, h, path, v);
    forall proof | Proven(env, x.store, host, c, prefix, proof, h, path, v) ensures prefix == y.store.config.prefix {
      Learn(env, x, y, host, c, prefix, proof, h, path, v);
      SnapshotFacts(env, y, h, TracePrefix("", ""));
    }
  }

  /** The other end's client is one of this chain: its state passes and it holds this chain's own consensus state. */
  ghost predicate PeerClientVisible(env: Env, x: Node, y: Node, host: Host, c: ClientId, prefix: Bytes, h: Height, peer: ClientId,
                                    st: ClientState, at: Height) {
    && env.selfClient(st) && Leq(at, host.height) && at in host.ownConsensus
    && Visible(env, x, y, host, c, prefix, h, ClientStatePath(peer), ClientValue(st))
    && Visible(env, x, y, host, c, prefix, h, ClientConsensusStatePath(peer, at.revisionNumber, at.revisionHeight),
               ConsensusValue(host.ownConsensus[at]))
  }

  ghost predicate ConnMovable(env: Env, x: Node, y: Node, host: Host, m: ConnMsg) {
    match m
    case ConnOpenTry(c, st, cp, versions, _, _, _, h, at, delay) =>
      && cp.connectionId.Some?
      && (exists i: nat, j: nat :: Shares(x.store.config.versions, versions, i, j))
      && Visible(env, x, y, host, c, cp.prefix, h, Connection(cp.connectionId.value),
                 ConnectionValue(ConnectionEnd(ConnInit, cp.clientId, ConnCounterparty(c, None, x.store.config.prefix), versions, delay)))
      && PeerClientVisible(env, x, y, host, c, cp.prefix, h, cp.clientId, st, at)
    case ConnOpenAck(id, idOnB, st, _, _, _, h, at, chosen) =>
      && id in x.store.connections
      && var e := x.store.connections[id];
         && e.state == ConnInit && IsSupported(chosen, e.versions)
         && Visible(env, x, y, host, e.clientId, e.counterparty.prefix, h, Connection(idOnB),
                    ConnectionValue(ConnectionEnd(ConnTryOpen, e.counterparty.clientId,
                                                  ConnCounterparty(e.clientId, Some(id), x.store.config.prefix), [chosen], e.delayPeriod)))
         && PeerClientVisible(env, x, y, host, e.clientId, e.counterparty.prefix, h, e.counterparty.clientId, st, at)
    case ConnOpenConfirm(id, _, h) =>
      && id in x.store.connections
      && var e := x.store.connections[id];
         && e.state == ConnTryOpen && e.counterparty.connectionId.Some?
         && Visible(env, x, y, host, e.clientId, e.counterparty.prefix, h, Connection(e.counterparty.connectionId.value),
                    ConnectionValue(ConnectionEnd(ConnOpen, e.counterparty.clientId,
                                                  ConnCounterparty(e.clientId, Some(id), x.store.config.prefix), e.versions, e.delayPeriod)))
    case _ => false
  }

  /** The message with the given proofs in place of its own. */
  function WithProofs(m: ConnMsg, p: Bytes, q: Bytes, r: Bytes): ConnMsg
    requires !m.ConnOpenInit?
  {
    if m.ConnOpenConfirm? then m.(proofConn := p) else m.(proofConn := p, proofClient := q, proofConsensus := r)
  }

  ghost predicate ConnMovedWith(env: Env, s: Store, host: Host, m: ConnMsg, p: Bytes, q: Bytes, r: Bytes)
    requires !m.ConnOpenInit?
  {
    HandleConnection(env, s, host, WithProofs(m, p, q, r)).Some?
  }

  /** The client a connection message is checked with. */
  ghost predicate CheckedByTracker(x: Node, m: ConnMsg) {
    match m
    case ConnOpenInit(_, _, _, _) => false
    case ConnOpenTry(c, _, _, _, _, _, _, _, _, _) => c in x.tracks
    case ConnOpenAck(id, _, _, _, _, _, _, _, _) => TrackedConn(x, id)
    case ConnOpenConfirm(id, _, _) => TrackedConn(x, id)
  }

  lemma PickExists(supported: seq<Version>, counterparty: seq<Version>)
    ensures PickVersion(supported, counterparty).Some? <==> exists i: nat, j: nat :: Shares(supported, counterparty, i, j)
  {
    hide PickVersion, Shares, PickedAt;
    PickIsWholeIntersection(supported, counterparty);
  }

  lemma TryMoves(env: Env, x: Node, y: Node, host: Host, m: ConnMsg)
    requires ProofsComplete(env) && Both(env, x, y) && m.ConnOpenTry? && m.clientIdOnB in x.tracks
    ensures (exists p, q, r :: ConnMovedWith(env, x.store, host, m, p, q, r)) <==> ConnMovable(env, x, y, host, m)
  {
    hide LocalInv, PeerInv, Contracts, ProofsComplete, Proven, Visible, Shares, PickVersion;
    PickExists(x.store.config.versions, m.versionsOnA);
    if m.counterparty.connectionId.Some? && m.consensusHeight in host.ownConsensus {
      var c, prefix, h := m.clientIdOnB, m.counterparty.prefix, m.proofHeight;
      var peer, at := m.counterparty.clientId, m.consensusHeight;
      var e := ConnectionEnd(ConnInit, peer, ConnCounterparty(c, None, x.store.config.prefix), m.versionsOnA, m.delayPeriod);
      var path := ClientConsensusStatePath(peer, at.revisionNumber, at.revisionHeight);
      ShownExactly(env, x, y, host, c, prefix, h, Connection(m.counterparty.connectionId.value), ConnectionValue(e));
      ShownExactly(env, x, y, host, c, prefix, h, ClientStatePath(peer), ClientValue(m.clientStateOfBOnA));
      ShownExactly(env, x, y, host, c, prefix, h, path, ConsensusValue(host.ownConsensus[at]));
      hide Both;
      if ConnMovable(env, x, y, host, m) {
        var p :| Proven(env, x.store, host, c, prefix, p, h, Connection(m.counterparty.connectionId.value), ConnectionValue(e));
        var q :| Proven(env, x.store, host, c, prefix, q, h, ClientStatePath(peer), ClientValue(m.clientStateOfBOnA));
        var r :| Proven(env, x.store, host, c, prefix, r, h, path, ConsensusValue(host.ownConsensus[at]));
        assert ConnMovedWith(env, x.store, host, m, p, q, r);
      }
    }
  }

  lemma ConnAckMoves(env: Env, x: Node, y: Node, host: Host, m: ConnMsg)
    requires ProofsComplete(env) && Both(env, x, y) && m.ConnOpenAck? && TrackedConn(x, m.connIdOnA)
    ensures (exists p, q, r :: ConnMovedWith(env, x.store, host, m, p, q, r)) <==> ConnMovable(env, x, y, host, m)
  {
    hide LocalInv, PeerInv, Contracts, ProofsComplete, Proven, Visible, IsSupported;
    if m.consensusHeight in host.ownConsensus {
      var e := x.store.connections[m.connIdOnA];
      var c, prefix, h := e.clientId, e.counterparty.prefix, m.proofHeight;
      var peer, at := e.counterparty.clientId, m.consensusHeight;
      var f := ConnectionEnd(ConnTryOpen, peer, ConnCounterparty(c, Some(m.connIdOnA), x.store.config.prefix), [m.chosen], e.delayPeriod);
      var path := ClientConsensusStatePath(peer, at.revisionNumber, at.revisionHeight);
      ShownExactly(env, x, y, host, c, prefix, h, Connection(m.connIdOnB), ConnectionValue(f));
      ShownExactly(env, x, y, host, c, prefix, h, ClientStatePath(peer), ClientValue(m.clientStateOfAOnB));
      ShownExactly(env, x, y, host, c, prefix, h, path, ConsensusValue(host.ownConsensus[at]));
      hide Both;
      if ConnMovable(env, x, y, host, m) {
        var p :| Proven(env, x.store, host, c, prefix, p, h, Connection(m.connIdOnB), ConnectionValue(f));
        var q :| Proven(env, x.store, host, c, prefix, q, h, ClientStatePath(peer), ClientValue(m.clientStateOfAOnB));
        var r :| Proven(env, x.store, host, c, prefix, r, h, path, ConsensusValue(host.ownConsensus[at]));
        assert ConnMovedWith(env, x.store, host, m, p, q, r);
      }
    }
  }

  lemma ConnConfirmMoves(env: Env, x: Node, y: Node, host: Host, m: ConnMsg)
    requires ProofsComplete(env) && Both(env, x, y) && m.ConnOpenConfirm? && TrackedConn(x, m.connIdOnB)
    ensures (exists p, q, r :: ConnMovedWith(env, x.store, host, m, p, q, r)) <==> ConnMovable(env, x, y, host, m)
  {
    hide LocalInv, PeerInv, Contracts, ProofsComplete, Proven, Visible;
    var e := x.store.connections[m.connIdOnB];
    BothLocal(env, x, y);
    StoreFacts(env, x);
    hide StoreInv, IdsFresh, Offered;
    assert ConnShape(x.store, e);
    if e.state == ConnTryOpen {
      var path := Connection(e.counterparty.connectionId.value);
      var f := ConnectionEnd(ConnOpen, e.counterparty.clientId, ConnCounterparty(e.clientId, Some(m.connIdOnB), x.store.config.prefix),
                             e.versions, e.delayPeriod);
      ShownExactly(env, x, y, host, e.clientId, e.counterparty.prefix, m.proofHeight, path, ConnectionValue(f));
      hide Both;
      if ConnMovable(env, x, y, host, m) {
        var p :| Proven(env, x.store, host, e.clientId, e.counterparty.prefix, p, m.proofHeight, path, ConnectionValue(f));
        assert ConnMovedWith(env, x.store, host, m, p, [], []);
      }
    }
  }

  lemma ConnMovesCore(env: Env, x: Node, y: Node, host: Host, m: ConnMsg)
    requires ProofsComplete(env) && Both(env, x, y) && !m.ConnOpenInit? && CheckedByTracker(x, m)
    ensures (exists p, q, r :: ConnMovedWith(env, x.store, host, m, p, q, r)) <==> ConnMovable(env, x, y, host, m)
  {
    hide ProofsComplete, Both, ConnMovedWith, ConnMovable, TrackedConn;
    match m
    case ConnOpenInit(_, _, _, _) =>
    case ConnOpenTry(_, _, _, _, _, _, _, _, _, _) => TryMoves(env, x, y, host, m);
    case ConnOpenAck(_, _, _, _, _, _, _, _, _) => ConnAckMoves(env, x, y, host, m);
    case ConnOpenConfirm(_, _, _) => ConnConfirmMoves(env, x, y, host, m);
  }

  /** A connection handshake message succeeds exactly when the other chain, whose prefix is the one named, really held the matching
      end at that height, the versions share a feature, and the other end's client really is one of this chain. */
  lemma ConnMovesExactly(env: Env, w: Pair, x: Node, y: Node, host: Host, m: ConnMsg)
    requires Live(env, w, x, y) && ProofsComplete(env) && !m.ConnOpenInit? && CheckedByTracker(x, m)
    ensures (exists p, q, r :: ConnMovedWith(env, x.store, host, m, p, q, r)) <==> ConnMovable(env, x, y, host, m)
  {
    hide *;
    LiveBoth(env, w, x, y);
    ConnMovesCore(env, x, y, host, m);
  }
}
