/** Channel handshake, connection handshake and client steps keep the invariants. */
module HandshakeSteps {
  import opened Prelude
  import opened Heights
  import opened Strings
  import opened Paths
  import opened Denoms
  import opened Versions
  import opened Tendermint
  import opened IbcStore
  import opened Transfer
  import opened Connections
  import opened Channels
  import opened World
  import opened Invariants
  import opened ChannelSteps
  import opened NodeSteps
  import opened Preservation

  // ---------------------------------------------------------------- channels

  /** `x'` is `x` with a new end on channel `k`, recorded as opened or not. */
  ghost predicate EndSet(x: Node, x': Node, k: ChanKey, e: ChannelEnd, opens: bool) {
    && k in x.store.channels
    && x' == x.(store := WithEnd(x.store, k, e),
                traces := if opens then x.traces[k := TraceAt(x.traces, k).(wasOpen := true)] else x.traces)
  }

  lemma EndSetShape(x: Node, x': Node, k: ChanKey, e: ChannelEnd, opens: bool)
    requires EndSet(x, x', k, e, opens)
    ensures OneChannel(x, x', k)
    ensures x'.store.channels[k] == x.store.channels[k].(end := e)
    ensures TraceAt(x'.traces, k) == TraceAt(x.traces, k).(wasOpen := opens || TraceAt(x.traces, k).wasOpen)
  {
  }

  lemma EndStepLocal(env: Env, x: Node, x': Node, k: ChanKey, e: ChannelEnd, opens: bool)
    requires LocalInv(env, x) && EndSet(x, x', k, e, opens)
    requires EndExt(x.store.channels[k].end, e)
    requires ChanShape(x.store, e, TraceAt(x'.traces, k))
    ensures LocalInv(env, x') && Grows(x, x')
  {
    hide LocalInv, ChanInv, ChanExt, EndExt, ChanShape, Grows;
    EndSetShape(x, x', k, e, opens);
    ChannelFacts(env, x, k);
    EndKeeps(env, x.store, k, x.store.channels[k], TraceAt(x.traces, k), e, TraceAt(x'.traces, k));
    OneChannelLocal(env, x, x', k);
  }

  lemma EndStepPeer(env: Env, x: Node, x': Node, y: Node, k: ChanKey, e: ChannelEnd, opens: bool)
    requires PeerInv(env, x, y) && EndSet(x, x', k, e, opens)
    requires e.ordering == x.store.channels[k].end.ordering && e.hops == x.store.channels[k].end.hops
    requires Tracked(x, k) ==> PeerExists(x'.store, y.store, k)
    requires Tracked(x, k) && (opens || TraceAt(x.traces, k).wasOpen) ==> PeerAgrees(x'.store, y.store, k)
    ensures PeerInv(env, x', y)
  {
    hide PeerInv, PeerAgrees, PeerExists, Justified, SentBy;
    EndSetShape(x, x', k, e, opens);
    if Tracked(x', k) {
      assert Tracked(x, k);
      PeerFacts(env, x, y, k);
      assert PeerChannel(env, x', y, k);
    }
    OneChannelPeer(env, x, x', y, k);
  }

  /** An end read at the peer is, up to its state, still there. */
  lemma EndSeen(env: Env, x: Node, y: Node, host: Host, conn: ConnectionEnd, proof: Bytes, h: Height, j: ChanKey, f: ChannelEnd)
    requires Stands(env, x, y) && conn.clientId in x.tracks && f.state != Init
    requires Proven(env, x.store, host, conn.clientId, conn.counterparty.prefix, proof, h,
                    ChannelEndPath(j.port, j.channel), ChannelValue(f))
    ensures j in y.store.channels && y.store.channels[j].end.state != Init
    ensures f.remote.channelId.Some? ==> y.store.channels[j].end == f.(state := y.store.channels[j].end.state)
  {
    hide LocalInv, PeerInv, Lookup, ChanInv, Proven;
    GenuineClients(env, x, y);
    Learn(env, x, y, host, conn.clientId, conn.counterparty.prefix, proof, h, ChannelEndPath(j.port, j.channel), ChannelValue(f));
    EndAt(y.history[h].store, j, f);
    SnapshotFacts(env, y, h, j);
  }

  /** An end read at the peer keeps its ordering, connection and counterparty port whatever happens to it. */
  lemma EndKnown(env: Env, x: Node, y: Node, host: Host, conn: ConnectionEnd, proof: Bytes, h: Height, j: ChanKey, f: ChannelEnd)
    requires Stands(env, x, y) && conn.clientId in x.tracks
    requires Proven(env, x.store, host, conn.clientId, conn.counterparty.prefix, proof, h,
                    ChannelEndPath(j.port, j.channel), ChannelValue(f))
    ensures j in y.store.channels && EndExt(f, y.store.channels[j].end)
  {
    hide LocalInv, PeerInv, Lookup, ChanInv, Proven, EndExt;
    GenuineClients(env, x, y);
    Learn(env, x, y, host, conn.clientId, conn.counterparty.prefix, proof, h, ChannelEndPath(j.port, j.channel), ChannelValue(f));
    EndAt(y.history[h].store, j, f);
    SnapshotFacts(env, y, h, j);
  }

  /** A responder's end starts out with the initiator's end in place. */
  lemma OpenTryPeer(env: Env, x: Node, y: Node, host: Host, m: ChanMsg, reply: Reply, version: string, x': Node)
    requires Stands(env, x, y) && m.ChanOpenTry? && ChanTryValid(env, x.store, host, m)
    requires TryAccepted(x.store, m.portOnB, m.ordering, m.versionOnA, reply)
    requires x' == x.(store := WithNewChannel(x.store, NewKey(x.store, m.portOnB), ChanTryEnd(m, version)))
    ensures Tracked(x', NewKey(x.store, m.portOnB)) ==> PeerExists(x'.store, y.store, NewKey(x.store, m.portOnB))
  {
    hide LocalInv, PeerInv, Proven, Contracts, ChannelIdOf;
    var conn := x.store.connections[m.hops[0]];
    if conn.clientId in x.tracks {
      EndKnown(env, x, y, host, conn, m.proof, m.proofHeight, m.keyOnA,
               ChannelEnd(Init, m.ordering, Counterparty(m.portOnB, None), [conn.counterparty.connectionId.value], m.versionOnA));
      assert PeerKey(ChanTryEnd(m, version)) == m.keyOnA;
    }
  }

  lemma NewChannelStep(env: Env, x: Node, x': Node, y: Node, port: PortId, e: ChannelEnd)
    requires LocalInv(env, x) && PeerInv(env, x, y)
    requires x' == x.(store := WithNewChannel(x.store, NewKey(x.store, port), e))
    requires ChanShape(x.store, e, NO_TRACE)
    requires Tracked(x', NewKey(x.store, port)) ==> PeerExists(x'.store, y.store, NewKey(x.store, port))
    ensures LocalInv(env, x') && Grows(x, x') && PeerInv(env, x', y)
  {
    hide PeerInv, ChanInv, SnapshotOk, Grows, ChanShape, PeerExists;
    AddsChannelLocal(env, x, x', NewKey(x.store, port), e);
    AddsChannelPeer(env, x, x', y, NewKey(x.store, port), e);
  }

  lemma InitHasNoRemote(env: Env, x: Node, k: ChanKey)
    requires LocalInv(env, x) && k in x.store.channels && x.store.channels[k].end.state == Init
    ensures x.store.channels[k].end.remote.channelId.None?
  {
    hide LocalInv;
    ChannelFacts(env, x, k);
  }

  lemma TryOpenAllowed(env: Env, x: Node, k: ChanKey)
    requires LocalInv(env, x) && k in x.store.channels && x.store.channels[k].end.state == TryOpen
    ensures HasConnection(x.store, x.store.channels[k].end)
    ensures FeatureSupported(ConnectionOf(x.store, x.store.channels[k].end), x.store.channels[k].end.ordering)
  {
    hide LocalInv, SendInv, RecvInv, AckOrderInv, FeatureSupported;
    ChannelFacts(env, x, k);
  }

  /** In a snapshot a TryOpen end runs over an open connection whose version allows its ordering. */
  lemma SnapshotAllowed(env: Env, y: Node, h: Height, j: ChanKey)
    requires LocalInv(env, y) && h in y.history && j in y.history[h].store.channels
    requires y.history[h].store.channels[j].end.state == TryOpen
    ensures var s := y.history[h].store;
            var e := s.channels[j].end;
            HasConnection(s, e) && ConnectionOf(s, e).state == ConnOpen && FeatureSupported(ConnectionOf(s, e), e.ordering)
  {
    hide LocalInv, SendInv, RecvInv, AckOrderInv, FeatureSupported, ChanExt;
    SnapshotFacts(env, y, h, j);
  }

  /** The responder checked the ordering against the version both ends of the connection agreed on. */
  lemma OrderingAllowed(env: Env, x: Node, y: Node, host: Host, c: ConnectionId, proof: Bytes, h: Height, j: ChanKey, f: ChannelEnd)
    requires Stands(env, x, y) && TrackedConn(x, c) && x.store.connections[c].state == ConnOpen
    requires x.store.connections[c].counterparty.connectionId.Some?
    requires f.state == TryOpen && f.hops == [x.store.connections[c].counterparty.connectionId.value]
    requires Proven(env, x.store, host, x.store.connections[c].clientId, x.store.connections[c].counterparty.prefix, proof, h,
                    ChannelEndPath(j.port, j.channel), ChannelValue(f))
    ensures FeatureSupported(x.store.connections[c], f.ordering)
  {
    hide LocalInv, PeerInv, Lookup, Proven, FeatureSupported, ClientsGenuine;
    var conn := x.store.connections[c];
    GenuineClients(env, x, y);
    Learn(env, x, y, host, conn.clientId, conn.counterparty.prefix, proof, h, ChannelEndPath(j.port, j.channel), ChannelValue(f));
    EndAt(y.history[h].store, j, f);
    SnapshotAllowed(env, y, h, j);
    SnapshotConnection(env, y, h, f.hops[0]);
    OpenIsMirrored(env, x, y, c);
    SameVersions(y.history[h].store.connections[f.hops[0]], y.store.connections[f.hops[0]], f.ordering);
    SameVersions(y.store.connections[f.hops[0]], conn, f.ordering);
  }

  lemma SameVersions(c: ConnectionEnd, c': ConnectionEnd, o: Order)
    requires c'.versions == c.versions && FeatureSupported(c, o)
    ensures FeatureSupported(c', o)
  {
  }

  lemma OpenIsMirrored(env: Env, x: Node, y: Node, c: ConnectionId)
    requires PeerInv(env, x, y) && TrackedConn(x, c) && x.store.connections[c].state == ConnOpen
    ensures Mirrored(x.store, y.store, c)
  {
    hide PeerChannel, ClientsGenuine, Mirrored;
  }

  lemma OpenAckStep(env: Env, x: Node, y: Node, host: Host, m: ChanMsg, x': Node)
    requires Stands(env, x, y) && m.ChanOpenAck? && ChanAckValid(env, x.store, host, m)
    requires EndSet(x, x', m.keyOnA, ChanAckEnd(x.store.channels[m.keyOnA].end, m), true)
    ensures Kept(env, x, x', y)
  {
    hide LocalInv, PeerInv, Proven, Contracts, Grows, FeatureSupported;
    var k := m.keyOnA;
    var e := x.store.channels[k].end;
    var conn := ConnectionOf(x.store, e);
    EndSetShape(x, x', k, ChanAckEnd(e, m), true);
    InitHasNoRemote(env, x, k);
    EndStepLocal(env, x, x', k, ChanAckEnd(e, m), true);
    if Tracked(x, k) {
      EndSeen(env, x, y, host, conn, m.proof, m.proofHeight, TracePrefix(e.remote.portId, m.chanOnB),
              ChannelEnd(TryOpen, e.ordering, RemoteOf(k), [conn.counterparty.connectionId.value], m.versionOnB));
      OrderingAllowed(env, x, y, host, e.hops[0], m.proof, m.proofHeight, TracePrefix(e.remote.portId, m.chanOnB),
                      ChannelEnd(TryOpen, e.ordering, RemoteOf(k), [conn.counterparty.connectionId.value], m.versionOnB));
      assert PeerAgrees(x'.store, y.store, k);
    }
    EndStepPeer(env, x, x', y, k, ChanAckEnd(e, m), true);
  }

  lemma OpenConfirmStep(env: Env, x: Node, y: Node, host: Host, m: ChanMsg, x': Node)
    requires Stands(env, x, y) && m.ChanOpenConfirm? && ChanConfirmValid(env, x.store, host, m)
    requires EndSet(x, x', m.keyOnB, x.store.channels[m.keyOnB].end.(state := Open), true)
    ensures Kept(env, x, x', y)
  {
    hide LocalInv, PeerInv, Proven, Contracts, Grows, FeatureSupported;
    var k := m.keyOnB;
    var e := x.store.channels[k].end;
    var conn := ConnectionOf(x.store, e);
    TryOpenAllowed(env, x, k);
    EndSetShape(x, x', k, e.(state := Open), true);
    EndStepLocal(env, x, x', k, e.(state := Open), true);
    if Tracked(x, k) {
      EndSeen(env, x, y, host, conn, m.proof, m.proofHeight, PeerKey(e),
              ChannelEnd(Open, e.ordering, RemoteOf(k), [conn.counterparty.connectionId.value], e.version));
      assert PeerAgrees(x'.store, y.store, k);
    }
    EndStepPeer(env, x, x', y, k, e.(state := Open), true);
  }

  lemma CloseStep(env: Env, x: Node, x': Node, y: Node, k: ChanKey)
    requires LocalInv(env, x) && PeerInv(env, x, y) && k in x.store.channels
    requires x.store.channels[k].end.remote.channelId.Some?
    requires EndSet(x, x', k, x.store.channels[k].end.(state := Closed), false)
    ensures LocalInv(env, x') && Grows(x, x') && PeerInv(env, x', y)
  {
    hide LocalInv, PeerInv, Grows;
    var e := x.store.channels[k].end;
    EndSetShape(x, x', k, e.(state := Closed), false);
    ChannelFacts(env, x, k);
    EndStepLocal(env, x, x', k, e.(state := Closed), false);
    if Tracked(x, k) {
      PeerFacts(env, x, y, k);
      assert TraceAt(x.traces, k).wasOpen ==> PeerAgrees(x'.store, y.store, k);
    }
    EndStepPeer(env, x, x', y, k, e.(state := Closed), false);
  }

  /** What a validated opening message promises about the end it stores. */
  lemma NewEndShape(env: Env, s: Store, host: Host, m: ChanMsg, version: string)
    requires m.ChanOpenInit? ==> ChanInitValid(s, host, m)
    requires m.ChanOpenTry? ==> ChanTryValid(env, s, host, m)
    ensures m.ChanOpenInit? ==> ChanShape(s, ChanInitEnd(m), NO_TRACE)
    ensures m.ChanOpenTry? ==> ChanShape(s, ChanTryEnd(m, version), NO_TRACE)
  {
  }

  lemma ChannelStep(env: Env, x: Node, y: Node, host: Host, m: ChanMsg, reply: Reply, x': Node)
    requires Stands(env, x, y) && ChanValid(env, x.store, host, m, reply)
    requires x' == x.(store := ChanExec(x.store, m, reply),
                      traces := match m
                                case ChanOpenAck(k, _, _, _, _) => x.traces[k := TraceAt(x.traces, k).(wasOpen := true)]
                                case ChanOpenConfirm(k, _, _) => x.traces[k := TraceAt(x.traces, k).(wasOpen := true)]
                                case _ => x.traces)
    ensures Kept(env, x, x', y)
  {
    hide LocalInv, PeerInv, Proven, Contracts, Grows, ChanShape;
    match m
    case ChanOpenInit(port, _, _, _, _) =>
      NewEndShape(env, x.store, host, m, "");
      NewChannelStep(env, x, x', y, port, ChanInitEnd(m));
    case ChanOpenTry(port, _, _, _, _, _, _) =>
      NewEndShape(env, x.store, host, m, TryVersion(x.store, port, reply));
      OpenTryPeer(env, x, y, host, m, reply, TryVersion(x.store, port, reply), x');
      NewChannelStep(env, x, x', y, port, ChanTryEnd(m, TryVersion(x.store, port, reply)));
    case ChanOpenAck(_, _, _, _, _) => OpenAckStep(env, x, y, host, m, x');
    case ChanOpenConfirm(_, _, _) => OpenConfirmStep(env, x, y, host, m, x');
    case ChanCloseInit(k) => CloseStep(env, x, x', y, k);
    case ChanCloseConfirm(k, _, _) => CloseStep(env, x, x', y, k);
  }

  // ---------------------------------------------------------------- connections

  lemma ConnectionIsNew(s: Store)
    requires IdsFresh(s)
    ensures ConnectionIdOf(s.connectionCounter) !in s.connections
  {
    var c := ConnectionIdOf(s.connectionCounter);
    if c in s.connections {
      var n :| 0 <= n < s.connectionCounter && c == ConnectionIdOf(n);
      NumberedInjective("connection", n, s.connectionCounter);
    }
  }

  lemma FreshAfter(s: Store, s': Store)
    requires IdsFresh(s) && s.connectionCounter <= s'.connectionCounter
    requires forall c :: c in s'.connections ==>
               c in s.connections || (c == ConnectionIdOf(s.connectionCounter) && s.connectionCounter < s'.connectionCounter)
    ensures ConnectionIdsFresh(s')
  {
    forall c | c in s'.connections ensures exists n :: 0 <= n < s'.connectionCounter && c == ConnectionIdOf(n) {
      if c in s.connections {
        var n :| 0 <= n < s.connectionCounter && c == ConnectionIdOf(n);
        assert n < s'.connectionCounter;
      }
    }
  }

  lemma StoreFacts(env: Env, x: Node)
    requires LocalInv(env, x)
    ensures IdsFresh(x.store)
    ensures StoreInv(env, x.store, x.traces)
    ensures forall c :: c in x.store.connections ==> ConnShape(x.store, x.store.connections[c])
  {
    hide ChanInv, SnapshotOk;
  }

  /** A handshake step on connection `c`: a new end, or an existing one moving on. */
  ghost predicate ConnectionSet(x: Node, x': Node, c: ConnectionId, e: ConnectionEnd, counter: nat) {
    && x' == x.(store := x.store.(connections := x.store.connections[c := e], clientConnections := x'.store.clientConnections,
                                  connectionCounter := counter))
    && x.store.connectionCounter <= counter
    && (c in x.store.connections ==> ConnExt(x.store.connections[c], e))
    && (c !in x.store.connections ==> c == ConnectionIdOf(x.store.connectionCounter) && x.store.connectionCounter < counter)
    && ConnShape(x.store, e)
  }

  lemma ConnectionSetShape(x: Node, x': Node, c: ConnectionId, e: ConnectionEnd, counter: nat)
    requires ConnectionSet(x, x', c, e, counter) && IdsFresh(x.store)
    requires forall d :: d in x.store.connections ==> ConnShape(x.store, x.store.connections[d])
    ensures BelowChannels(x, x') && ConnectionIdsFresh(x'.store)
    ensures forall d :: d in x'.store.connections ==> ConnShape(x'.store, x'.store.connections[d])
  {
    hide IdsFresh, ConnectionIdsFresh, ConnectionIdOf, ConnectionEndOk;
    FreshAfter(x.store, x'.store);
  }

  lemma ConnectionStep(env: Env, x: Node, x': Node, y: Node, c: ConnectionId, e: ConnectionEnd, counter: nat)
    requires LocalInv(env, x) && PeerInv(env, x, y) && ConnectionSet(x, x', c, e, counter)
    requires e.clientId in x.tracks && e.state == ConnOpen ==> Mirrored(x'.store, y.store, c)
    ensures LocalInv(env, x') && Grows(x, x') && PeerInv(env, x', y)
  {
    hide LocalInv, ChanInv, StoreInv, PeerChannel, Grows, ConnShape, ConnExt;
    StoreFacts(env, x);
    ConnectionSetShape(x, x', c, e, counter);
    BelowChannelsLocal(env, x, x');
    forall d | TrackedConn(x', d) && x'.store.connections[d].state == ConnOpen ensures Mirrored(x'.store, y.store, d) {
      if d != c { assert TrackedConn(x, d) && Mirrored(x.store, y.store, d); }
    }
    BelowChannelsPeer(env, x, x', y);
  }

  lemma ConnectionAt(s: Store, c: ConnectionId, e: ConnectionEnd)
    requires Lookup(s, Connection(c)) == Some(ConnectionValue(e))
    ensures c in s.connections && s.connections[c] == e
  {
  }

  lemma SnapshotConnection(env: Env, y: Node, h: Height, c: ConnectionId)
    requires LocalInv(env, y) && h in y.history && c in y.history[h].store.connections
    ensures y.history[h].store.config == y.store.config
    ensures c in y.store.connections && ConnExt(y.history[h].store.connections[c], y.store.connections[c])
  {
    hide StoreInv, ChanExt;
    assert SnapshotOk(env, y, h, y.history[h]);
  }

  /** A connection end read at the peer, past Init, is still there with the same parties, version and delay. */
  lemma ConnectionSeen(env: Env, x: Node, y: Node, host: Host, client: ClientId, prefix: Bytes, proof: Bytes, h: Height,
                       d: ConnectionId, f: ConnectionEnd)
    requires Stands(env, x, y) && client in x.tracks && f.state != ConnInit
    requires Proven(env, x.store, host, client, prefix, proof, h, Connection(d), ConnectionValue(f))
    ensures d in y.store.connections && ConnExt(f, y.store.connections[d])
    ensures prefix == y.store.config.prefix
  {
    hide LocalInv, PeerInv, Lookup, Proven, ConnExt;
    GenuineClients(env, x, y);
    Learn(env, x, y, host, client, prefix, proof, h, Connection(d), ConnectionValue(f));
    ConnectionAt(y.history[h].store, d, f);
    SnapshotConnection(env, y, h, d);
  }

  lemma ConnAckMirrors(env: Env, x: Node, y: Node, host: Host, m: ConnMsg, x': Node)
    requires Stands(env, x, y) && m.ConnOpenAck? && ConnAckValid(env, x.store, host, m)
    requires x.store.connections[m.connIdOnA].clientId in x.tracks
    requires x'.store == WithConnection(x.store, m.connIdOnA, ConnAckEnd(x.store.connections[m.connIdOnA], m))
    ensures Mirrored(x'.store, y.store, m.connIdOnA)
  {
    hide LocalInv, PeerInv, Proven, Contracts;
    var e := x.store.connections[m.connIdOnA];
    ConnectionSeen(env, x, y, host, e.clientId, e.counterparty.prefix, m.proofConn, m.proofHeight, m.connIdOnB,
                   ConnectionEnd(ConnTryOpen, e.counterparty.clientId,
                                 ConnCounterparty(e.clientId, Some(m.connIdOnA), x.store.config.prefix), [m.chosen], e.delayPeriod));
  }

  lemma ConnConfirmMirrors(env: Env, x: Node, y: Node, host: Host, m: ConnMsg, x': Node)
    requires Stands(env, x, y) && m.ConnOpenConfirm? && ConnConfirmValid(env, x.store, host, m)
    requires x.store.connections[m.connIdOnB].clientId in x.tracks
    requires x'.store == WithConnection(x.store, m.connIdOnB, x.store.connections[m.connIdOnB].(state := ConnOpen))
    ensures Mirrored(x'.store, y.store, m.connIdOnB)
  {
    hide LocalInv, PeerInv, Proven, Contracts;
    var e := x.store.connections[m.connIdOnB];
    ConnectionSeen(env, x, y, host, e.clientId, e.counterparty.prefix, m.proofConn, m.proofHeight, e.counterparty.connectionId.value,
                   ConnectionEnd(ConnOpen, e.counterparty.clientId,
                                 ConnCounterparty(e.clientId, Some(m.connIdOnB), x.store.config.prefix), e.versions, e.delayPeriod));
  }

  /** A new connection end is well formed and belongs to an existing client. */
  lemma NewConnectionShape(env: Env, s: Store, host: Host, m: ConnMsg, v: Version)
    requires m.ConnOpenInit? ==> ConnInitValid(s, host, m)
    requires m.ConnOpenTry? ==> ConnTryValid(env, s, host, m)
    ensures m.ConnOpenInit? ==> ConnShape(s, ConnInitEnd(s, m))
    ensures m.ConnOpenTry? ==> ConnShape(s, ConnTryEnd(m, v))
  {
  }

  lemma NewConnectionStep(env: Env, x: Node, y: Node, e: ConnectionEnd)
    requires LocalInv(env, x) && PeerInv(env, x, y) && ConnShape(x.store, e) && e.state != ConnOpen
    ensures var x' := x.(store := WithNewConnection(x.store, e));
            LocalInv(env, x') && Grows(x, x') && PeerInv(env, x', y)
  {
    hide LocalInv, PeerInv, Grows, ConnShape, StoreInv;
    StoreFacts(env, x);
    ConnectionIsNew(x.store);
    var c, n := ConnectionIdOf(x.store.connectionCounter), x.store.connectionCounter + 1;
    ConnectionStep(env, x, x.(store := WithNewConnection(x.store, e)), y, c, e, n);
  }

  lemma MovedConnectionStep(env: Env, x: Node, y: Node, c: ConnectionId, e: ConnectionEnd)
    requires LocalInv(env, x) && PeerInv(env, x, y) && c in x.store.connections
    requires ConnExt(x.store.connections[c], e) && ConnShape(x.store, e)
    requires e.clientId in x.tracks && e.state == ConnOpen ==> Mirrored(WithConnection(x.store, c, e), y.store, c)
    ensures var x' := x.(store := WithConnection(x.store, c, e));
            LocalInv(env, x') && Grows(x, x') && PeerInv(env, x', y)
  {
    hide LocalInv, PeerInv, Grows, ConnShape, ConnExt, Mirrored;
    var x' := x.(store := WithConnection(x.store, c, e));
    assert x'.store == x.store.(connections := x.store.connections[c := e], clientConnections := x.store.clientConnections,
                                connectionCounter := x.store.connectionCounter);
    ConnectionStep(env, x, x', y, c, e, x.store.connectionCounter);
  }

  lemma ConnectionMessageStep(env: Env, x: Node, y: Node, host: Host, m: ConnMsg, s: Store)
    requires Stands(env, x, y) && HandleConnection(env, x.store, host, m) == Some(s)
    ensures Kept(env, x, x.(store := s), y)
  {
    hide LocalInv, PeerInv, Proven, Contracts, Mirrored, Grows, PickVersion, IsSupported, StoreInv;
    var x' := x.(store := s);
    StoreFacts(env, x);
    match m
    case ConnOpenInit(_, _, _, _) =>
      NewConnectionShape(env, x.store, host, m, Version("", []));
      NewConnectionStep(env, x, y, ConnInitEnd(x.store, m));
    case ConnOpenTry(_, _, _, _, _, _, _, _, _, _) =>
      var v := PickVersion(x.store.config.versions, m.versionsOnA).value;
      NewConnectionShape(env, x.store, host, m, v);
      NewConnectionStep(env, x, y, ConnTryEnd(m, v));
    case ConnOpenAck(c, _, _, _, _, _, _, _, _) =>
      if x.store.connections[c].clientId in x.tracks { ConnAckMirrors(env, x, y, host, m, x'); }
      MovedConnectionStep(env, x, y, c, ConnAckEnd(x.store.connections[c], m));
    case ConnOpenConfirm(c, _, _) =>
      if x.store.connections[c].clientId in x.tracks { ConnConfirmMirrors(env, x, y, host, m, x'); }
      MovedConnectionStep(env, x, y, c, x.store.connections[c].(state := ConnOpen));
  }

  // ---------------------------------------------------------------- clients

  lemma ClientStep(env: Env, x: Node, x': Node, y: Node, id: ClientId, c: Client, counter: nat)
    requires LocalInv(env, x) && PeerInv(env, x, y)
    requires x' == x.(store := x.store.(clients := x.store.clients[id := c], clientCounter := counter))
    requires id in x.tracks ==> forall h :: h in c.consensus ==> GenuineState(env, c.consensus[h], h, y)
    ensures LocalInv(env, x') && Grows(x, x') && PeerInv(env, x', y)
  {
    hide LocalInv, ChanInv, StoreInv, PeerChannel, Grows, GenuineState;
    StoreFacts(env, x);
    FreshAfter(x.store, x'.store);
    forall d | d in x'.store.connections ensures ConnShape(x'.store, x'.store.connections[d]) {
      assert ConnShape(x.store, x.store.connections[d]);
    }
    assert BelowChannels(x, x');
    BelowChannelsLocal(env, x, x');
    forall d | TrackedConn(x', d) && x'.store.connections[d].state == ConnOpen ensures Mirrored(x'.store, y.store, d) {
      assert TrackedConn(x, d) && Mirrored(x.store, y.store, d);
    }
    BelowChannelsPeer(env, x, x', y);
  }

  /** An update of a client adds at most the header's own consensus state. */
  lemma UpdateConsensus(v: Verifier, c: Client, kind: UpdateKind, msg: ClientMessage, now: nat, hostHeight: Height, h: Height)
    requires HandleUpdate(v, c, kind, msg, now, hostHeight).Some?
    requires var r := HandleUpdate(v, c, kind, msg, now, hostHeight).value; h in r.consensus
    ensures var r := HandleUpdate(v, c, kind, msg, now, hostHeight).value;
            || (h in c.consensus && r.consensus[h] == c.consensus[h])
            || (msg.HeaderMessage? && VerifyHeader(v, c, msg.header, now) && h == HeightOf(msg.header)
                && r.consensus[h] == ConsensusOf(msg.header))
  {
  }

  lemma ClientMessageStep(env: Env, x: Node, y: Node, host: Host, m: ClientMsg, s: Store)
    requires Stands(env, x, y) && HandleClient(env, x.store, host, m) == Some(s) && host.time == x.time
    requires ClientAdmissible(env, x, y, m)
    ensures Kept(env, x, x.(store := s), y)
  {
    hide LocalInv, Grows, GenuineState, HandleUpdate, VerifyHeader, PeerChannel, Mirrored;
    var x' := x.(store := s);
    match m
    case CreateClient(st, cs) =>
      ClientStep(env, x, x', y, ClientIdOf(x.store.clientCounter), Initialised(st, cs, host.time, host.height), x.store.clientCounter + 1);
    case UpdateOrMisbehaviour(kind, id, msg) =>
      var c := x.store.clients[id];
      var r := HandleUpdate(env.verifier, c, kind, msg, host.time, host.height).value;
      forall h | id in x.tracks && h in r.consensus ensures GenuineState(env, r.consensus[h], h, y) {
        UpdateConsensus(env.verifier, c, kind, msg, host.time, host.height, h);
      }
      ClientStep(env, x, x', y, id, r, x.store.clientCounter);
    case UpgradeClient(id, st, cs, p1, p2) =>
      var c := x.store.clients[id];
      var r := s.clients[id];
      forall h | id in x.tracks && h in r.consensus ensures GenuineState(env, r.consensus[h], h, y) {
        UpgradeConsensus(env, x.store, host, m, s, h, y);
      }
      ClientStep(env, x, x', y, id, r, x.store.clientCounter);
  }

  lemma UpgradeConsensus(env: Env, s: Store, host: Host, m: ClientMsg, s': Store, h: Height, y: Node)
    requires m.UpgradeClient? && HandleClient(env, s, host, m) == Some(s')
    requires h in s'.clients[m.clientId].consensus
    ensures GenuineState(env, s'.clients[m.clientId].consensus[h], h, y)
            || (h in s.clients[m.clientId].consensus && s.clients[m.clientId].consensus[h] == s'.clients[m.clientId].consensus[h])
  {
  }
}
