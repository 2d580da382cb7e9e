/** The ICS-04 channel handshake and closing. */
module Channels {
  import opened Prelude
  import opened Heights
  import opened Paths
  import opened Denoms
  import opened IbcStore
  import opened Transfer

  datatype ChanMsg =
    | ChanOpenInit(portOnA: PortId, hops: seq<ConnectionId>, portOnB: PortId, ordering: Order, versionProposal: string)
    | ChanOpenTry(portOnB: PortId, hops: seq<ConnectionId>, keyOnA: ChanKey, versionOnA: string, ordering: Order,
                  proof: Bytes, proofHeight: Height)
    | ChanOpenAck(keyOnA: ChanKey, chanOnB: ChannelId, versionOnB: string, proof: Bytes, proofHeight: Height)
    | ChanOpenConfirm(keyOnB: ChanKey, proof: Bytes, proofHeight: Height)
    | ChanCloseInit(keyOnA: ChanKey)
    | ChanCloseConfirm(keyOnB: ChanKey, proof: Bytes, proofHeight: Height)

  function OrderName(o: Order): string {
    match o
    case NoOrder => "ORDER_NONE_UNSPECIFIED"
    case Unordered => "ORDER_UNORDERED"
    case Ordered => "ORDER_ORDERED"
  }

  predicate FeatureSupported(conn: ConnectionEnd, o: Order) {
    |conn.versions| > 0 && OrderName(o) in conn.versions[0].features
  }

  function FreshChannel(e: ChannelEnd): Channel { Channel(e, 1, 1, 1, map[], {}, map[]) }

  function WithChannel(s: Store, k: ChanKey, c: Channel): Store { s.(channels := s.channels[k := c]) }

  function WithNewChannel(s: Store, k: ChanKey, e: ChannelEnd): Store {
    WithChannel(s, k, FreshChannel(e)).(channelCounter := s.channelCounter + 1)
  }

  function WithEnd(s: Store, k: ChanKey, e: ChannelEnd): Store
    requires k in s.channels
  {
    WithChannel(s, k, s.channels[k].(end := e))
  }

  function NewKey(s: Store, port: PortId): ChanKey { TracePrefix(port, ChannelIdOf(s.channelCounter)) }

  // ---------------------------------------------------------------- open

  predicate ChanInitValid(s: Store, host: Host, m: ChanMsg)
    requires m.ChanOpenInit?
  {
    && |m.hops| == 1
    && m.hops[0] in s.connections
    && var conn := s.connections[m.hops[0]];
       && ClientActive(s, host, conn.clientId)
       && FeatureSupported(conn, m.ordering)
       && m.ordering != NoOrder
  }

  function ChanInitEnd(m: ChanMsg): ChannelEnd
    requires m.ChanOpenInit?
  {
    ChannelEnd(Init, m.ordering, Counterparty(m.portOnB, None), m.hops, m.versionProposal)
  }

  predicate ChanTryValid(env: Env, s: Store, host: Host, m: ChanMsg)
    requires m.ChanOpenTry?
  {
    && |m.hops| == 1
    && m.hops[0] in s.connections
    && var conn := s.connections[m.hops[0]];
       && conn.state == ConnOpen
       && FeatureSupported(conn, m.ordering)
       && conn.counterparty.connectionId.Some?
       && m.ordering != NoOrder
       && Proven(env, s, host, conn.clientId, conn.counterparty.prefix, m.proof, m.proofHeight,
                 ChannelEndPath(m.keyOnA.port, m.keyOnA.channel),
                 ChannelValue(ChannelEnd(Init, m.ordering, Counterparty(m.portOnB, None),
                                         [conn.counterparty.connectionId.value], m.versionOnA)))
  }

  function ChanTryEnd(m: ChanMsg, version: string): ChannelEnd
    requires m.ChanOpenTry?
  {
    ChannelEnd(TryOpen, m.ordering, RemoteOf(m.keyOnA), m.hops, version)
  }

  predicate ChanAckValid(env: Env, s: Store, host: Host, m: ChanMsg)
    requires m.ChanOpenAck?
  {
    && m.keyOnA in s.channels
    && var e := s.channels[m.keyOnA].end;
       && e.state == Init
       && |e.hops| == 1
       && HasConnection(s, e)
       && var conn := ConnectionOf(s, e);
          && conn.state == ConnOpen
          && conn.counterparty.connectionId.Some?
          && e.ordering != NoOrder
          && Proven(env, s, host, conn.clientId, conn.counterparty.prefix, m.proof, m.proofHeight,
                    ChannelEndPath(e.remote.portId, m.chanOnB),
                    ChannelValue(ChannelEnd(TryOpen, e.ordering, RemoteOf(m.keyOnA),
                                            [conn.counterparty.connectionId.value], m.versionOnB)))
  }

  function ChanAckEnd(e: ChannelEnd, m: ChanMsg): ChannelEnd
    requires m.ChanOpenAck?
  {
    e.(state := Open, version := m.versionOnB, remote := e.remote.(channelId := Some(m.chanOnB)))
  }

  /** The counterparty's end, in the given state, as this end expects it to be stored. */
  predicate PeerEndProven(env: Env, s: Store, host: Host, k: ChanKey, st: ChanState, proof: Bytes, proofHeight: Height) {
    && k in s.channels
    && var e := s.channels[k].end;
       && HasConnection(s, e)
       && var conn := ConnectionOf(s, e);
          && e.remote.channelId.Some?
          && conn.counterparty.connectionId.Some?
          && e.ordering != NoOrder
          && Proven(env, s, host, conn.clientId, conn.counterparty.prefix, proof, proofHeight,
                    ChannelEndPath(e.remote.portId, e.remote.channelId.value),
                    ChannelValue(ChannelEnd(st, e.ordering, RemoteOf(k), [conn.counterparty.connectionId.value], e.version)))
  }

  predicate ChanConfirmValid(env: Env, s: Store, host: Host, m: ChanMsg)
    requires m.ChanOpenConfirm?
  {
    && m.keyOnB in s.channels
    && var e := s.channels[m.keyOnB].end;
       && e.state == TryOpen
       && |e.hops| == 1
       && HasConnection(s, e)
       && ConnectionOf(s, e).state == ConnOpen
       && PeerEndProven(env, s, host, m.keyOnB, Open, m.proof, m.proofHeight)
  }

  // ---------------------------------------------------------------- close

  /** Closing an end without a counterparty channel fails when the close event is built. */
  predicate ChanCloseInitValid(s: Store, host: Host, m: ChanMsg)
    requires m.ChanCloseInit?
  {
    && m.keyOnA in s.channels
    && var e := s.channels[m.keyOnA].end;
       && e.state != Closed
       && |e.hops| == 1
       && HasConnection(s, e)
       && ConnectionOf(s, e).state == ConnOpen
       && ClientActive(s, host, ConnectionOf(s, e).clientId)
       && e.remote.channelId.Some?
  }

  predicate ChanCloseConfirmValid(env: Env, s: Store, host: Host, m: ChanMsg)
    requires m.ChanCloseConfirm?
  {
    && m.keyOnB in s.channels
    && var e := s.channels[m.keyOnB].end;
       && e.state != Closed
       && HasConnection(s, e)
       && ConnectionOf(s, e).state == ConnOpen
       && PeerEndProven(env, s, host, m.keyOnB, Closed, m.proof, m.proofHeight)
  }

  /** Validation by the core handler and by the module that owns the port. */
  predicate ChanValid(env: Env, s: Store, host: Host, m: ChanMsg, reply: Reply) {
    match m
    case ChanOpenInit(port, _, _, ordering, version) =>
      ChanInitValid(s, host, m) && InitAccepted(s, port, ordering, version, reply)
    case ChanOpenTry(port, _, _, version, ordering, _, _) =>
      ChanTryValid(env, s, host, m) && TryAccepted(s, port, ordering, version, reply)
    case ChanOpenAck(k, _, version, _, _) => ChanAckValid(env, s, host, m) && OpenAckAccepted(s, k.port, version, reply)
    case ChanOpenConfirm(k, _, _) => ChanConfirmValid(env, s, host, m) && OpenConfirmAccepted(s, k.port, reply)
    case ChanCloseInit(k) => ChanCloseInitValid(s, host, m) && CloseInitAccepted(s, k.port, reply)
    case ChanCloseConfirm(k, _, _) => ChanCloseConfirmValid(env, s, host, m) && OpenConfirmAccepted(s, k.port, reply)
  }

  function ChanExec(s: Store, m: ChanMsg, reply: Reply): (r: Store)
    requires m.ChanOpenAck? ==> m.keyOnA in s.channels
    requires m.ChanOpenConfirm? ==> m.keyOnB in s.channels
    requires m.ChanCloseInit? ==> m.keyOnA in s.channels
    requires m.ChanCloseConfirm? ==> m.keyOnB in s.channels
  {
    match m
    case ChanOpenInit(port, _, _, _, _) => WithNewChannel(s, NewKey(s, port), ChanInitEnd(m))
    case ChanOpenTry(port, _, _, _, _, _, _) => WithNewChannel(s, NewKey(s, port), ChanTryEnd(m, TryVersion(s, port, reply)))
    case ChanOpenAck(k, _, _, _, _) => WithEnd(s, k, ChanAckEnd(s.channels[k].end, m))
    case ChanOpenConfirm(k, _, _) => WithEnd(s, k, s.channels[k].end.(state := Open))
    case ChanCloseInit(k) => WithEnd(s, k, s.channels[k].end.(state := Closed))
    case ChanCloseConfirm(k, _, _) => WithEnd(s, k, s.channels[k].end.(state := Closed))
  }
}
