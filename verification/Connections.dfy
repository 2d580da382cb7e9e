/** The ICS-03 connection handshake and the ICS-02 client handlers. `None` is an error; the host rolls back. */
module Connections {
  import opened Prelude
  import opened Heights
  import opened Paths
  import opened Versions
  import opened Tendermint
  import opened IbcStore

  datatype ConnMsg =
    | ConnOpenInit(clientIdOnA: ClientId, counterparty: ConnCounterparty, version: Option<Version>, delayPeriod: nat)
    | ConnOpenTry(clientIdOnB: ClientId, clientStateOfBOnA: ClientState, counterparty: ConnCounterparty,
                  versionsOnA: seq<Version>, proofConn: Bytes, proofClient: Bytes, proofConsensus: Bytes,
                  proofHeight: Height, consensusHeight: Height, delayPeriod: nat)
    | ConnOpenAck(connIdOnA: ConnectionId, connIdOnB: ConnectionId, clientStateOfAOnB: ClientState,
                  proofConn: Bytes, proofClient: Bytes, proofConsensus: Bytes,
                  proofHeight: Height, consensusHeight: Height, chosen: Version)
    | ConnOpenConfirm(connIdOnB: ConnectionId, proofConn: Bytes, proofHeight: Height)

  datatype ClientMsg =
    | CreateClient(clientState: ClientState, consensusState: ConsensusState)
    | UpdateOrMisbehaviour(kind: UpdateKind, clientId: ClientId, message: ClientMessage)
    | UpgradeClient(clientId: ClientId, upgradedState: ClientState, upgradedConsensus: ConsensusState,
                    proofClient: Bytes, proofConsensus: Bytes)

  function WithConnection(s: Store, c: ConnectionId, e: ConnectionEnd): Store {
    s.(connections := s.connections[c := e])
  }

  /** A new connection end under the next identifier, which becomes the one stored for its client. */
  function WithNewConnection(s: Store, e: ConnectionEnd): Store {
    var id := ConnectionIdOf(s.connectionCounter);
    WithConnection(s, id, e).(connectionCounter := s.connectionCounter + 1, clientConnections := s.clientConnections[e.clientId := id])
  }

  // ---------------------------------------------------------------- clients

  function HandleCreate(s: Store, host: Host, m: ClientMsg): (r: Option<Store>)
    requires m.CreateClient?
  {
    var id := ClientIdOf(s.clientCounter);
    if IsFrozen(m.clientState) || |m.consensusState.root| == 0 || id in s.clients then None
    else Some(s.(clients := s.clients[id := Initialised(m.clientState, m.consensusState, host.time, host.height)],
                 clientCounter := s.clientCounter + 1))
  }

  function HandleClient(env: Env, s: Store, host: Host, m: ClientMsg): (r: Option<Store>) {
    match m
    case CreateClient(_, _) => HandleCreate(s, host, m)
    case UpdateOrMisbehaviour(kind, id, msg) =>
      if id !in s.clients then None
      else
        var c := HandleUpdate(env.verifier, s.clients[id], kind, msg, host.time, host.height);
        if c.None? then None else Some(s.(clients := s.clients[id := c.value]))
    case UpgradeClient(id, st, cs, p1, p2) =>
      if id !in s.clients then None
      else
        var current := s.clients[id];
        var latest := current.state.latestHeight;
        var ok := latest in current.consensus && env.upgradeProofs(current.consensus[latest].root, st, cs, p1, p2);
        var c := HandleUpgrade(current, st, cs, env.sentinel, ok, host.time, host.height);
        if c.None? then None else Some(s.(clients := s.clients[id := c.value]))
  }

  // ---------------------------------------------------------------- connection handshake

  predicate ConnInitValid(s: Store, host: Host, m: ConnMsg)
    requires m.ConnOpenInit?
  {
    && ClientActive(s, host, m.clientIdOnA)
    && (m.version.Some? ==> IsSupported(m.version.value, s.config.versions))
  }

  function ConnInitEnd(s: Store, m: ConnMsg): ConnectionEnd
    requires m.ConnOpenInit?
  {
    ConnectionEnd(ConnInit, m.clientIdOnA,
                  ConnCounterparty(m.counterparty.clientId, None, m.counterparty.prefix),
                  if m.version.Some? then [m.version.value] else s.config.versions,
                  m.delayPeriod)
  }

  function ConnTryEnd(m: ConnMsg, chosen: Version): ConnectionEnd
    requires m.ConnOpenTry?
  {
    ConnectionEnd(ConnTryOpen, m.clientIdOnB, m.counterparty, [chosen], m.delayPeriod)
  }

  predicate ConnTryValid(env: Env, s: Store, host: Host, m: ConnMsg)
    requires m.ConnOpenTry?
  {
    var c, prefixOnA, h := m.clientIdOnB, m.counterparty.prefix, m.proofHeight;
    && PickVersion(s.config.versions, m.versionsOnA).Some?
    && m.counterparty.connectionId.Some?
    && env.selfClient(m.clientStateOfBOnA)
    && !Lt(host.height, m.consensusHeight)
    && Proven(env, s, host, c, prefixOnA, m.proofConn, h, Connection(m.counterparty.connectionId.value),
              ConnectionValue(ConnectionEnd(ConnInit, m.counterparty.clientId,
                                            ConnCounterparty(c, None, s.config.prefix), m.versionsOnA, m.delayPeriod)))
    && Proven(env, s, host, c, prefixOnA, m.proofClient, h, ClientStatePath(m.counterparty.clientId),
              ClientValue(m.clientStateOfBOnA))
    && m.consensusHeight in host.ownConsensus
    && Proven(env, s, host, c, prefixOnA, m.proofConsensus, h,
              ClientConsensusStatePath(m.counterparty.clientId, m.consensusHeight.revisionNumber, m.consensusHeight.revisionHeight),
              ConsensusValue(host.ownConsensus[m.consensusHeight]))
  }

  predicate ConnAckValid(env: Env, s: Store, host: Host, m: ConnMsg)
    requires m.ConnOpenAck?
  {
    && m.connIdOnA in s.connections
    && var e := s.connections[m.connIdOnA];
       var c, prefixOnB, h := e.clientId, e.counterparty.prefix, m.proofHeight;
       && !Lt(host.height, m.consensusHeight)
       && env.selfClient(m.clientStateOfAOnB)
       && IsSupported(m.chosen, e.versions)
       && e.state == ConnInit
       && Proven(env, s, host, c, prefixOnB, m.proofConn, h, Connection(m.connIdOnB),
                 ConnectionValue(ConnectionEnd(ConnTryOpen, e.counterparty.clientId,
                                               ConnCounterparty(c, Some(m.connIdOnA), s.config.prefix),
                                               [m.chosen], e.delayPeriod)))
       && Proven(env, s, host, c, prefixOnB, m.proofClient, h, ClientStatePath(e.counterparty.clientId),
                 ClientValue(m.clientStateOfAOnB))
       && m.consensusHeight in host.ownConsensus
       && Proven(env, s, host, c, prefixOnB, m.proofConsensus, h,
                 ClientConsensusStatePath(e.counterparty.clientId, m.consensusHeight.revisionNumber, m.consensusHeight.revisionHeight),
                 ConsensusValue(host.ownConsensus[m.consensusHeight]))
  }

  function ConnAckEnd(e: ConnectionEnd, m: ConnMsg): ConnectionEnd
    requires m.ConnOpenAck?
  {
    e.(state := ConnOpen, versions := [m.chosen], counterparty := e.counterparty.(connectionId := Some(m.connIdOnB)))
  }

  predicate ConnConfirmValid(env: Env, s: Store, host: Host, m: ConnMsg)
    requires m.ConnOpenConfirm?
  {
    && m.connIdOnB in s.connections
    && var e := s.connections[m.connIdOnB];
       && e.state == ConnTryOpen
       && e.counterparty.connectionId.Some?
       && |e.versions| == 1
       && Proven(env, s, host, e.clientId, e.counterparty.prefix, m.proofConn, m.proofHeight,
                 Connection(e.counterparty.connectionId.value),
                 ConnectionValue(ConnectionEnd(ConnOpen, e.counterparty.clientId,
                                               ConnCounterparty(e.clientId, Some(m.connIdOnB), s.config.prefix),
                                               e.versions, e.delayPeriod)))
  }

  function HandleConnection(env: Env, s: Store, host: Host, m: ConnMsg): (r: Option<Store>) {
    match m
    case ConnOpenInit(_, _, _, _) =>
      if !ConnInitValid(s, host, m) then None
      else Some(WithNewConnection(s, ConnInitEnd(s, m)))
    case ConnOpenTry(_, _, _, _, _, _, _, _, _, _) =>
      if !ConnTryValid(env, s, host, m) then None
      else
        var chosen := PickVersion(s.config.versions, m.versionsOnA).value;
        Some(WithNewConnection(s, ConnTryEnd(m, chosen)))
    case ConnOpenAck(_, _, _, _, _, _, _, _, _) =>
      if !ConnAckValid(env, s, host, m) then None
      else Some(WithConnection(s, m.connIdOnA, ConnAckEnd(s.connections[m.connIdOnA], m)))
    case ConnOpenConfirm(_, _, _) =>
      if !ConnConfirmValid(env, s, host, m) then None
      else Some(WithConnection(s, m.connIdOnB, s.connections[m.connIdOnB].(state := ConnOpen)))
  }
}
