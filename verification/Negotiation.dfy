/** Version negotiation across the connection handshake. */
module Negotiation {
  import opened Prelude
  import opened Heights
  import opened Paths
  import opened Versions
  import opened Tendermint
  import opened IbcStore
  import opened Channels
  import opened Transfer
  import opened Denoms
  import opened Connections
  import opened World
  import opened Invariants
  import opened NodeSteps
  import opened Preservation
  import opened HandshakeSteps
  import opened Safety

  /** The initiator's end, as the responder's message claims it. */
  function ClaimedInit(s: Store, m: ConnMsg): ConnectionEnd
    requires m.ConnOpenTry?
  {
    ConnectionEnd(ConnInit, m.counterparty.clientId, ConnCounterparty(m.clientIdOnB, None, s.config.prefix), m.versionsOnA, m.delayPeriod)
  }

  /** While the initiator still waits, its check accepts whatever version the responder picks. */
  ghost predicate PickAccepted(y: Node, x: Node, m: ConnMsg) {
    && m.ConnOpenTry? && m.counterparty.connectionId.Some?
    && m.counterparty.connectionId.value in y.store.connections
    && var e := y.store.connections[m.counterparty.connectionId.value];
       var picked := PickVersion(x.store.config.versions, m.versionsOnA);
       && picked.Some?
       && (e.state == ConnInit ==> e == ClaimedInit(x.store, m) && IsSupported(picked.value, e.versions))
  }

  lemma PickAcceptedCore(env: Env, x: Node, y: Node, host: Host, m: ConnMsg)
    requires Stands(env, x, y) && m.ConnOpenTry? && ConnTryValid(env, x.store, host, m) && m.clientIdOnB in x.tracks
    ensures PickAccepted(y, x, m)
  {
    hide LocalInv, PeerInv, Lookup, Proven, PickVersion, IsSupported;
    var id, f := m.counterparty.connectionId.value, ClaimedInit(x.store, m);
    GenuineClients(env, x, y);
    Learn(env, x, y, host, m.clientIdOnB, m.counterparty.prefix, m.proofConn, m.proofHeight, Connection(id), ConnectionValue(f));
    ConnectionAt(y.history[m.proofHeight].store, id, f);
    SnapshotConnection(env, y, m.proofHeight, id);
    PickedIsAcceptedByCounterparty(x.store.config.versions, m.versionsOnA);
  }

  ghost predicate TryPasses(env: Env, x: Node, host: Host, m: ConnMsg) {
    m.ConnOpenTry? && ConnTryValid(env, x.store, host, m) && m.clientIdOnB in x.tracks
  }

  /**
   In every reachable state, whenever a responder accepts an opening, the version it stores passes the initiator's own
   check against the list the initiator stored, for as long as the initiator has not moved on.
   */
  lemma ResponderPickIsAccepted(env: Env, w: Pair, x: Node, y: Node, host: Host, m: ConnMsg)
    requires Live(env, w, x, y) && TryPasses(env, x, host, m)
    ensures PickAccepted(y, x, m)
  {
    hide *;
    LiveBoth(env, w, x, y);
    TryCore(env, x, y, host, m);
  }

  lemma TryCore(env: Env, x: Node, y: Node, host: Host, m: ConnMsg)
    requires Both(env, x, y) && TryPasses(env, x, host, m)
    ensures PickAccepted(y, x, m)
  {
    hide LocalInv, PeerInv, Contracts, ConnTryValid, PickAccepted;
    PickAcceptedCore(env, x, y, host, m);
  }

  // ---------------------------------------------------------------- the orderings a connection allows

  /** What a responder stores when it accepts an opening. */
  ghost predicate Answers(env: Env, s: Store, host: Host, m: ConnMsg, e: ConnectionEnd) {
    && m.ConnOpenTry?
    && var s' := HandleConnection(env, s, host, m);
       && s'.Some?
       && ConnectionIdOf(s.connectionCounter) in s'.value.connections
       && e == s'.value.connections[ConnectionIdOf(s.connectionCounter)]
  }

  /** Entry `i` of the responder and entry `j` of the initiator were matched, and the stored version is what they share. */
  ghost predicate Settled(s: Store, m: ConnMsg, e: ConnectionEnd, i: nat, j: nat, at: seq<nat>) {
    m.ConnOpenTry? && |e.versions| == 1 && PickedAt(s.config.versions, m.versionsOnA, e.versions[0], i, j, at)
  }

  lemma AnswerSettles(env: Env, s: Store, host: Host, m: ConnMsg, e: ConnectionEnd) returns (i: nat, j: nat, at: seq<nat>)
    requires Answers(env, s, host, m, e)
    ensures m.ConnOpenTry? && |e.versions| == 1 && Settled(s, m, e, i, j, at) && i < |s.config.versions| && j < |m.versionsOnA|
  {
    hide Proven, PickVersion, PickedAt;
    PickIsWholeIntersection(s.config.versions, m.versionsOnA);
    i, j, at :| PickedAt(s.config.versions, m.versionsOnA, PickVersion(s.config.versions, m.versionsOnA).value, i, j, at);
    PickedInRange(s.config.versions, m.versionsOnA, PickVersion(s.config.versions, m.versionsOnA).value, i, j, at);
  }

  lemma PickedInRange(supported: seq<Version>, counterparty: seq<Version>, v: Version, i: nat, j: nat, at: seq<nat>)
    requires PickedAt(supported, counterparty, v, i, j, at)
    ensures i < |supported| && j < |counterparty|
    ensures supported[i].identifier == v.identifier && FirstNamed(supported, counterparty, i, j)
  {
  }

  lemma SettledFeature(s: Store, m: ConnMsg, e: ConnectionEnd, i: nat, j: nat, at: seq<nat>, f: string)
    requires Settled(s, m, e, i, j, at) && i < |s.config.versions| && j < |m.versionsOnA|
    ensures f in e.versions[0].features <==> f in s.config.versions[i].features && f in m.versionsOnA[j].features
  {
    var v, all, allowed := e.versions[0], s.config.versions[i].features, m.versionsOnA[j].features;
    if f in all && f in allowed {
      var n :| 0 <= n < |all| && all[n] == f;
      assert n in at;
      var a :| 0 <= a < |at| && at[a] == n;
      assert v.features[a] == f;
    }
    if f in v.features {
      var a :| 0 <= a < |v.features| && v.features[a] == f;
      assert at[a] in at;
    }
  }

  ghost predicate AllowsCommon(s: Store, m: ConnMsg, e: ConnectionEnd, i: nat, j: nat) {
    && m.ConnOpenTry? && i < |s.config.versions| && j < |m.versionsOnA|
    && forall o :: FeatureSupported(e, o) <==> OrderName(o) in s.config.versions[i].features && OrderName(o) in m.versionsOnA[j].features
  }

  /** The stored connection allows exactly the orderings that both matched entries list. */
  lemma AllowsExactlyCommonOrderings(env: Env, s: Store, host: Host, m: ConnMsg, e: ConnectionEnd)
    requires Answers(env, s, host, m, e)
    ensures exists i: nat, j: nat, at: seq<nat> :: Settled(s, m, e, i, j, at) && AllowsCommon(s, m, e, i, j)
  {
    hide Answers, Settled;
    var i, j, at := AnswerSettles(env, s, host, m, e);
    forall f ensures f in e.versions[0].features <==> f in s.config.versions[i].features && f in m.versionsOnA[j].features {
      SettledFeature(s, m, e, i, j, at, f);
    }
    hide OrderName;
    assert AllowsCommon(s, m, e, i, j);
  }

  /** The pair of entries of an identifier that the responder lists once. */
  ghost predicate OnlyEntries(s: Store, m: ConnMsg, i: nat, j: nat) {
    && m.ConnOpenTry?
    && FirstNamed(s.config.versions, m.versionsOnA, i, j)
    && forall k: nat :: k < |s.config.versions| && s.config.versions[k].identifier == s.config.versions[i].identifier ==> k == i
  }

  /** An ordering that both sides list under the settled identifier is allowed on the connection. */
  lemma ListedOrderingIsAllowed(env: Env, s: Store, host: Host, m: ConnMsg, e: ConnectionEnd, i: nat, j: nat, o: Order)
    requires Answers(env, s, host, m, e) && OnlyEntries(s, m, i, j)
    requires |e.versions| > 0 && e.versions[0].identifier == s.config.versions[i].identifier
    requires OrderName(o) in s.config.versions[i].features && OrderName(o) in m.versionsOnA[j].features
    ensures FeatureSupported(e, o)
  {
    hide Answers, OrderName, PickedAt;
    var i', j', at := AnswerSettles(env, s, host, m, e);
    PickedInRange(s.config.versions, m.versionsOnA, e.versions[0], i', j', at);
    SettledFeature(s, m, e, i', j', at, OrderName(o));
  }

  // ---------------------------------------------------------------- the initiator's side

  lemma SupportedThrough(v: Version, u: Version, versions: seq<Version>)
    requires IsSupported(v, [u]) && IsSupported(u, versions)
    ensures IsSupported(v, versions)
  {
    assert FindSupported(v.identifier, [u]) == if u.identifier == v.identifier then Some(u) else FindSupported(v.identifier, [u][1..]);
  }

  lemma OfferAccepted(config: Config, offered: seq<Version>, v: Version)
    requires Offered(config, offered) && IsSupported(v, offered)
    ensures IsSupported(v, config.versions)
  {
    hide IsSupported;
    if offered != config.versions {
      assert offered == [offered[0]];
      SupportedThrough(v, offered[0], config.versions);
    }
  }

  ghost predicate AckPasses(env: Env, x: Node, host: Host, m: ConnMsg) {
    m.ConnOpenAck? && ConnAckValid(env, x.store, host, m)
  }

  ghost predicate OwnVersion(x: Node, m: ConnMsg) { m.ConnOpenAck? && IsSupported(m.chosen, x.store.config.versions) }

  lemma OwnVersionCore(env: Env, x: Node, host: Host, m: ConnMsg)
    requires LocalInv(env, x) && AckPasses(env, x, host, m)
    ensures OwnVersion(x, m)
  {
    hide LocalInv, Proven, IsSupported, Offered, StoreInv, IdsFresh;
    StoreFacts(env, x);
    assert ConnShape(x.store, x.store.connections[m.connIdOnA]);
    OfferAccepted(x.store.config, x.store.connections[m.connIdOnA].versions, m.chosen);
  }

  /** Whatever the responder answers, an initiator only opens on a version its own host supports. */
  lemma InitiatorSpeaksOwnVersion(env: Env, w: Pair, x: Node, y: Node, host: Host, m: ConnMsg)
    requires Live(env, w, x, y) && AckPasses(env, x, host, m)
    ensures OwnVersion(x, m)
  {
    hide *;
    LiveBoth(env, w, x, y);
    BothLocal(env, x, y);
    OwnVersionCore(env, x, host, m);
  }

  // ---------------------------------------------------------------- the counterparty's client

  /** At some past block the other chain's client `id` passed this chain's checks and held this chain's own consensus state. */
  ghost predicate ClientOfUs(env: Env, y: Node, host: Host, at: Height, id: ClientId, st: ClientState, h: Height) {
    && at in y.history
    && var s := y.history[at].store;
       && id in s.clients
       && s.clients[id].state == st
       && env.selfClient(st)
       && h in host.ownConsensus && Leq(h, host.height)
       && h in s.clients[id].consensus
       && s.clients[id].consensus[h] == host.ownConsensus[h]
  }

  lemma ClientLearned(env: Env, x: Node, y: Node, host: Host, client: ClientId, prefix: Bytes, proof: Bytes, proof': Bytes,
                      at: Height, id: ClientId, st: ClientState, h: Height)
    requires Stands(env, x, y) && client in x.tracks && env.selfClient(st) && h in host.ownConsensus && Leq(h, host.height)
    requires Proven(env, x.store, host, client, prefix, proof, at, ClientStatePath(id), ClientValue(st))
    requires Proven(env, x.store, host, client, prefix, proof', at,
                    ClientConsensusStatePath(id, h.revisionNumber, h.revisionHeight), ConsensusValue(host.ownConsensus[h]))
    ensures ClientOfUs(env, y, host, at, id, st, h)
  {
    hide LocalInv, PeerInv, Proven, Contracts;
    GenuineClients(env, x, y);
    Learn(env, x, y, host, client, prefix, proof, at, ClientStatePath(id), ClientValue(st));
    Learn(env, x, y, host, client, prefix, proof', at,
          ClientConsensusStatePath(id, h.revisionNumber, h.revisionHeight), ConsensusValue(host.ownConsensus[h]));
    assert h == Height(h.revisionNumber, h.revisionHeight);
  }

  ghost predicate HandshakePasses(env: Env, x: Node, host: Host, m: ConnMsg) {
    match m
    case ConnOpenTry(_, _, _, _, _, _, _, _, _, _) => TryPasses(env, x, host, m)
    case ConnOpenAck(c, _, _, _, _, _, _, _, _) => AckPasses(env, x, host, m) && TrackedConn(x, c)
    case _ => false
  }

  /** The client at the other end of the connection being opened. */
  ghost predicate PeerClientChecked(env: Env, x: Node, y: Node, host: Host, m: ConnMsg) {
    match m
    case ConnOpenTry(_, st, counterparty, _, _, _, _, at, h, _) => ClientOfUs(env, y, host, at, counterparty.clientId, st, h)
    case ConnOpenAck(c, _, st, _, _, _, at, h, _) =>
      c in x.store.connections && ClientOfUs(env, y, host, at, x.store.connections[c].counterparty.clientId, st, h)
    case _ => false
  }

  lemma PeerClientCore(env: Env, x: Node, y: Node, host: Host, m: ConnMsg)
    requires Both(env, x, y) && HandshakePasses(env, x, host, m)
    ensures PeerClientChecked(env, x, y, host, m)
  {
    hide LocalInv, PeerInv, Proven, Contracts, ClientOfUs, PickVersion, IsSupported;
    match m
    case ConnOpenTry(c, st, cp, _, _, p1, p2, at, h, _) => ClientLearned(env, x, y, host, c, cp.prefix, p1, p2, at, cp.clientId, st, h);
    case ConnOpenAck(id, _, st, _, p1, p2, at, h, _) =>
      var e := x.store.connections[id];
      ClientLearned(env, x, y, host, e.clientId, e.counterparty.prefix, p1, p2, at, e.counterparty.clientId, st, h);
    case _ =>
  }

  /** No connection is opened towards a client that did not really hold a consensus state of this chain. */
  lemma PeerClientIsOurs(env: Env, w: Pair, x: Node, y: Node, host: Host, m: ConnMsg)
    requires Live(env, w, x, y) && HandshakePasses(env, x, host, m)
    ensures PeerClientChecked(env, x, y, host, m)
  {
    hide *;
    LiveBoth(env, w, x, y);
    PeerClientCore(env, x, y, host, m);
  }

  // ---------------------------------------------------------------- the version a channel is proposed with

  /** End `j` belongs to the transfer module of `y`, over a client that tracks this chain, and names `k`. */
  ghost predicate AnsweredByTransfer(y: Node, j: ChanKey, k: ChanKey) {
    Tracked(y, j) && j.port == y.store.config.transferPort && y.store.channels[j].end.remote == RemoteOf(k)
  }

  ghost predicate ProposedRight(x: Node, k: ChanKey) {
    k in x.store.channels && (x.store.channels[k].end.state == Init ==> x.store.channels[k].end.version == VERSION)
  }

  lemma ProposedRightCore(env: Env, x: Node, y: Node, k: ChanKey, j: ChanKey)
    requires PeerInv(env, y, x) && AnsweredByTransfer(y, j, k)
    ensures ProposedRight(x, k)
  {
    hide PeerInv, PeerAgrees, SentBy, Justified;
    PeerFacts(env, y, x, j);
    assert PeerKey(y.store.channels[j].end) == k;
  }

  /**
   The stored version is the proposed one, so a transfer module answers only ends proposed with its version: an end
   proposed with the empty version, which the proposing module accepts, is never answered by one.
   */
  lemma BlankProposalIsNeverAnswered(env: Env, w: Pair, x: Node, y: Node, k: ChanKey, j: ChanKey)
    requires Live(env, w, x, y) && AnsweredByTransfer(y, j, k)
    ensures ProposedRight(x, k)
  {
    hide *;
    LiveBoth(env, w, x, y);
    BothLocal(env, x, y);
    ProposedRightCore(env, x, y, k, j);
  }

  /** An acknowledgement that would open end `keyOnA` on the word of a transfer module over a tracked client. */
  ghost predicate OpensOnTransfer(env: Env, x: Node, y: Node, host: Host, m: ChanMsg) {
    && m.ChanOpenAck? && ChanAckValid(env, x.store, host, m) && Tracked(x, m.keyOnA)
    && var far := TracePrefix(x.store.channels[m.keyOnA].end.remote.portId, m.chanOnB);
       Tracked(y, far) && far.port == y.store.config.transferPort
  }

  ghost predicate WasProposedRight(x: Node, m: ChanMsg) {
    m.ChanOpenAck? && m.keyOnA in x.store.channels && x.store.channels[m.keyOnA].end.version == VERSION
  }

  lemma OpensRightCore(env: Env, x: Node, y: Node, host: Host, m: ChanMsg)
    requires Both(env, x, y) && OpensOnTransfer(env, x, y, host, m)
    ensures WasProposedRight(x, m)
  {
    hide LocalInv, PeerInv, Contracts, Proven, ProposedRight;
    var k := m.keyOnA;
    var e := x.store.channels[k].end;
    var conn := ConnectionOf(x.store, e);
    var far := TracePrefix(e.remote.portId, m.chanOnB);
    EndSeen(env, x, y, host, conn, m.proof, m.proofHeight, far,
            ChannelEnd(TryOpen, e.ordering, RemoteOf(k), [conn.counterparty.connectionId.value], m.versionOnB));
    ProposedRightCore(env, x, y, k, far);
    ProposedIs(x, k);
  }

  lemma ProposedIs(x: Node, k: ChanKey)
    requires ProposedRight(x, k)
    ensures k in x.store.channels && (x.store.channels[k].end.state == Init ==> x.store.channels[k].end.version == VERSION)
  {
  }

  /** Nor does it ever open towards one: only an end proposed with the version can. */
  lemma BlankProposalNeverOpens(env: Env, w: Pair, x: Node, y: Node, host: Host, m: ChanMsg)
    requires Live(env, w, x, y) && OpensOnTransfer(env, x, y, host, m)
    ensures WasProposedRight(x, m)
  {
    hide *;
    LiveBoth(env, w, x, y);
    OpensRightCore(env, x, y, host, m);
  }
}
