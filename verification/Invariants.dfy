/** What every run keeps: how a store may grow, how it matches its callback history, and what it knows of its peer. */
module Invariants {
  import opened Prelude
  import opened Heights
  import opened Paths
  import opened Denoms
  import opened Versions
  import opened IbcStore
  import opened Transfer
  import opened Channels
  import opened World

  // ---------------------------------------------------------------- growth

  ghost predicate ConnExt(c: ConnectionEnd, c': ConnectionEnd) {
    && c'.clientId == c.clientId
    && c'.delayPeriod == c.delayPeriod
    && c'.counterparty.clientId == c.counterparty.clientId
    && c'.counterparty.prefix == c.counterparty.prefix
    && (c.state != ConnInit ==> c'.counterparty == c.counterparty && c'.versions == c.versions && c'.state != ConnInit)
    && (c.state == ConnOpen ==> c'.state == ConnOpen)
    && (c'.state == ConnInit ==> c' == c)
  }

  /** How one channel's end, sequences, receipts and callbacks may change from one moment to a later one. */
  ghost predicate ChanExt(c: Channel, t: ChanTrace, c': Channel, t': ChanTrace) {
    && EndExt(c.end, c'.end)
    && c.nextRecv <= c'.nextRecv
    && c.receipts <= c'.receipts
    && (forall n :: n in c.acks ==> n in c'.acks && c'.acks[n] == c.acks[n])
    && TraceExt(t, t')
    && (c.end.state == Closed ==>
          t'.sent == t.sent && t'.delivered == t.delivered && c'.nextRecv == c.nextRecv && OnlyOnClose(t.resolved, t'.resolved))
  }

  /** What was resolved in between was resolved by a timeout on close. */
  ghost predicate OnlyOnClose(rs: seq<Resolution>, rs': seq<Resolution>) {
    forall i :: |rs| <= i < |rs'| ==> rs'[i].TimedOut? && rs'[i].onClose
  }

  ghost predicate EndExt(e: ChannelEnd, e': ChannelEnd) {
    && e'.ordering == e.ordering
    && e'.hops == e.hops
    && e'.remote.portId == e.remote.portId
    && (e.remote.channelId.Some? ==> e'.remote == e.remote)
    && (e.state != Init ==> e'.version == e.version && e'.state != Init)
    && (e.state == Open ==> e'.state == Open || e'.state == Closed)
    && (e.state == Closed ==> e'.state == Closed)
    && (e'.state == Init ==> e' == e)
  }

  ghost predicate TraceExt(t: ChanTrace, t': ChanTrace) {
    && t.sent <= t'.sent && t.transfers <= t'.transfers
    && t.delivered <= t'.delivered && t.resolved <= t'.resolved && (t.wasOpen ==> t'.wasOpen)
  }

  ghost predicate StoreExt(s: Store, t: Traces, s': Store, t': Traces) {
    && s'.config == s.config
    && (forall c :: c in s.connections ==> c in s'.connections && ConnExt(s.connections[c], s'.connections[c]))
    && (forall k :: k in s.channels ==>
          k in s'.channels && ChanExt(s.channels[k], TraceAt(t, k), s'.channels[k], TraceAt(t', k)))
  }

  ghost predicate Grows(x: Node, x': Node) {
    && StoreExt(x.store, x.traces, x'.store, x'.traces)
    && x'.tracks == x.tracks
    && (forall h :: h in x.history ==> h in x'.history && x'.history[h] == x.history[h])
  }

  lemma StoreExtTransitive(s: Store, t: Traces, s': Store, t': Traces, s'': Store, t'': Traces)
    requires StoreExt(s, t, s', t') && StoreExt(s', t', s'', t'')
    ensures StoreExt(s, t, s'', t'')
  {
    forall k | k in s.channels
      ensures k in s''.channels && ChanExt(s.channels[k], TraceAt(t, k), s''.channels[k], TraceAt(t'', k))
    {
      ChanExtTransitive(s.channels[k], TraceAt(t, k), s'.channels[k], TraceAt(t', k), s''.channels[k], TraceAt(t'', k));
    }
  }

  lemma ChanExtTransitive(c: Channel, t: ChanTrace, c': Channel, t': ChanTrace, c'': Channel, t'': ChanTrace)
    requires ChanExt(c, t, c', t') && ChanExt(c', t', c'', t'')
    ensures ChanExt(c, t, c'', t'')
  {
  }

  lemma StoreExtReflexive(s: Store, t: Traces)
    ensures StoreExt(s, t, s, t)
  {
  }

  // ---------------------------------------------------------------- a store and its own callbacks

  ghost function DeliveredSeqs(ds: seq<Delivery>): set<nat> { set d | d in ds :: d.packet.seq_ }

  ghost function ResolvedSeqs(rs: seq<Resolution>): set<nat> { set r | r in rs :: r.packet.seq_ }

  /** What an initiator offers: all its versions, or one that it supports. */
  ghost predicate Offered(config: Config, versions: seq<Version>) {
    versions == config.versions || (|versions| == 1 && IsSupported(versions[0], config.versions))
  }

  ghost predicate ConnShape(s: Store, c: ConnectionEnd) {
    && c.clientId in s.clients
    && (c.state == ConnInit <==> c.counterparty.connectionId.None?)
    && ConnectionEndOk(c)
    && (c.state == ConnInit ==> Offered(s.config, c.versions))
  }

  ghost predicate ChanShape(s: Store, e: ChannelEnd, t: ChanTrace) {
    && |e.hops| == 1
    && HasConnection(s, e)
    && e.ordering != NoOrder
    && (e.state == Init <==> e.remote.channelId.None?)
    && (e.state != Init ==> ConnectionOf(s, e).state == ConnOpen)
    && (e.state == TryOpen ==> FeatureSupported(ConnectionOf(s, e), e.ordering))
    && (e.state == Open ==> t.wasOpen)
    && (t.wasOpen ==> e.state == Open || e.state == Closed)
  }

  /** Sequences are handed out in order, and a commitment is stored exactly while its packet is unresolved. */
  ghost predicate SendInv(env: Env, k: ChanKey, c: Channel, t: ChanTrace) {
    && c.nextSend == |t.sent| + 1
    && (forall i :: 0 <= i < |t.sent| ==> SentOk(k, c.end, t.sent[i], i))
    && (forall n :: n in c.commitments <==> 1 <= n <= |t.sent| && n !in ResolvedSeqs(t.resolved))
    && (forall n :: n in c.commitments ==> c.commitments[n] == Commit(env, t.sent[n - 1]))
    && (forall j :: 0 <= j < |t.resolved| ==> ResolvedOk(t, t.resolved[j]))
    && (forall i, j :: 0 <= i < j < |t.resolved| ==> t.resolved[i].packet.seq_ != t.resolved[j].packet.seq_)
  }

  ghost predicate SentOk(k: ChanKey, e: ChannelEnd, p: Packet, i: nat) {
    p.seq_ == i + 1 && p.src == k && e.remote == RemoteOf(p.dst) && PacketTypesOk(p)
  }

  /** A resolved packet is the packet that was sent, in every field. */
  ghost predicate ResolvedOk(t: ChanTrace, r: Resolution) {
    && 1 <= r.packet.seq_ <= |t.sent|
    && t.sent[r.packet.seq_ - 1] == r.packet
    && (r.Acked? || !r.onClose ==> t.wasOpen)
  }

  /** Acknowledgements on an ordered channel come in order, until a timeout closes it. */
  ghost predicate AckOrderInv(c: Channel, t: ChanTrace) {
    && 1 <= c.nextAck
    && (c.end.ordering == Unordered ==> c.nextAck == 1)
    && (c.end.ordering == Ordered ==> AcksInOrder(t.resolved, c.nextAck - 1))
    && (c.end.ordering == Ordered && c.end.state != Closed ==> |t.resolved| == c.nextAck - 1)
  }

  ghost predicate AcksInOrder(rs: seq<Resolution>, n: nat) {
    n <= |rs| && forall j :: 0 <= j < n ==> rs[j].Acked? && rs[j].packet.seq_ == j + 1
  }

  /** Receipts, the receive sequence and the acknowledgements record exactly the deliveries. */
  ghost predicate RecvInv(env: Env, k: ChanKey, c: Channel, t: ChanTrace) {
    && (forall i :: 0 <= i < |t.delivered| ==> DeliveredOk(env, k, c, t.delivered[i]))
    && c.acks.Keys == DeliveredSeqs(t.delivered)
    && (t.delivered != [] ==> t.wasOpen)
    && (c.end.ordering == Unordered ==> UnorderedRecv(c, t.delivered))
    && (c.end.ordering == Ordered ==> OrderedRecv(c, t.delivered))
  }

  ghost predicate UnorderedRecv(c: Channel, ds: seq<Delivery>) {
    && c.nextRecv == 1
    && c.receipts == DeliveredSeqs(ds)
    && (forall i, j :: 0 <= i < j < |ds| ==> ds[i].packet.seq_ != ds[j].packet.seq_)
  }

  ghost predicate OrderedRecv(c: Channel, ds: seq<Delivery>) {
    && c.nextRecv == |ds| + 1
    && c.receipts == {}
    && (forall i :: 0 <= i < |ds| ==> ds[i].packet.seq_ == i + 1)
  }

  ghost predicate DeliveredOk(env: Env, k: ChanKey, c: Channel, d: Delivery) {
    && d.packet.dst == k
    && c.end.remote == RemoteOf(d.packet.src)
    && PacketDecodes(d.packet)
    && !PacketTimedOut(d.packet, d.time, d.height)
    && d.packet.seq_ in c.acks
    && c.acks[d.packet.seq_] == env.hash(d.ack)
  }

  ghost predicate ChanInv(env: Env, s: Store, k: ChanKey, c: Channel, t: ChanTrace) {
    ChanShape(s, c.end, t) && SendInv(env, k, c, t) && AckOrderInv(c, t) && RecvInv(env, k, c, t)
  }

  ghost predicate IdsFresh(s: Store) {
    && (forall c :: c in s.connections ==> exists n :: 0 <= n < s.connectionCounter && c == ConnectionIdOf(n))
    && (forall k :: k in s.channels ==> exists n :: 0 <= n < s.channelCounter && k.channel == ChannelIdOf(n))
  }

  ghost predicate StoreInv(env: Env, s: Store, t: Traces) {
    && IdsFresh(s)
    && t.Keys <= s.channels.Keys
    && (forall c :: c in s.connections ==> ConnShape(s, s.connections[c]))
    && (forall k :: k in s.channels ==> ChanInv(env, s, k, s.channels[k], TraceAt(t, k)))
  }

  /** Deliveries made after a snapshot carry a height and time no earlier than the snapshot's. */
  ghost predicate DeliveredAfter(snap: Snapshot, h: Height, k: ChanKey, t: ChanTrace) {
    forall i :: |TraceAt(snap.traces, k).delivered| <= i < |t.delivered| ==>
      Leq(h, t.delivered[i].height) && snap.time <= t.delivered[i].time
  }

  ghost predicate SnapshotOk(env: Env, x: Node, h: Height, snap: Snapshot) {
    && Leq(h, x.height)
    && snap.time <= x.time
    && StoreInv(env, snap.store, snap.traces)
    && StoreExt(snap.store, snap.traces, x.store, x.traces)
    && (forall k :: k in x.traces ==> DeliveredAfter(snap, h, k, x.traces[k]))
  }

  ghost predicate LocalInv(env: Env, x: Node) {
    && StoreInv(env, x.store, x.traces)
    && (forall h :: h in x.history ==> SnapshotOk(env, x, h, x.history[h]))
  }

  // ---------------------------------------------------------------- what a chain knows of its peer

  ghost predicate ClientsGenuine(env: Env, x: Node, y: Node) {
    forall c, h :: c in x.tracks && c in x.store.clients && h in x.store.clients[c].consensus ==>
      GenuineState(env, x.store.clients[c].consensus[h], h, y)
  }

  /** Connection end `c` of `sx` is mirrored by its counterparty on `sy`. */
  ghost predicate Mirrored(sx: Store, sy: Store, c: ConnectionId)
    requires c in sx.connections
  {
    var e := sx.connections[c];
    && e.counterparty.connectionId.Some?
    && e.counterparty.connectionId.value in sy.connections
    && var f := sy.connections[e.counterparty.connectionId.value];
       && f.state != ConnInit
       && f.clientId == e.counterparty.clientId
       && f.counterparty == ConnCounterparty(e.clientId, Some(c), sx.config.prefix)
       && e.counterparty.prefix == sy.config.prefix
       && f.versions == e.versions
       && f.delayPeriod == e.delayPeriod
  }

  function PeerKey(e: ChannelEnd): ChanKey
    requires e.remote.channelId.Some?
  {
    TracePrefix(e.remote.portId, e.remote.channelId.value)
  }

  /** The end at the other side of channel `k` names `k` back and agrees on ordering, version and connection, and the
      connection's version allows the ordering. */
  ghost predicate PeerAgrees(sx: Store, sy: Store, k: ChanKey)
    requires k in sx.channels
  {
    var e := sx.channels[k].end;
    && e.remote.channelId.Some?
    && PeerKey(e) in sy.channels
    && HasConnection(sx, e)
    && ConnectionOf(sx, e).counterparty.connectionId.Some?
    && FeatureSupported(ConnectionOf(sx, e), e.ordering)
    && var f := sy.channels[PeerKey(e)].end;
       && f.state != Init
       && f.remote == RemoteOf(k)
       && f.ordering == e.ordering
       && f.version == e.version
       && f.hops == [ConnectionOf(sx, e).counterparty.connectionId.value]
  }

  /** The end that channel `k` names exists, towards this port, with the same ordering, over the other end of the connection;
      a transfer module answers only ends proposed with its version. */
  ghost predicate PeerExists(sx: Store, sy: Store, k: ChanKey)
    requires k in sx.channels
  {
    var e := sx.channels[k].end;
    e.remote.channelId.Some? ==>
      && PeerKey(e) in sy.channels
      && HasConnection(sx, e)
      && ConnectionOf(sx, e).counterparty.connectionId.Some?
      && var f := sy.channels[PeerKey(e)].end;
         && f.ordering == e.ordering
         && f.remote.portId == k.port
         && f.hops == [ConnectionOf(sx, e).counterparty.connectionId.value]
         && (k.port == sx.config.transferPort && f.state == Init ==> f.version == VERSION)
  }

  ghost predicate SentBy(t: Traces, p: Packet) {
    1 <= p.seq_ <= |TraceAt(t, p.src).sent| && TraceAt(t, p.src).sent[p.seq_ - 1] == p
  }

  ghost predicate UnreceivedAt(s: Store, ordering: Order, p: Packet) {
    match ordering
    case Ordered => p.dst in s.channels && s.channels[p.dst].nextRecv == p.seq_
    case Unordered => p.dst in s.channels ==> p.seq_ !in s.channels[p.dst].receipts
    case NoOrder => false
  }

  /** The state of the other chain that justified an acknowledgement or a timeout. */
  ghost predicate Justified(env: Env, ordering: Order, k: ChanKey, r: Resolution, y: Node) {
    && r.proofHeight in y.history
    && var snap := y.history[r.proofHeight];
       var p := r.packet;
       match r
       case Acked(_, ack, _) =>
         && p.dst in snap.store.channels
         && p.seq_ in snap.store.channels[p.dst].acks
         && snap.store.channels[p.dst].acks[p.seq_] == env.hash(ack)
       case TimedOut(_, h, onClose) =>
         && UnreceivedAt(snap.store, ordering, p)
         && (if onClose then
               && p.dst in snap.store.channels
               && snap.store.channels[p.dst].end.state == Closed
               && snap.store.channels[p.dst].end.remote == RemoteOf(k)
             else PacketTimedOut(p, snap.time, h))
  }

  ghost predicate PeerChannel(env: Env, x: Node, y: Node, k: ChanKey)
    requires k in x.store.channels
  {
    var t := TraceAt(x.traces, k);
    && PeerExists(x.store, y.store, k)
    && (t.wasOpen ==> PeerAgrees(x.store, y.store, k))
    && (forall i :: 0 <= i < |t.delivered| ==> SentBy(y.traces, t.delivered[i].packet))
    && (forall i :: 0 <= i < |t.resolved| ==> Justified(env, x.store.channels[k].end.ordering, k, t.resolved[i], y))
  }

  /** The channel runs over a client that tracks the peer. */
  ghost predicate Tracked(x: Node, k: ChanKey) {
    && k in x.store.channels
    && HasConnection(x.store, x.store.channels[k].end)
    && ConnectionOf(x.store, x.store.channels[k].end).clientId in x.tracks
  }

  ghost predicate TrackedConn(x: Node, c: ConnectionId) {
    c in x.store.connections && x.store.connections[c].clientId in x.tracks
  }

  ghost predicate PeerInv(env: Env, x: Node, y: Node) {
    && ClientsGenuine(env, x, y)
    && (forall c :: TrackedConn(x, c) && x.store.connections[c].state == ConnOpen ==> Mirrored(x.store, y.store, c))
    && (forall k :: Tracked(x, k) ==> PeerChannel(env, x, y, k))
  }

  ghost predicate PairInv(env: Env, w: Pair) {
    LocalInv(env, w.a) && LocalInv(env, w.b) && PeerInv(env, w.a, w.b) && PeerInv(env, w.b, w.a)
  }

  // ---------------------------------------------------------------- the peer's knowledge survives growth

  lemma MirroredStable(sx: Store, sy: Store, ty: Traces, sy': Store, ty': Traces, c: ConnectionId)
    requires c in sx.connections && Mirrored(sx, sy, c) && StoreExt(sy, ty, sy', ty')
    ensures Mirrored(sx, sy', c)
  {
  }

  lemma PeerAgreesStable(sx: Store, sy: Store, ty: Traces, sy': Store, ty': Traces, k: ChanKey)
    requires k in sx.channels && PeerAgrees(sx, sy, k) && StoreExt(sy, ty, sy', ty')
    ensures PeerAgrees(sx, sy', k)
  {
    var j := PeerKey(sx.channels[k].end);
    assert ChanExt(sy.channels[j], TraceAt(ty, j), sy'.channels[j], TraceAt(ty', j));
  }

  lemma PeerExistsStable(sx: Store, sy: Store, ty: Traces, sy': Store, ty': Traces, k: ChanKey)
    requires k in sx.channels && PeerExists(sx, sy, k) && StoreExt(sy, ty, sy', ty')
    ensures PeerExists(sx, sy', k)
  {
    if sx.channels[k].end.remote.channelId.Some? {
      var j := PeerKey(sx.channels[k].end);
      assert ChanExt(sy.channels[j], TraceAt(ty, j), sy'.channels[j], TraceAt(ty', j));
    }
  }

  lemma SentByStable(y: Node, y': Node, p: Packet)
    requires SentBy(y.traces, p) && y.traces.Keys <= y.store.channels.Keys && Grows(y, y')
    ensures SentBy(y'.traces, p)
  {
    assert p.src in y.store.channels;
    assert ChanExt(y.store.channels[p.src], TraceAt(y.traces, p.src), y'.store.channels[p.src], TraceAt(y'.traces, p.src));
  }

  lemma PeerStable(env: Env, x: Node, y: Node, y': Node)
    requires PeerInv(env, x, y) && y.traces.Keys <= y.store.channels.Keys && Grows(y, y')
    ensures PeerInv(env, x, y')
  {
    forall c | TrackedConn(x, c) && x.store.connections[c].state == ConnOpen
      ensures Mirrored(x.store, y'.store, c)
    {
      MirroredStable(x.store, y.store, y.traces, y'.store, y'.traces, c);
    }
    forall k | Tracked(x, k) ensures PeerChannel(env, x, y', k) {
      PeerChannelStable(env, x, y, y', k);
    }
  }

  lemma PeerChannelStable(env: Env, x: Node, y: Node, y': Node, k: ChanKey)
    requires k in x.store.channels && PeerChannel(env, x, y, k)
    requires y.traces.Keys <= y.store.channels.Keys && Grows(y, y')
    ensures PeerChannel(env, x, y', k)
  {
    hide PeerExists, PeerAgrees;
    var t := TraceAt(x.traces, k);
    PeerExistsStable(x.store, y.store, y.traces, y'.store, y'.traces, k);
    if t.wasOpen { PeerAgreesStable(x.store, y.store, y.traces, y'.store, y'.traces, k); }
    forall i | 0 <= i < |t.delivered| ensures SentBy(y'.traces, t.delivered[i].packet) {
      SentByStable(y, y', t.delivered[i].packet);
    }
  }
}
