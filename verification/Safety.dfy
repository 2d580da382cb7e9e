/** The promises of the packet protocol, for every reachable pair of chains. */
module Safety {
  import opened Prelude
  import opened Heights
  import opened Paths
  import opened IbcStore
  import opened Transfer
  import opened Channels
  import opened Packets
  import opened Dispatch
  import opened World
  import opened Invariants
  import opened NodeSteps
  import opened Preservation
  import opened HandshakeSteps
  import opened Runs

  /** `x` is one chain of the pair and `y` the other. */
  ghost predicate Sides(w: Pair, x: Node, y: Node) { (x == w.a && y == w.b) || (x == w.b && y == w.a) }

  /** A reachable pair, seen from either side. */
  ghost predicate Live(env: Env, w: Pair, x: Node, y: Node) { Contracts(env) && Reachable(env, w) && Sides(w, x, y) }

  ghost predicate Both(env: Env, x: Node, y: Node) { Stands(env, x, y) && PeerInv(env, y, x) }

  lemma LiveBoth(env: Env, w: Pair, x: Node, y: Node)
    requires Live(env, w, x, y)
    ensures Both(env, x, y)
  {
    hide Contracts, Reachable, LocalInv, PeerInv;
    ReachableInv(env, w);
  }

  // ---------------------------------------------------------------- delivery and timeout exclude each other

  /** A delivered packet is, field by field, the one the sender has at that sequence. */
  lemma DeliveredIsSent(env: Env, x: Node, y: Node, j: ChanKey, d: Delivery)
    requires Both(env, x, y) && Tracked(y, j) && d in TraceAt(y.traces, j).delivered
    ensures SentBy(x.traces, d.packet) && d.packet.dst == j && PacketDecodes(d.packet)
    ensures y.store.channels[j].end.remote == RemoteOf(d.packet.src)
    ensures !PacketTimedOut(d.packet, d.time, d.height)
    ensures PeerAgrees(y.store, x.store, j) && PeerKey(y.store.channels[j].end) == d.packet.src
  {
    hide LocalInv, PeerInv, Contracts, Justified, PacketTimedOut, SentBy;
    PeerFacts(env, y, x, j);
    ChannelFacts(env, y, j);
    hide ChanInv, PeerAgrees;
    DeliveredFacts(env, y, j, d);
  }

  lemma DeliveredFacts(env: Env, y: Node, j: ChanKey, d: Delivery)
    requires LocalInv(env, y) && j in y.store.channels && d in TraceAt(y.traces, j).delivered
    ensures DeliveredOk(env, j, y.store.channels[j], d) && TraceAt(y.traces, j).wasOpen
  {
    hide LocalInv;
    ChannelFacts(env, y, j);
    hide SendInv, AckOrderInv, ChanShape, DeliveredOk;
  }

  lemma ResolvedFacts(env: Env, x: Node, k: ChanKey, r: Resolution)
    requires LocalInv(env, x) && k in x.store.channels && r in TraceAt(x.traces, k).resolved
    ensures ResolvedOk(TraceAt(x.traces, k), r)
    ensures r.packet.src == k && x.store.channels[k].end.remote == RemoteOf(r.packet.dst)
  {
    hide LocalInv;
    ChannelFacts(env, x, k);
    var t := TraceAt(x.traces, k);
    hide RecvInv, AckOrderInv, ChanShape;
    assert SentOk(k, x.store.channels[k].end, t.sent[r.packet.seq_ - 1], r.packet.seq_ - 1);
  }

  lemma JustifiedFacts(env: Env, x: Node, y: Node, k: ChanKey, r: Resolution)
    requires PeerInv(env, x, y) && Tracked(x, k) && r in TraceAt(x.traces, k).resolved
    ensures Justified(env, x.store.channels[k].end.ordering, k, r, y)
  {
    hide Justified, SentBy, PeerAgrees, ClientsGenuine, Mirrored;
  }

  /** Receipts, or the receive sequence, record exactly the deliveries. */
  ghost predicate ReceivedSoFar(c: Channel, ds: seq<Delivery>) {
    match c.end.ordering
    case Unordered => UnorderedRecv(c, ds)
    case Ordered => OrderedRecv(c, ds)
    case NoOrder => false
  }

  lemma ReceivedFacts(env: Env, s: Store, k: ChanKey, c: Channel, t: ChanTrace)
    requires ChanInv(env, s, k, c, t)
    ensures ReceivedSoFar(c, t.delivered)
  {
    hide SendInv, AckOrderInv, DeliveredOk, UnorderedRecv, OrderedRecv, DeliveredSeqs;
  }

  lemma Mentioned(ds: seq<Delivery>, i: nat)
    requires i < |ds|
    ensures ds[i].packet.seq_ in DeliveredSeqs(ds)
  {
    assert ds[i] in ds;
  }

  /** A packet not yet received at the snapshot is delivered, if at all, after it. */
  lemma DeliveredLater(c: Channel, ds: seq<Delivery>, c': Channel, ds': seq<Delivery>, i: nat)
    requires ReceivedSoFar(c, ds) && ReceivedSoFar(c', ds') && ds <= ds' && i < |ds'|
    requires c.end.ordering == c'.end.ordering
    requires c.end.ordering == Unordered ==> ds'[i].packet.seq_ !in c.receipts
    requires c.end.ordering == Ordered ==> ds'[i].packet.seq_ == c.nextRecv
    ensures |ds| <= i
  {
    if i < |ds| && c.end.ordering == Unordered {
      Mentioned(ds, i);
      assert false;
    }
  }

  /** The receiver's channel at the snapshot and now, around a delivery. */
  lemma UnreceivedThenLater(env: Env, y: Node, h: Height, j: ChanKey, i: nat, p: Packet)
    requires LocalInv(env, y) && h in y.history && j in y.store.channels && p.dst == j
    requires i < |TraceAt(y.traces, j).delivered| && TraceAt(y.traces, j).delivered[i].packet == p
    requires UnreceivedAt(y.history[h].store, y.store.channels[j].end.ordering, p)
    ensures |TraceAt(y.history[h].traces, j).delivered| <= i
  {
    var snap := y.history[h];
    hide LocalInv, ChanInv, ReceivedSoFar, EndExt;
    ChannelFacts(env, y, j);
    SnapshotFacts(env, y, h, j);
    SnapshotTraces(env, y, h);
    if j in snap.store.channels {
      var c, t := snap.store.channels[j], TraceAt(snap.traces, j);
      ReceivedFacts(env, y.store, j, y.store.channels[j], TraceAt(y.traces, j));
      ReceivedFacts(env, snap.store, j, c, t);
      SameOrdering(c, t, y.store.channels[j], TraceAt(y.traces, j));
      DeliveredLater(c, t.delivered, y.store.channels[j], TraceAt(y.traces, j).delivered, i);
    }
  }

  lemma SameOrdering(c: Channel, t: ChanTrace, c': Channel, t': ChanTrace)
    requires ChanExt(c, t, c', t')
    ensures c'.end.ordering == c.end.ordering && t.delivered <= t'.delivered
  {
  }

  lemma SnapshotTraces(env: Env, y: Node, h: Height)
    requires LocalInv(env, y) && h in y.history
    ensures y.history[h].traces.Keys <= y.history[h].store.channels.Keys
    ensures forall k :: k in y.traces ==> DeliveredAfter(y.history[h], h, k, y.traces[k])
  {
    hide ChanInv, ChanExt, DeliveredAfter;
    assert SnapshotOk(env, y, h, y.history[h]);
  }

  lemma TimedOutStaysTimedOut(p: Packet, time: nat, h: Height, time': nat, h': Height)
    requires PacketTimedOut(p, time, h) && time <= time' && Leq(h, h')
    ensures PacketTimedOut(p, time', h')
  {
    ExpiryIsMonotone(p.timeoutHeight, h, h', p.timeoutTimestamp, time, time');
  }

  /** After a proof of non-receipt that came with expiry or with the receiver's end closed, only late deliveries could follow. */
  lemma LateAfterProof(env: Env, y: Node, r: Resolution, k: ChanKey, ordering: Order, i: nat)
    requires LocalInv(env, y) && r.TimedOut? && Justified(env, ordering, k, r, y)
    requires i < |TraceAt(y.traces, r.packet.dst).delivered|
    requires |TraceAt(y.history[r.proofHeight].traces, r.packet.dst).delivered| <= i
    ensures var d := TraceAt(y.traces, r.packet.dst).delivered[i]; PacketTimedOut(r.packet, d.time, d.height)
  {
    hide LocalInv, PacketTimedOut, ChanInv, UnreceivedAt;
    var j, h := r.packet.dst, r.proofHeight;
    var d := TraceAt(y.traces, j).delivered[i];
    SnapshotTraces(env, y, h);
    SnapshotFacts(env, y, h, j);
    if !r.onClose {
      assert DeliveredAfter(y.history[h], h, j, y.traces[j]);
      TimedOutStaysTimedOut(r.packet, y.history[h].time, h, d.time, d.height);
    }
  }

  /** A timeout justified by some past state of the receiver excludes any delivery of that packet, then or later. */
  lemma JustifiedExcludes(env: Env, x: Node, y: Node, k: ChanKey, r: Resolution, j: ChanKey, i: nat)
    requires Both(env, x, y) && Tracked(x, k) && Tracked(y, j) && r.TimedOut? && i < |TraceAt(y.traces, j).delivered|
    requires Justified(env, x.store.channels[k].end.ordering, k, r, y) && SentBy(x.traces, r.packet) && r.packet.src == k
    ensures var p := TraceAt(y.traces, j).delivered[i].packet; !(p.src == k && p.seq_ == r.packet.seq_)
  {
    hide LocalInv, PeerInv, Contracts, PacketTimedOut, Justified;
    var d := TraceAt(y.traces, j).delivered[i];
    if d.packet.src == k && d.packet.seq_ == r.packet.seq_ {
      DeliveredIsSent(env, x, y, j, d);
      UnreceivedFact(env, x.store.channels[k].end.ordering, k, r, y);
      UnreceivedThenLater(env, y, r.proofHeight, j, i, d.packet);
      LateAfterProof(env, y, r, k, x.store.channels[k].end.ordering, i);
      assert false;
    }
  }

  lemma ExclusiveCore(env: Env, x: Node, y: Node, k: ChanKey, r: Resolution, j: ChanKey, i: nat)
    requires Both(env, x, y) && Tracked(x, k) && Tracked(y, j)
    requires r in TraceAt(x.traces, k).resolved && r.TimedOut?
    requires i < |TraceAt(y.traces, j).delivered|
    ensures var p := TraceAt(y.traces, j).delivered[i].packet; !(p.src == k && p.seq_ == r.packet.seq_)
  {
    hide LocalInv, PeerInv, Contracts, Justified;
    ResolvedFacts(env, x, k, r);
    JustifiedFacts(env, x, y, k, r);
    JustifiedExcludes(env, x, y, k, r, j, i);
  }

  lemma UnreceivedFact(env: Env, ordering: Order, k: ChanKey, r: Resolution, y: Node)
    requires r.TimedOut? && Justified(env, ordering, k, r, y)
    ensures r.proofHeight in y.history && UnreceivedAt(y.history[r.proofHeight].store, ordering, r.packet)
  {
  }

  /** The packet a timeout was resolved for is not among the deliveries, on whatever channel; the receiver's client plays no part. */
  lemma TimedOutNotDelivered(env: Env, x: Node, y: Node, k: ChanKey, r: Resolution, j: ChanKey, i: nat)
    requires Stands(env, x, y) && Tracked(x, k) && r in TraceAt(x.traces, k).resolved && r.TimedOut?
    requires j in y.store.channels && i < |TraceAt(y.traces, j).delivered|
    ensures TraceAt(y.traces, j).delivered[i].packet != r.packet
  {
    hide LocalInv, PeerInv, Contracts, PacketTimedOut, Justified;
    var d := TraceAt(y.traces, j).delivered[i];
    if d.packet == r.packet {
      ResolvedFacts(env, x, k, r);
      JustifiedFacts(env, x, y, k, r);
      DeliveredFacts(env, y, j, d);
      CounterpartCore(env, x, y, k);
      assert PeerKey(x.store.channels[k].end) == j;
      UnreceivedFact(env, x.store.channels[k].end.ordering, k, r, y);
      UnreceivedThenLater(env, y, r.proofHeight, j, i, r.packet);
      LateAfterProof(env, y, r, k, x.store.channels[k].end.ordering, i);
      assert false;
    }
  }

  /** No packet that timed out on channel `k` of `x` was ever delivered on any channel of `y`. */
  ghost predicate NoTimedOutDelivery(x: Node, k: ChanKey, y: Node) {
    forall r, j, d :: r in TraceAt(x.traces, k).resolved && r.TimedOut? && d in TraceAt(y.traces, j).delivered ==> d.packet != r.packet
  }

  lemma NoTimedOutDeliveryCore(env: Env, x: Node, y: Node, k: ChanKey)
    requires Stands(env, x, y) && Tracked(x, k)
    ensures NoTimedOutDelivery(x, k, y)
  {
    hide LocalInv, PeerInv, Contracts, Tracked;
    TracesOfChannels(env, y);
    forall r, j, d | r in TraceAt(x.traces, k).resolved && r.TimedOut? && d in TraceAt(y.traces, j).delivered
      ensures d.packet != r.packet
    {
      var i :| 0 <= i < |TraceAt(y.traces, j).delivered| && TraceAt(y.traces, j).delivered[i] == d;
      TimedOutNotDelivered(env, x, y, k, r, j, i);
    }
  }

  lemma BothStands(env: Env, x: Node, y: Node)
    requires Both(env, x, y)
    ensures Stands(env, x, y)
  {
    hide LocalInv, PeerInv, Contracts;
  }

  /**
   In no run, whatever the relayer does and however stale its proofs, is a packet both timed out at the sender and
   delivered to a module of the receiver, in either order and by either kind of timeout. Only the sender's client has to
   track the receiver.
   */
  lemma NeverDeliveredAndTimedOut(env: Env, w: Pair, x: Node, y: Node, k: ChanKey)
    requires Live(env, w, x, y) && Tracked(x, k)
    ensures NoTimedOutDelivery(x, k, y)
  {
    hide *;
    LiveBoth(env, w, x, y);
    BothStands(env, x, y);
    NoTimedOutDeliveryCore(env, x, y, k);
  }

  ghost predicate NeverBoth(x: Node, k: ChanKey, y: Node, j: ChanKey) {
    forall r, d :: r in TraceAt(x.traces, k).resolved && r.TimedOut? && d in TraceAt(y.traces, j).delivered ==>
      !(d.packet.src == k && d.packet.seq_ == r.packet.seq_)
  }

  lemma NeverBothCore(env: Env, x: Node, y: Node, k: ChanKey, j: ChanKey)
    requires Both(env, x, y) && Tracked(x, k) && Tracked(y, j)
    ensures NeverBoth(x, k, y, j)
  {
    hide Both, Tracked, TraceAt;
    forall r, d | r in TraceAt(x.traces, k).resolved && r.TimedOut? && d in TraceAt(y.traces, j).delivered
      ensures !(d.packet.src == k && d.packet.seq_ == r.packet.seq_)
    {
      var i :| 0 <= i < |TraceAt(y.traces, j).delivered| && TraceAt(y.traces, j).delivered[i] == d;
      ExclusiveCore(env, x, y, k, r, j, i);
    }
  }

  /** Where the receiver's client tracks the sender too, not even another packet is delivered under that source and sequence. */
  lemma TimedOutSequenceIsNeverDelivered(env: Env, w: Pair, x: Node, y: Node, k: ChanKey, j: ChanKey)
    requires Live(env, w, x, y) && Tracked(x, k) && Tracked(y, j)
    ensures NeverBoth(x, k, y, j)
  {
    hide *;
    LiveBoth(env, w, x, y);
    NeverBothCore(env, x, y, k, j);
  }

  // ---------------------------------------------------------------- exactly once, and only what was sent

  ghost predicate DistinctDeliveries(ds: seq<Delivery>) {
    forall i, j :: 0 <= i < j < |ds| ==> ds[i].packet.seq_ != ds[j].packet.seq_
  }

  lemma DistinctDeliveriesCore(env: Env, x: Node, k: ChanKey)
    requires LocalInv(env, x) && k in x.store.channels
    ensures DistinctDeliveries(TraceAt(x.traces, k).delivered)
  {
    hide LocalInv, ChanInv;
    ChannelFacts(env, x, k);
    ReceivedFacts(env, x.store, k, x.store.channels[k], TraceAt(x.traces, k));
  }

  /** The receive callback runs at most once per sequence on a channel. */
  lemma DeliveredOnce(env: Env, w: Pair, x: Node, y: Node, k: ChanKey)
    requires Live(env, w, x, y) && k in x.store.channels
    ensures DistinctDeliveries(TraceAt(x.traces, k).delivered)
  {
    hide *;
    LiveBoth(env, w, x, y);
    BothLocal(env, x, y);
    DistinctDeliveriesCore(env, x, k);
  }

  lemma BothLocal(env: Env, x: Node, y: Node)
    requires Both(env, x, y)
    ensures LocalInv(env, x) && LocalInv(env, y) && PeerInv(env, x, y) && PeerInv(env, y, x) && Contracts(env)
  {
    hide LocalInv, PeerInv, Contracts;
  }

  /** Everything delivered to channel `k` of `x` was sent to it by the other chain, and arrived unchanged. */
  ghost predicate OnlyWhatWasSent(x: Node, k: ChanKey, y: Node) {
    forall d :: d in TraceAt(x.traces, k).delivered ==>
      && SentBy(y.traces, d.packet)
      && PacketDecodes(d.packet)
      && d.packet.dst == k
      && d.packet.src in y.store.channels
      && y.store.channels[d.packet.src].end.remote == RemoteOf(k)
  }

  lemma OnlyWhatWasSentCore(env: Env, x: Node, y: Node, k: ChanKey)
    requires Both(env, y, x) && Tracked(x, k)
    ensures OnlyWhatWasSent(x, k, y)
  {
    hide Both, Tracked, SentBy;
    forall d | d in TraceAt(x.traces, k).delivered
      ensures SentBy(y.traces, d.packet) && d.packet.dst == k && PacketDecodes(d.packet)
      ensures d.packet.src in y.store.channels && y.store.channels[d.packet.src].end.remote == RemoteOf(k)
    {
      DeliveredIsSent(env, y, x, k, d);
    }
  }

  /** Only packets the other chain sent, to this very channel, are delivered, unchanged in every field. */
  lemma DeliveredWasSent(env: Env, w: Pair, x: Node, y: Node, k: ChanKey)
    requires Live(env, w, x, y) && Tracked(x, k)
    ensures OnlyWhatWasSent(x, k, y)
  {
    hide *;
    LiveOther(env, w, x, y);
    LiveBoth(env, w, y, x);
    OnlyWhatWasSentCore(env, x, y, k);
  }

  lemma LiveOther(env: Env, w: Pair, x: Node, y: Node)
    requires Live(env, w, x, y)
    ensures Live(env, w, y, x)
  {
    hide Contracts, Reachable;
  }

  /** A proven acknowledgement was written by a delivery of that sequence. */
  lemma JustifiedAck(env: Env, y: Node, ordering: Order, k: ChanKey, r: Resolution) returns (d: Delivery)
    requires Contracts(env) && LocalInv(env, y) && r.Acked? && Justified(env, ordering, k, r, y)
    ensures d in TraceAt(y.traces, r.packet.dst).delivered && d.packet.seq_ == r.packet.seq_ && d.ack == r.ack
    ensures r.packet.dst in y.store.channels
  {
    hide LocalInv, ChanInv, Contracts, DeliveredOk, EndExt;
    var h, j := r.proofHeight, r.packet.dst;
    SnapshotFacts(env, y, h, j);
    d := AckWriter(env, y.history[h].store, j, y.history[h].store.channels[j], TraceAt(y.history[h].traces, j), r.packet.seq_, r.ack);
    assert d in TraceAt(y.traces, j).delivered;
  }

  lemma AckCore(env: Env, x: Node, y: Node, k: ChanKey, r: Resolution) returns (d: Delivery)
    requires Both(env, x, y) && Tracked(x, k) && r in TraceAt(x.traces, k).resolved && r.Acked?
    ensures d in TraceAt(y.traces, r.packet.dst).delivered
    ensures d.packet.seq_ == r.packet.seq_ && d.packet.src == k && d.ack == r.ack
    ensures Tracked(y, r.packet.dst) ==> d.packet == r.packet
  {
    hide LocalInv, PeerInv, Contracts, PacketTimedOut, Justified;
    ResolvedFacts(env, x, k, r);
    JustifiedFacts(env, x, y, k, r);
    d := JustifiedAck(env, y, x.store.channels[k].end.ordering, k, r);
    AckWriterKey(env, x, y, k, r, d);
    if Tracked(y, r.packet.dst) {
      DeliveredIsSent(env, x, y, r.packet.dst, d);
    }
  }

  lemma AckWriterKey(env: Env, x: Node, y: Node, k: ChanKey, r: Resolution, d: Delivery)
    requires Both(env, x, y) && Tracked(x, k) && r in TraceAt(x.traces, k).resolved && r.Acked?
    requires r.packet.dst in y.store.channels && d in TraceAt(y.traces, r.packet.dst).delivered
    ensures d.packet.src == k
  {
    hide LocalInv, PeerInv, ChanInv, Contracts, PacketTimedOut, Justified, SentBy;
    ResolvedFacts(env, x, k, r);
    PeerFacts(env, x, y, k);
    DeliveredFacts(env, y, r.packet.dst, d);
    assert PeerKey(x.store.channels[k].end) == r.packet.dst;
  }

  lemma AckWriter(env: Env, s: Store, j: ChanKey, c: Channel, t: ChanTrace, n: nat, ack: Bytes) returns (d: Delivery)
    requires Contracts(env) && ChanInv(env, s, j, c, t) && n in c.acks && c.acks[n] == env.hash(ack)
    ensures d in t.delivered && d.packet.seq_ == n && d.ack == ack
  {
    hide SendInv, AckOrderInv, ChanShape, ProofsSound, SentinelProvesNothing;
    d :| d in t.delivered && d.packet.seq_ == n;
    assert DeliveredOk(env, j, c, d);
  }

  /** Delivery `d` is where the acknowledgement that resolved `r` was written. */
  ghost predicate WroteAck(y: Node, k: ChanKey, r: Resolution, d: Delivery) {
    && r.Acked?
    && d in TraceAt(y.traces, r.packet.dst).delivered
    && d.packet.src == k
    && d.packet.seq_ == r.packet.seq_
    && d.ack == r.ack
    && (Tracked(y, r.packet.dst) ==> d.packet == r.packet)
  }

  /** An acknowledgement that resolves a packet is the one the receiver wrote when it delivered that very packet. */
  lemma AcknowledgementIsGenuine(env: Env, w: Pair, x: Node, y: Node, k: ChanKey, r: Resolution)
    requires Live(env, w, x, y) && Tracked(x, k) && r in TraceAt(x.traces, k).resolved && r.Acked?
    ensures exists d :: WroteAck(y, k, r, d)
  {
    hide *;
    LiveBoth(env, w, x, y);
    WroteAckCore(env, x, y, k, r);
  }

  lemma WroteAckCore(env: Env, x: Node, y: Node, k: ChanKey, r: Resolution)
    requires Both(env, x, y) && Tracked(x, k) && r in TraceAt(x.traces, k).resolved && r.Acked?
    ensures exists d :: WroteAck(y, k, r, d)
  {
    hide Both, Tracked;
    var d := AckCore(env, x, y, k, r);
    assert WroteAck(y, k, r, d);
  }

  /** Each sent sequence is resolved at most once, by exactly the packet that was sent; until then its commitment is stored. */
  ghost predicate ResolvedExactly(x: Node, k: ChanKey) {
    && k in x.store.channels
    && var t := TraceAt(x.traces, k);
       && (forall i, j :: 0 <= i < j < |t.resolved| ==> t.resolved[i].packet.seq_ != t.resolved[j].packet.seq_)
       && (forall r :: r in t.resolved ==> SentBy(x.traces, r.packet) && r.packet.src == k)
       && (forall p :: p in t.sent ==>
             (p.seq_ in x.store.channels[k].commitments <==> forall r :: r in t.resolved ==> r.packet != p))
  }

  lemma ResolvedExactlyCore(env: Env, x: Node, k: ChanKey)
    requires LocalInv(env, x) && k in x.store.channels
    ensures ResolvedExactly(x, k)
  {
    hide LocalInv;
    ChannelFacts(env, x, k);
    hide RecvInv, AckOrderInv, ChanShape;
    var c, t := x.store.channels[k], TraceAt(x.traces, k);
    forall r | r in t.resolved ensures SentBy(x.traces, r.packet) && r.packet.src == k {
      assert ResolvedOk(t, r);
      assert SentOk(k, c.end, t.sent[r.packet.seq_ - 1], r.packet.seq_ - 1);
    }
    forall p | p in t.sent
      ensures p.seq_ in c.commitments <==> forall r :: r in t.resolved ==> r.packet != p
    {
      CommittedWhileUnresolved(env, k, c, t, p);
    }
  }

  lemma CommittedWhileUnresolved(env: Env, k: ChanKey, c: Channel, t: ChanTrace, p: Packet)
    requires SendInv(env, k, c, t) && p in t.sent
    ensures p.seq_ in c.commitments <==> forall r :: r in t.resolved ==> r.packet != p
  {
    var i :| 0 <= i < |t.sent| && t.sent[i] == p;
    assert SentOk(k, c.end, p, i);
    if p.seq_ in ResolvedSeqs(t.resolved) {
      var r :| r in t.resolved && r.packet.seq_ == p.seq_;
      assert ResolvedOk(t, r);
    }
  }

  lemma ResolvedOnce(env: Env, w: Pair, x: Node, y: Node, k: ChanKey)
    requires Live(env, w, x, y) && k in x.store.channels
    ensures ResolvedExactly(x, k)
  {
    hide *;
    LiveBoth(env, w, x, y);
    BothLocal(env, x, y);
    ResolvedExactlyCore(env, x, k);
  }

  // ---------------------------------------------------------------- ordered channels

  ghost predicate OrderedEnd(x: Node, k: ChanKey) { k in x.store.channels && x.store.channels[k].end.ordering == Ordered }

  /** What an ordered channel end guarantees on its own: deliveries and acknowledgements in sequence order, without gaps. */
  ghost predicate InOrder(x: Node, k: ChanKey) {
    && k in x.store.channels
    && var c, t := x.store.channels[k], TraceAt(x.traces, k);
       && c.nextRecv == |t.delivered| + 1
       && (forall i :: 0 <= i < |t.delivered| ==> t.delivered[i].packet.seq_ == i + 1)
       && 1 <= c.nextAck
       && AcksInOrder(t.resolved, c.nextAck - 1)
       && (c.end.state != Closed ==> forall n :: n in c.commitments <==> c.nextAck <= n < c.nextSend)
  }

  lemma InOrderCore(env: Env, x: Node, k: ChanKey)
    requires LocalInv(env, x) && OrderedEnd(x, k)
    ensures InOrder(x, k)
  {
    hide LocalInv, ChanInv;
    ChannelFacts(env, x, k);
    var c, t := x.store.channels[k], TraceAt(x.traces, k);
    ReceivedFacts(env, x.store, k, c, t);
    AckSide(env, x.store, k, c, t);
  }

  lemma AckSide(env: Env, s: Store, k: ChanKey, c: Channel, t: ChanTrace)
    requires ChanInv(env, s, k, c, t) && c.end.ordering == Ordered
    ensures 1 <= c.nextAck && AcksInOrder(t.resolved, c.nextAck - 1) && c.nextAck <= c.nextSend
    ensures c.end.state != Closed ==> forall n :: n in c.commitments <==> c.nextAck <= n < c.nextSend
  {
    hide RecvInv, ChanShape, SentOk;
    if c.nextAck > 1 { assert ResolvedOk(t, t.resolved[c.nextAck - 2]); }
    if c.end.state != Closed {
      forall n ensures n in ResolvedSeqs(t.resolved) <==> 1 <= n < c.nextAck {
        if 1 <= n < c.nextAck { assert t.resolved[n - 1] in t.resolved; }
      }
    }
  }

  /** On an ordered channel the receiver, and each end's bookkeeping, follow the send order without a gap. */
  lemma OrderedDelivery(env: Env, w: Pair, x: Node, y: Node, k: ChanKey)
    requires Live(env, w, x, y) && OrderedEnd(x, k)
    ensures InOrder(x, k)
  {
    hide *;
    LiveBoth(env, w, x, y);
    BothLocal(env, x, y);
    InOrderCore(env, x, k);
  }

  /** Channel `k` of `x` and channel `j` of `y` are each other's counterparties, over clients that track the other chain. */
  ghost predicate Partners(x: Node, k: ChanKey, y: Node, j: ChanKey) {
    && Tracked(x, k) && Tracked(y, j)
    && x.store.channels[k].end.remote == RemoteOf(j)
    && y.store.channels[j].end.remote == RemoteOf(k)
    && x.store.channels[k].end.ordering == y.store.channels[j].end.ordering
  }

  ghost predicate OrderedPartners(x: Node, k: ChanKey, y: Node, j: ChanKey) {
    Partners(x, k, y, j) && x.store.channels[k].end.ordering == Ordered
  }

  /** The sender's acknowledgements never overtake the receiver, nor the receiver the sender. */
  ghost predicate Window(x: Node, k: ChanKey, y: Node, j: ChanKey) {
    && k in x.store.channels && j in y.store.channels
    && x.store.channels[k].nextAck <= y.store.channels[j].nextRecv <= x.store.channels[k].nextSend
  }

  lemma WindowCore(env: Env, x: Node, y: Node, k: ChanKey, j: ChanKey)
    requires Both(env, x, y) && OrderedPartners(x, k, y, j)
    ensures Window(x, k, y, j)
  {
    hide LocalInv, PeerInv, Contracts, ChanInv, PeerAgrees, PacketTimedOut;
    InOrderCore(env, x, k);
    InOrderCore(env, y, j);
    var c, t := x.store.channels[k], TraceAt(x.traces, k);
    var e, u := y.store.channels[j], TraceAt(y.traces, j);
    NextSendIs(env, x, k);
    if c.nextAck > 1 {
      var r := t.resolved[c.nextAck - 2];
      ResolvedFacts(env, x, k, r);
      var d := AckCore(env, x, y, k, r);
      assert r.packet.dst == j;
    }
    if e.nextRecv > 1 {
      DeliveredIsSent(env, x, y, j, u.delivered[e.nextRecv - 2]);
    }
  }

  lemma NextSendIs(env: Env, x: Node, k: ChanKey)
    requires LocalInv(env, x) && k in x.store.channels
    ensures x.store.channels[k].nextSend == |TraceAt(x.traces, k).sent| + 1
  {
    hide LocalInv, RecvInv, AckOrderInv, ChanShape, SentOk, ResolvedOk;
    ChannelFacts(env, x, k);
  }

  lemma OrderedWindow(env: Env, w: Pair, x: Node, y: Node, k: ChanKey, j: ChanKey)
    requires Live(env, w, x, y) && OrderedPartners(x, k, y, j)
    ensures Window(x, k, y, j)
  {
    hide *;
    LiveBoth(env, w, x, y);
    WindowCore(env, x, y, k, j);
  }

  ghost predicate StaysAt(y: Node, j: ChanKey, n: nat) { j in y.store.channels && y.store.channels[j].nextRecv == n }

  /** Once an ordered packet has timed out, the receiver stays at that sequence: nothing later is ever delivered. */
  lemma StoppedCore(env: Env, x: Node, y: Node, k: ChanKey, j: ChanKey, r: Resolution)
    requires Both(env, x, y) && OrderedPartners(x, k, y, j)
    requires r in TraceAt(x.traces, k).resolved && r.TimedOut?
    ensures StaysAt(y, j, r.packet.seq_)
  {
    hide LocalInv, PeerInv, Contracts, ChanInv, PeerAgrees, PacketTimedOut, EndExt;
    ResolvedFacts(env, x, k, r);
    assert r.packet.dst == j;
    JustifiedFacts(env, x, y, k, r);
    SnapshotFacts(env, y, r.proofHeight, j);
    InOrderCore(env, y, j);
    var u := TraceAt(y.traces, j);
    if y.store.channels[j].nextRecv > r.packet.seq_ {
      var d := u.delivered[r.packet.seq_ - 1];
      DeliveredIsSent(env, x, y, j, d);
      ExclusiveCore(env, x, y, k, r, j, r.packet.seq_ - 1);
      assert false;
    }
  }

  lemma OrderedTimeoutStops(env: Env, w: Pair, x: Node, y: Node, k: ChanKey, j: ChanKey, r: Resolution)
    requires Live(env, w, x, y) && OrderedPartners(x, k, y, j)
    requires r in TraceAt(x.traces, k).resolved && r.TimedOut?
    ensures StaysAt(y, j, r.packet.seq_)
  {
    hide *;
    LiveBoth(env, w, x, y);
    StoppedCore(env, x, y, k, j, r);
  }

  // ---------------------------------------------------------------- handshakes

  /** Both ends of a connection name each other and agree on clients, prefixes, delay and one version. */
  ghost predicate ConnectionAgreed(x: Node, y: Node, c: ConnectionId) {
    && c in x.store.connections
    && Mirrored(x.store, y.store, c)
    && |x.store.connections[c].versions| == 1
  }

  ghost predicate OpenConnection(x: Node, c: ConnectionId) {
    TrackedConn(x, c) && x.store.connections[c].state == ConnOpen
  }

  lemma ConnectionAgreedCore(env: Env, x: Node, y: Node, c: ConnectionId)
    requires LocalInv(env, x) && PeerInv(env, x, y) && OpenConnection(x, c)
    ensures ConnectionAgreed(x, y, c)
  {
    hide ChanInv, SnapshotOk, PeerChannel, ClientsGenuine, Mirrored, IdsFresh;
    assert ConnShape(x.store, x.store.connections[c]);
  }

  /** An open connection end has a counterpart that took part in the same handshake and agrees with it. */
  lemma ConnectionAgreement(env: Env, w: Pair, x: Node, y: Node, c: ConnectionId)
    requires Live(env, w, x, y) && OpenConnection(x, c)
    ensures ConnectionAgreed(x, y, c)
  {
    hide *;
    LiveBoth(env, w, x, y);
    BothLocal(env, x, y);
    ConnectionAgreedCore(env, x, y, c);
  }

  /** Channel `k`, once open, has a counterpart that names it back, over the two ends of one connection. */
  ghost predicate ChannelAgreed(x: Node, y: Node, k: ChanKey) {
    && k in x.store.channels
    && PeerAgrees(x.store, y.store, k)
    && HasConnection(x.store, x.store.channels[k].end)
    && ConnectionAgreed(x, y, x.store.channels[k].end.hops[0])
  }

  ghost predicate EverOpen(x: Node, k: ChanKey) { Tracked(x, k) && TraceAt(x.traces, k).wasOpen }

  lemma ChannelAgreedCore(env: Env, x: Node, y: Node, k: ChanKey)
    requires LocalInv(env, x) && PeerInv(env, x, y) && EverOpen(x, k)
    ensures ChannelAgreed(x, y, k)
  {
    hide LocalInv, PeerInv, SendInv, RecvInv, AckOrderInv, PeerAgrees, SentBy, Justified, ConnectionAgreed;
    PeerFacts(env, x, y, k);
    ChannelFacts(env, x, k);
    ConnectionAgreedCore(env, x, y, x.store.channels[k].end.hops[0]);
  }

  /** The channel handshake ends in agreement, and the agreement outlives the closing of either end. */
  lemma ChannelAgreement(env: Env, w: Pair, x: Node, y: Node, k: ChanKey)
    requires Live(env, w, x, y) && EverOpen(x, k)
    ensures ChannelAgreed(x, y, k)
  {
    hide *;
    LiveBoth(env, w, x, y);
    BothLocal(env, x, y);
    ChannelAgreedCore(env, x, y, k);
  }

  /** Two ends that ever opened towards the same counterparty are the same end. */
  ghost predicate SameRemote(x: Node, k: ChanKey, k': ChanKey) {
    && k in x.store.channels && k' in x.store.channels
    && x.store.channels[k].end.remote == x.store.channels[k'].end.remote
  }

  lemma OneOpenEndCore(x: Node, y: Node, k: ChanKey, k': ChanKey)
    requires ChannelAgreed(x, y, k) && ChannelAgreed(x, y, k') && SameRemote(x, k, k')
    ensures k == k'
  {
    hide ConnectionAgreed, HasConnection;
    assert RemoteOf(k) == RemoteOf(k');
  }

  /** At most one end ever opens towards a given counterparty end, however many were tried. */
  lemma OneOpenEnd(env: Env, w: Pair, x: Node, y: Node, k: ChanKey, k': ChanKey)
    requires Live(env, w, x, y) && EverOpen(x, k) && EverOpen(x, k') && SameRemote(x, k, k')
    ensures k == k'
  {
    hide *;
    ChannelAgreement(env, w, x, y, k);
    ChannelAgreement(env, w, x, y, k');
    OneOpenEndCore(x, y, k, k');
  }

  /** The end that `k` names exists, towards this port, with the same ordering and over the same connection. */
  ghost predicate CounterpartExists(x: Node, y: Node, k: ChanKey) { k in x.store.channels && PeerExists(x.store, y.store, k) }

  lemma CounterpartCore(env: Env, x: Node, y: Node, k: ChanKey)
    requires PeerInv(env, x, y) && Tracked(x, k)
    ensures CounterpartExists(x, y, k)
  {
    hide PeerInv, PeerExists, PeerAgrees, SentBy, Justified;
    PeerFacts(env, x, y, k);
  }

  /** Even before it opens, an end past Init answers an end that exists on the other chain. */
  lemma CounterpartAlwaysExists(env: Env, w: Pair, x: Node, y: Node, k: ChanKey)
    requires Live(env, w, x, y) && Tracked(x, k)
    ensures CounterpartExists(x, y, k)
  {
    hide *;
    LiveBoth(env, w, x, y);
    BothLocal(env, x, y);
    CounterpartCore(env, x, y, k);
  }

  /** The next identifiers are unused, and every connection end past Init has exactly one version. */
  ghost predicate Orderly(s: Store) {
    && ConnectionIdOf(s.connectionCounter) !in s.connections
    && (forall port :: NewKey(s, port) !in s.channels)
    && (forall c :: c in s.connections && s.connections[c].state != ConnInit ==> |s.connections[c].versions| == 1)
  }

  lemma OrderlyCore(env: Env, x: Node)
    requires LocalInv(env, x)
    ensures Orderly(x.store)
  {
    hide LocalInv, IdsFresh, StoreInv, ConnectionIdOf, ChannelIdOf;
    StoreFacts(env, x);
    ConnectionIsNew(x.store);
    forall port ensures NewKey(x.store, port) !in x.store.channels { KeyIsNew(x.store, NewKey(x.store, port)); }
  }

  lemma IdentifiersNeverReused(env: Env, w: Pair, x: Node, y: Node)
    requires Live(env, w, x, y)
    ensures Orderly(x.store)
  {
    hide *;
    LiveBoth(env, w, x, y);
    BothLocal(env, x, y);
    OrderlyCore(env, x);
  }

  // ---------------------------------------------------------------- over time

  /** How any two moments of a run compare, on one chain. */
  ghost predicate NeverUndone(x: Node, x': Node) {
    && (forall k :: k in x.store.channels ==> k in x'.store.channels && NeverReopened(x, x', k))
    && (forall c :: c in x.store.connections ==>
          c in x'.store.connections && ConnExt(x.store.connections[c], x'.store.connections[c]))
  }

  /** A closed channel stays closed, sends and delivers nothing more and sees no acknowledgement or plain timeout; an end keeps its
      ordering, connection and counterparty. */
  ghost predicate NeverReopened(x: Node, x': Node, k: ChanKey) {
    && k in x.store.channels && k in x'.store.channels
    && var c, t, c', t' := x.store.channels[k], TraceAt(x.traces, k), x'.store.channels[k], TraceAt(x'.traces, k);
       && EndExt(c.end, c'.end)
       && TraceExt(t, t')
       && (c.end.state == Closed ==>
             t'.sent == t.sent && t'.delivered == t.delivered && OnlyOnClose(t.resolved, t'.resolved))
  }

  lemma GrowsNeverUndone(x: Node, x': Node)
    requires Grows(x, x')
    ensures NeverUndone(x, x')
  {
    hide EndExt, TraceExt, ConnExt;
    forall k | k in x.store.channels ensures k in x'.store.channels && NeverReopened(x, x', k) {
      assert ChanExt(x.store.channels[k], TraceAt(x.traces, k), x'.store.channels[k], TraceAt(x'.traces, k));
    }
  }

  /** From any reachable pair, over any further run, nothing is undone on either chain. */
  lemma ClosedStaysClosed(env: Env, w: Pair, es: seq<Event>)
    requires Contracts(env) && Reachable(env, w) && RunAdmissible(env, w, es)
    ensures NeverUndone(w.a, Run(env, w, es).a) && NeverUndone(w.b, Run(env, w, es).b)
  {
    hide *;
    ReachableInv(env, w);
    RunKeeps(env, w, es);
    GrowsNeverUndone(w.a, Run(env, w, es).a);
    GrowsNeverUndone(w.b, Run(env, w, es).b);
  }

  // ---------------------------------------------------------------- relaying a packet again

  /** The packet was delivered before. */
  ghost predicate Delivered(x: Node, p: Packet) {
    p.dst in x.store.channels && p.seq_ in DeliveredSeqs(TraceAt(x.traces, p.dst).delivered)
  }

  lemma DeliveredIsRecorded(env: Env, x: Node, p: Packet)
    requires LocalInv(env, x) && p.dst in x.store.channels && 1 <= p.seq_
    ensures var c := x.store.channels[p.dst];
            && c.end.ordering != NoOrder
            && (Delivered(x, p) <==> p.seq_ in c.acks)
            && (Delivered(x, p) <==> AlreadyReceived(c, p))
  {
    hide LocalInv, ChanInv;
    var c, t := x.store.channels[p.dst], TraceAt(x.traces, p.dst);
    ChannelFacts(env, x, p.dst);
    ReceivedFacts(env, x.store, p.dst, c, t);
    AckKeys(env, x.store, p.dst, c, t);
    if c.end.ordering == Ordered && p.seq_ < c.nextRecv {
      Mentioned(t.delivered, p.seq_ - 1);
    }
  }

  lemma AckKeys(env: Env, s: Store, k: ChanKey, c: Channel, t: ChanTrace)
    requires ChanInv(env, s, k, c, t)
    ensures c.acks.Keys == DeliveredSeqs(t.delivered)
  {
    hide SendInv, AckOrderInv, ChanShape, DeliveredOk, UnorderedRecv, OrderedRecv, DeliveredSeqs;
  }

  /**
   A packet relayed a second time is never delivered again. The message is accepted, and changes nothing,
   exactly when the channel is ordered: on an unordered channel the acknowledgement already written makes it an error.
   */
  lemma RelayedAgain(env: Env, x: Node, host: Host, m: PacketMsg, reply: Reply)
    requires m.MsgRecv? && LocalInv(env, x) && RecvChecks(env, x.store, host, m) && Delivered(x, m.packet)
    ensures HandleRecv(env, x.store, host, m, reply) ==
              if x.store.channels[m.packet.dst].end.ordering == Ordered then Done(x.store, Quiet) else Rejected
  {
    hide LocalInv, Delivered, DelayPassed, Proven, OnRecv, Received;
    DeliveredIsRecorded(env, x, m.packet);
  }

  /** A message that passes the other checks is a first delivery exactly when it delivers. */
  lemma FirstRelay(env: Env, x: Node, host: Host, m: PacketMsg, reply: Reply)
    requires m.MsgRecv? && LocalInv(env, x) && RecvChecks(env, x.store, host, m)
    ensures var out := HandleRecv(env, x.store, host, m, reply);
            out.Done? && out.note.DeliveredNote? <==>
              !Delivered(x, m.packet)
              && (x.store.channels[m.packet.dst].end.ordering == Ordered ==> m.packet.seq_ == x.store.channels[m.packet.dst].nextRecv)
  {
    hide LocalInv, Delivered, DelayPassed, Proven, OnRecv, Received;
    DeliveredIsRecorded(env, x, m.packet);
  }

  // ---------------------------------------------------------------- time

  /** The channel a packet message acts on. */
  function ActsOn(m: PacketMsg): ChanKey { if m.MsgRecv? then m.packet.dst else m.packet.src }

  ghost predicate Matured(env: Env, s: Store, host: Host, m: PacketMsg) {
    && ActsOn(m) in s.channels
    && HasConnection(s, s.channels[ActsOn(m)].end)
    && var conn := ConnectionOf(s, s.channels[ActsOn(m)].end);
       && conn.clientId in s.clients
       && m.proofHeight in s.clients[conn.clientId].meta
       && var learned := s.clients[conn.clientId].meta[m.proofHeight];
          && learned.0 + conn.delayPeriod <= host.time
          && Leq(Add(learned.1, env.blockDelay(conn.delayPeriod)), host.height)
  }

  lemma DelayMatures(env: Env, s: Store, host: Host, m: PacketMsg)
    requires ActsOn(m) in s.channels && HasConnection(s, s.channels[ActsOn(m)].end)
    requires DelayPassed(env, s, host, ConnectionOf(s, s.channels[ActsOn(m)].end), m.proofHeight)
    ensures Matured(env, s, host, m)
  {
  }

  /** Whatever the message, no packet callback runs on a proof younger than the connection's delay. */
  lemma DelayIsRespected(env: Env, s: Store, host: Host, m: PacketMsg, reply: Reply)
    ensures var out := Handle(env, s, host, Pkt(m), reply); out.Done? && out.note != Quiet ==> Matured(env, s, host, m)
  {
    hide Proven, UnreceivedProven, PeerEndProven, DelayPassed, OnRecv, OnAck, OnTimeout, Commit, PacketTypesOk, SequenceAccepted,
         AlreadyReceived, ProofReady, Matured;
    var out := Handle(env, s, host, Pkt(m), reply);
    if out.Done? && out.note != Quiet { DelayMatures(env, s, host, m); }
  }
}
