/** Refunds and returning coins are always covered: a valid message is never turned down for lack of escrow. */
module Coverage {
  import opened Prelude
  import opened Denoms
  import opened Commitments
  import opened IbcStore
  import opened Transfer
  import opened Channels
  import opened Packets
  import opened Dispatch
  import opened World
  import opened Invariants
  import opened Preservation
  import opened Runs
  import opened Safety
  import opened Accounting
  import opened Conservation

  /** Both chains are in order and their books balance. */
  ghost predicate Sound(env: Env, x: Node, y: Node) {
    && Both(env, x, y) && Both(env, y, x)
    && BooksOf(env, x) && BooksOf(env, y)
    && DecodableOf(env, x) && DecodableOf(env, y)
  }

  lemma LiveSound(env: Env, w: Pair, x: Node, y: Node)
    requires Live(env, w, x, y) && CodecFaithful(env)
    ensures Sound(env, x, y)
  {
    hide CodecFaithful, Live, Both, BooksOf, DecodableOf;
    LiveBooks(env, w, x, y);
    TransfersDecode(env, w, x, y);
  }

  /** A packet in flight is covered by the escrow it will be paid from. */
  lemma InFlightCovered(env: Env, x: Node, y: Node, k: ChanKey, j: ChanKey, p: Packet, d: Denom)
    requires Sound(env, x, y) && TransferPartners(x, k, y, j)
    ensures p in InFlight(env, x, k, y, j) ==> Amount(env, Forward, d, p) <= Balance(x.store.ledger, d, EscrowOf(k))
    ensures p in InFlight(env, y, j, x, k) ==> Amount(env, Homeward, d, p) <= Balance(x.store.ledger, d, EscrowOf(k))
  {
    hide Both, BooksOf, DecodableOf, TransferPartners, InFlight, Sum, Amount, Balance, Supply;
    ConservedCore(env, x, y, k, j, d);
    if p in InFlight(env, x, k, y, j) { SumBound(env, Forward, d, InFlight(env, x, k, y, j), p); }
    if p in InFlight(env, y, j, x, k) { SumBound(env, Homeward, d, InFlight(env, y, j, x, k), p); }
  }

  /** A sent packet is in flight unless some refund or some successful delivery carries it. */
  lemma InFlightUnless(env: Env, x: Node, k: ChanKey, y: Node, j: ChanKey, p: Packet)
    requires p in TraceAt(x.traces, k).sent
    requires forall r :: r in TraceAt(x.traces, k).resolved && Refunds(env, r) ==> r.packet != p
    requires forall e :: e in TraceAt(y.traces, j).delivered && Succeeds(env, e) ==> e.packet != p
    ensures p in InFlight(env, x, k, y, j)
  {
    hide Refunds, Succeeds, Refunded, PaidOut, TraceAt, Unsettled;
    var rs, ds := TraceAt(x.traces, k).resolved, TraceAt(y.traces, j).delivered;
    if p in Refunded(env, rs) {
      var r := RefundedFrom(env, rs, p);
      assert false;
    }
    if p in PaidOut(env, ds) {
      var e := PaidOutFrom(env, ds, p);
      assert false;
    }
    UnsettledMembers(TraceAt(x.traces, k).sent, Settled(env, x, k, y, j), p);
  }

  // ---------------------------------------------------------------- refunds

  /** A valid message about a packet still committed to: it was sent, and nothing has resolved it. */
  lemma StillOpen(env: Env, x: Node, p: Packet, r: Resolution)
    requires Injective(env.hash) && LocalInv(env, x) && p.src in x.store.channels && r.packet == p && PacketTypesOk(p)
    requires x.store.channels[p.src].end.remote == RemoteOf(p.dst)
    requires p.seq_ in x.store.channels[p.src].commitments && x.store.channels[p.src].commitments[p.seq_] == Commit(env, p)
    requires r.Acked? || !r.onClose ==> x.store.channels[p.src].end.state == Open
    ensures SentBy(x.traces, p) && p in TraceAt(x.traces, p.src).sent
    ensures forall r' :: r' in TraceAt(x.traces, p.src).resolved ==> r'.packet != p
  {
    hide LocalInv, Injective, PacketTypesOk, Commit;
    ResolvedPacket(env, x, p, r);
    ResolvedExactlyCore(env, x, p.src);
  }

  lemma NeverDelivered(env: Env, x: Node, y: Node, k: ChanKey, j: ChanKey, r: Resolution)
    requires Both(env, x, y) && Partners(x, k, y, j) && r.TimedOut? && r.packet.src == k
    requires Justified(env, x.store.channels[k].end.ordering, k, r, y) && SentBy(x.traces, r.packet)
    ensures forall e :: e in TraceAt(y.traces, j).delivered ==> e.packet != r.packet
  {
    hide Both, Tracked, Justified, SentBy, TraceAt;
    PartnersTracked(x, k, y, j);
    forall e | e in TraceAt(y.traces, j).delivered ensures e.packet != r.packet {
      var i :| 0 <= i < |TraceAt(y.traces, j).delivered| && TraceAt(y.traces, j).delivered[i] == e;
      JustifiedExcludes(env, x, y, k, r, j, i);
    }
  }

  ghost predicate TimeoutPending(env: Env, x: Node, host: Host, m: PacketMsg) {
    && (m.MsgTimeout? || m.MsgTimeoutOnClose?)
    && TimeoutMsgValid(env, x.store, host, m)
    && m.packet.src in x.store.channels
    && m.packet.seq_ in x.store.channels[m.packet.src].commitments
  }

  lemma TimeoutChecks(env: Env, x: Node, host: Host, m: PacketMsg)
    requires TimeoutPending(env, x, host, m)
    ensures var p, c := m.packet, x.store.channels[m.packet.src];
            && PacketTypesOk(p) && c.end.remote == RemoteOf(p.dst) && c.commitments[p.seq_] == Commit(env, p)
            && (m.MsgTimeout? ==> c.end.state == Open)
  {
    hide PeerEndProven, UnreceivedProven, DelayPassed, ProofReady, Commit;
  }

  lemma TimeoutInFlight(env: Env, x: Node, y: Node, host: Host, m: PacketMsg, j: ChanKey)
    requires Both(env, x, y) && TimeoutPending(env, x, host, m) && Partners(x, m.packet.src, y, j)
    ensures m.packet in InFlight(env, x, m.packet.src, y, j)
  {
    hide LocalInv, PeerInv, Justified, SentBy, Tracked, TimeoutValid, TimeoutOnCloseValid, PacketTypesOk, Commit, TraceAt,
         Refunds, Succeeds, InFlight, ProofsSound, Injective, SentinelProvesNothing;
    var p := m.packet;
    var r := TimedOut(p, m.proofHeight, m.MsgTimeoutOnClose?);
    PartnersTracked(x, p.src, y, j);
    TimeoutChecks(env, x, host, m);
    StillOpen(env, x, p, r);
    if m.MsgTimeout? { TimeoutJustified(env, x, y, host, m); } else { TimeoutOnCloseJustified(env, x, y, host, m); }
    NeverDelivered(env, x, y, p.src, j, r);
    InFlightUnless(env, x, p.src, y, j, p);
  }

  /** Where the packet data can be read and its coins are covered, a refund the host does not veto goes through. */
  lemma RefundGoesThrough(env: Env, x: Node, y: Node, p: Packet, j: ChanKey)
    requires Sound(env, x, y) && TransferPartners(x, p.src, y, j) && p in InFlight(env, x, p.src, y, j)
    requires p in TraceAt(x.traces, p.src).sent
    ensures Decode(env, p.data).Some? && Refund(x.store.ledger, p, Decode(env, p.data).value, true).Some?
  {
    hide Both, BooksOf, Partners, InFlight, Balance;
    var data := Decode(env, p.data).value;
    InFlightCovered(env, x, y, p.src, j, p, data.denom);
  }

  lemma SentIfInFlight(env: Env, x: Node, k: ChanKey, y: Node, j: ChanKey, p: Packet)
    requires p in InFlight(env, x, k, y, j)
    ensures p in TraceAt(x.traces, k).sent
  {
    hide TraceAt, Unsettled, Settled;
    UnsettledMembers(TraceAt(x.traces, k).sent, Settled(env, x, k, y, j), p);
  }

  lemma TimeoutReply(env: Env, x: Node, y: Node, host: Host, m: PacketMsg, reply: Reply, j: ChanKey)
    requires Sound(env, x, y) && TimeoutPending(env, x, host, m) && TransferPartners(x, m.packet.src, y, j) && reply.accept
    ensures OnTimeout(env, x.store, m.packet, reply).Some?
  {
    hide Both, BooksOf, DecodableOf, TimeoutMsgValid, InFlight, Partners, Refund;
    PartnersBothWays(x, m.packet.src, y, j);
    TimeoutInFlight(env, x, y, host, m, j);
    SentIfInFlight(env, x, m.packet.src, y, j, m.packet);
    RefundGoesThrough(env, x, y, m.packet, j);
  }

  lemma TimeoutCore(env: Env, x: Node, y: Node, host: Host, m: PacketMsg, reply: Reply, j: ChanKey)
    requires Sound(env, x, y) && TimeoutPending(env, x, host, m) && TransferPartners(x, m.packet.src, y, j) && reply.accept
    ensures Handle(env, x.store, host, Pkt(m), reply).Done?
  {
    hide Sound, TransferPartners, TimeoutValid, TimeoutOnCloseValid, OnTimeout, TimedOutChannel;
    TimeoutReply(env, x, y, host, m, reply, j);
  }

  /** A valid timeout of a transfer succeeds whenever the host accepts the refund: the coins are there. */
  lemma TimeoutRefundIsCovered(env: Env, w: Pair, x: Node, y: Node, host: Host, m: PacketMsg, reply: Reply, j: ChanKey)
    requires Live(env, w, x, y) && CodecFaithful(env) && TimeoutPending(env, x, host, m) && TransferPartners(x, m.packet.src, y, j) && reply.accept
    ensures Handle(env, x.store, host, Pkt(m), reply).Done?
  {
    hide *;
    LiveSound(env, w, x, y);
    TimeoutCore(env, x, y, host, m, reply, j);
  }

  ghost predicate FailurePending(env: Env, x: Node, host: Host, m: PacketMsg) {
    && m.MsgAck?
    && AckValid(env, x.store, host, m)
    && m.packet.seq_ in x.store.channels[m.packet.src].commitments
    && env.ackStatus(m.ack) == Some(false)
  }

  lemma AckChecks(env: Env, x: Node, host: Host, m: PacketMsg)
    requires FailurePending(env, x, host, m)
    ensures m.packet.src in x.store.channels
    ensures var p, c := m.packet, x.store.channels[m.packet.src];
            PacketTypesOk(p) && c.end.remote == RemoteOf(p.dst) && c.commitments[p.seq_] == Commit(env, p) && c.end.state == Open
  {
    hide Proven, DelayPassed, Commit;
  }

  /** The error acknowledgement was written by the only delivery of the packet, so its coins were not paid out. */
  lemma FailureInFlight(env: Env, x: Node, y: Node, host: Host, m: PacketMsg, j: ChanKey)
    requires Both(env, x, y) && FailurePending(env, x, host, m) && Partners(x, m.packet.src, y, j)
    ensures m.packet in InFlight(env, x, m.packet.src, y, j)
  {
    hide LocalInv, PeerInv, Justified, SentBy, AckValid, PacketTypesOk, Commit, TraceAt, InFlight, ProofsSound, Injective,
         SentinelProvesNothing, Refunds;
    var p := m.packet;
    var r := Acked(p, m.ack, m.proofHeight);
    AckChecks(env, x, host, m);
    StillOpen(env, x, p, r);
    AckJustified(env, x, y, host, m);
    var e := JustifiedAck(env, y, x.store.channels[p.src].end.ordering, p.src, r);
    assert p.dst == j;
    forall e' | e' in TraceAt(y.traces, j).delivered && Succeeds(env, e') ensures e'.packet != p {
      if e'.packet == p {
        SameDelivery(env, y, j, e, e');
        assert false;
      }
    }
    InFlightUnless(env, x, p.src, y, j, p);
  }

  lemma FailureReply(env: Env, x: Node, y: Node, host: Host, m: PacketMsg, reply: Reply, j: ChanKey)
    requires Sound(env, x, y) && FailurePending(env, x, host, m) && TransferPartners(x, m.packet.src, y, j) && reply.accept
    ensures OnAck(env, x.store, m.packet, m.ack, reply).Some?
  {
    hide Both, BooksOf, DecodableOf, AckValid, InFlight, Partners, Refund;
    PartnersBothWays(x, m.packet.src, y, j);
    FailureInFlight(env, x, y, host, m, j);
    SentIfInFlight(env, x, m.packet.src, y, j, m.packet);
    RefundGoesThrough(env, x, y, m.packet, j);
  }

  lemma FailureCore(env: Env, x: Node, y: Node, host: Host, m: PacketMsg, reply: Reply, j: ChanKey)
    requires Sound(env, x, y) && FailurePending(env, x, host, m) && TransferPartners(x, m.packet.src, y, j) && reply.accept
    ensures Handle(env, x.store, host, Pkt(m), reply).Done?
  {
    hide Sound, TransferPartners, AckValid, OnAck, AckedChannel;
    AckChecks(env, x, host, m);
    FailureReply(env, x, y, host, m, reply, j);
  }

  /** So does a valid error acknowledgement. */
  lemma FailureRefundIsCovered(env: Env, w: Pair, x: Node, y: Node, host: Host, m: PacketMsg, reply: Reply, j: ChanKey)
    requires Live(env, w, x, y) && CodecFaithful(env) && FailurePending(env, x, host, m) && TransferPartners(x, m.packet.src, y, j) && reply.accept
    ensures Handle(env, x.store, host, Pkt(m), reply).Done?
  {
    hide *;
    LiveSound(env, w, x, y);
    FailureCore(env, x, y, host, m, reply, j);
  }

  // ---------------------------------------------------------------- returning coins

  ghost predicate FirstDelivery(env: Env, x: Node, host: Host, m: PacketMsg) {
    && m.MsgRecv?
    && RecvValid(env, x.store, host, m)
    && !AlreadyReceived(x.store.channels[m.packet.dst], m.packet)
    && host.height == x.height && host.time == x.time
  }

  /** The receiver as it would be after delivering the packet. */
  ghost function AfterDelivery(env: Env, x: Node, m: PacketMsg, ack: Bytes): Node
    requires m.packet.dst in x.store.channels
  {
    x.(store := WithChannel(x.store, m.packet.dst, Received(env, x.store.channels[m.packet.dst], m.packet, ack)),
       traces := Record(x.traces, DeliveredNote(m.packet, ack), x.height, x.time))
  }

  lemma AfterDeliveryBoth(env: Env, x: Node, y: Node, host: Host, m: PacketMsg, ack: Bytes)
    requires Both(env, x, y) && FirstDelivery(env, x, host, m) && m.packet.dst in x.store.channels
    ensures Both(env, y, AfterDelivery(env, x, m, ack))
  {
    hide LocalInv, PeerInv, Contracts, Grows, RecvValid, AlreadyReceived, Received, Record;
    var x' := AfterDelivery(env, x, m, ack);
    RecvStep(env, x, y, host, m, Delivery(m.packet, ack, x.height, x.time), x.store.ledger, x');
    TracesOfChannels(env, x);
    PeerStable(env, y, x, x');
  }

  /** A packet about to be delivered has not been timed out at its sender. */
  lemma NotTimedOutYet(env: Env, x: Node, y: Node, host: Host, m: PacketMsg, r: Resolution)
    requires Both(env, x, y) && FirstDelivery(env, x, host, m) && Tracked(y, m.packet.src) && Tracked(x, m.packet.dst)
    requires r in TraceAt(y.traces, m.packet.src).resolved && r.TimedOut?
    ensures r.packet.seq_ != m.packet.seq_
  {
    hide LocalInv, PeerInv, Contracts, RecvValid, AlreadyReceived, Received;
    var x' := AfterDelivery(env, x, m, []);
    AfterDeliveryBoth(env, x, y, host, m, []);
    DeliversShape(env, x, x', Delivery(m.packet, [], x.height, x.time), x.store.ledger);
    var ds := TraceAt(x'.traces, m.packet.dst).delivered;
    assert ds[|ds| - 1].packet == m.packet;
    assert Tracked(x', m.packet.dst);
    ExclusiveCore(env, y, x', m.packet.src, r, m.packet.dst, |ds| - 1);
  }

  /** Nor has it been acknowledged there: acknowledgements come from deliveries. */
  lemma NotAckedYet(env: Env, x: Node, y: Node, host: Host, m: PacketMsg, r: Resolution)
    requires Both(env, y, x) && FirstDelivery(env, x, host, m) && Partners(y, m.packet.src, x, m.packet.dst)
    requires r in TraceAt(y.traces, m.packet.src).resolved && r.Acked?
    ensures r.packet.seq_ != m.packet.seq_
  {
    hide LocalInv, PeerInv, Contracts, RecvValid, DeliveredSeqs;
    PartnersTracked(y, m.packet.src, x, m.packet.dst);
    ResolvedFacts(env, y, m.packet.src, r);
    assert r.packet.dst == m.packet.dst;
    var e := AckCore(env, y, x, m.packet.src, r);
    hide Tracked;
    NotYetDelivered(env, x, host, m, e);
  }

  lemma NotYetDelivered(env: Env, x: Node, host: Host, m: PacketMsg, e: Delivery)
    requires LocalInv(env, x) && FirstDelivery(env, x, host, m) && e in TraceAt(x.traces, m.packet.dst).delivered
    ensures e.packet.seq_ != m.packet.seq_
  {
    hide LocalInv, AlreadyReceived, Proven, DelayPassed;
    DeliveredIsRecorded(env, x, m.packet);
  }

  lemma ReturnInFlight(env: Env, x: Node, y: Node, host: Host, m: PacketMsg)
    requires Both(env, x, y) && Both(env, y, x) && FirstDelivery(env, x, host, m) && Partners(y, m.packet.src, x, m.packet.dst)
    ensures m.packet in InFlight(env, y, m.packet.src, x, m.packet.dst)
  {
    hide Both, RecvValid, AlreadyReceived, TraceAt, InFlight, Tracked, Refunds, Succeeds;
    var p := m.packet;
    PartnersTracked(y, p.src, x, p.dst);
    ReceivedWasSent(env, x, y, host, m);
    forall r | r in TraceAt(y.traces, p.src).resolved && Refunds(env, r) ensures r.packet != p {
      if r.TimedOut? { NotTimedOutYet(env, x, y, host, m, r); } else { NotAckedYet(env, x, y, host, m, r); }
    }
    BothLocal(env, x, y);
    forall e | e in TraceAt(x.traces, p.dst).delivered && Succeeds(env, e) ensures e.packet != p {
      NotYetDelivered(env, x, host, m, e);
    }
    InFlightUnless(env, y, p.src, x, p.dst, p);
  }

  lemma ReceivedWasSent(env: Env, x: Node, y: Node, host: Host, m: PacketMsg)
    requires Both(env, x, y) && FirstDelivery(env, x, host, m) && Tracked(x, m.packet.dst)
    ensures m.packet in TraceAt(y.traces, m.packet.src).sent
  {
    hide LocalInv, PeerInv, Contracts, RecvValid, AlreadyReceived;
    RecvProven(env, x, y, host, m);
  }

  lemma ReturnCore(env: Env, x: Node, y: Node, host: Host, m: PacketMsg, reply: Reply)
    requires Sound(env, x, y) && FirstDelivery(env, x, host, m) && TransferPartners(x, m.packet.dst, y, m.packet.src) && reply.accept
    ensures OnRecv(env, x.store, m.packet, reply).1 == env.successAck
  {
    hide Both, BooksOf, RecvValid, AlreadyReceived, InFlight, Partners, Balance, AddTracePrefix, RemoveTracePrefix, StartsWith;
    var p := m.packet;
    PartnersBothWays(x, p.dst, y, p.src);
    ReturnInFlight(env, x, y, host, m);
    SentIfInFlight(env, y, p.src, x, p.dst, p);
    var data := Decode(env, p.data).value;
    if IsReceiverChainSource(p.src, data.denom) {
      InFlightCovered(env, x, y, p.dst, p.src, p, RemoveTracePrefix(data.denom, p.src));
    }
  }

  /** A transfer delivered to a willing host is paid out in full: returning coins are always found in escrow. */
  lemma ReturnIsCovered(env: Env, w: Pair, x: Node, y: Node, host: Host, m: PacketMsg, reply: Reply)
    requires Live(env, w, x, y) && CodecFaithful(env) && FirstDelivery(env, x, host, m) && reply.accept
    requires TransferPartners(x, m.packet.dst, y, m.packet.src)
    ensures OnRecv(env, x.store, m.packet, reply).1 == env.successAck
  {
    hide *;
    LiveSound(env, w, x, y);
    ReturnCore(env, x, y, host, m, reply);
  }
}
