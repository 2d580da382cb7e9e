/** Every packet step of either chain keeps the invariants, for any relayer and any stale proof. */
module Preservation {
  import opened Prelude
  import opened Heights
  import opened Paths
  import opened Denoms
  import opened Commitments
  import opened IbcStore
  import opened Channels
  import opened Packets
  import opened Dispatch
  import opened World
  import opened Invariants
  import opened ChannelSteps
  import opened NodeSteps

  /** The two chains stand in the invariant, seen from `x`. */
  ghost predicate Stands(env: Env, x: Node, y: Node) {
    Contracts(env) && LocalInv(env, x) && LocalInv(env, y) && PeerInv(env, x, y)
  }

  ghost predicate Kept(env: Env, x: Node, x': Node, y: Node) {
    LocalInv(env, x') && Grows(x, x') && PeerInv(env, x', y)
  }

  // ---------------------------------------------------------------- reading the invariant

  lemma ChannelFacts(env: Env, x: Node, k: ChanKey)
    requires LocalInv(env, x) && k in x.store.channels
    ensures ChanInv(env, x.store, k, x.store.channels[k], TraceAt(x.traces, k))
  {
    hide ChanInv, SnapshotOk;
  }

  /** A snapshot's channel is in order, and the present channel is a later version of it. */
  lemma SnapshotFacts(env: Env, y: Node, h: Height, k: ChanKey)
    requires LocalInv(env, y) && h in y.history
    ensures y.history[h].store.config == y.store.config
    ensures k in y.history[h].store.channels ==>
              && k in y.store.channels
              && ChanInv(env, y.history[h].store, k, y.history[h].store.channels[k], TraceAt(y.history[h].traces, k))
              && ChanExt(y.history[h].store.channels[k], TraceAt(y.history[h].traces, k), y.store.channels[k], TraceAt(y.traces, k))
  {
    hide ChanInv, ChanExt;
    assert SnapshotOk(env, y, h, y.history[h]);
  }

  lemma PeerFacts(env: Env, x: Node, y: Node, k: ChanKey)
    requires PeerInv(env, x, y) && Tracked(x, k)
    ensures PeerChannel(env, x, y, k)
  {
  }

  lemma GenuineClients(env: Env, x: Node, y: Node)
    requires PeerInv(env, x, y)
    ensures ClientsGenuine(env, x, y)
  {
  }

  /** Nothing a peer relies on moved, except callbacks the peer is not concerned with. */
  lemma SamePeerFacts(env: Env, x: Node, x': Node, y: Node, k: ChanKey)
    requires OneChannel(x, x', k) && PeerInv(env, x, y)
    requires x'.store.channels[k].end == x.store.channels[k].end
    requires var t, t' := TraceAt(x.traces, k), TraceAt(x'.traces, k);
             t'.delivered == t.delivered && t'.resolved == t.resolved && t'.wasOpen == t.wasOpen
    ensures PeerInv(env, x', y)
  {
    if Tracked(x', k) {
      assert Tracked(x, k) && PeerChannel(env, x, y, k);
    }
    OneChannelPeer(env, x, x', y, k);
  }

  // ---------------------------------------------------------------- send

  lemma SendStep(env: Env, x: Node, y: Node, host: Host, p: Packet, coins: bool, l: Ledger, x': Node)
    requires LocalInv(env, x) && PeerInv(env, x, y) && SendValid(x.store, host, p)
    requires x' == x.(store := SendExec(env, x.store, p).(ledger := l),
                      traces := Record(x.traces, SentNote(p, coins), x.height, x.time))
    ensures LocalInv(env, x') && Grows(x, x') && PeerInv(env, x', y)
  {
    hide LocalInv, PeerInv, ChanInv, ChanExt, Grows;
    var k := p.src;
    var c, t := x.store.channels[k], TraceAt(x.traces, k);
    var ts := if coins then t.transfers + [p] else t.transfers;
    ChannelFacts(env, x, k);
    SendKeeps(env, x.store, k, c, t, p, ts);
    assert TraceAt(x'.traces, k) == t.(sent := t.sent + [p], transfers := ts);
    assert x'.store.channels[k] == SentChannel(env, c, p);
    OneChannelLocal(env, x, x', k);
    SamePeerFacts(env, x, x', y, k);
  }

  // ---------------------------------------------------------------- receive

  lemma CommitmentAt(s: Store, k: ChanKey, n: nat, b: Bytes)
    requires Lookup(s, Commitment(k.port, k.channel, n)) == Some(BytesValue(b))
    ensures k in s.channels && n in s.channels[k].commitments && s.channels[k].commitments[n] == b
  {
    assert k == TracePrefix(k.port, k.channel);
  }

  /** The packet behind a commitment has the data and timeouts the commitment was computed from. */
  lemma CommittedPacket(env: Env, s: Store, k: ChanKey, c: Channel, t: ChanTrace, p: Packet)
    requires Injective(env.hash) && ChanInv(env, s, k, c, t) && PacketTypesOk(p)
    requires p.src == k && p.seq_ in c.commitments && c.commitments[p.seq_] == Commit(env, p)
    ensures 1 <= p.seq_ <= |t.sent|
    ensures var q := t.sent[p.seq_ - 1]; p == q.(dst := p.dst) && c.end.remote == RemoteOf(q.dst)
  {
    var q := t.sent[p.seq_ - 1];
    assert SentOk(k, c.end, q, p.seq_ - 1);
    EqualCommitments(env.hash, p.data, p.timeoutHeight, p.timeoutTimestamp, q.data, q.timeoutHeight, q.timeoutTimestamp);
  }

  /** A commitment seen in a snapshot of the sender names the packet it sent, destination included. */
  lemma CommitmentSeen(env: Env, x: Node, y: Node, k: ChanKey, p: Packet, h: Height)
    requires Injective(env.hash) && LocalInv(env, y) && k in x.store.channels && PeerAgrees(x.store, y.store, k)
    requires p.dst == k && x.store.channels[k].end.remote == RemoteOf(p.src) && PacketTypesOk(p)
    requires h in y.history
    requires Lookup(y.history[h].store, Commitment(p.src.port, p.src.channel, p.seq_)) == Some(BytesValue(Commit(env, p)))
    ensures SentBy(y.traces, p)
  {
    hide LocalInv, ChanInv, Lookup, Injective, PacketTypesOk, Commit;
    var snap, j := y.history[h], p.src;
    CommitmentAt(snap.store, j, p.seq_, Commit(env, p));
    SnapshotFacts(env, y, h, j);
    var c, t := snap.store.channels[j], TraceAt(snap.traces, j);
    CommittedPacket(env, snap.store, j, c, t, p);
    var q := t.sent[p.seq_ - 1];
    assert j == PeerKey(x.store.channels[k].end);
    assert RemoteOf(q.dst) == RemoteOf(k);
    assert q.dst == k;
  }

  lemma RecvProven(env: Env, x: Node, y: Node, host: Host, m: PacketMsg)
    requires Stands(env, x, y) && m.MsgRecv? && RecvValid(env, x.store, host, m) && Tracked(x, m.packet.dst)
    ensures SentBy(y.traces, m.packet)
  {
    hide LocalInv, PeerInv, ChanInv, Lookup;
    var p := m.packet;
    var e := x.store.channels[p.dst].end;
    var conn := ConnectionOf(x.store, e);
    GenuineClients(env, x, y);
    PeerFacts(env, x, y, p.dst);
    OpenIsWasOpen(env, x, p.dst);
    Learn(env, x, y, host, conn.clientId, conn.counterparty.prefix, m.proof, m.proofHeight,
          Commitment(p.src.port, p.src.channel, p.seq_), BytesValue(Commit(env, p)));
    CommitmentSeen(env, x, y, p.dst, p, m.proofHeight);
  }

  lemma OpenIsWasOpen(env: Env, x: Node, k: ChanKey)
    requires LocalInv(env, x) && k in x.store.channels && x.store.channels[k].end.state == Open
    ensures TraceAt(x.traces, k).wasOpen
  {
    hide LocalInv;
    ChannelFacts(env, x, k);
  }

  /** `x'` is `x` after delivering `d` on channel `k`. */
  ghost predicate Delivers(env: Env, x: Node, x': Node, d: Delivery, l: Ledger) {
    var k := d.packet.dst;
    && k in x.store.channels
    && d.height == x.height && d.time == x.time
    && x' == x.(store := WithChannel(x.store, k, Received(env, x.store.channels[k], d.packet, d.ack)).(ledger := l),
                traces := Record(x.traces, DeliveredNote(d.packet, d.ack), x.height, x.time))
  }

  lemma DeliversShape(env: Env, x: Node, x': Node, d: Delivery, l: Ledger)
    requires Delivers(env, x, x', d, l)
    ensures var k := d.packet.dst;
            && OneChannel(x, x', k)
            && TraceAt(x'.traces, k) == TraceAt(x.traces, k).(delivered := TraceAt(x.traces, k).delivered + [d])
            && x'.store.channels[k] == Received(env, x.store.channels[k], d.packet, d.ack)
            && x'.store.channels[k].end == x.store.channels[k].end
  {
  }

  lemma RecvLocal(env: Env, x: Node, host: Host, m: PacketMsg, d: Delivery, l: Ledger, x': Node)
    requires LocalInv(env, x) && m.MsgRecv? && RecvValid(env, x.store, host, m)
    requires host.height == x.height && host.time == x.time && d.packet == m.packet
    requires !AlreadyReceived(x.store.channels[m.packet.dst], m.packet)
    requires Delivers(env, x, x', d, l)
    ensures LocalInv(env, x') && Grows(x, x')
  {
    hide LocalInv, ChanInv, ChanExt, Received, Grows, AlreadyReceived, Proven, DelayPassed, HasExpired, CheckExpiry, PacketTypesOk;
    DeliversShape(env, x, x', d, l);
    var k := m.packet.dst;
    ChannelFacts(env, x, k);
    RecvKeeps(env, x.store, k, x.store.channels[k], TraceAt(x.traces, k), d);
    OneChannelLocal(env, x, x', k);
  }

  lemma RecvPeer(env: Env, x: Node, x': Node, y: Node, d: Delivery, l: Ledger)
    requires PeerInv(env, x, y) && Delivers(env, x, x', d, l)
    requires Tracked(x, d.packet.dst) ==> SentBy(y.traces, d.packet)
    ensures PeerInv(env, x', y)
  {
    hide PeerInv, Received, Justified, SentBy;
    DeliversShape(env, x, x', d, l);
    var k := d.packet.dst;
    if Tracked(x', k) {
      assert Tracked(x, k);
      PeerFacts(env, x, y, k);
      assert PeerChannel(env, x', y, k);
    }
    OneChannelPeer(env, x, x', y, k);
  }

  lemma RecvStep(env: Env, x: Node, y: Node, host: Host, m: PacketMsg, d: Delivery, l: Ledger, x': Node)
    requires Stands(env, x, y) && m.MsgRecv? && RecvValid(env, x.store, host, m)
    requires host.height == x.height && host.time == x.time && d.packet == m.packet
    requires !AlreadyReceived(x.store.channels[m.packet.dst], m.packet)
    requires Delivers(env, x, x', d, l)
    ensures Kept(env, x, x', y)
  {
    hide LocalInv, PeerInv, Delivers, RecvValid, AlreadyReceived, SentBy, Contracts, Grows;
    RecvLocal(env, x, host, m, d, l, x');
    if Tracked(x, m.packet.dst) { RecvProven(env, x, y, host, m); }
    RecvPeer(env, x, x', y, d, l);
  }

  // ---------------------------------------------------------------- resolve

  /** A channel end with a counterparty channel runs over an open connection, mirrored when tracked. */
  lemma OpenConnection(env: Env, x: Node, y: Node, k: ChanKey)
    requires LocalInv(env, x) && PeerInv(env, x, y) && Tracked(x, k) && x.store.channels[k].end.remote.channelId.Some?
    ensures ConnectionOf(x.store, x.store.channels[k].end).counterparty.prefix == y.store.config.prefix
  {
    hide LocalInv, PeerChannel;
    ChannelFacts(env, x, k);
    assert TrackedConn(x, x.store.channels[k].end.hops[0]);
    assert Mirrored(x.store, y.store, x.store.channels[k].end.hops[0]);
  }

  lemma SeqRecvAt(s: Store, k: ChanKey, n: nat)
    ensures Lookup(s, SeqRecv(k.port, k.channel)) == Some(SequenceValue(n)) ==> k in s.channels && s.channels[k].nextRecv == n
    ensures Lookup(s, Receipt(k.port, k.channel, n)) == None ==> (k in s.channels ==> n !in s.channels[k].receipts)
  {
    assert k == TracePrefix(k.port, k.channel);
  }

  lemma AckAt(s: Store, k: ChanKey, n: nat, b: Bytes)
    requires Lookup(s, Ack(k.port, k.channel, n)) == Some(BytesValue(b))
    ensures k in s.channels && n in s.channels[k].acks && s.channels[k].acks[n] == b
  {
    assert k == TracePrefix(k.port, k.channel);
  }

  lemma EndAt(s: Store, k: ChanKey, e: ChannelEnd)
    requires Lookup(s, ChannelEndPath(k.port, k.channel)) == Some(ChannelValue(e))
    ensures k in s.channels && s.channels[k].end == e
  {
    assert k == TracePrefix(k.port, k.channel);
  }

  lemma UnreceivedLearned(env: Env, x: Node, y: Node, host: Host, p: Packet, nextSeqRecv: nat, proof: Bytes, h: Height)
    requires Stands(env, x, y) && Tracked(x, p.src) && x.store.channels[p.src].end.remote == RemoteOf(p.dst)
    requires var e := x.store.channels[p.src].end;
             UnreceivedProven(env, x.store, host, ConnectionOf(x.store, e), e.ordering, p, nextSeqRecv, proof, h)
    ensures h in y.history && UnreceivedAt(y.history[h].store, x.store.channels[p.src].end.ordering, p)
    ensures var c := ConnectionOf(x.store, x.store.channels[p.src].end).clientId;
            ProofReady(x.store, host, c, h) && ConsensusAt(x.store, c, h).timestamp == y.history[h].time
  {
    hide LocalInv, PeerInv, Lookup, ChanInv, ChanExt;
    var e := x.store.channels[p.src].end;
    var conn := ConnectionOf(x.store, e);
    OpenConnection(env, x, y, p.src);
    GenuineClients(env, x, y);
    if e.ordering == Ordered {
      Learn(env, x, y, host, conn.clientId, conn.counterparty.prefix, proof, h,
            SeqRecv(p.dst.port, p.dst.channel), SequenceValue(p.seq_));
    } else {
      LearnAbsent(env, x, y, host, conn.clientId, conn.counterparty.prefix, proof, h,
                  Receipt(p.dst.port, p.dst.channel, p.seq_));
      SnapshotFacts(env, y, h, p.dst);
    }
    SeqRecvAt(y.history[h].store, p.dst, p.seq_);
  }

  lemma TimeoutJustified(env: Env, x: Node, y: Node, host: Host, m: PacketMsg)
    requires Stands(env, x, y) && m.MsgTimeout? && TimeoutValid(env, x.store, host, m) && Tracked(x, m.packet.src)
    requires m.packet.seq_ in x.store.channels[m.packet.src].commitments
    ensures Justified(env, x.store.channels[m.packet.src].end.ordering, m.packet.src,
                      TimedOut(m.packet, m.proofHeight, false), y)
  {
    hide LocalInv, PeerInv, Contracts, UnreceivedProven, UnreceivedAt;
    UnreceivedLearned(env, x, y, host, m.packet, m.nextSeqRecv, m.proof, m.proofHeight);
  }

  lemma TimeoutOnCloseJustified(env: Env, x: Node, y: Node, host: Host, m: PacketMsg)
    requires Stands(env, x, y) && m.MsgTimeoutOnClose? && TimeoutOnCloseValid(env, x.store, host, m) && Tracked(x, m.packet.src)
    requires m.packet.seq_ in x.store.channels[m.packet.src].commitments
    ensures Justified(env, x.store.channels[m.packet.src].end.ordering, m.packet.src,
                      TimedOut(m.packet, m.proofHeight, true), y)
  {
    hide LocalInv, PeerInv, Contracts, UnreceivedProven, UnreceivedAt, Lookup, Proven;
    var p := m.packet;
    var e := x.store.channels[p.src].end;
    var conn := ConnectionOf(x.store, e);
    GenuineClients(env, x, y);
    UnreceivedLearned(env, x, y, host, p, m.nextSeqRecv, m.proof, m.proofHeight);
    var closed := ChannelEnd(Closed, e.ordering, RemoteOf(p.src), [conn.counterparty.connectionId.value], e.version);
    Learn(env, x, y, host, conn.clientId, conn.counterparty.prefix, m.proof, m.proofHeight,
          ChannelEndPath(p.dst.port, p.dst.channel), ChannelValue(closed));
    EndAt(y.history[m.proofHeight].store, p.dst, closed);
  }

  lemma AckJustified(env: Env, x: Node, y: Node, host: Host, m: PacketMsg)
    requires Stands(env, x, y) && m.MsgAck? && AckValid(env, x.store, host, m) && Tracked(x, m.packet.src)
    requires m.packet.seq_ in x.store.channels[m.packet.src].commitments
    ensures Justified(env, x.store.channels[m.packet.src].end.ordering, m.packet.src,
                      Acked(m.packet, m.ack, m.proofHeight), y)
  {
    hide LocalInv, PeerInv, Contracts, Lookup, Proven;
    var p := m.packet;
    var conn := ConnectionOf(x.store, x.store.channels[p.src].end);
    GenuineClients(env, x, y);
    Learn(env, x, y, host, conn.clientId, conn.counterparty.prefix, m.proof, m.proofHeight,
          Ack(p.dst.port, p.dst.channel, p.seq_), BytesValue(env.hash(m.ack)));
    AckAt(y.history[m.proofHeight].store, p.dst, p.seq_, env.hash(m.ack));
  }

  /** Recording a justified resolution keeps what `x` knows of `y`; the end may have closed. */
  lemma ResolvePeer(env: Env, x: Node, x': Node, y: Node, k: ChanKey, r: Resolution)
    requires OneChannel(x, x', k) && PeerInv(env, x, y)
    requires var e, e' := x.store.channels[k].end, x'.store.channels[k].end; e' == e.(state := e'.state)
    requires TraceAt(x'.traces, k) == TraceAt(x.traces, k).(resolved := TraceAt(x.traces, k).resolved + [r])
    requires Tracked(x, k) ==> Justified(env, x.store.channels[k].end.ordering, k, r, y)
    ensures PeerInv(env, x', y)
  {
    hide PeerInv, Justified, SentBy;
    if Tracked(x', k) {
      assert Tracked(x, k);
      PeerFacts(env, x, y, k);
      assert PeerChannel(env, x', y, k);
    }
    OneChannelPeer(env, x, x', y, k);
  }

  /** A resolution message that passes validation carries the packet that was sent. */
  lemma ResolvedPacket(env: Env, x: Node, p: Packet, r: Resolution)
    requires Injective(env.hash) && LocalInv(env, x) && p.src in x.store.channels && r.packet == p && PacketTypesOk(p)
    requires x.store.channels[p.src].end.remote == RemoteOf(p.dst)
    requires p.seq_ in x.store.channels[p.src].commitments && x.store.channels[p.src].commitments[p.seq_] == Commit(env, p)
    requires r.Acked? || !r.onClose ==> x.store.channels[p.src].end.state == Open
    ensures ResolvedOk(TraceAt(x.traces, p.src), r)
  {
    hide LocalInv, ChanInv, Injective, PacketTypesOk, Commit;
    var c, t := x.store.channels[p.src], TraceAt(x.traces, p.src);
    ChannelFacts(env, x, p.src);
    CommitmentNamesPacket(env, x.store, p.src, c, t, p);
    if c.end.state == Open { OpenIsWasOpen(env, x, p.src); }
  }

  lemma AckStep(env: Env, x: Node, y: Node, host: Host, m: PacketMsg, l: Ledger, x': Node)
    requires Stands(env, x, y) && m.MsgAck? && AckValid(env, x.store, host, m)
    requires m.packet.seq_ in x.store.channels[m.packet.src].commitments
    requires x' == x.(store := WithChannel(x.store, m.packet.src, AckedChannel(x.store.channels[m.packet.src], m.packet)).(ledger := l),
                      traces := Record(x.traces, AckedNote(m.packet, m.ack, m.proofHeight), x.height, x.time))
    ensures Kept(env, x, x', y)
  {
    hide LocalInv, PeerInv, ChanInv, ChanExt, Justified, Grows, Injective, ProofsSound, Proven, DelayPassed, Commit;
    var p := m.packet;
    var k, r := p.src, Acked(p, m.ack, m.proofHeight);
    var c, t := x.store.channels[k], TraceAt(x.traces, k);
    ResolvedPacket(env, x, p, r);
    ChannelFacts(env, x, k);
    AckKeeps(env, x.store, k, c, t, r);
    assert TraceAt(x'.traces, k) == t.(resolved := t.resolved + [r]);
    OneChannelLocal(env, x, x', k);
    if Tracked(x, k) { AckJustified(env, x, y, host, m); }
    ResolvePeer(env, x, x', y, k, r);
  }

  predicate TimeoutMsgValid(env: Env, s: Store, host: Host, m: PacketMsg)
    requires m.MsgTimeout? || m.MsgTimeoutOnClose?
  {
    if m.MsgTimeout? then TimeoutValid(env, s, host, m) else TimeoutOnCloseValid(env, s, host, m)
  }

  lemma TimeoutLocal(env: Env, x: Node, host: Host, m: PacketMsg, l: Ledger, x': Node, r: Resolution)
    requires Injective(env.hash) && LocalInv(env, x)
    requires (m.MsgTimeout? || m.MsgTimeoutOnClose?) && TimeoutMsgValid(env, x.store, host, m)
    requires m.packet.seq_ in x.store.channels[m.packet.src].commitments
    requires x' == x.(store := WithChannel(x.store, m.packet.src, TimedOutChannel(x.store.channels[m.packet.src], m.packet)).(ledger := l),
                      traces := Record(x.traces, TimedOutNote(m.packet, m.proofHeight, m.MsgTimeoutOnClose?), x.height, x.time))
    requires r == TimedOut(m.packet, m.proofHeight, m.MsgTimeoutOnClose?)
    ensures LocalInv(env, x') && Grows(x, x') && OneChannel(x, x', m.packet.src)
    ensures var t := TraceAt(x.traces, m.packet.src); TraceAt(x'.traces, m.packet.src) == t.(resolved := t.resolved + [r])
  {
    hide LocalInv, ChanInv, ChanExt, Grows, Injective, PeerEndProven, UnreceivedProven, DelayPassed, ProofReady, Commit;
    var p := m.packet;
    var k := p.src;
    var c, t := x.store.channels[k], TraceAt(x.traces, k);
    ResolvedPacket(env, x, p, r);
    ChannelFacts(env, x, k);
    TimeoutKeeps(env, x.store, k, c, t, r);
    assert TraceAt(x'.traces, k) == t.(resolved := t.resolved + [r]);
    OneChannelLocal(env, x, x', k);
  }

  lemma TimeoutStep(env: Env, x: Node, y: Node, host: Host, m: PacketMsg, l: Ledger, x': Node)
    requires Stands(env, x, y)
    requires (m.MsgTimeout? || m.MsgTimeoutOnClose?) && TimeoutMsgValid(env, x.store, host, m)
    requires m.packet.seq_ in x.store.channels[m.packet.src].commitments
    requires x' == x.(store := WithChannel(x.store, m.packet.src, TimedOutChannel(x.store.channels[m.packet.src], m.packet)).(ledger := l),
                      traces := Record(x.traces, TimedOutNote(m.packet, m.proofHeight, m.MsgTimeoutOnClose?), x.height, x.time))
    ensures Kept(env, x, x', y)
  {
    hide LocalInv, PeerInv, Justified, Grows, ProofsSound, Injective, TimeoutValid, TimeoutOnCloseValid;
    var k, r := m.packet.src, TimedOut(m.packet, m.proofHeight, m.MsgTimeoutOnClose?);
    TimeoutLocal(env, x, host, m, l, x', r);
    if Tracked(x, k) {
      if m.MsgTimeout? { TimeoutJustified(env, x, y, host, m); } else { TimeoutOnCloseJustified(env, x, y, host, m); }
    }
    ResolvePeer(env, x, x', y, k, r);
  }
}
