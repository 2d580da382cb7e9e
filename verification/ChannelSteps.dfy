/** Each handler keeps the relation between one channel and its callback history. */
module ChannelSteps {
  import opened Commitments
  import opened IbcStore
  import opened Channels
  import opened Packets
  import opened World
  import opened Invariants

  lemma DeliveredSeqsAppend(ds: seq<Delivery>, d: Delivery)
    ensures DeliveredSeqs(ds + [d]) == DeliveredSeqs(ds) + {d.packet.seq_}
  {
    forall n ensures n in DeliveredSeqs(ds + [d]) <==> n in DeliveredSeqs(ds) + {d.packet.seq_} {
      if n in DeliveredSeqs(ds) {
        var e :| e in ds && e.packet.seq_ == n;
        assert e in ds + [d];
      }
      if n == d.packet.seq_ { assert d in ds + [d]; }
    }
  }

  lemma ResolvedSeqsAppend(rs: seq<Resolution>, r: Resolution)
    ensures ResolvedSeqs(rs + [r]) == ResolvedSeqs(rs) + {r.packet.seq_}
  {
    forall n ensures n in ResolvedSeqs(rs + [r]) <==> n in ResolvedSeqs(rs) + {r.packet.seq_} {
      if n in ResolvedSeqs(rs) {
        var e :| e in rs && e.packet.seq_ == n;
        assert e in rs + [r];
      }
      if n == r.packet.seq_ { assert r in rs + [r]; }
    }
  }

  function SentChannel(env: Env, c: Channel, p: Packet): Channel {
    c.(nextSend := c.nextSend + 1, commitments := c.commitments[p.seq_ := Commit(env, p)])
  }

  lemma ResolvedMentioned(rs: seq<Resolution>, i: nat)
    requires i < |rs|
    ensures rs[i].packet.seq_ in ResolvedSeqs(rs)
  {
    assert rs[i] in rs;
  }

  lemma ResolvedBelow(env: Env, k: ChanKey, c: Channel, t: ChanTrace, n: nat)
    requires SendInv(env, k, c, t) && n in ResolvedSeqs(t.resolved)
    ensures n <= |t.sent|
  {
    hide SentOk, Commit;
    var r :| r in t.resolved && r.packet.seq_ == n;
    assert ResolvedOk(t, r);
  }

  lemma SendKeepsSend(env: Env, k: ChanKey, c: Channel, t: ChanTrace, p: Packet, ts: seq<Packet>)
    requires SendInv(env, k, c, t)
    requires SentOk(k, c.end, p, |t.sent|)
    ensures SendInv(env, k, SentChannel(env, c, p), t.(sent := t.sent + [p], transfers := ts))
  {
    hide Commit, PacketTypesOk, RemoteOf, ResolvedSeqs;
    var c', t' := SentChannel(env, c, p), t.(sent := t.sent + [p], transfers := ts);
    if p.seq_ in ResolvedSeqs(t.resolved) { ResolvedBelow(env, k, c, t, p.seq_); }
    forall i | 0 <= i < |t'.sent| ensures SentOk(k, c'.end, t'.sent[i], i) {
      if i < |t.sent| { assert SentOk(k, c.end, t.sent[i], i); }
    }
    forall j | 0 <= j < |t'.resolved| ensures ResolvedOk(t', t'.resolved[j]) {
      assert ResolvedOk(t, t.resolved[j]);
    }
  }

  lemma SendKeeps(env: Env, s: Store, k: ChanKey, c: Channel, t: ChanTrace, p: Packet, ts: seq<Packet>)
    requires ChanInv(env, s, k, c, t)
    requires p.src == k && p.seq_ == c.nextSend && c.end.remote == RemoteOf(p.dst) && PacketTypesOk(p) && c.end.state != Closed
    requires t.transfers <= ts
    ensures ChanInv(env, s, k, SentChannel(env, c, p), t.(sent := t.sent + [p], transfers := ts))
    ensures ChanExt(c, t, SentChannel(env, c, p), t.(sent := t.sent + [p], transfers := ts))
  {
    SendKeepsSend(env, k, c, t, p, ts);
    ReceivesUnchanged(env, k, c, t, SentChannel(env, c, p), t.(sent := t.sent + [p], transfers := ts));
  }

  /** A sequence is fresh exactly when the handler's duplicate check lets it through. */
  lemma FreshSequence(env: Env, k: ChanKey, c: Channel, t: ChanTrace, p: Packet)
    requires RecvInv(env, k, c, t) && c.end.ordering != NoOrder
    ensures AlreadyReceived(c, p) && p.seq_ >= 1 ==> p.seq_ in DeliveredSeqs(t.delivered)
    ensures p.seq_ in DeliveredSeqs(t.delivered) ==> AlreadyReceived(c, p)
  {
    if p.seq_ in DeliveredSeqs(t.delivered) {
      var d :| d in t.delivered && d.packet.seq_ == p.seq_;
    }
    if c.end.ordering == Ordered && 1 <= p.seq_ < c.nextRecv {
      assert t.delivered[p.seq_ - 1] in t.delivered;
    }
  }

  lemma DeliveriesStayOk(env: Env, k: ChanKey, c: Channel, t: ChanTrace, d: Delivery, c': Channel)
    requires RecvInv(env, k, c, t) && d.packet.seq_ !in DeliveredSeqs(t.delivered)
    requires c'.end == c.end && c'.acks == c.acks[d.packet.seq_ := env.hash(d.ack)] && DeliveredOk(env, k, c', d)
    ensures forall i :: 0 <= i < |t.delivered + [d]| ==> DeliveredOk(env, k, c', (t.delivered + [d])[i])
    ensures c'.acks.Keys == DeliveredSeqs(t.delivered + [d])
  {
    var ds := t.delivered + [d];
    DeliveredSeqsAppend(t.delivered, d);
    forall i | 0 <= i < |ds| ensures DeliveredOk(env, k, c', ds[i]) {
      if i < |t.delivered| {
        assert DeliveredOk(env, k, c, t.delivered[i]) && t.delivered[i] in t.delivered;
      }
    }
    assert c'.acks.Keys == c.acks.Keys + {d.packet.seq_};
  }

  lemma RecordDelivery(c: Channel, ds: seq<Delivery>, d: Delivery, c': Channel)
    requires d.packet.seq_ !in DeliveredSeqs(ds)
    ensures UnorderedRecv(c, ds) && c'.nextRecv == c.nextRecv && c'.receipts == c.receipts + {d.packet.seq_} ==>
              UnorderedRecv(c', ds + [d])
    ensures OrderedRecv(c, ds) && c'.nextRecv == c.nextRecv + 1 && c'.receipts == c.receipts && d.packet.seq_ == c.nextRecv ==>
              OrderedRecv(c', ds + [d])
  {
    DeliveredSeqsAppend(ds, d);
    forall i | 0 <= i < |ds| ensures ds[i].packet.seq_ != d.packet.seq_ {
      assert ds[i] in ds;
    }
  }

  lemma RecvKeepsRecv(env: Env, k: ChanKey, c: Channel, t: ChanTrace, d: Delivery, c': Channel)
    requires RecvInv(env, k, c, t) && t.wasOpen && c.end.ordering != NoOrder
    requires d.packet.seq_ !in DeliveredSeqs(t.delivered)
    requires c' == Received(env, c, d.packet, d.ack) && DeliveredOk(env, k, c', d)
    requires c.end.ordering == Ordered ==> d.packet.seq_ == c.nextRecv
    ensures RecvInv(env, k, c', t.(delivered := t.delivered + [d]))
  {
    DeliveriesStayOk(env, k, c, t, d, c');
    RecordDelivery(c, t.delivered, d, c');
  }

  lemma FreshAck(env: Env, k: ChanKey, c: Channel, t: ChanTrace, n: nat)
    requires RecvInv(env, k, c, t) && n !in DeliveredSeqs(t.delivered)
    ensures n !in c.acks
  {
    hide DeliveredSeqs, DeliveredOk, UnorderedRecv, OrderedRecv;
  }

  lemma RecvKeeps(env: Env, s: Store, k: ChanKey, c: Channel, t: ChanTrace, d: Delivery)
    requires ChanInv(env, s, k, c, t)
    requires d.packet.dst == k && c.end.state == Open && c.end.remote == RemoteOf(d.packet.src)
    requires PacketDecodes(d.packet) && !PacketTimedOut(d.packet, d.time, d.height)
    requires !AlreadyReceived(c, d.packet)
    requires c.end.ordering == Ordered ==> d.packet.seq_ <= c.nextRecv
    ensures ChanInv(env, s, k, Received(env, c, d.packet, d.ack), t.(delivered := t.delivered + [d]))
    ensures ChanExt(c, t, Received(env, c, d.packet, d.ack), t.(delivered := t.delivered + [d]))
  {
    hide SendInv, RecvInv, AcksInOrder, DeliveredSeqs;
    var c', t' := Received(env, c, d.packet, d.ack), t.(delivered := t.delivered + [d]);
    FreshSequence(env, k, c, t, d.packet);
    RecvKeepsRecv(env, k, c, t, d, c');
    SendsUnchanged(env, k, c, t, c', t');
    FreshAck(env, k, c, t, d.packet.seq_);
  }

  lemma SendsUnchanged(env: Env, k: ChanKey, c: Channel, t: ChanTrace, c': Channel, t': ChanTrace)
    requires SendInv(env, k, c, t)
    requires c'.commitments == c.commitments && c'.nextSend == c.nextSend
    requires c.end.remote.channelId.Some? ==> c'.end.remote == c.end.remote
    requires t'.sent == t.sent && t'.resolved == t.resolved && (t.wasOpen ==> t'.wasOpen)
    ensures SendInv(env, k, c', t')
  {
    forall i | 0 <= i < |t'.sent| ensures SentOk(k, c'.end, t'.sent[i], i) {
      assert SentOk(k, c.end, t.sent[i], i);
    }
    forall j | 0 <= j < |t'.resolved| ensures ResolvedOk(t', t'.resolved[j]) {
      assert ResolvedOk(t, t.resolved[j]);
    }
  }

  lemma ReceivesUnchanged(env: Env, k: ChanKey, c: Channel, t: ChanTrace, c': Channel, t': ChanTrace)
    requires RecvInv(env, k, c, t)
    requires c'.acks == c.acks && c'.receipts == c.receipts && c'.nextRecv == c.nextRecv
    requires c'.end.ordering == c.end.ordering
    requires c.end.remote.channelId.Some? ==> c'.end.remote == c.end.remote
    requires t'.delivered == t.delivered && (t.wasOpen ==> t'.wasOpen)
    ensures RecvInv(env, k, c', t')
  {
    forall i | 0 <= i < |t'.delivered| ensures DeliveredOk(env, k, c', t'.delivered[i]) {
      assert DeliveredOk(env, k, c, t.delivered[i]);
    }
  }

  /** A message naming a live commitment carries exactly the packet that was sent. */
  lemma CommitmentNamesPacket(env: Env, s: Store, k: ChanKey, c: Channel, t: ChanTrace, p: Packet)
    requires Injective(env.hash) && ChanInv(env, s, k, c, t)
    requires p.src == k && c.end.remote == RemoteOf(p.dst) && PacketTypesOk(p)
    requires p.seq_ in c.commitments && c.commitments[p.seq_] == Commit(env, p)
    ensures 1 <= p.seq_ <= |t.sent| && t.sent[p.seq_ - 1] == p
  {
    var q := t.sent[p.seq_ - 1];
    assert SentOk(k, c.end, q, p.seq_ - 1);
    EqualCommitments(env.hash, p.data, p.timeoutHeight, p.timeoutTimestamp, q.data, q.timeoutHeight, q.timeoutTimestamp);
  }

  /** Clearing a commitment and recording why keeps the send side in order. */
  lemma ResolveKeepsSend(env: Env, k: ChanKey, c: Channel, t: ChanTrace, r: Resolution, c': Channel)
    requires SendInv(env, k, c, t) && ResolvedOk(t, r) && r.packet.seq_ in c.commitments
    requires c'.nextSend == c.nextSend && c'.end.remote == c.end.remote
    requires c'.commitments == c.commitments - {r.packet.seq_}
    ensures SendInv(env, k, c', t.(resolved := t.resolved + [r]))
  {
    hide Commit, PacketTypesOk, RemoteOf, ResolvedSeqs;
    var t' := t.(resolved := t.resolved + [r]);
    ResolvedSeqsAppend(t.resolved, r);
    forall i | 0 <= i < |t.resolved| ensures t.resolved[i].packet.seq_ != r.packet.seq_ {
      ResolvedMentioned(t.resolved, i);
    }
    forall i | 0 <= i < |t'.sent| ensures SentOk(k, c'.end, t'.sent[i], i) {
      assert SentOk(k, c.end, t.sent[i], i);
    }
    forall j | 0 <= j < |t'.resolved| ensures ResolvedOk(t', t'.resolved[j]) {
      if j < |t.resolved| { assert ResolvedOk(t, t.resolved[j]); }
    }
  }

  lemma AcksInOrderAppend(rs: seq<Resolution>, n: nat, r: Resolution)
    requires AcksInOrder(rs, n)
    ensures AcksInOrder(rs + [r], n)
    ensures r.Acked? && r.packet.seq_ == n + 1 && |rs| == n ==> AcksInOrder(rs + [r], n + 1)
  {
  }

  /** Only the resolved callbacks and the commitments move. */
  lemma ResolveExt(c: Channel, t: ChanTrace, c': Channel, r: Resolution)
    requires EndExt(c.end, c'.end) && c'.acks == c.acks && c'.receipts == c.receipts && c'.nextRecv == c.nextRecv
    requires c.end.state == Closed ==> r.TimedOut? && r.onClose
    ensures ChanExt(c, t, c', t.(resolved := t.resolved + [r]))
  {
  }

  lemma AckKeeps(env: Env, s: Store, k: ChanKey, c: Channel, t: ChanTrace, r: Resolution)
    requires ChanInv(env, s, k, c, t)
    requires r.Acked? && ResolvedOk(t, r)
    requires c.end.state == Open && r.packet.seq_ in c.commitments
    requires c.end.ordering == Ordered ==> r.packet.seq_ == c.nextAck
    ensures ChanInv(env, s, k, AckedChannel(c, r.packet), t.(resolved := t.resolved + [r]))
    ensures ChanExt(c, t, AckedChannel(c, r.packet), t.(resolved := t.resolved + [r]))
  {
    hide SendInv, RecvInv, ResolvedOk;
    var c', t' := AckedChannel(c, r.packet), t.(resolved := t.resolved + [r]);
    ResolveKeepsSend(env, k, c, t, r, c');
    ReceivesUnchanged(env, k, c, t, c', t');
    ResolveExt(c, t, c', r);
    assert AckOrderInv(c', t') by {
      if c.end.ordering == Ordered { AcksInOrderAppend(t.resolved, c.nextAck - 1, r); }
    }
  }

  lemma TimeoutKeeps(env: Env, s: Store, k: ChanKey, c: Channel, t: ChanTrace, r: Resolution)
    requires ChanInv(env, s, k, c, t)
    requires r.TimedOut? && ResolvedOk(t, r)
    requires r.packet.seq_ in c.commitments
    requires c.end.remote.channelId.Some? && (c.end.state == Closed ==> r.onClose)
    ensures ChanInv(env, s, k, TimedOutChannel(c, r.packet), t.(resolved := t.resolved + [r]))
    ensures ChanExt(c, t, TimedOutChannel(c, r.packet), t.(resolved := t.resolved + [r]))
  {
    hide SendInv, RecvInv, ResolvedOk;
    var c', t' := TimedOutChannel(c, r.packet), t.(resolved := t.resolved + [r]);
    ResolveKeepsSend(env, k, c, t, r, c');
    ReceivesUnchanged(env, k, c, t, c', t');
    ResolveExt(c, t, c', r);
    assert AckOrderInv(c', t') by {
      if c.end.ordering == Ordered { AcksInOrderAppend(t.resolved, c.nextAck - 1, r); }
    }
  }

  /** Changing only the end: opening or closing a channel. */
  lemma EndKeeps(env: Env, s: Store, k: ChanKey, c: Channel, t: ChanTrace, e: ChannelEnd, t': ChanTrace)
    requires ChanInv(env, s, k, c, t) && EndExt(c.end, e) && ChanShape(s, e, t')
    requires t' == t.(wasOpen := t'.wasOpen) && (t.wasOpen ==> t'.wasOpen)
    ensures ChanInv(env, s, k, c.(end := e), t')
    ensures ChanExt(c, t, c.(end := e), t')
  {
    SendsUnchanged(env, k, c, t, c.(end := e), t');
    ReceivesUnchanged(env, k, c, t, c.(end := e), t');
  }

  lemma FreshInv(env: Env, s: Store, k: ChanKey, e: ChannelEnd)
    requires ChanShape(s, e, NO_TRACE)
    ensures ChanInv(env, s, k, FreshChannel(e), NO_TRACE)
  {
  }

  lemma SameConnections(env: Env, s: Store, s': Store, k: ChanKey, c: Channel, t: ChanTrace)
    requires ChanInv(env, s, k, c, t) && s'.connections == s.connections
    ensures ChanInv(env, s', k, c, t)
  {
    hide SendInv, RecvInv, AckOrderInv;
  }

  /** A channel's relation to its history does not mind connections being added or advancing. */
  lemma OtherStore(env: Env, s: Store, s': Store, k: ChanKey, c: Channel, t: ChanTrace)
    requires ChanInv(env, s, k, c, t)
    requires forall i :: i in s.connections ==> i in s'.connections && ConnExt(s.connections[i], s'.connections[i])
    ensures ChanInv(env, s', k, c, t)
  {
  }
}
