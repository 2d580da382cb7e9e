/** Across the two chains: vouchers in circulation and coins in flight are exactly what the escrow holds. */
module Conservation {
  import opened Heights
  import opened Paths
  import opened Denoms
  import opened IbcStore
  import opened Transfer
  import opened Connections
  import opened Packets
  import opened Dispatch
  import opened World
  import opened Invariants
  import opened Preservation
  import opened Runs
  import opened Safety
  import opened Accounting

  // ---------------------------------------------------------------- splitting a sum over packets

  /** The packets of `ps` that are not among `settled`. */
  ghost function Unsettled(ps: seq<Packet>, settled: seq<Packet>): seq<Packet> {
    if |ps| == 0 then []
    else
      var rest, p := Unsettled(ps[..|ps| - 1], settled), ps[|ps| - 1];
      if p in settled then rest else rest + [p]
  }

  ghost predicate AllDifferent(ps: seq<Packet>) { forall i, j :: 0 <= i < j < |ps| ==> ps[i] != ps[j] }

  lemma {:induction false} SumConcat(env: Env, dir: Direction, d: Denom, ps: seq<Packet>, qs: seq<Packet>)
    ensures Sum(env, dir, d, ps + qs) == Sum(env, dir, d, ps) + Sum(env, dir, d, qs)
    decreases |qs|
  {
    if |qs| == 0 {
      assert ps + qs == ps;
    } else {
      var rest, q := qs[..|qs| - 1], qs[|qs| - 1];
      SumConcat(env, dir, d, ps, rest);
      SumAppend(env, dir, d, ps + rest, q);
      assert ps + qs == ps + rest + [q];
    }
  }

  lemma {:induction false} SumBound(env: Env, dir: Direction, d: Denom, ps: seq<Packet>, p: Packet)
    requires p in ps
    ensures Amount(env, dir, d, p) <= Sum(env, dir, d, ps)
    decreases |ps|
  {
    if p != ps[|ps| - 1] { SumBound(env, dir, d, ps[..|ps| - 1], p); }
  }

  lemma {:induction false} UnsettledMembers(ps: seq<Packet>, settled: seq<Packet>, p: Packet)
    ensures p in Unsettled(ps, settled) <==> p in ps && p !in settled
    decreases |ps|
  {
    if |ps| > 0 {
      UnsettledMembers(ps[..|ps| - 1], settled, p);
      assert ps == ps[..|ps| - 1] + [ps[|ps| - 1]];
    }
  }

  lemma {:induction false} NothingSettled(ps: seq<Packet>)
    ensures Unsettled(ps, []) == ps
    decreases |ps|
  {
    if |ps| > 0 {
      NothingSettled(ps[..|ps| - 1]);
      assert ps == ps[..|ps| - 1] + [ps[|ps| - 1]];
    }
  }

  lemma DifferentRest(ps: seq<Packet>)
    requires AllDifferent(ps) && |ps| > 0
    ensures var rest, p := ps[..|ps| - 1], ps[|ps| - 1]; AllDifferent(rest) && p !in rest && forall q :: q in ps <==> q in rest || q == p
  {
    assert ps == ps[..|ps| - 1] + [ps[|ps| - 1]];
  }

  /** Settling one more packet takes exactly its amount off what is unsettled. */
  lemma {:induction false} SettleOne(env: Env, dir: Direction, d: Denom, ps: seq<Packet>, settled: seq<Packet>, q: Packet)
    requires AllDifferent(ps) && q !in settled
    ensures Sum(env, dir, d, Unsettled(ps, settled)) ==
            Sum(env, dir, d, Unsettled(ps, settled + [q])) + if q in ps then Amount(env, dir, d, q) else 0
    decreases |ps|
  {
    if |ps| > 0 {
      var rest, p := ps[..|ps| - 1], ps[|ps| - 1];
      hide Amount, Sum, AllDifferent;
      DifferentRest(ps);
      SettleOne(env, dir, d, rest, settled, q);
      SumAppend(env, dir, d, Unsettled(rest, settled), p);
      SumAppend(env, dir, d, Unsettled(rest, settled + [q]), p);
    }
  }

  /** What was sent is what is settled plus what is not. */
  lemma {:induction false} SplitSum(env: Env, dir: Direction, d: Denom, ps: seq<Packet>, settled: seq<Packet>)
    requires AllDifferent(ps) && AllDifferent(settled) && forall q :: q in settled ==> q in ps
    ensures Sum(env, dir, d, ps) == Sum(env, dir, d, settled) + Sum(env, dir, d, Unsettled(ps, settled))
    decreases |settled|
  {
    if |settled| == 0 {
      NothingSettled(ps);
    } else {
      var rest, q := settled[..|settled| - 1], settled[|settled| - 1];
      assert settled == rest + [q];
      SplitSum(env, dir, d, ps, rest);
      SettleOne(env, dir, d, ps, rest, q);
    }
  }

  // ---------------------------------------------------------------- refunded and arrived packets

  lemma {:induction false} RefundedFrom(env: Env, rs: seq<Resolution>, p: Packet) returns (r: Resolution)
    requires p in Refunded(env, rs)
    ensures r in rs && Refunds(env, r) && r.packet == p
    decreases |rs|
  {
    r := rs[|rs| - 1];
    if !(Refunds(env, r) && r.packet == p) { r := RefundedFrom(env, rs[..|rs| - 1], p); }
  }

  lemma {:induction false} PaidOutFrom(env: Env, ds: seq<Delivery>, p: Packet) returns (e: Delivery)
    requires p in PaidOut(env, ds)
    ensures e in ds && Succeeds(env, e) && e.packet == p
    decreases |ds|
  {
    e := ds[|ds| - 1];
    if !(Succeeds(env, e) && e.packet == p) { e := PaidOutFrom(env, ds[..|ds| - 1], p); }
  }

  lemma {:induction false} RefundedDifferent(env: Env, rs: seq<Resolution>)
    requires forall i, j :: 0 <= i < j < |rs| ==> rs[i].packet.seq_ != rs[j].packet.seq_
    ensures AllDifferent(Refunded(env, rs))
    decreases |rs|
  {
    if |rs| > 0 {
      var rest, r := rs[..|rs| - 1], rs[|rs| - 1];
      RefundedDifferent(env, rest);
      if r.packet in Refunded(env, rest) {
        var r' := RefundedFrom(env, rest, r.packet);
        assert false;
      }
    }
  }

  lemma {:induction false} PaidOutDifferent(env: Env, ds: seq<Delivery>)
    requires DistinctDeliveries(ds)
    ensures AllDifferent(PaidOut(env, ds))
    decreases |ds|
  {
    if |ds| > 0 {
      var rest, e := ds[..|ds| - 1], ds[|ds| - 1];
      PaidOutDifferent(env, rest);
      if e.packet in PaidOut(env, rest) {
        var e' := PaidOutFrom(env, rest, e.packet);
        assert false;
      }
    }
  }

  lemma ConcatDifferent(ps: seq<Packet>, qs: seq<Packet>)
    requires AllDifferent(ps) && AllDifferent(qs) && forall q :: q in qs ==> q !in ps
    ensures AllDifferent(ps + qs)
  {
    var rs := ps + qs;
    forall i, j | 0 <= i < j < |rs| ensures rs[i] != rs[j] {
      if i < |ps| <= j { assert rs[j] == qs[j - |ps|] && qs[j - |ps|] in qs && rs[i] in ps; }
    }
  }

  // ---------------------------------------------------------------- one direction of one channel

  /** The packets of channel `k` whose coins are neither back with the sender nor paid out at the other end. */
  ghost function InFlight(env: Env, x: Node, k: ChanKey, y: Node, j: ChanKey): seq<Packet> {
    Unsettled(TraceAt(x.traces, k).sent, Settled(env, x, k, y, j))
  }

  ghost function Settled(env: Env, x: Node, k: ChanKey, y: Node, j: ChanKey): seq<Packet> {
    Refunded(env, TraceAt(x.traces, k).resolved) + PaidOut(env, TraceAt(y.traces, j).delivered)
  }

  lemma SentDifferent(env: Env, x: Node, k: ChanKey)
    requires LocalInv(env, x) && k in x.store.channels
    ensures AllDifferent(TraceAt(x.traces, k).sent)
  {
    hide LocalInv, RecvInv, AckOrderInv, ChanShape, ResolvedOk;
    ChannelFacts(env, x, k);
    var t := TraceAt(x.traces, k);
    forall a, b | 0 <= a < b < |t.sent| ensures t.sent[a] != t.sent[b] {
      assert SentOk(k, x.store.channels[k].end, t.sent[a], a) && SentOk(k, x.store.channels[k].end, t.sent[b], b);
    }
  }

  lemma ArrivedWasSent(env: Env, x: Node, y: Node, k: ChanKey, j: ChanKey, e: Delivery)
    requires Both(env, x, y) && Partners(x, k, y, j) && e in TraceAt(y.traces, j).delivered
    ensures e.packet.src == k && e.packet in TraceAt(x.traces, k).sent && SentBy(x.traces, e.packet)
  {
    hide LocalInv, PeerInv, Contracts, PacketTimedOut, PeerAgrees;
    DeliveredIsSent(env, x, y, j, e);
    assert RemoteOf(e.packet.src) == RemoteOf(k);
  }

  /** No packet is both refunded to its sender and paid out at the other end. */
  lemma NotRefundedAndArrived(env: Env, x: Node, y: Node, k: ChanKey, j: ChanKey, r: Resolution, e: Delivery)
    requires Both(env, x, y) && Partners(x, k, y, j)
    requires r in TraceAt(x.traces, k).resolved && Refunds(env, r)
    requires e in TraceAt(y.traces, j).delivered && Succeeds(env, e)
    ensures r.packet != e.packet
  {
    hide LocalInv, PeerInv, Contracts, Tracked, PacketTimedOut;
    PartnersTracked(x, k, y, j);
    if r.packet == e.packet {
      var i :| 0 <= i < |TraceAt(y.traces, j).delivered| && TraceAt(y.traces, j).delivered[i] == e;
      if r.TimedOut? {
        ArrivedWasSent(env, x, y, k, j, e);
        ExclusiveCore(env, x, y, k, r, j, i);
      } else {
        ResolvedFacts(env, x, k, r);
        var e' := AckCore(env, x, y, k, r);
        SameDelivery(env, y, j, e, e');
      }
      assert false;
    }
  }

  lemma PartnersTracked(x: Node, k: ChanKey, y: Node, j: ChanKey)
    requires Partners(x, k, y, j)
    ensures k in x.store.channels && j in y.store.channels && Tracked(x, k) && Tracked(y, j)
  {
  }

  lemma SameDelivery(env: Env, y: Node, j: ChanKey, e: Delivery, e': Delivery)
    requires LocalInv(env, y) && j in y.store.channels
    requires e in TraceAt(y.traces, j).delivered && e' in TraceAt(y.traces, j).delivered && e.packet.seq_ == e'.packet.seq_
    ensures e == e'
  {
    hide LocalInv;
    DistinctDeliveriesCore(env, y, j);
  }

  lemma SettledFacts(env: Env, x: Node, y: Node, k: ChanKey, j: ChanKey)
    requires Both(env, x, y) && Partners(x, k, y, j)
    ensures AllDifferent(Settled(env, x, k, y, j))
    ensures forall q :: q in Settled(env, x, k, y, j) ==> q in TraceAt(x.traces, k).sent
  {
    hide LocalInv, PeerInv, Contracts, Tracked, Refunded, PaidOut, Succeeds, Refunds, AllDifferent, TraceAt;
    PartnersTracked(x, k, y, j);
    var rs, ds := TraceAt(x.traces, k).resolved, TraceAt(y.traces, j).delivered;
    ResolvedExactlyCore(env, x, k);
    RefundedDifferent(env, rs);
    DistinctDeliveriesCore(env, y, j);
    PaidOutDifferent(env, ds);
    forall q | q in Refunded(env, rs) ensures q in TraceAt(x.traces, k).sent {
      var r := RefundedFrom(env, rs, q);
    }
    forall q | q in PaidOut(env, ds) ensures q in TraceAt(x.traces, k).sent && q !in Refunded(env, rs) {
      var e := PaidOutFrom(env, ds, q);
      ArrivedWasSent(env, x, y, k, j, e);
      if q in Refunded(env, rs) {
        var r := RefundedFrom(env, rs, q);
        NotRefundedAndArrived(env, x, y, k, j, r, e);
        assert false;
      }
    }
    ConcatDifferent(Refunded(env, rs), PaidOut(env, ds));
  }

  /** Everything sent on a channel has been refunded, has arrived, or is in flight; nothing is counted twice. */
  lemma FlowSplits(env: Env, x: Node, y: Node, k: ChanKey, j: ChanKey, dir: Direction, d: Denom)
    requires Both(env, x, y) && Partners(x, k, y, j)
    ensures Sum(env, dir, d, TraceAt(x.traces, k).sent) ==
              Sum(env, dir, d, Refunded(env, TraceAt(x.traces, k).resolved))
              + Sum(env, dir, d, PaidOut(env, TraceAt(y.traces, j).delivered))
              + Sum(env, dir, d, InFlight(env, x, k, y, j))
  {
    hide LocalInv, PeerInv, Contracts, Tracked, Sum, Refunded, PaidOut, Unsettled;
    PartnersTracked(x, k, y, j);
    SentDifferent(env, x, k);
    SettledFacts(env, x, y, k, j);
    SplitSum(env, dir, d, TraceAt(x.traces, k).sent, Settled(env, x, k, y, j));
    SumConcat(env, dir, d, Refunded(env, TraceAt(x.traces, k).resolved), PaidOut(env, TraceAt(y.traces, j).delivered));
  }

  // ---------------------------------------------------------------- the conservation law

  /** Partner channels of the two transfer modules. */
  ghost predicate TransferPartners(x: Node, k: ChanKey, y: Node, j: ChanKey) {
    Partners(x, k, y, j) && k.port == x.store.config.transferPort && j.port == y.store.config.transferPort
  }

  lemma PartnersBothWays(x: Node, k: ChanKey, y: Node, j: ChanKey)
    requires TransferPartners(x, k, y, j)
    ensures TransferPartners(y, j, x, k) && Partners(x, k, y, j) && Partners(y, j, x, k)
    ensures k.port == x.store.config.transferPort && j.port == y.store.config.transferPort
  {
  }

  ghost predicate Conserved(env: Env, x: Node, k: ChanKey, y: Node, j: ChanKey, d: Denom) {
    Balance(x.store.ledger, d, EscrowOf(k)) ==
      Supply(y.store.ledger, AddTracePrefix(d, j))
      + Sum(env, Forward, d, InFlight(env, x, k, y, j))
      + Sum(env, Homeward, d, InFlight(env, y, j, x, k))
  }

  lemma ConservedCore(env: Env, x: Node, y: Node, k: ChanKey, j: ChanKey, d: Denom)
    requires Both(env, x, y) && Both(env, y, x) && BooksOf(env, x) && BooksOf(env, y) && TransferPartners(x, k, y, j)
    ensures Conserved(env, x, k, y, j, d)
  {
    hide Both, Partners, Sum, Refunded, PaidOut, InFlight, Balance, Supply;
    PartnersBothWays(x, k, y, j);
    FlowSplits(env, x, y, k, j, Forward, d);
    FlowSplits(env, y, x, j, k, Homeward, d);
    assert Balanced(env, x.store.ledger, k, Booked(x.store.config.transferPort, x.traces, k), d);
    assert Balanced(env, y.store.ledger, j, Booked(y.store.config.transferPort, y.traces, j), d);
  }

  lemma LiveBooks(env: Env, w: Pair, x: Node, y: Node)
    requires Live(env, w, x, y) && CodecFaithful(env)
    ensures BooksOf(env, x) && BooksOf(env, y) && Both(env, x, y) && Both(env, y, x)
  {
    hide Contracts, CodecFaithful, Reachable, BooksOf, Both;
    BooksAlwaysBalance(env, w);
    LiveBoth(env, w, x, y);
    LiveBoth(env, w, y, x);
  }

  /**
   In every reachable state and for every denomination, the escrow of a transfer channel holds exactly the vouchers
   in circulation at the other end plus what is in flight either way.
   */
  lemma EscrowBacksVouchers(env: Env, w: Pair, x: Node, y: Node, k: ChanKey, j: ChanKey, d: Denom)
    requires Live(env, w, x, y) && CodecFaithful(env) && TransferPartners(x, k, y, j)
    ensures Conserved(env, x, k, y, j, d)
  {
    hide *;
    LiveBooks(env, w, x, y);
    ConservedCore(env, x, y, k, j, d);
  }

  // ---------------------------------------------------------------- transfer packets can always be read

  ghost predicate Decodable(env: Env, port: string, t: Traces) {
    forall k: ChanKey, p :: k.port == port && p in TraceAt(t, k).sent ==> Decode(env, p.data).Some?
  }

  ghost predicate DecodableOf(env: Env, x: Node) { Decodable(env, x.store.config.transferPort, x.traces) }

  lemma RecordDecodable(env: Env, port: string, t: Traces, note: Note, height: Height, time: nat)
    requires Decodable(env, port, t)
    requires note.SentNote? && note.packet.src.port == port ==> Decode(env, note.packet.data).Some?
    ensures Decodable(env, port, Record(t, note, height, time))
  {
    var t' := Record(t, note, height, time);
    hide Decode;
    forall k: ChanKey, p | k.port == port && p in TraceAt(t', k).sent ensures Decode(env, p.data).Some? {
      assert p in TraceAt(t, k).sent || (note.SentNote? && note.packet == p);
    }
  }

  lemma OnlySendsAreNoted(env: Env, s: Store, host: Host, m: Msg, reply: Reply)
    ensures var out := Handle(env, s, host, m, reply); out.Done? ==> !out.note.SentNote? && out.store.config == s.config
  {
    hide RecvValid, AckValid, TimeoutValid, TimeoutOnCloseValid, HandleChannel, HandleClient, HandleConnection, OnRecv, OnAck, OnTimeout,
         Received, AckedChannel, TimedOutChannel, AlreadyReceived;
    if !m.Pkt? && Handle(env, s, host, m, reply).Done? { SameMoney(env, s, host, m, reply); }
    else if m.Pkt? && m.packetMsg.MsgRecv? && Handle(env, s, host, m, reply).Done? { RecvTarget(env, s, host, m.packetMsg); }
  }

  lemma MsgTransferDecodes(env: Env, s: Store, host: Host, k: ChanKey, text: PacketText, th: TimeoutHeight, ts: Timestamp, reply: Reply)
    requires CodecFaithful(env)
    ensures var out := HandleMsgTransfer(env, s, host, k, text, th, ts, reply);
            out.Done? ==> out.store.config == s.config && Decode(env, out.note.packet.data) == ReadText(env, text)
  {
    hide SendValid, TakeCoins, ReadText, Decode, Encode, ValidPortId, ValidChannelId;
    if MsgTransferReads(env, k, text, th, ts) { ReadDecodes(env, text); }
  }

  lemma StepDecodable(env: Env, x: Node, l: Label)
    requires CodecFaithful(env) && DecodableOf(env, x)
    ensures DecodableOf(env, Step(env, x, l))
  {
    hide Handle, HandleMsgTransfer, Decodable, Record, SendValid, Decode, ReadText, CodecFaithful, Move, Credit;
    var port := x.store.config.transferPort;
    match l
    case Dispatched(m, reply, own) =>
      OnlySendsAreNoted(env, x.store, HostOf(x, own), m, reply);
      var out := Handle(env, x.store, HostOf(x, own), m, reply);
      if out.Done? { RecordDecodable(env, port, x.traces, out.note, x.height, x.time); }
    case SendPacket(p) =>
      if HandleSend(env, x.store, HostOf(x, map[]), p).Done? {
        RecordDecodable(env, port, x.traces, SentNote(p, false), x.height, x.time);
      }
    case SendTransfer(k, text, th, ts, reply) =>
      var out := HandleMsgTransfer(env, x.store, HostOf(x, map[]), k, text, th, ts, reply);
      MsgTransferDecodes(env, x.store, HostOf(x, map[]), k, text, th, ts, reply);
      MsgTransferReadable(env, x.store, HostOf(x, map[]), k, text, th, ts, reply);
      if out.Done? { RecordDecodable(env, port, x.traces, out.note, x.height, x.time); }
    case Pay(_, _, _, _) =>
    case IssueNative(_, _, _) =>
    case NewBlock(_, _) =>
    case CommitBlock =>
  }

  lemma MsgTransferReadable(env: Env, s: Store, host: Host, k: ChanKey, text: PacketText, th: TimeoutHeight, ts: Timestamp, reply: Reply)
    ensures HandleMsgTransfer(env, s, host, k, text, th, ts, reply).Done? ==> ReadText(env, text).Some?
  {
    hide ReadText, HandleSendTransfer;
  }

  lemma {:induction false} RunDecodable(env: Env, w: Pair, es: seq<Event>)
    requires CodecFaithful(env) && DecodableOf(env, w.a) && DecodableOf(env, w.b)
    ensures DecodableOf(env, Run(env, w, es).a) && DecodableOf(env, Run(env, w, es).b)
    decreases |es|
  {
    hide CodecFaithful, DecodableOf, Step;
    if |es| > 0 {
      match es[0] {
        case OnA(l) => StepDecodable(env, w.a, l);
        case OnB(l) => StepDecodable(env, w.b, l);
      }
      RunDecodable(env, Next(env, w, es[0]), es[1..]);
    }
  }

  lemma TransfersDecode(env: Env, w: Pair, x: Node, y: Node)
    requires Live(env, w, x, y) && CodecFaithful(env)
    ensures DecodableOf(env, x) && DecodableOf(env, y)
  {
    hide Contracts, CodecFaithful, RunAdmissible, Run;
    var w0: Pair, es: seq<Event> :| Genesis(w0.a) && Genesis(w0.b) && RunAdmissible(env, w0, es) && w == Run(env, w0, es);
    RunDecodable(env, w0, es);
  }
}
