/** The transfer module's books: every escrow and voucher balance is explained by the packets of its channel. */
module Accounting {
  import opened Prelude
  import opened Heights
  import opened Paths
  import opened Denoms
  import opened IbcStore
  import opened Transfer
  import opened Connections
  import opened Channels
  import opened Packets
  import opened Dispatch
  import opened World
  import opened Runs

  // ---------------------------------------------------------------- what packets carry

  /** Away from the chain where the coin is held in escrow, or back towards it. */
  datatype Direction = Forward | Homeward

  /** How much of `d` (as named on its own chain) packet `p` carries in the given direction. */
  function Amount(env: Env, dir: Direction, d: Denom, p: Packet): nat {
    var data := Decode(env, p.data);
    if data.None? then 0
    else match dir
         case Forward => if IsSenderChainSource(p.src, data.value.denom) && data.value.denom == d then data.value.amount else 0
         case Homeward =>
           if IsReceiverChainSource(p.src, data.value.denom) && RemoveTracePrefix(data.value.denom, p.src) == d
           then data.value.amount else 0
  }

  ghost function Sum(env: Env, dir: Direction, d: Denom, ps: seq<Packet>): nat {
    if |ps| == 0 then 0 else Sum(env, dir, d, ps[..|ps| - 1]) + Amount(env, dir, d, ps[|ps| - 1])
  }

  lemma SumAppend(env: Env, dir: Direction, d: Denom, ps: seq<Packet>, p: Packet)
    ensures Sum(env, dir, d, ps + [p]) == Sum(env, dir, d, ps) + Amount(env, dir, d, p)
  {
    assert (ps + [p])[..|ps|] == ps;
  }

  predicate Refunds(env: Env, r: Resolution) { r.TimedOut? || env.ackStatus(r.ack) == Some(false) }

  /** The packets whose coins went back to their sender. */
  ghost function Refunded(env: Env, rs: seq<Resolution>): seq<Packet> {
    if |rs| == 0 then []
    else
      var rest, r := Refunded(env, rs[..|rs| - 1]), rs[|rs| - 1];
      if Refunds(env, r) then rest + [r.packet] else rest
  }

  predicate Succeeds(env: Env, d: Delivery) { env.ackStatus(d.ack) == Some(true) }

  /** The packets whose coins were paid out at the receiving end. */
  ghost function PaidOut(env: Env, ds: seq<Delivery>): seq<Packet> {
    if |ds| == 0 then []
    else
      var rest, d := PaidOut(env, ds[..|ds| - 1]), ds[|ds| - 1];
      if Succeeds(env, d) then rest + [d.packet] else rest
  }

  lemma RefundedAppend(env: Env, rs: seq<Resolution>, r: Resolution)
    ensures Refunded(env, rs + [r]) == if Refunds(env, r) then Refunded(env, rs) + [r.packet] else Refunded(env, rs)
  {
    assert (rs + [r])[..|rs|] == rs;
  }

  lemma PaidOutAppend(env: Env, ds: seq<Delivery>, d: Delivery)
    ensures PaidOut(env, ds + [d]) == if Succeeds(env, d) then PaidOut(env, ds) + [d.packet] else PaidOut(env, ds)
  {
    assert (ds + [d])[..|ds|] == ds;
  }

  // ---------------------------------------------------------------- the books

  /** What the escrow account of a channel holds: sent away, less refunded, less come home. */
  ghost function EscrowBook(env: Env, t: ChanTrace, d: Denom): int {
    Sum(env, Forward, d, t.sent) - Sum(env, Forward, d, Refunded(env, t.resolved)) - Sum(env, Homeward, d, PaidOut(env, t.delivered))
  }

  /** The vouchers a channel has in circulation: arrived, plus refunded, less sent home. */
  ghost function VoucherBook(env: Env, t: ChanTrace, d: Denom): int {
    Sum(env, Forward, d, PaidOut(env, t.delivered)) + Sum(env, Homeward, d, Refunded(env, t.resolved)) - Sum(env, Homeward, d, t.sent)
  }

  ghost predicate Balanced(env: Env, l: Ledger, k: ChanKey, t: ChanTrace, d: Denom) {
    Balance(l, d, EscrowOf(k)) == EscrowBook(env, t, d) && Supply(l, AddTracePrefix(d, k)) == VoucherBook(env, t, d)
  }

  /** On another module's port only transfers sent from it count: its callbacks are not the transfer module's. */
  ghost function Booked(port: string, t: Traces, k: ChanKey): ChanTrace {
    if k.port == port then TraceAt(t, k) else NO_TRACE.(sent := TraceAt(t, k).transfers)
  }

  ghost predicate Books(env: Env, l: Ledger, port: string, t: Traces) {
    forall k, d :: Balanced(env, l, k, Booked(port, t, k), d)
  }

  ghost predicate BooksOf(env: Env, x: Node) { Books(env, x.store.ledger, x.store.config.transferPort, x.traces) }

  // ---------------------------------------------------------------- ledger operations

  /** Escrow `k` moves by `e` in denomination `d`; no supply changes. */
  ghost predicate EscrowShift(l: Ledger, l': Ledger, k: ChanKey, d: Denom, e: int) {
    && (forall k', d' :: Balance(l', d', EscrowOf(k')) == Balance(l, d', EscrowOf(k')) + if k' == k && d' == d then e else 0)
    && (forall d' :: Supply(l', d') == Supply(l, d'))
  }

  /** The supply of `d` moves by `v`; no escrow changes. */
  ghost predicate SupplyShift(l: Ledger, l': Ledger, d: Denom, v: int) {
    && (forall k', d' :: Balance(l', d', EscrowOf(k')) == Balance(l, d', EscrowOf(k')))
    && (forall d' :: Supply(l', d') == Supply(l, d') + if d' == d then v else 0)
  }

  lemma SetSupply(l: Ledger, d: Denom, h: Holder, amount: nat)
    ensures var l' := SetBalance(l, d, h, amount);
            && (forall d' :: Supply(l', d') == Supply(l, d') + if d' == d then amount - Balance(l, d, h) else 0)
            && (forall d', h' :: Balance(l', d', h') == if d' == d && h' == h then amount else Balance(l, d', h'))
  {
    hide SumMap;
    SumMapUpdate(Holders(l, d), h, amount);
  }

  lemma CreditUser(l: Ledger, d: Denom, a: Account, amount: nat)
    ensures SupplyShift(l, Credit(l, d, User(a), amount), d, amount)
  {
    hide Supply, Balance;
    SetSupply(l, d, User(a), Balance(l, d, User(a)) + amount);
  }

  lemma DebitUser(l: Ledger, d: Denom, a: Account, amount: nat)
    requires Debit(l, d, User(a), amount).Some?
    ensures SupplyShift(l, Debit(l, d, User(a), amount).value, d, 0 - amount)
  {
    hide Supply, Balance;
    SetSupply(l, d, User(a), Balance(l, d, User(a)) - amount);
  }

  lemma MoveSupply(l: Ledger, d: Denom, from: Holder, to: Holder, amount: nat)
    requires Move(l, d, from, to, amount).Some?
    ensures var l' := Move(l, d, from, to, amount).value;
            && (forall d' :: Supply(l', d') == Supply(l, d'))
            && (forall d', h' :: Balance(l', d', h') == Balance(l, d', h')
                                 - (if d' == d && h' == from then amount else 0) + (if d' == d && h' == to then amount else 0))
  {
    hide Supply, Balance, SetBalance;
    SetSupply(l, d, from, Balance(l, d, from) - amount);
    var mid := SetBalance(l, d, from, Balance(l, d, from) - amount);
    SetSupply(mid, d, to, Balance(mid, d, to) + amount);
  }

  lemma IntoEscrow(l: Ledger, d: Denom, a: Account, k: ChanKey, amount: nat)
    requires Move(l, d, User(a), EscrowOf(k), amount).Some?
    ensures EscrowShift(l, Move(l, d, User(a), EscrowOf(k), amount).value, k, d, amount)
  {
    hide Supply, Balance, Move;
    MoveSupply(l, d, User(a), EscrowOf(k), amount);
  }

  lemma OutOfEscrow(l: Ledger, d: Denom, k: ChanKey, a: Account, amount: nat)
    requires Move(l, d, EscrowOf(k), User(a), amount).Some?
    ensures EscrowShift(l, Move(l, d, EscrowOf(k), User(a), amount).value, k, d, 0 - amount)
  {
    hide Supply, Balance, Move;
    MoveSupply(l, d, EscrowOf(k), User(a), amount);
  }

  // ---------------------------------------------------------------- the three callbacks post one packet each

  /** Away at `k`: escrow grows by what leaves, vouchers shrink by what goes home. */
  ghost predicate PostsSend(env: Env, l: Ledger, l': Ledger, k: ChanKey, p: Packet) {
    && (forall k', d :: Balance(l', d, EscrowOf(k')) == Balance(l, d, EscrowOf(k')) + if k' == k then Amount(env, Forward, d, p) else 0)
    && (forall k', d :: Supply(l', AddTracePrefix(d, k')) ==
          Supply(l, AddTracePrefix(d, k')) - if k' == k then Amount(env, Homeward, d, p) else 0)
  }

  ghost predicate PostsArrival(env: Env, l: Ledger, l': Ledger, k: ChanKey, p: Packet) {
    && (forall k', d :: Balance(l', d, EscrowOf(k')) == Balance(l, d, EscrowOf(k')) - if k' == k then Amount(env, Homeward, d, p) else 0)
    && (forall k', d :: Supply(l', AddTracePrefix(d, k')) ==
          Supply(l, AddTracePrefix(d, k')) + if k' == k then Amount(env, Forward, d, p) else 0)
  }

  /** Removing a prefix that is there undoes adding it. */
  lemma PrefixUndone(d: Denom, c: Denom, k: ChanKey, k': ChanKey)
    requires IsReceiverChainSource(k, c)
    ensures AddTracePrefix(d, k') == c <==> k' == k && RemoveTracePrefix(c, k) == d
  {
    if k' == k && RemoveTracePrefix(c, k) == d {
      assert c.trace == c.trace[..|c.trace| - 1] + [k];
    }
    if AddTracePrefix(d, k') == c {
      assert c.trace[..|c.trace| - 1] == d.trace;
    }
  }

  lemma PrefixInjective(d: Denom, k: ChanKey, d': Denom, k': ChanKey)
    ensures AddTracePrefix(d, k) == AddTracePrefix(d', k') <==> d == d' && k == k'
  {
    if AddTracePrefix(d, k) == AddTracePrefix(d', k') {
      var t, t' := d.trace + [k], d'.trace + [k'];
      assert t[|t| - 1] == k && t'[|t'| - 1] == k';
      assert t[..|t| - 1] == d.trace && t'[..|t'| - 1] == d'.trace;
    }
  }

  /** Coins put in escrow post the send of a packet that leaves the source. */
  lemma EscrowPosts(env: Env, l: Ledger, l': Ledger, p: Packet, data: PacketData)
    requires Decode(env, p.data) == Some(data) && IsSenderChainSource(p.src, data.denom)
    requires EscrowShift(l, l', p.src, data.denom, data.amount)
    ensures PostsSend(env, l, l', p.src, p)
  {
    hide Supply, Balance, Decode, AddTracePrefix, RemoveTracePrefix, StartsWith;
  }

  /** Coins burnt post the send of a packet that goes home. */
  lemma BurnPosts(env: Env, l: Ledger, l': Ledger, p: Packet, data: PacketData)
    requires Decode(env, p.data) == Some(data) && IsReceiverChainSource(p.src, data.denom)
    requires SupplyShift(l, l', data.denom, 0 - data.amount)
    ensures PostsSend(env, l, l', p.src, p)
  {
    hide Supply, Balance, Decode, AddTracePrefix, RemoveTracePrefix, StartsWith;
    forall k', d
      ensures Supply(l', AddTracePrefix(d, k')) ==
              Supply(l, AddTracePrefix(d, k')) - if k' == p.src then Amount(env, Homeward, d, p) else 0
    {
      PrefixUndone(d, data.denom, p.src, k');
    }
  }

  lemma TakePosts(env: Env, l: Ledger, p: Packet, data: PacketData)
    requires Decode(env, p.data) == Some(data) && TakeCoins(l, p.src, data).Some?
    ensures PostsSend(env, l, TakeCoins(l, p.src, data).value, p.src, p)
  {
    hide Move, Debit, Decode, PostsSend, EscrowShift, SupplyShift, IsReceiverChainSource;
    if IsSenderChainSource(p.src, data.denom) {
      IntoEscrow(l, data.denom, data.sender, p.src, data.amount);
      EscrowPosts(env, l, TakeCoins(l, p.src, data).value, p, data);
    } else {
      DebitUser(l, data.denom, data.sender, data.amount);
      BurnPosts(env, l, TakeCoins(l, p.src, data).value, p, data);
    }
  }

  lemma EscrowShiftBack(l: Ledger, l': Ledger, k: ChanKey, d: Denom, e: nat)
    requires EscrowShift(l, l', k, d, 0 - e)
    ensures EscrowShift(l', l, k, d, e)
  {
    hide Supply, Balance;
  }

  lemma SupplyShiftBack(l: Ledger, l': Ledger, d: Denom, v: nat)
    requires SupplyShift(l, l', d, v)
    ensures SupplyShift(l', l, d, 0 - v)
  {
    hide Supply, Balance;
  }

  /** A refund posts the send backwards. */
  lemma RefundPosts(env: Env, l: Ledger, p: Packet, data: PacketData, accept: bool)
    requires Decode(env, p.data) == Some(data) && Refund(l, p, data, accept).Some?
    ensures PostsSend(env, Refund(l, p, data, accept).value, l, p.src, p)
  {
    hide Move, Credit, Decode, PostsSend, EscrowShift, SupplyShift, IsReceiverChainSource;
    var l' := Refund(l, p, data, accept).value;
    if IsSenderChainSource(p.src, data.denom) {
      OutOfEscrow(l, data.denom, p.src, data.sender, data.amount);
      EscrowShiftBack(l, l', p.src, data.denom, data.amount);
      EscrowPosts(env, l', l, p, data);
    } else {
      CreditUser(l, data.denom, data.sender, data.amount);
      SupplyShiftBack(l, l', data.denom, data.amount);
      BurnPosts(env, l', l, p, data);
    }
  }

  /** Coins paid out of escrow post the arrival of a packet that comes home. */
  lemma UnescrowPosts(env: Env, l: Ledger, l': Ledger, p: Packet, data: PacketData)
    requires Decode(env, p.data) == Some(data) && IsReceiverChainSource(p.src, data.denom)
    requires EscrowShift(l, l', p.dst, RemoveTracePrefix(data.denom, p.src), 0 - data.amount)
    ensures PostsArrival(env, l, l', p.dst, p)
  {
    hide Supply, Balance, Decode, AddTracePrefix, RemoveTracePrefix, StartsWith;
  }

  /** Coins minted post the arrival of a packet that has left its source. */
  lemma MintPosts(env: Env, l: Ledger, l': Ledger, p: Packet, data: PacketData)
    requires Decode(env, p.data) == Some(data) && IsSenderChainSource(p.src, data.denom)
    requires SupplyShift(l, l', AddTracePrefix(data.denom, p.dst), data.amount)
    ensures PostsArrival(env, l, l', p.dst, p)
  {
    hide Supply, Balance, Decode, AddTracePrefix, RemoveTracePrefix, StartsWith;
    forall k', d
      ensures Supply(l', AddTracePrefix(d, k')) ==
              Supply(l, AddTracePrefix(d, k')) + if k' == p.dst then Amount(env, Forward, d, p) else 0
    {
      PrefixInjective(d, k', data.denom, p.dst);
    }
  }

  lemma ReceivePosts(env: Env, l: Ledger, p: Packet, data: PacketData, accept: bool)
    requires Decode(env, p.data) == Some(data) && ProcessRecv(l, p, data, accept).Some?
    ensures PostsArrival(env, l, ProcessRecv(l, p, data, accept).value, p.dst, p)
  {
    hide Move, Credit, Decode, PostsArrival, EscrowShift, SupplyShift, AddTracePrefix, RemoveTracePrefix, StartsWith;
    if IsReceiverChainSource(p.src, data.denom) {
      OutOfEscrow(l, RemoveTracePrefix(data.denom, p.src), p.dst, data.receiver, data.amount);
      UnescrowPosts(env, l, ProcessRecv(l, p, data, accept).value, p, data);
    } else {
      CreditUser(l, AddTracePrefix(data.denom, p.dst), data.receiver, data.amount);
      MintPosts(env, l, ProcessRecv(l, p, data, accept).value, p, data);
    }
  }

  // ---------------------------------------------------------------- every step keeps the books

  /** The callbacks of a channel that its books depend on. */
  ghost predicate SameCallbacks(t: ChanTrace, t': ChanTrace) {
    t'.sent == t.sent && t'.delivered == t.delivered && t'.resolved == t.resolved
  }

  lemma BooksUnchanged(env: Env, l: Ledger, port: string, t: Traces, l': Ledger)
    requires Books(env, l, port, t)
    requires forall k, d :: Balance(l', d, EscrowOf(k)) == Balance(l, d, EscrowOf(k))
    requires forall k, d :: Supply(l', AddTracePrefix(d, k)) == Supply(l, AddTracePrefix(d, k))
    ensures Books(env, l', port, t)
  {
    hide Balance, Supply, Booked, AddTracePrefix, EscrowBook, VoucherBook;
    forall k, d ensures Balanced(env, l', k, Booked(port, t, k), d) {
      assert Balanced(env, l, k, Booked(port, t, k), d);
    }
  }

  /** Callbacks on other ports, and openings, leave the books alone. */
  lemma RecordElsewhere(env: Env, l: Ledger, port: string, t: Traces, note: Note, height: Height, time: nat)
    requires Books(env, l, port, t)
    requires match note
             case Quiet => true
             case OpenedNote(_) => true
             case DeliveredNote(p, _) => p.dst.port != port
             case SentNote(p, coins) => p.src.port != port && !coins
             case AckedNote(p, _, _) => p.src.port != port
             case TimedOutNote(p, _, _) => p.src.port != port
    ensures Books(env, l, port, Record(t, note, height, time))
  {
    var t' := Record(t, note, height, time);
    hide Balance, Supply, AddTracePrefix, EscrowBook, VoucherBook;
    forall k, d ensures Balanced(env, l, k, Booked(port, t', k), d) {
      assert Balanced(env, l, k, Booked(port, t, k), d);
      SameBook(env, Booked(port, t, k), Booked(port, t', k), d);
    }
  }

  lemma SameBook(env: Env, t: ChanTrace, t': ChanTrace, d: Denom)
    requires SameCallbacks(t, t')
    ensures EscrowBook(env, t', d) == EscrowBook(env, t, d) && VoucherBook(env, t', d) == VoucherBook(env, t, d)
  {
  }

  lemma BookAfterSend(env: Env, t: ChanTrace, p: Packet, d: Denom)
    ensures var t' := t.(sent := t.sent + [p]);
            && EscrowBook(env, t', d) == EscrowBook(env, t, d) + Amount(env, Forward, d, p)
            && VoucherBook(env, t', d) == VoucherBook(env, t, d) - Amount(env, Homeward, d, p)
  {
    hide Refunded, PaidOut, Amount, Sum;
    SumAppend(env, Forward, d, t.sent, p);
    SumAppend(env, Homeward, d, t.sent, p);
  }

  lemma BookAfterDelivery(env: Env, t: ChanTrace, e: Delivery, d: Denom)
    ensures var t' := t.(delivered := t.delivered + [e]);
            && EscrowBook(env, t', d) == EscrowBook(env, t, d) - (if Succeeds(env, e) then Amount(env, Homeward, d, e.packet) else 0)
            && VoucherBook(env, t', d) == VoucherBook(env, t, d) + (if Succeeds(env, e) then Amount(env, Forward, d, e.packet) else 0)
  {
    hide Refunded, PaidOut, Amount, Sum;
    PaidOutAppend(env, t.delivered, e);
    SumAppend(env, Forward, d, PaidOut(env, t.delivered), e.packet);
    SumAppend(env, Homeward, d, PaidOut(env, t.delivered), e.packet);
  }

  lemma BookAfterResolution(env: Env, t: ChanTrace, r: Resolution, d: Denom)
    ensures var t' := t.(resolved := t.resolved + [r]);
            && EscrowBook(env, t', d) == EscrowBook(env, t, d) - (if Refunds(env, r) then Amount(env, Forward, d, r.packet) else 0)
            && VoucherBook(env, t', d) == VoucherBook(env, t, d) + (if Refunds(env, r) then Amount(env, Homeward, d, r.packet) else 0)
  {
    hide Refunded, PaidOut, Amount, Sum;
    RefundedAppend(env, t.resolved, r);
    SumAppend(env, Forward, d, Refunded(env, t.resolved), r.packet);
    SumAppend(env, Homeward, d, Refunded(env, t.resolved), r.packet);
  }

  lemma SendBooks(env: Env, l: Ledger, port: string, t: Traces, p: Packet, l': Ledger, height: Height, time: nat)
    requires Books(env, l, port, t) && PostsSend(env, l, l', p.src, p)
    ensures Books(env, l', port, Record(t, SentNote(p, true), height, time))
  {
    var t' := Record(t, SentNote(p, true), height, time);
    hide Balance, Supply, EscrowBook, VoucherBook, AddTracePrefix, Amount;
    forall k, d ensures Balanced(env, l', k, Booked(port, t', k), d) {
      assert Balanced(env, l, k, Booked(port, t, k), d);
      var b := Booked(port, t, p.src);
      BookAfterSend(env, b, p, d);
      SameBook(env, b.(sent := b.sent + [p]), Booked(port, t', p.src), d);
    }
  }

  lemma ArrivalBooks(env: Env, l: Ledger, port: string, t: Traces, p: Packet, ack: Bytes, l': Ledger, height: Height, time: nat)
    requires Books(env, l, port, t) && p.dst.port == port
    requires if env.ackStatus(ack) == Some(true) then PostsArrival(env, l, l', p.dst, p) else l' == l
    ensures Books(env, l', port, Record(t, DeliveredNote(p, ack), height, time))
  {
    var t' := Record(t, DeliveredNote(p, ack), height, time);
    hide Balance, Supply, EscrowBook, VoucherBook, AddTracePrefix, Amount;
    forall k, d ensures Balanced(env, l', k, Booked(port, t', k), d) {
      assert Balanced(env, l, k, Booked(port, t, k), d);
      BookAfterDelivery(env, TraceAt(t, p.dst), Delivery(p, ack, height, time), d);
    }
  }

  lemma RefundBooks(env: Env, l: Ledger, port: string, t: Traces, r: Resolution, l': Ledger, t': Traces)
    requires Books(env, l, port, t) && r.packet.src.port == port
    requires var c := TraceAt(t, r.packet.src); t' == t[r.packet.src := c.(resolved := c.resolved + [r])]
    requires if Refunds(env, r) then PostsSend(env, l', l, r.packet.src, r.packet) else l' == l
    ensures Books(env, l', port, t')
  {
    hide Balance, Supply, EscrowBook, VoucherBook, AddTracePrefix, Amount, Refunds;
    forall k, d ensures Balanced(env, l', k, Booked(port, t', k), d) {
      assert Balanced(env, l, k, Booked(port, t, k), d);
      BookAfterResolution(env, TraceAt(t, r.packet.src), r, d);
    }
  }

  // ---------------------------------------------------------------- steps of a chain

  lemma RecvKeepsBooks(env: Env, x: Node, host: Host, m: PacketMsg, reply: Reply)
    requires CodecFaithful(env) && m.MsgRecv? && BooksOf(env, x)
    ensures BooksOf(env, Absorb(x, HandleRecv(env, x.store, host, m, reply)))
  {
    hide Books, Record, Received, RecvValid, PostsArrival, Decode;
    var out, p := HandleRecv(env, x.store, host, m, reply), m.packet;
    var l, port := x.store.ledger, x.store.config.transferPort;
    if out.Done? && out.note != Quiet {
      RecvTarget(env, x.store, host, m);
      if p.dst.port == port {
        var data := Decode(env, p.data);
        if data.Some? && ProcessRecv(l, p, data.value, reply.accept).Some? {
          ReceivePosts(env, l, p, data.value, reply.accept);
        }
        ArrivalBooks(env, l, port, x.traces, p, out.note.ack, out.store.ledger, x.height, x.time);
      } else {
        RecordElsewhere(env, l, port, x.traces, out.note, x.height, x.time);
      }
    } else {
      QuietRecord(x.traces, x.height, x.time);
    }
  }

  lemma QuietRecord(t: Traces, height: Height, time: nat)
    ensures Record(t, Quiet, height, time) == t
  {
  }

  lemma AckKeepsBooks(env: Env, x: Node, host: Host, m: PacketMsg, reply: Reply)
    requires m.MsgAck? && BooksOf(env, x)
    ensures BooksOf(env, Absorb(x, HandleAck(env, x.store, host, m, reply)))
  {
    hide Books, AckedChannel, AckValid, PostsSend, Refund, Decode;
    var out, p := HandleAck(env, x.store, host, m, reply), m.packet;
    var l, port := x.store.ledger, x.store.config.transferPort;
    if out.Done? && out.note != Quiet {
      AckTarget(env, x.store, host, m);
      if p.src.port == port {
        if env.ackStatus(m.ack) == Some(false) {
          RefundPosts(env, l, p, Decode(env, p.data).value, reply.accept);
        }
        RefundBooks(env, l, port, x.traces, Acked(p, m.ack, m.proofHeight), out.store.ledger,
                    Record(x.traces, out.note, x.height, x.time));
      } else {
        RecordElsewhere(env, l, port, x.traces, out.note, x.height, x.time);
      }
    } else {
      QuietRecord(x.traces, x.height, x.time);
    }
  }

  lemma AckTarget(env: Env, s: Store, host: Host, m: PacketMsg)
    requires m.MsgAck? && AckValid(env, s, host, m)
    ensures m.packet.src in s.channels
  {
  }

  lemma TimeoutKeepsBooks(env: Env, x: Node, host: Host, m: PacketMsg, reply: Reply)
    requires (m.MsgTimeout? || m.MsgTimeoutOnClose?) && BooksOf(env, x)
    ensures BooksOf(env, Absorb(x, HandleTimeout(env, x.store, host, m, reply)))
  {
    hide Books, TimedOutChannel, TimeoutValid, TimeoutOnCloseValid, PostsSend, Refund, Decode;
    var out, p := HandleTimeout(env, x.store, host, m, reply), m.packet;
    var l, port := x.store.ledger, x.store.config.transferPort;
    if out.Done? && out.note != Quiet {
      TimeoutTarget(env, x.store, host, m);
      if p.src.port == port {
        RefundPosts(env, l, p, Decode(env, p.data).value, reply.accept);
        RefundBooks(env, l, port, x.traces, TimedOut(p, m.proofHeight, m.MsgTimeoutOnClose?), out.store.ledger,
                    Record(x.traces, out.note, x.height, x.time));
      } else {
        RecordElsewhere(env, l, port, x.traces, out.note, x.height, x.time);
      }
    } else {
      QuietRecord(x.traces, x.height, x.time);
    }
  }

  lemma TimeoutTarget(env: Env, s: Store, host: Host, m: PacketMsg)
    requires (m.MsgTimeout? && TimeoutValid(env, s, host, m)) || (m.MsgTimeoutOnClose? && TimeoutOnCloseValid(env, s, host, m))
    ensures m.packet.src in s.channels
  {
  }

  /** Handshakes and client messages touch neither coins nor callbacks that move them. */
  lemma HandshakeKeepsBooks(env: Env, x: Node, host: Host, m: Msg, reply: Reply)
    requires !m.Pkt? && BooksOf(env, x)
    ensures BooksOf(env, Absorb(x, Handle(env, x.store, host, m, reply)))
  {
    hide Books, Record, ChanValid;
    var out := Handle(env, x.store, host, m, reply);
    if out.Done? {
      SameMoney(env, x.store, host, m, reply);
      RecordElsewhere(env, x.store.ledger, x.store.config.transferPort, x.traces, out.note, x.height, x.time);
    }
  }

  lemma SameMoney(env: Env, s: Store, host: Host, m: Msg, reply: Reply)
    requires !m.Pkt? && Handle(env, s, host, m, reply).Done?
    ensures var out := Handle(env, s, host, m, reply);
            && out.store.ledger == s.ledger && out.store.config == s.config
            && (out.note.Quiet? || out.note.OpenedNote?)
  {
    hide HandleClient, HandleConnection, ChanExec, ChanValid;
    match m
    case Client(c) => ClientSameMoney(env, s, host, c);
    case Conn(c) => ConnectionSameMoney(env, s, host, c);
    case Chan(c) => ChannelSameMoney(env, s, host, c, reply);
  }

  lemma ClientSameMoney(env: Env, s: Store, host: Host, m: ClientMsg)
    requires HandleClient(env, s, host, m).Some?
    ensures var s' := HandleClient(env, s, host, m).value; s'.ledger == s.ledger && s'.config == s.config
  {
  }

  lemma ConnectionSameMoney(env: Env, s: Store, host: Host, m: ConnMsg)
    requires HandleConnection(env, s, host, m).Some?
    ensures var s' := HandleConnection(env, s, host, m).value; s'.ledger == s.ledger && s'.config == s.config
  {
    hide ConnInitValid, ConnTryValid, ConnAckValid, ConnConfirmValid;
  }

  lemma ChannelSameMoney(env: Env, s: Store, host: Host, m: ChanMsg, reply: Reply)
    requires ChanValid(env, s, host, m, reply)
    ensures var s' := ChanExec(s, m, reply); s'.ledger == s.ledger && s'.config == s.config
  {
    hide Proven, ClientActive;
  }

  lemma SendKeepsBooks(env: Env, x: Node, host: Host, p: Packet)
    requires BooksOf(env, x)
    ensures BooksOf(env, Absorb(x, HandleSend(env, x.store, host, p)))
  {
    hide Books, Record, SendValid;
    if HandleSend(env, x.store, host, p).Done? {
      RecordElsewhere(env, x.store.ledger, x.store.config.transferPort, x.traces, SentNote(p, false), x.height, x.time);
    }
  }

  lemma TransferKeepsBooks(env: Env, x: Node, host: Host, k: ChanKey, text: PacketText, th: TimeoutHeight, ts: Timestamp, reply: Reply)
    requires CodecFaithful(env) && BooksOf(env, x)
    ensures BooksOf(env, Absorb(x, HandleMsgTransfer(env, x.store, host, k, text, th, ts, reply)))
  {
    hide Books, Record, SendValid, PostsSend, TakeCoins, ReadText, Decode, Encode, ValidPortId, ValidChannelId;
    if HandleMsgTransfer(env, x.store, host, k, text, th, ts, reply).Done? {
      var data := ReadText(env, text).value;
      var p, l := TransferPacket(env, x.store, k, data, th, ts), x.store.ledger;
      ReadDecodes(env, text);
      TakePosts(env, l, p, data);
      SendBooks(env, l, x.store.config.transferPort, x.traces, p, TakeCoins(l, k, data).value, x.height, x.time);
    }
  }

  /** Payments between users and newly issued native coins do not enter the books. */
  lemma UserKeepsBooks(env: Env, x: Node, l: Label)
    requires (l.Pay? || l.IssueNative?) && BooksOf(env, x)
    ensures BooksOf(env, Step(env, x, l))
  {
    hide Supply, Balance, Move, Credit, Balanced, TraceAt;
    var l0, x' := x.store.ledger, Step(env, x, l);
    if l.IssueNative? {
      CreditUser(l0, Denom([], l.base), l.to, l.amount);
    } else if x' != x {
      MoveSupply(l0, l.denom, User(l.from), User(l.to), l.amount);
    }
    BooksUnchanged(env, l0, x.store.config.transferPort, x.traces, x'.store.ledger);
  }

  lemma StepKeepsBooks(env: Env, x: Node, l: Label)
    requires CodecFaithful(env) && BooksOf(env, x)
    ensures BooksOf(env, Step(env, x, l))
  {
    hide CodecFaithful, HandleRecv, HandleAck, HandleTimeout, HandleSend, HandleMsgTransfer, HandleChannel, HandleClient,
         HandleConnection, Books, Absorb, Move, Credit;
    match l
    case Dispatched(m, reply, own) =>
      if !m.Pkt? { HandshakeKeepsBooks(env, x, HostOf(x, own), m, reply); }
      else if m.packetMsg.MsgRecv? { RecvKeepsBooks(env, x, HostOf(x, own), m.packetMsg, reply); }
      else if m.packetMsg.MsgAck? { AckKeepsBooks(env, x, HostOf(x, own), m.packetMsg, reply); }
      else { TimeoutKeepsBooks(env, x, HostOf(x, own), m.packetMsg, reply); }
    case SendPacket(p) => SendKeepsBooks(env, x, HostOf(x, map[]), p);
    case SendTransfer(k, text, th, ts, reply) => TransferKeepsBooks(env, x, HostOf(x, map[]), k, text, th, ts, reply);
    case Pay(_, _, _, _) => UserKeepsBooks(env, x, l);
    case IssueNative(_, _, _) => UserKeepsBooks(env, x, l);
    case NewBlock(_, _) =>
    case CommitBlock =>
  }

  lemma {:induction false} RunKeepsBooks(env: Env, w: Pair, es: seq<Event>)
    requires CodecFaithful(env) && BooksOf(env, w.a) && BooksOf(env, w.b)
    ensures BooksOf(env, Run(env, w, es).a) && BooksOf(env, Run(env, w, es).b)
    decreases |es|
  {
    hide CodecFaithful, BooksOf, Step;
    if |es| > 0 {
      match es[0] {
        case OnA(l) => StepKeepsBooks(env, w.a, l);
        case OnB(l) => StepKeepsBooks(env, w.b, l);
      }
      RunKeepsBooks(env, Next(env, w, es[0]), es[1..]);
    }
  }

  lemma EmptySupply(l: Ledger, d: Denom)
    requires forall h :: Balance(l, d, h) == 0
    ensures Supply(l, d) == 0
  {
    forall h ensures Get(Holders(l, d), h) == 0 { assert Balance(l, d, h) == 0; }
    EmptySum(Holders(l, d));
  }

  lemma {:induction false} EmptySum(m: map<Holder, nat>)
    requires forall h :: Get(m, h) == 0
    ensures SumMap(m) == 0
    decreases |m|
  {
    if |m| > 0 {
      var k := Pick(m);
      assert Get(m, k) == 0;
      forall h ensures Get(m - {k}, h) == 0 { assert Get(m, h) == 0; }
      EmptySum(m - {k});
    }
  }

  lemma GenesisBooks(env: Env, x: Node)
    requires Genesis(x)
    ensures BooksOf(env, x)
  {
    hide Supply, Balance;
    forall k, d ensures Balanced(env, x.store.ledger, k, Booked(x.store.config.transferPort, x.traces, k), d) {
      forall h ensures Balance(x.store.ledger, AddTracePrefix(d, k), h) == 0 { }
      EmptySupply(x.store.ledger, AddTracePrefix(d, k));
    }
  }

  /** In every reachable state each escrow account and each voucher supply is explained by the packets of its channel. */
  lemma BooksAlwaysBalance(env: Env, w: Pair)
    requires CodecFaithful(env) && Reachable(env, w)
    ensures BooksOf(env, w.a) && BooksOf(env, w.b)
  {
    hide CodecFaithful, Genesis, RunAdmissible, Run, BooksOf;
    var w0: Pair, es: seq<Event> :| Genesis(w0.a) && Genesis(w0.b) && RunAdmissible(env, w0, es) && w == Run(env, w0, es);
    GenesisBooks(env, w0.a);
    GenesisBooks(env, w0.b);
    RunKeepsBooks(env, w0, es);
  }
}
