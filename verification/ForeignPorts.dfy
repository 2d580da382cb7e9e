/** Transfers sent from another module's port: accepted, escrowed, and never refundable. */
module ForeignPorts {
  import opened Prelude
  import opened Heights
  import opened Paths
  import opened Tendermint
  import opened Denoms
  import opened IbcStore
  import opened Transfer
  import opened Packets
  import opened Dispatch
  import opened World
  import opened Invariants
  import opened Preservation
  import opened Runs
  import opened Safety
  import opened Accounting
  import opened Conservation
  import opened Coverage
  import opened Halting

  // ---------------------------------------------------------------- when a refund pays

  /** What holder `h` gains in denomination `d` when the coins of a packet go back: the sender is paid, out of escrow or anew. */
  function Gain(p: Packet, data: PacketData, d: Denom, h: Holder): int {
    if d != data.denom then 0
    else if h == User(data.sender) then data.amount
    else if h == EscrowOf(p.src) && IsSenderChainSource(p.src, d) then 0 - data.amount
    else 0
  }

  /** Every balance and every supply after the coins went back: burnt vouchers are minted again, escrowed coins are not. */
  ghost predicate Repays(l: Ledger, l': Ledger, p: Packet, data: PacketData) {
    && (forall d, h :: Balance(l', d, h) == Balance(l, d, h) + Gain(p, data, d, h))
    && (forall d :: Supply(l', d) ==
          Supply(l, d) + if d == data.denom && IsReceiverChainSource(p.src, d) then data.amount else 0)
  }

  lemma RefundRepays(l: Ledger, p: Packet, data: PacketData, accept: bool)
    requires Refund(l, p, data, accept).Some?
    ensures Repays(l, Refund(l, p, data, accept).value, p, data)
  {
    hide Balance, Supply, SetBalance, StartsWith, Debit;
    if IsSenderChainSource(p.src, data.denom) {
      MoveSupply(l, data.denom, EscrowOf(p.src), User(data.sender), data.amount);
    } else {
      SetSupply(l, data.denom, User(data.sender), Balance(l, data.denom, User(data.sender)) + data.amount);
    }
  }

  /** The message goes through and pays back exactly the packet's coins, or leaves the ledger alone on another module's port. */
  ghost predicate PaysBackExactly(env: Env, s: Store, p: Packet, out: Outcome) {
    && out.Done?
    && if p.src.port == s.config.transferPort
       then Decode(env, p.data).Some? && Repays(s.ledger, out.store.ledger, p, Decode(env, p.data).value)
       else out.store.ledger == s.ledger
  }

  lemma TimeoutLedger(env: Env, x: Node, host: Host, m: PacketMsg, reply: Reply)
    requires TimeoutPending(env, x, host, m) && Handle(env, x.store, host, Pkt(m), reply).Done?
    ensures OnTimeout(env, x.store, m.packet, reply) == Some(Handle(env, x.store, host, Pkt(m), reply).store.ledger)
  {
    hide TimeoutValid, TimeoutOnCloseValid, OnTimeout, TimedOutChannel;
  }

  lemma TimeoutPays(env: Env, x: Node, host: Host, m: PacketMsg, reply: Reply)
    requires TimeoutPending(env, x, host, m) && Handle(env, x.store, host, Pkt(m), reply).Done?
    ensures PaysBackExactly(env, x.store, m.packet, Handle(env, x.store, host, Pkt(m), reply))
  {
    hide TimeoutPending, Handle, Refund, Decode, Repays;
    TimeoutLedger(env, x, host, m, reply);
    if m.packet.src.port == x.store.config.transferPort {
      RefundRepays(x.store.ledger, m.packet, Decode(env, m.packet.data).value, reply.accept);
    }
  }

  lemma FailureLedger(env: Env, x: Node, host: Host, m: PacketMsg, reply: Reply)
    requires FailurePending(env, x, host, m) && Handle(env, x.store, host, Pkt(m), reply).Done?
    ensures OnAck(env, x.store, m.packet, m.ack, reply) == Some(Handle(env, x.store, host, Pkt(m), reply).store.ledger)
  {
    hide AckValid, OnAck, AckedChannel;
    AckChecks(env, x, host, m);
  }

  lemma FailurePays(env: Env, x: Node, host: Host, m: PacketMsg, reply: Reply)
    requires FailurePending(env, x, host, m) && Handle(env, x.store, host, Pkt(m), reply).Done?
    ensures PaysBackExactly(env, x.store, m.packet, Handle(env, x.store, host, Pkt(m), reply))
  {
    hide AckValid, Handle, Refund, Decode, Repays;
    FailureLedger(env, x, host, m, reply);
    if m.packet.src.port == x.store.config.transferPort {
      RefundRepays(x.store.ledger, m.packet, Decode(env, m.packet.data).value, reply.accept);
    }
  }

  /** A channel pair whose far end is the transfer module's whenever the near end is. */
  ghost predicate CoinPartners(x: Node, k: ChanKey, y: Node, j: ChanKey) {
    Partners(x, k, y, j) && (k.port == x.store.config.transferPort ==> j.port == y.store.config.transferPort)
  }

  lemma TimeoutOutcome(env: Env, x: Node, y: Node, host: Host, m: PacketMsg, reply: Reply, j: ChanKey)
    requires Sound(env, x, y) && TimeoutPending(env, x, host, m) && CoinPartners(x, m.packet.src, y, j) && reply.accept
    ensures PaysBackExactly(env, x.store, m.packet, Handle(env, x.store, host, Pkt(m), reply))
  {
    hide Sound, Partners, PaysBackExactly, TimeoutMsgValid;
    if m.packet.src.port == x.store.config.transferPort {
      TimeoutCore(env, x, y, host, m, reply, j);
    } else {
      ForeignTimeout(env, x, host, m, reply);
    }
    TimeoutPays(env, x, host, m, reply);
  }

  /** On another module's port the answer is that module's, whatever the coins. */
  lemma ForeignTimeout(env: Env, x: Node, host: Host, m: PacketMsg, reply: Reply)
    requires TimeoutPending(env, x, host, m) && m.packet.src.port != x.store.config.transferPort && reply.accept
    ensures Handle(env, x.store, host, Pkt(m), reply).Done?
  {
    hide TimeoutValid, TimeoutOnCloseValid, TimedOutChannel;
  }

  /** Over every run: a valid timeout pays the escrowed coins back exactly when the packet left the transfer module's port. */
  lemma TimeoutRefundsExactly(env: Env, w: Pair, x: Node, y: Node, host: Host, m: PacketMsg, reply: Reply, j: ChanKey)
    requires Live(env, w, x, y) && CodecFaithful(env) && TimeoutPending(env, x, host, m)
    requires CoinPartners(x, m.packet.src, y, j) && reply.accept
    ensures PaysBackExactly(env, x.store, m.packet, Handle(env, x.store, host, Pkt(m), reply))
  {
    hide *;
    LiveSound(env, w, x, y);
    TimeoutOutcome(env, x, y, host, m, reply, j);
  }

  lemma FailureOutcome(env: Env, x: Node, y: Node, host: Host, m: PacketMsg, reply: Reply, j: ChanKey)
    requires Sound(env, x, y) && FailurePending(env, x, host, m) && CoinPartners(x, m.packet.src, y, j) && reply.accept
    ensures PaysBackExactly(env, x.store, m.packet, Handle(env, x.store, host, Pkt(m), reply))
  {
    hide Sound, Partners, PaysBackExactly, AckValid;
    if m.packet.src.port == x.store.config.transferPort {
      FailureCore(env, x, y, host, m, reply, j);
    } else {
      ForeignFailure(env, x, host, m, reply);
    }
    FailurePays(env, x, host, m, reply);
  }

  lemma ForeignFailure(env: Env, x: Node, host: Host, m: PacketMsg, reply: Reply)
    requires FailurePending(env, x, host, m) && m.packet.src.port != x.store.config.transferPort && reply.accept
    ensures Handle(env, x.store, host, Pkt(m), reply).Done?
  {
    hide AckValid, AckedChannel;
    AckChecks(env, x, host, m);
  }

  /** The same for an error acknowledgement. */
  lemma FailureRefundsExactly(env: Env, w: Pair, x: Node, y: Node, host: Host, m: PacketMsg, reply: Reply, j: ChanKey)
    requires Live(env, w, x, y) && CodecFaithful(env) && FailurePending(env, x, host, m)
    requires CoinPartners(x, m.packet.src, y, j) && reply.accept
    ensures PaysBackExactly(env, x.store, m.packet, Handle(env, x.store, host, Pkt(m), reply))
  {
    hide *;
    LiveSound(env, w, x, y);
    FailureOutcome(env, x, y, host, m, reply, j);
  }

  // ---------------------------------------------------------------- coins sent from a foreign port never come back

  lemma {:induction false} SumGrows(env: Env, dir: Direction, d: Denom, ps: seq<Packet>, qs: seq<Packet>)
    requires ps <= qs
    ensures Sum(env, dir, d, ps) <= Sum(env, dir, d, qs)
  {
    assert qs == ps + qs[|ps|..];
    SumConcat(env, dir, d, ps, qs[|ps|..]);
  }

  /** On a foreign port the escrow is what transfers brought, and nothing was ever taken out. */
  lemma ForeignEscrow(env: Env, x: Node, k: ChanKey, d: Denom)
    requires BooksOf(env, x) && k.port != x.store.config.transferPort
    ensures Balance(x.store.ledger, d, EscrowOf(k)) == Sum(env, Forward, d, TraceAt(x.traces, k).transfers)
  {
    hide Balance, Supply, Sum, TraceAt;
    assert Balanced(env, x.store.ledger, k, Booked(x.store.config.transferPort, x.traces, k), d);
    NothingSettledYet(env, d);
  }

  lemma NothingSettledYet(env: Env, d: Denom)
    ensures Sum(env, Forward, d, Refunded(env, [])) == 0 && Sum(env, Homeward, d, PaidOut(env, [])) == 0
  {
  }

  lemma TransfersGrow(env: Env, x: Node, x': Node, k: ChanKey)
    requires LocalInv(env, x) && Grows(x, x')
    ensures TraceAt(x.traces, k).transfers <= TraceAt(x'.traces, k).transfers && x'.store.config == x.store.config
  {
    hide LocalInv, EndExt;
    TracesOfChannels(env, x);
    if k in x.store.channels {
      assert ChanExt(x.store.channels[k], TraceAt(x.traces, k), x'.store.channels[k], TraceAt(x'.traces, k));
    }
  }

  lemma EscrowNeverFalls(env: Env, x: Node, x': Node, k: ChanKey, d: Denom)
    requires LocalInv(env, x) && Grows(x, x') && BooksOf(env, x) && BooksOf(env, x') && k.port != x.store.config.transferPort
    ensures Balance(x.store.ledger, d, EscrowOf(k)) <= Balance(x'.store.ledger, d, EscrowOf(k))
  {
    hide LocalInv, Grows, BooksOf, Balance, TraceAt, Sum;
    TransfersGrow(env, x, x', k);
    ForeignEscrow(env, x, k, d);
    ForeignEscrow(env, x', k, d);
    SumGrows(env, Forward, d, TraceAt(x.traces, k).transfers, TraceAt(x'.traces, k).transfers);
  }

  ghost predicate Steady(env: Env, w: Pair) { PairInv(env, w) && BooksOf(env, w.a) && BooksOf(env, w.b) }

  lemma SideFacts(env: Env, w: Pair, onA: bool)
    requires Steady(env, w)
    ensures LocalInv(env, Side(w, onA)) && BooksOf(env, Side(w, onA))
  {
    hide LocalInv, PeerInv, BooksOf;
  }

  lemma RunNeverFalls(env: Env, w: Pair, es: seq<Event>, onA: bool, k: ChanKey, d: Denom)
    requires Contracts(env) && CodecFaithful(env) && Steady(env, w) && RunAdmissible(env, w, es)
    requires k.port != Side(w, onA).store.config.transferPort
    ensures Balance(Side(w, onA).store.ledger, d, EscrowOf(k)) <= Balance(Side(Run(env, w, es), onA).store.ledger, d, EscrowOf(k))
  {
    hide Contracts, CodecFaithful, PairInv, BooksOf, RunAdmissible, Run, Balance, Grows;
    RunKeeps(env, w, es);
    RunKeepsBooks(env, w, es);
    SideFacts(env, w, onA);
    SideFacts(env, Run(env, w, es), onA);
    EscrowNeverFalls(env, Side(w, onA), Side(Run(env, w, es), onA), k, d);
  }

  /** Whether a transfer is accepted, and what it does to packet and coins, does not depend on which port is the module's. */
  lemma AcceptanceIgnoresThePort(env: Env, s: Store, host: Host, k: ChanKey, text: PacketText, th: TimeoutHeight, ts: Timestamp,
                                 reply: Reply, port: PortId)
    ensures var elsewhere := s.(config := s.config.(transferPort := port));
            var out, out' := HandleMsgTransfer(env, s, host, k, text, th, ts, reply),
                             HandleMsgTransfer(env, elsewhere, host, k, text, th, ts, reply);
            && (out'.Done? <==> out.Done?)
            && (out.Done? ==> out'.note == out.note && out'.store == out.store.(config := elsewhere.config))
  {
    hide TakeCoins, ValidPortId, ValidChannelId, Encode, Commit, SendValid, ReadText;
    var elsewhere := s.(config := s.config.(transferPort := port));
    if ReadText(env, text).Some? {
      var data := ReadText(env, text).value;
      if k in s.channels && s.channels[k].end.remote.channelId.Some? {
        SendIgnoresThePort(s, elsewhere, host, TransferPacket(env, s, k, data, th, ts));
      }
    }
  }

  lemma SendIgnoresThePort(s: Store, elsewhere: Store, host: Host, p: Packet)
    requires elsewhere == s.(config := elsewhere.config)
    ensures SendValid(elsewhere, host, p) <==> SendValid(s, host, p)
  {
    hide HasExpired, CheckExpiry, StatusOf, PacketTypesOk, RemoteOf;
  }

  /** A transfer sent out of another module's port, of a coin this chain is the source of. */
  ghost predicate ForeignTransfer(env: Env, x: Node, l: Label, k: ChanKey, d: Denom, amount: nat) {
    && l.SendTransfer? && l.key == k && k.port != x.store.config.transferPort
    && HandleMsgTransfer(env, x.store, HostOf(x, map[]), k, l.text, l.timeoutHeight, l.timeoutTimestamp, l.reply).Done?
    && ReadText(env, l.text) == Some(PacketData(d, amount, l.text.sender, l.text.receiver, l.text.memo))
    && IsSenderChainSource(k, d)
  }

  lemma ForeignTransferEscrows(env: Env, x: Node, l: Label, k: ChanKey, d: Denom, amount: nat)
    requires ForeignTransfer(env, x, l, k, d, amount)
    ensures Balance(Step(env, x, l).store.ledger, d, EscrowOf(k)) == Balance(x.store.ledger, d, EscrowOf(k)) + amount
    ensures Step(env, x, l).store.config == x.store.config && k.port != x.store.config.transferPort
  {
    hide MsgTransferReads, SendValid, Balance, Move, ReadText, StartsWith, Record, Encode, Supply;
    IntoEscrow(x.store.ledger, d, l.text.sender, k, amount);
  }

  function EventOn(onA: bool, l: Label): Event { if onA then OnA(l) else OnB(l) }

  lemma NextSide(env: Env, w: Pair, l: Label, onA: bool)
    ensures Side(Next(env, w, EventOn(onA, l)), onA) == Step(env, Side(w, onA), l)
    ensures l.SendTransfer? ==> EventAdmissible(env, w, EventOn(onA, l))
  {
    hide Step;
  }

  lemma ForeignIsSend(env: Env, x: Node, l: Label, k: ChanKey, d: Denom, amount: nat)
    requires ForeignTransfer(env, x, l, k, d, amount)
    ensures l.SendTransfer?
  {
    hide HandleMsgTransfer, ReadText;
  }

  lemma ReachableSteady(env: Env, w: Pair)
    requires Contracts(env) && CodecFaithful(env) && Reachable(env, w)
    ensures Steady(env, w)
  {
    hide Contracts, CodecFaithful, Reachable, PairInv, BooksOf;
    ReachableInv(env, w);
    BooksAlwaysBalance(env, w);
  }

  lemma NextSteady(env: Env, w: Pair, e: Event)
    requires Contracts(env) && CodecFaithful(env) && Steady(env, w) && EventAdmissible(env, w, e)
    ensures Steady(env, Next(env, w, e))
  {
    hide Contracts, CodecFaithful, PairInv, BooksOf, Step, EventAdmissible;
    NextKeeps(env, w, e);
    match e
    case OnA(l) => StepKeepsBooks(env, w.a, l);
    case OnB(l) => StepKeepsBooks(env, w.b, l);
  }

  ghost predicate LockedAway(before: Node, after: Node, k: ChanKey, d: Denom, amount: nat) {
    Balance(before.store.ledger, d, EscrowOf(k)) + amount <= Balance(after.store.ledger, d, EscrowOf(k))
  }

  /**
   The handler takes a transfer on any channel. Sent from another module's port, its coins enter that channel's escrow and
   are still there in every later state of every run.
   */
  lemma ForeignTransferIsLocked(env: Env, w: Pair, l: Label, onA: bool, k: ChanKey, d: Denom, amount: nat, es: seq<Event>)
    requires Contracts(env) && CodecFaithful(env) && Reachable(env, w) && ForeignTransfer(env, Side(w, onA), l, k, d, amount)
    requires RunAdmissible(env, Next(env, w, EventOn(onA, l)), es)
    ensures LockedAway(Side(w, onA), Side(Run(env, Next(env, w, EventOn(onA, l)), es), onA), k, d, amount)
  {
    hide Contracts, CodecFaithful, Reachable, ForeignTransfer, RunAdmissible, Next, Run, Side, Balance, Steady, EventAdmissible, EventOn, Step;
    var w' := Next(env, w, EventOn(onA, l));
    ReachableSteady(env, w);
    ForeignIsSend(env, Side(w, onA), l, k, d, amount);
    NextSide(env, w, l, onA);
    NextSteady(env, w, EventOn(onA, l));
    ForeignTransferEscrows(env, Side(w, onA), l, k, d, amount);
    RunNeverFalls(env, w', es, onA, k, d);
  }
}
