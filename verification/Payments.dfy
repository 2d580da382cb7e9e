/** Whose coins every transfer step takes and whom it pays, in every account and denomination. */
module Payments {
  import opened Prelude
  import opened Heights
  import opened Paths
  import opened Denoms
  import opened IbcStore
  import opened Transfer
  import opened Packets
  import opened Dispatch
  import opened Runs
  import opened Accounting
  import opened ForeignPorts

  // ---------------------------------------------------------------- sending

  /** What holder `h` gains in denomination `d` when `data` is sent on channel `k`: the sender pays, into escrow or for good. */
  function Taken(k: ChanKey, data: PacketData, d: Denom, h: Holder): int {
    if d != data.denom then 0
    else if h == User(data.sender) then 0 - data.amount
    else if h == EscrowOf(k) && IsSenderChainSource(k, d) then data.amount
    else 0
  }

  ghost predicate Takes(l: Ledger, l': Ledger, k: ChanKey, data: PacketData) {
    && Balance(l, data.denom, User(data.sender)) >= data.amount
    && (forall d, h :: Balance(l', d, h) == Balance(l, d, h) + Taken(k, data, d, h))
    && (forall d :: Supply(l', d) ==
          Supply(l, d) - if d == data.denom && IsReceiverChainSource(k, d) then data.amount else 0)
  }

  lemma TakeCoinsTakes(l: Ledger, k: ChanKey, data: PacketData)
    ensures TakeCoins(l, k, data).Some? <==> Balance(l, data.denom, User(data.sender)) >= data.amount
    ensures TakeCoins(l, k, data).Some? ==> Takes(l, TakeCoins(l, k, data).value, k, data)
  {
    hide Balance, Supply, SetBalance, StartsWith;
    if TakeCoins(l, k, data).Some? {
      if IsSenderChainSource(k, data.denom) {
        MoveSupply(l, data.denom, User(data.sender), EscrowOf(k), data.amount);
      } else {
        SetSupply(l, data.denom, User(data.sender), Balance(l, data.denom, User(data.sender)) - data.amount);
      }
    }
  }

  /** The packet carries what the message says, to where the channel leads, with the message's timeouts and the next sequence. */
  ghost predicate Carries(env: Env, s: Store, k: ChanKey, text: PacketText, th: TimeoutHeight, ts: Timestamp, p: Packet) {
    && k in s.channels
    && p.seq_ == s.channels[k].nextSend
    && p.src == k
    && s.channels[k].end.remote == RemoteOf(p.dst)
    && p.timeoutHeight == th && p.timeoutTimestamp == ts
    && var data := Decode(env, p.data);
       && data.Some?
       && PrintDenom(data.value.denom) == text.denom
       && data.value.amount == text.amount
       && data.value.sender == text.sender && data.value.receiver == text.receiver && data.value.memo == text.memo
  }

  ghost predicate SendsAndTakes(env: Env, s: Store, k: ChanKey, text: PacketText, th: TimeoutHeight, ts: Timestamp, out: Outcome) {
    && out.Done? && out.note.SentNote? && out.note.coins
    && Carries(env, s, k, text, th, ts, out.note.packet)
    && Takes(s.ledger, out.store.ledger, k, Decode(env, out.note.packet.data).value)
  }

  /**
   An accepted transfer message sends a packet that carries exactly what the message says. The coins it carries are taken
   from the sender it names, who had them, into the channel's escrow or out of existence, and from nobody else.
   */
  lemma TransferTakesFromSender(env: Env, s: Store, host: Host, k: ChanKey, text: PacketText, th: TimeoutHeight, ts: Timestamp, reply: Reply)
    requires CodecFaithful(env) && HandleMsgTransfer(env, s, host, k, text, th, ts, reply).Done?
    ensures SendsAndTakes(env, s, k, text, th, ts, HandleMsgTransfer(env, s, host, k, text, th, ts, reply))
  {
    hide SendValid, TakeCoins, Takes, Encode, Decode, ParseDenom, PrintDenom, ValidPortId, ValidChannelId;
    ReadDecodes(env, text);
    PrintAfterParse(env.alnum, env.white, text.denom);
    TakeCoinsTakes(s.ledger, k, ReadText(env, text).value);
  }

  // ---------------------------------------------------------------- refunds reverse sends

  /** In every account and denomination a refund gives back what the send took. */
  lemma RefundReversesSend(p: Packet, data: PacketData, d: Denom, h: Holder)
    ensures Taken(p.src, data, d, h) + Gain(p, data, d, h) == 0
  {
    hide StartsWith;
  }

  /** Taking the coins and refunding them leaves every balance and every supply as it was; the refund cannot fail. */
  lemma SendThenRefund(l: Ledger, p: Packet, data: PacketData)
    requires TakeCoins(l, p.src, data).Some?
    ensures var back := Refund(TakeCoins(l, p.src, data).value, p, data, true);
            && back.Some?
            && (forall d, h :: Balance(back.value, d, h) == Balance(l, d, h))
            && (forall d :: Supply(back.value, d) == Supply(l, d))
  {
    var l' := TakeCoins(l, p.src, data).value;
    TakeCoinsTakes(l, p.src, data);
    RefundExactly(l', p, data);
    hide Balance, Supply, StartsWith, Refund, TakeCoins;
    RefundRepays(l', p, data, true);
    forall d, h ensures Balance(Refund(l', p, data, true).value, d, h) == Balance(l, d, h) { RefundReversesSend(p, data, d, h); }
  }

  lemma RefundExactly(l: Ledger, p: Packet, data: PacketData)
    ensures Refund(l, p, data, true).Some? <==>
              (IsSenderChainSource(p.src, data.denom) ==> Balance(l, data.denom, EscrowOf(p.src)) >= data.amount)
  {
    hide Balance, StartsWith, SetBalance;
  }

  // ---------------------------------------------------------------- receiving

  /** What holder `h` gains in denomination `d` when `p` arrives: the receiver is paid, out of escrow when the coin comes home. */
  function Paid(p: Packet, data: PacketData, d: Denom, h: Holder): int {
    if d != Arrived(p.src, p.dst, data.denom) then 0
    else if h == User(data.receiver) then data.amount
    else if h == EscrowOf(p.dst) && IsReceiverChainSource(p.src, data.denom) then 0 - data.amount
    else 0
  }

  ghost predicate Pays(l: Ledger, l': Ledger, p: Packet, data: PacketData) {
    && (forall d, h :: Balance(l', d, h) == Balance(l, d, h) + Paid(p, data, d, h))
    && (forall d :: Supply(l', d) ==
          Supply(l, d) + if d == Arrived(p.src, p.dst, data.denom) && IsSenderChainSource(p.src, data.denom) then data.amount else 0)
  }

  /** The coin can be paid out: it is new here, or escrow covers it. */
  ghost predicate Payable(l: Ledger, p: Packet, data: PacketData) {
    IsReceiverChainSource(p.src, data.denom) ==> Balance(l, Arrived(p.src, p.dst, data.denom), EscrowOf(p.dst)) >= data.amount
  }

  lemma ProcessRecvPays(l: Ledger, p: Packet, data: PacketData, accept: bool)
    ensures ProcessRecv(l, p, data, accept).Some? <==> accept && Payable(l, p, data)
    ensures ProcessRecv(l, p, data, accept).Some? ==> Pays(l, ProcessRecv(l, p, data, accept).value, p, data)
  {
    hide Balance, Supply, SetBalance, StartsWith, AddTracePrefix, RemoveTracePrefix;
    if ProcessRecv(l, p, data, accept).Some? {
      if IsReceiverChainSource(p.src, data.denom) {
        MoveSupply(l, RemoveTracePrefix(data.denom, p.src), EscrowOf(p.dst), User(data.receiver), data.amount);
      } else {
        var d := AddTracePrefix(data.denom, p.dst);
        SetSupply(l, d, User(data.receiver), Balance(l, d, User(data.receiver)) + data.amount);
      }
    }
  }

  /** The outcome of a delivery on the transfer port, acknowledgement and ledger together. */
  ghost predicate PaysOrRefuses(env: Env, s: Store, p: Packet, reply: Reply, out: Outcome) {
    && out.Done? && out.note.DeliveredNote?
    && var data := Decode(env, p.data);
       if reply.accept && data.Some? && Payable(s.ledger, p, data.value)
       then out.note.ack == env.successAck && Pays(s.ledger, out.store.ledger, p, data.value)
       else out.note.ack == env.errorAck(reply.reason) && out.store.ledger == s.ledger
  }

  lemma OnRecvPays(env: Env, s: Store, p: Packet, reply: Reply)
    requires p.dst.port == s.config.transferPort
    ensures var r := OnRecv(env, s, p, reply);
            var data := Decode(env, p.data);
            if reply.accept && data.Some? && Payable(s.ledger, p, data.value)
            then r.1 == env.successAck && Pays(s.ledger, r.0, p, data.value)
            else r.1 == env.errorAck(reply.reason) && r.0 == s.ledger
  {
    hide Decode, ProcessRecv, Pays, Payable;
    var data := Decode(env, p.data);
    if data.Some? { ProcessRecvPays(s.ledger, p, data.value, reply.accept); }
  }

  /**
   A delivered transfer that a willing host can pay is acknowledged as a success and pays the receiver it names, in the
   denomination it has here, out of the channel's escrow when the coin comes home, and nobody else. Any other delivery on
   the transfer port is acknowledged as a failure and leaves the ledger alone.
   */
  lemma DeliveryPaysReceiver(env: Env, s: Store, host: Host, m: PacketMsg, reply: Reply)
    requires m.MsgRecv? && m.packet.dst.port == s.config.transferPort
    requires Handle(env, s, host, Pkt(m), reply).Done? && Handle(env, s, host, Pkt(m), reply).note.DeliveredNote?
    ensures PaysOrRefuses(env, s, m.packet, reply, Handle(env, s, host, Pkt(m), reply))
  {
    hide RecvValid, AlreadyReceived, Received, OnRecv, Decode, Pays, Payable;
    RecvTarget(env, s, host, m);
    OnRecvPays(env, s, m.packet, reply);
  }

  /** On another module's port the acknowledgement is that module's and the ledger stays. */
  lemma ForeignDelivery(env: Env, s: Store, host: Host, m: PacketMsg, reply: Reply)
    requires m.MsgRecv? && m.packet.dst.port != s.config.transferPort
    requires Handle(env, s, host, Pkt(m), reply).Done? && Handle(env, s, host, Pkt(m), reply).note.DeliveredNote?
    ensures var out := Handle(env, s, host, Pkt(m), reply); out.store.ledger == s.ledger && out.note.ack == reply.ack
  {
    hide RecvValid, AlreadyReceived, Received;
    RecvTarget(env, s, host, m);
  }

  // ---------------------------------------------------------------- acknowledgements

  /** A success acknowledgement moves no coins; one that cannot be read, or packet data that cannot, fails the message. */
  lemma SuccessMovesNothing(env: Env, s: Store, host: Host, m: PacketMsg, reply: Reply)
    requires m.MsgAck? && m.packet.src.port == s.config.transferPort && Handle(env, s, host, Pkt(m), reply).Done?
    ensures env.ackStatus(m.ack).Some? && Decode(env, m.packet.data).Some?
    ensures env.ackStatus(m.ack) == Some(true) ==> Handle(env, s, host, Pkt(m), reply).store.ledger == s.ledger
  {
    hide AckValid, AckedChannel, Refund, Decode;
    AckTarget(env, s, host, m);
  }
}
