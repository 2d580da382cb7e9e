/** ICS-20 token transfer: the ledger operations a host provides and the module's callbacks. */
module Transfer {
  import opened Prelude
  import opened Paths
  import opened Denoms
  import opened IbcStore

  const VERSION := "ics20-1"

  // ---------------------------------------------------------------- host ledger

  function Holders(l: Ledger, d: Denom): map<Holder, nat> { if d in l then l[d] else map[] }

  function Balance(l: Ledger, d: Denom, h: Holder): nat { Get(Holders(l, d), h) }

  function SetBalance(l: Ledger, d: Denom, h: Holder, amount: nat): Ledger { l[d := Holders(l, d)[h := amount]] }

  function Credit(l: Ledger, d: Denom, h: Holder, amount: nat): Ledger {
    SetBalance(l, d, h, Balance(l, d, h) + amount)
  }

  function Debit(l: Ledger, d: Denom, h: Holder, amount: nat): Option<Ledger> {
    if Balance(l, d, h) < amount then None else Some(SetBalance(l, d, h, Balance(l, d, h) - amount))
  }

  function Move(l: Ledger, d: Denom, from: Holder, to: Holder, amount: nat): (r: Option<Ledger>) {
    var debited := Debit(l, d, from, amount);
    if debited.None? then None else Some(Credit(debited.value, d, to, amount))
  }

  /** Everything in circulation of a denomination, escrow accounts included. */
  ghost function Supply(l: Ledger, d: Denom): nat { SumMap(Holders(l, d)) }

  // ---------------------------------------------------------------- channel callbacks

  predicate InitAccepted(s: Store, port: PortId, ordering: Order, version: string, reply: Reply) {
    if port == s.config.transferPort then ordering == Unordered && (version == "" || version == VERSION)
    else reply.accept
  }

  predicate TryAccepted(s: Store, port: PortId, ordering: Order, versionOnA: string, reply: Reply) {
    if port == s.config.transferPort then ordering == Unordered && versionOnA == VERSION else reply.accept
  }

  function TryVersion(s: Store, port: PortId, reply: Reply): string {
    if port == s.config.transferPort then VERSION else reply.version
  }

  predicate OpenAckAccepted(s: Store, port: PortId, versionOnB: string, reply: Reply) {
    if port == s.config.transferPort then versionOnB == VERSION else reply.accept
  }

  predicate OpenConfirmAccepted(s: Store, port: PortId, reply: Reply) {
    port == s.config.transferPort || reply.accept
  }

  predicate CloseInitAccepted(s: Store, port: PortId, reply: Reply) {
    port != s.config.transferPort && reply.accept
  }

  // ---------------------------------------------------------------- packet callbacks

  /** `process_recv_packet_execute`: the new ledger, or `None` when the transfer cannot be received. */
  function ProcessRecv(l: Ledger, p: Packet, data: PacketData, accept: bool): (r: Option<Ledger>) {
    if !accept then None
    else if IsReceiverChainSource(p.src, data.denom) then
      Move(l, RemoveTracePrefix(data.denom, p.src), EscrowOf(p.dst), User(data.receiver), data.amount)
    else Some(Credit(l, AddTracePrefix(data.denom, p.dst), User(data.receiver), data.amount))
  }

  /** `on_recv_packet_execute` of whatever module owns the port: it never fails, it answers with an acknowledgement. */
  function OnRecv(env: Env, s: Store, p: Packet, reply: Reply): (r: (Ledger, Bytes)) {
    if p.dst.port != s.config.transferPort then (s.ledger, reply.ack)
    else
      var data := Decode(env, p.data);
      if data.None? then (s.ledger, env.errorAck(reply.reason))
      else
        var l := ProcessRecv(s.ledger, p, data.value, reply.accept);
        if l.None? then (s.ledger, env.errorAck(reply.reason)) else (l.value, env.successAck)
  }

  /** `refund_packet_token_execute`. */
  function Refund(l: Ledger, p: Packet, data: PacketData, accept: bool): (r: Option<Ledger>) {
    if !accept then None
    else if IsSenderChainSource(p.src, data.denom) then
      Move(l, data.denom, EscrowOf(p.src), User(data.sender), data.amount)
    else Some(Credit(l, data.denom, User(data.sender), data.amount))
  }

  /** `on_acknowledgement_packet_execute`; `None` fails the whole message. */
  function OnAck(env: Env, s: Store, p: Packet, ack: Bytes, reply: Reply): (r: Option<Ledger>) {
    if p.src.port != s.config.transferPort then (if reply.accept then Some(s.ledger) else None)
    else
      var data, status := Decode(env, p.data), env.ackStatus(ack);
      if data.None? || status.None? then None
      else if status.value then Some(s.ledger)
      else Refund(s.ledger, p, data.value, reply.accept)
  }

  /** `on_timeout_packet_execute`. */
  function OnTimeout(env: Env, s: Store, p: Packet, reply: Reply): (r: Option<Ledger>) {
    if p.src.port != s.config.transferPort then (if reply.accept then Some(s.ledger) else None)
    else
      var data := Decode(env, p.data);
      if data.None? then None else Refund(s.ledger, p, data.value, reply.accept)
  }

  /** The coins leave the sender: into escrow where this chain is the source, destroyed where it is not. */
  function TakeCoins(l: Ledger, k: ChanKey, data: PacketData): (r: Option<Ledger>) {
    if IsSenderChainSource(k, data.denom) then
      Move(l, data.denom, User(data.sender), EscrowOf(k), data.amount)
    else Debit(l, data.denom, User(data.sender), data.amount)
  }
}
