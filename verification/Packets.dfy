/** The ICS-04 packet handlers: send, receive, acknowledge, time out. */
module Packets {
  import opened Prelude
  import opened Heights
  import opened Paths
  import opened Denoms
  import opened IbcStore
  import opened Transfer
  import opened Channels

  datatype PacketMsg =
    | MsgRecv(packet: Packet, proof: Bytes, proofHeight: Height)
    | MsgAck(packet: Packet, ack: Bytes, proof: Bytes, proofHeight: Height)
    | MsgTimeout(packet: Packet, nextSeqRecv: nat, proof: Bytes, proofHeight: Height)
    | MsgTimeoutOnClose(packet: Packet, nextSeqRecv: nat, proof: Bytes, proofClose: Bytes, proofHeight: Height)

  // ---------------------------------------------------------------- send

  predicate SendValid(s: Store, host: Host, p: Packet) {
    && PacketTypesOk(p)
    && p.src in s.channels
    && var ch := s.channels[p.src];
       && ch.end.state != Closed
       && ch.end.remote == RemoteOf(p.dst)
       && HasConnection(s, ch.end)
       && var c := ConnectionOf(s, ch.end).clientId;
          && ClientActive(s, host, c)
          && var latest := s.clients[c].state.latestHeight;
             && !HasExpired(p.timeoutHeight, latest)
             && latest in s.clients[c].consensus
             && CheckExpiry(Some(s.clients[c].consensus[latest].timestamp), p.timeoutTimestamp) != Expiry.Expired
             && p.seq_ == ch.nextSend
  }

  function SendExec(env: Env, s: Store, p: Packet): (r: Store)
    requires p.src in s.channels
  {
    var ch := s.channels[p.src];
    WithChannel(s, p.src, ch.(nextSend := ch.nextSend + 1, commitments := ch.commitments[p.seq_ := Commit(env, p)]))
  }

  /** `send_transfer`: the packet built for a transfer message on channel `k`. */
  function TransferPacket(env: Env, s: Store, k: ChanKey, data: PacketData, th: TimeoutHeight, ts: Timestamp): Packet
    requires k in s.channels && s.channels[k].end.remote.channelId.Some?
  {
    var ch := s.channels[k];
    Packet(ch.nextSend, k, TracePrefix(ch.end.remote.portId, ch.end.remote.channelId.value), Encode(env, data), th, ts)
  }

  predicate SendTransferValid(env: Env, s: Store, host: Host, k: ChanKey, data: PacketData, th: TimeoutHeight, ts: Timestamp,
                              reply: Reply) {
    && reply.accept
    && k in s.channels
    && s.channels[k].end.remote.channelId.Some?
    && TakeCoins(s.ledger, k, data).Some?
    && SendValid(s, host, TransferPacket(env, s, k, data, th, ts))
  }

  /** What reading a `MsgTransfer` from the wire demands: a timeout, valid identifiers and a denomination that parses. */
  predicate MsgTransferReads(env: Env, k: ChanKey, text: PacketText, th: TimeoutHeight, ts: Timestamp) {
    && (th.At? || ts.Some?)
    && ValidPortId(env.alnum, k.port) && ValidChannelId(env.alnum, k.channel)
    && ReadText(env, text).Some?
  }

  // ---------------------------------------------------------------- receive

  /** Every check on a received packet except the one on its sequence. */
  predicate RecvChecks(env: Env, s: Store, host: Host, m: PacketMsg)
    requires m.MsgRecv?
  {
    var p := m.packet;
    && PacketDecodes(p)
    && p.dst in s.channels
    && var ch := s.channels[p.dst];
       && ch.end.state == Open
       && ch.end.remote == RemoteOf(p.src)
       && HasConnection(s, ch.end)
       && var conn := ConnectionOf(s, ch.end);
          && conn.state == ConnOpen
          && !HasExpired(p.timeoutHeight, host.height)
          && CheckExpiry(Some(host.time), p.timeoutTimestamp) != Expiry.Expired
          && DelayPassed(env, s, host, conn, m.proofHeight)
          && Proven(env, s, host, conn.clientId, conn.counterparty.prefix, m.proof, m.proofHeight,
                    Commitment(p.src.port, p.src.channel, p.seq_), BytesValue(Commit(env, p)))
  }

  /** The sequence check, which includes that no acknowledgement would be overwritten. */
  predicate SequenceAccepted(ch: Channel, p: Packet) {
    match ch.end.ordering
    case Ordered => p.seq_ <= ch.nextRecv && (p.seq_ == ch.nextRecv ==> p.seq_ !in ch.acks)
    case Unordered => p.seq_ !in ch.acks
    case NoOrder => false
  }

  predicate RecvValid(env: Env, s: Store, host: Host, m: PacketMsg)
    requires m.MsgRecv?
  {
    RecvChecks(env, s, host, m) && SequenceAccepted(s.channels[m.packet.dst], m.packet)
  }

  predicate AlreadyReceived(ch: Channel, p: Packet) {
    match ch.end.ordering
    case NoOrder => false
    case Unordered => p.seq_ in ch.receipts
    case Ordered => p.seq_ < ch.nextRecv
  }

  /** The channel after a first delivery. */
  function Received(env: Env, ch: Channel, p: Packet, ack: Bytes): Channel {
    var recorded :=
      match ch.end.ordering
      case Unordered => ch.(receipts := ch.receipts + {p.seq_})
      case Ordered => ch.(nextRecv := ch.nextRecv + 1)
      case NoOrder => ch;
    recorded.(acks := recorded.acks[p.seq_ := env.hash(ack)])
  }

  function RecvExec(env: Env, s: Store, p: Packet, reply: Reply): (r: Store)
    requires p.dst in s.channels
  {
    var ch := s.channels[p.dst];
    if AlreadyReceived(ch, p) then s
    else
      var (ledger, ack) := OnRecv(env, s, p, reply);
      WithChannel(s, p.dst, Received(env, ch, p, ack)).(ledger := ledger)
  }

  // ---------------------------------------------------------------- acknowledge

  predicate AckValid(env: Env, s: Store, host: Host, m: PacketMsg)
    requires m.MsgAck?
  {
    var p := m.packet;
    && PacketDecodes(p)
    && p.src in s.channels
    && var ch := s.channels[p.src];
       && ch.end.state == Open
       && ch.end.remote == RemoteOf(p.dst)
       && HasConnection(s, ch.end)
       && var conn := ConnectionOf(s, ch.end);
          && conn.state == ConnOpen
          && (p.seq_ in ch.commitments ==>
                && ch.commitments[p.seq_] == Commit(env, p)
                && (ch.end.ordering == Ordered ==> p.seq_ == ch.nextAck)
                && DelayPassed(env, s, host, conn, m.proofHeight)
                && Proven(env, s, host, conn.clientId, conn.counterparty.prefix, m.proof, m.proofHeight,
                          Ack(p.dst.port, p.dst.channel, p.seq_), BytesValue(env.hash(m.ack))))
  }

  function AckedChannel(ch: Channel, p: Packet): Channel {
    var cleared := ch.(commitments := ch.commitments - {p.seq_});
    if ch.end.ordering == Ordered then cleared.(nextAck := p.seq_ + 1) else cleared
  }

  /** `None` when the module refuses; a missing commitment is a no-op. */
  function AckExec(env: Env, s: Store, p: Packet, ack: Bytes, reply: Reply): (r: Option<Store>)
    requires p.src in s.channels
  {
    var ch := s.channels[p.src];
    if p.seq_ !in ch.commitments then Some(s)
    else
      var ledger := OnAck(env, s, p, ack, reply);
      if ledger.None? then None
      else Some(WithChannel(s, p.src, AckedChannel(ch, p)).(ledger := ledger.value))
  }

  // ---------------------------------------------------------------- time out

  /** The counterparty had not received the packet: its next expected sequence is this one, or it holds no receipt. */
  predicate UnreceivedProven(env: Env, s: Store, host: Host, conn: ConnectionEnd, ordering: Order, p: Packet, nextSeqRecv: nat,
                             proof: Bytes, proofHeight: Height) {
    match ordering
    case Ordered =>
      && p.seq_ >= nextSeqRecv
      && Proven(env, s, host, conn.clientId, conn.counterparty.prefix, proof, proofHeight,
                SeqRecv(p.dst.port, p.dst.channel), SequenceValue(p.seq_))
    case Unordered =>
      ProvenAbsent(env, s, host, conn.clientId, conn.counterparty.prefix, proof, proofHeight,
                   Receipt(p.dst.port, p.dst.channel, p.seq_))
    case NoOrder => false
  }

  /** Every check on a timeout message short of the proof that the packet was not received. */
  predicate TimeoutDue(env: Env, s: Store, host: Host, m: PacketMsg)
    requires m.MsgTimeout?
  {
    var p := m.packet;
    && PacketDecodes(p)
    && p.src in s.channels
    && var ch := s.channels[p.src];
       && ch.end.state == Open
       && ch.end.remote == RemoteOf(p.dst)
       && HasConnection(s, ch.end)
       && var conn := ConnectionOf(s, ch.end);
          (p.seq_ in ch.commitments ==>
             && ch.commitments[p.seq_] == Commit(env, p)
             && ProofReady(s, host, conn.clientId, m.proofHeight)
             && PacketTimedOut(p, ConsensusAt(s, conn.clientId, m.proofHeight).timestamp, m.proofHeight)
             && DelayPassed(env, s, host, conn, m.proofHeight))
  }

  predicate TimeoutValid(env: Env, s: Store, host: Host, m: PacketMsg)
    requires m.MsgTimeout?
  {
    && TimeoutDue(env, s, host, m)
    && var ch := s.channels[m.packet.src];
       (m.packet.seq_ in ch.commitments ==>
          UnreceivedProven(env, s, host, ConnectionOf(s, ch.end), ch.end.ordering, m.packet, m.nextSeqRecv, m.proof, m.proofHeight))
  }

  predicate TimeoutOnCloseValid(env: Env, s: Store, host: Host, m: PacketMsg)
    requires m.MsgTimeoutOnClose?
  {
    var p := m.packet;
    && PacketDecodes(p)
    && p.src in s.channels
    && var ch := s.channels[p.src];
       && ch.end.remote == RemoteOf(p.dst)
       && (p.seq_ in ch.commitments ==>
             && ch.commitments[p.seq_] == Commit(env, p)
             && HasConnection(s, ch.end)
             && var conn := ConnectionOf(s, ch.end);
                && PeerEndProven(env, s, host, p.src, Closed, m.proof, m.proofHeight)
                && DelayPassed(env, s, host, conn, m.proofHeight)
                && UnreceivedProven(env, s, host, conn, ch.end.ordering, p, m.nextSeqRecv, m.proof, m.proofHeight))
  }

  function TimedOutChannel(ch: Channel, p: Packet): Channel {
    var cleared := ch.(commitments := ch.commitments - {p.seq_});
    if ch.end.ordering == Ordered then cleared.(end := ch.end.(state := Closed)) else cleared
  }

  function TimeoutExec(env: Env, s: Store, p: Packet, reply: Reply): (r: Option<Store>)
    requires p.src in s.channels
  {
    var ch := s.channels[p.src];
    if p.seq_ !in ch.commitments then Some(s)
    else
      var ledger := OnTimeout(env, s, p, reply);
      if ledger.None? then None
      else Some(WithChannel(s, p.src, TimedOutChannel(ch, p)).(ledger := ledger.value))
  }
}
