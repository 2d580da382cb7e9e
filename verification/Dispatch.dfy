/** Dispatching a message on one chain, and what a run of the chain remembers about its module callbacks. */
module Dispatch {
  import opened Prelude
  import opened Heights
  import opened IbcStore
  import opened Transfer
  import opened Connections
  import opened Channels
  import opened Packets

  datatype Msg =
    | Client(clientMsg: ClientMsg)
    | Conn(connMsg: ConnMsg)
    | Chan(chanMsg: ChanMsg)
    | Pkt(packetMsg: PacketMsg)

  /** Which module callback a step ran, if any; a sent packet may carry coins of the transfer module. */
  datatype Note =
    | Quiet
    | SentNote(packet: Packet, coins: bool)
    | DeliveredNote(packet: Packet, ack: Bytes)
    | AckedNote(packet: Packet, ack: Bytes, proofHeight: Height)
    | TimedOutNote(packet: Packet, proofHeight: Height, onClose: bool)
    | OpenedNote(key: ChanKey)

  /** An error leaves no state behind; success gives the new store. */
  datatype Outcome = Rejected | Done(store: Store, note: Note)

  function HandleChannel(env: Env, s: Store, host: Host, m: ChanMsg, reply: Reply): (r: Outcome) {
    if !ChanValid(env, s, host, m, reply) then Rejected
    else Done(ChanExec(s, m, reply),
              match m
              case ChanOpenAck(k, _, _, _, _) => OpenedNote(k)
              case ChanOpenConfirm(k, _, _) => OpenedNote(k)
              case _ => Quiet)
  }

  function HandleRecv(env: Env, s: Store, host: Host, m: PacketMsg, reply: Reply): (r: Outcome)
    requires m.MsgRecv?
  {
    if !RecvValid(env, s, host, m) then Rejected
    else
      var p := m.packet;
      Done(RecvExec(env, s, p, reply),
           if AlreadyReceived(s.channels[p.dst], p) then Quiet else DeliveredNote(p, OnRecv(env, s, p, reply).1))
  }

  function HandleAck(env: Env, s: Store, host: Host, m: PacketMsg, reply: Reply): (r: Outcome)
    requires m.MsgAck?
  {
    if !AckValid(env, s, host, m) || OnAck(env, s, m.packet, m.ack, reply).None? then Rejected
    else
      var p := m.packet;
      var next := AckExec(env, s, p, m.ack, reply);
      if next.None? then Rejected
      else Done(next.value, if p.seq_ in s.channels[p.src].commitments then AckedNote(p, m.ack, m.proofHeight) else Quiet)
  }

  function HandleTimeout(env: Env, s: Store, host: Host, m: PacketMsg, reply: Reply): (r: Outcome)
    requires m.MsgTimeout? || m.MsgTimeoutOnClose?
  {
    var valid := if m.MsgTimeout? then TimeoutValid(env, s, host, m) else TimeoutOnCloseValid(env, s, host, m);
    if !valid || OnTimeout(env, s, m.packet, reply).None? then Rejected
    else
      var p := m.packet;
      var next := TimeoutExec(env, s, p, reply);
      if next.None? then Rejected
      else Done(next.value,
                if p.seq_ in s.channels[p.src].commitments then TimedOutNote(p, m.proofHeight, m.MsgTimeoutOnClose?) else Quiet)
  }

  function Quietly(s: Option<Store>): Outcome { if s.None? then Rejected else Done(s.value, Quiet) }

  /** `dispatch`: validate, then execute. */
  function Handle(env: Env, s: Store, host: Host, m: Msg, reply: Reply): (r: Outcome) {
    match m
    case Client(c) => Quietly(HandleClient(env, s, host, c))
    case Conn(c) => Quietly(HandleConnection(env, s, host, c))
    case Chan(c) => HandleChannel(env, s, host, c, reply)
    case Pkt(p) =>
      match p {
        case MsgRecv(_, _, _) => HandleRecv(env, s, host, p, reply)
        case MsgAck(_, _, _, _) => HandleAck(env, s, host, p, reply)
        case MsgTimeout(_, _, _, _) => HandleTimeout(env, s, host, p, reply)
        case MsgTimeoutOnClose(_, _, _, _, _) => HandleTimeout(env, s, host, p, reply)
      }
  }

  /** `send_packet`, called by an application other than the transfer module. */
  function HandleSend(env: Env, s: Store, host: Host, p: Packet): (r: Outcome) {
    if p.src.port == s.config.transferPort || !SendValid(s, host, p) then Rejected
    else Done(SendExec(env, s, p), SentNote(p, false))
  }

  /** `send_transfer`, on whatever channel it is asked for: the port is not compared with the module's own. */
  function HandleSendTransfer(env: Env, s: Store, host: Host, k: ChanKey, data: PacketData, th: TimeoutHeight, ts: Timestamp,
                              reply: Reply): (r: Outcome) {
    if !SendTransferValid(env, s, host, k, data, th, ts, reply) then Rejected
    else
      var p := TransferPacket(env, s, k, data, th, ts);
      Done(SendExec(env, s, p).(ledger := TakeCoins(s.ledger, k, data).value), SentNote(p, true))
  }

  /** A transfer message as it arrives: read, then sent. */
  function HandleMsgTransfer(env: Env, s: Store, host: Host, k: ChanKey, text: PacketText, th: TimeoutHeight, ts: Timestamp,
                             reply: Reply): (r: Outcome) {
    if !MsgTransferReads(env, k, text, th, ts) then Rejected
    else HandleSendTransfer(env, s, host, k, ReadText(env, text).value, th, ts, reply)
  }
}
