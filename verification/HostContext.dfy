/** The host context the handlers write to, in place and in the handlers' order, proved against the store functions. */
module HostContext {
  import opened Prelude
  import opened Heights
  import opened Paths
  import opened Denoms
  import opened Versions
  import opened Tendermint
  import opened IbcStore
  import opened Transfer
  import opened Connections
  import opened Channels
  import opened Packets
  import opened Dispatch

  class Context {
    const config: Config
    var clients: map<ClientId, Client>
    var clientCounter: nat
    var connections: map<ConnectionId, ConnectionEnd>
    var clientConnections: map<ClientId, ConnectionId>
    var connectionCounter: nat
    var channels: map<ChanKey, Channel>
    var channelCounter: nat
    var ledger: Ledger

    function View(): Store
      reads this
    {
      Store(config, clients, clientCounter, connections, clientConnections, connectionCounter, channels, channelCounter, ledger)
    }

    constructor (c: Config, l: Ledger)
      ensures View() == Store(c, map[], 0, map[], map[], 0, map[], 0, l)
    {
      config, clients, clientCounter := c, map[], 0;
      connections, clientConnections, connectionCounter := map[], map[], 0;
      channels, channelCounter, ledger := map[], 0, l;
    }

    // -------------------------------------------------------------- dispatch

    /** Validate, then execute. A refused message leaves the context as it was. */
    method Dispatch(env: Env, host: Host, m: Msg, reply: Reply) returns (out: Option<Note>)
      modifies this
      ensures Handle(env, old(View()), host, m, reply) == if out.Some? then Done(View(), out.value) else Rejected
      ensures out.None? ==> View() == old(View())
    {
      hide HandleClient, HandleConnection, HandleChannel, HandleRecv, HandleAck, HandleTimeout;
      match m {
        case Client(c) => out := ClientMessage(env, host, c);
        case Conn(c) => out := ConnectionMessage(env, host, c);
        case Chan(c) => out := ChannelMessage(env, host, c, reply);
        case Pkt(p) => out := PacketMessage(env, host, p, reply);
      }
    }

    // -------------------------------------------------------------- clients and connections

    method ClientMessage(env: Env, host: Host, m: ClientMsg) returns (out: Option<Note>)
      modifies this
      ensures HandleClient(env, old(View()), host, m) == if out == Some(Quiet) then Some(View()) else None
      ensures out == Some(Quiet) || (out.None? && View() == old(View()))
    {
      hide HandleUpdate, HandleUpgrade, Initialised;
      out := Some(Quiet);
      match m {
        case CreateClient(st, cs) =>
          var id := ClientIdOf(clientCounter);
          if IsFrozen(st) || |cs.root| == 0 || id in clients { return None; }
          clients := clients[id := Initialised(st, cs, host.time, host.height)];
          clientCounter := clientCounter + 1;
        case UpdateOrMisbehaviour(kind, id, msg) =>
          if id !in clients { return None; }
          var c := HandleUpdate(env.verifier, clients[id], kind, msg, host.time, host.height);
          if c.None? { return None; }
          clients := clients[id := c.value];
        case UpgradeClient(id, st, cs, p1, p2) =>
          if id !in clients { return None; }
          var current := clients[id];
          var latest := current.state.latestHeight;
          var ok := latest in current.consensus && env.upgradeProofs(current.consensus[latest].root, st, cs, p1, p2);
          var c := HandleUpgrade(current, st, cs, env.sentinel, ok, host.time, host.height);
          if c.None? { return None; }
          clients := clients[id := c.value];
      }
    }

    method ConnectionMessage(env: Env, host: Host, m: ConnMsg) returns (out: Option<Note>)
      modifies this
      ensures HandleConnection(env, old(View()), host, m) == if out == Some(Quiet) then Some(View()) else None
      ensures out == Some(Quiet) || (out.None? && View() == old(View()))
    {
      hide Proven, PickVersion, ClientActive, IsSupported, ConnectionIdOf;
      out := Some(Quiet);
      match m {
        case ConnOpenInit(_, _, _, _) =>
          if !ConnInitValid(View(), host, m) { return None; }
          var id, end := ConnectionIdOf(connectionCounter), ConnInitEnd(View(), m);
          connectionCounter := connectionCounter + 1;
          clientConnections := clientConnections[end.clientId := id];
          connections := connections[id := end];
        case ConnOpenTry(_, _, _, _, _, _, _, _, _, _) =>
          if !ConnTryValid(env, View(), host, m) { return None; }
          var end := ConnTryEnd(m, PickVersion(config.versions, m.versionsOnA).value);
          var id := ConnectionIdOf(connectionCounter);
          connectionCounter := connectionCounter + 1;
          clientConnections := clientConnections[end.clientId := id];
          connections := connections[id := end];
        case ConnOpenAck(id, idOnB, _, _, _, _, _, _, chosen) =>
          if !ConnAckValid(env, View(), host, m) { return None; }
          var end := connections[id];
          end := end.(state := ConnOpen);
          end := end.(versions := [chosen]);
          end := end.(counterparty := end.counterparty.(connectionId := Some(idOnB)));
          connections := connections[id := end];
        case ConnOpenConfirm(id, _, _) =>
          if !ConnConfirmValid(env, View(), host, m) { return None; }
          connections := connections[id := connections[id].(state := ConnOpen)];
      }
    }

    // -------------------------------------------------------------- channels

    method ChannelMessage(env: Env, host: Host, m: ChanMsg, reply: Reply) returns (out: Option<Note>)
      modifies this
      ensures HandleChannel(env, old(View()), host, m, reply) == if out.Some? then Done(View(), out.value) else Rejected
      ensures out.None? ==> View() == old(View())
    {
      hide ChanExec;
      if !ChanValid(env, View(), host, m, reply) { return None; }
      ChannelExecute(m, reply);
      out := Some(match m
                  case ChanOpenAck(k, _, _, _, _) => OpenedNote(k)
                  case ChanOpenConfirm(k, _, _) => OpenedNote(k)
                  case _ => Quiet);
    }

    method ChannelExecute(m: ChanMsg, reply: Reply)
      requires m.ChanOpenAck? ==> m.keyOnA in channels
      requires m.ChanOpenConfirm? ==> m.keyOnB in channels
      requires m.ChanCloseInit? ==> m.keyOnA in channels
      requires m.ChanCloseConfirm? ==> m.keyOnB in channels
      modifies this`channels, this`channelCounter
      ensures View() == ChanExec(old(View()), m, reply)
    {
      match m {
        case ChanOpenInit(port, hops, portOnB, ordering, version) =>
          StoreNewChannel(port, ChannelEnd(Init, ordering, Counterparty(portOnB, None), hops, version));
        case ChanOpenTry(port, hops, keyOnA, _, ordering, _, _) =>
          StoreNewChannel(port, ChannelEnd(TryOpen, ordering, RemoteOf(keyOnA), hops, TryVersion(View(), port, reply)));
        case ChanOpenAck(k, chanOnB, version, _, _) =>
          var end := channels[k].end;
          end := end.(state := Open);
          end := end.(version := version);
          end := end.(remote := end.remote.(channelId := Some(chanOnB)));
          channels := channels[k := channels[k].(end := end)];
        case ChanOpenConfirm(k, _, _) => channels := channels[k := channels[k].(end := channels[k].end.(state := Open))];
        case ChanCloseInit(k) => channels := channels[k := channels[k].(end := channels[k].end.(state := Closed))];
        case ChanCloseConfirm(k, _, _) => channels := channels[k := channels[k].(end := channels[k].end.(state := Closed))];
      }
    }

    /** The end, then the counter, then the three sequences. */
    method StoreNewChannel(port: PortId, end: ChannelEnd)
      modifies this`channels, this`channelCounter
      ensures View() == WithNewChannel(old(View()), NewKey(old(View()), port), end)
    {
      var k := NewKey(View(), port);
      channels := channels[k := Channel(end, 0, 0, 0, map[], {}, map[])];
      channelCounter := channelCounter + 1;
      channels := channels[k := channels[k].(nextSend := 1)];
      channels := channels[k := channels[k].(nextRecv := 1)];
      channels := channels[k := channels[k].(nextAck := 1)];
    }

    // -------------------------------------------------------------- packets

    method PacketMessage(env: Env, host: Host, m: PacketMsg, reply: Reply) returns (out: Option<Note>)
      modifies this
      ensures Handle(env, old(View()), host, Pkt(m), reply) == if out.Some? then Done(View(), out.value) else Rejected
      ensures out.None? ==> View() == old(View())
    {
      hide HandleRecv, HandleAck, HandleTimeout;
      match m {
        case MsgRecv(_, _, _) => out := RecvPacket(env, host, m, reply);
        case MsgAck(_, _, _, _) => out := AcknowledgementPacket(env, host, m, reply);
        case MsgTimeout(_, _, _, _) => out := TimeoutPacket(env, host, m, reply);
        case MsgTimeoutOnClose(_, _, _, _, _) => out := TimeoutPacket(env, host, m, reply);
      }
    }

    /** `send_packet` of an application other than the transfer module. */
    method SendPacket(env: Env, host: Host, p: Packet) returns (out: Option<Note>)
      modifies this
      ensures HandleSend(env, old(View()), host, p) == if out.Some? then Done(View(), out.value) else Rejected
      ensures out.None? ==> View() == old(View())
    {
      hide SendExec;
      if p.src.port == config.transferPort || !SendValid(View(), host, p) { return None; }
      SendPacketExecute(env, p);
      out := Some(SentNote(p, false));
    }

    method SendPacketExecute(env: Env, p: Packet)
      requires p.src in channels
      modifies this`channels
      ensures View() == SendExec(env, old(View()), p)
    {
      hide Commit;
      var k := p.src;
      channels := channels[k := channels[k].(nextSend := channels[k].nextSend + 1)];
      channels := channels[k := channels[k].(commitments := channels[k].commitments[p.seq_ := Commit(env, p)])];
    }

    method RecvPacket(env: Env, host: Host, m: PacketMsg, reply: Reply) returns (out: Option<Note>)
      requires m.MsgRecv?
      modifies this
      ensures HandleRecv(env, old(View()), host, m, reply) == if out.Some? then Done(View(), out.value) else Rejected
      ensures out.None? ==> View() == old(View())
    {
      hide OnRecv, Received, Proven, DelayPassed;
      if !RecvValid(env, View(), host, m) { return None; }
      var p := m.packet;
      var already := AlreadyReceived(channels[p.dst], p);
      var ack := RecvPacketExecute(env, p, reply);
      out := Some(if already then Quiet else DeliveredNote(p, ack));
    }

    /** The acknowledgement is what a first delivery writes. */
    method RecvPacketExecute(env: Env, p: Packet, reply: Reply) returns (ack: Bytes)
      requires p.dst in channels
      modifies this`channels, this`ledger
      ensures View() == RecvExec(env, old(View()), p, reply)
      ensures !AlreadyReceived(old(View()).channels[p.dst], p) ==> ack == OnRecv(env, old(View()), p, reply).1
    {
      hide OnRecv;
      var k := p.dst;
      var end := channels[k].end;
      var already :=
        match end.ordering
        case NoOrder => false
        case Unordered => p.seq_ in channels[k].receipts
        case Ordered => p.seq_ < channels[k].nextRecv;
      if already { return []; }
      ack := OnRecvPacketExecute(env, p, reply);
      if end.ordering == Unordered {
        channels := channels[k := channels[k].(receipts := channels[k].receipts + {p.seq_})];
      } else if end.ordering == Ordered {
        channels := channels[k := channels[k].(nextRecv := channels[k].nextRecv + 1)];
      }
      channels := channels[k := channels[k].(acks := channels[k].acks[p.seq_ := env.hash(ack)])];
    }

    method AcknowledgementPacket(env: Env, host: Host, m: PacketMsg, reply: Reply) returns (out: Option<Note>)
      requires m.MsgAck?
      modifies this
      ensures HandleAck(env, old(View()), host, m, reply) == if out.Some? then Done(View(), out.value) else Rejected
      ensures out.None? ==> View() == old(View())
    {
      hide OnAck, AckedChannel, Proven, DelayPassed;
      var p := m.packet;
      if !AckValid(env, View(), host, m) || OnAck(env, View(), p, m.ack, reply).None? { return None; }
      var live := p.seq_ in channels[p.src].commitments;
      var ok := AcknowledgementPacketExecute(env, p, m.ack, reply);
      if !ok { return None; }
      out := Some(if live then AckedNote(p, m.ack, m.proofHeight) else Quiet);
    }

    method AcknowledgementPacketExecute(env: Env, p: Packet, ack: Bytes, reply: Reply) returns (ok: bool)
      requires p.src in channels
      modifies this`channels, this`ledger
      ensures AckExec(env, old(View()), p, ack, reply) == if ok then Some(View()) else None
      ensures !ok ==> View() == old(View())
    {
      hide OnAck;
      var k := p.src;
      if p.seq_ !in channels[k].commitments { return true; }
      ok := OnAcknowledgementPacketExecute(env, p, ack, reply);
      if !ok { return; }
      channels := channels[k := channels[k].(commitments := channels[k].commitments - {p.seq_})];
      if channels[k].end.ordering == Ordered {
        channels := channels[k := channels[k].(nextAck := p.seq_ + 1)];
      }
      assert channels == old(channels)[k := AckedChannel(old(channels)[k], p)];
    }

    method TimeoutPacket(env: Env, host: Host, m: PacketMsg, reply: Reply) returns (out: Option<Note>)
      requires m.MsgTimeout? || m.MsgTimeoutOnClose?
      modifies this
      ensures HandleTimeout(env, old(View()), host, m, reply) == if out.Some? then Done(View(), out.value) else Rejected
      ensures out.None? ==> View() == old(View())
    {
      hide OnTimeout, TimedOutChannel, UnreceivedProven, DelayPassed, PeerEndProven;
      var p := m.packet;
      var valid := if m.MsgTimeout? then TimeoutValid(env, View(), host, m) else TimeoutOnCloseValid(env, View(), host, m);
      if !valid || OnTimeout(env, View(), p, reply).None? { return None; }
      var live := p.seq_ in channels[p.src].commitments;
      var ok := TimeoutPacketExecute(env, p, reply);
      if !ok { return None; }
      out := Some(if live then TimedOutNote(p, m.proofHeight, m.MsgTimeoutOnClose?) else Quiet);
    }

    method TimeoutPacketExecute(env: Env, p: Packet, reply: Reply) returns (ok: bool)
      requires p.src in channels
      modifies this`channels, this`ledger
      ensures TimeoutExec(env, old(View()), p, reply) == if ok then Some(View()) else None
      ensures !ok ==> View() == old(View())
    {
      hide OnTimeout;
      var k := p.src;
      if p.seq_ !in channels[k].commitments { return true; }
      ok := OnTimeoutPacketExecute(env, p, reply);
      if !ok { return; }
      channels := channels[k := channels[k].(commitments := channels[k].commitments - {p.seq_})];
      if channels[k].end.ordering == Ordered {
        channels := channels[k := channels[k].(end := channels[k].end.(state := Closed))];
      }
      assert channels == old(channels)[k := TimedOutChannel(old(channels)[k], p)];
    }

    // -------------------------------------------------------------- transfer callbacks

    method UnescrowCoinsExecute(k: ChanKey, to: Account, d: Denom, amount: nat) returns (ok: bool)
      modifies this`ledger
      ensures Move(old(ledger), d, EscrowOf(k), User(to), amount) == if ok then Some(ledger) else None
      ensures !ok ==> ledger == old(ledger)
    {
      ok := amount <= Balance(ledger, d, EscrowOf(k));
      if ok {
        ledger := SetBalance(ledger, d, EscrowOf(k), Balance(ledger, d, EscrowOf(k)) - amount);
        ledger := SetBalance(ledger, d, User(to), Balance(ledger, d, User(to)) + amount);
      }
    }

    method MintCoinsExecute(to: Account, d: Denom, amount: nat)
      modifies this`ledger
      ensures ledger == Credit(old(ledger), d, User(to), amount)
    {
      ledger := SetBalance(ledger, d, User(to), Balance(ledger, d, User(to)) + amount);
    }

    /** The coin's denomination is edited in place before it is paid out. */
    method ProcessRecvPacketExecute(p: Packet, data: PacketData, accept: bool) returns (ok: bool)
      modifies this`ledger
      ensures ProcessRecv(old(ledger), p, data, accept) == if ok then Some(ledger) else None
      ensures !ok ==> ledger == old(ledger)
    {
      hide Move, Credit;
      if !accept { return false; }
      var path := new TracePath(data.denom.trace);
      if IsReceiverChainSource(p.src, data.denom) {
        path.RemovePrefix(p.src);
        ok := UnescrowCoinsExecute(p.dst, data.receiver, Denom(path.prefixes, data.denom.base), data.amount);
      } else {
        path.AddPrefix(p.dst);
        assert path.prefixes == data.denom.trace + [p.dst];
        MintCoinsExecute(data.receiver, Denom(path.prefixes, data.denom.base), data.amount);
        ok := true;
      }
    }

    method RefundPacketTokenExecute(p: Packet, data: PacketData, accept: bool) returns (ok: bool)
      modifies this`ledger
      ensures Refund(old(ledger), p, data, accept) == if ok then Some(ledger) else None
      ensures !ok ==> ledger == old(ledger)
    {
      if !accept { return false; }
      if IsSenderChainSource(p.src, data.denom) {
        ok := UnescrowCoinsExecute(p.src, data.sender, data.denom, data.amount);
      } else {
        MintCoinsExecute(data.sender, data.denom, data.amount);
        ok := true;
      }
    }

    method OnRecvPacketExecute(env: Env, p: Packet, reply: Reply) returns (ack: Bytes)
      modifies this`ledger
      ensures (ledger, ack) == OnRecv(env, old(View()), p, reply)
    {
      hide ProcessRecv;
      if p.dst.port != config.transferPort { return reply.ack; }
      var data := Decode(env, p.data);
      if data.None? { return env.errorAck(reply.reason); }
      var ok := ProcessRecvPacketExecute(p, data.value, reply.accept);
      ack := if ok then env.successAck else env.errorAck(reply.reason);
    }

    method OnAcknowledgementPacketExecute(env: Env, p: Packet, ack: Bytes, reply: Reply) returns (ok: bool)
      modifies this`ledger
      ensures OnAck(env, old(View()), p, ack, reply) == if ok then Some(ledger) else None
      ensures !ok ==> ledger == old(ledger)
    {
      hide Refund;
      if p.src.port != config.transferPort { return reply.accept; }
      var data, status := Decode(env, p.data), env.ackStatus(ack);
      if data.None? || status.None? { return false; }
      ok := true;
      if !status.value { ok := RefundPacketTokenExecute(p, data.value, reply.accept); }
    }

    method OnTimeoutPacketExecute(env: Env, p: Packet, reply: Reply) returns (ok: bool)
      modifies this`ledger
      ensures OnTimeout(env, old(View()), p, reply) == if ok then Some(ledger) else None
      ensures !ok ==> ledger == old(ledger)
    {
      hide Refund;
      if p.src.port != config.transferPort { return reply.accept; }
      var data := Decode(env, p.data);
      if data.None? { return false; }
      ok := RefundPacketTokenExecute(p, data.value, reply.accept);
    }

    /** A transfer message is read, then sent. */
    method MsgTransfer(env: Env, host: Host, k: ChanKey, text: PacketText, th: TimeoutHeight, ts: Timestamp, reply: Reply)
      returns (out: Option<Note>)
      modifies this
      ensures HandleMsgTransfer(env, old(View()), host, k, text, th, ts, reply) ==
                if out.Some? then Done(View(), out.value) else Rejected
      ensures out.None? ==> View() == old(View())
    {
      hide HandleSendTransfer, ReadText, ValidPortId, ValidChannelId;
      if !MsgTransferReads(env, k, text, th, ts) { return None; }
      out := SendTransfer(env, host, k, ReadText(env, text).value, th, ts, reply);
    }

    /** Coins leave the sender, then the packet is committed to. */
    method SendTransfer(env: Env, host: Host, k: ChanKey, data: PacketData, th: TimeoutHeight, ts: Timestamp, reply: Reply)
      returns (out: Option<Note>)
      modifies this
      ensures HandleSendTransfer(env, old(View()), host, k, data, th, ts, reply) ==
                if out.Some? then Done(View(), out.value) else Rejected
      ensures out.None? ==> View() == old(View())
    {
      hide SendValid, TakeCoins;
      if !SendTransferValid(env, View(), host, k, data, th, ts, reply) { return None; }
      var p := TransferPacket(env, View(), k, data, th, ts);
      TakeCoinsExecute(k, data);
      SendPacketExecute(env, p);
      out := Some(SentNote(p, true));
    }

    method TakeCoinsExecute(k: ChanKey, data: PacketData)
      requires TakeCoins(ledger, k, data).Some?
      modifies this`ledger
      ensures ledger == TakeCoins(old(ledger), k, data).value
    {
      var from := User(data.sender);
      ledger := SetBalance(ledger, data.denom, from, Balance(ledger, data.denom, from) - data.amount);
      if IsSenderChainSource(k, data.denom) {
        ledger := SetBalance(ledger, data.denom, EscrowOf(k), Balance(ledger, data.denom, EscrowOf(k)) + data.amount);
      }
    }
  }
}
