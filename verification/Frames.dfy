/** What a message may change: one client, one connection or one channel, and the ledger only through the transfer module. */
module Frames {
  import opened Prelude
  import opened Heights
  import opened Paths
  import opened Denoms
  import opened Versions
  import opened Tendermint
  import opened IbcStore
  import opened Transfer
  import opened Connections
  import opened Channels
  import opened Packets
  import opened Dispatch

  /** Everything below channels is untouched. */
  ghost predicate SameBelow(s: Store, s': Store) {
    && s'.config == s.config
    && s'.clients == s.clients && s'.clientCounter == s.clientCounter
    && s'.connections == s.connections && s'.clientConnections == s.clientConnections && s'.connectionCounter == s.connectionCounter
  }

  /** At most channel `k` differs. */
  ghost predicate OnlyChannel(s: Store, s': Store, k: ChanKey) {
    s'.channels.Keys == s.channels.Keys + {k} && forall j :: j in s.channels && j != k ==> s'.channels[j] == s.channels[j]
  }

  /** Exactly one channel is new, under the next identifier, with nothing sent, received or acknowledged. */
  ghost predicate NewChannelOnly(s: Store, s': Store, port: PortId) {
    var k := TracePrefix(port, ChannelIdOf(s.channelCounter));
    && s'.channelCounter == s.channelCounter + 1
    && OnlyChannel(s, s', k)
    && s'.channels[k] == Channel(s'.channels[k].end, 1, 1, 1, map[], {}, map[])
  }

  /** Only the end of channel `k` differs. */
  ghost predicate EndOnly(s: Store, s': Store, k: ChanKey) {
    && s'.channelCounter == s.channelCounter
    && k in s.channels && OnlyChannel(s, s', k)
    && s'.channels[k] == s.channels[k].(end := s'.channels[k].end)
  }

  ghost predicate ChannelFrame(s: Store, s': Store, m: ChanMsg) {
    && SameBelow(s, s') && s'.ledger == s.ledger
    && match m
       case ChanOpenInit(port, _, _, _, _) => NewChannelOnly(s, s', port)
       case ChanOpenTry(port, _, _, _, _, _, _) => NewChannelOnly(s, s', port)
       case ChanOpenAck(k, _, _, _, _) => EndOnly(s, s', k)
       case ChanOpenConfirm(k, _, _) => EndOnly(s, s', k)
       case ChanCloseInit(k) => EndOnly(s, s', k)
       case ChanCloseConfirm(k, _, _) => EndOnly(s, s', k)
  }

  lemma ChannelMessageFrame(env: Env, s: Store, host: Host, m: ChanMsg, reply: Reply)
    requires HandleChannel(env, s, host, m, reply).Done?
    ensures ChannelFrame(s, HandleChannel(env, s, host, m, reply).store, m)
  {
    hide Proven, ClientActive, ChanInitEnd, ChanTryEnd, ChanAckEnd;
  }

  /** The receiving half of a channel: what a sender's messages leave alone. */
  ghost predicate SameReceiving(c: Channel, c': Channel) { c'.nextRecv == c.nextRecv && c'.receipts == c.receipts && c'.acks == c.acks }

  /** The sending half of a channel: what a receiver's messages leave alone. */
  ghost predicate SameSending(c: Channel, c': Channel) {
    c'.nextSend == c.nextSend && c'.nextAck == c.nextAck && c'.commitments == c.commitments && c'.end == c.end
  }

  /** All but one entry of a map of the channel is as before. */
  ghost predicate OnlyEntry(m: map<nat, Bytes>, m': map<nat, Bytes>, n: nat) { m' - {n} == m - {n} }

  /** A receiver's message changes no end and no sending half, and in the tables only its own sequence. */
  ghost predicate ReceiverHalf(c: Channel, c': Channel, n: nat) {
    SameSending(c, c') && c'.receipts - {n} == c.receipts - {n} && OnlyEntry(c.acks, c'.acks, n)
  }

  /** A sender's message changes no receiving half, of the end only the state, and in the commitments only its own sequence. */
  ghost predicate SenderHalf(c: Channel, c': Channel, n: nat) {
    && SameReceiving(c, c') && c'.nextSend == c.nextSend && OnlyEntry(c.commitments, c'.commitments, n)
    && c'.end == c.end.(state := c'.end.state)
  }

  lemma Halves(env: Env, c: Channel, p: Packet, ack: Bytes)
    ensures ReceiverHalf(c, c, p.seq_) && ReceiverHalf(c, Received(env, c, p, ack), p.seq_)
    ensures SenderHalf(c, c, p.seq_) && SenderHalf(c, AckedChannel(c, p), p.seq_) && SenderHalf(c, TimedOutChannel(c, p), p.seq_)
  {
  }

  ghost predicate PacketFrame(s: Store, s': Store, m: PacketMsg) {
    var k := if m.MsgRecv? then m.packet.dst else m.packet.src;
    && SameBelow(s, s') && s'.channelCounter == s.channelCounter
    && k in s.channels && OnlyChannel(s, s', k)
    && (k.port != s.config.transferPort ==> s'.ledger == s.ledger)
    && var c, c', n := s.channels[k], s'.channels[k], m.packet.seq_;
       if m.MsgRecv? then ReceiverHalf(c, c', n) else SenderHalf(c, c', n)
  }

  lemma Written(s: Store, k: ChanKey, c: Channel, l: Ledger)
    requires k in s.channels
    ensures var s' := WithChannel(s, k, c).(ledger := l);
            && SameBelow(s, s') && s'.channelCounter == s.channelCounter && s'.ledger == l
            && OnlyChannel(s, s', k) && k in s'.channels && s'.channels[k] == c
    ensures SameBelow(s, s) && OnlyChannel(s, s, k)
  {
  }

  lemma RecvFrame(env: Env, s: Store, host: Host, m: PacketMsg, reply: Reply)
    requires m.MsgRecv? && HandleRecv(env, s, host, m, reply).Done?
    ensures PacketFrame(s, HandleRecv(env, s, host, m, reply).store, m)
  {
    hide RecvValid, ProcessRecv, Decode, ReceiverHalf, Received, AlreadyReceived;
    RecvNeeds(env, s, host, m);
    Halves(env, s.channels[m.packet.dst], m.packet, OnRecv(env, s, m.packet, reply).1);
  }

  lemma RecvNeeds(env: Env, s: Store, host: Host, m: PacketMsg)
    requires m.MsgRecv? && RecvValid(env, s, host, m)
    ensures m.packet.dst in s.channels
  {
    hide Proven, DelayPassed, PacketDecodes, HasExpired, CheckExpiry;
  }

  lemma AckFrame(env: Env, s: Store, host: Host, m: PacketMsg, reply: Reply)
    requires m.MsgAck? && HandleAck(env, s, host, m, reply).Done?
    ensures PacketFrame(s, HandleAck(env, s, host, m, reply).store, m)
  {
    hide AckValid, OnAck, SenderHalf, AckedChannel, WithChannel, SameBelow, OnlyChannel;
    AckNeeds(env, s, host, m);
    var c := s.channels[m.packet.src];
    Halves(env, c, m.packet, []);
    Written(s, m.packet.src, AckedChannel(c, m.packet), HandleAck(env, s, host, m, reply).store.ledger);
    if m.packet.src.port != s.config.transferPort { ForeignCallbacks(env, s, m.packet, m.ack, reply); }
  }

  lemma AckNeeds(env: Env, s: Store, host: Host, m: PacketMsg)
    requires m.MsgAck? && AckValid(env, s, host, m)
    ensures m.packet.src in s.channels
  {
    hide Proven, DelayPassed, PacketDecodes, Commit;
  }

  lemma ForeignCallbacks(env: Env, s: Store, p: Packet, ack: Bytes, reply: Reply)
    requires p.src.port != s.config.transferPort
    ensures OnAck(env, s, p, ack, reply).Some? ==> OnAck(env, s, p, ack, reply).value == s.ledger
    ensures OnTimeout(env, s, p, reply).Some? ==> OnTimeout(env, s, p, reply).value == s.ledger
  {
  }

  lemma TimeoutFrame(env: Env, s: Store, host: Host, m: PacketMsg, reply: Reply)
    requires (m.MsgTimeout? || m.MsgTimeoutOnClose?) && HandleTimeout(env, s, host, m, reply).Done?
    ensures PacketFrame(s, HandleTimeout(env, s, host, m, reply).store, m)
  {
    hide OnTimeout, TimeoutValid, TimeoutOnCloseValid, SenderHalf, TimedOutChannel, WithChannel, SameBelow, OnlyChannel;
    TimeoutNeeds(env, s, host, m, reply);
    var c := s.channels[m.packet.src];
    Halves(env, c, m.packet, []);
    Written(s, m.packet.src, TimedOutChannel(c, m.packet), HandleTimeout(env, s, host, m, reply).store.ledger);
    if m.packet.src.port != s.config.transferPort { ForeignCallbacks(env, s, m.packet, [], reply); }
  }

  lemma TimeoutNeeds(env: Env, s: Store, host: Host, m: PacketMsg, reply: Reply)
    requires (m.MsgTimeout? || m.MsgTimeoutOnClose?) && HandleTimeout(env, s, host, m, reply).Done?
    ensures m.packet.src in s.channels
  {
    hide Proven, DelayPassed, UnreceivedProven, PeerEndProven, PacketDecodes, OnTimeout, Commit, PacketTimedOut, ProofReady, TimedOutChannel;
  }

  // ---------------------------------------------------------------- connections and clients

  ghost predicate SameChannels(s: Store, s': Store) {
    s'.config == s.config && s'.channels == s.channels && s'.channelCounter == s.channelCounter && s'.ledger == s.ledger
  }

  ghost predicate OnlyConnection(s: Store, s': Store, c: ConnectionId) {
    && s'.clients == s.clients && s'.clientCounter == s.clientCounter && SameChannels(s, s')
    && s'.connections.Keys == s.connections.Keys + {c}
    && forall d :: d in s.connections && d != c ==> s'.connections[d] == s.connections[d]
  }

  /** Exactly one connection is new, under the next identifier, which becomes the one stored for its client. */
  ghost predicate NewConnectionOnly(s: Store, s': Store, client: ClientId) {
    var c := ConnectionIdOf(s.connectionCounter);
    && OnlyConnection(s, s', c)
    && s'.connectionCounter == s.connectionCounter + 1
    && s'.clientConnections == s.clientConnections[client := c]
  }

  ghost predicate OldConnectionOnly(s: Store, s': Store, c: ConnectionId) {
    && c in s.connections && OnlyConnection(s, s', c)
    && s'.connectionCounter == s.connectionCounter && s'.clientConnections == s.clientConnections
  }

  ghost predicate ConnectionFrame(s: Store, s': Store, m: ConnMsg) {
    match m
    case ConnOpenInit(client, _, _, _) => NewConnectionOnly(s, s', client)
    case ConnOpenTry(client, _, _, _, _, _, _, _, _, _) => NewConnectionOnly(s, s', client)
    case ConnOpenAck(c, _, _, _, _, _, _, _, _) => OldConnectionOnly(s, s', c)
    case ConnOpenConfirm(c, _, _) => OldConnectionOnly(s, s', c)
  }

  lemma ConnectionMessageFrame(env: Env, s: Store, host: Host, m: ConnMsg)
    requires HandleConnection(env, s, host, m).Some?
    ensures ConnectionFrame(s, HandleConnection(env, s, host, m).value, m)
  {
    hide Proven, PickVersion, IsSupported, ClientActive;
  }

  ghost predicate ClientFrame(s: Store, s': Store, m: ClientMsg) {
    var c := if m.CreateClient? then ClientIdOf(s.clientCounter) else m.clientId;
    && SameChannels(s, s')
    && s'.connections == s.connections && s'.clientConnections == s.clientConnections && s'.connectionCounter == s.connectionCounter
    && s'.clientCounter == s.clientCounter + (if m.CreateClient? then 1 else 0)
    && s'.clients.Keys == s.clients.Keys + {c}
    && (c in s.clients <==> !m.CreateClient?)
    && forall d :: d in s.clients && d != c ==> s'.clients[d] == s.clients[d]
  }

  lemma ClientMessageFrame(env: Env, s: Store, host: Host, m: ClientMsg)
    requires HandleClient(env, s, host, m).Some?
    ensures ClientFrame(s, HandleClient(env, s, host, m).value, m)
  {
    hide HandleUpdate, HandleUpgrade, Initialised;
  }

  ghost predicate Framed(s: Store, s': Store, m: Msg) {
    match m
    case Client(c) => ClientFrame(s, s', c)
    case Conn(c) => ConnectionFrame(s, s', c)
    case Chan(c) => ChannelFrame(s, s', c)
    case Pkt(p) => PacketFrame(s, s', p)
  }

  /**
   Whatever a message does, it does to the one client, connection or channel it names. A packet message touches only its own
   half of the channel and, in tables kept per packet, only its own sequence; balances move only through the transfer port.
   */
  lemma MessageFrame(env: Env, s: Store, host: Host, m: Msg, reply: Reply)
    requires Handle(env, s, host, m, reply).Done?
    ensures Framed(s, Handle(env, s, host, m, reply).store, m)
  {
    hide HandleClient, HandleConnection, HandleChannel, HandleRecv, HandleAck, HandleTimeout, ClientFrame, ConnectionFrame, ChannelFrame,
         PacketFrame;
    match m
    case Client(c) => ClientMessageFrame(env, s, host, c);
    case Conn(c) => ConnectionMessageFrame(env, s, host, c);
    case Chan(c) => ChannelMessageFrame(env, s, host, c, reply);
    case Pkt(p) =>
      if p.MsgRecv? { RecvFrame(env, s, host, p, reply); }
      else if p.MsgAck? { AckFrame(env, s, host, p, reply); }
      else { TimeoutFrame(env, s, host, p, reply); }
  }

  /** A sent packet adds one commitment, moves one sequence and changes nothing else; a transfer also moves coins. */
  ghost predicate SendFrame(s: Store, s': Store, p: Packet) {
    && SameBelow(s, s') && s'.channelCounter == s.channelCounter
    && p.src in s.channels && OnlyChannel(s, s', p.src)
    && var c, c' := s.channels[p.src], s'.channels[p.src];
       && c' == c.(nextSend := c.nextSend + 1, commitments := c'.commitments)
       && p.seq_ == c.nextSend && p.seq_ in c'.commitments && OnlyEntry(c.commitments, c'.commitments, p.seq_)
  }

  lemma SendingFrame(env: Env, s: Store, host: Host, p: Packet)
    requires HandleSend(env, s, host, p).Done?
    ensures SendFrame(s, HandleSend(env, s, host, p).store, p) && HandleSend(env, s, host, p).store.ledger == s.ledger
  {
    hide ClientActive, HasExpired, CheckExpiry, PacketTypesOk;
  }
}
