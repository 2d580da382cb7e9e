/** Every channel of the transfer port is unordered and, once past Init, speaks the ICS-20 version. */
module TransferChannels {
  import opened Heights
  import opened Tendermint
  import opened IbcStore
  import opened Transfer
  import opened Connections
  import opened Channels
  import opened Packets
  import opened Dispatch
  import opened World
  import opened Runs
  import opened Accounting

  ghost predicate TransferEnd(e: ChannelEnd) {
    e.ordering == Unordered && (if e.state == Init then e.remote.channelId.None? else e.version == VERSION)
  }

  ghost predicate TransferEnds(s: Store) {
    forall k :: k in s.channels && k.port == s.config.transferPort ==> TransferEnd(s.channels[k].end)
  }

  /** Changing one channel of the transfer port to another well-formed end. */
  lemma OneEnd(s: Store, s': Store, k: ChanKey)
    requires TransferEnds(s) && s'.config == s.config && k in s'.channels && s'.channels == s.channels[k := s'.channels[k]]
    requires k.port == s.config.transferPort ==> TransferEnd(s'.channels[k].end)
    ensures TransferEnds(s')
  {
  }

  /** Only the module's own checks on ordering and version make this true. */
  lemma ChannelKeepsEnds(env: Env, s: Store, host: Host, m: ChanMsg, reply: Reply)
    requires TransferEnds(s) && ChanValid(env, s, host, m, reply)
    ensures TransferEnds(ChanExec(s, m, reply))
  {
    hide Proven, ClientActive, TransferEnds, FeatureSupported;
    var s' := ChanExec(s, m, reply);
    var k :=
      match m
      case ChanOpenInit(port, _, _, _, _) => NewKey(s, port)
      case ChanOpenTry(port, _, _, _, _, _, _) => NewKey(s, port)
      case ChanOpenAck(k, _, _, _, _) => k
      case ChanOpenConfirm(k, _, _) => k
      case ChanCloseInit(k) => k
      case ChanCloseConfirm(k, _, _) => k;
    if k in s.channels { EndAtKey(s, k); }
    OneEnd(s, s', k);
  }

  lemma EndAtKey(s: Store, k: ChanKey)
    requires TransferEnds(s) && k in s.channels
    ensures k.port == s.config.transferPort ==> TransferEnd(s.channels[k].end)
  {
  }

  /** Only channel `k` moved, and its end only if the channel is ordered. */
  ghost predicate EndKept(s: Store, s': Store, k: ChanKey) {
    && s'.config == s.config && k in s.channels && k in s'.channels
    && s'.channels == s.channels[k := s'.channels[k]]
    && (s'.channels[k].end == s.channels[k].end || s.channels[k].end.ordering == Ordered)
  }

  lemma RecvKeepsEnd(env: Env, s: Store, host: Host, m: PacketMsg, reply: Reply)
    requires m.MsgRecv? && HandleRecv(env, s, host, m, reply).Done?
    ensures EndKept(s, HandleRecv(env, s, host, m, reply).store, m.packet.dst)
  {
    hide RecvValid, OnRecv, AlreadyReceived;
    RecvTarget(env, s, host, m);
  }

  lemma AckKeepsEnd(env: Env, s: Store, host: Host, m: PacketMsg, reply: Reply)
    requires m.MsgAck? && HandleAck(env, s, host, m, reply).Done?
    ensures EndKept(s, HandleAck(env, s, host, m, reply).store, m.packet.src)
  {
    hide AckValid, OnAck;
    AckTarget(env, s, host, m);
  }

  lemma TimeoutKeepsEnd(env: Env, s: Store, host: Host, m: PacketMsg, reply: Reply)
    requires (m.MsgTimeout? || m.MsgTimeoutOnClose?) && HandleTimeout(env, s, host, m, reply).Done?
    ensures EndKept(s, HandleTimeout(env, s, host, m, reply).store, m.packet.src)
  {
    hide TimeoutValid, TimeoutOnCloseValid, OnTimeout;
    TimeoutTarget(env, s, host, m);
  }

  /** A packet message keeps every end, except that an ordered timeout closes one. */
  lemma PacketKeepsEnds(env: Env, s: Store, host: Host, m: PacketMsg, reply: Reply)
    requires TransferEnds(s) && Handle(env, s, host, Pkt(m), reply).Done?
    ensures TransferEnds(Handle(env, s, host, Pkt(m), reply).store)
  {
    hide HandleRecv, HandleAck, HandleTimeout, TransferEnds;
    if m.MsgRecv? { RecvKeepsEnd(env, s, host, m, reply); }
    else if m.MsgAck? { AckKeepsEnd(env, s, host, m, reply); }
    else { TimeoutKeepsEnd(env, s, host, m, reply); }
    var k := if m.MsgRecv? then m.packet.dst else m.packet.src;
    EndAtKey(s, k);
    OneEnd(s, Handle(env, s, host, Pkt(m), reply).store, k);
  }

  lemma MessageKeepsEnds(env: Env, s: Store, host: Host, m: Msg, reply: Reply)
    requires TransferEnds(s) && Handle(env, s, host, m, reply).Done?
    ensures TransferEnds(Handle(env, s, host, m, reply).store)
  {
    hide HandleClient, HandleConnection, ChanValid, ChanExec, HandleRecv, HandleAck, HandleTimeout, TransferEnds;
    match m
    case Client(c) => ClientKeepsEnds(env, s, host, c);
    case Conn(c) => ConnectionKeepsEnds(env, s, host, c);
    case Chan(c) => ChannelKeepsEnds(env, s, host, c, reply);
    case Pkt(p) => PacketKeepsEnds(env, s, host, p, reply);
  }

  lemma ClientKeepsEnds(env: Env, s: Store, host: Host, m: ClientMsg)
    requires TransferEnds(s) && HandleClient(env, s, host, m).Some?
    ensures TransferEnds(HandleClient(env, s, host, m).value)
  {
    hide HandleUpdate, HandleUpgrade, Initialised;
    assert HandleClient(env, s, host, m).value.channels == s.channels;
  }

  lemma ConnectionKeepsEnds(env: Env, s: Store, host: Host, m: ConnMsg)
    requires TransferEnds(s) && HandleConnection(env, s, host, m).Some?
    ensures TransferEnds(HandleConnection(env, s, host, m).value)
  {
    hide ConnInitValid, ConnTryValid, ConnAckValid, ConnConfirmValid, ConnInitEnd, ConnTryEnd, ConnAckEnd;
    assert HandleConnection(env, s, host, m).value.channels == s.channels;
  }

  lemma SendKeepsEnds(env: Env, s: Store, p: Packet, l: Ledger)
    requires TransferEnds(s) && p.src in s.channels
    ensures TransferEnds(SendExec(env, s, p).(ledger := l))
  {
    hide TransferEnds, Commit;
    EndAtKey(s, p.src);
    OneEnd(s, SendExec(env, s, p).(ledger := l), p.src);
  }

  lemma StepKeepsEnds(env: Env, x: Node, l: Label)
    requires TransferEnds(x.store)
    ensures TransferEnds(Step(env, x, l).store)
  {
    hide Handle, HandleMsgTransfer, Record, Move, Credit, Commit, ClientActive, HasExpired, CheckExpiry;
    match l
    case Dispatched(m, reply, own) =>
      if Handle(env, x.store, HostOf(x, own), m, reply).Done? { MessageKeepsEnds(env, x.store, HostOf(x, own), m, reply); }
    case SendPacket(p) =>
      var out := HandleSend(env, x.store, HostOf(x, map[]), p);
      if out.Done? { SendKeepsEnds(env, x.store, p, out.store.ledger); }
    case SendTransfer(k, text, th, ts, reply) =>
      SendTransferShape(env, x.store, HostOf(x, map[]), k, text, th, ts, reply);
      var out := HandleMsgTransfer(env, x.store, HostOf(x, map[]), k, text, th, ts, reply);
      if out.Done? { SendKeepsEnds(env, x.store, out.note.packet, out.store.ledger); }
    case _ =>
  }

  lemma {:induction false} RunKeepsEnds(env: Env, w: Pair, es: seq<Event>)
    requires TransferEnds(w.a.store) && TransferEnds(w.b.store)
    ensures TransferEnds(Run(env, w, es).a.store) && TransferEnds(Run(env, w, es).b.store)
    decreases |es|
  {
    hide TransferEnds, Step;
    if |es| > 0 {
      match es[0] {
        case OnA(l) => StepKeepsEnds(env, w.a, l);
        case OnB(l) => StepKeepsEnds(env, w.b, l);
      }
      RunKeepsEnds(env, Next(env, w, es[0]), es[1..]);
    }
  }

  /** Over every run, on both chains. */
  lemma TransferChannelsAreUnordered(env: Env, w: Pair)
    requires Reachable(env, w)
    ensures TransferEnds(w.a.store) && TransferEnds(w.b.store)
  {
    hide RunAdmissible, Run;
    var w0: Pair, es: seq<Event> :| Genesis(w0.a) && Genesis(w0.b) && RunAdmissible(env, w0, es) && w == Run(env, w0, es);
    RunKeepsEnds(env, w0, es);
  }
}
