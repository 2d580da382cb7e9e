/** A frozen or expired client stays so, and everything above it stands still. */
module Halting {
  import opened Prelude
  import opened Heights
  import opened Paths
  import opened Versions
  import opened Tendermint
  import opened IbcStore
  import opened Transfer
  import opened Connections
  import opened Channels
  import opened Packets
  import opened Dispatch
  import opened World
  import opened Invariants
  import opened NodeSteps
  import opened HandshakeSteps
  import opened Runs

  /** At the given time the client is frozen, lacks its latest state, or its latest state is older than the trusting period. */
  ghost predicate Inactive(s: Store, time: nat, c: ClientId) {
    && c in s.clients
    && var cl := s.clients[c];
       || cl.state.frozenHeight.Some?
       || cl.state.latestHeight !in cl.consensus
       || time > cl.consensus[cl.state.latestHeight].timestamp + cl.state.trustingPeriod
  }

  /** The connection runs over the client. */
  ghost predicate ConnOver(s: Store, c: ClientId, id: ConnectionId) { id in s.connections && s.connections[id].clientId == c }

  /** The channel runs over the client. */
  ghost predicate ChanOver(s: Store, c: ClientId, k: ChanKey) {
    k in s.channels && HasConnection(s, s.channels[k].end) && ConnectionOf(s, s.channels[k].end).clientId == c
  }

  /** The client, its connections and its channels, with all their sequences, commitments, receipts and acknowledgements, are as before. */
  ghost predicate Halted(s: Store, s': Store, c: ClientId) {
    && c in s.clients && c in s'.clients && s'.clients[c] == s.clients[c]
    && (c in s'.clientConnections <==> c in s.clientConnections)
    && (c in s.clientConnections ==> s'.clientConnections[c] == s.clientConnections[c])
    && (forall id :: ConnOver(s', c, id) <==> ConnOver(s, c, id))
    && (forall id :: ConnOver(s, c, id) ==> s'.connections[id] == s.connections[id])
    && (forall k :: ChanOver(s', c, k) <==> ChanOver(s, c, k))
    && (forall k :: ChanOver(s, c, k) ==> s'.channels[k] == s.channels[k])
  }

  /** Every channel end names a stored connection. */
  ghost predicate Grounded(s: Store) { forall k :: k in s.channels ==> HasConnection(s, s.channels[k].end) }

  /** A change of one channel that does not run over `c`, before or after. */
  lemma ChannelHalts(s: Store, s': Store, c: ClientId, k: ChanKey)
    requires c in s.clients && s'.clients == s.clients && s'.connections == s.connections && s'.clientConnections == s.clientConnections
    requires k in s'.channels && s'.channels == s.channels[k := s'.channels[k]]
    requires !ChanOver(s, c, k) && !ChanOver(s', c, k)
    ensures Halted(s, s', c)
  {
  }

  /** A change of one connection that does not run over `c`, before or after. */
  lemma ConnectionHalts(s: Store, s': Store, c: ClientId, id: ConnectionId)
    requires c in s.clients && s'.clients == s.clients && s'.channels == s.channels && Grounded(s)
    requires id in s'.connections && s'.connections == s.connections[id := s'.connections[id]]
    requires !ConnOver(s, c, id) && !ConnOver(s', c, id)
    requires s'.clientConnections == s.clientConnections || s'.clientConnections == s.clientConnections[s'.connections[id].clientId := id]
    ensures Halted(s, s', c)
  {
    forall k ensures ChanOver(s', c, k) <==> ChanOver(s, c, k) {
      if k in s.channels { assert HasConnection(s, s.channels[k].end); }
    }
  }

  lemma ClientMessageHalts(env: Env, s: Store, host: Host, m: ClientMsg, c: ClientId)
    requires Inactive(s, host.time, c) && HandleClient(env, s, host, m).Some?
    ensures Halted(s, HandleClient(env, s, host, m).value, c)
  {
    hide Updated, VerifyClientMessage, ShowsMisbehaviour, FrozenClient, PruneOverflows, Initialised;
    var s' := HandleClient(env, s, host, m).value;
    assert s'.clients[c] == s.clients[c];
  }

  lemma ConnectionMessageHalts(env: Env, s: Store, host: Host, m: ConnMsg, c: ClientId)
    requires Inactive(s, host.time, c) && Grounded(s) && IdsFresh(s) && HandleConnection(env, s, host, m).Some?
    ensures Halted(s, HandleConnection(env, s, host, m).value, c)
  {
    hide Halted, PickVersion, IsSupported, Grounded, IdsFresh;
    var s' := HandleConnection(env, s, host, m).value;
    ConnectionIsNew(s);
    match m
    case ConnOpenInit(_, _, _, _) => ConnectionHalts(s, s', c, ConnectionIdOf(s.connectionCounter));
    case ConnOpenTry(_, _, _, _, _, _, _, _, _, _) => ConnectionHalts(s, s', c, ConnectionIdOf(s.connectionCounter));
    case ConnOpenAck(id, _, _, _, _, _, _, _, _) => ConnectionHalts(s, s', c, id);
    case ConnOpenConfirm(id, _, _) => ConnectionHalts(s, s', c, id);
  }

  lemma ChannelMessageHalts(env: Env, s: Store, host: Host, m: ChanMsg, reply: Reply, c: ClientId)
    requires Inactive(s, host.time, c) && IdsFresh(s) && ChanValid(env, s, host, m, reply)
    ensures Halted(s, ChanExec(s, m, reply), c)
  {
    hide Halted, IdsFresh, InitAccepted, TryAccepted, OpenAckAccepted, OpenConfirmAccepted, CloseInitAccepted;
    var s' := ChanExec(s, m, reply);
    match m
    case ChanOpenInit(port, _, _, _, _) =>
      KeyIsNew(s, NewKey(s, port));
      ChannelHalts(s, s', c, NewKey(s, port));
    case ChanOpenTry(port, _, _, _, _, _, _) =>
      KeyIsNew(s, NewKey(s, port));
      ChannelHalts(s, s', c, NewKey(s, port));
    case ChanOpenAck(k, _, _, _, _) => ChannelHalts(s, s', c, k);
    case ChanOpenConfirm(k, _, _) => ChannelHalts(s, s', c, k);
    case ChanCloseInit(k) => ChannelHalts(s, s', c, k);
    case ChanCloseConfirm(k, _, _) => ChannelHalts(s, s', c, k);
  }

  lemma NothingHalts(s: Store, s': Store, c: ClientId)
    requires c in s.clients && s'.clients == s.clients && s'.connections == s.connections && s'.channels == s.channels
    requires s'.clientConnections == s.clientConnections
    ensures Halted(s, s', c)
  {
  }

  /** The channel a callback ran on. */
  function NoteKey(note: Note): Option<ChanKey> {
    match note
    case Quiet => None
    case DeliveredNote(p, _) => Some(p.dst)
    case OpenedNote(k) => Some(k)
    case SentNote(p, _) => Some(p.src)
    case AckedNote(p, _, _) => Some(p.src)
    case TimedOutNote(p, _, _) => Some(p.src)
  }

  /** An outcome that leaves everything over `c` alone and runs no callback on its channels. */
  ghost predicate Spares(s: Store, out: Outcome, c: ClientId) {
    out.Done? ==> Halted(s, out.store, c) && (NoteKey(out.note).Some? ==> !ChanOver(s, c, NoteKey(out.note).value))
  }

  lemma RecvSpares(env: Env, s: Store, host: Host, m: PacketMsg, reply: Reply, c: ClientId)
    requires Inactive(s, host.time, c) && m.MsgRecv?
    ensures Spares(s, HandleRecv(env, s, host, m, reply), c)
  {
    hide Halted, OnRecv, Commit, AlreadyReceived, SequenceAccepted, DelayPassed;
    var out := HandleRecv(env, s, host, m, reply);
    if out.Done? { if out.note.Quiet? { NothingHalts(s, out.store, c); } else { ChannelHalts(s, out.store, c, m.packet.dst); } }
  }

  /** An acknowledgement that is not a no-op needs a proof, and a proof needs an active client. */
  lemma AckSpares(env: Env, s: Store, host: Host, m: PacketMsg, reply: Reply, c: ClientId)
    requires Inactive(s, host.time, c) && m.MsgAck?
    ensures Spares(s, HandleAck(env, s, host, m, reply), c)
  {
    hide Halted, OnAck, Commit, DelayPassed;
    var out := HandleAck(env, s, host, m, reply);
    if out.Done? { if out.note.Quiet? { NothingHalts(s, out.store, c); } else { ChannelHalts(s, out.store, c, m.packet.src); } }
  }

  lemma TimeoutSpares(env: Env, s: Store, host: Host, m: PacketMsg, reply: Reply, c: ClientId)
    requires Inactive(s, host.time, c) && (m.MsgTimeout? || m.MsgTimeoutOnClose?)
    ensures Spares(s, HandleTimeout(env, s, host, m, reply), c)
  {
    hide Halted, OnTimeout, Commit, DelayPassed, UnreceivedProven, PacketTimedOut;
    var out := HandleTimeout(env, s, host, m, reply);
    if out.Done? { if out.note.Quiet? { NothingHalts(s, out.store, c); } else { ChannelHalts(s, out.store, c, m.packet.src); } }
  }

  lemma ChannelMessageSpares(env: Env, s: Store, host: Host, m: ChanMsg, reply: Reply, c: ClientId)
    requires Inactive(s, host.time, c) && IdsFresh(s)
    ensures Spares(s, HandleChannel(env, s, host, m, reply), c)
  {
    hide Halted, IdsFresh, ChanExec;
    if ChanValid(env, s, host, m, reply) { ChannelMessageHalts(env, s, host, m, reply, c); }
  }

  lemma MessageSpares(env: Env, s: Store, host: Host, m: Msg, reply: Reply, c: ClientId)
    requires Inactive(s, host.time, c) && Grounded(s) && IdsFresh(s)
    ensures Spares(s, Handle(env, s, host, m, reply), c)
  {
    hide Halted, IdsFresh, Grounded, HandleClient, HandleConnection, HandleChannel, HandleRecv, HandleAck, HandleTimeout;
    match m
    case Client(cm) => if HandleClient(env, s, host, cm).Some? { ClientMessageHalts(env, s, host, cm, c); }
    case Conn(cm) => if HandleConnection(env, s, host, cm).Some? { ConnectionMessageHalts(env, s, host, cm, c); }
    case Chan(cm) => ChannelMessageSpares(env, s, host, cm, reply, c);
    case Pkt(p) =>
      match p {
        case MsgRecv(_, _, _) => RecvSpares(env, s, host, p, reply, c);
        case MsgAck(_, _, _, _) => AckSpares(env, s, host, p, reply, c);
        case MsgTimeout(_, _, _, _) => TimeoutSpares(env, s, host, p, reply, c);
        case MsgTimeoutOnClose(_, _, _, _, _) => TimeoutSpares(env, s, host, p, reply, c);
      }
  }

  lemma SendSpares(env: Env, s: Store, host: Host, p: Packet, l: Ledger, c: ClientId)
    requires Inactive(s, host.time, c) && SendValid(s, host, p)
    ensures Halted(s, SendExec(env, s, p).(ledger := l), c) && !ChanOver(s, c, p.src)
  {
    hide Halted, Commit;
    ChannelHalts(s, SendExec(env, s, p).(ledger := l), c, p.src);
  }

  // ---------------------------------------------------------------- over whole runs

  ghost predicate StandsStill(x: Node, x': Node, c: ClientId) {
    && Inactive(x.store, x.time, c) && Inactive(x'.store, x'.time, c)
    && Halted(x.store, x'.store, c)
    && (forall k :: ChanOver(x.store, c, k) ==> TraceAt(x'.traces, k) == TraceAt(x.traces, k))
  }

  lemma SparedStandsStill(x: Node, out: Outcome, c: ClientId)
    requires Inactive(x.store, x.time, c) && Spares(x.store, out, c)
    ensures StandsStill(x, Absorb(x, out), c)
  {
    hide ChanOver, ConnOver;
  }

  lemma LocalGrounded(env: Env, x: Node)
    requires LocalInv(env, x)
    ensures Grounded(x.store) && IdsFresh(x.store)
  {
    hide SnapshotOk, SendInv, AckOrderInv, RecvInv, IdsFresh;
    forall k | k in x.store.channels ensures HasConnection(x.store, x.store.channels[k].end) {
      assert ChanInv(env, x.store, k, x.store.channels[k], TraceAt(x.traces, k));
    }
  }

  lemma StepStandsStill(env: Env, x: Node, l: Label, c: ClientId)
    requires LocalInv(env, x) && Inactive(x.store, x.time, c)
    ensures StandsStill(x, Step(env, x, l), c)
  {
    hide LocalInv, Handle, Spares, Absorb, StandsStill, HandleSend, HandleMsgTransfer, Move, Credit, Grounded, IdsFresh;
    LocalGrounded(env, x);
    match l
    case Dispatched(m, reply, own) =>
      MessageSpares(env, x.store, HostOf(x, own), m, reply, c);
      SparedStandsStill(x, Handle(env, x.store, HostOf(x, own), m, reply), c);
    case SendPacket(p) =>
      SendPacketSpares(env, x.store, HostOf(x, map[]), p, c);
      SparedStandsStill(x, HandleSend(env, x.store, HostOf(x, map[]), p), c);
    case SendTransfer(k, text, th, ts, reply) =>
      SendTransferSpares(env, x.store, HostOf(x, map[]), k, text, th, ts, reply, c);
      SparedStandsStill(x, HandleMsgTransfer(env, x.store, HostOf(x, map[]), k, text, th, ts, reply), c);
    case _ => OtherStandsStill(x, Step(env, x, l), c);
  }

  lemma SendPacketSpares(env: Env, s: Store, host: Host, p: Packet, c: ClientId)
    requires Inactive(s, host.time, c)
    ensures Spares(s, HandleSend(env, s, host, p), c)
  {
    hide Halted, ChanOver, Commit;
    var out := HandleSend(env, s, host, p);
    if out.Done? { SendSpares(env, s, host, p, out.store.ledger, c); }
  }

  lemma SendTransferSpares(env: Env, s: Store, host: Host, k: ChanKey, text: PacketText, th: TimeoutHeight, ts: Timestamp,
                           reply: Reply, c: ClientId)
    requires Inactive(s, host.time, c)
    ensures Spares(s, HandleMsgTransfer(env, s, host, k, text, th, ts, reply), c)
  {
    hide Halted, SendValid, ChanOver, HandleMsgTransfer, SendExec;
    SendTransferShape(env, s, host, k, text, th, ts, reply);
    var out := HandleMsgTransfer(env, s, host, k, text, th, ts, reply);
    if out.Done? { SendSpares(env, s, host, out.note.packet, out.store.ledger, c); }
  }

  lemma OtherStandsStill(x: Node, x': Node, c: ClientId)
    requires Inactive(x.store, x.time, c) && x'.traces == x.traces && x.time <= x'.time
    requires x'.store.clients == x.store.clients && x'.store.connections == x.store.connections && x'.store.channels == x.store.channels
    requires x'.store.clientConnections == x.store.clientConnections
    ensures StandsStill(x, x', c)
  {
    NothingHalts(x.store, x'.store, c);
  }

  lemma StandsStillTransitive(x: Node, x': Node, x'': Node, c: ClientId)
    requires StandsStill(x, x', c) && StandsStill(x', x'', c)
    ensures StandsStill(x, x'', c)
  {
    hide ChanOver, ConnOver, TraceAt;
  }

  function Side(w: Pair, onA: bool): Node { if onA then w.a else w.b }

  lemma NextStandsStill(env: Env, w: Pair, e: Event, onA: bool, c: ClientId)
    requires PairInv(env, w) && Inactive(Side(w, onA).store, Side(w, onA).time, c)
    ensures StandsStill(Side(w, onA), Side(Next(env, w, e), onA), c)
  {
    hide LocalInv, PeerInv, Step, StandsStill;
    if e.OnA? == onA {
      StepStandsStill(env, Side(w, onA), e.step, c);
    } else {
      OtherStandsStill(Side(w, onA), Side(w, onA), c);
    }
  }

  lemma {:induction false} RunStandsStill(env: Env, w: Pair, es: seq<Event>, onA: bool, c: ClientId)
    requires Contracts(env) && PairInv(env, w) && RunAdmissible(env, w, es) && Inactive(Side(w, onA).store, Side(w, onA).time, c)
    ensures StandsStill(Side(w, onA), Side(Run(env, w, es), onA), c)
    decreases |es|
  {
    hide Contracts, PairInv, EventAdmissible, StandsStill, Next;
    if |es| == 0 {
      OtherStandsStill(Side(w, onA), Side(w, onA), c);
    } else {
      var w' := Next(env, w, es[0]);
      NextKeeps(env, w, es[0]);
      NextStandsStill(env, w, es[0], onA, c);
      StillInactive(Side(w, onA), Side(w', onA), c);
      RunStandsStill(env, w', es[1..], onA, c);
      StandsStillTransitive(Side(w, onA), Side(w', onA), Side(Run(env, w, es), onA), c);
    }
  }

  lemma StillInactive(x: Node, x': Node, c: ClientId)
    requires StandsStill(x, x', c)
    ensures Inactive(x'.store, x'.time, c)
  {
  }

  /**
   From the moment a client of either chain is frozen or expired, over every further run, the client, its connection ends
   and its channel ends never change again, none are added over it, and no callback runs on its channels.
   */
  lemma InactiveForever(env: Env, w: Pair, es: seq<Event>, onA: bool, c: ClientId)
    requires Contracts(env) && Reachable(env, w) && RunAdmissible(env, w, es)
    requires Inactive(Side(w, onA).store, Side(w, onA).time, c)
    ensures StandsStill(Side(w, onA), Side(Run(env, w, es), onA), c)
  {
    hide *;
    ReachableInv(env, w);
    RunStandsStill(env, w, es, onA, c);
  }

  /**
   The boundary: a connection can be opened over a client exactly while it is unfrozen and its latest state is no older
   than the trusting period, the last moment included.
   */
  lemma OpensExactlyWhileTrusted(env: Env, s: Store, host: Host, m: ConnMsg)
    requires m.ConnOpenInit?
    ensures HandleConnection(env, s, host, m).Some? <==>
              && m.clientIdOnA in s.clients
              && (m.version.Some? ==> IsSupported(m.version.value, s.config.versions))
              && var cl := s.clients[m.clientIdOnA];
                 && cl.state.frozenHeight.None?
                 && cl.state.latestHeight in cl.consensus
                 && host.time <= cl.consensus[cl.state.latestHeight].timestamp + cl.state.trustingPeriod
  {
    hide IsSupported;
  }
}
