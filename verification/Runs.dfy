/** The invariants hold in every state of every run. */
module Runs {
  import opened Heights
  import opened IbcStore
  import opened Transfer
  import opened Connections
  import opened Channels
  import opened Packets
  import opened Dispatch
  import opened World
  import opened Invariants
  import opened NodeSteps
  import opened Preservation
  import opened HandshakeSteps

  lemma PacketStep(env: Env, x: Node, y: Node, host: Host, m: PacketMsg, reply: Reply)
    requires Stands(env, x, y) && host.height == x.height && host.time == x.time
    ensures Kept(env, x, Absorb(x, Handle(env, x.store, host, Pkt(m), reply)), y)
  {
    hide LocalInv, PeerInv, Contracts, Grows, RecvValid, AckValid, TimeoutValid, TimeoutOnCloseValid, AlreadyReceived,
         Received, AckedChannel, TimedOutChannel, OnAck, OnTimeout, OnRecv;
    GrowsReflexive(x);
    var out := Handle(env, x.store, host, Pkt(m), reply);
    var x' := Absorb(x, out);
    if out.Done? && out.note != Quiet {
      match m
      case MsgRecv(p, _, _) =>
        var ack := OnRecv(env, x.store, p, reply).1;
        RecvTarget(env, x.store, host, m);
        RecvStep(env, x, y, host, m, Delivery(p, ack, x.height, x.time), x'.store.ledger, x');
      case MsgAck(p, _, _, _) => AckStep(env, x, y, host, m, x'.store.ledger, x');
      case MsgTimeout(p, _, _, _) => TimeoutStep(env, x, y, host, m, x'.store.ledger, x');
      case MsgTimeoutOnClose(p, _, _, _, _) => TimeoutStep(env, x, y, host, m, x'.store.ledger, x');
    }
  }

  lemma RecvTarget(env: Env, s: Store, host: Host, m: PacketMsg)
    requires m.MsgRecv? && RecvValid(env, s, host, m)
    ensures m.packet.dst in s.channels
  {
  }

  lemma GrowsReflexive(x: Node)
    ensures Grows(x, x)
  {
    StoreExtReflexive(x.store, x.traces);
  }

  lemma DispatchStep(env: Env, x: Node, y: Node, m: Msg, reply: Reply, host: Host)
    requires Stands(env, x, y) && host.height == x.height && host.time == x.time
    requires m.Client? ==> ClientAdmissible(env, x, y, m.clientMsg)
    ensures Kept(env, x, Absorb(x, Handle(env, x.store, host, m, reply)), y)
  {
    hide LocalInv, PeerInv, Contracts, Grows, HandleClient, HandleConnection, ChanValid, ClientAdmissible, ChanExec;
    GrowsReflexive(x);
    var out := Handle(env, x.store, host, m, reply);
    if out.Done? {
      match m
      case Client(c) => ClientMessageStep(env, x, y, host, c, out.store);
      case Conn(c) => ConnectionMessageStep(env, x, y, host, c, out.store);
      case Chan(c) => ChannelStep(env, x, y, host, c, reply, Absorb(x, out));
      case Pkt(p) => PacketStep(env, x, y, host, p, reply);
    }
  }

  /** A transfer that goes through is the send of the packet built from what the message says, with the coins taken. */
  lemma SendTransferShape(env: Env, s: Store, host: Host, k: ChanKey, text: PacketText, th: TimeoutHeight, ts: Timestamp, reply: Reply)
    ensures var out := HandleMsgTransfer(env, s, host, k, text, th, ts, reply);
            out.Done? ==>
              && out.note.SentNote? && out.note.coins
              && SendValid(s, host, out.note.packet)
              && out.store == SendExec(env, s, out.note.packet).(ledger := out.store.ledger)
  {
    hide SendValid, TakeCoins, Encode, MsgTransferReads;
  }

  /** Any step of one chain keeps everything the two chains hold about themselves and each other. */
  lemma StepKeeps(env: Env, x: Node, y: Node, l: Label)
    requires Stands(env, x, y) && Admissible(env, x, y, l)
    ensures Kept(env, x, Step(env, x, l), y)
  {
    hide LocalInv, PeerInv, Contracts, Grows, Handle, HandleMsgTransfer, SendExec, SendValid, ClientAdmissible;
    GrowsReflexive(x);
    var x' := Step(env, x, l);
    match l
    case NewBlock(h, t) =>
      if x' != x {
        BlockLocal(env, x, h, t);
        SurroundingsPeer(env, x, x', y);
      }
    case CommitBlock =>
      if x' != x {
        CommitLocal(env, x, x');
        SurroundingsPeer(env, x, x', y);
      }
    case Dispatched(m, reply, own) => DispatchStep(env, x, y, m, reply, HostOf(x, own));
    case SendPacket(p) =>
      if HandleSend(env, x.store, HostOf(x, map[]), p).Done? {
        SendStep(env, x, y, HostOf(x, map[]), p, false, x'.store.ledger, x');
      }
    case SendTransfer(k, text, th, ts, reply) =>
      SendTransferShape(env, x.store, HostOf(x, map[]), k, text, th, ts, reply);
      var out := HandleMsgTransfer(env, x.store, HostOf(x, map[]), k, text, th, ts, reply);
      if out.Done? {
        SendStep(env, x, y, HostOf(x, map[]), out.note.packet, true, out.store.ledger, x');
      }
    case Pay(_, _, _, _) =>
      LedgerLocal(env, x, x.(store := x.store.(ledger := x'.store.ledger)), x'.store.ledger);
      LedgerPeer(env, x, x.(store := x.store.(ledger := x'.store.ledger)), y, x'.store.ledger);
    case IssueNative(_, _, _) =>
      LedgerLocal(env, x, x', x'.store.ledger);
      LedgerPeer(env, x, x', y, x'.store.ledger);
  }

  lemma TracesOfChannels(env: Env, x: Node)
    requires LocalInv(env, x)
    ensures x.traces.Keys <= x.store.channels.Keys
  {
  }

  lemma NextKeeps(env: Env, w: Pair, e: Event)
    requires Contracts(env) && PairInv(env, w) && EventAdmissible(env, w, e)
    ensures PairInv(env, Next(env, w, e))
    ensures Grows(w.a, Next(env, w, e).a) && Grows(w.b, Next(env, w, e).b)
  {
    hide LocalInv, PeerInv, Contracts, Grows, Step, Admissible;
    GrowsReflexive(w.a);
    GrowsReflexive(w.b);
    match e
    case OnA(l) =>
      StepKeeps(env, w.a, w.b, l);
      TracesOfChannels(env, w.a);
      PeerStable(env, w.b, w.a, Step(env, w.a, l));
    case OnB(l) =>
      StepKeeps(env, w.b, w.a, l);
      TracesOfChannels(env, w.b);
      PeerStable(env, w.a, w.b, Step(env, w.b, l));
  }

  lemma GrowsTransitive(x: Node, x': Node, x'': Node)
    requires Grows(x, x') && Grows(x', x'')
    ensures Grows(x, x'')
  {
    hide StoreExt;
    StoreExtTransitive(x.store, x.traces, x'.store, x'.traces, x''.store, x''.traces);
  }

  /** Over every run: the invariants hold at the end, and both chains only grew. */
  lemma {:induction false} RunKeeps(env: Env, w: Pair, es: seq<Event>)
    requires Contracts(env) && PairInv(env, w) && RunAdmissible(env, w, es)
    ensures PairInv(env, Run(env, w, es))
    ensures Grows(w.a, Run(env, w, es).a) && Grows(w.b, Run(env, w, es).b)
    decreases |es|
  {
    hide PairInv, Contracts, Grows, Next, EventAdmissible;
    GrowsReflexive(w.a);
    GrowsReflexive(w.b);
    if |es| > 0 {
      var w' := Next(env, w, es[0]);
      NextKeeps(env, w, es[0]);
      RunKeeps(env, w', es[1..]);
      GrowsTransitive(w.a, w'.a, Run(env, w, es).a);
      GrowsTransitive(w.b, w'.b, Run(env, w, es).b);
    }
  }

  lemma GenesisInv(env: Env, w: Pair)
    requires Genesis(w.a) && Genesis(w.b)
    ensures PairInv(env, w)
  {
  }

  /** A pair of chains some admissible run can lead to. */
  ghost predicate Reachable(env: Env, w: Pair) {
    exists w0: Pair, es: seq<Event> :: Genesis(w0.a) && Genesis(w0.b) && RunAdmissible(env, w0, es) && w == Run(env, w0, es)
  }

  lemma ReachableInv(env: Env, w: Pair)
    requires Contracts(env) && Reachable(env, w)
    ensures PairInv(env, w)
  {
    hide PairInv, Contracts, Genesis, RunAdmissible, Run;
    var w0: Pair, es: seq<Event> :| Genesis(w0.a) && Genesis(w0.b) && RunAdmissible(env, w0, es) && w == Run(env, w0, es);
    GenesisInv(env, w0);
    RunKeeps(env, w0, es);
  }

  lemma {:induction false} RunAppend(env: Env, w: Pair, es: seq<Event>, fs: seq<Event>)
    requires RunAdmissible(env, w, es) && RunAdmissible(env, Run(env, w, es), fs)
    ensures Run(env, w, es + fs) == Run(env, Run(env, w, es), fs) && RunAdmissible(env, w, es + fs)
    decreases |es|
  {
    hide Next, EventAdmissible;
    if |es| == 0 {
      assert es + fs == fs;
    } else {
      assert (es + fs)[0] == es[0] && (es + fs)[1..] == es[1..] + fs;
      RunAppend(env, Next(env, w, es[0]), es[1..], fs);
    }
  }

  /** Whatever an admissible run leads to from a reachable pair is reachable. */
  lemma ReachableOn(env: Env, w: Pair, fs: seq<Event>)
    requires Reachable(env, w) && RunAdmissible(env, w, fs)
    ensures Reachable(env, Run(env, w, fs))
  {
    hide Genesis, RunAdmissible, Run;
    var w0: Pair, es: seq<Event> :| Genesis(w0.a) && Genesis(w0.b) && RunAdmissible(env, w0, es) && w == Run(env, w0, es);
    RunAppend(env, w0, es, fs);
    assert Genesis(w0.a) && Genesis(w0.b) && RunAdmissible(env, w0, es + fs) && Run(env, w, fs) == Run(env, w0, es + fs);
  }
}
