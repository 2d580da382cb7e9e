/** A channel between two transfer modules is never closed, by anyone. */
module NeverClosed {
  import opened Heights
  import opened Tendermint
  import opened IbcStore
  import opened Transfer
  import opened Connections
  import opened Channels
  import opened Packets
  import opened Dispatch
  import opened World
  import opened Invariants
  import opened Preservation
  import opened HandshakeSteps
  import opened Runs
  import opened Conservation
  import opened TransferChannels

  ghost predicate ClosedAt(s: Store, k: ChanKey) { k in s.channels && s.channels[k].end.state == Closed }

  /** The closing message that a counterparty's closed end would justify. */
  ghost predicate ConfirmsClosing(env: Env, x: Node, k: ChanKey, l: Label) {
    && l.Dispatched? && l.msg.Chan? && l.msg.chanMsg.ChanCloseConfirm? && l.msg.chanMsg.keyOnB == k
    && ChanCloseConfirmValid(env, x.store, HostOf(x, l.own), l.msg.chanMsg)
  }

  lemma ChannelCloses(env: Env, x: Node, host: Host, m: ChanMsg, reply: Reply, k: ChanKey)
    requires ChanValid(env, x.store, host, m, reply) && k.port == x.store.config.transferPort
    requires !ClosedAt(x.store, k) && ClosedAt(ChanExec(x.store, m, reply), k)
    ensures m.ChanCloseConfirm? && m.keyOnB == k && ChanCloseConfirmValid(env, x.store, host, m)
  {
    hide Proven, ClientActive, FeatureSupported;
  }

  lemma PacketDoesNotClose(env: Env, s: Store, host: Host, m: PacketMsg, reply: Reply, k: ChanKey)
    requires TransferEnds(s) && Handle(env, s, host, Pkt(m), reply).Done? && k.port == s.config.transferPort
    ensures ClosedAt(Handle(env, s, host, Pkt(m), reply).store, k) ==> ClosedAt(s, k)
  {
    hide HandleRecv, HandleAck, HandleTimeout, TransferEnds;
    if m.MsgRecv? { RecvKeepsEnd(env, s, host, m, reply); }
    else if m.MsgAck? { AckKeepsEnd(env, s, host, m, reply); }
    else { TimeoutKeepsEnd(env, s, host, m, reply); }
    if k in s.channels { EndAtKey(s, k); }
  }

  lemma MessageCloses(env: Env, x: Node, host: Host, m: Msg, reply: Reply, k: ChanKey)
    requires TransferEnds(x.store) && k.port == x.store.config.transferPort && Handle(env, x.store, host, m, reply).Done?
    requires !ClosedAt(x.store, k) && ClosedAt(Handle(env, x.store, host, m, reply).store, k)
    ensures m.Chan? && m.chanMsg.ChanCloseConfirm? && m.chanMsg.keyOnB == k && ChanCloseConfirmValid(env, x.store, host, m.chanMsg)
  {
    hide HandleClient, HandleConnection, ChanValid, ChanExec, HandleRecv, HandleAck, HandleTimeout, TransferEnds, ChanCloseConfirmValid;
    match m
    case Client(c) => ClientKeepsChannels(env, x.store, host, c);
    case Conn(c) => ConnectionKeepsChannels(env, x.store, host, c);
    case Chan(c) => ChannelCloses(env, x, host, c, reply, k);
    case Pkt(p) => PacketDoesNotClose(env, x.store, host, p, reply, k);
  }

  lemma ClientKeepsChannels(env: Env, s: Store, host: Host, m: ClientMsg)
    requires HandleClient(env, s, host, m).Some?
    ensures HandleClient(env, s, host, m).value.channels == s.channels
  {
    hide HandleUpdate, HandleUpgrade, Initialised;
  }

  lemma ConnectionKeepsChannels(env: Env, s: Store, host: Host, m: ConnMsg)
    requires HandleConnection(env, s, host, m).Some?
    ensures HandleConnection(env, s, host, m).value.channels == s.channels
  {
    hide ConnInitValid, ConnTryValid, ConnAckValid, ConnConfirmValid, ConnInitEnd, ConnTryEnd, ConnAckEnd;
  }

  /** On the transfer port only a confirmed closing closes: the module refuses to start one, and unordered timeouts leave the end open. */
  lemma StepCloses(env: Env, x: Node, l: Label, k: ChanKey)
    requires TransferEnds(x.store) && k.port == x.store.config.transferPort
    requires !ClosedAt(x.store, k) && ClosedAt(Step(env, x, l).store, k)
    ensures ConfirmsClosing(env, x, k, l)
  {
    hide Handle, Record, TakeCoins, Move, Credit, Commit, ClientActive, HasExpired, CheckExpiry, TransferEnds, ChanCloseConfirmValid;
    if l.Dispatched? && Handle(env, x.store, HostOf(x, l.own), l.msg, l.reply).Done? {
      MessageCloses(env, x, HostOf(x, l.own), l.msg, l.reply, k);
    }
  }

  /** A confirmed closing means the counterparty's end is closed. */
  lemma ConfirmedByPeer(env: Env, x: Node, y: Node, k: ChanKey, j: ChanKey, l: Label)
    requires Stands(env, x, y) && ConfirmsClosing(env, x, k, l) && Tracked(x, k)
    requires x.store.channels[k].end.remote == RemoteOf(j)
    ensures ClosedAt(y.store, j) && y.store.channels[j].end.remote == RemoteOf(k)
  {
    hide LocalInv, PeerInv, Contracts, Proven;
    var e := x.store.channels[k].end;
    var conn := ConnectionOf(x.store, e);
    EndKnown(env, x, y, HostOf(x, l.own), conn, l.msg.chanMsg.proof, l.msg.chanMsg.proofHeight, j,
             ChannelEnd(Closed, e.ordering, RemoteOf(k), [conn.counterparty.connectionId.value], e.version));
  }

  // ---------------------------------------------------------------- the pair of ends

  /** Whatever exists of the two ends runs over clients that track the other chain, on the transfer ports. */
  ghost predicate Mutual(x: Node, k: ChanKey, y: Node, j: ChanKey) {
    && k.port == x.store.config.transferPort && j.port == y.store.config.transferPort
    && (k in x.store.channels ==> Tracked(x, k))
    && (j in y.store.channels ==> Tracked(y, j))
  }

  /** An end that names the other one is not closed. */
  ghost predicate StaysOpen(x: Node, k: ChanKey, j: ChanKey) {
    k in x.store.channels && x.store.channels[k].end.remote == RemoteOf(j) ==> x.store.channels[k].end.state != Closed
  }

  ghost predicate NeitherClosed(x: Node, k: ChanKey, y: Node, j: ChanKey) {
    Mutual(x, k, y, j) ==> StaysOpen(x, k, j) && StaysOpen(y, j, k)
  }

  /** The end existed, over the same connection, before the step that kept it. */
  lemma TrackedBefore(x: Node, x': Node, k: ChanKey)
    requires Grows(x, x') && k in x.store.channels && HasConnection(x.store, x.store.channels[k].end) && Tracked(x', k)
    ensures Tracked(x, k) && EndExt(x.store.channels[k].end, x'.store.channels[k].end) && x'.store.config == x.store.config
  {
    assert ChanExt(x.store.channels[k], TraceAt(x.traces, k), x'.store.channels[k], TraceAt(x'.traces, k));
  }

  lemma EndHasConnection(env: Env, x: Node, k: ChanKey)
    requires LocalInv(env, x) && k in x.store.channels
    ensures HasConnection(x.store, x.store.channels[k].end)
    ensures x.store.channels[k].end.state == Init <==> x.store.channels[k].end.remote.channelId.None?
  {
    hide LocalInv, SendInv, RecvInv, AckOrderInv;
    ChannelFacts(env, x, k);
  }

  lemma GrowsConfig(x: Node, x': Node)
    requires Grows(x, x')
    ensures x'.store.config == x.store.config
  {
  }

  lemma StepKeepsMutual(env: Env, x: Node, x': Node, k: ChanKey, y: Node, j: ChanKey)
    requires LocalInv(env, x) && Grows(x, x') && Mutual(x', k, y, j)
    ensures Mutual(x, k, y, j)
  {
    hide LocalInv, Grows, Tracked, EndExt;
    GrowsConfig(x, x');
    if k in x.store.channels {
      EndHasConnection(env, x, k);
      GrowsKeepsChannel(x, x', k);
      TrackedBefore(x, x', k);
    }
  }

  lemma GrowsKeepsChannel(x: Node, x': Node, k: ChanKey)
    requires Grows(x, x') && k in x.store.channels
    ensures k in x'.store.channels && EndExt(x.store.channels[k].end, x'.store.channels[k].end)
  {
    assert ChanExt(x.store.channels[k], TraceAt(x.traces, k), x'.store.channels[k], TraceAt(x'.traces, k));
  }

  /** A step that closed an end would need the counterparty's end closed first. */
  lemma StepStaysOpen(env: Env, x: Node, y: Node, l: Label, k: ChanKey, j: ChanKey)
    requires Stands(env, x, y) && TransferEnds(x.store) && Mutual(x, k, y, j)
    requires StaysOpen(x, k, j) && StaysOpen(y, j, k) && Grows(x, Step(env, x, l))
    ensures StaysOpen(Step(env, x, l), k, j)
  {
    hide LocalInv, PeerInv, Contracts, Step, TransferEnds, Tracked, Grows, ConfirmsClosing;
    var x' := Step(env, x, l);
    if ClosedAt(x'.store, k) && x'.store.channels[k].end.remote == RemoteOf(j) {
      if !ClosedAt(x.store, k) {
        StepCloses(env, x, l, k);
        ConfirmTarget(env, x, k, l);
      }
      EndHasConnection(env, x, k);
      GrowsKeepsChannel(x, x', k);
      if !ClosedAt(x.store, k) { ConfirmedByPeer(env, x, y, k, j, l); }
      assert false;
    }
  }

  lemma ConfirmTarget(env: Env, x: Node, k: ChanKey, l: Label)
    requires ConfirmsClosing(env, x, k, l)
    ensures k in x.store.channels && x.store.channels[k].end.remote.channelId.Some?
  {
    hide Proven;
  }

  lemma StepNeitherClosed(env: Env, x: Node, y: Node, l: Label, k: ChanKey, j: ChanKey)
    requires Stands(env, x, y) && TransferEnds(x.store) && NeitherClosed(x, k, y, j) && Grows(x, Step(env, x, l))
    ensures NeitherClosed(Step(env, x, l), k, y, j)
  {
    hide LocalInv, PeerInv, Contracts, Step, TransferEnds, Mutual, StaysOpen, Grows;
    if Mutual(Step(env, x, l), k, y, j) {
      StepKeepsMutual(env, x, Step(env, x, l), k, y, j);
      StepStaysOpen(env, x, y, l, k, j);
    }
  }

  ghost predicate Undisturbed(env: Env, w: Pair, k: ChanKey, j: ChanKey) {
    && PairInv(env, w)
    && TransferEnds(w.a.store) && TransferEnds(w.b.store)
    && NeitherClosed(w.a, k, w.b, j)
  }

  lemma NeitherClosedFlips(x: Node, k: ChanKey, y: Node, j: ChanKey)
    requires NeitherClosed(x, k, y, j)
    ensures NeitherClosed(y, j, x, k)
  {
    hide Tracked, StaysOpen;
  }

  lemma NextUndisturbed(env: Env, w: Pair, e: Event, k: ChanKey, j: ChanKey)
    requires Contracts(env) && Undisturbed(env, w, k, j) && EventAdmissible(env, w, e)
    ensures Undisturbed(env, Next(env, w, e), k, j)
  {
    hide LocalInv, PeerInv, Contracts, Step, TransferEnds, NeitherClosed, Grows, Admissible;
    NextKeeps(env, w, e);
    match e
    case OnA(l) =>
      StepKeepsEnds(env, w.a, l);
      StepNeitherClosed(env, w.a, w.b, l, k, j);
    case OnB(l) =>
      StepKeepsEnds(env, w.b, l);
      NeitherClosedFlips(w.a, k, w.b, j);
      StepNeitherClosed(env, w.b, w.a, l, j, k);
      NeitherClosedFlips(Step(env, w.b, l), j, w.a, k);
  }

  lemma {:induction false} RunUndisturbed(env: Env, w: Pair, es: seq<Event>, k: ChanKey, j: ChanKey)
    requires Contracts(env) && Undisturbed(env, w, k, j) && RunAdmissible(env, w, es)
    ensures Undisturbed(env, Run(env, w, es), k, j)
    decreases |es|
  {
    hide Contracts, Undisturbed, Next, EventAdmissible;
    if |es| > 0 {
      NextUndisturbed(env, w, es[0], k, j);
      RunUndisturbed(env, Next(env, w, es[0]), es[1..], k, j);
    }
  }

  lemma GenesisUndisturbed(env: Env, w: Pair, k: ChanKey, j: ChanKey)
    requires Genesis(w.a) && Genesis(w.b)
    ensures Undisturbed(env, w, k, j)
  {
    hide PairInv;
    GenesisInv(env, w);
  }

  ghost predicate BothOpenEnded(w: Pair, k: ChanKey, j: ChanKey) { !ClosedAt(w.a.store, k) && !ClosedAt(w.b.store, j) }

  lemma PartnersNotClosed(env: Env, w: Pair, k: ChanKey, j: ChanKey)
    requires Undisturbed(env, w, k, j) && TransferPartners(w.a, k, w.b, j)
    ensures BothOpenEnded(w, k, j)
  {
    hide PairInv, TransferEnds, Tracked;
  }

  /**
   In every reachable state neither end of a channel between two transfer modules is closed: no escrowed coin is
   ever cut off by a closed channel.
   */
  lemma TransferChannelsNeverClose(env: Env, w: Pair, k: ChanKey, j: ChanKey)
    requires Contracts(env) && Reachable(env, w) && TransferPartners(w.a, k, w.b, j)
    ensures BothOpenEnded(w, k, j)
  {
    hide Contracts, Genesis, RunAdmissible, Run, Undisturbed, TransferPartners, BothOpenEnded;
    var w0: Pair, es: seq<Event> :| Genesis(w0.a) && Genesis(w0.b) && RunAdmissible(env, w0, es) && w == Run(env, w0, es);
    GenesisUndisturbed(env, w0, k, j);
    RunUndisturbed(env, w0, es, k, j);
    PartnersNotClosed(env, w, k, j);
  }
}
