/** One proof field checked twice: in this code a timeout on close never resolves a packet. */
module OneProof {
  import opened Prelude
  import opened Heights
  import opened Paths
  import opened IbcStore
  import opened Transfer
  import opened Connections
  import opened Channels
  import opened Packets
  import opened Dispatch
  import opened World
  import opened Invariants
  import opened Preservation
  import opened Runs
  import opened Safety
  import opened Halting
  import opened Accounting
  import opened StoreProofs

  /** An existence proof carries the key it is about, and the check compares it. */
  ghost predicate NamesOneKey(ics: Merkle.Ics23) {
    forall p, s, root, root', key, key', v, v' :: ics.member(p, s, root, key, v) && ics.member(p, s, root', key', v') ==> key == key'
  }

  /** Proofs are checked as the client checks them: chained existence or absence proofs over the printed path. */
  ghost predicate Chained(env: Env, ics: Merkle.Ics23, c: Codec) {
    ChecksChainedProofs(env, ics, c) && Faithful(c) && !env.alnum('/') && NamesOneKey(ics)
  }

  /** The leaf of an accepted membership proof is an existence proof of the last key. */
  lemma LeafOf(ics: Merkle.Ics23, proofs: seq<Merkle.CommitmentProof>, specs: seq<Merkle.Spec>, root: Bytes, keys: seq<Bytes>, value: Bytes)
    returns (sub: Bytes)
    requires Merkle.MembershipAccepted(ics, proofs, specs, root, keys, value, 0)
    ensures |proofs| > 0 && |specs| == |keys| == |proofs| && proofs[0].Exist?
    ensures ics.member(proofs[0], specs[0], sub, keys[|keys| - 1], value)
  {
    sub := ics.existenceRoot(proofs[0].proof).value;
  }

  /** The same bytes never pass both as a membership and as an absence proof. */
  lemma NotBothKinds(env: Env, ics: Merkle.Ics23, c: Codec, proof: Bytes, root: Bytes, prefix: Bytes, path: Path, v: Value,
                     root': Bytes, prefix': Bytes, path': Path)
    requires ChecksChainedProofs(env, ics, c) && env.member(root, prefix, proof, path, v)
    ensures !env.absent(root', prefix', proof, path')
  {
    hide KeyOf;
    var sub := LeafOf(ics, c.proofs(proof), [c.leafSpec, c.topSpec], root, [c.prefixKey(prefix), KeyOf(c, path)], c.value(v));
  }

  /** Nor as membership proofs of two different paths. */
  lemma OnePathOnly(env: Env, ics: Merkle.Ics23, c: Codec, proof: Bytes, root: Bytes, prefix: Bytes, path: Path, v: Value,
                    root': Bytes, prefix': Bytes, path': Path, v': Value)
    requires Chained(env, ics, c) && ValidPath(env.alnum, path) && ValidPath(env.alnum, path')
    requires env.member(root, prefix, proof, path, v) && env.member(root', prefix', proof, path', v')
    ensures path == path'
  {
    hide ValidPath, Print;
    var specs := [c.leafSpec, c.topSpec];
    var keys, keys' := [c.prefixKey(prefix), KeyOf(c, path)], [c.prefixKey(prefix'), KeyOf(c, path')];
    var sub := LeafOf(ics, c.proofs(proof), specs, root, keys, c.value(v));
    var sub' := LeafOf(ics, c.proofs(proof), specs, root', keys', c.value(v'));
    assert keys[1] == keys'[1];
    PrintInjective(env.alnum, path, path');
  }

  /** What is left of the checks when there is nothing to resolve. */
  predicate NothingToResolve(s: Store, m: PacketMsg) {
    && PacketDecodes(m.packet)
    && m.packet.src in s.channels
    && s.channels[m.packet.src].end.remote == RemoteOf(m.packet.dst)
    && m.packet.seq_ !in s.channels[m.packet.src].commitments
  }

  lemma BothChecksClash(env: Env, ics: Merkle.Ics23, c: Codec, s: Store, host: Host, m: PacketMsg)
    requires Chained(env, ics, c) && m.MsgTimeoutOnClose? && m.packet.src in s.channels
    requires PeerEndProven(env, s, host, m.packet.src, Closed, m.proof, m.proofHeight)
    ensures var e := s.channels[m.packet.src].end;
            !UnreceivedProven(env, s, host, ConnectionOf(s, e), e.ordering, m.packet, m.nextSeqRecv, m.proof, m.proofHeight)
  {
    hide ValidPath, ProofReady, ChecksChainedProofs, Faithful, NamesOneKey;
    var p, e := m.packet, s.channels[m.packet.src].end;
    var conn := ConnectionOf(s, e);
    if UnreceivedProven(env, s, host, conn, e.ordering, p, m.nextSeqRecv, m.proof, m.proofHeight) {
      ReadyMeans(s, host, conn.clientId, m.proofHeight);
      var root := ConsensusAt(s, conn.clientId, m.proofHeight).root;
      var closed := ChannelValue(ChannelEnd(Closed, e.ordering, RemoteOf(p.src), [conn.counterparty.connectionId.value], e.version));
      var path := ChannelEndPath(e.remote.portId, e.remote.channelId.value);
      if e.ordering == Ordered {
        OnePathOnly(env, ics, c, m.proof, root, conn.counterparty.prefix, path, closed,
                    root, conn.counterparty.prefix, SeqRecv(p.dst.port, p.dst.channel), SequenceValue(p.seq_));
      } else {
        NotBothKinds(env, ics, c, m.proof, root, conn.counterparty.prefix, path, closed,
                     root, conn.counterparty.prefix, Receipt(p.dst.port, p.dst.channel, p.seq_));
      }
      assert false;
    }
  }

  lemma ReadyMeans(s: Store, host: Host, c: ClientId, h: Height)
    requires ProofReady(s, host, c, h)
    ensures c in s.clients && h in s.clients[c].consensus
  {
  }

  /**
   The closed end and the missing receipt, or the sequence, are checked against the same proof bytes, and no bytes pass both
   checks: a timeout-on-close message is valid exactly when it has nothing to resolve.
   */
  lemma TimeoutOnCloseIsIdle(env: Env, ics: Merkle.Ics23, c: Codec, s: Store, host: Host, m: PacketMsg)
    requires Chained(env, ics, c) && m.MsgTimeoutOnClose?
    ensures TimeoutOnCloseValid(env, s, host, m) <==> NothingToResolve(s, m)
  {
    hide Chained, PeerEndProven, UnreceivedProven, DelayPassed, Commit, PacketDecodes, RemoteOf;
    if TimeoutOnCloseValid(env, s, host, m) && m.packet.seq_ in s.channels[m.packet.src].commitments {
      BothChecksClash(env, ics, c, s, host, m);
      assert false;
    }
  }

  // ---------------------------------------------------------------- over whole runs

  ghost predicate NoneOnClose(t: Traces) {
    forall k, r :: r in TraceAt(t, k).resolved && r.TimedOut? ==> !r.onClose
  }

  lemma RecordNoneOnClose(t: Traces, note: Note, height: Height, time: nat)
    requires NoneOnClose(t) && (note.TimedOutNote? ==> !note.onClose)
    ensures NoneOnClose(Record(t, note, height, time))
  {
    var t' := Record(t, note, height, time);
    forall k, r | r in TraceAt(t', k).resolved && r.TimedOut? ensures !r.onClose {
      if r !in TraceAt(t, k).resolved { assert note.TimedOutNote? && r == TimedOut(note.packet, note.proofHeight, note.onClose); }
    }
  }

  lemma IdleNote(env: Env, ics: Merkle.Ics23, c: Codec, s: Store, host: Host, m: PacketMsg, reply: Reply)
    requires Chained(env, ics, c) && (m.MsgTimeout? || m.MsgTimeoutOnClose?)
    ensures var out := HandleTimeout(env, s, host, m, reply); out.Done? && out.note.TimedOutNote? ==> !out.note.onClose
  {
    hide Chained, TimeoutValid, TimeoutOnCloseValid, OnTimeout, TimedOutChannel;
    if m.MsgTimeoutOnClose? { TimeoutOnCloseIsIdle(env, ics, c, s, host, m); }
    if HandleTimeout(env, s, host, m, reply).Done? { TimeoutTarget(env, s, host, m); }
  }

  lemma MessageNote(env: Env, ics: Merkle.Ics23, c: Codec, s: Store, host: Host, m: Msg, reply: Reply)
    requires Chained(env, ics, c)
    ensures var out := Handle(env, s, host, m, reply); out.Done? && out.note.TimedOutNote? ==> !out.note.onClose
  {
    hide Chained, HandleClient, HandleConnection, ChanValid, ChanExec, RecvValid, AckValid, HandleTimeout, OnRecv, OnAck, RecvExec, AckExec;
    if m.Pkt? && (m.packetMsg.MsgTimeout? || m.packetMsg.MsgTimeoutOnClose?) {
      IdleNote(env, ics, c, s, host, m.packetMsg, reply);
    } else if m.Pkt? && m.packetMsg.MsgRecv? && RecvValid(env, s, host, m.packetMsg) {
      RecvTarget(env, s, host, m.packetMsg);
    } else if m.Pkt? && m.packetMsg.MsgAck? && AckValid(env, s, host, m.packetMsg) {
      AckTarget(env, s, host, m.packetMsg);
    }
  }

  lemma StepNoneOnClose(env: Env, ics: Merkle.Ics23, c: Codec, x: Node, l: Label)
    requires Chained(env, ics, c) && NoneOnClose(x.traces)
    ensures NoneOnClose(Step(env, x, l).traces)
  {
    hide Chained, Handle, HandleMsgTransfer, SendExec, SendValid, NoneOnClose, Record, Move, Credit;
    match l
    case Dispatched(m, reply, own) =>
      MessageNote(env, ics, c, x.store, HostOf(x, own), m, reply);
      var out := Handle(env, x.store, HostOf(x, own), m, reply);
      if out.Done? { RecordNoneOnClose(x.traces, out.note, x.height, x.time); }
    case SendPacket(p) => RecordNoneOnClose(x.traces, SentNote(p, false), x.height, x.time);
    case SendTransfer(k, text, th, ts, reply) =>
      SendTransferShape(env, x.store, HostOf(x, map[]), k, text, th, ts, reply);
      var out := HandleMsgTransfer(env, x.store, HostOf(x, map[]), k, text, th, ts, reply);
      if out.Done? { RecordNoneOnClose(x.traces, out.note, x.height, x.time); }
    case _ =>
  }

  lemma {:induction false} RunNoneOnClose(env: Env, ics: Merkle.Ics23, c: Codec, w: Pair, es: seq<Event>)
    requires Chained(env, ics, c) && NoneOnClose(w.a.traces) && NoneOnClose(w.b.traces)
    ensures NoneOnClose(Run(env, w, es).a.traces) && NoneOnClose(Run(env, w, es).b.traces)
    decreases |es|
  {
    hide Chained, NoneOnClose, Step;
    if |es| > 0 {
      match es[0] {
        case OnA(l) => StepNoneOnClose(env, ics, c, w.a, l);
        case OnB(l) => StepNoneOnClose(env, ics, c, w.b, l);
      }
      RunNoneOnClose(env, ics, c, Next(env, w, es[0]), es[1..]);
    }
  }

  /** With proofs checked as the client checks them, no packet of any run is ever resolved by a timeout on close. */
  lemma TimeoutOnCloseNeverResolves(env: Env, ics: Merkle.Ics23, c: Codec, w: Pair)
    requires Chained(env, ics, c) && Reachable(env, w)
    ensures NoneOnClose(w.a.traces) && NoneOnClose(w.b.traces)
  {
    hide Chained, RunAdmissible, Run;
    var w0: Pair, es: seq<Event> :| Genesis(w0.a) && Genesis(w0.b) && RunAdmissible(env, w0, es) && w == Run(env, w0, es);
    RunNoneOnClose(env, ics, c, w0, es);
  }

  // ---------------------------------------------------------------- so a closed channel is final

  /** A channel that was closed, and its callbacks and commitments then and later. */
  ghost predicate Settled(x: Node, x': Node, k: ChanKey) {
    && k in x.store.channels && k in x'.store.channels
    && TraceAt(x'.traces, k).sent == TraceAt(x.traces, k).sent
    && TraceAt(x'.traces, k).delivered == TraceAt(x.traces, k).delivered
    && TraceAt(x'.traces, k).resolved == TraceAt(x.traces, k).resolved
    && x'.store.channels[k].commitments == x.store.channels[k].commitments
  }

  lemma NoneOnCloseAt(t: Traces, k: ChanKey, i: nat)
    requires NoneOnClose(t) && i < |TraceAt(t, k).resolved|
    ensures !(TraceAt(t, k).resolved[i].TimedOut? && TraceAt(t, k).resolved[i].onClose)
  {
    var r := TraceAt(t, k).resolved[i];
    assert r in TraceAt(t, k).resolved;
  }

  lemma ClosedResolved(x: Node, x': Node, k: ChanKey)
    requires NeverReopened(x, x', k) && x.store.channels[k].end.state == Closed && NoneOnClose(x'.traces)
    ensures TraceAt(x'.traces, k).resolved == TraceAt(x.traces, k).resolved
  {
    hide EndExt;
    var rs, rs' := TraceAt(x.traces, k).resolved, TraceAt(x'.traces, k).resolved;
    if |rs| < |rs'| {
      NoneOnCloseAt(x'.traces, k, |rs|);
      assert false;
    }
  }

  lemma SameCommitments(env: Env, k: ChanKey, c: Channel, t: ChanTrace, c': Channel, t': ChanTrace)
    requires SendInv(env, k, c, t) && SendInv(env, k, c', t') && t'.sent == t.sent && t'.resolved == t.resolved
    ensures c'.commitments == c.commitments
  {
    hide SentOk, ResolvedOk, Commit, ResolvedSeqs;
    assert c'.commitments.Keys == c.commitments.Keys;
  }

  lemma SettledCore(env: Env, x: Node, x': Node, k: ChanKey)
    requires LocalInv(env, x) && LocalInv(env, x') && NeverReopened(x, x', k) && NoneOnClose(x'.traces)
    requires x.store.channels[k].end.state == Closed
    ensures Settled(x, x', k)
  {
    hide LocalInv, NoneOnClose, EndExt, OnlyOnClose;
    ClosedResolved(x, x', k);
    ChannelFacts(env, x, k);
    ChannelFacts(env, x', k);
    hide SendInv, RecvInv, AckOrderInv, ChanShape;
    SameCommitments(env, k, x.store.channels[k], TraceAt(x.traces, k), x'.store.channels[k], TraceAt(x'.traces, k));
  }

  /**
   A packet still unresolved when its channel closes stays so: over every further run nothing on a closed channel is sent,
   delivered, acknowledged or timed out, and its commitments stay in the store.
   */
  lemma ClosedIsFinal(env: Env, ics: Merkle.Ics23, c: Codec, w: Pair, es: seq<Event>, onA: bool, k: ChanKey)
    requires Chained(env, ics, c) && Contracts(env) && Reachable(env, w) && RunAdmissible(env, w, es)
    requires k in Side(w, onA).store.channels && Side(w, onA).store.channels[k].end.state == Closed
    ensures Settled(Side(w, onA), Side(Run(env, w, es), onA), k)
  {
    var w' := Run(env, w, es);
    hide *;
    SidesOf(w, onA);
    SidesOf(w', onA);
    ClosedStaysClosed(env, w, es);
    ReachableOn(env, w, es);
    TimeoutOnCloseNeverResolves(env, ics, c, w');
    SideFacts(env, w, w', onA, k);
    SettledCore(env, Side(w, onA), Side(w', onA), k);
  }

  lemma SidesOf(w: Pair, onA: bool)
    ensures Side(w, onA) == if onA then w.a else w.b
  {
  }

  lemma SideFacts(env: Env, w: Pair, w': Pair, onA: bool, k: ChanKey)
    requires Contracts(env) && Reachable(env, w) && Reachable(env, w') && NeverUndone(w.a, w'.a) && NeverUndone(w.b, w'.b)
    requires NoneOnClose(w'.a.traces) && NoneOnClose(w'.b.traces) && k in Side(w, onA).store.channels
    ensures LocalInv(env, Side(w, onA)) && LocalInv(env, Side(w', onA)) && NeverReopened(Side(w, onA), Side(w', onA), k)
    ensures NoneOnClose(Side(w', onA).traces)
  {
    hide Contracts, Reachable, LocalInv, PeerInv, NoneOnClose, NeverReopened;
    ReachableInv(env, w);
    ReachableInv(env, w');
  }
}
