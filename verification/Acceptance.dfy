/** Which packet messages can succeed: exactly those that tell the truth about the other chain, with nothing else asked. */
module Acceptance {
  import opened Prelude
  import opened Heights
  import opened Paths
  import opened Denoms
  import opened Commitments
  import opened IbcStore
  import opened Transfer
  import opened Channels
  import opened Packets
  import opened Dispatch
  import opened World
  import opened Invariants
  import opened NodeSteps
  import opened Preservation
  import opened Safety
  import opened Payments

  // ---------------------------------------------------------------- what can be proved

  /** The client is unfrozen and within its trusting period, and holds a real state of the other chain at `h`. */
  ghost predicate Usable(env: Env, s: Store, host: Host, c: ClientId, h: Height) {
    && c in s.clients
    && var cl := s.clients[c];
       && cl.state.frozenHeight.None?
       && cl.state.latestHeight in cl.consensus
       && host.time <= cl.consensus[cl.state.latestHeight].timestamp + cl.state.trustingPeriod
       && Leq(h, cl.state.latestHeight)
       && h in cl.consensus && cl.consensus[h].root != env.sentinel
  }

  lemma UsableIsReady(env: Env, s: Store, host: Host, c: ClientId, h: Height)
    ensures Usable(env, s, host, c, h) <==> ProofReady(s, host, c, h) && ConsensusAt(s, c, h).root != env.sentinel
  {
  }

  /** The root behind a usable height is the other chain's at that height. */
  lemma UsableRoot(env: Env, x: Node, y: Node, host: Host, c: ClientId, h: Height)
    requires ClientsGenuine(env, x, y) && LocalInv(env, y) && c in x.tracks && Usable(env, x.store, host, c, h)
    ensures h in y.history && ConsensusAt(x.store, c, h).root == env.rootOf(y.history[h].store)
    ensures ConsensusAt(x.store, c, h).timestamp == y.history[h].time
    ensures y.history[h].store.config == y.store.config
  {
    hide LocalInv;
    assert GenuineState(env, ConsensusAt(x.store, c, h), h, y);
    SnapshotFacts(env, y, h, TracePrefix("", ""));
  }

  /** The other chain stored `v` at the path in block `h`. */
  ghost predicate Stored(env: Env, y: Node, h: Height, path: Path, v: Value) {
    ValidPath(env.alnum, path) && h in y.history && Lookup(y.history[h].store, path) == Some(v)
  }

  ghost predicate NotStored(env: Env, y: Node, h: Height, path: Path) {
    ValidPath(env.alnum, path) && h in y.history && Lookup(y.history[h].store, path) == None
  }

  ghost predicate Readable(env: Env, x: Node, y: Node) {
    Contracts(env) && ProofsComplete(env) && ClientsGenuine(env, x, y) && LocalInv(env, y)
  }

  lemma StoredHasProof(env: Env, s: Store, path: Path, v: Value) returns (proof: Bytes)
    requires ProofsComplete(env) && ValidPath(env.alnum, path) && Lookup(s, path) == Some(v)
    ensures env.member(env.rootOf(s), s.config.prefix, proof, path, v)
  {
    hide ValidPath, Lookup;
    proof :| env.member(env.rootOf(s), s.config.prefix, proof, path, v);
  }

  lemma AbsentHasProof(env: Env, s: Store, path: Path) returns (proof: Bytes)
    requires ProofsComplete(env) && ValidPath(env.alnum, path) && Lookup(s, path) == None
    ensures env.absent(env.rootOf(s), s.config.prefix, proof, path)
  {
    hide ValidPath, Lookup;
    proof :| env.absent(env.rootOf(s), s.config.prefix, proof, path);
  }

  lemma SentinelFacts(env: Env, prefix: Bytes, proof: Bytes, path: Path, v: Value)
    requires Contracts(env)
    ensures !env.member(env.sentinel, prefix, proof, path, v) && !env.absent(env.sentinel, prefix, proof, path)
  {
    hide ProofsSound, Injective;
  }

  lemma ProvenIsStored(env: Env, x: Node, y: Node, host: Host, c: ClientId, proof: Bytes, h: Height, path: Path, v: Value)
    requires Readable(env, x, y) && c in x.tracks
    requires Proven(env, x.store, host, c, y.store.config.prefix, proof, h, path, v)
    ensures Usable(env, x.store, host, c, h) && Stored(env, y, h, path, v)
  {
    hide LocalInv, ValidPath, Lookup, Usable, ProofReady, Contracts, ProofsComplete, ClientsGenuine;
    UsableIsReady(env, x.store, host, c, h);
    SentinelFacts(env, y.store.config.prefix, proof, path, v);
    Learn(env, x, y, host, c, y.store.config.prefix, proof, h, path, v);
  }

  /** Through a tracking client, a value can be proved exactly where the client is usable and the other chain stored it. */
  lemma ProvableExactly(env: Env, x: Node, y: Node, host: Host, c: ClientId, h: Height, path: Path, v: Value)
    requires Readable(env, x, y) && c in x.tracks
    ensures (exists proof :: Proven(env, x.store, host, c, y.store.config.prefix, proof, h, path, v)) <==>
              Usable(env, x.store, host, c, h) && Stored(env, y, h, path, v)
  {
    hide LocalInv, ValidPath, Lookup, Usable, ProofReady, Contracts, ProofsComplete, ClientsGenuine;
    if Usable(env, x.store, host, c, h) && Stored(env, y, h, path, v) {
      UsableIsReady(env, x.store, host, c, h);
      UsableRoot(env, x, y, host, c, h);
      var proof := StoredHasProof(env, y.history[h].store, path, v);
      assert Proven(env, x.store, host, c, y.store.config.prefix, proof, h, path, v);
    }
    hide Proven, Stored;
    forall proof | Proven(env, x.store, host, c, y.store.config.prefix, proof, h, path, v)
      ensures Usable(env, x.store, host, c, h) && Stored(env, y, h, path, v)
    {
      ProvenIsStored(env, x, y, host, c, proof, h, path, v);
    }
  }

  lemma AbsentIsNotStored(env: Env, x: Node, y: Node, host: Host, c: ClientId, proof: Bytes, h: Height, path: Path)
    requires Readable(env, x, y) && c in x.tracks
    requires ProvenAbsent(env, x.store, host, c, y.store.config.prefix, proof, h, path)
    ensures Usable(env, x.store, host, c, h) && NotStored(env, y, h, path)
  {
    hide LocalInv, ValidPath, Lookup, Usable, ProofReady, Contracts, ProofsComplete, ClientsGenuine;
    UsableIsReady(env, x.store, host, c, h);
    SentinelFacts(env, y.store.config.prefix, proof, path, ReceiptValue);
    LearnAbsent(env, x, y, host, c, y.store.config.prefix, proof, h, path);
    UsableRoot(env, x, y, host, c, h);
  }

  lemma AbsenceProvableExactly(env: Env, x: Node, y: Node, host: Host, c: ClientId, h: Height, path: Path)
    requires Readable(env, x, y) && c in x.tracks
    ensures (exists proof :: ProvenAbsent(env, x.store, host, c, y.store.config.prefix, proof, h, path)) <==>
              Usable(env, x.store, host, c, h) && NotStored(env, y, h, path)
  {
    hide LocalInv, ValidPath, Lookup, Usable, ProofReady, Contracts, ProofsComplete, ClientsGenuine;
    if Usable(env, x.store, host, c, h) && NotStored(env, y, h, path) {
      UsableIsReady(env, x.store, host, c, h);
      UsableRoot(env, x, y, host, c, h);
      var proof := AbsentHasProof(env, y.history[h].store, path);
      assert ProvenAbsent(env, x.store, host, c, y.store.config.prefix, proof, h, path);
    }
    hide ProvenAbsent, NotStored;
    forall proof | ProvenAbsent(env, x.store, host, c, y.store.config.prefix, proof, h, path)
      ensures Usable(env, x.store, host, c, h) && NotStored(env, y, h, path)
    {
      AbsentIsNotStored(env, x, y, host, c, proof, h, path);
    }
  }

  /** The connection's delay has passed since the client learned height `h`. */
  ghost predicate Aged(env: Env, s: Store, host: Host, conn: ConnectionEnd, h: Height) {
    && conn.clientId in s.clients && h in s.clients[conn.clientId].meta
    && var learned := s.clients[conn.clientId].meta[h];
       && learned.0 + conn.delayPeriod <= host.time
       && Leq(Height(learned.1.revisionNumber, learned.1.revisionHeight + env.blockDelay(conn.delayPeriod)), host.height)
  }

  lemma AgedIsDelayed(env: Env, s: Store, host: Host, conn: ConnectionEnd, h: Height)
    ensures Aged(env, s, host, conn, h) <==> DelayPassed(env, s, host, conn, h)
  {
  }

  // ---------------------------------------------------------------- sending

  /** An end with a counterparty, over an active client whose latest state the packet outlives, at the next sequence. */
  ghost predicate Sendable(s: Store, host: Host, p: Packet) {
    && PacketTypesOk(p)
    && p.src in s.channels
    && var ch := s.channels[p.src];
       && (ch.end.state == TryOpen || ch.end.state == Open)
       && ch.end.remote == RemoteOf(p.dst)
       && p.seq_ == ch.nextSend
       && HasConnection(s, ch.end)
       && ConnectionOf(s, ch.end).clientId in s.clients
       && var cl := s.clients[ConnectionOf(s, ch.end).clientId];
          && cl.state.frozenHeight.None?
          && cl.state.latestHeight in cl.consensus
          && host.time <= cl.consensus[cl.state.latestHeight].timestamp + cl.state.trustingPeriod
          && !PacketTimedOut(p, cl.consensus[cl.state.latestHeight].timestamp, cl.state.latestHeight)
  }

  lemma SendableExactly(env: Env, x: Node, host: Host, p: Packet)
    requires LocalInv(env, x)
    ensures SendValid(x.store, host, p) <==> Sendable(x.store, host, p)
  {
    hide LocalInv, HasExpired, CheckExpiry, SendInv, RecvInv, AckOrderInv, PacketTypesOk;
    if p.src in x.store.channels { ChannelFacts(env, x, p.src); }
  }

  /** In every reachable state an application's packet is sent exactly when it can be, and refused otherwise. */
  lemma SendAcceptedExactly(env: Env, w: Pair, x: Node, y: Node, host: Host, p: Packet)
    requires Live(env, w, x, y)
    ensures HandleSend(env, x.store, host, p).Done? <==> p.src.port != x.store.config.transferPort && Sendable(x.store, host, p)
  {
    hide *;
    LiveBoth(env, w, x, y);
    BothLocal(env, x, y);
    SendAcceptedCore(env, x, host, p);
  }

  lemma SendAcceptedCore(env: Env, x: Node, host: Host, p: Packet)
    requires LocalInv(env, x)
    ensures HandleSend(env, x.store, host, p).Done? <==> p.src.port != x.store.config.transferPort && Sendable(x.store, host, p)
  {
    hide SendValid, Sendable, LocalInv;
    SendableExactly(env, x, host, p);
  }

  /** The message reads, the host consents, the sender holds the coins and the packet they travel in can be sent. */
  ghost predicate Transferable(env: Env, s: Store, host: Host, k: ChanKey, text: PacketText, th: TimeoutHeight, ts: Timestamp,
                               reply: Reply) {
    && reply.accept
    && (th.At? || ts.Some?)
    && ValidPortId(env.alnum, k.port) && ValidChannelId(env.alnum, k.channel)
    && var d := ParseDenom(env.alnum, env.white, text.denom);
       && d.Some?
       && Balance(s.ledger, d.value, User(text.sender)) >= text.amount
       && k in s.channels && s.channels[k].end.remote.channelId.Some?
       && var ch := s.channels[k];
          Sendable(s, host, Packet(ch.nextSend, k, TracePrefix(ch.end.remote.portId, ch.end.remote.channelId.value),
                                   env.encode(text), th, ts))
  }

  lemma TransferAcceptedCore(env: Env, x: Node, host: Host, k: ChanKey, text: PacketText, th: TimeoutHeight, ts: Timestamp, reply: Reply)
    requires LocalInv(env, x)
    ensures HandleMsgTransfer(env, x.store, host, k, text, th, ts, reply).Done? <==>
              Transferable(env, x.store, host, k, text, th, ts, reply)
  {
    hide SendValid, Sendable, LocalInv, Balance, TakeCoins, ValidPortId, ValidChannelId, ParseDenom, PrintDenom, Takes;
    if ReadText(env, text).Some? {
      var data := ReadText(env, text).value;
      TakeCoinsTakes(x.store.ledger, k, data);
      PrintAfterParse(env.alnum, env.white, text.denom);
      assert TextOf(data) == text;
      if k in x.store.channels && x.store.channels[k].end.remote.channelId.Some? {
        SendableExactly(env, x, host, TransferPacket(env, x.store, k, data, th, ts));
      }
    }
  }

  /** So is a transfer, which needs a readable message, the host's consent and a sender who holds the coins. */
  lemma TransferAcceptedExactly(env: Env, w: Pair, x: Node, y: Node, host: Host, k: ChanKey, text: PacketText, th: TimeoutHeight,
                                ts: Timestamp, reply: Reply)
    requires Live(env, w, x, y)
    ensures HandleMsgTransfer(env, x.store, host, k, text, th, ts, reply).Done? <==>
              Transferable(env, x.store, host, k, text, th, ts, reply)
  {
    hide *;
    LiveBoth(env, w, x, y);
    BothLocal(env, x, y);
    TransferAcceptedCore(env, x, host, k, text, th, ts, reply);
  }

  // ---------------------------------------------------------------- delivering

  /** At block `h` the chain had sent exactly this packet and nothing had resolved it yet. */
  ghost predicate OutstandingAt(y: Node, h: Height, p: Packet) {
    && h in y.history
    && SentBy(y.history[h].traces, p)
    && p.seq_ !in ResolvedSeqs(TraceAt(y.history[h].traces, p.src).resolved)
  }

  lemma CommitmentStored(env: Env, s: Store, k: ChanKey, c: Channel, t: ChanTrace, p: Packet)
    requires Contracts(env) && SendInv(env, k, c, t) && p.src == k && PacketTypesOk(p) && c.end.remote == RemoteOf(p.dst)
    ensures p.seq_ in c.commitments && c.commitments[p.seq_] == Commit(env, p) <==>
              1 <= p.seq_ <= |t.sent| && t.sent[p.seq_ - 1] == p && p.seq_ !in ResolvedSeqs(t.resolved)
  {
    hide ResolvedSeqs, ProofsSound, SentinelProvesNothing, PacketCommitment, Injective;
    if p.seq_ in c.commitments {
      var q := t.sent[p.seq_ - 1];
      assert SentOk(k, c.end, q, p.seq_ - 1);
      if Commit(env, q) == Commit(env, p) {
        EqualCommitments(env.hash, q.data, q.timeoutHeight, q.timeoutTimestamp, p.data, p.timeoutHeight, p.timeoutTimestamp);
      }
    }
  }

  lemma SnapshotSends(env: Env, y: Node, h: Height, k: ChanKey)
    requires LocalInv(env, y) && h in y.history
    ensures k in y.history[h].store.channels ==>
              SendInv(env, k, y.history[h].store.channels[k], TraceAt(y.history[h].traces, k))
    ensures k in y.history[h].store.channels && TraceAt(y.history[h].traces, k).sent != [] ==>
              && k in y.store.channels
              && y.history[h].store.channels[k].end.remote == y.store.channels[k].end.remote
    ensures k !in y.history[h].store.channels ==> TraceAt(y.history[h].traces, k).sent == []
  {
    hide LocalInv;
    SnapshotFacts(env, y, h, k);
    SnapshotTraces(env, y, h);
    hide RecvInv, AckOrderInv, TraceExt, OnlyOnClose;
    if k in y.history[h].store.channels && TraceAt(y.history[h].traces, k).sent != [] {
      var c, t := y.history[h].store.channels[k], TraceAt(y.history[h].traces, k);
      assert SentOk(k, c.end, t.sent[0], 0);
    }
  }

  /** A packet's commitment was stored at `h` exactly when the packet was outstanding there. */
  lemma OutstandingIsStored(env: Env, y: Node, h: Height, p: Packet)
    requires Contracts(env) && LocalInv(env, y) && PacketTypesOk(p)
    requires p.src in y.store.channels && y.store.channels[p.src].end.remote == RemoteOf(p.dst)
    ensures Stored(env, y, h, Commitment(p.src.port, p.src.channel, p.seq_), BytesValue(Commit(env, p))) <==>
              ValidPath(env.alnum, Commitment(p.src.port, p.src.channel, p.seq_)) && OutstandingAt(y, h, p)
  {
    hide LocalInv, Contracts, ValidPath, SendInv, Commit, PacketTypesOk, ResolvedSeqs;
    if h in y.history {
      var k := p.src;
      assert k == TracePrefix(k.port, k.channel);
      SnapshotSends(env, y, h, k);
      if k in y.history[h].store.channels {
        var c, t := y.history[h].store.channels[k], TraceAt(y.history[h].traces, k);
        if t.sent != [] { CommitmentStored(env, y.history[h].store, k, c, t, p); } else { NothingCommitted(env, k, c, t, p.seq_); }
      }
    }
  }

  lemma NothingCommitted(env: Env, k: ChanKey, c: Channel, t: ChanTrace, n: nat)
    requires SendInv(env, k, c, t) && t.sent == []
    ensures n !in c.commitments
  {
    hide SentOk, ResolvedOk, Commit;
  }

  /** The packet has not been delivered; on an ordered channel, everything before it has. */
  ghost predicate Awaited(x: Node, p: Packet)
    requires p.dst in x.store.channels
  {
    var ds := TraceAt(x.traces, p.dst).delivered;
    if x.store.channels[p.dst].end.ordering == Ordered then p.seq_ == |ds| + 1
    else forall d :: d in ds ==> d.packet.seq_ != p.seq_
  }

  lemma AwaitedIsFirst(env: Env, x: Node, p: Packet)
    requires LocalInv(env, x) && p.dst in x.store.channels
    ensures var ch := x.store.channels[p.dst];
            SequenceAccepted(ch, p) && !AlreadyReceived(ch, p) <==> Awaited(x, p)
  {
    hide LocalInv;
    var ch, t := x.store.channels[p.dst], TraceAt(x.traces, p.dst);
    ChannelFacts(env, x, p.dst);
    ReceivedFacts(env, x.store, p.dst, ch, t);
    hide SendInv, AckOrderInv, DeliveredOk;
    if exists d :: d in t.delivered && d.packet.seq_ == p.seq_ {
      var d :| d in t.delivered && d.packet.seq_ == p.seq_;
      assert p.seq_ in DeliveredSeqs(t.delivered);
    }
  }

  /** The other chain has the packet outstanding at a height this chain can read and has known long enough, and this chain
      awaits it in time. */
  ghost predicate Deliverable(env: Env, x: Node, y: Node, host: Host, p: Packet, h: Height) {
    && PacketDecodes(p) && !PacketTimedOut(p, host.time, host.height)
    && Tracked(x, p.dst)
    && var e := x.store.channels[p.dst].end;
       && e.state == Open && e.remote == RemoteOf(p.src)
       && Usable(env, x.store, host, ConnectionOf(x.store, e).clientId, h)
       && Aged(env, x.store, host, ConnectionOf(x.store, e), h)
       && ValidPath(env.alnum, Commitment(p.src.port, p.src.channel, p.seq_))
       && OutstandingAt(y, h, p) && Awaited(x, p)
  }

  ghost predicate DeliveredBy(env: Env, s: Store, host: Host, p: Packet, h: Height, reply: Reply, proof: Bytes) {
    var out := HandleRecv(env, s, host, MsgRecv(p, proof, h), reply);
    out.Done? && out.note.DeliveredNote? && out.note.packet == p
  }

  /** An open end over a tracked client: its connection is open, its prefix is the peer's and its partner names it back. */
  lemma OpenEnd(env: Env, x: Node, y: Node, k: ChanKey)
    requires Both(env, x, y) && Tracked(x, k) && x.store.channels[k].end.state == Open
    ensures var e := x.store.channels[k].end;
            && e.remote.channelId.Some? && e.ordering != NoOrder
            && ConnectionOf(x.store, e).state == ConnOpen
            && ConnectionOf(x.store, e).counterparty.prefix == y.store.config.prefix
            && PeerKey(e) in y.store.channels && y.store.channels[PeerKey(e)].end.remote == RemoteOf(k)
  {
    hide LocalInv, PeerInv, Contracts;
    ChannelFacts(env, x, k);
    Preservation.OpenConnection(env, x, y, k);
    hide SendInv, AckOrderInv, RecvInv, PeerExists, SentBy, Justified;
    PeerFacts(env, x, y, k);
  }

  /** What a receive message must show besides its proof. */
  ghost predicate Receivable(env: Env, x: Node, host: Host, p: Packet, h: Height) {
    && PacketDecodes(p) && !PacketTimedOut(p, host.time, host.height)
    && Tracked(x, p.dst)
    && var e := x.store.channels[p.dst].end;
       && e.state == Open && e.remote == RemoteOf(p.src)
       && Aged(env, x.store, host, ConnectionOf(x.store, e), h)
       && Awaited(x, p)
  }

  lemma DeliveredByProof(env: Env, x: Node, y: Node, host: Host, p: Packet, h: Height, reply: Reply, proof: Bytes)
    requires Both(env, x, y) && Tracked(x, p.dst)
    ensures DeliveredBy(env, x.store, host, p, h, reply, proof) <==>
              && Receivable(env, x, host, p, h)
              && Proven(env, x.store, host, ConnectionOf(x.store, x.store.channels[p.dst].end).clientId, y.store.config.prefix, proof, h,
                        Commitment(p.src.port, p.src.channel, p.seq_), BytesValue(Commit(env, p)))
  {
    hide LocalInv, PeerInv, Contracts, Proven, Awaited, SequenceAccepted, AlreadyReceived, PacketDecodes, Aged, DelayPassed, HasExpired,
         CheckExpiry, OnRecv, Received, Commit;
    if x.store.channels[p.dst].end.state == Open { OpenEnd(env, x, y, p.dst); }
    AwaitedIsFirst(env, x, p);
    AgedIsDelayed(env, x.store, host, ConnectionOf(x.store, x.store.channels[p.dst].end), h);
  }

  lemma DeliverableCore(env: Env, x: Node, y: Node, host: Host, p: Packet, h: Height, reply: Reply)
    requires ProofsComplete(env) && Both(env, x, y) && Tracked(x, p.dst)
    ensures (exists proof :: DeliveredBy(env, x.store, host, p, h, reply, proof)) <==> Deliverable(env, x, y, host, p, h)
  {
    hide LocalInv, PeerInv, Contracts, ProofsComplete, Proven, Awaited, PacketTimedOut, Aged, Usable, ValidPath, Commit,
         DeliveredBy, OutstandingAt, ClientsGenuine, Stored, Receivable, Deliverable;
    GenuineClients(env, x, y);
    var c := ConnectionOf(x.store, x.store.channels[p.dst].end).clientId;
    var path, v := Commitment(p.src.port, p.src.channel, p.seq_), BytesValue(Commit(env, p));
    forall proof
      ensures DeliveredBy(env, x.store, host, p, h, reply, proof) <==>
                Receivable(env, x, host, p, h) && Proven(env, x.store, host, c, y.store.config.prefix, proof, h, path, v)
    {
      DeliveredByProof(env, x, y, host, p, h, reply, proof);
    }
    ProvableExactly(env, x, y, host, c, h, path, v);
    if Receivable(env, x, host, p, h) {
      ReceivableEnd(env, x, y, host, p, h);
      OutstandingIsStored(env, y, h, p);
    }
    DeliverableIs(env, x, y, host, p, h);
  }

  lemma DeliverableIs(env: Env, x: Node, y: Node, host: Host, p: Packet, h: Height)
    requires Tracked(x, p.dst)
    ensures Deliverable(env, x, y, host, p, h) <==>
              && Receivable(env, x, host, p, h)
              && Usable(env, x.store, host, ConnectionOf(x.store, x.store.channels[p.dst].end).clientId, h)
              && ValidPath(env.alnum, Commitment(p.src.port, p.src.channel, p.seq_))
              && OutstandingAt(y, h, p)
  {
    hide Awaited, PacketTimedOut, Aged, Usable, ValidPath, OutstandingAt, PacketDecodes;
  }

  lemma ReceivableEnd(env: Env, x: Node, y: Node, host: Host, p: Packet, h: Height)
    requires Both(env, x, y) && Receivable(env, x, host, p, h)
    ensures PacketTypesOk(p) && p.src in y.store.channels && y.store.channels[p.src].end.remote == RemoteOf(p.dst)
  {
    hide LocalInv, PeerInv, Contracts, Awaited, PacketTimedOut, Aged;
    OpenEnd(env, x, y, p.dst);
    assert PeerKey(x.store.channels[p.dst].end) == p.src;
  }

  /**
   In every reachable state a packet can be delivered at a height exactly when the other chain had sent that very packet by
   then and had not resolved it, and it is this end's turn, in time: nothing else is asked, and nothing less is enough.
   */
  lemma DeliverableExactly(env: Env, w: Pair, x: Node, y: Node, host: Host, p: Packet, h: Height, reply: Reply)
    requires Live(env, w, x, y) && ProofsComplete(env) && Tracked(x, p.dst)
    ensures (exists proof :: DeliveredBy(env, x.store, host, p, h, reply, proof)) <==> Deliverable(env, x, y, host, p, h)
  {
    hide *;
    LiveBoth(env, w, x, y);
    DeliverableCore(env, x, y, host, p, h, reply);
  }

  // ---------------------------------------------------------------- acknowledging

  /** The packet was sent here, on an open end, and is not resolved; the proof height is known long enough. */
  ghost predicate Resolvable(env: Env, x: Node, host: Host, p: Packet, h: Height) {
    && PacketDecodes(p)
    && Tracked(x, p.src)
    && var e := x.store.channels[p.src].end;
       && e.state == Open && e.remote == RemoteOf(p.dst)
       && Aged(env, x.store, host, ConnectionOf(x.store, e), h)
       && SentBy(x.traces, p) && p.seq_ !in ResolvedSeqs(TraceAt(x.traces, p.src).resolved)
  }

  lemma SendFacts(env: Env, x: Node, k: ChanKey)
    requires LocalInv(env, x) && k in x.store.channels
    ensures SendInv(env, k, x.store.channels[k], TraceAt(x.traces, k))
  {
    hide LocalInv, SendInv, RecvInv, AckOrderInv, ChanShape;
    ChannelFacts(env, x, k);
  }

  lemma PendingIsCommitted(env: Env, x: Node, p: Packet)
    requires Contracts(env) && LocalInv(env, x) && PacketTypesOk(p)
    requires p.src in x.store.channels && x.store.channels[p.src].end.remote == RemoteOf(p.dst)
    ensures var ch := x.store.channels[p.src];
            p.seq_ in ch.commitments && ch.commitments[p.seq_] == Commit(env, p) <==>
              SentBy(x.traces, p) && p.seq_ !in ResolvedSeqs(TraceAt(x.traces, p.src).resolved)
  {
    hide LocalInv, Contracts, SendInv, Commit, ResolvedSeqs, PacketTypesOk;
    SendFacts(env, x, p.src);
    CommitmentStored(env, x.store, p.src, x.store.channels[p.src], TraceAt(x.traces, p.src), p);
  }

  /** By block `h` the chain had received a packet of this sequence and answered it with `ack`. */
  ghost predicate AnsweredAt(y: Node, h: Height, p: Packet, ack: Bytes) {
    && h in y.history
    && exists d :: d in TraceAt(y.history[h].traces, p.dst).delivered && d.packet.seq_ == p.seq_ && d.ack == ack
  }

  lemma AnswerIsRecorded(env: Env, k: ChanKey, c: Channel, t: ChanTrace, n: nat, ack: Bytes)
    requires Contracts(env) && RecvInv(env, k, c, t)
    ensures n in c.acks && c.acks[n] == env.hash(ack) <==> exists d :: d in t.delivered && d.packet.seq_ == n && d.ack == ack
  {
    hide ProofsSound, SentinelProvesNothing, UnorderedRecv, OrderedRecv, PacketTimedOut, PacketDecodes;
    if n in c.acks {
      var d :| d in t.delivered && d.packet.seq_ == n;
      if c.acks[n] == env.hash(ack) {
        assert DeliveredOk(env, k, c, d) && d.ack == ack;
      }
    }
    forall d | d in t.delivered && d.packet.seq_ == n && d.ack == ack ensures n in c.acks && c.acks[n] == env.hash(ack) {
      assert DeliveredOk(env, k, c, d);
    }
  }

  lemma SnapshotReceives(env: Env, y: Node, h: Height, k: ChanKey)
    requires LocalInv(env, y) && h in y.history
    ensures k in y.history[h].store.channels ==>
              && RecvInv(env, k, y.history[h].store.channels[k], TraceAt(y.history[h].traces, k))
              && k in y.store.channels
              && y.history[h].store.channels[k].end.ordering == y.store.channels[k].end.ordering
    ensures k !in y.history[h].store.channels ==> TraceAt(y.history[h].traces, k).delivered == []
  {
    hide LocalInv;
    SnapshotFacts(env, y, h, k);
    SnapshotTraces(env, y, h);
    hide SendInv, AckOrderInv, RecvInv, TraceExt, OnlyOnClose;
  }

  lemma AnswerIsStored(env: Env, y: Node, h: Height, p: Packet, ack: Bytes)
    requires Contracts(env) && LocalInv(env, y)
    ensures Stored(env, y, h, Ack(p.dst.port, p.dst.channel, p.seq_), BytesValue(env.hash(ack))) <==>
              ValidPath(env.alnum, Ack(p.dst.port, p.dst.channel, p.seq_)) && AnsweredAt(y, h, p, ack)
  {
    hide LocalInv, Contracts, ValidPath, RecvInv;
    if h in y.history {
      var k := p.dst;
      assert k == TracePrefix(k.port, k.channel);
      SnapshotReceives(env, y, h, k);
      if k in y.history[h].store.channels {
        AnswerIsRecorded(env, k, y.history[h].store.channels[k], TraceAt(y.history[h].traces, k), p.seq_, ack);
      }
    }
  }

  /** On an ordered channel it is this packet's turn: everything before it is resolved. */
  ghost predicate NextToResolve(x: Node, p: Packet)
    requires p.src in x.store.channels
  {
    x.store.channels[p.src].end.ordering == Ordered ==> p.seq_ == |TraceAt(x.traces, p.src).resolved| + 1
  }

  /** The transfer module can give the coins back: the host consents and an escrow it is paid from holds them. */
  ghost predicate Refundable(env: Env, s: Store, p: Packet, reply: Reply) {
    && reply.accept
    && var data := Decode(env, p.data);
       && data.Some?
       && (IsSenderChainSource(p.src, data.value.denom) ==> Balance(s.ledger, data.value.denom, EscrowOf(p.src)) >= data.value.amount)
  }

  /** The transfer module takes a success without the host's consent, and an error when it can refund. */
  ghost predicate AckTaken(env: Env, s: Store, p: Packet, ack: Bytes, reply: Reply) {
    if p.src.port != s.config.transferPort then reply.accept
    else if env.ackStatus(ack) == Some(true) then Decode(env, p.data).Some?
    else env.ackStatus(ack) == Some(false) && Refundable(env, s, p, reply)
  }

  ghost predicate TimeoutTaken(env: Env, s: Store, p: Packet, reply: Reply) {
    if p.src.port != s.config.transferPort then reply.accept else Refundable(env, s, p, reply)
  }

  lemma TakenExactly(env: Env, s: Store, p: Packet, ack: Bytes, reply: Reply)
    ensures OnAck(env, s, p, ack, reply).Some? <==> AckTaken(env, s, p, ack, reply)
    ensures OnTimeout(env, s, p, reply).Some? <==> TimeoutTaken(env, s, p, reply)
  {
    hide Decode, Balance, StartsWith, SetBalance;
    if Decode(env, p.data).Some? { RefundExactly(s.ledger, p, Decode(env, p.data).value); }
  }

  ghost predicate Acknowledgeable(env: Env, x: Node, y: Node, host: Host, p: Packet, ack: Bytes, h: Height, reply: Reply) {
    && Resolvable(env, x, host, p, h)
    && NextToResolve(x, p)
    && Usable(env, x.store, host, ConnectionOf(x.store, x.store.channels[p.src].end).clientId, h)
    && ValidPath(env.alnum, Ack(p.dst.port, p.dst.channel, p.seq_))
    && AnsweredAt(y, h, p, ack)
    && AckTaken(env, x.store, p, ack, reply)
  }

  ghost predicate AckedBy(env: Env, s: Store, host: Host, p: Packet, ack: Bytes, h: Height, reply: Reply, proof: Bytes) {
    var out := HandleAck(env, s, host, MsgAck(p, ack, proof, h), reply);
    out.Done? && out.note == AckedNote(p, ack, h)
  }

  lemma AckedByProof(env: Env, x: Node, y: Node, host: Host, p: Packet, ack: Bytes, h: Height, reply: Reply, proof: Bytes)
    requires Both(env, x, y) && Tracked(x, p.src)
    ensures AckedBy(env, x.store, host, p, ack, h, reply, proof) <==>
              && Resolvable(env, x, host, p, h) && NextToResolve(x, p) && OnAck(env, x.store, p, ack, reply).Some?
              && Proven(env, x.store, host, ConnectionOf(x.store, x.store.channels[p.src].end).clientId, y.store.config.prefix, proof, h,
                        Ack(p.dst.port, p.dst.channel, p.seq_), BytesValue(env.hash(ack)))
  {
    hide LocalInv, PeerInv, Contracts, Proven, PacketTypesOk, Aged, DelayPassed, OnAck, Commit, SentBy, ResolvedSeqs;
    var e := x.store.channels[p.src].end;
    if e.state == Open {
      OpenEnd(env, x, y, p.src);
      NextAckIs(env, x, p.src);
      if PacketTypesOk(p) && e.remote == RemoteOf(p.dst) { PendingIsCommitted(env, x, p); }
    }
    AgedIsDelayed(env, x.store, host, ConnectionOf(x.store, e), h);
  }

  lemma NextAckIs(env: Env, x: Node, k: ChanKey)
    requires LocalInv(env, x) && k in x.store.channels && x.store.channels[k].end.state == Open
    ensures x.store.channels[k].end.ordering == Ordered ==> x.store.channels[k].nextAck == |TraceAt(x.traces, k).resolved| + 1
  {
    hide LocalInv;
    ChannelFacts(env, x, k);
    hide SendInv, RecvInv, AcksInOrder;
  }

  lemma AcknowledgeableCore(env: Env, x: Node, y: Node, host: Host, p: Packet, ack: Bytes, h: Height, reply: Reply)
    requires ProofsComplete(env) && Both(env, x, y) && Tracked(x, p.src)
    ensures (exists proof :: AckedBy(env, x.store, host, p, ack, h, reply, proof)) <==> Acknowledgeable(env, x, y, host, p, ack, h, reply)
  {
    hide LocalInv, PeerInv, Contracts, ProofsComplete, Proven, Usable, ValidPath, AckedBy, AnsweredAt, ClientsGenuine, Stored,
         Resolvable, NextToResolve, OnAck, AckTaken, TimeoutTaken;
    TakenExactly(env, x.store, p, ack, reply);
    GenuineClients(env, x, y);
    var c := ConnectionOf(x.store, x.store.channels[p.src].end).clientId;
    var path, v := Ack(p.dst.port, p.dst.channel, p.seq_), BytesValue(env.hash(ack));
    forall proof
      ensures AckedBy(env, x.store, host, p, ack, h, reply, proof) <==>
                && Resolvable(env, x, host, p, h) && NextToResolve(x, p) && OnAck(env, x.store, p, ack, reply).Some?
                && Proven(env, x.store, host, c, y.store.config.prefix, proof, h, path, v)
    {
      AckedByProof(env, x, y, host, p, ack, h, reply, proof);
    }
    ProvableExactly(env, x, y, host, c, h, path, v);
    AnswerIsStored(env, y, h, p, ack);
  }

  /** An acknowledgement is taken exactly when the packet is unresolved, it is its turn, the module agrees, and the other
      chain had by then received it and given that very answer. */
  lemma AcknowledgeableExactly(env: Env, w: Pair, x: Node, y: Node, host: Host, p: Packet, ack: Bytes, h: Height, reply: Reply)
    requires Live(env, w, x, y) && ProofsComplete(env) && Tracked(x, p.src)
    ensures (exists proof :: AckedBy(env, x.store, host, p, ack, h, reply, proof)) <==> Acknowledgeable(env, x, y, host, p, ack, h, reply)
  {
    hide *;
    LiveBoth(env, w, x, y);
    AcknowledgeableCore(env, x, y, host, p, ack, h, reply);
  }

  // ---------------------------------------------------------------- timing out

  /** At block `h` the chain had not received the packet; on an ordered channel, it was the very next one. */
  ghost predicate UnreceivedBy(y: Node, h: Height, ordering: Order, p: Packet) {
    && h in y.history
    && var ds := TraceAt(y.history[h].traces, p.dst).delivered;
       if ordering == Ordered then p.dst in y.history[h].store.channels && p.seq_ == |ds| + 1
       else forall d :: d in ds ==> d.packet.seq_ != p.seq_
  }

  function UnreceivedPath(ordering: Order, p: Packet): Path {
    if ordering == Ordered then SeqRecv(p.dst.port, p.dst.channel) else Receipt(p.dst.port, p.dst.channel, p.seq_)
  }

  lemma UnreceivedIsRecorded(env: Env, k: ChanKey, c: Channel, t: ChanTrace, n: nat)
    requires RecvInv(env, k, c, t)
    ensures c.end.ordering == Ordered ==> (c.nextRecv == n <==> n == |t.delivered| + 1)
    ensures c.end.ordering == Unordered ==> (n !in c.receipts <==> forall d :: d in t.delivered ==> d.packet.seq_ != n)
  {
    hide DeliveredOk;
  }

  lemma UnreceivedIsStored(env: Env, y: Node, h: Height, p: Packet)
    requires LocalInv(env, y) && p.dst in y.store.channels
    ensures y.store.channels[p.dst].end.ordering == Ordered ==>
              (Stored(env, y, h, SeqRecv(p.dst.port, p.dst.channel), SequenceValue(p.seq_)) <==>
                 ValidPath(env.alnum, SeqRecv(p.dst.port, p.dst.channel)) && UnreceivedBy(y, h, Ordered, p))
    ensures y.store.channels[p.dst].end.ordering == Unordered ==>
              (NotStored(env, y, h, Receipt(p.dst.port, p.dst.channel, p.seq_)) <==>
                 ValidPath(env.alnum, Receipt(p.dst.port, p.dst.channel, p.seq_)) && UnreceivedBy(y, h, Unordered, p))
  {
    hide LocalInv, ValidPath, RecvInv;
    if h in y.history {
      var k := p.dst;
      assert k == TracePrefix(k.port, k.channel);
      SnapshotReceives(env, y, h, k);
      if k in y.history[h].store.channels {
        UnreceivedIsRecorded(env, k, y.history[h].store.channels[k], TraceAt(y.history[h].traces, k), p.seq_);
      }
    }
  }

  /** The sequence a message claims to be the next expected one only matters on an ordered channel, where it may not exceed
      the packet's. */
  ghost predicate TimeoutAllowed(env: Env, x: Node, y: Node, host: Host, p: Packet, nextSeqRecv: nat, h: Height, reply: Reply) {
    && Resolvable(env, x, host, p, h)
    && var e := x.store.channels[p.src].end;
       && Usable(env, x.store, host, ConnectionOf(x.store, e).clientId, h)
       && ValidPath(env.alnum, UnreceivedPath(e.ordering, p))
       && UnreceivedBy(y, h, e.ordering, p)
       && PacketTimedOut(p, y.history[h].time, h)
       && (e.ordering == Ordered ==> nextSeqRecv <= p.seq_)
       && TimeoutTaken(env, x.store, p, reply)
  }

  ghost predicate TimedOutBy(env: Env, s: Store, host: Host, p: Packet, nextSeqRecv: nat, h: Height, reply: Reply, proof: Bytes) {
    var out := HandleTimeout(env, s, host, MsgTimeout(p, nextSeqRecv, proof, h), reply);
    out.Done? && out.note == TimedOutNote(p, h, false)
  }

  ghost predicate UnreceivedShown(env: Env, x: Node, y: Node, host: Host, p: Packet, h: Height, proof: Bytes)
    requires Tracked(x, p.src)
  {
    var e := x.store.channels[p.src].end;
    var c, prefix := ConnectionOf(x.store, e).clientId, y.store.config.prefix;
    if e.ordering == Ordered
    then Proven(env, x.store, host, c, prefix, proof, h, SeqRecv(p.dst.port, p.dst.channel), SequenceValue(p.seq_))
    else ProvenAbsent(env, x.store, host, c, prefix, proof, h, Receipt(p.dst.port, p.dst.channel, p.seq_))
  }

  /** What a timeout message must show besides its proof. */
  ghost predicate TimeoutReady(env: Env, x: Node, y: Node, host: Host, p: Packet, nextSeqRecv: nat, h: Height, reply: Reply) {
    && Resolvable(env, x, host, p, h)
    && h in y.history && PacketTimedOut(p, y.history[h].time, h)
    && (x.store.channels[p.src].end.ordering == Ordered ==> nextSeqRecv <= p.seq_)
    && TimeoutTaken(env, x.store, p, reply)
  }

  lemma ShownIsReady(env: Env, x: Node, y: Node, host: Host, p: Packet, h: Height, proof: Bytes)
    requires Both(env, x, y) && Tracked(x, p.src) && UnreceivedShown(env, x, y, host, p, h, proof)
    ensures var c := ConnectionOf(x.store, x.store.channels[p.src].end).clientId;
            && ProofReady(x.store, host, c, h) && h in y.history && ConsensusAt(x.store, c, h).timestamp == y.history[h].time
  {
    hide LocalInv, PeerInv, Contracts, ValidPath, ClientActive, Lookup, ClientsGenuine;
    GenuineClients(env, x, y);
    var e := x.store.channels[p.src].end;
    var c, prefix := ConnectionOf(x.store, e).clientId, y.store.config.prefix;
    if e.ordering == Ordered {
      Learn(env, x, y, host, c, prefix, proof, h, SeqRecv(p.dst.port, p.dst.channel), SequenceValue(p.seq_));
    } else {
      LearnAbsent(env, x, y, host, c, prefix, proof, h, Receipt(p.dst.port, p.dst.channel, p.seq_));
    }
  }

  lemma TimedOutByProof(env: Env, x: Node, y: Node, host: Host, p: Packet, nextSeqRecv: nat, h: Height, reply: Reply, proof: Bytes)
    requires Both(env, x, y) && Tracked(x, p.src)
    ensures TimedOutBy(env, x.store, host, p, nextSeqRecv, h, reply, proof) <==>
              TimeoutReady(env, x, y, host, p, nextSeqRecv, h, reply) && UnreceivedShown(env, x, y, host, p, h, proof)
  {
    hide LocalInv, PeerInv, Contracts, Proven, ProvenAbsent, PacketTypesOk, Aged, DelayPassed, OnTimeout, Commit, SentBy, ResolvedSeqs,
         ProofReady, PacketTimedOut, AckTaken, TimeoutTaken;
    TakenExactly(env, x.store, p, [], reply);
    var e := x.store.channels[p.src].end;
    if e.state == Open {
      OpenEnd(env, x, y, p.src);
      if PacketTypesOk(p) && e.remote == RemoteOf(p.dst) { PendingIsCommitted(env, x, p); }
      if UnreceivedShown(env, x, y, host, p, h, proof) { ShownIsReady(env, x, y, host, p, h, proof); }
    }
    AgedIsDelayed(env, x.store, host, ConnectionOf(x.store, e), h);
  }

  lemma UnreceivedShownExactly(env: Env, x: Node, y: Node, host: Host, p: Packet, h: Height)
    requires ProofsComplete(env) && Both(env, x, y) && Tracked(x, p.src)
    requires x.store.channels[p.src].end.state == Open && x.store.channels[p.src].end.remote == RemoteOf(p.dst)
    ensures (exists proof :: UnreceivedShown(env, x, y, host, p, h, proof)) <==>
              && var e := x.store.channels[p.src].end;
                 && Usable(env, x.store, host, ConnectionOf(x.store, e).clientId, h)
                 && ValidPath(env.alnum, UnreceivedPath(e.ordering, p))
                 && UnreceivedBy(y, h, e.ordering, p)
  {
    hide LocalInv, PeerInv, Contracts, ProofsComplete, Proven, ProvenAbsent, Usable, ValidPath, ClientsGenuine, Stored, NotStored,
         UnreceivedBy;
    GenuineClients(env, x, y);
    var e := x.store.channels[p.src].end;
    var c := ConnectionOf(x.store, e).clientId;
    SameOrder(env, x, y, p.src);
    assert PeerKey(e) == p.dst;
    UnreceivedIsStored(env, y, h, p);
    if e.ordering == Ordered {
      var path, v := SeqRecv(p.dst.port, p.dst.channel), SequenceValue(p.seq_);
      ProvableExactly(env, x, y, host, c, h, path, v);
      forall proof | Proven(env, x.store, host, c, y.store.config.prefix, proof, h, path, v)
        ensures UnreceivedShown(env, x, y, host, p, h, proof)
      {
      }
    } else {
      var path := Receipt(p.dst.port, p.dst.channel, p.seq_);
      assert e.ordering == Unordered;
      AbsenceProvableExactly(env, x, y, host, c, h, path);
      forall proof | ProvenAbsent(env, x.store, host, c, y.store.config.prefix, proof, h, path)
        ensures UnreceivedShown(env, x, y, host, p, h, proof)
      {
      }
    }
  }

  lemma SameOrder(env: Env, x: Node, y: Node, k: ChanKey)
    requires Both(env, x, y) && Tracked(x, k) && x.store.channels[k].end.state == Open
    ensures var e := x.store.channels[k].end;
            && e.remote.channelId.Some? && e.ordering != NoOrder
            && PeerKey(e) in y.store.channels && y.store.channels[PeerKey(e)].end.ordering == e.ordering
  {
    hide LocalInv, PeerInv, Contracts;
    ChannelFacts(env, x, k);
    hide SendInv, AckOrderInv, RecvInv, PeerExists, SentBy, Justified;
    PeerFacts(env, x, y, k);
  }

  lemma TimeoutAllowedCore(env: Env, x: Node, y: Node, host: Host, p: Packet, nextSeqRecv: nat, h: Height, reply: Reply)
    requires ProofsComplete(env) && Both(env, x, y) && Tracked(x, p.src)
    ensures (exists proof :: TimedOutBy(env, x.store, host, p, nextSeqRecv, h, reply, proof)) <==>
              TimeoutAllowed(env, x, y, host, p, nextSeqRecv, h, reply)
  {
    hide LocalInv, PeerInv, Contracts, ProofsComplete, Usable, ValidPath, TimedOutBy, UnreceivedBy, UnreceivedShown, Resolvable,
         PacketTimedOut, TimeoutTaken, TimeoutReady, TimeoutAllowed;
    forall proof
      ensures TimedOutBy(env, x.store, host, p, nextSeqRecv, h, reply, proof) <==>
                TimeoutReady(env, x, y, host, p, nextSeqRecv, h, reply) && UnreceivedShown(env, x, y, host, p, h, proof)
    {
      TimedOutByProof(env, x, y, host, p, nextSeqRecv, h, reply, proof);
    }
    var e := x.store.channels[p.src].end;
    if e.state == Open && e.remote == RemoteOf(p.dst) { UnreceivedShownExactly(env, x, y, host, p, h); }
    TimeoutAllowedIs(env, x, y, host, p, nextSeqRecv, h, reply);
  }

  lemma TimeoutAllowedIs(env: Env, x: Node, y: Node, host: Host, p: Packet, nextSeqRecv: nat, h: Height, reply: Reply)
    requires Tracked(x, p.src)
    ensures var e := x.store.channels[p.src].end;
            && (TimeoutReady(env, x, y, host, p, nextSeqRecv, h, reply) ==> e.state == Open && e.remote == RemoteOf(p.dst))
            && (TimeoutAllowed(env, x, y, host, p, nextSeqRecv, h, reply) <==>
                  && TimeoutReady(env, x, y, host, p, nextSeqRecv, h, reply)
                  && Usable(env, x.store, host, ConnectionOf(x.store, e).clientId, h)
                  && ValidPath(env.alnum, UnreceivedPath(e.ordering, p))
                  && UnreceivedBy(y, h, e.ordering, p))
  {
    hide Aged, Usable, ValidPath, PacketDecodes, PacketTimedOut, SentBy, TimeoutTaken, UnreceivedPath;
  }

  /** A timeout is taken exactly when the packet is unresolved here and, at a block the other chain reached too late for it,
      was still unreceived there. */
  lemma TimeoutAllowedExactly(env: Env, w: Pair, x: Node, y: Node, host: Host, p: Packet, nextSeqRecv: nat, h: Height, reply: Reply)
    requires Live(env, w, x, y) && ProofsComplete(env) && Tracked(x, p.src)
    ensures (exists proof :: TimedOutBy(env, x.store, host, p, nextSeqRecv, h, reply, proof)) <==>
              TimeoutAllowed(env, x, y, host, p, nextSeqRecv, h, reply)
  {
    hide *;
    LiveBoth(env, w, x, y);
    TimeoutAllowedCore(env, x, y, host, p, nextSeqRecv, h, reply);
  }

  // ---------------------------------------------------------------- nothing left to resolve

  /** Nothing was sent under this sequence, or it is resolved. */
  ghost predicate NotPending(x: Node, p: Packet) {
    && p.src in x.store.channels
    && var t := TraceAt(x.traces, p.src); !(1 <= p.seq_ <= |t.sent|) || p.seq_ in ResolvedSeqs(t.resolved)
  }

  /** The module agrees to the message, whose packet is well formed and of this channel; only on close may the channel not be open. */
  ghost predicate StillTaken(env: Env, x: Node, m: PacketMsg, reply: Reply)
    requires m.packet.src in x.store.channels && !m.MsgRecv?
  {
    var p, e := m.packet, x.store.channels[m.packet.src].end;
    && PacketDecodes(p) && e.remote == RemoteOf(p.dst)
    && (e.state == Open || m.MsgTimeoutOnClose?)
    && (if m.MsgAck? then AckTaken(env, x.store, p, m.ack, reply) else TimeoutTaken(env, x.store, p, reply))
  }

  lemma StaleCore(env: Env, x: Node, host: Host, m: PacketMsg, reply: Reply)
    requires LocalInv(env, x) && !m.MsgRecv? && NotPending(x, m.packet)
    ensures Handle(env, x.store, host, Pkt(m), reply) == if StillTaken(env, x, m, reply) then Done(x.store, Quiet) else Rejected
  {
    hide LocalInv, Proven, UnreceivedProven, PeerEndProven, DelayPassed, ProofReady, PacketTimedOut, PacketDecodes, Commit, OnAck, OnTimeout,
         AckTaken, TimeoutTaken, AckedChannel, TimedOutChannel;
    var p := m.packet;
    StaleFacts(env, x, p);
    TakenExactly(env, x.store, p, if m.MsgAck? then m.ack else [], reply);
  }

  lemma StaleFacts(env: Env, x: Node, p: Packet)
    requires LocalInv(env, x) && NotPending(x, p)
    ensures var ch := x.store.channels[p.src];
            && p.seq_ !in ch.commitments && HasConnection(x.store, ch.end)
            && (ch.end.state == Open ==> ConnectionOf(x.store, ch.end).state == ConnOpen)
  {
    hide LocalInv, ResolvedSeqs;
    ChannelFacts(env, x, p.src);
    hide RecvInv, AckOrderInv, SentOk, ResolvedOk;
  }

  /** Relaying an acknowledgement or timeout again, or for nothing, changes nothing: it passes exactly when its packet is well formed
      and of an open end, the module agrees, and no proof is looked at. */
  lemma StaleIsIdle(env: Env, w: Pair, x: Node, y: Node, host: Host, m: PacketMsg, reply: Reply)
    requires Live(env, w, x, y) && !m.MsgRecv? && NotPending(x, m.packet)
    ensures Handle(env, x.store, host, Pkt(m), reply) == if StillTaken(env, x, m, reply) then Done(x.store, Quiet) else Rejected
  {
    hide *;
    LiveBoth(env, w, x, y);
    BothLocal(env, x, y);
    StaleCore(env, x, host, m, reply);
  }
}
