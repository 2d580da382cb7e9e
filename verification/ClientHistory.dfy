/** Every client of every run, upgrades included: what its stored states look like, and what a timeout may rest on. */
module ClientHistory {
  import opened Prelude
  import opened Heights
  import opened Strings
  import opened Versions
  import opened Paths
  import opened Tendermint
  import opened IbcStore
  import opened Transfer
  import opened Connections
  import opened Channels
  import opened Packets
  import opened Dispatch
  import opened World
  import opened Runs
  import opened Safety

  // ---------------------------------------------------------------- one client

  /** A state stored by an upgrade lies above `a` and not above `b`. */
  ghost predicate UpgradedWithin(c: Client, sentinel: Bytes, a: Height, b: Height) {
    exists h :: h in c.consensus && c.consensus[h].root == sentinel && Lt(a, h) && Leq(h, b)
  }

  ghost predicate InOrderBetween(c: Client, sentinel: Bytes, a: Height, b: Height)
    requires a in c.consensus && b in c.consensus
  {
    c.consensus[a].timestamp < c.consensus[b].timestamp || UpgradedWithin(c, sentinel, a, b)
  }

  /** Timestamps increase with height, except across a state stored by an upgrade. */
  ghost predicate Segmented(c: Client, sentinel: Bytes) {
    forall a, b :: a in c.consensus && b in c.consensus && Lt(a, b) ==> InOrderBetween(c, sentinel, a, b)
  }

  ghost predicate WellKept(c: Client, sentinel: Bytes) { StoreShape(c) && Segmented(c, sentinel) }

  /** Without such a state they increase throughout. */
  lemma NeverUpgradedIncreases(c: Client, sentinel: Bytes)
    requires Segmented(c, sentinel) && forall h :: h in c.consensus ==> c.consensus[h].root != sentinel
    ensures TimesIncrease(c)
  {
    forall a, b | a in c.consensus && b in c.consensus && Lt(a, b) ensures c.consensus[a].timestamp < c.consensus[b].timestamp {
      assert InOrderBetween(c, sentinel, a, b);
    }
  }

  /** What survives pruning is everything from some height on. */
  lemma SurvivalIsUpward(c: Client, a: Height, b: Height, now: nat)
    requires SurvivesPruning(c, a, now) && Leq(a, b)
    ensures SurvivesPruning(c, b, now)
  {
    var g :| g in c.consensus && Leq(g, a) && !ExpiredAt(c, g, now);
    assert Leq(g, b);
  }

  lemma KeptAfterUpdate(c: Client, h: Header, now: nat, hostHeight: Height, a: Height)
    requires a in c.consensus && SurvivesPruning(c, a, now)
    ensures var r := Updated(c, h, now, hostHeight); a in r.consensus && r.consensus[a] == c.consensus[a]
  {
    hide SurvivesPruning;
    assert a in Pruned(c, now).consensus;
  }

  /** An upgraded state above a surviving height is still there after the update. */
  lemma UpgradeSurvives(c: Client, sentinel: Bytes, h: Header, now: nat, hostHeight: Height, g: Height, a: Height, b: Height)
    requires UpgradedWithin(c, sentinel, g, b) && g in c.consensus && SurvivesPruning(c, g, now) && Leq(a, g)
    ensures UpgradedWithin(Updated(c, h, now, hostHeight), sentinel, a, b)
  {
    hide SurvivesPruning, Updated;
    var w :| w in c.consensus && c.consensus[w].root == sentinel && Lt(g, w) && Leq(w, b);
    SurvivalIsUpward(c, g, w, now);
    KeptAfterUpdate(c, h, now, hostHeight, w);
    assert Lt(a, w);
  }

  /** The header's place below a stored height: in order, or across an upgrade. */
  lemma HeaderAbove(c: Client, sentinel: Bytes, h: Header, a: Height)
    requires WellKept(c, sentinel) && !HeaderShowsMisbehaviour(c, h) && a in c.consensus && Lt(a, HeightOf(h))
    ensures c.consensus[a].timestamp < h.time || UpgradedWithin(c, sentinel, a, HeightOf(h))
  {
    var at := HeightOf(h);
    if at in c.consensus {
      assert InOrderBetween(c, sentinel, a, at);
    } else {
      var p := ClosestBelow(c.consensus.Keys, at);
      assert IsPrev(c.consensus, at, p);
      if a != p {
        assert InOrderBetween(c, sentinel, a, p);
        if UpgradedWithin(c, sentinel, a, p) { WidenUpgrade(c, sentinel, a, p, at); }
      }
    }
  }

  lemma WidenUpgrade(c: Client, sentinel: Bytes, a: Height, p: Height, b: Height)
    requires UpgradedWithin(c, sentinel, a, p) && Leq(p, b)
    ensures UpgradedWithin(c, sentinel, a, b)
  {
    var w :| w in c.consensus && c.consensus[w].root == sentinel && Lt(a, w) && Leq(w, p);
    assert Leq(w, b);
  }

  /** The first stored height at or above the header's that the header is known to precede in time. */
  lemma HeaderBelow(c: Client, h: Header, b: Height) returns (n: Height)
    requires StoreShape(c) && !HeaderShowsMisbehaviour(c, h) && b in c.consensus && Lt(HeightOf(h), b)
    ensures n in c.consensus && Leq(HeightOf(h), n) && Leq(n, b)
    ensures h.time <= c.consensus[n].timestamp && (h.time == c.consensus[n].timestamp ==> n == HeightOf(h))
  {
    var at := HeightOf(h);
    if at in c.consensus {
      n := at;
    } else {
      n := ClosestAbove(c.consensus.Keys, at);
      assert IsNext(c.consensus, at, n);
      assert Leq(n, c.state.latestHeight);
    }
  }

  lemma OrderFrom(c: Client, sentinel: Bytes, h: Header, now: nat, hostHeight: Height, g: Height, b: Height)
    requires Segmented(c, sentinel) && g in c.consensus && SurvivesPruning(c, g, now) && b in c.consensus && Leq(g, b)
    requires Leq(HeightOf(h), g) && h.time <= c.consensus[g].timestamp
    requires g != b || h.time < c.consensus[g].timestamp
    ensures h.time < c.consensus[b].timestamp || UpgradedWithin(Updated(c, h, now, hostHeight), sentinel, HeightOf(h), b)
  {
    hide SurvivesPruning, Updated;
    if g != b {
      assert Lt(g, b) && InOrderBetween(c, sentinel, g, b);
      if UpgradedWithin(c, sentinel, g, b) { UpgradeSurvives(c, sentinel, h, now, hostHeight, g, HeightOf(h), b); }
    }
  }

  /** A new header below a stored height, after pruning: the state it was compared with may be gone, but then it was expired. */
  lemma NewBelow(c: Client, sentinel: Bytes, h: Header, now: nat, hostHeight: Height, b: Height)
    requires WellKept(c, sentinel) && !HeaderShowsMisbehaviour(c, h)
    requires b in c.consensus && SurvivesPruning(c, b, now) && Lt(HeightOf(h), b)
    ensures h.time < c.consensus[b].timestamp || UpgradedWithin(Updated(c, h, now, hostHeight), sentinel, HeightOf(h), b)
  {
    hide Updated, HeaderShowsMisbehaviour, Segmented, StoreShape;
    var n := HeaderBelow(c, h, b);
    if SurvivesPruning(c, n, now) {
      OrderFrom(c, sentinel, h, now, hostHeight, n, b);
    } else {
      var g :| g in c.consensus && Leq(g, b) && !ExpiredAt(c, g, now);
      assert Leq(n, n) && ExpiredAt(c, n, now);
      assert Lt(n, g);
      assert Leq(g, g) && SurvivesPruning(c, g, now);
      OrderFrom(c, sentinel, h, now, hostHeight, g, b);
    }
  }

  lemma KeptIsOld(c: Client, h: Header, now: nat, hostHeight: Height, a: Height)
    requires a in Updated(c, h, now, hostHeight).consensus
    ensures var s := Updated(c, h, now, hostHeight).consensus[a];
            || (a in c.consensus && SurvivesPruning(c, a, now) && s == c.consensus[a])
            || (a == HeightOf(h) && s == ConsensusOf(h))
  {
    hide SurvivesPruning;
  }

  lemma UpdatedOrder(c: Client, sentinel: Bytes, h: Header, now: nat, hostHeight: Height, a: Height, b: Height)
    requires WellKept(c, sentinel) && !HeaderShowsMisbehaviour(c, h) && Lt(a, b)
    requires a in Updated(c, h, now, hostHeight).consensus && b in Updated(c, h, now, hostHeight).consensus
    ensures InOrderBetween(Updated(c, h, now, hostHeight), sentinel, a, b)
  {
    var r := Updated(c, h, now, hostHeight);
    KeptIsOld(c, h, now, hostHeight, a);
    KeptIsOld(c, h, now, hostHeight, b);
    hide Updated, HeaderShowsMisbehaviour, StoreShape, SurvivesPruning, UpgradedWithin;
    if a in c.consensus && SurvivesPruning(c, a, now) && r.consensus[a] == c.consensus[a] {
      if b in c.consensus && r.consensus[b] == c.consensus[b] {
        assert InOrderBetween(c, sentinel, a, b);
      } else {
        HeaderAbove(c, sentinel, h, a);
      }
      if UpgradedWithin(c, sentinel, a, b) { UpgradeSurvives(c, sentinel, h, now, hostHeight, a, a, b); }
    } else {
      NewBelow(c, sentinel, h, now, hostHeight, b);
    }
  }

  lemma UpdatedWellKept(c: Client, sentinel: Bytes, h: Header, now: nat, hostHeight: Height)
    requires WellKept(c, sentinel) && !HeaderShowsMisbehaviour(c, h)
    ensures WellKept(Updated(c, h, now, hostHeight), sentinel)
  {
    hide Updated, HeaderShowsMisbehaviour, StoreShape, InOrderBetween;
    var r := Updated(c, h, now, hostHeight);
    UpdatedShape(c, h, now, hostHeight);
    forall a, b | a in r.consensus && b in r.consensus && Lt(a, b) ensures InOrderBetween(r, sentinel, a, b) {
      UpdatedOrder(c, sentinel, h, now, hostHeight, a, b);
    }
  }

  /** The upgraded state sits above all others, so nothing compares across it. */
  lemma UpgradedWellKept(c: Client, upgraded: ClientState, cons: ConsensusState, sentinel: Bytes, proofsOk: bool,
                         now: nat, hostHeight: Height)
    requires WellKept(c, sentinel) && HandleUpgrade(c, upgraded, cons, sentinel, proofsOk, now, hostHeight).Some?
    ensures WellKept(HandleUpgrade(c, upgraded, cons, sentinel, proofsOk, now, hostHeight).value, sentinel)
  {
    UpgradeKeepsShape(c, upgraded, cons, sentinel, proofsOk, now, hostHeight);
    var r := HandleUpgrade(c, upgraded, cons, sentinel, proofsOk, now, hostHeight).value;
    var top := upgraded.latestHeight;
    assert forall h :: h in c.consensus ==> h != top && Lt(h, top);
    forall a, b | a in r.consensus && b in r.consensus && Lt(a, b) ensures InOrderBetween(r, sentinel, a, b) {
      if b == top {
        assert r.consensus[top].root == sentinel && Leq(top, b);
      } else {
        assert a != top && InOrderBetween(c, sentinel, a, b);
        if UpgradedWithin(c, sentinel, a, b) {
          var w :| w in c.consensus && c.consensus[w].root == sentinel && Lt(a, w) && Leq(w, b);
          assert r.consensus[w] == c.consensus[w];
        }
      }
    }
  }

  /** An update or misbehaviour message: the client is updated, frozen or left alone. */
  lemma HandledWellKept(v: Verifier, c: Client, sentinel: Bytes, kind: UpdateKind, msg: ClientMessage, now: nat, hostHeight: Height)
    requires WellKept(c, sentinel) && HandleUpdate(v, c, kind, msg, now, hostHeight).Some?
    ensures WellKept(HandleUpdate(v, c, kind, msg, now, hostHeight).value, sentinel)
  {
    hide Updated, VerifyClientMessage, HeaderShowsMisbehaviour, EvidenceShowsMisbehaviour, PruneOverflows;
    if !ShowsMisbehaviour(c, msg) {
      UpdatedWellKept(c, sentinel, msg.header, now, hostHeight);
    } else {
      FrozenWellKept(c, sentinel);
    }
  }

  lemma FrozenWellKept(c: Client, sentinel: Bytes)
    requires WellKept(c, sentinel)
    ensures WellKept(FrozenClient(c), sentinel)
  {
    forall a, b | a in c.consensus && b in c.consensus && Lt(a, b) ensures InOrderBetween(FrozenClient(c), sentinel, a, b) {
      assert InOrderBetween(c, sentinel, a, b);
    }
  }

  // ---------------------------------------------------------------- every client of a chain

  ghost predicate ClientsWellKept(env: Env, s: Store) {
    (forall c :: c in s.clients ==> WellKept(s.clients[c], env.sentinel)) && ClientsNumbered(s)
  }

  /** Every client has one of the identifiers handed out so far. */
  ghost predicate ClientsNumbered(s: Store) {
    forall c :: c in s.clients ==> exists n :: 0 <= n < s.clientCounter && c == ClientIdOf(n)
  }

  ghost predicate SameClients(s: Store, s': Store) { s'.clients == s.clients && s'.clientCounter == s.clientCounter }

  lemma ClientMessageWellKept(env: Env, s: Store, host: Host, m: ClientMsg)
    requires ClientsWellKept(env, s) && HandleClient(env, s, host, m).Some?
    ensures ClientsWellKept(env, HandleClient(env, s, host, m).value)
  {
    hide HandleUpdate, HandleUpgrade, WellKept, Initialised;
    match m
    case CreateClient(st, cs) =>
      CreatedWellKept(st, cs, env.sentinel, host.time, host.height);
      CreatedNumbered(s, host, m);
    case UpdateOrMisbehaviour(kind, id, msg) =>
      HandledWellKept(env.verifier, s.clients[id], env.sentinel, kind, msg, host.time, host.height);
    case UpgradeClient(id, st, cs, p1, p2) =>
      var current := s.clients[id];
      var latest := current.state.latestHeight;
      var ok := latest in current.consensus && env.upgradeProofs(current.consensus[latest].root, st, cs, p1, p2);
      UpgradedWellKept(current, st, cs, env.sentinel, ok, host.time, host.height);
  }

  lemma CreatedNumbered(s: Store, host: Host, m: ClientMsg)
    requires ClientsNumbered(s) && m.CreateClient? && HandleCreate(s, host, m).Some?
    ensures ClientsNumbered(HandleCreate(s, host, m).value)
  {
    hide Initialised, ClientIdOf;
    var s' := HandleCreate(s, host, m).value;
    forall c | c in s'.clients ensures exists n :: 0 <= n < s'.clientCounter && c == ClientIdOf(n) {
      if c in s.clients {
        var n :| 0 <= n < s.clientCounter && c == ClientIdOf(n);
        assert 0 <= n < s'.clientCounter;
      } else {
        assert 0 <= s.clientCounter < s'.clientCounter;
      }
    }
  }

  lemma CreatedWellKept(st: ClientState, cs: ConsensusState, sentinel: Bytes, now: nat, hostHeight: Height)
    ensures WellKept(Initialised(st, cs, now, hostHeight), sentinel)
  {
  }

  /** Nothing but client messages touches a client. */
  lemma OthersKeepClients(env: Env, s: Store, host: Host, m: Msg, reply: Reply)
    requires !m.Client?
    ensures var out := Handle(env, s, host, m, reply); out.Done? ==> SameClients(s, out.store)
  {
    hide HandleConnection, ChanValid, ChanExec, HandleRecv, HandleAck, HandleTimeout;
    match m
    case Conn(c) => if HandleConnection(env, s, host, c).Some? { ConnectionsKeepClients(env, s, host, c); }
    case Chan(c) => if ChanValid(env, s, host, c, reply) { ChannelsKeepClients(env, s, host, c, reply); }
    case Pkt(p) => PacketsKeepClients(env, s, host, p, reply);
  }

  lemma ConnectionsKeepClients(env: Env, s: Store, host: Host, m: ConnMsg)
    requires HandleConnection(env, s, host, m).Some?
    ensures SameClients(s, HandleConnection(env, s, host, m).value)
  {
    hide ConnInitValid, ConnTryValid, ConnAckValid, ConnConfirmValid, ConnInitEnd, ConnTryEnd, ConnAckEnd;
  }

  lemma ChannelsKeepClients(env: Env, s: Store, host: Host, m: ChanMsg, reply: Reply)
    requires ChanValid(env, s, host, m, reply)
    ensures SameClients(s, ChanExec(s, m, reply))
  {
    hide Proven, ClientActive;
  }

  lemma PacketsKeepClients(env: Env, s: Store, host: Host, m: PacketMsg, reply: Reply)
    ensures var out := Handle(env, s, host, Pkt(m), reply); out.Done? ==> SameClients(s, out.store)
  {
    hide RecvValid, AckValid, TimeoutValid, TimeoutOnCloseValid, OnRecv, OnAck, OnTimeout, AlreadyReceived, Received, AckedChannel,
         TimedOutChannel;
    if m.MsgRecv? && RecvValid(env, s, host, m) { RecvTarget(env, s, host, m); }
  }

  lemma StepWellKept(env: Env, x: Node, l: Label)
    requires ClientsWellKept(env, x.store)
    ensures ClientsWellKept(env, Step(env, x, l).store)
  {
    hide Handle, HandleMsgTransfer, ClientsWellKept, Move, Credit, Record;
    match l
    case Dispatched(m, reply, own) =>
      if m.Client? {
        MessageWellKept(env, x.store, HostOf(x, own), m.clientMsg, reply);
      } else {
        OthersKeepClients(env, x.store, HostOf(x, own), m, reply);
      }
      SameClientsWellKept(env, x, Handle(env, x.store, HostOf(x, own), m, reply));
    case SendPacket(p) =>
      SendWellKept(env, x.store, HostOf(x, map[]), p);
      SameClientsWellKept(env, x, HandleSend(env, x.store, HostOf(x, map[]), p));
    case SendTransfer(k, text, th, ts, reply) =>
      SendTransferShape(env, x.store, HostOf(x, map[]), k, text, th, ts, reply);
      SameClientsWellKept(env, x, HandleMsgTransfer(env, x.store, HostOf(x, map[]), k, text, th, ts, reply));
    case _ => EqualClients(env, x.store, Step(env, x, l).store);
  }

  lemma EqualClients(env: Env, s: Store, s': Store)
    requires ClientsWellKept(env, s) && SameClients(s, s')
    ensures ClientsWellKept(env, s')
  {
  }

  lemma SendWellKept(env: Env, s: Store, host: Host, p: Packet)
    ensures var out := HandleSend(env, s, host, p); out.Done? ==> SameClients(s, out.store)
  {
    hide SendValid;
  }

  lemma SameClientsWellKept(env: Env, x: Node, out: Outcome)
    requires ClientsWellKept(env, x.store)
    requires out.Done? ==> SameClients(x.store, out.store) || ClientsWellKept(env, out.store)
    ensures ClientsWellKept(env, Absorb(x, out).store)
  {
    hide WellKept, Record;
  }

  lemma MessageWellKept(env: Env, s: Store, host: Host, m: ClientMsg, reply: Reply)
    requires ClientsWellKept(env, s)
    ensures var out := Handle(env, s, host, Msg.Client(m), reply); out.Done? ==> ClientsWellKept(env, out.store)
  {
    hide HandleClient, ClientsWellKept;
    if HandleClient(env, s, host, m).Some? { ClientMessageWellKept(env, s, host, m); }
  }

  lemma {:induction false} RunWellKept(env: Env, w: Pair, es: seq<Event>)
    requires ClientsWellKept(env, w.a.store) && ClientsWellKept(env, w.b.store)
    ensures ClientsWellKept(env, Run(env, w, es).a.store) && ClientsWellKept(env, Run(env, w, es).b.store)
    decreases |es|
  {
    hide ClientsWellKept, Step;
    if |es| > 0 {
      match es[0] {
        case OnA(l) => StepWellKept(env, w.a, l);
        case OnB(l) => StepWellKept(env, w.b, l);
      }
      RunWellKept(env, Next(env, w, es[0]), es[1..]);
    }
  }

  /**
   Over every run, upgrades included, every client has metadata at exactly its stored heights, no stored height above the
   latest one, and timestamps that increase with height except across a state stored by an upgrade.
   */
  lemma ClientsAlwaysWellKept(env: Env, w: Pair)
    requires Reachable(env, w)
    ensures ClientsWellKept(env, w.a.store) && ClientsWellKept(env, w.b.store)
  {
    hide RunAdmissible, Run, WellKept;
    var w0: Pair, es: seq<Event> :| Genesis(w0.a) && Genesis(w0.b) && RunAdmissible(env, w0, es) && w == Run(env, w0, es);
    RunWellKept(env, w0, es);
  }

  /** The store after creation holds one client more, under an identifier never used, with just the given state, stamped now. */
  ghost predicate Created(s: Store, s': Store, host: Host, st: ClientState, cs: ConsensusState) {
    var id, at := ClientIdOf(s.clientCounter), st.latestHeight;
    && id !in s.clients
    && s' == s.(clients := s.clients[id := Tendermint.Client.Client(st, map[at := cs], map[at := (host.time, host.height)])],
                clientCounter := s.clientCounter + 1)
  }

  lemma CreatedCore(env: Env, s: Store, host: Host, st: ClientState, cs: ConsensusState)
    requires ClientsWellKept(env, s)
    ensures var r := HandleClient(env, s, host, CreateClient(st, cs));
            && (r.Some? <==> st.frozenHeight.None? && |cs.root| > 0)
            && (r.Some? ==> Created(s, r.value, host, st, cs))
  {
    hide WellKept, Numbered;
    if ClientIdOf(s.clientCounter) in s.clients {
      var n :| 0 <= n < s.clientCounter && ClientIdOf(s.clientCounter) == ClientIdOf(n);
      NumberedInjective("07-tendermint", s.clientCounter, n);
      assert false;
    }
  }

  /** A client is created exactly from an unfrozen state and a non-empty root, and never in the place of another. */
  lemma ClientIsCreatedExactly(env: Env, w: Pair, x: Node, y: Node, host: Host, st: ClientState, cs: ConsensusState)
    requires Live(env, w, x, y)
    ensures var r := HandleClient(env, x.store, host, CreateClient(st, cs));
            && (r.Some? <==> st.frozenHeight.None? && |cs.root| > 0)
            && (r.Some? ==> Created(x.store, r.value, host, st, cs))
  {
    hide ClientsWellKept, Contracts, Reachable, HandleClient, Created;
    ClientsAlwaysWellKept(env, w);
    CreatedCore(env, x.store, host, st, cs);
  }

  // ---------------------------------------------------------------- timeouts rest on news

  /** The client a channel runs over, in both stores, with the same contents. */
  ghost predicate SameClient(s: Store, s': Store, k: ChanKey) {
    && k in s.channels && HasConnection(s, s.channels[k].end)
    && k in s'.channels && HasConnection(s', s'.channels[k].end)
    && var c := ConnectionOf(s, s.channels[k].end).clientId;
       && ConnectionOf(s', s'.channels[k].end).clientId == c
       && c in s.clients && c in s'.clients && s'.clients[c] == s.clients[c]
  }

  /** At height `h` the client of channel `k` holds a later time than at its latest height, from before an upgrade. */
  ghost predicate TimeTurnedBack(env: Env, s: Store, k: ChanKey, h: Height) {
    && k in s.channels && HasConnection(s, s.channels[k].end)
    && var c := ConnectionOf(s, s.channels[k].end).clientId;
       && c in s.clients
       && var cl := s.clients[c];
          && h in cl.consensus && cl.state.latestHeight in cl.consensus
          && cl.consensus[h].timestamp > cl.consensus[cl.state.latestHeight].timestamp
          && UpgradedWithin(cl, env.sentinel, h, cl.state.latestHeight)
  }

  /** A timeout message that passes every check short of the proof, for a packet still committed to. */
  ghost predicate DueToTimeOut(env: Env, s: Store, host: Host, m: PacketMsg) {
    && m.MsgTimeout?
    && m.packet.src in s.channels && m.packet.seq_ in s.channels[m.packet.src].commitments
    && TimeoutDue(env, s, host, m)
  }

  lemma NewsCore(env: Env, s: Store, host: Host, s': Store, host': Host, m: PacketMsg)
    requires ClientsWellKept(env, s) && SendValid(s, host, m.packet)
    requires SameClient(s, s', m.packet.src) && DueToTimeOut(env, s', host', m)
    ensures TimeTurnedBack(env, s, m.packet.src, m.proofHeight)
  {
    hide DelayPassed, Commit, HasExpired, CheckExpiry, PacketTypesOk, StoreShape, UpgradedWithin;
    var c := ConnectionOf(s, s.channels[m.packet.src].end).clientId;
    var cl := s.clients[c];
    var latest := cl.state.latestHeight;
    assert WellKept(cl, env.sentinel);
    if cl.consensus[m.proofHeight].timestamp <= cl.consensus[latest].timestamp {
      TimedOutStaysTimedOut(m.packet, cl.consensus[m.proofHeight].timestamp, m.proofHeight, cl.consensus[latest].timestamp, latest);
      assert false;
    }
    assert InOrderBetween(cl, env.sentinel, m.proofHeight, latest);
  }

  /**
   In every reachable state: while the sender's client is unchanged since a send, the packet can only be due to time out at
   a state from before an upgrade of that client which turned its time back. Otherwise it takes a newer state of the receiver.
   */
  lemma TimeoutNeedsNews(env: Env, w: Pair, x: Node, y: Node, host: Host, s': Store, host': Host, m: PacketMsg)
    requires Live(env, w, x, y) && SendValid(x.store, host, m.packet)
    requires SameClient(x.store, s', m.packet.src) && DueToTimeOut(env, s', host', m)
    ensures TimeTurnedBack(env, x.store, m.packet.src, m.proofHeight)
  {
    hide *;
    LiveClients(env, w, x, y);
    NewsCore(env, x.store, host, s', host', m);
  }

  lemma LiveClients(env: Env, w: Pair, x: Node, y: Node)
    requires Live(env, w, x, y)
    ensures ClientsWellKept(env, x.store)
  {
    hide Contracts, Reachable, ClientsWellKept;
    ClientsAlwaysWellKept(env, w);
  }

  /** The packet may be sent as far as the client's latest state goes. */
  ghost predicate FreshAtLatest(c: Client, p: Packet) {
    && PacketTypesOk(p)
    && c.state.latestHeight in c.consensus
    && !PacketTimedOut(p, c.consensus[c.state.latestHeight].timestamp, c.state.latestHeight)
  }

  /** No packet that may be sent now has expired at a state the client holds. */
  ghost predicate ExpiryNeedsNews(c: Client) {
    forall p, h :: FreshAtLatest(c, p) && h in c.consensus ==> !PacketTimedOut(p, c.consensus[h].timestamp, h)
  }

  /** No state the client holds is later in time than its latest one. */
  ghost predicate LatestIsLatest(c: Client) {
    c.state.latestHeight in c.consensus
    && forall h :: h in c.consensus ==> c.consensus[h].timestamp <= c.consensus[c.state.latestHeight].timestamp
  }

  /** The condition is exact: expiry needs news if and only if the latest height is also the latest in time. */
  lemma ExpiryNeedsNewsExactly(c: Client)
    requires StoreShape(c) && c.state.latestHeight in c.consensus
    requires ValidTimestamp(Some(c.consensus[c.state.latestHeight].timestamp))
    ensures ExpiryNeedsNews(c) <==> LatestIsLatest(c)
  {
    var latest := c.state.latestHeight;
    var now := c.consensus[latest].timestamp;
    if LatestIsLatest(c) {
      forall p, h | FreshAtLatest(c, p) && h in c.consensus ensures !PacketTimedOut(p, c.consensus[h].timestamp, h) {
        if PacketTimedOut(p, c.consensus[h].timestamp, h) {
          TimedOutStaysTimedOut(p, c.consensus[h].timestamp, h, now, latest);
          assert false;
        }
      }
    } else {
      var h :| h in c.consensus && c.consensus[h].timestamp > now;
      var end := Denoms.TracePrefix("", "");
      var p := Packet(1, end, end, [], Never, Some(now));
      assert FreshAtLatest(c, p) && PacketTimedOut(p, c.consensus[h].timestamp, h);
    }
  }

  // ---------------------------------------------------------------- a client whose time turned back

  /** A client created at time 10 and upgraded to a state of time 5, well inside its trusting period. */
  function TurnedBack(root: Bytes, sentinel: Bytes): Client {
    Client.Client(ClientState("a-2", 2, 20, 30, 1, Height(2, 1), None),
                  map[Height(1, 1) := ConsensusState(root, 10, []), Height(2, 1) := ConsensusState(sentinel, 5, [])],
                  map[Height(1, 1) := (10, Height(0, 1)), Height(2, 1) := (10, Height(0, 2))])
  }

  lemma TurnedBackIsUpgraded(root: Bytes, sentinel: Bytes)
    ensures var st := ClientState("a-1", 1, 20, 30, 1, Height(1, 1), None);
            var up := ClientState("a-2", 2, 0, 30, 0, Height(2, 1), None);
            var c := Initialised(st, ConsensusState(root, 10, []), 10, Height(0, 1));
            HandleUpgrade(c, up, ConsensusState(root, 5, []), sentinel, true, 10, Height(0, 2)) == Some(TurnedBack(root, sentinel))
  {
  }

  /** A store with one open channel `k` towards `j` over that client. */
  function TurnedBackStore(config: Config, client: ClientId, conn: ConnectionId, k: ChanKey, j: ChanKey, root: Bytes, sentinel: Bytes): Store {
    Store(config, map[client := TurnedBack(root, sentinel)], 1,
          map[conn := ConnectionEnd(ConnOpen, client, ConnCounterparty("", Some(""), []), [Version("1", ["ORDER_UNORDERED"])], 0)],
          map[client := conn], 1,
          map[k := FreshChannel(ChannelEnd(Open, Unordered, RemoteOf(j), [conn], ""))], 1, map[])
  }

  /**
   The exception is real: at such an active client a packet can be sent, and right after the send, with the client
   unchanged, its timeout at the older height passes every check short of the proof.
   */
  lemma UpgradeTurnsTimeBack(env: Env, config: Config, client: ClientId, conn: ConnectionId, k: ChanKey, j: ChanKey, root: Bytes)
    ensures var s := TurnedBackStore(config, client, conn, k, j, root, env.sentinel);
            var host := Host(Height(0, 2 + env.blockDelay(0)), 11, map[]);
            var p := Packet(1, k, j, [0], Never, Some(7));
            var m := MsgTimeout(p, 1, [], Height(1, 1));
            && StatusOf(s.clients[client], host.time) == Active
            && SendValid(s, host, p)
            && SameClient(s, SendExec(env, s, p), k)
            && DueToTimeOut(env, SendExec(env, s, p), host, m)
  {
    hide Commit;
    var s := TurnedBackStore(config, client, conn, k, j, root, env.sentinel);
    var p := Packet(1, k, j, [0], Never, Some(7));
    var c := s.clients[client];
    assert StatusOf(c, 11) == Active;
    assert c.consensus[Height(2, 1)].timestamp == 5 && c.consensus[Height(1, 1)].timestamp == 10;
    var s' := SendExec(env, s, p);
    assert s'.channels[k].commitments == map[1 := Commit(env, p)];
  }
}
