/** Which parts of a chain a step touches, and what therefore carries over. */
module NodeSteps {
  import opened Prelude
  import opened Heights
  import opened Strings
  import opened Paths
  import opened IbcStore
  import opened Channels
  import opened World
  import opened Invariants
  import opened ChannelSteps

  // ---------------------------------------------------------------- what a proof teaches

  /** A proof accepted by a tracked client is true of the other chain at the proof height. */
  lemma Learn(env: Env, x: Node, y: Node, host: Host, c: ClientId, prefix: Bytes, proof: Bytes, h: Height, path: Path, v: Value)
    requires Contracts(env) && ClientsGenuine(env, x, y) && c in x.tracks
    requires Proven(env, x.store, host, c, prefix, proof, h, path, v)
    ensures h in y.history
    ensures prefix == y.history[h].store.config.prefix
    ensures Lookup(y.history[h].store, path) == Some(v)
    ensures ConsensusAt(x.store, c, h).timestamp == y.history[h].time
  {
    var cs := ConsensusAt(x.store, c, h);
    assert GenuineState(env, cs, h, y);
  }

  lemma LearnAbsent(env: Env, x: Node, y: Node, host: Host, c: ClientId, prefix: Bytes, proof: Bytes, h: Height, path: Path)
    requires Contracts(env) && ClientsGenuine(env, x, y) && c in x.tracks
    requires ProvenAbsent(env, x.store, host, c, prefix, proof, h, path)
    ensures h in y.history
    ensures prefix == y.history[h].store.config.prefix ==> Lookup(y.history[h].store, path) == None
    ensures ConsensusAt(x.store, c, h).timestamp == y.history[h].time
  {
    var cs := ConsensusAt(x.store, c, h);
    assert GenuineState(env, cs, h, y);
  }

  // ---------------------------------------------------------------- growth of a whole node

  /** Deliveries not in `x` yet are no earlier than `x`. */
  ghost predicate NewDeliveries(x: Node, x': Node) {
    forall k :: k in x'.traces ==>
      forall i :: |TraceAt(x.traces, k).delivered| <= i < |x'.traces[k].delivered| ==>
        Leq(x.height, x'.traces[k].delivered[i].height) && x.time <= x'.traces[k].delivered[i].time
  }

  lemma SnapshotStays(env: Env, x: Node, x': Node, h: Height, snap: Snapshot)
    requires SnapshotOk(env, x, h, snap)
    requires StoreExt(x.store, x.traces, x'.store, x'.traces) && x.traces.Keys <= x.store.channels.Keys
    requires Leq(x.height, x'.height) && x.time <= x'.time && NewDeliveries(x, x')
    ensures SnapshotOk(env, x', h, snap)
  {
    hide ChanInv;
    StoreExtTransitive(snap.store, snap.traces, x.store, x.traces, x'.store, x'.traces);
    forall k | k in x'.traces ensures DeliveredAfter(snap, h, k, x'.traces[k]) {
      var t, t' := TraceAt(x.traces, k), x'.traces[k];
      forall i | |TraceAt(snap.traces, k).delivered| <= i < |t'.delivered|
        ensures Leq(h, t'.delivered[i].height) && snap.time <= t'.delivered[i].time
      {
        if i < |t.delivered| {
          assert k in x.traces && DeliveredAfter(snap, h, k, x.traces[k]);
          assert ChanExt(x.store.channels[k], t, x'.store.channels[k], TraceAt(x'.traces, k));
          assert t'.delivered[i] == t.delivered[i];
        }
      }
    }
  }

  lemma GrowLocal(env: Env, x: Node, x': Node)
    requires LocalInv(env, x) && StoreInv(env, x'.store, x'.traces)
    requires StoreExt(x.store, x.traces, x'.store, x'.traces)
    requires Leq(x.height, x'.height) && x.time <= x'.time && NewDeliveries(x, x')
    requires x'.history == x.history
    ensures LocalInv(env, x')
  {
    forall h | h in x'.history ensures SnapshotOk(env, x', h, x'.history[h]) {
      SnapshotStays(env, x, x', h, x.history[h]);
    }
  }

  // ---------------------------------------------------------------- one channel

  ghost predicate SameSurroundings(x: Node, x': Node) {
    x'.height == x.height && x'.time == x.time && x'.history == x.history && x'.tracks == x.tracks
  }

  /** Only channel `k`, its callbacks and the ledger moved. */
  ghost predicate OneChannel(x: Node, x': Node, k: ChanKey) {
    && SameSurroundings(x, x')
    && k in x.store.channels && k in x'.store.channels
    && x'.store == x.store.(channels := x.store.channels[k := x'.store.channels[k]], ledger := x'.store.ledger)
    && x'.traces.Keys <= x.traces.Keys + {k}
    && (forall j :: j != k ==> TraceAt(x'.traces, j) == TraceAt(x.traces, j))
  }

  ghost predicate DeliveriesNow(x: Node, t: ChanTrace, t': ChanTrace) {
    forall i :: |t.delivered| <= i < |t'.delivered| ==>
      t'.delivered[i].height == x.height && t'.delivered[i].time == x.time
  }

  lemma OneChannelStoreInv(env: Env, x: Node, x': Node, k: ChanKey)
    requires StoreInv(env, x.store, x.traces) && OneChannel(x, x', k)
    requires ChanInv(env, x.store, k, x'.store.channels[k], TraceAt(x'.traces, k))
    ensures StoreInv(env, x'.store, x'.traces)
  {
    hide ChanInv;
    forall j | j in x'.store.channels ensures ChanInv(env, x'.store, j, x'.store.channels[j], TraceAt(x'.traces, j)) {
      SameConnections(env, x.store, x'.store, j, x'.store.channels[j], TraceAt(x'.traces, j));
    }
    assert x'.store.channels.Keys == x.store.channels.Keys;
  }

  lemma OneChannelExt(x: Node, x': Node, k: ChanKey)
    requires OneChannel(x, x', k)
    requires ChanExt(x.store.channels[k], TraceAt(x.traces, k), x'.store.channels[k], TraceAt(x'.traces, k))
    ensures StoreExt(x.store, x.traces, x'.store, x'.traces)
  {
    hide EndExt, TraceExt;
    StoreExtReflexive(x.store, x.traces);
    hide ChanExt, ConnExt;
  }

  lemma OneChannelLocal(env: Env, x: Node, x': Node, k: ChanKey)
    requires LocalInv(env, x) && OneChannel(x, x', k)
    requires ChanInv(env, x.store, k, x'.store.channels[k], TraceAt(x'.traces, k))
    requires ChanExt(x.store.channels[k], TraceAt(x.traces, k), x'.store.channels[k], TraceAt(x'.traces, k))
    requires DeliveriesNow(x, TraceAt(x.traces, k), TraceAt(x'.traces, k))
    ensures LocalInv(env, x') && Grows(x, x')
  {
    hide ChanInv, ChanExt, StoreInv, SnapshotOk;
    OneChannelExt(x, x', k);
    OneChannelStoreInv(env, x, x', k);
    GrowLocal(env, x, x');
  }

  lemma OneChannelPeer(env: Env, x: Node, x': Node, y: Node, k: ChanKey)
    requires PeerInv(env, x, y) && OneChannel(x, x', k)
    requires Tracked(x', k) ==> PeerChannel(env, x', y, k)
    ensures PeerInv(env, x', y)
  {
    forall c | TrackedConn(x', c) && x'.store.connections[c].state == ConnOpen ensures Mirrored(x'.store, y.store, c) {
      assert Mirrored(x.store, y.store, c);
    }
    forall j | Tracked(x', j) ensures PeerChannel(env, x', y, j) {
      if j != k { assert Tracked(x, j) && PeerChannel(env, x, y, j); }
    }
  }

  // ---------------------------------------------------------------- a new channel

  ghost predicate AddsChannel(x: Node, x': Node, k: ChanKey, e: ChannelEnd) {
    && SameSurroundings(x, x')
    && x'.traces == x.traces
    && x'.store == WithNewChannel(x.store, k, e)
    && k.channel == ChannelIdOf(x.store.channelCounter)
  }

  lemma KeyIsNew(s: Store, k: ChanKey)
    requires IdsFresh(s) && k.channel == ChannelIdOf(s.channelCounter)
    ensures k !in s.channels
  {
    if k in s.channels {
      var n :| 0 <= n < s.channelCounter && k.channel == ChannelIdOf(n);
      NumberedInjective("channel", n, s.channelCounter);
    }
  }

  lemma AddsChannelIds(x: Node, x': Node, k: ChanKey, e: ChannelEnd)
    requires IdsFresh(x.store) && AddsChannel(x, x', k, e)
    ensures IdsFresh(x'.store)
  {
    forall j | j in x'.store.channels ensures exists n :: 0 <= n < x'.store.channelCounter && j.channel == ChannelIdOf(n) {
      if j == k {
        assert j.channel == ChannelIdOf(x.store.channelCounter);
      } else {
        var n :| 0 <= n < x.store.channelCounter && j.channel == ChannelIdOf(n);
        assert n < x'.store.channelCounter;
      }
    }
  }

  lemma AddsChannelStoreInv(env: Env, x: Node, x': Node, k: ChanKey, e: ChannelEnd)
    requires StoreInv(env, x.store, x.traces) && AddsChannel(x, x', k, e) && ChanShape(x.store, e, NO_TRACE)
    ensures StoreInv(env, x'.store, x'.traces)
    ensures TraceAt(x'.traces, k) == NO_TRACE && k !in x.store.channels
  {
    hide ChanInv, IdsFresh, ChanShape, FreshChannel, ChannelIdOf;
    KeyIsNew(x.store, k);
    AddsChannelIds(x, x', k, e);
    FreshInv(env, x.store, k, e);
    forall j | j in x'.store.channels ensures ChanInv(env, x'.store, j, x'.store.channels[j], TraceAt(x'.traces, j)) {
      SameConnections(env, x.store, x'.store, j, x'.store.channels[j], TraceAt(x'.traces, j));
    }
  }

  lemma AddsChannelLocal(env: Env, x: Node, x': Node, k: ChanKey, e: ChannelEnd)
    requires LocalInv(env, x) && AddsChannel(x, x', k, e) && ChanShape(x.store, e, NO_TRACE)
    ensures LocalInv(env, x') && Grows(x, x')
    ensures TraceAt(x'.traces, k) == NO_TRACE && k !in x.store.channels
  {
    hide ChanInv, StoreInv, SnapshotOk;
    AddsChannelStoreInv(env, x, x', k, e);
    GrowLocal(env, x, x');
  }

  lemma AddsChannelPeer(env: Env, x: Node, x': Node, y: Node, k: ChanKey, e: ChannelEnd)
    requires StoreInv(env, x.store, x.traces) && PeerInv(env, x, y) && AddsChannel(x, x', k, e)
    requires Tracked(x', k) ==> PeerExists(x'.store, y.store, k)
    ensures PeerInv(env, x', y)
  {
    KeyIsNew(x.store, k);
    forall c | TrackedConn(x', c) && x'.store.connections[c].state == ConnOpen ensures Mirrored(x'.store, y.store, c) {
      assert Mirrored(x.store, y.store, c);
    }
    forall j | Tracked(x', j) ensures PeerChannel(env, x', y, j) {
      if j != k { assert Tracked(x, j) && PeerChannel(env, x, y, j); }
    }
  }

  // ---------------------------------------------------------------- connections and clients only

  /** Channels, callbacks and the ledger stay; connections and clients are added or advance. */
  ghost predicate BelowChannels(x: Node, x': Node) {
    && SameSurroundings(x, x')
    && x'.traces == x.traces
    && x'.store == x.store.(clients := x'.store.clients, clientCounter := x'.store.clientCounter,
                            connections := x'.store.connections, clientConnections := x'.store.clientConnections,
                            connectionCounter := x'.store.connectionCounter)
    && x.store.clients.Keys <= x'.store.clients.Keys
    && (forall c :: c in x.store.connections ==>
          c in x'.store.connections && ConnExt(x.store.connections[c], x'.store.connections[c]))
  }

  ghost predicate ConnectionIdsFresh(s: Store) {
    forall c :: c in s.connections ==> exists n :: 0 <= n < s.connectionCounter && c == ConnectionIdOf(n)
  }

  lemma BelowChannelsStoreInv(env: Env, x: Node, x': Node)
    requires StoreInv(env, x.store, x.traces) && BelowChannels(x, x')
    requires ConnectionIdsFresh(x'.store)
    requires forall c :: c in x'.store.connections ==> ConnShape(x'.store, x'.store.connections[c])
    ensures StoreInv(env, x'.store, x'.traces)
  {
    hide ChanInv;
    forall k | k in x'.store.channels ensures ChanInv(env, x'.store, k, x'.store.channels[k], TraceAt(x'.traces, k)) {
      OtherStore(env, x.store, x'.store, k, x.store.channels[k], TraceAt(x.traces, k));
    }
    assert IdsFresh(x'.store) by { assert IdsFresh(x.store); }
  }

  lemma BelowChannelsLocal(env: Env, x: Node, x': Node)
    requires LocalInv(env, x) && BelowChannels(x, x')
    requires ConnectionIdsFresh(x'.store)
    requires forall c :: c in x'.store.connections ==> ConnShape(x'.store, x'.store.connections[c])
    ensures LocalInv(env, x') && Grows(x, x')
  {
    hide ChanInv, StoreInv, SnapshotOk;
    BelowChannelsStoreInv(env, x, x');
    GrowLocal(env, x, x');
  }

  lemma BelowChannelsPeer(env: Env, x: Node, x': Node, y: Node)
    requires StoreInv(env, x.store, x.traces) && PeerInv(env, x, y) && BelowChannels(x, x')
    requires ClientsGenuine(env, x', y)
    requires forall c :: TrackedConn(x', c) && x'.store.connections[c].state == ConnOpen ==> Mirrored(x'.store, y.store, c)
    ensures PeerInv(env, x', y)
  {
    forall k | Tracked(x', k) ensures PeerChannel(env, x', y, k) {
      assert ChanInv(env, x.store, k, x.store.channels[k], TraceAt(x.traces, k));
      assert Tracked(x, k) && PeerChannel(env, x, y, k);
    }
  }

  // ---------------------------------------------------------------- blocks and coins

  lemma LedgerStoreInv(env: Env, s: Store, t: Traces, l: Ledger)
    requires StoreInv(env, s, t)
    ensures StoreInv(env, s.(ledger := l), t)
  {
    hide ChanInv;
    forall k | k in s.channels ensures ChanInv(env, s.(ledger := l), k, s.channels[k], TraceAt(t, k)) {
      OtherStore(env, s, s.(ledger := l), k, s.channels[k], TraceAt(t, k));
    }
    assert IdsFresh(s.(ledger := l)) by { assert IdsFresh(s); }
  }

  lemma LedgerLocal(env: Env, x: Node, x': Node, l: Ledger)
    requires LocalInv(env, x) && x' == x.(store := x.store.(ledger := l))
    ensures LocalInv(env, x') && Grows(x, x')
  {
    hide ChanInv, StoreInv, SnapshotOk;
    LedgerStoreInv(env, x.store, x.traces, l);
    GrowLocal(env, x, x');
  }

  lemma LedgerPeer(env: Env, x: Node, x': Node, y: Node, l: Ledger)
    requires PeerInv(env, x, y) && x' == x.(store := x.store.(ledger := l))
    ensures PeerInv(env, x', y)
  {
    forall c | TrackedConn(x', c) && x'.store.connections[c].state == ConnOpen ensures Mirrored(x'.store, y.store, c) {
      assert Mirrored(x.store, y.store, c);
    }
    forall k | Tracked(x', k) ensures PeerChannel(env, x', y, k) {
      assert Tracked(x, k) && PeerChannel(env, x, y, k);
    }
  }

  lemma BlockLocal(env: Env, x: Node, h: Height, time: nat)
    requires LocalInv(env, x) && Lt(x.height, h) && x.time <= time
    ensures LocalInv(env, x.(height := h, time := time)) && Grows(x, x.(height := h, time := time))
  {
    StoreExtReflexive(x.store, x.traces);
    GrowLocal(env, x, x.(height := h, time := time));
  }

  lemma CommitLocal(env: Env, x: Node, x': Node)
    requires LocalInv(env, x) && x.height !in x.history
    requires x' == x.(history := x.history[x.height := Snapshot(x.store, x.traces, x.time)])
    ensures LocalInv(env, x') && Grows(x, x')
  {
    hide ChanInv;
    StoreExtReflexive(x.store, x.traces);
    forall h | h in x'.history ensures SnapshotOk(env, x', h, x'.history[h]) {
      if h in x.history { assert SnapshotOk(env, x, h, x.history[h]); }
    }
  }

  lemma SurroundingsPeer(env: Env, x: Node, x': Node, y: Node)
    requires PeerInv(env, x, y) && x'.store == x.store && x'.traces == x.traces && x'.tracks == x.tracks
    ensures PeerInv(env, x', y)
  {
    forall c | TrackedConn(x', c) && x'.store.connections[c].state == ConnOpen ensures Mirrored(x'.store, y.store, c) {
      assert TrackedConn(x, c);
    }
    forall k | Tracked(x', k) ensures PeerChannel(env, x', y, k) {
      assert Tracked(x, k) && PeerChannel(env, x, y, k);
    }
  }
}
