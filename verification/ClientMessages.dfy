/** What each client message does to the client it is sent to, and exactly when it freezes it. */
module ClientMessages {
  import opened Prelude
  import opened Heights
  import opened Paths
  import opened Tendermint
  import opened IbcStore
  import opened Connections
  import opened World
  import opened Safety
  import opened ClientHistory

  // ---------------------------------------------------------------- when evidence freezes

  /** Equal block hashes mean equal blocks. */
  ghost predicate HashNamesBlock(h: Header, g: Header) {
    h.blockHash == g.blockHash ==> h.time == g.time && h.root == g.root && h.nextValidatorsHash == g.nextValidatorsHash
  }

  /** Some history with one block per height and increasing times contains both headers. */
  ghost predicate Reconcilable(h: Header, g: Header) {
    exists chain: map<Height, Block> :: HonestChain(chain) && FromChain(chain, h) && FromChain(chain, g)
  }

  function BlockOf(h: Header): Block { Block(h.time, h.root, h.nextValidatorsHash, h.blockHash) }

  /** Unfrozen, and not past the trusting period of its latest state. */
  ghost predicate ActiveNow(c: Client, now: nat) {
    && c.state.frozenHeight.None?
    && c.state.latestHeight in c.consensus
    && now <= c.consensus[c.state.latestHeight].timestamp + c.state.trustingPeriod
  }

  lemma ActiveExactly(c: Client, now: nat)
    ensures StatusOf(c, now) == Active <==> ActiveNow(c, now)
  {
  }

  /** The header brings its own validator set and builds, in its revision, on a state the client holds, with its validators. */
  ghost predicate BuildsOnClient(c: Client, h: Header) {
    && h.validatorSetHash == h.validatorsHash
    && h.trustedHeight in c.consensus
    && h.trustedNextValidatorsHash == c.consensus[h.trustedHeight].nextValidatorsHash
    && h.trustedHeight.revisionNumber == h.chainRevision
    && h.trustedHeight.revisionHeight < h.blockHeight
  }

  /** A header that convinces the client: of its revision, built on what it holds, and accepted by the light client. */
  ghost predicate Credible(v: Verifier, c: Client, h: Header, now: nat) {
    && BuildsOnClient(c, h)
    && h.chainRevision == c.state.chainRevision
    && v.updateHeader(c.state, c.consensus[h.trustedHeight], h, now)
  }

  lemma CredibleExactly(v: Verifier, c: Client, h: Header, now: nat)
    ensures VerifyHeader(v, c, h, now) <==> Credible(v, c, h, now)
  {
  }

  /** A header of evidence that convinces the client: built on a state it holds that is still trusted. */
  ghost predicate CredibleEvidence(v: Verifier, c: Client, h: Header, now: nat) {
    && BuildsOnClient(c, h)
    && var trusted := c.consensus[h.trustedHeight];
       && trusted.timestamp <= now < trusted.timestamp + c.state.trustingPeriod
       && v.misbehaviourHeader(c.state, trusted, h, now)
  }

  lemma EvidenceExactly(v: Verifier, c: Client, m: Misbehaviour, now: nat)
    ensures VerifyClientMessage(v, c, MisbehaviourMessage(m), now) <==>
              && CredibleEvidence(v, c, m.header1, now) && CredibleEvidence(v, c, m.header2, now)
              && m.header1.chainId == m.header2.chainId && Leq(HeightOf(m.header2), HeightOf(m.header1))
  {
  }

  lemma ReconcilableExactly(h: Header, g: Header)
    requires HashNamesBlock(h, g) && Leq(HeightOf(g), HeightOf(h))
    ensures Reconcilable(h, g) <==> !EvidenceShowsMisbehaviour(Misbehaviour(h, g))
  {
    var a, b := HeightOf(h), HeightOf(g);
    if !EvidenceShowsMisbehaviour(Misbehaviour(h, g)) {
      var chain := map[a := BlockOf(h), b := BlockOf(g)];
      assert HonestChain(chain) && FromChain(chain, h) && FromChain(chain, g);
    }
  }

  /**
   Evidence freezes a client if and only if the client is active, each of the two headers convinces it, they are of one
   chain, in order, and no honest history contains both. Otherwise the message is an error. Freezing changes nothing else.
   */
  lemma EvidenceFreezesExactly(v: Verifier, c: Client, kind: UpdateKind, m: Misbehaviour, now: nat, hostHeight: Height)
    requires HashNamesBlock(m.header1, m.header2)
    ensures var freezes := && ActiveNow(c, now)
                           && CredibleEvidence(v, c, m.header1, now) && CredibleEvidence(v, c, m.header2, now)
                           && m.header1.chainId == m.header2.chainId && Leq(HeightOf(m.header2), HeightOf(m.header1))
                           && !Reconcilable(m.header1, m.header2);
            HandleUpdate(v, c, kind, MisbehaviourMessage(m), now, hostHeight) ==
              if freezes then Some(Client.Client(c.state.(frozenHeight := Some(Height(0, 1))), c.consensus, c.meta)) else None
  {
    hide Reconcilable, VerifyClientMessage, CredibleEvidence, ActiveNow, StatusOf, EvidenceShowsMisbehaviour;
    ActiveExactly(c, now);
    EvidenceExactly(v, c, m, now);
    if Leq(HeightOf(m.header2), HeightOf(m.header1)) {
      ReconcilableExactly(m.header1, m.header2);
      assert Misbehaviour(m.header1, m.header2) == m;
    }
  }

  /** Some honest history contains the header and every state the client holds. */
  ghost predicate FitsTheClient(c: Client, h: Header) {
    exists chain: map<Height, Block> :: HonestChain(chain) && ClientFromChain(chain, c) && FromChain(chain, h)
  }

  ghost function Extended(c: Client, h: Header): map<Height, Block> {
    map a | a in c.consensus.Keys + {HeightOf(h)} ::
      if a == HeightOf(h) then BlockOf(h)
      else Block(c.consensus[a].timestamp, c.consensus[a].root, c.consensus[a].nextValidatorsHash, [])
  }

  lemma ExtendedIsHonest(c: Client, h: Header)
    requires ClientInv(c) && !HeaderShowsMisbehaviour(c, h)
    ensures HonestChain(Extended(c, h)) && ClientFromChain(Extended(c, h), c) && FromChain(Extended(c, h), h)
  {
    var chain, at := Extended(c, h), HeightOf(h);
    forall a, b | a in chain && b in chain && Lt(a, b) ensures chain[a].time < chain[b].time {
      if a == at { FitsBetween(c, h, b); } else if b == at { FitsBetween(c, h, a); }
    }
  }

  lemma MisfitHeader(chain: map<Height, Block>, c: Client, h: Header)
    requires HonestChain(chain) && ClientFromChain(chain, c) && FromChain(chain, h)
    ensures !HeaderShowsMisbehaviour(c, h)
  {
  }

  lemma FitsExactly(c: Client, h: Header)
    requires ClientInv(c)
    ensures FitsTheClient(c, h) <==> !HeaderShowsMisbehaviour(c, h)
  {
    hide HeaderShowsMisbehaviour, ClientInv;
    if !HeaderShowsMisbehaviour(c, h) {
      ExtendedIsHonest(c, h);
    } else if FitsTheClient(c, h) {
      var chain: map<Height, Block> :| HonestChain(chain) && ClientFromChain(chain, c) && FromChain(chain, h);
      MisfitHeader(chain, c, h);
    }
  }

  ghost predicate Freezes(r: Option<Client>) { r.Some? && r.value.state.frozenHeight.Some? }

  /** A header freezes a client if and only if the client is active, the header convinces it, and no honest history contains
      the header and the stored states. */
  lemma HeaderFreezesExactly(v: Verifier, c: Client, kind: UpdateKind, h: Header, now: nat, hostHeight: Height)
    requires ClientInv(c)
    ensures Freezes(HandleUpdate(v, c, kind, HeaderMessage(h), now, hostHeight)) <==>
              ActiveNow(c, now) && Credible(v, c, h, now) && !FitsTheClient(c, h)
  {
    hide HeaderShowsMisbehaviour, VerifyHeader, Credible, StatusOf, ClientInv, FitsTheClient, PruneOverflows, PrunedConsensus, PrunedMeta;
    ActiveExactly(c, now);
    CredibleExactly(v, c, h, now);
    FitsExactly(c, h);
  }

  ghost predicate NeverUpgraded(env: Env, c: Client) { forall h :: h in c.consensus ==> c.consensus[h].root != env.sentinel }

  /** So it is for every client of every reachable state that holds no upgraded state. */
  lemma ReachableHeaderFreezesExactly(env: Env, w: Pair, x: Node, y: Node, id: ClientId, kind: UpdateKind, h: Header, now: nat, hostHeight: Height)
    requires Live(env, w, x, y) && id in x.store.clients && NeverUpgraded(env, x.store.clients[id])
    ensures var c := x.store.clients[id];
            Freezes(HandleUpdate(env.verifier, c, kind, HeaderMessage(h), now, hostHeight)) <==>
              ActiveNow(c, now) && Credible(env.verifier, c, h, now) && !FitsTheClient(c, h)
  {
    hide Live, ActiveNow, Credible, HandleUpdate, FitsTheClient, Segmented, StoreShape, TimesIncrease;
    LiveClients(env, w, x, y);
    NeverUpgradedIncreases(x.store.clients[id], env.sentinel);
    HeaderFreezesExactly(env.verifier, x.store.clients[id], kind, h, now, hostHeight);
  }

  // ---------------------------------------------------------------- what an update leaves behind

  /** The state at `a` or one below it is still within the trusting period. */
  ghost predicate StillTrusted(c: Client, a: Height, now: nat) {
    exists g :: g in c.consensus && !Lt(a, g) && now < c.consensus[g].timestamp + c.state.trustingPeriod
  }

  /**
   An update that does not freeze keeps exactly the trusted part of the store, as it was, adds the header's state with the
   host's time and height unless it kept one there, raises the latest height, and changes no other field.
   */
  lemma UpdateLeaves(v: Verifier, c: Client, kind: UpdateKind, msg: ClientMessage, now: nat, hostHeight: Height)
    requires StoreShape(c) && HandleUpdate(v, c, kind, msg, now, hostHeight).Some?
    requires HandleUpdate(v, c, kind, msg, now, hostHeight).value.state.frozenHeight.None?
    ensures msg.HeaderMessage? && kind == UpdateClient
    ensures var r, h := HandleUpdate(v, c, kind, msg, now, hostHeight).value, msg.header;
            var at := Height(h.chainRevision, h.blockHeight);
            && r.state == c.state.(latestHeight := if Lt(c.state.latestHeight, at) then at else c.state.latestHeight)
            && r.meta.Keys == r.consensus.Keys
            && (forall a :: a in r.consensus <==> a == at || (a in c.consensus && StillTrusted(c, a, now)))
            && (forall a :: a in c.consensus && StillTrusted(c, a, now) ==> r.consensus[a] == c.consensus[a] && r.meta[a] == c.meta[a])
            && ((at in c.consensus && StillTrusted(c, at, now))
                || (r.consensus[at] == ConsensusState(h.root, h.time, h.nextValidatorsHash) && r.meta[at] == (now, hostHeight)))
  {
    hide VerifyClientMessage, HeaderShowsMisbehaviour, EvidenceShowsMisbehaviour, PruneOverflows, SurvivesPruning;
    var h := msg.header;
    forall a ensures StillTrusted(c, a, now) <==> SurvivesPruning(c, a, now) { TrustedSurvives(c, a, now); }
    hide StillTrusted, StatusOf;
    UpdatedShape(c, h, now, hostHeight);
  }

  lemma TrustedSurvives(c: Client, a: Height, now: nat)
    ensures StillTrusted(c, a, now) <==> SurvivesPruning(c, a, now)
  {
    if StillTrusted(c, a, now) {
      var g :| g in c.consensus && !Lt(a, g) && now < c.consensus[g].timestamp + c.state.trustingPeriod;
      assert Leq(g, a) && !ExpiredAt(c, g, now);
    }
    if SurvivesPruning(c, a, now) {
      var g :| g in c.consensus && Leq(g, a) && !ExpiredAt(c, g, now);
      assert !Lt(a, g);
    }
  }

  /** Some stored expiry is past the end of the year 9999, and every other stored state has expired. */
  ghost predicate OutOfRange(c: Client, now: nat) {
    && (exists g :: g in c.consensus && c.consensus[g].timestamp + c.state.trustingPeriod > 253402300799999999999)
    && (forall g :: g in c.consensus ==>
          var expiry := c.consensus[g].timestamp + c.state.trustingPeriod; expiry <= now || expiry > 253402300799999999999)
  }

  lemma OverflowIsOutOfRange(c: Client, now: nat)
    requires ClientInv(c) && PruneOverflows(c, now)
    ensures OutOfRange(c, now)
  {
    var g :| g in c.consensus && c.consensus[g].timestamp + c.state.trustingPeriod > MAX_TIME
             && forall q :: q in c.consensus && Lt(q, g) ==> ExpiredAt(c, q, now);
    hide PruneOverflows, StoreShape;
    forall q | q in c.consensus
      ensures var expiry := c.consensus[q].timestamp + c.state.trustingPeriod; expiry <= now || expiry > MAX_TIME
    {
      if Lt(q, g) { assert ExpiredAt(c, q, now); }
    }
  }

  lemma OutOfRangeOverflows(c: Client, now: nat)
    requires OutOfRange(c, now)
    ensures PruneOverflows(c, now)
  {
    hide PruneOverflows;
    var g :| g in c.consensus && c.consensus[g].timestamp + c.state.trustingPeriod > MAX_TIME;
    var high := set q | q in c.consensus && c.consensus[q].timestamp + c.state.trustingPeriod > MAX_TIME;
    var low := Lowest(high, g);
    forall q | q in c.consensus && Lt(q, low) ensures ExpiredAt(c, q, now) { assert q !in high; }
    OverflowAt(c, low, now);
  }

  lemma OverflowAt(c: Client, g: Height, now: nat)
    requires g in c.consensus && c.consensus[g].timestamp + c.state.trustingPeriod > MAX_TIME
    requires forall q :: q in c.consensus && Lt(q, g) ==> ExpiredAt(c, q, now)
    ensures PruneOverflows(c, now)
  {
  }

  lemma {:induction false} Lowest(hs: set<Height>, g: Height) returns (low: Height)
    requires g in hs
    ensures low in hs && forall q :: q in hs ==> Leq(low, q)
    decreases hs
  {
    var rest := hs - {g};
    assert hs == rest + {g};
    if rest == {} {
      low := g;
    } else {
      var q :| q in rest;
      low := Lowest(rest, q);
      if Lt(g, low) { low := g; }
    }
  }

  /** An update message takes a header exactly when the client is active and the header convinces it: to freeze on one that does not
      fit, to store one that does while expiries are in range. As misbehaviour a fitting header is an error. */
  lemma HeaderIsTakenExactly(v: Verifier, c: Client, kind: UpdateKind, h: Header, now: nat, hostHeight: Height)
    requires ClientInv(c)
    ensures HandleUpdate(v, c, kind, HeaderMessage(h), now, hostHeight).Some? <==>
              && ActiveNow(c, now) && Credible(v, c, h, now)
              && (FitsTheClient(c, h) ==> kind == UpdateClient && !OutOfRange(c, now))
  {
    hide HeaderShowsMisbehaviour, VerifyHeader, Credible, ClientInv, FitsTheClient, Pruned, StatusOf, PruneOverflows, OutOfRange;
    ActiveExactly(c, now);
    CredibleExactly(v, c, h, now);
    FitsExactly(c, h);
    if PruneOverflows(c, now) { OverflowIsOutOfRange(c, now); }
    if OutOfRange(c, now) { OutOfRangeOverflows(c, now); }
  }

  // ---------------------------------------------------------------- upgrades

  /**
   An upgrade takes the chain's parameters from the committed state and the client's from the client, adds one state that
   no proof verifies against, and needs an active client, a greater height, the proofs and consistent parameters.
   */
  lemma UpgradeLeaves(c: Client, up: ClientState, cons: ConsensusState, sentinel: Bytes, ok: bool, now: nat, hostHeight: Height)
    ensures var r := HandleUpgrade(c, up, cons, sentinel, ok, now, hostHeight);
            && (r.Some? <==> ActiveNow(c, now) && ok && Lt(c.state.latestHeight, up.latestHeight)
                             && 0 < c.state.trustingPeriod < up.unbondingPeriod && 0 < c.state.maxClockDrift
                             && up.latestHeight.revisionNumber == up.chainRevision)
            && (r.Some? ==>
                  && r.value.state == ClientState(up.chainId, up.chainRevision, c.state.trustingPeriod, up.unbondingPeriod,
                                                  c.state.maxClockDrift, up.latestHeight, None)
                  && (forall a :: a in r.value.consensus <==> a == up.latestHeight || a in c.consensus)
                  && (forall a :: a in c.consensus && a != up.latestHeight ==> r.value.consensus[a] == c.consensus[a])
                  && r.value.consensus[up.latestHeight] == ConsensusState(sentinel, cons.timestamp, cons.nextValidatorsHash)
                  && r.value.meta == c.meta[up.latestHeight := (now, hostHeight)])
  {
    hide StatusOf, ActiveNow;
    ActiveExactly(c, now);
  }

  /** Whatever an upgrade proof is accepted for is committed to by the root it is checked against. */
  ghost predicate UpgradesCommitted(env: Env, plans: Bytes -> set<(ClientState, ConsensusState)>) {
    forall root, st, cs, p, q :: env.upgradeProofs(root, st, cs, p, q) ==> (st, cs) in plans(root)
  }

  /** An upgrade message only goes through with a plan committed to by the client's latest state. */
  lemma UpgradeIsCommitted(env: Env, plans: Bytes -> set<(ClientState, ConsensusState)>, s: Store, host: Host, m: ClientMsg)
    requires UpgradesCommitted(env, plans) && m.UpgradeClient? && HandleClient(env, s, host, m).Some?
    ensures m.clientId in s.clients
    ensures var cl := s.clients[m.clientId];
            cl.state.latestHeight in cl.consensus
            && (m.upgradedState, m.upgradedConsensus) in plans(cl.consensus[cl.state.latestHeight].root)
  {
    hide UpgradedStateValid;
  }

  // ---------------------------------------------------------------- a sound verifier keeps the client on its chain

  function StateAt(chain: map<Height, Block>, at: Height): ConsensusState
    requires at in chain
  {
    ConsensusState(chain[at].root, chain[at].time, chain[at].nextValidatorsHash)
  }

  /** The header brings a consistent validator set and builds on block `at` of the chain with its validators. */
  ghost predicate BuildsOn(chain: map<Height, Block>, h: Header, at: Height) {
    && at in chain
    && h.trustedHeight == at
    && h.trustedNextValidatorsHash == chain[at].nextValidatorsHash
    && h.validatorSetHash == h.validatorsHash
    && h.chainRevision == at.revisionNumber
    && Lt(at, HeightOf(h))
  }

  /**
   The light client's promise: a header that is accepted on a real block of the chain, with that block's validators and
   within the trusting period, is a header of the chain. It promises nothing about any other input.
   */
  ghost predicate SoundFor(v: Verifier, chain: map<Height, Block>) {
    && (forall cs: ClientState, at, h, now ::
          BuildsOn(chain, h, at) && h.chainRevision == cs.chainRevision && v.updateHeader(cs, StateAt(chain, at), h, now) ==>
            FromChain(chain, h))
    && (forall cs: ClientState, at, h, now ::
          BuildsOn(chain, h, at) && chain[at].time <= now < chain[at].time + cs.trustingPeriod
          && v.misbehaviourHeader(cs, StateAt(chain, at), h, now) ==>
            FromChain(chain, h))
  }

  lemma VerifiedIsFromChain(v: Verifier, chain: map<Height, Block>, c: Client, msg: ClientMessage, now: nat)
    requires SoundFor(v, chain) && ClientFromChain(chain, c) && VerifyClientMessage(v, c, msg, now)
    ensures MessageFromChain(chain, msg)
  {
    match msg
    case HeaderMessage(h) =>
      assert c.consensus[h.trustedHeight] == StateAt(chain, h.trustedHeight);
      assert BuildsOn(chain, h, h.trustedHeight);
    case MisbehaviourMessage(m) =>
      assert c.consensus[m.header1.trustedHeight] == StateAt(chain, m.header1.trustedHeight);
      assert c.consensus[m.header2.trustedHeight] == StateAt(chain, m.header2.trustedHeight);
      assert BuildsOn(chain, m.header1, m.header1.trustedHeight) && BuildsOn(chain, m.header2, m.header2.trustedHeight);
  }

  lemma AnyCall(v: Verifier, chain: map<Height, Block>, c: Client, op: ClientCall)
    requires HonestChain(chain) && SoundFor(v, chain) && ClientFromChain(chain, c) && !IsFrozen(c.state)
    ensures ClientFromChain(chain, Call(v, c, op)) && !IsFrozen(Call(v, c, op).state)
  {
    hide SoundFor, HonestChain, ClientFromChain, VerifyClientMessage, StatusOf;
    if VerifyClientMessage(v, c, op.msg, op.now) {
      VerifiedIsFromChain(v, chain, c, op.msg, op.now);
      HonestCall(v, chain, c, op);
    }
  }

  /** Whatever anyone submits, a client of an honest chain holds only that chain's states and is never frozen. */
  lemma {:induction false} SoundVerifierKeepsTheClient(v: Verifier, chain: map<Height, Block>, c: Client, ops: seq<ClientCall>)
    requires HonestChain(chain) && SoundFor(v, chain) && ClientFromChain(chain, c) && !IsFrozen(c.state)
    ensures ClientFromChain(chain, RunCalls(v, c, ops)) && !IsFrozen(RunCalls(v, c, ops).state)
    decreases |ops|
  {
    hide SoundFor, HonestChain, ClientFromChain, Call;
    if |ops| > 0 {
      AnyCall(v, chain, c, ops[0]);
      SoundVerifierKeepsTheClient(v, chain, Call(v, c, ops[0]), ops[1..]);
    }
  }

  /** A client created from a block of the chain starts out on it. */
  lemma CreatedOnChain(chain: map<Height, Block>, state: ClientState, now: nat, hostHeight: Height)
    requires state.latestHeight in chain
    ensures ClientFromChain(chain, Initialised(state, StateAt(chain, state.latestHeight), now, hostHeight))
  {
  }
}
