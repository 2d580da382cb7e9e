/** The ICS-07 Tendermint client: its store, updates, misbehaviour, upgrades and pruning. */
module Tendermint {
  import opened Prelude
  import opened Heights

  datatype ConsensusState = ConsensusState(root: Bytes, timestamp: nat, nextValidatorsHash: Bytes)

  datatype ClientState = ClientState(
    chainId: string,
    chainRevision: nat,
    trustingPeriod: nat,
    unbondingPeriod: nat,
    maxClockDrift: nat,
    latestHeight: Height,
    frozenHeight: Option<Height>)

  datatype Header = Header(
    chainId: string,
    chainRevision: nat,
    blockHeight: nat,
    time: nat,
    root: Bytes,
    nextValidatorsHash: Bytes,
    blockHash: Bytes,
    validatorsHash: Bytes,
    validatorSetHash: Bytes,
    trustedHeight: Height,
    trustedNextValidatorsHash: Bytes)

  datatype Misbehaviour = Misbehaviour(header1: Header, header2: Header)

  /** A client's entries in the host store; `meta` holds the host time and height of each update. */
  datatype Client = Client(
    state: ClientState,
    consensus: map<Height, ConsensusState>,
    meta: map<Height, (nat, Height)>)

  datatype ClientMessage = HeaderMessage(header: Header) | MisbehaviourMessage(evidence: Misbehaviour)

  datatype UpdateKind = UpdateClient | SubmitMisbehaviour

  datatype Status = Active | Frozen | Expired

  /** The light-client crate's verdicts: client state, trusted consensus state, header, host time. */
  datatype Verifier = Verifier(
    updateHeader: (ClientState, ConsensusState, Header, nat) -> bool,
    misbehaviourHeader: (ClientState, ConsensusState, Header, nat) -> bool)

  /** What the verifier promises: it accepts a header only from a trusted state still inside the trusting period. */
  ghost predicate WithinTrustingPeriod(v: Verifier) {
    forall cs, trusted, header, now ::
      v.updateHeader(cs, trusted, header, now) ==> trusted.timestamp + cs.trustingPeriod > now
  }

  /** The largest representable time (the end of the year 9999, in nanoseconds). */
  const MAX_TIME: nat := 253402300799999999999

  const FROZEN_HEIGHT := Height(0, 1)

  function HeightOf(h: Header): Height { Height(h.chainRevision, h.blockHeight) }

  function ConsensusOf(h: Header): ConsensusState { ConsensusState(h.root, h.time, h.nextValidatorsHash) }

  predicate IsFrozen(cs: ClientState) { cs.frozenHeight.Some? }

  function StatusOf(c: Client, now: nat): (s: Status) {
    if IsFrozen(c.state) then Frozen
    else if c.state.latestHeight !in c.consensus then Status.Expired
    else if now > c.consensus[c.state.latestHeight].timestamp + c.state.trustingPeriod then Status.Expired
    else Active
  }

  predicate HeaderValidBasic(h: Header) {
    && h.chainRevision == h.trustedHeight.revisionNumber
    && Lt(h.trustedHeight, HeightOf(h))
    && h.validatorSetHash == h.validatorsHash
  }

  predicate VerifyHeader(v: Verifier, c: Client, h: Header, now: nat) {
    && HeaderValidBasic(h)
    && h.chainRevision == c.state.chainRevision
    && h.trustedHeight in c.consensus
    && h.trustedNextValidatorsHash == c.consensus[h.trustedHeight].nextValidatorsHash
    && v.updateHeader(c.state, c.consensus[h.trustedHeight], h, now)
  }

  predicate VerifyMisbehaviourHeader(v: Verifier, c: Client, h: Header, now: nat) {
    && h.trustedHeight in c.consensus
    && var trusted := c.consensus[h.trustedHeight];
       && h.trustedNextValidatorsHash == trusted.nextValidatorsHash
       && trusted.timestamp <= now < trusted.timestamp + c.state.trustingPeriod
       && v.misbehaviourHeader(c.state, trusted, h, now)
  }

  predicate MisbehaviourValidBasic(m: Misbehaviour) {
    && HeaderValidBasic(m.header1)
    && HeaderValidBasic(m.header2)
    && m.header1.chainId == m.header2.chainId
    && Leq(HeightOf(m.header2), HeightOf(m.header1))
  }

  predicate VerifyClientMessage(v: Verifier, c: Client, msg: ClientMessage, now: nat) {
    match msg
    case HeaderMessage(h) => VerifyHeader(v, c, h, now)
    case MisbehaviourMessage(m) =>
      && MisbehaviourValidBasic(m)
      && VerifyMisbehaviourHeader(v, c, m.header1, now)
      && VerifyMisbehaviourHeader(v, c, m.header2, now)
  }

  /** `p` is the closest stored height below `h`. */
  predicate IsPrev(consensus: map<Height, ConsensusState>, h: Height, p: Height) {
    p in consensus && Lt(p, h) && forall q :: q in consensus && Lt(q, h) ==> Leq(q, p)
  }

  /** `n` is the closest stored height above `h`. */
  predicate IsNext(consensus: map<Height, ConsensusState>, h: Height, n: Height) {
    n in consensus && Lt(h, n) && forall q :: q in consensus && Lt(h, q) ==> Leq(n, q)
  }

  predicate HeaderShowsMisbehaviour(c: Client, h: Header) {
    var at := HeightOf(h);
    if at in c.consensus then c.consensus[at] != ConsensusOf(h)
    else
      || (exists p :: p in c.consensus && IsPrev(c.consensus, at, p) && h.time <= c.consensus[p].timestamp)
      || (Lt(at, c.state.latestHeight)
          && exists n :: n in c.consensus && IsNext(c.consensus, at, n) && h.time >= c.consensus[n].timestamp)
  }

  predicate EvidenceShowsMisbehaviour(m: Misbehaviour) {
    if HeightOf(m.header1) == HeightOf(m.header2) then m.header1.blockHash != m.header2.blockHash
    else m.header1.time <= m.header2.time
  }

  predicate ShowsMisbehaviour(c: Client, msg: ClientMessage) {
    match msg
    case HeaderMessage(h) => HeaderShowsMisbehaviour(c, h)
    case MisbehaviourMessage(m) => EvidenceShowsMisbehaviour(m)
  }

  predicate ExpiredAt(c: Client, h: Height, now: nat)
    requires h in c.consensus
  {
    c.consensus[h].timestamp + c.state.trustingPeriod <= now
  }

  /** Pruning walks upwards and stops at the first unexpired state, so a state stays exactly when
      an unexpired one sits at or below it. */
  predicate SurvivesPruning(c: Client, h: Height, now: nat) {
    exists g :: g in c.consensus && Leq(g, h) && !ExpiredAt(c, g, now)
  }

  function PrunedConsensus(c: Client, now: nat): (r: map<Height, ConsensusState>) {
    map h | h in c.consensus && SurvivesPruning(c, h, now) :: c.consensus[h]
  }

  function PrunedMeta(c: Client, now: nat): (r: map<Height, (nat, Height)>) {
    map h | h in c.meta && (h in c.consensus ==> SurvivesPruning(c, h, now)) :: c.meta[h]
  }

  function Pruned(c: Client, now: nat): (r: Client) { Client(c.state, PrunedConsensus(c, now), PrunedMeta(c, now)) }

  /** The walk fails when the first unexpired state's expiry cannot be represented. */
  predicate PruneOverflows(c: Client, now: nat) {
    exists g :: g in c.consensus && c.consensus[g].timestamp + c.state.trustingPeriod > MAX_TIME
      && forall q :: q in c.consensus && Lt(q, g) ==> ExpiredAt(c, q, now)
  }

  function Initialised(state: ClientState, cons: ConsensusState, now: nat, hostHeight: Height): (c: Client) {
    Client(state, map[state.latestHeight := cons], map[state.latestHeight := (now, hostHeight)])
  }

  function Updated(c: Client, h: Header, now: nat, hostHeight: Height): (r: Client) {
    var p := Pruned(c, now);
    var at := HeightOf(h);
    if at in p.consensus then p
    else Client(c.state.(latestHeight := Max(at, c.state.latestHeight)),
                p.consensus[at := ConsensusOf(h)],
                p.meta[at := (now, hostHeight)])
  }

  function FrozenClient(c: Client): (r: Client) {
    c.(state := c.state.(frozenHeight := Some(FROZEN_HEIGHT)))
  }

  /** The ICS-02 update handler: validate, then freeze, update or fail. `None` is an error and changes nothing. */
  function HandleUpdate(v: Verifier, c: Client, kind: UpdateKind, msg: ClientMessage, now: nat, hostHeight: Height): (r: Option<Client>) {
    if StatusOf(c, now) != Active || !VerifyClientMessage(v, c, msg, now) then None
    else if ShowsMisbehaviour(c, msg) then Some(FrozenClient(c))
    else if kind != UpdateClient || !msg.HeaderMessage? || PruneOverflows(c, now) then None
    else Some(Updated(c, msg.header, now, hostHeight))
  }

  /** The checks `ClientState::new` makes on the merged state of an upgrade. */
  predicate UpgradedStateValid(cs: ClientState) {
    && 0 < cs.trustingPeriod < cs.unbondingPeriod
    && 0 < cs.maxClockDrift
    && cs.latestHeight.revisionNumber == cs.chainRevision
  }

  /** Upgrade keeps the client's own parameters and takes the chain's from the committed state. */
  function HandleUpgrade(c: Client, upgraded: ClientState, cons: ConsensusState, sentinel: Bytes, proofsOk: bool,
                         now: nat, hostHeight: Height): (r: Option<Client>) {
    var state := c.state.(chainId := upgraded.chainId, chainRevision := upgraded.chainRevision,
                          unbondingPeriod := upgraded.unbondingPeriod, latestHeight := upgraded.latestHeight,
                          frozenHeight := None);
    if StatusOf(c, now) != Active || !Lt(c.state.latestHeight, upgraded.latestHeight) || !proofsOk
       || !UpgradedStateValid(state) then None
    else
      var at := state.latestHeight;
      Some(Client(state, c.consensus[at := cons.(root := sentinel)], c.meta[at := (now, hostHeight)]))
  }

  // ---------------------------------------------------------------- the store in place

  ghost predicate Ascending(hs: seq<Height>) { forall i, j :: 0 <= i < j < |hs| ==> Lt(hs[i], hs[j]) }

  ghost predicate NoRepeats(hs: seq<Height>) { forall i, j :: 0 <= i < j < |hs| ==> hs[i] != hs[j] }

  function InsertHeight(h: Height, hs: seq<Height>): (r: seq<Height>)
    requires Ascending(hs) && h !in hs
    ensures Ascending(r) && |r| == |hs| + 1
    ensures forall x :: x in r <==> x == h || x in hs
  {
    if |hs| == 0 || Lt(h, hs[0]) then [h] + hs
    else
      var rest := InsertHeight(h, hs[1..]);
      assert forall x :: x in rest ==> Lt(hs[0], x);
      [hs[0]] + rest
  }

  /** `heights.sort()` on a list without repeats. */
  function SortHeights(hs: seq<Height>): (r: seq<Height>)
    requires NoRepeats(hs)
    ensures Ascending(r) && |r| == |hs|
    ensures forall x :: x in r <==> x in hs
  {
    if |hs| == 0 then [] else InsertHeight(hs[0], SortHeights(hs[1..]))
  }

  /** The host's store for one client, changed in place. */
  class ClientStore {
    var state: ClientState
    var consensus: map<Height, ConsensusState>
    var meta: map<Height, (nat, Height)>

    ghost function View(): Client
      reads this
    {
      Client(state, consensus, meta)
    }

    /** What `consensus_state_heights` returns: every stored height once, in any order. */
    ghost predicate Lists(heights: seq<Height>)
      reads this
    {
      NoRepeats(heights) && forall h :: h in heights <==> h in consensus
    }

    constructor (clientState: ClientState, cons: ConsensusState, now: nat, hostHeight: Height)
      ensures View() == Initialised(clientState, cons, now, hostHeight)
    {
      state := clientState;
      consensus := map[clientState.latestHeight := cons];
      meta := map[clientState.latestHeight := (now, hostHeight)];
    }

    /** The sorted walk with an early break. */
    method PruneOldest(heights: seq<Height>, now: nat) returns (ok: bool)
      requires Lists(heights) && now <= MAX_TIME
      modifies this`consensus, this`meta
      ensures ok <==> !PruneOverflows(old(View()), now)
      ensures View() == Pruned(old(View()), now)
    {
      hide Walk, Left, PruneOverflows, Pruned, SortHeights, Ascending, NoRepeats;
      ghost var c := View();
      var hs := SortHeights(heights);
      var i := 0;
      WalkStarts(c, hs, now);
      while i < |hs|
        invariant i <= |hs| && Walk(c, hs, i, now)
        invariant View() == Left(c, hs, i)
      {
        var height := hs[i];
        WalkStep(c, hs, i, now);
        var expiry := consensus[height].timestamp + state.trustingPeriod;
        if expiry > MAX_TIME {
          StopsAtOverflow(c, hs, i, now);
          WalkPrunes(c, hs, i, now);
          return false;
        }
        if expiry > now {
          break;
        }
        consensus := consensus - {height};
        meta := meta - {height};
        i := i + 1;
      }
      NeverOverflowed(c, hs, i, now);
      WalkPrunes(c, hs, i, now);
      return true;
    }

    /** Prunes, then stores the header's consensus state unless one is already there. */
    method UpdateState(header: Header, heights: seq<Height>, now: nat, hostHeight: Height) returns (ok: bool)
      requires Lists(heights) && now <= MAX_TIME
      modifies this
      ensures ok <==> !PruneOverflows(old(View()), now)
      ensures View() == if ok then Updated(old(View()), header, now, hostHeight) else Pruned(old(View()), now)
    {
      var at := HeightOf(header);
      ok := PruneOldest(heights, now);
      if !ok { return; }
      if at !in consensus {
        consensus := consensus[at := ConsensusOf(header)];
        state := state.(latestHeight := Max(at, state.latestHeight));
        meta := meta[at := (now, hostHeight)];
      }
    }

    method UpdateOnMisbehaviour()
      modifies this`state
      ensures View() == FrozenClient(old(View()))
    {
      state := state.(frozenHeight := Some(FROZEN_HEIGHT));
    }
  }

  /** The walk has passed the first `i` heights, all of them expired. */
  ghost predicate Walk(c: Client, hs: seq<Height>, i: nat, now: nat) {
    && i <= |hs|
    && Ascending(hs)
    && (forall h :: h in hs <==> h in c.consensus)
    && (forall j :: 0 <= j < i ==> hs[j] in c.consensus && ExpiredAt(c, hs[j], now))
  }

  ghost function Taken(hs: seq<Height>, i: nat): set<Height>
    requires i <= |hs|
  {
    set h | h in hs[..i]
  }

  /** The store after the first `i` heights have been deleted. */
  ghost function Left(c: Client, hs: seq<Height>, i: nat): Client
    requires i <= |hs|
  {
    Client(c.state, c.consensus - Taken(hs, i), c.meta - Taken(hs, i))
  }

  lemma WalkStarts(c: Client, hs: seq<Height>, now: nat)
    requires Ascending(hs) && forall h :: h in hs <==> h in c.consensus
    ensures Walk(c, hs, 0, now) && Left(c, hs, 0) == c
  {
    assert Taken(hs, 0) == {};
  }

  lemma WalkStep(c: Client, hs: seq<Height>, i: nat, now: nat)
    requires Walk(c, hs, i, now) && i < |hs|
    ensures hs[i] in Left(c, hs, i).consensus && hs[i] in c.consensus && Left(c, hs, i).state == c.state
    ensures Left(c, hs, i).consensus[hs[i]] == c.consensus[hs[i]]
    ensures ExpiredAt(c, hs[i], now) ==> Walk(c, hs, i + 1, now)
    ensures var l := Left(c, hs, i); Left(c, hs, i + 1) == Client(l.state, l.consensus - {hs[i]}, l.meta - {hs[i]})
  {
    assert hs[..i + 1] == hs[..i] + [hs[i]];
    assert Taken(hs, i + 1) == Taken(hs, i) + {hs[i]};
  }

  lemma StopsAtOverflow(c: Client, hs: seq<Height>, i: nat, now: nat)
    requires Walk(c, hs, i, now) && i < |hs| && hs[i] in c.consensus
    requires c.consensus[hs[i]].timestamp + c.state.trustingPeriod > MAX_TIME
    ensures PruneOverflows(c, now)
  {
    forall q | q in c.consensus && Lt(q, hs[i]) ensures ExpiredAt(c, q, now) {
      var k :| 0 <= k < |hs| && hs[k] == q;
    }
  }

  /** The walk ended: at the end of the list or at an unexpired state. */
  ghost predicate WalkEnded(c: Client, hs: seq<Height>, i: nat, now: nat) {
    Walk(c, hs, i, now) && (i < |hs| ==> hs[i] in c.consensus && !ExpiredAt(c, hs[i], now))
  }

  lemma NeverOverflowed(c: Client, hs: seq<Height>, i: nat, now: nat)
    requires WalkEnded(c, hs, i, now) && now <= MAX_TIME
    requires i < |hs| ==> c.consensus[hs[i]].timestamp + c.state.trustingPeriod <= MAX_TIME
    ensures !PruneOverflows(c, now)
  {
  }

  lemma SurvivorsAreUntaken(c: Client, hs: seq<Height>, i: nat, now: nat, h: Height)
    requires WalkEnded(c, hs, i, now) && h in c.consensus
    ensures SurvivesPruning(c, h, now) <==> h !in Taken(hs, i)
  {
    var k :| 0 <= k < |hs| && hs[k] == h;
    if k < i {
      assert hs[..i][k] == h;
      forall g | g in c.consensus && Leq(g, h) ensures ExpiredAt(c, g, now) {
        var j :| 0 <= j < |hs| && hs[j] == g;
      }
    } else {
      assert Leq(hs[i], h);
    }
  }

  lemma PrunedIsTaken(c: Client, hs: seq<Height>, i: nat, now: nat)
    requires WalkEnded(c, hs, i, now)
    ensures PrunedConsensus(c, now) == c.consensus - Taken(hs, i)
    ensures PrunedMeta(c, now) == c.meta - Taken(hs, i)
  {
    forall h: Height ensures h in Taken(hs, i) <==> h in c.consensus && !SurvivesPruning(c, h, now) {
      if h in c.consensus { SurvivorsAreUntaken(c, hs, i, now, h); }
    }
    PrunedWithout(c, now, Taken(hs, i));
  }

  lemma WalkPrunes(c: Client, hs: seq<Height>, i: nat, now: nat)
    requires WalkEnded(c, hs, i, now)
    ensures Left(c, hs, i) == Pruned(c, now)
  {
    PrunedIsTaken(c, hs, i, now);
  }

  lemma PrunedWithout(c: Client, now: nat, gone: set<Height>)
    requires forall h :: h in gone <==> h in c.consensus && !SurvivesPruning(c, h, now)
    ensures PrunedConsensus(c, now) == c.consensus - gone
    ensures PrunedMeta(c, now) == c.meta - gone
  {
  }

  // ---------------------------------------------------------------- invariants over runs

  ghost predicate TimesIncrease(c: Client) {
    forall a, b :: a in c.consensus && b in c.consensus && Lt(a, b) ==> c.consensus[a].timestamp < c.consensus[b].timestamp
  }

  /** No stored height is above the latest one, and metadata sits at exactly the stored heights. */
  ghost predicate StoreShape(c: Client) {
    && (forall h :: h in c.consensus ==> Leq(h, c.state.latestHeight))
    && c.consensus.Keys == c.meta.Keys
  }

  ghost predicate ClientInv(c: Client) { TimesIncrease(c) && StoreShape(c) }

  lemma InitialisedKeepsInv(state: ClientState, cons: ConsensusState, now: nat, hostHeight: Height)
    ensures ClientInv(Initialised(state, cons, now, hostHeight))
  {
  }

  lemma PrunedShape(c: Client, now: nat)
    requires StoreShape(c)
    ensures StoreShape(Pruned(c, now))
    ensures TimesIncrease(c) ==> TimesIncrease(Pruned(c, now))
    ensures Pruned(c, now).consensus.Keys <= c.consensus.Keys
    ensures forall h :: h in Pruned(c, now).consensus ==> Pruned(c, now).consensus[h] == c.consensus[h]
  {
  }

  lemma UpdatedShape(c: Client, h: Header, now: nat, hostHeight: Height)
    requires StoreShape(c)
    ensures StoreShape(Updated(c, h, now, hostHeight))
    ensures Leq(c.state.latestHeight, Updated(c, h, now, hostHeight).state.latestHeight)
    ensures HeightOf(h) in Updated(c, h, now, hostHeight).consensus
  {
    PrunedShape(c, now);
    var p, r := Pruned(c, now), Updated(c, h, now, hostHeight);
    if HeightOf(h) !in p.consensus {
      assert r.consensus.Keys == p.consensus.Keys + {HeightOf(h)} == r.meta.Keys;
    }
  }

  /** The finite set of stored heights on one side of `h` has a closest element. */
  lemma {:induction false} ClosestBelow(s: set<Height>, h: Height) returns (p: Height)
    requires exists q :: q in s && Lt(q, h)
    ensures p in s && Lt(p, h) && forall q :: q in s && Lt(q, h) ==> Leq(q, p)
    decreases s
  {
    p :| p in s && Lt(p, h);
    if exists q :: q in s && Lt(q, h) && Lt(p, q) {
      var rest := set q | q in s && Lt(p, q);
      assert p !in rest && rest < s;
      p := ClosestBelow(rest, h);
    }
  }

  lemma {:induction false} ClosestAbove(s: set<Height>, h: Height) returns (n: Height)
    requires exists q :: q in s && Lt(h, q)
    ensures n in s && Lt(h, n) && forall q :: q in s && Lt(h, q) ==> Leq(n, q)
    decreases s
  {
    n :| n in s && Lt(h, n);
    if exists q :: q in s && Lt(h, q) && Lt(q, n) {
      var rest := set q | q in s && Lt(q, n);
      assert n !in rest && rest < s;
      n := ClosestAbove(rest, h);
    }
  }

  /** A header that shows no misbehaviour fits strictly between its stored neighbours. */
  lemma FitsBetween(c: Client, h: Header, a: Height)
    requires ClientInv(c) && !HeaderShowsMisbehaviour(c, h) && a in c.consensus && a != HeightOf(h)
    ensures Lt(a, HeightOf(h)) ==> c.consensus[a].timestamp < h.time
    ensures Lt(HeightOf(h), a) ==> h.time < c.consensus[a].timestamp
  {
    var at := HeightOf(h);
    if at !in c.consensus {
      if Lt(a, at) {
        var p := ClosestBelow(c.consensus.Keys, at);
        assert IsPrev(c.consensus, at, p);
        assert a == p || Lt(a, p);
      } else {
        var n := ClosestAbove(c.consensus.Keys, at);
        assert IsNext(c.consensus, at, n);
        assert Leq(n, c.state.latestHeight);
        assert a == n || Lt(n, a);
      }
    }
  }

  /** Every state after an update is the header's own or one that was there before. */
  lemma UpdatedContents(c: Client, h: Header, now: nat, hostHeight: Height, a: Height)
    requires a in Updated(c, h, now, hostHeight).consensus
    ensures var s := Updated(c, h, now, hostHeight).consensus[a];
            (a == HeightOf(h) && s == ConsensusOf(h)) || (a in c.consensus && s == c.consensus[a])
  {
  }

  /** A header that shows no misbehaviour agrees with the state stored at its height. */
  lemma UpdatedInOrder(c: Client, h: Header, now: nat, hostHeight: Height, a: Height, b: Height)
    requires ClientInv(c) && !HeaderShowsMisbehaviour(c, h) && Lt(a, b)
    requires a in Updated(c, h, now, hostHeight).consensus && b in Updated(c, h, now, hostHeight).consensus
    ensures Updated(c, h, now, hostHeight).consensus[a].timestamp < Updated(c, h, now, hostHeight).consensus[b].timestamp
  {
    UpdatedContents(c, h, now, hostHeight, a);
    UpdatedContents(c, h, now, hostHeight, b);
    hide Updated, StoreShape;
    if a in c.consensus && a != HeightOf(h) { FitsBetween(c, h, a); }
    if b in c.consensus && b != HeightOf(h) { FitsBetween(c, h, b); }
  }

  lemma UpdatedKeepsInv(c: Client, h: Header, now: nat, hostHeight: Height)
    requires ClientInv(c) && !HeaderShowsMisbehaviour(c, h)
    ensures ClientInv(Updated(c, h, now, hostHeight))
  {
    hide Updated, StoreShape, HeaderShowsMisbehaviour;
    UpdatedShape(c, h, now, hostHeight);
    var r := Updated(c, h, now, hostHeight);
    forall a, b | a in r.consensus && b in r.consensus && Lt(a, b)
      ensures r.consensus[a].timestamp < r.consensus[b].timestamp
    {
      UpdatedInOrder(c, h, now, hostHeight, a, b);
    }
  }

  /** A client message as it reaches the host. */
  datatype ClientCall = ClientCall(kind: UpdateKind, msg: ClientMessage, now: nat, hostHeight: Height)

  function Call(v: Verifier, c: Client, op: ClientCall): (r: Client) {
    var out := HandleUpdate(v, c, op.kind, op.msg, op.now, op.hostHeight);
    if out.Some? then out.value else c
  }

  function RunCalls(v: Verifier, c: Client, ops: seq<ClientCall>): (r: Client)
    decreases |ops|
  {
    if |ops| == 0 then c else RunCalls(v, Call(v, c, ops[0]), ops[1..])
  }

  lemma CallKeepsInv(v: Verifier, c: Client, op: ClientCall)
    requires ClientInv(c)
    ensures ClientInv(Call(v, c, op))
    ensures Leq(c.state.latestHeight, Call(v, c, op).state.latestHeight)
    ensures IsFrozen(c.state) ==> Call(v, c, op) == c
  {
    if op.msg.HeaderMessage? && !ShowsMisbehaviour(c, op.msg) {
      UpdatedKeepsInv(c, op.msg.header, op.now, op.hostHeight);
      UpdatedShape(c, op.msg.header, op.now, op.hostHeight);
    }
  }

  /** Over every run of updates and misbehaviour reports the store invariant holds, the latest height
      never decreases, and a frozen client never changes again. */
  lemma {:induction false} RunKeepsInv(v: Verifier, c: Client, ops: seq<ClientCall>)
    requires ClientInv(c)
    ensures ClientInv(RunCalls(v, c, ops))
    ensures Leq(c.state.latestHeight, RunCalls(v, c, ops).state.latestHeight)
    ensures IsFrozen(c.state) ==> RunCalls(v, c, ops) == c
    decreases |ops|
  {
    if |ops| > 0 {
      CallKeepsInv(v, c, ops[0]);
      RunKeepsInv(v, Call(v, c, ops[0]), ops[1..]);
    }
  }

  lemma UpgradeKeepsShape(c: Client, upgraded: ClientState, cons: ConsensusState, sentinel: Bytes, proofsOk: bool,
                          now: nat, hostHeight: Height)
    requires StoreShape(c)
    requires HandleUpgrade(c, upgraded, cons, sentinel, proofsOk, now, hostHeight).Some?
    ensures var r := HandleUpgrade(c, upgraded, cons, sentinel, proofsOk, now, hostHeight).value;
            && StoreShape(r)
            && Lt(c.state.latestHeight, r.state.latestHeight)
            && r.state.latestHeight in r.consensus
            && r.state.trustingPeriod == c.state.trustingPeriod
  {
    var r := HandleUpgrade(c, upgraded, cons, sentinel, proofsOk, now, hostHeight).value;
    assert r.consensus.Keys == c.consensus.Keys + {upgraded.latestHeight} == r.meta.Keys;
  }

  // ---------------------------------------------------------------- pruning is a filter

  /** While timestamps increase with height, the early-break walk deletes exactly the expired states,
      and the update metadata at exactly their heights. */
  lemma PruningIsFilter(c: Client, now: nat)
    requires TimesIncrease(c)
    ensures Pruned(c, now).consensus == map h | h in c.consensus && Trusted(c, h, now) :: c.consensus[h]
    ensures Pruned(c, now).meta == map h | h in c.meta && (h in c.consensus ==> Trusted(c, h, now)) :: c.meta[h]
  {
    hide SurvivesPruning, Trusted, TimesIncrease, PrunedConsensus, PrunedMeta;
    forall h | h in c.consensus ensures SurvivesPruning(c, h, now) <==> Trusted(c, h, now) {
      SurvivesIffTrusted(c, now, h);
    }
    FiltersStates(c, now);
    FiltersMeta(c, now);
  }

  /** The trusting period of the state at `h` ends later than `now`. */
  predicate Trusted(c: Client, h: Height, now: nat)
    requires h in c.consensus
  {
    now < c.consensus[h].timestamp + c.state.trustingPeriod
  }

  lemma FiltersStates(c: Client, now: nat)
    requires forall h :: h in c.consensus ==> (SurvivesPruning(c, h, now) <==> Trusted(c, h, now))
    ensures PrunedConsensus(c, now) == map h | h in c.consensus && Trusted(c, h, now) :: c.consensus[h]
  {
    hide SurvivesPruning, Trusted;
  }

  lemma FiltersMeta(c: Client, now: nat)
    requires forall h :: h in c.consensus ==> (SurvivesPruning(c, h, now) <==> Trusted(c, h, now))
    ensures PrunedMeta(c, now) == map h | h in c.meta && (h in c.consensus ==> Trusted(c, h, now)) :: c.meta[h]
  {
    hide SurvivesPruning, Trusted;
  }

  lemma SurvivesIffTrusted(c: Client, now: nat, h: Height)
    requires TimesIncrease(c) && h in c.consensus
    ensures SurvivesPruning(c, h, now) <==> Trusted(c, h, now)
  {
    if !ExpiredAt(c, h, now) { assert Leq(h, h); }
  }

  /** A validated update never prunes the state it trusts, nor the latest one. */
  lemma UpdateKeepsTrustedAndLatest(v: Verifier, c: Client, h: Header, now: nat)
    requires WithinTrustingPeriod(v) && ClientInv(c)
    requires StatusOf(c, now) == Active && VerifyHeader(v, c, h, now)
    ensures h.trustedHeight in Pruned(c, now).consensus
    ensures c.state.latestHeight in Pruned(c, now).consensus
  {
    assert !ExpiredAt(c, h.trustedHeight, now);
    assert Leq(h.trustedHeight, h.trustedHeight) && Leq(h.trustedHeight, c.state.latestHeight);
  }

  // ---------------------------------------------------------------- no false freezing

  datatype Block = Block(time: nat, root: Bytes, nextValidatorsHash: Bytes, hash: Bytes)

  /** One block per height, with strictly increasing times. */
  ghost predicate HonestChain(chain: map<Height, Block>) {
    forall a, b :: a in chain && b in chain && Lt(a, b) ==> chain[a].time < chain[b].time
  }

  ghost predicate FromChain(chain: map<Height, Block>, h: Header) {
    && HeightOf(h) in chain
    && chain[HeightOf(h)] == Block(h.time, h.root, h.nextValidatorsHash, h.blockHash)
  }

  ghost predicate MessageFromChain(chain: map<Height, Block>, msg: ClientMessage) {
    match msg
    case HeaderMessage(h) => FromChain(chain, h)
    case MisbehaviourMessage(m) => FromChain(chain, m.header1) && FromChain(chain, m.header2)
  }

  ghost predicate ClientFromChain(chain: map<Height, Block>, c: Client) {
    forall h :: h in c.consensus ==>
      h in chain && c.consensus[h] == ConsensusState(chain[h].root, chain[h].time, chain[h].nextValidatorsHash)
  }

  lemma HonestMessageShowsNothing(v: Verifier, chain: map<Height, Block>, c: Client, msg: ClientMessage, now: nat)
    requires HonestChain(chain) && ClientFromChain(chain, c) && MessageFromChain(chain, msg)
    requires VerifyClientMessage(v, c, msg, now)
    ensures !ShowsMisbehaviour(c, msg)
  {
  }

  lemma HonestCall(v: Verifier, chain: map<Height, Block>, c: Client, op: ClientCall)
    requires HonestChain(chain) && ClientFromChain(chain, c) && MessageFromChain(chain, op.msg)
    requires !IsFrozen(c.state)
    ensures ClientFromChain(chain, Call(v, c, op)) && !IsFrozen(Call(v, c, op).state)
  {
    if HandleUpdate(v, c, op.kind, op.msg, op.now, op.hostHeight).Some? {
      HonestMessageShowsNothing(v, chain, c, op.msg, op.now);
    }
  }

  /** Headers and evidence all drawn from one honest history never freeze the client. */
  lemma {:induction false} NoFalseFreezing(v: Verifier, chain: map<Height, Block>, c: Client, ops: seq<ClientCall>)
    requires HonestChain(chain) && ClientFromChain(chain, c) && !IsFrozen(c.state)
    requires forall i :: 0 <= i < |ops| ==> MessageFromChain(chain, ops[i].msg)
    ensures !IsFrozen(RunCalls(v, c, ops).state)
    ensures ClientFromChain(chain, RunCalls(v, c, ops))
    decreases |ops|
  {
    if |ops| > 0 {
      HonestCall(v, chain, c, ops[0]);
      NoFalseFreezing(v, chain, Call(v, c, ops[0]), ops[1..]);
    }
  }
}
