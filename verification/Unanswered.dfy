/** Coins sent from an end that the other side does not name back: where they are, and that a losing end keeps them for good. */
module Unanswered {
  import opened Denoms
  import opened IbcStore
  import opened Transfer
  import opened World
  import opened Invariants
  import opened Preservation
  import opened Runs
  import opened Safety
  import opened Accounting
  import opened Conservation
  import opened StoreProofs
  import opened OneProof
  import opened Halting
  import opened ForeignPorts

  /** The escrow of a channel holds everything that was ever sent from it. */
  ghost predicate HoldsAllSent(env: Env, x: Node, k: ChanKey, d: Denom) {
    Balance(x.store.ledger, d, EscrowOf(k)) == Sum(env, Forward, d, Booked(x.store.config.transferPort, x.traces, k).sent)
  }

  /** On an end that never opened nothing was delivered, and nothing resolved. */
  lemma NeverOpenedIsQuiet(env: Env, x: Node, k: ChanKey)
    requires LocalInv(env, x) && NoneOnClose(x.traces) && k in x.store.channels && !TraceAt(x.traces, k).wasOpen
    ensures TraceAt(x.traces, k).delivered == [] && TraceAt(x.traces, k).resolved == []
  {
    hide LocalInv, DeliveredOk;
    var t := TraceAt(x.traces, k);
    if |t.resolved| > 0 {
      ResolvedFacts(env, x, k, t.resolved[0]);
      assert false;
    }
    if |t.delivered| > 0 {
      DeliveredFacts(env, x, k, t.delivered[0]);
      assert false;
    }
  }

  lemma HoldsAllCore(env: Env, x: Node, k: ChanKey, d: Denom)
    requires LocalInv(env, x) && BooksOf(env, x) && NoneOnClose(x.traces) && k in x.store.channels && !TraceAt(x.traces, k).wasOpen
    ensures HoldsAllSent(env, x, k, d)
  {
    hide LocalInv, NoneOnClose, Balance, Supply, Sum, Refunded, PaidOut;
    NeverOpenedIsQuiet(env, x, k);
    assert Balanced(env, x.store.ledger, k, Booked(x.store.config.transferPort, x.traces, k), d);
    NothingSettledYet(env, d);
  }

  // ---------------------------------------------------------------- not named back

  /** Channel `k` of `x` names `j` of `y`, and `j` does not name it back: it is still in Init, or answers another end. */
  ghost predicate NotNamedBack(x: Node, k: ChanKey, y: Node, j: ChanKey) {
    && Tracked(x, k) && x.store.channels[k].end.remote == RemoteOf(j)
    && j in y.store.channels && y.store.channels[j].end.remote != RemoteOf(k)
  }

  ghost predicate NothingArrivedFrom(y: Node, j: ChanKey, k: ChanKey) {
    forall e :: e in TraceAt(y.traces, j).delivered ==> e.packet.src != k
  }

  lemma NotNamedBackCore(env: Env, x: Node, y: Node, k: ChanKey, j: ChanKey)
    requires Both(env, x, y) && NotNamedBack(x, k, y, j)
    ensures !TraceAt(x.traces, k).wasOpen && NothingArrivedFrom(y, j, k)
  {
    hide LocalInv, PeerInv, Contracts, PacketTimedOut, PacketDecodes, SentBy, Justified;
    PeerFacts(env, x, y, k);
    assert PeerKey(x.store.channels[k].end) == j;
    forall e | e in TraceAt(y.traces, j).delivered ensures e.packet.src != k {
      DeliveredFacts(env, y, j, e);
    }
  }

  /** Until the other end names it back, all coins sent from an end are in its escrow and none has arrived. */
  lemma EscrowUntilNamedBack(env: Env, ics: Merkle.Ics23, c: Codec, w: Pair, x: Node, y: Node, k: ChanKey, j: ChanKey, d: Denom)
    requires Live(env, w, x, y) && CodecFaithful(env) && Chained(env, ics, c) && NotNamedBack(x, k, y, j)
    ensures HoldsAllSent(env, x, k, d) && NothingArrivedFrom(y, j, k)
  {
    hide *;
    LiveBooks(env, w, x, y);
    BothLocal(env, x, y);
    LiveIdle(env, ics, c, w, x, y);
    NotNamedBackCore(env, x, y, k, j);
    NamedIsStored(x, k, y, j);
    HoldsAllCore(env, x, k, d);
  }

  lemma NamedIsStored(x: Node, k: ChanKey, y: Node, j: ChanKey)
    requires NotNamedBack(x, k, y, j)
    ensures k in x.store.channels
  {
  }

  lemma LiveIdle(env: Env, ics: Merkle.Ics23, c: Codec, w: Pair, x: Node, y: Node)
    requires Live(env, w, x, y) && Chained(env, ics, c)
    ensures NoneOnClose(x.traces)
  {
    hide Contracts, Reachable, Chained, NoneOnClose;
    TimeoutOnCloseNeverResolves(env, ics, c, w);
  }

  // ---------------------------------------------------------------- losing ends

  /** Both ends name the same counterparty; the other one was opened. */
  ghost predicate Loses(x: Node, k: ChanKey, winner: ChanKey) {
    k != winner && Tracked(x, k) && EverOpen(x, winner) && SameRemote(x, k, winner)
  }

  lemma LosesLater(env: Env, x: Node, x': Node, k: ChanKey, winner: ChanKey)
    requires LocalInv(env, x) && Grows(x, x') && Loses(x, k, winner)
    ensures Loses(x', k, winner)
  {
    hide LocalInv;
    ChannelFacts(env, x, winner);
    hide SendInv, RecvInv, AckOrderInv;
    assert ChanExt(x.store.channels[k], TraceAt(x.traces, k), x'.store.channels[k], TraceAt(x'.traces, k));
    assert ChanExt(x.store.channels[winner], TraceAt(x.traces, winner), x'.store.channels[winner], TraceAt(x'.traces, winner));
  }

  lemma LoserNeverOpens(env: Env, w: Pair, x: Node, y: Node, k: ChanKey, winner: ChanKey)
    requires Live(env, w, x, y) && Loses(x, k, winner)
    ensures k in x.store.channels && !TraceAt(x.traces, k).wasOpen
  {
    hide Live, Tracked, TraceAt, SameRemote;
    LoserIsStored(x, k, winner);
    if TraceAt(x.traces, k).wasOpen {
      OneOpenEnd(env, w, x, y, k, winner);
    }
  }

  lemma LoserIsStored(x: Node, k: ChanKey, winner: ChanKey)
    requires Loses(x, k, winner)
    ensures k in x.store.channels
  {
  }

  lemma SidesLive(env: Env, w: Pair, onA: bool)
    requires Contracts(env) && Reachable(env, w)
    ensures Live(env, w, Side(w, onA), Side(w, !onA))
  {
    hide Contracts, Reachable;
  }

  /** Everything sent from the end is still in its escrow. */
  ghost predicate KeepsAll(env: Env, x: Node, k: ChanKey, d: Denom) {
    k in x.store.channels && !TraceAt(x.traces, k).wasOpen && HoldsAllSent(env, x, k, d)
  }

  lemma LoserKeepsAll(env: Env, ics: Merkle.Ics23, c: Codec, w: Pair, onA: bool, k: ChanKey, winner: ChanKey, d: Denom)
    requires Contracts(env) && CodecFaithful(env) && Chained(env, ics, c) && Reachable(env, w) && Loses(Side(w, onA), k, winner)
    ensures KeepsAll(env, Side(w, onA), k, d)
  {
    hide Contracts, CodecFaithful, Chained, Reachable, Loses, Side, Live, BooksOf, Both, NoneOnClose, HoldsAllSent, TraceAt;
    SidesLive(env, w, onA);
    LoserNeverOpens(env, w, Side(w, onA), Side(w, !onA), k, winner);
    LiveBooks(env, w, Side(w, onA), Side(w, !onA));
    BothLocal(env, Side(w, onA), Side(w, !onA));
    LiveIdle(env, ics, c, w, Side(w, onA), Side(w, !onA));
    HoldsAllCore(env, Side(w, onA), k, d);
  }

  /**
   Of several ends that answer one counterparty the losing ones may have sent coins before the handshake was decided. In
   every later state of every run such an end is unopened and all its coins are still in its escrow: a timeout needs an
   open end, and a timeout on close never resolves anything.
   */
  lemma LosingEndsKeepTheirCoins(env: Env, ics: Merkle.Ics23, c: Codec, w: Pair, es: seq<Event>, onA: bool, k: ChanKey, winner: ChanKey, d: Denom)
    requires Contracts(env) && CodecFaithful(env) && Chained(env, ics, c) && Reachable(env, w) && RunAdmissible(env, w, es)
    requires Loses(Side(w, onA), k, winner)
    ensures KeepsAll(env, Side(Run(env, w, es), onA), k, d)
  {
    hide *;
    ReachableInv(env, w);
    RunKeeps(env, w, es);
    ReachableOn(env, w, es);
    SideGrows(env, w, es, onA);
    LosesLater(env, Side(w, onA), Side(Run(env, w, es), onA), k, winner);
    LoserKeepsAll(env, ics, c, Run(env, w, es), onA, k, winner, d);
  }

  lemma SideGrows(env: Env, w: Pair, es: seq<Event>, onA: bool)
    requires PairInv(env, w) && Grows(w.a, Run(env, w, es).a) && Grows(w.b, Run(env, w, es).b)
    ensures LocalInv(env, Side(w, onA)) && Grows(Side(w, onA), Side(Run(env, w, es), onA))
  {
    hide LocalInv, PeerInv, Grows, Run;
  }
}
