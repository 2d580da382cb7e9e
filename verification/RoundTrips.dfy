/** Coins that chains really hold go out and back unchanged. */
module RoundTrips {
  import opened Prelude
  import opened Heights
  import opened Paths
  import opened Denoms
  import opened IbcStore
  import opened Transfer
  import opened Packets
  import opened Dispatch
  import opened World
  import opened Invariants
  import opened Preservation
  import opened Safety
  import opened Accounting
  import opened Conservation

  /** No packet sent on a channel takes into escrow a coin that came over that channel. */
  lemma {:induction false} NothingForward(env: Env, j: ChanKey, d: Denom, ps: seq<Packet>)
    requires forall p :: p in ps ==> p.src == j
    ensures Sum(env, Forward, AddTracePrefix(d, j), ps) == 0
    decreases |ps|
  {
    hide Decode;
    if |ps| > 0 {
      var p := ps[|ps| - 1];
      assert p in ps;
      NothingForward(env, j, d, ps[..|ps| - 1]);
    }
  }

  lemma SentFromHere(env: Env, y: Node, j: ChanKey)
    requires LocalInv(env, y) && j in y.store.channels
    ensures forall p :: p in TraceAt(y.traces, j).sent ==> p.src == j
  {
    hide LocalInv, RecvInv, AckOrderInv, ChanShape, ResolvedOk, PacketTypesOk, RemoteOf;
    ChannelFacts(env, y, j);
    var t := TraceAt(y.traces, j);
    forall p | p in t.sent ensures p.src == j {
      var i :| 0 <= i < |t.sent| && t.sent[i] == p;
      assert SentOk(j, y.store.channels[j].end, t.sent[i], i);
    }
  }

  lemma EscrowHoldsNoVouchers(env: Env, y: Node, j: ChanKey, d: Denom)
    requires LocalInv(env, y) && BooksOf(env, y) && j in y.store.channels && j.port == y.store.config.transferPort
    ensures Balance(y.store.ledger, AddTracePrefix(d, j), EscrowOf(j)) == 0
  {
    hide LocalInv, Balance, Supply, Sum, AddTracePrefix, TraceAt;
    var c := AddTracePrefix(d, j);
    SentFromHere(env, y, j);
    NothingForward(env, j, d, TraceAt(y.traces, j).sent);
    assert Balanced(env, y.store.ledger, j, Booked(y.store.config.transferPort, y.traces, j), c);
  }

  ghost predicate NoCrossedVouchers(x: Node, k: ChanKey, j: ChanKey, d: Denom) {
    Supply(x.store.ledger, AddTracePrefix(AddTracePrefix(d, j), k)) == 0
  }

  lemma NoCrossedCore(env: Env, x: Node, y: Node, k: ChanKey, j: ChanKey, d: Denom)
    requires Both(env, x, y) && Both(env, y, x) && BooksOf(env, x) && BooksOf(env, y) && TransferPartners(x, k, y, j)
    ensures NoCrossedVouchers(x, k, j, d)
  {
    hide Both, BooksOf, Partners, Sum, InFlight, Balance, Supply, Tracked;
    PartnersBothWays(x, k, y, j);
    PartnersTracked(x, k, y, j);
    BothLocal(env, x, y);
    ConservedCore(env, y, x, j, k, AddTracePrefix(d, j));
    EscrowHoldsNoVouchers(env, y, j, d);
  }

  /** In no reachable state is there a coin whose two latest hops are one channel crossed both ways. */
  lemma NoCoinCrossedTwice(env: Env, w: Pair, x: Node, y: Node, k: ChanKey, j: ChanKey, d: Denom)
    requires Live(env, w, x, y) && CodecFaithful(env) && TransferPartners(x, k, y, j)
    ensures NoCrossedVouchers(x, k, j, d)
  {
    hide *;
    LiveBooks(env, w, x, y);
    NoCrossedCore(env, x, y, k, j, d);
  }

  lemma HeldIsSupplied(l: Ledger, c: Denom, h: Holder)
    ensures Balance(l, c, h) <= Supply(l, c)
  {
    SumMapUpdate(Holders(l, c), h, 0);
  }

  ghost predicate Restored(k: ChanKey, j: ChanKey, c: Denom) { Arrived(j, k, Arrived(k, j, c)) == c }

  lemma CrossedSupply(x: Node, k: ChanKey, j: ChanKey, c: Denom)
    requires StartsWith(c.trace, k) && StartsWith(RemoveTracePrefix(c, k).trace, j)
    ensures NoCrossedVouchers(x, k, j, RemoveTracePrefix(RemoveTracePrefix(c, k), j)) <==> Supply(x.store.ledger, c) == 0
  {
    hide Supply;
    PrefixUndone(RemoveTracePrefix(c, k), c, k, k);
    PrefixUndone(RemoveTracePrefix(RemoveTracePrefix(c, k), j), RemoveTracePrefix(c, k), j, j);
  }

  lemma RestoredCore(x: Node, k: ChanKey, j: ChanKey, c: Denom, h: Holder)
    requires Balance(x.store.ledger, c, h) > 0 && forall d :: NoCrossedVouchers(x, k, j, d)
    ensures Restored(k, j, c)
  {
    hide Balance, Supply;
    HeldIsSupplied(x.store.ledger, c, h);
    OutAndBackExactly(k, j, c);
    if StartsWith(c.trace, k) && StartsWith(RemoveTracePrefix(c, k).trace, j) {
      CrossedSupply(x, k, j, c);
      assert false;
    }
  }

  /** Any coin anyone holds in a reachable state comes back from a trip over a transfer channel under the same denomination. */
  lemma HeldCoinsReturn(env: Env, w: Pair, x: Node, y: Node, k: ChanKey, j: ChanKey, c: Denom, h: Holder)
    requires Live(env, w, x, y) && CodecFaithful(env) && TransferPartners(x, k, y, j) && Balance(x.store.ledger, c, h) > 0
    ensures Restored(k, j, c)
  {
    hide *;
    forall d ensures NoCrossedVouchers(x, k, j, d) { NoCoinCrossedTwice(env, w, x, y, k, j, d); }
    RestoredCore(x, k, j, c, h);
  }

  // ---------------------------------------------------------------- denominations as text

  /** `send_transfer` puts into the packet exactly the coins it took, if and only if their denomination is canonical. */
  lemma SendCarriesExactly(env: Env, s: Store, host: Host, k: ChanKey, data: PacketData, th: TimeoutHeight, ts: Timestamp, reply: Reply)
    requires CodecFaithful(env) && !env.alnum('/') && HandleSendTransfer(env, s, host, k, data, th, ts, reply).Done?
    ensures var out := HandleSendTransfer(env, s, host, k, data, th, ts, reply);
            out.note.SentNote? && (Decode(env, out.note.packet.data) == Some(data) <==> Canonical(env.alnum, env.white, data.denom))
  {
    hide SendValid, TakeCoins, Canonical, Decode, Encode;
    DecodesExactly(env, data);
  }

  /** A transfer message that is accepted was read from text, and then the condition always holds. */
  lemma MessagesAreCanonical(env: Env, s: Store, host: Host, k: ChanKey, text: PacketText, th: TimeoutHeight, ts: Timestamp, reply: Reply)
    requires HandleMsgTransfer(env, s, host, k, text, th, ts, reply).Done?
    ensures ReadText(env, text).Some? && Canonical(env.alnum, env.white, ReadText(env, text).value.denom)
  {
    hide HandleSendTransfer, Canonical, ValidPortId, ValidChannelId, ParseDenom;
    ParsedIsCanonical(env.alnum, env.white, text.denom);
  }

  /**
   A denomination built by hand can break the condition, and with it the peg: a native coin named like a traced one is
   escrowed by the sender and read by the receiver as a coin coming home, which it pays out of escrow.
   */
  lemma SlashedCoinLosesThePeg(env: Env, p: Packet, base: string, d: PacketData)
    requires CodecFaithful(env) && !env.alnum('/')
    requires Canonical(env.alnum, env.white, Denom([p.src], base))
    requires d.denom == Denom([], p.src.port + "/" + p.src.channel + "/" + base) && p.data == Encode(env, d)
    ensures SendBranch(p.src, d.denom) == Escrow
    ensures Decode(env, p.data) == Some(d.(denom := Denom([p.src], base)))
    ensures ReceiveBranch(p.src, Denom([p.src], base)) == Unescrow && RemoveTracePrefix(Denom([p.src], base), p.src) == Denom([], base)
  {
    hide PrintDenom, ParseDenom, Canonical;
    SlashedCoinIsMisread(env, p.src.port, p.src.channel, base, d);
    DecodesExactly(env, d.(denom := Denom([p.src], base)));
  }
}
