/** Connection delays, measured against when a client really learned a height. */
module Delays {
  import opened Heights
  import opened Paths
  import opened Tendermint
  import opened IbcStore
  import opened Connections
  import opened Packets
  import opened Dispatch
  import opened World
  import opened Runs
  import opened Safety
  import opened ClientHistory
  import opened Halting

  /** If the client has metadata at `h`, it was stored no earlier than the given time and height. */
  ghost predicate NotBefore(s: Store, c: ClientId, h: Height, time: nat, height: Height) {
    c in s.clients && h in s.clients[c].meta ==> time <= s.clients[c].meta[h].0 && Leq(height, s.clients[c].meta[h].1)
  }

  /** Metadata is kept, dropped, or stored with the host's present time and height. */
  ghost predicate StampedNow(s: Store, s': Store, host: Host) {
    forall c, h :: c in s'.clients && h in s'.clients[c].meta ==>
      || s'.clients[c].meta[h] == (host.time, host.height)
      || (c in s.clients && h in s.clients[c].meta && s'.clients[c].meta[h] == s.clients[c].meta[h])
  }

  lemma UpdateStamps(v: Verifier, c: Client, kind: UpdateKind, msg: ClientMessage, now: nat, hostHeight: Height, h: Height)
    requires HandleUpdate(v, c, kind, msg, now, hostHeight).Some? && h in HandleUpdate(v, c, kind, msg, now, hostHeight).value.meta
    ensures var r := HandleUpdate(v, c, kind, msg, now, hostHeight).value;
            r.meta[h] == (now, hostHeight) || (h in c.meta && r.meta[h] == c.meta[h])
  {
    hide VerifyClientMessage, ShowsMisbehaviour, PruneOverflows, SurvivesPruning, StatusOf;
  }

  lemma ClientMessageStamps(env: Env, s: Store, host: Host, m: ClientMsg)
    requires HandleClient(env, s, host, m).Some?
    ensures StampedNow(s, HandleClient(env, s, host, m).value, host)
  {
    hide HandleUpdate, StatusOf, UpgradedStateValid;
    var s' := HandleClient(env, s, host, m).value;
    forall c, h | c in s'.clients && h in s'.clients[c].meta
      ensures || s'.clients[c].meta[h] == (host.time, host.height)
              || (c in s.clients && h in s.clients[c].meta && s'.clients[c].meta[h] == s.clients[c].meta[h])
    {
      if m.UpdateOrMisbehaviour? && c == m.clientId {
        UpdateStamps(env.verifier, s.clients[c], m.kind, m.message, host.time, host.height, h);
      }
    }
  }

  lemma MessageStamps(env: Env, s: Store, host: Host, m: Msg, reply: Reply)
    ensures var out := Handle(env, s, host, m, reply); out.Done? ==> StampedNow(s, out.store, host)
  {
    hide HandleClient, HandleConnection, HandleChannel, HandleRecv, HandleAck, HandleTimeout, StampedNow;
    if m.Client? {
      if HandleClient(env, s, host, m.clientMsg).Some? { ClientMessageStamps(env, s, host, m.clientMsg); }
    } else {
      OthersKeepClients(env, s, host, m, reply);
      var out := Handle(env, s, host, m, reply);
      if out.Done? { SameStamps(s, out.store, host); }
    }
  }

  lemma SameStamps(s: Store, s': Store, host: Host)
    requires s'.clients == s.clients
    ensures StampedNow(s, s', host)
  {
  }

  /** A step never turns clock or height back and stamps with the present. */
  ghost predicate Forward(x: Node, x': Node) {
    && x.time <= x'.time && Leq(x.height, x'.height)
    && StampedNow(x.store, x'.store, HostOf(x, map[]))
  }

  lemma StampedHost(s: Store, s': Store, host: Host, host': Host)
    requires StampedNow(s, s', host) && host.time == host'.time && host.height == host'.height
    ensures StampedNow(s, s', host')
  {
  }

  lemma StepForward(env: Env, x: Node, l: Label)
    ensures Forward(x, Step(env, x, l))
  {
    hide Handle, HandleSend, HandleMsgTransfer, StampedNow, Record;
    SameStamps(x.store, x.store, HostOf(x, map[]));
    var x' := Step(env, x, l);
    match l
    case Dispatched(m, reply, own) =>
      MessageStamps(env, x.store, HostOf(x, own), m, reply);
      if Handle(env, x.store, HostOf(x, own), m, reply).Done? { StampedHost(x.store, x'.store, HostOf(x, own), HostOf(x, map[])); }
    case SendPacket(p) =>
      SendWellKept(env, x.store, HostOf(x, map[]), p);
      SameStamps(x.store, x'.store, HostOf(x, map[]));
    case SendTransfer(k, text, th, ts, reply) =>
      SendTransferShape(env, x.store, HostOf(x, map[]), k, text, th, ts, reply);
      SameStamps(x.store, x'.store, HostOf(x, map[]));
    case _ => SameStamps(x.store, x'.store, HostOf(x, map[]));
  }

  lemma StillNotBefore(x: Node, x': Node, c: ClientId, h: Height, time: nat, height: Height)
    requires Forward(x, x') && NotBefore(x.store, c, h, time, height) && time <= x.time && Leq(height, x.height)
    ensures NotBefore(x'.store, c, h, time, height) && time <= x'.time && Leq(height, x'.height)
  {
  }

  lemma {:induction false} RunNotBefore(env: Env, w: Pair, es: seq<Event>, onA: bool, c: ClientId, h: Height, time: nat, height: Height)
    requires NotBefore(Side(w, onA).store, c, h, time, height) && time <= Side(w, onA).time && Leq(height, Side(w, onA).height)
    ensures NotBefore(Side(Run(env, w, es), onA).store, c, h, time, height)
    decreases |es|
  {
    hide NotBefore, Step, Forward, Leq;
    if |es| > 0 {
      var w' := Next(env, w, es[0]);
      if es[0].OnA? == onA {
        StepForward(env, Side(w, onA), es[0].step);
        StillNotBefore(Side(w, onA), Side(w', onA), c, h, time, height);
      }
      RunNotBefore(env, w', es[1..], onA, c, h, time, height);
    }
  }

  /** The client exists without metadata at `h`, or does not exist yet. */
  ghost predicate DoesNotKnow(s: Store, c: ClientId, h: Height) { c in s.clients ==> h !in s.clients[c].meta }

  /** A packet callback runs on channel `k`, over client `c`, on a proof at height `h`. */
  ghost predicate ActsOnProof(env: Env, x: Node, m: PacketMsg, reply: Reply, c: ClientId, h: Height) {
    && ChanOver(x.store, c, ActsOn(m)) && m.proofHeight == h
    && var out := Handle(env, x.store, HostOf(x, map[]), Pkt(m), reply);
       out.Done? && out.note != Quiet
  }

  /** The connection's delay, in time and in blocks, has passed since the given moment. */
  ghost predicate DelayedSince(env: Env, x: Node, k: ChanKey, time: nat, height: Height) {
    && k in x.store.channels && HasConnection(x.store, x.store.channels[k].end)
    && var delay := ConnectionOf(x.store, x.store.channels[k].end).delayPeriod;
       && time + delay <= x.time
       && !Lt(x.height, Height(height.revisionNumber, height.revisionHeight + env.blockDelay(delay)))
  }

  lemma MaturedSince(env: Env, x: Node, m: PacketMsg, c: ClientId, h: Height, time: nat, height: Height)
    requires Matured(env, x.store, HostOf(x, map[]), m) && ChanOver(x.store, c, ActsOn(m)) && m.proofHeight == h
    requires NotBefore(x.store, c, h, time, height)
    ensures DelayedSince(env, x, ActsOn(m), time, height)
  {
  }

  lemma DelayCore(env: Env, x: Node, m: PacketMsg, reply: Reply, c: ClientId, h: Height, time: nat, height: Height)
    requires ActsOnProof(env, x, m, reply, c, h) && NotBefore(x.store, c, h, time, height)
    ensures DelayedSince(env, x, ActsOn(m), time, height)
  {
    hide Handle, ChanOver, NotBefore, Matured, DelayedSince;
    DelayIsRespected(env, x.store, HostOf(x, map[]), m, reply);
    MaturedSince(env, x, m, c, h, time, height);
  }

  /**
   A height a client does not know at some moment serves no packet callback, in any later state of any run, before the
   connection's delay has passed since that moment, in time and in blocks.
   */
  lemma DelayIsMeasured(env: Env, w: Pair, es: seq<Event>, onA: bool, c: ClientId, h: Height, m: PacketMsg, reply: Reply)
    requires DoesNotKnow(Side(w, onA).store, c, h) && ActsOnProof(env, Side(Run(env, w, es), onA), m, reply, c, h)
    ensures DelayedSince(env, Side(Run(env, w, es), onA), ActsOn(m), Side(w, onA).time, Side(w, onA).height)
  {
    hide Run, ActsOnProof, DelayedSince;
    RunNotBefore(env, w, es, onA, c, h, Side(w, onA).time, Side(w, onA).height);
    DelayCore(env, Side(Run(env, w, es), onA), m, reply, c, h, Side(w, onA).time, Side(w, onA).height);
  }

  // ---------------------------------------------------------------- no stamp lies in the future

  ghost predicate Stamped(x: Node) {
    forall c, h :: c in x.store.clients && h in x.store.clients[c].meta ==>
      x.store.clients[c].meta[h].0 <= x.time && Leq(x.store.clients[c].meta[h].1, x.height)
  }

  lemma StepStamped(env: Env, x: Node, l: Label)
    requires Stamped(x)
    ensures Stamped(Step(env, x, l))
  {
    hide Step;
    StepForward(env, x, l);
  }

  lemma {:induction false} RunStamped(env: Env, w: Pair, es: seq<Event>)
    requires Stamped(w.a) && Stamped(w.b)
    ensures Stamped(Run(env, w, es).a) && Stamped(Run(env, w, es).b)
    decreases |es|
  {
    hide Stamped, Step;
    if |es| > 0 {
      match es[0] {
        case OnA(l) => StepStamped(env, w.a, l);
        case OnB(l) => StepStamped(env, w.b, l);
      }
      RunStamped(env, Next(env, w, es[0]), es[1..]);
    }
  }

  /** In every reachable state the time and height stored with a consensus state have come. */
  lemma StampsArePast(env: Env, w: Pair)
    requires Reachable(env, w)
    ensures Stamped(w.a) && Stamped(w.b)
  {
    hide RunAdmissible, Run;
    var w0: Pair, es: seq<Event> :| Genesis(w0.a) && Genesis(w0.b) && RunAdmissible(env, w0, es) && w == Run(env, w0, es);
    RunStamped(env, w0, es);
  }
}
