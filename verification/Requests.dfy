/** What an opening message asks for is what the end it opens has, in every later state of every run. */
module Requests {
  import opened Paths
  import opened Versions
  import opened IbcStore
  import opened Transfer
  import opened Connections
  import opened Channels
  import opened Dispatch
  import opened World
  import opened Invariants
  import opened Runs
  import opened Halting

  function On(onA: bool, l: Label): Event { if onA then OnA(l) else OnB(l) }

  /** The message is handled and changes the chain. */
  ghost predicate Accepted(env: Env, x: Node, l: Label) {
    l.Dispatched? && Handle(env, x.store, HostOf(x, l.own), l.msg, l.reply).Done?
  }

  // ---------------------------------------------------------------- connections

  ghost predicate Opens(l: Label) {
    l.Dispatched? && l.msg.Conn? && (l.msg.connMsg.ConnOpenInit? || l.msg.connMsg.ConnOpenTry?)
  }

  /** The end has the client, counterparty and delay of the request, and until it moves on the versions offered. */
  ghost predicate ConnectionAsked(x: Node, id: ConnectionId, config: Config, m: ConnMsg) {
    && id in x.store.connections
    && var e := x.store.connections[id];
       match m
       case ConnOpenInit(client, counterparty, version, delay) =>
         && e.clientId == client && e.delayPeriod == delay
         && e.counterparty.clientId == counterparty.clientId && e.counterparty.prefix == counterparty.prefix
         && (e.state == ConnInit ==> e.counterparty.connectionId.None?
                                     && e.versions == if version.Some? then [version.value] else config.versions)
       case ConnOpenTry(client, _, counterparty, versions, _, _, _, _, _, delay) =>
         && e.clientId == client && e.delayPeriod == delay && e.counterparty == counterparty && e.state != ConnInit
         && PickVersion(config.versions, versions).Some? && e.versions == [PickVersion(config.versions, versions).value]
       case _ => true
  }

  lemma NewConnectionHolds(env: Env, s: Store, host: Host, m: ConnMsg)
    requires (m.ConnOpenInit? || m.ConnOpenTry?) && HandleConnection(env, s, host, m).Some?
    ensures m.ConnOpenTry? ==> PickVersion(s.config.versions, m.versionsOnA).Some? && m.counterparty.connectionId.Some?
    ensures var e := if m.ConnOpenInit? then ConnInitEnd(s, m) else ConnTryEnd(m, PickVersion(s.config.versions, m.versionsOnA).value);
            HandleConnection(env, s, host, m).value == WithNewConnection(s, e)
  {
    hide ConnInitValid, Proven, PickVersion, WithNewConnection, ConnInitEnd, ConnTryEnd;
  }

  lemma ConnectionStored(env: Env, x: Node, l: Label)
    requires Opens(l) && Accepted(env, x, l)
    ensures ConnectionAsked(Step(env, x, l), ConnectionIdOf(x.store.connectionCounter), x.store.config, l.msg.connMsg)
  {
    hide HandleConnection, HandleClient, HandleChannel, HandleRecv, HandleAck, HandleTimeout, PickVersion, ConnectionIdOf, Record;
    NewConnectionHolds(env, x.store, HostOf(x, l.own), l.msg.connMsg);
  }

  lemma ConnectionAskedLater(x: Node, x': Node, id: ConnectionId, config: Config, m: ConnMsg)
    requires Grows(x, x') && ConnectionAsked(x, id, config, m)
    ensures ConnectionAsked(x', id, config, m)
  {
    hide ChanExt, PickVersion;
  }

  // ---------------------------------------------------------------- channels

  /** The end has the ordering, connection and counterparty of the request, and the version until it moves on. */
  ghost predicate ChannelAsked(x: Node, k: ChanKey, transferPort: PortId, m: ChanMsg, reply: Reply) {
    && k in x.store.channels
    && var e := x.store.channels[k].end;
       match m
       case ChanOpenInit(_, hops, portOnB, ordering, version) =>
         && e.ordering == ordering && e.hops == hops && e.remote.portId == portOnB
         && (e.state == Init ==> e.version == version && e.remote.channelId.None?)
       case ChanOpenTry(port, hops, keyOnA, _, ordering, _, _) =>
         && e.ordering == ordering && e.hops == hops && e.remote == RemoteOf(keyOnA) && e.state != Init
         && e.version == (if port == transferPort then "ics20-1" else reply.version)
       case _ => true
  }

  lemma ChannelStored(env: Env, x: Node, l: Label)
    requires Accepted(env, x, l) && l.msg.Chan? && (l.msg.chanMsg.ChanOpenInit? || l.msg.chanMsg.ChanOpenTry?)
    ensures var m := l.msg.chanMsg;
            ChannelAsked(Step(env, x, l), NewKey(x.store, if m.ChanOpenInit? then m.portOnA else m.portOnB),
                         x.store.config.transferPort, m, l.reply)
  {
    hide ClientActive, Proven, InitAccepted, TryAccepted, ChannelIdOf, HandleConnection, HandleClient, HandleRecv, HandleAck, HandleTimeout;
  }

  lemma ChannelAskedLater(x: Node, x': Node, k: ChanKey, transferPort: PortId, m: ChanMsg, reply: Reply)
    requires Grows(x, x') && ChannelAsked(x, k, transferPort, m, reply)
    ensures ChannelAsked(x', k, transferPort, m, reply)
  {
    assert ChanExt(x.store.channels[k], TraceAt(x.traces, k), x'.store.channels[k], TraceAt(x'.traces, k));
  }

  // ---------------------------------------------------------------- over whole runs

  lemma SideAfter(env: Env, w: Pair, l: Label, onA: bool, es: seq<Event>)
    requires Contracts(env) && Reachable(env, w) && EventAdmissible(env, w, On(onA, l))
    requires RunAdmissible(env, Next(env, w, On(onA, l)), es)
    ensures Grows(Step(env, Side(w, onA), l), Side(Run(env, Next(env, w, On(onA, l)), es), onA))
  {
    hide Contracts, Reachable, EventAdmissible, RunAdmissible, Run, Grows, Step, PairInv;
    ReachableInv(env, w);
    NextKeeps(env, w, On(onA, l));
    RunKeeps(env, Next(env, w, On(onA, l)), es);
  }

  /** A connection keeps the client, counterparty and delay it was opened with, and a responder the version it picked. */
  lemma ConnectionKeepsRequest(env: Env, w: Pair, l: Label, onA: bool, es: seq<Event>)
    requires Contracts(env) && Reachable(env, w) && EventAdmissible(env, w, On(onA, l))
    requires RunAdmissible(env, Next(env, w, On(onA, l)), es) && Opens(l) && Accepted(env, Side(w, onA), l)
    ensures ConnectionAsked(Side(Run(env, Next(env, w, On(onA, l)), es), onA),
                            ConnectionIdOf(Side(w, onA).store.connectionCounter), Side(w, onA).store.config, l.msg.connMsg)
  {
    hide Contracts, Reachable, EventAdmissible, RunAdmissible, Run, Next, On, Side, Step, Grows, ConnectionAsked, Accepted;
    SideAfter(env, w, l, onA, es);
    ConnectionStored(env, Side(w, onA), l);
    ConnectionAskedLater(Step(env, Side(w, onA), l), Side(Run(env, Next(env, w, On(onA, l)), es), onA),
                         ConnectionIdOf(Side(w, onA).store.connectionCounter), Side(w, onA).store.config, l.msg.connMsg);
  }

  ghost predicate Starts(l: Label, port: PortId) {
    && l.Dispatched? && l.msg.Chan?
    && ((l.msg.chanMsg.ChanOpenInit? && port == l.msg.chanMsg.portOnA) || (l.msg.chanMsg.ChanOpenTry? && port == l.msg.chanMsg.portOnB))
  }

  /** A channel keeps the ordering, connection and counterparty it was opened with, and a responder the module's version. */
  lemma ChannelKeepsRequest(env: Env, w: Pair, l: Label, onA: bool, port: PortId, es: seq<Event>)
    requires Contracts(env) && Reachable(env, w) && EventAdmissible(env, w, On(onA, l))
    requires RunAdmissible(env, Next(env, w, On(onA, l)), es) && Starts(l, port) && Accepted(env, Side(w, onA), l)
    ensures ChannelAsked(Side(Run(env, Next(env, w, On(onA, l)), es), onA), NewKey(Side(w, onA).store, port),
                         Side(w, onA).store.config.transferPort, l.msg.chanMsg, l.reply)
  {
    hide Contracts, Reachable, EventAdmissible, RunAdmissible, Run, Next, On, Side, Step, Grows, ChannelAsked, Accepted, NewKey;
    SideAfter(env, w, l, onA, es);
    ChannelStored(env, Side(w, onA), l);
    ChannelAskedLater(Step(env, Side(w, onA), l), Side(Run(env, Next(env, w, On(onA, l)), es), onA),
                      NewKey(Side(w, onA).store, port), Side(w, onA).store.config.transferPort, l.msg.chanMsg, l.reply);
  }
}
