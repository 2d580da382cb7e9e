/** Two chains, their histories, and every step an arbitrary relayer, user or block producer can cause. */
module World {
  import opened Prelude
  import opened Heights
  import opened Paths
  import opened Denoms
  import opened Tendermint
  import opened IbcStore
  import opened Transfer
  import opened Connections
  import opened Dispatch

  /** A receive callback, with the acknowledgement it wrote and the host clock at that moment. */
  datatype Delivery = Delivery(packet: Packet, ack: Bytes, height: Height, time: nat)

  /** An acknowledgement or timeout callback, with the height its proof was checked at. */
  datatype Resolution =
    | Acked(packet: Packet, ack: Bytes, proofHeight: Height)
    | TimedOut(packet: Packet, proofHeight: Height, onClose: bool)

  /** The callbacks run on one channel, in order, which sends took coins, and whether the channel has ever been open. */
  datatype ChanTrace = ChanTrace(
    sent: seq<Packet>,
    transfers: seq<Packet>,
    delivered: seq<Delivery>,
    resolved: seq<Resolution>,
    wasOpen: bool)

  type Traces = map<ChanKey, ChanTrace>

  /** The state a block header commits to. */
  datatype Snapshot = Snapshot(store: Store, traces: Traces, time: nat)

  /** One chain. `tracks` names the clients whose headers really come from the other chain of the pair. */
  datatype Node = Node(
    store: Store,
    traces: Traces,
    height: Height,
    time: nat,
    history: map<Height, Snapshot>,
    tracks: set<ClientId>)

  const NO_TRACE := ChanTrace([], [], [], [], false)

  function TraceAt(t: Traces, k: ChanKey): ChanTrace { if k in t then t[k] else NO_TRACE }

  datatype Label =
    | NewBlock(height: Height, time: nat)
    | CommitBlock
    | Dispatched(msg: Msg, reply: Reply, own: map<Height, ConsensusState>)
    | SendPacket(packet: Packet)
    | SendTransfer(key: ChanKey, text: PacketText, timeoutHeight: TimeoutHeight, timeoutTimestamp: Timestamp, reply: Reply)
    | Pay(denom: Denom, from: Account, to: Account, amount: nat)
    | IssueNative(base: string, to: Account, amount: nat)

  function Record(t: Traces, note: Note, height: Height, time: nat): (r: Traces) {
    match note
    case Quiet => t
    case SentNote(p, coins) =>
      var c := TraceAt(t, p.src);
      t[p.src := c.(sent := c.sent + [p], transfers := if coins then c.transfers + [p] else c.transfers)]
    case DeliveredNote(p, ack) =>
      var c := TraceAt(t, p.dst);
      t[p.dst := c.(delivered := c.delivered + [Delivery(p, ack, height, time)])]
    case AckedNote(p, ack, h) =>
      var c := TraceAt(t, p.src);
      t[p.src := c.(resolved := c.resolved + [Acked(p, ack, h)])]
    case TimedOutNote(p, h, onClose) =>
      var c := TraceAt(t, p.src);
      t[p.src := c.(resolved := c.resolved + [TimedOut(p, h, onClose)])]
    case OpenedNote(k) => t[k := TraceAt(t, k).(wasOpen := true)]
  }

  function Absorb(n: Node, out: Outcome): (r: Node) {
    match out
    case Rejected => n
    case Done(s, note) => n.(store := s, traces := Record(n.traces, note, n.height, n.time))
  }

  function HostOf(n: Node, own: map<Height, ConsensusState>): Host { Host(n.height, n.time, own) }

  /** One step of a chain. A step that is not possible leaves the chain as it was. */
  function Step(env: Env, n: Node, l: Label): (r: Node) {
    match l
    case NewBlock(h, t) => if Lt(n.height, h) && n.time <= t then n.(height := h, time := t) else n
    case CommitBlock =>
      if n.height in n.history then n
      else n.(history := n.history[n.height := Snapshot(n.store, n.traces, n.time)])
    case Dispatched(m, reply, own) => Absorb(n, Handle(env, n.store, HostOf(n, own), m, reply))
    case SendPacket(p) => Absorb(n, HandleSend(env, n.store, HostOf(n, map[]), p))
    case SendTransfer(k, text, th, ts, reply) =>
      Absorb(n, HandleMsgTransfer(env, n.store, HostOf(n, map[]), k, text, th, ts, reply))
    case Pay(d, from, to, amount) =>
      var moved := Move(n.store.ledger, d, User(from), User(to), amount);
      if moved.None? then n else n.(store := n.store.(ledger := moved.value))
    case IssueNative(base, to, amount) =>
      n.(store := n.store.(ledger := Credit(n.store.ledger, Denom([], base), User(to), amount)))
  }

  /** A consensus state that is the other chain's at that height, or the root an upgrade starts from. */
  ghost predicate GenuineState(env: Env, cs: ConsensusState, h: Height, y: Node) {
    || cs.root == env.sentinel
    || (h in y.history && cs.root == env.rootOf(y.history[h].store) && cs.timestamp == y.history[h].time)
  }

  /**
   What is assumed of a tracked client: it is created from a real state of the other chain, and the header
   verifier accepts only headers of that chain for it.
   */
  ghost predicate ClientAdmissible(env: Env, x: Node, y: Node, m: ClientMsg) {
    match m
    case CreateClient(st, cs) => ClientIdOf(x.store.clientCounter) in x.tracks ==> GenuineState(env, cs, st.latestHeight, y)
    case UpdateOrMisbehaviour(_, id, msg) =>
      id in x.tracks && id in x.store.clients && msg.HeaderMessage?
      && VerifyHeader(env.verifier, x.store.clients[id], msg.header, x.time) ==>
        GenuineState(env, ConsensusOf(msg.header), HeightOf(msg.header), y)
    case UpgradeClient(_, _, _, _, _) => true
  }

  ghost predicate Admissible(env: Env, x: Node, y: Node, l: Label) {
    l.Dispatched? && l.msg.Client? ==> ClientAdmissible(env, x, y, l.msg.clientMsg)
  }

  datatype Pair = Pair(a: Node, b: Node)

  datatype Event = OnA(step: Label) | OnB(step: Label)

  ghost predicate EventAdmissible(env: Env, w: Pair, e: Event) {
    match e
    case OnA(l) => Admissible(env, w.a, w.b, l)
    case OnB(l) => Admissible(env, w.b, w.a, l)
  }

  function Next(env: Env, w: Pair, e: Event): (r: Pair) {
    match e
    case OnA(l) => w.(a := Step(env, w.a, l))
    case OnB(l) => w.(b := Step(env, w.b, l))
  }

  function Run(env: Env, w: Pair, es: seq<Event>): (r: Pair)
    decreases |es|
  {
    if |es| == 0 then w else Run(env, Next(env, w, es[0]), es[1..])
  }

  ghost predicate RunAdmissible(env: Env, w: Pair, es: seq<Event>)
    decreases |es|
  {
    |es| > 0 ==> EventAdmissible(env, w, es[0]) && RunAdmissible(env, Next(env, w, es[0]), es[1..])
  }

  /** A chain before any IBC activity: only native coins in user accounts. */
  ghost predicate Genesis(n: Node) {
    && n.store.clients == map[] && n.store.connections == map[] && n.store.clientConnections == map[] && n.store.channels == map[]
    && n.traces == map[] && n.history == map[]
    && forall d, h :: Balance(n.store.ledger, d, h) > 0 ==> d.trace == [] && h.User?
  }
}
