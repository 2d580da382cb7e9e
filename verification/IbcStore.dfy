/** The provable store of one chain, what it commits to, and the contracts of everything outside this code. */
module IbcStore {
  import opened Prelude
  import opened Heights
  import opened Strings
  import opened Paths
  import opened Denoms
  import opened Versions
  import opened Tendermint
  import opened Commitments

  // ---------------------------------------------------------------- connections

  datatype ConnState = ConnInit | ConnTryOpen | ConnOpen

  datatype ConnCounterparty = ConnCounterparty(clientId: ClientId, connectionId: Option<ConnectionId>, prefix: Bytes)

  datatype ConnectionEnd = ConnectionEnd(
    state: ConnState,
    clientId: ClientId,
    counterparty: ConnCounterparty,
    versions: seq<Version>,
    delayPeriod: nat)

  /** `ConnectionEnd::new`: outside Init there is exactly one version. */
  predicate ConnectionEndOk(c: ConnectionEnd) { c.state != ConnInit ==> |c.versions| == 1 }

  // ---------------------------------------------------------------- channels and packets

  datatype ChanState = Init | TryOpen | Open | Closed

  datatype Order = NoOrder | Unordered | Ordered

  datatype Counterparty = Counterparty(portId: PortId, channelId: Option<ChannelId>)

  datatype ChannelEnd = ChannelEnd(
    state: ChanState,
    ordering: Order,
    remote: Counterparty,
    hops: seq<ConnectionId>,
    version: string)

  /** A port and a channel on it; also one hop of a denomination trace. */
  type ChanKey = TracePrefix

  /** All store entries of one channel end. */
  datatype Channel = Channel(
    end: ChannelEnd,
    nextSend: nat,
    nextRecv: nat,
    nextAck: nat,
    commitments: map<nat, Bytes>,
    receipts: set<nat>,
    acks: map<nat, Bytes>)

  datatype Packet = Packet(
    seq_: nat,
    src: ChanKey,
    dst: ChanKey,
    data: Bytes,
    timeoutHeight: TimeoutHeight,
    timeoutTimestamp: Timestamp)

  /** The values the source's packet type can hold. */
  predicate PacketTypesOk(p: Packet) {
    ValidTimeoutHeight(p.timeoutHeight) && ValidTimestamp(p.timeoutTimestamp)
  }

  /** What decoding a packet from the wire additionally rejects. */
  predicate PacketDecodes(p: Packet) {
    PacketTypesOk(p) && p.seq_ != 0 && |p.data| > 0 && (p.timeoutHeight.At? || p.timeoutTimestamp.Some?)
  }

  /** `Packet::timed_out`, at a height and time of the destination chain. */
  predicate PacketTimedOut(p: Packet, time: nat, height: Height) {
    HasExpired(p.timeoutHeight, height) || CheckExpiry(Some(time), p.timeoutTimestamp) == Expiry.Expired
  }

  function RemoteOf(k: ChanKey): Counterparty { Counterparty(k.port, Some(k.channel)) }

  // ---------------------------------------------------------------- tokens

  type Account = string

  /** A balance belongs to a user or to the escrow account of a channel. */
  datatype Holder = User(account: Account) | EscrowOf(channel: ChanKey)

  type Ledger = map<Denom, map<Holder, nat>>

  datatype PacketData = PacketData(denom: Denom, amount: nat, sender: Account, receiver: Account, memo: string)

  /** The record that is written to the packet: the denomination as text. */
  datatype PacketText = PacketText(denom: string, amount: nat, sender: Account, receiver: Account, memo: string)

  function TextOf(d: PacketData): PacketText { PacketText(PrintDenom(d.denom), d.amount, d.sender, d.receiver, d.memo) }

  // ---------------------------------------------------------------- the store

  /** What a host fixes once: its commitment prefix, its connection versions and its transfer port. */
  datatype Config = Config(prefix: Bytes, versions: seq<Version>, transferPort: PortId)

  datatype Store = Store(
    config: Config,
    clients: map<ClientId, Client>,
    clientCounter: nat,
    connections: map<ConnectionId, ConnectionEnd>,
    clientConnections: map<ClientId, ConnectionId>,
    connectionCounter: nat,
    channels: map<ChanKey, Channel>,
    channelCounter: nat,
    ledger: Ledger)

  /** The host's clock while a message is handled, and its own past consensus states. */
  datatype Host = Host(height: Height, time: nat, ownConsensus: map<Height, ConsensusState>)

  /** What an application module (or its host) answers where this code does not decide. */
  datatype Reply = Reply(accept: bool, version: string, ack: Bytes, reason: string)

  function ClientIdOf(n: nat): ClientId { Numbered("07-tendermint", n) }

  function ConnectionIdOf(n: nat): ConnectionId { Numbered("connection", n) }

  function ChannelIdOf(n: nat): ChannelId { Numbered("channel", n) }

  /** Letters and digits of ASCII are alphanumeric. */
  ghost predicate AsciiAlnum(alnum: char -> bool) { forall c :: 'a' <= c <= 'z' || '0' <= c <= '9' ==> alnum(c) }

  lemma NumberedIsPlain(alnum: char -> bool, prefix: string, n: nat)
    requires AsciiAlnum(alnum) && IsU64(n) && Plain(alnum, prefix)
    ensures Plain(alnum, Numbered(prefix, n)) && |prefix| + 2 <= |Numbered(prefix, n)| <= |prefix| + 21
  {
    TenToTheTwenty();
    DecimalLength(n, 20);
    var id := Numbered(prefix, n);
    forall i | 0 <= i < |id| ensures id[i] as int < 0x80 && (alnum(id[i]) || id[i] in "._+-#[]<>") {
      if i == |prefix| { assert id[i] == '-' == "._+-#[]<>"[3]; }
      if i > |prefix| { assert id[i] == Decimal(n)[i - |prefix| - 1]; }
    }
  }

  /** Every identifier a chain hands out is valid. */
  lemma IssuedIdentifiersAreValid(alnum: char -> bool, n: nat)
    requires AsciiAlnum(alnum) && IsU64(n)
    ensures ValidClientId(alnum, ClientIdOf(n)) && ValidConnectionId(alnum, ConnectionIdOf(n)) && ValidChannelId(alnum, ChannelIdOf(n))
  {
    hide Numbered, ValidClientId, ValidConnectionId, ValidChannelId, ValidPortId;
    PrefixesArePlain(alnum);
    NumberedIsPlain(alnum, "07-tendermint", n);
    PlainIdentifiers(alnum, ClientIdOf(n));
    NumberedIsPlain(alnum, "connection", n);
    PlainIdentifiers(alnum, ConnectionIdOf(n));
    NumberedIsPlain(alnum, "channel", n);
    PlainIdentifiers(alnum, ChannelIdOf(n));
  }

  lemma PrefixesArePlain(alnum: char -> bool)
    requires AsciiAlnum(alnum)
    ensures Plain(alnum, "07-tendermint") && Plain(alnum, "connection") && Plain(alnum, "channel")
  {
    assert "07-tendermint"[2] == "._+-#[]<>"[3];
  }

  /** A stored value; each path holds values of one kind, and encodings are taken to be injective. */
  datatype Value =
    | ConnectionValue(connection: ConnectionEnd)
    | ChannelValue(channel: ChannelEnd)
    | SequenceValue(sequence: nat)
    | BytesValue(bytes: Bytes)
    | ReceiptValue
    | ClientValue(clientState: ClientState)
    | ConsensusValue(consensus: ConsensusState)
    | TimeValue(time: nat)
    | HeightValue(height: Height)
    | ConnectionIdValue(id: ConnectionId)

  /** The value stored at a path under a channel. */
  function ChannelLookup(ch: Channel, p: Path): (v: Option<Value>) {
    match p
    case ChannelEndPath(_, _) => Some(ChannelValue(ch.end))
    case SeqSend(_, _) => Some(SequenceValue(ch.nextSend))
    case SeqRecv(_, _) => Some(SequenceValue(ch.nextRecv))
    case SeqAck(_, _) => Some(SequenceValue(ch.nextAck))
    case Commitment(_, _, n) => if n in ch.commitments then Some(BytesValue(ch.commitments[n])) else None
    case Ack(_, _, n) => if n in ch.acks then Some(BytesValue(ch.acks[n])) else None
    case Receipt(_, _, n) => if n in ch.receipts then Some(ReceiptValue) else None
    case _ => None
  }

  /** The value stored at a path. */
  function Lookup(s: Store, p: Path): (v: Option<Value>) {
    match p
    case NextClientSequence => Some(SequenceValue(s.clientCounter))
    case NextConnectionSequence => Some(SequenceValue(s.connectionCounter))
    case NextChannelSequence => Some(SequenceValue(s.channelCounter))
    case ClientStatePath(c) => if c in s.clients then Some(ClientValue(s.clients[c].state)) else None
    case ClientConsensusStatePath(c, n, h) =>
      if c in s.clients && Height(n, h) in s.clients[c].consensus
      then Some(ConsensusValue(s.clients[c].consensus[Height(n, h)])) else None
    case ClientUpdateTime(c, n, h) =>
      if c in s.clients && Height(n, h) in s.clients[c].meta
      then Some(TimeValue(s.clients[c].meta[Height(n, h)].0)) else None
    case ClientUpdateHeight(c, n, h) =>
      if c in s.clients && Height(n, h) in s.clients[c].meta
      then Some(HeightValue(s.clients[c].meta[Height(n, h)].1)) else None
    case Connection(c) => if c in s.connections then Some(ConnectionValue(s.connections[c])) else None
    case ClientConnection(c) =>
      if c in s.clientConnections then Some(ConnectionIdValue(s.clientConnections[c])) else None
    case Ports(_) | UpgradedClientState(_) | UpgradedClientConsensusState(_) => None
    case _ =>
      var k := TracePrefix(p.port, p.channel);
      if k in s.channels then ChannelLookup(s.channels[k], p) else None
  }

  // ---------------------------------------------------------------- outside this code

  /** Everything the handlers call that is not part of this repository. */
  datatype Env = Env(
    alnum: char -> bool,
    hash: Bytes -> Bytes,
    rootOf: Store -> Bytes,
    member: (Bytes, Bytes, Bytes, Path, Value) -> bool,
    absent: (Bytes, Bytes, Bytes, Path) -> bool,
    sentinel: Bytes,
    verifier: Verifier,
    upgradeProofs: (Bytes, ClientState, ConsensusState, Bytes, Bytes) -> bool,
    selfClient: ClientState -> bool,
    blockDelay: nat -> nat,
    white: char -> bool,
    encode: PacketText -> Bytes,
    decode: Bytes -> Option<PacketText>,
    ackStatus: Bytes -> Option<bool>,
    successAck: Bytes,
    errorAck: string -> Bytes)

  /** Proof checks at well-formed paths are sound for the store whose root is checked, under that chain's own prefix. */
  ghost predicate ProofsSound(env: Env) {
    && (forall s, prefix, proof, path, v ::
          ValidPath(env.alnum, path) && env.member(env.rootOf(s), prefix, proof, path, v) ==>
            prefix == s.config.prefix && Lookup(s, path) == Some(v))
    && (forall s, prefix, proof, path ::
          ValidPath(env.alnum, path) && env.absent(env.rootOf(s), prefix, proof, path) && prefix == s.config.prefix ==>
            Lookup(s, path) == None)
  }

  /** Whatever a store holds, or lacks, at a well-formed path has a proof. */
  ghost predicate ProofsComplete(env: Env) {
    && (forall s, path, v :: ValidPath(env.alnum, path) && Lookup(s, path) == Some(v) ==>
          exists proof :: env.member(env.rootOf(s), s.config.prefix, proof, path, v))
    && (forall s, path :: ValidPath(env.alnum, path) && Lookup(s, path) == None ==>
          exists proof :: env.absent(env.rootOf(s), s.config.prefix, proof, path))
  }

  /** Nothing verifies against the root that an upgraded client starts from. */
  ghost predicate SentinelProvesNothing(env: Env) {
    && (forall prefix, proof, path, v :: !env.member(env.sentinel, prefix, proof, path, v))
    && (forall prefix, proof, path :: !env.absent(env.sentinel, prefix, proof, path))
  }

  /** `RawPacketData` to `PacketData`: the denomination is read from its text. */
  function ReadText(env: Env, t: PacketText): (r: Option<PacketData>) {
    var d := ParseDenom(env.alnum, env.white, t.denom);
    if d.None? then None else Some(PacketData(d.value, t.amount, t.sender, t.receiver, t.memo))
  }

  function Encode(env: Env, d: PacketData): Bytes { env.encode(TextOf(d)) }

  function Decode(env: Env, b: Bytes): (r: Option<PacketData>) {
    var t := env.decode(b);
    if t.None? then None else ReadText(env, t.value)
  }

  /** The JSON framing of transfer records and acknowledgements loses nothing. What the text means is this code's business. */
  ghost predicate CodecFaithful(env: Env) {
    && (forall t :: env.decode(env.encode(t)) == Some(t))
    && env.ackStatus(env.successAck) == Some(true)
    && (forall reason :: env.ackStatus(env.errorAck(reason)) == Some(false))
  }

  ghost predicate Contracts(env: Env) {
    Injective(env.hash) && ProofsSound(env) && SentinelProvesNothing(env)
  }

  /** A record built from text that was read decodes to itself. */
  lemma ReadDecodes(env: Env, t: PacketText)
    requires CodecFaithful(env) && ReadText(env, t).Some?
    ensures Decode(env, Encode(env, ReadText(env, t).value)) == ReadText(env, t)
  {
    PrintAfterParse(env.alnum, env.white, t.denom);
    assert TextOf(ReadText(env, t).value) == t;
  }

  /** Transfer data decodes to itself exactly when its denomination is canonical. */
  lemma DecodesExactly(env: Env, d: PacketData)
    requires CodecFaithful(env) && !env.alnum('/')
    ensures Decode(env, Encode(env, d)) == Some(d) <==> Canonical(env.alnum, env.white, d.denom)
  {
    hide Canonical, PrintDenom, ParseDenom;
    TextRoundTripExactly(env.alnum, env.white, d.denom);
  }

  lemma SlashInside(a: string, b: string)
    ensures '/' in a + "/" + b
  {
    assert (a + "/" + b)[|a|] == '/';
  }

  /** Two coins, a native one with slashes in its name and a traced one, travel as the same bytes. */
  lemma SlashedCoinIsMisread(env: Env, port: PortId, channel: ChannelId, base: string, d: PacketData)
    requires d.denom == Denom([], port + "/" + channel + "/" + base)
    ensures Encode(env, d) == Encode(env, d.(denom := Denom([TracePrefix(port, channel)], base)))
    ensures CodecFaithful(env) ==> Decode(env, Encode(env, d)) != Some(d)
  {
    hide PrintDenom, ParseDenom;
    SlashedNameCollides(port, channel, base);
    SlashInside(port, channel + "/" + base);
    assert port + "/" + channel + "/" + base == port + "/" + (channel + "/" + base);
    if CodecFaithful(env) && Decode(env, Encode(env, d)) == Some(d) {
      ParsedIsCanonical(env.alnum, env.white, PrintDenom(d.denom));
      assert false;
    }
  }

  function Commit(env: Env, p: Packet): Bytes {
    PacketCommitment(env.hash, p.data, p.timeoutHeight, p.timeoutTimestamp)
  }

  // ---------------------------------------------------------------- checks shared by the handlers

  predicate ClientActive(s: Store, host: Host, c: ClientId) {
    c in s.clients && StatusOf(s.clients[c], host.time) == Active
  }

  /** The client exists, is active, is not behind the proof height and holds a consensus state there. */
  predicate ProofReady(s: Store, host: Host, c: ClientId, proofHeight: Height) {
    && ClientActive(s, host, c)
    && !Lt(s.clients[c].state.latestHeight, proofHeight)
    && proofHeight in s.clients[c].consensus
  }

  function ConsensusAt(s: Store, c: ClientId, h: Height): ConsensusState
    requires c in s.clients && h in s.clients[c].consensus
  {
    s.clients[c].consensus[h]
  }

  /** A membership proof checked through a client, under a counterparty's prefix. Identifiers in messages are well formed. */
  predicate Proven(env: Env, s: Store, host: Host, c: ClientId, prefix: Bytes, proof: Bytes, h: Height, path: Path, v: Value) {
    ProofReady(s, host, c, h) && ValidPath(env.alnum, path) && env.member(ConsensusAt(s, c, h).root, prefix, proof, path, v)
  }

  predicate ProvenAbsent(env: Env, s: Store, host: Host, c: ClientId, prefix: Bytes, proof: Bytes, h: Height, path: Path) {
    ProofReady(s, host, c, h) && ValidPath(env.alnum, path) && env.absent(ConsensusAt(s, c, h).root, prefix, proof, path)
  }

  /** `verify_conn_delay_passed`. */
  predicate DelayPassed(env: Env, s: Store, host: Host, conn: ConnectionEnd, proofHeight: Height) {
    && conn.clientId in s.clients
    && proofHeight in s.clients[conn.clientId].meta
    && var (time, height) := s.clients[conn.clientId].meta[proofHeight];
       && time + conn.delayPeriod <= host.time
       && !Lt(host.height, Add(height, env.blockDelay(conn.delayPeriod)))
  }

  predicate HasConnection(s: Store, e: ChannelEnd) { |e.hops| > 0 && e.hops[0] in s.connections }

  function ConnectionOf(s: Store, e: ChannelEnd): ConnectionEnd
    requires HasConnection(s, e)
  {
    s.connections[e.hops[0]]
  }
}
