/** The store path space of ICS-24: identifiers, printed paths, and the parser. */
module Paths {
  import opened Prelude
  import opened Strings

  type ClientId = string
  type ConnectionId = string
  type PortId = string
  type ChannelId = string

  datatype Path =
    | NextClientSequence
    | NextConnectionSequence
    | NextChannelSequence
    | ClientStatePath(client: ClientId)
    | ClientConsensusStatePath(client: ClientId, revisionNumber: nat, revisionHeight: nat)
    | ClientUpdateTime(client: ClientId, revisionNumber: nat, revisionHeight: nat)
    | ClientUpdateHeight(client: ClientId, revisionNumber: nat, revisionHeight: nat)
    | ClientConnection(client: ClientId)
    | Connection(connection: ConnectionId)
    | Ports(port: PortId)
    | ChannelEndPath(port: PortId, channel: ChannelId)
    | SeqSend(port: PortId, channel: ChannelId)
    | SeqRecv(port: PortId, channel: ChannelId)
    | SeqAck(port: PortId, channel: ChannelId)
    | Commitment(port: PortId, channel: ChannelId, sequence: nat)
    | Ack(port: PortId, channel: ChannelId, sequence: nat)
    | Receipt(port: PortId, channel: ChannelId, sequence: nat)
    | UpgradedClientState(height: nat)
    | UpgradedClientConsensusState(height: nat)

  // ---------------------------------------------------------------- identifiers

  const VALID_SPECIAL_CHARS := "._+-#[]<>"

  function Utf8Width(c: char): (n: nat) {
    var code := c as int;
    if code < 0x80 then 1 else if code < 0x800 then 2 else if code < 0x1_0000 then 3 else 4
  }

  /** The length of a string in UTF-8 bytes. */
  function Utf8Length(s: string): (n: nat) { if |s| == 0 then 0 else Utf8Width(s[0]) + Utf8Length(s[1..]) }

  /** `validate_identifier_chars` and `validate_identifier_length`; `alnum` stands for `char::is_alphanumeric`. */
  predicate ValidIdentifier(alnum: char -> bool, id: string, min: nat, max: nat) {
    && (forall i :: 0 <= i < |id| ==> alnum(id[i]) || id[i] in VALID_SPECIAL_CHARS)
    && (if min > 1 then min else 1) <= Utf8Length(id) <= max
  }

  predicate ValidClientId(alnum: char -> bool, id: string) { ValidIdentifier(alnum, id, 9, 64) }

  predicate ValidConnectionId(alnum: char -> bool, id: string) { ValidIdentifier(alnum, id, 10, 64) }

  predicate ValidPortId(alnum: char -> bool, id: string) { ValidIdentifier(alnum, id, 2, 128) }

  predicate ValidChannelId(alnum: char -> bool, id: string) { ValidIdentifier(alnum, id, 8, 64) }

  lemma IdentifierHasNoSlash(alnum: char -> bool, id: string, min: nat, max: nat)
    requires !alnum('/') && ValidIdentifier(alnum, id, min, max)
    ensures '/' !in id
  {
  }

  /** Only ASCII characters that identifiers may contain. */
  ghost predicate Plain(alnum: char -> bool, id: string) {
    forall i :: 0 <= i < |id| ==> id[i] as int < 0x80 && (alnum(id[i]) || id[i] in "._+-#[]<>")
  }

  lemma {:induction false} AsciiLength(s: string)
    requires forall i :: 0 <= i < |s| ==> s[i] as int < 0x80
    ensures Utf8Length(s) == |s|
  {
    if |s| > 0 { AsciiLength(s[1..]); }
  }

  /** Where identifiers are plain, only their length decides. */
  lemma PlainIdentifiers(alnum: char -> bool, id: string)
    requires Plain(alnum, id)
    ensures ValidClientId(alnum, id) <==> 9 <= |id| <= 64
    ensures ValidConnectionId(alnum, id) <==> 10 <= |id| <= 64
    ensures ValidPortId(alnum, id) <==> 2 <= |id| <= 128
    ensures ValidChannelId(alnum, id) <==> 8 <= |id| <= 64
  {
    AsciiLength(id);
  }

  predicate ValidPath(alnum: char -> bool, p: Path) {
    match p
    case NextClientSequence | NextConnectionSequence | NextChannelSequence => true
    case ClientStatePath(c) => ValidClientId(alnum, c)
    case ClientConnection(c) => ValidClientId(alnum, c)
    case ClientConsensusStatePath(c, n, h) => ValidClientId(alnum, c) && IsU64(n) && IsU64(h)
    case ClientUpdateTime(c, n, h) => ValidClientId(alnum, c) && IsU64(n) && IsU64(h)
    case ClientUpdateHeight(c, n, h) => ValidClientId(alnum, c) && IsU64(n) && IsU64(h)
    case Connection(c) => ValidConnectionId(alnum, c)
    case Ports(port) => ValidPortId(alnum, port)
    case ChannelEndPath(port, chan) => ValidPortId(alnum, port) && ValidChannelId(alnum, chan)
    case SeqSend(port, chan) => ValidPortId(alnum, port) && ValidChannelId(alnum, chan)
    case SeqRecv(port, chan) => ValidPortId(alnum, port) && ValidChannelId(alnum, chan)
    case SeqAck(port, chan) => ValidPortId(alnum, port) && ValidChannelId(alnum, chan)
    case Commitment(port, chan, n) => ValidPortId(alnum, port) && ValidChannelId(alnum, chan) && IsU64(n)
    case Ack(port, chan, n) => ValidPortId(alnum, port) && ValidChannelId(alnum, chan) && IsU64(n)
    case Receipt(port, chan, n) => ValidPortId(alnum, port) && ValidChannelId(alnum, chan) && IsU64(n)
    case UpgradedClientState(h) => IsU64(h)
    case UpgradedClientConsensusState(h) => IsU64(h)
  }

  // ---------------------------------------------------------------- printing

  function HeightText(n: nat, h: nat): (s: string) { Decimal(n) + "-" + Decimal(h) }

  function PortChannel(port: PortId, channel: ChannelId): (cs: seq<string>) { ["ports", port, "channels", channel] }

  /** The slash-separated parts of a printed path. */
  function Components(p: Path): (cs: seq<string>)
    ensures 1 <= |cs| <= 7
  {
    match p
    case NextClientSequence => ["nextClientSequence"]
    case NextConnectionSequence => ["nextConnectionSequence"]
    case NextChannelSequence => ["nextChannelSequence"]
    case ClientStatePath(c) => ["clients", c, "clientState"]
    case ClientConnection(c) => ["clients", c, "connections"]
    case ClientConsensusStatePath(c, n, h) => ["clients", c, "consensusStates", HeightText(n, h)]
    case ClientUpdateTime(c, n, h) => ["clients", c, "consensusStates", HeightText(n, h), "processedTime"]
    case ClientUpdateHeight(c, n, h) => ["clients", c, "consensusStates", HeightText(n, h), "processedHeight"]
    case Connection(c) => ["connections", c]
    case Ports(port) => ["ports", port]
    case ChannelEndPath(port, chan) => ["channelEnds"] + PortChannel(port, chan)
    case SeqSend(port, chan) => ["nextSequenceSend"] + PortChannel(port, chan)
    case SeqRecv(port, chan) => ["nextSequenceRecv"] + PortChannel(port, chan)
    case SeqAck(port, chan) => ["nextSequenceAck"] + PortChannel(port, chan)
    case Commitment(port, chan, n) => ["commitments"] + PortChannel(port, chan) + ["sequences", Decimal(n)]
    case Ack(port, chan, n) => ["acks"] + PortChannel(port, chan) + ["sequences", Decimal(n)]
    case Receipt(port, chan, n) => ["receipts"] + PortChannel(port, chan) + ["sequences", Decimal(n)]
    case UpgradedClientState(h) => ["upgradedIBCState", Decimal(h), "upgradedClient"]
    case UpgradedClientConsensusState(h) => ["upgradedIBCState", Decimal(h), "upgradedConsState"]
  }

  function Print(p: Path): (s: string) { Join(Components(p), '/') }

  // ---------------------------------------------------------------- parsing

  datatype ParseResult = Parsed(path: Path) | Failed | Panics

  function ParseNextSequence(cs: seq<string>): (r: ParseResult) {
    if |cs| != 1 then Failed
    else if cs[0] == "nextClientSequence" then Parsed(NextClientSequence)
    else if cs[0] == "nextConnectionSequence" then Parsed(NextConnectionSequence)
    else if cs[0] == "nextChannelSequence" then Parsed(NextChannelSequence)
    else Failed
  }

  function ParseHeightText(s: string): (r: Option<(nat, nat)>)
    ensures r.Some? ==> IsU64(r.value.0) && IsU64(r.value.1)
  {
    var parts := Split(s, '-');
    if |parts| != 2 then None
    else
      var n, h := ParseU64(parts[0]), ParseU64(parts[1]);
      if n.Some? && h.Some? then Some((n.value, h.value)) else None
  }

  /** Indexing the second part panics when "clients" stands alone. */
  function ParseClientPaths(alnum: char -> bool, cs: seq<string>): (r: ParseResult) {
    if |cs| == 0 || cs[0] != "clients" then Failed
    else if |cs| == 1 then Panics
    else if !ValidClientId(alnum, cs[1]) then Failed
    else if |cs| == 3 then
      if cs[2] == "clientState" then Parsed(ClientStatePath(cs[1]))
      else if cs[2] == "connections" then Parsed(ClientConnection(cs[1]))
      else Failed
    else if |cs| == 4 || |cs| == 5 then
      if cs[2] != "consensusStates" then Failed
      else
        var nh := ParseHeightText(cs[3]);
        if nh.None? then Failed
        else
          var (n, h) := nh.value;
          if |cs| == 4 then Parsed(ClientConsensusStatePath(cs[1], n, h))
          else if cs[4] == "processedTime" then Parsed(ClientUpdateTime(cs[1], n, h))
          else if cs[4] == "processedHeight" then Parsed(ClientUpdateHeight(cs[1], n, h))
          else Failed
    else Failed
  }

  function ParseConnections(alnum: char -> bool, cs: seq<string>): (r: ParseResult) {
    if |cs| == 2 && cs[0] == "connections" && ValidConnectionId(alnum, cs[1]) then Parsed(Connection(cs[1])) else Failed
  }

  function ParsePorts(alnum: char -> bool, cs: seq<string>): (r: ParseResult) {
    if |cs| == 2 && cs[0] == "ports" && ValidPortId(alnum, cs[1]) then Parsed(Ports(cs[1])) else Failed
  }

  function ParsePortChannel(alnum: char -> bool, cs: seq<string>): (r: Option<(PortId, ChannelId)>) {
    if |cs| == 4 && cs[0] == "ports" && ValidPortId(alnum, cs[1]) && cs[2] == "channels" && ValidChannelId(alnum, cs[3])
    then Some((cs[1], cs[3])) else None
  }

  function ParseFive(alnum: char -> bool, cs: seq<string>): (r: ParseResult) {
    if |cs| != 5 then Failed
    else
      var pc := ParsePortChannel(alnum, cs[1..]);
      if pc.None? then Failed
      else if cs[0] == "channelEnds" then Parsed(ChannelEndPath(pc.value.0, pc.value.1))
      else if cs[0] == "nextSequenceSend" then Parsed(SeqSend(pc.value.0, pc.value.1))
      else if cs[0] == "nextSequenceRecv" then Parsed(SeqRecv(pc.value.0, pc.value.1))
      else if cs[0] == "nextSequenceAck" then Parsed(SeqAck(pc.value.0, pc.value.1))
      else Failed
  }

  function ParseSeven(alnum: char -> bool, cs: seq<string>): (r: ParseResult) {
    if |cs| != 7 then Failed
    else
      var pc := ParsePortChannel(alnum, cs[1..5]);
      var n := if cs[5] == "sequences" then ParseU64(cs[6]) else None;
      if pc.None? || n.None? then Failed
      else if cs[0] == "commitments" then Parsed(Commitment(pc.value.0, pc.value.1, n.value))
      else if cs[0] == "acks" then Parsed(Ack(pc.value.0, pc.value.1, n.value))
      else if cs[0] == "receipts" then Parsed(Receipt(pc.value.0, pc.value.1, n.value))
      else Failed
  }

  function ParseUpgrades(cs: seq<string>): (r: ParseResult) {
    if |cs| != 3 || cs[0] != "upgradedIBCState" then Failed
    else
      var h := ParseU64(cs[1]);
      if h.None? then Failed
      else if cs[2] == "upgradedClient" then Parsed(UpgradedClientState(h.value))
      else if cs[2] == "upgradedConsState" then Parsed(UpgradedClientConsensusState(h.value))
      else Failed
  }

  function OrElse(r: ParseResult, next: ParseResult): ParseResult { if r.Failed? then next else r }

  function ParseComponents(alnum: char -> bool, cs: seq<string>): (r: ParseResult) {
    OrElse(ParseNextSequence(cs),
    OrElse(ParseClientPaths(alnum, cs),
    OrElse(ParseConnections(alnum, cs),
    OrElse(ParsePorts(alnum, cs),
    OrElse(ParseFive(alnum, cs),
    OrElse(ParseSeven(alnum, cs), ParseUpgrades(cs)))))))
  }

  /** `Path::from_str`. */
  function Parse(alnum: char -> bool, s: string): (r: ParseResult) { ParseComponents(alnum, Split(s, '/')) }

  // ---------------------------------------------------------------- round trip

  lemma HeightTextRoundTrip(n: nat, h: nat)
    requires IsU64(n) && IsU64(h)
    ensures ParseHeightText(HeightText(n, h)) == Some((n, h))
    ensures '/' !in HeightText(n, h)
  {
    DecimalHasNo(n, '-');
    DecimalHasNo(h, '-');
    DecimalHasNo(n, '/');
    DecimalHasNo(h, '/');
    SplitWord(Decimal(h), '-');
    SplitFirst(Decimal(n), Decimal(h), '-');
    ParseDecimal(n);
    ParseDecimal(h);
  }

  ghost predicate NoSlash(cs: seq<string>) { forall i :: 0 <= i < |cs| ==> '/' !in cs[i] }

  lemma NoSlashAppend(a: seq<string>, b: seq<string>)
    requires NoSlash(a) && NoSlash(b)
    ensures NoSlash(a + b)
  {
  }

  lemma PortChannelNoSlash(alnum: char -> bool, port: PortId, chan: ChannelId)
    requires !alnum('/') && ValidPortId(alnum, port) && ValidChannelId(alnum, chan)
    ensures NoSlash(PortChannel(port, chan))
  {
    IdentifierHasNoSlash(alnum, port, 2, 128);
    IdentifierHasNoSlash(alnum, chan, 8, 64);
  }

  lemma SequenceNoSlash(n: nat)
    ensures NoSlash(["sequences", Decimal(n)])
  {
    DecimalHasNo(n, '/');
  }

  lemma ChannelComponentsNoSlash(alnum: char -> bool, p: Path)
    requires !alnum('/') && ValidPath(alnum, p)
    requires p.ChannelEndPath? || p.SeqSend? || p.SeqRecv? || p.SeqAck?
    ensures NoSlash(Components(p))
  {
    PortChannelNoSlash(alnum, p.port, p.channel);
    assert NoSlash([Components(p)[0]]);
    NoSlashAppend([Components(p)[0]], PortChannel(p.port, p.channel));
  }

  lemma PacketComponentsNoSlash(alnum: char -> bool, p: Path)
    requires !alnum('/') && ValidPath(alnum, p)
    requires p.Commitment? || p.Ack? || p.Receipt?
    ensures NoSlash(Components(p))
  {
    PortChannelNoSlash(alnum, p.port, p.channel);
    SequenceNoSlash(p.sequence);
    assert NoSlash([Components(p)[0]]);
    NoSlashAppend([Components(p)[0]], PortChannel(p.port, p.channel));
    NoSlashAppend([Components(p)[0]] + PortChannel(p.port, p.channel), ["sequences", Decimal(p.sequence)]);
  }

  lemma ClientComponentsNoSlash(alnum: char -> bool, p: Path)
    requires !alnum('/') && ValidPath(alnum, p)
    requires p.ClientConsensusStatePath? || p.ClientUpdateTime? || p.ClientUpdateHeight?
    ensures NoSlash(Components(p))
  {
    hide ValidIdentifier, HeightText, IsU64;
    IdentifierHasNoSlash(alnum, p.client, 9, 64);
    HeightTextRoundTrip(p.revisionNumber, p.revisionHeight);
    assert NoSlash(["clients", p.client, "consensusStates", HeightText(p.revisionNumber, p.revisionHeight)]);
    assert NoSlash(["processedTime"]) && NoSlash(["processedHeight"]);
  }

  lemma IdentifierComponentsNoSlash(alnum: char -> bool, p: Path)
    requires !alnum('/') && ValidPath(alnum, p)
    requires p.ClientStatePath? || p.ClientConnection? || p.Connection? || p.Ports?
    ensures NoSlash(Components(p))
  {
    hide ValidIdentifier;
    if p.Connection? { IdentifierHasNoSlash(alnum, p.connection, 10, 64); }
    else if p.Ports? { IdentifierHasNoSlash(alnum, p.port, 2, 128); }
    else { IdentifierHasNoSlash(alnum, p.client, 9, 64); }
  }

  lemma OtherComponentsNoSlash(p: Path)
    requires p.NextClientSequence? || p.NextConnectionSequence? || p.NextChannelSequence?
             || p.UpgradedClientState? || p.UpgradedClientConsensusState?
    ensures NoSlash(Components(p))
  {
    hide Decimal;
    if p.UpgradedClientState? || p.UpgradedClientConsensusState? { DecimalHasNo(p.height, '/'); }
  }

  lemma ComponentsHaveNoSlash(alnum: char -> bool, p: Path)
    requires !alnum('/') && ValidPath(alnum, p)
    ensures NoSlash(Components(p))
  {
    hide ValidPath, Components, NoSlash;
    if p.ClientStatePath? || p.ClientConnection? || p.Connection? || p.Ports? { IdentifierComponentsNoSlash(alnum, p); }
    else if p.ClientConsensusStatePath? || p.ClientUpdateTime? || p.ClientUpdateHeight? { ClientComponentsNoSlash(alnum, p); }
    else if p.ChannelEndPath? || p.SeqSend? || p.SeqRecv? || p.SeqAck? { ChannelComponentsNoSlash(alnum, p); }
    else if p.Commitment? || p.Ack? || p.Receipt? { PacketComponentsNoSlash(alnum, p); }
    else { OtherComponentsNoSlash(p); }
  }

  lemma ParseConsensusComponents(alnum: char -> bool, p: Path)
    requires ValidPath(alnum, p)
    requires p.ClientConsensusStatePath? || p.ClientUpdateTime? || p.ClientUpdateHeight?
    ensures ParseClientPaths(alnum, Components(p)) == Parsed(p)
  {
    hide ValidIdentifier, HeightText, ParseHeightText;
    HeightTextRoundTrip(p.revisionNumber, p.revisionHeight);
    assert Components(p)[3] == HeightText(p.revisionNumber, p.revisionHeight);
  }

  lemma ParseClientComponents(alnum: char -> bool, p: Path)
    requires ValidPath(alnum, p)
    requires p.ClientStatePath? || p.ClientConnection?
    ensures ParseClientPaths(alnum, Components(p)) == Parsed(p)
  {
    assert "clientState"[1] != "connections"[1];
  }

  lemma ParsePacketComponents(alnum: char -> bool, p: Path)
    requires ValidPath(alnum, p)
    requires p.Commitment? || p.Ack? || p.Receipt?
    ensures ParseSeven(alnum, Components(p)) == Parsed(p)
  {
    hide ValidIdentifier, Decimal, ParseU64;
    ParseDecimal(p.sequence);
    assert Components(p)[1..5] == PortChannel(p.port, p.channel);
  }

  lemma ParseChannelComponents(alnum: char -> bool, p: Path)
    requires ValidPath(alnum, p)
    requires p.ChannelEndPath? || p.SeqSend? || p.SeqRecv? || p.SeqAck?
    ensures ParseFive(alnum, Components(p)) == Parsed(p)
  {
    hide ValidIdentifier;
    assert Components(p)[1..] == PortChannel(p.port, p.channel);
    assert "nextSequenceSend"[12] != "nextSequenceRecv"[12];
  }

  lemma ParseOwnComponents(alnum: char -> bool, p: Path)
    requires ValidPath(alnum, p)
    ensures ParseComponents(alnum, Components(p)) == Parsed(p)
  {
    hide ValidIdentifier, Decimal, ParseU64, HeightText, ParseHeightText;
    match p
    case UpgradedClientState(h) => ParseDecimal(h);
    case UpgradedClientConsensusState(h) => ParseDecimal(h);
    case ClientStatePath(_) => ParseClientComponents(alnum, p);
    case ClientConnection(_) => ParseClientComponents(alnum, p);
    case ClientConsensusStatePath(_, _, _) => ParseConsensusComponents(alnum, p);
    case ClientUpdateTime(_, _, _) => ParseConsensusComponents(alnum, p);
    case ClientUpdateHeight(_, _, _) => ParseConsensusComponents(alnum, p);
    case Commitment(_, _, _) => ParsePacketComponents(alnum, p);
    case Ack(_, _, _) => ParsePacketComponents(alnum, p);
    case Receipt(_, _, _) => ParsePacketComponents(alnum, p);
    case ChannelEndPath(_, _) => ParseChannelComponents(alnum, p);
    case SeqSend(_, _) => ParseChannelComponents(alnum, p);
    case SeqRecv(_, _) => ParseChannelComponents(alnum, p);
    case SeqAck(_, _) => ParseChannelComponents(alnum, p);
    case _ =>
  }

  /** Parsing the printed form of a path with valid identifiers gives back that path. */
  lemma PathRoundTrip(alnum: char -> bool, p: Path)
    requires !alnum('/') && ValidPath(alnum, p)
    ensures Parse(alnum, Print(p)) == Parsed(p)
  {
    ComponentsHaveNoSlash(alnum, p);
    SplitJoin(Components(p), '/');
    ParseOwnComponents(alnum, p);
  }

  /** The slash-separated segments of the keys that the other chain proves, as section "Path-space" of ICS-24 lists them. */
  function ProvableSegments(p: Path): seq<string> {
    match p
    case ClientStatePath(c) => ["clients", c, "clientState"]
    case ClientConsensusStatePath(c, n, h) => ["clients", c, "consensusStates", Decimal(n) + "-" + Decimal(h)]
    case Connection(c) => ["connections", c]
    case ChannelEndPath(port, chan) => ["channelEnds", "ports", port, "channels", chan]
    case SeqRecv(port, chan) => ["nextSequenceRecv", "ports", port, "channels", chan]
    case Commitment(port, chan, n) => ["commitments", "ports", port, "channels", chan, "sequences", Decimal(n)]
    case Ack(port, chan, n) => ["acks", "ports", port, "channels", chan, "sequences", Decimal(n)]
    case Receipt(port, chan, n) => ["receipts", "ports", port, "channels", chan, "sequences", Decimal(n)]
    case _ => []
  }

  /** Splitting a printed key gives those segments. */
  lemma PrintedSegments(alnum: char -> bool, p: Path)
    requires !alnum('/') && ValidPath(alnum, p)
    ensures ProvableSegments(p) != [] ==> Split(Print(p), '/') == ProvableSegments(p)
  {
    hide ValidPath, Split, Join, Decimal;
    ComponentsHaveNoSlash(alnum, p);
    SplitJoin(Components(p), '/');
  }

  /** No two distinct store entries share a key. */
  lemma PrintInjective(alnum: char -> bool, p: Path, q: Path)
    requires !alnum('/') && ValidPath(alnum, p) && ValidPath(alnum, q)
    requires Print(p) == Print(q)
    ensures p == q
  {
    PathRoundTrip(alnum, p);
    PathRoundTrip(alnum, q);
  }

  lemma ClientPathsValid(alnum: char -> bool, cs: seq<string>)
    ensures ParseClientPaths(alnum, cs).Parsed? ==> ValidPath(alnum, ParseClientPaths(alnum, cs).path)
    ensures ParseClientPaths(alnum, cs).Panics? <==> cs == ["clients"]
  {
    hide ValidIdentifier, ParseHeightText;
  }

  lemma ChannelPathsValid(alnum: char -> bool, cs: seq<string>)
    ensures ParseFive(alnum, cs).Parsed? ==> ValidPath(alnum, ParseFive(alnum, cs).path)
    ensures ParseSeven(alnum, cs).Parsed? ==> ValidPath(alnum, ParseSeven(alnum, cs).path)
    ensures !ParseFive(alnum, cs).Panics? && !ParseSeven(alnum, cs).Panics?
  {
    hide ValidIdentifier, ParseU64;
  }

  lemma OtherPathsValid(alnum: char -> bool, cs: seq<string>)
    ensures ParseUpgrades(cs).Parsed? ==> ValidPath(alnum, ParseUpgrades(cs).path)
    ensures ParseNextSequence(cs).Parsed? ==> ValidPath(alnum, ParseNextSequence(cs).path)
    ensures !ParseUpgrades(cs).Panics? && !ParseNextSequence(cs).Panics?
    ensures cs == ["clients"] ==> ParseNextSequence(cs).Failed?
  {
  }

  /** The parser accepts only valid paths, and panics on exactly one input. */
  lemma ParseAcceptsOnlyValidPaths(alnum: char -> bool, s: string)
    ensures Parse(alnum, s).Parsed? ==> ValidPath(alnum, Parse(alnum, s).path)
    ensures Parse(alnum, s).Panics? <==> s == "clients"
  {
    var cs := Split(s, '/');
    ClientPathsValid(alnum, cs);
    ChannelPathsValid(alnum, cs);
    OtherPathsValid(alnum, cs);
    JoinSplit(s, '/');
    assert Join(["clients"], '/') == "clients";
    SplitWord("clients", '/');
  }

  // ---------------------------------------------------------------- printing what was parsed

  predicate CanonicalHeight(s: string) {
    var parts := Split(s, '-');
    |parts| == 2 && CanonicalNumber(parts[0]) && CanonicalNumber(parts[1])
  }

  lemma HeightReprints(s: string)
    requires ParseHeightText(s).Some?
    ensures HeightText(ParseHeightText(s).value.0, ParseHeightText(s).value.1) == s <==> CanonicalHeight(s)
  {
    hide Decimal, CanonicalNumber, ParseU64;
    var parts := Split(s, '-');
    var n, h := ParseHeightText(s).value.0, ParseHeightText(s).value.1;
    ReprintsExactly(parts[0]);
    ReprintsExactly(parts[1]);
    JoinSplit(s, '-');
    DecimalHasNo(n, '-');
    DecimalHasNo(h, '-');
    SplitWord(Decimal(h), '-');
    SplitFirst(Decimal(n), Decimal(h), '-');
    assert [Decimal(n)] + [Decimal(h)] == [Decimal(n), Decimal(h)];
  }

  /** The numbers among the segments of a key are printed canonically. */
  predicate CanonicalSegments(cs: seq<string>) {
    && (|cs| == 7 ==> CanonicalNumber(cs[6]))
    && (|cs| == 3 && cs[0] == "upgradedIBCState" ==> CanonicalNumber(cs[1]))
    && ((|cs| == 4 || |cs| == 5) && cs[0] == "clients" ==> CanonicalHeight(cs[3]))
  }

  lemma ClientSegmentsReprint(alnum: char -> bool, cs: seq<string>)
    requires ParseClientPaths(alnum, cs).Parsed?
    ensures Components(ParseClientPaths(alnum, cs).path) == cs <==> CanonicalSegments(cs)
  {
    hide ValidClientId, HeightText, ParseHeightText, CanonicalNumber, CanonicalHeight;
    if |cs| == 4 || |cs| == 5 { HeightReprints(cs[3]); }
    assert "clients"[0] != "upgradedIBCState"[0];
    assert |cs| == 3 ==> cs == [cs[0], cs[1], cs[2]];
    assert |cs| == 4 ==> cs == [cs[0], cs[1], cs[2], cs[3]];
    assert |cs| == 5 ==> cs == [cs[0], cs[1], cs[2], cs[3], cs[4]];
    if |cs| >= 4 { assert Components(ParseClientPaths(alnum, cs).path)[3] == cs[3] ==> CanonicalHeight(cs[3]); }
  }

  lemma PacketSegmentsReprint(alnum: char -> bool, cs: seq<string>)
    requires ParseSeven(alnum, cs).Parsed?
    ensures Components(ParseSeven(alnum, cs).path) == cs <==> CanonicalSegments(cs)
  {
    hide ValidPortId, ValidChannelId, ParseU64, Decimal, CanonicalNumber, CanonicalHeight;
    ReprintsExactly(cs[6]);
    var p := ParseSeven(alnum, cs).path;
    assert cs[1..5] == PortChannel(p.port, p.channel);
    assert cs == [cs[0]] + cs[1..5] + [cs[5], cs[6]];
    assert Components(p)[6] == Decimal(p.sequence);
  }

  lemma ChannelSegmentsReprint(alnum: char -> bool, cs: seq<string>)
    requires ParseFive(alnum, cs).Parsed?
    ensures Components(ParseFive(alnum, cs).path) == cs && CanonicalSegments(cs)
  {
    hide ValidPortId, ValidChannelId, CanonicalHeight;
    var p := ParseFive(alnum, cs).path;
    assert cs[1..] == PortChannel(p.port, p.channel);
    assert cs == [cs[0]] + cs[1..];
    assert "clients"[1] != "channelEnds"[1] && "clients"[0] != "nextSequenceSend"[0] && "clients"[0] != "nextSequenceRecv"[0]
           && "clients"[0] != "nextSequenceAck"[0];
  }

  lemma OtherSegmentsReprint(alnum: char -> bool, cs: seq<string>, r: ParseResult)
    requires r in [ParseNextSequence(cs), ParseConnections(alnum, cs), ParsePorts(alnum, cs), ParseUpgrades(cs)] && r.Parsed?
    ensures Components(r.path) == cs <==> CanonicalSegments(cs)
  {
    hide ValidPortId, ValidConnectionId, ParseU64, Decimal, CanonicalNumber, CanonicalHeight;
    assert |cs| == 1 ==> cs == [cs[0]];
    assert |cs| == 2 ==> cs == [cs[0], cs[1]];
    assert |cs| == 3 ==> cs == [cs[0], cs[1], cs[2]];
    if r == ParseUpgrades(cs) && |cs| == 3 { ReprintsExactly(cs[1]); }
  }

  lemma SegmentsReprint(alnum: char -> bool, cs: seq<string>)
    requires ParseComponents(alnum, cs).Parsed?
    ensures Components(ParseComponents(alnum, cs).path) == cs <==> CanonicalSegments(cs)
  {
    var r := ParseComponents(alnum, cs);
    hide ParseNextSequence, ParseClientPaths, ParseConnections, ParsePorts, ParseFive, ParseSeven, ParseUpgrades, Components, CanonicalSegments;
    if r == ParseClientPaths(alnum, cs) { ClientSegmentsReprint(alnum, cs); }
    else if r == ParseFive(alnum, cs) { ChannelSegmentsReprint(alnum, cs); }
    else if r == ParseSeven(alnum, cs) { PacketSegmentsReprint(alnum, cs); }
    else { OtherSegmentsReprint(alnum, cs, r); }
  }

  /**
   A parsed key prints as the text it was read from exactly when the numbers in that text carry no plus sign and no leading
   zero; the parser takes both.
   */
  lemma ReprintsPathExactly(alnum: char -> bool, s: string)
    requires !alnum('/') && Parse(alnum, s).Parsed?
    ensures Print(Parse(alnum, s).path) == s <==> CanonicalSegments(Split(s, '/'))
  {
    hide ParseComponents, Components, CanonicalSegments, ValidPath, Split, Join, NoSlash;
    var cs, p := Split(s, '/'), Parse(alnum, s).path;
    SegmentsReprint(alnum, cs);
    JoinSplit(s, '/');
    ParseAcceptsOnlyValidPaths(alnum, s);
    ComponentsHaveNoSlash(alnum, p);
    SplitComponents(p);
  }

  lemma SplitComponents(p: Path)
    requires NoSlash(Components(p))
    ensures Split(Print(p), '/') == Components(p)
  {
    SplitJoin(Components(p), '/');
  }

  /** Both are taken: two texts, one path. */
  lemma SignedNumberIsTaken(n: nat)
    requires IsU64(n)
    ensures ParseU64("+" + Decimal(n)) == Some(n) && ParseU64("0" + Decimal(n)) == Some(n)
    ensures !CanonicalNumber("+" + Decimal(n)) && !CanonicalNumber("0" + Decimal(n))
  {
    var t, z := "+" + Decimal(n), "0" + Decimal(n);
    assert t[0] == '+' && t[1..] == Decimal(n);
    ParseDecimal(n);
    assert IsDigit(Decimal(n)[0]) && z[0] == '0';
    assert forall i :: 0 <= i < |z| ==> IsDigit(z[i]) by {
      forall i | 0 <= i < |z| ensures IsDigit(z[i]) { if i > 0 { assert z[i] == Decimal(n)[i - 1]; } }
    }
    LeadingZero(Decimal(n));
    DecimalValue(n);
  }
}
