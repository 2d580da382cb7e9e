/** ICS-20 denominations: trace paths, their text form, and which chain is the source. */
module Denoms {
  import opened Prelude
  import opened Strings
  import opened Paths

  datatype TracePrefix = TracePrefix(port: PortId, channel: ChannelId)

  /** A base denomination and its hops, innermost first: the last element is the most recent hop. */
  datatype Denom = Denom(trace: seq<TracePrefix>, base: string)

  predicate StartsWith(trace: seq<TracePrefix>, prefix: TracePrefix) {
    |trace| > 0 && trace[|trace| - 1] == prefix
  }

  function AddTracePrefix(d: Denom, prefix: TracePrefix): (r: Denom) { d.(trace := d.trace + [prefix]) }

  function RemoveTracePrefix(d: Denom, prefix: TracePrefix): (r: Denom) {
    if StartsWith(d.trace, prefix) then d.(trace := d.trace[..|d.trace| - 1]) else d
  }

  predicate IsReceiverChainSource(source: TracePrefix, d: Denom) { StartsWith(d.trace, source) }

  predicate IsSenderChainSource(source: TracePrefix, d: Denom) { !IsReceiverChainSource(source, d) }

  /** The source's in-place trace path: a vector whose end is the front of the printed path. */
  class TracePath {
    var prefixes: seq<TracePrefix>

    constructor (initial: seq<TracePrefix>)
      ensures prefixes == initial
    {
      prefixes := initial;
    }

    method AddPrefix(prefix: TracePrefix)
      modifies this
      ensures StartsWith(prefixes, prefix)
      ensures prefixes[..|prefixes| - 1] == old(prefixes)
    {
      prefixes := prefixes + [prefix];
    }

    method RemovePrefix(prefix: TracePrefix)
      modifies this
      ensures prefixes == RemoveTracePrefix(Denom(old(prefixes), ""), prefix).trace
    {
      if StartsWith(prefixes, prefix) {
        prefixes := prefixes[..|prefixes| - 1];
      }
    }
  }

  // ---------------------------------------------------------------- text form

  function PrefixText(p: TracePrefix): (s: string) { p.port + "/" + p.channel }

  /** The printed hops, most recent first. */
  function PrefixTexts(trace: seq<TracePrefix>): (r: seq<string>)
    ensures |r| == |trace|
  {
    if |trace| == 0 then [] else [PrefixText(trace[|trace| - 1])] + PrefixTexts(trace[..|trace| - 1])
  }

  function PrintTrace(trace: seq<TracePrefix>): (s: string) {
    if |trace| == 0 then "" else Join(PrefixTexts(trace), '/')
  }

  function PrintDenom(d: Denom): (s: string) {
    if |d.trace| == 0 then d.base else PrintTrace(d.trace) + "/" + d.base
  }

  /** `s.trim().is_empty()`, with `white` standing for `char::is_whitespace`. */
  predicate Blank(white: char -> bool, s: string) { forall i :: 0 <= i < |s| ==> white(s[i]) }

  function TraceOf(alnum: char -> bool, parts: seq<string>): (r: Option<seq<TracePrefix>>) {
    if |parts| == 0 then Some([])
    else if |parts| == 1 then None
    else
      var inner := TraceOf(alnum, parts[2..]);
      if inner.None? || !ValidPortId(alnum, parts[0]) || !ValidChannelId(alnum, parts[1]) then None
      else Some(inner.value + [TracePrefix(parts[0], parts[1])])
  }

  lemma {:induction false} TraceOfOdd(alnum: char -> bool, parts: seq<string>)
    requires |parts| % 2 == 1
    ensures TraceOf(alnum, parts).None?
  {
    if |parts| > 1 { TraceOfOdd(alnum, parts[2..]); }
  }

  lemma {:induction false} TraceOfSuffix(alnum: char -> bool, parts: seq<string>, k: nat)
    requires 2 * k <= |parts| && TraceOf(alnum, parts[2 * k..]).None?
    ensures TraceOf(alnum, parts).None?
  {
    if k > 0 {
      assert parts[2 * (k - 1)..][2..] == parts[2 * k..];
      TraceOfSuffix(alnum, parts, k - 1);
    } else {
      assert parts[0..] == parts;
    }
  }

  /** The source's loop over the identifier pairs, last pair first. */
  method ParseTrace(alnum: char -> bool, parts: seq<string>) returns (r: Option<seq<TracePrefix>>)
    ensures r == TraceOf(alnum, parts)
  {
    if |parts| % 2 != 0 {
      TraceOfOdd(alnum, parts);
      return None;
    }
    var trace: seq<TracePrefix> := [];
    var k := |parts| / 2;
    while k > 0
      invariant 0 <= 2 * k <= |parts|
      invariant TraceOf(alnum, parts[2 * k..]) == Some(trace)
    {
      k := k - 1;
      assert parts[2 * k..][2..] == parts[2 * (k + 1)..];
      if !ValidPortId(alnum, parts[2 * k]) || !ValidChannelId(alnum, parts[2 * k + 1]) {
        TraceOfSuffix(alnum, parts, k);
        return None;
      }
      trace := trace + [TracePrefix(parts[2 * k], parts[2 * k + 1])];
    }
    assert parts[0..] == parts;
    return Some(trace);
  }

  /** `PrefixedDenom::from_str`. */
  function ParseDenom(alnum: char -> bool, white: char -> bool, s: string): (r: Option<Denom>) {
    var parts := Split(s, '/');
    var last := parts[|parts| - 1];
    if last == s then
      if Blank(white, s) then None else Some(Denom([], s))
    else if Blank(white, last) then None
    else
      var trace := TraceOf(alnum, parts[..|parts| - 1]);
      if trace.None? then None else Some(Denom(trace.value, last))
  }

  // ---------------------------------------------------------------- round trips

  /** Port and channel identifiers in printed order. */
  function TraceParts(trace: seq<TracePrefix>): (r: seq<string>)
    ensures |r| == 2 * |trace|
  {
    if |trace| == 0 then []
    else
      var p := trace[|trace| - 1];
      [p.port, p.channel] + TraceParts(trace[..|trace| - 1])
  }

  lemma {:induction false} JoinAppend(parts: seq<string>, last: string, sep: char)
    requires |parts| >= 1
    ensures Join(parts + [last], sep) == Join(parts, sep) + [sep] + last
  {
    if |parts| == 1 {
      assert (parts + [last])[1..] == [last];
    } else {
      assert (parts + [last])[1..] == parts[1..] + [last];
      JoinAppend(parts[1..], last, sep);
    }
  }

  lemma {:induction false} PrintTraceParts(trace: seq<TracePrefix>)
    requires |trace| >= 1
    ensures PrintTrace(trace) == Join(TraceParts(trace), '/')
  {
    var n := |trace| - 1;
    var p, rest := trace[n], trace[..n];
    var parts := TraceParts(trace);
    assert parts[1..][1..] == TraceParts(rest) && parts[0] == p.port && parts[1..][0] == p.channel;
    assert PrefixTexts(trace)[1..] == PrefixTexts(rest);
    if n > 0 {
      PrintTraceParts(rest);
      calc {
        Join(parts, '/');
        p.port + "/" + Join(parts[1..], '/');
        p.port + "/" + (p.channel + "/" + Join(TraceParts(rest), '/'));
        PrefixText(p) + "/" + PrintTrace(rest);
        PrintTrace(trace);
      }
    }
  }

  lemma PrintDenomParts(d: Denom)
    ensures PrintDenom(d) == Join(TraceParts(d.trace) + [d.base], '/')
  {
    if |d.trace| > 0 {
      PrintTraceParts(d.trace);
      JoinAppend(TraceParts(d.trace), d.base, '/');
    } else {
      assert TraceParts(d.trace) + [d.base] == [d.base];
    }
  }

  lemma {:induction false} TraceOfParts(alnum: char -> bool, parts: seq<string>)
    requires TraceOf(alnum, parts).Some?
    ensures TraceParts(TraceOf(alnum, parts).value) == parts
  {
    hide ValidIdentifier;
    if |parts| > 0 {
      TraceOfParts(alnum, parts[2..]);
      var trace := TraceOf(alnum, parts).value;
      assert trace[..|trace| - 1] == TraceOf(alnum, parts[2..]).value;
      assert parts == [parts[0], parts[1]] + parts[2..];
    }
  }

  predicate ValidTrace(alnum: char -> bool, trace: seq<TracePrefix>) {
    forall i :: 0 <= i < |trace| ==> ValidPortId(alnum, trace[i].port) && ValidChannelId(alnum, trace[i].channel)
  }

  lemma TraceOfStep(alnum: char -> bool, port: PortId, channel: ChannelId, rest: seq<string>)
    requires ValidPortId(alnum, port) && ValidChannelId(alnum, channel) && TraceOf(alnum, rest).Some?
    ensures TraceOf(alnum, [port, channel] + rest) == Some(TraceOf(alnum, rest).value + [TracePrefix(port, channel)])
  {
    hide ValidIdentifier;
    assert ([port, channel] + rest)[2..] == rest;
  }

  lemma {:induction false} PartsOfTrace(alnum: char -> bool, trace: seq<TracePrefix>)
    requires ValidTrace(alnum, trace)
    ensures TraceOf(alnum, TraceParts(trace)) == Some(trace)
  {
    hide ValidPortId, ValidChannelId, TraceOf;
    if |trace| == 0 {
      EmptyTrace(alnum);
    } else {
      var n := |trace| - 1;
      PartsOfTrace(alnum, trace[..n]);
      TraceOfStep(alnum, trace[n].port, trace[n].channel, TraceParts(trace[..n]));
      assert trace[..n] + [trace[n]] == trace;
    }
  }

  lemma EmptyTrace(alnum: char -> bool)
    ensures TraceOf(alnum, []) == Some([])
  {
  }

  lemma {:induction false} PartsHaveNoSlash(alnum: char -> bool, trace: seq<TracePrefix>)
    requires !alnum('/') && ValidTrace(alnum, trace)
    ensures forall i :: 0 <= i < |TraceParts(trace)| ==> '/' !in TraceParts(trace)[i]
  {
    hide ValidIdentifier;
    if |trace| > 0 {
      var n := |trace| - 1;
      PartsHaveNoSlash(alnum, trace[..n]);
      IdentifierHasNoSlash(alnum, trace[n].port, 2, 128);
      IdentifierHasNoSlash(alnum, trace[n].channel, 8, 64);
    }
  }

  /** Every accepted text is the text of what was parsed. */
  lemma PrintAfterParse(alnum: char -> bool, white: char -> bool, s: string)
    requires ParseDenom(alnum, white, s).Some?
    ensures PrintDenom(ParseDenom(alnum, white, s).value) == s
  {
    hide ValidIdentifier, Split, Join, PrintTrace, Blank, TraceOf, TraceParts;
    var parts := Split(s, '/');
    var n := |parts| - 1;
    if parts[n] != s {
      var d := ParseDenom(alnum, white, s).value;
      TraceOfParts(alnum, parts[..n]);
      PrintDenomParts(d);
      assert parts[..n] + [parts[n]] == parts;
      JoinSplit(s, '/');
    }
  }

  /** Valid hops, and a base that is neither blank nor mistaken for hops. */
  predicate Canonical(alnum: char -> bool, white: char -> bool, d: Denom) {
    ValidTrace(alnum, d.trace) && '/' !in d.base && !Blank(white, d.base)
  }

  /** Every canonical denomination is recovered from its text. */
  lemma ParseAfterPrint(alnum: char -> bool, white: char -> bool, d: Denom)
    requires !alnum('/') && Canonical(alnum, white, d)
    ensures ParseDenom(alnum, white, PrintDenom(d)) == Some(d)
  {
    hide ValidIdentifier;
    var parts := TraceParts(d.trace) + [d.base];
    PrintDenomParts(d);
    PartsOfTrace(alnum, d.trace);
    PartsHaveNoSlash(alnum, d.trace);
    SplitJoin(parts, '/');
    assert parts[..|parts| - 1] == TraceParts(d.trace);
    if |d.trace| > 0 {
      assert '/' in PrintDenom(d) by {
        assert PrintDenom(d)[|PrintTrace(d.trace)|] == '/';
      }
    }
  }

  lemma {:induction false} TraceOfIsValid(alnum: char -> bool, parts: seq<string>)
    requires TraceOf(alnum, parts).Some?
    ensures ValidTrace(alnum, TraceOf(alnum, parts).value)
  {
    hide ValidIdentifier;
    if |parts| > 0 { TraceOfIsValid(alnum, parts[2..]); }
  }

  /** The parser only ever builds canonical denominations. */
  lemma ParsedIsCanonical(alnum: char -> bool, white: char -> bool, s: string)
    requires ParseDenom(alnum, white, s).Some?
    ensures Canonical(alnum, white, ParseDenom(alnum, white, s).value)
  {
    hide ValidTrace, TraceOf, Blank;
    var parts := Split(s, '/');
    if parts[|parts| - 1] != s { TraceOfIsValid(alnum, parts[..|parts| - 1]); } else { NoHops(alnum); }
  }

  lemma NoHops(alnum: char -> bool)
    ensures ValidTrace(alnum, [])
  {
  }

  /** A denomination survives its own text exactly when it is canonical. */
  lemma TextRoundTripExactly(alnum: char -> bool, white: char -> bool, d: Denom)
    requires !alnum('/')
    ensures ParseDenom(alnum, white, PrintDenom(d)) == Some(d) <==> Canonical(alnum, white, d)
  {
    hide Canonical, PrintDenom, ParseDenom;
    if Canonical(alnum, white, d) {
      ParseAfterPrint(alnum, white, d);
    } else if ParseDenom(alnum, white, PrintDenom(d)) == Some(d) {
      ParsedIsCanonical(alnum, white, PrintDenom(d));
    }
  }

  /** Every hop puts the port and channel it arrived at in front of the text. */
  lemma HopIsPrinted(d: Denom, hop: TracePrefix)
    ensures PrintDenom(AddTracePrefix(d, hop)) == hop.port + "/" + hop.channel + "/" + PrintDenom(d)
  {
    var r := AddTracePrefix(d, hop);
    assert r.trace[..|r.trace| - 1] == d.trace;
    assert PrefixTexts(r.trace)[1..] == PrefixTexts(d.trace);
    if |d.trace| == 0 {
      assert PrintTrace(r.trace) == PrefixText(hop);
    } else {
      assert PrintTrace(r.trace) == PrefixText(hop) + "/" + PrintTrace(d.trace);
    }
  }

  /** A coin whose native name contains slashes prints like a coin that came over a channel. */
  lemma SlashedNameCollides(port: PortId, channel: ChannelId, base: string)
    ensures var native := Denom([], port + "/" + channel + "/" + base);
            var traced := Denom([TracePrefix(port, channel)], base);
            native != traced && PrintDenom(native) == PrintDenom(traced)
  {
    var traced := Denom([TracePrefix(port, channel)], base);
    assert PrefixTexts(traced.trace) == [port + "/" + channel];
    assert PrintDenom(traced) == port + "/" + channel + "/" + base;
  }

  // ---------------------------------------------------------------- out and back

  datatype Branch = Escrow | Burn | Mint | Unescrow

  /** What the sending chain does with the coin. */
  function SendBranch(source: TracePrefix, d: Denom): (b: Branch) {
    if IsSenderChainSource(source, d) then Escrow else Burn
  }

  /** What the receiving chain does with the coin. */
  function ReceiveBranch(source: TracePrefix, d: Denom): (b: Branch) {
    if IsReceiverChainSource(source, d) then Unescrow else Mint
  }

  /** The denomination credited on the receiving chain. */
  function Arrived(source: TracePrefix, dest: TracePrefix, d: Denom): (r: Denom) {
    if IsReceiverChainSource(source, d) then RemoveTracePrefix(d, source) else AddTracePrefix(d, dest)
  }

  /** A coin the sending chain is the source of goes out and back through escrow, mint, burn and unescrow. */
  lemma OutAndBack(a: TracePrefix, b: TracePrefix, d: Denom)
    requires IsSenderChainSource(a, d)
    ensures SendBranch(a, d) == Escrow && ReceiveBranch(a, d) == Mint
    ensures SendBranch(b, Arrived(a, b, d)) == Burn && ReceiveBranch(b, Arrived(a, b, d)) == Unescrow
    ensures Arrived(b, a, Arrived(a, b, d)) == d
  {
  }

  /** Out and back restores the denomination unless its two most recent hops are this very channel, crossed both ways. */
  lemma OutAndBackExactly(a: TracePrefix, b: TracePrefix, d: Denom)
    ensures Arrived(b, a, Arrived(a, b, d)) == d <==>
            !(StartsWith(d.trace, a) && StartsWith(RemoveTracePrefix(d, a).trace, b))
  {
    if StartsWith(d.trace, a) {
      var r := RemoveTracePrefix(d, a);
      if StartsWith(r.trace, b) {
        assert |Arrived(b, a, r).trace| < |d.trace|;
      } else {
        assert AddTracePrefix(r, a).trace == d.trace;
      }
    }
  }
}
