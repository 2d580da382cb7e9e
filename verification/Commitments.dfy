/** The commitment stored for a packet: a hash over a fixed-layout preimage. */
module Commitments {
  import opened Prelude
  import opened Heights

  /** The buffer `[timestamp | revision number | revision height | hash(data)]`. */
  function Preimage(dataHash: Bytes, th: TimeoutHeight, ts: Timestamp): (b: Bytes)
    ensures |b| == 24 + |dataHash|
  {
    ToBeBytes(Nanoseconds(ts)) + ToBeBytes(CommitmentRevisionNumber(th)) + ToBeBytes(CommitmentRevisionHeight(th)) + dataHash
  }

  function PacketCommitment(hash: Bytes -> Bytes, data: Bytes, th: TimeoutHeight, ts: Timestamp): (c: Bytes) {
    hash(Preimage(hash(data), th, ts))
  }

  /** Copies `src` over `buf[at..]`, as `copy_from_slice` does. */
  method CopyFromSlice(buf: array<Byte>, at: nat, src: Bytes)
    requires at + |src| <= buf.Length
    modifies buf
    ensures buf[at..at + |src|] == src
    ensures buf[..at] == old(buf[..at])
    ensures buf[at + |src|..] == old(buf[at + |src|..])
  {
    for i := 0 to |src|
      invariant forall j :: 0 <= j < i ==> buf[at + j] == src[j]
      invariant forall j :: 0 <= j < buf.Length && !(at <= j < at + i) ==> buf[j] == old(buf[j])
    {
      buf[at + i] := src[i];
    }
  }

  /** The source's computation, which fills a 56-byte buffer slice by slice before hashing it. */
  method ComputePacketCommitment(hash: Bytes -> Bytes, data: Bytes, th: TimeoutHeight, ts: Timestamp)
    returns (c: Bytes)
    requires |hash(data)| == 32
    ensures c == PacketCommitment(hash, data, th, ts)
  {
    var hashInput := new Byte[56](_ => 0);
    CopyFromSlice(hashInput, 0, ToBeBytes(Nanoseconds(ts)));
    CopyFromSlice(hashInput, 8, ToBeBytes(CommitmentRevisionNumber(th)));
    assert hashInput[..16] == hashInput[..8] + hashInput[8..16] && hashInput[..8] == hashInput[0..8];
    CopyFromSlice(hashInput, 16, ToBeBytes(CommitmentRevisionHeight(th)));
    assert hashInput[..24] == hashInput[..16] + hashInput[16..24];
    CopyFromSlice(hashInput, 24, hash(data));
    assert hashInput[..] == hashInput[..24] + hashInput[24..56];
    c := hash(hashInput[..]);
  }

  /** Eight big-endian bytes each for the timestamp, the revision number and the revision height, then the hash of the data. */
  ghost predicate LaidOut(b: Bytes, dataHash: Bytes, th: TimeoutHeight, ts: Timestamp) {
    && |b| == 24 + |dataHash|
    && ValueOf(b[0..8]) == (if ts.Some? then ts.value else 0)
    && ValueOf(b[8..16]) == (if th.At? then th.height.revisionNumber else 0)
    && ValueOf(b[16..24]) == (if th.At? then th.height.revisionHeight else 0)
    && b[24..] == dataHash
  }

  /** The hashed string, byte offset by byte offset; an unset timeout is written as zero. */
  lemma PreimageLayout(dataHash: Bytes, th: TimeoutHeight, ts: Timestamp)
    requires ValidTimeoutHeight(th) && ValidTimestamp(ts)
    ensures LaidOut(Preimage(dataHash, th, ts), dataHash, th, ts)
  {
    var b := Preimage(dataHash, th, ts);
    assert b[0..8] == ToBeBytes(Nanoseconds(ts));
    assert b[8..16] == ToBeBytes(CommitmentRevisionNumber(th));
    assert b[16..24] == ToBeBytes(CommitmentRevisionHeight(th));
    ToBeBytesValue(Nanoseconds(ts));
    ToBeBytesValue(CommitmentRevisionNumber(th));
    ToBeBytesValue(CommitmentRevisionHeight(th));
  }

  lemma TimeoutHeightEncodingInjective(t: TimeoutHeight, u: TimeoutHeight)
    requires ValidTimeoutHeight(t) && ValidTimeoutHeight(u)
    requires CommitmentRevisionNumber(t) == CommitmentRevisionNumber(u)
    requires CommitmentRevisionHeight(t) == CommitmentRevisionHeight(u)
    ensures t == u
  {
  }

  lemma PreimageInjective(h: Bytes, th: TimeoutHeight, ts: Timestamp, h': Bytes, th': TimeoutHeight, ts': Timestamp)
    requires ValidTimeoutHeight(th) && ValidTimestamp(ts) && ValidTimeoutHeight(th') && ValidTimestamp(ts')
    requires Preimage(h, th, ts) == Preimage(h', th', ts')
    ensures h == h' && th == th' && ts == ts'
  {
    var b, b' := Preimage(h, th, ts), Preimage(h', th', ts');
    assert b[..8] == ToBeBytes(Nanoseconds(ts)) && b'[..8] == ToBeBytes(Nanoseconds(ts'));
    assert b[8..16] == ToBeBytes(CommitmentRevisionNumber(th)) && b'[8..16] == ToBeBytes(CommitmentRevisionNumber(th'));
    assert b[16..24] == ToBeBytes(CommitmentRevisionHeight(th)) && b'[16..24] == ToBeBytes(CommitmentRevisionHeight(th'));
    assert b[24..] == h && b'[24..] == h';
    ToBeBytesInjective(Nanoseconds(ts), Nanoseconds(ts'));
    ToBeBytesInjective(CommitmentRevisionNumber(th), CommitmentRevisionNumber(th'));
    ToBeBytesInjective(CommitmentRevisionHeight(th), CommitmentRevisionHeight(th'));
    TimeoutHeightEncodingInjective(th, th');
  }

  /**
   Equal commitments come from equal packets, or else two of the four hashed strings are a hash collision.
   No property of the hash is assumed.
   */
  lemma EqualCommitmentsOrCollision(hash: Bytes -> Bytes,
                                    d: Bytes, th: TimeoutHeight, ts: Timestamp,
                                    d': Bytes, th': TimeoutHeight, ts': Timestamp)
    requires ValidTimeoutHeight(th) && ValidTimestamp(ts) && ValidTimeoutHeight(th') && ValidTimestamp(ts')
    requires PacketCommitment(hash, d, th, ts) == PacketCommitment(hash, d', th', ts')
    ensures
      || (d == d' && th == th' && ts == ts')
      || (d != d' && hash(d) == hash(d'))
      || (var p, p' := Preimage(hash(d), th, ts), Preimage(hash(d'), th', ts'); p != p' && hash(p) == hash(p'))
  {
    if Preimage(hash(d), th, ts) == Preimage(hash(d'), th', ts') {
      PreimageInjective(hash(d), th, ts, hash(d'), th', ts');
    }
  }

  ghost predicate Injective(hash: Bytes -> Bytes) {
    forall x, y :: hash(x) == hash(y) ==> x == y
  }

  lemma EqualCommitments(hash: Bytes -> Bytes,
                         d: Bytes, th: TimeoutHeight, ts: Timestamp,
                         d': Bytes, th': TimeoutHeight, ts': Timestamp)
    requires Injective(hash)
    requires ValidTimeoutHeight(th) && ValidTimestamp(ts) && ValidTimeoutHeight(th') && ValidTimestamp(ts')
    requires PacketCommitment(hash, d, th, ts) == PacketCommitment(hash, d', th', ts')
    ensures d == d' && th == th' && ts == ts'
  {
    EqualCommitmentsOrCollision(hash, d, th, ts, d', th', ts');
  }
}
