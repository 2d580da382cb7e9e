/** Heights, timestamps and timeouts, and the byte key under which consensus states are iterated. */
module Heights {
  import opened Prelude

  datatype Height = Height(revisionNumber: nat, revisionHeight: nat)

  datatype Ordering = Less | Equal | Greater

  function Compare(a: Height, b: Height): (o: Ordering) {
    if a.revisionNumber < b.revisionNumber then Less
    else if a.revisionNumber > b.revisionNumber then Greater
    else if a.revisionHeight < b.revisionHeight then Less
    else if a.revisionHeight > b.revisionHeight then Greater
    else Equal
  }

  predicate Lt(a: Height, b: Height) {
    a.revisionNumber < b.revisionNumber || (a.revisionNumber == b.revisionNumber && a.revisionHeight < b.revisionHeight)
  }

  predicate Leq(a: Height, b: Height) { !Lt(b, a) }

  function Max(a: Height, b: Height): (m: Height)
    ensures Leq(a, m) && Leq(b, m) && (m == a || m == b)
  {
    if Lt(a, b) then b else a
  }

  /** `Height::add`. */
  function Add(h: Height, delta: nat): Height { Height(h.revisionNumber, h.revisionHeight + delta) }

  /** The value space of the source's `Height` type: u64 parts and a non-zero block height. */
  predicate ValidHeight(h: Height) {
    IsU64(h.revisionNumber) && IsU64(h.revisionHeight) && h.revisionHeight >= 1
  }

  /** `Timestamp`: unset, or nanoseconds since the epoch. */
  type Timestamp = Option<nat>

  /** What `Timestamp::from_nanoseconds` can build: zero is read as unset. */
  predicate ValidTimestamp(t: Timestamp) { t.Some? ==> 0 < t.value && IsU64(t.value) }

  function FromNanoseconds(n: nat): (t: Timestamp)
    requires IsU64(n)
    ensures ValidTimestamp(t) && Nanoseconds(t) == n
  {
    if n == 0 then None else Some(n)
  }

  function Nanoseconds(t: Timestamp): (n: nat) { if t.Some? then t.value else 0 }

  datatype Expiry = Expired | NotExpired | InvalidTimestamp

  function CheckExpiry(now: Timestamp, other: Timestamp): (e: Expiry) {
    if now.Some? && other.Some? then
      if now.value > other.value then Expired else NotExpired
    else InvalidTimestamp
  }

  datatype TimeoutHeight = Never | At(height: Height)

  predicate ValidTimeoutHeight(t: TimeoutHeight) { t.At? ==> ValidHeight(t.height) }

  predicate HasExpired(t: TimeoutHeight, h: Height) { t.At? && Lt(t.height, h) }

  function CommitmentRevisionNumber(t: TimeoutHeight): nat { if t.At? then t.height.revisionNumber else 0 }

  function CommitmentRevisionHeight(t: TimeoutHeight): nat { if t.At? then t.height.revisionHeight else 0 }

  /** Expiry only ever turns on: what has expired stays expired at every later height and time. */
  lemma ExpiryIsMonotone(t: TimeoutHeight, h: Height, h': Height, ts: Timestamp, now: nat, now': nat)
    requires Leq(h, h') && now <= now'
    ensures HasExpired(t, h) ==> HasExpired(t, h')
    ensures CheckExpiry(Some(now), ts) == Expired ==> CheckExpiry(Some(now'), ts) == Expired
  {
  }

  /** A timeout is the last moment at which a packet may be received: it expires at the very next height or nanosecond. */
  lemma ExpiryBoundary(h: Height, now: nat)
    ensures !HasExpired(At(h), h) && HasExpired(At(h), Add(h, 1)) && HasExpired(At(h), Height(h.revisionNumber + 1, 0))
    ensures CheckExpiry(Some(now), Some(now)) == NotExpired && CheckExpiry(Some(now + 1), Some(now)) == Expired
  {
  }

  // ---------------------------------------------------------------- big-endian keys

  function Pow256(k: nat): (p: nat)
    ensures p >= 1
  {
    if k == 0 then 1 else 256 * Pow256(k - 1)
  }

  /** The `k` low-order bytes of `n`, most significant first. */
  function BigEndian(n: nat, k: nat): (b: Bytes)
    ensures |b| == k
  {
    if k == 0 then [] else BigEndian(n / 256, k - 1) + [n % 256]
  }

  /** `u64::to_be_bytes`. */
  function ToBeBytes(n: nat): (b: Bytes)
    ensures |b| == 8
  {
    BigEndian(n, 8)
  }

  lemma {:induction false} BigEndianInjective(n: nat, m: nat, k: nat)
    requires n < Pow256(k) && m < Pow256(k)
    requires BigEndian(n, k) == BigEndian(m, k)
    ensures n == m
  {
    if k > 0 {
      var p, q := BigEndian(n / 256, k - 1), BigEndian(m / 256, k - 1);
      assert p == (p + [n % 256])[..k - 1] && q == (q + [m % 256])[..k - 1];
      assert (p + [n % 256])[k - 1] == (q + [m % 256])[k - 1];
      BigEndianInjective(n / 256, m / 256, k - 1);
    }
  }

  lemma Pow256Eight()
    ensures Pow256(8) == TWO64
  {
    assert Pow256(4) == 0x1_0000_0000;
    assert Pow256(6) == 0x1_0000_0000_0000;
  }

  lemma ToBeBytesInjective(n: nat, m: nat)
    requires IsU64(n) && IsU64(m) && ToBeBytes(n) == ToBeBytes(m)
    ensures n == m
  {
    Pow256Eight();
    BigEndianInjective(n, m, 8);
  }

  /** The number that a byte string denotes, its first byte weighing most. */
  function ValueOf(b: Bytes): nat { if |b| == 0 then 0 else b[0] * Pow256(|b| - 1) + ValueOf(b[1..]) }

  lemma {:induction false} ValueOfAppend(b: Bytes, x: Byte)
    ensures ValueOf(b + [x]) == 256 * ValueOf(b) + x
  {
    if |b| == 0 {
      assert b + [x] == [x] && Pow256(0) == 1 && ValueOf([x][1..]) == 0;
    } else {
      assert (b + [x])[1..] == b[1..] + [x];
      ValueOfAppend(b[1..], x);
      assert b[0] * Pow256(|b|) == 256 * (b[0] * Pow256(|b| - 1));
    }
  }

  lemma {:induction false} BigEndianValue(n: nat, k: nat)
    requires n < Pow256(k)
    ensures ValueOf(BigEndian(n, k)) == n
  {
    if k > 0 {
      BigEndianValue(n / 256, k - 1);
      ValueOfAppend(BigEndian(n / 256, k - 1), n % 256);
    }
  }

  /** The eight bytes of a 64-bit number denote it. */
  lemma ToBeBytesValue(n: nat)
    requires IsU64(n)
    ensures ValueOf(ToBeBytes(n)) == n
  {
    Pow256Eight();
    BigEndianValue(n, 8);
  }

  /** Lexicographic order on byte strings, a proper prefix being smaller. */
  predicate LexLess(a: Bytes, b: Bytes) {
    if |b| == 0 then false
    else if |a| == 0 then true
    else a[0] < b[0] || (a[0] == b[0] && LexLess(a[1..], b[1..]))
  }

  lemma {:induction false} LexAppend(a: Bytes, b: Bytes, x: Bytes, y: Bytes)
    requires |a| == |b|
    ensures LexLess(a + x, b + y) <==> LexLess(a, b) || (a == b && LexLess(x, y))
  {
    if |a| == 0 {
      assert a + x == x && b + y == y;
    } else {
      LexAppend(a[1..], b[1..], x, y);
      assert (a + x)[1..] == a[1..] + x && (b + y)[1..] == b[1..] + y;
      assert a == b <==> a[0] == b[0] && a[1..] == b[1..];
    }
  }

  lemma {:induction false} LexIrreflexive(a: Bytes)
    ensures !LexLess(a, a)
  {
    if |a| > 0 { LexIrreflexive(a[1..]); }
  }

  lemma {:induction false} BigEndianOrder(n: nat, m: nat, k: nat)
    requires n < Pow256(k) && m < Pow256(k)
    ensures LexLess(BigEndian(n, k), BigEndian(m, k)) <==> n < m
  {
    if k > 0 {
      BigEndianOrder(n / 256, m / 256, k - 1);
      LexAppend(BigEndian(n / 256, k - 1), BigEndian(m / 256, k - 1), [n % 256], [m % 256]);
      if BigEndian(n / 256, k - 1) == BigEndian(m / 256, k - 1) {
        BigEndianInjective(n / 256, m / 256, k - 1);
      }
    }
  }

  /** The ASCII bytes of "iterateConsensusStates". */
  const ITERATE_CONSENSUS_STATE_PREFIX: Bytes :=
    [105, 116, 101, 114, 97, 116, 101, 67, 111, 110, 115, 101, 110, 115, 117, 115, 83, 116, 97, 116, 101, 115]

  function HeightBytes(h: Height): (b: Bytes)
    ensures |b| == 16
  {
    ToBeBytes(h.revisionNumber) + ToBeBytes(h.revisionHeight)
  }

  function IterationKeyOf(h: Height): (key: Bytes) { ITERATE_CONSENSUS_STATE_PREFIX + HeightBytes(h) }

  method IterationKey(h: Height) returns (path: Bytes)
    ensures path == IterationKeyOf(h)
    ensures |path| == |ITERATE_CONSENSUS_STATE_PREFIX| + 16
  {
    path := [];
    path := path + ITERATE_CONSENSUS_STATE_PREFIX;
    path := path + ToBeBytes(h.revisionNumber);
    path := path + ToBeBytes(h.revisionHeight);
  }

  lemma HeightBytesOrder(a: Height, b: Height)
    requires IsU64(a.revisionNumber) && IsU64(a.revisionHeight)
    requires IsU64(b.revisionNumber) && IsU64(b.revisionHeight)
    ensures LexLess(HeightBytes(a), HeightBytes(b)) <==> Lt(a, b)
    ensures HeightBytes(a) == HeightBytes(b) <==> a == b
  {
    var an, ah, bn, bh := ToBeBytes(a.revisionNumber), ToBeBytes(a.revisionHeight),
                          ToBeBytes(b.revisionNumber), ToBeBytes(b.revisionHeight);
    Pow256Eight();
    LexAppend(an, bn, ah, bh);
    BigEndianOrder(a.revisionNumber, b.revisionNumber, 8);
    BigEndianOrder(a.revisionHeight, b.revisionHeight, 8);
    if an == bn { ToBeBytesInjective(a.revisionNumber, b.revisionNumber); }
    if an + ah == bn + bh {
      assert (an + ah)[..8] == an && (bn + bh)[..8] == bn && (an + ah)[8..] == ah && (bn + bh)[8..] == bh;
      ToBeBytesInjective(a.revisionHeight, b.revisionHeight);
    }
  }

  lemma CommonPrefix(p: Bytes, x: Bytes, y: Bytes)
    ensures LexLess(p + x, p + y) <==> LexLess(x, y)
    ensures p + x == p + y <==> x == y
  {
    LexIrreflexive(p);
    LexAppend(p, p, x, y);
    assert (p + x)[|p|..] == x && (p + y)[|p|..] == y;
  }

  /** Walking the keys in byte order is walking the heights in height order. */
  lemma IterationKeyOrder(a: Height, b: Height)
    requires IsU64(a.revisionNumber) && IsU64(a.revisionHeight)
    requires IsU64(b.revisionNumber) && IsU64(b.revisionHeight)
    ensures LexLess(IterationKeyOf(a), IterationKeyOf(b)) <==> Compare(a, b) == Less
    ensures IterationKeyOf(a) == IterationKeyOf(b) <==> a == b
  {
    CommonPrefix(ITERATE_CONSENSUS_STATE_PREFIX, HeightBytes(a), HeightBytes(b));
    HeightBytesOrder(a, b);
  }
}
