/** Shared vocabulary: options, bytes, and finite sums used by the accounting proofs. */
module Prelude {

  datatype Option<+T> = None | Some(value: T)

  type Byte = x: int | 0 <= x < 256
  type Bytes = seq<Byte>

  const TWO64: nat := 0x1_0000_0000_0000_0000

  predicate IsU64(n: nat) { n < TWO64 }

  /** A map read with a default of zero. */
  function Get<K>(m: map<K, nat>, k: K): (v: nat) { if k in m then m[k] else 0 }

  ghost function Pick<K(!new)>(m: map<K, nat>): (k: K)
    requires |m| > 0
    ensures k in m
  {
    var k :| k in m; k
  }

  /** Sum of all values of a finite map. */
  ghost function SumMap<K(!new)>(m: map<K, nat>): nat {
    if |m| == 0 then 0 else m[Pick(m)] + SumMap(m - {Pick(m)})
  }

  lemma {:induction false} SumMapRemove<K(!new)>(m: map<K, nat>, k: K)
    requires k in m
    ensures SumMap(m) == m[k] + SumMap(m - {k})
    decreases |m|
  {
    var j := Pick(m);
    if j != k {
      SumMapRemove(m - {j}, k);
      SumMapRemove(m - {k}, j);
      assert m - {j} - {k} == m - {k} - {j};
    }
  }

  /** Writing one entry moves the sum by exactly the change of that entry. */
  lemma {:induction false} SumMapUpdate<K(!new)>(m: map<K, nat>, k: K, v: nat)
    ensures SumMap(m[k := v]) == SumMap(m) - Get(m, k) + v
    ensures Get(m, k) <= SumMap(m)
  {
    hide SumMap;
    SumMapRemove(m[k := v], k);
    if k in m {
      SumMapRemove(m, k);
      assert m[k := v] - {k} == m - {k};
    } else {
      assert m[k := v] - {k} == m;
    }
  }
}
