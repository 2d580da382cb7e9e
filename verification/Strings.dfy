/** Splitting and joining on a separator, and decimal integers, as Rust's standard library does them. */
module Strings {
  import opened Prelude

  /** `s.split(sep).collect()`: never empty, and "" splits into one empty part. */
  function Split(s: string, sep: char): (parts: seq<string>)
    ensures |parts| >= 1
    ensures forall i :: 0 <= i < |parts| ==> sep !in parts[i]
    ensures |parts| == 1 <==> sep !in s
  {
    if |s| == 0 then [""]
    else
      var rest := Split(s[1..], sep);
      if s[0] == sep then [""] + rest
      else [[s[0]] + rest[0]] + rest[1..]
  }

  /** `parts.join(sep)`. */
  function Join(parts: seq<string>, sep: char): (s: string)
    requires |parts| >= 1
  {
    if |parts| == 1 then parts[0] else parts[0] + [sep] + Join(parts[1..], sep)
  }

  lemma {:induction false} JoinSplit(s: string, sep: char)
    ensures Join(Split(s, sep), sep) == s
  {
    if |s| > 0 {
      JoinSplit(s[1..], sep);
      var rest := Split(s[1..], sep);
      if s[0] == sep {
        assert ([""] + rest)[1..] == rest;
      } else {
        var parts := [[s[0]] + rest[0]] + rest[1..];
        if |rest| > 1 { assert parts[1..] == rest[1..]; }
      }
    }
  }

  lemma {:induction false} SplitWord(w: string, sep: char)
    requires sep !in w
    ensures Split(w, sep) == [w]
  {
    if |w| > 0 {
      SplitWord(w[1..], sep);
      assert [w[0]] + w[1..] == w;
    }
  }

  lemma {:induction false} SplitFirst(w: string, t: string, sep: char)
    requires sep !in w
    ensures Split(w + [sep] + t, sep) == [w] + Split(t, sep)
  {
    var s := w + [sep] + t;
    if |w| == 0 {
      assert s[1..] == t;
    } else {
      assert s[1..] == w[1..] + [sep] + t;
      SplitFirst(w[1..], t, sep);
      assert [w[0]] + w[1..] == w;
    }
  }

  lemma {:induction false} SplitJoin(parts: seq<string>, sep: char)
    requires |parts| >= 1
    requires forall i :: 0 <= i < |parts| ==> sep !in parts[i]
    ensures Split(Join(parts, sep), sep) == parts
  {
    if |parts| == 1 {
      SplitWord(parts[0], sep);
    } else {
      SplitJoin(parts[1..], sep);
      SplitFirst(parts[0], Join(parts[1..], sep), sep);
    }
  }

  predicate IsDigit(c: char) { '0' <= c <= '9' }

  function DigitOf(d: nat): (c: char)
    requires d < 10
    ensures IsDigit(c) && c as int - '0' as int == d
  {
    '0' + d as char
  }

  /** `format!("{n}")` for an unsigned integer. */
  function Decimal(n: nat): (s: string)
    ensures |s| >= 1
    ensures forall i :: 0 <= i < |s| ==> IsDigit(s[i])
  {
    if n < 10 then [DigitOf(n)] else Decimal(n / 10) + [DigitOf(n % 10)]
  }

  /** The value of a string of digits. */
  function DigitsValue(s: string): (n: nat)
    requires forall i :: 0 <= i < |s| ==> IsDigit(s[i])
  {
    if |s| == 0 then 0
    else
      assert IsDigit(s[|s| - 1]);
      DigitsValue(s[..|s| - 1]) * 10 + (s[|s| - 1] as int - '0' as int)
  }

  /** `s.parse::<u64>()`: an optional plus sign, at least one digit, no overflow. */
  function ParseU64(s: string): (r: Option<nat>)
    ensures r.Some? ==> IsU64(r.value)
  {
    var digits := if |s| > 0 && s[0] == '+' then s[1..] else s;
    if |digits| == 0 then None
    else if exists i :: 0 <= i < |digits| && !IsDigit(digits[i]) then None
    else
      var n := DigitsValue(digits);
      if IsU64(n) then Some(n) else None
  }

  lemma {:induction false} DecimalValue(n: nat)
    ensures DigitsValue(Decimal(n)) == n
  {
    var s := Decimal(n);
    if n < 10 {
      assert s[..|s| - 1] == "";
    } else {
      DecimalValue(n / 10);
      assert s[..|s| - 1] == Decimal(n / 10);
    }
  }

  lemma ParseDecimal(n: nat)
    requires IsU64(n)
    ensures ParseU64(Decimal(n)) == Some(n)
  {
    DecimalValue(n);
    assert IsDigit(Decimal(n)[0]);
  }

  /** How an unsigned number is printed: digits only, without a leading zero. */
  predicate CanonicalNumber(s: string) {
    |s| > 0 && (forall i :: 0 <= i < |s| ==> IsDigit(s[i])) && (|s| > 1 ==> s[0] != '0')
  }

  lemma {:induction false} DecimalIsCanonical(n: nat)
    ensures CanonicalNumber(Decimal(n)) && (n > 0 ==> Decimal(n)[0] != '0')
  {
    if n >= 10 { DecimalIsCanonical(n / 10); }
  }

  lemma {:induction false} PositiveDigits(s: string)
    requires CanonicalNumber(s) && |s| > 1
    ensures DigitsValue(s) >= 10
  {
    var front := s[..|s| - 1];
    assert IsDigit(s[0]) && IsDigit(s[|s| - 1]);
    if |front| > 1 {
      PositiveDigits(front);
    } else {
      assert front[..0] == "" && DigitsValue(front) == s[0] as int - '0' as int;
    }
  }

  lemma {:induction false} CanonicalDecimal(s: string)
    requires CanonicalNumber(s)
    ensures Decimal(DigitsValue(s)) == s
  {
    var front, n := s[..|s| - 1], DigitsValue(s);
    assert IsDigit(s[|s| - 1]);
    if |s| > 1 {
      PositiveDigits(s);
      CanonicalDecimal(front);
      assert n / 10 == DigitsValue(front) && s == front + [s[|s| - 1]];
    } else {
      assert front == "" && s == [s[0]];
    }
  }

  lemma {:induction false} LeadingZero(s: string)
    requires |s| > 0 && forall i :: 0 <= i < |s| ==> IsDigit(s[i])
    ensures (forall i :: 0 <= i < |"0" + s| ==> IsDigit(("0" + s)[i])) && DigitsValue("0" + s) == DigitsValue(s)
  {
    var z := "0" + s;
    assert forall i :: 0 <= i < |z| ==> z[i] == if i == 0 then '0' else s[i - 1];
    if |s| == 1 {
      assert z[..1] == "0" && "0"[..0] == "" && s[..0] == "";
    } else {
      LeadingZero(s[..|s| - 1]);
      assert z[..|z| - 1] == "0" + s[..|s| - 1] && z[|z| - 1] == s[|s| - 1];
    }
  }

  /** A parsed number prints as the text it was read from exactly when that text was canonical. */
  lemma ReprintsExactly(s: string)
    requires ParseU64(s).Some?
    ensures Decimal(ParseU64(s).value) == s <==> CanonicalNumber(s)
  {
    DecimalIsCanonical(ParseU64(s).value);
    if CanonicalNumber(s) {
      assert IsDigit(s[0]);
      CanonicalDecimal(s);
    }
  }

  lemma DecimalInjective(a: nat, b: nat)
    requires Decimal(a) == Decimal(b)
    ensures a == b
  {
    DecimalValue(a);
    DecimalValue(b);
  }

  lemma DecimalHasNo(n: nat, c: char)
    requires !IsDigit(c)
    ensures c !in Decimal(n)
  {
  }

  function Pow10(k: nat): nat { if k == 0 then 1 else 10 * Pow10(k - 1) }

  lemma {:induction false} DecimalLength(n: nat, k: nat)
    requires 1 <= k && n < Pow10(k)
    ensures |Decimal(n)| <= k
  {
    if n >= 10 {
      assert Pow10(1) == 10 * Pow10(0);
      DecimalLength(n / 10, k - 1);
    }
  }

  lemma TenToTheTwenty()
    ensures TWO64 <= Pow10(20)
  {
    assert Pow10(5) == 100000;
    assert Pow10(10) == 100000 * Pow10(5);
    assert Pow10(15) == 100000 * Pow10(10);
    assert Pow10(20) == 100000 * Pow10(15);
  }

  /** The identifier `{prefix}-{counter}` built for clients, connections and channels. */
  function Numbered(prefix: string, counter: nat): (id: string) { prefix + "-" + Decimal(counter) }

  lemma NumberedInjective(prefix: string, a: nat, b: nat)
    requires Numbered(prefix, a) == Numbered(prefix, b)
    ensures a == b
  {
    var n := |prefix| + 1;
    assert Numbered(prefix, a)[n..] == Decimal(a);
    assert Numbered(prefix, b)[n..] == Decimal(b);
    DecimalInjective(a, b);
  }
}
