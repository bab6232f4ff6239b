/** Shared vocabulary: bytes, big-endian words, saturating arithmetic, and sums over maps. */
module Base {

  datatype Option<+T> = None | Some(value: T)

  type byte = b: int | 0 <= b < 256
  type bytes = seq<byte>

  function Min(a: nat, b: nat): nat { if a < b then a else b }

  function Max(a: nat, b: nat): nat { if a < b then b else a }

  /** Rust's `saturating_sub` on unsigned integers. */
  function Monus(a: nat, b: nat): nat { if a < b then 0 else a - b }

  /** The concatenation of a list of byte strings. */
  function Concat(parts: seq<bytes>): bytes {
    if parts == [] then [] else Concat(parts[..|parts| - 1]) + parts[|parts| - 1]
  }

  lemma ConcatSnoc(parts: seq<bytes>, last: bytes)
    ensures Concat(parts + [last]) == Concat(parts) + last
  {
    assert (parts + [last])[..|parts|] == parts;
  }

  lemma {:induction false} ConcatAppend(a: seq<bytes>, b: seq<bytes>)
    ensures Concat(a + b) == Concat(a) + Concat(b)
    decreases |b|
  {
    if b == [] {
      assert a + b == a;
    } else {
      var b0, last := b[..|b| - 1], b[|b| - 1];
      assert b == b0 + [last] && a + b == (a + b0) + [last];
      ConcatAppend(a, b0);
      ConcatSnoc(a + b0, last);
      ConcatSnoc(b0, last);
    }
  }

  // ---------------------------------------------------------------- big-endian words

  /** 256 to the power `width`: the number of values a `width`-byte word can hold. */
  function Words(width: nat): nat
    ensures Words(width) > 0
  {
    if width == 0 then 1 else 256 * Words(width - 1)
  }

  /** The low `width` bytes of `n`, most significant first (`to_be_bytes`). */
  function BE(n: nat, width: nat): (r: bytes)
    ensures |r| == width
  {
    if width == 0 then [] else BE(n / 256, width - 1) + [n % 256]
  }

  function FromBE(s: bytes): nat {
    if s == [] then 0 else FromBE(s[..|s| - 1]) * 256 + s[|s| - 1]
  }

  lemma {:induction false} BERoundTrip(n: nat, width: nat)
    requires n < Words(width)
    ensures FromBE(BE(n, width)) == n
  {
    if width > 0 {
      BERoundTrip(n / 256, width - 1);
      assert BE(n, width)[..width - 1] == BE(n / 256, width - 1);
    }
  }

  lemma {:induction false} BEInverse(s: bytes)
    ensures BE(FromBE(s), |s|) == s
  {
    if s != [] {
      BEInverse(s[..|s| - 1]);
      assert FromBE(s) / 256 == FromBE(s[..|s| - 1]) && FromBE(s) % 256 == s[|s| - 1];
    }
  }

  /** The first byte is the most significant one. */
  lemma {:induction false} BigEndian(n: nat, width: nat, i: nat)
    requires i < width
    ensures |BE(n, width)| == width && BE(n, width)[i] == n / Words(width - 1 - i) % 256
    decreases width
  {
    if i < width - 1 {
      BigEndian(n / 256, width - 1, i);
      QuotientTwice(n, Words(width - 2 - i));
      assert BE(n, width)[..width - 1] == BE(n / 256, width - 1);
    }
  }

  lemma QuotientTwice(n: nat, d: nat)
    requires d > 0
    ensures n / 256 / d == n / (256 * d)
  {
    var a, b := n / 256, n / 256 / d;
    assert n == 256 * a + n % 256 && a == d * b + a % d;
    assert n == (256 * d) * b + (256 * (a % d) + n % 256);
    assert 256 * (a % d) + n % 256 < 256 * d;
    QuotientIs(n, 256 * d, b, 256 * (a % d) + n % 256);
  }

  lemma QuotientIs(n: nat, d: nat, q: nat, rest: nat)
    requires n == d * q + rest && rest < d
    ensures n / d == q
  {
    var x := n / d;
    assert n == d * x + n % d;
    if x < q {
      OneMoreTime(d, x, q);
    } else if x > q {
      OneMoreTime(d, q, x);
    }
  }

  lemma OneMoreTime(d: nat, a: nat, b: nat)
    requires a < b
    ensures d * a + d <= d * b
  {
    var rest := b - a - 1;
    assert b == a + 1 + rest;
    assert d * (a + 1 + rest) == d * a + d + d * rest;
    assert d * rest >= 0;
  }

  lemma {:induction false} FromBEBound(s: bytes)
    ensures FromBE(s) < Words(|s|)
  {
    if s != [] {
      FromBEBound(s[..|s| - 1]);
    }
  }

  lemma WordSizes()
    ensures Words(2) == 0x1_0000 && Words(3) == 0x100_0000 && Words(4) == 0x1_0000_0000
    ensures Words(8) == 0x1_0000_0000_0000_0000
  {
    assert Words(1) == 256;
    assert Words(2) == 0x1_0000;
    assert Words(3) == 0x100_0000;
    assert Words(4) == 0x1_0000_0000;
    assert Words(5) == 0x100_0000_0000;
    assert Words(6) == 0x1_0000_0000_0000;
    assert Words(7) == 0x100_0000_0000_0000;
  }

  // ---------------------------------------------------------------- sizes and sums

  lemma SubsetSize<T>(a: set<T>, b: set<T>)
    requires a <= b
    ensures |a| <= |b|
  {
    assert b == a + (b - a);
  }

  /** The sum of a map's values. */
  ghost function Sum<K>(m: map<K, nat>): nat {
    if m == map[] then 0
    else
      var k :| k in m;
      m[k] + Sum(m - {k})
  }

  lemma {:induction false} SumSplit<K>(m: map<K, nat>, k: K)
    requires k in m
    ensures Sum(m) == m[k] + Sum(m - {k})
    decreases |m|
  {
    var j :| j in m && Sum(m) == m[j] + Sum(m - {j});
    if j != k {
      SumSplit(m - {j}, k);
      SumSplit(m - {k}, j);
      assert (m - {j}) - {k} == (m - {k}) - {j};
    }
  }

  lemma SumUpdate<K>(m: map<K, nat>, k: K, v: nat)
    ensures Sum(m[k := v]) + (if k in m then m[k] else 0) == Sum(m) + v
    ensures Sum(m - {k}) + (if k in m then m[k] else 0) == Sum(m)
  {
    var m' := m[k := v];
    SumSplit(m', k);
    assert m' - {k} == m - {k};
    if k in m {
      SumSplit(m, k);
    } else {
      assert m - {k} == m;
    }
  }

  lemma MulStep(n: nat, cap: nat)
    ensures (n + 1) * cap == n * cap + cap
  {}

  /** If every value is at most `cap`, the sum is at most `cap` for each entry. */
  lemma {:induction false} SumBound<K>(m: map<K, nat>, cap: nat)
    requires forall k :: k in m ==> m[k] <= cap
    ensures Sum(m) <= |m.Keys| * cap
    decreases |m|
  {
    if k :| k in m {
      var rest := m - {k};
      assert rest.Keys == m.Keys - {k};
      SumSplit(m, k);
      SumBound(rest, cap);
      MulStep(|rest.Keys|, cap);
    } else {
      assert m == map[];
    }
  }

  /** If every value is at most its counterpart and `cap` more, so are the sums, for each entry. */
  lemma {:induction false} SumsCompare<K>(m: map<K, nat>, m': map<K, nat>, cap: nat)
    requires m.Keys == m'.Keys && forall k :: k in m ==> m[k] <= m'[k] + cap
    ensures Sum(m) <= Sum(m') + |m.Keys| * cap
    decreases |m|
  {
    if k :| k in m {
      var rest, rest' := m - {k}, m' - {k};
      assert rest.Keys == m.Keys - {k} == rest'.Keys;
      assert k in m';
      SumSplit(m, k);
      SumSplit(m', k);
      SumsCompare(rest, rest', cap);
      MulStep(|rest.Keys|, cap);
    } else {
      assert m == map[];
    }
  }

  /** Every value is part of the sum. */
  lemma SumMember<K>(m: map<K, nat>, k: K)
    requires k in m
    ensures m[k] <= Sum(m)
  {
    SumSplit(m, k);
  }
}
