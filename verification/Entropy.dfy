/** The driver's integer entropy test: an index of coincidence over a byte histogram. */
module Entropy {
  import opened LittleEndian

  newtype ULong = x: int | 0 <= x < 0x1_0000_0000
  newtype UInt64 = x: int | 0 <= x < 0x1_0000_0000_0000_0000

  const SAMPLE := 4096
  const SHORTEST := 256

  // ----- histograms -----

  function Count(s: seq<Byte>, b: Byte): (c: nat)
    ensures c <= |s|
  {
    if s == [] then 0 else Count(s[..|s| - 1], b) + if s[|s| - 1] == b then 1 else 0
  }

  ghost function Histogram(s: seq<Byte>): (h: seq<nat>)
    ensures |h| == 256 && forall b: Byte :: h[b] == Count(s, b)
  {
    seq(256, i requires 0 <= i < 256 => Count(s, i as Byte))
  }

  ghost function Sum(h: seq<nat>): nat {
    if h == [] then 0 else Sum(h[..|h| - 1]) + h[|h| - 1]
  }

  ghost function SumOfSquares(h: seq<nat>): nat {
    if h == [] then 0 else SumOfSquares(h[..|h| - 1]) + h[|h| - 1] * h[|h| - 1]
  }

  ghost function Support(h: seq<nat>): nat {
    if h == [] then 0 else Support(h[..|h| - 1]) + if h[|h| - 1] > 0 then 1 else 0
  }

  // The number of position pairs that hold the same value: what the sum of squares counts.
  ghost function EqualPairs(s: seq<Byte>, t: seq<Byte>): nat {
    if s == [] then 0 else EqualPairs(s[..|s| - 1], t) + Count(t, s[|s| - 1])
  }

  ghost function Sample(s: seq<Byte>): seq<Byte> {
    if |s| < SAMPLE then s else s[..SAMPLE]
  }

  // At least 256 bytes, and fewer than one pair of positions in 64 coincides.
  ghost predicate High(s: seq<Byte>) {
    |Sample(s)| >= SHORTEST && 64 * EqualPairs(Sample(s), Sample(s)) < |Sample(s)| * |Sample(s)|
  }

  // ----- adding one byte -----

  lemma {:induction false} SumBump(h: seq<nat>, i: nat)
    requires i < |h|
    ensures Sum(h[i := h[i] + 1]) == Sum(h) + 1
    ensures SumOfSquares(h[i := h[i] + 1]) == SumOfSquares(h) + 2 * h[i] + 1
    decreases |h|
  {
    var n := |h| - 1;
    if i == n {
      assert h[i := h[i] + 1][..n] == h[..n];
    } else {
      SumBump(h[..n], i);
      assert h[i := h[i] + 1][..n] == h[..n][i := h[i] + 1];
    }
  }

  lemma HistogramNext(s: seq<Byte>, x: Byte)
    ensures Histogram(s + [x]) == Histogram(s)[x as int := Count(s, x) + 1]
  {
    assert (s + [x])[..|s|] == s;
  }

  lemma {:induction false} PairsBump(s: seq<Byte>, t: seq<Byte>, x: Byte)
    ensures EqualPairs(s, t + [x]) == EqualPairs(s, t) + Count(s, x)
    decreases |s|
  {
    if s != [] {
      PairsBump(s[..|s| - 1], t, x);
      assert (t + [x])[..|t|] == t;
    }
  }

  lemma {:induction false} Zeros(h: seq<nat>)
    requires forall i | 0 <= i < |h| :: h[i] == 0
    ensures Sum(h) == SumOfSquares(h) == 0
    decreases |h|
  {
    if h != [] {
      Zeros(h[..|h| - 1]);
    }
  }

  lemma {:induction false} SquaresArePairs(s: seq<Byte>)
    ensures Sum(Histogram(s)) == |s| && SumOfSquares(Histogram(s)) == EqualPairs(s, s)
    decreases |s|
  {
    if s == [] {
      Zeros(Histogram(s));
    } else {
      var r, x := s[..|s| - 1], s[|s| - 1];
      assert s == r + [x] && s[..|s| - 1] == r;
      SquaresArePairs(r);
      HistogramNext(r, x);
      SumBump(Histogram(r), x as int);
      PairsBump(r, r, x);
    }
  }

  // ----- pairs, counted as pairs -----

  ghost function Coincidences(s: seq<Byte>, t: seq<Byte>): set<(nat, nat)> {
    set i: nat, j: nat | i < |s| && j < |t| && s[i] == t[j] :: (i, j)
  }

  ghost function Row(t: seq<Byte>, i: nat, b: Byte): set<(nat, nat)> {
    set j: nat | j < |t| && t[j] == b :: (i, j)
  }

  lemma {:induction false} RowCount(t: seq<Byte>, i: nat, b: Byte)
    ensures |Row(t, i, b)| == Count(t, b)
    decreases |t|
  {
    if t == [] {
      assert Row(t, i, b) == {};
    } else {
      var n := |t| - 1;
      RowCount(t[..n], i, b);
      assert Row(t, i, b) == Row(t[..n], i, b) + if t[n] == b then {(i, n)} else {};
    }
  }

  // The sum of squares is the number of pairs of positions that hold the same byte.
  lemma {:induction false} PairsAreCoincidences(s: seq<Byte>, t: seq<Byte>)
    ensures EqualPairs(s, t) == |Coincidences(s, t)|
    decreases |s|
  {
    hide Count;
    if s == [] {
      assert Coincidences(s, t) == {};
    } else {
      var n := |s| - 1;
      PairsAreCoincidences(s[..n], t);
      RowCount(t, n, s[n]);
      assert Coincidences(s, t) == Coincidences(s[..n], t) + Row(t, n, s[n]);
      assert Coincidences(s[..n], t) !! Row(t, n, s[n]);
    }
  }

  // ----- the bounds -----

  lemma {:induction false} CauchySchwarz(h: seq<nat>)
    ensures Sum(h) * Sum(h) <= Support(h) * SumOfSquares(h)
    decreases |h|
  {
    if h != [] {
      var r, a := h[..|h| - 1], h[|h| - 1];
      CauchySchwarz(r);
      if a > 0 {
        CauchySchwarzStep(Sum(r), SumOfSquares(r), Support(r), a);
      }
    }
  }

  lemma CauchySchwarzStep(s: nat, q: nat, k: nat, a: nat)
    requires s * s <= k * q
    ensures (s + a) * (s + a) <= (k + 1) * (q + a * a)
  {
    if k == 0 {
      if s > 0 {
        ProductPositive(s, s);
      }
    } else {
      var d := s - k * a;
      assert d * d >= 0;
      assert d * d == s * s - 2 * (k * a) * s + k * a * (k * a);
      assert k * (q + k * (a * a) - 2 * a * s) >= 0;
      Positive(k, q + k * (a * a) - 2 * a * s);
    }
  }

  lemma Positive(k: int, x: int)
    requires k > 0 && k * x >= 0
    ensures x >= 0
  {
    if x < 0 {
      ProductPositive(k, -x);
    }
  }

  lemma ProductPositive(x: int, y: int)
    requires x > 0 && y > 0
    ensures x * y > 0
  {
  }

  lemma ProductMonotone(x: nat, y: nat, x': nat, y': nat)
    requires x <= x' && y <= y'
    ensures x * y <= x' * y'
  {
    assert x * y <= x' * y;
    assert x' * y <= x' * y';
  }

  lemma {:induction false} SquaresAtLeast(h: seq<nat>, i: nat)
    requires i < |h|
    ensures SumOfSquares(h) >= h[i] * h[i]
    decreases |h|
  {
    if i < |h| - 1 {
      SquaresAtLeast(h[..|h| - 1], i);
    }
  }

  lemma {:induction false} SquaresAtMost(h: seq<nat>, m: nat)
    requires forall i | 0 <= i < |h| :: h[i] <= m
    ensures SumOfSquares(h) <= m * Sum(h)
    decreases |h|
  {
    if h != [] {
      SquaresAtMost(h[..|h| - 1], m);
      var a := h[|h| - 1];
      ProductMonotone(a, a, m, a);
      assert m * Sum(h) == m * Sum(h[..|h| - 1]) + m * a;
    }
  }

  lemma {:induction false} SupportIsValues(h: seq<nat>, values: set<nat>)
    requires forall i | 0 <= i < |h| && h[i] > 0 :: i in values
    ensures Support(h) <= |values|
    decreases |h|
  {
    if h != [] {
      var n := |h| - 1;
      SupportIsValues(h[..n], values - {n});
    }
  }

  lemma {:induction false} CountedIsIn(s: seq<Byte>, b: Byte)
    ensures Count(s, b) > 0 <==> b in s
    decreases |s|
  {
    if s != [] {
      CountedIsIn(s[..|s| - 1], b);
      assert s == s[..|s| - 1] + [s[|s| - 1]];
    }
  }

  ghost function Values(s: seq<Byte>): set<nat> {
    set b | b in s :: b as nat
  }

  // At most 64 different values in the sample is never high entropy.
  lemma FewValues(s: seq<Byte>)
    requires |Values(Sample(s))| <= 64
    ensures !High(s)
  {
    hide Sample, Histogram, Sum, SumOfSquares, EqualPairs, Support;
    var t := Sample(s);
    var h := Histogram(t);
    SquaresArePairs(t);
    CauchySchwarz(h);
    forall i | 0 <= i < |h| && h[i] > 0
      ensures i in Values(t)
    {
      CountedIsIn(t, i as Byte);
      assert (i as Byte) as nat == i;
    }
    SupportIsValues(h, Values(t));
    ProductMonotone(Support(h), SumOfSquares(h), 64, SumOfSquares(h));
  }

  // One value in an eighth of the sample is never high entropy.
  lemma FrequentValue(s: seq<Byte>, b: Byte)
    requires 8 * Count(Sample(s), b) >= |Sample(s)|
    ensures !High(s)
  {
    hide Sample, Histogram, EqualPairs, SumOfSquares, Count, Sum;
    var t := Sample(s);
    SquaresArePairs(t);
    SquaresAtLeast(Histogram(t), b as nat);
    EighthSquared(|t|, Count(t, b));
  }

  lemma EighthSquared(n: nat, c: nat)
    requires 8 * c >= n
    ensures 64 * (c * c) >= n * n
  {
    ProductMonotone(n, n, 8 * c, 8 * c);
    assert (8 * c) * (8 * c) == 64 * (c * c);
  }

  // No value in as much as a 64th of the sample always is.
  lemma EvenSpread(s: seq<Byte>)
    requires |s| >= 256 && forall b: Byte :: 64 * Count(Sample(s), b) < |Sample(s)|
    ensures High(s)
  {
    hide Histogram, EqualPairs, SumOfSquares, Count, Sum;
    var t := Sample(s);
    var n, m := |t|, (|t| - 1) / 64;
    SquaresArePairs(t);
    SquaresAtMost(Histogram(t), m);
    ProductPositive(n - 64 * m, n);
    assert (n - 64 * m) * n == n * n - 64 * (m * n);
  }

  // ----- the routine -----

  ghost predicate Counts(hist: seq<ULong>, s: seq<Byte>) {
    |hist| == 256 && forall i | 0 <= i < 256 :: hist[i] as int == Histogram(s)[i]
  }

  lemma CountsNext(hist: seq<ULong>, s: seq<Byte>, x: Byte)
    requires Counts(hist, s) && |s| < SAMPLE
    ensures hist[x as int] < SAMPLE as ULong && Counts(hist[x as int := hist[x as int] + 1], s + [x])
  {
    HistogramNext(s, x);
  }

  method CountBytes(buf: array<Byte>, n: ULong) returns (hist: array<ULong>)
    requires n as int <= buf.Length && n as int <= SAMPLE
    ensures fresh(hist) && Counts(hist[..], buf[..n as int])
  {
    hide Counts;
    hist := new ULong[256](_ => 0);
    NothingCounted(hist[..]);
    assert buf[..0] == [];
    for i: ULong := 0 to n
      invariant Counts(hist[..], buf[..i as int])
    {
      ghost var before := hist[..];
      CountsSize(before, buf[..i as int]);
      CountsNext(before, buf[..i as int], buf[i as int]);
      assert buf[..i as int + 1] == buf[..i as int] + [buf[i as int]];
      hist[buf[i as int] as int] := hist[buf[i as int] as int] + 1;
      assert hist[..] == before[buf[i as int] as int := before[buf[i as int] as int] + 1];
    }
  }

  method SumSquares(hist: array<ULong>, ghost s: seq<Byte>) returns (sumsq: UInt64)
    requires Counts(hist[..], s) && |s| <= SAMPLE
    ensures sumsq as int == EqualPairs(s, s) <= 256 * 0x100_0000
  {
    SquaresArePairs(s);
    CountsSize(hist[..], s);
    ghost var h := Histogram(s);
    hide Counts, Histogram, EqualPairs, SumOfSquares;
    sumsq := 0;
    EmptySum();
    assert h[..0] == [];
    for i := 0 to 256
      invariant sumsq as int == SumOfSquares(h[..i]) <= i * 0x100_0000
    {
      var c := hist[i] as UInt64;
      CountAt(hist[..], s, i);
      NextSquare(h, i);
      ProductMonotone(h[i], h[i], SAMPLE, SAMPLE);
      sumsq := sumsq + c * c;
    }
    assert h[..256] == h;
  }

  // The machine widths are the types': that no sum or product leaves them is part of this proof.
  method IsHighEntropy(buf: array?<Byte>, len: ULong) returns (high: bool)
    requires buf != null ==> len as int <= buf.Length
    ensures high == (buf != null && High(buf[..len as int]))
    ensures buf == null || len < 256 ==> !high
    ensures buf != null && len >= 256 ==>
      var n := if len < 4096 then len as int else 4096;
      high <==> 64 * |Coincidences(buf[..n], buf[..n])| < n * n
  {
    if buf == null {
      return false;
    }
    var n: ULong := if len < SAMPLE as ULong then len else SAMPLE as ULong;
    assert Sample(buf[..len as int]) == buf[..n as int];
    PairsAreCoincidences(buf[..n as int], buf[..n as int]);
    if n < SHORTEST as ULong {
      return false;
    }
    hide Counts, Sample, EqualPairs, Coincidences;
    var hist := CountBytes(buf, n);
    var sumsq := SumSquares(hist, buf[..n as int]);
    ProductMonotone(n as int, n as int, SAMPLE, SAMPLE);
    high := sumsq * 64 < (n as UInt64) * (n as UInt64);
  }

  lemma NothingCounted(hist: seq<ULong>)
    requires |hist| == 256 && forall i | 0 <= i < 256 :: hist[i] == 0
    ensures Counts(hist, [])
  {
  }

  lemma CountsSize(hist: seq<ULong>, s: seq<Byte>)
    requires Counts(hist, s)
    ensures |hist| == 256
  {
  }

  lemma CountAt(hist: seq<ULong>, s: seq<Byte>, i: nat)
    requires Counts(hist, s) && i < 256 && |s| <= SAMPLE
    ensures |hist| == 256 && hist[i] as int == Histogram(s)[i] <= SAMPLE
  {
  }

  lemma EmptySum()
    ensures SumOfSquares([]) == 0
  {
  }

  lemma NextSquare(h: seq<nat>, i: nat)
    requires i < |h|
    ensures SumOfSquares(h[..i + 1]) == SumOfSquares(h[..i]) + h[i] * h[i]
  {
    assert h[..i + 1][..i] == h[..i];
  }
}
