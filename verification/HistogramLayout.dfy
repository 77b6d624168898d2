/** The bucket layout of the HDR-style histogram: which counter a latency falls
    into, and which latencies a counter stands for.

    Shifts and masks are written as the arithmetic they perform on the values
    the layout reaches: `x >> k` is x / 2^k, `x << k` is x * 2^k, `x & (2^k - 1)`
    is x % 2^k, and `v | (2^k - 1)` sets the low k bits of v.
 */
module HistogramLayout {

  const SIGNIFICANT_FIGURES := 3
  // One hour in nanoseconds.
  const MAX_TRACKABLE := 3_600_000_000_000
  // ceil(log2(2 * 10^SIGNIFICANT_FIGURES)); MagnitudeCoversFigures justifies it.
  const SUB_BUCKET_MAGNITUDE := 11
  const SUB_BUCKET_COUNT := 2048
  const HALF_COUNT := 1024
  const HALF_MAGNITUDE := 10
  const SUB_BUCKET_MASK := 2047
  const LEADING_ZERO_BASE := 53
  const BUCKET_COUNT := 32
  const COUNTS_LENGTH := 33792

  function Pow2(n: nat): (p: nat)
    ensures p >= 1
  {
    if n == 0 then 1 else 2 * Pow2(n - 1)
  }

  function Pow10(n: nat): nat {
    if n == 0 then 1 else 10 * Pow10(n - 1)
  }

  /** Number of significant bits of x. */
  function BitLen(x: nat): nat {
    if x == 0 then 0 else 1 + BitLen(x / 2)
  }

  function LeadingZeros64(x: nat): int {
    64 - BitLen(x)
  }

  /** Go's conversion of an int64 to int32: keep the low 32 bits, as signed. */
  function ToInt32(x: int): int {
    (x + 0x8000_0000) % 0x1_0000_0000 - 0x8000_0000
  }

  /** v | SUB_BUCKET_MASK */
  function OrMask(v: nat): nat {
    v / SUB_BUCKET_COUNT * SUB_BUCKET_COUNT + SUB_BUCKET_MASK
  }

  function BucketIndex(v: nat): int {
    LEADING_ZERO_BASE - LeadingZeros64(OrMask(v))
  }

  /** A recorded value after clamping to [0, MAX_TRACKABLE]. */
  function Clamp(v: int): (c: nat)
    ensures c <= MAX_TRACKABLE
  {
    if v < 0 then 0 else if v > MAX_TRACKABLE then MAX_TRACKABLE else v
  }

  /** What clamping does, value by value. */
  lemma ClampExact(v: int)
    ensures 0 <= v <= 3_600_000_000_000 ==> Clamp(v) == v
    ensures v < 0 ==> Clamp(v) == 0
    ensures v > 3_600_000_000_000 ==> Clamp(v) == 3_600_000_000_000
  {
  }

  function CountsIndex(v: nat): int {
    var bucketIdx := BucketIndex(v);
    BucketIndexRange(v);
    var subBucketIdx := ToInt32(v / Pow2(bucketIdx));
    (bucketIdx + 1) * HALF_COUNT + subBucketIdx - HALF_COUNT
  }

  /** The bucket a counter belongs to: (idx >> HALF_MAGNITUDE) - 1, or 0. */
  function BucketOf(idx: nat): nat {
    var bucketIdx := idx / HALF_COUNT - 1;
    if bucketIdx < 0 then 0 else bucketIdx
  }

  function ValueAt(idx: nat): nat {
    var bucketIdx := idx / HALF_COUNT - 1;
    var subBucketIdx := idx % HALF_COUNT + HALF_COUNT;
    if bucketIdx < 0 then
      subBucketIdx - HALF_COUNT
    else
      subBucketIdx * Pow2(bucketIdx)
  }

  function HighestEquivalent(idx: nat): nat {
    ValueAt(idx) + Pow2(BucketOf(idx)) - 1
  }

  // ----- powers of two and bit lengths

  lemma Pow2Values()
    ensures Pow2(10) == 1024 && Pow2(11) == 2048
    ensures Pow2(30) == 0x4000_0000 && Pow2(31) == 0x8000_0000
  {
    assert Pow2(5) == 32;
    assert Pow2(10) == 1024;
    assert Pow2(15) == 32768;
    assert Pow2(20) == 1048576;
    assert Pow2(25) == 33554432;
    assert Pow2(30) == 1073741824;
  }

  lemma Pow2Add(a: nat, b: nat)
    ensures Pow2(a + b) == Pow2(a) * Pow2(b)
  {
    if b != 0 {
      Pow2Add(a, b - 1);
    }
  }

  lemma Pow2Monotone(a: nat, b: nat)
    requires a <= b
    ensures Pow2(a) <= Pow2(b)
  {
    if a < b {
      Pow2Monotone(a, b - 1);
    }
  }

  /** A number has exactly BitLen bits. */
  lemma {:induction false} BitLenRange(x: nat)
    requires x > 0
    ensures BitLen(x) >= 1
    ensures Pow2(BitLen(x) - 1) <= x < Pow2(BitLen(x))
  {
    if x > 1 {
      BitLenRange(x / 2);
    }
  }

  lemma {:induction false} Pow2Double(a: nat, b: nat)
    requires a < b
    ensures 2 * Pow2(a) <= Pow2(b)
  {
    Pow2Monotone(a + 1, b);
  }

  lemma BitLenAtLeast(x: nat, n: nat)
    requires Pow2(n) <= x
    ensures BitLen(x) > n
  {
    BitLenRange(x);
    if BitLen(x) <= n {
      Pow2Monotone(BitLen(x), n);
    }
  }

  lemma BitLenAtMost(x: nat, n: nat)
    requires 0 < x < Pow2(n)
    ensures BitLen(x) <= n
  {
    BitLenRange(x);
    if BitLen(x) > n {
      Pow2Monotone(n, BitLen(x) - 1);
    }
  }

  lemma MulMonotone(a: nat, b: nat, p: nat)
    requires a <= b
    ensures a * p <= b * p
  {
  }

  /** The constructor's magnitude is the smallest that resolves the figures. */
  lemma MagnitudeCoversFigures()
    ensures Pow2(SUB_BUCKET_MAGNITUDE - 1) < 2 * Pow10(SIGNIFICANT_FIGURES) <= Pow2(SUB_BUCKET_MAGNITUDE)
    ensures SUB_BUCKET_COUNT == Pow2(SUB_BUCKET_MAGNITUDE) && HALF_COUNT == Pow2(HALF_MAGNITUDE)
  {
    Pow2Values();
    assert Pow10(3) == 1000;
  }

  // ----- the layout

  /** Bucket 0 holds everything below 2048; bucket b > 0 holds the doubling
      range [1024 * 2^b, 2048 * 2^b). */
  lemma BucketIndexRange(v: nat)
    ensures BucketIndex(v) >= 0
    ensures BucketIndex(v) == 0 <==> v < SUB_BUCKET_COUNT
    ensures v < SUB_BUCKET_COUNT * Pow2(BucketIndex(v))
    ensures BucketIndex(v) > 0 ==> HALF_COUNT * Pow2(BucketIndex(v)) <= v
  {
    var x := OrMask(v);
    Pow2Values();
    if v < SUB_BUCKET_COUNT {
      assert x == 2047;
      BitLenAtLeast(x, 10);
      BitLenAtMost(x, 11);
    } else {
      LaterBucketRange(v);
    }
  }

  lemma LaterBucketRange(v: nat)
    requires v >= SUB_BUCKET_COUNT
    ensures BucketIndex(v) > 0
    ensures HALF_COUNT * Pow2(BucketIndex(v)) <= v < SUB_BUCKET_COUNT * Pow2(BucketIndex(v))
  {
    var x := OrMask(v);
    var n := BitLen(x);
    Pow2Values();
    assert v <= x;
    BitLenRange(x);
    BitLenAtLeast(x, 11);
    Pow2Add(11, n - 11);
    Pow2Add(11, n - 12);
    Pow2Add(10, n - 11);
    MultipleBelow(v, Pow2(n - 12));
  }

  /** Setting the low bits of v does not carry it past a multiple of 2048. */
  lemma MultipleBelow(v: nat, k: nat)
    requires SUB_BUCKET_COUNT * k <= OrMask(v)
    ensures SUB_BUCKET_COUNT * k <= v
  {
    var q := v / SUB_BUCKET_COUNT;
    assert k <= q;
  }

  /** The doubling ranges of different buckets are ordered. */
  lemma BucketIndexMonotone(v: nat, w: nat)
    requires v <= w
    ensures BucketIndex(v) <= BucketIndex(w)
  {
    BucketIndexRange(v);
    BucketIndexRange(w);
    var b, c := BucketIndex(v), BucketIndex(w);
    if b > c {
      Pow2Double(c, b);
    }
  }

  lemma DivRange(v: nat, p: nat, lo: nat, hi: nat)
    requires p > 0 && lo * p <= v < hi * p
    ensures lo <= v / p < hi
  {
    var q := v / p;
    assert q * p <= v < (q + 1) * p;
    if q < lo {
      MulMonotone(q + 1, lo, p);
    }
    if q >= hi {
      MulMonotone(hi, q, p);
    }
  }

  /** The position of v inside its bucket; no bits are lost to the int32 cast. */
  lemma SubBucketRange(v: nat)
    ensures BucketIndex(v) >= 0
    ensures var sub := v / Pow2(BucketIndex(v));
            && sub < SUB_BUCKET_COUNT
            && (BucketIndex(v) > 0 ==> sub >= HALF_COUNT)
            && ToInt32(sub) == sub
            && CountsIndex(v) == BucketIndex(v) * HALF_COUNT + sub
  {
    BucketIndexRange(v);
    var p := Pow2(BucketIndex(v));
    if BucketIndex(v) > 0 {
      DivRange(v, p, HALF_COUNT, SUB_BUCKET_COUNT);
    } else {
      DivRange(v, p, 0, SUB_BUCKET_COUNT);
    }
  }

  /** Every clamped value has a counter. */
  lemma CountsIndexInBounds(v: nat)
    requires v <= MAX_TRACKABLE
    ensures 0 <= CountsIndex(v) < COUNTS_LENGTH
  {
    SubBucketRange(v);
    BucketIndexRange(v);
    Pow2Values();
    Pow2Add(10, 32);
    Pow2Add(11, 31);
    if BucketIndex(v) >= BUCKET_COUNT {
      Pow2Monotone(32, BucketIndex(v));
    }
  }

  /** Larger values never land in earlier counters. */
  lemma CountsIndexMonotone(v: nat, w: nat)
    requires v <= w
    ensures CountsIndex(v) <= CountsIndex(w)
  {
    SubBucketRange(v);
    SubBucketRange(w);
    BucketIndexMonotone(v, w);
    var b, c := BucketIndex(v), BucketIndex(w);
    if b == c {
      DivMonotone(v, w, Pow2(b));
    }
  }

  lemma DivMonotone(v: nat, w: nat, p: nat)
    requires v <= w && p > 0
    ensures v / p <= w / p
  {
    var q, r := v / p, w / p;
    assert q * p <= v && w < (r + 1) * p;
    if q > r {
      MulMonotone(r + 1, q, p);
    }
  }

  /** ValueAt inverts CountsIndex on every counter. */
  lemma CountsIndexOfValueAt(idx: nat)
    ensures CountsIndex(ValueAt(idx)) == idx
  {
    var v := ValueAt(idx);
    SubBucketRange(v);
    BucketIndexRange(v);
    if idx >= HALF_COUNT {
      SubBucketRecovered(idx / HALF_COUNT - 1, idx % HALF_COUNT + HALF_COUNT);
    }
  }

  lemma SubBucketRecovered(b: nat, sub: nat)
    requires HALF_COUNT <= sub < SUB_BUCKET_COUNT
    ensures BucketIndex(sub * Pow2(b)) == b
    ensures sub * Pow2(b) / Pow2(b) == sub
  {
    var p := Pow2(b);
    var v := sub * p;
    MulMonotone(HALF_COUNT, sub, p);
    MulMonotone(sub + 1, SUB_BUCKET_COUNT, p);
    assert v < (sub + 1) * p;
    BucketIndexUnique(v, b);
    DivRange(v, p, sub, sub + 1);
  }

  /** Only one bucket has v in its doubling range. */
  lemma BucketIndexUnique(v: nat, b: nat)
    requires HALF_COUNT * Pow2(b) <= v < SUB_BUCKET_COUNT * Pow2(b)
    ensures BucketIndex(v) == b
  {
    BucketIndexRange(v);
    var c := BucketIndex(v);
    if b < c {
      Pow2Double(b, c);
    } else if c < b {
      Pow2Double(c, b);
    }
  }

  /** Adjacent counters meet: the buckets tile the range with no gap and no
      overlap. */
  lemma BucketsTile(idx: nat)
    ensures HighestEquivalent(idx) + 1 == ValueAt(idx + 1)
  {
    var b, r := idx / HALF_COUNT, idx % HALF_COUNT;
    if r == HALF_COUNT - 1 {
      assert (idx + 1) / HALF_COUNT == b + 1 && (idx + 1) % HALF_COUNT == 0;
      if b > 0 {
        assert Pow2(b) == 2 * Pow2(b - 1);
      }
    } else {
      assert (idx + 1) / HALF_COUNT == b && (idx + 1) % HALF_COUNT == r + 1;
      if b > 0 {
        var p := Pow2(b - 1);
        assert (r + 1 + HALF_COUNT) * p == (r + HALF_COUNT) * p + p;
      }
    }
  }

  /** A value lies between the bounds its counter reports. */
  lemma ValueInItsBucket(v: nat)
    ensures CountsIndex(v) >= 0
    ensures ValueAt(CountsIndex(v)) <= v <= HighestEquivalent(CountsIndex(v))
  {
    hide CountsIndex, BucketIndex, Pow2, ValueAt, HighestEquivalent, ToInt32;
    SubBucketRange(v);
    var p := Pow2(BucketIndex(v));
    CounterBounds(BucketIndex(v), v / p);
    Quotient(v, p);
  }

  lemma Quotient(v: nat, p: nat)
    requires p > 0
    ensures v / p * p <= v <= v / p * p + p - 1
  {
  }

  /** What counter sub of bucket b stands for. */
  lemma CounterBounds(b: nat, sub: nat)
    requires sub < SUB_BUCKET_COUNT && (b > 0 ==> sub >= HALF_COUNT)
    ensures ValueAt(b * HALF_COUNT + sub) == sub * Pow2(b)
    ensures HighestEquivalent(b * HALF_COUNT + sub) == sub * Pow2(b) + Pow2(b) - 1
  {
    CounterPosition(b, sub);
    var idx := b * HALF_COUNT + sub;
    hide Pow2, ValueAt, HighestEquivalent;
    if sub >= HALF_COUNT {
      LaterCounter(idx, b, sub);
    } else {
      FirstCounter(idx, sub);
    }
  }

  lemma LaterCounter(idx: nat, b: nat, sub: nat)
    requires sub >= HALF_COUNT && idx / HALF_COUNT == b + 1 && idx % HALF_COUNT == sub - HALF_COUNT
    ensures ValueAt(idx) == sub * Pow2(b) && HighestEquivalent(idx) == sub * Pow2(b) + Pow2(b) - 1
  {
    hide Pow2;
  }

  lemma FirstCounter(idx: nat, sub: nat)
    requires idx / HALF_COUNT == 0 && idx % HALF_COUNT == sub
    ensures ValueAt(idx) == sub * Pow2(0) && HighestEquivalent(idx) == sub * Pow2(0) + Pow2(0) - 1
  {
  }

  lemma CounterPosition(b: nat, sub: nat)
    requires sub < SUB_BUCKET_COUNT && (b > 0 ==> sub >= HALF_COUNT)
    ensures var idx := b * HALF_COUNT + sub;
            if sub >= HALF_COUNT then idx / HALF_COUNT == b + 1 && idx % HALF_COUNT == sub - HALF_COUNT
            else idx / HALF_COUNT == 0 && idx % HALF_COUNT == sub
  {
  }

  /** Later counters stand for larger values. */
  lemma HighestEquivalentMonotone(i: nat, j: nat)
    requires i <= j
    ensures HighestEquivalent(i) <= HighestEquivalent(j)
  {
    if i < j {
      HighestEquivalentMonotone(i, j - 1);
      BucketsTile(j - 1);
    }
  }


  /** The documented precision, a width of at most 1/2048 of the value, holds
      for no value at all; what the layout gives is 1/1024, for exactly the
      values of at least 1024 (smaller ones have counters of their own). */
  lemma WidthIsOneIn1024(v: nat)
    ensures CountsIndex(v) >= 0
    ensures var width := HighestEquivalent(CountsIndex(v)) - ValueAt(CountsIndex(v)) + 1;
            && v < 2048 * width
            && (1024 * width <= v <==> v >= 1024)
            && (v < 2048 ==> width == 1)
  {
    SubBucketRange(v);
    BucketIndexRange(v);
    var b := BucketIndex(v);
    var idx := CountsIndex(v);
    var sub := v / Pow2(b);
    if b > 0 {
      assert idx == (b + 1) * HALF_COUNT + (sub - HALF_COUNT);
      assert idx / HALF_COUNT == b + 1;
    } else {
      assert Pow2(b) == 1 && idx == v;
      assert BucketOf(idx) == 0;
    }
  }

  /** The reported upper bound overshoots by at most 1/1024 of the value. */
  lemma UpperBoundError(v: nat)
    ensures CountsIndex(v) >= 0
    ensures v <= HighestEquivalent(CountsIndex(v))
    ensures 1024 * (HighestEquivalent(CountsIndex(v)) - v) <= v
  {
    ValueInItsBucket(v);
    WidthIsOneIn1024(v);
  }

  /** The overshoot at 4096 exceeds the documented 1/2048. */
  lemma UpperBoundErrorExample()
    ensures CountsIndex(4096) >= 0
    ensures HighestEquivalent(CountsIndex(4096)) == 4099
    ensures 2048 * (HighestEquivalent(CountsIndex(4096)) - 4096) > 4096
  {
    Pow2Values();
    assert Pow2(2) == 4;
    SubBucketRange(4096);
    BucketIndexUnique(4096, 2);
    assert CountsIndex(4096) == 2 * HALF_COUNT + 1024;
  }
}
