/** Which bucket a moment belongs to: the one piece of arithmetic every service must share.
    A moment is a whole number of microseconds since the epoch, the resolution of a Python
    datetime, and is never negative. */
module Timeframes {

  datatype Timeframe = M1 | M5 | M15 | M30 | H1 | H4 | D1

  const MICROS: nat := 1_000_000

  function Seconds(tf: Timeframe): nat {
    match tf
    case M1 => 60
    case M5 => 300
    case M15 => 900
    case M30 => 1800
    case H1 => 3600
    case H4 => 14400
    case D1 => 86400
  }

  /** Each label says how long its bars are: a minute, and so many minutes, hours or a day. */
  lemma LabelsTellTheLengths()
    ensures Duration(M1) == 60 * MICROS && Duration(M5) == 5 * Duration(M1) && Duration(M15) == 15 * Duration(M1)
    ensures Duration(M30) == 30 * Duration(M1) && Duration(H1) == 60 * Duration(M1)
    ensures Duration(H4) == 4 * Duration(H1) && Duration(D1) == 24 * Duration(H1)
  {
  }

  function Duration(tf: Timeframe): (d: nat)
    ensures d > 0
  {
    Seconds(tf) * MICROS
  }

  /** Truncates to whole seconds first, as `int(moment.timestamp())` does. */
  function FloorToBucket(moment: nat, tf: Timeframe): nat {
    var epoch := moment / MICROS;
    (epoch - epoch % Seconds(tf)) * MICROS
  }

  function NextBucket(moment: nat, tf: Timeframe): nat {
    FloorToBucket(moment, tf) + Duration(tf)
  }

  function BucketClose(openTime: nat, tf: Timeframe): nat {
    openTime + Duration(tf)
  }

  predicate Aligned(moment: nat, tf: Timeframe) {
    moment % Duration(tf) == 0
  }

  lemma TimesMonotone(d: nat, a: int, b: int)
    requires a <= b
    ensures d * a <= d * b
  {
  }

  /** Two distinct multiples of d are at least d apart. */
  lemma MultiplesApart(a: nat, b: nat, d: nat)
    requires d > 0 && a % d == 0 && b % d == 0 && a < b
    ensures a + d <= b
  {
    var p, q := a / d, b / d;
    assert a == d * p && b == d * q;
    if q <= p {
      TimesMonotone(d, q, p);
    } else {
      TimesMonotone(d, p + 1, q);
    }
  }

  lemma MultipleOf(k: nat, d: nat)
    requires d > 0
    ensures (k * d) % d == 0
  {
    var m := k * d;
    var q, r := m / d, m % d;
    assert m == d * q + r && 0 <= r < d;
    if q < k {
      TimesMonotone(d, q + 1, k);
    } else if k < q {
      TimesMonotone(d, k + 1, q);
    }
  }

  lemma MultipleOfMultiple(m: nat, k: nat, d: nat)
    requires d > 0 && k > 0 && m % (k * d) == 0
    ensures m % d == 0
  {
    var q := m / (k * d);
    assert m == q * (k * d) == (q * k) * d;
    MultipleOf(q * k, d);
  }

  /** The bucket of a moment is the one aligned, half-open interval that holds it. */
  lemma BucketHoldsMoment(moment: nat, tf: Timeframe)
    ensures Aligned(FloorToBucket(moment, tf), tf)
    ensures FloorToBucket(moment, tf) <= moment < BucketClose(FloorToBucket(moment, tf), tf)
    ensures NextBucket(moment, tf) == BucketClose(FloorToBucket(moment, tf), tf)
  {
    var epoch, s := moment / MICROS, Seconds(tf);
    var q := epoch / s;
    assert epoch - epoch % s == q * s;
    assert (q * s) * MICROS == q * Duration(tf);
    MultipleOf(q, Duration(tf));
    assert epoch < q * s + s;
    assert (epoch + 1) * MICROS <= (q * s + s) * MICROS == q * s * MICROS + Duration(tf);
  }

  lemma BucketIsUnique(moment: nat, open: nat, tf: Timeframe)
    requires Aligned(open, tf) && open <= moment < BucketClose(open, tf)
    ensures FloorToBucket(moment, tf) == open
  {
    BucketHoldsMoment(moment, tf);
    var b := FloorToBucket(moment, tf);
    if b < open {
      MultiplesApart(b, open, Duration(tf));
    } else if open < b {
      MultiplesApart(open, b, Duration(tf));
    }
  }

  /** An aligned moment that has been reached has been reached by the bucket too. */
  lemma AlignedReached(open: nat, moment: nat, tf: Timeframe)
    requires Aligned(open, tf)
    ensures open <= moment <==> open <= FloorToBucket(moment, tf)
    ensures BucketClose(open, tf) <= moment <==> open < FloorToBucket(moment, tf)
  {
    BucketHoldsMoment(moment, tf);
    var b := FloorToBucket(moment, tf);
    if b < open {
      MultiplesApart(b, open, Duration(tf));
    } else if open < b {
      MultiplesApart(open, b, Duration(tf));
    }
  }

  lemma FloorIsMonotone(a: nat, b: nat, tf: Timeframe)
    requires a <= b
    ensures FloorToBucket(a, tf) <= FloorToBucket(b, tf)
  {
    BucketHoldsMoment(a, tf);
    AlignedReached(FloorToBucket(a, tf), b, tf);
  }

  predicate FinerOrEqual(fine: Timeframe, coarse: Timeframe) {
    Seconds(fine) <= Seconds(coarse)
  }

  /** Every timeframe's length divides every longer one's. */
  lemma LengthsDivide(fine: Timeframe, coarse: Timeframe)
    requires FinerOrEqual(fine, coarse)
    ensures Seconds(coarse) % Seconds(fine) == 0
  {
  }

  /** So a boundary of a coarse bucket is a boundary of every finer one. */
  lemma CoarseAlignmentIsFine(moment: nat, fine: Timeframe, coarse: Timeframe)
    requires FinerOrEqual(fine, coarse) && Aligned(moment, coarse)
    ensures Aligned(moment, fine) && Aligned(BucketClose(moment, coarse), fine)
    ensures Aligned(BucketClose(moment, coarse), coarse)
  {
    LengthsDivide(fine, coarse);
    var k := Seconds(coarse) / Seconds(fine);
    assert Seconds(coarse) == k * Seconds(fine);
    assert Duration(coarse) == k * Duration(fine);
    var d := Duration(coarse);
    assert moment == d * (moment / d);
    MultipleOf(moment / d + 1, d);
    assert moment + d == (moment / d + 1) * d;
    MultipleOfMultiple(moment, k, Duration(fine));
    MultipleOfMultiple(moment + d, k, Duration(fine));
  }

  /** The coarse bucket of a moment is the coarse bucket of its fine bucket. */
  lemma BucketsNest(moment: nat, fine: Timeframe, coarse: Timeframe)
    requires FinerOrEqual(fine, coarse)
    ensures FloorToBucket(FloorToBucket(moment, fine), coarse) == FloorToBucket(moment, coarse)
    ensures BucketClose(FloorToBucket(moment, fine), fine)
         <= BucketClose(FloorToBucket(moment, coarse), coarse)
  {
    var b := FloorToBucket(moment, coarse);
    BucketHoldsMoment(moment, coarse);
    BucketHoldsMoment(moment, fine);
    CoarseAlignmentIsFine(b, fine, coarse);
    AlignedReached(b, moment, fine);
    AlignedReached(BucketClose(b, coarse), moment, fine);
    BucketIsUnique(FloorToBucket(moment, fine), b, coarse);
    AlignedReached(FloorToBucket(moment, fine), BucketClose(b, coarse), fine);
    BucketIsUnique(BucketClose(b, coarse), BucketClose(b, coarse), fine);
  }
}
