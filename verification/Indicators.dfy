/** Seeded smoothing and RSI (src/qte_shared/indicators.py). A series is a list of optional values;
    None stands for NaN. Prices and averages are exact reals. */
module Indicators {
  import opened Prelude

  type Series = seq<Option<real>>

  // ------------------------------------------------------------ the pipeline, as the source runs it

  /** The defined values, in order. */
  function Defined(xs: Series): (ys: seq<real>)
    ensures |ys| <= |xs|
  {
    if xs == [] then [] else Defined(Front(xs)) + if Last(xs).Some? then [Last(xs).value] else []
  }

  /** One step of the smoothing. */
  function Blend(before: real, next: real, alpha: real): real {
    (1.0 - alpha) * before + alpha * next
  }

  /** Recursive smoothing, starting from the first value. */
  function Ewm(ys: seq<real>, alpha: real): (zs: seq<real>)
    ensures |zs| == |ys|
  {
    if |ys| <= 1 then ys
    else
      var before := Ewm(Front(ys), alpha);
      before + [Blend(Last(before), Last(ys), alpha)]
  }

  /** Put the smoothed values back where their inputs were; positions without one stay undefined. */
  function Scatter(xs: Series, zs: seq<Option<real>>): (r: Series)
    requires |zs| == |Defined(xs)|
    ensures |r| == |xs|
  {
    if xs == [] then []
    else if Last(xs).Some? then Scatter(Front(xs), Front(zs)) + [Last(zs)]
    else Scatter(Front(xs), zs) + [None]
  }

  function AllNone(n: nat): (r: Series)
    ensures |r| == n && forall i :: 0 <= i < n ==> r[i] == None
  {
    if n == 0 then [] else AllNone(n - 1) + [None]
  }

  function Somes(ys: seq<real>): (r: Series)
    ensures |r| == |ys| && forall i :: 0 <= i < |r| ==> r[i] == Some(ys[i])
  {
    if ys == [] then [] else Somes(Front(ys)) + [Some(Last(ys))]
  }

  /** The smoothing's first output is the SMA of the first `length` defined values. */
  function SeededEwm(xs: Series, length: nat, alpha: real): (r: Series)
    ensures |r| == |xs|
  {
    var valid := Defined(xs);
    if length <= 1 then xs
    else if |valid| < length then AllNone(|xs|)
    else
      Scatter(xs, Outputs(valid, length, alpha))
  }

  /** What each defined value turns into: nothing before the seed, then the smoothing. */
  function Outputs(valid: seq<real>, length: nat, alpha: real): (zs: Series)
    requires 2 <= length <= |valid|
    ensures |zs| == |valid|
  {
    AllNone(length - 1) + Somes(Ewm(FromSeed(valid, length, |valid| - length), alpha))
  }

  function Ema(xs: Series, length: nat): (r: Series)
    requires length >= 1
    ensures |r| == |xs|
  {
    SeededEwm(xs, length, 2.0 / (length as real + 1.0))
  }

  function Rma(xs: Series, length: nat): (r: Series)
    requires length >= 1
    ensures |r| == |xs|
  {
    SeededEwm(xs, length, 1.0 / (length as real))
  }

  /** The step from one value to the next, where both are there. */
  function Change(xs: Series, i: nat): Option<real>
    requires i < |xs|
  {
    if i > 0 && xs[i].Some? && xs[i - 1].Some? then Some(xs[i].value - xs[i - 1].value) else None
  }

  function Diff(xs: Series): (r: Series)
    ensures |r| == |xs| && forall i :: 0 <= i < |r| ==> r[i] == Change(xs, i)
  {
    if xs == [] then [] else Diff(Front(xs)) + [Change(xs, |xs| - 1)]
  }

  function Gains(xs: Series): (r: Series)
    ensures |r| == |xs|
    ensures forall i :: 0 <= i < |xs| ==> r[i] == if xs[i].Some? then Some(Max(xs[i].value, 0.0)) else None
  {
    if xs == [] then [] else Gains(Front(xs)) + [if Last(xs).Some? then Some(Max(Last(xs).value, 0.0)) else None]
  }

  function Drops(xs: Series): (r: Series)
    ensures |r| == |xs|
    ensures forall i :: 0 <= i < |xs| ==> r[i] == if xs[i].Some? then Some(Max(-xs[i].value, 0.0)) else None
  {
    if xs == [] then [] else Drops(Front(xs)) + [if Last(xs).Some? then Some(Max(-Last(xs).value, 0.0)) else None]
  }

  /** One RSI value from the smoothed gain and loss; a zero loss is 100, not a division. */
  function RsiAt(gain: Option<real>, loss: Option<real>): Option<real> {
    if gain.None? then None
    else if loss.Some? && loss.value == 0.0 then Some(100.0)
    else if loss.None? then None
    else
      var strength := gain.value / loss.value;
      if 1.0 + strength == 0.0 then None else Some(100.0 - 100.0 / (1.0 + strength))
  }

  function RsiFrom(gains: Series, losses: Series): (r: Series)
    requires |gains| == |losses|
    ensures |r| == |gains| && forall i :: 0 <= i < |r| ==> r[i] == RsiAt(gains[i], losses[i])
  {
    if gains == [] then [] else RsiFrom(Front(gains), Front(losses)) + [RsiAt(Last(gains), Last(losses))]
  }

  function Rsi(xs: Series, length: nat): (r: Series)
    requires length >= 1
    ensures |r| == |xs|
  {
    var delta := Diff(xs);
    RsiFrom(Rma(Gains(delta), length), Rma(Drops(delta), length))
  }

  // ------------------------------------------------------------ what it means

  /** The smoothing recursion itself, over defined values: the mean of the first `length`, then
      one weighted step a value. */
  function Smoothed(ys: seq<real>, length: nat, alpha: real, k: nat): real
    requires 1 <= length && length - 1 <= k < |ys|
    decreases k
  {
    if k == length - 1 then Mean(ys[..length])
    else Blend(Smoothed(ys, length, alpha, k - 1), ys[k], alpha)
  }

  /** The seed followed by the values after it. */
  function FromSeed(ys: seq<real>, length: nat, m: nat): (tail: seq<real>)
    requires 1 <= length && length + m <= |ys|
    ensures |tail| == m + 1
  {
    [Mean(ys[..length])] + ys[length..length + m]
  }

  lemma {:induction false} EwmIsSmoothing(ys: seq<real>, length: nat, alpha: real, m: nat)
    requires 2 <= length && length + m <= |ys|
    ensures forall k :: length - 1 <= k < length + m ==>
              Ewm(FromSeed(ys, length, m), alpha)[k - (length - 1)] == Smoothed(ys, length, alpha, k)
  {
    hide Mean, Blend;
    var tail := FromSeed(ys, length, m);
    if m > 0 {
      EwmIsSmoothing(ys, length, alpha, m - 1);
      assert Front(tail) == FromSeed(ys, length, m - 1);
      var before := Ewm(FromSeed(ys, length, m - 1), alpha);
      assert before[length + m - 2 - (length - 1)] == Smoothed(ys, length, alpha, length + m - 2);
      assert Last(tail) == ys[length + m - 1];
      assert Last(before) == Smoothed(ys, length, alpha, length + m - 2);
    }
  }

  /** What the smoothing shows at the k-th defined value: nothing until the seed, then the recursion. */
  function Shown(ys: seq<real>, length: nat, alpha: real, k: nat): Option<real>
    requires 2 <= length && k < |ys|
  {
    if k < length - 1 then None else Some(Smoothed(ys, length, alpha, k))
  }

  lemma {:induction false} ScatterPlaces(xs: Series, zs: seq<Option<real>>, i: nat)
    requires |zs| == |Defined(xs)| && i < |xs|
    ensures |Defined(xs[..i])| <= |Defined(xs)| && (xs[i].Some? ==> |Defined(xs[..i])| < |Defined(xs)|)
    ensures Scatter(xs, zs)[i] == if xs[i].Some? then zs[|Defined(xs[..i])|] else None
  {
    if i == |xs| - 1 {
      assert xs[..i] == Front(xs);
    } else {
      assert Front(xs)[..i] == xs[..i];
      if Last(xs).Some? {
        ScatterPlaces(Front(xs), Front(zs), i);
      } else {
        ScatterPlaces(Front(xs), zs, i);
      }
    }
  }

  /** With any values missing anywhere, the smoothing equals the SMA-seeded recursion on the values
      that are there, in their places; a missing value stays missing. */
  lemma SeededEwmIsTheRecursion(xs: Series, length: nat, alpha: real, i: nat)
    requires length >= 1 && i < |xs|
    ensures var k := |Defined(xs[..i])|;
            var r := SeededEwm(xs, length, alpha);
            if xs[i].None? then r[i] == None
            else if length == 1 then r[i] == xs[i]
            else k < |Defined(xs)| && r[i] == Shown(Defined(xs), length, alpha, k)
  {
    hide Mean, Scatter, Ewm, Smoothed, Defined;
    var valid := Defined(xs);
    if 2 <= length && |valid| >= length {
      SmoothedSeries(valid, length, alpha);
      ScatterPlaces(xs, Outputs(valid, length, alpha), i);
    } else if 2 <= length {
      ScatterPlaces(xs, AllNone(|valid|), i);
    }
  }

  lemma SmoothedSeries(ys: seq<real>, length: nat, alpha: real)
    requires 2 <= length <= |ys|
    ensures forall k :: 0 <= k < |ys| ==> Outputs(ys, length, alpha)[k] == Shown(ys, length, alpha, k)
  {
    hide Mean, Ewm, Smoothed, FromSeed;
    EwmIsSmoothing(ys, length, alpha, |ys| - length);
  }

  predicate Within(ys: seq<real>, low: real, high: real) {
    forall i :: 0 <= i < |ys| ==> low <= ys[i] <= high
  }

  lemma {:induction false} SumWithin(ys: seq<real>, low: real, high: real)
    requires Within(ys, low, high)
    ensures low * (|ys| as real) <= Sum(ys) <= high * (|ys| as real)
  {
    if ys != [] {
      SumWithin(Front(ys), low, high);
      var n := |ys| as real;
      assert low * n == low * (n - 1.0) + low && high * n == high * (n - 1.0) + high;
    }
  }

  lemma MeanWithin(ys: seq<real>, low: real, high: real)
    requires ys != [] && Within(ys, low, high)
    ensures low <= Mean(ys) <= high
  {
    SumWithin(ys, low, high);
    QuotientWithin(Sum(ys), |ys| as real, low, high);
  }

  lemma QuotientWithin(sum: real, n: real, low: real, high: real)
    requires n > 0.0 && low * n <= sum <= high * n
    ensures low <= sum / n <= high
  {
    var q := sum / n;
    assert q * n == sum;
    TimesPositive(low, q, n);
    TimesPositive(q, high, n);
  }

  /** Cancelling a positive factor keeps an order. */
  lemma TimesPositive(a: real, b: real, n: real)
    requires n > 0.0 && a * n <= b * n
    ensures a <= b
  {
    assert (b - a) * n >= 0.0;
  }

  lemma BlendWithin(a: real, b: real, alpha: real, low: real, high: real)
    requires 0.0 <= alpha <= 1.0 && low <= a <= high && low <= b <= high
    ensures low <= Blend(a, b, alpha) <= high
  {
    hide Blend;
    BlendIsMonotone(low, a, low, b, alpha);
    BlendIsMonotone(a, high, b, high, alpha);
    BlendOfEquals(low, alpha);
    BlendOfEquals(high, alpha);
  }

  lemma BlendIsMonotone(a: real, c: real, b: real, d: real, alpha: real)
    requires 0.0 <= alpha <= 1.0 && a <= c && b <= d
    ensures Blend(a, b, alpha) <= Blend(c, d, alpha)
  {
    assert (1.0 - alpha) * (c - a) >= 0.0;
    assert alpha * (d - b) >= 0.0;
  }

  lemma BlendOfEquals(x: real, alpha: real)
    ensures Blend(x, x, alpha) == x
  {
    assert (1.0 - alpha) * x + alpha * x == ((1.0 - alpha) + alpha) * x;
  }

  lemma {:induction false} SmoothedWithin(ys: seq<real>, length: nat, alpha: real, k: nat, low: real, high: real)
    requires 1 <= length && length - 1 <= k < |ys| && 0.0 <= alpha <= 1.0 && Within(ys, low, high)
    ensures low <= Smoothed(ys, length, alpha, k) <= high
    decreases k
  {
    hide Mean, Blend;
    if k == length - 1 {
      MeanWithin(ys[..length], low, high);
    } else {
      SmoothedWithin(ys, length, alpha, k - 1, low, high);
      BlendWithin(Smoothed(ys, length, alpha, k - 1), ys[k], alpha, low, high);
    }
  }

  lemma {:induction false} DefinedMembers(xs: Series)
    ensures forall y :: y in Defined(xs) <==> Some(y) in xs
  {
    if xs != [] {
      DefinedMembers(Front(xs));
      assert xs == Front(xs) + [Last(xs)];
    }
  }

  /** For every length from one up, a smoothed value never leaves the range of the values that are
      there. */
  lemma SmoothingStaysWithinInputs(xs: Series, length: nat, alpha: real, low: real, high: real, i: nat)
    requires length >= 1 && 0.0 <= alpha <= 1.0 && i < |xs|
    requires forall v: real :: Some(v) in xs ==> low <= v <= high
    ensures SeededEwm(xs, length, alpha)[i].Some? ==> low <= SeededEwm(xs, length, alpha)[i].value <= high
  {
    hide SeededEwm;
    SeededEwmIsTheRecursion(xs, length, alpha, i);
    DefinedMembers(xs);
    var valid := Defined(xs);
    forall j | 0 <= j < |valid| ensures low <= valid[j] <= high {
      assert valid[j] in valid;
    }
    var k := |Defined(xs[..i])|;
    if xs[i].Some? && length >= 2 && k >= length - 1 {
      SmoothedWithin(valid, length, alpha, k, low, high);
    } else if xs[i].Some? {
      assert xs[i] in xs;
    }
  }

  lemma WeightsAreFractions(length: nat)
    requires length >= 1
    ensures 0.0 < 1.0 / (length as real) <= 1.0
    ensures 0.0 < 2.0 / (length as real + 1.0) <= 1.0
  {
  }

  /** Both moving averages stay within the range of their inputs. */
  lemma AveragesStayWithinInputs(xs: Series, length: nat, low: real, high: real, i: nat)
    requires length >= 1 && i < |xs| && forall v: real :: Some(v) in xs ==> low <= v <= high
    ensures |Ema(xs, length)| == |Rma(xs, length)| == |xs|
    ensures Ema(xs, length)[i].Some? ==> low <= Ema(xs, length)[i].value <= high
    ensures Rma(xs, length)[i].Some? ==> low <= Rma(xs, length)[i].value <= high
  {
    hide SeededEwm;
    WeightsAreFractions(length);
    SmoothingStaysWithinInputs(xs, length, 1.0 / (length as real), low, high, i);
    SmoothingStaysWithinInputs(xs, length, 2.0 / (length as real + 1.0), low, high, i);
  }

  lemma RmaIsNotNegative(xs: Series, length: nat, i: nat)
    requires length >= 1 && i < |xs| && forall v: real :: Some(v) in xs ==> v >= 0.0
    ensures |Rma(xs, length)| == |xs|
    ensures Rma(xs, length)[i].Some? ==> Rma(xs, length)[i].value >= 0.0
  {
    hide Rma;
    var high := Highest(xs);
    AveragesStayWithinInputs(xs, length, 0.0, high, i);
  }

  function Highest(xs: Series): (high: real)
    ensures forall v: real :: Some(v) in xs ==> v <= high
  {
    if xs == [] then 0.0
    else
      var before := Highest(Front(xs));
      assert xs == Front(xs) + [Last(xs)];
      if Last(xs).Some? then Max(before, Last(xs).value) else before
  }

  lemma RsiAtIsAPercentage(gain: Option<real>, loss: Option<real>)
    requires gain.Some? ==> gain.value >= 0.0
    requires loss.Some? ==> loss.value >= 0.0
    ensures RsiAt(gain, loss).Some? ==> 0.0 <= RsiAt(gain, loss).value <= 100.0
    ensures gain.Some? && loss.Some? ==> RsiAt(gain, loss).Some?
  {
    if gain.Some? && loss.Some? && loss.value > 0.0 {
      StrengthIsNotNegative(gain.value, loss.value);
      ShareOfHundred(gain.value / loss.value);
    }
  }

  lemma StrengthIsNotNegative(gain: real, loss: real)
    requires gain >= 0.0 && loss > 0.0
    ensures gain / loss >= 0.0
  {
  }

  lemma ShareOfHundred(strength: real)
    requires strength >= 0.0
    ensures 0.0 < 100.0 / (1.0 + strength) <= 100.0
  {
    QuotientWithin(100.0, 1.0 + strength, 0.0, 100.0);
  }

  lemma {:induction false} AllDefined(xs: Series, n: nat)
    requires n <= |xs| && forall i :: n <= i < |xs| ==> xs[i].Some?
    requires forall i :: 0 <= i < n ==> xs[i].None?
    ensures |Defined(xs)| == |xs| - n
    decreases |xs|
  {
    if |xs| > n {
      AllDefined(Front(xs), n);
    } else if |xs| == n && n > 0 {
      AllDefined(Front(xs), n - 1);
    }
  }

  /** RSI never leaves [0, 100], whatever is missing from the series and however flat it is. */
  lemma RsiIsAPercentage(xs: Series, length: nat, i: nat)
    requires length >= 1 && i < |xs|
    ensures Rsi(xs, length)[i].Some? ==> 0.0 <= Rsi(xs, length)[i].value <= 100.0
  {
    hide Rma, RsiAt;
    var delta := Diff(xs);
    RmaIsNotNegative(Gains(delta), length, i);
    RmaIsNotNegative(Drops(delta), length, i);
    RsiAtIsAPercentage(Rma(Gains(delta), length)[i], Rma(Drops(delta), length)[i]);
  }

  lemma RmaIsDefinedAfterWarmup(xs: Series, length: nat, i: nat)
    requires length >= 1 && i < |xs| && xs[0].None? && forall j :: 1 <= j < |xs| ==> xs[j].Some?
    ensures |Rma(xs, length)| == |xs|
    ensures Rma(xs, length)[i].Some? <==> i >= length
  {
    hide SeededEwm;
    SeededEwmIsTheRecursion(xs, length, 1.0 / (length as real), i);
    if i >= 1 {
      AllDefined(xs[..i], 1);
    }
  }

  /** On a series without holes RSI is defined at exactly the bars from the warm-up on. */
  lemma RsiIsDefinedAfterWarmup(xs: Series, length: nat, i: nat)
    requires length >= 1 && i < |xs| && forall j :: 0 <= j < |xs| ==> xs[j].Some?
    ensures Rsi(xs, length)[i].Some? <==> i >= length
  {
    hide Rma, RsiAt;
    var delta := Diff(xs);
    assert delta[0].None? && forall j :: 1 <= j < |xs| ==> delta[j].Some?;
    assert Gains(delta)[0].None? && Drops(delta)[0].None?;
    RmaIsDefinedAfterWarmup(Gains(delta), length, i);
    RmaIsDefinedAfterWarmup(Drops(delta), length, i);
    RmaIsNotNegative(Gains(delta), length, i);
    RmaIsNotNegative(Drops(delta), length, i);
    RsiAtIsAPercentage(Rma(Gains(delta), length)[i], Rma(Drops(delta), length)[i]);
    RsiNeedsAGain(Rma(Gains(delta), length)[i], Rma(Drops(delta), length)[i]);
  }

  lemma RsiNeedsAGain(gain: Option<real>, loss: Option<real>)
    ensures gain.None? ==> RsiAt(gain, loss) == None
  {
  }

  // ------------------------------------------------------------ one value to the next

  lemma {:induction false} DefinedAt(xs: Series, i: nat)
    requires i < |xs| && xs[i].Some?
    ensures var k := |Defined(xs[..i])|;
            && k < |Defined(xs)| && Defined(xs)[k] == xs[i].value
            && Defined(xs)[..k] == Defined(xs[..i]) && Defined(xs)[..k + 1] == Defined(xs[..i + 1])
  {
    if i == |xs| - 1 {
      assert xs[..i] == Front(xs) && xs[..i + 1] == xs;
      var k := |Defined(Front(xs))|;
      assert Defined(xs)[..k + 1] == Defined(xs);
    } else {
      assert Front(xs)[..i] == xs[..i] && Front(xs)[..i + 1] == xs[..i + 1];
      DefinedAt(Front(xs), i);
      var k := |Defined(xs[..i])|;
      assert Defined(xs)[..k] == Defined(Front(xs))[..k] && Defined(xs)[..k + 1] == Defined(Front(xs))[..k + 1];
    }
  }

  /** j is the last place before i with a value. */
  predicate Follows(xs: Series, j: nat, i: nat) {
    j < i < |xs| && xs[j].Some? && xs[i].Some? && forall m :: j < m < i ==> xs[m].None?
  }

  lemma {:induction false} NothingBetween(xs: Series, j: nat, i: nat)
    requires j <= i <= |xs| && forall m :: j <= m < i ==> xs[m].None?
    ensures Defined(xs[..i]) == Defined(xs[..j])
    decreases i
  {
    if j < i {
      NothingBetween(xs, j, i - 1);
      assert Front(xs[..i]) == xs[..i - 1];
    }
  }

  lemma FollowsIsNext(xs: Series, j: nat, i: nat)
    requires Follows(xs, j, i)
    ensures |Defined(xs[..i])| == |Defined(xs[..j])| + 1
  {
    NothingBetween(xs, j + 1, i);
    assert Front(xs[..j + 1]) == xs[..j];
  }

  function Towards(before: real, next: real, alpha: real): real {
    before + alpha * (next - before)
  }

  /** One more value moves the recursion by its weight of the difference. */
  lemma SmoothedMoves(ys: seq<real>, length: nat, alpha: real, k: nat)
    requires 1 <= length <= k < |ys|
    ensures Smoothed(ys, length, alpha, k)
         == Towards(Smoothed(ys, length, alpha, k - 1), ys[k], alpha)
  {
    var before := Smoothed(ys, length, alpha, k - 1);
    assert (1.0 - alpha) * before + alpha * ys[k] == before + alpha * (ys[k] - before);
  }

  lemma MeanOfMany(ys: seq<real>)
    requires ys != []
    ensures (|ys| as real) * Mean(ys) == Sum(ys)
  {
  }

  /** What seeded smoothing is: nothing before `length` values are there, then their mean, then a step of
      the given weight towards each value, from one value that is there to the next. */
  lemma SmoothingStepsTowardsEachValue(xs: Series, length: nat, alpha: real, j: nat, i: nat)
    requires length >= 1 && i < |xs| && xs[i].Some? && (length == 1 ==> alpha == 1.0)
    ensures var (r, count) := (SeededEwm(xs, length, alpha), |Defined(xs[..i + 1])|);
            && (count < length ==> r[i] == None)
            && (count == length ==> r[i].Some? && (length as real) * r[i].value == Sum(Defined(xs[..i + 1])))
            && (count > length && Follows(xs, j, i) ==>
                  r[j].Some? && r[i] == Some(Towards(r[j].value, xs[i].value, alpha)))
  {
    hide Mean, SeededEwm, Smoothed, Defined, Follows, Sum, Towards;
    SeededEwmIsTheRecursion(xs, length, alpha, i);
    DefinedAt(xs, i);
    var (ys, k) := (Defined(xs), |Defined(xs[..i])|);
    assert |Defined(xs[..i + 1])| == k + 1;
    if k + 1 == length {
      SeedIsTheMean(ys, length, alpha);
      if length == 1 {
        SumOfOne(ys[..1]);
      }
    }
    if k >= length && Follows(xs, j, i) {
      FollowsAreThere(xs, j, i);
      SeededEwmIsTheRecursion(xs, length, alpha, j);
      DefinedAt(xs, j);
      FollowsIsNext(xs, j, i);
      SmoothedMoves(ys, length, alpha, k);
      if length == 1 {
        WholeStep(xs[j].value, xs[i].value, alpha);
      }
    }
  }

  lemma WholeStep(before: real, now: real, alpha: real)
    requires alpha == 1.0
    ensures Towards(before, now, alpha) == now
  {
  }

  lemma SumOfOne(ys: seq<real>)
    requires |ys| == 1
    ensures Sum(ys) == ys[0]
  {
    assert Front(ys) == [];
  }

  lemma FollowsAreThere(xs: Series, j: nat, i: nat)
    requires Follows(xs, j, i)
    ensures j < i < |xs| && xs[j].Some?
  {
  }

  lemma SeedIsTheMean(ys: seq<real>, length: nat, alpha: real)
    requires 1 <= length <= |ys|
    ensures (length as real) * Smoothed(ys, length, alpha, length - 1) == Sum(ys[..length])
  {
    MeanOfMany(ys[..length]);
  }

  /** The two averages: Wilder's keeps n - 1 parts of n, the exponential one n - 1 of n + 1. */
  lemma TheAveragesStep(xs: Series, length: nat, j: nat, i: nat)
    requires length >= 1 && Follows(xs, j, i) && |Defined(xs[..i + 1])| > length
    ensures var (r, e, n) := (Rma(xs, length), Ema(xs, length), length as real);
            && r[j].Some? && r[i].Some? && n * r[i].value == (n - 1.0) * r[j].value + xs[i].value
            && e[j].Some? && e[i].Some? && (n + 1.0) * e[i].value == (n - 1.0) * e[j].value + 2.0 * xs[i].value
  {
    hide SeededEwm, Defined, Towards;
    SmoothingStepsTowardsEachValue(xs, length, 1.0 / (length as real), j, i);
    SmoothingStepsTowardsEachValue(xs, length, 2.0 / (length as real + 1.0), j, i);
    var n := length as real;
    StepOfParts(n, 1.0, 1.0 / n, Rma(xs, length)[j].value, xs[i].value);
    StepOfParts(n + 1.0, 2.0, 2.0 / (n + 1.0), Ema(xs, length)[j].value, xs[i].value);
  }

  lemma StepOfParts(whole: real, part: real, alpha: real, before: real, x: real)
    requires whole * alpha == part
    ensures whole * Towards(before, x, alpha) == (whole - part) * before + part * x
  {
    assert whole * Towards(before, x, alpha) == whole * before + (whole * alpha) * (x - before);
  }

  // ------------------------------------------------------------ what RSI reads

  /** The steps up (or down) from each value to the next; nothing where either is missing. */
  predicate AreSteps(steps: Series, xs: Series, up: bool) {
    && |steps| == |xs|
    && forall i {:trigger steps[i]} :: 0 <= i < |xs| ==>
         if i == 0 || xs[i].None? || xs[i - 1].None? then steps[i].None?
         else
           && steps[i].Some?
           && steps[i].value == (if up == (xs[i - 1].value <= xs[i].value) then Abs(xs[i].value - xs[i - 1].value) else 0.0)
  }

  lemma GainsAreSteps(xs: Series, ups: Series, downs: Series)
    requires AreSteps(ups, xs, true) && AreSteps(downs, xs, false)
    ensures Gains(Diff(xs)) == ups && Drops(Diff(xs)) == downs
  {
    StepsAre(xs);
    hide Gains, Drops, Diff;
    SameSteps(xs, Gains(Diff(xs)), ups, true);
    SameSteps(xs, Drops(Diff(xs)), downs, false);
  }

  lemma SameSteps(xs: Series, a: Series, b: Series, up: bool)
    requires AreSteps(a, xs, up) && AreSteps(b, xs, up)
    ensures a == b
  {
    forall i | 0 <= i < |xs| ensures a[i] == b[i] {
    }
  }

  lemma StepsAre(xs: Series)
    ensures AreSteps(Gains(Diff(xs)), xs, true) && AreSteps(Drops(Diff(xs)), xs, false)
  {
    DeltasGive(xs, Diff(xs), Gains(Diff(xs)), Drops(Diff(xs)));
  }

  lemma DeltasGive(xs: Series, delta: Series, ups: Series, downs: Series)
    requires |delta| == |xs| == |ups| == |downs|
    requires forall i {:trigger delta[i]} :: 0 <= i < |xs| ==> delta[i] == Change(xs, i)
    requires forall i {:trigger ups[i]} :: 0 <= i < |xs| ==> ups[i] == if delta[i].Some? then Some(Max(delta[i].value, 0.0)) else None
    requires forall i {:trigger downs[i]} :: 0 <= i < |xs| ==> downs[i] == if delta[i].Some? then Some(Max(-delta[i].value, 0.0)) else None
    ensures AreSteps(ups, xs, true) && AreSteps(downs, xs, false)
  {
  }

  lemma RmaNeedsAValue(steps: Series, length: nat, i: nat)
    requires length >= 1 && i < |steps|
    ensures Rma(steps, length)[i].Some? <==> steps[i].Some? && |Defined(steps[..i + 1])| >= length
  {
    hide SeededEwm, Defined, Sum;
    SeededEwmIsTheRecursion(steps, length, 1.0 / (length as real), i);
    if steps[i].Some? {
      DefinedAt(steps, i);
    }
  }

  lemma {:induction false} SamePlaces(a: Series, b: Series)
    requires |a| == |b| && forall i :: 0 <= i < |a| ==> (a[i].Some? <==> b[i].Some?)
    ensures |Defined(a)| == |Defined(b)|
  {
    if a != [] {
      SamePlaces(Front(a), Front(b));
    }
  }

  /** RSI is the share of the smoothed steps up in all the smoothed steps, and 100 when there are none down. */
  lemma RsiIsTheShareOfGains(xs: Series, length: nat, i: nat, ups: Series, downs: Series)
    requires length >= 1 && i < |xs| && AreSteps(ups, xs, true) && AreSteps(downs, xs, false)
    ensures var (g, l, r) := (Rma(ups, length)[i], Rma(downs, length)[i], Rsi(xs, length)[i]);
            && (r.Some? <==> g.Some?) && (g.Some? <==> l.Some?)
            && (r.Some? ==> g.value >= 0.0 && l.value >= 0.0)
            && (r.Some? && l.value == 0.0 ==> r.value == 100.0)
            && (r.Some? && l.value > 0.0 ==> r.value == 100.0 * g.value / (g.value + l.value))
  {
    hide Rma, Defined, RsiAt, Gains, Drops, Diff;
    GainsAreSteps(xs, ups, downs);
    RmaNeedsAValue(ups, length, i);
    RmaNeedsAValue(downs, length, i);
    SamePlaces(ups[..i + 1], downs[..i + 1]);
    RmaIsNotNegative(ups, length, i);
    RmaIsNotNegative(downs, length, i);
    var (g, l) := (Rma(ups, length)[i], Rma(downs, length)[i]);
    ShareAt(g, l);
  }

  lemma ShareAt(gain: Option<real>, loss: Option<real>)
    requires gain.Some? <==> loss.Some?
    requires gain.Some? ==> gain.value >= 0.0 && loss.value >= 0.0
    ensures RsiAt(gain, loss).Some? <==> gain.Some?
    ensures gain.Some? && loss.value == 0.0 ==> RsiAt(gain, loss).value == 100.0
    ensures gain.Some? && loss.value > 0.0 ==> RsiAt(gain, loss).value == 100.0 * gain.value / (gain.value + loss.value)
  {
    if gain.Some? && loss.value > 0.0 {
      StrengthIsNotNegative(gain.value, loss.value);
      ShareOfStrength(gain.value, loss.value);
    }
  }

  lemma ShareOfStrength(g: real, l: real)
    requires g >= 0.0 && l > 0.0
    ensures 1.0 + g / l > 0.0 && 100.0 - 100.0 / (1.0 + g / l) == 100.0 * g / (g + l)
  {
    StrengthIsNotNegative(g, l);
    var (s, t) := (g / l, g + l);
    assert s * l == g;
    assert (1.0 + s) * l == t;
    QuotientIs(100.0, 1.0 + s, 100.0 * l / t) by {
      assert (100.0 * l / t) * t == 100.0 * l;
      Swap(100.0 * l / t, 1.0 + s, l, 100.0);
    }
    QuotientIs(100.0 * g, t, 100.0 - 100.0 * l / t) by {
      assert (100.0 - 100.0 * l / t) * t == 100.0 * t - (100.0 * l / t) * t;
    }
  }

  /** Cancelling l from q * ((1 + s) * l) == 100 * l. */
  lemma Swap(q: real, a: real, l: real, c: real)
    requires l > 0.0 && q * (a * l) == c * l
    ensures q * a == c
  {
    assert (q * a - c) * l == 0.0;
  }

  lemma QuotientIs(a: real, b: real, q: real)
    requires b > 0.0 && q * b == a
    ensures a / b == q
  {
  }

  lemma NoSteps(xs: Series, steps: Series, up: bool)
    requires AreSteps(steps, xs, up) && forall j :: 0 <= j < |xs| ==> xs[j].Some?
    requires forall j :: 0 < j < |xs| ==> if up then xs[j - 1].value >= xs[j].value else xs[j - 1].value <= xs[j].value
    ensures forall v: real :: Some(v) in steps ==> v == 0.0
  {
    forall v: real | Some(v) in steps ensures v == 0.0 {
      var i :| 0 <= i < |steps| && steps[i] == Some(v);
      assert steps[i].Some?;
      assert i > 0;
      assert xs[i].Some? && xs[i - 1].Some?;
      assert steps[i].value == (if up == (xs[i - 1].value <= xs[i].value) then Abs(xs[i].value - xs[i - 1].value) else 0.0);
    }
  }

  lemma OnlySteps(xs: Series, downs: Series)
    requires AreSteps(downs, xs, false) && forall j :: 0 <= j < |xs| ==> xs[j].Some?
    requires forall j :: 0 < j < |xs| ==> xs[j - 1].value > xs[j].value
    ensures forall v: real :: Some(v) in downs ==> v > 0.0
  {
    forall v: real | Some(v) in downs ensures v > 0.0 {
      var i :| 0 <= i < |downs| && downs[i] == Some(v);
    }
  }

  lemma RmaOfZeros(steps: Series, length: nat, i: nat)
    requires length >= 1 && i < |steps| && forall v: real :: Some(v) in steps ==> v == 0.0
    ensures Rma(steps, length)[i].Some? ==> Rma(steps, length)[i].value == 0.0
  {
    AveragesStayWithinInputs(steps, length, 0.0, 0.0, i);
    hide Rma;
  }

  lemma LowestIsPositive(ys: seq<real>) returns (low: real)
    requires forall y :: y in ys ==> y > 0.0
    ensures low > 0.0 && forall y :: y in ys ==> low <= y
  {
    low := 1.0;
    for i := 0 to |ys|
      invariant low > 0.0 && forall j :: 0 <= j < i ==> low <= ys[j]
    {
      assert ys[i] in ys;
      low := Min(low, ys[i]);
    }
  }

  lemma RmaOfPositives(steps: Series, length: nat, i: nat)
    requires length >= 1 && i < |steps| && forall v: real :: Some(v) in steps ==> v > 0.0
    ensures Rma(steps, length)[i].Some? ==> Rma(steps, length)[i].value > 0.0
  {
    DefinedMembers(steps);
    var low := LowestIsPositive(Defined(steps));
    AveragesStayWithinInputs(steps, length, low, Highest(steps), i);
    hide Rma;
  }

  /** A series that never falls reads 100; one that falls at every step reads 0. */
  lemma OnlyRisingReadsHundredOnlyFallingZero(xs: Series, length: nat, i: nat)
    requires length >= 1 && length <= i < |xs| && forall j :: 0 <= j < |xs| ==> xs[j].Some?
    ensures Rsi(xs, length)[i].Some?
    ensures (forall j :: 0 < j < |xs| ==> xs[j - 1].value <= xs[j].value) ==> Rsi(xs, length)[i].value == 100.0
    ensures (forall j :: 0 < j < |xs| ==> xs[j - 1].value > xs[j].value) ==> Rsi(xs, length)[i].value == 0.0
  {
    hide Rma, Rsi, Gains, Drops, Diff;
    RsiIsDefinedAfterWarmup(xs, length, i);
    var (ups, downs) := (Gains(Diff(xs)), Drops(Diff(xs)));
    StepsAre(xs);
    RsiIsTheShareOfGains(xs, length, i, ups, downs);
    if forall j :: 0 < j < |xs| ==> xs[j - 1].value <= xs[j].value {
      NoSteps(xs, downs, false);
      RmaOfZeros(downs, length, i);
    }
    if forall j :: 0 < j < |xs| ==> xs[j - 1].value > xs[j].value {
      NoSteps(xs, ups, true);
      OnlySteps(xs, downs);
      RmaOfZeros(ups, length, i);
      RmaOfPositives(downs, length, i);
    }
  }
}
