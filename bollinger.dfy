/** The band calculator of lib/indicators/bollinger.ts: a trailing simple
    moving average (running sum), a sample standard deviation over the same
    window, and the upper and lower bands at `mul` deviations from the basis.
    `Math.sqrt` is not fixed by the model: every operation that needs it
    takes it as the parameter `sqrt`. */
module Bollinger {
  import opened Wrappers
  import opened Types

  // ---------------------------------------------------------------------
  // Window length and source values
  // ---------------------------------------------------------------------

  /** `Math.max(1, Math.floor(length))`: the window length actually used. */
  function EffectiveLength(length: real): (len: int)
    ensures len >= 1
    ensures len == 1 <==> length < 2.0
    ensures length >= 1.0 ==> len as real <= length < len as real + 1.0
  {
    var f := length.Floor;
    if f > 1 then f else 1
  }

  /** `data.map((d) => d[src])`. */
  function SourceValues(data: seq<Candle>, src: PriceSource): seq<real> {
    seq(|data|, i requires 0 <= i < |data| => SourceValue(data[i], src))
  }

  /** One value per candle; value `i` is candle `i`'s price for the
      selected source. */
  lemma SourceValuesAt(data: seq<Candle>, src: PriceSource)
    ensures |SourceValues(data, src)| == |data|
    ensures forall i :: 0 <= i < |data| ==> SourceValues(data, src)[i] == SourceValue(data[i], src)
  {
  }

  // ---------------------------------------------------------------------
  // Sums and the running-sum moving average
  // ---------------------------------------------------------------------

  /** `s.reduce((a, b) => a + b, 0)`, folded from the left. */
  function Sum(s: seq<real>): real {
    if |s| == 0 then 0.0 else Sum(s[..|s| - 1]) + s[|s| - 1]
  }

  /** The fold can equally be taken apart at its first element. */
  lemma {:induction false} SumFirst(s: seq<real>)
    requires |s| > 0
    ensures Sum(s) == s[0] + Sum(s[1..])
  {
    if |s| == 1 {
      assert s[..0] == [] && s[1..] == [];
    } else {
      var init := s[..|s| - 1];
      SumFirst(init);
      assert init[1..] == s[1..][..|s[1..]| - 1];
    }
  }

  /** Extending a slice by one element on the right adds that element. */
  lemma SumExtendRight(s: seq<real>, lo: int, hi: int)
    requires 0 <= lo <= hi < |s|
    ensures Sum(s[lo..hi + 1]) == Sum(s[lo..hi]) + s[hi]
  {
    assert s[lo..hi + 1][..hi - lo] == s[lo..hi];
  }

  /** Dropping the leftmost element of a slice subtracts it. */
  lemma SumDropLeft(s: seq<real>, lo: int, hi: int)
    requires 0 <= lo < hi <= |s|
    ensures Sum(s[lo + 1..hi]) == Sum(s[lo..hi]) - s[lo]
  {
    SumFirst(s[lo..hi]);
    assert s[lo..hi][1..] == s[lo + 1..hi];
  }

  /** The sum of `n` copies of `c` is `n * c`. */
  lemma {:induction false} SumFlat(s: seq<real>, c: real)
    requires forall k :: 0 <= k < |s| ==> s[k] == c
    ensures Sum(s) == |s| as real * c
  {
    if |s| > 0 {
      SumFlat(s[..|s| - 1], c);
    }
  }

  /** `sma(arr, length)`: an array filled with NaN, then one pass that keeps
      the running sum of the last `length` values and records `sum / length`
      from index `length - 1` on. Its result at every index is the sum of the
      trailing window of `length` values divided by `length`, and undefined
      where fewer than `length` values have been seen. */
  method Sma(arr: seq<real>, length: int) returns (out: seq<Option<real>>)
    requires length >= 1
    ensures |out| == |arr|
    ensures forall i :: 0 <= i < |arr| && i < length - 1 ==> out[i] == None
    ensures forall i :: 0 <= i < |arr| && i >= length - 1 ==>
              out[i] == Some(Sum(arr[i - (length - 1)..i + 1]) / length as real)
  {
    var a := new Option<real>[|arr|](_ => None);
    var sum := 0.0;
    for i := 0 to |arr|
      invariant sum == Sum(arr[(if i >= length then i - length else 0)..i])
      invariant forall k :: 0 <= k < i && k < length - 1 ==> a[k] == None
      invariant forall k :: 0 <= k < i && k >= length - 1 ==>
                  a[k] == Some(Sum(arr[k - (length - 1)..k + 1]) / length as real)
      invariant forall k :: i <= k < |arr| ==> a[k] == None
    {
      var lo := if i >= length then i - length else 0;
      SumExtendRight(arr, lo, i);
      sum := sum + arr[i];
      if i >= length {
        SumDropLeft(arr, i - length, i + 1);
        sum := sum - arr[i - length];
      }
      if i >= length - 1 {
        a[i] := Some(sum / length as real);
      }
    }
    out := a[..];
  }

  // ---------------------------------------------------------------------
  // Mean, variance and sample standard deviation
  // ---------------------------------------------------------------------

  /** The arithmetic mean of a non-empty window. */
  function Mean(w: seq<real>): real
    requires |w| > 0
  {
    Sum(w) / |w| as real
  }

  /** The mean of a window of equal values is that value. */
  lemma MeanOfFlatWindow(w: seq<real>, c: real)
    requires |w| > 0
    requires forall k :: 0 <= k < |w| ==> w[k] == c
    ensures Mean(w) == c
  {
    SumFlat(w, c);
  }

  /** `w.reduce((acc, v) => acc + Math.pow(v - mean, 2), 0)`. */
  function SumSquaredDeviations(w: seq<real>, mean: real): real {
    if |w| == 0 then 0.0
    else SumSquaredDeviations(w[..|w| - 1], mean) + (w[|w| - 1] - mean) * (w[|w| - 1] - mean)
  }

  lemma PositiveSquare(x: real)
    requires x > 0.0
    ensures x * x > 0.0
  {
  }

  lemma NegativeSquare(x: real)
    requires x < 0.0
    ensures x * x > 0.0
  {
  }

  /** A square is never negative, and positive away from zero. */
  lemma SquareSign(x: real)
    ensures x * x >= 0.0
    ensures x == 0.0 || x * x > 0.0
  {
    if x > 0.0 {
      PositiveSquare(x);
    } else if x < 0.0 {
      NegativeSquare(x);
    }
  }

  lemma {:induction false} SumSquaredDeviationsNonNegative(w: seq<real>, mean: real)
    ensures SumSquaredDeviations(w, mean) >= 0.0
  {
    if |w| > 0 {
      SumSquaredDeviationsNonNegative(w[..|w| - 1], mean);
      SquareSign(w[|w| - 1] - mean);
    }
  }

  /** The squared deviations from a value every element equals are zero. */
  lemma {:induction false} SumSquaredDeviationsFlat(w: seq<real>, mean: real)
    requires forall k :: 0 <= k < |w| ==> w[k] == mean
    ensures SumSquaredDeviations(w, mean) == 0.0
  {
    if |w| > 0 {
      SumSquaredDeviationsFlat(w[..|w| - 1], mean);
      assert w[|w| - 1] - mean == 0.0;
    }
  }

  /** Sum of squared deviations from the mean over `n - 1` (Bessel's
      correction); never negative. */
  function SampleVariance(w: seq<real>): (v: real)
    requires |w| >= 2
    ensures v >= 0.0
  {
    SumSquaredDeviationsNonNegative(w, Mean(w));
    SumSquaredDeviations(w, Mean(w)) / (|w| - 1) as real
  }

  /** A flat window has zero sample variance. */
  lemma SampleVarianceOfFlatWindow(w: seq<real>)
    requires |w| >= 2
    requires forall k :: 0 <= k < |w| ==> w[k] == w[0]
    ensures Mean(w) == w[0]
    ensures SampleVariance(w) == 0.0
  {
    SumFlat(w, w[0]);
    assert Mean(w) == w[0];
    SumSquaredDeviationsFlat(w, w[0]);
  }

  /** `sampleStdDev(window)`: 0 for a window of at most one value, otherwise
      the square root of the sample variance. */
  function SampleStdDev(w: seq<real>, sqrt: real -> real): real {
    if |w| <= 1 then 0.0 else sqrt(SampleVariance(w))
  }

  /** The deviation of a short window is 0 whatever square root is used,
      and never negative for a square root that is non-negative on
      non-negative arguments, because the variance is never negative. */
  lemma SampleStdDevProperties(w: seq<real>, sqrt: real -> real)
    ensures |w| <= 1 ==> SampleStdDev(w, sqrt) == 0.0
    ensures (forall x :: 0.0 <= x ==> 0.0 <= sqrt(x)) ==> 0.0 <= SampleStdDev(w, sqrt)
  {
    if |w| >= 2 {
      assert 0.0 <= SampleVariance(w);
    }
  }

  // ---------------------------------------------------------------------
  // The band series
  // ---------------------------------------------------------------------

  /** `values.slice(i - (len - 1), i + 1)`: the `len` values ending at `i`. */
  function Window(values: seq<real>, i: int, len: int): (w: seq<real>)
    requires 1 <= len && len - 1 <= i < |values|
    ensures |w| == len
    ensures forall k :: 0 <= k < len ==> w[k] == values[i - (len - 1) + k]
  {
    values[i - (len - 1)..i + 1]
  }

  /** `basis + delta`, where an undefined basis stays undefined as NaN does. */
  function PlusDelta(basis: Option<real>, delta: real): Option<real> {
    match basis
    case None => None
    case Some(b) => Some(b + delta)
  }

  /** The point the map callback builds at index `i` from the basis value
      found there. */
  function PointAt(d: Candle, values: seq<real>, i: int, len: int, mul: real,
                   basis: Option<real>, sqrt: real -> real): BollingerResultPoint
    requires 0 <= i < |values| && len >= 1
  {
    if i < len - 1 then
      Undefined(d.timestamp)
    else
      var stdev := SampleStdDev(Window(values, i, len), sqrt);
      BollingerResultPoint(d.timestamp, basis, PlusDelta(basis, mul * stdev), PlusDelta(basis, -(mul * stdev)))
  }

  /** A point keeps its candle's timestamp; it is undefined before a full
      window, and otherwise carries the basis with bands `mul` window
      deviations above and below it, all three undefined together. */
  lemma PointAtSpec(d: Candle, values: seq<real>, i: int, len: int, mul: real,
                    basis: Option<real>, sqrt: real -> real)
    requires 0 <= i < |values| && len >= 1
    ensures var p := PointAt(d, values, i, len, mul, basis, sqrt);
            p.timestamp == d.timestamp &&
            (i < len - 1 ==> IsUndefined(p)) &&
            (i >= len - 1 ==> p.basis == basis && p.upper.Some? == basis.Some? && p.lower.Some? == basis.Some?)
    ensures i >= len - 1 && basis.Some? ==>
              var p := PointAt(d, values, i, len, mul, basis, sqrt);
              var stdev := SampleStdDev(Window(values, i, len), sqrt);
              p.upper.value - basis.value == mul * stdev && basis.value - p.lower.value == mul * stdev
  {
  }

  /** The basis the reference definition expects at index `i`: the mean of
      the full window ending there, undefined before one is available. */
  function MeanBasis(values: seq<real>, i: int, len: int): Option<real>
    requires 0 <= i < |values| && len >= 1
  {
    if i < len - 1 then None else Some(Mean(Window(values, i, len)))
  }

  /** Reference definition of the calculator's output: the basis at every
      index with a full window is the arithmetic mean of that window. */
  function Bands(data: seq<Candle>, inputs: BollingerInputs, sqrt: real -> real): (series: seq<BollingerResultPoint>)
    ensures |series| == |data|
    ensures forall i :: 0 <= i < |data| ==> series[i].timestamp == data[i].timestamp
  {
    var len := EffectiveLength(inputs.length);
    var values := SourceValues(data, inputs.source);
    seq(|data|, i requires 0 <= i < |data| =>
      PointAt(data[i], values, i, len, inputs.stdDevMultiplier, MeanBasis(values, i, len), sqrt))
  }

  /** One point of the reference series. */
  lemma BandsAt(data: seq<Candle>, inputs: BollingerInputs, sqrt: real -> real, i: int)
    requires 0 <= i < |data|
    ensures var values := SourceValues(data, inputs.source);
            var len := EffectiveLength(inputs.length);
            Bands(data, inputs, sqrt)[i] ==
              PointAt(data[i], values, i, len, inputs.stdDevMultiplier, MeanBasis(values, i, len), sqrt)
  {
  }

  /** `computeBollingerBands(data, inputs)`: runs the moving average over the
      selected prices and maps every candle to its band point. */
  method ComputeBollingerBands(data: seq<Candle>, inputs: BollingerInputs, sqrt: real -> real)
    returns (result: BollingerResult)
    ensures result.series == Bands(data, inputs, sqrt)
  {
    var len := EffectiveLength(inputs.length);
    var mul := inputs.stdDevMultiplier;
    var values := SourceValues(data, inputs.source);
    var basisArr := Sma(values, len);
    var out := seq(|data|, i requires 0 <= i < |data| =>
      PointAt(data[i], values, i, len, mul, basisArr[i], sqrt));
    forall i | 0 <= i < |data|
      ensures basisArr[i] == MeanBasis(values, i, len)
    {
      if i >= len - 1 {
        assert Window(values, i, len) == values[i - (len - 1)..i + 1];
      }
    }
    result := BollingerResult(out);
  }

  // ---------------------------------------------------------------------
  // Properties of the band series
  // ---------------------------------------------------------------------

  /** Before a full window is available all three bands are undefined. */
  lemma BandsUndefinedBeforeFullWindow(data: seq<Candle>, inputs: BollingerInputs, sqrt: real -> real, i: int)
    requires 0 <= i < |data| && i < EffectiveLength(inputs.length) - 1
    ensures IsUndefined(Bands(data, inputs, sqrt)[i])
  {
  }

  /** From index `len - 1` on, the window is the `len` prices ending at `i`
      and the basis is their arithmetic mean. */
  lemma BandsBasisIsWindowMean(data: seq<Candle>, inputs: BollingerInputs, sqrt: real -> real, i: int)
    requires 0 <= i < |data| && i >= EffectiveLength(inputs.length) - 1
    ensures var len := EffectiveLength(inputs.length);
            var w := SourceValues(data, inputs.source)[i - (len - 1)..i + 1];
            |w| == len &&
            (forall k :: 0 <= k < len ==> w[k] == SourceValue(data[i - (len - 1) + k], inputs.source)) &&
            Bands(data, inputs, sqrt)[i].basis == Some(Mean(w))
  {
  }

  /** Every defined point lies symmetrically about its basis, at
      `mul * stdev` above and below. */
  lemma BandsSymmetric(data: seq<Candle>, inputs: BollingerInputs, sqrt: real -> real, i: int)
    requires 0 <= i < |data| && i >= EffectiveLength(inputs.length) - 1
    ensures var len := EffectiveLength(inputs.length);
            var stdev := SampleStdDev(Window(SourceValues(data, inputs.source), i, len), sqrt);
            var p := Bands(data, inputs, sqrt)[i];
            p.basis.Some? && p.upper.Some? && p.lower.Some? &&
            p.upper.value - p.basis.value == inputs.stdDevMultiplier * stdev &&
            p.basis.value - p.lower.value == inputs.stdDevMultiplier * stdev
  {
    BandsAt(data, inputs, sqrt, i);
  }

  /** With a zero multiplier the three lines coincide everywhere. */
  lemma BandsZeroMultiplier(data: seq<Candle>, inputs: BollingerInputs, sqrt: real -> real)
    requires inputs.stdDevMultiplier == 0.0
    ensures forall i :: 0 <= i < |data| ==>
              Bands(data, inputs, sqrt)[i].upper == Bands(data, inputs, sqrt)[i].basis &&
              Bands(data, inputs, sqrt)[i].lower == Bands(data, inputs, sqrt)[i].basis
  {
  }

  /** With a non-negative multiplier and a non-negative square root, lower
      <= basis <= upper at every defined point. */
  lemma BandsOrdered(data: seq<Candle>, inputs: BollingerInputs, sqrt: real -> real, i: int)
    requires 0 <= i < |data| && i >= EffectiveLength(inputs.length) - 1
    requires inputs.stdDevMultiplier >= 0.0
    requires forall x :: 0.0 <= x ==> 0.0 <= sqrt(x)
    ensures var p := Bands(data, inputs, sqrt)[i];
            p.lower.Some? && p.basis.Some? && p.upper.Some? &&
            p.lower.value <= p.basis.value <= p.upper.value
  {
    var len := EffectiveLength(inputs.length);
    var w := Window(SourceValues(data, inputs.source), i, len);
    BandWidthNonNegative(w, inputs.stdDevMultiplier, sqrt);
    BandsSymmetric(data, inputs, sqrt, i);
  }

  /** `mul` deviations of a window are never negative for a non-negative
      multiplier and a non-negative square root. */
  lemma BandWidthNonNegative(w: seq<real>, mul: real, sqrt: real -> real)
    requires mul >= 0.0
    requires forall x :: 0.0 <= x ==> 0.0 <= sqrt(x)
    ensures 0.0 <= mul * SampleStdDev(w, sqrt)
  {
    SampleStdDevProperties(w, sqrt);
    ProductNonNegative(mul, SampleStdDev(w, sqrt));
  }

  lemma ProductNonNegative(a: real, b: real)
    requires 0.0 <= a && 0.0 <= b
    ensures 0.0 <= a * b
  {
  }

  /** A length below 2 (zero, negative or fractional included) acts as a
      window of one: the basis is the candle's own price and the bands
      collapse onto it. */
  lemma BandsUnitLength(data: seq<Candle>, inputs: BollingerInputs, sqrt: real -> real)
    requires inputs.length < 2.0
    ensures EffectiveLength(inputs.length) == 1
    ensures forall i :: 0 <= i < |data| ==>
              SampleStdDev(Window(SourceValues(data, inputs.source), i, 1), sqrt) == 0.0 &&
              Bands(data, inputs, sqrt)[i].basis == Some(SourceValue(data[i], inputs.source)) &&
              Bands(data, inputs, sqrt)[i].upper == Bands(data, inputs, sqrt)[i].basis &&
              Bands(data, inputs, sqrt)[i].lower == Bands(data, inputs, sqrt)[i].basis
  {
    var values := SourceValues(data, inputs.source);
    forall i | 0 <= i < |data|
      ensures Bands(data, inputs, sqrt)[i].basis == Some(SourceValue(data[i], inputs.source))
      ensures Bands(data, inputs, sqrt)[i].upper == Bands(data, inputs, sqrt)[i].basis
      ensures Bands(data, inputs, sqrt)[i].lower == Bands(data, inputs, sqrt)[i].basis
    {
      var w := Window(values, i, 1);
      assert w == [values[i]];
      assert Sum(w) == values[i] by {
        assert w[..0] == [];
      }
    }
  }

  /** Over a window of equal prices the bands have zero width, given a
      square root that maps 0 to 0. */
  lemma BandsFlatWindow(data: seq<Candle>, inputs: BollingerInputs, sqrt: real -> real, i: int)
    requires 0 <= i < |data| && i >= EffectiveLength(inputs.length) - 1
    requires forall k :: i - (EffectiveLength(inputs.length) - 1) <= k <= i ==>
               SourceValue(data[k], inputs.source) == SourceValue(data[i], inputs.source)
    requires sqrt(0.0) == 0.0
    ensures Bands(data, inputs, sqrt)[i].upper == Bands(data, inputs, sqrt)[i].basis
    ensures Bands(data, inputs, sqrt)[i].lower == Bands(data, inputs, sqrt)[i].basis
  {
    var len := EffectiveLength(inputs.length);
    var values := SourceValues(data, inputs.source);
    var w := Window(values, i, len);
    if len >= 2 {
      forall k | 0 <= k < len ensures w[k] == w[0] {
        assert w[k] == SourceValue(data[i - (len - 1) + k], inputs.source);
      }
      SampleVarianceOfFlatWindow(w);
    }
    assert SampleStdDev(w, sqrt) == 0.0;
    BandsAt(data, inputs, sqrt, i);
    PointAtZeroWidth(data[i], values, i, len, inputs.stdDevMultiplier, MeanBasis(values, i, len), sqrt);
  }

  /** A point whose window has zero deviation has zero width. */
  lemma PointAtZeroWidth(d: Candle, values: seq<real>, i: int, len: int, mul: real,
                         basis: Option<real>, sqrt: real -> real)
    requires 0 <= i < |values| && len >= 1 && len - 1 <= i
    requires SampleStdDev(Window(values, i, len), sqrt) == 0.0
    ensures PointAt(d, values, i, len, mul, basis, sqrt).upper == basis
    ensures PointAt(d, values, i, len, mul, basis, sqrt).lower == basis
  {
    var stdev := SampleStdDev(Window(values, i, len), sqrt);
    assert mul * stdev == 0.0;
  }

  /** A candle whose four prices are all `close`. */
  function FlatCandle(timestamp: int, close: real): Candle {
    Candle(timestamp, close, close, close, close, None)
  }

  /** Closes 1, 2, 3, 4, 5 with length 3 and multiplier 2: the first two
      points are undefined; at index 2 the basis is 2, the sample standard
      deviation of [1, 2, 3] is 1, so the bands are 4 and 0. */
  lemma ExampleFiveCloses(sqrt: real -> real)
    requires sqrt(1.0) == 1.0
    ensures var data := [FlatCandle(0, 1.0), FlatCandle(1, 2.0), FlatCandle(2, 3.0),
                         FlatCandle(3, 4.0), FlatCandle(4, 5.0)];
            var s := Bands(data, BollingerInputs(3.0, SMA, Close, 2.0, 0), sqrt);
            |s| == 5 && IsUndefined(s[0]) && IsUndefined(s[1]) &&
            s[2] == BollingerResultPoint(2, Some(2.0), Some(4.0), Some(0.0)) &&
            s[3] == BollingerResultPoint(3, Some(3.0), Some(5.0), Some(1.0)) &&
            s[4] == BollingerResultPoint(4, Some(4.0), Some(6.0), Some(2.0))
  {
    var data := [FlatCandle(0, 1.0), FlatCandle(1, 2.0), FlatCandle(2, 3.0),
                 FlatCandle(3, 4.0), FlatCandle(4, 5.0)];
    var inputs := BollingerInputs(3.0, SMA, Close, 2.0, 0);
    var values := SourceValues(data, Close);
    assert values == [1.0, 2.0, 3.0, 4.0, 5.0];
    assert EffectiveLength(3.0) == 3;
    forall i | 2 <= i < 5
      ensures Bands(data, inputs, sqrt)[i] ==
                BollingerResultPoint(i, Some(i as real), Some(i as real + 2.0), Some(i as real - 2.0))
    {
      var m := i as real;
      assert Window(values, i, 3) == [m - 1.0, m, m + 1.0];
      StepWindowStatistics(m);
      StepPoint(data[i], values, i, m, sqrt);
      BandsAt(data, inputs, sqrt, i);
    }
  }

  /** The point over the window [m - 1, m, m + 1] with multiplier 2 and basis
      m has bands m + 2 and m - 2. */
  lemma StepPoint(d: Candle, values: seq<real>, i: int, m: real, sqrt: real -> real)
    requires 2 <= i < |values|
    requires Window(values, i, 3) == [m - 1.0, m, m + 1.0]
    requires sqrt(1.0) == 1.0
    ensures PointAt(d, values, i, 3, 2.0, Some(m), sqrt) ==
              BollingerResultPoint(d.timestamp, Some(m), Some(m + 2.0), Some(m - 2.0))
  {
    StepWindowStatistics(m);
    assert SampleStdDev(Window(values, i, 3), sqrt) == 1.0;
  }

  /** The window [m - 1, m, m + 1] has mean m and sample variance 1. */
  lemma StepWindowStatistics(m: real)
    ensures Mean([m - 1.0, m, m + 1.0]) == m
    ensures SampleVariance([m - 1.0, m, m + 1.0]) == 1.0
  {
    var w := [m - 1.0, m, m + 1.0];
    assert w[..2] == [m - 1.0, m] && w[..2][..1] == [m - 1.0] && w[..2][..1][..0] == [];
    assert Sum(w[..2][..1]) == m - 1.0;
    assert Sum(w[..2]) == 2.0 * m - 1.0;
    assert Sum(w) == 3.0 * m;
    assert SumSquaredDeviations(w[..2][..1], m) == 1.0;
    assert SumSquaredDeviations(w[..2], m) == 1.0;
    assert SumSquaredDeviations(w, m) == 2.0;
  }
}
