/** The series post-processing of components/Chart.tsx: shifting the band
    series by a whole number of bars, splitting it into three lines, joining
    the upper and lower lines into the background polygon, and clamping the
    background opacity. */
module Chart {
  import opened Wrappers
  import opened Types

  // ---------------------------------------------------------------------
  // Shifting
  // ---------------------------------------------------------------------

  /** The band values of `p` with the timestamp of slot `q`: the spread
      `{ ...p, timestamp: q.timestamp }`. */
  function Restamp(p: BollingerResultPoint, q: BollingerResultPoint): (r: BollingerResultPoint)
    ensures r.timestamp == q.timestamp && SameBands(r, p)
  {
    p.(timestamp := q.timestamp)
  }

  /** `p` and `q` carry the same three band values. */
  predicate SameBands(p: BollingerResultPoint, q: BollingerResultPoint) {
    p.basis == q.basis && p.upper == q.upper && p.lower == q.lower
  }

  /** Reference definition of a shift by `offset` bars: slot `j` receives
      the values of slot `j - offset` when that slot exists, and is
      undefined otherwise; it keeps its own timestamp either way. */
  function Shifted(series: seq<BollingerResultPoint>, offset: int): (r: seq<BollingerResultPoint>)
    ensures |r| == |series|
  {
    seq(|series|, j requires 0 <= j < |series| =>
      if 0 <= j - offset < |series| then Restamp(series[j - offset], series[j])
      else Undefined(series[j].timestamp))
  }

  /** What slot `j` of the work array holds once the first `i` source
      slots have been placed. */
  ghost function Placed(series: seq<BollingerResultPoint>, offset: int, i: int, j: int): Option<BollingerResultPoint>
    requires 0 <= i <= |series| && 0 <= j < |series|
  {
    if 0 <= j - offset < i then Some(Restamp(series[j - offset], series[j])) else None
  }

  /** `shiftSeries(series, offset)`: offset 0 returns the series itself;
      otherwise an array of empty slots is filled by one pass (forward for a
      positive offset, backward-indexed for a negative one) and every slot
      left empty becomes an undefined point with its own timestamp. */
  method ShiftSeries(series: seq<BollingerResultPoint>, offset: int) returns (r: seq<BollingerResultPoint>)
    ensures r == Shifted(series, offset)
  {
    if offset == 0 {
      ShiftedByZero(series);
      return series;
    }
    var n := |series|;
    var out := new Option<BollingerResultPoint>[n](_ => None);
    if offset > 0 {
      for i := 0 to n
        invariant forall j :: 0 <= j < n ==> out[j] == Placed(series, offset, i, j)
      {
        var j := i + offset;
        if j < n {
          out[j] := Some(Restamp(series[i], series[j]));
        }
      }
    } else {
      for i := 0 to n
        invariant forall j :: 0 <= j < n ==> out[j] == Placed(series, offset, i, j)
      {
        var j := i + offset;
        if j >= 0 {
          out[j] := Some(Restamp(series[i], series[j]));
        }
      }
    }
    var slots := out[..];
    r := seq(n, j requires 0 <= j < n =>
      match slots[j]
      case Some(p) => p
      case None => Undefined(series[j].timestamp));
    forall j | 0 <= j < n ensures r[j] == Shifted(series, offset)[j] {
      assert slots[j] == Placed(series, offset, n, j);
    }
  }

  /** Every slot keeps its own timestamp, whether or not it received a
      shifted value. */
  lemma ShiftedKeepsTimestamps(series: seq<BollingerResultPoint>, offset: int)
    ensures forall j {:trigger Shifted(series, offset)[j]} :: 0 <= j < |series| ==>
              Shifted(series, offset)[j].timestamp == series[j].timestamp
  {
  }

  /** Shifting by zero is the identity. */
  lemma ShiftedByZero(series: seq<BollingerResultPoint>)
    ensures Shifted(series, 0) == series
  {
    forall j | 0 <= j < |series| ensures Shifted(series, 0)[j] == series[j] {
    }
  }

  /** A positive shift `k` moves the values of slot `i` to slot `i + k`
      when that slot exists and leaves the first `k` slots undefined. */
  lemma ShiftedForward(series: seq<BollingerResultPoint>, k: int)
    requires k > 0
    ensures forall i :: 0 <= i && i + k < |series| ==> SameBands(Shifted(series, k)[i + k], series[i])
    ensures forall j :: 0 <= j < |series| && j < k ==> IsUndefined(Shifted(series, k)[j])
  {
    var r := Shifted(series, k);
    forall i | 0 <= i && i + k < |series| ensures SameBands(r[i + k], series[i]) {
      assert r[i + k] == Restamp(series[i], series[i + k]);
    }
  }

  /** A negative shift `k` moves the values of slot `i` to slot `i + k`
      when that slot exists and leaves the last `|k|` slots undefined. */
  lemma ShiftedBackward(series: seq<BollingerResultPoint>, k: int)
    requires k < 0
    ensures forall i :: 0 <= i + k && i < |series| ==> SameBands(Shifted(series, k)[i + k], series[i])
    ensures forall j :: 0 <= j < |series| && j >= |series| + k ==> IsUndefined(Shifted(series, k)[j])
  {
    var r := Shifted(series, k);
    forall i | 0 <= i + k && i < |series| ensures SameBands(r[i + k], series[i]) {
      assert r[i + k] == Restamp(series[i], series[i + k]);
    }
  }

  /** A shift by at least the series length, either way, leaves nothing defined. */
  lemma ShiftedPastEnd(series: seq<BollingerResultPoint>, k: int)
    requires k >= |series| || -k >= |series|
    ensures forall j :: 0 <= j < |series| ==> IsUndefined(Shifted(series, k)[j])
  {
  }

  /** Shifting by `k` and back by `-k` restores the values of every slot
      whose shifted position lies inside the series. */
  lemma ShiftedRoundTrip(series: seq<BollingerResultPoint>, k: int, j: int)
    requires 0 <= j < |series| && 0 <= j + k < |series|
    ensures Shifted(Shifted(series, k), -k)[j] == series[j]
  {
    var once := Shifted(series, k);
    assert once[j + k] == Restamp(series[j], series[j + k]);
  }

  // ---------------------------------------------------------------------
  // The three lines
  // ---------------------------------------------------------------------

  /** One vertex of a drawn line. */
  datatype LinePoint = LinePoint(timestamp: int, value: Option<real>)

  /** The three projected lines and the shifted series they come from. */
  datatype BandLines = BandLines(basis: seq<LinePoint>, upper: seq<LinePoint>,
                                 lower: seq<LinePoint>, raw: seq<BollingerResultPoint>)

  datatype Band = Basis | Upper | Lower

  function BandValue(p: BollingerResultPoint, b: Band): Option<real> {
    match b
    case Basis => p.basis
    case Upper => p.upper
    case Lower => p.lower
  }

  /** `shifted.map((p) => ({ timestamp: p.timestamp, value: p.<band> }))`. */
  function Project(series: seq<BollingerResultPoint>, b: Band): (line: seq<LinePoint>)
    ensures |line| == |series|
    ensures forall j {:trigger line[j]} :: 0 <= j < |series| ==>
              line[j].timestamp == series[j].timestamp && line[j].value == BandValue(series[j], b)
  {
    seq(|series|, j requires 0 <= j < |series| => LinePoint(series[j].timestamp, BandValue(series[j], b)))
  }

  /** The `lines` memo: no indicator gives no lines; otherwise the series is
      shifted by the offset (passed through when it is 0) and split into the
      basis, upper and lower lines, each aligned slot for slot with the
      indicator's own timestamps. */
  method Lines(indicator: Option<BollingerResult>, offset: int) returns (lines: Option<BandLines>)
    ensures lines.None? <==> indicator.None?
    ensures indicator.Some? ==>
              var series := indicator.value.series;
              var l := lines.value;
              l.raw == Shifted(series, offset) &&
              |l.basis| == |series| && |l.upper| == |series| && |l.lower| == |series| &&
              (forall j {:trigger l.raw[j]} :: 0 <= j < |series| ==> l.raw[j].timestamp == series[j].timestamp) &&
              forall j :: 0 <= j < |series| ==>
                l.basis[j] == LinePoint(l.raw[j].timestamp, l.raw[j].basis) &&
                l.upper[j] == LinePoint(l.raw[j].timestamp, l.raw[j].upper) &&
                l.lower[j] == LinePoint(l.raw[j].timestamp, l.raw[j].lower)
  {
    if indicator.None? {
      return None;
    }
    var shifted;
    if offset == 0 {
      shifted := indicator.value.series;
      ShiftedByZero(shifted);
    } else {
      shifted := ShiftSeries(indicator.value.series, offset);
    }
    ShiftedKeepsTimestamps(indicator.value.series, offset);
    lines := Some(BandLines(Project(shifted, Basis), Project(shifted, Upper), Project(shifted, Lower), shifted));
  }

  // ---------------------------------------------------------------------
  // Background polygon
  // ---------------------------------------------------------------------

  /** `[...s].reverse()`. */
  function Reverse<T>(s: seq<T>): (r: seq<T>)
    ensures |r| == |s|
    ensures forall k :: 0 <= k < |s| ==> r[k] == s[|s| - 1 - k]
  {
    if |s| == 0 then [] else [s[|s| - 1]] + Reverse(s[..|s| - 1])
  }

  /** Reversing twice gives back the original sequence. */
  lemma ReverseReverse<T>(s: seq<T>)
    ensures Reverse(Reverse(s)) == s
  {
  }

  /** `buildBandPolygon(upper, lower)`: the upper line in order followed by
      the lower line reversed, so the outline runs along the upper band and
      back along the lower one. */
  function BuildBandPolygon(upper: seq<LinePoint>, lower: seq<LinePoint>): (pts: seq<LinePoint>)
    ensures |pts| == |upper| + |lower|
    ensures forall k :: 0 <= k < |upper| ==> pts[k] == upper[k]
    ensures forall k :: |upper| <= k < |pts| ==> pts[k] == lower[|upper| + |lower| - 1 - k]
  {
    upper + Reverse(lower)
  }

  /** The polygon can be cut back into the two lines it was built from. */
  lemma BandPolygonSplits(upper: seq<LinePoint>, lower: seq<LinePoint>)
    ensures BuildBandPolygon(upper, lower)[..|upper|] == upper
    ensures Reverse(BuildBandPolygon(upper, lower)[|upper|..]) == lower
  {
    var pts := BuildBandPolygon(upper, lower);
    assert pts[|upper|..] == Reverse(lower);
    ReverseReverse(lower);
  }

  // ---------------------------------------------------------------------
  // Background opacity
  // ---------------------------------------------------------------------

  /** The alpha of `rgbaGrey(alpha)`: `Math.max(0, Math.min(1, alpha))`. */
  function GreyAlpha(alpha: real): (a: real)
    ensures 0.0 <= a <= 1.0
    ensures 0.0 <= alpha <= 1.0 ==> a == alpha
    ensures alpha < 0.0 ==> a == 0.0
    ensures alpha > 1.0 ==> a == 1.0
  {
    var capped := if alpha < 1.0 then alpha else 1.0;
    if capped > 0.0 then capped else 0.0
  }

  /** Clamping an already clamped opacity changes nothing. */
  lemma GreyAlphaIdempotent(alpha: real)
    ensures GreyAlpha(GreyAlpha(alpha)) == GreyAlpha(alpha)
  {
  }
}
