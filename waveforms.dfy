/** Lookup-table (LUT) synthesis from waveforms.py, over exact reals: a
    half-open time axis over one period, peak normalisation and clipping into
    [-1, 1], a Gaussian envelope, and the two waveform families built on them
    (the Gaussian tau-pi/2-tau-pi/2 "Ramsey" pulse pair and the square wave). */
module Waveforms {
  import opened Results
  import Text

  /** Why a call raises. All of them are a `ValueError` in Python except
      `DivisionByZero`, the `ZeroDivisionError` of `1.0 / T_rep`. */
  datatype WaveError =
    | SampleCountNotPositive                   // "N must be positive"
    | PeriodNotPositive                        // "T_rep_s must be finite and > 0"
    | PeakNotPositive                          // "Waveform peak is zero or non-finite"
    | UnsupportedStrategy(normalize: string)   // "Unsupported normalize strategy"
    | RateNotPositive                          // "f_rep_hz must be finite and > 0"
    | DutyOutOfRange                           // "duty must be in [0, 1]"
    | DivisionByZero

  // ---------------------------------------------------------------------
  // Time axis (make_time_axis)
  // ---------------------------------------------------------------------

  /** Sample `i` of `np.linspace(0, period, n, endpoint=endpoint)`: the step
      is `period / n` on the half-open axis and `period / (n - 1)` on the
      closed one, whose single sample for `n == 1` is 0. For a positive
      period every sample is at least 0; the half-open axis stays below the
      period and the closed one reaches it exactly at its last sample. */
  function AxisSample(period: real, n: nat, endpoint: bool, i: nat): (x: real)
    requires n > 0
    ensures period > 0.0 && i < n ==> 0.0 <= x
    ensures period > 0.0 && (if endpoint then i + 1 < n else i < n) ==> x < period
    ensures endpoint && n > 1 && i == n - 1 ==> x == period
  {
    if !endpoint then
      SampleBounds(period, n as real, i as real);
      (i as real) * (period / (n as real))
    else if n == 1 then 0.0
    else
      SampleBounds(period, (n - 1) as real, i as real);
      (i as real) * (period / ((n - 1) as real))
  }

  /** The bounds behind `AxisSample`, for a step `period / d`. */
  lemma SampleBounds(period: real, d: real, i: real)
    requires d > 0.0
    ensures period > 0.0 && 0.0 <= i ==> 0.0 <= i * (period / d)
    ensures period > 0.0 && i < d ==> i * (period / d) < period
    ensures d * (period / d) == period
  {
    if period > 0.0 {
      StepPositive(period, d);
      if i < d {
        MulStrict(i, d, period / d);
      }
    }
  }

  /** `make_time_axis(T_rep_s, N, endpoint=endpoint)`: the sample count is
      checked first, then the period. */
  function MakeTimeAxis(period: real, n: int, endpoint: bool): (r: Result<seq<real>, WaveError>)
    ensures r == Failure(SampleCountNotPositive) <==> n <= 0
    ensures r == Failure(PeriodNotPositive) <==> n > 0 && period <= 0.0
    ensures r.Success? <==> n > 0 && period > 0.0
    ensures r.Success? ==> |r.value| == n
  {
    if n <= 0 then Failure(SampleCountNotPositive)
    else if period <= 0.0 then Failure(PeriodNotPositive)
    else Success(seq(n, i requires 0 <= i < n => AxisSample(period, n, endpoint, i)))
  }

  lemma StepPositive(period: real, d: real)
    requires period > 0.0 && d > 0.0
    ensures period / d > 0.0
  {
  }

  lemma MulStrict(x: real, y: real, c: real)
    requires x < y && c > 0.0
    ensures x * c < y * c
  {
    assert y * c - x * c == (y - x) * c;
  }

  lemma MulDivAssoc(x: real, p: real, d: real)
    requires d > 0.0
    ensures x * (p / d) == x * p / d
  {
    var q := p / d;
    assert q * d == p;
    assert (x * q) * d == x * (q * d);
  }

  /** Samples of either axis are ordered by their index. */
  lemma AxisSampleLess(period: real, n: nat, endpoint: bool, i: nat, j: nat)
    requires period > 0.0 && i < j < n && (endpoint ==> n > 1)
    ensures AxisSample(period, n, endpoint, i) < AxisSample(period, n, endpoint, j)
  {
    var d := if endpoint then (n - 1) as real else n as real;
    StepPositive(period, d);
    MulStrict(i as real, j as real, period / d);
  }

  /** Sample `i` of the half-open axis equals `i * T / N`, is below T, and the
      next one is one step `T / N` further on. */
  lemma HalfOpenSample(period: real, n: nat, i: nat)
    requires period > 0.0 && i < n
    ensures AxisSample(period, n, false, i) == (i as real) * period / (n as real)
    ensures AxisSample(period, n, false, i) < period
    ensures AxisSample(period, n, false, i + 1) - AxisSample(period, n, false, i) == period / (n as real)
  {
    var step := period / (n as real);
    StepPositive(period, n as real);
    MulDivAssoc(i as real, period, n as real);
    MulStrict(i as real, n as real, step);
    assert (n as real) * step == period;
    assert ((i + 1) as real) * step == (i as real) * step + step;
  }

  /** The axis used by both builders: it starts at 0, sample i is i*T/N, the
      samples are evenly spaced by T/N, strictly increasing, and all below T. */
  lemma HalfOpenAxis(period: real, n: int)
    requires period > 0.0 && n > 0
    ensures MakeTimeAxis(period, n, false).Success?
    ensures var a := MakeTimeAxis(period, n, false).value;
      && a[0] == 0.0
      && (forall i | 0 <= i < n :: a[i] == (i as real) * period / (n as real))
      && (forall i | 0 <= i < n - 1 :: a[i + 1] - a[i] == period / (n as real))
      && (forall i, j | 0 <= i < j < n :: a[i] < a[j])
      && (forall i | 0 <= i < n :: 0.0 <= a[i] < period)
  {
    var a := MakeTimeAxis(period, n, false).value;
    forall i | 0 <= i < n
      ensures a[i] == (i as real) * period / (n as real)
      ensures 0.0 <= a[i] < period
    {
      HalfOpenSample(period, n, i);
    }
    forall i | 0 <= i < n - 1
      ensures a[i + 1] - a[i] == period / (n as real)
    {
      HalfOpenSample(period, n, i);
    }
    forall i, j | 0 <= i < j < n
      ensures a[i] < a[j]
    {
      AxisSampleLess(period, n, false, i, j);
    }
  }

  /** With `endpoint=True` the axis runs from 0 up to and including T. */
  lemma ClosedAxis(period: real, n: int)
    requires period > 0.0 && n > 1
    ensures MakeTimeAxis(period, n, true).Success?
    ensures var a := MakeTimeAxis(period, n, true).value;
      && a[0] == 0.0
      && a[n - 1] == period
      && (forall i, j | 0 <= i < j < n :: a[i] < a[j])
      && (forall i | 0 <= i < n :: 0.0 <= a[i] <= period)
  {
    var a := MakeTimeAxis(period, n, true).value;
    forall i, j | 0 <= i < j < n
      ensures a[i] < a[j]
    {
      AxisSampleLess(period, n, true, i, j);
    }
  }

  // ---------------------------------------------------------------------
  // Normalisation (waveform_to_lut)
  // ---------------------------------------------------------------------

  /** The closed set of strategies that the `normalize` string selects. */
  datatype Strategy = Peak | PassThrough

  /** `str(normalize).lower().strip()` matched against "peak" and the
      pass-through synonyms "none", "off" and "false". */
  function ParseStrategy(normalize: string): (r: Option<Strategy>)
    ensures var key := Text.Strip(Text.Lower(normalize));
      && (r == Some(Peak) <==> key == "peak")
      && (r == Some(PassThrough) <==> key == "none" || key == "off" || key == "false")
      && (r == None <==> key != "peak" && key != "none" && key != "off" && key != "false")
  {
    var key := Text.Strip(Text.Lower(normalize));
    if key == "peak" then Some(Peak)
    else if key in {"none", "off", "false"} then Some(PassThrough)
    else None
  }

  function Abs(x: real): real {
    if x < 0.0 then -x else x
  }

  /** `float(np.max(np.abs(wave))) if wave.size else 0.0`: the largest
      magnitude of a sample, attained by some sample; 0 for no samples. */
  function PeakOf(wave: seq<real>): (peak: real)
    ensures forall i | 0 <= i < |wave| :: Abs(wave[i]) <= peak
    ensures wave != [] ==> exists i | 0 <= i < |wave| :: Abs(wave[i]) == peak
    ensures wave == [] ==> peak == 0.0
  {
    if wave == [] then 0.0
    else
      var rest := PeakOf(wave[1..]);
      if rest <= Abs(wave[0]) then Abs(wave[0]) else rest
  }

  predicate InUnitRange(s: seq<real>) {
    forall i | 0 <= i < |s| :: -1.0 <= s[i] <= 1.0
  }

  /** `np.clip(x, -1.0, 1.0)` on one sample: the result is in [-1, 1], a
      sample already in range is left alone, and one outside is moved to the
      nearest bound. */
  function Clip(x: real): (r: real)
    ensures -1.0 <= r <= 1.0
    ensures -1.0 <= x <= 1.0 <==> r == x
    ensures x > 1.0 ==> r == 1.0
    ensures x < -1.0 ==> r == -1.0
  {
    if x < -1.0 then -1.0 else if x > 1.0 then 1.0 else x
  }

  /** `np.clip` sample by sample: each in-range sample is kept and each
      other one goes to the nearest bound, whatever the other samples are. */
  function ClipAll(s: seq<real>): (r: seq<real>)
    ensures |r| == |s| && InUnitRange(r)
    ensures r == s <==> InUnitRange(s)
    ensures forall i | 0 <= i < |s| ::
      && (-1.0 <= s[i] <= 1.0 ==> r[i] == s[i])
      && (s[i] > 1.0 ==> r[i] == 1.0)
      && (s[i] < -1.0 ==> r[i] == -1.0)
  {
    seq(|s|, i requires 0 <= i < |s| => Clip(s[i]))
  }

  /** `wave / peak`: multiplying back by the peak restores every sample. */
  function Scale(wave: seq<real>, peak: real): (r: seq<real>)
    requires peak != 0.0
    ensures |r| == |wave|
    ensures forall i | 0 <= i < |wave| :: r[i] * peak == wave[i]
  {
    seq(|wave|, i requires 0 <= i < |wave| => wave[i] / peak)
  }

  /** Lines 37-48 of `waveform_to_lut` once the strategy is known: peak
      normalisation refuses a waveform whose peak is not positive (all
      zeros, or no samples at all) and otherwise divides by the peak; the
      pass-through keeps the samples; `clip` then clamps into [-1, 1]. */
  function Normalize(wave: seq<real>, strategy: Strategy, clip: bool): (r: Result<seq<real>, WaveError>)
    ensures r.Failure? <==> strategy == Peak && forall i | 0 <= i < |wave| :: wave[i] == 0.0
    ensures r.Failure? ==> r.error == PeakNotPositive
    ensures r.Success? ==> |r.value| == |wave|
    ensures r.Success? && clip ==> InUnitRange(r.value)
  {
    if strategy == Peak && PeakOf(wave) <= 0.0 then Failure(PeakNotPositive)
    else
      var lut := if strategy == Peak then Scale(wave, PeakOf(wave)) else wave;
      Success(if clip then ClipAll(lut) else lut)
  }

  /** `waveform_to_lut(wave, normalize=normalize, clip=clip)`: an unknown
      strategy name is refused before the samples are looked at. */
  function WaveformToLut(wave: seq<real>, normalize: string, clip: bool): (r: Result<seq<real>, WaveError>)
    ensures ParseStrategy(normalize) == None ==> r == Failure(UnsupportedStrategy(normalize))
    ensures ParseStrategy(normalize).Some? ==> r == Normalize(wave, ParseStrategy(normalize).value, clip)
  {
    match ParseStrategy(normalize)
    case None => Failure(UnsupportedStrategy(normalize))
    case Some(strategy) => Normalize(wave, strategy, clip)
  }

  /** A key with no capitals and no surrounding whitespace selects itself. */
  lemma ParseStrategyOfKey(key: string)
    requires key != [] && !Text.IsSpace(key[0]) && !Text.IsSpace(key[|key| - 1])
    requires forall k | 0 <= k < |key| :: Text.LowerChar(key[k]) == key[k]
    ensures ParseStrategy(key) == (if key == "peak" then Some(Peak)
      else if key in {"none", "off", "false"} then Some(PassThrough) else None)
  {
    assert Text.Lower(key) == key;
    assert Text.TrimStart(key) == key;
    assert Text.TrimEnd(key) == key;
  }

  /** The literal "peak" that both builders pass selects peak normalisation. */
  lemma PeakKeyword()
    ensures ParseStrategy("peak") == Some(Peak)
  {
    ParseStrategyOfKey("peak");
  }

  /** "none", "off" and "false" all select the pass-through. */
  lemma PassThroughKeywords(key: string)
    requires key == "none" || key == "off" || key == "false"
    ensures ParseStrategy(key) == Some(PassThrough)
  {
    ParseStrategyOfKey(key);
  }

  /** The strategy name is case-insensitive. */
  lemma ParseStrategyIgnoresCase(normalize: string)
    ensures ParseStrategy(Text.Lower(normalize)) == ParseStrategy(normalize)
  {
    Text.LowerIdempotent(normalize);
  }

  /** Whitespace around the strategy name is ignored. */
  lemma ParseStrategyIgnoresPadding(pre: string, normalize: string, post: string)
    requires Text.AllSpace(pre) && Text.AllSpace(post)
    ensures ParseStrategy(pre + normalize + post) == ParseStrategy(normalize)
  {
    Text.LowerAppend(pre + normalize, post);
    Text.LowerAppend(pre, normalize);
    Text.LowerAllSpace(pre);
    Text.LowerAllSpace(post);
    Text.StripPadded(Text.Lower(pre), Text.Lower(normalize), Text.Lower(post));
  }

  lemma DivInUnitRange(x: real, peak: real)
    requires peak > 0.0 && Abs(x) <= peak
    ensures -1.0 <= x / peak <= 1.0
    ensures Abs(x) == peak ==> Abs(x / peak) == 1.0
    ensures x / peak > 0.0 <==> x > 0.0
    ensures x / peak < 0.0 <==> x < 0.0
  {
    var q := x / peak;
    assert q * peak == x;
    QuotientBounds(q, peak, x);
  }

  /** The bounds of `DivInUnitRange`, stated for a quotient `q` with
      `q * peak == x` so that no division is involved. */
  lemma QuotientBounds(q: real, peak: real, x: real)
    requires peak > 0.0 && Abs(x) <= peak && q * peak == x
    ensures -1.0 <= q <= 1.0
    ensures Abs(x) == peak ==> Abs(q) == 1.0
    ensures q > 0.0 <==> x > 0.0
    ensures q < 0.0 <==> x < 0.0
  {
    if q < -1.0 { MulStrict(q, -1.0, peak); }
    if q > 1.0 { MulStrict(1.0, q, peak); }
    if q > 0.0 { MulStrict(0.0, q, peak); }
    if q < 0.0 { MulStrict(q, 0.0, peak); }
    if Abs(x) == peak && -1.0 < q < 1.0 {
      MulStrict(q, 1.0, peak);
      MulStrict(-1.0, q, peak);
    }
  }

  /** A waveform that is not all zeros, divided by its peak: every value lies
      in [-1, 1] with the sign of its sample, and some value has magnitude
      exactly 1. */
  lemma ScaledByPeak(wave: seq<real>)
    requires exists i | 0 <= i < |wave| :: wave[i] != 0.0
    ensures PeakOf(wave) > 0.0
    ensures var s := Scale(wave, PeakOf(wave));
      && InUnitRange(s)
      && (exists i | 0 <= i < |wave| :: Abs(s[i]) == 1.0)
      && (forall i | 0 <= i < |wave| :: (s[i] > 0.0 <==> wave[i] > 0.0) && (s[i] < 0.0 <==> wave[i] < 0.0))
  {
    var peak := PeakOf(wave);
    var j :| 0 <= j < |wave| && wave[j] != 0.0;
    assert peak > 0.0 by {
      assert Abs(wave[j]) <= peak;
    }
    var s := Scale(wave, peak);
    forall i | 0 <= i < |wave|
      ensures -1.0 <= s[i] <= 1.0
      ensures s[i] > 0.0 <==> wave[i] > 0.0
      ensures s[i] < 0.0 <==> wave[i] < 0.0
    {
      assert s[i] == wave[i] / peak;
      DivInUnitRange(wave[i], peak);
    }
    var k :| 0 <= k < |wave| && Abs(wave[k]) == peak;
    DivInUnitRange(wave[k], peak);
    assert Abs(s[k]) == 1.0;
  }

  /** Peak normalisation of a waveform that is not all zeros is `wave / peak`,
      whether or not it is clipped afterwards. */
  lemma PeakLut(wave: seq<real>, clip: bool)
    requires exists i | 0 <= i < |wave| :: wave[i] != 0.0
    ensures Normalize(wave, Peak, clip) == Success(Scale(wave, PeakOf(wave)))
  {
    ScaledByPeak(wave);
    assert ClipAll(Scale(wave, PeakOf(wave))) == Scale(wave, PeakOf(wave));
  }

  /** Peak normalisation of a waveform that is not all zeros: the samples are
      divided by the peak, so every value lands in [-1, 1] with its sign kept,
      some value has magnitude exactly 1, and clipping changes nothing. */
  lemma PeakNormalization(wave: seq<real>, normalize: string, clip: bool)
    requires ParseStrategy(normalize) == Some(Peak)
    requires exists i | 0 <= i < |wave| :: wave[i] != 0.0
    ensures var r := WaveformToLut(wave, normalize, clip);
      && r.Success?
      && |r.value| == |wave|
      && InUnitRange(r.value)
      && (exists i | 0 <= i < |wave| :: Abs(r.value[i]) == 1.0)
      && (forall i | 0 <= i < |wave| :: r.value[i] == wave[i] / PeakOf(wave))
      && (forall i | 0 <= i < |wave| :: r.value[i] > 0.0 <==> wave[i] > 0.0)
      && WaveformToLut(wave, normalize, !clip) == r
  {
    PeakLut(wave, clip);
    PeakLut(wave, !clip);
    ScaledByPeak(wave);
  }

  /** With "none", "off" or "false" the samples pass through: unchanged
      without clipping, clamped into [-1, 1] with it. */
  lemma PassThroughLut(wave: seq<real>, normalize: string)
    requires ParseStrategy(normalize) == Some(PassThrough)
    ensures WaveformToLut(wave, normalize, false) == Success(wave)
    ensures WaveformToLut(wave, normalize, true) == Success(ClipAll(wave))
  {
  }

  // ---------------------------------------------------------------------
  // Gaussian envelope (gaussian_pulse)
  // ---------------------------------------------------------------------

  type Positive = x: real | x > 0.0 witness 1.0

  /** `np.exp`, known only to be positive. */
  type PositiveFn = real -> Positive

  function Squared(z: real): real {
    z * z
  }

  /** `amp * exp(-0.5 * ((t - center) / sigma) ** 2)` at one instant. */
  function GaussianAt(t: real, center: real, sigma: real, amp: real, exp: PositiveFn): (g: real)
    requires sigma != 0.0
    ensures amp > 0.0 ==> g > 0.0
    ensures amp < 0.0 ==> g < 0.0
    ensures amp == 0.0 ==> g == 0.0
  {
    amp * exp(-0.5 * Squared((t - center) / sigma))
  }

  /** `gaussian_pulse(t_s, t_center_s=center, sigma_s=sigma, amp=amp)`: one
      value per instant, each with the sign of `amp`. */
  function GaussianPulse(t: seq<real>, center: real, sigma: real, amp: real, exp: PositiveFn): (r: seq<real>)
    requires sigma != 0.0
    ensures |r| == |t|
    ensures forall i | 0 <= i < |t| ::
      && (amp > 0.0 ==> r[i] > 0.0)
      && (amp < 0.0 ==> r[i] < 0.0)
      && (amp == 0.0 ==> r[i] == 0.0)
  {
    seq(|t|, i requires 0 <= i < |t| => GaussianAt(t[i], center, sigma, amp, exp))
  }

  /** The pulse is centred on `center`: two instants the same distance before
      and after it get the same value. */
  lemma GaussianPulseSymmetric(t: seq<real>, center: real, sigma: real, amp: real, exp: PositiveFn, i: int, j: int)
    requires sigma != 0.0 && 0 <= i < |t| && 0 <= j < |t|
    requires t[i] - center == center - t[j]
    ensures GaussianPulse(t, center, sigma, amp, exp)[i] == GaussianPulse(t, center, sigma, amp, exp)[j]
  {
    GaussianAtSymmetric(t[i], t[j], center, sigma, amp, exp);
  }

  lemma GaussianAtSymmetric(a: real, b: real, center: real, sigma: real, amp: real, exp: PositiveFn)
    requires sigma != 0.0 && a - center == center - b
    ensures GaussianAt(a, center, sigma, amp, exp) == GaussianAt(b, center, sigma, amp, exp)
  {
    var d := a - center;
    assert b - center == -d;
    NegatedOffset(d, sigma);
  }

  lemma NegatedOffset(d: real, sigma: real)
    requires sigma != 0.0
    ensures Squared((-d) / sigma) == Squared(d / sigma)
  {
    var z := d / sigma;
    assert z * sigma == d;
    assert (-z) * sigma == -d;
    assert (-d) / sigma == -z;
  }

  // ---------------------------------------------------------------------
  // The Gaussian pulse pair (build_gaussian_ramsey_lut)
  // ---------------------------------------------------------------------

  /** `RamseyParams`: the pi/2 pulse length and the free-evolution gap. */
  datatype RamseyParams = RamseyParams(tPi2: real, tau: real)

  /** The record's defaults: 100 ns pulses, 4.9 us gaps. */
  const DefaultRamseyParams := RamseyParams(0.0000001, 0.0000049)

  /** The default durations are positive, the gap is 49 pulse lengths, and
      one repetition lasts 10 us. */
  lemma DefaultRamseyParamsValid()
    ensures DefaultRamseyParams.tPi2 > 0.0 && DefaultRamseyParams.tau > 0.0
    ensures DefaultRamseyParams.tau == 49.0 * DefaultRamseyParams.tPi2
    ensures RamseyPeriod(DefaultRamseyParams) == 0.00001
  {
  }

  /** What both builders return: the time axis, the LUT, the repetition
      frequency and the segment boundaries. */
  datatype LutBundle = LutBundle(axis: seq<real>, lut: seq<real>, fRep: real, boundaries: seq<real>)

  /** `T_rep = 2.0 * tau + 2.0 * t_pi2`: two gaps and two pulses, so it is
      positive for positive durations and zero exactly when the two durations
      cancel. */
  function RamseyPeriod(p: RamseyParams): (period: real)
    ensures p.tau > 0.0 && p.tPi2 > 0.0 ==> period > 0.0
    ensures period == 0.0 <==> p.tau == -p.tPi2
    ensures period / 2.0 == p.tau + p.tPi2
  {
    2.0 * p.tau + 2.0 * p.tPi2
  }

  /** The segment ends t1..t4 of gap, pulse, gap, pulse. For positive
      durations they increase strictly and the last one is the period. */
  function RamseyBoundaries(p: RamseyParams): (b: seq<real>)
    ensures |b| == 4
    ensures p.tau > 0.0 && p.tPi2 > 0.0 ==> 0.0 < b[0] < b[1] < b[2] < b[3]
    ensures b[3] == RamseyPeriod(p)
    ensures b[1] - b[0] == b[3] - b[2] == p.tPi2
    ensures b[0] == b[2] - b[1] == p.tau
  {
    var t0 := 0.0;
    var t1 := t0 + p.tau;
    var t2 := t1 + p.tPi2;
    var t3 := t2 + p.tau;
    var t4 := t3 + p.tPi2;
    [t1, t2, t3, t4]
  }

  /** The two pulse centres, the midpoints of the two pulse segments: for
      positive durations each lies inside its segment, and they are half a
      period apart. */
  function RamseyCentres(p: RamseyParams): (c: (real, real))
    ensures var b := RamseyBoundaries(p);
      p.tau > 0.0 && p.tPi2 > 0.0 ==> b[0] < c.0 < b[1] && b[2] < c.1 < b[3]
    ensures c.1 - c.0 == RamseyPeriod(p) / 2.0
    ensures var b := RamseyBoundaries(p);
      c.0 - b[0] == b[1] - c.0 && c.1 - b[2] == b[3] - c.1
  {
    var b := RamseyBoundaries(p);
    ((b[0] + b[1]) / 2.0, (b[2] + b[3]) / 2.0)
  }

  /** `np.zeros_like(t)`: `n` zero samples. */
  function Zeros(n: nat): (z: seq<real>)
    ensures |z| == n
    ensures forall i | 0 <= i < n :: z[i] == 0.0
  {
    seq(n, i => 0.0)
  }

  /** Element-wise sum: what `wave += pulse` leaves in `wave`. */
  function AddWaves(a: seq<real>, b: seq<real>): (r: seq<real>)
    requires |a| == |b|
    ensures |r| == |a|
  {
    seq(|a|, i requires 0 <= i < |a| => a[i] + b[i])
  }

  /** The raw waveform: a zero buffer to which both pulses are added. Both
      pulses have the sign of `amp`, so the sum has it at every sample. */
  function PulsePair(t: seq<real>, p: RamseyParams, sigma: real, amp: real, exp: PositiveFn): (w: seq<real>)
    requires sigma != 0.0
    ensures |w| == |t|
    ensures forall i | 0 <= i < |t| ::
      && (amp > 0.0 ==> w[i] > 0.0)
      && (amp < 0.0 ==> w[i] < 0.0)
      && (amp == 0.0 ==> w[i] == 0.0)
  {
    var c := RamseyCentres(p);
    var first := GaussianPulse(t, c.0, sigma, amp, exp);
    var second := GaussianPulse(t, c.1, sigma, amp, exp);
    AddWaves(AddWaves(Zeros(|t|), first), second)
  }

  /** `sigma = sigma_frac * t_pi2`: zero exactly when either factor is,
      positive when both are. */
  function PulseWidth(p: RamseyParams, sigmaFrac: real): (sigma: real)
    ensures sigma == 0.0 <==> sigmaFrac == 0.0 || p.tPi2 == 0.0
    ensures sigmaFrac > 0.0 && p.tPi2 > 0.0 ==> sigma > 0.0
  {
    sigmaFrac * p.tPi2
  }

  /** Lines 122-128 of the builder: the pulse pair on the axis `t`, peak
      normalised and clipped (the strategy "peak" selects `Peak`, see
      `PeakKeyword`). A zero `sigma` makes numpy produce zeros (and NaN at
      an exact centre) that the peak check refuses, so it fails as a zero
      peak. */
  function PulsePairLut(t: seq<real>, p: RamseyParams, sigma: real, amp: real, exp: PositiveFn): (r: Result<seq<real>, WaveError>)
    ensures r.Success? ==> |r.value| == |t| && InUnitRange(r.value)
    ensures r.Failure? ==> r.error == PeakNotPositive
    ensures r.Success? ==>
      && sigma != 0.0
      && var w := PulsePair(t, p, sigma, amp, exp);
      && PeakOf(w) > 0.0
      && r.value == Scale(w, PeakOf(w))
  {
    if sigma == 0.0 then Failure(PeakNotPositive)
    else
      var w := PulsePair(t, p, sigma, amp, exp);
      var r := Normalize(w, Peak, true);
      if r.Failure? then r
      else
        PeakLut(w, true);
        ScaledByPeak(w);
        r
  }

  /** `build_gaussian_ramsey_lut(params, N=n, sigma_frac=sigmaFrac, amp=amp)`.
      There is no check of its own on the durations: a zero period fails at
      `1.0 / T_rep`, a negative one in `make_time_axis`. */
  function GaussianRamseyLut(p: RamseyParams, n: int, sigmaFrac: real, amp: real, exp: PositiveFn): (r: Result<LutBundle, WaveError>)
    ensures RamseyPeriod(p) == 0.0 ==> r == Failure(DivisionByZero)
    ensures RamseyPeriod(p) != 0.0 && n <= 0 ==> r == Failure(SampleCountNotPositive)
    ensures RamseyPeriod(p) < 0.0 && n > 0 ==> r == Failure(PeriodNotPositive)
    ensures r.Success? ==>
      && |r.value.axis| == |r.value.lut| == n
      && r.value.fRep == 1.0 / RamseyPeriod(p)
      && r.value.boundaries == RamseyBoundaries(p)
      && InUnitRange(r.value.lut)
  {
    var period := RamseyPeriod(p);
    if period == 0.0 then Failure(DivisionByZero)
    else
      var fRep := 1.0 / period;
      match MakeTimeAxis(period, n, false)
      case Failure(e) => Failure(e)
      case Success(t) =>
        match PulsePairLut(t, p, PulseWidth(p, sigmaFrac), amp, exp)
        case Failure(e) => Failure(e)
        case Success(lut) => Success(LutBundle(t, lut, fRep, RamseyBoundaries(p)))
  }

  /** What a successful build returns: sample i of the axis is i*T/N, and
      the LUT is the raw pulse pair on that axis divided by its (positive)
      peak. */
  lemma GaussianRamseyLutShape(p: RamseyParams, n: int, sigmaFrac: real, amp: real, exp: PositiveFn)
    ensures var r := GaussianRamseyLut(p, n, sigmaFrac, amp, exp);
      r.Success? ==>
        && (forall i | 0 <= i < n :: r.value.axis[i] == (i as real) * RamseyPeriod(p) / (n as real))
        && PulseWidth(p, sigmaFrac) != 0.0
        && var w := PulsePair(r.value.axis, p, PulseWidth(p, sigmaFrac), amp, exp);
        && PeakOf(w) > 0.0
        && r.value.lut == Scale(w, PeakOf(w))
  {
    RamseySuccessParts(p, n, sigmaFrac, amp, exp);
    EvenAxis(GaussianRamseyLut(p, n, sigmaFrac, amp, exp), RamseyPeriod(p), n);
  }

  /** A successful build has a positive period and sample count, the
      half-open axis, and the normalised pulse pair on it as LUT. */
  lemma RamseySuccessParts(p: RamseyParams, n: int, sigmaFrac: real, amp: real, exp: PositiveFn)
    ensures var r := GaussianRamseyLut(p, n, sigmaFrac, amp, exp);
      r.Success? ==>
        && RamseyPeriod(p) > 0.0 && n > 0
        && r.value.axis == MakeTimeAxis(RamseyPeriod(p), n, false).value
        && PulsePairLut(r.value.axis, p, PulseWidth(p, sigmaFrac), amp, exp) == Success(r.value.lut)
  {
  }

  /** A result whose axis is the half-open axis samples `i * T / N`. */
  lemma EvenAxis(r: Result<LutBundle, WaveError>, period: real, n: int)
    requires r.Success? ==> period > 0.0 && n > 0 && r.value.axis == MakeTimeAxis(period, n, false).value
    ensures r.Success? ==> forall i | 0 <= i < n :: r.value.axis[i] == (i as real) * period / (n as real)
  {
    if r.Success? {
      HalfOpenAxis(period, n);
    }
  }

  /** The normalised pulse pair on a non-empty axis exists exactly when
      neither `sigma` nor `amp` is zero; its largest magnitude is then 1 and
      every value has the sign of `amp`. */
  lemma PulsePairLutOutcome(t: seq<real>, p: RamseyParams, sigma: real, amp: real, exp: PositiveFn)
    requires |t| > 0
    ensures var r := PulsePairLut(t, p, sigma, amp, exp);
      && (r.Success? <==> sigma != 0.0 && amp != 0.0)
      && (r.Success? ==>
        && |r.value| == |t|
        && (exists i | 0 <= i < |r.value| :: Abs(r.value[i]) == 1.0)
        && (amp > 0.0 ==> forall i | 0 <= i < |r.value| :: 0.0 < r.value[i] <= 1.0)
        && (amp < 0.0 ==> forall i | 0 <= i < |r.value| :: -1.0 <= r.value[i] < 0.0))
  {
    if sigma != 0.0 && amp != 0.0 {
      var w := PulsePair(t, p, sigma, amp, exp);
      assert w[0] != 0.0;
      PeakLut(w, true);
      ScaledByPeak(w);
    }
  }

  /** For positive durations and a positive sample count the builder succeeds
      exactly when neither `sigma_frac` nor `amp` is zero, and fails only on
      the peak check otherwise; a LUT it returns has largest magnitude 1 and
      every value has the sign of `amp`. */
  lemma RamseyOutcome(p: RamseyParams, n: int, sigmaFrac: real, amp: real, exp: PositiveFn)
    requires p.tau > 0.0 && p.tPi2 > 0.0 && n > 0
    ensures var r := GaussianRamseyLut(p, n, sigmaFrac, amp, exp);
      && (r.Success? <==> sigmaFrac != 0.0 && amp != 0.0)
      && (r.Failure? ==> r.error == PeakNotPositive)
      && (r.Success? ==>
        && (exists i | 0 <= i < n :: Abs(r.value.lut[i]) == 1.0)
        && (amp > 0.0 ==> forall i | 0 <= i < n :: 0.0 < r.value.lut[i] <= 1.0)
        && (amp < 0.0 ==> forall i | 0 <= i < n :: -1.0 <= r.value.lut[i] < 0.0))
  {
    var period := RamseyPeriod(p);
    var t := MakeTimeAxis(period, n, false).value;
    RamseyStages(p, n, sigmaFrac, amp, exp);
    var sigma := PulseWidth(p, sigmaFrac);
    PulsePairLutOutcome(t, p, sigma, amp, exp);
    var l := PulsePairLut(t, p, sigma, amp, exp);
    var r := GaussianRamseyLut(p, n, sigmaFrac, amp, exp);
    if l.Success? {
      assert r.value.lut == l.value && |l.value| == n;
    } else {
      assert r.error == l.error;
    }
  }

  /** With a positive period and sample count the builder's result is the
      normalised pulse pair on the half-open axis, or its failure. */
  lemma RamseyStages(p: RamseyParams, n: int, sigmaFrac: real, amp: real, exp: PositiveFn)
    requires RamseyPeriod(p) > 0.0 && n > 0
    ensures var t := MakeTimeAxis(RamseyPeriod(p), n, false).value;
      var l := PulsePairLut(t, p, PulseWidth(p, sigmaFrac), amp, exp);
      GaussianRamseyLut(p, n, sigmaFrac, amp, exp) ==
        if l.Failure? then Failure(l.error)
        else Success(LutBundle(t, l.value, 1.0 / RamseyPeriod(p), RamseyBoundaries(p)))
  {
  }

  /** The defaults of the record and of the builder's keywords (N = 2048,
      sigma_frac = 0.25, amp = 1) repeat at 100 kHz: the period is
      2 * 4.9 us + 2 * 100 ns = 10 us exactly. With the default `amp` of 1
      every LUT value lies in (0, 1] and the largest is 1. */
  lemma DefaultRamseyRate(exp: PositiveFn)
    ensures var r := GaussianRamseyLut(DefaultRamseyParams, 2048, 0.25, 1.0, exp);
      && r.Success?
      && r.value.fRep == 100000.0
      && r.value.boundaries == [0.0000049, 0.000005, 0.0000099, 0.00001]
      && (exists i | 0 <= i < 2048 :: r.value.lut[i] == 1.0)
      && (forall i | 0 <= i < 2048 :: 0.0 < r.value.lut[i] <= 1.0)
  {
    var p := DefaultRamseyParams;
    assert RamseyPeriod(p) == 0.00001;
    RamseyOutcome(p, 2048, 0.25, 1.0, exp);
    assert RamseyBoundaries(p) == [0.0000049, 0.000005, 0.0000099, 0.00001];
  }

  /** `wave += pulse` on the numpy buffer. */
  method AccumulatePulse(wave: array<real>, pulse: seq<real>)
    requires wave.Length == |pulse|
    modifies wave
    ensures wave[..] == AddWaves(old(wave[..]), pulse)
  {
    for i := 0 to wave.Length
      invariant forall k | 0 <= k < i :: wave[k] == old(wave[k]) + pulse[k]
      invariant forall k | i <= k < wave.Length :: wave[k] == old(wave[k])
    {
      wave[i] := wave[i] + pulse[i];
    }
  }

  /** Lines 124-126 of the builder: a zero buffer (`np.zeros_like`) into
      which the two pulses are accumulated in place. */
  method SumPulses(t: seq<real>, p: RamseyParams, sigma: real, amp: real, exp: PositiveFn)
    returns (wave: array<real>)
    requires sigma != 0.0
    ensures fresh(wave)
    ensures wave[..] == PulsePair(t, p, sigma, amp, exp)
  {
    var centres := RamseyCentres(p);
    wave := new real[|t|](_ => 0.0);
    assert wave[..] == Zeros(|t|);
    AccumulatePulse(wave, GaussianPulse(t, centres.0, sigma, amp, exp));
    AccumulatePulse(wave, GaussianPulse(t, centres.1, sigma, amp, exp));
  }

  /** The builder in the order of its statements, with the pulses added into
      one buffer in place. It departs from the Python code at a zero `sigma`:
      there numpy divides by zero and the peak check then refuses the
      waveform, while this method stops before building it and fails with the
      same peak error, as `PulsePairLut` does. */
  method BuildGaussianRamseyLut(p: RamseyParams, n: int, sigmaFrac: real, amp: real, exp: PositiveFn)
    returns (r: Result<LutBundle, WaveError>)
    ensures r == GaussianRamseyLut(p, n, sigmaFrac, amp, exp)
  {
    var period := RamseyPeriod(p);
    if period == 0.0 {
      return Failure(DivisionByZero);
    }
    var fRep := 1.0 / period;
    var axis := MakeTimeAxis(period, n, false);
    if axis.Failure? {
      return Failure(axis.error);
    }
    var t := axis.value;
    var boundaries := RamseyBoundaries(p);
    var sigma := PulseWidth(p, sigmaFrac);
    if sigma == 0.0 {
      return Failure(PeakNotPositive);
    }
    var wave := SumPulses(t, p, sigma, amp, exp);
    var lut := WaveformToLut(wave[..], "peak", true);
    PeakKeyword();
    assert lut == PulsePairLut(t, p, sigma, amp, exp);
    if lut.Failure? {
      return Failure(lut.error);
    }
    r := Success(LutBundle(t, lut.value, fRep, boundaries));
  }

  // ---------------------------------------------------------------------
  // The square wave (build_square_lut)
  // ---------------------------------------------------------------------

  /** `SquareWaveParams`: repetition rate, duty fraction and the two levels. */
  datatype SquareWaveParams = SquareWaveParams(fRep: real, duty: real, high: real, low: real)

  /** The record's defaults: 1 kHz, half duty, levels +1 and -1. */
  const DefaultSquareParams := SquareWaveParams(1000.0, 0.5, 1.0, -1.0)

  /** The default square wave passes both checks of the builder: a positive
      rate of 1 kHz, a duty inside [0, 1], levels symmetric about zero, and
      the high-to-low edge half-way through the 1 ms period. */
  lemma DefaultSquareParamsValid()
    ensures DefaultSquareParams.fRep > 0.0 && 0.0 <= DefaultSquareParams.duty <= 1.0
    ensures DefaultSquareParams.low == -DefaultSquareParams.high
    ensures SquareEdge(DefaultSquareParams) == 0.0005
  {
  }

  /** `t_high_end = duty * T_rep` with `T_rep = 1.0 / f_rep`. */
  function SquareEdge(p: SquareWaveParams): (e: real)
    requires p.fRep > 0.0
    ensures e == p.duty / p.fRep
    ensures 0.0 <= p.duty <= 1.0 ==> 0.0 <= e <= 1.0 / p.fRep
  {
    EdgeWithinPeriod(p.duty, p.fRep);
    p.duty * (1.0 / p.fRep)
  }

  lemma EdgeWithinPeriod(duty: real, fRep: real)
    requires fRep > 0.0
    ensures duty * (1.0 / fRep) == duty / fRep
    ensures 0.0 <= duty <= 1.0 ==> 0.0 <= duty * (1.0 / fRep) <= 1.0 / fRep
  {
    var period := 1.0 / fRep;
    assert period * fRep == 1.0;
    assert (duty * period) * fRep == duty;
    if 0.0 <= duty <= 1.0 {
      assert period - duty * period == (1.0 - duty) * period;
    }
  }

  /** `np.where(t < edge, high, low)`. */
  function SquareWave(t: seq<real>, edge: real, high: real, low: real): (r: seq<real>)
    ensures |r| == |t|
  {
    seq(|t|, i requires 0 <= i < |t| => if t[i] < edge then high else low)
  }

  /** `build_square_lut(params, N=n, normalize=normalize)`. */
  function BuildSquareLut(p: SquareWaveParams, n: int, normalize: string): (r: Result<LutBundle, WaveError>)
    ensures p.fRep <= 0.0 ==> r == Failure(RateNotPositive)
    ensures p.fRep > 0.0 && (p.duty < 0.0 || p.duty > 1.0) ==> r == Failure(DutyOutOfRange)
    ensures p.fRep > 0.0 && 0.0 <= p.duty <= 1.0 && n <= 0 ==> r == Failure(SampleCountNotPositive)
    ensures r.Success? ==>
      && |r.value.axis| == |r.value.lut| == n
      && r.value.fRep == p.fRep
      && r.value.boundaries == [p.duty / p.fRep]
      && 0.0 <= r.value.boundaries[0] <= 1.0 / p.fRep
      && InUnitRange(r.value.lut)
  {
    if p.fRep <= 0.0 then Failure(RateNotPositive)
    else if p.duty < 0.0 || p.duty > 1.0 then Failure(DutyOutOfRange)
    else
      var period := 1.0 / p.fRep;
      match MakeTimeAxis(period, n, false)
      case Failure(e) => Failure(e)
      case Success(t) =>
        var tHighEnd := SquareEdge(p);
        match WaveformToLut(SquareWave(t, tHighEnd, p.high, p.low), normalize, true)
        case Failure(e) => Failure(e)
        case Success(lut) => Success(LutBundle(t, lut, p.fRep, [tHighEnd]))
  }

  /** The two-level step by sample index: `high` for the first samples, the
      ones with `i < duty * N`, then `low`. */
  function SquareLevels(p: SquareWaveParams, n: nat): (w: seq<real>)
    ensures |w| == n
  {
    seq(n, i requires 0 <= i < n => if (i as real) < p.duty * (n as real) then p.high else p.low)
  }

  lemma MulLessIff(x: real, y: real, c: real)
    requires c > 0.0
    ensures x * c < y * c <==> x < y
  {
    if x < y { MulStrict(x, y, c); }
    if y <= x { assert x * c - y * c == (x - y) * c; }
  }

  /** Sample i is before the edge `duty * T` exactly when `i < duty * N`. */
  lemma SquareSampleBeforeEdge(p: SquareWaveParams, n: nat, i: nat)
    requires p.fRep > 0.0 && i < n
    ensures AxisSample(1.0 / p.fRep, n, false, i) < SquareEdge(p) <==> (i as real) < p.duty * (n as real)
  {
    var period := 1.0 / p.fRep;
    assert SquareEdge(p) == p.duty * period;
    SampleBeforeFraction(period, n, i, p.duty);
  }

  /** On the half-open axis over `period`, sample i comes before the instant
      `duty * period` exactly when `i < duty * n`. */
  lemma SampleBeforeFraction(period: real, n: nat, i: nat, duty: real)
    requires period > 0.0 && i < n
    ensures AxisSample(period, n, false, i) < duty * period <==> (i as real) < duty * (n as real)
  {
    var step := period / (n as real);
    StepPositive(period, n as real);
    assert AxisSample(period, n, false, i) == (i as real) * step;
    assert (n as real) * step == period;
    assert duty * period == (duty * (n as real)) * step;
    MulLessIff(i as real, duty * (n as real), step);
  }

  /** The raw square wave on the time axis is the index-form step. */
  lemma SquareWaveIsStep(p: SquareWaveParams, n: int)
    requires p.fRep > 0.0 && n > 0
    ensures SquareWave(MakeTimeAxis(1.0 / p.fRep, n, false).value, SquareEdge(p), p.high, p.low) == SquareLevels(p, n)
  {
    var t := MakeTimeAxis(1.0 / p.fRep, n, false).value;
    forall i | 0 <= i < n
      ensures SquareWave(t, SquareEdge(p), p.high, p.low)[i] == SquareLevels(p, n)[i]
    {
      SquareSampleBeforeEdge(p, n, i);
    }
  }

  /** For valid parameters the square builder succeeds or fails exactly as
      normalising the index-form step does, and returns its result as LUT
      on the half-open axis over one period. */
  lemma SquareLut(p: SquareWaveParams, n: int, normalize: string)
    requires p.fRep > 0.0 && 0.0 <= p.duty <= 1.0 && n > 0
    ensures var t := MakeTimeAxis(1.0 / p.fRep, n, false).value;
      var w := WaveformToLut(SquareLevels(p, n), normalize, true);
      BuildSquareLut(p, n, normalize) ==
        if w.Failure? then Failure(w.error)
        else Success(LutBundle(t, w.value, p.fRep, [SquareEdge(p)]))
  {
    var t := MakeTimeAxis(1.0 / p.fRep, n, false).value;
    SquareStages(p, n, normalize, t);
    SquareWaveIsStep(p, n);
    assert SquareWave(t, SquareEdge(p), p.high, p.low) == SquareLevels(p, n);
  }

  /** For valid parameters the square builder normalises the raw step on the
      half-open axis over one period. */
  lemma SquareStages(p: SquareWaveParams, n: int, normalize: string, t: seq<real>)
    requires p.fRep > 0.0 && 0.0 <= p.duty <= 1.0
    requires MakeTimeAxis(1.0 / p.fRep, n, false) == Success(t)
    ensures var w := WaveformToLut(SquareWave(t, SquareEdge(p), p.high, p.low), normalize, true);
      BuildSquareLut(p, n, normalize) ==
        if w.Failure? then Failure(w.error)
        else Success(LutBundle(t, w.value, p.fRep, [SquareEdge(p)]))
  {
  }

  /** Duty 0 gives a constant-`low` waveform and duty 1 a constant-`high`
      one. Peak normalisation then fails exactly when that level is 0, and
      otherwise turns every sample into the level's sign. */
  lemma SquareDutyEdges(p: SquareWaveParams, n: int)
    requires p.fRep > 0.0 && (p.duty == 0.0 || p.duty == 1.0) && n > 0
    ensures var level := if p.duty == 0.0 then p.low else p.high;
      var r := BuildSquareLut(p, n, "peak");
      && (forall i | 0 <= i < n :: SquareLevels(p, n)[i] == level)
      && (r.Failure? <==> level == 0.0)
      && (r.Failure? ==> r.error == PeakNotPositive)
      && (r.Success? ==> forall i | 0 <= i < n :: r.value.lut[i] == (if level > 0.0 then 1.0 else -1.0))
  {
    var level := if p.duty == 0.0 then p.low else p.high;
    var w := SquareLevels(p, n);
    forall i | 0 <= i < n
      ensures w[i] == level
    {
      if p.duty == 1.0 {
        assert (i as real) < (n as real);
      }
    }
    SquareLut(p, n, "peak");
    PeakKeyword();
    ConstantLut(w, level);
  }

  /** Peak normalisation of a non-empty constant waveform fails exactly when
      the constant is 0 and otherwise yields its sign at every sample. */
  lemma ConstantLut(w: seq<real>, level: real)
    requires w != [] && forall i | 0 <= i < |w| :: w[i] == level
    ensures var r := Normalize(w, Peak, true);
      && (r.Failure? <==> level == 0.0)
      && (r.Success? ==> forall i | 0 <= i < |r.value| :: r.value[i] == (if level > 0.0 then 1.0 else -1.0))
  {
    if level != 0.0 {
      assert w[0] != 0.0;
      PeakLut(w, true);
      ConstantPeak(w, level);
      var s := Scale(w, Abs(level));
      UnitSign(level);
      forall i | 0 <= i < |w|
        ensures s[i] == (if level > 0.0 then 1.0 else -1.0)
      {
        assert s[i] == level / Abs(level);
      }
    }
  }

  lemma UnitSign(x: real)
    requires x != 0.0
    ensures x / Abs(x) == if x > 0.0 then 1.0 else -1.0
  {
    if x < 0.0 {
      assert x / -x == -1.0;
    }
  }

  /** The peak of a non-empty constant waveform is the constant's magnitude. */
  lemma ConstantPeak(w: seq<real>, level: real)
    requires w != [] && forall i | 0 <= i < |w| :: w[i] == level
    ensures PeakOf(w) == Abs(level)
  {
    var k :| 0 <= k < |w| && Abs(w[k]) == PeakOf(w);
  }

  /** Half duty between +1 and -1 over an even number of samples: the first
      half of the LUT is +1 and the second half -1, with the edge at half
      the period. */
  lemma HalfDutySquare(p: SquareWaveParams, n: int, normalize: string)
    requires ParseStrategy(normalize) == Some(Peak)
    requires p.fRep > 0.0 && p.duty == 0.5 && p.high == 1.0 && p.low == -1.0
    requires n > 0 && n % 2 == 0
    ensures var r := BuildSquareLut(p, n, normalize);
      && r.Success?
      && r.value.boundaries == [0.5 / p.fRep]
      && forall i | 0 <= i < n :: r.value.lut[i] == (if i < n / 2 then 1.0 else -1.0)
  {
    var w := SquareLevels(p, n);
    HalfDutyLevels(p, n);
    assert forall i | 0 <= i < |w| :: Abs(w[i]) == 1.0;
    UnitLevelsLut(w);
    assert WaveformToLut(w, normalize, true) == Success(w);
    SquareLut(p, n, normalize);
    assert SquareEdge(p) == 0.5 / p.fRep;
  }

  lemma HalfDutyLevels(p: SquareWaveParams, n: int)
    requires p.duty == 0.5 && p.high == 1.0 && p.low == -1.0
    requires n > 0 && n % 2 == 0
    ensures forall i | 0 <= i < n :: SquareLevels(p, n)[i] == (if i < n / 2 then 1.0 else -1.0)
  {
    assert p.duty * (n as real) == (n / 2) as real;
  }

  /** The default square wave at the builder's keyword defaults (N = 2048,
      normalize = "peak"): 1 kHz, the edge at 0.5 ms, the first 1024 samples
      at +1 and the other 1024 at -1. */
  lemma DefaultSquare()
    ensures var r := BuildSquareLut(DefaultSquareParams, 2048, "peak");
      && r.Success?
      && r.value.fRep == 1000.0
      && r.value.boundaries == [0.0005]
      && forall i | 0 <= i < 2048 :: r.value.lut[i] == (if i < 1024 then 1.0 else -1.0)
  {
    PeakKeyword();
    DefaultSquareWith("peak");
  }

  /** `DefaultSquare` for any name that selects peak normalisation. */
  lemma DefaultSquareWith(normalize: string)
    requires ParseStrategy(normalize) == Some(Peak)
    ensures var r := BuildSquareLut(DefaultSquareParams, 2048, normalize);
      && r.Success?
      && r.value.fRep == 1000.0
      && r.value.boundaries == [0.0005]
      && forall i | 0 <= i < 2048 :: r.value.lut[i] == (if i < 1024 then 1.0 else -1.0)
  {
    HalfDutySquare(DefaultSquareParams, 2048, normalize);
  }

  /** A waveform of +1 and -1 samples is already peak-normalised. */
  lemma UnitLevelsLut(w: seq<real>)
    requires w != [] && forall i | 0 <= i < |w| :: Abs(w[i]) == 1.0
    ensures Normalize(w, Peak, true) == Success(w)
  {
    var k :| 0 <= k < |w| && Abs(w[k]) == PeakOf(w);
    assert w[0] != 0.0;
    PeakLut(w, true);
    assert Scale(w, 1.0) == w;
  }
}
