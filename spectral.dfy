/** The spectral-analysis helpers of the sphere visualiser
    (`Apps/SphereAudioVisualizer/App.cpp`): the FFT size table, the mapping
    of bands onto FFT bins, band aggregation, compression, automatic gain
    control, the names of the settings, the normalisation of the band
    energies and the downsampled spectrum preview. `exp`, `log` and `log1p`
    are parameters; floats are exact reals. */
module Spectral {
  import opened Common

  // ---------------------------------------------------------------------
  // FFT sizes

  /** The offered FFT sizes, in the order the analysis panel lists them. */
  const FftSizes: seq<int> := [512, 1024, 2048, 4096]

  /** `ClampFftIndex`: an index into the size table. */
  function ClampFftIndex(idx: int): (r: int)
    ensures 0 <= r < |FftSizes|
    ensures 0 <= idx < |FftSizes| ==> r == idx
    ensures idx < 0 ==> r == 0
    ensures idx >= |FftSizes| ==> r == |FftSizes| - 1
  {
    ClampInt(idx, 0, |FftSizes| - 1)
  }

  /** `CurrentFftSize`: whatever the stored index, one of the offered sizes. */
  function CurrentFftSize(fftSizeIndex: int): (n: int)
    ensures n in FftSizes
    ensures n == 512 || n == 1024 || n == 2048 || n == 4096
  {
    FftSizes[ClampFftIndex(fftSizeIndex)]
  }

  // ---------------------------------------------------------------------
  // Integer division facts

  lemma MulMonoInt(a: int, b: int, d: int)
    requires d >= 0
    ensures a <= b ==> d * a <= d * b
  {
    assert d * b - d * a == d * (b - a);
    if a <= b {
      assert d * (b - a) >= 0;
    }
  }

  lemma DivMonoInt(x: int, y: int, d: int)
    requires 0 <= x <= y && d > 0
    ensures x / d <= y / d
  {
    MulMonoInt(y / d + 1, x / d, d);
    assert d * (y / d + 1) == d * (y / d) + d;
  }

  lemma DivAddDivisor(x: int, d: int)
    requires x >= 0 && d > 0
    ensures (x + d) / d == x / d + 1
  {
    ModUnique(x + d, x / d + 1, x % d, d);
  }

  lemma DivOfMultiple(q: int, d: int)
    requires d > 0
    ensures (d * q) / d == q
  {
    ModUnique(d * q, q, 0, d);
  }

  // ---------------------------------------------------------------------
  // Band ranges

  datatype MappingType = Linear | Log

  /** A range of FFT bins, `End` exclusive. */
  datatype BandRange = BandRange(start: int, end: int)

  /** `fftSize / 2`, truncating toward zero as C++ does. */
  function HalfOf(fftSize: int): (h: int)
    ensures 0 <= fftSize ==> 0 <= 2 * h <= fftSize <= 2 * h + 1
    ensures fftSize < 0 ==> 2 * h - 1 <= fftSize <= 2 * h <= 0
  {
    if fftSize >= 0 then fftSize / 2 else -((-fftSize) / 2)
  }

  /** Linear band b of n: the floor of b * half / n up to the floor of
      (b + 1) * half / n, at least one bin wide and cut at half. */
  function LinearBand(b: int, numBands: int, half: int): (r: BandRange)
    requires numBands >= 1 && 0 <= b < numBands && half >= 2
    ensures 0 <= r.start < r.end <= half
  {
    LinearEdges(b, numBands, half);
    var start := (b * half) / numBands;
    var end := ((b + 1) * half) / numBands;
    var wide := MaxInt(end, start + 1);
    BandRange(start, if wide < half then wide else half)
  }

  /** The FFT bin, as a real, that frequency `freq` falls in. */
  function BinOf(freq: real, fftSize: int, sampleRate: int): real
    requires sampleRate > 0
  {
    freq * fftSize as real / sampleRate as real
  }

  /** The point a fraction `t` of the way from `logMin` to `logMax`. */
  function LogPoint(logMin: real, logMax: real, t: real): real
  {
    logMin + (logMax - logMin) * t
  }

  /** The FFT bin, as a real, of the frequency at fraction `b / numBands`
      of the way from the lowest frequency to the Nyquist frequency on a
      logarithmic scale. */
  function LogEdge(b: int, numBands: int, fftSize: int, sampleRate: int, minFrequency: real,
                   exp: real -> real, log: real -> real): real
    requires numBands >= 1 && sampleRate > 0
  {
    var fMin := MaxReal(minFrequency, 1.0);
    var fMax := MaxReal(fMin, sampleRate as real * 0.5);
    BinOf(exp(LogPoint(log(fMin), log(fMax), b as real / numBands as real)), fftSize, sampleRate)
  }

  /** The scale runs from the lowest frequency (at b = 0) to the Nyquist
      frequency (at b = numBands), whenever exp undoes log at those two
      frequencies. */
  lemma LogEdgeEnds(b: int, numBands: int, fftSize: int, sampleRate: int, minFrequency: real,
                    exp: real -> real, log: real -> real)
    requires numBands >= 1 && sampleRate > 0
    ensures var fMin := MaxReal(minFrequency, 1.0);
      b == 0 && exp(log(fMin)) == fMin ==>
      LogEdge(b, numBands, fftSize, sampleRate, minFrequency, exp, log) == BinOf(fMin, fftSize, sampleRate)
    ensures var fMax := MaxReal(MaxReal(minFrequency, 1.0), sampleRate as real * 0.5);
      b == numBands && exp(log(fMax)) == fMax ==>
      LogEdge(b, numBands, fftSize, sampleRate, minFrequency, exp, log) == BinOf(fMax, fftSize, sampleRate)
  {
    var fMin := MaxReal(minFrequency, 1.0);
    var fMax := MaxReal(fMin, sampleRate as real * 0.5);
    UnitRatio(b, numBands);
    LogPointEnds(log(fMin), log(fMax), b as real / numBands as real);
  }

  /** The log-scale point is `logMin` at t = 0 and `logMax` at t = 1. */
  lemma LogPointEnds(logMin: real, logMax: real, t: real)
    ensures t == 0.0 ==> LogPoint(logMin, logMax, t) == logMin
    ensures t == 1.0 ==> LogPoint(logMin, logMax, t) == logMax
  {
  }

  /** The fraction b / n is 0 at b = 0 and 1 at b = n. */
  lemma UnitRatio(b: int, n: int)
    requires n >= 1
    ensures b == 0 ==> b as real / n as real == 0.0
    ensures b == n ==> b as real / n as real == 1.0
  {
  }

  /** Logarithmic band b of n: the floor of its lower edge and the ceiling
      of its upper edge, each clamped into [0, half]. */
  function LogBand(b: int, numBands: int, half: int, fftSize: int, sampleRate: int, minFrequency: real,
                   exp: real -> real, log: real -> real): (r: BandRange)
    requires numBands >= 1 && half >= 2 && sampleRate > 0
    ensures 0 <= r.start < r.end <= half
  {
    var start := ClampInt(LogEdge(b, numBands, fftSize, sampleRate, minFrequency, exp, log).Floor, 0, half - 1);
    var end := ClampInt(Ceil(LogEdge(b + 1, numBands, fftSize, sampleRate, minFrequency, exp, log)), start + 1, half);
    BandRange(start, end)
  }

  /** `ComputeBandRange`: the bins of band `bandIndex` (clamped to a valid
      band). Whatever `exp` and `log` return, the range is a non-empty part
      of the first half of the spectrum; with half <= 1 it is {0, 1}. The
      logarithmic mapping divides by the sample rate, which must then be
      positive for the cast back to an integer to be defined. */
  function ComputeBandRange(mapping: MappingType, minFrequency: real, bandIndex: int, numBands: int,
                            fftSize: int, sampleRate: int, exp: real -> real, log: real -> real): (r: BandRange)
    requires numBands >= 1
    requires mapping == Log && HalfOf(fftSize) > 1 ==> sampleRate > 0
    ensures HalfOf(fftSize) <= 1 ==> r == BandRange(0, 1)
    ensures HalfOf(fftSize) > 1 ==> 0 <= r.start < r.end <= HalfOf(fftSize)
  {
    var half := HalfOf(fftSize);
    if half <= 1 then BandRange(0, 1)
    else
      var b := ClampInt(bandIndex, 0, numBands - 1);
      if mapping == Linear then LinearBand(b, numBands, half)
      else LogBand(b, numBands, half, fftSize, sampleRate, minFrequency, exp, log)
  }

  /** With no more bands than bins, the widening and the cut never apply:
      band b is exactly [b * half / n, (b + 1) * half / n). */
  lemma LinearBandExact(b: int, numBands: int, half: int)
    requires 1 <= numBands <= half && 2 <= half && 0 <= b < numBands
    ensures LinearBand(b, numBands, half).start == (b * half) / numBands
    ensures LinearBand(b, numBands, half).end == ((b + 1) * half) / numBands
  {
    LinearEdges(b, numBands, half);
  }

  /** The quotients that bound a linear band. */
  lemma LinearEdges(b: int, numBands: int, half: int)
    requires 1 <= numBands && 0 <= b < numBands && half >= 1
    ensures 0 <= (b * half) / numBands < half
    ensures ((b + 1) * half) / numBands <= half
    ensures numBands <= half ==> (b * half) / numBands + 1 <= ((b + 1) * half) / numBands
  {
    var lo := b * half;
    var hi := (b + 1) * half;
    var top := numBands * half;
    assert hi == lo + half;
    assert 0 <= lo && hi <= top by {
      MulMonoInt(b + 1, numBands, half);
    }
    QuotientsStep(lo, hi, top, numBands, half);
  }

  /** The quotients by n of lo and of hi = lo + half, below n * half. */
  lemma QuotientsStep(lo: int, hi: int, top: int, n: int, half: int)
    requires n >= 1 && half >= 1 && 0 <= lo && hi == lo + half && hi <= top && top == n * half
    ensures 0 <= lo / n < half
    ensures hi / n <= half
    ensures n <= half ==> lo / n + 1 <= hi / n
  {
    assert top / n == half by {
      DivOfMultiple(half, n);
    }
    DivMonoInt(hi, top, n);
    DivMonoInt(0, lo, n);
    DivMonoInt(lo, top - 1, n);
    assert (top - 1) / n == half - 1 by {
      assert top - 1 == (half - 1) * n + (n - 1);
      ModUnique(top - 1, half - 1, n - 1, n);
    }
    if n <= half {
      DivMonoInt(lo + n, hi, n);
      DivAddDivisor(lo, n);
    }
  }

  /** Linear bands partition [0, half) when there are no more bands than
      bins: the first starts at 0, each ends where the next starts, the
      last ends at half, and none is empty. */
  lemma LinearBandsPartition(minFrequency: real, numBands: int, fftSize: int, sampleRate: int,
                             exp: real -> real, log: real -> real)
    requires 1 <= numBands <= HalfOf(fftSize)
    ensures ComputeBandRange(Linear, minFrequency, 0, numBands, fftSize, sampleRate, exp, log).start == 0
    ensures ComputeBandRange(Linear, minFrequency, numBands - 1, numBands, fftSize, sampleRate, exp, log).end
      == HalfOf(fftSize)
    ensures forall b :: 0 <= b < numBands - 1 ==>
      ComputeBandRange(Linear, minFrequency, b, numBands, fftSize, sampleRate, exp, log).end
      == ComputeBandRange(Linear, minFrequency, b + 1, numBands, fftSize, sampleRate, exp, log).start
  {
    var half := HalfOf(fftSize);
    if half == 1 {
      assert numBands == 1;
    } else {
      LinearBandExact(0, numBands, half);
      LinearBandExact(numBands - 1, numBands, half);
      DivOfMultiple(half, numBands);
      assert numBands * half == (numBands - 1 + 1) * half;
      forall b | 0 <= b < numBands - 1
        ensures ComputeBandRange(Linear, minFrequency, b, numBands, fftSize, sampleRate, exp, log).end
          == ComputeBandRange(Linear, minFrequency, b + 1, numBands, fftSize, sampleRate, exp, log).start
      {
        LinearBandExact(b, numBands, half);
        LinearBandExact(b + 1, numBands, half);
      }
    }
  }

  /** Logarithmic bands leave no gap: each ends at or after the start of
      the next, because the upper edge of one is the lower edge of the next
      and the ceiling of a value is at least its floor. Where that shared
      edge falls strictly between two bins inside the spectrum, the two
      bands overlap by one bin. */
  lemma LogBandsCoverAndOverlap(minFrequency: real, b: int, numBands: int, fftSize: int, sampleRate: int,
                                exp: real -> real, log: real -> real)
    requires 0 <= b < numBands - 1 && HalfOf(fftSize) > 1 && sampleRate > 0
    ensures ComputeBandRange(Log, minFrequency, b, numBands, fftSize, sampleRate, exp, log).end
      >= ComputeBandRange(Log, minFrequency, b + 1, numBands, fftSize, sampleRate, exp, log).start
    ensures var x := LogEdge(b + 1, numBands, fftSize, sampleRate, minFrequency, exp, log);
      0.0 < x < (HalfOf(fftSize) - 1) as real && x != x.Floor as real ==>
        ComputeBandRange(Log, minFrequency, b, numBands, fftSize, sampleRate, exp, log).end
        > ComputeBandRange(Log, minFrequency, b + 1, numBands, fftSize, sampleRate, exp, log).start
  {
    var half := HalfOf(fftSize);
    var x := LogEdge(b + 1, numBands, fftSize, sampleRate, minFrequency, exp, log);
    assert Ceil(x) >= x.Floor;
    if x != x.Floor as real {
      assert Ceil(x) == x.Floor + 1;
    }
  }

  // ---------------------------------------------------------------------
  // Band aggregation

  datatype AggregateType = Average | Max

  /** The largest of `s[lo..hi]` and 0. */
  function BinsMax(s: seq<real>, lo: nat, hi: nat): (m: real)
    requires lo <= hi <= |s|
    ensures m >= 0.0
    ensures forall i :: lo <= i < hi ==> s[i] <= m
    decreases hi - lo
  {
    if hi == lo then 0.0 else MaxReal(BinsMax(s, lo, hi - 1), s[hi - 1])
  }

  /** The maximum is 0 or one of the bins. */
  lemma {:induction false} BinsMaxAttained(s: seq<real>, lo: nat, hi: nat)
    requires lo <= hi <= |s|
    ensures BinsMax(s, lo, hi) == 0.0 || exists i :: lo <= i < hi && s[i] == BinsMax(s, lo, hi)
    decreases hi - lo
  {
    if hi > lo {
      BinsMaxAttained(s, lo, hi - 1);
    }
  }

  /** The smallest of `s[lo..hi]` and `init`. */
  function BinsMin(s: seq<real>, lo: nat, hi: nat, init: real): (m: real)
    requires lo <= hi <= |s|
    ensures m <= init
    ensures forall i :: lo <= i < hi ==> m <= s[i]
    decreases hi - lo
  {
    if hi == lo then init else MinReal(BinsMin(s, lo, hi - 1, init), s[hi - 1])
  }

  /** The minimum is `init` or one of the bins. */
  lemma {:induction false} BinsMinAttained(s: seq<real>, lo: nat, hi: nat, init: real)
    requires lo <= hi <= |s|
    ensures BinsMin(s, lo, hi, init) == init || exists i :: lo <= i < hi && s[i] == BinsMin(s, lo, hi, init)
    decreases hi - lo
  {
    if hi > lo {
      BinsMinAttained(s, lo, hi - 1, init);
    }
  }

  /** The sum of `s[lo..hi]`, added from the left. */
  function BinsSum(s: seq<real>, lo: nat, hi: nat): real
    requires lo <= hi <= |s|
    decreases hi - lo
  {
    if hi == lo then 0.0 else BinsSum(s, lo, hi - 1) + s[hi - 1]
  }

  /** Bins within [a, b] sum to between `a` and `b` times their count. */
  lemma {:induction false} SumBounds(s: seq<real>, lo: nat, hi: nat, a: real, b: real)
    requires lo <= hi <= |s|
    requires forall i :: lo <= i < hi ==> a <= s[i] <= b
    ensures a * (hi - lo) as real <= BinsSum(s, lo, hi) <= b * (hi - lo) as real
    decreases hi - lo
  {
    if hi > lo {
      SumBounds(s, lo, hi - 1, a, b);
      assert a * (hi - lo) as real == a * (hi - 1 - lo) as real + a;
      assert b * (hi - lo) as real == b * (hi - 1 - lo) as real + b;
    }
  }

  /** The mean of bins within [a, b] lies within [a, b]. */
  lemma MeanBounds(s: seq<real>, lo: nat, hi: nat, a: real, b: real)
    requires lo < hi <= |s|
    requires forall i :: lo <= i < hi ==> a <= s[i] <= b
    ensures a <= BinsSum(s, lo, hi) / (hi - lo) as real <= b
  {
    var n := (hi - lo) as real;
    SumBounds(s, lo, hi, a, b);
    var mean := BinsSum(s, lo, hi) / n;
    DivMulCancel(BinsSum(s, lo, hi), n);
    if mean < a {
      MulLt(mean, a, n);
    }
    if mean > b {
      MulLt(b, mean, n);
    }
  }

  /** The accumulation loop over `s[lo..hi]`. */
  method SumBins(s: seq<real>, lo: nat, hi: nat) returns (sum: real)
    requires lo <= hi <= |s|
    ensures sum == BinsSum(s, lo, hi)
  {
    sum := 0.0;
    var i := lo;
    while i < hi
      invariant lo <= i <= hi && sum == BinsSum(s, lo, i)
    {
      sum := sum + s[i];
      i := i + 1;
    }
  }

  /** `AggregateBand`. An empty range or spectrum gives 0. Otherwise the
      range is clamped to the spectrum; the maximum mode gives the largest
      bin (or 0, its starting value), the average mode the mean. A range
      lying wholly past the spectrum clamps to no bins, and the average
      then divides 0 by 0: `None` stands for that NaN. */
  method AggregateBand(spectrum: seq<real>, range: BandRange, agg: AggregateType) returns (r: Option<real>)
    ensures range.end <= range.start || |spectrum| == 0 ==> r == Some(0.0)
    ensures range.start < range.end && |spectrum| > 0 ==>
      var lo := ClampInt(range.start, 0, |spectrum|);
      var hi := ClampInt(range.end, 0, |spectrum|);
      lo <= hi
      && (agg == Max ==> r == Some(BinsMax(spectrum, lo, hi)))
      && (agg == Average && lo < hi ==> r == Some(BinsSum(spectrum, lo, hi) / (hi - lo) as real))
      && (agg == Average && lo == hi ==> r == None)
  {
    if range.end <= range.start || |spectrum| == 0 {
      return Some(0.0);
    }
    var lo := ClampInt(range.start, 0, |spectrum|);
    var hi := ClampInt(range.end, 0, |spectrum|);
    if agg == Max {
      var value := 0.0;
      var i := lo;
      while i < hi
        invariant lo <= i <= hi && value == BinsMax(spectrum, lo, i)
      {
        value := MaxReal(value, spectrum[i]);
        i := i + 1;
      }
      return Some(value);
    }
    var sum := SumBins(spectrum, lo, hi);
    if hi == lo {
      return None;
    }
    return Some(sum / (hi - lo) as real);
  }

  /** What aggregation means: the maximum is at least every bin and is 0 or
      one of them; the mean of bins within [a, b] lies within [a, b]. */
  lemma AggregateMeaning(spectrum: seq<real>, lo: nat, hi: nat, a: real, b: real)
    requires lo < hi <= |spectrum|
    requires forall i :: lo <= i < hi ==> a <= spectrum[i] <= b
    ensures forall i :: lo <= i < hi ==> spectrum[i] <= BinsMax(spectrum, lo, hi)
    ensures BinsMax(spectrum, lo, hi) == 0.0 || exists i :: lo <= i < hi && spectrum[i] == BinsMax(spectrum, lo, hi)
    ensures a <= BinsSum(spectrum, lo, hi) / (hi - lo) as real <= b
  {
    BinsMaxAttained(spectrum, lo, hi);
    MeanBounds(spectrum, lo, hi, a, b);
  }

  // ---------------------------------------------------------------------
  // Compression and automatic gain control

  /** `ApplyCompression`: `log1p(max(k, 0) * magnitude)`. */
  function ApplyCompression(magnitude: real, k: real, log1p: real -> real): (c: real)
    ensures k <= 0.0 || magnitude == 0.0 ==> c == log1p(0.0)
  {
    log1p(MaxReal(k, 0.0) * magnitude)
  }

  /** For a `log1p` that is 0 at 0 and non-decreasing on [0, inf),
      compression keeps magnitudes non-negative and in order, and a
      non-positive k flattens everything to 0. */
  lemma CompressionKeepsOrder(m1: real, m2: real, k: real, log1p: real -> real)
    requires forall x, y :: 0.0 <= x <= y ==> log1p(x) <= log1p(y)
    requires log1p(0.0) == 0.0
    requires 0.0 <= m1 <= m2
    ensures 0.0 <= ApplyCompression(m1, k, log1p) <= ApplyCompression(m2, k, log1p)
    ensures k <= 0.0 ==> ApplyCompression(m1, k, log1p) == 0.0
  {
    var kk := MaxReal(k, 0.0);
    MulNonneg(kk, m1);
    MulLe(m1, m2, kk);
    assert kk * m1 <= kk * m2;
  }

  /** A level at or below this targets the maximum gain. */
  const AgcSilence: real := 0.000001
  /** The smallest time constant. */
  const MinTau: real := 0.001

  /** The automatic gain control settings. */
  datatype AgcSettings = AgcSettings(target: real, maxGain: real, attack: real, release: real)

  lemma InverseGainRange(maxGain: real)
    requires maxGain >= 1.0
    ensures 0.0 < 1.0 / maxGain <= 1.0 <= maxGain
  {
    RatioInUnit(1.0, maxGain);
  }

  /** The gain the controller aims at: target level over the measured
      level, or the maximum gain for silence, clamped to
      [1 / maxGain, maxGain]. */
  function AgcTargetGain(level: real, s: AgcSettings): (t: real)
    requires s.maxGain >= 1.0
    ensures 1.0 / s.maxGain <= t <= s.maxGain
    ensures level <= AgcSilence ==> t == s.maxGain
  {
    InverseGainRange(s.maxGain);
    var raw := if level > AgcSilence then s.target / level else s.maxGain;
    Clamp(raw, 1.0 / s.maxGain, s.maxGain)
  }

  /** The time constant: attack when the gain must rise, release
      otherwise, never below 1 ms. */
  function AgcTau(current: real, targetGain: real, s: AgcSettings): (tau: real)
    ensures tau >= MinTau
    ensures targetGain > current ==> tau == MaxReal(s.attack, MinTau)
    ensures targetGain <= current ==> tau == MaxReal(s.release, MinTau)
  {
    MaxReal(if targetGain > current then s.attack else s.release, MinTau)
  }

  /** `UpdateAgcGain`: one exponential smoothing step toward the target
      gain, clamped to [1 / maxGain, maxGain]; `exp` stands for `std::exp`.
      A maximum gain below 1 would make the clamp's bounds cross. */
  function UpdateAgcGain(current: real, level: real, s: AgcSettings, dt: real, exp: real -> real): (g: real)
    requires s.maxGain >= 1.0
    ensures 1.0 / s.maxGain <= g <= s.maxGain
  {
    var target := AgcTargetGain(level, s);
    var alpha := exp(-dt / AgcTau(current, target, s));
    InverseGainRange(s.maxGain);
    Clamp(Blend(current, target, alpha), 1.0 / s.maxGain, s.maxGain)
  }

  /** `alpha * current + (1 - alpha) * target`. */
  function Blend(current: real, target: real, alpha: real): real
  {
    alpha * current + (1.0 - alpha) * target
  }

  /** A blend with a weight in [0, 1] lies between its two ends. */
  lemma BlendBetween(current: real, target: real, alpha: real)
    requires 0.0 <= alpha <= 1.0
    ensures MinReal(current, target) <= Blend(current, target, alpha) <= MaxReal(current, target)
  {
    assert Blend(current, target, alpha) == Lerp(target, current, alpha);
    LerpBetween(target, current, alpha);
  }

  /** For an `exp` that maps non-positive arguments into [0, 1], a gain
      already within the bounds moves toward the target gain without
      passing it: it rises when the target is above and falls when it is
      below. */
  lemma AgcMovesTowardTarget(current: real, level: real, s: AgcSettings, dt: real, exp: real -> real)
    requires s.maxGain >= 1.0 && dt >= 0.0
    requires forall x :: x <= 0.0 ==> 0.0 <= exp(x) <= 1.0
    requires 1.0 / s.maxGain <= current <= s.maxGain
    ensures MinReal(current, AgcTargetGain(level, s)) <= UpdateAgcGain(current, level, s, dt, exp)
      <= MaxReal(current, AgcTargetGain(level, s))
  {
    var target := AgcTargetGain(level, s);
    var tau := AgcTau(current, target, s);
    var alpha := exp(-dt / tau);
    assert 0.0 <= alpha <= 1.0 by {
      DivNonneg(dt, tau);
    }
    BlendBetween(current, target, alpha);
    InverseGainRange(s.maxGain);
  }

  // ---------------------------------------------------------------------
  // Names of the settings

  datatype WindowType = Hann | Hamming

  /** `WindowTypeName`. */
  function WindowTypeName(w: WindowType): string
  {
    match w
    case Hamming => "Hamming"
    case Hann => "Hann"
  }

  /** The names `TryParseWindowType` accepts. */
  function ParseWindowType(value: string): Option<WindowType>
  {
    if value == "Hamming" then Some(Hamming)
    else if value == "Hann" then Some(Hann)
    else None
  }

  /** Reading a name back gives the setting, and only names are read. */
  lemma WindowTypeRoundTrip(w: WindowType, value: string)
    ensures ParseWindowType(WindowTypeName(w)) == Some(w)
    ensures ParseWindowType(value).Some? ==> WindowTypeName(ParseWindowType(value).value) == value
  {
  }

  /** `TryParseWindowType`: on a known name, the setting; otherwise false
      and `out` unchanged. */
  method TryParseWindowType(value: string, out: WindowType) returns (ok: bool, result: WindowType)
    ensures ok <==> ParseWindowType(value).Some?
    ensures ok ==> result == ParseWindowType(value).value
    ensures !ok ==> result == out
  {
    if value == "Hamming" {
      return true, Hamming;
    }
    if value == "Hann" {
      return true, Hann;
    }
    return false, out;
  }

  /** `MappingTypeName`. */
  function MappingTypeName(m: MappingType): string
  {
    match m
    case Log => "Log"
    case Linear => "Linear"
  }

  function ParseMappingType(value: string): Option<MappingType>
  {
    if value == "Log" then Some(Log)
    else if value == "Linear" then Some(Linear)
    else None
  }

  lemma MappingTypeRoundTrip(m: MappingType, value: string)
    ensures ParseMappingType(MappingTypeName(m)) == Some(m)
    ensures ParseMappingType(value).Some? ==> MappingTypeName(ParseMappingType(value).value) == value
  {
  }

  /** `TryParseMappingType`. */
  method TryParseMappingType(value: string, out: MappingType) returns (ok: bool, result: MappingType)
    ensures ok <==> ParseMappingType(value).Some?
    ensures ok ==> result == ParseMappingType(value).value
    ensures !ok ==> result == out
  {
    if value == "Log" {
      return true, Log;
    }
    if value == "Linear" {
      return true, Linear;
    }
    return false, out;
  }

  datatype TransferPreset = Smoke | Neon | Heatmap

  /** `TransferPresetName`. */
  function TransferPresetName(p: TransferPreset): string
  {
    match p
    case Neon => "Neon"
    case Heatmap => "Heatmap"
    case Smoke => "Smoke"
  }

  function ParseTransferPreset(value: string): Option<TransferPreset>
  {
    if value == "Neon" then Some(Neon)
    else if value == "Heatmap" then Some(Heatmap)
    else if value == "Smoke" then Some(Smoke)
    else None
  }

  lemma TransferPresetRoundTrip(p: TransferPreset, value: string)
    ensures ParseTransferPreset(TransferPresetName(p)) == Some(p)
    ensures ParseTransferPreset(value).Some? ==> TransferPresetName(ParseTransferPreset(value).value) == value
  {
  }

  /** `TryParseTransferPreset`. */
  method TryParseTransferPreset(value: string, out: TransferPreset) returns (ok: bool, result: TransferPreset)
    ensures ok <==> ParseTransferPreset(value).Some?
    ensures ok ==> result == ParseTransferPreset(value).value
    ensures !ok ==> result == out
  {
    if value == "Neon" {
      return true, Neon;
    }
    if value == "Heatmap" {
      return true, Heatmap;
    }
    if value == "Smoke" {
      return true, Smoke;
    }
    return false, out;
  }

  datatype ColorMode = Gray | Gradient

  /** `App::ColorModeName`: the gradient mode is stored as "TransferLUT". */
  function ColorModeName(c: ColorMode): string
  {
    match c
    case Gradient => "TransferLUT"
    case Gray => "Grayscale"
  }

  function ParseColorMode(value: string): Option<ColorMode>
  {
    if value == "TransferLUT" then Some(Gradient)
    else if value == "Grayscale" then Some(Gray)
    else None
  }

  lemma ColorModeRoundTrip(c: ColorMode, value: string)
    ensures ParseColorMode(ColorModeName(c)) == Some(c)
    ensures ParseColorMode(value).Some? ==> ColorModeName(ParseColorMode(value).value) == value
  {
  }

  /** `App::TryParseColorMode`. */
  method TryParseColorMode(value: string, out: ColorMode) returns (ok: bool, result: ColorMode)
    ensures ok <==> ParseColorMode(value).Some?
    ensures ok ==> result == ParseColorMode(value).value
    ensures !ok ==> result == out
  {
    if value == "TransferLUT" {
      return true, Gradient;
    }
    if value == "Grayscale" {
      return true, Gray;
    }
    return false, out;
  }

  // ---------------------------------------------------------------------
  // Normalisation of the band energies

  /** Minimum, mean and maximum of the band energies. */
  datatype Stats = Stats(min: real, max: real, avg: real)

  /** The statistics loop: the maximum starts at 0 and the minimum at
      `minInit`; without bands the minimum and the mean are 0. */
  function StatsOf(v: seq<real>, minInit: real): (st: Stats)
    ensures |v| == 0 ==> st == Stats(0.0, 0.0, 0.0)
    ensures |v| > 0 ==> st.min <= minInit && 0.0 <= st.max && st.min <= st.avg <= st.max
    ensures forall k :: 0 <= k < |v| ==> st.min <= v[k] <= st.max
  {
    if |v| == 0 then Stats(0.0, 0.0, 0.0)
    else
      MeanBounds(v, 0, |v|, BinsMin(v, 0, |v|, minInit), BinsMax(v, 0, |v|));
      Stats(BinsMin(v, 0, |v|, minInit), BinsMax(v, 0, |v|), BinsSum(v, 0, |v|) / |v| as real)
  }

  /** For energies in [0, 1] the statistics after normalisation are
      ordered, 0 <= min <= avg <= max <= 1, and all 0 without bands. */
  lemma NormalizedStatsOrdered(v: seq<real>)
    requires forall k :: 0 <= k < |v| ==> 0.0 <= v[k] <= 1.0
    ensures |v| == 0 ==> StatsOf(v, 1.0) == Stats(0.0, 0.0, 0.0)
    ensures |v| > 0 ==> var st := StatsOf(v, 1.0);
      0.0 <= st.min <= st.avg <= st.max <= 1.0
  {
    if |v| > 0 {
      var mn := BinsMin(v, 0, |v|, 1.0);
      var mx := BinsMax(v, 0, |v|);
      BinsMinAttained(v, 0, |v|, 1.0);
      BinsMaxAttained(v, 0, |v|);
      MeanBounds(v, 0, |v|, mn, mx);
    }
  }

  /** The gain applied to the band energies: the controller's step with AGC
      on; otherwise the inverse of the largest energy, or 1 when that is
      at or below the silence threshold. */
  function NormalizationGain(agcEnabled: bool, agcGain: real, rawMax: real, s: AgcSettings,
                             dt: real, exp: real -> real): (g: real)
    requires agcEnabled ==> s.maxGain >= 1.0
    ensures agcEnabled ==> 1.0 / s.maxGain <= g <= s.maxGain
    ensures !agcEnabled ==> g > 0.0
    ensures !agcEnabled && rawMax > AgcSilence ==> g * rawMax == 1.0
    ensures !agcEnabled && rawMax <= AgcSilence ==> g == 1.0
  {
    if agcEnabled then UpdateAgcGain(agcGain, rawMax, s, dt, exp)
    else if rawMax > AgcSilence then 1.0 / rawMax
    else 1.0
  }

  /** Every energy times the gain, clamped to [0, 1]. */
  function Scaled(v: seq<real>, gain: real): (w: seq<real>)
    ensures |w| == |v|
    ensures forall k :: 0 <= k < |w| ==> w[k] == Clamp(v[k] * gain, 0.0, 1.0)
    ensures forall k :: 0 <= k < |w| ==> 0.0 <= w[k] <= 1.0
  {
    seq(|v|, k => ScaledAt(v, gain, k))
  }

  /** Energy k times the gain, clamped to [0, 1]. */
  function ScaledAt(v: seq<real>, gain: real, k: int): real
  {
    if 0 <= k < |v| then Clamp(v[k] * gain, 0.0, 1.0) else 0.0
  }

  /** The bass level: the mean of the first (up to) three bands. */
  function BassLevel(v: seq<real>): (b: real)
    ensures |v| == 0 ==> b == 0.0
    ensures |v| >= 3 ==> b == (v[0] + v[1] + v[2]) / 3.0
    ensures (forall k :: 0 <= k < |v| ==> 0.0 <= v[k] <= 1.0) ==> 0.0 <= b <= 1.0
  {
    var n := if |v| < 3 then |v| else 3;
    if n == 0 then 0.0
    else
      assert n == 3 ==> BinsSum(v, 0, n) == v[0] + v[1] + v[2];
      if forall k :: 0 <= k < |v| ==> 0.0 <= v[k] <= 1.0 then
        MeanBounds(v, 0, n, 0.0, 1.0);
        BinsSum(v, 0, n) / n as real
      else
        BinsSum(v, 0, n) / n as real
  }

  /** Without AGC, non-negative energies whose largest exceeds the silence
      threshold are scaled so that the largest becomes exactly 1: the
      normalised maximum is 1, reached at a band that held the maximum. */
  lemma PeakNormalizesToOne(v: seq<real>, agcGain: real, s: AgcSettings, dt: real, exp: real -> real)
    requires forall k :: 0 <= k < |v| ==> 0.0 <= v[k]
    requires BinsMax(v, 0, |v|) > AgcSilence
    ensures var w := Scaled(v, NormalizationGain(false, agcGain, BinsMax(v, 0, |v|), s, dt, exp));
      (exists k :: 0 <= k < |v| && v[k] == BinsMax(v, 0, |v|) && w[k] == 1.0)
      && StatsOf(w, 1.0).max == 1.0
  {
    var mx := BinsMax(v, 0, |v|);
    assert NormalizationGain(false, agcGain, mx, s, dt, exp) == 1.0 / mx;
    var w := Scaled(v, 1.0 / mx);
    BinsMaxAttained(v, 0, |v|);
    var k :| 0 <= k < |v| && v[k] == mx;
    ScaledPeak(v, mx, k);
    BinsMaxAttained(w, 0, |w|);
  }

  lemma ScaledPeak(v: seq<real>, mx: real, k: int)
    requires 0 <= k < |v| && v[k] == mx && mx > 0.0
    ensures Scaled(v, 1.0 / mx)[k] == 1.0
  {
    PeakScalesToOne(v[k], mx);
  }

  lemma PeakScalesToOne(x: real, mx: real)
    requires x == mx && mx > 0.0
    ensures Clamp(x * (1.0 / mx), 0.0, 1.0) == 1.0
  {
    assert x * (1.0 / mx) == 1.0;
  }

  /** The documented case: without AGC, [0.2, 0.4, 0.1] normalises to
      [0.5, 1, 0.25]. */
  lemma NormalizationExample(agcGain: real, s: AgcSettings, dt: real, exp: real -> real)
    ensures Scaled([0.2, 0.4, 0.1], NormalizationGain(false, agcGain, BinsMax([0.2, 0.4, 0.1], 0, 3), s, dt, exp))
      == [0.5, 1.0, 0.25]
  {
    var v := [0.2, 0.4, 0.1];
    assert BinsMax(v, 0, 1) == 0.2;
    assert BinsMax(v, 0, 2) == 0.4;
    assert BinsMax(v, 0, 3) == 0.4;
    var w := Scaled(v, 1.0 / 0.4);
    assert w[0] == 0.5 && w[1] == 1.0 && w[2] == 0.25;
  }

  /** The analysis state of the sphere visualiser that the normalisation
      step rewrites, with the bass level the step derives from it. */
  class AnalysisState {
    var bandEnergies: seq<real>
    var energyMin: real
    var energyMax: real
    var energyAvg: real
    var agcGain: real
    /** `App::_audioBass`. */
    var bass: real

    /** The statistics loop over the band energies. */
    static method EnergyStats(v: seq<real>, minInit: real) returns (st: Stats)
      ensures st == StatsOf(v, minInit)
    {
      var maxEnergy := 0.0;
      var minEnergy := minInit;
      var sum := 0.0;
      var i := 0;
      while i < |v|
        invariant 0 <= i <= |v|
        invariant maxEnergy == BinsMax(v, 0, i) && minEnergy == BinsMin(v, 0, i, minInit) && sum == BinsSum(v, 0, i)
      {
        maxEnergy := MaxReal(maxEnergy, v[i]);
        minEnergy := MinReal(minEnergy, v[i]);
        sum := sum + v[i];
        i := i + 1;
      }
      if |v| == 0 {
        minEnergy := 0.0;
      }
      st := Stats(minEnergy, maxEnergy, if |v| == 0 then 0.0 else sum / |v| as real);
    }

    /** The clamping loop: every energy times the gain, within [0, 1]. */
    method ScaleBands(gain: real)
      modifies this`bandEnergies
      ensures bandEnergies == Scaled(old(bandEnergies), gain)
    {
      var i := 0;
      while i < |bandEnergies|
        invariant 0 <= i <= |bandEnergies| == |old(bandEnergies)|
        invariant forall k :: 0 <= k < i ==> bandEnergies[k] == Clamp(old(bandEnergies)[k] * gain, 0.0, 1.0)
        invariant forall k :: i <= k < |bandEnergies| ==> bandEnergies[k] == old(bandEnergies)[k]
      {
        bandEnergies := bandEnergies[i := Clamp(bandEnergies[i] * gain, 0.0, 1.0)];
        i := i + 1;
      }
      assert forall k :: 0 <= k < |bandEnergies| ==> bandEnergies[k] == Scaled(old(bandEnergies), gain)[k];
    }

    /** The normalisation step of `UpdateAudioAnalysis`: the raw
        statistics, the gain (AGC or peak normalisation), the clamped
        energies, the statistics after normalisation and the bass level. */
    method Normalize(agcEnabled: bool, s: AgcSettings, dt: real, exp: real -> real)
      requires agcEnabled ==> s.maxGain >= 1.0
      modifies this`bandEnergies, this`energyMin, this`energyMax, this`energyAvg, this`agcGain, this`bass
      ensures var gain := NormalizationGain(agcEnabled, old(agcGain), BinsMax(old(bandEnergies), 0, |old(bandEnergies)|), s, dt, exp);
        bandEnergies == Scaled(old(bandEnergies), gain) && agcGain == (if agcEnabled then gain else 1.0)
      ensures Stats(energyMin, energyMax, energyAvg) == StatsOf(bandEnergies, 1.0)
      ensures |bandEnergies| > 0 ==> 0.0 <= energyMin <= energyAvg <= energyMax <= 1.0
      ensures |bandEnergies| == 0 ==> energyMin == 0.0 && energyMax == 0.0 && energyAvg == 0.0
      ensures bass == BassLevel(bandEnergies) && 0.0 <= bass <= 1.0
    {
      var raw := EnergyStats(bandEnergies, FltMax);
      energyMin, energyMax, energyAvg := raw.min, raw.max, raw.avg;
      var gain := ChooseGain(agcEnabled, s, dt, exp);
      ScaleBands(gain);
      var norm := EnergyStats(bandEnergies, 1.0);
      NormalizedStatsOrdered(bandEnergies);
      energyMin, energyMax, energyAvg := norm.min, norm.max, norm.avg;
      UpdateBass();
    }

    /** The gain selection of the normalisation step; AGC keeps its gain,
        peak normalisation resets it to 1. */
    method ChooseGain(agcEnabled: bool, s: AgcSettings, dt: real, exp: real -> real) returns (gain: real)
      requires agcEnabled ==> s.maxGain >= 1.0
      modifies this`agcGain
      ensures gain == NormalizationGain(agcEnabled, old(agcGain), energyMax, s, dt, exp)
      ensures agcGain == if agcEnabled then gain else 1.0
    {
      if agcEnabled {
        gain := UpdateAgcGain(agcGain, energyMax, s, dt, exp);
        agcGain := gain;
      } else {
        agcGain := 1.0;
        gain := if energyMax > AgcSilence then 1.0 / energyMax else 1.0;
      }
    }

    /** The bass loop: the mean of the first (up to) three bands. */
    method UpdateBass()
      requires forall k :: 0 <= k < |bandEnergies| ==> 0.0 <= bandEnergies[k] <= 1.0
      modifies this`bass
      ensures bass == BassLevel(bandEnergies) && 0.0 <= bass <= 1.0
    {
      var bassBands := if |bandEnergies| < 3 then |bandEnergies| else 3;
      var bassSum := SumBins(bandEnergies, 0, bassBands);
      bass := if bassBands > 0 then bassSum / bassBands as real else 0.0;
      if bassBands > 0 {
        MeanBounds(bandEnergies, 0, bassBands, 0.0, 1.0);
      }
    }
  }

  // ---------------------------------------------------------------------
  // The spectrum preview

  /** `floor(step * i)` with `step = n / target`, as a bin index. */
  function BinEdge(n: nat, target: nat, i: nat): (e: nat)
    requires target > 0
    ensures e == (n * i) / target
  {
    BinEdgeExact(n, target, i);
    ((n as real / target as real) * i as real).Floor
  }

  /** The float product's floor is the integer quotient of n * i. */
  lemma BinEdgeExact(n: nat, target: nat, i: nat)
    requires target > 0
    ensures ((n as real / target as real) * i as real).Floor == (n * i) / target
  {
    var t := target as real;
    var x := (n as real / t) * i as real;
    var q := (n * i) / target;
    var r := (n * i) % target;
    assert (n * i) as real == q as real * t + r as real;
    assert x == (n * i) as real / t;
    assert x == q as real + r as real / t;
    assert 0.0 <= r as real / t < 1.0 by {
      RatioInUnit(r as real, t);
      assert r as real < t;
      if r as real / t >= 1.0 {
        LeQuotient(1.0, r as real, t);
      }
    }
  }

  /** Preview bin i: the mean of the source bins from the floor of
      `step * i` to the floor of `step * (i + 1)`, both cut at the source
      length; 0 when that range is empty. */
  function DownsampleBin(src: seq<real>, target: nat, i: nat): (r: real)
    requires target > 0
    ensures |src| == 0 ==> r == 0.0
    ensures target <= |src| && i < target ==>
      var lo, hi := BinEdge(|src|, target, i), BinEdge(|src|, target, i + 1);
      lo < hi <= |src| && r == BinsSum(src, lo, hi) / (hi - lo) as real
  {
    var start := MinNat(BinEdge(|src|, target, i), |src|);
    var end := MinNat(BinEdge(|src|, target, i + 1), |src|);
    if target <= |src| && i < target then
      DownsamplePartition(|src|, target, i);
      if end <= start then 0.0 else BinsSum(src, start, end) / (end - start) as real
    else
      if end <= start then 0.0 else BinsSum(src, start, end) / (end - start) as real
  }

  /** `DownsampleSpectrum`: `target` preview bins, or none for an empty
      source or target. */
  method DownsampleSpectrum(src: seq<real>, target: nat) returns (dst: seq<real>)
    ensures target == 0 || |src| == 0 ==> dst == []
    ensures target > 0 && |src| > 0 ==>
      |dst| == target && forall i :: 0 <= i < target ==> dst[i] == DownsampleBin(src, target, i)
  {
    if target == 0 || |src| == 0 {
      return [];
    }
    dst := seq(target, _ => 0.0);
    for i := 0 to target
      invariant |dst| == target
      invariant forall k :: 0 <= k < i ==> dst[k] == DownsampleBin(src, target, k)
      invariant forall k :: i <= k < target ==> dst[k] == 0.0
    {
      var start := MinNat(BinEdge(|src|, target, i), |src|);
      var end := MinNat(BinEdge(|src|, target, i + 1), |src|);
      if end <= start {
        continue;
      }
      var sum := SumBins(src, start, end);
      dst := dst[i := sum / (end - start) as real];
    }
  }

  /** With at least as many source bins as preview bins, the preview bins
      partition the source: the first starts at 0, each ends where the next
      starts, the last ends at the source length, and none is empty. */
  lemma DownsamplePartition(n: nat, target: nat, i: nat)
    requires 0 < target <= n && i < target
    ensures BinEdge(n, target, 0) == 0 && BinEdge(n, target, target) == n
    ensures BinEdge(n, target, i) < BinEdge(n, target, i + 1) <= n
  {
    assert BinEdge(n, target, 0) == 0;
    assert BinEdge(n, target, target) == n by {
      DivOfMultiple(n, target);
      assert n * target == target * n;
    }
    assert BinEdge(n, target, i) < BinEdge(n, target, i + 1) <= n by {
      LinearEdges(i, target, n);
      assert n * i == i * n && n * (i + 1) == (i + 1) * n;
    }
  }

  /** A preview of a source whose bins lie within [a, b] lies within
      [a, b] too, when no preview bin is empty. */
  lemma DownsampleWithinRange(src: seq<real>, target: nat, a: real, b: real)
    requires 0 < target <= |src|
    requires forall k :: 0 <= k < |src| ==> a <= src[k] <= b
    ensures forall i :: 0 <= i < target ==> a <= DownsampleBin(src, target, i) <= b
  {
    forall i | 0 <= i < target
      ensures a <= DownsampleBin(src, target, i) <= b
    {
      DownsamplePartition(|src|, target, i);
      MeanBounds(src, BinEdge(|src|, target, i), BinEdge(|src|, target, i + 1), a, b);
    }
  }
}
