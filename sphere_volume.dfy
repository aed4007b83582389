/** The shell volume of the sphere visualiser (`SphereVolumeData.cpp`) and the
    CPU side of its compute-shader twin (`GpuVolumeBuilder.cpp`): clamped
    settings, per-band radius and gain tables, exponential smoothing of the
    band energies, and the voxel formula that turns them into a density
    volume clamped to [0, 1]. */
module SphereVolume {
  import opened Common

  const MinVolumeSize: nat := 32
  const MaxVolumeSize: nat := 256
  /** The GPU builder caps the band count (its uniform arrays are fixed). */
  const MaxBands: nat := 256
  const MinThickness: real := 0.01
  const MaxBaseThickness: real := 0.5
  const MaxAmpScale: real := 5.0
  const MaxThicknessScale: real := 5.0
  const MinGlobalGain: real := 0.1
  const MaxGlobalGain: real := 5.0
  const MinSmoothing: real := 0.0
  const MaxSmoothing: real := 1.0
  const MinTilt: real := -1.0
  const MaxTilt: real := 1.0
  const MinRadius: real := 0.05
  const MaxRadius: real := 1.0
  const MinBandGain: real := 0.1
  const MaxBandGain: real := 3.0
  /** The compute shader's work-group edge. */
  const GroupSize: nat := 8

  /** The floating-point library the build links against: `std::exp`,
      `std::log` and `std::sqrt`. */
  datatype MathLib = MathLib(exp: real -> real, log: real -> real, sqrt: real -> real)

  datatype RadiusDistribution = Linear | Log

  datatype Settings = Settings(
    volumeSize: nat,
    ampScale: real,
    thicknessScale: real,
    baseThickness: real,
    globalGain: real,
    smoothingFactor: real,
    tilt: real,
    radiusLayout: RadiusDistribution)

  /** Timings of one build; a default-constructed value is all zeros. */
  datatype BuildStats = BuildStats(buildMs: real, uploadMs: real)

  const ZeroStats: BuildStats := BuildStats(0.0, 0.0)

  // ---------------------------------------------------------------------
  // Settings

  predicate SettingsInRange(s: Settings)
  {
    && MinVolumeSize <= s.volumeSize <= MaxVolumeSize
    && 0.0 <= s.ampScale <= MaxAmpScale
    && 0.0 <= s.thicknessScale <= MaxThicknessScale
    && MinThickness <= s.baseThickness <= MaxBaseThickness
    && MinGlobalGain <= s.globalGain <= MaxGlobalGain
    && MinSmoothing <= s.smoothingFactor <= MaxSmoothing
    && MinTilt <= s.tilt <= MaxTilt
  }

  /** `SetSettings`' clamping: every field lands in its range, a field
      already in range is kept, and the layout passes through. */
  function ClampSettings(s: Settings): (r: Settings)
    ensures SettingsInRange(r)
    ensures r.radiusLayout == s.radiusLayout
    ensures SettingsInRange(s) ==> r == s
  {
    Settings(
      ClampInt(s.volumeSize, MinVolumeSize, MaxVolumeSize),
      Clamp(s.ampScale, 0.0, MaxAmpScale),
      Clamp(s.thicknessScale, 0.0, MaxThicknessScale),
      Clamp(s.baseThickness, MinThickness, MaxBaseThickness),
      Clamp(s.globalGain, MinGlobalGain, MaxGlobalGain),
      Clamp(s.smoothingFactor, MinSmoothing, MaxSmoothing),
      Clamp(s.tilt, MinTilt, MaxTilt),
      s.radiusLayout)
  }

  /** `std::clamp` keeps order: a larger input never gives a smaller output. */
  lemma ClampMono(u: real, v: real, lo: real, hi: real)
    requires lo <= hi && u <= v
    ensures Clamp(u, lo, hi) <= Clamp(v, lo, hi)
  {
  }

  // ---------------------------------------------------------------------
  // Band tables

  /** Where band i sits among `count` bands: (i + 1) / (count + 1). */
  function BandPosition(i: nat, count: nat): (t: real)
    requires i < count
    ensures 0.0 < t < 1.0
  {
    var t := (i + 1) as real / (count + 1) as real;
    RatioInUnit((i + 1) as real, (count + 1) as real);
    DivLt((i + 1) as real, (count + 1) as real, (count + 1) as real);
    DivMulCancel((count + 1) as real, (count + 1) as real);
    t
  }

  lemma DivLt(a: real, b: real, c: real)
    requires c > 0.0 && a < b
    ensures a / c < b / c
  {
    var d := b - a;
    assert d / c > 0.0;
    assert b / c == a / c + d / c;
  }

  /** The unclamped radius at position t in (0, 1): evenly spaced for the
      Linear layout, geometrically between the two bounds for the Log layout. */
  function LayoutRadius(layout: RadiusDistribution, t: real, m: MathLib): real
  {
    var logMin := m.log(MinRadius);
    var logMax := m.log(MaxRadius);
    if layout == Log then m.exp(logMin + (logMax - logMin) * t)
    else MinRadius + (MaxRadius - MinRadius) * t
  }

  /** The base radius of band i, clamped to [MinRadius, MaxRadius]. */
  function BandRadius(layout: RadiusDistribution, i: nat, count: nat, m: MathLib): (r: real)
    requires i < count
    ensures MinRadius <= r <= MaxRadius
  {
    Clamp(LayoutRadius(layout, BandPosition(i, count), m), MinRadius, MaxRadius)
  }

  lemma PositionIncreases(i: nat, j: nat, count: nat)
    requires i < j < count
    ensures BandPosition(i, count) < BandPosition(j, count)
  {
    DivLt((i + 1) as real, (j + 1) as real, (count + 1) as real);
  }

  /** The Linear layout places the shells strictly outward with the band index. */
  lemma LinearRadiiIncrease(i: nat, j: nat, count: nat, m: MathLib)
    requires i < j < count
    ensures BandRadius(Linear, i, count, m) < BandRadius(Linear, j, count, m)
  {
    var ti := BandPosition(i, count);
    var tj := BandPosition(j, count);
    PositionIncreases(i, j, count);
    MulLt(ti, tj, MaxRadius - MinRadius);
    assert MinRadius < LayoutRadius(Linear, ti, m);
    assert LayoutRadius(Linear, tj, m) < MaxRadius by {
      MulLt(tj, 1.0, MaxRadius - MinRadius);
    }
  }

  /** With a non-decreasing `exp` and `log(MinRadius) <= log(MaxRadius)`, the
      Log layout never places a band inside an earlier one. */
  lemma LogRadiiNondecreasing(i: nat, j: nat, count: nat, m: MathLib)
    requires i < j < count
    requires forall a: real, b: real {:trigger m.exp(a), m.exp(b)} :: a <= b ==> m.exp(a) <= m.exp(b)
    requires m.log(MinRadius) <= m.log(MaxRadius)
    ensures BandRadius(Log, i, count, m) <= BandRadius(Log, j, count, m)
  {
    var ti := BandPosition(i, count);
    var tj := BandPosition(j, count);
    PositionIncreases(i, j, count);
    var logMin := m.log(MinRadius);
    var d := m.log(MaxRadius) - logMin;
    MulLe(ti, tj, d);
    assert d * ti <= d * tj;
    assert LayoutRadius(Log, ti, m) <= LayoutRadius(Log, tj, m);
    ClampMono(LayoutRadius(Log, ti, m), LayoutRadius(Log, tj, m), MinRadius, MaxRadius);
  }

  /** The gain before clamping at a position in [0, 1] of the band range. */
  function TiltedGain(position: real, tilt: real): real
  {
    1.0 + tilt * (position * 2.0 - 1.0)
  }

  /** The centre of the band range, or no tilt, leaves the gain at 1; over
      the range the gain stays within the tilt's magnitude of 1. */
  lemma TiltedGainBounds(position: real, tilt: real)
    ensures position == 0.5 || tilt == 0.0 ==> TiltedGain(position, tilt) == 1.0
    ensures 0.0 <= position <= 1.0 ==>
      1.0 - AbsReal(tilt) <= TiltedGain(position, tilt) <= 1.0 + AbsReal(tilt)
  {
    var u := position * 2.0 - 1.0;
    if position == 0.5 {
      assert u == 0.0;
    }
    if 0.0 <= position <= 1.0 {
      TiltWithin(u, tilt);
    }
  }

  /** A tilt times a value in [-1, 1] is at most the tilt's magnitude. */
  lemma TiltWithin(u: real, tilt: real)
    requires -1.0 <= u <= 1.0
    ensures -AbsReal(tilt) <= tilt * u <= AbsReal(tilt)
  {
    if tilt >= 0.0 {
      ScaledWithin(u, tilt);
    } else {
      ScaledWithin(u, -tilt);
      assert -tilt * u == -(tilt * u);
    }
  }

  /** A non-negative t times a value in [-1, 1] lies in [-t, t]. */
  lemma ScaledWithin(u: real, t: real)
    requires -1.0 <= u <= 1.0 && t >= 0.0
    ensures -t <= t * u <= t
  {
    MulLe(-1.0, u, t);
    MulLe(u, 1.0, t);
  }

  /** `ComputeBandGain`: the tilt raises the high bands and lowers the low ones
      (or the reverse for a negative tilt), clamped to [0.1, 3]. */
  function BandGain(i: nat, count: nat, tilt: real): (g: real)
    ensures MinBandGain <= g <= MaxBandGain
    ensures count <= 1 ==> g == 1.0
    ensures tilt == 0.0 ==> g == 1.0
  {
    if count <= 1 then 1.0
    else Clamp(TiltedGain(i as real / (count - 1) as real, tilt), MinBandGain, MaxBandGain)
  }

  lemma TiltedGainOrder(p: real, q: real, tilt: real)
    requires p <= q
    ensures tilt >= 0.0 ==> TiltedGain(p, tilt) <= TiltedGain(q, tilt)
    ensures tilt <= 0.0 ==> TiltedGain(p, tilt) >= TiltedGain(q, tilt)
  {
    TiltLineOrder(p * 2.0 - 1.0, q * 2.0 - 1.0, tilt);
  }

  /** The line `1 + tilt * u` rises with u for a positive tilt and falls
      for a negative one. */
  lemma TiltLineOrder(u: real, v: real, tilt: real)
    requires u <= v
    ensures tilt >= 0.0 ==> 1.0 + tilt * u <= 1.0 + tilt * v
    ensures tilt <= 0.0 ==> 1.0 + tilt * u >= 1.0 + tilt * v
  {
    if tilt >= 0.0 {
      MulLe(u, v, tilt);
    } else {
      MulLe(u, v, -tilt);
      assert u * -tilt == -(tilt * u) && v * -tilt == -(tilt * v);
    }
  }

  /** A positive tilt makes the gains non-decreasing with the band index, a
      negative one non-increasing. */
  lemma TiltOrdersGains(i: nat, j: nat, count: nat, tilt: real)
    requires i <= j
    ensures tilt >= 0.0 ==> BandGain(i, count, tilt) <= BandGain(j, count, tilt)
    ensures tilt <= 0.0 ==> BandGain(i, count, tilt) >= BandGain(j, count, tilt)
  {
    if count > 1 {
      var c := (count - 1) as real;
      var pi := i as real / c;
      var pj := j as real / c;
      if i < j {
        DivLt(i as real, j as real, c);
      }
      TiltedGainOrder(pi, pj, tilt);
      var gi := TiltedGain(pi, tilt);
      var gj := TiltedGain(pj, tilt);
      if tilt >= 0.0 {
        ClampMono(gi, gj, MinBandGain, MaxBandGain);
      }
      if tilt <= 0.0 {
        ClampMono(gj, gi, MinBandGain, MaxBandGain);
      }
    }
  }

  function RadiusAt(layout: RadiusDistribution, count: nat, m: MathLib, k: int): real
  {
    if 0 <= k < count then BandRadius(layout, k, count, m) else MinRadius
  }

  function GainAt(count: nat, tilt: real, k: int): real
  {
    if 0 <= k then BandGain(k, count, tilt) else 1.0
  }

  /** The whole radius table for `count` bands. */
  function RadiusTable(layout: RadiusDistribution, count: nat, m: MathLib): (t: seq<real>)
    ensures |t| == count
    ensures forall k :: 0 <= k < count ==> MinRadius <= t[k] <= MaxRadius
  {
    seq(count, k => RadiusAt(layout, count, m, k))
  }

  /** The whole gain table for `count` bands. */
  function GainTable(count: nat, tilt: real): (t: seq<real>)
    ensures |t| == count
    ensures forall k :: 0 <= k < count ==> MinBandGain <= t[k] <= MaxBandGain
  {
    seq(count, k => GainAt(count, tilt, k))
  }

  /** The Linear table is strictly increasing. */
  lemma LinearTableIncreasing(count: nat, m: MathLib)
    ensures forall i, j :: 0 <= i < j < count ==>
      RadiusTable(Linear, count, m)[i] < RadiusTable(Linear, count, m)[j]
  {
    var t := RadiusTable(Linear, count, m);
    forall i, j | 0 <= i < j < count
      ensures t[i] < t[j]
    {
      LinearRadiiIncrease(i, j, count, m);
    }
  }

  function Zeros(n: nat): (z: seq<real>)
    ensures |z| == n && forall k :: 0 <= k < n ==> z[k] == 0.0
  {
    seq(n, _ => 0.0)
  }

  /** `std::vector::resize`: the prefix is kept, new entries are zero. */
  function Resize(s: seq<real>, n: nat): (r: seq<real>)
    ensures |r| == n
    ensures forall k :: 0 <= k < n && k < |s| ==> r[k] == s[k]
    ensures forall k :: |s| <= k < n ==> r[k] == 0.0
  {
    if n <= |s| then s[..n] else s + Zeros(n - |s|)
  }

  /** The table-building loop shared by `EnsureBandTables` and
      `UpdateBandTables`: entry i of each table gets band i's radius and gain. */
  method FillBandTables(layout: RadiusDistribution, n: nat, tilt: real, m: MathLib,
                        radii0: seq<real>, gains0: seq<real>)
    returns (radii: seq<real>, gains: seq<real>)
    requires |radii0| == n && |gains0| == n
    ensures radii == RadiusTable(layout, n, m)
    ensures gains == GainTable(n, tilt)
  {
    radii := radii0;
    gains := gains0;
    for i := 0 to n
      invariant |radii| == n && |gains| == n
      invariant forall k :: 0 <= k < i ==> radii[k] == RadiusAt(layout, n, m, k)
      invariant forall k :: 0 <= k < i ==> gains[k] == GainAt(n, tilt, k)
    {
      radii := radii[i := BandRadius(layout, i, n, m)];
      gains := gains[i := BandGain(i, n, tilt)];
    }
  }

  // ---------------------------------------------------------------------
  // Smoothing

  /** One band's exponential smoothing step. */
  function SmoothStep(prev: real, current: real, smoothing: real): (r: real)
    ensures smoothing >= 1.0 ==> r == current
    ensures smoothing == 0.0 ==> r == prev
  {
    if smoothing >= 1.0 then current else prev + smoothing * (current - prev)
  }

  /** For a factor in [0, 1] the new value lies between the old smoothed value
      and the current one. */
  lemma SmoothStepBetween(prev: real, current: real, smoothing: real)
    requires 0.0 <= smoothing
    ensures MinReal(prev, current) <= SmoothStep(prev, current, smoothing) <= MaxReal(prev, current)
  {
    if smoothing < 1.0 {
      LerpBetween(prev, current, smoothing);
    }
  }

  /** The energy of band k, or 0 for a band beyond the analysis output. */
  function EnergyAt(energies: seq<real>, k: int): real
  {
    if 0 <= k < |energies| then energies[k] else 0.0
  }

  function SmoothAt(prev: seq<real>, energies: seq<real>, smoothing: real, k: int): real
  {
    if 0 <= k < |prev| then SmoothStep(prev[k], EnergyAt(energies, k), smoothing) else 0.0
  }

  /** The smoothed energies after one update from `prev`. */
  function Smoothed(prev: seq<real>, energies: seq<real>, smoothing: real): (r: seq<real>)
    ensures |r| == |prev|
  {
    seq(|prev|, k => SmoothAt(prev, energies, smoothing, k))
  }

  /** A factor of 1 (or more) replaces the smoothed values by the current
      energies, with 0 for the bands the analysis did not produce. */
  lemma SmoothedCopies(prev: seq<real>, energies: seq<real>, smoothing: real)
    requires smoothing >= 1.0
    ensures forall k :: 0 <= k < |prev| && k < |energies| ==> Smoothed(prev, energies, smoothing)[k] == energies[k]
    ensures forall k :: |energies| <= k < |prev| ==> Smoothed(prev, energies, smoothing)[k] == 0.0
  {
  }

  /** Any factor in [0, 1] moves each band from its old value toward the
      current energy (toward 0 for a missing band), never past it. */
  lemma {:induction false} SmoothedMovesToward(prev: seq<real>, energies: seq<real>, smoothing: real)
    requires 0.0 <= smoothing
    ensures forall k :: 0 <= k < |prev| ==>
      MinReal(prev[k], EnergyAt(energies, k)) <= Smoothed(prev, energies, smoothing)[k] <= MaxReal(prev[k], EnergyAt(energies, k))
  {
    var r := Smoothed(prev, energies, smoothing);
    forall k | 0 <= k < |prev|
      ensures MinReal(prev[k], EnergyAt(energies, k)) <= r[k] <= MaxReal(prev[k], EnergyAt(energies, k))
    {
      SmoothStepBetween(prev[k], EnergyAt(energies, k), smoothing);
    }
  }

  /** The smoothing loop shared by `UpdateVolume` and `UpdateSmoothedEnergies`,
      updating band after band in place. */
  method SmoothBands(values: seq<real>, energies: seq<real>, smoothing: real) returns (r: seq<real>)
    ensures r == Smoothed(values, energies, smoothing)
  {
    r := values;
    for i := 0 to |values|
      invariant |r| == |values|
      invariant forall k :: 0 <= k < i ==> r[k] == SmoothAt(values, energies, smoothing, k)
      invariant forall k :: i <= k < |values| ==> r[k] == values[k]
    {
      var current := if i < |energies| then energies[i] else 0.0;
      if smoothing >= 1.0 {
        r := r[i := current];
      } else {
        r := r[i := r[i] + smoothing * (current - r[i])];
      }
    }
  }

  /** The smoothed values the update starts from: zeros when the table was
      just rebuilt or its length no longer matches the band count. */
  function SmoothingBase(rebuilt: bool, smoothed: seq<real>, count: nat): (b: seq<real>)
    ensures |b| == count
    ensures !rebuilt && |smoothed| == count ==> b == smoothed
  {
    if rebuilt || |smoothed| != count then Zeros(count) else smoothed
  }

  // ---------------------------------------------------------------------
  // The voxel formula

  /** The shell parameters one build uses, after its own clamps. */
  datatype ShellParams = ShellParams(ampScale: real, thicknessScale: real, baseThickness: real, globalGain: real)

  /** The band tables and parameters one build reads. */
  datatype Shells = Shells(params: ShellParams, radii: seq<real>, gains: seq<real>)

  predicate WellFormed(sh: Shells)
  {
    |sh.radii| == |sh.gains|
  }

  /** `BuildVolume`'s clamps: only the base thickness and the global gain;
      the amplitude and thickness scales were clamped by `SetSettings`. */
  function CpuParams(s: Settings): (p: ShellParams)
    ensures p.baseThickness >= MinThickness
    ensures MinGlobalGain <= p.globalGain <= MaxGlobalGain
    ensures p.ampScale == s.ampScale && p.thicknessScale == s.thicknessScale
  {
    ShellParams(s.ampScale, s.thicknessScale, MaxReal(s.baseThickness, MinThickness),
                Clamp(s.globalGain, MinGlobalGain, MaxGlobalGain))
  }

  /** `DispatchBuild`'s clamps, applied to every shader parameter. */
  function GpuParams(s: Settings): (p: ShellParams)
    ensures 0.0 <= p.ampScale <= MaxAmpScale
    ensures 0.0 <= p.thicknessScale <= MaxThicknessScale
    ensures p.baseThickness >= MinThickness
    ensures MinGlobalGain <= p.globalGain <= MaxGlobalGain
    ensures SettingsInRange(s) ==> p == CpuParams(s)
  {
    ShellParams(Clamp(s.ampScale, 0.0, MaxAmpScale), Clamp(s.thicknessScale, 0.0, MaxThicknessScale),
                MaxReal(s.baseThickness, MinThickness), Clamp(s.globalGain, MinGlobalGain, MaxGlobalGain))
  }

  /** The normalised coordinate of voxel index k along one axis. */
  function Coord(size: nat, k: nat): real
  {
    if size > 1 then -1.0 + (2.0 / (size - 1) as real) * k as real else 0.0
  }

  /** Voxel indices span [-1, 1] from the first voxel to the last. */
  lemma CoordSpan(size: nat, k: nat)
    requires k < size
    ensures -1.0 <= Coord(size, k) <= 1.0
    ensures size > 1 ==> Coord(size, 0) == -1.0 && Coord(size, size - 1) == 1.0
  {
    if size > 1 {
      var n := (size - 1) as real;
      var step := 2.0 / n;
      DivMulCancel(2.0, n);
      assert step * n == 2.0;
      MulLe(k as real, n, step);
      DivNonneg(2.0, n);
      MulNonneg(step, k as real);
    }
  }

  /** The distance of a voxel from the centre. */
  function VoxelRadius(size: nat, x: nat, y: nat, z: nat, m: MathLib): real
  {
    var xn := Coord(size, x);
    var yn := Coord(size, y);
    var zn := Coord(size, z);
    m.sqrt(xn * xn + yn * yn + zn * zn)
  }

  /** A voxel of the grid lies within distance sqrt(3) of the centre: the
      radius is the root of a sum of three squares of coordinates in
      [-1, 1]. */
  lemma VoxelRadiusInCube(size: nat, x: nat, y: nat, z: nat, m: MathLib)
    requires x < size && y < size && z < size
    ensures var xn, yn, zn := Coord(size, x), Coord(size, y), Coord(size, z);
      var s := xn * xn + yn * yn + zn * zn;
      VoxelRadius(size, x, y, z, m) == m.sqrt(s) && 0.0 <= s <= 3.0
  {
    CoordSpan(size, x);
    CoordSpan(size, y);
    CoordSpan(size, z);
    UnitSquare(Coord(size, x));
    UnitSquare(Coord(size, y));
    UnitSquare(Coord(size, z));
  }

  /** A value in [-1, 1] squares into [0, 1]. */
  lemma UnitSquare(v: real)
    requires -1.0 <= v <= 1.0
    ensures 0.0 <= v * v <= 1.0
  {
    if v >= 0.0 {
      MulLe(v, 1.0, v);
      MulNonneg(v, v);
    } else {
      var w := -v;
      MulLe(w, 1.0, w);
      MulNonneg(w, w);
      assert w * w <= 1.0;
      assert w * w == v * v;
    }
  }

  /** One band's contribution: a Gaussian shell whose radius and thickness
      grow with the band's energy, weighted by gain and energy. */
  function ShellTerm(p: ShellParams, radius: real, baseRadius: real, gain: real, energy: real, m: MathLib): (c: real)
    ensures energy == 0.0 || gain == 0.0 ==> c == 0.0
  {
    var radiusTarget := baseRadius * (1.0 + p.ampScale * energy);
    var thickness := MaxReal(p.baseThickness * (1.0 + p.thicknessScale * energy), MinThickness);
    var delta := (radius - radiusTarget) / thickness;
    var weight := gain * energy;
    var shell := m.exp(-delta * delta);
    assert weight == 0.0 ==> weight * shell == 0.0;
    weight * shell
  }

  /** The density summed over the first n bands. */
  function Density(sh: Shells, energies: seq<real>, radius: real, m: MathLib, n: nat): real
    requires n <= |sh.radii| && n <= |sh.gains|
  {
    if n == 0 then 0.0
    else Density(sh, energies, radius, m, n - 1)
         + ShellTerm(sh.params, radius, sh.radii[n - 1], sh.gains[n - 1], EnergyAt(energies, n - 1), m)
  }

  /** The value one voxel gets. */
  function Voxel(sh: Shells, energies: seq<real>, size: nat, x: nat, y: nat, z: nat, m: MathLib): (v: real)
    requires WellFormed(sh)
    ensures 0.0 <= v <= 1.0
  {
    var density := Density(sh, energies, VoxelRadius(size, x, y, z, m), m, |sh.radii|);
    Clamp(density * sh.params.globalGain, 0.0, 1.0)
  }

  /** Silent bands contribute nothing, whatever the shell geometry. */
  lemma {:induction false} SilentDensity(sh: Shells, energies: seq<real>, radius: real, m: MathLib, n: nat)
    requires n <= |sh.radii| && n <= |sh.gains|
    requires forall k :: 0 <= k < |energies| ==> energies[k] == 0.0
    ensures Density(sh, energies, radius, m, n) == 0.0
  {
    if n > 0 {
      SilentDensity(sh, energies, radius, m, n - 1);
      var e := EnergyAt(energies, n - 1);
      assert e == 0.0;
      var p := sh.params;
      var radiusTarget := sh.radii[n - 1] * (1.0 + p.ampScale * e);
      var thickness := MaxReal(p.baseThickness * (1.0 + p.thicknessScale * e), MinThickness);
      var delta := (radius - radiusTarget) / thickness;
      assert sh.gains[n - 1] * e * m.exp(-delta * delta) == 0.0;
    }
  }

  /** All-zero energies give an all-zero volume. */
  lemma SilentVoxel(sh: Shells, energies: seq<real>, size: nat, x: nat, y: nat, z: nat, m: MathLib)
    requires WellFormed(sh)
    requires forall k :: 0 <= k < |energies| ==> energies[k] == 0.0
    ensures Voxel(sh, energies, size, x, y, z, m) == 0.0
  {
    SilentDensity(sh, energies, VoxelRadius(size, x, y, z, m), m, |sh.radii|);
  }

  /** The band loop of one voxel. */
  method ShellDensity(sh: Shells, energies: seq<real>, radius: real, m: MathLib) returns (density: real)
    requires WellFormed(sh)
    ensures density == Density(sh, energies, radius, m, |sh.radii|)
  {
    density := 0.0;
    for band := 0 to |sh.radii|
      invariant density == Density(sh, energies, radius, m, band)
    {
      var energy := if band < |energies| then energies[band] else 0.0;
      density := density + ShellTerm(sh.params, radius, sh.radii[band], sh.gains[band], energy, m);
    }
  }

  /** The body of the innermost voxel loop. */
  method ComputeVoxel(sh: Shells, energies: seq<real>, size: nat, x: nat, y: nat, z: nat, m: MathLib) returns (v: real)
    requires WellFormed(sh)
    ensures v == Voxel(sh, energies, size, x, y, z, m)
  {
    var radius := VoxelRadius(size, x, y, z, m);
    var density := ShellDensity(sh, energies, radius, m);
    v := Clamp(density * sh.params.globalGain, 0.0, 1.0);
  }

  predicate IsCube(vol: array3<real>, size: nat)
  {
    vol.Length0 == size && vol.Length1 == size && vol.Length2 == size
  }

  /** One row (fixed y and z) of the volume. */
  method FillRow(vol: array3<real>, sh: Shells, energies: seq<real>, size: nat, y: nat, z: nat, m: MathLib)
    requires IsCube(vol, size) && WellFormed(sh) && y < size && z < size
    modifies vol
    ensures forall a :: 0 <= a < size ==> vol[a, y, z] == Voxel(sh, energies, size, a, y, z, m)
    ensures forall a, b, c :: 0 <= a < size && 0 <= b < size && 0 <= c < size && (b != y || c != z) ==>
      vol[a, b, c] == old(vol[a, b, c])
  {
    for x := 0 to size
      invariant forall a :: 0 <= a < x ==> vol[a, y, z] == Voxel(sh, energies, size, a, y, z, m)
      invariant forall a, b, c :: 0 <= a < size && 0 <= b < size && 0 <= c < size && (b != y || c != z) ==>
        vol[a, b, c] == old(vol[a, b, c])
    {
      var v := ComputeVoxel(sh, energies, size, x, y, z, m);
      vol[x, y, z] := v;
    }
  }

  /** One slice (fixed z) of the volume. */
  method FillSlice(vol: array3<real>, sh: Shells, energies: seq<real>, size: nat, z: nat, m: MathLib)
    requires IsCube(vol, size) && WellFormed(sh) && z < size
    modifies vol
    ensures forall a, b :: 0 <= a < size && 0 <= b < size ==> vol[a, b, z] == Voxel(sh, energies, size, a, b, z, m)
    ensures forall a, b, c :: 0 <= a < size && 0 <= b < size && 0 <= c < size && c != z ==>
      vol[a, b, c] == old(vol[a, b, c])
  {
    for y := 0 to size
      invariant forall a, b :: 0 <= a < size && 0 <= b < y ==> vol[a, b, z] == Voxel(sh, energies, size, a, b, z, m)
      invariant forall a, b, c :: 0 <= a < size && 0 <= b < size && 0 <= c < size && c != z ==>
        vol[a, b, c] == old(vol[a, b, c])
    {
      FillRow(vol, sh, energies, size, y, z, m);
    }
  }

  /** The triple loop of `BuildVolume`: every voxel gets its formula value. */
  method FillVolume(vol: array3<real>, sh: Shells, energies: seq<real>, size: nat, m: MathLib)
    requires IsCube(vol, size) && WellFormed(sh)
    modifies vol
    ensures forall a, b, c :: 0 <= a < size && 0 <= b < size && 0 <= c < size ==>
      vol[a, b, c] == Voxel(sh, energies, size, a, b, c, m)
  {
    for z := 0 to size
      invariant forall a, b, c :: 0 <= a < size && 0 <= b < size && 0 <= c < z ==>
        vol[a, b, c] == Voxel(sh, energies, size, a, b, c, m)
    {
      FillSlice(vol, sh, energies, size, z, m);
    }
  }

  // ---------------------------------------------------------------------
  // SphereVolumeData

  /** The CPU volume: settings, band tables, smoothed energies and the voxel
      buffer, which `Regenerate` reallocates at `settings.volumeSize`. */
  class SphereVolumeData {
    const math: MathLib
    var settings: Settings
    var volume: array3<real>
    var sliceIndex: nat
    var bandCount: nat
    var bandBaseRadius: seq<real>
    var bandGains: seq<real>
    var smoothedEnergies: seq<real>

    /** The tables always match the band count and the current settings. */
    predicate Valid()
      reads this
    {
      && bandCount >= 1
      && bandBaseRadius == RadiusTable(settings.radiusLayout, bandCount, math)
      && bandGains == GainTable(bandCount, settings.tilt)
    }

    /** The voxel buffer has the edge length the settings ask for. */
    predicate Allocated()
      reads this, volume
    {
      IsCube(volume, settings.volumeSize)
    }

    function CurrentShells(): (sh: Shells)
      reads this
      requires Valid()
      ensures WellFormed(sh) && |sh.radii| == bandCount
    {
      Shells(CpuParams(settings), bandBaseRadius, bandGains)
    }

    /** The constructor regenerates straight away, so the tables exist and
        the buffer is allocated. */
    constructor(initial: Settings, m: MathLib)
      ensures Valid() && Allocated()
      ensures settings.volumeSize == (if initial.volumeSize == 0 then MinVolumeSize else initial.volumeSize)
      ensures bandCount == 1 && smoothedEnergies == Zeros(1) && sliceIndex == 0
    {
      math := m;
      settings := initial;
      volume := new real[0, 0, 0];
      sliceIndex := 0;
      bandCount := 0;
      bandBaseRadius := [];
      bandGains := [];
      smoothedEnergies := [];
      new;
      Regenerate();
    }

    /** Resets the band count (0 becomes 1), resizes the tables, zeroes the
        smoothed energies and recomputes radius and gain per band. */
    method EnsureBandTables(count: nat)
      modifies this`bandCount, this`bandBaseRadius, this`bandGains, this`smoothedEnergies
      ensures bandCount == (if count == 0 then 1 else count)
      ensures Valid()
      ensures smoothedEnergies == Zeros(bandCount)
    {
      var n := if count == 0 then 1 else count;
      bandCount := n;
      var radii := Resize(bandBaseRadius, n);
      var gains := Resize(bandGains, n);
      smoothedEnergies := Zeros(n);
      radii, gains := FillBandTables(settings.radiusLayout, n, settings.tilt, math, radii, gains);
      bandBaseRadius := radii;
      bandGains := gains;
    }

    /** Clamps every setting, then rebuilds the tables with the new tilt and
        layout at the current band count. The buffer is not reallocated:
        callers follow a size change with `Regenerate`. */
    method SetSettings(s: Settings)
      modifies this`settings, this`bandCount, this`bandBaseRadius, this`bandGains, this`smoothedEnergies
      ensures settings == ClampSettings(s)
      ensures SettingsInRange(settings)
      ensures bandCount == (if old(bandCount) == 0 then 1 else old(bandCount))
      ensures Valid()
      ensures smoothedEnergies == Zeros(bandCount)
    {
      settings := ClampSettings(s);
      EnsureBandTables(bandCount);
    }

    /** A size of 0 becomes the minimum; the buffer is reallocated at that
        size, the slice index clamped into it and the tables rebuilt. */
    method Regenerate()
      modifies this`settings, this`volume, this`sliceIndex
      modifies this`bandCount, this`bandBaseRadius, this`bandGains, this`smoothedEnergies
      ensures settings == old(settings).(volumeSize := if old(settings.volumeSize) == 0 then MinVolumeSize else old(settings.volumeSize))
      ensures fresh(volume) && Allocated()
      ensures sliceIndex == MinNat(old(sliceIndex), settings.volumeSize - 1)
      ensures bandCount == (if old(bandCount) == 0 then 1 else old(bandCount))
      ensures Valid()
      ensures smoothedEnergies == Zeros(bandCount)
    {
      if settings.volumeSize == 0 {
        settings := settings.(volumeSize := MinVolumeSize);
      }
      var n := settings.volumeSize;
      volume := new real[n, n, n]((x, y, z) => 0.0);
      sliceIndex := ClampInt(sliceIndex, 0, n - 1);
      EnsureBandTables(bandCount);
    }

    /** Picks the slice shown in the UI, clamped into the volume. */
    method SetSliceIndex(index: nat)
      modifies this`sliceIndex
      ensures settings.volumeSize == 0 ==> sliceIndex == 0
      ensures settings.volumeSize > 0 ==> sliceIndex == MinNat(index, settings.volumeSize - 1)
      ensures settings.volumeSize > 0 ==> sliceIndex < settings.volumeSize
    {
      if settings.volumeSize == 0 {
        sliceIndex := 0;
        return;
      }
      var maxSlice := settings.volumeSize - 1;
      sliceIndex := ClampInt(index, 0, maxSlice);
    }

    /** Writes every voxel from the given energies. */
    method BuildVolume(energies: seq<real>)
      requires Valid() && Allocated()
      modifies volume
      ensures forall a, b, c :: 0 <= a < settings.volumeSize && 0 <= b < settings.volumeSize && 0 <= c < settings.volumeSize ==>
        volume[a, b, c] == Voxel(CurrentShells(), energies, settings.volumeSize, a, b, c, math)
    {
      if settings.volumeSize == 0 {
        return;
      }
      FillVolume(volume, CurrentShells(), energies, settings.volumeSize, math);
    }

    /** Smooths the band energies into the tables. The band count follows the
        analysis (at least 1); the tables are rebuilt, and the smoothing starts
        over from zeros, only when that count changed. */
    method SmoothEnergies(energies: seq<real>)
      requires Valid()
      modifies this`bandCount, this`bandBaseRadius, this`bandGains, this`smoothedEnergies
      ensures Valid()
      ensures bandCount == MaxInt(1, |energies|)
      ensures old(bandCount) == bandCount ==> bandBaseRadius == old(bandBaseRadius) && bandGains == old(bandGains)
      ensures smoothedEnergies == Smoothed(
        SmoothingBase(old(bandCount) != bandCount, old(smoothedEnergies), bandCount),
        energies, Clamp(settings.smoothingFactor, MinSmoothing, MaxSmoothing))
    {
      var desiredBands := MaxInt(1, |energies|);
      if desiredBands != bandCount {
        EnsureBandTables(desiredBands);
      }
      if |smoothedEnergies| != bandCount {
        smoothedEnergies := Zeros(bandCount);
      }
      var smoothing := Clamp(settings.smoothingFactor, MinSmoothing, MaxSmoothing);
      smoothedEnergies := SmoothBands(smoothedEnergies, energies, smoothing);
    }

    /** One frame: smooth the energies, then rebuild the whole volume from
        the smoothed values. `buildMs` and `uploadMs` are the clock readings. */
    method UpdateVolume(energies: seq<real>, buildMs: real, uploadMs: real) returns (stats: BuildStats)
      requires Valid() && Allocated()
      modifies this`bandCount, this`bandBaseRadius, this`bandGains, this`smoothedEnergies, volume
      ensures Valid()
      ensures settings.volumeSize == 0 ==> stats == ZeroStats && smoothedEnergies == old(smoothedEnergies)
      ensures settings.volumeSize > 0 ==> stats == BuildStats(buildMs, uploadMs)
      ensures settings.volumeSize > 0 ==> bandCount == MaxInt(1, |energies|)
      ensures settings.volumeSize > 0 ==> smoothedEnergies == Smoothed(
        SmoothingBase(old(bandCount) != bandCount, old(smoothedEnergies), bandCount),
        energies, Clamp(settings.smoothingFactor, MinSmoothing, MaxSmoothing))
      ensures forall a, b, c :: 0 <= a < settings.volumeSize && 0 <= b < settings.volumeSize && 0 <= c < settings.volumeSize ==>
        volume[a, b, c] == Voxel(CurrentShells(), smoothedEnergies, settings.volumeSize, a, b, c, math)
    {
      if settings.volumeSize == 0 {
        stats := ZeroStats;
        return;
      }
      SmoothEnergies(energies);
      BuildVolume(smoothedEnergies);
      stats := BuildStats(buildMs, uploadMs);
    }
  }

  // ---------------------------------------------------------------------
  // GpuVolumeBuilder

  /** The values `DispatchBuild` hands to the compute shader. */
  datatype Uniforms = Uniforms(volumeSize: nat, numBands: nat, params: ShellParams, groups: nat)

  /** Work groups per axis: enough groups of `GroupSize` to cover the edge,
      and no more. */
  function DispatchGroups(size: nat): (g: nat)
    ensures g * GroupSize >= size
    ensures g * GroupSize < size + GroupSize
  {
    (size + GroupSize - 1) / GroupSize
  }

  /** The band count `UpdateBandTables` settles on: 0 becomes 1, and the count
      is capped at `MaxBands`. */
  function CappedBands(count: nat): (n: nat)
    ensures 1 <= n <= MaxBands
    ensures 1 <= count <= MaxBands ==> n == count
  {
    var c := if count == 0 then 1 else count;
    if c <= MaxBands then c else MaxBands
  }

  /** The compute-shader path: the same tables and smoothing, kept on the
      CPU and uploaded as uniforms. `allocations` counts the times the 3D
      texture is (re)allocated. */
  class GpuVolumeBuilder {
    const math: MathLib
    var volumeSize: nat
    var radiusLayout: RadiusDistribution
    var bandCount: nat
    var bandBaseRadius: seq<real>
    var bandGains: seq<real>
    var smoothedEnergies: seq<real>
    var lastBuildMs: real
    var allocations: nat

    /** Tables match the band count and layout of the last rebuild; the gains
        keep the tilt of that rebuild, so only their range is fixed. */
    predicate Valid()
      reads this
    {
      && bandCount <= MaxBands
      && bandBaseRadius == RadiusTable(radiusLayout, bandCount, math)
      && |bandGains| == bandCount
      && (forall k :: 0 <= k < bandCount ==> MinBandGain <= bandGains[k] <= MaxBandGain)
    }

    constructor(m: MathLib)
      ensures Valid()
      ensures volumeSize == 0 && bandCount == 0 && radiusLayout == Linear
      ensures bandBaseRadius == [] && bandGains == [] && smoothedEnergies == []
      ensures lastBuildMs == 0.0 && allocations == 0
    {
      math := m;
      volumeSize := 0;
      radiusLayout := Linear;
      bandCount := 0;
      bandBaseRadius := [];
      bandGains := [];
      smoothedEnergies := [];
      lastBuildMs := 0.0;
      allocations := 0;
    }

    /** Clamps the requested edge to [32, 256] and reallocates the texture
        only when the clamped size differs from the current one. */
    method EnsureResources(requested: nat)
      modifies this`volumeSize, this`allocations
      ensures volumeSize == ClampInt(requested, MinVolumeSize, MaxVolumeSize)
      ensures allocations == old(allocations) + (if old(volumeSize) == volumeSize then 0 else 1)
    {
      var size := ClampInt(requested, MinVolumeSize, MaxVolumeSize);
      if volumeSize == size {
        return;
      }
      volumeSize := size;
      allocations := allocations + 1;
    }

    /** Whether `UpdateBandTables(count, layout)` rebuilds. */
    predicate NeedsRebuild(count: nat, layout: RadiusDistribution)
      reads this
    {
      !(bandCount == CappedBands(count) && radiusLayout == layout && |bandBaseRadius| > 0)
    }

    /** Rebuilds the tables (zeroing the smoothed energies) unless count and
        layout are unchanged and the tables exist; a new tilt alone keeps the
        old gains. */
    method UpdateBandTables(count: nat, s: Settings)
      requires Valid()
      modifies this`bandCount, this`radiusLayout, this`bandBaseRadius, this`bandGains, this`smoothedEnergies
      ensures Valid()
      ensures bandCount == CappedBands(count) && radiusLayout == s.radiusLayout
      ensures !old(NeedsRebuild(count, s.radiusLayout)) ==>
        bandBaseRadius == old(bandBaseRadius) && bandGains == old(bandGains) && smoothedEnergies == old(smoothedEnergies)
      ensures old(NeedsRebuild(count, s.radiusLayout)) ==>
        bandGains == GainTable(bandCount, s.tilt) && smoothedEnergies == Zeros(bandCount)
    {
      var n := CappedBands(count);
      if bandCount == n && radiusLayout == s.radiusLayout && |bandBaseRadius| > 0 {
        return;
      }
      bandCount := n;
      radiusLayout := s.radiusLayout;
      smoothedEnergies := Zeros(n);
      var radii, gains := FillBandTables(radiusLayout, n, s.tilt, math, Zeros(n), Zeros(n));
      bandBaseRadius := radii;
      bandGains := gains;
    }

    /** Smooths the energies into a table of `bandCount` entries. */
    method UpdateSmoothedEnergies(energies: seq<real>, smoothingFactor: real)
      modifies this`smoothedEnergies
      ensures |smoothedEnergies| == bandCount
      ensures smoothedEnergies == Smoothed(SmoothingBase(false, old(smoothedEnergies), bandCount),
                                           energies, Clamp(smoothingFactor, MinSmoothing, MaxSmoothing))
    {
      if |smoothedEnergies| != bandCount {
        smoothedEnergies := Zeros(bandCount);
      }
      var smoothing := Clamp(smoothingFactor, MinSmoothing, MaxSmoothing);
      smoothedEnergies := SmoothBands(smoothedEnergies, energies, smoothing);
    }

    /** Before any `EnsureResources` nothing happens and the stats stay zero;
        otherwise the tables follow the energies' band count, the energies
        are smoothed into them, the clamped parameters are returned as the
        shader's uniforms, and the build time is the GPU timer query's
        reading `elapsedNs` in milliseconds. */
    method DispatchBuild(energies: seq<real>, s: Settings, elapsedNs: nat) returns (stats: BuildStats, uniforms: Option<Uniforms>)
      requires Valid()
      modifies this`bandCount, this`radiusLayout, this`bandBaseRadius, this`bandGains, this`smoothedEnergies, this`lastBuildMs
      ensures Valid()
      ensures old(volumeSize) == 0 ==>
        stats == ZeroStats && uniforms == None
        && bandCount == old(bandCount) && radiusLayout == old(radiusLayout)
        && bandBaseRadius == old(bandBaseRadius) && bandGains == old(bandGains)
        && smoothedEnergies == old(smoothedEnergies) && lastBuildMs == old(lastBuildMs)
      ensures volumeSize > 0 ==>
        uniforms == Some(Uniforms(volumeSize, bandCount, GpuParams(s), DispatchGroups(volumeSize)))
        && stats == BuildStats(elapsedNs as real * 0.000001, 0.0) && lastBuildMs == stats.buildMs
      ensures volumeSize > 0 ==>
        bandCount == CappedBands(|energies|) && radiusLayout == s.radiusLayout
        && bandBaseRadius == RadiusTable(s.radiusLayout, bandCount, math)
      ensures volumeSize > 0 && old(NeedsRebuild(MaxInt(1, |energies|), s.radiusLayout)) ==>
        bandGains == GainTable(bandCount, s.tilt)
      ensures volumeSize > 0 && !old(NeedsRebuild(MaxInt(1, |energies|), s.radiusLayout)) ==>
        bandGains == old(bandGains)
      ensures volumeSize > 0 ==>
        smoothedEnergies == Smoothed(SmoothingBase(old(NeedsRebuild(MaxInt(1, |energies|), s.radiusLayout)),
                                                   old(smoothedEnergies), bandCount),
                                     energies, Clamp(s.smoothingFactor, MinSmoothing, MaxSmoothing))
    {
      if volumeSize == 0 {
        stats := ZeroStats;
        uniforms := None;
        return;
      }
      var desiredBands := MaxInt(1, |energies|);
      UpdateBandTables(desiredBands, s);
      UpdateSmoothedEnergies(energies, s.smoothingFactor);
      uniforms := Some(Uniforms(volumeSize, bandCount, GpuParams(s), DispatchGroups(volumeSize)));
      stats := BuildStats(elapsedNs as real * 0.000001, 0.0);
      lastBuildMs := stats.buildMs;
    }
  }
}
