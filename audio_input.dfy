/** `AudioInput` (`Apps/VolumeFX/AudioInput.cpp`, `AudioInput.h`): loads a
    PCM16 WAV file into an amplitude envelope, keeps a simulated playback
    clock, and turns the envelope (or, without audio, a slow sine) into a
    visualisation gain. Starting the system sound player is a foreign call:
    its success is a parameter. */
module VolumeFxAudio {
  import opened Common
  import opened WavFormat

  const MinBaseGain: real := 0.1
  const MaxBaseGain: real := 4.0
  const MinVizGain: real := 0.05
  const MaxVizGain: real := 8.0
  const MaxAutoGainDepth: real := 2.0
  const MinAutoGainRate: real := 0.1
  /** `glm::pi<float>() * 2.0f`, the float nearest to 2 pi, exactly. */
  const TwoPi: real := 6.28318548202514648

  /** The status line. */
  datatype Status =
    | NoAudioLoaded     // "No audio loaded."
    | NeedPath          // "Please provide a file path."
    | PlayFailed        // "Failed to play audio."
    | Invalid(err: LoadError)
    | LoadedWav(channels: nat, sampleRate: nat, duration: real)

  /** The envelope read at a fractional sample position: the last value
      from the last index on, otherwise the blend of the two neighbours. */
  function Interpolate(env: seq<real>, samplePos: real): (v: real)
    requires |env| > 0 && samplePos >= 0.0
    ensures samplePos >= (|env| - 1) as real ==> v == env[|env| - 1]
    ensures var i0 := Trunc(samplePos);
      i0 < |env| - 1 ==> MinReal(env[i0], env[i0 + 1]) <= v <= MaxReal(env[i0], env[i0 + 1])
  {
    var i0 := Trunc(samplePos);
    if i0 >= |env| - 1 then env[|env| - 1]
    else
      LerpBetween(env[i0], env[i0 + 1], samplePos - i0 as real);
      Lerp(env[i0], env[i0 + 1], samplePos - i0 as real)
  }

  /** The duration used by `sampleEnvelope`: the stored one, or the
      envelope's length over the rate when none is stored. */
  function SampleDuration(n: nat, rate: real, duration: real): real
    requires rate > 0.0
  {
    if duration > 0.0 then duration else n as real / rate
  }

  /** The fractional sample position read at time t: t clamped to
      [0, duration - 1 / rate], times the rate. */
  function SamplePosition(rate: real, d: real, t: real): (p: real)
    requires rate > 0.0
    ensures p >= 0.0
  {
    var clamped := Clamp(t, 0.0, MaxReal(0.0, d - 1.0 / rate));
    MulNonneg(clamped, rate);
    clamped * rate
  }

  /** `sampleEnvelope(t)`: the envelope interpolated linearly at time t, with
      t clamped to the last sample; 0 without an envelope or a sample rate. */
  function SampleEnvelope(env: seq<real>, rate: real, duration: real, t: real): (v: real)
    ensures |env| == 0 || rate <= 0.0 ==> v == 0.0
    ensures |env| > 0 && rate > 0.0 && t <= 0.0 ==> v == env[0]
  {
    if |env| == 0 || rate <= 0.0 then 0.0
    else if SampleDuration(|env|, rate, duration) <= 0.0 then 0.0
    else Interpolate(env, SamplePosition(rate, SampleDuration(|env|, rate, duration), t))
  }

  /** Interpolation stays within the range of the envelope's values. */
  lemma InterpolateBounded(env: seq<real>, samplePos: real)
    requires |env| > 0 && samplePos >= 0.0
    requires forall k :: 0 <= k < |env| ==> 0.0 <= env[k] <= 1.0
    ensures 0.0 <= Interpolate(env, samplePos) <= 1.0
  {
    var i0 := Trunc(samplePos);
    if i0 < |env| - 1 {
      LerpBetween(env[i0], env[i0 + 1], samplePos - i0 as real);
    }
  }

  /** Sampling never leaves the range of the envelope's values. */
  lemma SampleEnvelopeBounded(env: seq<real>, rate: real, duration: real, t: real)
    requires forall k :: 0 <= k < |env| ==> 0.0 <= env[k] <= 1.0
    ensures 0.0 <= SampleEnvelope(env, rate, duration, t) <= 1.0
  {
    if |env| > 0 && rate > 0.0 && SampleDuration(|env|, rate, duration) > 0.0 {
      InterpolateBounded(env, SamplePosition(rate, SampleDuration(|env|, rate, duration), t));
    }
  }

  /** At the time of sample k, the envelope of a loaded file (whose duration
      is its length over its rate) reads back exactly sample k. */
  lemma SampleEnvelopeAtSample(env: seq<real>, rate: real, k: nat)
    requires rate > 0.0 && k < |env|
    ensures SampleEnvelope(env, rate, |env| as real / rate, k as real / rate) == env[k]
  {
    var n := |env| as real;
    var d := n / rate;
    assert d > 0.0 by {
      GtQuotient(n, rate, 0.0);
    }
    assert SampleDuration(|env|, rate, d) == d;
    SamplePositionAtSample(rate, d, k, n);
    InterpolateAtIndex(env, k);
  }

  /** Time k / rate, within the duration n / rate, is sample position k. */
  lemma SamplePositionAtSample(rate: real, d: real, k: nat, n: real)
    requires rate > 0.0 && k as real + 1.0 <= n && d == n / rate
    ensures SamplePosition(rate, d, k as real / rate) == k as real
  {
    var t := k as real / rate;
    DivNonneg(k as real, rate);
    assert t <= d - 1.0 / rate by {
      DivAdd(k as real, 1.0, rate);
      DivMono(k as real + 1.0, n, rate);
    }
    assert Clamp(t, 0.0, MaxReal(0.0, d - 1.0 / rate)) == t;
    DivMulCancel(k as real, rate);
  }

  lemma DivAdd(a: real, b: real, y: real)
    requires y != 0.0
    ensures (a + b) / y == a / y + b / y
  {
  }

  lemma DivMono(a: real, b: real, y: real)
    requires y > 0.0 && a <= b
    ensures a / y <= b / y
  {
    DivAdd(a, b - a, y);
    DivNonneg(b - a, y);
  }

  /** At a whole sample position the envelope reads that sample. */
  lemma InterpolateAtIndex(env: seq<real>, k: nat)
    requires k < |env|
    ensures Interpolate(env, k as real) == env[k]
  {
    assert Trunc(k as real) == k;
  }

  /** The playback clock after `Update(dt)`: a loaded file wraps it with
      `fmod` when looping and stops it at the end otherwise. */
  function AdvanceTime(time: real, dt: real, loaded: bool, duration: real, loop: bool): (r: real)
    ensures loaded && duration > 0.0 && loop && time + dt >= 0.0 ==> 0.0 <= r < duration
    ensures loaded && duration > 0.0 && !loop ==> r <= duration && (time + dt <= duration ==> r == time + dt)
    ensures !(loaded && duration > 0.0) ==> r == time + dt
  {
    var t := time + dt;
    if loaded && duration > 0.0 then
      if loop then Fmod(t, duration) else MinReal(t, duration)
    else t
  }

  /** The oscillator phase after `Update(dt)` without audio: it advances at
      least at rate 0.1 and is wrapped by `fmod` once past 2 pi. */
  function PhaseAfter(phase: real, dt: real, speed: real): (r: real)
    ensures 0.0 <= phase && 0.0 <= dt ==> 0.0 <= r
    ensures phase + dt * MaxReal(MinAutoGainRate, MaxReal(speed, 0.0)) > TwoPi ==> r < TwoPi
  {
    var rate := MaxReal(MinAutoGainRate, MaxReal(speed, 0.0));
    StepNonneg(dt, rate);
    var p := phase + dt * rate;
    if p > TwoPi then Fmod(p, TwoPi) else p
  }

  /** PhaseAfter in two steps: advance to `p`, then wrap once past 2 pi. */
  lemma PhaseAfterStep(phase: real, dt: real, speed: real, p: real)
    requires p == phase + dt * MaxReal(MinAutoGainRate, MaxReal(speed, 0.0))
    ensures PhaseAfter(phase, dt, speed) == if p > TwoPi then Fmod(p, TwoPi) else p
  {
  }

  lemma StepNonneg(dt: real, rate: real)
    requires rate >= 0.0
    ensures dt >= 0.0 ==> dt * rate >= 0.0
  {
    if dt >= 0.0 {
      MulNonneg(dt, rate);
    }
  }

  /** The visualisation gain: the base gain, or with auto-gain on the base
      gain scaled by 1 + depth * modulation and clamped to [0.05, 8]. */
  function VisualizationGain(base: real, autoGain: bool, depth: real, modulation: real): (g: real)
    ensures autoGain ==> MinVizGain <= g <= MaxVizGain
    ensures !autoGain ==> g == base
  {
    if !autoGain then base
    else Clamp(base * GainScale(depth, modulation), MinVizGain, MaxVizGain)
  }

  /** The auto-gain factor 1 + depth * modulation, with the depth clamped
      to [0, 2]. */
  function GainScale(depth: real, modulation: real): (g: real)
    ensures depth <= 0.0 || modulation == 0.0 ==> g == 1.0
    ensures modulation >= 0.0 ==> g >= 1.0
  {
    1.0 + Clamp(depth, 0.0, MaxAutoGainDepth) * modulation
  }

  /** For a modulation in [0, 1] the factor lies in [1, 3] and grows with
      the modulation. */
  lemma GainScaleBounds(depth: real, m: real, m2: real)
    requires 0.0 <= m <= m2 <= 1.0
    ensures 1.0 <= GainScale(depth, m) <= 3.0
    ensures GainScale(depth, m) <= GainScale(depth, m2)
    ensures m == 0.0 ==> GainScale(depth, m) == 1.0
  {
    var d := Clamp(depth, 0.0, MaxAutoGainDepth);
    MulNonneg(d, m);
    MulLe(m, m2, d);
    MulLe(m, 1.0, d);
  }

  /** A base gain scaled by factors in [1, 3]. */
  lemma ScaledGainBounds(base: real, s: real, s2: real)
    requires base > 0.0 && 1.0 <= s <= s2 && s <= 3.0
    ensures base <= base * s <= 3.0 * base
    ensures base * s <= base * s2
  {
    MulLe(1.0, s, base);
    MulLe(s, 3.0, base);
    MulLe(s, s2, base);
  }

  /** With a clamped base gain and a modulation in [0, 1], auto-gain never
      lowers the gain below the base, never raises it past 3 times the base
      or 8, leaves it at the base for zero modulation, and grows with the
      modulation. */
  lemma AutoGainBetweenBaseAndCap(base: real, depth: real, m: real, m2: real)
    requires MinBaseGain <= base <= MaxBaseGain && 0.0 <= m <= m2 <= 1.0
    ensures base <= VisualizationGain(base, true, depth, m) <= MinReal(MaxVizGain, 3.0 * base)
    ensures m == 0.0 ==> VisualizationGain(base, true, depth, m) == base
    ensures VisualizationGain(base, true, depth, m) <= VisualizationGain(base, true, depth, m2)
  {
    GainScaleBounds(depth, m, m2);
    var s, s2 := GainScale(depth, m), GainScale(depth, m2);
    ScaledGainBounds(base, s, s2);
    ClampedWindow(base, base * s, base * s2);
    assert VisualizationGain(base, true, depth, m) == Clamp(base * s, MinVizGain, MaxVizGain);
    assert VisualizationGain(base, true, depth, m2) == Clamp(base * s2, MinVizGain, MaxVizGain);
  }

  /** A gain between the base and 3 times the base, clamped to the
      visualisation range, stays between the base and the cap, and
      clamping keeps the order of two such gains. */
  lemma ClampedWindow(base: real, g: real, g2: real)
    requires MinVizGain <= base <= MaxVizGain && base <= g <= g2 && g <= 3.0 * base
    ensures base <= Clamp(g, MinVizGain, MaxVizGain) <= MinReal(MaxVizGain, 3.0 * base)
    ensures g == base ==> Clamp(g, MinVizGain, MaxVizGain) == base
    ensures Clamp(g, MinVizGain, MaxVizGain) <= Clamp(g2, MinVizGain, MaxVizGain)
  {
  }

  /** The quotient of the clock by a positive duration. */
  lemma RatioFacts(time: real, duration: real)
    requires duration > 0.0
    ensures 0.0 <= time <= duration ==> (time / duration) * duration == time && 0.0 <= time / duration <= 1.0
    ensures time >= duration ==> time / duration >= 1.0
  {
    DivMulCancel(time, duration);
    if 0.0 <= time <= duration {
      RatioInUnit(time, duration);
    }
    if time >= duration {
      MulLeCancel(1.0, time / duration, duration);
    }
  }

  class AudioInput {
    var envelope: seq<real>
    var status: Status
    var loaded: bool
    var loop: bool
    var playing: bool
    /** The resolved path of the loaded file; empty when there is none. */
    var path: string
    var sampleRate: real
    var duration: real
    var currentLevel: real
    var visualizationGain: real
    var baseGain: real
    var autoGainEnabled: bool
    var autoGainDepth: real
    var autoGainSpeed: real
    var autoGainPhase: real
    var mockPlaybackTime: real

    /** The envelope is in [0, 1]; a loaded file has a positive rate and a
        duration of its length over its rate; without one, everything is 0. */
    ghost predicate Valid()
      reads this
    {
      (forall k :: 0 <= k < |envelope| ==> 0.0 <= envelope[k] <= 1.0)
      && (loaded ==> sampleRate > 0.0 && duration == |envelope| as real / sampleRate)
      && (!loaded ==> envelope == [] && sampleRate == 0.0 && duration == 0.0)
    }

    /** Whether `Update` follows the envelope rather than the oscillator. */
    predicate HaveAudio()
      reads this
    {
      loaded && |envelope| > 0 && sampleRate > 0.0
    }

    /** The field defaults of `AudioInput.h` and the constructor's status. */
    constructor()
      ensures Valid()
      ensures !loaded && !playing && loop && envelope == [] && path == ""
      ensures sampleRate == 0.0 && duration == 0.0 && currentLevel == 0.0
      ensures visualizationGain == 1.0 && baseGain == 1.0
      ensures autoGainEnabled && autoGainDepth == 0.35 && autoGainSpeed == 1.2
      ensures autoGainPhase == 0.0 && mockPlaybackTime == 0.0
      ensures status == NoAudioLoaded
    {
      envelope := [];
      status := NoAudioLoaded;
      loaded := false;
      loop := true;
      playing := false;
      path := "";
      sampleRate := 0.0;
      duration := 0.0;
      currentLevel := 0.0;
      visualizationGain := 1.0;
      baseGain := 1.0;
      autoGainEnabled := true;
      autoGainDepth := 0.35;
      autoGainSpeed := 1.2;
      autoGainPhase := 0.0;
      mockPlaybackTime := 0.0;
    }

    /** `stopPlayback`. */
    method StopPlayback()
      modifies this`playing
      ensures !playing
    {
      playing := false;
    }

    /** `startPlayback`: stop, then play the file if there is a path;
        `playOk` is whether the system player accepted it. */
    method StartPlayback(playOk: bool)
      modifies this`playing, this`status
      ensures playing <==> path != "" && playOk
      ensures status == if path != "" && !playOk then PlayFailed else old(status)
    {
      StopPlayback();
      if path == "" {
        return;
      }
      if !playOk {
        status := PlayFailed;
        playing := false;
      } else {
        playing := true;
      }
    }

    /** The chunk loop of `loadAudioFile`, from just after the RIFF header. */
    static method ReadChunks(b: seq<Byte>) returns (r: Chunks)
      requires |b| >= RiffHeaderSize
      ensures r == WalkChunks(b, RiffHeaderSize, NoFmt, false)
    {
      var pos: nat := RiffHeaderSize;
      var fmt := NoFmt;
      var fmtFound := false;
      while pos + ChunkHeaderSize <= |b|
        invariant WalkChunks(b, pos, fmt, fmtFound) == WalkChunks(b, RiffHeaderSize, NoFmt, false)
        decreases |b| - pos
      {
        var id := b[pos..pos + 4];
        var size := U32At(b, pos + 4);
        var body := pos + ChunkHeaderSize;
        if id == FmtId {
          if size > 0 && body + size > |b| {
            return ChunkError(TruncatedFmt);
          }
          if size < FmtFieldsSize {
            return ChunkError(FmtTooSmall);
          }
          var next := SkipChunk(body, size);
          WalkFmt(b, pos, size, next, fmt, fmtFound);
          fmt := DecodeFmt(b, body);
          fmtFound := true;
          pos := next;
        } else if id == DataId {
          if size > 0 && body + size > |b| {
            return ChunkError(TruncatedData);
          }
          return Chunks(fmt, fmtFound, Some(b[body..body + size]));
        } else {
          var next := SkipChunk(body, size);
          WalkSkips(b, pos, size, next, fmt, fmtFound);
          pos := next;
        }
      }
      return Chunks(fmt, fmtFound, None);
    }

    /** Moving past a chunk body, and past its pad byte when its size is odd. */
    static method SkipChunk(body: nat, size: nat) returns (next: nat)
      ensures next == body + Padded(size)
    {
      next := body + size;
      if size % 2 == 1 {
        next := next + 1;
      }
    }

    /** The channel loop for one frame: the sum of its samples, stopping at
        the end of the data. */
    static method SumFrame(data: seq<Byte>, channels: nat, frame: nat) returns (accum: int)
      ensures accum == FrameSum(data, channels, frame, channels)
    {
      var totalSamples := |data| / 2;
      accum := 0;
      var c := 0;
      while c < channels
        invariant c <= channels && accum == FrameSum(data, channels, frame, c)
      {
        var idx := frame * channels + c;
        if idx >= totalSamples {
          FrameSumStops(data, channels, frame, c, channels);
          break;
        }
        accum := accum + S16At(data, 2 * idx);
        c := c + 1;
      }
    }

    /** The envelope loop of `loadAudioFile`: one value per whole frame. */
    static method BuildEnvelope(data: seq<Byte>, channels: nat) returns (env: seq<real>)
      requires channels > 0
      ensures env == Envelope(data, channels, FrameCount(data, channels))
    {
      var frameCount := (|data| / 2) / channels;
      env := [];
      var e := 0.0;
      for frame := 0 to frameCount
        invariant env == Envelope(data, channels, frame)
        invariant e == Previous(env, frame)
      {
        var accum := SumFrame(data, channels, frame);
        var mono := accum as real / (32768.0 * channels as real);
        var magnitude := AbsReal(mono);
        assert magnitude == Magnitude(data, channels, frame);
        var coeff := if magnitude > e then Attack else Release;
        e := Lerp(e, magnitude, coeff);
        env := env + [e];
      }
    }

    /** The reading part of `loadAudioFile`: the header checks, the chunk
        loop and the format checks, stopping at the first failure. */
    static method ReadWav(b: seq<Byte>) returns (r: Parsed)
      ensures r == Parse(b)
    {
      if |b| < 4 || b[..4] != Riff {
        return Failed(MissingRiff);
      }
      if |b| < 8 {
        return Failed(TruncatedSize);
      }
      if |b| < RiffHeaderSize || b[8..12] != Wave {
        return Failed(MissingWave);
      }
      var chunks := ReadChunks(b);
      if chunks.ChunkError? {
        return Failed(chunks.err);
      }
      return Validate(chunks.fmt, chunks.fmtFound, chunks.data);
    }

    /** The reset at the start of `loadAudioFile`. */
    method ResetForLoad()
      modifies this`playing, this`loaded, this`envelope, this`sampleRate, this`duration
      modifies this`currentLevel, this`mockPlaybackTime
      ensures !playing && !loaded && envelope == [] && sampleRate == 0.0 && duration == 0.0
      ensures currentLevel == 0.0 && mockPlaybackTime == 0.0
    {
      StopPlayback();
      loaded := false;
      envelope := [];
      sampleRate := 0.0;
      duration := 0.0;
      currentLevel := 0.0;
      mockPlaybackTime := 0.0;
    }

    /** The success path of `loadAudioFile`: the envelope of the samples,
        the rate and duration, the path and the status line. */
    method Install(newPath: string, fmt: Fmt, data: seq<Byte>)
      requires fmt.numChannels > 0 && fmt.sampleRate > 0
      modifies this`envelope, this`sampleRate, this`duration, this`loaded, this`path, this`status
      ensures envelope == Envelope(data, fmt.numChannels, FrameCount(data, fmt.numChannels))
      ensures sampleRate == fmt.sampleRate as real && duration == |envelope| as real / sampleRate
      ensures loaded && path == newPath && status == LoadedWav(fmt.numChannels, fmt.sampleRate, duration)
    {
      envelope := BuildEnvelope(data, fmt.numChannels);
      sampleRate := fmt.sampleRate as real;
      duration := |envelope| as real / sampleRate;
      loaded := true;
      path := newPath;
      status := LoadedWav(fmt.numChannels, fmt.sampleRate, duration);
    }

    /** `loadAudioFile`: reset, then read the file (`None` when it cannot be
        opened); on success the envelope, rate, duration and path are set. */
    method LoadAudioFile(newPath: string, file: Option<seq<Byte>>) returns (ok: bool)
      modifies this`playing, this`loaded, this`envelope, this`sampleRate, this`duration
      modifies this`currentLevel, this`mockPlaybackTime, this`path, this`status
      ensures Valid()
      ensures ok <==> file.Some? && Parse(file.value).Decoded?
      ensures ok ==> var p := Parse(file.value);
        loaded && envelope == Envelope(p.data, p.fmt.numChannels, FrameCount(p.data, p.fmt.numChannels))
        && sampleRate == p.fmt.sampleRate as real && duration == |envelope| as real / sampleRate
        && path == newPath && status == LoadedWav(p.fmt.numChannels, p.fmt.sampleRate, duration)
      ensures !ok ==> (!loaded && envelope == [] && sampleRate == 0.0 && duration == 0.0 && path == old(path)
        && status == Invalid(if file.None? then CannotOpen else Parse(file.value).err))
      ensures !playing && currentLevel == 0.0 && mockPlaybackTime == 0.0
    {
      ResetForLoad();
      if file.None? {
        status := Invalid(CannotOpen);
        return false;
      }
      var checked := ReadWav(file.value);
      if checked.Failed? {
        status := Invalid(checked.err);
        return false;
      }
      Install(newPath, checked.fmt, checked.data);
      return true;
    }

    /** `LoadFromPath`: an empty path is refused before anything changes
        but the status; otherwise load, and start playing after a
        successful load. */
    method LoadFromPath(newPath: string, file: Option<seq<Byte>>, playOk: bool) returns (ok: bool)
      requires Valid()
      modifies this`playing, this`loaded, this`envelope, this`sampleRate, this`duration
      modifies this`currentLevel, this`mockPlaybackTime, this`path, this`status
      ensures Valid()
      ensures newPath == "" ==>
        !ok && status == NeedPath && loaded == old(loaded) && envelope == old(envelope)
        && playing == old(playing) && path == old(path) && sampleRate == old(sampleRate)
        && duration == old(duration) && currentLevel == old(currentLevel)
        && mockPlaybackTime == old(mockPlaybackTime)
      ensures newPath != "" ==>
        (ok <==> file.Some? && Parse(file.value).Decoded?)
        && currentLevel == 0.0 && mockPlaybackTime == 0.0
      ensures ok ==>
        var p := Parse(file.value);
        loaded && envelope == Envelope(p.data, p.fmt.numChannels, FrameCount(p.data, p.fmt.numChannels))
        && sampleRate == p.fmt.sampleRate as real && duration == |envelope| as real / sampleRate
        && path == newPath && (playing <==> playOk)
        && status == if playOk then LoadedWav(p.fmt.numChannels, p.fmt.sampleRate, duration) else PlayFailed
      ensures newPath != "" && !ok ==>
        !loaded && !playing && envelope == [] && sampleRate == 0.0 && duration == 0.0 && path == old(path)
        && status == Invalid(if file.None? then CannotOpen else Parse(file.value).err)
    {
      if newPath == "" {
        status := NeedPath;
        return false;
      }
      ok := LoadAudioFile(newPath, file);
      if ok {
        StartPlayback(playOk);
      }
    }

    /** The clock step of `Update`. */
    method AdvanceClock(dt: real)
      modifies this`mockPlaybackTime
      ensures mockPlaybackTime == AdvanceTime(old(mockPlaybackTime), dt, loaded, duration, loop)
    {
      mockPlaybackTime := mockPlaybackTime + dt;
      if loaded && duration > 0.0 {
        if loop {
          mockPlaybackTime := Fmod(mockPlaybackTime, duration);
        } else {
          mockPlaybackTime := MinReal(mockPlaybackTime, duration);
        }
      }
    }

    /** The oscillator step of `Update`, taken without audio. */
    method AdvanceOscillator(dt: real)
      modifies this`autoGainPhase
      ensures autoGainPhase == PhaseAfter(old(autoGainPhase), dt, autoGainSpeed)
    {
      ghost var phase := autoGainPhase;
      var speed := MaxReal(autoGainSpeed, 0.0);
      autoGainPhase := autoGainPhase + dt * MaxReal(MinAutoGainRate, speed);
      PhaseAfterStep(phase, dt, autoGainSpeed, autoGainPhase);
      if autoGainPhase > TwoPi {
        autoGainPhase := Fmod(autoGainPhase, TwoPi);
      }
    }

    /** `Update(deltaTime)`: clamp the base gain, advance the clock, take the
        level from the envelope (or from the oscillator without audio), and
        derive the visualisation gain. `sin` stands for `std::sin`. */
    method Update(dt: real, sin: real -> real)
      requires Valid()
      requires forall x :: -1.0 <= sin(x) <= 1.0
      modifies this`baseGain, this`mockPlaybackTime, this`autoGainPhase, this`currentLevel, this`visualizationGain
      ensures Valid()
      ensures baseGain == Clamp(old(baseGain), MinBaseGain, MaxBaseGain)
      ensures mockPlaybackTime == AdvanceTime(old(mockPlaybackTime), dt, loaded, duration, loop)
      ensures HaveAudio() ==>
        currentLevel == SampleEnvelope(envelope, sampleRate, duration, mockPlaybackTime) && autoGainPhase == old(autoGainPhase)
      ensures !HaveAudio() ==>
        autoGainPhase == PhaseAfter(old(autoGainPhase), dt, autoGainSpeed) && currentLevel == 0.5 * (sin(autoGainPhase) + 1.0)
      ensures 0.0 <= currentLevel <= 1.0
      ensures visualizationGain == VisualizationGain(baseGain, autoGainEnabled, autoGainDepth, currentLevel)
    {
      baseGain := Clamp(baseGain, MinBaseGain, MaxBaseGain);
      AdvanceClock(dt);
      var haveAudio := loaded && |envelope| > 0 && sampleRate > 0.0;
      var modulation := 0.0;
      if haveAudio {
        modulation := SampleEnvelope(envelope, sampleRate, duration, mockPlaybackTime);
        SampleEnvelopeBounded(envelope, sampleRate, duration, mockPlaybackTime);
      } else {
        AdvanceOscillator(dt);
        modulation := 0.5 * (sin(autoGainPhase) + 1.0);
      }
      currentLevel := modulation;
      ApplyGain(modulation);
    }

    /** The gain step of `Update`. */
    method ApplyGain(modulation: real)
      modifies this`visualizationGain
      ensures visualizationGain == VisualizationGain(baseGain, autoGainEnabled, autoGainDepth, modulation)
    {
      if !autoGainEnabled {
        visualizationGain := baseGain;
      } else {
        var depth := Clamp(autoGainDepth, 0.0, MaxAutoGainDepth);
        var scale := 1.0 + depth * modulation;
        visualizationGain := Clamp(baseGain * scale, MinVizGain, MaxVizGain);
      }
    }

    /** `Clear`: stop and forget the file; gains and settings stay. */
    method Clear()
      modifies this`playing, this`envelope, this`loaded, this`path, this`sampleRate, this`duration
      modifies this`currentLevel, this`mockPlaybackTime, this`autoGainPhase, this`status
      ensures Valid()
      ensures !playing && !loaded && envelope == [] && path == ""
      ensures sampleRate == 0.0 && duration == 0.0 && currentLevel == 0.0
      ensures mockPlaybackTime == 0.0 && autoGainPhase == 0.0 && status == NoAudioLoaded
    {
      StopPlayback();
      envelope := [];
      loaded := false;
      path := "";
      sampleRate := 0.0;
      duration := 0.0;
      currentLevel := 0.0;
      mockPlaybackTime := 0.0;
      autoGainPhase := 0.0;
      status := NoAudioLoaded;
    }

    /** `SetLoop`: a change restarts a loaded file that is playing, so the
        player picks up the new mode. */
    method SetLoop(newLoop: bool, playOk: bool)
      modifies this`loop, this`playing, this`status
      ensures loop == newLoop
      ensures newLoop == old(loop) || !(old(playing) && loaded) ==> playing == old(playing) && status == old(status)
      ensures newLoop != old(loop) && old(playing) && loaded ==> (playing <==> path != "" && playOk)
    {
      if loop == newLoop {
        return;
      }
      loop := newLoop;
      if playing && loaded {
        StartPlayback(playOk);
      }
    }

    /** `SetBaseGain`: the gain is kept within [0.1, 4]. */
    method SetBaseGain(value: real)
      modifies this`baseGain
      ensures MinBaseGain <= baseGain <= MaxBaseGain
      ensures MinBaseGain <= value <= MaxBaseGain ==> baseGain == value
      ensures value < MinBaseGain ==> baseGain == MinBaseGain
      ensures value > MaxBaseGain ==> baseGain == MaxBaseGain
    {
      baseGain := Clamp(value, MinBaseGain, MaxBaseGain);
    }

    /** `RestartPlayback`: play again, only with a loaded file. */
    method RestartPlayback(playOk: bool)
      modifies this`playing, this`status
      ensures loaded ==> (playing <==> path != "" && playOk)
      ensures !loaded ==> playing == old(playing) && status == old(status)
    {
      if loaded {
        StartPlayback(playOk);
      }
    }

    /** `PlaybackRatio`: the clock as a fraction of the duration. */
    function PlaybackRatio(): (r: real)
      reads this
      ensures 0.0 <= r <= 1.0
      ensures duration <= 0.0 ==> r == 0.0
      ensures duration > 0.0 && 0.0 <= mockPlaybackTime <= duration ==> r * duration == mockPlaybackTime
      ensures duration > 0.0 && mockPlaybackTime >= duration ==> r == 1.0
    {
      if duration <= 0.0 then 0.0
      else
        RatioFacts(mockPlaybackTime, duration);
        Clamp(mockPlaybackTime / duration, 0.0, 1.0)
    }
  }
}
