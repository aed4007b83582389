/** The playback state of AudioFilePlayer as a value, and the transitions
    of LoadFile, Play, Pause, Stop, SetLoop and the device callback. The
    miniaudio decoder is an abstract source of interleaved frames; the
    playback device is only the outcome of starting it. */
module PlayerModel {
  import opened Common
  import opened RingModel

  const DefaultSampleRate: nat := 48000
  const DefaultChannels: nat := 2
  /** `kTau` and the 220 Hz tone of the sine fallback. */
  const Tau: real := 6.28318530718
  const SineFrequency: real := 220.0

  /** The decoder after `ma_decoder_init_file`: the frames still to be
      decoded from `pos` on. A `failed` decoder reports an error and no
      frames on every read. `endOk` is the status of a read that finds
      no frames left: success (`MA_SUCCESS`) when true, and otherwise a
      non-success status such as the `MA_AT_END` of miniaudio 0.11. */
  datatype Decoder = Decoder(frames: seq<seq<real>>, pos: nat, failed: bool, endOk: bool)

  /** What `ma_decoder_init_file` yields for a file that opens. */
  datatype OpenedFile = OpenedFile(sampleRate: nat, channels: nat, totalFrames: nat, frames: seq<seq<real>>, failed: bool, endOk: bool)

  datatype Player = Player(
    ring: RingState,
    loop: bool,
    paused: bool,
    useSine: bool,
    loaded: bool,
    sampleRate: nat,
    channels: nat,
    totalFrames: nat,
    cursorFrames: nat,
    sinePhase: real,
    decoderInit: bool,
    deviceInit: bool,
    decoder: Decoder)

  /** Every frame carries one value per channel. */
  predicate Framed(fs: seq<seq<real>>, channels: nat)
  {
    forall i :: 0 <= i < |fs| ==> |fs[i]| == channels
  }

  predicate DecoderInv(d: Decoder, channels: nat)
  {
    d.pos <= |d.frames| && Framed(d.frames, channels)
  }

  predicate PlayerInv(p: Player)
  {
    Inv(p.ring) && 1 <= p.sampleRate < U32 && 1 <= p.channels
    && p.ring.capacity == RingCapacity(p.sampleRate)
    && (p.decoderInit ==> DecoderInv(p.decoder, p.channels))
  }

  /** A file the decoder can open: a positive rate that fits a `uint32_t`,
      at least one channel, and frames of that width. */
  predicate Openable(f: OpenedFile)
  {
    1 <= f.sampleRate < U32 && 1 <= f.channels && Framed(f.frames, f.channels)
  }

  /** The freshly constructed player: ResetRing(48000), then StartDevice. */
  function Initial(deviceOk: bool): Player
  {
    Player(Reset(DefaultSampleRate), false, true, true, false, DefaultSampleRate, DefaultChannels,
           0, 0, 0.0, false, deviceOk, Decoder([], 0, false, false))
  }

  /** ResetDecoderState: cursor and sine phase to zero, decoder rewound. */
  function ResetDecoder(p: Player): (q: Player)
    ensures PlayerInv(p) ==> PlayerInv(q)
    ensures q.cursorFrames == 0 && q.ring == p.ring && q.paused == p.paused && q.loop == p.loop
    ensures p.decoderInit ==> q.decoder.pos == 0 && q.decoder.frames == p.decoder.frames
  {
    p.(cursorFrames := 0, sinePhase := 0.0,
       decoder := if p.decoderInit then p.decoder.(pos := 0) else p.decoder)
  }

  /** LoadFile when the decoder cannot open the file: the sine fallback at
      the default rate and channel count; `paused` is left as it was. */
  function LoadFailed(p: Player, deviceOk: bool): Player
  {
    Player(Reset(DefaultSampleRate), p.loop, p.paused, true, false, DefaultSampleRate, DefaultChannels,
           0, 0, 0.0, false, deviceOk, p.decoder)
  }

  /** LoadFile when the decoder opens the file: paused at its first frame,
      loaded only if the device restarts. */
  function LoadOpened(p: Player, f: OpenedFile, deviceOk: bool): (q: Player)
    requires Openable(f)
    ensures PlayerInv(q) && Readable(q.ring) == 0 && q.paused && q.decoder.pos == 0
    ensures (q.loaded <==> deviceOk) && (q.useSine <==> !deviceOk)
  {
    ResetIsEmpty(f.sampleRate);
    Player(Reset(f.sampleRate), p.loop, true, !deviceOk, deviceOk, f.sampleRate, f.channels,
           f.totalFrames, 0, 0.0, true, deviceOk, Decoder(f.frames, 0, f.failed, f.endOk))
  }

  datatype Loaded = Loaded(after: Player, ok: bool)

  /** LoadFile. `outcome` is None when the decoder cannot open the file;
      `deviceOk` is whether the playback device restarts. */
  function Load(p: Player, outcome: Option<OpenedFile>, deviceOk: bool): (l: Loaded)
    requires PlayerInv(p)
    requires outcome.Some? ==> Openable(outcome.value)
    ensures PlayerInv(l.after) && Readable(l.after.ring) == 0
    ensures l.ok <==> outcome.Some? && deviceOk
  {
    match outcome
    case None => Loaded(LoadFailed(p, deviceOk), false)
    case Some(f) => Loaded(LoadOpened(p, f, deviceOk), deviceOk)
  }

  /** Play: start the device first if it is not running; stay paused if
      that fails. */
  function Play(p: Player, deviceOk: bool): (q: Player)
    ensures PlayerInv(p) ==> PlayerInv(q)
    ensures q.paused <==> p.paused && !p.deviceInit && !deviceOk
    ensures q.ring == p.ring && q.cursorFrames == p.cursorFrames && q.decoder == p.decoder
  {
    if !p.deviceInit then
      if !deviceOk then p else p.(deviceInit := true, paused := false)
    else p.(paused := false)
  }

  function Pause(p: Player): (q: Player)
    ensures PlayerInv(p) ==> PlayerInv(q)
    ensures q.paused && q.ring == p.ring && q.cursorFrames == p.cursorFrames && q.decoder == p.decoder
  {
    p.(paused := true)
  }

  function Stop(p: Player): (q: Player)
    ensures PlayerInv(p) ==> PlayerInv(q)
    ensures q.paused && q.cursorFrames == 0 && q.ring == p.ring
    ensures p.decoderInit ==> q.decoder.pos == 0
  {
    ResetDecoder(p.(paused := true))
  }

  function SetLoop(p: Player, loop: bool): (q: Player)
    ensures PlayerInv(p) ==> PlayerInv(q)
    ensures q.loop == loop && q.paused == p.paused && q.ring == p.ring && q.cursorFrames == p.cursorFrames
  {
    p.(loop := loop)
  }

  // ---------------------------------------------------------------------
  // Frames and samples.

  /** Left-to-right sum, as the channel loop accumulates it. */
  function Sum(s: seq<real>): real
  {
    if |s| == 0 then 0.0 else Sum(s[..|s| - 1]) + s[|s| - 1]
  }

  /** The mono sample of a frame: the average of its channels. */
  function Mono(frame: seq<real>, channels: nat): real
    requires channels >= 1
  {
    Sum(frame) / channels as real
  }

  function MonoMix(fs: seq<seq<real>>, channels: nat): (m: seq<real>)
    requires channels >= 1
    ensures |m| == |fs| && forall i :: 0 <= i < |fs| ==> m[i] == Mono(fs[i], channels)
  {
    seq(|fs|, i requires 0 <= i < |fs| => Mono(fs[i], channels))
  }

  /** Interleaved layout of a run of frames. */
  function Flatten(fs: seq<seq<real>>): seq<real>
  {
    if |fs| == 0 then [] else Flatten(fs[..|fs| - 1]) + fs[|fs| - 1]
  }

  function Replicate(x: real, n: nat): (s: seq<real>)
    ensures |s| == n && forall i :: 0 <= i < n ==> s[i] == x
  {
    seq(n, _ => x)
  }

  /** The sine fallback writes each tone sample to every channel. */
  function ToneFrames(tone: seq<real>, channels: nat): (fs: seq<seq<real>>)
    ensures |fs| == |tone| && Framed(fs, channels)
    ensures forall i :: 0 <= i < |tone| ==> fs[i] == Replicate(tone[i], channels)
  {
    seq(|tone|, i requires 0 <= i < |tone| => Replicate(tone[i], channels))
  }

  // ---------------------------------------------------------------------
  // The sine fallback.

  function SineStep(sampleRate: nat): (s: real)
    requires sampleRate >= 1
    ensures s > 0.0
    ensures sampleRate as real >= SineFrequency ==> s <= Tau
  {
    var r := sampleRate as real;
    if r >= SineFrequency then
      RatioInUnit(SineFrequency, r);
      MulLe(SineFrequency / r, 1.0, Tau);
      assert Tau * SineFrequency / r == Tau * (SineFrequency / r);
      Tau * SineFrequency / r
    else
      Tau * SineFrequency / r
  }

  /** One phase increment, wrapped once when it passes `kTau`. */
  function Advance(phase: real, step: real): real
  {
    var q := phase + step;
    if q > Tau then q - Tau else q
  }

  function PhaseAt(phase: real, step: real, n: nat): real
  {
    if n == 0 then phase else Advance(PhaseAt(phase, step, n - 1), step)
  }

  function SineTone(sin: real -> real, phase: real, step: real, n: nat): (t: seq<real>)
    ensures |t| == n && forall i :: 0 <= i < n ==> t[i] == sin(PhaseAt(phase, step, i))
  {
    seq(n, (i: nat) => sin(PhaseAt(phase, step, i)))
  }

  // ---------------------------------------------------------------------
  // The decoder path of the callback.

  datatype ReadResult = ReadResult(success: bool, count: nat)

  /** `ma_decoder_read_pcm_frames` on the abstract decoder. A failed decoder
      reads nothing and reports an error; otherwise the read takes the next
      frames, and at the end of the frames it reads none and reports the
      decoder's end-of-stream status. */
  function DecoderRead(d: Decoder, n: nat): (r: ReadResult)
    requires d.pos <= |d.frames|
    ensures r.count <= n && d.pos + r.count <= |d.frames|
    ensures d.failed ==> r == ReadResult(false, 0)
    ensures !d.failed && n > 0 ==> (r.count == 0 <==> d.pos == |d.frames|)
    ensures !d.failed ==> r.count == MinNat(n, |d.frames| - d.pos) && (r.success <==> d.pos < |d.frames| || d.endOk)
  {
    if d.failed then ReadResult(false, 0)
    else if d.pos == |d.frames| then ReadResult(d.endOk, 0)
    else ReadResult(true, MinNat(n, |d.frames| - d.pos))
  }

  /** What the decoder loop leaves behind: the runs of frames it read, in
      order (each one goes to the ring as it is read), the frames copied to
      the device (in order), the decoder, the cursor, and whether it paused. */
  datatype Pulled = Pulled(chunks: seq<seq<seq<real>>>, played: seq<seq<real>>, decoder: Decoder, cursor: nat, paused: bool)

  /** A looping, working decoder over no frames whose end-of-stream read
      succeeds would rewind forever. */
  predicate Finite(d: Decoder, loop: bool)
  {
    loop && !d.failed && d.endOk ==> |d.frames| > 0
  }

  /** The pull loop of HandleCallback: read up to `remaining` frames, rewind
      at the end of a looping stream, pause at the end of any other stream
      or on a decoder failure. */
  function DecodeLoop(d: Decoder, remaining: nat, loop: bool, cursor: nat, channels: nat): (r: Pulled)
    requires DecoderInv(d, channels) && channels >= 1 && Finite(d, loop)
    ensures DecoderInv(r.decoder, channels) && r.decoder.frames == d.frames && r.decoder.failed == d.failed
    ensures |r.played| <= remaining && Framed(r.played, channels)
    ensures !r.paused ==> |r.played| == remaining
    decreases remaining, if d.pos == |d.frames| then 1 else 0
  {
    if remaining == 0 then Pulled([], [], d, cursor, false)
    else
      var res := DecoderRead(d, remaining);
      if !res.success && res.count == 0 then Pulled([], [], d, cursor, true)
      else if res.count == 0 then
        if loop then DecodeLoop(d.(pos := 0), remaining, loop, 0, channels)
        else Pulled([], [], d, cursor, true)
      else
        var chunk := d.frames[d.pos..d.pos + res.count];
        var rest := DecodeLoop(d.(pos := d.pos + res.count), remaining - res.count, loop, cursor + res.count, channels);
        rest.(chunks := [chunk] + rest.chunks, played := chunk + rest.played)
  }

  /** The runs of frames joined in order. */
  function Concat(chunks: seq<seq<seq<real>>>): seq<seq<real>>
  {
    if |chunks| == 0 then [] else chunks[0] + Concat(chunks[1..])
  }

  /** The ring writes of the pull loop: the mono mix of each run, in the
      order the runs were read. */
  function PushChunks(ring: RingState, chunks: seq<seq<seq<real>>>, channels: nat): (r: RingState)
    requires Inv(ring) && channels >= 1
    ensures Inv(r) && r.capacity == ring.capacity
    decreases |chunks|
  {
    if |chunks| == 0 then ring
    else PushChunks(Write(ring, MonoMix(chunks[0], channels)), chunks[1..], channels)
  }

  predicate CallbackFinite(p: Player)
  {
    p.paused || p.useSine || !p.decoderInit || Finite(p.decoder, p.loop)
  }

  datatype Callback = Callback(after: Player, output: seq<real>)

  /** The sine fallback: frame `i` carries `sin(phase_i)` on every channel,
      and the same samples go to the ring. */
  function SineCallback(p: Player, frameCount: nat, sin: real -> real): (c: Callback)
    requires PlayerInv(p)
    ensures PlayerInv(c.after) && |c.output| == frameCount * p.channels
    ensures c.after.cursorFrames == p.cursorFrames + frameCount && c.after.paused == p.paused
    ensures c.after.sampleRate == p.sampleRate && c.after.channels == p.channels
  {
    var step := SineStep(p.sampleRate);
    var tone := SineTone(sin, p.sinePhase, step, frameCount);
    FlattenLength(ToneFrames(tone, p.channels), p.channels);
    Callback(p.(ring := Write(p.ring, tone), sinePhase := PhaseAt(p.sinePhase, step, frameCount),
                cursorFrames := p.cursorFrames + frameCount),
             Flatten(ToneFrames(tone, p.channels)))
  }

  /** The number of interleaved samples in `frames` frames of `channels`. */
  function Interleaved(frames: nat, channels: nat): (n: nat)
    ensures n == frames * channels
  {
    frames * channels
  }

  /** The decoder path: the frames read go to the device, their mono mix to
      the ring, and the rest of the buffer stays silent. */
  function DecoderCallback(p: Player, frameCount: nat): (c: Callback)
    requires PlayerInv(p) && p.decoderInit && Finite(p.decoder, p.loop)
    ensures PlayerInv(c.after) && |c.output| == Interleaved(frameCount, p.channels)
    ensures c.after.sampleRate == p.sampleRate && c.after.channels == p.channels
  {
    var pulled := DecodeLoop(p.decoder, frameCount, p.loop, p.cursorFrames, p.channels);
    var out := Flatten(pulled.played);
    var total := Interleaved(frameCount, p.channels);
    FlattenLength(pulled.played, p.channels);
    MulLeNat(|pulled.played|, frameCount, p.channels);
    Callback(p.(ring := PushChunks(p.ring, pulled.chunks, p.channels), decoder := pulled.decoder, cursorFrames := pulled.cursor,
                paused := pulled.paused),
             out + Zeros(total - MinNat(|out|, total)))
  }

  /** HandleCallback with a non-null output buffer of `frameCount` frames. */
  function HandleCallback(p: Player, frameCount: nat, sin: real -> real): (c: Callback)
    requires PlayerInv(p) && CallbackFinite(p)
    ensures PlayerInv(c.after) && |c.output| == frameCount * p.channels
    ensures c.after.sampleRate == p.sampleRate && c.after.channels == p.channels
    ensures p.paused ==> c.after == p
  {
    if p.paused then Callback(p, Zeros(frameCount * p.channels))
    else if p.useSine || !p.decoderInit then SineCallback(p, frameCount, sin)
    else DecoderCallback(p, frameCount)
  }

  // ---------------------------------------------------------------------
  // Properties of the playback transitions.

  /** The constructor's state satisfies the player invariant. */
  lemma InitialInv(deviceOk: bool)
    ensures PlayerInv(Initial(deviceOk))
  {
  }

  /** LoadFile keeps the player invariant, whether or not the file opens. */
  lemma LoadInv(p: Player, outcome: Option<OpenedFile>, deviceOk: bool)
    requires PlayerInv(p) && (outcome.Some? ==> Openable(outcome.value))
    ensures PlayerInv(Load(p, outcome, deviceOk).after)
  {
    match outcome {
      case None => ResetIsEmpty(DefaultSampleRate);
      case Some(f) => ResetIsEmpty(f.sampleRate);
    }
  }

  /** The audio callback keeps the player invariant on every path. */
  lemma CallbackInv(p: Player, frameCount: nat, sin: real -> real)
    requires PlayerInv(p) && CallbackFinite(p)
    ensures PlayerInv(HandleCallback(p, frameCount, sin).after)
  {
  }

  /** A file that fails to open switches to the sine fallback at 48000 Hz
      and 2 channels with an empty ring sized for that rate, and rewinds;
      `paused` and `loop` are left as they were. */
  lemma LoadFailureFallsBack(p: Player, deviceOk: bool)
    requires PlayerInv(p)
    ensures var q := LoadFailed(p, deviceOk);
      q.useSine && !q.loaded && !q.decoderInit
      && q.sampleRate == DefaultSampleRate && q.channels == DefaultChannels
      && q.totalFrames == 0 && q.cursorFrames == 0 && q.sinePhase == 0.0
      && q.ring == Reset(DefaultSampleRate) && Readable(q.ring) == 0
      && q.paused == p.paused && q.loop == p.loop && q.deviceInit == deviceOk
  {
  }

  /** A file that opens leaves the player paused at its start with a ring
      sized for its rate; it counts as loaded exactly when the device
      restarts, and otherwise falls back to the sine tone. */
  lemma LoadSuccess(p: Player, f: OpenedFile, deviceOk: bool)
    requires PlayerInv(p) && Openable(f)
    ensures var q := LoadOpened(p, f, deviceOk);
      q.paused && q.decoderInit && q.loaded == deviceOk && q.useSine == !deviceOk
      && q.sampleRate == f.sampleRate && q.channels == f.channels && q.totalFrames == f.totalFrames
      && q.ring == Reset(f.sampleRate) && Readable(q.ring) == 0
      && q.cursorFrames == 0 && q.decoder.pos == 0 && q.loop == p.loop
  {
    ResetIsEmpty(f.sampleRate);
  }

  /** LoadFile reports success only for a file that opens on a device that
      restarts. */
  lemma LoadResult(p: Player, outcome: Option<OpenedFile>, deviceOk: bool)
    requires PlayerInv(p) && (outcome.Some? ==> Openable(outcome.value))
    ensures Load(p, outcome, deviceOk).ok <==> outcome.Some? && deviceOk
    ensures Load(p, outcome, deviceOk).after
      == if outcome.Some? then LoadOpened(p, outcome.value, deviceOk) else LoadFailed(p, deviceOk)
  {
  }

  /** Play unpauses unless the device is down and cannot be started, in
      which case nothing changes. */
  lemma PlayUnpauses(p: Player, deviceOk: bool)
    ensures Play(p, deviceOk).paused <==> p.paused && !p.deviceInit && !deviceOk
    ensures Play(p, deviceOk).deviceInit <==> p.deviceInit || deviceOk
    ensures !p.deviceInit && !deviceOk ==> Play(p, deviceOk) == p
  {
  }

  /** Stop pauses and rewinds; the ring is not touched. */
  lemma StopRewinds(p: Player)
    requires PlayerInv(p)
    ensures var q := Stop(p);
      q.paused && q.cursorFrames == 0 && q.ring == p.ring && PlayerInv(q)
      && (p.decoderInit ==> q.decoder.pos == 0)
  {
  }

  // ---------------------------------------------------------------------
  // Mixing and layout.

  lemma {:induction false} SumReplicate(x: real, n: nat)
    ensures Sum(Replicate(x, n)) == n as real * x
  {
    if n > 0 {
      assert Replicate(x, n)[..n - 1] == Replicate(x, n - 1);
      SumReplicate(x, n - 1);
    }
  }

  /** The channel average of a frame carrying the same value on every
      channel is that value: a mono signal passes unchanged. */
  lemma MonoOfUniform(x: real, channels: nat)
    requires channels >= 1
    ensures Mono(Replicate(x, channels), channels) == x
  {
    SumReplicate(x, channels);
  }

  lemma {:induction false} FlattenAppend(a: seq<seq<real>>, b: seq<seq<real>>)
    ensures Flatten(a + b) == Flatten(a) + Flatten(b)
    decreases |b|
  {
    if |b| > 0 {
      var b0 := b[..|b| - 1];
      assert (a + b)[..|a + b| - 1] == a + b0;
      FlattenAppend(a, b0);
    } else {
      assert a + b == a;
    }
  }

  lemma MonoMixAppend(a: seq<seq<real>>, b: seq<seq<real>>, channels: nat)
    requires channels >= 1
    ensures MonoMix(a + b, channels) == MonoMix(a, channels) + MonoMix(b, channels)
  {
  }

  /** Interleaving frames of `channels` values gives `channels` values per frame. */
  lemma {:induction false} FlattenLength(fs: seq<seq<real>>, channels: nat)
    requires Framed(fs, channels)
    ensures |Flatten(fs)| == |fs| * channels
  {
    if |fs| > 0 {
      FlattenLength(fs[..|fs| - 1], channels);
    }
  }

  /** Value `c` of frame `i` sits at `i * channels + c` of the interleaved
      buffer. */
  lemma {:induction false} FlattenIndex(fs: seq<seq<real>>, channels: nat, i: nat, c: nat)
    requires Framed(fs, channels) && i < |fs| && c < channels
    ensures i * channels + c < |Flatten(fs)| && Flatten(fs)[i * channels + c] == fs[i][c]
    decreases |fs|
  {
    var init := fs[..|fs| - 1];
    FlattenLength(init, channels);
    FlattenLength(fs, channels);
    if i < |fs| - 1 {
      FlattenIndex(init, channels, i, c);
      assert i * channels + c < |init| * channels by {
        MulLeNat(i + 1, |init|, channels);
      }
    } else {
      assert |init| * channels == i * channels;
    }
  }

  lemma MulLeNat(a: nat, b: nat, c: nat)
    requires a <= b
    ensures a * c <= b * c
  {
  }

  // ---------------------------------------------------------------------
  // The sine fallback.

  /** The oscillator phase stays in [0, kTau] when it starts there and one
      step is at most kTau (any sample rate of at least 220 Hz). */
  lemma {:induction false} PhaseStaysInRange(phase: real, step: real, n: nat)
    requires 0.0 <= phase <= Tau && 0.0 <= step <= Tau
    ensures 0.0 <= PhaseAt(phase, step, n) <= Tau
  {
    if n > 0 {
      PhaseStaysInRange(phase, step, n - 1);
    }
  }

  // ---------------------------------------------------------------------
  // The decoder loop.

  /** The runs the loop read, joined, are exactly the frames it played. */
  lemma {:induction false} DecodeLoopChunksPlayed(d: Decoder, remaining: nat, loop: bool, cursor: nat, channels: nat)
    requires DecoderInv(d, channels) && channels >= 1 && Finite(d, loop)
    ensures var r := DecodeLoop(d, remaining, loop, cursor, channels);
      Concat(r.chunks) == r.played
    decreases remaining, if d.pos == |d.frames| then 1 else 0
  {
    if remaining > 0 {
      var res := DecoderRead(d, remaining);
      if !res.success && res.count == 0 {
      } else if res.count == 0 {
        if loop {
          DecodeLoopChunksPlayed(d.(pos := 0), remaining, loop, 0, channels);
        }
      } else {
        var d' := d.(pos := d.pos + res.count);
        var chunk := d.frames[d.pos..d.pos + res.count];
        var rest := DecodeLoop(d', remaining - res.count, loop, cursor + res.count, channels);
        DecodeLoopChunksPlayed(d', remaining - res.count, loop, cursor + res.count, channels);
        var chunks := [chunk] + rest.chunks;
        assert chunks[0] == chunk && chunks[1..] == rest.chunks;
        assert Concat(chunks) == chunk + rest.played;
      }
    }
  }

  /** Writing the runs one by one stores what writing the mono mix of all
      of them in one burst stores. */
  lemma {:induction false} PushChunksMono(ring: RingState, chunks: seq<seq<seq<real>>>, channels: nat)
    requires Inv(ring) && channels >= 1
    ensures PushChunks(ring, chunks, channels).contents == Write(ring, MonoMix(Concat(chunks), channels)).contents
    decreases |chunks|
  {
    if |chunks| > 0 {
      var a := MonoMix(chunks[0], channels);
      var b := MonoMix(Concat(chunks[1..]), channels);
      var ring1 := Write(ring, a);
      PushChunksMono(ring1, chunks[1..], channels);
      WriteTwice(ring, a, b);
      MonoMixAppend(chunks[0], Concat(chunks[1..]), channels);
    }
  }

  /** The ring ends up as if the mono mix of every frame played had been
      written in one burst. */
  lemma DecodeLoopPushesMono(ring: RingState, d: Decoder, remaining: nat, loop: bool, cursor: nat, channels: nat)
    requires Inv(ring) && DecoderInv(d, channels) && channels >= 1 && Finite(d, loop)
    ensures var r := DecodeLoop(d, remaining, loop, cursor, channels);
      PushChunks(ring, r.chunks, channels).contents == Write(ring, MonoMix(r.played, channels)).contents
  {
    var r := DecodeLoop(d, remaining, loop, cursor, channels);
    DecodeLoopChunksPlayed(d, remaining, loop, cursor, channels);
    PushChunksMono(ring, r.chunks, channels);
  }

  /** Without looping, the callback plays the next frames of the stream in
      order and pauses exactly when the stream ends before the request is
      filled. */
  lemma {:induction false} DecodeLoopToEnd(d: Decoder, remaining: nat, cursor: nat, channels: nat)
    requires DecoderInv(d, channels) && channels >= 1 && !d.failed
    ensures var r := DecodeLoop(d, remaining, false, cursor, channels);
      var n := MinNat(remaining, |d.frames| - d.pos);
      r.played == d.frames[d.pos..d.pos + n]
      && r.decoder.pos == d.pos + n && r.cursor == cursor + n
      && (r.paused <==> remaining > |d.frames| - d.pos)
    decreases remaining
  {
    var res := DecoderRead(d, remaining);
    if remaining == 0 || res.count == 0 {
    } else {
      var d1 := d.(pos := d.pos + res.count);
      DecodeLoopToEnd(d1, remaining - res.count, cursor + res.count, channels);
    }
  }

  /** With looping, the callback never pauses and always fills the request;
      once it has rewound, the cursor counts the frames since the rewind. */
  lemma {:induction false} DecodeLoopWraps(d: Decoder, remaining: nat, cursor: nat, channels: nat)
    requires DecoderInv(d, channels) && channels >= 1 && !d.failed && d.endOk && |d.frames| > 0
    ensures var r := DecodeLoop(d, remaining, true, cursor, channels);
      !r.paused && |r.played| == remaining
      && (remaining <= |d.frames| - d.pos ==>
            r.played == d.frames[d.pos..d.pos + remaining] && r.cursor == cursor + remaining)
      && (remaining > |d.frames| - d.pos ==> r.cursor == r.decoder.pos)
    decreases remaining, if d.pos == |d.frames| then 1 else 0
  {
    var res := DecoderRead(d, remaining);
    if remaining == 0 {
    } else if res.count == 0 {
      DecodeLoopWraps(d.(pos := 0), remaining, 0, channels);
      DecodeLoopCursorAfterRewind(d.(pos := 0), remaining, channels);
    } else {
      var d1 := d.(pos := d.pos + res.count);
      DecodeLoopWraps(d1, remaining - res.count, cursor + res.count, channels);
      if remaining > |d.frames| - d.pos {
        assert d1.pos == |d.frames|;
        DecodeLoopFromEnd(d1, remaining - res.count, cursor + res.count, channels);
      }
    }
  }

  /** Started right after a rewind (cursor equal to the position), the
      cursor stays equal to the decoder position. */
  lemma {:induction false} DecodeLoopCursorAfterRewind(d: Decoder, remaining: nat, channels: nat)
    requires DecoderInv(d, channels) && channels >= 1 && !d.failed && d.endOk && |d.frames| > 0
    ensures var r := DecodeLoop(d, remaining, true, d.pos, channels);
      r.cursor == r.decoder.pos
    decreases remaining, if d.pos == |d.frames| then 1 else 0
  {
    var res := DecoderRead(d, remaining);
    if remaining == 0 {
    } else if res.count == 0 {
      DecodeLoopCursorAfterRewind(d.(pos := 0), remaining, channels);
    } else {
      var d1 := d.(pos := d.pos + res.count);
      DecodeLoopCursorAfterRewind(d1, remaining - res.count, channels);
    }
  }

  /** At the end of the stream with frames still wanted, the loop rewinds
      first, so the cursor again ends equal to the decoder position. */
  lemma DecodeLoopFromEnd(d: Decoder, remaining: nat, cursor: nat, channels: nat)
    requires DecoderInv(d, channels) && channels >= 1 && !d.failed && d.endOk && |d.frames| > 0
    requires d.pos == |d.frames| && remaining > 0
    ensures var r := DecodeLoop(d, remaining, true, cursor, channels);
      r.cursor == r.decoder.pos
  {
    DecodeLoopCursorAfterRewind(d.(pos := 0), remaining, channels);
  }

  /** When a read at the end of the stream does not report success, the
      error check comes before the loop check: a looping callback plays
      exactly what a non-looping one plays, and pauses when the stream runs
      out instead of rewinding. */
  lemma {:induction false} DecodeLoopEndStatusStops(d: Decoder, remaining: nat, cursor: nat, channels: nat)
    requires DecoderInv(d, channels) && channels >= 1 && !d.failed && !d.endOk
    ensures DecodeLoop(d, remaining, true, cursor, channels) == DecodeLoop(d, remaining, false, cursor, channels)
    ensures var r := DecodeLoop(d, remaining, true, cursor, channels);
      var n := MinNat(remaining, |d.frames| - d.pos);
      r.played == d.frames[d.pos..d.pos + n] && r.decoder.pos == d.pos + n
      && (r.paused <==> remaining > |d.frames| - d.pos)
    decreases remaining
  {
    var res := DecoderRead(d, remaining);
    if remaining > 0 && res.count > 0 {
      var d1 := d.(pos := d.pos + res.count);
      DecodeLoopEndStatusStops(d1, remaining - res.count, cursor + res.count, channels);
    }
    DecodeLoopToEnd(d, remaining, cursor, channels);
  }

  /** A failing decoder pauses at once and reads nothing. */
  lemma DecodeLoopFails(d: Decoder, remaining: nat, loop: bool, cursor: nat, channels: nat)
    requires DecoderInv(d, channels) && channels >= 1 && d.failed && remaining > 0
    ensures DecodeLoop(d, remaining, loop, cursor, channels) == Pulled([], [], d, cursor, true)
  {
  }

  // ---------------------------------------------------------------------
  // The callback.

  /** While paused the callback outputs silence and changes nothing. */
  lemma PausedCallbackIsSilent(p: Player, frameCount: nat, sin: real -> real)
    requires PlayerInv(p) && p.paused
    ensures HandleCallback(p, frameCount, sin).after == p
    ensures HandleCallback(p, frameCount, sin).output == Zeros(frameCount * p.channels)
  {
  }

  /** When playing from the decoder, the device receives the frames played
      followed by silence, and each sample pushed to the ring is the
      channel average of one of those frames. */
  lemma DecoderCallbackLayout(p: Player, frameCount: nat)
    requires PlayerInv(p) && p.decoderInit && Finite(p.decoder, p.loop)
    ensures var c := DecoderCallback(p, frameCount);
      var pulled := DecodeLoop(p.decoder, frameCount, p.loop, p.cursorFrames, p.channels);
      var out := Flatten(pulled.played);
      |c.output| == frameCount * p.channels && |out| == |pulled.played| * p.channels
      && |out| <= |c.output| && c.output[..|out|] == out
      && (forall i :: |out| <= i < |c.output| ==> c.output[i] == 0.0)
      && c.after.ring.contents == Write(p.ring, MonoMix(pulled.played, p.channels)).contents
      && c.after.paused == pulled.paused
  {
    var pulled := DecodeLoop(p.decoder, frameCount, p.loop, p.cursorFrames, p.channels);
    var out := Flatten(pulled.played);
    var n := frameCount * p.channels;
    FlattenLength(pulled.played, p.channels);
    MulLeNat(|pulled.played|, frameCount, p.channels);
    assert |out| <= n;
    var c := DecoderCallback(p, frameCount);
    assert c.output == out + Zeros(n - |out|);
    assert c.output[..|out|] == out;
    assert c.after.ring == PushChunks(p.ring, pulled.chunks, p.channels);
    DecodeLoopPushesMono(p.ring, p.decoder, frameCount, p.loop, p.cursorFrames, p.channels);
  }

  /** In the sine fallback every channel of frame `i` carries the tone
      sample `sin(phase_i)`, and the ring receives those samples. */
  lemma SineCallbackLayout(p: Player, frameCount: nat, sin: real -> real, i: nat, c: nat)
    requires PlayerInv(p) && i < frameCount && c < p.channels
    ensures var cb := SineCallback(p, frameCount, sin);
      var phase := PhaseAt(p.sinePhase, SineStep(p.sampleRate), i);
      |cb.output| == frameCount * p.channels && i * p.channels + c < |cb.output|
      && cb.output[i * p.channels + c] == sin(phase)
      && cb.after.ring == Write(p.ring, SineTone(sin, p.sinePhase, SineStep(p.sampleRate), frameCount))
      && cb.after.cursorFrames == p.cursorFrames + frameCount
  {
    var tone := SineTone(sin, p.sinePhase, SineStep(p.sampleRate), frameCount);
    var frames := ToneFrames(tone, p.channels);
    FlattenLength(frames, p.channels);
    FlattenIndex(frames, p.channels, i, c);
    assert frames[i][c] == tone[i];
  }

  /** The callback dispatches on the flags: paused, sine fallback, decoder. */
  lemma CallbackDispatch(p: Player, frameCount: nat, sin: real -> real)
    requires PlayerInv(p) && CallbackFinite(p)
    ensures !p.paused && (p.useSine || !p.decoderInit) ==>
      HandleCallback(p, frameCount, sin) == SineCallback(p, frameCount, sin)
    ensures !p.paused && !p.useSine && p.decoderInit ==>
      HandleCallback(p, frameCount, sin) == DecoderCallback(p, frameCount)
  {
  }
}
