/** The RIFF/WAVE PCM16 file format as read by `AudioInput::loadAudioFile`
    (`Apps/VolumeFX/AudioInput.cpp`): the header, the walk over chunks, the
    checks on the `fmt ` chunk, and the envelope follower over the samples.
    Everything here is a function of the file's bytes; the class that reads
    a file with loops lives in `VolumeFxAudio`. */
module WavFormat {
  import opened Common

  type Byte = b: int | 0 <= b < 256

  const Riff: seq<Byte> := [82, 73, 70, 70]    // "RIFF"
  const Wave: seq<Byte> := [87, 65, 86, 69]    // "WAVE"
  const FmtId: seq<Byte> := [102, 109, 116, 32] // "fmt "
  const DataId: seq<Byte> := [100, 97, 116, 97] // "data"

  /** A chunk header: a four-byte identifier and a little-endian size. */
  const ChunkHeaderSize: nat := 8
  /** `sizeof(FmtChunkData)`: the part of a `fmt ` chunk that is kept. */
  const FmtFieldsSize: nat := 16
  /** "RIFF", the RIFF size and "WAVE". */
  const RiffHeaderSize: nat := 12

  const Attack: real := 0.35
  const Release: real := 0.08

  // ---------------------------------------------------------------------
  // Little-endian integers

  function Le16Value(s: seq<Byte>): (v: nat)
    requires |s| == 2
    ensures v < 0x1_0000
  {
    s[0] as int + 256 * (s[1] as int)
  }

  function Le32Value(s: seq<Byte>): (v: nat)
    requires |s| == 4
    ensures v < 0x1_0000_0000
  {
    s[0] as int + 256 * (s[1] as int) + 0x1_0000 * (s[2] as int) + 0x100_0000 * (s[3] as int)
  }

  function Le16(v: nat): (s: seq<Byte>)
    requires v < 0x1_0000
    ensures |s| == 2 && Le16Value(s) == v
  {
    [v % 256, v / 256]
  }

  function Le32(v: nat): (s: seq<Byte>)
    requires v < 0x1_0000_0000
    ensures |s| == 4 && Le32Value(s) == v
  {
    var a := v / 256;
    var b := a / 256;
    assert b == v / 0x1_0000;
    assert b / 256 == v / 0x100_0000;
    [v % 256, a % 256, b % 256, b / 256]
  }

  /** The unsigned 16-bit field at byte offset i. */
  function U16At(b: seq<Byte>, i: nat): nat
    requires i + 2 <= |b|
  {
    Le16Value(b[i..i + 2])
  }

  /** The unsigned 32-bit field at byte offset i. */
  function U32At(b: seq<Byte>, i: nat): nat
    requires i + 4 <= |b|
  {
    Le32Value(b[i..i + 4])
  }

  /** The `int16_t` sample at byte offset i (two's complement). */
  function S16At(b: seq<Byte>, i: nat): (v: int)
    requires i + 2 <= |b|
    ensures -32768 <= v <= 32767
  {
    var u := U16At(b, i);
    if u >= 0x8000 then u - 0x1_0000 else u
  }

  // ---------------------------------------------------------------------
  // The fmt chunk

  /** `FmtChunkData`: the first 16 bytes of a `fmt ` chunk. */
  datatype Fmt = Fmt(audioFormat: nat, numChannels: nat, sampleRate: nat,
                     byteRate: nat, blockAlign: nat, bitsPerSample: nat)

  /** `FmtChunkData fmt {}`: all fields zero until a `fmt ` chunk is read. */
  const NoFmt: Fmt := Fmt(0, 0, 0, 0, 0, 0)

  /** `memcpy(&fmt, buffer, 16)`: the fields at their offsets. */
  function DecodeFmt(b: seq<Byte>, i: nat): (f: Fmt)
    requires i + FmtFieldsSize <= |b|
    ensures FmtFits(f)
  {
    Fmt(U16At(b, i), U16At(b, i + 2), U32At(b, i + 4), U32At(b, i + 8), U16At(b, i + 12), U16At(b, i + 14))
  }

  /** Every field fits its width in `FmtChunkData`. */
  predicate FmtFits(f: Fmt)
  {
    f.audioFormat < 0x1_0000 && f.numChannels < 0x1_0000 && f.sampleRate < 0x1_0000_0000
    && f.byteRate < 0x1_0000_0000 && f.blockAlign < 0x1_0000 && f.bitsPerSample < 0x1_0000
  }

  function EncodeFmt(f: Fmt): (s: seq<Byte>)
    requires FmtFits(f)
    ensures |s| == FmtFieldsSize
  {
    Le16(f.audioFormat) + Le16(f.numChannels) + Le32(f.sampleRate) + Le32(f.byteRate)
      + Le16(f.blockAlign) + Le16(f.bitsPerSample)
  }

  /** Decoding reads back every field that encoding wrote. */
  lemma DecodeEncodeFmt(f: Fmt, pre: seq<Byte>, rest: seq<Byte>)
    requires FmtFits(f)
    ensures DecodeFmt(pre + EncodeFmt(f) + rest, |pre|) == f
  {
    var b := pre + EncodeFmt(f) + rest;
    var i := |pre|;
    assert b[i..i + 2] == Le16(f.audioFormat);
    assert b[i + 2..i + 4] == Le16(f.numChannels);
    assert b[i + 4..i + 8] == Le32(f.sampleRate);
    assert b[i + 8..i + 12] == Le32(f.byteRate);
    assert b[i + 12..i + 14] == Le16(f.blockAlign);
    assert b[i + 14..i + 16] == Le16(f.bitsPerSample);
  }

  // ---------------------------------------------------------------------
  // Errors, in the order the reader checks them

  datatype LoadError =
    | CannotOpen        // "Unable to open audio file."
    | MissingRiff       // "Invalid WAV: missing RIFF header."
    | TruncatedSize     // "Invalid WAV: truncated size."
    | MissingWave       // "Invalid WAV: missing WAVE tag."
    | TruncatedFmt      // "Invalid WAV: truncated fmt chunk."
    | FmtTooSmall       // "Invalid WAV: fmt chunk too small."
    | TruncatedData     // "Invalid WAV: truncated data chunk."
    | MissingChunk      // "Invalid WAV: missing fmt or data chunk."
    | NotPcm16          // "Only PCM16 WAV files are supported."
    | BadChannels       // "Invalid WAV: unsupported channel configuration."
    | ZeroBytesPerSample // "Invalid WAV: zero bytes per sample."
    | NoSamples         // "Audio file contains no samples."

  // ---------------------------------------------------------------------
  // The chunk walk

  /** What the chunk loop leaves behind: an error, or the last `fmt ` seen
      (if any) and the first `data` chunk (if the loop reached one). */
  datatype Chunks = ChunkError(err: LoadError) | Chunks(fmt: Fmt, fmtFound: bool, data: Option<seq<Byte>>)

  /** A chunk's size rounded up to even: the pad byte after an odd size. */
  function Padded(size: nat): nat
  {
    if size % 2 == 1 then size + 1 else size
  }

  /** The chunk loop from byte offset `pos`. A header that does not fit ends
      the walk; a `fmt ` chunk is read whole and its first 16 bytes kept; the
      first `data` chunk is read whole and ends the walk; any other chunk is
      skipped by its size. After `fmt ` and skipped chunks an odd size skips
      one pad byte. Skipping may move past the end of the file, after which
      no header fits. */
  function WalkChunks(b: seq<Byte>, pos: nat, fmt: Fmt, fmtFound: bool): (r: Chunks)
    ensures r.Chunks? && fmtFound ==> r.fmtFound
    ensures r.Chunks? && !r.fmtFound ==> !fmtFound && r.fmt == fmt
    ensures r.Chunks? && r.data.Some? ==> |r.data.value| <= |b|
    decreases |b| - pos
  {
    if pos + ChunkHeaderSize > |b| then Chunks(fmt, fmtFound, None)
    else
      var id := b[pos..pos + 4];
      var size := U32At(b, pos + 4);
      var body := pos + ChunkHeaderSize;
      if id == FmtId then
        if size > 0 && body + size > |b| then ChunkError(TruncatedFmt)
        else if size < FmtFieldsSize then ChunkError(FmtTooSmall)
        else WalkChunks(b, body + Padded(size), DecodeFmt(b, body), true)
      else if id == DataId then
        if size > 0 && body + size > |b| then ChunkError(TruncatedData)
        else Chunks(fmt, fmtFound, Some(b[body..body + size]))
      else WalkChunks(b, body + Padded(size), fmt, fmtFound)
  }

  /** The outcome of reading a file. */
  datatype Parsed = Failed(err: LoadError) | Decoded(fmt: Fmt, data: seq<Byte>)

  /** `bitsPerSample / 8`. */
  function BytesPerSample(f: Fmt): nat
  {
    f.bitsPerSample / 8
  }

  /** The checks after the chunk loop, in the reader's order. */
  function Validate(fmt: Fmt, fmtFound: bool, data: Option<seq<Byte>>): (r: Parsed)
    ensures r.Decoded? <==> (fmtFound && data.Some? && fmt.audioFormat == 1 && fmt.bitsPerSample == 16
      && fmt.numChannels != 0 && fmt.blockAlign != 0 && fmt.sampleRate != 0 && |data.value| >= 2)
    ensures r.Decoded? ==> r.fmt == fmt && r.data == data.value
  {
    if !fmtFound || data.None? then Failed(MissingChunk)
    else if fmt.audioFormat != 1 || fmt.bitsPerSample != 16 then Failed(NotPcm16)
    else if fmt.numChannels == 0 || fmt.blockAlign == 0 || fmt.sampleRate == 0 then Failed(BadChannels)
    else if BytesPerSample(fmt) == 0 then Failed(ZeroBytesPerSample)
    else if |data.value| / BytesPerSample(fmt) == 0 then Failed(NoSamples)
    else Decoded(fmt, data.value)
  }

  /** The header checks, the chunk walk and the format checks of
      `loadAudioFile`, over the file's bytes. */
  function Parse(b: seq<Byte>): (r: Parsed)
    ensures r.Decoded? ==> |b| >= RiffHeaderSize && b[..4] == Riff && b[8..12] == Wave
    ensures |b| < 4 || b[..4] != Riff ==> r == Failed(MissingRiff)
    ensures r.Decoded? ==> (r.fmt.audioFormat == 1 && r.fmt.bitsPerSample == 16 && r.fmt.numChannels > 0
      && r.fmt.blockAlign > 0 && r.fmt.sampleRate > 0 && |r.data| >= 2)
  {
    if |b| < 4 || b[..4] != Riff then Failed(MissingRiff)
    else if |b| < 8 then Failed(TruncatedSize)
    else if |b| < RiffHeaderSize || b[8..12] != Wave then Failed(MissingWave)
    else
      match WalkChunks(b, RiffHeaderSize, NoFmt, false)
      case ChunkError(e) => Failed(e)
      case Chunks(fmt, found, data) => Validate(fmt, found, data)
  }

  // ---------------------------------------------------------------------
  // Writing files, and reading them back

  /** A chunk as it is laid out in a file, with its pad byte. */
  function ChunkBytes(id: seq<Byte>, payload: seq<Byte>): (s: seq<Byte>)
    requires |id| == 4 && |payload| < 0x1_0000_0000
    ensures |s| == ChunkHeaderSize + Padded(|payload|)
  {
    id + Le32(|payload|) + payload + (if |payload| % 2 == 1 then [0] else [])
  }

  /** Where a chunk starts, its identifier and size read back. */
  lemma ChunkHeaderAt(pre: seq<Byte>, id: seq<Byte>, payload: seq<Byte>, rest: seq<Byte>)
    requires |id| == 4 && |payload| < 0x1_0000_0000
    ensures var b := pre + ChunkBytes(id, payload) + rest;
      var i := |pre|;
      i + ChunkHeaderSize + |payload| <= |b| && b[i..i + 4] == id && U32At(b, i + 4) == |payload|
      && b[i + ChunkHeaderSize..i + ChunkHeaderSize + |payload|] == payload
  {
    var b := pre + ChunkBytes(id, payload) + rest;
    var i := |pre|;
    assert b[i..i + 4] == id;
    assert b[i + 4..i + 8] == Le32(|payload|);
    assert b[i + ChunkHeaderSize..i + ChunkHeaderSize + |payload|] == payload;
  }

  /** A chunk that is neither `fmt ` nor `data` is skipped, pad byte and all. */
  lemma SkipsOtherChunk(pre: seq<Byte>, id: seq<Byte>, payload: seq<Byte>, rest: seq<Byte>, fmt: Fmt, found: bool)
    requires |id| == 4 && id != FmtId && id != DataId && |payload| < 0x1_0000_0000
    ensures var b := pre + ChunkBytes(id, payload) + rest;
      WalkChunks(b, |pre|, fmt, found) == WalkChunks(b, |pre + ChunkBytes(id, payload)|, fmt, found)
  {
    ChunkHeaderAt(pre, id, payload, rest);
    WalkSkips(pre + ChunkBytes(id, payload) + rest, |pre|, |payload|, |pre + ChunkBytes(id, payload)|, fmt, found);
  }

  /** One step of the chunk walk over a chunk it does not know: from `i`
      it goes on at `j`, past the header and the padded payload. */
  lemma WalkSkips(b: seq<Byte>, i: nat, size: nat, j: nat, fmt: Fmt, found: bool)
    requires i + ChunkHeaderSize <= |b| && b[i..i + 4] != FmtId && b[i..i + 4] != DataId
    requires U32At(b, i + 4) == size && j == i + ChunkHeaderSize + Padded(size)
    ensures WalkChunks(b, i, fmt, found) == WalkChunks(b, j, fmt, found)
  {
  }

  /** One step of the walk over a `fmt ` header whose body fits and holds
      the format fields. */
  lemma WalkFmt(b: seq<Byte>, i: nat, size: nat, j: nat, fmt: Fmt, found: bool)
    requires i + ChunkHeaderSize <= |b| && b[i..i + 4] == FmtId && U32At(b, i + 4) == size
    requires !(size > 0 && i + ChunkHeaderSize + size > |b|) && size >= FmtFieldsSize
    requires j == i + ChunkHeaderSize + Padded(size)
    ensures WalkChunks(b, i, fmt, found) == WalkChunks(b, j, DecodeFmt(b, i + ChunkHeaderSize), true)
  {
  }

  /** A well-formed `fmt ` chunk is taken in and the walk goes on after it. */
  lemma ReadsFmtChunk(pre: seq<Byte>, f: Fmt, rest: seq<Byte>, fmt: Fmt, found: bool)
    requires FmtFits(f)
    ensures var b := pre + ChunkBytes(FmtId, EncodeFmt(f)) + rest;
      WalkChunks(b, |pre|, fmt, found) == WalkChunks(b, |pre + ChunkBytes(FmtId, EncodeFmt(f))|, f, true)
  {
    var payload := EncodeFmt(f);
    var b := pre + ChunkBytes(FmtId, payload) + rest;
    ChunkHeaderAt(pre, FmtId, payload, rest);
    assert b == (pre + FmtId + Le32(16)) + payload + ([] + rest);
    DecodeEncodeFmt(f, pre + FmtId + Le32(16), [] + rest);
  }

  /** The first `data` chunk ends the walk; what follows it is never read. */
  lemma StopsAtDataChunk(b: seq<Byte>, pre: seq<Byte>, data: seq<Byte>, rest: seq<Byte>, fmt: Fmt, found: bool)
    requires |data| < 0x1_0000_0000 && b == pre + ChunkBytes(DataId, data) + rest
    ensures WalkChunks(b, |pre|, fmt, found) == Chunks(fmt, found, Some(data))
  {
    var i := |pre|;
    var size := U32At(b, i + 4);
    assert i + ChunkHeaderSize + size <= |b| && b[i..i + 4] == DataId && size == |data|
      && b[i + ChunkHeaderSize..i + ChunkHeaderSize + size] == data by {
      ChunkHeaderAt(pre, DataId, data, rest);
    }
    WalkAtData(b, i, fmt, found);
  }

  lemma WalkAtData(b: seq<Byte>, pos: nat, fmt: Fmt, found: bool)
    requires pos + ChunkHeaderSize <= |b| && b[pos..pos + 4] == DataId
    requires pos + ChunkHeaderSize + U32At(b, pos + 4) <= |b|
    ensures WalkChunks(b, pos, fmt, found)
      == Chunks(fmt, found, Some(b[pos + ChunkHeaderSize..pos + ChunkHeaderSize + U32At(b, pos + 4)]))
  {
    assert b[pos..pos + 4][0] != FmtId[0];
  }

  /** A file with one `fmt ` and one `data` chunk, optionally preceded by a
      chunk of another kind, and followed by anything. The RIFF size field is
      written but never read. */
  function EncodeWav(f: Fmt, extraId: seq<Byte>, extra: seq<Byte>, data: seq<Byte>, trailer: seq<Byte>): seq<Byte>
    requires FmtFits(f) && |extraId| == 4 && |extra| < 0x1_0000_0000 && |data| < 0x1_0000_0000
  {
    var riffSize := (4 + |data|) % 0x1_0000_0000;
    Riff + Le32(riffSize) + Wave
      + ChunkBytes(extraId, extra) + ChunkBytes(FmtId, EncodeFmt(f)) + ChunkBytes(DataId, data) + trailer
  }

  /** Round trip: reading a written file finds its format and samples, and
      passes them to the format checks; a leading chunk of another kind,
      odd-sized or not, and any bytes after the `data` chunk change nothing. */
  lemma ParseEncodeWav(f: Fmt, extraId: seq<Byte>, extra: seq<Byte>, data: seq<Byte>, trailer: seq<Byte>)
    requires FmtFits(f) && |extraId| == 4 && extraId != FmtId && extraId != DataId
    requires |extra| < 0x1_0000_0000 && |data| < 0x1_0000_0000
    ensures Parse(EncodeWav(f, extraId, extra, data, trailer)) == Validate(f, true, Some(data))
  {
    var riffSize := (4 + |data|) % 0x1_0000_0000;
    var head := Riff + Le32(riffSize) + Wave;
    var c1 := ChunkBytes(extraId, extra);
    var c2 := ChunkBytes(FmtId, EncodeFmt(f));
    var c3 := ChunkBytes(DataId, data);
    var b := EncodeWav(f, extraId, extra, data, trailer);
    assert b == head + c1 + (c2 + c3 + trailer);
    assert b == (head + c1) + c2 + (c3 + trailer);
    assert b == (head + c1 + c2) + c3 + trailer;
    assert b[..4] == Riff && b[8..12] == Wave;
    SkipsOtherChunk(head, extraId, extra, c2 + c3 + trailer, NoFmt, false);
    ReadsFmtChunk(head + c1, f, c3 + trailer, NoFmt, false);
    StopsAtDataChunk(b, head + c1 + c2, data, trailer, f, true);
    assert WalkChunks(b, |head|, NoFmt, false) == Chunks(f, true, Some(data));
    ParseAfterHeader(b, f, true, Some(data));
  }

  /** A file with both RIFF tags is judged by the chunk walk after them. */
  lemma ParseAfterHeader(b: seq<Byte>, fmt: Fmt, found: bool, data: Option<seq<Byte>>)
    requires |b| >= RiffHeaderSize && b[..4] == Riff && b[8..12] == Wave
    requires WalkChunks(b, RiffHeaderSize, NoFmt, false) == Chunks(fmt, found, data)
    ensures Parse(b) == Validate(fmt, found, data)
  {
  }

  /** A PCM16 file with a valid channel layout and at least one sample reads
      back exactly; with any other format tag or sample width it is refused
      as not PCM16. */
  lemma ParseEncodePcm16(f: Fmt, extraId: seq<Byte>, extra: seq<Byte>, data: seq<Byte>, trailer: seq<Byte>)
    requires FmtFits(f) && |extraId| == 4 && extraId != FmtId && extraId != DataId
    requires |extra| < 0x1_0000_0000 && |data| < 0x1_0000_0000
    ensures (f.audioFormat == 1 && f.bitsPerSample == 16 && f.numChannels > 0 && f.blockAlign > 0
      && f.sampleRate > 0 && |data| >= 2) ==> Parse(EncodeWav(f, extraId, extra, data, trailer)) == Decoded(f, data)
    ensures f.audioFormat != 1 || f.bitsPerSample != 16 ==>
      Parse(EncodeWav(f, extraId, extra, data, trailer)) == Failed(NotPcm16)
    ensures (f.audioFormat == 1 && f.bitsPerSample == 16 && |data| < 2 && f.numChannels > 0 && f.blockAlign > 0
      && f.sampleRate > 0) ==> Parse(EncodeWav(f, extraId, extra, data, trailer)) == Failed(NoSamples)
  {
    ParseEncodeWav(f, extraId, extra, data, trailer);
  }

  /** A file whose walk meets a `data` chunk before any `fmt ` chunk is
      refused: the walk stops at the first `data` chunk. */
  lemma DataBeforeFmtRefused(pre: seq<Byte>, data: seq<Byte>, rest: seq<Byte>)
    requires |data| < 0x1_0000_0000
    ensures var b := Riff + Le32(0) + Wave + ChunkBytes(DataId, data) + rest;
      Parse(b) == Failed(MissingChunk)
  {
    var head := Riff + Le32(0) + Wave;
    var b := head + ChunkBytes(DataId, data) + rest;
    assert b[..4] == Riff && b[8..12] == Wave;
    StopsAtDataChunk(b, head, data, rest, NoFmt, false);
  }

  // ---------------------------------------------------------------------
  // Samples and the envelope follower

  /** `totalSamples`: whole 16-bit samples in the data chunk. */
  function TotalSamples(data: seq<Byte>): (n: nat)
    ensures 2 * n <= |data| < 2 * n + 2
  {
    |data| / 2
  }

  /** `frameCount`: whole frames of `channels` samples. */
  function FrameCount(data: seq<Byte>, channels: nat): (n: nat)
    requires channels > 0
    ensures n * channels <= TotalSamples(data) < (n + 1) * channels
  {
    var total := TotalSamples(data);
    assert total == channels * (total / channels) + total % channels;
    total / channels
  }

  /** The sum over the first c channels of a frame; a sample index past the
      end stops the sum (the reader's `break`). */
  function FrameSum(data: seq<Byte>, channels: nat, frame: nat, c: nat): (s: int)
    ensures -32768 * c <= s <= 32767 * c
  {
    if c == 0 then 0
    else
      var idx := frame * channels + (c - 1);
      FrameSum(data, channels, frame, c - 1) + (if idx >= TotalSamples(data) then 0 else S16At(data, 2 * idx))
  }

  /** Once the sample index passes the end, the rest of the frame adds nothing. */
  lemma {:induction false} FrameSumStops(data: seq<Byte>, channels: nat, frame: nat, c: nat, d: nat)
    requires c <= d && frame * channels + c >= TotalSamples(data)
    ensures FrameSum(data, channels, frame, d) == FrameSum(data, channels, frame, c)
    decreases d
  {
    if d > c {
      FrameSumStops(data, channels, frame, c, d - 1);
    }
  }

  /** `|mono|` of a frame: the channel average scaled to [-1, 1]. */
  function Magnitude(data: seq<Byte>, channels: nat, frame: nat): (m: real)
    requires channels > 0
    ensures 0.0 <= m <= 1.0
  {
    var s := FrameSum(data, channels, frame, channels);
    var scale := 32768.0 * channels as real;
    MonoInRange(s, scale);
    AbsReal(s as real / scale)
  }

  /** A sum of c samples over 32768 * c lies in [-1, 1]. */
  lemma MonoInRange(s: int, scale: real)
    requires scale > 0.0 && -scale <= s as real <= scale
    ensures AbsReal(s as real / scale) <= 1.0
  {
    if s >= 0 {
      RatioInUnit(s as real, scale);
    } else {
      RatioInUnit(-s as real, scale);
      assert s as real / scale == -((-s as real) / scale);
    }
  }

  /** One step of the follower: rise fast toward a louder frame, fall slowly. */
  function EnvStep(env: real, magnitude: real): (e: real)
    ensures MinReal(env, magnitude) <= e <= MaxReal(env, magnitude)
    ensures magnitude > env ==> env < e
    ensures magnitude < env ==> e < env
    ensures magnitude == env ==> e == env
  {
    var rate := if magnitude > env then Attack else Release;
    LerpBetween(env, magnitude, rate);
    Lerp(env, magnitude, rate)
  }

  /** The first n envelope values; the follower starts at 0. */
  function Envelope(data: seq<Byte>, channels: nat, n: nat): (e: seq<real>)
    requires channels > 0
    ensures |e| == n
    ensures forall k :: 0 <= k < n ==> 0.0 <= e[k] <= 1.0
  {
    if n == 0 then []
    else
      var prev := Envelope(data, channels, n - 1);
      var env := if n == 1 then 0.0 else prev[n - 2];
      var m := Magnitude(data, channels, n - 1);
      LerpBetween(env, m, if m > env then Attack else Release);
      prev + [EnvStep(env, m)]
  }

  /** The value before frame k: 0 for the first frame. */
  function Previous(e: seq<real>, k: nat): real
    requires k <= |e|
  {
    if k == 0 then 0.0 else e[k - 1]
  }

  /** Each value moves from the previous one toward the frame's magnitude by
      the attack coefficient when the frame is louder and by the release
      coefficient otherwise, so it lies between the two. */
  lemma {:induction false} EnvelopeFollows(data: seq<Byte>, channels: nat, n: nat, k: nat)
    requires channels > 0 && k < n
    ensures var e := Envelope(data, channels, n);
      var m := Magnitude(data, channels, k);
      e[k] == Lerp(Previous(e, k), m, if m > Previous(e, k) then Attack else Release)
      && MinReal(Previous(e, k), m) <= e[k] <= MaxReal(Previous(e, k), m)
    decreases n
  {
    var e := Envelope(data, channels, n);
    if k < n - 1 {
      EnvelopeFollows(data, channels, n - 1, k);
      EnvelopePrefix(data, channels, n - 1, n);
    } else {
      var prev := Envelope(data, channels, n - 1);
      assert Previous(e, k) == (if n == 1 then 0.0 else prev[n - 2]);
      LerpBetween(Previous(e, k), Magnitude(data, channels, k), if Magnitude(data, channels, k) > Previous(e, k) then Attack else Release);
    }
  }

  /** A longer envelope extends a shorter one. */
  lemma {:induction false} EnvelopePrefix(data: seq<Byte>, channels: nat, n: nat, m: nat)
    requires channels > 0 && n <= m
    ensures Envelope(data, channels, m)[..n] == Envelope(data, channels, n)
    decreases m
  {
    if n < m {
      EnvelopePrefix(data, channels, n, m - 1);
      assert Envelope(data, channels, m)[..m - 1] == Envelope(data, channels, m - 1);
    } else {
      assert Envelope(data, channels, m)[..n] == Envelope(data, channels, m);
    }
  }

  /** Silence gives a silent envelope. */
  lemma {:induction false} SilentEnvelope(data: seq<Byte>, channels: nat, n: nat)
    requires channels > 0
    requires forall k :: 0 <= k < n ==> Magnitude(data, channels, k) == 0.0
    ensures forall k :: 0 <= k < n ==> Envelope(data, channels, n)[k] == 0.0
    decreases n
  {
    if n > 0 {
      SilentEnvelope(data, channels, n - 1);
      var e := Envelope(data, channels, n);
      assert e[..n - 1] == Envelope(data, channels, n - 1);
    }
  }
}
