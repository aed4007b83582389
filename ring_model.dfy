/** The analysis ring buffer of AudioFilePlayer as a value: a capacity, the
    two unbounded cursors, the three diagnostic counters and the samples
    between the cursors, oldest first. Each function is one ring operation;
    the class in audio_file_player.dfy is proved to perform exactly these
    transitions on its array. */
module RingModel {
  import opened Common

  /** The smallest capacity ResetRing allocates. */
  const MinCapacity: nat := 1024
  /** 2^32: `sampleRate * kRingSeconds` is a product of two `uint32_t`. */
  const U32: nat := 0x1_0000_0000

  datatype RingState = RingState(
    capacity: nat,
    read: nat,
    write: nat,
    overrunWrites: nat,
    droppedSamples: nat,
    underrunReads: nat,
    contents: seq<real>)

  /** The ring invariant: `0 <= write - read <= capacity`, and the samples
      between the cursors are exactly `contents`. */
  predicate Inv(r: RingState)
  {
    r.read <= r.write && r.write - r.read <= r.capacity && |r.contents| == r.write - r.read
  }

  /** RingReadable: how many samples lie between the cursors. */
  function Readable(r: RingState): (n: nat)
    requires Inv(r)
    ensures n == |r.contents| && n <= r.capacity
  {
    r.write - r.read
  }

  /** The last `k` elements of `s`. */
  function Newest(s: seq<real>, k: nat): (t: seq<real>)
    requires k <= |s|
    ensures |t| == k
    ensures forall i :: 0 <= i < k ==> t[i] == s[|s| - k + i]
  {
    s[|s| - k..]
  }

  function Zeros(n: nat): (z: seq<real>)
    ensures |z| == n && forall i :: 0 <= i < n ==> z[i] == 0.0
  {
    seq(n, _ => 0.0)
  }

  /** `sampleRate * kRingSeconds` in 32-bit unsigned arithmetic; the ring
      holds four seconds of mono audio. */
  function WrappedProduct(sampleRate: nat): (w: nat)
    requires sampleRate < U32
    ensures w < U32 && (4 * sampleRate < U32 ==> w == 4 * sampleRate)
  {
    var product := 4 * sampleRate;
    if product < U32 then product
    else if product < 2 * U32 then product - U32
    else if product < 3 * U32 then product - 2 * U32
    else product - 3 * U32
  }

  lemma WrappedProductIsModulo(sampleRate: nat)
    requires sampleRate < U32
    ensures WrappedProduct(sampleRate) == (4 * sampleRate) % U32
  {
    var product := 4 * sampleRate;
    var q := if product < U32 then 0 else if product < 2 * U32 then 1 else if product < 3 * U32 then 2 else 3;
    ModUnique(product, q, WrappedProduct(sampleRate), U32);
  }

  /** The capacity ResetRing chooses for a sample rate: the wrapped product,
      but never less than 1024. */
  function RingCapacity(sampleRate: nat): (c: nat)
    requires sampleRate < U32
    ensures c >= MinCapacity
    ensures 4 * sampleRate < U32 ==> c >= 4 * sampleRate
  {
    var product := WrappedProduct(sampleRate);
    if product >= MinCapacity then product else MinCapacity
  }

  /** The capacity is `max(uint32(4 * sampleRate), 1024)`; a rate of 2^30 Hz
      or more wraps the product. */
  lemma RingCapacityIsMaxOfWrapped(sampleRate: nat)
    requires sampleRate < U32
    ensures RingCapacity(sampleRate) == MaxInt((4 * sampleRate) % U32, MinCapacity)
  {
    WrappedProductIsModulo(sampleRate);
  }

  /** ResetRing: a fresh, empty ring with all counters at zero. */
  function Reset(sampleRate: nat): (r: RingState)
    requires sampleRate < U32
  {
    RingState(RingCapacity(sampleRate), 0, 0, 0, 0, 0, [])
  }

  /** A reset ring is empty, with all counters at zero, and holds at least
      four seconds at rates whose product does not wrap. */
  lemma ResetIsEmpty(sampleRate: nat)
    requires sampleRate < U32
    ensures var r := Reset(sampleRate);
      Inv(r) && Readable(r) == 0 && r.capacity >= MinCapacity
      && r.overrunWrites == 0 && r.droppedSamples == 0 && r.underrunReads == 0
      && (4 * sampleRate < U32 ==> r.capacity >= 4 * sampleRate)
  {
  }

  /** How many of the oldest samples WriteRing overwrites when it stores
      `frames` new ones: the part of `min(frames, capacity)` that does not
      fit in the free space. */
  function Excess(r: RingState, frames: nat): (e: nat)
    requires Inv(r)
  {
    var toWrite := MinNat(frames, r.capacity);
    var free := r.capacity - Readable(r);
    if toWrite > free then toWrite - free else 0
  }

  /** WriteRing: keep the newest `capacity` samples of the old contents
      followed by the burst; count an overrun when old samples are lost. */
  function Write(r: RingState, s: seq<real>): (w: RingState)
    requires Inv(r)
    ensures Inv(w)
    ensures w.capacity == r.capacity && w.underrunReads == r.underrunReads
    ensures r.capacity == 0 || |s| == 0 ==> w == r
    ensures r.capacity > 0 && |s| > 0 ==>
      w.write == r.write + MinNat(|s|, r.capacity)
      && w.read == r.read + Excess(r, |s|)
      && w.droppedSamples == r.droppedSamples + Excess(r, |s|)
      && w.overrunWrites == r.overrunWrites + (if Excess(r, |s|) > 0 then 1 else 0)
      && w.contents == Newest(r.contents + s, MinNat(r.capacity, |r.contents| + |s|))
  {
    if r.capacity == 0 || |s| == 0 then r
    else
      WriteCounts(r, |s|);
      var e := Excess(r, |s|);
      r.(read := r.read + e,
         write := r.write + MinNat(|s|, r.capacity),
         overrunWrites := r.overrunWrites + (if e > 0 then 1 else 0),
         droppedSamples := r.droppedSamples + e,
         contents := Newest(r.contents + s, MinNat(r.capacity, |r.contents| + |s|)))
  }

  /** Whatever the burst and the capacity, the ring keeps the newest
      samples of the old contents followed by the burst, as many as fit. */
  lemma WriteContents(r: RingState, s: seq<real>)
    requires Inv(r)
    ensures Write(r, s).contents == Newest(r.contents + s, MinNat(r.capacity, |r.contents| + |s|))
  {
    if |s| == 0 {
      assert r.contents + s == r.contents;
    }
  }

  /** The cursor arithmetic of WriteRing: the overwritten samples are old
      ones, and the cursors end `min(capacity, readable + n)` apart. */
  lemma WriteCounts(r: RingState, n: nat)
    requires Inv(r) && r.capacity > 0 && n > 0
    ensures Excess(r, n) <= |r.contents|
    ensures (r.write + MinNat(n, r.capacity)) - (r.read + Excess(r, n)) == MinNat(r.capacity, |r.contents| + n)
  {
  }

  datatype Taken = Taken(count: nat, samples: seq<real>, after: RingState)

  /** ReadRing: take up to `maxSamples` of the oldest samples, in order. */
  function Read(r: RingState, maxSamples: nat): (t: Taken)
    requires Inv(r)
    ensures Inv(t.after) && t.count == |t.samples|
    ensures t.count <= maxSamples && t.count <= Readable(r)
    ensures t.samples == r.contents[..t.count] && t.after.contents == r.contents[t.count..]
    ensures t.after == r.(read := r.read + t.count, contents := r.contents[t.count..])
    ensures r.capacity > 0 ==> t.count == MinNat(maxSamples, Readable(r))
  {
    if r.capacity == 0 || maxSamples == 0 then Taken(0, [], r)
    else
      var n := MinNat(maxSamples, Readable(r));
      Taken(n, r.contents[..n], r.(read := r.read + n, contents := r.contents[n..]))
  }

  /** DiscardSamples: drop up to `count` of the oldest samples. */
  function Discard(r: RingState, count: nat): (d: RingState)
    requires Inv(r)
    ensures Inv(d)
    ensures d.read == r.read + MinNat(count, Readable(r)) && d.read <= d.write
    ensures d == r.(read := d.read, contents := r.contents[MinNat(count, Readable(r))..])
  {
    var n := MinNat(count, Readable(r));
    if count == 0 || n == 0 then r
    else r.(read := r.read + n, contents := r.contents[n..])
  }

  datatype Window = Window(count: nat, data: seq<real>, after: RingState)

  /** GetLatestWindow with a non-null destination: the number of samples
      copied, the `fftSize` values written to the destination, and the new
      state (only the underrun counter changes). */
  function LatestWindow(r: RingState, fftSize: nat, headroom: nat): (w: Window)
    requires Inv(r)
    ensures Inv(w.after)
    ensures fftSize == 0 || r.capacity == 0 ==> w == Window(0, [], r)
    ensures fftSize > 0 && r.capacity > 0 ==> |w.data| == fftSize
    ensures w.count <= fftSize && w.count <= Readable(r)
  {
    if fftSize == 0 || r.capacity == 0 then Window(0, [], r)
    else
      var available := MinNat(Readable(r), r.capacity);
      var target := MinNat(fftSize + headroom, r.capacity);
      var clamped := MinNat(available, target);
      var k := MinNat(fftSize, clamped);
      Window(k, Padded(r.contents, k, fftSize), r.(underrunReads := r.underrunReads + (fftSize - k)))
  }

  /** The last `k` elements of `s` followed by zeros, `n` values in all. */
  function Padded(s: seq<real>, k: nat, n: nat): (p: seq<real>)
    requires k <= |s| && k <= n
    ensures |p| == n
    ensures forall j :: 0 <= j < k ==> p[j] == s[|s| - k + j]
    ensures forall j :: k <= j < n ==> p[j] == 0.0
  {
    Newest(s, k) + Zeros(n - k)
  }

  // ---------------------------------------------------------------------
  // Properties of the ring operations.

  /** After a burst no longer than the capacity, the ring holds the old
      samples minus exactly the ones counted as dropped, then the burst. */
  lemma WriteDropsOldest(r: RingState, s: seq<real>)
    requires Inv(r) && 0 < |s| <= r.capacity
    ensures var w := Write(r, s);
      var dropped := w.droppedSamples - r.droppedSamples;
      dropped <= |r.contents|
      && w.contents == r.contents[dropped..] + s
      && w.read - r.read == dropped
      && (w.overrunWrites - r.overrunWrites == 1 <==> |r.contents| + |s| > r.capacity)
  {
    var w := Write(r, s);
    var e := Excess(r, |s|);
    var all := r.contents + s;
    var k := MinNat(r.capacity, |r.contents| + |s|);
    assert |all| - k == e;
    assert all[e..] == r.contents[e..] + s;
  }

  /** Where each stored sample comes from after a write: slot `i` of the
      new contents is at absolute position `w.read + i`; positions before
      the old write cursor hold old samples, the rest hold the stored tail
      of the burst. */
  lemma WriteContentsAt(r: RingState, s: seq<real>, w: RingState, i: nat)
    requires Inv(r) && r.capacity > 0 && |s| > 0 && w == Write(r, s)
    requires i < |w.contents|
    ensures var start := |s| - MinNat(|s|, r.capacity);
      w.read + i - r.write < MinNat(|s|, r.capacity)
      && (w.read + i < r.write ==> w.contents[i] == r.contents[w.read + i - r.read])
      && (w.read + i >= r.write ==> w.contents[i] == s[start + (w.read + i - r.write)])
  {
    var e, m := Excess(r, |s|), MinNat(|s|, r.capacity);
    WriteCounts(r, |s|);
    WriteContents(r, s);
    var all := r.contents + s;
    var k := MinNat(r.capacity, |r.contents| + |s|);
    var idx := |all| - k + i;
    assert w.contents[i] == all[idx];
    assert w.read == r.read + e && w.write == r.write + m;
    assert idx == e + (|s| - m) + i;
    if w.read + i < r.write {
      assert |s| == m && idx == w.read + i - r.read;
      assert all[idx] == r.contents[idx];
    } else {
      assert idx - |r.contents| == (|s| - m) + (w.read + i - r.write);
      assert all[idx] == s[idx - |r.contents|];
    }
  }

  /** The slots of a buffer of `capacity` slots hold `r.contents` at their
      absolute positions modulo the capacity. */
  ghost predicate Stored(r: RingState, a: seq<real>)
    requires Inv(r)
  {
    |a| == r.capacity > 0
    && forall q :: r.read <= q < r.write ==> a[q % r.capacity] == r.contents[q - r.read]
  }

  /** An empty ring is stored by any array of its (non-zero) capacity. */
  lemma EmptyStored(r: RingState, a: seq<real>)
    requires Inv(r) && r.read == r.write && |a| == r.capacity > 0
    ensures Stored(r, a)
  {
  }

  /** The slot-level effect of WriteRing: the burst's kept suffix lands at
      positions `write ..`, every surviving old sample keeps its slot, and
      then the buffer stores the ring Write returns. */
  lemma WriteStored(r: RingState, s: seq<real>, w: RingState, before: seq<real>, after: seq<real>)
    requires Inv(r) && |s| > 0 && Stored(r, before) && |after| == r.capacity && w == Write(r, s)
    requires forall q :: w.read <= q < r.write ==> after[q % r.capacity] == before[q % r.capacity]
    requires forall q :: r.write <= q < w.write ==>
      after[q % r.capacity] == s[|s| - MinNat(|s|, r.capacity) + (q - r.write)]
    ensures Stored(w, after)
  {
    forall q | w.read <= q < w.write
      ensures after[q % r.capacity] == w.contents[q - w.read]
    {
      if q < r.write {
        WriteSlot(r, s, w, before, after, q, before[q % r.capacity]);
      } else {
        WriteSlot(r, s, w, before, after, q, s[|s| - MinNat(|s|, r.capacity) + (q - r.write)]);
      }
    }
  }

  /** One position of WriteStored: `v`, the value the copy put in the slot
      of `q`, is a surviving old sample or a stored sample of the burst. */
  lemma WriteSlot(r: RingState, s: seq<real>, w: RingState, before: seq<real>, after: seq<real>, q: nat, v: real)
    requires Inv(r) && |s| > 0 && Stored(r, before) && |after| == r.capacity && w == Write(r, s)
    requires w.read <= q < w.write && after[q % r.capacity] == v
    requires q < r.write ==> v == before[q % r.capacity]
    requires q >= r.write ==> v == s[|s| - MinNat(|s|, r.capacity) + (q - r.write)]
    ensures v == w.contents[q - w.read]
  {
    WriteContentsAt(r, s, w, q - w.read);
    if q < r.write {
      SlotAt(r, before, q);
    }
  }

  /** ReadRing takes the samples from the slots after the read cursor and
      leaves the remaining ones where they are. */
  lemma ReadStored(r: RingState, maxSamples: nat, a: seq<real>)
    requires Inv(r) && Stored(r, a)
    ensures var t := Read(r, maxSamples);
      Stored(t.after, a)
      && forall j :: 0 <= j < t.count ==> t.samples[j] == a[(r.read + j) % r.capacity]
  {
    var t := Read(r, maxSamples);
    forall j | 0 <= j < t.count
      ensures t.samples[j] == a[(r.read + j) % r.capacity]
    {
      assert r.read <= r.read + j < r.write;
    }
  }

  /** DiscardSamples leaves the remaining samples where they are. */
  lemma DiscardStored(r: RingState, count: nat, a: seq<real>)
    requires Inv(r) && Stored(r, a)
    ensures Stored(Discard(r, count), a)
  {
  }

  /** One slot of a stored ring: absolute position q lives at q mod capacity. */
  lemma SlotAt(r: RingState, a: seq<real>, q: nat)
    requires Inv(r) && Stored(r, a) && r.read <= q < r.write
    ensures a[q % r.capacity] == r.contents[q - r.read]
  {
  }

  /** Storage depends only on the capacity, cursors and contents. */
  lemma StoredSameCursors(r: RingState, r': RingState, a: seq<real>)
    requires Inv(r) && Inv(r') && Stored(r, a)
    requires r'.capacity == r.capacity && r'.read == r.read && r'.write == r.write && r'.contents == r.contents
    ensures Stored(r', a)
  {
  }

  /** The shape of a latest window on a non-empty ring: padded newest
      samples, only the underrun counter changed. */
  lemma WindowShape(r: RingState, fftSize: nat, headroom: nat)
    requires Inv(r) && fftSize > 0 && r.capacity > 0
    ensures var w := LatestWindow(r, fftSize, headroom);
      w.after == r.(underrunReads := r.underrunReads + (fftSize - w.count))
      && w.data == Padded(r.contents, w.count, fftSize)
  {
  }

  /** The newest `k` samples of a stored ring are the `k` slots before the
      write cursor. */
  lemma NewestInSlots(r: RingState, a: seq<real>, k: nat, n: nat)
    requires Inv(r) && Stored(r, a) && k <= |r.contents| && k <= n
    ensures forall j :: 0 <= j < k ==> Padded(r.contents, k, n)[j] == a[(r.write - k + j) % r.capacity]
  {
    var p := Padded(r.contents, k, n);
    forall j | 0 <= j < k
      ensures p[j] == a[(r.write - k + j) % r.capacity]
    {
      SlotAt(r, a, r.write - k + j);
    }
  }

  /** GetLatestWindow copies the `count` slots before the write cursor. */
  lemma WindowStored(r: RingState, fftSize: nat, headroom: nat, a: seq<real>)
    requires Inv(r) && Stored(r, a) && fftSize > 0
    ensures var w := LatestWindow(r, fftSize, headroom);
      Stored(w.after, a)
      && forall j :: 0 <= j < w.count ==> w.data[j] == a[(r.write - w.count + j) % r.capacity]
  {
    var w := LatestWindow(r, fftSize, headroom);
    var k := w.count;
    WindowShape(r, fftSize, headroom);
    StoredSameCursors(r, w.after, a);
    assert k <= |r.contents|;
    NewestInSlots(r, a, k, fftSize);
    assert w.data == Padded(r.contents, k, fftSize);
  }

  /** The `k` slots of `a` before position `write`, oldest first. */
  ghost function SlotsBefore(a: seq<real>, write: nat, k: nat): (t: seq<real>)
    requires |a| > 0 && k <= write
    ensures |t| == k && forall j :: 0 <= j < k ==> t[j] == a[(write - k + j) % |a|]
  {
    seq(k, j requires 0 <= j < k => a[(write - k + j) % |a|])
  }

  /** GetLatestWindow reads the `count` slots before the write cursor and
      pads with zeros. */
  lemma WindowFromSlots(r: RingState, fftSize: nat, headroom: nat, a: seq<real>)
    requires Inv(r) && Stored(r, a) && fftSize > 0
    ensures var w := LatestWindow(r, fftSize, headroom);
      w.data == SlotsBefore(a, r.write, w.count) + Zeros(fftSize - w.count)
  {
    var w := LatestWindow(r, fftSize, headroom);
    var k := w.count;
    WindowStored(r, fftSize, headroom, a);
    assert w.data == Padded(r.contents, k, fftSize);
    var head := SlotsBefore(a, r.write, k);
    assert w.data[..k] == head;
    assert w.data[k..] == Zeros(fftSize - k);
    assert w.data == w.data[..k] + w.data[k..];
  }

  /** A burst longer than the capacity keeps only its last `capacity`
      samples; the skipped prefix is not counted in `droppedSamples`, only
      the old contents are. */
  lemma WriteLongBurst(r: RingState, s: seq<real>)
    requires Inv(r) && 0 < r.capacity < |s|
    ensures var w := Write(r, s);
      w.contents == s[|s| - r.capacity..]
      && w.droppedSamples - r.droppedSamples == |r.contents|
      && w.write - r.write == r.capacity
  {
    var all := r.contents + s;
    assert all[|all| - r.capacity..] == s[|s| - r.capacity..];
  }

  /** Every sample offered to WriteRing is kept, counted as dropped, or
      skipped silently; only a burst longer than the capacity skips any. */
  lemma WriteConservation(r: RingState, s: seq<real>)
    requires Inv(r)
    ensures var w := Write(r, s);
      var skipped := if r.capacity == 0 then |s| else |s| - MinNat(|s|, r.capacity);
      |r.contents| + |s| == |w.contents| + (w.droppedSamples - r.droppedSamples) + skipped
  {
  }

  /** Round trip: right after writing at most `capacity` samples, the latest
      window of that length is exactly those samples, whatever the headroom. */
  lemma WriteThenLatestWindow(r: RingState, s: seq<real>, headroom: nat)
    requires Inv(r) && r.capacity > 0 && |s| <= r.capacity
    ensures LatestWindow(Write(r, s), |s|, headroom).count == |s|
    ensures LatestWindow(Write(r, s), |s|, headroom).data == s
  {
    if |s| > 0 {
      var w := Write(r, s);
      var all := r.contents + s;
      assert Newest(w.contents, |s|) == s by {
        assert w.contents == all[|all| - MinNat(r.capacity, |all|)..];
        assert forall i :: 0 <= i < |s| ==> Newest(w.contents, |s|)[i] == all[|r.contents| + i];
      }
    }
  }

  /** The window copies `min(fftSize, write - read)` samples (the clamp to
      the capacity never bites under the invariant) and does not depend on
      `headroom` at all; a short window is zero padded at the TAIL. */
  lemma LatestWindowIgnoresHeadroom(r: RingState, fftSize: nat, h1: nat, h2: nat)
    requires Inv(r) && fftSize > 0 && r.capacity > 0
    ensures LatestWindow(r, fftSize, h1) == LatestWindow(r, fftSize, h2)
    ensures var w := LatestWindow(r, fftSize, h1);
      w.count == MinNat(fftSize, Readable(r))
      && w.data[..w.count] == Newest(r.contents, w.count)
      && (forall i :: w.count <= i < fftSize ==> w.data[i] == 0.0)
      && w.after.underrunReads == r.underrunReads + (fftSize - w.count)
      && w.after.read == r.read && w.after.write == r.write && w.after.contents == r.contents
  {
    var w := LatestWindow(r, fftSize, h1);
    assert w.data[..w.count] == Newest(r.contents, w.count);
  }

  /** FIFO: with no overrun, reading everything after a write returns the
      old contents followed by the new samples. */
  lemma WriteThenReadAll(r: RingState, s: seq<real>, maxSamples: nat)
    requires Inv(r) && r.capacity > 0 && |r.contents| + |s| <= r.capacity
    requires maxSamples >= |r.contents| + |s|
    ensures Read(Write(r, s), maxSamples).samples == r.contents + s
    ensures Read(Write(r, s), maxSamples).after.contents == []
  {
    var w := Write(r, s);
    assert w.contents == r.contents + s;
  }

  /** ReadRing and DiscardSamples move the read cursor alike. */
  lemma ReadAndDiscardAdvanceAlike(r: RingState, n: nat)
    requires Inv(r)
    ensures Read(r, n).after == Discard(r, n)
  {
  }

  /** Keeping the newest k1 of x, appending s and keeping the newest k2 is
      keeping the newest k2 of x + s, as long as k2 fits in what was kept. */
  lemma NewestTwice(x: seq<real>, s: seq<real>, k1: nat, k2: nat)
    requires k1 <= |x| && k2 <= k1 + |s|
    ensures Newest(Newest(x, k1) + s, k2) == Newest(x + s, k2)
  {
    var lhs := Newest(Newest(x, k1) + s, k2);
    var rhs := Newest(x + s, k2);
    forall i | 0 <= i < k2
      ensures lhs[i] == rhs[i]
    {
      var j := k1 + |s| - k2 + i;
      if j < k1 {
        assert lhs[i] == Newest(x, k1)[j] == x[|x| - k1 + j];
        assert rhs[i] == (x + s)[|x| - k1 + j];
      } else {
        assert lhs[i] == s[j - k1];
        assert rhs[i] == (x + s)[|x| + (j - k1)];
      }
    }
  }

  /** Two bursts leave the same samples as one burst of both; so the
      contents after several pushes depend only on the concatenated stream. */
  lemma WriteTwice(r: RingState, s1: seq<real>, s2: seq<real>)
    requires Inv(r)
    ensures Write(Write(r, s1), s2).contents == Write(r, s1 + s2).contents
  {
    WriteContents(r, s1);
    WriteContents(Write(r, s1), s2);
    WriteContents(r, s1 + s2);
    KeepNewestTwice(r.contents, s1, s2, r.capacity);
  }

  /** Keeping at most `c` newest samples after each of two bursts keeps
      what one pass over both bursts keeps. */
  lemma KeepNewestTwice(x: seq<real>, s1: seq<real>, s2: seq<real>, c: nat)
    ensures var k1 := MinNat(c, |x| + |s1|);
      Newest(Newest(x + s1, k1) + s2, MinNat(c, k1 + |s2|))
      == Newest(x + (s1 + s2), MinNat(c, |x| + |s1 + s2|))
  {
    var k1 := MinNat(c, |x| + |s1|);
    var k2 := MinNat(c, k1 + |s2|);
    NewestTwice(x + s1, s2, k1, k2);
    assert (x + s1) + s2 == x + (s1 + s2);
    assert k2 == MinNat(c, |x| + |s1 + s2|);
  }
}
