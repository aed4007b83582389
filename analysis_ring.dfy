/** The analysis ring of AudioFilePlayer: a fixed array of mono samples
    addressed through two unbounded cursors modulo its capacity, with three
    diagnostic counters. Every method is proved to perform the transition
    of the value model in ring_model.dfy on the array. */
module AnalysisRingClass {
  import opened Common
  import opened RingModel

  class AnalysisRing {
    // `_ring`, `_ringCapacity`, `_ringRead`, `_ringWrite` and the counters.
    var buffer: array<real>
    var capacity: nat
    var read: nat
    var write: nat
    var overrunWrites: nat
    var droppedSamples: nat
    var underrunReads: nat
    /** The samples between the cursors, oldest first. */
    ghost var samples: seq<real>

    ghost function Model(): RingState
      reads this
    {
      RingState(capacity, read, write, overrunWrites, droppedSamples, underrunReads, samples)
    }

    /** The array holds the samples between the cursors at their absolute
        positions modulo the capacity. */
    ghost predicate Valid()
      reads this, buffer
    {
      buffer.Length == capacity && read <= write && write - read <= capacity && |samples| == write - read
      && Stored(Model(), buffer[..])
    }

    /** The default member state: no storage, cursors and counters at zero. */
    constructor ()
      ensures fresh(buffer) && buffer.Length == 0 && capacity == 0
      ensures read == 0 && write == 0 && samples == []
      ensures overrunWrites == 0 && droppedSamples == 0 && underrunReads == 0
    {
      buffer := new real[0];
      capacity := 0;
      read := 0;
      write := 0;
      overrunWrites := 0;
      droppedSamples := 0;
      underrunReads := 0;
      samples := [];
    }

    /** ResetRing: a freshly allocated, zeroed array of RingCapacity slots
        and all cursors and counters at zero. */
    method ResetRing(sampleRate: nat)
      requires sampleRate < U32
      modifies this
      ensures Valid() && fresh(buffer)
      ensures forall j :: 0 <= j < buffer.Length ==> buffer[j] == 0.0
      ensures Model() == Reset(sampleRate)
    {
      var cap := RingCapacity(sampleRate);
      var a := Zeroed(cap);
      buffer := a;
      capacity := cap;
      write := 0;
      read := 0;
      overrunWrites := 0;
      droppedSamples := 0;
      underrunReads := 0;
      samples := [];
      EmptyStored(Model(), a[..]);
    }

    /** A fresh array of `n` zeros (`std::vector::assign(n, 0.f)`). */
    static method Zeroed(n: nat) returns (a: array<real>)
      ensures fresh(a) && a.Length == n
      ensures forall j :: 0 <= j < n ==> a[j] == 0.0
    {
      a := new real[n];
      var i := 0;
      while i < n
        modifies a
        invariant 0 <= i <= n
        invariant forall j :: 0 <= j < i ==> a[j] == 0.0
      {
        a[i] := 0.0;
        i := i + 1;
      }
    }

    /** RingReadable: the samples between the cursors. */
    method RingReadable() returns (n: nat)
      requires Valid()
      ensures n == Readable(Model()) && n <= capacity
    {
      n := write - read;
    }

    /** GetRingFillRatio: the readable part of the capacity, 0 for an empty
        ring and 1 for a full one. */
    method GetRingFillRatio() returns (f: real)
      requires Valid()
      ensures 0.0 <= f <= 1.0
      ensures capacity > 0 ==> f * capacity as real == Readable(Model()) as real
      ensures capacity == 0 ==> f == 0.0
    {
      var readable := RingReadable();
      if capacity == 0 {
        return 0.0;
      }
      RatioInUnit(readable as real, capacity as real);
      f := readable as real / capacity as real;
    }

    /** WriteRing: store the newest `min(|s|, capacity)` samples of the
        burst, overwriting the oldest samples when there is no room. */
    method WriteRing(s: seq<real>)
      requires Valid()
      modifies this, buffer
      ensures Valid() && buffer == old(buffer)
      ensures Model() == Write(old(Model()), s)
    {
      if capacity == 0 || |s| == 0 {
        return;
      }
      ghost var r0 := Model();
      ghost var w := Write(r0, s);
      var buf := buffer;
      ghost var before := buf[..];
      var cap := capacity;
      var wr := write;
      var rd := read;
      var available := wr - rd;
      var freeSpace := cap - available;
      var toWrite := MinNat(|s|, cap);
      if toWrite > freeSpace {
        // Overwrite the oldest samples.
        var drop := toWrite - freeSpace;
        rd := rd + drop;
        DropOldest(rd, drop);
      }
      assert rd == w.read && wr + toWrite == w.write;
      StoreBurst(buf, s, |s| - toWrite, rd, wr);
      WriteStored(r0, s, w, before, buf[..]);
      CommitWrite(wr + toWrite, w);
    }

    /** The overrun branch of WriteRing: the read cursor skips the `drop`
        oldest samples and the counters record one overrun. */
    method DropOldest(rd: nat, drop: nat)
      modifies this`read, this`overrunWrites, this`droppedSamples
      ensures read == rd && overrunWrites == old(overrunWrites) + 1
      ensures droppedSamples == old(droppedSamples) + drop
    {
      read := rd;
      overrunWrites := overrunWrites + 1;
      droppedSamples := droppedSamples + drop;
    }

    /** The last step of WriteRing: publish the new write cursor once the
        array holds the samples of the new state `w`. */
    method CommitWrite(wr: nat, ghost w: RingState)
      requires Inv(w) && buffer.Length == capacity && Stored(w, buffer[..])
      requires w == RingState(capacity, read, wr, overrunWrites, droppedSamples, underrunReads, w.contents)
      modifies this`write, this`samples
      ensures Valid() && Model() == w
    {
      write := wr;
      samples := w.contents;
    }

    /** The copy loop of WriteRing: `s[start..]` goes to the slots of the
        positions from `write` on, and the slots of the positions from
        `read` to `write` keep their samples. */
    static method StoreBurst(buf: array<real>, s: seq<real>, start: nat, read: nat, write: nat)
      requires buf.Length > 0 && start <= |s| && read <= write
      requires write + (|s| - start) <= read + buf.Length
      modifies buf
      ensures forall q :: write <= q < write + (|s| - start) ==>
        buf[q % buf.Length] == s[start + (q - write)]
      ensures forall q :: read <= q < write ==> buf[q % buf.Length] == old(buf[q % buf.Length])
    {
      var cap := buf.Length;
      var n := |s| - start;
      var i := 0;
      while i < n
        invariant 0 <= i <= n
        invariant forall q :: write <= q < write + i ==> buf[q % cap] == s[start + (q - write)]
        invariant forall q :: read <= q < write ==> buf[q % cap] == old(buf[q % cap])
      {
        forall q | read <= q < write + i
          ensures q % cap != (write + i) % cap
        {
          ModDistinct(q, write + i, cap);
        }
        buf[(write + i) % cap] := s[start + i];
        i := i + 1;
      }
    }

    /** ReadRing: move up to `maxSamples` of the oldest samples into `dst`. */
    method ReadRing(dst: array<real>, maxSamples: nat) returns (n: nat)
      requires Valid() && dst != buffer && maxSamples <= dst.Length
      modifies this, dst
      ensures Valid() && buffer == old(buffer)
      ensures var t := Read(old(Model()), maxSamples);
        n == t.count && Model() == t.after
        && dst[..n] == t.samples && dst[n..] == old(dst[n..])
    {
      ghost var t := Read(Model(), maxSamples);
      ReadStored(Model(), maxSamples, buffer[..]);
      if capacity == 0 || maxSamples == 0 {
        return 0;
      }
      var buf := buffer;
      var cap := capacity;
      var wr := write;
      var rd := read;
      var available := wr - rd;
      var toRead := MinNat(maxSamples, available);
      assert toRead == t.count;
      var i := 0;
      while i < toRead
        modifies dst
        invariant 0 <= i <= toRead
        invariant dst[..i] == t.samples[..i] && dst[i..] == old(dst[i..])
      {
        dst[i] := buf[(rd + i) % cap];
        i := i + 1;
        assert dst[..i] == dst[..i - 1] + [dst[i - 1]];
      }
      read := rd + toRead;
      samples := t.after.contents;
      assert Model() == t.after;
      n := toRead;
    }

    /** GetLatestWindow: copy the newest samples into `dst`, zero pad the
        rest of the `fftSize` values, and leave the cursors alone. */
    method GetLatestWindow(dst: array?<real>, fftSize: nat, headroom: nat) returns (n: nat)
      requires Valid() && (dst != null ==> dst != buffer && fftSize <= dst.Length)
      modifies this, dst
      ensures Valid() && buffer == old(buffer)
      ensures dst == null ==> n == 0 && Model() == old(Model())
      ensures dst != null ==>
        var w := LatestWindow(old(Model()), fftSize, headroom);
        n == w.count && Model() == w.after
        && dst[..|w.data|] == w.data && dst[|w.data|..] == old(dst[|w.data|..])
    {
      if dst == null || fftSize == 0 || capacity == 0 {
        return 0;
      }
      ghost var w := LatestWindow(Model(), fftSize, headroom);
      WindowStored(Model(), fftSize, headroom, buffer[..]);
      var buf := buffer;
      var cap := capacity;
      var wr := write;
      var rd := read;
      var available := wr - rd;
      if available > cap {
        available := cap;
      }
      var target := fftSize + headroom;
      if target > cap {
        target := cap;
      }
      if available > target {
        available := target;
      }
      var toCopy := MinNat(fftSize, available);
      assert toCopy == w.count;
      ghost var slots := buf[..];
      WindowFromSlots(Model(), fftSize, headroom, slots);
      CopyNewest(buf, dst, wr, toCopy);
      if toCopy < fftSize {
        ZeroFill(dst, toCopy, fftSize);
        underrunReads := underrunReads + (fftSize - toCopy);
      }
      assert dst[..fftSize] == w.data;
      assert Model() == w.after;
      n := toCopy;
    }

    /** The two `memcpy` calls of GetLatestWindow: the `count` slots before
        position `write`, first up to the end of the array, then from its
        start. Since `count <= write`, the first slot is `(write - count) %
        capacity`. */
    static method CopyNewest(buf: array<real>, dst: array<real>, write: nat, count: nat)
      requires buf != dst && 0 < buf.Length && count <= buf.Length && count <= dst.Length
      requires count <= write
      modifies dst
      ensures dst[..count] == SlotsBefore(buf[..], write, count)
      ensures dst[count..] == old(dst[count..])
    {
      if count == 0 {
        return;
      }
      var cap := buf.Length;
      var start := (write - count) % cap;
      var firstChunk := MinNat(count, cap - start);
      var i := 0;
      while i < firstChunk
        invariant 0 <= i <= firstChunk
        invariant forall j :: 0 <= j < i ==> dst[j] == buf[(write - count + j) % cap]
        invariant dst[count..] == old(dst[count..])
      {
        ModAddNoWrap(write - count, i, cap);
        dst[i] := buf[start + i];
        i := i + 1;
      }
      i := 0;
      while i < count - firstChunk
        invariant 0 <= i <= count - firstChunk
        invariant forall j :: 0 <= j < firstChunk + i ==> dst[j] == buf[(write - count + j) % cap]
        invariant dst[count..] == old(dst[count..])
      {
        ModAddWrapOnce(write - count, firstChunk + i, cap);
        dst[firstChunk + i] := buf[i];
        i := i + 1;
      }
      assert dst[..count] == SlotsBefore(buf[..], write, count);
    }

    /** `std::fill(dst + from, dst + to, 0.f)`. */
    static method ZeroFill(dst: array<real>, from: nat, to: nat)
      requires from <= to <= dst.Length
      modifies dst
      ensures dst[..to] == old(dst[..from]) + Zeros(to - from)
      ensures dst[to..] == old(dst[to..])
    {
      var i := from;
      while i < to
        invariant from <= i <= to
        invariant forall j :: from <= j < i ==> dst[j] == 0.0
        invariant forall j :: 0 <= j < from ==> dst[j] == old(dst[j])
        invariant dst[to..] == old(dst[to..])
      {
        dst[i] := 0.0;
        i := i + 1;
      }
      assert dst[..to] == old(dst[..from]) + Zeros(to - from);
    }

    /** DiscardSamples: drop up to `count` of the oldest samples. */
    method DiscardSamples(count: nat)
      requires Valid()
      modifies this
      ensures Valid() && buffer == old(buffer)
      ensures Model() == Discard(old(Model()), count)
    {
      DiscardStored(Model(), count, buffer[..]);
      if count == 0 {
        return;
      }
      var available := RingReadable();
      var toDiscard := MinNat(count, available);
      if toDiscard == 0 {
        return;
      }
      var rd := read;
      read := rd + toDiscard;
      samples := samples[toDiscard..];
    }
  }
}
