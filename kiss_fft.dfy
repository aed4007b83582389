/** The integer side of the bundled KISS FFT: the radix plan computed by
    `kf_factor`, the caller-memory protocol of `kiss_fft_alloc` and the null
    guard of `kiss_fft_stride`. The butterflies and twiddles are floating
    point and are not part of this model. */
module KissFft {
  import opened Common

  /** Largest value of a C `int`. */
  const IntMax: int := 0x7fff_ffff

  /** The number of `int` slots `kiss_fft_stride` reserves for the plan. */
  const FactorSlots: int := 64

  /** The trial-divisor order of `kf_factor`: 4, then 2, then 3, 5, 7, ... */
  function NextTrial(p: int): int
  {
    if p == 4 then 2 else if p == 2 then 3 else p + 2
  }

  /** Extra weight of the radix-4 trial in the termination measure: leaving 4
      for 2 steps back by two, which this bonus pays for. */
  function Skip(n: int, p: int): int
  {
    if p == 4 && n % 4 != 0 then 3 else 0
  }

  /** The divisor the inner `while (n % p)` loop of `kf_factor` settles on,
      starting from the trial divisor `p`; once `p * p > n` it jumps to `n`. */
  function Divisor(n: int, p: int): (d: int)
    requires n >= 2 && p >= 2
    ensures 2 <= d <= n && n % d == 0
    decreases if p > n then 1 else 0, if p <= n then n - p + Skip(n, p) else 0
  {
    if n % p == 0 then
      DividesAtMost(n, p);
      p
    else
      var q := NextTrial(p);
      SquareAbove(q, n, p);
      var q' := if q * q > n then n else q;
      Divisor(n, q')
  }

  /** A divisor of a positive number is at most that number. */
  lemma DividesAtMost(n: int, p: int)
    requires n >= 1 && p >= 1 && n % p == 0
    ensures p <= n
  {
    var q := n / p;
    assert n == q * p;
    MulSign(q, p);
    MulGrows(1, q, p);
  }

  /** The facts the termination measure of `Divisor` needs about the next trial. */
  lemma SquareAbove(q: int, n: int, p: int)
    requires n >= 2 && p >= 2 && q == NextTrial(p) && n % p != 0
    ensures q >= 2
    ensures p > n ==> q * q > n
    ensures q * q <= n ==> q <= n
  {
    if p > n {
      if p == 4 {
        assert q == 2 && n < 4;
      } else {
        assert q == p + 2 && q > n;
        assert q * q >= 2 * q;
      }
    }
    if q * q <= n {
      assert q * q >= q;
    }
  }

  /** Dividing by a divisor of at least 2 shrinks n and keeps it positive. */
  lemma DivShrinks(n: int, d: int)
    requires n >= 2 && 2 <= d <= n && n % d == 0
    ensures 1 <= n / d < n && 2 * (n / d) <= n && d * (n / d) == n
  {
    var m := n / d;
    assert n == d * m + n % d;
    MulSign(m, d);
    assert m >= 1;
    MulGrows(2, d, m);
  }

  lemma MulGrows(a: int, b: int, c: int)
    requires a <= b && c >= 0
    ensures a * c <= b * c
  {
    assert b * c - a * c == (b - a) * c;
  }

  /** The (p, m) pairs `kf_factor` records AS WRITTEN, from the state (n, p):
      its outer loop runs only while `n > 1 && p <= n`. */
  function FactorsAsWritten(n: int, p: int): (f: seq<int>)
    requires p >= 2
    ensures |f| % 2 == 0
    ensures f == [] <==> n <= 1 || p > n
    decreases n
  {
    if n > 1 && p <= n then
      var d := Divisor(n, p);
      DivShrinks(n, d);
      [d, n / d] + FactorsAsWritten(n / d, d)
    else []
  }

  /** The corrected plan: the outer loop runs while `n > 1`. For n >= 2 this
      is the upstream KISS FFT's `do ... while (n > 1)`; for n = 1 upstream
      records the pair (1, 1) before testing, while this plan is empty. */
  function Factors(n: int, p: int): (f: seq<int>)
    requires p >= 2
    ensures |f| % 2 == 0
    ensures f == [] <==> n <= 1
    decreases n
  {
    if n > 1 then
      var d := Divisor(n, p);
      DivShrinks(n, d);
      [d, n / d] + Factors(n / d, d)
    else []
  }

  /** The corrected plan for a transform of size n. */
  function Plan(n: int): (f: seq<int>)
    ensures 1 <= n <= IntMax ==> |f| <= FactorSlots && Chain(f, n) && Rest(f, n) == 1
  {
    if 1 <= n <= IntMax then
      PlanFits(n, 4);
      FactorsComplete(n, 4);
      Factors(n, 4)
    else
      Factors(n, 4)
  }

  /** A plan of pairs (p, m), p >= 2, where each pair splits the previous m
      (the first pair splits n) as p * m. */
  ghost predicate Chain(f: seq<int>, n: int)
    decreases |f|
  {
    |f| == 0 || (|f| >= 2 && f[0] >= 2 && f[0] * f[1] == n && Chain(f[2..], f[1]))
  }

  /** What is left of n when the plan stops: the last recorded m. */
  function Rest(f: seq<int>, n: int): int
  {
    if |f| == 0 then n else f[|f| - 1]
  }

  /** The trial divisor in force when the plan stops. */
  function LastTrial(f: seq<int>, p: int): int
  {
    if |f| < 2 then p else f[|f| - 2]
  }

  function Pow2(k: nat): (r: nat)
    ensures r >= 1
  {
    if k == 0 then 1 else 2 * Pow2(k - 1)
  }

  function Pow4(k: nat): (r: nat)
    ensures r >= 1
  {
    if k == 0 then 1 else 4 * Pow4(k - 1)
  }

  /** Every pair the as-written loop records splits the previous remainder. */
  lemma {:induction false} AsWrittenIsChain(n: int, p: int)
    requires p >= 2
    ensures Chain(FactorsAsWritten(n, p), n)
    decreases n
  {
    if n > 1 && p <= n {
      var d := Divisor(n, p);
      DivShrinks(n, d);
      AsWrittenIsChain(n / d, d);
      var f := FactorsAsWritten(n, p);
      assert f[2..] == FactorsAsWritten(n / d, d);
    }
  }

  /** Why the as-written loop stops: either nothing is left to factor, or the
      trial divisor has overtaken what is left (a remainder of 2 or 3 after
      radix 4). */
  lemma {:induction false} AsWrittenStops(n: int, p: int)
    requires n >= 1 && p >= 2
    ensures var f := FactorsAsWritten(n, p);
      Rest(f, n) >= 1 && (Rest(f, n) == 1 || LastTrial(f, p) > Rest(f, n))
    decreases n
  {
    if n > 1 && p <= n {
      var d := Divisor(n, p);
      DivShrinks(n, d);
      AsWrittenStops(n / d, d);
      var f := FactorsAsWritten(n, p);
      var g := FactorsAsWritten(n / d, d);
      assert f == [d, n / d] + g;
      if |g| == 0 {
        assert Rest(f, n) == n / d && LastTrial(f, p) == d;
      } else {
        assert Rest(f, n) == Rest(g, n / d) && LastTrial(f, p) == LastTrial(g, d);
      }
    }
  }

  /** The corrected loop records a chain that factors n completely: its last
      m is 1, which is the base case `kf_work` relies on. */
  lemma {:induction false} FactorsComplete(n: int, p: int)
    requires n >= 1 && p >= 2
    ensures Chain(Factors(n, p), n) && Rest(Factors(n, p), n) == 1
    decreases n
  {
    if n > 1 {
      var d := Divisor(n, p);
      DivShrinks(n, d);
      FactorsComplete(n / d, d);
      var f := Factors(n, p);
      var g := Factors(n / d, d);
      assert f == [d, n / d] + g;
      assert f[2..] == g;
      if |g| == 0 {
        assert Rest(f, n) == n / d;
      } else {
        assert Rest(f, n) == Rest(g, n / d);
      }
    }
  }

  /** One radix-4 step: on 4 * m both loops record (4, m) and go on from m
      with trial divisor 4. */
  lemma QuarterStep(m: int)
    requires m >= 1
    ensures FactorsAsWritten(4 * m, 4) == [4, m] + FactorsAsWritten(m, 4)
    ensures Factors(4 * m, 4) == [4, m] + Factors(m, 4)
  {
    var n := 4 * m;
    assert n % 4 == 0 && n / 4 == m;
    assert Divisor(n, 4) == 4;
  }

  /** Two radix-4 steps in a row, from 16 * m down to m. */
  lemma TwoQuarterSteps(m: int)
    requires m >= 1
    ensures FactorsAsWritten(16 * m, 4) == [4, 4 * m, 4, m] + FactorsAsWritten(m, 4)
    ensures Factors(16 * m, 4) == [4, 4 * m, 4, m] + Factors(m, 4)
  {
    QuarterStep(m);
    QuarterStep(4 * m);
    SeqPairs(4 * m, m, FactorsAsWritten(m, 4));
    SeqPairs(4 * m, m, Factors(m, 4));
  }

  /** Two recorded pairs in front of a plan read as one four-entry prefix. */
  lemma SeqPairs(a: int, b: int, s: seq<int>)
    ensures [4, a] + ([4, b] + s) == [4, a, 4, b] + s
  {
    assert [4, a] + ([4, b] + s) == ([4, a] + [4, b]) + s;
  }

  /** For n = 4^k the as-written plan is k radix-4 steps ending in m = 1. */
  lemma {:induction false} PowerOfFourCompletes(k: nat)
    ensures FactorsAsWritten(Pow4(k), 4) == Factors(Pow4(k), 4)
    ensures Rest(FactorsAsWritten(Pow4(k), 4), Pow4(k)) == 1
  {
    if k > 0 {
      var m := Pow4(k - 1);
      var n := Pow4(k);
      assert n == 4 * m;
      QuarterStep(m);
      PowerOfFourCompletes(k - 1);
      var g := FactorsAsWritten(m, 4);
      assert FactorsAsWritten(n, 4) == [4, m] + g;
      if |g| == 0 {
        assert Rest([4, m] + g, n) == m;
      } else {
        assert Rest([4, m] + g, n) == Rest(g, m);
      }
    }
  }

  /** For n = 2 * 4^k (k >= 1) the as-written plan stops after k radix-4
      steps with m = 2 left, so the plan does not end in 1. */
  lemma {:induction false} TwiceFourPowerStopsAtTwo(k: nat)
    requires k >= 1
    ensures var f := FactorsAsWritten(2 * Pow4(k), 4);
      |f| == 2 * k && Rest(f, 2 * Pow4(k)) == 2
  {
    var m := 2 * Pow4(k - 1);
    assert 2 * Pow4(k) == 4 * m;
    QuarterStep(m);
    if k == 1 {
      assert FactorsAsWritten(m, 4) == [];
    } else {
      TwiceFourPowerStopsAtTwo(k - 1);
    }
  }

  /** On 2 the as-written loop records nothing (4 > 2), while the corrected
      loop takes one radix-2 step down to 1. */
  lemma TwoLeft()
    ensures FactorsAsWritten(2, 4) == []
    ensures Factors(2, 4) == [2, 1]
  {
    assert Divisor(2, 4) == 2;
    assert Factors(1, 2) == [];
  }

  /** The offered FFT size 512 hits the early stop: the plan ends in m = 2,
      so `kf_work` recurses past the recorded pairs. */
  lemma FiveTwelveAsWritten()
    ensures FactorsAsWritten(512, 4) == [4, 128, 4, 32, 4, 8, 4, 2]
  {
    TwoLeft();
    TwoQuarterSteps(2);
    assert FactorsAsWritten(32, 4) == [4, 8, 4, 2];
    TwoQuarterSteps(32);
  }

  /** The offered FFT sizes 512 and 2048 both stop with m = 2 left. */
  lemma FiveTwelveAndTwoThousandFortyEight()
    ensures FactorsAsWritten(512, 4) == [4, 128, 4, 32, 4, 8, 4, 2]
    ensures Rest(FactorsAsWritten(2048, 4), 2048) == 2
  {
    FiveTwelveAsWritten();
    assert Pow4(5) == 1024 by {
      assert Pow4(2) == 16;
    }
    TwiceFourPowerStopsAtTwo(5);
  }

  /** The corrected plan of 512 ends with a radix-2 step down to m = 1. */
  lemma FiveTwelveCorrected()
    ensures Plan(512) == [4, 128, 4, 32, 4, 8, 4, 2, 2, 1]
  {
    TwoLeft();
    TwoQuarterSteps(2);
    assert Factors(32, 4) == [4, 8, 4, 2, 2, 1];
    TwoQuarterSteps(32);
  }

  /** Every pair at least halves n, so the plan of n holds at most
      2 * log2(n) entries: 2 to the number of pairs is at most n. */
  lemma {:induction false} PlanLength(n: int, p: int)
    requires n >= 1 && p >= 2
    ensures |Factors(n, p)| % 2 == 0 && Pow2(|Factors(n, p)| / 2) <= n
    ensures |FactorsAsWritten(n, p)| % 2 == 0 && Pow2(|FactorsAsWritten(n, p)| / 2) <= n
    decreases n
  {
    if n > 1 {
      var d := Divisor(n, p);
      DivShrinks(n, d);
      PlanLength(n / d, d);
      assert |Factors(n, p)| / 2 == |Factors(n / d, d)| / 2 + 1;
      if p <= n {
        assert |FactorsAsWritten(n, p)| / 2 == |FactorsAsWritten(n / d, d)| / 2 + 1;
      }
    }
  }

  lemma {:induction false} Pow2Grows(a: nat, b: nat)
    requires a <= b
    ensures Pow2(a) <= Pow2(b)
    decreases b
  {
    if a < b {
      Pow2Grows(a, b - 1);
    }
  }

  /** Any `int` size has a plan that fits in the 64 slots of `factors[64]`. */
  lemma {:induction false} PlanFits(n: int, p: int)
    requires n <= IntMax && p >= 2
    ensures |Factors(n, p)| <= 62 && |FactorsAsWritten(n, p)| <= 62
  {
    if n >= 1 {
      PlanLength(n, p);
      assert Pow2(31) == 0x8000_0000 by {
        assert Pow2(8) == 256;
        assert Pow2(16) == 256 * Pow2(8);
        assert Pow2(24) == 256 * Pow2(16);
        assert Pow2(31) == 128 * Pow2(24);
      }
      if |Factors(n, p)| / 2 >= 32 {
        Pow2Grows(31, |Factors(n, p)| / 2);
      }
      if |FactorsAsWritten(n, p)| / 2 >= 32 {
        Pow2Grows(31, |FactorsAsWritten(n, p)| / 2);
      }
    }
  }

  /** The inner `while (n % p)` loop of `kf_factor`: advances the trial
      divisor until it divides n, jumping to n once its square exceeds n. */
  method NextDivisor(n: int, p0: int) returns (p: int)
    requires n >= 2 && p0 >= 2
    ensures p == Divisor(n, p0)
    ensures 2 <= p <= n && n % p == 0
  {
    p := p0;
    while n % p != 0
      invariant p >= 2 && Divisor(n, p) == Divisor(n, p0)
      decreases if p > n then 1 else 0, if p <= n then n - p + Skip(n, p) else 0
    {
      ghost var before := p;
      if p == 4 {
        p := 2;
      } else if p == 2 {
        p := 3;
      } else {
        p := p + 2;
      }
      SquareAbove(p, n, before);
      if p * p > n {
        p := n;
      }
    }
  }

  /** A suffix that starts with the pair (p, m) holds it at i and i + 1. */
  lemma PairAhead(plan: seq<int>, i: nat, p: int, m: int, tail: seq<int>)
    requires i <= |plan| && plan[i..] == [p, m] + tail
    ensures i + 2 <= |plan| && plan[i] == p && plan[i + 1] == m && plan[i + 2..] == tail
  {
    assert plan[i..][0] == p && plan[i..][1] == m && plan[i..][2..] == tail;
  }

  /** `kf_factor(n, facbuf)` as written: fills `facbuf` with the (p, m) pairs
      and leaves the slots after them alone. */
  method KfFactor(n0: int, facbuf: array<int>)
    requires facbuf.Length == FactorSlots && n0 <= IntMax
    modifies facbuf
    ensures var f := FactorsAsWritten(n0, 4);
      |f| <= FactorSlots && facbuf[..|f|] == f && facbuf[|f|..] == old(facbuf[|f|..])
  {
    ghost var plan := FactorsAsWritten(n0, 4);
    PlanFits(n0, 4);
    var n, p, i := n0, 4, 0;
    while n > 1 && p <= n
      invariant p >= 2 && 0 <= i <= |plan|
      invariant plan[i..] == FactorsAsWritten(n, p)
      invariant facbuf[..i] == plan[..i]
      invariant facbuf[i..] == old(facbuf[i..])
      decreases n
    {
      ghost var rest := FactorsAsWritten(n, p);
      p := NextDivisor(n, p);
      DivShrinks(n, p);
      n := n / p;
      assert rest == [p, n] + FactorsAsWritten(n, p);
      PairAhead(plan, i, p, n, FactorsAsWritten(n, p));
      StorePair(facbuf, i, p, n);
      assert plan[..i + 2] == plan[..i] + [p, n];
      i := i + 2;
    }
  }

  /** `*facbuf++ = p; *facbuf++ = n;`: the pair lands at i and i + 1. */
  method StorePair(facbuf: array<int>, i: nat, p: int, m: int)
    requires i + 2 <= facbuf.Length
    modifies facbuf
    ensures facbuf[..i + 2] == old(facbuf[..i]) + [p, m]
    ensures facbuf[i + 2..] == old(facbuf[i + 2..])
  {
    facbuf[i] := p;
    facbuf[i + 1] := m;
    assert facbuf[..i + 2] == facbuf[..i] + [p, m];
  }

  // ---------------------------------------------------------------------
  // kiss_fft_alloc and kiss_fft_stride

  /** `sizeof(kiss_fft_state)`: two ints and one complex float. */
  const StateBytes: int := 16
  /** `sizeof(kiss_fft_cpx)`: two floats. */
  const CpxBytes: int := 8
  /** `size_t` arithmetic is modulo 2^64. */
  const SizeModulus: int := 0x1_0000_0000_0000_0000

  /** `memneeded`: the state plus nfft - 1 extra twiddles, in size_t arithmetic. */
  function MemNeeded(nfft: int): (m: nat)
    ensures m < SizeModulus
    ensures 1 <= nfft <= IntMax ==> m == CpxBytes * nfft + CpxBytes
  {
    (StateBytes + CpxBytes * ((nfft - 1) % SizeModulus)) % SizeModulus
  }

  /** Where a configuration lives. */
  datatype Storage = CallerBuffer | Heap

  /** A configuration: `nfft` and `inverse`; the twiddles are not modelled. */
  datatype Config = Config(nfft: int, inverse: int, storage: Storage)

  /** `kiss_fft_alloc(nfft, inverse, mem, lenmem)`. `memGiven` says `mem` is
      non-null; `lenmem` is None for a null argument and otherwise holds
      `*lenmem`; `mallocOk` says whether malloc would return memory. Returns
      the configuration (None for a null result) and `*lenmem` afterwards. */
  method Alloc(nfft: int, inverse: int, memGiven: bool, lenmem: Option<nat>, mallocOk: bool)
    returns (st: Option<Config>, lenmemAfter: Option<nat>)
    ensures lenmem.Some? && memGiven ==>
      lenmemAfter == Some(MemNeeded(nfft)) && (st.Some? <==> lenmem.value >= MemNeeded(nfft))
      && (st.Some? ==> st.value.storage == CallerBuffer)
    ensures lenmem.None? || !memGiven ==>
      lenmemAfter == lenmem && (st.Some? <==> mallocOk) && (st.Some? ==> st.value.storage == Heap)
    ensures st.Some? ==> st.value.nfft == nfft && st.value.inverse == inverse
  {
    var memneeded := MemNeeded(nfft);
    var storage: Option<Storage> := None;
    lenmemAfter := lenmem;
    if lenmem.None? || !memGiven {
      if mallocOk {
        storage := Some(Heap);
      }
    } else {
      if lenmem.value >= memneeded {
        storage := Some(CallerBuffer);
      }
      lenmemAfter := Some(memneeded);
    }
    if storage.None? {
      return None, lenmemAfter;
    }
    st := Some(Config(nfft, inverse, storage.value));
  }

  /** `kiss_fft_stride(cfg, ...)`: a null configuration does nothing;
      otherwise `kf_factor`, as written, fills `int factors[64]` and
      `kf_work` receives the pairs it recorded (None when nothing happens).
      For 512 and 2048 the last pair leaves m = 2, not the m = 1 at which
      `kf_work` stops. `nfft` is a C `int`. */
  method Stride(cfg: Option<Config>) returns (plan: Option<seq<int>>)
    requires cfg.Some? ==> cfg.value.nfft <= IntMax
    ensures cfg.None? <==> plan.None?
    ensures cfg.Some? ==>
      plan.value == FactorsAsWritten(cfg.value.nfft, 4)
      && |plan.value| <= FactorSlots && Chain(plan.value, cfg.value.nfft)
    ensures cfg.Some? && cfg.value.nfft >= 1 ==>
      var f, n := plan.value, cfg.value.nfft;
      Rest(f, n) >= 1 && (Rest(f, n) == 1 || LastTrial(f, 4) > Rest(f, n))
    ensures cfg.Some? && (cfg.value.nfft == 512 || cfg.value.nfft == 2048) ==>
      Rest(plan.value, cfg.value.nfft) == 2
    ensures cfg.Some? && (cfg.value.nfft == 1024 || cfg.value.nfft == 4096) ==>
      Rest(plan.value, cfg.value.nfft) == 1
  {
    if cfg.None? {
      return None;
    }
    var n := cfg.value.nfft;
    var factors := new int[FactorSlots];
    KfFactor(n, factors);
    var recorded := |FactorsAsWritten(n, 4)|;
    plan := Some(factors[..recorded]);
    AsWrittenIsChain(n, 4);
    if n >= 1 {
      AsWrittenStops(n, 4);
    }
    if n == 512 || n == 2048 {
      FiveTwelveAndTwoThousandFortyEight();
    } else if n == 1024 || n == 4096 {
      assert Pow4(5) == 1024 && Pow4(6) == 4096 by {
        assert Pow4(2) == 16;
      }
      PowerOfFourCompletes(5);
      PowerOfFourCompletes(6);
    }
  }

  /** `kiss_fft_stride` with the corrected `kf_factor` (loop while `n > 1`):
      the plan fits the 64 slots and factors nfft completely, ending at the
      m = 1 that `kf_work` stops at. */
  method StrideCorrected(cfg: Option<Config>) returns (plan: Option<seq<int>>)
    ensures cfg.None? <==> plan.None?
    ensures cfg.Some? ==> plan.value == Plan(cfg.value.nfft)
    ensures cfg.Some? && 1 <= cfg.value.nfft <= IntMax ==>
      |plan.value| <= FactorSlots && Chain(plan.value, cfg.value.nfft) && Rest(plan.value, cfg.value.nfft) == 1
  {
    if cfg.None? {
      return None;
    }
    plan := Some(Plan(cfg.value.nfft));
  }
}
