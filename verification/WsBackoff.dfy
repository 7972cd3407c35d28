/** The reconnect delays of the WebSocket client, in its saturating 64-bit arithmetic. */
module WsBackoff {
  import opened Wrappers

  const U32_MAX: nat := 0xFFFF_FFFF
  const U64: nat := 0x1_0000_0000_0000_0000
  const U64_MAX: nat := U64 - 1

  function Min(a: nat, b: nat): nat {
    if a < b then a else b
  }

  function Pow2(e: nat): nat {
    if e == 0 then 1 else 2 * Pow2(e - 1)
  }

  /** `2u64.checked_pow(e)` */
  function CheckedPow2(e: nat): Option<nat> {
    if Pow2(e) <= U64_MAX then Some(Pow2(e)) else None
  }

  /** `as_millis() as u64`: a duration can be longer than 64 bits of milliseconds. */
  function AsU64(millis: nat): nat {
    millis % U64
  }

  function SaturatingMul(a: nat, b: nat): nat {
    Min(a * b, U64_MAX)
  }

  /** The power of two, or the largest number where it does not fit. */
  function Factor(exponent: nat): nat {
    match CheckedPow2(exponent) case Some(p) => p case None => U64_MAX
  }

  /** The delays configured, in whole milliseconds. */
  datatype Options = Options(base: nat, max: nat)

  /** `backoff_delay` */
  function BackoffDelay(options: Options, attempt: nat): nat
    requires attempt <= U32_MAX
  {
    var base := AsU64(options.base);
    var max := AsU64(options.max);
    Capped(base, Factor(if attempt == 0 then 0 else attempt - 1), max)
  }

  function Capped(base: nat, factor: nat, max: nat): nat {
    Min(SaturatingMul(base, factor), max)
  }

  /** The options as the 64-bit arithmetic sees them. */
  function Cut(options: Options): Options {
    Options(AsU64(options.base), AsU64(options.max))
  }

  /** What the delay is for, over unbounded integers: `f` failed attempts double it `f` times. */
  function Exact(options: Options, f: nat): nat {
    Min(options.base * Pow2(f), options.max)
  }

  function SaturatingAdd1(attempt: nat): nat {
    Min(attempt + 1, U32_MAX)
  }

  /** The attempt counter after `f` failed attempts. */
  function AttemptAfter(f: nat): nat {
    Min(f + 1, U32_MAX)
  }

  lemma {:induction false} Pow2Grows(e: nat, f: nat)
    requires e <= f
    ensures 1 <= Pow2(e) <= Pow2(f)
    decreases f
  {
    if e < f {
      Pow2Grows(e, f - 1);
    } else if e > 0 {
      Pow2Grows(e - 1, f - 1);
    }
  }

  lemma {:induction false} ProductGrows(n: nat, x: nat, y: nat)
    requires x <= y
    ensures n * x <= n * y
  {
    if n > 0 {
      ProductGrows(n - 1, x, y);
      assert n * x == (n - 1) * x + x && n * y == (n - 1) * y + y;
    }
  }

  lemma Pow2Of64()
    ensures Pow2(64) == U64
  {
    assert Pow2(8) == 256;
    assert Pow2(16) == 65536;
    assert Pow2(24) == 0x100_0000;
    assert Pow2(32) == 0x1_0000_0000;
    assert Pow2(40) == 0x100_0000_0000;
    assert Pow2(48) == 0x1_0000_0000_0000;
    assert Pow2(56) == 0x100_0000_0000_0000;
  }

  /** Saturation stands in for any factor of 64 bits or more. */
  lemma BigFactor(base: nat, max: nat, f: nat)
    requires f >= 64 && max <= U64_MAX
    ensures Min(base * Pow2(f), max) == Capped(base, U64_MAX, max)
  {
    Pow2Of64();
    Pow2Grows(64, f);
    TooLargeToMatter(base, Pow2(f), max);
  }

  lemma TooLargeToMatter(base: nat, factor: nat, max: nat)
    requires factor >= U64 && max <= U64_MAX
    ensures Min(base * factor, max) == Capped(base, U64_MAX, max)
  {
    if base > 0 {
      ProductGrows(factor, 1, base);
      ProductGrows(U64_MAX, 1, base);
    }
  }

  /** The delay is the exact one for the options cut to 64 bits, after any number of failures, in
      spite of the checked power, the saturating product and the saturating counter. */
  lemma DelayIsExact(options: Options, f: nat)
    ensures BackoffDelay(options, AttemptAfter(f)) == Exact(Cut(options), f)
    ensures options.base < 0x1_0000_0000_0000_0000 && options.max < 0x1_0000_0000_0000_0000 ==> Cut(options) == options
    ensures BackoffDelay(options, 0) == BackoffDelay(options, 1)
  {
    FactorIsExact(AsU64(options.base), AsU64(options.max), f, AttemptAfter(f) - 1);
  }

  lemma FactorIsExact(base: nat, max: nat, f: nat, exponent: nat)
    requires max <= U64_MAX && exponent == Min(f, U32_MAX - 1)
    ensures Capped(base, Factor(exponent), max) == Min(base * Pow2(f), max)
  {
    if f < 64 {
      SmallFactor(f);
      CappedIsExact(base, Pow2(f), max);
    } else {
      LargeFactor(exponent);
      BigFactor(base, max, f);
    }
  }

  lemma SmallFactor(f: nat)
    requires f < 64
    ensures Factor(f) == Pow2(f)
  {
    Pow2Of64();
    Pow2Grows(f, 63);
    assert Pow2(64) == 2 * Pow2(63);
  }

  lemma LargeFactor(e: nat)
    requires e >= 64
    ensures Factor(e) == U64_MAX
  {
    Pow2Of64();
    Pow2Grows(64, e);
  }

  /** A product cut at the largest 64-bit number is not missed below a 64-bit maximum. */
  lemma CappedIsExact(base: nat, factor: nat, max: nat)
    requires max <= U64_MAX
    ensures Capped(base, factor, max) == Min(base * factor, max)
  {
  }

  /** Without the 64-bit restriction: the delays are exact for every number of failures exactly
      when the base is zero, or the maximum fits in 64 bits and the base, cut to 64 bits, still
      gives what the base itself would. */
  lemma ExactIff(options: Options)
    ensures (forall f: nat :: BackoffDelay(options, AttemptAfter(f)) == Exact(options, f))
       <==> (options.base == 0
             || (options.max < U64 && (options.base < U64 || AsU64(options.base) >= options.max)))
  {
    if options.base == 0 {
      forall f: nat
        ensures BackoffDelay(options, AttemptAfter(f)) == Exact(options, f)
      {
        assert 0 * Pow2(f) == 0;
      }
    } else if options.max >= U64 {
      MaxTooLong(options);
    } else if options.base < U64 {
      forall f: nat
        ensures BackoffDelay(options, AttemptAfter(f)) == Exact(options, f)
      {
        DelayIsExact(options, f);
      }
    } else {
      BaseTooLong(options);
    }
  }

  lemma MaxTooLong(options: Options)
    requires options.base > 0 && options.max >= U64
    ensures BackoffDelay(options, AttemptAfter(64)) != Exact(options, 64)
  {
    Pow2Of64();
    assert options.base * U64 >= U64 by { assert (options.base - 1) * U64 >= 0; }
  }

  lemma ProductAtLeast(base: nat, f: nat)
    ensures base * Pow2(f) >= base
  {
    Pow2Grows(0, f);
    assert base * Pow2(f) == base + base * (Pow2(f) - 1);
  }

  lemma BaseTooLong(options: Options)
    requires options.base >= U64 > options.max
    ensures (forall f: nat :: BackoffDelay(options, AttemptAfter(f)) == Exact(options, f))
       <==> AsU64(options.base) >= options.max
  {
    var cut := Cut(options);
    if cut.base >= options.max {
      forall f: nat
        ensures BackoffDelay(options, AttemptAfter(f)) == Exact(options, f)
      {
        DelayIsExact(options, f);
        AtItsMaximum(cut, f);
        AtItsMaximum(options, f);
      }
    } else {
      DelayIsExact(options, 0);
      AtItsMaximum(options, 0);
      FirstDelay(cut);
    }
  }

  lemma AtItsMaximum(options: Options, f: nat)
    requires options.base >= options.max
    ensures Exact(options, f) == options.max
  {
    ProductAtLeast(options.base, f);
  }

  lemma FirstDelay(options: Options)
    ensures Exact(options, 0) == Min(options.base, options.max)
  {
  }

  // ---------- The reconnect loop ----------

  /** How one pass of the loop ends when `auto_reconnect` is on. */
  datatype Pass = ConnectFailed | SessionEnded

  function Failures(passes: seq<Pass>): nat {
    if passes == [] then 0
    else Failures(passes[..|passes| - 1]) + (if passes[|passes| - 1].ConnectFailed? then 1 else 0)
  }

  /** The delay after `f` failed attempts. */
  function Delay(options: Options, f: nat): nat {
    BackoffDelay(options, AttemptAfter(f))
  }

  lemma FailuresStep(passes: seq<Pass>, i: nat)
    requires i < |passes|
    ensures Failures(passes[..i + 1]) == Failures(passes[..i]) + (if passes[i].ConnectFailed? then 1 else 0)
    ensures SaturatingAdd1(AttemptAfter(Failures(passes[..i]))) == AttemptAfter(Failures(passes[..i]) + 1)
  {
    assert passes[..i + 1][..i] == passes[..i];
  }

  /** `ws_loop` while it reconnects: the counter is set once and bumped by failed attempts. */
  method WsLoop(options: Options, passes: seq<Pass>) returns (waits: seq<nat>)
    ensures |waits| == |passes|
    ensures forall i | 0 <= i < |passes| :: waits[i] == Exact(Cut(options), Failures(passes[..i]))
    ensures options.base < U64 && options.max < U64 ==>
      forall i | 0 <= i < |passes| :: waits[i] == Exact(options, Failures(passes[..i]))
  {
    waits := [];
    var attempt := 1;
    for i := 0 to |passes|
      invariant attempt == AttemptAfter(Failures(passes[..i]))
      invariant |waits| == i
      invariant forall j | 0 <= j < i :: waits[j] == Delay(options, Failures(passes[..j]))
    {
      waits := waits + [BackoffDelay(options, attempt)];
      FailuresStep(passes, i);
      if passes[i].ConnectFailed? {
        attempt := SaturatingAdd1(attempt);
      }
    }
    forall i | 0 <= i < |passes|
      ensures waits[i] == Exact(Cut(options), Failures(passes[..i]))
    {
      DelayIsExact(options, Failures(passes[..i]));
    }
    DelayIsExact(options, 0);
  }

  lemma {:induction false} FailuresGrow(passes: seq<Pass>, i: nat, j: nat)
    requires i <= j <= |passes|
    ensures Failures(passes[..i]) <= Failures(passes[..j])
    decreases j - i
  {
    if i < j {
      assert passes[..j][..j - 1] == passes[..j - 1];
      FailuresGrow(passes, i, j - 1);
    }
  }

  /** Waits never decrease over a run, and never exceed the maximum. */
  lemma WaitsAreMonotone(options: Options, passes: seq<Pass>, i: nat, j: nat)
    requires i <= j <= |passes|
    ensures Exact(options, Failures(passes[..i])) <= Exact(options, Failures(passes[..j])) <= options.max
  {
    FailuresGrow(passes, i, j);
    var a, b := Failures(passes[..i]), Failures(passes[..j]);
    Pow2Grows(a, b);
    ProductGrows(options.base, Pow2(a), Pow2(b));
  }
}
