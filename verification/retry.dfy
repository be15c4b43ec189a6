/** internal/retry/retry.go: retries with a doubling, capped and jittered delay. Delays
    are int64 nanoseconds that wrap; jitter is idealised as a real factor. */
module Retry {
  import opened Base
  import opened Scalars

  const MILLISECOND: Int64 := 1_000_000
  const SECOND: Int64 := 1_000_000_000
  const TOP := 0x4000_0000_0000_0000

  // ----- options -----

  class Options {
    var initial: Int64
    var max: Int64
    var maxAttempts: int
    var jitter: real
    var sleepSet: bool

    constructor (initial: Int64, max: Int64, maxAttempts: int, jitter: real, sleepSet: bool)
      ensures this.initial == initial && this.max == max && this.maxAttempts == maxAttempts
      ensures this.jitter == jitter && this.sleepSet == sleepSet
    {
      this.initial, this.max, this.maxAttempts, this.jitter, this.sleepSet := initial, max, maxAttempts, jitter, sleepSet;
    }

    /** applyDefaults. Afterwards both durations are positive and the jitter at most 1;
        values that were already legal are kept. A zero jitter becomes 1/4 only when no
        Sleep was set, and a negative one stays negative, which switches jitter off. */
    method ApplyDefaults()
      modifies this
      ensures initial > 0 && max > 0 && jitter <= 1.0 && sleepSet
      ensures initial == if old(initial) > 0 then old(initial) else 100 * MILLISECOND
      ensures max == if old(max) > 0 then old(max) else 30 * SECOND
      ensures maxAttempts == old(maxAttempts)
      ensures old(jitter) != 0.0 && old(jitter) <= 1.0 ==> jitter == old(jitter)
      ensures old(jitter) == 0.0 ==> jitter == if old(sleepSet) then 0.0 else 0.25
      ensures old(jitter) > 1.0 ==> jitter == 1.0
    {
      if initial <= 0 {
        initial := 100 * MILLISECOND;
      }
      if max <= 0 {
        max := 30 * SECOND;
      }
      if !sleepSet && jitter == 0.0 {
        jitter := 0.25;
      }
      if jitter > 1.0 {
        jitter := 1.0;
      }
      sleepSet := true;
    }
  }

  // ----- the delay after an attempt -----

  function Pow2(k: nat): (p: nat)
    ensures p >= 1
  {
    if k == 0 then 1 else 2 * Pow2(k - 1)
  }

  /** delay *= 2 on an int64. */
  function Twice(d: Int64): Int64 {
    if 2 * d >= 2 * TOP then 2 * d - 4 * TOP
    else if 2 * d < -2 * TOP then 2 * d + 4 * TOP
    else 2 * d
  }

  /** What the doubling loop makes of the initial delay in at most `left` turns. */
  function Doubled(d: Int64, max: Int64, left: nat): Int64
    decreases left
  {
    if left == 0 then d
    else if Twice(d) > max then max
    else Doubled(Twice(d), max, left - 1)
  }

  /** The loop of Do that computes the delay after attempt n. */
  method DelayAfter(initial: Int64, max: Int64, n: nat) returns (delay: Int64)
    requires n >= 1
    ensures delay == Doubled(initial, max, n - 1)
  {
    delay := initial;
    var i := 1;
    while i < n
      invariant 1 <= i <= n
      invariant Doubled(delay, max, n - i) == Doubled(initial, max, n - 1)
    {
      delay := Twice(delay);
      if delay > max {
        return max;
      }
      i := i + 1;
    }
  }

  /** The documented delay: the initial one doubled n - 1 times, capped. */
  function Promised(initial: Int64, max: Int64, n: nat): int
    requires n >= 1
  {
    Min(initial * Pow2(n - 1), max)
  }

  function Min(a: int, b: int): int {
    if a <= b then a else b
  }

  /** No doubling that the cap lets through reaches 2^62. */
  ghost predicate Fits(d: Int64, max: Int64) {
    d < TOP && forall k: nat :: d * Pow2(k) <= max ==> d * Pow2(k) < TOP
  }

  lemma DoublingShift(d: int, k: nat)
    ensures d * Pow2(k + 1) == 2 * d * Pow2(k)
  {
  }

  lemma PowGrows(d: int, k: nat)
    requires d > 0
    ensures d * Pow2(k) >= d
  {
    assert d * (Pow2(k) - 1) >= 0;
  }

  lemma FitsLater(d: Int64, max: Int64)
    requires Fits(d, max) && 0 < d && 2 * d <= max
    ensures Fits(2 * d, max)
  {
    assert Pow2(1) == 2;
    assert d * Pow2(1) < TOP;
    forall k: nat | 2 * d * Pow2(k) <= max
      ensures 2 * d * Pow2(k) < TOP
    {
      DoublingShift(d, k);
    }
  }

  /** Without a wrap the loop computes the documented delay, apart from the very first
      one, which is not capped. */
  lemma {:induction false} DoublingIsCapped(d: Int64, max: Int64, n: nat)
    requires 0 < d && 0 < max && Fits(d, max) && n >= 1
    ensures Doubled(d, max, n - 1) == if n == 1 then d else Promised(d, max, n)
    decreases n
  {
    if n > 1 {
      assert Twice(d) == 2 * d;
      DoublingShift(d, n - 2);
      if 2 * d > max {
        PowGrows(2 * d, n - 2);
      } else {
        FitsLater(d, max);
        DoublingIsCapped(2 * d, max, n - 1);
      }
    }
  }

  /** The first doubling that reaches 2^62 below the cap makes the next delay negative. */
  lemma {:induction false} WrapsAt(d: Int64, max: Int64, k: nat)
    requires 0 < d && 0 < max && d * Pow2(k) >= TOP && (k == 0 || d * Pow2(k) <= max)
    requires forall j: nat :: j < k ==> d * Pow2(j) < TOP
    ensures Doubled(d, max, k + 1) < 0
    decreases k
  {
    if k > 0 {
      assert d * Pow2(0) < TOP;
      DoublingShift(d, k - 1);
      PowGrows(2 * d, k - 1);
      forall j: nat | j < k - 1
        ensures 2 * d * Pow2(j) < TOP
      {
        DoublingShift(d, j);
        assert d * Pow2(j + 1) < TOP;
      }
      WrapsAt(2 * d, max, k - 1);
    } else {
      assert Twice(d) < 0;
    }
  }

  lemma {:induction false} FirstAtTop(d: Int64, k: nat) returns (first: nat)
    requires 0 < d && d * Pow2(k) >= TOP
    ensures first <= k && d * Pow2(first) >= TOP && forall j: nat :: j < first ==> d * Pow2(j) < TOP
  {
    first := 0;
    while d * Pow2(first) < TOP
      invariant first <= k
      invariant forall j: nat :: j < first ==> d * Pow2(j) < TOP
      decreases k - first
    {
      first := first + 1;
    }
  }

  lemma {:induction false} PowMonotone(d: int, j: nat, k: nat)
    requires d > 0 && j <= k
    ensures d * Pow2(j) <= d * Pow2(k)
    decreases k
  {
    if j < k {
      PowMonotone(d, j, k - 1);
      DoublingShift(d, k - 1);
      PowGrows(d, k - 1);
    }
  }

  /** The loop's delay after every attempt is what the documentation promises if and only
      if Initial is at most Max and no doubling of Initial that Max lets through is 2^62
      or more; the second condition alone decides about every attempt but the first. */
  lemma DelaysAreAsPromised(initial: Int64, max: Int64)
    requires 0 < initial && 0 < max
    ensures (forall n: nat :: n >= 1 ==> Doubled(initial, max, n - 1) == Promised(initial, max, n))
            <==> initial <= max && Fits(initial, max)
    ensures (forall n: nat :: n >= 2 ==> Doubled(initial, max, n - 1) == Promised(initial, max, n))
            <==> Fits(initial, max)
  {
    assert Pow2(0) == 1 && Doubled(initial, max, 0) == initial;
    if Fits(initial, max) {
      forall n: nat | n >= 1
        ensures Doubled(initial, max, n - 1) == if n == 1 then initial else Promised(initial, max, n)
      {
        DoublingIsCapped(initial, max, n);
      }
      if initial > max {
        assert Doubled(initial, max, 1 - 1) != Promised(initial, max, 1);
      }
    } else {
      var n := BrokenDelay(initial, max);
      assert Doubled(initial, max, n - 1) != Promised(initial, max, n);
    }
  }

  lemma BrokenDelay(initial: Int64, max: Int64) returns (n: nat)
    requires 0 < initial && 0 < max && !Fits(initial, max)
    ensures n >= 2 && Doubled(initial, max, n - 1) < 0 && Promised(initial, max, n) > 0
  {
    var k: nat;
    if initial >= TOP {
      k := 0;
      assert Pow2(0) == 1;
    } else {
      k :| initial * Pow2(k) <= max && initial * Pow2(k) >= TOP;
    }
    var first := FirstAtTop(initial, k);
    if first > 0 {
      PowMonotone(initial, first, k);
    }
    WrapsAt(initial, max, first);
    n := first + 2;
    PowGrows(initial, n - 1);
  }

  /** The first delay exceeds the cap when Initial does: Initial 3, Max 2. */
  lemma FirstDelayCanExceedMax()
    ensures Doubled(3, 2, 1 - 1) == 3 && Promised(3, 2, 1) == 2
  {
    assert Pow2(0) == 1;
  }

  /** The second delay is negative when Initial is 2^62 and Max the largest int64. */
  lemma SecondDelayCanWrap()
    ensures Doubled(TOP, 2 * TOP - 1, 2 - 1) == -2 * TOP && Promised(TOP, 2 * TOP - 1, 2) == 2 * TOP - 1
  {
    assert Pow2(0) == 1 && Pow2(1) == 2;
    assert Twice(TOP) == -2 * TOP;
  }

  /** A cap below 2^62 rules every wrap out. */
  lemma SmallCapFits(initial: Int64, max: Int64)
    requires 0 < initial <= max < TOP
    ensures Fits(initial, max)
  {
  }

  /** The promised delays never decrease. */
  lemma PromisedGrows(initial: Int64, max: Int64, m: nat, n: nat)
    requires 0 < initial && 1 <= m <= n
    ensures Promised(initial, max, m) <= Promised(initial, max, n)
  {
    PowMonotone(initial, m - 1, n - 1);
  }

  // ----- Do -----

  /** One turn of the loop as the world decides it: whether the context is done before
      the call, whether the call succeeds, whether the context is done during the wait,
      and the random number in [0, 1) for the jitter. */
  datatype Turn = Turn(doneBefore: bool, ok: bool, doneInWait: bool, random: real)

  /** How Do ended; Running means that the given turns did not decide it. */
  datatype Result = Success | Cancelled | Exhausted | Running

  predicate GoesOn(t: Turn) {
    !t.doneBefore && !t.ok && !t.doneInWait
  }

  /** 1 + Jitter * (2 * rand.Float64() - 1) */
  function Factor(jitter: real, random: real): real {
    1.0 + jitter * (2.0 * random - 1.0)
  }

  function Scaled(d: Int64, factor: real): real {
    d as real * factor
  }

  /** The jittered delay. */
  function Jittered(d: Int64, jitter: real, random: real): real {
    if jitter > 0.0 then Scaled(d, Factor(jitter, random)) else d as real
  }

  /** The turn that ends the loop decides the result and the number of calls of fn. */
  ghost predicate Ends(script: seq<Turn>, maxAttempts: int, i: nat, r: Result, calls: nat)
    requires i <= |script|
  {
    && (forall j :: 0 <= j < i ==> GoesOn(script[j]))
    && (maxAttempts > 0 ==> i < maxAttempts)
    && if i == |script| then r == Running && calls == i
       else if script[i].doneBefore then r == Cancelled && calls == i
       else if script[i].ok then r == Success && calls == i + 1
       else if maxAttempts > 0 && i + 1 == maxAttempts then r == Exhausted && calls == i + 1
       else script[i].doneInWait && r == Cancelled && calls == i + 1
  }

  /** Do, after applyDefaults. The check of MaxAttempts before a call never fires: the
      check after the previous call came first. */
  method Do(initial: Int64, max: Int64, maxAttempts: int, jitter: real, script: seq<Turn>)
    returns (r: Result, calls: nat, waits: seq<real>)
    ensures exists i :: 0 <= i <= |script| && Ends(script, maxAttempts, i, r, calls)
    ensures |waits| <= |script| && |waits| == (if r == Success || r == Exhausted then calls - 1 else calls)
    ensures forall j :: 0 <= j < |waits| ==> waits[j] == Jittered(Doubled(initial, max, j), jitter, script[j].random)
  {
    calls, waits := 0, [];
    for i := 0 to |script|
      invariant calls == i && |waits| == i
      invariant forall j :: 0 <= j < i ==> GoesOn(script[j])
      invariant maxAttempts > 0 ==> i < maxAttempts
      invariant forall j :: 0 <= j < i ==> waits[j] == Jittered(Doubled(initial, max, j), jitter, script[j].random)
    {
      if script[i].doneBefore {
        assert Ends(script, maxAttempts, i, Cancelled, calls);
        return Cancelled, calls, waits;
      }
      calls := calls + 1;
      if script[i].ok {
        assert Ends(script, maxAttempts, i, Success, calls);
        return Success, calls, waits;
      }
      if maxAttempts > 0 && i + 1 >= maxAttempts {
        assert Ends(script, maxAttempts, i, Exhausted, calls);
        return Exhausted, calls, waits;
      }
      var delay := DelayAfter(initial, max, i + 1);
      waits := waits + [Jittered(delay, jitter, script[i].random)];
      if script[i].doneInWait {
        assert Ends(script, maxAttempts, i, Cancelled, calls);
        return Cancelled, calls, waits;
      }
    }
    assert Ends(script, maxAttempts, |script|, Running, calls);
    return Running, calls, waits;
  }

  /** The turns determine the result: no two ends are possible. */
  lemma EndIsUnique(script: seq<Turn>, maxAttempts: int, i: nat, r: Result, calls: nat, i': nat, r': Result, calls': nat)
    requires i <= |script| && Ends(script, maxAttempts, i, r, calls)
    requires i' <= |script| && Ends(script, maxAttempts, i', r', calls')
    ensures i == i' && r == r' && calls == calls'
  {
    EndsAtAStop(script, maxAttempts, i, r, calls);
    EndsAtAStop(script, maxAttempts, i', r', calls');
  }

  /** Exhaustion happens after exactly MaxAttempts calls, all of which failed, with the
      context never done; and with no limit on attempts Do fails only by cancellation. */
  lemma ExhaustedExactly(script: seq<Turn>, maxAttempts: int, i: nat, r: Result, calls: nat)
    requires i <= |script| && Ends(script, maxAttempts, i, r, calls)
    ensures r == Exhausted <==>
            && 0 < maxAttempts <= |script|
            && (forall j :: 0 <= j < maxAttempts - 1 ==> GoesOn(script[j]))
            && !script[maxAttempts - 1].doneBefore && !script[maxAttempts - 1].ok
    ensures r == Exhausted ==> calls == maxAttempts
    ensures maxAttempts <= 0 ==> r != Exhausted
    ensures r == Cancelled ==> i < |script| && (script[i].doneBefore || script[i].doneInWait)
  {
    EndsAtAStop(script, maxAttempts, i, r, calls);
    hide GoesOn;
    if 0 < maxAttempts <= |script| && (forall j :: 0 <= j < maxAttempts - 1 ==> GoesOn(script[j])) {
      assert i == maxAttempts - 1;
    }
  }

  /** The ending turn does not go on, unless attempts or turns have run out. */
  lemma EndsAtAStop(script: seq<Turn>, maxAttempts: int, i: nat, r: Result, calls: nat)
    requires i <= |script| && Ends(script, maxAttempts, i, r, calls)
    ensures i < |script| ==> !GoesOn(script[i]) || i + 1 == maxAttempts
  {
  }

  /** A jittered delay stays within the fraction it may vary by, and is never negative. */
  lemma JitterStaysNear(d: Int64, jitter: real, random: real)
    requires d >= 0 && 0.0 <= random < 1.0 && jitter <= 1.0
    ensures var w := Jittered(d, jitter, random);
            && 0.0 <= w
            && (if jitter > 0.0 then Scaled(d, 1.0 - jitter) <= w <= Scaled(d, 1.0 + jitter) else w == d as real)
  {
    hide Scaled, Factor;
    if jitter > 0.0 {
      FactorBounds(jitter, random);
      ScaledGrows(d, 1.0 - jitter, Factor(jitter, random));
      ScaledGrows(d, Factor(jitter, random), 1.0 + jitter);
      ScaledGrows(d, 0.0, Factor(jitter, random));
      ScaledByZero(d);
    }
  }

  /** The wait is linear in the random number: from 1 - Jitter of the delay at 0, over the
      delay itself at 1/2, towards 1 + Jitter of it at 1. */
  lemma JitterIsLinear(d: Int64, jitter: real, random: real)
    requires jitter > 0.0
    ensures Jittered(d, jitter, 0.0) == d as real * (1.0 - jitter)
    ensures Jittered(d, jitter, 0.5) == d as real
    ensures Jittered(d, jitter, random) - Jittered(d, jitter, 0.0) == random * (2.0 * jitter * d as real)
  {
    assert Factor(jitter, 0.5) == 1.0;
    Expand(d as real, jitter, random);
    Expand(d as real, jitter, 0.0);
  }

  lemma Expand(d: real, jitter: real, random: real)
    ensures d * (1.0 + jitter * (2.0 * random - 1.0)) == d * (1.0 - jitter) + random * (2.0 * jitter * d)
  {
    assert jitter * (2.0 * random - 1.0) == 2.0 * jitter * random - jitter;
    assert d * (2.0 * jitter * random) == random * (2.0 * jitter * d);
  }

  lemma ScaledGrows(d: Int64, a: real, b: real)
    requires d >= 0 && a <= b
    ensures Scaled(d, a) <= Scaled(d, b)
  {
    Scale(d as real, a, b);
  }

  lemma ScaledByZero(d: Int64)
    ensures Scaled(d, 0.0) == 0.0
  {
  }

  lemma Scale(r: real, a: real, b: real)
    requires r >= 0.0 && a <= b
    ensures r * a <= r * b
  {
    assert r * (b - a) >= 0.0;
  }

  lemma FactorBounds(jitter: real, random: real)
    requires jitter > 0.0 && 0.0 <= random < 1.0
    ensures 1.0 - jitter <= Factor(jitter, random) <= 1.0 + jitter
  {
    Scale(jitter, -1.0, 2.0 * random - 1.0);
    Scale(jitter, 2.0 * random - 1.0, 1.0);
  }
}
