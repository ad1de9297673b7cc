/**
 * High-resolution timers: forwarding an expiry by whole intervals with an approximate division, and
 * the queue of pending timers in the order of their expiry.
 */
module Hrtimer {
  import opened Arith

  const TWO32: nat := 0x1_0000_0000
  const TWO31: nat := 0x8000_0000
  const TWO63: nat := 0x8000_0000_0000_0000

  /** Unsigned division. */
  function Quot(a: nat, d: nat): nat
    requires d > 0
  {
    a / d
  }

  /** Dividing the shifted numbers never gives less than the true quotient. */
  lemma ShiftedAtLeast(delta: nat, v: nat, p: nat)
    requires p > 0 && v / p > 0
    ensures delta / v <= (delta / p) / (v / p)
  {
    var k, d, big := delta / v, v / p, delta / p;
    Bounds(delta, v);
    Bounds(v, p);
    Bounds(delta, p);
    Bounds(big, d);
    assert k * d * p <= k * v by {
      MulMono(d * p, v, k);
    }
    assert k * d <= big by {
      if k * d > big {
        MulMono(big + 1, k * d, p);
      }
    }
    var q := big / d;
    if q < k {
      MulMono(q + 1, k, d);
    }
  }

  lemma Crossed(k: nat, d: nat)
    requires d > k
    ensures (k + 2) * d >= (k + 1) * (d + 1)
  {
  }

  lemma Scaled(k: nat, d: nat, p: nat, v: nat, big: nat, delta: nat)
    requires (k + 1) * (d + 1) <= big && v < (d + 1) * p && delta < (k + 1) * v
    ensures big * p > delta
  {
  }

  /** Nor more than one too many, when the shifted divisor is larger than the true quotient. */
  lemma ShiftedAtMost(delta: nat, v: nat, p: nat)
    requires p > 0 && v > 0 && v / p > delta / v
    ensures (delta / p) / (v / p) <= delta / v + 1
  {
    var k, d, big := delta / v, v / p, delta / p;
    Bounds(delta, v);
    Bounds(v, p);
    Bounds(delta, p);
    Bounds(big, d);
    var q := big / d;
    if q >= k + 2 {
      MulMono(k + 2, q, d);
      Crossed(k, d);
      Scaled(k, d, p, v, big, delta);
    }
  }

  /** The true quotient of 63-bit times is small when the divisor is large. */
  lemma SmallQuotient(delta: nat, v: nat)
    requires delta < TWO63 && v >= TWO32
    ensures delta / v < TWO31
  {
  }

  /** The loop of ktime_divns: halve the divisor until it fits in 32 bits. */
  method Shrink(v: nat) returns (sft: nat, div: nat)
    requires v > 0
    ensures 0 < div == v / Pow2(sft) && div < TWO32
    ensures v < TWO32 ==> sft == 0
    ensures v >= TWO32 ==> div >= TWO31
  {
    sft, div := 0, v;
    while div / TWO32 > 0
      invariant 0 < div == v / Pow2(sft)
      invariant v < TWO32 ==> sft == 0
      invariant v >= TWO32 ==> div >= TWO31
    {
      HalfAgain(v, Pow2(sft));
      sft := sft + 1;
      div := div / 2;
    }
  }

  lemma Approximates(delta: nat, v: nat, p: nat)
    requires delta < TWO63 && v >= TWO32 && p > 0 && v / p >= TWO31
    ensures delta / v <= (delta / p) / (v / p) <= delta / v + 1
  {
    SmallQuotient(delta, v);
    ShiftedAtLeast(delta, v, p);
    ShiftedAtMost(delta, v, p);
  }

  /** ktime_divns on 32-bit machines, before the cast of its result. */
  method DivNs(delta: nat, v: nat) returns (r: nat)
    requires v > 0
    ensures v < TWO32 ==> r == delta / v
    ensures delta < TWO63 ==> delta / v <= r <= delta / v + 1
  {
    var sft, div := Shrink(v);
    var dclc := Quot(delta, Pow2(sft));
    r := Quot(dclc, div);
    Quotient(delta, v, Pow2(sft), div, dclc, r);
  }

  lemma Quotient(delta: nat, v: nat, p: nat, div: nat, dclc: nat, r: nat)
    requires v > 0 && p > 0 && 0 < div == v / p && dclc == delta / p && r == dclc / div
    requires v < TWO32 ==> p == 1
    requires v >= TWO32 ==> div >= TWO31
    ensures v < TWO32 ==> r == delta / v
    ensures delta < TWO63 ==> delta / v <= r <= delta / v + 1
  {
    if v < TWO32 {
      assert dclc == delta && div == v;
    } else if delta < TWO63 {
      Approximates(delta, v, p);
    }
  }

  /** The quotient may indeed be one too large. */
  lemma OneTooMany()
    ensures var delta, v := 3 * TWO32 + 2, TWO32 + 1;
      v / Pow2(1) >= TWO31 && (delta / Pow2(1)) / (v / Pow2(1)) == delta / v + 1
  {
  }

  lemma HalfAgain(v: nat, p: nat)
    requires p > 0
    ensures v / p / 2 == v / (2 * p)
  {
    var a := v / p;
    Bounds(v, p);
    Bounds(a, 2);
    MulMono((a / 2) * 2, a, p);
    MulMono(a + 1, (a / 2 + 1) * 2, p);
    DivIs(v, 2 * p, a / 2);
  }

  // ----- hrtimer_forward -----

  function Max(a: int, b: int): int { if a < b then b else a }

  /** The expiry n intervals on is the first one past now. */
  predicate Lands(expires: int, now: int, v: nat, n: nat) {
    now < expires + n * v <= now + v
  }

  lemma LandsOnce(expires: int, now: int, v: nat, n: nat, n': nat)
    requires Lands(expires, now, v, n) && Lands(expires, now, v, n')
    ensures n == n'
  {
    if n < n' {
      MulMono(n + 1, n', v);
    } else if n' < n {
      MulMono(n' + 1, n, v);
    }
  }

  lemma QuotientLands(expires: int, now: int, v: nat)
    requires now >= expires && v > 0
    ensures Lands(expires, now, v, Quot(now - expires, v) + 1)
    ensures expires + Quot(now - expires, v) * v <= now
  {
  }

  /** Truncation to the unsigned long of a 32-bit machine. */
  function Word(x: nat): nat { x % TWO32 }

  /** What the code makes of the quotient q: the new expiry and the count. */
  function Forwarded(expires: int, now: int, v: nat, q: nat): (int, nat) {
    var orun := Word(q);
    var e := expires + v * orun;
    if e > now then (e, orun) else (e + v, Word(orun + 1))
  }

  /** With k the true quotient, the expiry is exact if and only if k + 1 is at most 2^32, and the count
      if and only if it is less. */
  lemma ForwardedExact(expires: int, now: int, v: nat, q: nat, k: nat)
    requires v > 0 && now >= expires && k == Quot(now - expires, v) && (q == k || (q == k + 1 && k < TWO31))
    ensures var (e, orun) := Forwarded(expires, now, v, q);
      && (e == expires + v * (k + 1) <==> k + 1 <= TWO32)
      && (orun == k + 1 <==> k + 1 < TWO32)
  {
  }

  /** One tick of a clock that ticks 100 times a second, in nanoseconds: the resolution of its timers. */
  const TICK_NSEC: nat := 10_000_000

  /** 2^32 periods of one tick: the count comes out as one, and the timer stays in the past. */
  lemma TooManyPeriods()
    ensures TWO32 * TICK_NSEC < TWO63 && Quot(TWO32 * TICK_NSEC, TICK_NSEC) == TWO32
    ensures Forwarded(0, TWO32 * TICK_NSEC, TICK_NSEC, TWO32) == (TICK_NSEC, 1)
  {
  }

  /** The expiry moves forward, and no further than one interval past now. */
  lemma ForwardedBounded(expires: int, now: int, v: nat, q: nat, k: nat)
    requires v > 0 && now >= expires && k == Quot(now - expires, v) && (q == k || (q == k + 1 && k < TWO31))
    ensures expires <= Forwarded(expires, now, v, q).0 <= now + v
  {
    var orun := Word(q);
    QuotientLands(expires, now, v);
    if orun <= k {
      MulMono(orun, k, v);
    }
  }

  lemma ForwardedCases(delta: nat, v: nat, q: nat)
    requires v > 0 && delta < TWO63
    requires v < TWO32 ==> q == delta / v
    requires delta / v <= q <= delta / v + 1
    ensures q == Quot(delta, v) || (q == Quot(delta, v) + 1 && Quot(delta, v) < TWO31)
  {
  }

  lemma ForwardedMeets(expires: int, now: int, v: nat, q: nat)
    requires v > 0 && 0 <= now - expires < TWO63
    requires v < TWO32 ==> q == (now - expires) / v
    requires (now - expires) / v <= q <= (now - expires) / v + 1
    ensures var (e, orun) := Forwarded(expires, now, v, q); var n := Quot(now - expires, v) + 1;
      && Lands(expires, now, v, n)
      && (e == expires + v * n <==> n <= TWO32)
      && (orun == n <==> n < TWO32)
      && expires <= e <= now + v
  {
    QuotientLands(expires, now, v);
    ForwardedCases(now - expires, v, q);
    ForwardedExact(expires, now, v, q, Quot(now - expires, v));
    ForwardedBounded(expires, now, v, q, Quot(now - expires, v));
  }

  class Timer {
    var expires: int
    const resolution: nat

    /** hrtimer_forward: the expiry lands on the first multiple past now, and the count tells how many
        intervals that took, as long as the count fits in the 32-bit result. The expiry is never more
        than one interval past now, so it fits in 64 bits when that does. */
    method Forward(now: int, interval: int) returns (orun: nat)
      requires resolution > 0 && now - expires < TWO63
      modifies this
      ensures now < old(expires) ==> orun == 0 && expires == old(expires)
      ensures now >= old(expires) ==>
        var v := Max(interval, resolution); var n := Quot(now - old(expires), v) + 1;
        && Lands(old(expires), now, v, n)
        && (expires == old(expires) + v * n <==> n <= TWO32)
        && (orun == n <==> n < TWO32)
        && old(expires) <= expires <= now + v
    {
      var delta := now - expires;
      if delta < 0 {
        return 0;
      }
      var v: nat := Max(interval, resolution);
      orun := 1;
      if delta >= v {
        var q := DivNs(delta, v);
        ForwardedMeets(expires, now, v, q);
        orun := Word(q);
        expires := expires + v * orun;
        if expires > now {
          return;
        }
        orun := Word(orun + 1);
      } else {
        DivIs(delta, v, 0);
        ForwardedMeets(expires, now, v, 0);
      }
      expires := expires + v;
    }
  }
}
