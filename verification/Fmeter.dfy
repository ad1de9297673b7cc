/** The frequency meter behind memory_pressure: a low-pass filter in 32-bit integers. */
module Fmeter {
  const COEF := 933
  const SCALE := 1000
  const MAXTICKS := 99
  const MAXCNT := 1000000

  /** val after n ticks without events. */
  function Decayed(val: nat, n: nat): nat {
    if n == 0 then val else COEF * Decayed(val, n - 1) / SCALE
  }

  lemma {:induction false} DecayShrinks(val: nat, n: nat)
    ensures Decayed(val, n) <= val && (n > 0 && val < MAXCNT ==> Decayed(val, n) < COEF * SCALE)
  {
    if n > 0 {
      DecayShrinks(val, n - 1);
    }
  }

  /** Without events the value is cut in half every ten seconds. */
  lemma HalvesInTen(val: nat, n: nat)
    ensures Decayed(val, n + 10) <= Decayed(val, n) / 2
  {
    FiveTicks(val, n);
    FiveTicks(val, n + 5);
  }

  lemma FiveTicks(val: nat, n: nat)
    ensures 1000000 * Decayed(val, n + 5) <= 706986 * Decayed(val, n)
  {
    var v := Decayed(val, n);
    var a, b, c, d := Decayed(val, n + 1), Decayed(val, n + 2), Decayed(val, n + 3), Decayed(val, n + 4);
    assert 1000 * a <= 933 * v;
    assert 1000 * b <= 933 * a;
    assert 1000 * c <= 933 * b;
    assert 1000 * d <= 933 * c;
    assert 1000 * Decayed(val, n + 5) <= 933 * d;
  }

  /** And it reaches zero, not merely something small. */
  lemma {:induction false} DiesOut(val: nat, n: nat)
    ensures Decayed(val, n) <= if n < val then val - n else 0
  {
    if n > 0 {
      DiesOut(val, n - 1);
    }
  }

  /** The ticks the filter runs for: none when the clock was set back, and no more than MAXTICKS. */
  function Ticks(elapsed: int): nat {
    if elapsed < 0 then 0 else if elapsed < MAXTICKS then elapsed else MAXTICKS
  }

  lemma {:induction false} DecayStep(val: nat, n: nat)
    ensures Decayed(val, n + 1) <= Decayed(val, n) && (Decayed(val, n) > 0 ==> Decayed(val, n + 1) < Decayed(val, n))
  {
  }

  lemma {:induction false} DecayFurther(val: nat, n: nat, k: nat)
    ensures Decayed(val, n + k) <= Decayed(val, n)
    ensures k > 0 && Decayed(val, n) > 0 ==> Decayed(val, n + k) < Decayed(val, n)
  {
    if k > 0 {
      DecayFurther(val, n, k - 1);
      DecayStep(val, n + k - 1);
    }
  }

  /** One tick takes v to w. */
  predicate Ticked(v: int, w: int) { 1000 * w <= 933 * v < 1000 * w + 1000 }

  /** The value after n ticks is on the same side of v0 as after three more of v3. */
  lemma {:induction false} ThreeTicks(val: nat, n: nat, v0: nat, v1: nat, v2: nat, v3: nat)
    requires Ticked(v0, v1) && Ticked(v1, v2) && Ticked(v2, v3)
    ensures Decayed(val, n) <= v0 ==> Decayed(val, n + 3) <= v3
    ensures Decayed(val, n) >= v0 ==> Decayed(val, n + 3) >= v3
  {
    var a, b := Decayed(val, n + 1), Decayed(val, n + 2);
    assert (Decayed(val, n) <= v0 ==> a <= v1) && (Decayed(val, n) >= v0 ==> a >= v1);
    assert (a <= v1 ==> b <= v2) && (a >= v1 ==> b >= v2);
  }

  lemma {:induction false} NineTicks(val: nat, n: nat, v0: nat, v1: nat, v2: nat, v3: nat, v4: nat, v5: nat, v6: nat, v7: nat, v8: nat, v9: nat)
    requires Ticked(v0, v1) && Ticked(v1, v2) && Ticked(v2, v3) && Ticked(v3, v4)
    requires Ticked(v4, v5) && Ticked(v5, v6) && Ticked(v6, v7) && Ticked(v7, v8) && Ticked(v8, v9)
    ensures Decayed(val, n) <= v0 ==> Decayed(val, n + 9) <= v9
    ensures Decayed(val, n) >= v0 ==> Decayed(val, n + 9) >= v9
  {
    ThreeTicks(val, n, v0, v1, v2, v3);
    ThreeTicks(val, n + 3, v3, v4, v5, v6);
    ThreeTicks(val, n + 6, v6, v7, v8, v9);
  }

  /** The least value from which MAXTICKS ticks do not lead to zero. */
  const LIVELY: nat := 8408

  lemma {:induction false} JustGoneHalf(val: nat, n: nat)
    requires Decayed(val, n) < LIVELY
    ensures Decayed(val, n + 54) <= 191
  {
    NineTicks(val, n, 8407, 7843, 7317, 6826, 6368, 5941, 5542, 5170, 4823, 4499);
    NineTicks(val, n + 9, 4499, 4197, 3915, 3652, 3407, 3178, 2965, 2766, 2580, 2407);
    NineTicks(val, n + 18, 2407, 2245, 2094, 1953, 1822, 1699, 1585, 1478, 1378, 1285);
    NineTicks(val, n + 27, 1285, 1198, 1117, 1042, 972, 906, 845, 788, 735, 685);
    NineTicks(val, n + 36, 685, 639, 596, 556, 518, 483, 450, 419, 390, 363);
    NineTicks(val, n + 45, 363, 338, 315, 293, 273, 254, 236, 220, 205, 191);
  }

  lemma {:induction false} JustGone(val: nat, n: nat)
    requires Decayed(val, n) < LIVELY
    ensures Decayed(val, n + 99) == 0
  {
    JustGoneHalf(val, n);
    NineTicks(val, n + 54, 191, 178, 166, 154, 143, 133, 124, 115, 107, 99);
    NineTicks(val, n + 63, 99, 92, 85, 79, 73, 68, 63, 58, 54, 50);
    NineTicks(val, n + 72, 50, 46, 42, 39, 36, 33, 30, 27, 25, 23);
    NineTicks(val, n + 81, 23, 21, 19, 17, 15, 13, 12, 11, 10, 9);
    NineTicks(val, n + 90, 9, 8, 7, 6, 5, 4, 3, 2, 1, 0);
  }

  lemma {:induction false} JustLeftHalf(val: nat, n: nat)
    requires Decayed(val, n) >= LIVELY
    ensures Decayed(val, n + 54) >= 192
  {
    NineTicks(val, n, 8408, 7844, 7318, 6827, 6369, 5942, 5543, 5171, 4824, 4500);
    NineTicks(val, n + 9, 4500, 4198, 3916, 3653, 3408, 3179, 2966, 2767, 2581, 2408);
    NineTicks(val, n + 18, 2408, 2246, 2095, 1954, 1823, 1700, 1586, 1479, 1379, 1286);
    NineTicks(val, n + 27, 1286, 1199, 1118, 1043, 973, 907, 846, 789, 736, 686);
    NineTicks(val, n + 36, 686, 640, 597, 557, 519, 484, 451, 420, 391, 364);
    NineTicks(val, n + 45, 364, 339, 316, 294, 274, 255, 237, 221, 206, 192);
  }

  lemma {:induction false} JustLeft(val: nat, n: nat)
    requires Decayed(val, n) >= LIVELY
    ensures Decayed(val, n + 99) > 0
  {
    JustLeftHalf(val, n);
    NineTicks(val, n + 54, 192, 179, 167, 155, 144, 134, 125, 116, 108, 100);
    NineTicks(val, n + 63, 100, 93, 86, 80, 74, 69, 64, 59, 55, 51);
    NineTicks(val, n + 72, 51, 47, 43, 40, 37, 34, 31, 28, 26, 24);
    NineTicks(val, n + 81, 24, 22, 20, 18, 16, 14, 13, 12, 11, 10);
    NineTicks(val, n + 90, 10, 9, 8, 7, 6, 5, 4, 3, 2, 1);
  }

  lemma {:induction false} LivelyExact(val: nat, n: nat, k: nat)
    requires n == 0 && k == n + 99
    ensures Decayed(val, k) == 0 <==> val < LIVELY
  {
    if val < LIVELY {
      JustGone(val, n);
    } else {
      JustLeft(val, n);
    }
  }

  /** One update over a gap is the filter over that gap if and only if the gap is at most MAXTICKS, or
      the value was low enough to be gone by then. */
  lemma {:induction false} GapExact(val: nat, elapsed: nat)
    ensures Decayed(val, Ticks(elapsed)) == Decayed(val, elapsed) <==> elapsed <= MAXTICKS || val < LIVELY
  {
    if elapsed > MAXTICKS {
      var n := Ticks(elapsed);
      LivelyExact(val, n - 99, n);
      DecayFurther(val, n, elapsed - n);
    }
  }

  lemma {:induction false} HighestLeftHalf(val: nat, n: nat)
    requires Decayed(val, n) == MAXCNT - 1
    ensures Decayed(val, n + 54) == 23631
  {
    NineTicks(val, n, 999999, 932999, 870488, 812165, 757749, 706979, 659611, 615417, 574184, 535713);
    NineTicks(val, n + 9, 535713, 499820, 466332, 435087, 405936, 378738, 353362, 329686, 307597, 286988);
    NineTicks(val, n + 18, 286988, 267759, 249819, 233081, 217464, 202893, 189299, 176615, 164781, 153740);
    NineTicks(val, n + 27, 153740, 143439, 133828, 124861, 116495, 108689, 101406, 94611, 88272, 82357);
    NineTicks(val, n + 36, 82357, 76839, 71690, 66886, 62404, 58222, 54321, 50681, 47285, 44116);
    NineTicks(val, n + 45, 44116, 41160, 38402, 35829, 33428, 31188, 29098, 27148, 25329, 23631);
  }

  lemma {:induction false} HighestLeft(val: nat, n: nat)
    requires Decayed(val, n) == MAXCNT - 1
    ensures Decayed(val, n + 99) == 1035
  {
    HighestLeftHalf(val, n);
    NineTicks(val, n + 54, 23631, 22047, 20569, 19190, 17904, 16704, 15584, 14539, 13564, 12655);
    NineTicks(val, n + 63, 12655, 11807, 11015, 10276, 9587, 8944, 8344, 7784, 7262, 6775);
    NineTicks(val, n + 72, 6775, 6321, 5897, 5501, 5132, 4788, 4467, 4167, 3887, 3626);
    NineTicks(val, n + 81, 3626, 3383, 3156, 2944, 2746, 2562, 2390, 2229, 2079, 1939);
    NineTicks(val, n + 90, 1939, 1809, 1687, 1573, 1467, 1368, 1276, 1190, 1110, 1035);
  }

  /** Read after any gap of 99 seconds or more, the highest value is 1035, although the filter itself
      would have been at zero after 198. */
  lemma {:induction false} LongGap(val: nat, elapsed: nat)
    requires val == MAXCNT - 1 && elapsed >= MAXTICKS
    ensures Decayed(val, Ticks(elapsed)) == 1035 && (elapsed >= 198 ==> Decayed(val, elapsed) == 0)
  {
    var n := Ticks(elapsed);
    HighestLeft(val, n - 99);
    if elapsed >= 198 {
      JustGone(val, n);
      DecayFurther(val, n + 99, elapsed - 198);
    }
  }

  /** Without a tick in between, a full count takes a high value past the bound. */
  lemma NoRoomExample()
    ensures 950000 < MAXCNT <= Decayed(950000, Ticks(-1)) + (SCALE - COEF) * MAXCNT / SCALE
  {
  }

  class Meter {
    var cnt: nat
    var val: nat
    var time: int

    constructor ()
      ensures Sane()
    {
      cnt, val, time := 0, 0, 0;
    }

    /** The value is just under one million at most, and no product leaves 32 bits. */
    predicate Sane()
      reads this
    {
      val < MAXCNT && cnt <= MAXCNT && COEF * val < 0x8000_0000 && (SCALE - COEF) * cnt < 0x8000_0000
    }

    /** fmeter_update: the value stays under one million if and only if the clock was not set back or
        there was room for the pending events anyway. */
    method Update(now: int)
      requires Sane()
      modifies this
      ensures Sane() <==> now >= old(time) || old(val) + (SCALE - COEF) * old(cnt) / SCALE < MAXCNT
      ensures now != old(time) ==>
        val == Decayed(old(val), Ticks(now - old(time))) + (SCALE - COEF) * old(cnt) / SCALE && cnt == 0
      ensures now == old(time) ==> val == old(val) && cnt == old(cnt)
      ensures time == now
    {
      var ticks := now - time;
      if ticks == 0 {
        return;
      }
      ticks := if MAXTICKS < ticks then MAXTICKS else ticks;
      ghost var n := Ticks(now - time);
      while ticks > 0
        invariant ticks <= n && (n > 0 ==> 0 <= ticks) && val == Decayed(old(val), if n > 0 then n - ticks else 0)
        invariant cnt == old(cnt) && time == old(time)
      {
        val := COEF * val / SCALE;
        ticks := ticks - 1;
      }
      DecayShrinks(old(val), n);
      time := now;
      val := val + (SCALE - COEF) * cnt / SCALE;
      cnt := 0;
    }

    /** fmeter_markevent: events that were pending are folded into the value, then one more is pending. */
    method MarkEvent(now: int)
      requires Sane()
      modifies this
      ensures Sane() <==> now >= old(time) || old(val) + (SCALE - COEF) * old(cnt) / SCALE < MAXCNT
      ensures now == old(time) ==> val == old(val) && cnt == if old(cnt) + SCALE < MAXCNT then old(cnt) + SCALE else MAXCNT
      ensures now != old(time) ==>
        val == Decayed(old(val), Ticks(now - old(time))) + (SCALE - COEF) * old(cnt) / SCALE && cnt == SCALE
      ensures time == now
    {
      Update(now);
      cnt := if cnt + SCALE < MAXCNT then cnt + SCALE else MAXCNT;
    }
  }
}
