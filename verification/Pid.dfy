/**
 * The PID allocator: a bitmap in pages that appear on first use, scanned round robin from the pid
 * given out last.
 */
module Pid {
  import opened Arith
  import opened Lists

  const BITS: nat := 32768
  const RESERVED: nat := 300

  // ----- The reference -----

  /** The least clear index in [lo, hi), or hi. */
  function FirstClear(bits: seq<bool>, lo: nat, hi: nat): (p: nat)
    requires lo <= hi <= |bits|
    ensures lo <= p <= hi && (p < hi ==> !bits[p])
    ensures forall q :: lo <= q < p ==> bits[q]
    decreases hi - lo
  {
    if lo == hi || !bits[lo] then lo else FirstClear(bits, lo + 1, hi)
  }

  /** When everything else is taken, whether the scan also looks at the pid given out last: it does
      when that pid ends the range, ends a page of the map or begins one. */
  predicate LooksAtLast(last: nat, max: nat) {
    if last + 1 < max then (last + 1) % BITS == 0 || (last % BITS == 0 && last > 0)
    else last + 1 == max && last >= RESERVED
  }

  /** The first clear pid in the order last+1 .. max-1, RESERVED .. last-1; then last or -1. */
  function Pick(bits: seq<bool>, last: nat, max: nat): int
    requires max <= |bits|
  {
    var a := if last + 1 < max then FirstClear(bits, last + 1, max) else max;
    if a < max then a
    else
      var hi := Min(last, max);
      var b := if RESERVED < hi then FirstClear(bits, RESERVED, hi) else hi;
      if b < hi then b
      else if LooksAtLast(last, max) && !bits[last] then last
      else -1
  }

  /** What Pick promises: a clear pid in range, no clear one earlier in the round, and no pid only when
      at most the last one is clear. */
  lemma PickIsFair(bits: seq<bool>, last: nat, max: nat, q: nat)
    requires RESERVED < max <= |bits| && q < max && !bits[q] && (q > last || RESERVED <= q < last)
    ensures var r := Pick(bits, last, max);
      && 0 <= r < max && !bits[r] && (r > last || RESERVED <= r < last)
      && (q > last ==> last < r <= q) && (q < last ==> r > last || r <= q)
  {
  }

  function Clear(bits: seq<bool>, lo: nat, n: nat): (c: nat)
    requires lo + n <= |bits|
    ensures c <= n
  {
    if n == 0 then 0 else Clear(bits, lo, n - 1) + if bits[lo + n - 1] then 0 else 1
  }

  lemma {:induction false} ClearUpdate(bits: seq<bool>, lo: nat, n: nat, p: nat, b: bool)
    requires lo + n <= |bits| && p < |bits| && bits[p] != b
    ensures Clear(bits[p := b], lo, n)
         == Clear(bits, lo, n) + if lo <= p < lo + n then (if b then -1 else 1) else 0
  {
    if n > 0 {
      ClearUpdate(bits, lo, n - 1, p, b);
    }
  }

  lemma {:induction false} NoneClear(bits: seq<bool>, lo: nat, n: nat)
    requires lo + n <= |bits|
    ensures Clear(bits, lo, n) == 0 <==> forall q :: lo <= q < lo + n ==> bits[q]
  {
    if n > 0 {
      NoneClear(bits, lo, n - 1);
    }
  }

  lemma {:induction false} AllClear(bits: seq<bool>, lo: nat, n: nat)
    requires lo + n <= |bits| && forall q :: lo <= q < lo + n ==> !bits[q]
    ensures Clear(bits, lo, n) == n
  {
    if n > 0 {
      AllClear(bits, lo, n - 1);
    }
  }

  // ----- The scan -----

  function Start(last: nat, max: nat): nat { if last + 1 >= max then RESERVED else last + 1 }

  function LastPage(max: nat): nat
    requires max > 0
  {
    (max - 1) / BITS
  }

  function MaxScan(last: nat, max: nat): nat
    requires max > RESERVED
  {
    var p := Start(last, max);
    var n := (max + BITS - 1) / BITS - (if p % BITS == 0 then 1 else 0);
    if n >= 0 then n else 0
  }

  /** The condition that lets the search within a page go on at pid p. */
  predicate GoesOn(p: nat, last: nat, max: nat, final: bool) {
    p < max && (!final || p < last || (last + 1) % BITS == 0)
  }

  /** What the search of one page reports, when it begins at pid start. */
  ghost predicate Searched(bits: seq<bool>, start: nat, last: nat, max: nat, final: bool, r: Option<nat>)
    requires (start / BITS + 1) * BITS <= |bits|
  {
    match r
    case Some(p) =>
      && start <= p < (start / BITS + 1) * BITS && !bits[p]
      && (forall q :: start <= q < p ==> bits[q])
      && (p == start || GoesOn(p, last, max, final))
    case None =>
      bits[start] && forall q :: start <= q < (start / BITS + 1) * BITS ==> bits[q] || !GoesOn(q, last, max, final)
  }

  /** What is known when turn i is about to search page m from offset off. */
  ghost predicate Scanned(bits: seq<bool>, last: nat, max: nat, i: nat, m: nat, off: nat)
    requires RESERVED < max <= |bits|
  {
    var p0 := Start(last, max);
    var k, e := p0 / BITS, LastPage(max);
    && off < BITS && m <= e
    && if k + i <= e then
         m == k + i && off == (if i == 0 then p0 % BITS else 0) && (forall q :: p0 <= q < m * BITS + off ==> bits[q])
       else
         && last != RESERVED && m == i - (e - k) - 1 && off == (if m == 0 then RESERVED else 0)
         && (forall q :: p0 <= q < max ==> bits[q]) && (forall q :: RESERVED <= q < m * BITS + off ==> bits[q])
  }

  lemma StartsScanned(bits: seq<bool>, last: nat, max: nat)
    requires RESERVED < max <= |bits|
    ensures var p0 := Start(last, max); Scanned(bits, last, max, 0, p0 / BITS, p0 % BITS) && p0 < max
  {
  }

  /** Which page the final turn searches. */
  lemma FinalTurn(last: nat, max: nat, m: nat)
    requires RESERVED < max
    requires m == MaxScan(last, max) - (LastPage(max) - Start(last, max) / BITS) - 1
    ensures var p0 := Start(last, max); m == if p0 % BITS == 0 then p0 / BITS - 1 else p0 / BITS
  {
  }

  lemma NoPick(bits: seq<bool>, last: nat, max: nat)
    requires RESERVED < max <= |bits|
    requires forall q :: Start(last, max) <= q < max ==> bits[q]
    requires forall q :: RESERVED <= q < Min(last, max) ==> bits[q]
    requires last + 1 < max && LooksAtLast(last, max) ==> bits[last]
    ensures Pick(bits, last, max) == -1
  {
  }

  lemma FoundIsPick(bits: seq<bool>, last: nat, max: nat, i: nat, m: nat, off: nat, p: nat)
    requires RESERVED < max <= |bits| && |bits| % BITS == 0
    requires Scanned(bits, last, max, i, m, off) && i <= MaxScan(last, max)
    requires Searched(bits, m * BITS + off, last, max, i == MaxScan(last, max), Some(p))
    ensures Pick(bits, last, max) == p
  {
  }

  /** A page without success, before the final turn. */
  lemma PageDone(bits: seq<bool>, last: nat, max: nat, i: nat, m: nat, off: nat)
    requires RESERVED < max <= |bits| && |bits| % BITS == 0
    requires Scanned(bits, last, max, i, m, off) && i < MaxScan(last, max)
    requires Searched(bits, m * BITS + off, last, max, false, None)
    ensures m < LastPage(max) ==> Scanned(bits, last, max, i + 1, m + 1, 0)
    ensures m >= LastPage(max) && last != RESERVED ==> Scanned(bits, last, max, i + 1, 0, RESERVED)
    ensures m >= LastPage(max) && last == RESERVED ==> Pick(bits, last, max) == -1
  {
  }

  lemma AllDone(bits: seq<bool>, last: nat, max: nat, m: nat, off: nat)
    requires RESERVED < max <= |bits| && |bits| % BITS == 0
    requires Scanned(bits, last, max, MaxScan(last, max), m, off)
    requires Searched(bits, m * BITS + off, last, max, true, None)
    ensures Pick(bits, last, max) == -1
  {
    FinalTurn(last, max, m);
    NoPick(bits, last, max);
  }

  /** One turn without success: where the next one begins, or that there is nothing to find. */
  lemma TurnDone(bits: seq<bool>, last: nat, max: nat, i: nat, m: nat, off: nat)
    requires RESERVED < max <= |bits| && |bits| % BITS == 0
    requires Scanned(bits, last, max, i, m, off) && i <= MaxScan(last, max)
    requires Searched(bits, m * BITS + off, last, max, i == MaxScan(last, max), None)
    ensures i == MaxScan(last, max) || (m >= LastPage(max) && last == RESERVED) ==> Pick(bits, last, max) == -1
    ensures i < MaxScan(last, max) && m < LastPage(max) ==> Scanned(bits, last, max, i + 1, m + 1, 0)
    ensures i < MaxScan(last, max) && m >= LastPage(max) && last != RESERVED ==>
      Scanned(bits, last, max, i + 1, 0, RESERVED)
  {
    if i < MaxScan(last, max) {
      PageDone(bits, last, max, i, m, off);
    } else {
      AllDone(bits, last, max, m, off);
    }
  }

  // ----- The map -----

  class PidMap {
    const bits: array<bool>       // page m holds bits m * BITS .. (m + 1) * BITS - 1
    const present: array<bool>
    const nrFree: array<int>
    var lastPid: nat

    ghost predicate Valid()
      reads this, bits, present, nrFree
    {
      && bits.Length == BITS * present.Length && nrFree.Length == present.Length
      && present.Length > 0
      && (forall m :: 0 <= m < present.Length ==> nrFree[m] == Clear(bits[..], m * BITS, BITS))
      && (forall q :: 0 <= q < bits.Length && !present[q / BITS] ==> !bits[q])
    }

    /** pidmap_init: pid 0 is never given out. */
    constructor (entries: nat)
      requires entries > 0
      ensures Valid() && present.Length == entries && lastPid == 0
      ensures forall q :: 0 <= q < bits.Length ==> (bits[q] <==> q == 0)
      ensures fresh(bits) && fresh(present) && fresh(nrFree)
    {
      bits := new bool[BITS * entries](_ => false);
      present := new bool[entries](_ => false);
      nrFree := new int[entries](_ => BITS);
      lastPid := 0;
      new;
      forall m | 0 <= m < present.Length ensures Clear(bits[..], m * BITS, BITS) == BITS {
        AllClear(bits[..], m * BITS, BITS);
      }
      present[0] := true;
      Claim(0);
    }

    /** A clear bit is set and counted. */
    method Claim(p: nat)
      requires Valid() && p < bits.Length && !bits[p] && present[p / BITS]
      modifies this`lastPid, bits, nrFree
      ensures Valid() && lastPid == p && bits[..] == old(bits[..])[p := true]
    {
      forall m | 0 <= m < present.Length
        ensures Clear(bits[..][p := true], m * BITS, BITS) == nrFree[m] - (if m == p / BITS then 1 else 0)
      {
        ClearUpdate(bits[..], m * BITS, BITS, p, true);
      }
      bits[p] := true;
      nrFree[p / BITS] := nrFree[p / BITS] - 1;
      lastPid := p;
      assert bits[..] == old(bits[..])[p := true];
    }

    /** free_pidmap. */
    method FreePidmap(p: nat)
      requires Valid() && p < bits.Length && bits[p]
      modifies bits, nrFree
      ensures Valid() && bits[..] == old(bits[..])[p := false]
    {
      forall m | 0 <= m < present.Length
        ensures Clear(bits[..][p := false], m * BITS, BITS) == nrFree[m] + (if m == p / BITS then 1 else 0)
      {
        ClearUpdate(bits[..], m * BITS, BITS, p, false);
      }
      bits[p] := false;
      nrFree[p / BITS] := nrFree[p / BITS] + 1;
      assert bits[..] == old(bits[..])[p := false];
    }

    /** find_next_zero_bit (zero true) or find_next_bit within page m, from offset off. */
    method FindNext(m: nat, off: nat, zero: bool) returns (r: nat)
      requires Valid() && m < present.Length && off <= BITS
      ensures off <= r <= BITS && (r < BITS ==> bits[m * BITS + r] == !zero)
      ensures forall q :: m * BITS + off <= q < m * BITS + r ==> bits[q] == zero
    {
      r := off;
      while r < BITS && bits[m * BITS + r] == zero
        invariant off <= r <= BITS
        invariant forall q :: m * BITS + off <= q < m * BITS + r ==> bits[q] == zero
      {
        r := r + 1;
      }
    }

    /** The search of one page: its first pid is tried without a look at the bounds. */
    method SearchPage(m: nat, off: nat, last: nat, max: nat, final: bool) returns (r: Option<nat>)
      requires Valid() && m < present.Length && off < BITS
      ensures Searched(bits[..], m * BITS + off, last, max, final, r)
    {
      ghost var start := m * BITS + off;
      if nrFree[m] == 0 {
        NoneClear(bits[..], m * BITS, BITS);
        assert bits[..][start];
        return None;
      }
      var offset, pid := off, m * BITS + off;
      while true
        invariant off <= offset < BITS && pid == m * BITS + offset
        invariant forall q :: start <= q < pid ==> bits[q]
        invariant pid == start || (!bits[pid] && GoesOn(pid, last, max, final))
        decreases BITS - offset, bits[pid]
      {
        if !bits[pid] {
          return Some(pid);
        }
        offset := FindNext(m, offset, true);
        pid := m * BITS + offset;
        if !(offset < BITS && pid < max && (!final || pid < last || (last + 1) % BITS == 0)) {
          return None;
        }
      }
    }

    /** A page that was missing is all clear. */
    method Install(m: nat)
      requires Valid() && m < present.Length
      modifies present
      ensures Valid() && present[m] && forall j :: 0 <= j < present.Length && j != m ==> present[j] == old(present[j])
    {
      present[m] := true;
    }

    /** One turn of the outer loop, on a page that is there or can be had. */
    method Turn(m: nat, off: nat, last: nat, max: nat, final: bool) returns (r: Option<nat>)
      requires Valid() && m < present.Length && off < BITS
      modifies this, bits, present, nrFree
      ensures Valid() && Searched(old(bits[..]), m * BITS + off, last, max, final, r)
      ensures r.None? ==> bits[..] == old(bits[..]) && lastPid == old(lastPid)
      ensures r.Some? ==> bits[..] == old(bits[..])[r.value := true] && lastPid == r.value
    {
      Install(m);
      r := SearchPage(m, off, last, max, final);
      if r.Some? {
        Claim(r.value);
      }
    }

    /** alloc_pidmap.  fails are the pages for which kzalloc has no memory. */
    method AllocPidmap(max: nat, fails: set<nat>) returns (r: int, failed: bool)
      requires Valid() && RESERVED < max <= bits.Length
      modifies this, bits, present, nrFree
      ensures Valid()
      ensures !failed ==> r == Pick(old(bits[..]), old(lastPid), max)
      ensures failed ==> r == -1 && exists m :: 0 <= m < present.Length && m in fails && !present[m]
      ensures r == -1 ==> bits[..] == old(bits[..]) && lastPid == old(lastPid)
      ensures r != -1 ==> 0 <= r < bits.Length && bits[..] == old(bits[..])[r := true] && lastPid == r
    {
      failed := false;
      var last := lastPid;
      ghost var was := bits[..];
      var pid := if last + 1 >= max then RESERVED else last + 1;
      var m: nat, offset: nat := pid / BITS, pid % BITS;
      var maxScan := MaxScan(last, max);
      StartsScanned(was, last, max);
      var i := 0;
      while i <= maxScan
        invariant 0 <= i && Valid() && bits[..] == was && lastPid == last
        invariant i <= maxScan ==> Scanned(was, last, max, i, m, offset) && pid == m * BITS + offset
        invariant i > maxScan ==> Pick(was, last, max) == -1
      {
        if !present[m] && m in fails {
          return -1, true;
        }
        var found := Turn(m, offset, last, max, i == maxScan);
        if found.Some? {
          FoundIsPick(was, last, max, i, m, offset, found.value);
          return found.value, false;
        }
        TurnDone(was, last, max, i, m, offset);
        if m < (max - 1) / BITS {
          m := m + 1;
          offset := 0;
        } else {
          m := 0;
          offset := RESERVED;
          if last == offset {
            break;
          }
        }
        pid := m * BITS + offset;
        i := i + 1;
      }
      return -1, false;
    }

    /** next_pidmap: the least pid in use above last, or -1. */
    method NextPidmap(last: nat) returns (r: int)
      requires Valid()
      ensures r == -1 ==> forall q :: last < q < bits.Length ==> !bits[q]
      ensures r != -1 ==> last < r < bits.Length && bits[r] && forall q :: last < q < r ==> !bits[q]
    {
      var offset: nat, m: nat := (last + 1) % BITS, (last + 1) / BITS;
      while m < present.Length
        invariant offset < BITS && m * BITS + offset > last
        invariant forall q :: last < q < m * BITS + offset && q < bits.Length ==> !bits[q]
      {
        if present[m] {
          offset := FindNext(m, offset, false);
          if offset < BITS {
            return m * BITS + offset;
          }
        } else {
          assert forall q :: m * BITS <= q < (m + 1) * BITS ==> q / BITS == m;
        }
        m := m + 1;
        offset := 0;
      }
      return -1;
    }
  }
}
