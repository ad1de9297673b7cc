/**
 * The per-cpu area handed out to modules: a table of block sizes, negative for blocks in use, that
 * tiles the area.  Block 0 is the kernel's own static data.
 */
module Percpu {
  import opened Lists
  import opened Arith

  const WORD: nat := 4      // sizeof(unsigned long)

  function Abs(x: int): nat { if x < 0 then -x else x }

  function Sum(b: seq<int>): nat {
    if b == [] then 0 else Abs(b[0]) + Sum(b[1..])
  }

  /** A block with this signed size begins at address p, when the table begins at base. */
  predicate At(b: seq<int>, base: nat, p: nat, v: int) {
    b != [] && ((p == base && v == b[0]) || At(b[1..], base + Abs(b[0]), p, v))
  }

  lemma {:induction false} SumConcat(a: seq<int>, c: seq<int>)
    ensures Sum(a + c) == Sum(a) + Sum(c)
  {
    if a == [] {
      assert a + c == c;
    } else {
      SumConcat(a[1..], c);
      assert (a + c)[1..] == a[1..] + c;
    }
  }

  lemma {:induction false} AtConcat(a: seq<int>, c: seq<int>, base: nat, p: nat, v: int)
    ensures At(a + c, base, p, v) <==> At(a, base, p, v) || At(c, base + Sum(a), p, v)
  {
    if a == [] {
      assert a + c == c;
    } else {
      AtConcat(a[1..], c, base + Abs(a[0]), p, v);
      assert (a + c)[1..] == a[1..] + c;
    }
  }

  /** Blocks lie inside the area. */
  lemma {:induction false} AtInside(b: seq<int>, base: nat, p: nat, v: int)
    requires At(b, base, p, v)
    ensures base <= p && p + Abs(v) <= base + Sum(b)
  {
    if !(p == base && v == b[0]) {
      AtInside(b[1..], base + Abs(b[0]), p, v);
    }
  }

  predicate NonZero(b: seq<int>) { forall i :: 0 <= i < |b| ==> b[i] != 0 }

  /** Blocks do not overlap, and each address begins at most one. */
  lemma {:induction false} AtApart(b: seq<int>, base: nat, p: nat, v: int, q: nat, w: int)
    requires NonZero(b) && At(b, base, p, v) && At(b, base, q, w) && p <= q
    ensures if p == q then v == w else p + Abs(v) <= q
  {
    var rest, at := b[1..], base + Abs(b[0]);
    if At(rest, at, p, v) {
      AtInside(rest, at, p, v);
      if At(rest, at, q, w) {
        AtApart(rest, at, p, v, q, w);
      }
    } else if At(rest, at, q, w) {
      AtInside(rest, at, q, w);
    }
  }

  // ----- The table -----

  /** What a module asked for. */
  datatype Request = Request(size: nat, align: nat)

  ghost predicate NoFreePair(b: seq<int>) {
    forall i, j :: 0 <= i < j < |b| && j == i + 1 ==> b[i] < 0 || b[j] < 0
  }

  /** The table tiles an area of room bytes whose first part bytes are static. */
  ghost predicate Tiled(b: seq<int>, part: nat, room: nat) {
    && b != [] && b[0] == 0 - part && part > 0
    && NonZero(b) && NoFreePair(b) && Sum(b) == room
  }

  /** A used block begins at p and is large enough. */
  ghost predicate Backed(b: seq<int>, base: nat, p: nat, size: nat) {
    exists v :: At(b, base, p, v) && v < 0 && -v >= size
  }

  /** The live requests are exactly the used blocks behind the static one. */
  ghost predicate Accounts(b: seq<int>, base: nat, live: map<nat, Request>) {
    && (forall p :: p in live ==> p != base && live[p].align > 0 && p % live[p].align == 0 && live[p].size > 0)
    && (forall p :: p in live ==> Backed(b, base, p, live[p].size))
    && (forall p, v :: At(b, base, p, v) && v < 0 && p != base ==> p in live)
  }

  ghost predicate Inv(b: seq<int>, base: nat, part: nat, room: nat, live: map<nat, Request>) {
    Tiled(b, part, room) && Accounts(b, base, live)
  }

  /** Live allocations do not overlap. */
  lemma {:induction false} LiveApart(b: seq<int>, base: nat, part: nat, room: nat, live: map<nat, Request>, p: nat, q: nat)
    requires Inv(b, base, part, room, live) && p in live && q in live && p < q
    ensures base + part <= p && p + live[p].size <= q && q + live[q].size <= base + room
  {
    assert Backed(b, base, p, live[p].size) && Backed(b, base, q, live[q].size);
    var v :| At(b, base, p, v) && v < 0 && -v >= live[p].size;
    var w :| At(b, base, q, w) && w < 0 && -w >= live[q].size;
    AtApart(b, base, p, v, q, w);
    AtInside(b, base, q, w);
    AtInside(b, base, p, v);
    AtApart(b, base, base, b[0], p, v);
  }

  lemma {:induction false} Third(b: seq<int>)
    requires NoFreePair(b)
    ensures |b| >= 3 ==> b[1] < 0 || b[2] < 0
  {
  }

  /** With everything freed the table is the one percpu_modinit made. */
  lemma {:induction false} AllFreed(b: seq<int>, base: nat, part: nat, room: nat)
    requires Inv(b, base, part, room, map[]) && room > part
    ensures b == [0 - part, room - part]
  {
    assert b == [b[0]] + b[1..];
    forall i | 1 <= i < |b| ensures b[i] > 0 {
      IndexAt(b, base, i);
      SumPositive(b, i);
    }
    Third(b);
    if |b| == 1 {
      assert b == [b[0]];
      One(b[0]);
    } else {
      assert b == [b[0], b[1]];
      Two(b[0], b[1], 0, 0, 0);
    }
  }

  lemma {:induction false} IndexAt(b: seq<int>, base: nat, i: nat)
    requires i < |b|
    ensures At(b, base, base + Sum(b[..i]), b[i])
  {
    if i > 0 {
      IndexAt(b[1..], base + Abs(b[0]), i - 1);
      assert b[..i] == [b[0]] + b[1..][..i - 1];
      assert b[..i][1..] == b[1..][..i - 1];
    }
  }

  lemma {:induction false} SumPositive(b: seq<int>, i: nat)
    requires 0 < i <= |b| && NonZero(b)
    ensures Sum(b[..i]) > 0
  {
  }

  // ----- Allocation -----

  /** How far x is from the next multiple of a. */
  function Extra(x: nat, a: nat): (e: nat)
    requires a > 0
    ensures e < a
  {
    if x % a == 0 then 0 else a - x % a
  }

  lemma {:induction false} ExtraAligns(x: nat, a: nat)
    requires a > 0
    ensures (x + Extra(x, a)) % a == 0
  {
    var q, r := x / a, x % a;
    Bounds(x, a);
    if r != 0 {
      assert x + (a - r) == (q + 1) * a + 0;
      ModIs(x + (a - r), a, q + 1, 0);
    }
  }

  /** Multiples of a coarse alignment need no slack for a finer one. */
  lemma {:induction false} NoExtra(x: int, coarse: int, a: int)
    requires a > 0 && coarse > 0 && x % coarse == 0 && coarse % a == 0
    ensures x % a == 0
  {
    var q, c := x / coarse, coarse / a;
    Bounds(x, coarse);
    Bounds(coarse, a);
    Regroup(q, c, a);
    ModIs(x, a, q * c, 0);
  }

  lemma {:induction false} Regroup(q: int, c: int, a: int)
    ensures q * (c * a) == (q * c) * a
  {
  }

  /** The slack goes to the block before. */
  function Slacked(b: seq<int>, i: nat, extra: nat): (r: seq<int>)
    requires 0 < i < |b|
    ensures |r| == |b|
  {
    b[i - 1 := if b[i - 1] < 0 then b[i - 1] - extra else b[i - 1] + extra][i := b[i] - extra]
  }

  /** split_block. */
  function Split(b: seq<int>, i: nat, size: int): (r: seq<int>)
    requires i < |b|
    ensures |r| == |b| + 1
  {
    b[..i] + [size, b[i] - size] + b[i + 1..]
  }

  /** What percpu_modalloc makes of free block i: the slack moves, the block is split when that is
      worth it, and marked; ok tells whether kmalloc has memory for a longer table. */
  function TakeBlock(b: seq<int>, i: nat, extra: nat, size: nat, ok: bool): (seq<int>, bool)
    requires 0 < i < |b|
  {
    var c := Slacked(b, i, extra);
    if c[i] - size > WORD then
      if ok then
        var d := Split(c, i, size);
        (d[i := -d[i]], true)
      else (c, false)
    else (c[i := -c[i]], true)
  }

  lemma {:induction false} At3(x: seq<int>, m: seq<int>, y: seq<int>, base: nat, p: nat, v: int)
    ensures At(x + m + y, base, p, v)
       <==> At(x, base, p, v) || At(m, base + Sum(x), p, v) || At(y, base + Sum(x) + Sum(m), p, v)
    ensures Sum(x + m + y) == Sum(x) + Sum(m) + Sum(y)
  {
    AtConcat(x + m, y, base, p, v);
    AtConcat(x, m, base, p, v);
    SumConcat(x + m, y);
    SumConcat(x, m);
  }

  /** Replacing the middle of the table by blocks of the same total size moves nothing else. */
  lemma {:induction false} AccountsReplaced(x: seq<int>, m: seq<int>, m': seq<int>, y: seq<int>, base: nat, o: nat,
                                            live: map<nat, Request>, live': map<nat, Request>)
    requires Accounts(x + m + y, base, live) && Sum(m) == Sum(m') && o == base + Sum(x)
    requires forall p :: p in live' ==> p != base && live'[p].align > 0 && p % live'[p].align == 0 && live'[p].size > 0
    requires forall p :: p in live' ==>
      || (p in live && live[p] == live'[p] && forall v :: At(m, o, p, v) ==> v >= 0)
      || Backed(m', o, p, live'[p].size)
    requires forall p, v :: At(m', o, p, v) && v < 0 && p != base ==> p in live'
    requires forall p :: p in live && p !in live' ==> o <= p < o + Sum(m)
    requires NonZero(x) && NonZero(y)
    ensures Accounts(x + m' + y, base, live')
  {
    var b, b' := x + m + y, x + m' + y;
    forall p | p in live' ensures Backed(b', base, p, live'[p].size) {
      if Backed(m', o, p, live'[p].size) {
        var v :| At(m', o, p, v) && v < 0 && -v >= live'[p].size;
        At3(x, m', y, base, p, v);
      } else {
        assert Backed(b, base, p, live[p].size);
        var v :| At(b, base, p, v) && v < 0 && -v >= live[p].size;
        At3(x, m, y, base, p, v);
        At3(x, m', y, base, p, v);
      }
    }
    forall p, v | At(b', base, p, v) && v < 0 && p != base ensures p in live' {
      At3(x, m', y, base, p, v);
      if !At(m', o, p, v) {
        At3(x, m, y, base, p, v);
        if At(x, base, p, v) {
          AtInside(x, base, p, v);
        } else {
          AtInside(y, o + Sum(m), p, v);
        }
      }
    }
  }

  lemma {:induction false} Two(a: int, c: int, o: nat, p: nat, v: int)
    ensures At([a, c], o, p, v) <==> (p == o && v == a) || (p == o + Abs(a) && v == c)
    ensures Sum([a, c]) == Abs(a) + Abs(c)
  {
    var one := [c];
    assert [a, c][1..] == one && one[1..] == [];
    assert Sum(one) == Abs(c) && (At(one, o + Abs(a), p, v) <==> p == o + Abs(a) && v == c);
  }

  lemma {:induction false} Three(a: int, c: int, d: int, o: nat, p: nat, v: int)
    ensures At([a, c, d], o, p, v) <==> (p == o && v == a) || (p == o + Abs(a) && v == c) || (p == o + Abs(a) + Abs(c) && v == d)
    ensures Sum([a, c, d]) == Abs(a) + Abs(c) + Abs(d)
  {
    Two(c, d, o + Abs(a), p, v);
    assert [a, c, d][1..] == [c, d];
  }

  /** The blocks that stand in for the pair [u, f] after an attempt on f. */
  function Middle(u: int, f: int, extra: nat, size: nat, ok: bool): seq<int> {
    if f - extra - size > WORD then
      if ok then [u - extra, 0 - size, f - extra - size] else [u - extra, f - extra]
    else [u - extra, 0 - (f - extra)]
  }

  lemma {:induction false} TakeBlockIs(b: seq<int>, i: nat, extra: nat, size: nat, ok: bool)
    requires 0 < i < |b| && b[i - 1] < 0
    ensures b == b[..i - 1] + [b[i - 1], b[i]] + b[i + 1..]
    ensures TakeBlock(b, i, extra, size, ok).0 == b[..i - 1] + Middle(b[i - 1], b[i], extra, size, ok) + b[i + 1..]
  {
  }

  lemma {:induction false} MiddleTiles(x: seq<int>, u: int, f: int, y: seq<int>, extra: nat, size: nat, ok: bool, part: nat, room: nat)
    requires Tiled(x + [u, f] + y, part, room) && u < 0 && f >= extra + size && size > 0 && (x == [] ==> extra == 0)
    ensures Tiled(x + Middle(u, f, extra, size, ok) + y, part, room)
    ensures Sum(Middle(u, f, extra, size, ok)) == Sum([u, f])
  {
    var b, m := x + [u, f] + y, Middle(u, f, extra, size, ok);
    var b' := x + m + y;
    Two(u, f, 0, 0, 0);
    Two(m[0], m[1], 0, 0, 0);
    if |m| == 3 {
      Three(m[0], m[1], m[2], 0, 0, 0);
    }
    At3(x, [u, f], y, 0, 0, 0);
    At3(x, m, y, 0, 0, 0);
    MiddlePairs(x, u, f, y, m);
    assert NonZero(b') by {
      forall k | 0 <= k < |b'| ensures b'[k] != 0 {
        if k < |x| {
          assert b'[k] == b[k];
        } else if k >= |x| + |m| {
          assert b'[k] == b[k - |m| + 2];
        }
      }
    }
    assert b[0] == if x == [] then u else x[0];
  }

  lemma {:induction false} MiddlePairs(x: seq<int>, u: int, f: int, y: seq<int>, m: seq<int>)
    requires NoFreePair(x + [u, f] + y) && u < 0 && f > 0
    requires 2 <= |m| <= 3 && m[0] < 0 && (|m| == 3 ==> m[1] < 0)
    ensures NoFreePair(x + m + y)
  {
    var b, b' := x + [u, f] + y, x + m + y;
    var n := |x|;
    forall i, j | 0 <= i < j < |b'| && j == i + 1 ensures b'[i] < 0 || b'[j] < 0 {
      if j < n {
        assert b'[i] == b[i] && b'[j] == b[j];
      } else if i == n + |m| - 1 {
        assert b[n + 1] == f && b'[j] == b[n + 2];
      } else if i >= n + |m| {
        assert b'[i] == b[i - |m| + 2] && b'[j] == b[j - |m| + 2];
      }
    }
  }

  /** The attempt on block i of an orderly table. */
  lemma {:induction false} AllocAccounts(x: seq<int>, u: int, f: int, y: seq<int>, base: nat, extra: nat, size: nat, ok: bool,
                                         align: nat, live: map<nat, Request>)
    requires NonZero(x + [u, f] + y) && Accounts(x + [u, f] + y, base, live)
    requires u < 0 && f >= extra + size && size > 0 && align > 0
    requires Sum(Middle(u, f, extra, size, ok)) == Sum([u, f])
    ensures var ptr := base + Sum(x) + Abs(u) + extra; var m' := Middle(u, f, extra, size, ok);
      && ptr !in live
      && (f - extra - size > WORD && !ok ==> Accounts(x + m' + y, base, live))
      && (!(f - extra - size > WORD && !ok) && ptr % align == 0 ==>
           Accounts(x + m' + y, base, live[ptr := Request(size, align)]))
  {
    var b, o, m, m' := x + [u, f] + y, base + Sum(x), [u, f], Middle(u, f, extra, size, ok);
    var ptr := o + Abs(u) + extra;
    var done := !(f - extra - size > WORD && !ok);
    var live' := if done then live[ptr := Request(size, align)] else live;
    NotLive(x, u, f, y, base, extra, live);
    forall p, v ensures At(m, o, p, v) <==> (p == o && v == u) || (p == o + Abs(u) && v == f) {
      Two(u, f, o, p, v);
    }
    MiddleAt(u, f, extra, size, ok, o);
    assert NonZero(x) && NonZero(y) by {
      assert forall k :: 0 <= k < |x| ==> b[k] == x[k];
      assert forall k :: 0 <= k < |y| ==> b[|x| + 2 + k] == y[k];
    }
    if !done || ptr % align == 0 {
      forall p | p in live' ensures
        || (p in live && live[p] == live'[p] && forall v :: At(m, o, p, v) ==> v >= 0)
        || Backed(m', o, p, live'[p].size)
      {
        if done && p == ptr {
          assert At(m', o, ptr, m'[1]);
        } else if p == o {
          LiveSize(x, u, f, y, base, live);
          assert At(m', o, o, u - extra);
        }
      }
      forall p, v | At(m', o, p, v) && v < 0 && p != base ensures p in live' {
        if p == o {
          At3(x, m, y, base, o, u);
        }
      }
      AccountsReplaced(x, m, m', y, base, o, live, live');
    }
  }

  lemma {:induction false} NotLive(x: seq<int>, u: int, f: int, y: seq<int>, base: nat, extra: nat, live: map<nat, Request>)
    requires NonZero(x + [u, f] + y) && Accounts(x + [u, f] + y, base, live) && u < 0 && f > extra
    ensures base + Sum(x) + Abs(u) + extra !in live
  {
    var b, o := x + [u, f] + y, base + Sum(x);
    var ptr := o + Abs(u) + extra;
    if ptr in live {
      assert Backed(b, base, ptr, live[ptr].size);
      var v :| At(b, base, ptr, v) && v < 0 && -v >= live[ptr].size;
      Two(u, f, o, o + Abs(u), f);
      At3(x, [u, f], y, base, o + Abs(u), f);
      AtApart(b, base, o + Abs(u), f, ptr, v);
    }
  }

  lemma {:induction false} LiveSize(x: seq<int>, u: int, f: int, y: seq<int>, base: nat, live: map<nat, Request>)
    requires NonZero(x + [u, f] + y) && Accounts(x + [u, f] + y, base, live) && u < 0 && f > 0
    ensures base + Sum(x) in live ==> -u >= live[base + Sum(x)].size
  {
    var b, o := x + [u, f] + y, base + Sum(x);
    if o in live {
      assert Backed(b, base, o, live[o].size);
      var v :| At(b, base, o, v) && v < 0 && -v >= live[o].size;
      Two(u, f, o, o, u);
      At3(x, [u, f], y, base, o, u);
      AtApart(b, base, o, u, o, v);
    }
  }

  lemma {:induction false} MiddleAt(u: int, f: int, extra: nat, size: nat, ok: bool, o: nat)
    requires u < 0 && f >= extra + size && size > 0
    ensures var m' := Middle(u, f, extra, size, ok);
      forall p, v :: At(m', o, p, v) && v < 0 <==> (p == o && v == m'[0]) || (p == o + Abs(u) + extra && v == m'[1] < 0)
  {
    var m' := Middle(u, f, extra, size, ok);
    forall p: nat, v: int
      ensures At(m', o, p, v) && v < 0 <==> (p == o && v == m'[0]) || (p == o + Abs(u) + extra && v == m'[1] < 0)
    {
      if |m'| == 3 {
        Three(m'[0], m'[1], m'[2], o, p, v);
      } else {
        Two(m'[0], m'[1], o, p, v);
      }
    }
  }

  /** Allocation keeps the table and the requests in step. */
  lemma {:induction false} AllocKeeps(b: seq<int>, base: nat, part: nat, room: nat, live: map<nat, Request>,
                                      i: nat, extra: nat, size: nat, align: nat, coarse: nat, ok: bool)
    requires Inv(b, base, part, room, live) && 0 < i < |b| && b[i] > 0 && b[i] >= extra + size
    requires size > 0 && align > 0 && coarse > 0 && coarse % align == 0 && base % coarse == 0 && part % coarse == 0
    requires extra == Extra(base + Sum(b[..i]), align)
    ensures var (b', done) := TakeBlock(b, i, extra, size, ok); var ptr := base + Sum(b[..i]) + extra;
      && ptr !in live && ptr % align == 0
      && Inv(b', base, part, room, if done then live[ptr := Request(size, align)] else live)
  {
    var x, u, f, y := b[..i - 1], b[i - 1], b[i], b[i + 1..];
    assert b[..i] == x + [u];
    SumConcat(x, [u]);
    assert [u][1..] == [];
    assert Sum([u]) == Abs(u);
    ExtraAligns(base + Sum(b[..i]), align);
    if x == [] {
      SumOfMultiples(base, part, coarse);
      NoExtra(base + part, coarse, align);
    }
    TakeBlockIs(b, i, extra, size, ok);
    MiddleTiles(x, u, f, y, extra, size, ok, part, room);
    AllocAccounts(x, u, f, y, base, extra, size, ok, align, live);
  }

  lemma {:induction false} SumOfMultiples(a: int, c: int, n: int)
    requires n > 0 && a % n == 0 && c % n == 0
    ensures (a + c) % n == 0
  {
    Bounds(a, n);
    Bounds(c, n);
    assert (a / n + c / n) * n == (a / n) * n + (c / n) * n;
    ModIs(a + c, n, a / n + c / n, 0);
  }

  // ----- Freeing -----

  /** Block i + 1 is joined to block i. */
  function Merged(b: seq<int>, i: nat): seq<int>
    requires i + 1 < |b|
  {
    b[..i] + [b[i] + b[i + 1]] + b[i + 2..]
  }

  /** percpu_modfree once it has found block i. */
  function FreeBlock(b: seq<int>, i: nat): seq<int>
    requires 0 < i < |b|
  {
    var c := b[i := -b[i]];
    if c[i - 1] >= 0 then JoinNext(Merged(c, i - 1), i - 1) else JoinNext(c, i)
  }

  /** Block i is joined with a free one behind it. */
  function JoinNext(b: seq<int>, i: nat): seq<int>
    requires i < |b|
  {
    if i + 1 < |b| && b[i + 1] >= 0 then Merged(b, i) else b
  }

  /** The free neighbour behind, if there is one. */
  function FreeBehind(y: seq<int>): (n: seq<int>)
    ensures n <= y && |n| <= 1 && (n != [] ==> n[0] >= 0)
  {
    if y != [] && y[0] >= 0 then y[..1] else []
  }

  function FreedMiddle(u: int, w: int, n: seq<int>): seq<int>
    requires |n| <= 1
  {
    var after := if n == [] then 0 else n[0];
    if u < 0 then [u, after - w] else [u - w + after]
  }

  lemma {:induction false} MergedIs(x: seq<int>, a: int, c: int, y: seq<int>)
    ensures Merged(x + [a, c] + y, |x|) == x + [a + c] + y
  {
  }

  lemma {:induction false} JoinNextIs(x: seq<int>, a: int, y: seq<int>, n: seq<int>)
    requires n == FreeBehind(y)
    ensures JoinNext(x + [a] + y, |x|) == x + [if n == [] then a else a + n[0]] + y[|n|..]
  {
  }

  lemma {:induction false} Flipped(x: seq<int>, u: int, w: int, y: seq<int>)
    ensures var b := x + [u, w] + y; b[|x| + 1 := -b[|x| + 1]] == x + [u, -w] + y && (x + [u, -w] + y)[|x|] == u
  {
  }

  lemma {:induction false} FreeAfterFree(x: seq<int>, u: int, w: int, y: seq<int>, n: seq<int>)
    requires n == FreeBehind(y) && u >= 0
    ensures FreeBlock(x + [u, w] + y, |x| + 1) == x + FreedMiddle(u, w, n) + y[|n|..]
  {
    Flipped(x, u, w, y);
    MergedIs(x, u, -w, y);
    JoinNextIs(x, u + -w, y, n);
  }

  lemma {:induction false} Shifted(x: seq<int>, u: int, e: int, y: seq<int>)
    ensures (x + [u]) + [e] + y == x + [u, e] + y
  {
  }

  lemma {:induction false} FreeAfterUsed(x: seq<int>, u: int, w: int, y: seq<int>, n: seq<int>)
    requires n == FreeBehind(y) && u < 0
    ensures FreeBlock(x + [u, w] + y, |x| + 1) == x + FreedMiddle(u, w, n) + y[|n|..]
  {
    Flipped(x, u, w, y);
    Shifted(x, u, -w, y);
    JoinNextIs(x + [u], -w, y, n);
    Shifted(x, u, if n == [] then -w else -w + n[0], y[|n|..]);
  }

  lemma {:induction false} FreeBlockIs(b: seq<int>, i: nat)
    requires 0 < i < |b| && b[i] < 0
    ensures var x, u, w, y := b[..i - 1], b[i - 1], b[i], b[i + 1..]; var n := FreeBehind(y);
      && b == x + ([u, w] + n) + y[|n|..]
      && FreeBlock(b, i) == x + FreedMiddle(u, w, n) + y[|n|..]
  {
    var x, u, w, y := b[..i - 1], b[i - 1], b[i], b[i + 1..];
    var n := FreeBehind(y);
    assert b == x + [u, w] + y;
    if u >= 0 {
      FreeAfterFree(x, u, w, y, n);
    } else {
      FreeAfterUsed(x, u, w, y, n);
    }
    assert y == n + y[|n|..];
  }

  lemma {:induction false} One(a: int)
    ensures Sum([a]) == Abs(a)
  {
  }

  lemma {:induction false} FreedSum(u: int, w: int, n: seq<int>)
    requires w < 0 && |n| <= 1 && (n != [] ==> n[0] > 0) && u != 0
    ensures Sum(FreedMiddle(u, w, n)) == Sum([u, w] + n)
  {
    var after := if n == [] then 0 else n[0];
    SumConcat([u, w], n);
    Two(u, w, 0, 0, 0);
    if n != [] {
      assert n == [after];
      One(after);
    }
    Two(u, after - w, 0, 0, 0);
    One(u - w + after);
  }

  lemma {:induction false} FreedPairs(x: seq<int>, m: seq<int>, m': seq<int>, z: seq<int>)
    requires NoFreePair(x + m + z) && m != [] && z != [] ==> m[|m| - 1] >= 0 || z[0] < 0
    requires NoFreePair(x + m + z) && 1 <= |m'| <= 2 <= |m|
    requires |m'| == 2 ==> m'[0] < 0
    requires |m'| == 1 ==> m[0] >= 0
    ensures NoFreePair(x + m' + z)
  {
    var b, b' := x + m + z, x + m' + z;
    forall i, j | 0 <= i < j < |b'| && j == i + 1 ensures b'[i] < 0 || b'[j] < 0 {
      if j < |x| {
        assert b'[i] == b[i] && b'[j] == b[j];
      } else if j == |x| && |m'| == 1 {
        assert b'[i] == b[i] && b[j] == m[0];
      } else if i == |x| + |m'| - 1 {
        assert b[|x| + |m| - 1] == m[|m| - 1] && b'[j] == z[0] == b[|x| + |m|];
      } else if i >= |x| + |m'| {
        assert b'[i] == b[i - |m'| + |m|] && b'[j] == b[j - |m'| + |m|];
      }
    }
  }

  lemma {:induction false} FreedTiles(x: seq<int>, u: int, w: int, n: seq<int>, z: seq<int>, part: nat, room: nat)
    requires Tiled(x + ([u, w] + n) + z, part, room) && w < 0 && |n| <= 1 && (n != [] ==> n[0] > 0)
    requires n == [] && z != [] ==> z[0] < 0
    ensures Tiled(x + FreedMiddle(u, w, n) + z, part, room) && Sum(FreedMiddle(u, w, n)) == Sum([u, w] + n)
  {
    var m, m' := [u, w] + n, FreedMiddle(u, w, n);
    var b, b' := x + m + z, x + m' + z;
    assert b[|x|] == u;
    FreedSum(u, w, n);
    At3(x, m, z, 0, 0, 0);
    At3(x, m', z, 0, 0, 0);
    FreedPairs(x, m, m', z);
    forall k | 0 <= k < |b'| ensures b'[k] != 0 {
      if k < |x| {
        assert b'[k] == b[k];
      } else if k >= |x| + |m'| {
        assert b'[k] == b[k - |m'| + |m|];
      }
    }
    assert b[0] == if x == [] then u else x[0];
  }

  lemma {:induction false} FreedAccounts(x: seq<int>, u: int, w: int, n: seq<int>, z: seq<int>, base: nat, live: map<nat, Request>)
    requires NonZero(x + ([u, w] + n) + z) && Accounts(x + ([u, w] + n) + z, base, live)
    requires u != 0 && w < 0 && |n| <= 1 && (n != [] ==> n[0] > 0)
    requires Sum(FreedMiddle(u, w, n)) == Sum([u, w] + n)
    ensures Accounts(x + FreedMiddle(u, w, n) + z, base, live - {base + Sum(x) + Abs(u)})
  {
    var m, m', o := [u, w] + n, FreedMiddle(u, w, n), base + Sum(x);
    var ptr := o + Abs(u);
    var live' := live - {ptr};
    FreedAt(u, w, n, o);
    MiddleSpans(x, u, w, n, z);
    forall p | p in live' ensures
      || (p in live && live[p] == live'[p] && forall v :: At(m, o, p, v) ==> v >= 0)
      || Backed(m', o, p, live'[p].size)
    {
      if u < 0 && p == o {
        FirstBacked(x, u, w, n, z, base, live);
        assert At(m', o, o, u);
      }
    }
    forall p, v | At(m', o, p, v) && v < 0 && p != base ensures p in live' {
      At3(x, m, z, base, o, u);
    }
    AccountsReplaced(x, m, m', z, base, o, live, live');
  }

  /** The used blocks of the middle, before and after. */
  lemma {:induction false} FreedAt(u: int, w: int, n: seq<int>, o: nat)
    requires u != 0 && w < 0 && |n| <= 1 && (n != [] ==> n[0] > 0)
    ensures forall p, v :: At([u, w] + n, o, p, v) && v < 0 <==> (p == o && v == u < 0) || (p == o + Abs(u) && v == w)
    ensures forall p, v :: At(FreedMiddle(u, w, n), o, p, v) && v < 0 <==> p == o && v == u < 0
  {
    var m, m' := [u, w] + n, FreedMiddle(u, w, n);
    forall p: nat, v: int ensures At(m, o, p, v) && v < 0 <==> (p == o && v == u < 0) || (p == o + Abs(u) && v == w) {
      AtConcat([u, w], n, o, p, v);
      Two(u, w, o, p, v);
      if n != [] {
        assert n[1..] == [];
      }
    }
    forall p: nat, v: int ensures At(m', o, p, v) && v < 0 <==> p == o && v == u < 0 {
      if u < 0 {
        Two(m'[0], m'[1], o, p, v);
      } else {
        assert m'[1..] == [];
      }
    }
  }

  lemma {:induction false} MiddleSpans(x: seq<int>, u: int, w: int, n: seq<int>, z: seq<int>)
    requires NonZero(x + ([u, w] + n) + z)
    ensures Sum([u, w] + n) >= Abs(u) + Abs(w) && w != 0 && NonZero(x) && NonZero(z)
  {
    var b := x + ([u, w] + n) + z;
    SumConcat([u, w], n);
    Two(u, w, 0, 0, 0);
    assert b[|x| + 1] == w;
    assert forall k :: 0 <= k < |x| ==> b[k] == x[k];
    assert forall k :: 0 <= k < |z| ==> b[|x| + 2 + |n| + k] == z[k];
  }

  lemma {:induction false} FirstBacked(x: seq<int>, u: int, w: int, n: seq<int>, z: seq<int>, base: nat, live: map<nat, Request>)
    requires NonZero(x + ([u, w] + n) + z) && Accounts(x + ([u, w] + n) + z, base, live)
    requires u < 0 && base + Sum(x) in live
    ensures -u >= live[base + Sum(x)].size
  {
    var m, o := [u, w] + n, base + Sum(x);
    var b := x + m + z;
    assert Backed(b, base, o, live[o].size);
    var v :| At(b, base, o, v) && v < 0 && -v >= live[o].size;
    assert At(m, o, o, u);
    At3(x, m, z, base, o, u);
    AtApart(b, base, o, u, o, v);
  }

  /** Freeing keeps the table and the requests in step. */
  lemma {:induction false} FreeKeeps(b: seq<int>, base: nat, part: nat, room: nat, live: map<nat, Request>, i: nat)
    requires Inv(b, base, part, room, live) && 0 < i < |b| && b[i] < 0
    ensures Inv(FreeBlock(b, i), base, part, room, live - {base + Sum(b[..i])})
  {
    var x, u, w, y := b[..i - 1], b[i - 1], b[i], b[i + 1..];
    var n := FreeBehind(y);
    assert n != [] ==> n[0] == b[i + 1];
    assert b[..i] == x + [u];
    SumConcat(x, [u]);
    One(u);
    FreeBlockIs(b, i);
    FreedTiles(x, u, w, n, y[|n|..], part, room);
    FreedAccounts(x, u, w, n, y[|n|..], base, live);
  }

  // ----- The code -----

  /** Block i is free and holds size bytes behind the slack for the alignment. */
  predicate Fits(b: seq<int>, base: nat, i: nat, size: nat, align: nat)
    requires i < |b| && align > 0
  {
    b[i] >= 0 && b[i] >= Extra(base + Sum(b[..i]), align) + size
  }

  /** Block i is the first in which the request fits, and p is the first aligned address in it. */
  ghost predicate FirstFit(b: seq<int>, base: nat, i: nat, size: nat, align: nat, p: nat)
    requires align > 0
  {
    && i < |b| && Fits(b, base, i, size, align) && (forall j :: 0 <= j < i ==> !Fits(b, base, j, size, align))
    && p == base + Sum(b[..i]) + Extra(base + Sum(b[..i]), align)
  }

  lemma {:induction false} SumNext(b: seq<int>, i: nat)
    requires i < |b|
    ensures Sum(b[..i + 1]) == Sum(b[..i]) + Abs(b[i])
  {
    assert b[..i + 1] == b[..i] + [b[i]];
    SumConcat(b[..i], [b[i]]);
    One(b[i]);
  }

  lemma {:induction false} AtIndex(b: seq<int>, base: nat, p: nat, v: int) returns (i: nat)
    requires At(b, base, p, v)
    ensures i < |b| && b[i] == v && p == base + Sum(b[..i])
  {
    if p == base && v == b[0] {
      i := 0;
    } else {
      var j := AtIndex(b[1..], base + Abs(b[0]), p, v);
      i := j + 1;
      assert b[..i] == [b[0]] + b[1..][..j];
      SumConcat([b[0]], b[1..][..j]);
      One(b[0]);
    }
  }

  class Area {
    const base: nat
    const part: nat
    const room: nat
    const coarse: nat       // SMP_CACHE_BYTES
    var table: array<int>
    var numUsed: nat
    ghost var live: map<nat, Request>

    ghost predicate Valid()
      reads this, table
    {
      && numUsed <= table.Length && table.Length > 0 && room > part
      && coarse > 0 && base % coarse == 0 && part % coarse == 0
      && Inv(table[..numUsed], base, part, room, live)
    }

    /** percpu_modinit. */
    constructor (base: nat, part: nat, room: nat, coarse: nat)
      requires coarse > 0 && base % coarse == 0 && part % coarse == 0 && 0 < part < room
      ensures Valid() && fresh(table) && table[..numUsed] == [0 - part, room - part] && live == map[]
    {
      this.base, this.part, this.room, this.coarse := base, part, room, coarse;
      table := new int[2](k => if k == 0 then 0 - part else room - part);
      numUsed, live := 2, map[];
      new;
      assert table[..numUsed] == [0 - part, room - part];
      InitialAccounts(base, part, room);
    }

    /** The table gets room for one entry more, if kmalloc has it. */
    method Enlarge(ok: bool) returns (done: bool)
      requires 0 < numUsed <= table.Length
      modifies this`table
      ensures done <==> ok || numUsed < old(table.Length)
      ensures numUsed <= table.Length && (table == old(table) || fresh(table)) && (done ==> numUsed < table.Length)
      ensures table[..numUsed] == old(table[..numUsed])
    {
      if numUsed < table.Length {
        return true;
      }
      if !ok {
        return false;
      }
      table := Doubled(table);
      return true;
    }

    /** The entries from i on move up, and block i is cut in two. */
    method Cut(i: nat, size: int)
      requires i < numUsed < table.Length
      modifies this`numUsed, table
      ensures numUsed == old(numUsed) + 1 && table[..numUsed] == Split(old(table[..numUsed]), i, size)
    {
      MoveUp(table, i, numUsed);
      numUsed := numUsed + 1;
      table[i + 1] := table[i + 1] - size;
      table[i] := size;
    }

    /** split_block. */
    method SplitBlock(i: nat, size: int, ok: bool) returns (done: bool)
      requires i < numUsed <= table.Length
      modifies this`table, this`numUsed, table
      ensures done <==> ok || old(numUsed) < old(table.Length)
      ensures numUsed <= table.Length && (table == old(table) || fresh(table))
      ensures table[..numUsed] == if done then Split(old(table[..numUsed]), i, size) else old(table[..numUsed])
    {
      done := Enlarge(ok);
      if done {
        Cut(i, size);
      }
    }

    /** Block i + 1 is joined to block i, and the entries behind move down. */
    method MergeAt(i: nat)
      requires i + 1 < numUsed <= table.Length
      modifies this`numUsed, table
      ensures numUsed == old(numUsed) - 1 && table[..numUsed] == Merged(old(table[..numUsed]), i)
    {
      ghost var b := table[..numUsed];
      table[i] := table[i] + table[i + 1];
      MoveDown(table, i + 1, numUsed);
      numUsed := numUsed - 1;
    }

    /** The rest of percpu_modalloc once block i was found to fit. */
    method TakeAt(i: nat, extra: nat, size: nat, ok: bool) returns (done: bool)
      requires 0 < i < numUsed <= table.Length && size < 65536
      modifies this`table, this`numUsed, table
      ensures numUsed <= table.Length && (table == old(table) || fresh(table))
      ensures (table[..numUsed], done)
           == TakeBlock(old(table[..numUsed]), i, extra, size, ok || old(numUsed) < old(table.Length))
    {
      ghost var b := table[..numUsed];
      if table[i - 1] < 0 {
        table[i - 1] := table[i - 1] - extra;
      } else {
        table[i - 1] := table[i - 1] + extra;
      }
      table[i] := table[i] - extra;
      assert table[..numUsed] == Slacked(b, i, extra);
      if table[i] - size > WORD {
        done := SplitBlock(i, size, ok);
        if !done {
          return;
        }
      }
      table[i] := -table[i];
      done := true;
    }

    /** The rest of the loop body, for a block that fits. */
    method UseBlock(i: nat, ptr: nat, size: nat, align: nat, ok: bool) returns (r: Option<nat>)
      requires Valid() && 0 < size < 65536 && 0 < align && coarse % align == 0 && i < numUsed
      requires Fits(table[..numUsed], base, i, size, align) && ptr == base + Sum(table[..numUsed][..i])
      modifies this`table, this`numUsed, this`live, table
      ensures Valid() && (table == old(table) || fresh(table))
      ensures r.Some? ==> r.value !in old(live) && live == old(live)[r.value := Request(size, align)]
      ensures r.Some? ==> r.value == ptr + Extra(ptr, align)
      ensures r.None? ==> live == old(live) && !ok
    {
      ghost var b := table[..numUsed];
      var extra := Extra(ptr, align);
      FitsFollows(b, base, part, room, i, size, align);
      AllocKeeps(b, base, part, room, live, i, extra, size, align, coarse, ok || numUsed < table.Length);
      var done := TakeAt(i, extra, size, ok);
      if !done {
        return None;
      }
      live := live[ptr + extra := Request(size, align)];
      return Some(ptr + extra);
    }

    /** percpu_modalloc: first fit.  ok tells whether kmalloc can enlarge the table. */
    method ModAlloc(size: nat, align: nat, ok: bool) returns (r: Option<nat>)
      requires Valid() && 0 < size < 65536 && align > 0 && (align <= coarse ==> coarse % align == 0)
      modifies this`table, this`numUsed, this`live, table
      ensures Valid() && (table == old(table) || fresh(table))
      ensures var a := if align > coarse then coarse else align;
        && (r.Some? ==> r.value !in old(live) && live == old(live)[r.value := Request(size, a)])
        && (r.None? ==> live == old(live))
        && (r.None? && ok ==> forall i :: 0 <= i < old(numUsed) ==> !Fits(old(table[..numUsed]), base, i, size, a))
        && (r.Some? ==> exists i :: FirstFit(old(table[..numUsed]), base, i, size, a, r.value))
    {
      var a := if align > coarse then coarse else align;
      ghost var b := table[..numUsed];
      var ptr, i := base, 0;
      while i < numUsed
        invariant i <= numUsed <= table.Length && table == old(table) && table[..numUsed] == b && Valid()
        invariant numUsed == old(numUsed) && live == old(live) && ptr == base + Sum(b[..i])
        invariant forall j :: 0 <= j < i ==> !Fits(b, base, j, size, a)
      {
        var extra := Extra(ptr, a);
        if table[i] >= 0 && table[i] >= extra + size {
          assert b[i] == table[i];
          r := UseBlock(i, ptr, size, a, ok);
          assert r.Some? ==> FirstFit(b, base, i, size, a, r.value);
          return;
        }
        SumNext(b, i);
        assert b[i] == table[i];
        ptr := ptr + Abs(table[i]);
        i := i + 1;
      }
      return None;
    }

    /** percpu_modfree of a live allocation. */
    method ModFree(p: nat)
      requires Valid() && p in live
      modifies this`numUsed, this`live, table
      ensures Valid() && live == old(live) - {p}
    {
      ghost var b := table[..numUsed];
      ghost var at := LiveIndex(b, base, live, p);
      SumNext(b, 0);
      var ptr, i := base + Abs(table[0]), 1;
      assert b[..0] == [];
      while ptr != p
        invariant 1 <= i <= at < numUsed <= table.Length && table[..numUsed] == b && Valid()
        invariant numUsed == old(numUsed) && live == old(live) && ptr == base + Sum(b[..i])
        decreases at - i
      {
        SumNext(b, i);
        assert b[i] == table[i];
        ptr := ptr + Abs(table[i]);
        i := i + 1;
      }
      if i < at {
        SumGrows(b, i, at);
      }
      FreeKeeps(b, base, part, room, live, at);
      FreeAt(i);
      live := live - {p};
    }

    /** Block i is merged with a free one behind it. */
    method JoinAt(i: nat)
      requires i < numUsed <= table.Length
      modifies this`numUsed, table
      ensures numUsed <= table.Length && table[..numUsed] == JoinNext(old(table[..numUsed]), i)
    {
      if i + 1 < numUsed && table[i + 1] >= 0 {
        MergeAt(i);
      }
    }

    method FlipAt(i: nat)
      requires i < numUsed <= table.Length
      modifies table
      ensures table[..numUsed] == old(table[..numUsed])[i := -old(table[i])]
    {
      table[i] := -table[i];
    }

    /** The rest of percpu_modfree once block i was found. */
    method FreeAt(at: nat)
      requires 0 < at < numUsed <= table.Length
      modifies this`numUsed, table
      ensures numUsed <= table.Length && table[..numUsed] == FreeBlock(old(table[..numUsed]), at)
    {
      ghost var b := table[..numUsed];
      FlipAt(at);
      ghost var c := table[..numUsed];
      if table[at - 1] >= 0 {
        MergeAt(at - 1);
        JoinAt(at - 1);
      } else {
        JoinAt(at);
      }
      FreedIs(b, at, c, table[..numUsed]);
    }
  }

  lemma {:induction false} FreedIs(b: seq<int>, at: nat, c: seq<int>, t: seq<int>)
    requires 0 < at < |b| && c == b[at := -b[at]]
    requires t == if c[at - 1] >= 0 then JoinNext(Merged(c, at - 1), at - 1) else JoinNext(c, at)
    ensures t == FreeBlock(b, at)
  {
  }

  lemma {:induction false} FitsFollows(b: seq<int>, base: nat, part: nat, room: nat, i: nat, size: nat, align: nat)
    requires Tiled(b, part, room) && i < |b| && align > 0 && size > 0 && Fits(b, base, i, size, align)
    ensures 0 < i && b[i] > 0 && b[i - 1] < 0
  {
  }

  lemma {:induction false} LiveIndex(b: seq<int>, base: nat, live: map<nat, Request>, p: nat) returns (i: nat)
    requires Accounts(b, base, live) && p in live && b != []
    ensures 0 < i < |b| && b[i] < 0 && p == base + Sum(b[..i])
  {
    assert Backed(b, base, p, live[p].size);
    var v :| At(b, base, p, v) && v < 0 && -v >= live[p].size;
    i := AtIndex(b, base, p, v);
    assert b[..0] == [];
  }

  /** The scan of percpu_modfree cannot stop early or run past the block. */
  lemma {:induction false} SumGrows(b: seq<int>, i: nat, j: nat)
    requires i < j <= |b| && NonZero(b)
    ensures Sum(b[..i]) < Sum(b[..j])
  {
    SumNext(b, j - 1);
    if i < j - 1 {
      SumGrows(b, i, j - 1);
    }
  }

  lemma {:induction false} InitialAccounts(base: nat, part: nat, room: nat)
    requires 0 < part < room
    ensures Inv([0 - part, room - part], base, part, room, map[])
  {
    var b := [0 - part, room - part];
    forall p: nat, v: int | At(b, base, p, v) ensures v >= 0 || p == base {
      Two(0 - part, room - part, base, p, v);
    }
    Two(0 - part, room - part, 0, 0, 0);
  }

  method Doubled(a: array<int>) returns (c: array<int>)
    ensures fresh(c) && c.Length == 2 * a.Length && c[..a.Length] == a[..]
  {
    c := new int[2 * a.Length];
    for k := 0 to a.Length
      invariant c[..k] == a[..k]
    {
      c[k] := a[k];
    }
  }

  /** memmove of the entries i .. n - 1 by one place up. */
  method MoveUp(a: array<int>, i: nat, n: nat)
    requires i <= n < a.Length
    modifies a
    ensures a[..n + 1] == old(a[..i + 1]) + old(a[i..n])
  {
    var k := n;
    while k > i
      invariant i <= k <= n
      invariant forall j :: 0 <= j <= k ==> a[j] == old(a[j])
      invariant forall j :: k < j <= n ==> a[j] == old(a[j - 1])
    {
      a[k] := a[k - 1];
      k := k - 1;
    }
  }

  /** memmove of the entries i + 1 .. n - 1 by one place down. */
  method MoveDown(a: array<int>, i: nat, n: nat)
    requires i < n <= a.Length
    modifies a
    ensures a[..n - 1] == old(a[..i]) + old(a[i + 1..n])
  {
    var k := i;
    while k + 1 < n
      invariant i <= k < n
      invariant forall j :: 0 <= j < i ==> a[j] == old(a[j])
      invariant forall j :: i <= j < k ==> a[j] == old(a[j + 1])
      invariant forall j :: k <= j < n ==> a[j] == old(a[j])
    {
      a[k] := a[k + 1];
      k := k + 1;
    }
  }
}
