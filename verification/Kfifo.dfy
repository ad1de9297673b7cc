/**
 * The byte FIFO: a ring whose two 32-bit indices run freely and wrap, used without a lock by one
 * reader and one writer.
 */
module Kfifo {
  import opened Arith

  type Byte = bv8
  const TWO32: nat := 0x1_0000_0000

  /** Arithmetic of unsigned int. */
  function Wrap(x: int): nat { x % 0x1_0000_0000 }

  // ----- Arithmetic of the indices -----

  lemma Recombine(q: int, n: int, c: int, s: int, t: int)
    ensures q * (n * c) + (s * n + t) == (q * c + s) * n + t
  {
  }

  lemma ModBy(a: int, n: int, c: int, q: int, r: int)
    requires n > 0 && a == q * (n * c) + r
    ensures r % n == a % n
  {
    var s, t := r / n, r % n;
    Bounds(r, n);
    Recombine(q, n, c, s, t);
    ModIs(a, n, q * c + s, t);
  }

  /** An index kept modulo 2^32 has the same place in a ring whose size divides 2^32. */
  lemma ModMod(a: int, n: int, c: int, m: int)
    requires n > 0 && m > 0 && m == n * c
    ensures (a % m) % n == a % n
  {
    Bounds(a, m);
    ModBy(a, n, c, a / m, a % m);
  }

  lemma ModAdd(a: nat, i: nat, n: nat)
    requires n > 0 && i <= n
    ensures (a + i) % n == if a % n + i < n then a % n + i else a % n + i - n
  {
    var q, r := a / n, a % n;
    assert a == q * n + r;
    if r + i < n {
      ModIs(a + i, n, q, r + i);
    } else {
      assert r + i - n < n;
      assert (q + 1) * n == q * n + n;
      ModIs(a + i, n, q + 1, r + i - n);
    }
  }

  /** Positions less than a ring apart have different places. */
  lemma ModApart(a: nat, b: nat, n: nat)
    requires n > 0 && a < b < a + n
    ensures a % n != b % n
  {
    ModAdd(a, b - a, n);
  }

  /** The difference of two wrapped indices is the number of bytes between them. */
  lemma Between(put: nat, got: nat, size: nat)
    requires got <= put <= got + size && size < TWO32
    ensures Wrap(Wrap(put) - Wrap(got)) == put - got
    ensures Wrap(size - Wrap(put) + Wrap(got)) == size - (put - got)
  {
  }

  // ----- One reader and one writer -----

  /** data is what will be put, already cut to the free space seen; done are the bytes copied. */
  datatype Writer = Resting | Putting(data: seq<Byte>, done: set<nat>)

  /** dst is the caller's buffer for len bytes; done are the bytes copied. */
  datatype Reader = Waiting | Getting(dst: seq<Byte>, done: set<nat>)

  /** put and got are all bytes published and all bytes released so far. */
  datatype Fifo = Fifo(buf: seq<Byte>, inIdx: nat, outIdx: nat, put: seq<Byte>, got: seq<Byte>, w: Writer, r: Reader)

  /** The ring fits a whole number of times into 2^32, as every power of two below does. */
  predicate RingSize(size: nat) { 0 < size < TWO32 && TWO32 % size == 0 }

  lemma {:induction false} PowersDivide(n: nat, k: nat)
    ensures Pow2(n + k) == Pow2(n) * Pow2(k)
  {
    if k > 0 {
      PowersDivide(n, k - 1);
    }
  }

  lemma Pow32()
    ensures Pow2(32) == TWO32
  {
    assert Pow2(4) == 16;
    PowersDivide(4, 4);
    PowersDivide(8, 8);
    PowersDivide(16, 16);
  }

  /** The sizes kfifo_init admits. */
  /** A proper power of two divides the range of the indices. */
  lemma PowerIsRing(n: nat)
    requires n < 32
    ensures RingSize(Pow2(n))
  {
    PowersDivide(n, 32 - n);
    Pow32();
    DividesProperly(TWO32, Pow2(n), Pow2(32 - n - 1));
  }

  lemma DividesProperly(all: int, p: int, half: int)
    requires p > 0 && half > 0 && all == p * (2 * half)
    ensures p < all && all % p == 0
  {
    ModIs(all, p, 2 * half, 0);
    MulMono(2, 2 * half, p);
  }

  /** Where byte i of a transfer of len bytes that begins at index idx lies: the first copy runs to the
      end of the buffer, the second from its beginning. */
  function Place(idx: nat, i: nat, len: nat, size: nat): (p: nat)
    requires size > 0 && i < len <= size
    ensures p < size
  {
    var l := Min(len, size - idx % size);
    if i < l then idx % size + i else i - l
  }

  datatype Action =
    | PutBegin(data: seq<Byte>)     // sample the reader's index
    | PutByte(i: nat)               // the bytes are copied in any order
    | PutEnd                        // publish the own index
    | GetBegin(len: nat)
    | GetByte(i: nat)
    | GetEnd

  predicate Can(f: Fifo, a: Action) {
    match a
    case PutBegin(data) => f.w == Resting && |data| < TWO32
    case PutByte(i) => f.w.Putting? && i < |f.w.data| <= |f.buf|
    case PutEnd => f.w.Putting? && forall i :: 0 <= i < |f.w.data| ==> i in f.w.done
    case GetBegin(len) => f.r == Waiting && len < TWO32
    case GetByte(i) => f.r.Getting? && i < |f.r.dst| <= |f.buf|
    case GetEnd => f.r.Getting? && forall i :: 0 <= i < |f.r.dst| ==> i in f.r.done
  }

  function Do(f: Fifo, a: Action): Fifo
    requires Can(f, a)
  {
    var size := |f.buf|;
    match a
    case PutBegin(data) =>
      f.(w := Putting(data[..Min(|data|, Wrap(size - f.inIdx + f.outIdx))], {}))
    case PutByte(i) =>
      var p := Place(f.inIdx, i, |f.w.data|, size);
      f.(buf := f.buf[p := f.w.data[i]], w := f.w.(done := f.w.done + {i}))
    case PutEnd =>
      f.(inIdx := Wrap(f.inIdx + |f.w.data|), put := f.put + f.w.data, w := Resting)
    case GetBegin(len) =>
      f.(r := Getting(seq(Min(len, Wrap(f.inIdx - f.outIdx)), _ => 0), {}))
    case GetByte(i) =>
      var p := Place(f.outIdx, i, |f.r.dst|, size);
      f.(r := Getting(f.r.dst[i := f.buf[p]], f.r.done + {i}))
    case GetEnd =>
      f.(outIdx := Wrap(f.outIdx + |f.r.dst|), got := f.got + f.r.dst, r := Waiting)
  }

  // ----- The invariant -----

  /** The ring holds the bytes published and not yet released. */
  predicate Holds(buf: seq<Byte>, put: seq<Byte>, got: nat)
    requires |buf| > 0
  {
    forall j :: got <= j < |put| ==> buf[j % |buf|] == put[j]
  }

  ghost predicate Sane(f: Fifo) {
    && RingSize(|f.buf|)
    && f.inIdx == Wrap(|f.put|) && f.outIdx == Wrap(|f.got|)
    && |f.got| <= |f.put| <= |f.got| + |f.buf|
    && f.got == f.put[..|f.got|]
    && Holds(f.buf, f.put, |f.got|)
  }

  predicate WriterOk(w: Writer, buf: seq<Byte>, put: nat, got: nat)
    requires |buf| > 0
  {
    w.Putting? ==>
      && put + |w.data| <= got + |buf|
      && forall i :: i in w.done ==> i < |w.data| && buf[(put + i) % |buf|] == w.data[i]
  }

  predicate ReaderOk(r: Reader, put: seq<Byte>, got: nat) {
    r.Getting? ==>
      && got + |r.dst| <= |put|
      && forall i :: i in r.done ==> i < |r.dst| && r.dst[i] == put[got + i]
  }

  ghost predicate Inv(f: Fifo) {
    && Sane(f)
    && WriterOk(f.w, f.buf, |f.put|, |f.got|)
    && ReaderOk(f.r, f.put, |f.got|)
  }

  lemma PlaceIs(idx: nat, total: nat, i: nat, len: nat, size: nat)
    requires RingSize(size) && i < len <= size && idx == Wrap(total)
    ensures Place(idx, i, len, size) == (total + i) % size
  {
    var c := TWO32 / size;
    Bounds(TWO32, size);
    assert size * c == TWO32;
    ModMod(total, size, c, TWO32);
    ModAdd(total, i, size);
  }

  lemma PutBeginKeeps(f: Fifo, data: seq<Byte>)
    requires Inv(f) && Can(f, PutBegin(data))
    ensures Inv(Do(f, PutBegin(data)))
  {
    Between(|f.put|, |f.got|, |f.buf|);
  }

  lemma PutByteKeeps(f: Fifo, i: nat)
    requires Inv(f) && Can(f, PutByte(i))
    ensures Inv(Do(f, PutByte(i)))
  {
    var size := |f.buf|;
    var at := |f.put| + i;
    PlaceIs(f.inIdx, |f.put|, i, |f.w.data|, size);
    forall j | |f.got| <= j < |f.put| ensures j % size != at % size {
      ModApart(j, at, size);
    }
    forall j | j in f.w.done && j != i ensures (|f.put| + j) % size != at % size {
      if j < i {
        ModApart(|f.put| + j, at, size);
      } else {
        ModApart(at, |f.put| + j, size);
      }
    }
  }

  lemma PutEndKeeps(f: Fifo)
    requires Inv(f) && Can(f, PutEnd)
    ensures Inv(Do(f, PutEnd))
  {
    WrapAdd(|f.put|, |f.w.data|);
    HoldsMore(f.buf, f.put, f.w.data, |f.got|, f.w.done);
    assert (f.put + f.w.data)[..|f.got|] == f.put[..|f.got|];
  }

  lemma WrapAdd(a: nat, b: nat)
    ensures Wrap(Wrap(a) + b) == Wrap(a + b)
  {
    var q, r := a / 0x1_0000_0000, Wrap(a);
    var k, t := (r + b) / 0x1_0000_0000, Wrap(r + b);
    assert a == q * 0x1_0000_0000 + r && r + b == k * 0x1_0000_0000 + t;
    ModIs(a + b, 0x1_0000_0000, q + k, t);
  }

  lemma HoldsMore(buf: seq<Byte>, put: seq<Byte>, data: seq<Byte>, got: nat, done: set<nat>)
    requires |buf| > 0 && Holds(buf, put, got)
    requires forall i :: 0 <= i < |data| ==> i in done
    requires forall i :: i in done ==> i < |data| && buf[(|put| + i) % |buf|] == data[i]
    ensures Holds(buf, put + data, got)
  {
  }

  lemma GetBeginKeeps(f: Fifo, len: nat)
    requires Inv(f) && Can(f, GetBegin(len))
    ensures Inv(Do(f, GetBegin(len)))
  {
    Between(|f.put|, |f.got|, |f.buf|);
  }

  lemma GetByteKeeps(f: Fifo, i: nat)
    requires Inv(f) && Can(f, GetByte(i))
    ensures Inv(Do(f, GetByte(i)))
  {
    PlaceIs(f.outIdx, |f.got|, i, |f.r.dst|, |f.buf|);
  }

  /** Bytes that were read need not be kept, and make room. */
  lemma RoomGrows(f: Fifo, k: nat)
    requires |f.buf| > 0 && Holds(f.buf, f.put, |f.got|) && WriterOk(f.w, f.buf, |f.put|, |f.got|)
    ensures Holds(f.buf, f.put, |f.got| + k) && WriterOk(f.w, f.buf, |f.put|, |f.got| + k)
  {
  }

  lemma GetEndKeeps(f: Fifo)
    requires Inv(f) && Can(f, GetEnd)
    ensures Inv(Do(f, GetEnd))
  {
    WrapAdd(|f.got|, |f.r.dst|);
    Gathered(f.put, f.got, f.r.dst, f.r.done);
    RoomGrows(f, |f.r.dst|);
  }

  lemma Gathered(put: seq<Byte>, got: seq<Byte>, dst: seq<Byte>, done: set<nat>)
    requires |got| + |dst| <= |put| && got == put[..|got|]
    requires forall i :: 0 <= i < |dst| ==> i in done
    requires forall i :: i in done ==> i < |dst| && dst[i] == put[|got| + i]
    ensures got + dst == put[..|got| + |dst|]
  {
  }

  lemma StepKeeps(f: Fifo, a: Action)
    requires Inv(f) && Can(f, a)
    ensures Inv(Do(f, a)) && |Do(f, a).buf| == |f.buf|
  {
    match a
    case PutBegin(data) => PutBeginKeeps(f, data);
    case PutByte(i) => PutByteKeeps(f, i);
    case PutEnd => PutEndKeeps(f);
    case GetBegin(len) => GetBeginKeeps(f, len);
    case GetByte(i) => GetByteKeeps(f, i);
    case GetEnd => GetEndKeeps(f);
  }

  predicate Init(f: Fifo) {
    RingSize(|f.buf|) && f == Fifo(f.buf, 0, 0, [], [], Resting, Waiting)
  }

  ghost predicate Run(run: seq<Fifo>) {
    && run != [] && Init(run[0])
    && forall n :: 0 < n < |run| ==> Next(run[n - 1], run[n])
  }

  ghost predicate Next(f: Fifo, g: Fifo) { exists a :: Can(f, a) && g == Do(f, a) }

  lemma {:induction false} InvInEveryRun(run: seq<Fifo>, n: nat)
    requires Run(run) && n < |run|
    ensures Inv(run[n])
  {
    if n > 0 {
      InvInEveryRun(run, n - 1);
      assert Next(run[n - 1], run[n]);
      var a :| Can(run[n - 1], a) && run[n] == Do(run[n - 1], a);
      StepKeeps(run[n - 1], a);
    }
  }

  lemma {:induction false} InvIsPrefix(f: Fifo)
    requires Sane(f)
    ensures |f.got| <= |f.put| && f.got == f.put[..|f.got|] && Wrap(f.inIdx - f.outIdx) == |f.put| - |f.got| <= |f.buf|
  {
    Between(|f.put|, |f.got|, |f.buf|);
  }

  /** In every interleaving the bytes got are a prefix of the bytes put, and the difference of the two
      wrapped indices is the number of bytes in the ring, at most its size. */
  lemma {:induction false} PrefixInEveryRun(run: seq<Fifo>, n: nat)
    requires Run(run) && n < |run|
    ensures Inv(run[n])
    ensures var f := run[n];
      && |f.got| <= |f.put| && f.got == f.put[..|f.got|]
      && Wrap(f.inIdx - f.outIdx) == |f.put| - |f.got| <= |f.buf|
  {
    InvInEveryRun(run, n);
    InvIsPrefix(run[n]);
  }

  /** A put takes all of its data that fits beside what was put and not yet got when it began. */
  lemma {:induction false} PutTakes(f: Fifo, data: seq<Byte>)
    requires Inv(f) && Can(f, PutBegin(data))
    ensures Do(f, PutBegin(data)).w == Putting(data[..Min(|data|, |f.buf| - (|f.put| - |f.got|))], {})
  {
    Between(|f.put|, |f.got|, |f.buf|);
  }

  /** A get takes as much as it asks for of what was there when it began. */
  lemma {:induction false} GetTakes(f: Fifo, len: nat)
    requires Inv(f) && Can(f, GetBegin(len))
    ensures var r := Do(f, GetBegin(len)).r; r.Getting? && r.done == {} && |r.dst| == Min(len, |f.put| - |f.got|)
  {
    Between(|f.put|, |f.got|, |f.buf|);
  }

  // ----- The code -----

  /** The calls as loops over the bytes, each turn a step of the machine above. */
  class Ring {
    const buffer: array<Byte>
    var inIdx: nat
    var outIdx: nat
    ghost var put: seq<Byte>
    ghost var got: seq<Byte>
    ghost var w: Writer
    ghost var r: Reader

    ghost function View(): Fifo
      reads this, buffer
    {
      Fifo(buffer[..], inIdx, outIdx, put, got, w, r)
    }

    /** kfifo_init. */
    constructor (buffer: array<Byte>)
      requires RingSize(buffer.Length)
      ensures this.buffer == buffer && Init(View()) && Inv(View())
    {
      this.buffer := buffer;
      inIdx, outIdx, put, got, w, r := 0, 0, [], [], Resting, Waiting;
    }

    method CopyIn(data: seq<Byte>, i: nat)
      requires Inv(View()) && w.Putting? && w.data == data && i < |data| <= buffer.Length
      modifies buffer, this`w
      ensures Inv(View()) && w == Putting(data, old(w).done + {i}) && View() == Do(old(View()), PutByte(i))
    {
      PutByteKeeps(View(), i);
      var p := Place(inIdx, i, |data|, buffer.Length);
      buffer[p] := data[i];
      w := Putting(data, w.done + {i});
      assert buffer[..] == old(buffer[..])[p := data[i]];
    }

    method CopyOut(dst: seq<Byte>, i: nat) returns (now: seq<Byte>)
      requires Inv(View()) && r.Getting? && r.dst == dst && i < |dst| <= buffer.Length
      modifies this`r
      ensures Inv(View()) && |now| == |dst| && r == Getting(now, old(r).done + {i}) && View() == Do(old(View()), GetByte(i))
    {
      GetByteKeeps(View(), i);
      now := dst[i := buffer[Place(outIdx, i, |dst|, buffer.Length)]];
      r := Getting(now, r.done + {i});
    }

    /** The free space is sampled. */
    method BeginPut(data: seq<Byte>) returns (cut: seq<Byte>)
      requires Inv(View()) && w == Resting && |data| < TWO32
      modifies this`w
      ensures Inv(View()) && w == Putting(cut, {}) && |cut| <= buffer.Length && View() == Do(old(View()), PutBegin(data))
      ensures cut == data[..Min(|data|, buffer.Length - (|put| - |got|))]
    {
      Between(|put|, |got|, buffer.Length);
      PutBeginKeeps(View(), data);
      cut := data[..Min(|data|, Wrap(buffer.Length - inIdx + outIdx))];
      w := Putting(cut, {});
    }

    /** The two copies: up to the end of the buffer, and from its beginning. */
    method CopyAllIn(cut: seq<Byte>)
      requires Inv(View()) && w == Putting(cut, {}) && |cut| <= buffer.Length
      modifies buffer, this`w
      ensures Inv(View()) && w.Putting? && w.data == cut && forall j :: 0 <= j < |cut| ==> j in w.done
    {
      var i := 0;
      while i < |cut|
        invariant i <= |cut| && Inv(View()) && w.Putting? && w.data == cut
        invariant forall j :: 0 <= j < i ==> j in w.done
      {
        CopyIn(cut, i);
        i := i + 1;
      }
    }

    /** __kfifo_put. */
    method Put(data: seq<Byte>) returns (len: nat)
      requires Inv(View()) && w == Resting && |data| < TWO32
      modifies this`inIdx, this`put, this`w, buffer
      ensures Inv(View()) && w == Resting
      ensures len == Min(|data|, buffer.Length - (|old(put)| - |got|)) && put == old(put) + data[..len]
    {
      var cut := BeginPut(data);
      CopyAllIn(cut);
      Publish(cut);
      len := |cut|;
    }

    /** The own index is published. */
    method Publish(cut: seq<Byte>)
      requires Inv(View()) && w.Putting? && w.data == cut && forall j :: 0 <= j < |cut| ==> j in w.done
      modifies this`inIdx, this`put, this`w
      ensures Inv(View()) && w == Resting && put == old(put) + cut && View() == Do(old(View()), PutEnd)
    {
      PutEndKeeps(View());
      inIdx := Wrap(inIdx + |cut|);
      put := put + cut;
      w := Resting;
    }

    method BeginGet(len: nat) returns (n: nat)
      requires Inv(View()) && r == Waiting && len < TWO32
      modifies this`r
      ensures Inv(View()) && r == Getting(seq(n, _ => 0), {}) && n == Min(len, |put| - |got|) <= buffer.Length
      ensures View() == Do(old(View()), GetBegin(len))
    {
      Between(|put|, |got|, buffer.Length);
      GetBeginKeeps(View(), len);
      n := Min(len, Wrap(inIdx - outIdx));
      r := Getting(seq(n, _ => 0), {});
    }

    method CopyAllOut(n: nat) returns (dst: seq<Byte>)
      requires Inv(View()) && r == Getting(seq(n, _ => 0), {}) && n <= buffer.Length
      modifies this`r
      ensures Inv(View()) && r.Getting? && r.dst == dst && |dst| == n && forall j :: 0 <= j < n ==> j in r.done
    {
      dst := seq(n, _ => 0);
      var i := 0;
      while i < n
        invariant i <= n == |dst| && Inv(View()) && r.Getting? && r.dst == dst
        invariant forall j :: 0 <= j < i ==> j in r.done
      {
        dst := CopyOut(dst, i);
        i := i + 1;
      }
    }

    /** __kfifo_get. */
    method Get(len: nat) returns (dst: seq<Byte>)
      requires Inv(View()) && r == Waiting && len < TWO32
      modifies this`outIdx, this`got, this`r
      ensures Inv(View()) && r == Waiting
      ensures |dst| == Min(len, |put| - |old(got)|) && got == old(got) + dst
    {
      var n := BeginGet(len);
      dst := CopyAllOut(n);
      Release(dst);
    }

    /** The own index is published, which gives the space back. */
    method Release(dst: seq<Byte>)
      requires Inv(View()) && r.Getting? && r.dst == dst && forall j :: 0 <= j < |dst| ==> j in r.done
      modifies this`outIdx, this`got, this`r
      ensures Inv(View()) && r == Waiting && got == old(got) + dst && View() == Do(old(View()), GetEnd)
    {
      GetEndKeeps(View());
      outIdx := Wrap(outIdx + |dst|);
      got := got + dst;
      r := Waiting;
    }
  }
}
