/** Loading a kexec image (kernel/kexec.c): segment checks, page allocation with the swap that
    keeps sources out of the way of destinations, the segment loader, relocation and release. */
module KexecImage {
  import opened Lists
  import opened KexecList

  datatype Error = Ok | EADDRNOTAVAIL | EINVAL | ENOMEM | EIO

  /** One kexec_segment; bufsz is |buf|. */
  datatype Segment = Segment(buf: seq<Byte>, mem: nat, memsz: nat)

  /** 2 to the number of bits of an unsigned long. */
  const ULONG: nat := 0x1_0000_0000

  // ----- Segment checks -----

  function End(s: Segment): nat {
    (s.mem + s.memsz) % ULONG
  }

  predicate Aligned(s: Segment, limit: nat) {
    PageAligned(s.mem) && PageAligned(End(s)) && End(s) < limit
  }

  predicate Overlap(a: Segment, b: Segment) {
    End(a) > b.mem && a.mem < End(b)
  }

  ghost predicate Accepted(segs: seq<Segment>, limit: nat) {
    && (forall i :: 0 <= i < |segs| ==> Aligned(segs[i], limit))
    && (forall i, j :: 0 <= j < i < |segs| ==> !Overlap(segs[i], segs[j]))
    && (forall i :: 0 <= i < |segs| ==> |segs[i].buf| <= segs[i].memsz)
  }

  /** The checks of do_kimage_alloc. */
  method CheckSegments(segs: seq<Segment>, limit: nat) returns (r: Error)
    ensures r == Ok <==> Accepted(segs, limit)
    ensures r == EADDRNOTAVAIL <==> exists i :: 0 <= i < |segs| && !Aligned(segs[i], limit)
    ensures r in {Ok, EADDRNOTAVAIL, EINVAL}
  {
    for i := 0 to |segs|
      invariant forall k :: 0 <= k < i ==> Aligned(segs[k], limit)
    {
      if !Aligned(segs[i], limit) {
        return EADDRNOTAVAIL;
      }
    }
    for i := 0 to |segs|
      invariant forall a, b :: 0 <= b < a < i ==> !Overlap(segs[a], segs[b])
    {
      for j := 0 to i
        invariant forall b :: 0 <= b < j ==> !Overlap(segs[i], segs[b])
      {
        if Overlap(segs[i], segs[j]) {
          return EINVAL;
        }
      }
    }
    for i := 0 to |segs|
      invariant forall k :: 0 <= k < i ==> |segs[k].buf| <= segs[k].memsz
    {
      if |segs[i].buf| > segs[i].memsz {
        return EINVAL;
      }
    }
    return Ok;
  }

  /** The segment's pages do not run past the top of the address space. */
  predicate NoWrap(s: Segment) {
    s.memsz == 0 || s.mem + s.memsz < ULONG
  }

  /** The test of kimage_is_destination_range. */
  ghost predicate InRange(segs: seq<Segment>, start: nat, end: nat) {
    exists i :: 0 <= i < |segs| && end > segs[i].mem && start < End(segs[i])
  }

  /** The page the loader targets after j whole pages of a segment (maddr wraps like an unsigned long). */
  function Target(s: Segment, j: nat): nat {
    PageOf((s.mem + Addr(j)) % ULONG)
  }

  ghost predicate Recognised(segs: seq<Segment>, i: nat, j: nat)
    requires i < |segs|
  {
    var p := Target(segs[i], j);
    InRange(segs, Addr(p), Addr(p) + PAGE_SIZE)
  }

  /** do_kimage_alloc does not look for wrap-around, and the destination test is only exact without it:
      for accepted segments every page the loader targets is recognised as a destination page
      if and only if no segment wraps. */
  lemma {:induction false} RangeTestExact(segs: seq<Segment>, limit: nat)
    requires Accepted(segs, limit)
    requires forall i :: 0 <= i < |segs| ==> segs[i].mem < ULONG && segs[i].memsz < ULONG
    ensures (forall i: nat, j: nat :: i < |segs| && Addr(j) < segs[i].memsz ==> Recognised(segs, i, j))
       <==> (forall i :: 0 <= i < |segs| ==> NoWrap(segs[i]))
  {
    if forall i :: 0 <= i < |segs| ==> NoWrap(segs[i]) {
      forall i: nat, j: nat | i < |segs| && Addr(j) < segs[i].memsz ensures Recognised(segs, i, j) {
        assert NoWrap(segs[i]);
        TargetInside(segs[i], j, limit);
      }
    } else {
      var i: nat :| i < |segs| && !NoWrap(segs[i]);
      var j := WrapsUnseen(segs, limit, i);
    }
  }

  lemma {:induction false} WrapsUnseen(segs: seq<Segment>, limit: nat, i: nat) returns (j: nat)
    requires Accepted(segs, limit) && i < |segs| && !NoWrap(segs[i])
    requires forall k :: 0 <= k < |segs| ==> segs[k].mem < ULONG && segs[k].memsz < ULONG
    ensures Addr(j) < segs[i].memsz && !Recognised(segs, i, j)
  {
    assert Aligned(segs[i], limit);
    j := PageOf(ULONG - PAGE_SIZE - segs[i].mem);
    TopPageUnseen(segs, limit, i, j);
  }

  /** Two pages, of which the second is at address zero: accepted, and its first page is not recognised. */
  lemma WrapExample()
    ensures var segs := [Segment([], ULONG - PAGE_SIZE, Addr(2))];
      Accepted(segs, ULONG) && !Recognised(segs, 0, 0)
  {
  }

  lemma TargetInside(s: Segment, j: nat, limit: nat)
    requires Aligned(s, limit) && NoWrap(s) && s.mem < ULONG && Addr(j) < s.memsz
    ensures Addr(Target(s, j)) == s.mem + Addr(j)
    ensures s.mem <= Addr(Target(s, j)) < End(s)
  {
  }

  lemma TopPageUnseen(segs: seq<Segment>, limit: nat, i: nat, j: nat)
    requires Accepted(segs, limit) && i < |segs| && !NoWrap(segs[i])
    requires forall k :: 0 <= k < |segs| ==> segs[k].mem < ULONG && segs[k].memsz < ULONG
    requires j == PageOf(ULONG - PAGE_SIZE - segs[i].mem)
    ensures Addr(j) < segs[i].memsz && !Recognised(segs, i, j)
  {
    var s := segs[i];
    assert Aligned(s, limit);
    assert s.mem + Addr(j) == ULONG - PAGE_SIZE;
    var p := Target(s, j);
    forall k | 0 <= k < |segs| ensures Addr(p) >= End(segs[k]) {
      assert Aligned(segs[k], limit);
    }
  }

  // ----- Destinations and the data they must receive -----

  /** What the image builder relies on: accepted segments that do not wrap. */
  ghost predicate Sound(segs: seq<Segment>) {
    && (forall i :: 0 <= i < |segs| ==>
         && PageAligned(segs[i].mem) && PageAligned(segs[i].memsz)
         && segs[i].mem + segs[i].memsz < ULONG && |segs[i].buf| <= segs[i].memsz)
    && (forall i, j :: 0 <= i < |segs| && 0 <= j < |segs| && i != j
         ==> segs[i].mem + segs[i].memsz <= segs[j].mem || segs[j].mem + segs[j].memsz <= segs[i].mem
             || segs[i].memsz == 0 || segs[j].memsz == 0)
  }

  lemma AcceptedIsSound(segs: seq<Segment>, limit: nat)
    requires Accepted(segs, limit)
    requires forall i :: 0 <= i < |segs| ==> segs[i].mem + segs[i].memsz < ULONG
    ensures Sound(segs)
  {
    forall i | 0 <= i < |segs| ensures PageAligned(segs[i].mem) && PageAligned(segs[i].memsz) {
      assert Aligned(segs[i], limit);
    }
    forall i, j | 0 <= i < |segs| && 0 <= j < |segs| && i != j
      ensures segs[i].mem + segs[i].memsz <= segs[j].mem || segs[j].mem + segs[j].memsz <= segs[i].mem
    {
      assert if j < i then !Overlap(segs[i], segs[j]) else !Overlap(segs[j], segs[i]);
    }
  }

  predicate Covers(s: Segment, p: nat) {
    s.mem <= Addr(p) < s.mem + s.memsz
  }

  ghost predicate IsDst(segs: seq<Segment>, p: nat) {
    exists i :: 0 <= i < |segs| && Covers(segs[i], p)
  }

  lemma CoversOnce(segs: seq<Segment>, i: nat, j: nat, p: nat)
    requires Sound(segs) && i < |segs| && j < |segs| && Covers(segs[i], p) && Covers(segs[j], p)
    ensures i == j
  {
  }

  /** The bytes of page p of a segment: its buffer, then zeros. */
  function PageImage(s: Segment, p: nat): (r: seq<Byte>)
    requires Covers(s, p)
    ensures |r| == PAGE_SIZE
  {
    seq(PAGE_SIZE, (i: nat) requires i < PAGE_SIZE =>
      var off := Addr(p) - s.mem + i;
      if off < |s.buf| then s.buf[off] else 0)
  }

  /** Each source page is its own destination page, or no destination page at all. */
  ghost predicate Safe(segs: seq<Segment>, l: map<nat, nat>) {
    forall d :: d in l ==> IsDst(segs, d) && (l[d] == d || !IsDst(segs, l[d]))
  }

  /** Each source page holds the bytes its destination must receive. */
  ghost predicate Filled(segs: seq<Segment>, mem: Memory, l: map<nat, nat>) {
    forall i, d :: 0 <= i < |segs| && d in l && Covers(segs[i], d)
      ==> l[d] in mem && mem[l[d]] == Data(PageImage(segs[i], d))
  }

  function Elems(s: seq<nat>): set<nat> {
    set x | x in s
  }

  /** Pages are numbered below n, so there are at most n of them. */
  lemma {:induction false} BelowCard(s: set<nat>, n: nat)
    requires forall x :: x in s ==> x < n
    ensures |s| <= n
  {
    if n == 0 {
      assert s == {};
    } else {
      BelowCard(s - {n - 1}, n - 1);
    }
  }

  /** kimage_dst_used: the entry whose running destination is page, found by walking the chain. */
  method DstUsed(mem: Memory, head: Entry, page: nat,
                 ghost log: seq<Entry>, ghost inds: seq<nat>, ghost term: Entry)
    returns (r: Ptr, ghost j: nat, ghost i: nat)
    requires ListAt(mem, head, log, inds, term) && Fresh(log)
    ensures r == Head <==> page !in Loaded(log)
    ensures r != Head ==>
      && j < |inds| && i < LAST && LAST * j + i < |log| && r == At(inds[j], i)
      && log[LAST * j + i].Source? && Cur(log[..LAST * j + i]) == page
  {
    var ptr, dst := Head, 0;
    j, i := 0, 0;
    ghost var k := 0;
    var e := Deref(mem, head, ptr);
    WalkStep(mem, head, log, inds, term, ptr, j, i, k);
    while !e.Zero? && !e.Done?
      invariant e == Deref(mem, head, ptr) && Standing(ptr, log, inds, j, i, k)
      invariant dst == Cur(log[..k]) && page !in Loaded(log[..k])
      invariant (e.Zero? || e.Done?) ==> k == |log|
      decreases |log| - k, WalkLeft(ptr, i)
    {
      WalkStep(mem, head, log, inds, term, ptr, j, i, k);
      if e.Dest? {
        dst := e.page;
      } else if e.Source? {
        if page == dst {
          SourceIsLoaded(log, k);
          return ptr, j, i;
        }
        dst := dst + 1;
      }
      if e.Ind? {
        j, i := if ptr == Head then 0 else j + 1, 0;
      } else {
        i, k := i + 1, k + 1;
      }
      ptr := Next(ptr, e);
      e := Deref(mem, head, ptr);
      WalkStep(mem, head, log, inds, term, ptr, j, i, k);
    }
    assert log[..k] == log;
    r := Head;
  }

  /** The frames p, ..., p + count - 1. */
  function Block(p: nat, count: nat): (r: set<nat>)
    ensures forall q :: q in r <==> p <= q < p + count
  {
    if count == 0 then {} else Block(p, count - 1) + {p + count - 1}
  }

  /** For whole pages of sound segments the range test misses no destination page. */
  lemma RangeSees(segs: seq<Segment>, first: nat, count: nat, p: nat)
    requires Sound(segs) && first <= p < first + count && IsDst(segs, p)
    ensures InRange(segs, Addr(first), Addr(first + count))
  {
  }

  /** For a single page the range test is exact. */
  lemma RangeExact(segs: seq<Segment>, p: nat)
    requires Sound(segs)
    ensures InRange(segs, Addr(p), Addr(p) + PAGE_SIZE) <==> IsDst(segs, p)
  {
  }

  // ----- The invariant of an image under construction -----

  /** The chain holds the list and the two entry pointers stand at its end. */
  ghost predicate Listing(mem: Memory, head: Entry, log: seq<Entry>, inds: seq<nat>, term: Entry,
                          entry: Ptr, lastEntry: Ptr) {
    && ListAt(mem, head, log, inds, term)
    && (if inds == [] then entry == Head && lastEntry == Head
        else Tail(log, inds) >= 0 && entry == At(inds[|inds| - 1], Tail(log, inds))
             && lastEntry == At(inds[|inds| - 1], LAST))
  }

  /** Destinations are distinct, sources are distinct, and no source is in the way of a copy. */
  ghost predicate Meaning(segs: seq<Segment>, log: seq<Entry>) {
    Sound(segs) && Fresh(log) && OneToOne(Loaded(log)) && Safe(segs, Loaded(log))
  }

  ghost predicate Frames(owned: set<nat>, mem: Memory, ram: nat) {
    (forall p :: p in owned ==> p < ram) && (forall p :: 0 <= p < ram ==> p in mem)
  }

  /** Page x is among the first m pages of segment n. */
  ghost predicate AmongFirst(segs: seq<Segment>, n: nat, m: nat, x: nat)
    requires n < |segs|
  {
    segs[n].mem <= Addr(x) < segs[n].mem + Addr(m)
  }

  /** The destination pages with a source are all of the first n segments and m pages of segment n. */
  ghost predicate Progressed(segs: seq<Segment>, keys: set<nat>, n: nat, m: nat)
    requires n < |segs|
  {
    forall x: nat :: x in keys <==> (exists i :: 0 <= i < n && Covers(segs[i], x)) || AmongFirst(segs, n, m, x)
  }

  /** The value of an image: its fields, the list in its chain (log), the pages of the chain (inds)
      and the entry behind the list (term). */
  datatype Image = Image(
    segs: seq<Segment>, ram: nat,
    head: Entry, entry: Ptr, lastEntry: Ptr,
    dests: set<nat>, unuseable: set<nat>, control: set<nat>,
    mem: Memory, owned: set<nat>,
    log: seq<Entry>, inds: seq<nat>, term: Entry)
  {
    function Sources(): set<nat> {
      Loaded(log).Values
    }

    /** The pages recorded somewhere in the image. */
    function Recorded(): set<nat> {
      Sources() + Elems(inds) + dests + unuseable + control
    }

    /** Pages taken but recorded nowhere: the page in flight, or one lost when recording it failed. */
    function Limbo(): set<nat> {
      owned - Recorded()
    }

    /** Each page is recorded at one place only, and the pages the relocation itself needs are
        no destinations. */
    ghost predicate Apart() {
      && Sources() !! Elems(inds) !! dests !! unuseable !! control
      && Recorded() <= owned
      && (forall p :: p in Elems(inds) + control ==> !IsDst(segs, p))
    }

    ghost predicate Valid() {
      && Frames(owned, mem, ram)
      && Listing(mem, head, log, inds, term, entry, lastEntry)
      && Meaning(segs, log)
      && Apart()
    }

    ghost predicate IsFilled() {
      Filled(segs, mem, Loaded(log))
    }

    ghost predicate Progress(n: nat, m: nat)
      requires n < |segs|
    {
      Progressed(segs, Loaded(log).Keys, n, m)
    }

    /** The image is complete: every destination page has a source page with its data. */
    ghost predicate Ready() {
      && Valid() && term == Done
      && (forall d: nat :: d in Loaded(log).Keys <==> IsDst(segs, d))
      && IsFilled()
    }

    /** What page allocation leaves alone: the list keeps its shape and its data. */
    ghost predicate Keeps(g: Image) {
      && segs == g.segs && ram == g.ram
      && head == g.head && entry == g.entry && lastEntry == g.lastEntry
      && inds == g.inds && term == g.term && control == g.control
      && Cur(log) == Cur(g.log) && Loaded(log).Keys == Loaded(g.log).Keys
      && (g.IsFilled() ==> IsFilled())
    }
  }

  /** The swap on the meaning of the list: destination p takes page p itself as its source. */
  lemma SwapSafe(segs: seq<Segment>, l: map<nat, nat>, p: nat)
    requires Safe(segs, l) && OneToOne(l) && p in l && p !in l.Values
    ensures var l' := l[p := p];
      && Safe(segs, l') && OneToOne(l') && !IsDst(segs, l[p])
      && l'.Values == l.Values - {l[p]} + {p}
  {
    var l' := l[p := p];
    assert l[p] in l.Values;
    forall v | v in l.Values - {l[p]} + {p} ensures v in l'.Values {
      if v == p {
        assert l'[p] == p;
      } else {
        var a :| a in l && l[a] == v;
        assert l'[a] == v;
      }
    }
    forall v | v in l'.Values ensures v in l.Values - {l[p]} + {p} {
      var a :| a in l' && l'[a] == v;
      if a != p {
        assert l[a] != l[p];
      }
    }
    forall a | a in l && a != p ensures l'[a] != l'[p] {
      assert l[a] in l.Values;
    }
  }

  lemma SwapMeaning(segs: seq<Segment>, log: seq<Entry>, k: nat, p: nat)
    requires Meaning(segs, log)
    requires k < |log| && log[k].Source? && Cur(log[..k]) == p && p !in Loaded(log).Values
    ensures var log' := log[k := Source(p)];
      && Meaning(segs, log') && Cur(log') == Cur(log)
      && p in Loaded(log) && Loaded(log)[p] == log[k].page && Loaded(log') == Loaded(log)[p := p]
      && Loaded(log').Keys == Loaded(log).Keys
      && !IsDst(segs, log[k].page) && log[k].page in Loaded(log).Values
      && Loaded(log').Values == Loaded(log).Values - {log[k].page} + {p}
  {
    ReplaceSource(log, k, p);
    SwapSafe(segs, Loaded(log), p);
    assert Loaded(log)[p] in Loaded(log).Values;
  }

  /** ... and the copied page keeps the data of the destination it now serves. */
  lemma SwapFilled(segs: seq<Segment>, mem: Memory, mem': Memory, l: map<nat, nat>, p: nat)
    requires Filled(segs, mem, l) && p in l && p !in l.Values
    requires l[p] in mem && p in mem' && mem'[p] == mem[l[p]]
    requires forall q :: q in l.Values && q in mem ==> q in mem' && mem'[q] == mem[q]
    ensures Filled(segs, mem', l[p := p])
  {
  }

  /** Memory after the swap: the page is copied, then the entry is redirected to the copy. */
  function Swapped(mem: Memory, p: nat, from: nat, page: nat, slot: nat): Memory
    requires from in mem && page in mem && page != p && mem[page].Table? && slot < |mem[page].slots|
  {
    SetSlot(mem[p := mem[from]], page, slot, Source(p))
  }

  lemma SwapListing(mem: Memory, head: Entry, log: seq<Entry>, inds: seq<nat>, term: Entry,
                    entry: Ptr, lastEntry: Ptr, j: nat, i: nat, p: nat, from: nat)
    requires Listing(mem, head, log, inds, term, entry, lastEntry)
    requires j < |inds| && i < LAST && LAST * j + i < |log| && p !in inds && from in mem
    ensures IsTable(mem, inds[j]) && inds[j] != p
    ensures Slot(mem, inds[j], i) == log[LAST * j + i]
    ensures Listing(Swapped(mem, p, from, inds[j], i), head, log[LAST * j + i := Source(p)], inds, term, entry, lastEntry)
  {
    assert inds[j] in inds;
    var mem1 := mem[p := mem[from]];
    ListFrame(mem, mem1, head, log, inds, term);
    ListReplace(mem1, head, log, inds, term, j, i, Source(p));
  }

  // ----- Steps of kimage_alloc_page -----

  /** A frame is taken from the page allocator. */
  function Take(g: Image, p: nat): Image {
    g.(owned := g.owned + {p})
  }

  lemma TakeKeeps(g: Image, p: nat)
    requires g.Valid() && p < g.ram && p !in g.owned
    ensures Take(g, p).Valid() && Take(g, p).Keeps(g)
    ensures Take(g, p).Limbo() == g.Limbo() + {p} && p !in g.Limbo()
  {
  }

  /** A page is filed as unuseable, or kept for the destination it is. */
  lemma FileKeeps(g: Image, p: nat)
    requires g.Valid() && p in g.Limbo()
    ensures var g' := g.(unuseable := g.unuseable + {p});
      g'.Valid() && g'.Keeps(g) && g'.Limbo() == g.Limbo() - {p}
    ensures var g' := g.(dests := g.dests + {p});
      g'.Valid() && g'.Keeps(g) && g'.Limbo() == g.Limbo() - {p}
  {
  }

  /** A page kept for its destination is taken back. */
  lemma UnfileKeeps(g: Image, p: nat)
    requires g.Valid() && p in g.dests
    ensures var g' := g.(dests := g.dests - {p});
      g'.Valid() && g'.Keeps(g) && g'.Limbo() == g.Limbo() + {p} && p !in g.Limbo()
  {
  }

  /** The swap: page p takes over as source of destination p; entry k is slot i of page inds[j]. */
  function SwapImage(g: Image, j: nat, i: nat, p: nat): Image
    requires j < |g.inds| && LAST * j + i < |g.log| && g.log[LAST * j + i].Source?
    requires g.log[LAST * j + i].page in g.mem
    requires g.inds[j] in g.mem && g.inds[j] != p && g.mem[g.inds[j]].Table? && i < |g.mem[g.inds[j]].slots|
  {
    g.(mem := Swapped(g.mem, p, g.log[LAST * j + i].page, g.inds[j], i), log := g.log[LAST * j + i := Source(p)])
  }

  lemma SwapReads(g: Image, j: nat, i: nat, p: nat)
    requires g.Valid() && p in g.Limbo()
    requires j < |g.inds| && i < LAST && LAST * j + i < |g.log|
    requires g.log[LAST * j + i].Source? && Cur(g.log[..LAST * j + i]) == p
    ensures var s := g.log[LAST * j + i].page;
      && s in g.Sources() && s in g.mem && IsTable(g.mem, g.inds[j]) && g.inds[j] != p
      && Slot(g.mem, g.inds[j], i) == Source(s) && !IsDst(g.segs, s)
      && SwapImage(g, j, i, p).Sources() == g.Sources() - {s} + {p}
      && Listing(SwapImage(g, j, i, p).mem, g.head, SwapImage(g, j, i, p).log, g.inds, g.term, g.entry, g.lastEntry)
  {
    SwapMeaning(g.segs, g.log, LAST * j + i, p);
    SwapListing(g.mem, g.head, g.log, g.inds, g.term, g.entry, g.lastEntry, j, i, p, g.log[LAST * j + i].page);
  }

  lemma SwapKeeps(g: Image, j: nat, i: nat, p: nat)
    requires g.Valid() && p in g.Limbo()
    requires j < |g.inds| && i < LAST && LAST * j + i < |g.log|
    requires g.log[LAST * j + i].Source? && Cur(g.log[..LAST * j + i]) == p
    requires g.log[LAST * j + i].page in g.mem
    requires IsTable(g.mem, g.inds[j]) && g.inds[j] != p
    ensures SwapImage(g, j, i, p).Keeps(g)
  {
    SwapMeaning(g.segs, g.log, LAST * j + i, p);
    if g.IsFilled() {
      SwapFilled(g.segs, g.mem, SwapImage(g, j, i, p).mem, Loaded(g.log), p);
    }
  }

  lemma SwapApart(g: Image, g': Image, p: nat, s: nat)
    requires g.Apart() && p in g.Limbo() && s in g.Sources()
    requires g'.Sources() == g.Sources() - {s} + {p}
    requires g' == g.(mem := g'.mem, log := g'.log)
    ensures g'.Apart() && s !in g.Limbo() && g'.Limbo() == g.Limbo() - {p} + {s}
  {
  }

  lemma SwapValid(g: Image, j: nat, i: nat, p: nat)
    requires g.Valid() && p in g.Limbo()
    requires j < |g.inds| && i < LAST && LAST * j + i < |g.log|
    requires g.log[LAST * j + i].Source? && Cur(g.log[..LAST * j + i]) == p
    requires g.log[LAST * j + i].page in g.mem
    requires IsTable(g.mem, g.inds[j]) && g.inds[j] != p
    ensures SwapImage(g, j, i, p).Valid()
    ensures g.log[LAST * j + i].page !in g.Limbo()
    ensures SwapImage(g, j, i, p).Limbo() == g.Limbo() - {p} + {g.log[LAST * j + i].page}
  {
    SwapReads(g, j, i, p);
    SwapMeaning(g.segs, g.log, LAST * j + i, p);
    SwapApart(g, SwapImage(g, j, i, p), p, g.log[LAST * j + i].page);
  }

  // ----- Steps of kimage_add_entry -----

  /** The entry may be added: a destination, or a page in flight that is the running destination
      or no destination at all. */
  ghost predicate Admits(g: Image, e: Entry) {
    e.Dest? ||
    (&& e.Source? && e.page in g.Limbo()
     && IsDst(g.segs, Cur(g.log)) && Cur(g.log) !in Loaded(g.log)
     && (e.page == Cur(g.log) || !IsDst(g.segs, e.page)))
  }

  lemma {:induction false} ValuesAdd(l: map<nat, nat>, d: nat, v: nat)
    requires d !in l
    ensures l[d := v].Values == l.Values + {v}
  {
    var l' := l[d := v];
    forall x | x in l.Values + {v} ensures x in l'.Values {
      if x == v {
        assert l'[d] == x;
      } else {
        var a :| a in l && l[a] == x;
        assert l'[a] == x;
      }
    }
  }

  lemma {:induction false} AddSource(segs: seq<Segment>, l: map<nat, nat>, d: nat, v: nat)
    requires OneToOne(l) && Safe(segs, l) && d !in l && v !in l.Values && IsDst(segs, d) && (v == d || !IsDst(segs, v))
    ensures OneToOne(l[d := v]) && Safe(segs, l[d := v]) && l[d := v].Values == l.Values + {v}
  {
    ValuesAdd(l, d, v);
    forall a | a in l ensures l[a] != v {
      assert l[a] in l.Values;
    }
  }

  lemma {:induction false} AddMeaning(g: Image, e: Entry)
    requires g.Valid() && Admits(g, e)
    ensures Meaning(g.segs, g.log + [e])
    ensures Loaded(g.log + [e]).Values == g.Sources() + (if e.Source? then {e.page} else {})
  {
    AppendMeaning(g.log, e);
    if e.Source? {
      AddSource(g.segs, Loaded(g.log), Cur(g.log), e.page);
    }
  }

  /** The entry goes into the slot of the terminator. */
  function Appended(g: Image, e: Entry): Image
    requires g.entry.At? && g.entry.page in g.mem && g.mem[g.entry.page].Table?
    requires g.entry.slot + 1 < |g.mem[g.entry.page].slots|
  {
    var p, t := g.entry.page, g.entry.slot;
    g.(mem := SetSlot(SetSlot(g.mem, p, t, e), p, t + 1, Zero), entry := At(p, t + 1), log := g.log + [e])
  }

  lemma AppendListing(g: Image, e: Entry)
    requires g.Valid() && g.term == Zero && g.entry != g.lastEntry && (e.Dest? || e.Source?)
    ensures g.entry.At? && IsTable(g.mem, g.entry.page) && g.entry.slot < LAST && g.entry.page in g.inds
    ensures var g' := Appended(g, e);
      Listing(g'.mem, g'.head, g'.log, g'.inds, g'.term, g'.entry, g'.lastEntry)
  {
  }

  lemma AppendValid(g: Image, e: Entry)
    requires g.Valid() && g.term == Zero && g.entry != g.lastEntry && Admits(g, e)
    requires g.entry.At? && IsTable(g.mem, g.entry.page) && g.entry.slot < LAST
    ensures var g' := Appended(g, e);
      g'.Valid() && g'.Limbo() == g.Limbo() - (if e.Source? then {e.page} else {})
  {
    AppendListing(g, e);
    AddMeaning(g, e);
  }

  /** Data is kept while only indirection pages change. */
  lemma FilledFrame(g: Image, mem: Memory)
    requires g.Valid() && g.IsFilled()
    requires forall p :: p in g.Sources() && p in g.mem ==> p in mem && mem[p] == g.mem[p]
    ensures Filled(g.segs, mem, Loaded(g.log))
  {
  }

  lemma AppendFilled(g: Image, e: Entry)
    requires g.Valid() && g.IsFilled()
    requires g.entry.At? && IsTable(g.mem, g.entry.page) && g.entry.slot < LAST && g.entry.page in g.inds
    ensures Filled(g.segs, Appended(g, e).mem, Loaded(g.log))
  {
  }

  /** A new indirection page, whatever it held before. */
  function FreshTable(e: Entry, junk: Entry): (r: Page)
    ensures r.Table? && |r.slots| == SLOTS && r.slots[0] == e && r.slots[1] == Zero
  {
    Table(seq(SLOTS, _ => junk)[0 := e][1 := Zero])
  }

  /** Page q is linked in behind the full page, or behind the head, and takes the entry. */
  function Grown(g: Image, q: nat, e: Entry, junk: Entry): Image
    requires g.entry.At? ==>
      g.entry.page in g.mem && g.mem[g.entry.page].Table? && g.entry.slot < |g.mem[g.entry.page].slots|
  {
    var linked := if g.entry == Head then g.mem else SetSlot(g.mem, g.entry.page, g.entry.slot, Ind(q));
    g.(head := if g.entry == Head then Ind(q) else g.head,
       mem := linked[q := FreshTable(e, junk)],
       entry := At(q, 1), lastEntry := At(q, LAST), log := g.log + [e], inds := g.inds + [q])
  }

  lemma GrowListing(g: Image, q: nat, e: Entry, junk: Entry)
    requires g.Valid() && g.term == Zero && g.entry == g.lastEntry && (e.Dest? || e.Source?)
    requires q in g.Limbo()
    ensures g.entry.At? ==> IsTable(g.mem, g.entry.page) && g.entry.slot == LAST && g.entry.page in g.inds
    ensures var g' := Grown(g, q, e, junk);
      Listing(g'.mem, g'.head, g'.log, g'.inds, g'.term, g'.entry, g'.lastEntry)
  {
    assert q !in g.inds;
    var g' := Grown(g, q, e, junk);
    ListGrow(g.mem, g'.mem, g.head, g'.head, g.log, g.inds, q, e);
  }

  lemma GrowApart(g: Image, g': Image, q: nat, more: set<nat>)
    requires g.Apart() && q in g.Limbo() && more <= g.Limbo() - {q} && !IsDst(g.segs, q)
    requires g'.segs == g.segs && g'.owned == g.owned
    requires g'.dests == g.dests && g'.unuseable == g.unuseable && g'.control == g.control
    requires g'.Sources() == g.Sources() + more && Elems(g'.inds) == Elems(g.inds) + {q}
    ensures g'.Apart() && g'.Limbo() == g.Limbo() - {q} - more
  {
  }

  lemma GrowValid(g: Image, q: nat, e: Entry, junk: Entry)
    requires g.Valid() && g.term == Zero && g.entry == g.lastEntry && Admits(g, e)
    requires q in g.Limbo() && !IsDst(g.segs, q) && e != Source(q)
    requires g.entry.At? ==> IsTable(g.mem, g.entry.page) && g.entry.slot == LAST
    ensures var g' := Grown(g, q, e, junk);
      g'.Valid() && g'.Limbo() == g.Limbo() - {q} - (if e.Source? then {e.page} else {})
  {
    GrowListing(g, q, e, junk);
    GrowFrames(g, q, e, junk);
    AddMeaning(g, e);
    GrowPlaces(g, q, e, junk);
    var g' := Grown(g, q, e, junk);
    assert g'.owned == g.owned && g'.ram == g.ram && g'.segs == g.segs && g'.log == g.log + [e];
  }

  lemma {:induction false} GrowPlaces(g: Image, q: nat, e: Entry, junk: Entry)
    requires g.Valid() && Admits(g, e) && q in g.Limbo() && !IsDst(g.segs, q) && e != Source(q)
    requires g.entry.At? ==> IsTable(g.mem, g.entry.page) && g.entry.slot == LAST
    ensures var g' := Grown(g, q, e, junk);
      g'.Apart() && g'.Limbo() == g.Limbo() - {q} - (if e.Source? then {e.page} else {})
  {
    AddMeaning(g, e);
    ElemsAppend(g.inds, q);
    GrowApart(g, Grown(g, q, e, junk), q, if e.Source? then {e.page} else {});
  }

  lemma {:induction false} ElemsAppend(l: seq<nat>, q: nat)
    ensures Elems(l + [q]) == Elems(l) + {q}
  {
  }

  lemma {:induction false} GrowFrames(g: Image, q: nat, e: Entry, junk: Entry)
    requires Frames(g.owned, g.mem, g.ram) && (g.entry.At? ==> IsTable(g.mem, g.entry.page) && g.entry.slot == LAST)
    ensures Frames(g.owned, Grown(g, q, e, junk).mem, g.ram)
  {
  }

  lemma GrowFilled(g: Image, q: nat, e: Entry, junk: Entry)
    requires g.Valid() && g.IsFilled() && q in g.Limbo()
    requires g.entry.At? ==> IsTable(g.mem, g.entry.page) && g.entry.slot == LAST && g.entry.page in g.inds
    ensures Filled(g.segs, Grown(g, q, e, junk).mem, Loaded(g.log))
  {
  }

  // ----- Steps of kimage_load_normal_segment -----

  /** The next page of a segment is a destination that has no source yet. */
  lemma NextPage(g: Image, n: nat, m: nat, d: nat)
    requires g.Valid() && n < |g.segs| && g.Progress(n, m)
    requires Addr(m) < g.segs[n].memsz && Addr(d) == g.segs[n].mem + Addr(m)
    ensures Covers(g.segs[n], d) && IsDst(g.segs, d) && d !in Loaded(g.log)
  {
  }

  lemma ProgressStep(segs: seq<Segment>, keys: set<nat>, n: nat, m: nat, d: nat)
    requires n < |segs| && Progressed(segs, keys, n, m) && Addr(d) == segs[n].mem + Addr(m)
    ensures Progressed(segs, keys + {d}, n, m + 1)
  {
  }

  lemma ProgressOn(g: Image, g': Image, n: nat, m: nat, d: nat)
    requires n < |g.segs| && g'.segs == g.segs && g.Progress(n, m) && Addr(d) == g.segs[n].mem + Addr(m)
    requires Loaded(g'.log).Keys == Loaded(g.log).Keys + {d}
    ensures g'.Progress(n, m + 1)
  {
    ProgressStep(g.segs, Loaded(g.log).Keys, n, m, d);
  }

  /** A finished segment counts among the finished ones. */
  lemma ProgressNext(segs: seq<Segment>, keys: set<nat>, n: nat, m: nat)
    requires n < |segs| && Progressed(segs, keys, n, m) && Addr(m) == segs[n].memsz
    ensures forall x: nat :: x in keys <==> exists i :: 0 <= i < n + 1 && Covers(segs[i], x)
    ensures n + 1 < |segs| ==> Progressed(segs, keys, n + 1, 0)
    ensures n + 1 == |segs| ==> forall x: nat :: x in keys <==> IsDst(segs, x)
  {
  }

  /** A cleared page with the next chunk of the buffer copied in: after m pages, ubytes of the
      buffer are left, and at most a page of them is copied. */
  function ChunkBytes(s: Segment, m: nat): seq<Byte> {
    var off := Addr(m);
    var ubytes := if off < |s.buf| then |s.buf| - off else 0;
    var uchunk := if PAGE_SIZE > ubytes then ubytes else PAGE_SIZE;
    (if uchunk > 0 then s.buf[off..off + uchunk] else []) + seq(PAGE_SIZE - uchunk, _ => 0)
  }

  lemma ChunkIsImage(s: Segment, d: nat, m: nat)
    requires Covers(s, d) && Addr(d) == s.mem + Addr(m)
    ensures ChunkBytes(s, m) == PageImage(s, d)
  {
  }

  lemma WholePages(segs: seq<Segment>, n: nat)
    requires Sound(segs) && n < |segs|
    ensures segs[n].mem == Addr(PageOf(segs[n].mem)) && segs[n].memsz == Addr(PageOf(segs[n].memsz))
  {
  }

  /** Filling the page of the last entry completes the data of the list. */
  lemma FillValid(g: Image, base: seq<Entry>, p: nat, n: nat, d: nat)
    requires g.Valid() && g.log == base + [Source(p)] && Cur(base) == d && d !in Loaded(base)
    requires n < |g.segs| && Covers(g.segs[n], d) && Filled(g.segs, g.mem, Loaded(base))
    ensures Loaded(g.log).Keys == Loaded(base).Keys + {d} && p in g.Sources()
    ensures var g' := g.(mem := g.mem[p := Data(PageImage(g.segs[n], d))]);
      g'.Valid() && g'.IsFilled() && g'.Limbo() == g.Limbo()
  {
    AppendMeaning(base, Source(p));
    var l := Loaded(g.log);
    assert l[d] == p;
    WriteSource(g, p, PageImage(g.segs[n], d));
    var mem' := g.mem[p := Data(PageImage(g.segs[n], d))];
    forall i, x | 0 <= i < |g.segs| && x in l && Covers(g.segs[i], x)
      ensures l[x] in mem' && mem'[l[x]] == Data(PageImage(g.segs[i], x))
    {
      if x == d {
        CoversOnce(g.segs, i, n, d);
      } else {
        assert l[x] != l[d];
        assert x in Loaded(base);
      }
    }
  }

  /** Writing a source page disturbs neither the list nor the accounting. */
  lemma WriteSource(g: Image, p: nat, bytes: seq<Byte>)
    requires g.Valid() && p in g.Sources()
    ensures var g' := g.(mem := g.mem[p := Data(bytes)]); g'.Valid() && g'.Limbo() == g.Limbo()
  {
    var mem' := g.mem[p := Data(bytes)];
    assert p !in Elems(g.inds);
    ListFrame(g.mem, mem', g.head, g.log, g.inds, g.term);
  }

  function Terminated(g: Image): Image
    requires g.entry.At? && g.entry.page in g.mem && g.mem[g.entry.page].Table?
    requires g.entry.slot < |g.mem[g.entry.page].slots|
  {
    g.(mem := SetSlot(g.mem, g.entry.page, g.entry.slot, Done), term := Done)
  }

  lemma TerminateValid(g: Image)
    requires g.Valid() && g.term == Zero && g.inds != []
    ensures g.entry.At? && IsTable(g.mem, g.entry.page) && g.entry.slot < SLOTS && g.entry.page in g.inds
    ensures Terminated(g).Valid() && Terminated(g).Limbo() == g.Limbo()
  {
  }

  /** A block of frames that are no destinations is recorded as control pages. */
  lemma ControlValid(g: Image, p: nat, count: nat)
    requires g.Valid() && p + count <= g.ram && Block(p, count) !! g.owned
    requires forall q :: q in Block(p, count) ==> !IsDst(g.segs, q)
    ensures var g' := g.(owned := g.owned + Block(p, count), control := g.control + Block(p, count));
      g'.Valid() && g'.Limbo() == g.Limbo()
  {
  }

  lemma {:induction false} BlockCard(p: nat, count: nat)
    ensures |Block(p, count)| == count
  {
    if count > 0 {
      BlockCard(p, count - 1);
    }
  }

  /** Before the first segment nothing is loaded. */
  lemma NothingLoaded(g: Image)
    requires g.log == [] && |g.segs| > 0
    ensures g.IsFilled() && g.Progress(0, 0)
  {
  }

  class Kimage {
    const segs: seq<Segment>
    /** Number of page frames of the machine. */
    const ram: nat
    /** KEXEC_SOURCE_MEMORY_LIMIT and KEXEC_CONTROL_MEMORY_LIMIT as frame numbers. */
    const sourceLimit: nat
    const controlLimit: nat

    var head: Entry
    var entry: Ptr
    var lastEntry: Ptr
    var destination: nat
    var destPages: set<nat>
    var unuseable: set<nat>
    var controlPages: set<nat>
    var mem: Memory
    /** Pages taken from the page allocator and not given back. */
    var owned: set<nat>

    ghost var log: seq<Entry>
    ghost var inds: seq<nat>
    ghost var term: Entry

    ghost function View(): Image
      reads this`head, this`entry, this`lastEntry, this`destPages, this`unuseable, this`controlPages, this`mem,
            this`owned, this`log, this`inds, this`term
    {
      Image(segs, ram, head, entry, lastEntry, destPages, unuseable, controlPages, mem, owned, log, inds, term)
    }

    constructor (segs: seq<Segment>, ram: nat, sourceLimit: nat, controlLimit: nat, mem: Memory)
      requires Sound(segs)
      requires forall p :: 0 <= p < ram ==> p in mem
      ensures View() == Image(segs, ram, Zero, Head, Head, {}, {}, {}, mem, {}, [], [], Zero) && destination == 0
      ensures View().Valid() && View().Limbo() == {}
    {
      this.segs, this.ram, this.sourceLimit, this.controlLimit := segs, ram, sourceLimit, controlLimit;
      head, entry, lastEntry, destination := Zero, Head, Head, 0;
      destPages, unuseable, controlPages, owned := {}, {}, {}, {};
      this.mem := mem;
      log, inds, term := [], [], Zero;
    }

    /** alloc_pages: any block of free frames, or failure. */
    method GetFreePages(count: nat) returns (r: Option<nat>)
      modifies this`owned
      ensures r.None? ==> owned == old(owned)
      ensures r.Some? ==>
        && Block(r.value, count) !! old(owned)
        && owned == old(owned) + Block(r.value, count)
        && r.value + count <= ram
    {
      var p: nat := *;
      var block := Block(p, count);
      if p + count > ram || block * owned != {} {
        return None;
      }
      owned := owned + block;
      return Some(p);
    }

    method IsDestinationRange(start: nat, end: nat) returns (r: bool)
      ensures r <==> InRange(segs, start, end)
    {
      for i := 0 to |segs|
        invariant forall k :: 0 <= k < i ==> !(end > segs[k].mem && start < End(segs[k]))
      {
        if end > segs[i].mem && start < End(segs[i]) {
          return true;
        }
      }
      return false;
    }

    /** The swap of kimage_alloc_page. */
    method SwapIn(p: nat, ptr: Ptr, ghost j: nat, ghost i: nat) returns (r: nat)
      requires View().Valid() && p in View().Limbo()
      requires j < |inds| && i < LAST && LAST * j + i < |log| && ptr == At(inds[j], i)
      requires log[LAST * j + i].Source? && Cur(log[..LAST * j + i]) == p
      modifies this`mem, this`log
      ensures View().Valid() && View().Keeps(old(View()))
      ensures !IsDst(segs, r) && r !in old(View().Limbo()) && View().Limbo() == old(View().Limbo()) - {p} + {r}
    {
      SwapReads(View(), j, i, p);
      SwapKeeps(View(), j, i, p);
      SwapValid(View(), j, i, p);
      r := Exchange(p, ptr, j, i);
    }

    /** The copy and the rewritten entry. */
    method Exchange(p: nat, ptr: Ptr, ghost j: nat, ghost i: nat) returns (r: nat)
      requires j < |inds| && i < LAST && LAST * j + i < |log| && ptr == At(inds[j], i) && inds[j] != p
      requires IsTable(mem, inds[j]) && log[LAST * j + i].Source? && log[LAST * j + i].page in mem
      requires Slot(mem, inds[j], i) == log[LAST * j + i]
      modifies this`mem, this`log
      ensures View() == SwapImage(old(View()), j, i, p) && r == old(log)[LAST * j + i].page
    {
      r := Deref(mem, head, ptr).page;
      mem := Swapped(mem, p, r, ptr.page, ptr.slot);
      log := log[LAST * j + i := Source(p)];
    }

    method TakeFrame() returns (r: Option<nat>)
      requires View().Valid()
      modifies this`owned
      ensures r.None? ==> View() == old(View())
      ensures r.Some? ==>
        && View().Valid() && View().Keeps(old(View())) && owned == old(owned) + {r.value} && r.value !in old(owned)
        && View().Limbo() == old(View().Limbo()) + {r.value} && r.value !in old(View().Limbo())
    {
      ghost var g := View();
      r := GetFreePages(1);
      if r.Some? {
        TakeKeeps(g, r.value);
        assert owned == g.owned + {r.value};
        assert View() == Take(g, r.value);
      }
    }

    /** What kimage_alloc_page does with frame p: use it, file it away (None), or swap it. */
    method UseFrame(p: nat, dest: Option<nat>) returns (r: Option<nat>)
      requires View().Valid() && p in View().Limbo()
      modifies this`destPages, this`unuseable, this`mem, this`log
      ensures View().Valid() && View().Keeps(old(View()))
      ensures r.None? ==> View().Limbo() == old(View().Limbo()) - {p}
      ensures r.Some? ==>
        && (r == dest || !IsDst(segs, r.value))
        && r.value !in old(View().Limbo()) - {p} && View().Limbo() == old(View().Limbo()) - {p} + {r.value}
    {
      if p > sourceLimit {
        FileKeeps(View(), p);
        unuseable := unuseable + {p};
        return None;
      }
      if dest == Some(p) {
        return dest;
      }
      var isDst := IsDestinationRange(Addr(p), Addr(p) + PAGE_SIZE);
      RangeExact(segs, p);
      if !isDst {
        return Some(p);
      }
      var ptr; ghost var j, i;
      ptr, j, i := DstUsed(mem, head, p, log, inds, term);
      if ptr != Head {
        var q := SwapIn(p, ptr, j, i);
        return Some(q);
      }
      FileKeeps(View(), p);
      destPages := destPages + {p};
      return None;
    }

    /** One turn of the loop of kimage_alloc_page. */
    method TryFrame(dest: Option<nat>) returns (r: Option<nat>, again: bool)
      requires View().Valid()
      modifies this`destPages, this`unuseable, this`owned, this`mem, this`log
      ensures View().Valid() && View().Keeps(old(View()))
      ensures r.None? ==> View().Limbo() == old(View().Limbo())
      ensures r.Some? ==>
        && (r == dest || !IsDst(segs, r.value))
        && r.value !in old(View().Limbo()) && View().Limbo() == old(View().Limbo()) + {r.value}
      ensures again ==> r.None? && |owned| == |old(owned)| + 1
    {
      var got := TakeFrame();
      if got.None? {
        return None, false;
      }
      r := UseFrame(got.value, dest);
      again := r.None?;
    }

    /** The loop of kimage_alloc_page: it ends because there are only so many frames. */
    method SearchFrame(dest: Option<nat>) returns (r: Option<nat>)
      requires View().Valid()
      modifies this`destPages, this`unuseable, this`owned, this`mem, this`log
      ensures View().Valid() && View().Keeps(old(View()))
      ensures r.None? ==> View().Limbo() == old(View().Limbo())
      ensures r.Some? ==>
        && (r == dest || !IsDst(segs, r.value))
        && r.value !in old(View().Limbo()) && View().Limbo() == old(View().Limbo()) + {r.value}
    {
      BelowCard(owned, ram);
      var again := true;
      r := None;
      while again
        invariant View().Valid() && View().Keeps(old(View()))
        invariant r.None? ==> View().Limbo() == old(View().Limbo())
        invariant r.Some? ==>
          && (r == dest || !IsDst(segs, r.value))
          && r.value !in old(View().Limbo()) && View().Limbo() == old(View().Limbo()) + {r.value}
        invariant again ==> r.None? && |owned| <= ram
        decreases again, ram - |owned|
      {
        r, again := TryFrame(dest);
        BelowCard(owned, ram);
      }
    }

    /** kimage_alloc_page: a page that is the wanted destination or no destination at all.
        dest is None for KIMAGE_NO_DEST. */
    method AllocPage(dest: Option<nat>) returns (r: Option<nat>)
      requires View().Valid()
      modifies this`destPages, this`unuseable, this`owned, this`mem, this`log
      ensures View().Valid() && View().Keeps(old(View()))
      ensures r.None? ==> View().Limbo() == old(View().Limbo())
      ensures r.Some? ==>
        && (r == dest || !IsDst(segs, r.value))
        && r.value !in old(View().Limbo()) && View().Limbo() == old(View().Limbo()) + {r.value}
    {
      if dest.Some? && dest.value in destPages {
        UnfileKeeps(View(), dest.value);
        destPages := destPages - {dest.value};
        return dest;
      }
      r := SearchFrame(dest);
    }

    /** Writing the entry and the terminator behind it. */
    method PutEntry(e: Entry)
      requires entry.At? && IsTable(mem, entry.page) && entry.slot < LAST
      modifies this`mem, this`entry, this`log
      ensures View() == Appended(old(View()), e)
    {
      mem := SetSlot(mem, entry.page, entry.slot, e);
      entry := At(entry.page, entry.slot + 1);
      mem := SetSlot(mem, entry.page, entry.slot, Zero);
      log := log + [e];
    }

    /** Linking in indirection page q, and writing the entry into it. */
    method LinkPage(q: nat, e: Entry, junk: Entry)
      requires entry.At? ==> IsTable(mem, entry.page) && entry.slot == LAST
      modifies this`mem, this`head, this`entry, this`lastEntry, this`log, this`inds
      ensures View() == Grown(old(View()), q, e, junk)
    {
      if entry == Head {
        head := Ind(q);
      } else {
        mem := SetSlot(mem, entry.page, entry.slot, Ind(q));
      }
      mem := mem[q := FreshTable(e, junk)];
      entry, lastEntry := At(q, 1), At(q, LAST);
      log, inds := log + [e], inds + [q];
    }

    /** kimage_add_entry; the list is not terminated yet. base is the list the entry went behind. */
    method AddEntry(e: Entry) returns (ok: bool, ghost base: seq<Entry>)
      requires View().Valid() && term == Zero && Admits(View(), e)
      modifies this`destPages, this`unuseable, this`owned, this`mem, this`log, this`head, this`entry, this`lastEntry, this`inds
      ensures View().Valid()
      ensures ok ==>
        && log == base + [e]
        && Cur(base) == old(Cur(log)) && Loaded(base).Keys == old(Loaded(log).Keys)
        && (old(View().IsFilled()) ==> Filled(segs, mem, Loaded(base)))
        && View().Limbo() == old(View().Limbo()) - (if e.Source? then {e.page} else {})
      ensures !ok ==> View().Keeps(old(View())) && View().Limbo() == old(View().Limbo())
    {
      if entry == lastEntry {
        ok, base := GrowEntry(e);
      } else {
        ok := true;
        base := RoomEntry(e);
      }
    }

    /** There is room in the page being filled. */
    method RoomEntry(e: Entry) returns (ghost base: seq<Entry>)
      requires View().Valid() && term == Zero && Admits(View(), e) && entry != lastEntry
      modifies this`mem, this`entry, this`log
      ensures View().Valid() && base == old(log) && log == base + [e]
      ensures old(View().IsFilled()) ==> Filled(segs, mem, Loaded(base))
      ensures View().Limbo() == old(View().Limbo()) - (if e.Source? then {e.page} else {})
    {
      ghost var g := View();
      base := g.log;
      AppendListing(g, e);
      AppendValid(g, e);
      if g.IsFilled() {
        AppendFilled(g, e);
      }
      PutEntry(e);
    }

    /** There is none: a page is allocated and linked in. */
    method GrowEntry(e: Entry) returns (ok: bool, ghost base: seq<Entry>)
      requires View().Valid() && term == Zero && Admits(View(), e) && entry == lastEntry
      modifies this`destPages, this`unuseable, this`owned, this`mem, this`log, this`head, this`entry, this`lastEntry, this`inds
      ensures View().Valid()
      ensures ok ==>
        && log == base + [e]
        && Cur(base) == old(Cur(log)) && Loaded(base).Keys == old(Loaded(log).Keys)
        && (old(View().IsFilled()) ==> Filled(segs, mem, Loaded(base)))
        && View().Limbo() == old(View().Limbo()) - (if e.Source? then {e.page} else {})
      ensures !ok ==> View().Keeps(old(View())) && View().Limbo() == old(View().Limbo())
    {
      base := [];
      var got := AllocPage(None);
      if got.None? {
        return false, base;
      }
      base := log;
      FirstEntry(got.value, e);
      return true, base;
    }

    /** The new page q is linked in with the entry as its first. */
    method FirstEntry(q: nat, e: Entry)
      requires View().Valid() && term == Zero && Admits(View(), e) && entry == lastEntry
      requires q in View().Limbo() && !IsDst(segs, q) && e != Source(q)
      modifies this`mem, this`head, this`entry, this`lastEntry, this`log, this`inds
      ensures View().Valid() && log == old(log) + [e]
      ensures old(View().IsFilled()) ==> Filled(segs, mem, Loaded(old(log)))
      ensures View().Limbo() == old(View().Limbo()) - {q} - (if e.Source? then {e.page} else {})
    {
      var junk: Entry := *;
      ghost var g := View();
      GrowListing(g, q, e, junk);
      GrowValid(g, q, e, junk);
      if g.IsFilled() {
        GrowFilled(g, q, e, junk);
      }
      LinkPage(q, e, junk);
    }

    /** kimage_set_destination. */
    method SetDestination(d: nat) returns (ok: bool)
      requires View().Valid() && term == Zero && View().IsFilled()
      modifies this
      ensures View().Valid() && term == Zero && controlPages == old(controlPages) && View().IsFilled()
      ensures View().Limbo() == old(View().Limbo()) && Loaded(log).Keys == old(Loaded(log).Keys)
      ensures ok ==> Cur(log) == d == destination && log != []
    {
      ghost var base;
      ok, base := AddEntry(Dest(d));
      if ok {
        AppendMeaning(base, Dest(d));
        destination := d;
      }
    }

    /** kimage_add_page. */
    method AddPage(p: nat) returns (ok: bool, ghost base: seq<Entry>)
      requires View().Valid() && term == Zero && Admits(View(), Source(p)) && View().IsFilled()
      modifies this
      ensures View().Valid() && term == Zero && controlPages == old(controlPages)
      ensures ok ==>
        && log == base + [Source(p)]
        && Cur(base) == old(Cur(log)) && Loaded(base).Keys == old(Loaded(log).Keys)
        && Filled(segs, mem, Loaded(base))
        && View().Limbo() == old(View().Limbo()) - {p}
        && destination == old(destination) + 1
    {
      ok, base := AddEntry(Source(p));
      if ok {
        destination := destination + 1;
      }
    }

    /** A page for destination d is allocated and recorded. */
    method RecordPage(n: nat, d: nat) returns (r: Option<nat>, ghost base: seq<Entry>)
      requires View().Valid() && term == Zero && View().IsFilled() && View().Limbo() == {}
      requires n < |segs| && Covers(segs[n], d) && d !in Loaded(log) && Cur(log) == d == destination
      modifies this
      ensures View().Valid() && term == Zero && controlPages == old(controlPages)
      ensures r.Some? ==>
        && log == base + [Source(r.value)] && Cur(base) == d && d !in Loaded(base)
        && Loaded(base).Keys == old(Loaded(log).Keys)
        && Filled(segs, mem, Loaded(base)) && View().Limbo() == {} && destination == d + 1
    {
      base := [];
      r := AllocPage(Some(d));
      if r.Some? {
        var ok;
        ok, base := AddPage(r.value);
        if !ok {
          return None, [];
        }
      }
    }

    /** The page of the last entry is cleared and its part of the buffer copied in. */
    method FillPage(n: nat, m: nat, d: nat, p: nat, ghost base: seq<Entry>) returns (r: Error)
      requires View().Valid() && log == base + [Source(p)] && Cur(base) == d && d !in Loaded(base)
      requires n < |segs| && Covers(segs[n], d) && ChunkBytes(segs[n], m) == PageImage(segs[n], d)
      requires Filled(segs, mem, Loaded(base))
      modifies this`mem
      ensures View().Valid() && View().Limbo() == old(View().Limbo())
      ensures r == Ok ==> View().IsFilled()
    {
      AppendMeaning(base, Source(p));
      FillValid(View(), base, p, n, d);
      var fault: bool := *;
      if fault {
        WriteSource(View(), p, seq(PAGE_SIZE, _ => 0));
        mem := mem[p := Data(seq(PAGE_SIZE, _ => 0))];
        return EIO;
      }
      mem := mem[p := Data(ChunkBytes(segs[n], m))];
      return Ok;
    }

    /** A page for destination d is recorded and filled. */
    method StorePage(n: nat, m: nat, d: nat) returns (r: Error, ghost base: seq<Entry>, ghost p: nat)
      requires View().Valid() && term == Zero && View().IsFilled() && View().Limbo() == {}
      requires n < |segs| && Covers(segs[n], d) && d !in Loaded(log) && Cur(log) == d == destination
      requires ChunkBytes(segs[n], m) == PageImage(segs[n], d)
      modifies this
      ensures View().Valid() && term == Zero && controlPages == old(controlPages)
      ensures r == Ok ==>
        && View().IsFilled() && View().Limbo() == {} && log == base + [Source(p)]
        && Cur(base) == d && Loaded(base).Keys == old(Loaded(log).Keys) && destination == d + 1
    {
      var got;
      got, base := RecordPage(n, d);
      r, p := ENOMEM, 0;
      if got.Some? {
        p := got.value;
        r := FillPage(n, m, d, got.value, base);
      }
    }

    /** One turn of the loop of kimage_load_normal_segment: page m of segment n, for page d. */
    method LoadPage(n: nat, m: nat, d: nat) returns (r: Error)
      requires View().Valid() && term == Zero && View().IsFilled() && View().Limbo() == {}
      requires n < |segs| && View().Progress(n, m) && Addr(m) < segs[n].memsz
      requires Addr(d) == segs[n].mem + Addr(m) && Cur(log) == d == destination
      modifies this
      ensures View().Valid() && term == Zero && controlPages == old(controlPages)
      ensures r == Ok ==>
        && View().IsFilled() && View().Limbo() == {} && View().Progress(n, m + 1)
        && Cur(log) == d + 1 == destination && log != []
    {
      ghost var g := View();
      NextPage(g, n, m, d);
      ChunkIsImage(segs[n], d, m);
      ghost var base, p;
      r, base, p := StorePage(n, m, d);
      if r == Ok {
        AppendMeaning(base, Source(p));
        ProgressOn(g, View(), n, m, d);
      }
    }

    /** The loop of kimage_load_normal_segment. */
    method LoadPages(n: nat) returns (r: Error)
      requires View().Valid() && term == Zero && View().IsFilled() && View().Limbo() == {}
      requires n < |segs| && View().Progress(n, 0) && Cur(log) == PageOf(segs[n].mem) == destination && log != []
      modifies this
      ensures View().Valid() && term == Zero && controlPages == old(controlPages)
      ensures r == Ok ==>
        View().IsFilled() && View().Limbo() == {} && View().Progress(n, PageOf(segs[n].memsz)) && log != []
    {
      WholePages(segs, n);
      var m, mbytes := 0, segs[n].memsz;
      ghost var count := PageOf(segs[n].memsz);
      while mbytes > 0
        invariant m <= count && mbytes == Addr(count - m)
        invariant View().Valid() && term == Zero && controlPages == old(controlPages)
        invariant View().IsFilled() && View().Limbo() == {} && View().Progress(n, m)
        invariant Cur(log) == PageOf(segs[n].mem) + m == destination && log != []
        decreases mbytes
      {
        r := LoadPage(n, m, PageOf(segs[n].mem) + m);
        if r != Ok {
          return r;
        }
        m, mbytes := m + 1, mbytes - PAGE_SIZE;
      }
      assert m == count;
      return Ok;
    }

    /** kimage_load_normal_segment. */
    method LoadSegment(n: nat) returns (r: Error)
      requires View().Valid() && term == Zero && View().IsFilled() && View().Limbo() == {}
      requires n < |segs| && View().Progress(n, 0)
      modifies this
      ensures View().Valid() && term == Zero && controlPages == old(controlPages)
      ensures r == Ok ==>
        View().IsFilled() && View().Limbo() == {} && View().Progress(n, PageOf(segs[n].memsz)) && log != []
    {
      var ok := SetDestination(PageOf(segs[n].mem));
      if !ok {
        return ENOMEM;
      }
      r := LoadPages(n);
    }

    /** kimage_terminate. */
    method Terminate()
      requires View().Valid() && term == Zero && inds != []
      modifies this`mem, this`term
      ensures View().Valid() && term == Done && View().Limbo() == old(View().Limbo())
      ensures old(View().IsFilled()) ==> View().IsFilled()
    {
      ghost var g := View();
      TerminateValid(g);
      if g.IsFilled() {
        FilledFrame(g, Terminated(g).mem);
      }
      mem := SetSlot(mem, entry.page, entry.slot, Done);
      term := Done;
    }

    /** The do-while loop of kimage_alloc_normal_control_pages: blocks that are of no use are
        collected in extra. */
    method SearchControl(count: nat) returns (r: Option<nat>, extra: set<nat>)
      requires View().Valid() && 0 < count
      modifies this`owned
      ensures extra !! old(owned)
      ensures r.None? ==> owned == old(owned) + extra
      ensures r.Some? ==>
        && r.value + count <= ram && r.value + count < controlLimit
        && Block(r.value, count) !! old(owned) + extra && owned == old(owned) + extra + Block(r.value, count)
        && forall q :: q in Block(r.value, count) ==> !IsDst(segs, q)
    {
      extra := {};
      while true
        invariant extra !! old(owned) && owned == old(owned) + extra
        invariant forall p :: p in owned ==> p < ram
        decreases ram - |owned|
      {
        BelowCard(owned, ram);
        r := GetFreePages(count);
        if r.None? {
          return;
        }
        var p := r.value;
        BlockCard(p, count);
        BelowCard(owned, ram);
        var isDst := IsDestinationRange(Addr(p), Addr(p + count));
        if p + count < controlLimit && !isDst {
          forall q | q in Block(p, count) ensures !IsDst(segs, q) {
            if IsDst(segs, q) {
              RangeSees(segs, p, count, q);
            }
          }
          return;
        }
        extra := extra + Block(p, count);
      }
    }

    /** kimage_alloc_normal_control_pages; count is 1 << order. */
    method AllocControlPages(count: nat) returns (r: Option<nat>)
      requires View().Valid() && 0 < count
      modifies this`owned, this`controlPages
      ensures View().Valid() && View().Limbo() == old(View().Limbo())
      ensures r.None? ==> View() == old(View())
      ensures r.Some? ==>
        && controlPages == old(controlPages) + Block(r.value, count)
        && Block(r.value, count) !! old(owned) && r.value + count < controlLimit
    {
      ghost var g := View();
      var extra;
      r, extra := SearchControl(count);
      if r.Some? {
        ControlValid(g, r.value, count);
        controlPages := controlPages + Block(r.value, count);
      }
      owned := owned - extra;
      if r.Some? {
        assert owned == g.owned + Block(r.value, count);
      } else {
        assert owned == g.owned;
      }
    }

    /** sys_kexec_load for a normal image: control pages, every segment, the terminator. */
    method Load(controlCount: nat) returns (r: Error)
      requires View().Valid() && log == [] && term == Zero && View().Limbo() == {}
      requires 0 < controlCount && |segs| > 0
      modifies this
      ensures View().Valid()
      ensures r == Ok ==> View().Ready() && View().Limbo() == {}
    {
      var control := AllocControlPages(controlCount);
      if control.None? {
        return ENOMEM;
      }
      NothingLoaded(View());
      for n := 0 to |segs|
        invariant View().Valid() && term == Zero && View().Limbo() == {} && View().IsFilled()
        invariant n < |segs| ==> View().Progress(n, 0)
        invariant n == |segs| ==> (forall d: nat :: d in Loaded(log).Keys <==> IsDst(segs, d)) && log != []
      {
        r := LoadSegment(n);
        if r != Ok {
          return;
        }
        WholePages(segs, n);
        ProgressNext(segs, Loaded(log).Keys, n, PageOf(segs[n].memsz));
      }
      Terminate();
      return Ok;
    }
  }
}
