/** What a loaded kexec image is for (kernel/kexec.c): following its entry list puts every segment
    at its destination, in whatever order the copies are made; and releasing it gives back every
    page once. */
module KexecRelocate {
  import opened KexecList
  import opened KexecImage

  /** Copy the source of each destination in order. */
  function CopyAll(mem: Memory, l: map<nat, nat>, order: seq<nat>): Memory
    requires forall d :: d in order ==> d in l && l[d] in mem
    decreases |order|
  {
    if order == [] then mem
    else
      var d := order[0];
      assert d in order;
      CopyAll(mem[d := mem[l[d]]], l, order[1..])
  }

  /** Because a source is its own destination or no destination, copies made in any order, even
      more than once, all deliver the original data and touch nothing else. */
  lemma {:induction false} AnyOrder(segs: seq<Segment>, mem: Memory, l: map<nat, nat>, order: seq<nat>)
    requires Safe(segs, l)
    requires forall d :: d in order ==> d in l
    requires forall d :: d in l ==> l[d] in mem
    ensures forall p :: p in order ==> p in CopyAll(mem, l, order) && CopyAll(mem, l, order)[p] == mem[l[p]]
    ensures forall p :: p in mem && p !in order ==> p in CopyAll(mem, l, order) && CopyAll(mem, l, order)[p] == mem[p]
    decreases |order|
  {
    if order != [] {
      var d := order[0];
      assert d in order;
      var mem' := mem[d := mem[l[d]]];
      forall x | x in l ensures l[x] in mem' && (x != d ==> mem'[l[x]] == mem[l[x]]) && mem'[l[d]] == mem[l[d]] {
      }
      AnyOrder(segs, mem', l, order[1..]);
      assert forall p :: p in order <==> p == d || p in order[1..];
    }
  }

  ghost predicate Delivered(segs: seq<Segment>, mem: Memory) {
    forall i, d: nat :: 0 <= i < |segs| && Covers(segs[i], d) ==> d in mem && mem[d] == Data(PageImage(segs[i], d))
  }

  lemma SourcesInMemory(g: Image)
    requires g.Valid()
    ensures forall d :: d in Loaded(g.log) ==> Loaded(g.log)[d] in g.mem
  {
    forall d | d in Loaded(g.log) ensures Loaded(g.log)[d] in g.mem {
      assert Loaded(g.log)[d] in g.Sources();
    }
  }

  /** Any sequence of copies that covers the destinations delivers a ready image. */
  lemma AnyOrderDelivers(g: Image, order: seq<nat>)
    requires g.Ready()
    requires forall d: nat :: d in order <==> IsDst(g.segs, d)
    ensures (forall d :: d in order ==> d in Loaded(g.log) && Loaded(g.log)[d] in g.mem)
    ensures Delivered(g.segs, CopyAll(g.mem, Loaded(g.log), order))
    ensures forall p :: p in g.mem && (p in g.inds || p in g.control) ==>
      p in CopyAll(g.mem, Loaded(g.log), order) && CopyAll(g.mem, Loaded(g.log), order)[p] == g.mem[p]
  {
    SourcesInMemory(g);
    AnyOrder(g.segs, g.mem, Loaded(g.log), order);
    forall i, d: nat | 0 <= i < |g.segs| && Covers(g.segs[i], d)
      ensures var m := CopyAll(g.mem, Loaded(g.log), order); d in m && m[d] == Data(PageImage(g.segs[i], d))
    {
      assert IsDst(g.segs, d);
    }
  }

  /** Memory m after the copies of part, out of those that l asks for, were made in was. */
  ghost predicate Carried(l: map<nat, nat>, part: map<nat, nat>, was: Memory, m: Memory) {
    && (forall d :: d in part ==> d in m && d in l && l[d] in was && m[d] == was[l[d]])
    && (forall p :: p in was && p !in part ==> p in m && m[p] == was[p])
  }

  lemma {:induction false} CarryOne(l: map<nat, nat>, part: map<nat, nat>, was: Memory, m: Memory, d: nat, s: nat)
    requires Carried(l, part, was, m) && d in l && l[d] == s && s in was && s !in part
    ensures s in m && Carried(l, part[d := s], was, m[d := m[s]])
  {
  }

  /** Memory while the first k entries have been carried out. */
  ghost predicate Relocated(g: Image, m: Memory, k: nat) {
    k <= |g.log| && Carried(Loaded(g.log), Loaded(g.log[..k]), g.mem, m)
  }

  /** While copies are made the list in memory stays readable. */
  lemma ListSurvives(g: Image, m: Memory, k: nat)
    requires g.Valid() && Relocated(g, m, k)
    ensures ListAt(m, g.head, g.log, g.inds, g.term)
  {
    forall p | p in g.inds ensures p in m && p in g.mem && m[p] == g.mem[p] {
      assert p in Elems(g.inds);
      assert !IsDst(g.segs, p);
    }
    ListFrame(g.mem, m, g.head, g.log, g.inds, g.term);
  }

  /** The source of entry k is no destination of an earlier entry. */
  lemma {:induction false} SourceIntact(g: Image, k: nat)
    requires g.Valid() && k < |g.log| && g.log[k].Source?
    ensures var d, s := Cur(g.log[..k]), g.log[k].page;
      d in Loaded(g.log) && Loaded(g.log)[d] == s && s in g.mem && s !in Loaded(g.log[..k])
  {
    var d, s := Cur(g.log[..k]), g.log[k].page;
    SourceIsLoaded(g.log, k);
    SourcesInMemory(g);
    FreshPrefix(g.log, k + 1);
    assert g.log[..k + 1][..k] == g.log[..k];
    assert d !in Loaded(g.log[..k]);
    PrefixLoaded(g.log, k);
    assert s in Loaded(g.log[..k]) ==> IsDst(g.segs, s);
  }

  /** One copy: the source is still intact, and the destination gets it. */
  lemma {:induction false} CopyStep(g: Image, m: Memory, k: nat)
    requires g.Valid() && Relocated(g, m, k) && k < |g.log| && g.log[k].Source?
    requires Loaded(g.log[..k + 1]) == Loaded(g.log[..k])[Cur(g.log[..k]) := g.log[k].page]
    ensures g.log[k].page in m
    ensures Relocated(g, m[Cur(g.log[..k]) := m[g.log[k].page]], k + 1)
  {
    SourceIntact(g, k);
    CarryOne(Loaded(g.log), Loaded(g.log[..k]), g.mem, m, Cur(g.log[..k]), g.log[k].page);
  }

  lemma SkipStep(g: Image, m: Memory, k: nat)
    requires Relocated(g, m, k) && k < |g.log| && Loaded(g.log[..k + 1]) == Loaded(g.log[..k])
    ensures Relocated(g, m, k + 1)
  {
  }

  /** The relocation stands at ptr with k entries carried out. */
  ghost predicate Carrying(g: Image, m: Memory, ptr: Ptr, dst: nat, j: nat, i: nat, k: nat) {
    Relocated(g, m, k) && Standing(ptr, g.log, g.inds, j, i, k) && dst == Cur(g.log[..k])
  }

  /** Where the relocation ends. */
  lemma {:induction false} CarriedAll(g: Image, m: Memory, ptr: Ptr, dst: nat, j: nat, i: nat, k: nat)
    requires g.Valid() && Carrying(g, m, ptr, dst, j, i, k) && (Deref(m, g.head, ptr).Zero? || Deref(m, g.head, ptr).Done?)
    ensures k == |g.log|
  {
    ListSurvives(g, m, k);
    WalkStep(m, g.head, g.log, g.inds, g.term, ptr, j, i, k);
  }

  lemma {:induction false} CarryLink(g: Image, m: Memory, ptr: Ptr, dst: nat, j: nat, i: nat, k: nat)
    requires g.Valid() && Carrying(g, m, ptr, dst, j, i, k) && Deref(m, g.head, ptr).Ind?
    ensures ptr == Head || i == LAST
    ensures Carrying(g, m, Next(ptr, Deref(m, g.head, ptr)), dst, if ptr == Head then 0 else j + 1, 0, k)
  {
    ListSurvives(g, m, k);
    WalkStep(m, g.head, g.log, g.inds, g.term, ptr, j, i, k);
  }

  lemma {:induction false} CarryDest(g: Image, m: Memory, ptr: Ptr, dst: nat, j: nat, i: nat, k: nat)
    requires g.Valid() && Carrying(g, m, ptr, dst, j, i, k) && Deref(m, g.head, ptr).Dest?
    ensures k < |g.log| && Carrying(g, m, Next(ptr, Deref(m, g.head, ptr)), Deref(m, g.head, ptr).page, j, i + 1, k + 1)
  {
    ListSurvives(g, m, k);
    WalkStep(m, g.head, g.log, g.inds, g.term, ptr, j, i, k);
    SkipStep(g, m, k);
  }

  lemma {:induction false} CarrySource(g: Image, m: Memory, ptr: Ptr, dst: nat, j: nat, i: nat, k: nat)
    requires g.Valid() && Carrying(g, m, ptr, dst, j, i, k) && Deref(m, g.head, ptr).Source?
    ensures var e := Deref(m, g.head, ptr);
      e.page in m && k < |g.log| && Carrying(g, m[dst := m[e.page]], Next(ptr, e), dst + 1, j, i + 1, k + 1)
  {
    ListSurvives(g, m, k);
    WalkStep(m, g.head, g.log, g.inds, g.term, ptr, j, i, k);
    CopyStep(g, m, k);
  }

  lemma AllRelocated(g: Image, m: Memory)
    requires g.Ready() && Relocated(g, m, |g.log|)
    ensures Delivered(g.segs, m)
    ensures forall p :: p in g.mem && !IsDst(g.segs, p) ==> p in m && m[p] == g.mem[p]
  {
    assert g.log[..|g.log|] == g.log;
    forall x, d: nat | 0 <= x < |g.segs| && Covers(g.segs[x], d)
      ensures d in m && m[d] == Data(PageImage(g.segs[x], d))
    {
      assert IsDst(g.segs, d);
      assert d in Loaded(g.log).Keys;
    }
  }

  /** The relocation: walk the chain in the memory being overwritten, and copy each source page to
      the running destination. Every segment ends up at its destination, and pages that are no
      destination, among them the chain and the control pages, are not touched. */
  method Relocate(mem: Memory, head: Entry, ghost g: Image) returns (m: Memory)
    requires g.Ready() && mem == g.mem && head == g.head
    ensures Delivered(g.segs, m)
    ensures forall p :: p in g.mem && !IsDst(g.segs, p) ==> p in m && m[p] == g.mem[p]
    ensures forall p :: p in Elems(g.inds) + g.control ==> !IsDst(g.segs, p)
  {
    m := mem;
    var ptr, dst := Head, 0;
    ghost var j, i, k := 0, 0, 0;
    var e := Deref(m, head, ptr);
    while !e.Zero? && !e.Done?
      invariant Carrying(g, m, ptr, dst, j, i, k) && e == Deref(m, head, ptr)
      decreases |g.log| - k, WalkLeft(ptr, i)
    {
      if e.Ind? {
        CarryLink(g, m, ptr, dst, j, i, k);
        j, i := if ptr == Head then 0 else j + 1, 0;
      } else {
        if e.Dest? {
          CarryDest(g, m, ptr, dst, j, i, k);
          dst := e.page;
        } else {
          CarrySource(g, m, ptr, dst, j, i, k);
          m := m[dst := m[e.page]];
          dst := dst + 1;
        }
        i, k := i + 1, k + 1;
      }
      ptr := Next(ptr, e);
      e := Deref(m, head, ptr);
    }
    CarriedAll(g, m, ptr, dst, j, i, k);
    AllRelocated(g, m);
  }

  lemma {:induction false} DistinctOnce(s: seq<nat>)
    requires Distinct(s)
    ensures multiset(s) == multiset(Elems(s))
  {
    if s == [] {
      assert Elems(s) == {};
    } else {
      var n := |s| - 1;
      DistinctOnce(s[..n]);
      assert s == s[..n] + [s[n]];
      assert Elems(s) == Elems(s[..n]) + {s[n]};
    }
  }

  /** What has been freed when the walk has passed k entries and stands at page j of the chain. */
  ghost function FreedAt(g: Image, k: nat, j: nat): multiset<nat>
    requires k <= |g.log| && j <= |g.inds|
  {
    multiset(g.dests) + multiset(g.unuseable) + Sources(g.log[..k]) + multiset(g.inds[..j])
  }

  /** The chain from page j on is still in memory. */
  ghost predicate Unfreed(g: Image, m: Memory, j: nat) {
    forall x :: j <= x < |g.inds| ==> g.inds[x] in m && g.inds[x] in g.mem && m[g.inds[x]] == g.mem[g.inds[x]]
  }

  lemma UnfreedWithout(g: Image, m: Memory, j: nat, pages: set<nat>)
    requires j <= |g.inds| && Unfreed(g, m, j) && pages !! Elems(g.inds[j..])
    ensures Unfreed(g, m - pages, j)
  {
  }

  lemma TailApart(g: Image, j: nat)
    requires g.Valid() && j <= |g.inds|
    ensures Elems(g.inds[j..]) <= Elems(g.inds)
    ensures j < |g.inds| ==> g.inds[j] !in Elems(g.inds[j + 1..])
  {
  }

  /** The release reads at its pointer what was there before any page was freed. */
  lemma FreeReads(g: Image, m: Memory, ptr: Ptr, j: nat, i: nat, k: nat)
    requires g.Valid() && Unfreed(g, m, j) && Standing(ptr, g.log, g.inds, j, i, k)
    ensures var e := Deref(m, g.head, ptr);
      if e.Zero? || e.Done? then k == |g.log| && (ptr == Head ==> g.inds == []) && (ptr != Head ==> j == |g.inds| - 1)
      else if e.Ind? then
        var j' := if ptr == Head then 0 else j + 1;
        && (ptr == Head || (i == LAST && j < |g.inds|)) && j' < |g.inds| && e == Ind(g.inds[j'])
        && Standing(Next(ptr, e), g.log, g.inds, j', 0, k)
      else
        k < |g.log| && e == g.log[k] && Standing(Next(ptr, e), g.log, g.inds, j, i + 1, k + 1) && j < |g.inds|
  {
    WalkStep(g.mem, g.head, g.log, g.inds, g.term, ptr, j, i, k);
    assert Deref(m, g.head, ptr) == Deref(g.mem, g.head, ptr);
  }

  lemma FreedMore(g: Image, j: nat, k: nat)
    requires k < |g.log| && j <= |g.inds|
    ensures FreedAt(g, k + 1, j) == FreedAt(g, k, j) + (if g.log[k].Source? then multiset{g.log[k].page} else multiset{})
  {
    assert g.log[..k + 1][..k] == g.log[..k];
  }

  /** Freeing the page of a source entry. */
  lemma FreeEntry(g: Image, m: Memory, j: nat, k: nat)
    requires g.Valid() && Unfreed(g, m, j) && k < |g.log| && j <= |g.inds|
    ensures g.log[k].Source? ==> Unfreed(g, m - {g.log[k].page}, j)
  {
    if g.log[k].Source? {
      SourceIsLoaded(g.log, k);
      assert g.log[k].page in g.Sources();
      TailApart(g, j);
      UnfreedWithout(g, m, j, {g.log[k].page});
    }
  }

  /** Freeing an indirection page after its last entry, the link to the next one, has been read. */
  lemma FreeLink(g: Image, m: Memory, j: nat, k: nat)
    requires g.Valid() && Unfreed(g, m, j) && k <= |g.log| && j < |g.inds|
    ensures FreedAt(g, k, j + 1) == FreedAt(g, k, j) + multiset{g.inds[j]}
    ensures Unfreed(g, m - {g.inds[j]}, j + 1)
  {
    assert g.inds[..j + 1] == g.inds[..j] + [g.inds[j]];
    TailApart(g, j);
    UnfreedWithout(g, m, j + 1, {g.inds[j]});
  }

  lemma UnionOnce(a: set<nat>, b: set<nat>, c: set<nat>, d: set<nat>, e: set<nat>)
    requires a !! b !! c !! d !! e
    ensures multiset(c) + multiset(d) + multiset(a) + multiset(b) + multiset(e) == multiset(a + b + c + d + e)
  {
  }

  /** All the pages together: what the walk frees plus the control pages is everything taken. */
  lemma FreedAll(g: Image)
    requires g.Valid() && g.Limbo() == {}
    ensures FreedAt(g, |g.log|, |g.inds|) + multiset(g.control) == multiset(g.owned)
  {
    assert g.log[..|g.log|] == g.log && g.inds[..|g.inds|] == g.inds;
    SourcesOnce(g.log);
    DistinctOnce(g.inds);
    UnionOnce(g.Sources(), Elems(g.inds), g.dests, g.unuseable, g.control);
    forall p | p in g.owned ensures p in g.Recorded() {
      assert p !in g.Limbo();
    }
    assert g.owned == g.Recorded();
  }

  /** Where the release stands: what it has freed is what it has passed, and the rest of the
      chain is still in memory. */
  ghost predicate Freeing(g: Image, m: Memory, ptr: Ptr, ind: Entry, freed: multiset<nat>, j: nat, i: nat, k: nat) {
    && Standing(ptr, g.log, g.inds, j, i, k) && Unfreed(g, m, j) && j <= |g.inds|
    && ind == (if ptr == Head then Zero else Ind(g.inds[j]))
    && freed == FreedAt(g, k, j)
  }

  lemma FreeStart(g: Image)
    requires g.Valid()
    ensures Freeing(g, g.mem - (g.dests + g.unuseable), Head, Zero, multiset(g.dests) + multiset(g.unuseable), 0, 0, 0)
  {
    assert g.inds[..0] == [] && g.log[..0] == [] && g.inds[0..] == g.inds;
    UnfreedWithout(g, g.mem, 0, g.dests + g.unuseable);
  }

  lemma FreeAtEntry(g: Image, m: Memory, ptr: Ptr, ind: Entry, freed: multiset<nat>, j: nat, i: nat, k: nat)
    requires g.Valid() && Freeing(g, m, ptr, ind, freed, j, i, k)
    requires Deref(m, g.head, ptr).Source? || Deref(m, g.head, ptr).Dest?
    ensures var e := Deref(m, g.head, ptr);
      && k < |g.log|
      && (e.Source? ==> Freeing(g, m - {e.page}, Next(ptr, e), ind, freed + multiset{e.page}, j, i + 1, k + 1))
      && (e.Dest? ==> Freeing(g, m, Next(ptr, e), ind, freed, j, i + 1, k + 1))
  {
    FreeReads(g, m, ptr, j, i, k);
    FreedMore(g, j, k);
    FreeEntry(g, m, j, k);
  }

  lemma FreeAtLink(g: Image, m: Memory, ptr: Ptr, ind: Entry, freed: multiset<nat>, j: nat, i: nat, k: nat)
    requires g.Valid() && Freeing(g, m, ptr, ind, freed, j, i, k)
    requires Deref(m, g.head, ptr).Ind?
    ensures var e := Deref(m, g.head, ptr);
      && (ind.Ind? ==>
            && i == LAST && ptr != Head
            && Freeing(g, m - {ind.page}, Next(ptr, e), e, freed + multiset{ind.page}, j + 1, 0, k))
      && (!ind.Ind? ==> ptr == Head && Freeing(g, m, Next(ptr, e), e, freed, 0, 0, k))
  {
    FreeReads(g, m, ptr, j, i, k);
    if ind.Ind? {
      FreeLink(g, m, j, k);
    }
  }

  lemma {:induction false} LastFreed(g: Image, m: Memory, freed: multiset<nat>, j: nat, k: nat)
    requires g.Valid() && g.Limbo() == {} && Unfreed(g, m, j) && k == |g.log| && j + 1 == |g.inds| && freed == FreedAt(g, k, j)
    ensures freed + multiset{g.inds[j]} + multiset(g.control) == multiset(g.owned)
  {
    FreeLink(g, m, j, k);
    FreedAll(g);
  }

  lemma {:induction false} FreeEnd(g: Image, m: Memory, ptr: Ptr, ind: Entry, freed: multiset<nat>, j: nat, i: nat, k: nat)
    requires g.Valid() && g.Limbo() == {} && Freeing(g, m, ptr, ind, freed, j, i, k)
    requires Deref(m, g.head, ptr) == Zero || Deref(m, g.head, ptr) == Done
    ensures (if ind.Ind? then freed + multiset{ind.page} else freed) + multiset(g.control) == multiset(g.owned)
  {
    FreeReads(g, m, ptr, j, i, k);
    if ind.Ind? {
      LastFreed(g, m, freed, j, k);
    } else {
      FreedAll(g);
    }
  }

  /** One turn of the walk of kimage_free, on the memory, the pointer, the indirection page held
      back and the pages freed. A freed page is taken out of memory at once, so nothing can be read
      from it later. */
  function Turn(m: Memory, head: Entry, ptr: Ptr, ind: Entry, freed: multiset<nat>): (Memory, Ptr, Entry, multiset<nat>) {
    var e := Deref(m, head, ptr);
    if e.Ind? then
      if ind.Ind? then (m - {ind.page}, Next(ptr, e), e, freed + multiset{ind.page}) else (m, Next(ptr, e), e, freed)
    else if e.Source? then (m - {e.page}, Next(ptr, e), ind, freed + multiset{e.page})
    else (m, Next(ptr, e), ind, freed)
  }

  lemma TurnKeeps(g: Image, m: Memory, ptr: Ptr, ind: Entry, freed: multiset<nat>, j: nat, i: nat, k: nat)
    returns (j': nat, i': nat, k': nat)
    requires g.Valid() && Freeing(g, m, ptr, ind, freed, j, i, k)
    requires !Deref(m, g.head, ptr).Zero? && !Deref(m, g.head, ptr).Done?
    ensures var t := Turn(m, g.head, ptr, ind, freed); Freeing(g, t.0, t.1, t.2, t.3, j', i', k')
    ensures k' == (if Deref(m, g.head, ptr).Ind? then k else k + 1)
    ensures Deref(m, g.head, ptr).Ind? ==> i' == 0 && (ptr == Head || i == LAST)
  {
    if Deref(m, g.head, ptr).Ind? {
      FreeAtLink(g, m, ptr, ind, freed, j, i, k);
      return if ind.Ind? then j + 1 else 0, 0, k;
    }
    FreeAtEntry(g, m, ptr, ind, freed, j, i, k);
    return j, i + 1, k + 1;
  }

  /** The walk of kimage_free. */
  method FreeList(mem: Memory, head: Entry, before: multiset<nat>, ghost g: Image) returns (freed: multiset<nat>)
    requires g.Valid() && g.Limbo() == {} && head == g.head && Freeing(g, mem, Head, Zero, before, 0, 0, 0)
    ensures freed + multiset(g.control) == multiset(g.owned)
  {
    var m, ptr, ind := mem, Head, Zero;
    freed := before;
    ghost var j, i, k := 0, 0, 0;
    while !Deref(m, head, ptr).Zero? && !Deref(m, head, ptr).Done?
      invariant Freeing(g, m, ptr, ind, freed, j, i, k)
      decreases |g.log| - k, WalkLeft(ptr, i)
    {
      ghost var j', i', k' := TurnKeeps(g, m, ptr, ind, freed, j, i, k);
      var t := Turn(m, head, ptr, ind, freed);
      m, ptr, ind, freed := t.0, t.1, t.2, t.3;
      j, i, k := j', i', k';
    }
    FreeEnd(g, m, ptr, ind, freed, j, i, k);
    if ind.Ind? {
      freed := freed + multiset{ind.page};
    }
  }

  /** kimage_free: the walk finds every entry although the pages it has passed are gone, and every
      page taken from the allocator is freed exactly once. */
  method Free(mem: Memory, head: Entry, dests: set<nat>, unuseable: set<nat>, control: set<nat>, ghost g: Image)
    returns (freed: multiset<nat>)
    requires g.Valid() && g.Limbo() == {}
    requires mem == g.mem && head == g.head && dests == g.dests && unuseable == g.unuseable && control == g.control
    ensures freed == multiset(g.owned)
  {
    FreeStart(g);
    freed := FreeList(mem - (dests + unuseable), head, multiset(dests) + multiset(unuseable), g);
    freed := freed + multiset(control);
  }
}
