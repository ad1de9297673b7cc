/** The entry list of a kexec image (kernel/kexec.c): destination, source and indirection
    entries kept in a chain of indirection pages, and what the list means as a map from
    destination pages to the source pages that hold their data. */
module KexecList {

  const PAGE_SIZE: nat := 4096

  /** The address of a page frame, and the frame of an address. */
  function Addr(page: int): int { 4096 * page }
  function PageOf(addr: int): int { addr / 4096 }
  predicate PageAligned(addr: int) { addr % 4096 == 0 }

  /** Entries in one indirection page: PAGE_SIZE / sizeof(kimage_entry_t). */
  const SLOTS: nat := 1024
  /** Index of the slot kept free for the link to the next indirection page. */
  const LAST: nat := 1023

  type Byte = b: int | 0 <= b < 256

  /** One kimage_entry_t; the flag bits select the constructor, the page is the frame number. */
  datatype Entry = Zero | Done | Dest(page: nat) | Ind(page: nat) | Source(page: nat)

  datatype Page = Data(bytes: seq<Byte>) | Table(slots: seq<Entry>)

  type Memory = map<nat, Page>

  /** A kimage_entry_t pointer: &image->head or a slot of an indirection page. */
  datatype Ptr = Head | At(page: nat, slot: nat)

  function Slot(mem: Memory, p: nat, i: nat): Entry {
    if p in mem && mem[p].Table? && i < |mem[p].slots| then mem[p].slots[i] else Zero
  }

  function Deref(mem: Memory, head: Entry, ptr: Ptr): Entry {
    match ptr
    case Head => head
    case At(p, i) => Slot(mem, p, i)
  }

  ghost predicate IsTable(mem: Memory, p: nat) {
    p in mem && mem[p].Table? && |mem[p].slots| == SLOTS
  }

  ghost predicate Distinct(s: seq<nat>) {
    forall a, b :: 0 <= a < b < |s| ==> s[a] != s[b]
  }

  /** Slots of the last indirection page that hold entries. */
  function Tail(log: seq<Entry>, inds: seq<nat>): int {
    |log| - LAST * (|inds| - 1)
  }

  /** Every indirection page is a table and all but the last link to the next one. */
  ghost predicate Chained(mem: Memory, head: Entry, inds: seq<nat>) {
    && head == (if inds == [] then Zero else Ind(inds[0]))
    && Distinct(inds)
    && (forall j :: 0 <= j < |inds| ==> IsTable(mem, inds[j]))
    && (forall j :: 0 <= j < |inds| - 1 ==> Slot(mem, inds[j], LAST) == Ind(inds[j + 1]))
  }

  /** The chain holds the entries of log, in order, followed by term. */
  ghost predicate Holds(mem: Memory, log: seq<Entry>, inds: seq<nat>, term: Entry) {
    && (if inds == [] then log == [] && term == Zero else 0 < Tail(log, inds) <= LAST)
    && (forall k :: 0 <= k < |log| ==> log[k].Dest? || log[k].Source?)
    && (forall j: nat, i: nat :: j < |inds| && i < LAST && LAST * j + i < |log|
         ==> Slot(mem, inds[j], i) == log[LAST * j + i])
    && (inds != [] ==> Slot(mem, inds[|inds| - 1], Tail(log, inds)) == term)
  }

  ghost predicate ListAt(mem: Memory, head: Entry, log: seq<Entry>, inds: seq<nat>, term: Entry) {
    && (term == Zero || term == Done)
    && Chained(mem, head, inds)
    && Holds(mem, log, inds, term)
  }

  function SetSlot(mem: Memory, p: nat, i: nat, e: Entry): (r: Memory)
    requires p in mem && mem[p].Table? && i < |mem[p].slots|
    ensures IsTable(mem, p) ==> IsTable(r, p)
    ensures Slot(r, p, i) == e
    ensures forall q: nat, k: nat :: (q != p || k != i) ==> Slot(r, q, k) == Slot(mem, q, k)
    ensures forall q :: IsTable(mem, q) ==> IsTable(r, q)
    ensures forall q :: q in mem && q != p ==> q in r && r[q] == mem[q]
  {
    mem[p := Table(mem[p].slots[i := e])]
  }

  /** Writing a page that is not an indirection page leaves the list as it was. */
  lemma ListFrame(mem: Memory, mem': Memory, head: Entry, log: seq<Entry>, inds: seq<nat>, term: Entry)
    requires ListAt(mem, head, log, inds, term)
    requires forall p :: p in inds ==> p in mem' && p in mem && mem'[p] == mem[p]
    ensures ListAt(mem', head, log, inds, term)
  {
    forall j: nat, i: nat | j < |inds|
      ensures Slot(mem', inds[j], i) == Slot(mem, inds[j], i)
    {
      assert inds[j] in inds;
    }
    assert forall j :: 0 <= j < |inds| ==> inds[j] in inds && IsTable(mem', inds[j]);
  }

  /** What a walk of the chain reads at slot i of page j: the next entry, the link, or the end. */
  lemma WalkReads(mem: Memory, head: Entry, log: seq<Entry>, inds: seq<nat>, term: Entry, j: nat, i: nat)
    requires ListAt(mem, head, log, inds, term)
    requires j < |inds| && i <= LAST && LAST * j + i <= |log|
    ensures
      if i == LAST && j + 1 < |inds| then LAST * j + i < |log| && Slot(mem, inds[j], i) == Ind(inds[j + 1])
      else if LAST * j + i < |log| then i < LAST && Slot(mem, inds[j], i) == log[LAST * j + i]
      else Slot(mem, inds[j], i) == term
  {
  }

  /** An entry written over the terminator, with a new terminator behind it, extends the list. */
  lemma ListAppend(mem: Memory, mem': Memory, head: Entry, log: seq<Entry>, inds: seq<nat>, e: Entry)
    requires ListAt(mem, head, log, inds, Zero)
    requires inds != [] && Tail(log, inds) < LAST
    requires e.Dest? || e.Source?
    requires
      var p := inds[|inds| - 1];
      mem' == SetSlot(SetSlot(mem, p, Tail(log, inds), e), p, Tail(log, inds) + 1, Zero)
    ensures ListAt(mem', head, log + [e], inds, Zero)
  {
  }

  /** When the last page is full, or there is none, a fresh page is linked in and takes the entry. */
  lemma ListGrow(mem: Memory, mem': Memory, head: Entry, head': Entry, log: seq<Entry>, inds: seq<nat>,
                 q: nat, e: Entry)
    requires ListAt(mem, head, log, inds, Zero)
    requires inds == [] || Tail(log, inds) == LAST
    requires e.Dest? || e.Source?
    requires q !in inds
    requires IsTable(mem', q) && Slot(mem', q, 0) == e && Slot(mem', q, 1) == Zero
    requires head' == (if inds == [] then Ind(q) else head)
    requires forall j :: 0 <= j < |inds| ==> IsTable(mem', inds[j])
    requires inds != [] ==> Slot(mem', inds[|inds| - 1], LAST) == Ind(q)
    requires forall j: nat, i: nat :: j < |inds| && (j < |inds| - 1 || i != LAST)
               ==> Slot(mem', inds[j], i) == Slot(mem, inds[j], i)
    ensures ListAt(mem', head', log + [e], inds + [q], Zero)
  {
  }

  /** Rewriting one entry in place rewrites one entry of the list. */
  lemma ListReplace(mem: Memory, head: Entry, log: seq<Entry>, inds: seq<nat>, term: Entry,
                    j: nat, i: nat, e: Entry)
    requires ListAt(mem, head, log, inds, term)
    requires j < |inds| && i < LAST && LAST * j + i < |log|
    requires e.Dest? || e.Source?
    ensures IsTable(mem, inds[j])
    ensures ListAt(SetSlot(mem, inds[j], i, e), head, log[LAST * j + i := e], inds, term)
  {
  }

  // ----- What a list of entries means -----

  /** The running destination after the entries of log (0 before the first one). */
  function Cur(log: seq<Entry>): nat {
    if log == [] then 0
    else match log[|log| - 1]
      case Dest(p) => p
      case Source(_) => Cur(log[..|log| - 1]) + 1
      case _ => Cur(log[..|log| - 1])
  }

  /** Destination page -> source page, as the relocation code will read the list. */
  function Loaded(log: seq<Entry>): map<nat, nat> {
    if log == [] then map[]
    else
      var front := log[..|log| - 1];
      if log[|log| - 1].Source? then Loaded(front)[Cur(front) := log[|log| - 1].page] else Loaded(front)
  }

  /** No destination page is given two source pages. */
  ghost predicate Fresh(log: seq<Entry>) {
    log == [] ||
    var front := log[..|log| - 1];
    Fresh(front) && (log[|log| - 1].Source? ==> Cur(front) !in Loaded(front))
  }

  lemma AppendMeaning(log: seq<Entry>, e: Entry)
    ensures (log + [e])[..|log|] == log
    ensures Cur(log + [e]) == match e case Dest(p) => p case Source(_) => Cur(log) + 1 case _ => Cur(log)
    ensures Loaded(log + [e]) == if e.Source? then Loaded(log)[Cur(log) := e.page] else Loaded(log)
    ensures Fresh(log + [e]) == (Fresh(log) && (e.Source? ==> Cur(log) !in Loaded(log)))
  {
  }

  /** Replacing the source page of entry k changes the meaning at that one destination only. */
  lemma {:induction false} ReplaceSource(log: seq<Entry>, k: nat, s: nat)
    requires k < |log| && log[k].Source? && Fresh(log)
    ensures var log' := log[k := Source(s)]; var d := Cur(log[..k]);
      && Cur(log') == Cur(log)
      && Fresh(log')
      && d in Loaded(log) && Loaded(log)[d] == log[k].page
      && Loaded(log') == Loaded(log)[d := s]
  {
    var n := |log| - 1;
    var log' := log[k := Source(s)];
    if k == n {
      assert log'[..n] == log[..n];
    } else {
      ReplaceSource(log[..n], k, s);
      assert log[..n][..k] == log[..k];
      assert log'[..n] == log[..n][k := Source(s)];
    }
  }

  /** A source entry's destination is loaded, and with that entry's page. */
  lemma {:induction false} SourceIsLoaded(log: seq<Entry>, k: nat)
    requires k < |log| && log[k].Source? && Fresh(log)
    ensures Cur(log[..k]) in Loaded(log) && Loaded(log)[Cur(log[..k])] == log[k].page
  {
    var n := |log| - 1;
    if k < n {
      SourceIsLoaded(log[..n], k);
      assert log[..n][..k] == log[..k];
    }
  }

  /** The multiset of pages named by source entries. */
  function Sources(log: seq<Entry>): multiset<nat> {
    if log == [] then multiset{}
    else
      var front := log[..|log| - 1];
      Sources(front) + (if log[|log| - 1].Source? then multiset{log[|log| - 1].page} else multiset{})
  }

  ghost predicate OneToOne(l: map<nat, nat>) {
    forall a, b :: a in l && b in l && a != b ==> l[a] != l[b]
  }

  lemma OneToOneExtend(l: map<nat, nat>, d: nat, s: nat)
    requires d !in l && OneToOne(l[d := s])
    ensures OneToOne(l) && s !in l.Values && l[d := s].Values == l.Values + {s}
  {
    var l' := l[d := s];
    forall a | a in l ensures l[a] != s && l'[a] == l[a] {
      assert l'[a] != l'[d];
    }
    forall v | v in l.Values + {s} ensures v in l'.Values {
      if v == s {
        assert l'[d] == v;
      } else {
        var a :| a in l && l[a] == v;
        assert l'[a] == v;
      }
    }
  }

  /** With distinct destinations and distinct pages, each source page is named by exactly one entry. */
  lemma {:induction false} SourcesOnce(log: seq<Entry>)
    requires Fresh(log) && OneToOne(Loaded(log))
    ensures Sources(log) == multiset(Loaded(log).Values)
  {
    if log == [] {
      assert Loaded(log).Values == {};
    } else {
      var front := log[..|log| - 1];
      var e := log[|log| - 1];
      if e.Source? {
        OneToOneExtend(Loaded(front), Cur(front), e.page);
      }
      SourcesOnce(front);
    }
  }

  // ----- Walking the chain -----

  /** Where a walk stands: at the head, or at slot i of page j, having passed k entries. */
  ghost predicate Standing(ptr: Ptr, log: seq<Entry>, inds: seq<nat>, j: nat, i: nat, k: nat) {
    && k <= |log|
    && (if ptr == Head then j == i == k == 0
        else j < |inds| && i <= LAST && ptr == At(inds[j], i) && k == LAST * j + i)
  }

  ghost function WalkLeft(ptr: Ptr, i: nat): nat {
    if ptr == Head then 2 else if i == LAST then 1 else 0
  }

  /** The step of for_each_kimage_entry. */
  function Next(ptr: Ptr, e: Entry): Ptr {
    if e.Ind? then At(e.page, 0) else match ptr case At(p, i) => At(p, i + 1) case Head => Head
  }

  /** One step of a walk: what was read, and where the walk stands after it. */
  lemma WalkStep(mem: Memory, head: Entry, log: seq<Entry>, inds: seq<nat>, term: Entry,
                 ptr: Ptr, j: nat, i: nat, k: nat)
    requires ListAt(mem, head, log, inds, term) && Standing(ptr, log, inds, j, i, k)
    ensures var e := Deref(mem, head, ptr);
      if e.Zero? || e.Done? then k == |log| && e == term
      else if e.Ind? then
        var j' := if ptr == Head then 0 else j + 1;
        j' < |inds| && e.page == inds[j'] && Standing(Next(ptr, e), log, inds, j', 0, k)
          && (ptr == Head || (i == LAST && j < |inds|))
      else
        && k < |log| && e == log[k] && Standing(Next(ptr, e), log, inds, j, i + 1, k + 1)
        && log[..k + 1][..k] == log[..k]
        && Cur(log[..k + 1]) == (if e.Dest? then e.page else Cur(log[..k]) + 1)
        && Loaded(log[..k + 1]) == (if e.Source? then Loaded(log[..k])[Cur(log[..k]) := e.page] else Loaded(log[..k]))
  {
    if ptr != Head {
      WalkReads(mem, head, log, inds, term, j, i);
      var e := Deref(mem, head, ptr);
      if k < |log| && !e.Ind? {
        assert log[..k + 1] == log[..k] + [log[k]];
        AppendMeaning(log[..k], log[k]);
      }
    }
  }

  lemma {:induction false} FreshPrefix(log: seq<Entry>, k: nat)
    requires Fresh(log) && k <= |log|
    ensures Fresh(log[..k])
    decreases |log|
  {
    if k == |log| {
      assert log[..k] == log;
    } else {
      FreshPrefix(log[..|log| - 1], k);
      assert log[..|log| - 1][..k] == log[..k];
    }
  }

  lemma {:induction false} PrefixLoaded(log: seq<Entry>, k: nat)
    requires k <= |log|
    ensures Loaded(log[..k]).Keys <= Loaded(log).Keys
    decreases |log|
  {
    if k == |log| {
      assert log[..k] == log;
    } else {
      PrefixLoaded(log[..|log| - 1], k);
      assert log[..|log| - 1][..k] == log[..k];
    }
  }
}
