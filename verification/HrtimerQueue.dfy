/**
 * The queue of pending timers: a search tree by expiry with a pointer to its first node.  Balancing
 * keeps the order of the nodes and is not part of the model; everything holds for trees of any shape.
 */
module HrtimerQueue {
  import opened Lists

  datatype Timer = Timer(id: nat, expires: int)
  datatype Tree = Leaf | Node(left: Tree, timer: Timer, right: Tree)

  function InOrder(t: Tree): seq<Timer> {
    match t
    case Leaf => []
    case Node(l, x, r) => InOrder(l) + [x] + InOrder(r)
  }

  predicate Sorted(s: seq<Timer>) {
    forall i, j :: 0 <= i < j < |s| ==> s[i].expires <= s[j].expires
  }

  predicate Distinct(s: seq<Timer>) {
    forall i, j :: 0 <= i < j < |s| ==> s[i].id != s[j].id
  }

  /** The first position behind all expiries up to e. */
  function Behind(s: seq<Timer>, e: int): (p: nat)
    ensures p <= |s| && (p < |s| ==> e < s[p].expires)
    ensures forall i :: 0 <= i < p ==> s[i].expires <= e
  {
    if s == [] || e < s[0].expires then 0 else 1 + Behind(s[1..], e)
  }

  /** Timers with the same expiry stay in the order they were started. */
  function Inserted(s: seq<Timer>, x: Timer): seq<Timer> {
    var p := Behind(s, x.expires);
    s[..p] + [x] + s[p..]
  }

  /** enqueue_hrtimer's descent to the place of the new node. */
  function Link(t: Tree, x: Timer): Tree {
    match t
    case Leaf => Node(Leaf, x, Leaf)
    case Node(l, y, r) => if x.expires < y.expires then Node(Link(l, x), y, r) else Node(l, y, Link(r, x))
  }

  lemma BehindIs(s: seq<Timer>, e: int, p: nat)
    requires Sorted(s) && p <= |s| && (p < |s| ==> e < s[p].expires) && (p > 0 ==> s[p - 1].expires <= e)
    ensures Behind(s, e) == p
  {
  }

  lemma CutLeft(a: seq<Timer>, y: Timer, b: seq<Timer>, p: nat)
    requires p <= |a|
    ensures var s := a + [y] + b; s[..p] == a[..p] && s[p..] == a[p..] + [y] + b && s[|a|] == y
  {
  }

  lemma InsertLeft(a: seq<Timer>, y: Timer, b: seq<Timer>, x: Timer)
    requires Sorted(a + [y] + b) && x.expires < y.expires
    ensures Inserted(a + [y] + b, x) == Inserted(a, x) + [y] + b
  {
    var s := a + [y] + b;
    var p := Behind(a, x.expires);
    CutLeft(a, y, b, p);
    assert p < |a| ==> s[p] == a[p];
    assert p > 0 ==> s[p - 1] == a[p - 1];
    BehindIs(s, x.expires, p);
    assert a[..p] + [x] + (a[p..] + [y] + b) == (a[..p] + [x] + a[p..]) + [y] + b;
  }

  lemma SortedParts(a: seq<Timer>, y: Timer, b: seq<Timer>)
    requires Sorted(a + [y] + b)
    ensures Sorted(a) && Sorted(b)
  {
    var s := a + [y] + b;
    assert a == s[..|a|] && b == s[|a| + 1..];
  }

  lemma Cut(a: seq<Timer>, y: Timer, b: seq<Timer>, p: nat)
    requires p <= |b|
    ensures var s, n := a + [y] + b, |a| + 1 + p; s[..n] == a + [y] + b[..p] && s[n..] == b[p..]
  {
  }

  lemma InsertRight(a: seq<Timer>, y: Timer, b: seq<Timer>, x: Timer)
    requires Sorted(a + [y] + b) && x.expires >= y.expires
    ensures Inserted(a + [y] + b, x) == a + [y] + Inserted(b, x)
  {
    var s := a + [y] + b;
    var p := Behind(b, x.expires);
    var n := |a| + 1 + p;
    assert p < |b| ==> s[n] == b[p];
    assert s[n - 1] == if p > 0 then b[p - 1] else y;
    BehindIs(s, x.expires, n);
    Cut(a, y, b, p);
    assert s[..n] + [x] + s[n..] == a + [y] + (b[..p] + [x] + b[p..]);
  }

  /** In a search tree of any shape the descent ends behind all timers that expire no later. */
  lemma {:induction false} LinkInOrder(t: Tree, x: Timer)
    requires Sorted(InOrder(t))
    ensures InOrder(Link(t, x)) == Inserted(InOrder(t), x)
  {
    match t
    case Leaf =>
    case Node(l, y, r) =>
      var a, b := InOrder(l), InOrder(r);
      SortedParts(a, y, b);
      if x.expires < y.expires {
        LinkInOrder(l, x);
        InsertLeft(a, y, b, x);
      } else {
        LinkInOrder(r, x);
        InsertRight(a, y, b, x);
      }
  }

  lemma InsertedSorted(s: seq<Timer>, x: Timer)
    requires Sorted(s)
    ensures Sorted(Inserted(s, x)) && (Inserted(s, x)[0] == x <==> s == [] || x.expires < s[0].expires || s[0] == x)
  {
  }

  // ----- Removal -----

  function Join(l: Tree, r: Tree): (t: Tree)
    ensures InOrder(t) == InOrder(l) + InOrder(r)
  {
    match l
    case Leaf => r
    case Node(a, x, b) => Node(a, x, Join(b, r))
  }

  /** rb_erase of the node with this timer. */
  function Erase(t: Tree, id: nat): Tree {
    match t
    case Leaf => Leaf
    case Node(l, x, r) => if x.id == id then Join(l, r) else Node(Erase(l, id), x, Erase(r, id))
  }

  function Dropped(s: seq<Timer>, id: nat): seq<Timer> {
    if s == [] then [] else (if s[0].id == id then [] else [s[0]]) + Dropped(s[1..], id)
  }

  lemma {:induction false} DroppedConcat(a: seq<Timer>, b: seq<Timer>, id: nat)
    ensures Dropped(a + b, id) == Dropped(a, id) + Dropped(b, id)
  {
    if a == [] {
      assert a + b == b;
    } else {
      DroppedConcat(a[1..], b, id);
      assert (a + b)[1..] == a[1..] + b && (a + b)[0] == a[0];
      var h := if a[0].id == id then [] else [a[0]];
      assert h + (Dropped(a[1..], id) + Dropped(b, id)) == (h + Dropped(a[1..], id)) + Dropped(b, id);
    }
  }

  lemma {:induction false} DroppedNone(s: seq<Timer>, id: nat)
    requires forall i :: 0 <= i < |s| ==> s[i].id != id
    ensures Dropped(s, id) == s
  {
    if s != [] {
      DroppedNone(s[1..], id);
    }
  }

  lemma {:induction false} EraseInOrder(t: Tree, id: nat)
    requires Distinct(InOrder(t))
    ensures InOrder(Erase(t, id)) == Dropped(InOrder(t), id)
  {
    match t
    case Leaf =>
    case Node(l, x, r) =>
      var a, b := InOrder(l), InOrder(r);
      DistinctParts(a, x, b);
      DroppedParts(a, x, b, id);
      if x.id == id {
        EraseHere(a, x, b);
      } else {
        EraseInOrder(l, id);
        EraseInOrder(r, id);
      }
  }

  lemma {:induction false} EraseHere(a: seq<Timer>, x: Timer, b: seq<Timer>)
    requires Distinct(a + [x] + b)
    ensures Dropped(a + [x] + b, x.id) == a + b
  {
    DistinctParts(a, x, b);
    DroppedParts(a, x, b, x.id);
    DroppedNone(a, x.id);
    DroppedNone(b, x.id);
    assert a + [] + b == a + b;
  }

  lemma DistinctParts(a: seq<Timer>, x: Timer, b: seq<Timer>)
    requires Distinct(a + [x] + b)
    ensures Distinct(a) && Distinct(b)
    ensures forall i :: 0 <= i < |a| ==> a[i].id != x.id
    ensures forall i :: 0 <= i < |b| ==> b[i].id != x.id
  {
    var s := a + [x] + b;
    assert a == s[..|a|] && s[|a|] == x && b == s[|a| + 1..];
  }

  lemma {:induction false} DroppedParts(a: seq<Timer>, x: Timer, b: seq<Timer>, id: nat)
    ensures Dropped(a + [x] + b, id) == Dropped(a, id) + (if x.id == id then [] else [x]) + Dropped(b, id)
  {
    DroppedConcat(a + [x], b, id);
    DroppedConcat(a, [x], id);
    assert [x][1..] == [];
  }

  lemma {:induction false} DroppedHas(s: seq<Timer>, id: nat, i: nat)
    requires i < |Dropped(s, id)|
    ensures exists j :: 0 <= j < |s| && s[j] == Dropped(s, id)[i] && s[j].id != id
  {
    var x := Dropped(s, id)[i];
    var skip := if s[0].id == id then 0 else 1;
    if i >= skip {
      DroppedHas(s[1..], id, i - skip);
      var j :| 0 <= j < |s[1..]| && s[1..][j] == x && x.id != id;
      assert s[j + 1] == x;
    }
  }

  lemma {:induction false} DroppedKeeps(s: seq<Timer>, id: nat)
    requires Sorted(s) && Distinct(s)
    ensures Sorted(Dropped(s, id)) && Distinct(Dropped(s, id))
    ensures forall i :: 0 <= i < |Dropped(s, id)| ==> Dropped(s, id)[i].id != id
  {
    if s != [] {
      var rest := s[1..];
      DroppedKeeps(rest, id);
      var r := Dropped(rest, id);
      forall i | 0 <= i < |r| ensures s[0].expires <= r[i].expires && s[0].id != r[i].id {
        DroppedHas(rest, id, i);
      }
    }
  }

  lemma DroppedFirst(s: seq<Timer>)
    requires s != [] && Distinct(s)
    ensures Dropped(s, s[0].id) == s[1..]
  {
    DroppedNone(s[1..], s[0].id);
  }

  lemma InsertedDistinct(s: seq<Timer>, x: Timer)
    requires Distinct(s) && forall i :: 0 <= i < |s| ==> s[i].id != x.id
    ensures Distinct(Inserted(s, x))
  {
  }

  // ----- Expiry -----

  predicate Late(s: seq<Timer>, now: int) { forall i :: 0 <= i < |s| ==> s[i].expires >= now }

  /** The queue after the timers in done were called back and those that asked for it were filed again. */
  function Refiled(rest: seq<Timer>, done: seq<Timer>, fn: Timer -> Option<int>): seq<Timer> {
    if done == [] then rest
    else
      var r := Refiled(rest, done[..|done| - 1], fn);
      var x := done[|done| - 1];
      if fn(x).None? then r else Inserted(r, Timer(x.id, fn(x).value))
  }

  lemma {:induction false} RefiledLate(rest: seq<Timer>, done: seq<Timer>, fn: Timer -> Option<int>, now: int)
    requires Late(rest, now) && forall x :: fn(x).Some? ==> fn(x).value >= now
    ensures Late(Refiled(rest, done, fn), now)
  {
    if done != [] {
      RefiledLate(rest, done[..|done| - 1], fn, now);
      var r, x := Refiled(rest, done[..|done| - 1], fn), done[|done| - 1];
      if fn(x).Some? {
        InsertedLate(r, Timer(x.id, fn(x).value), now);
      }
    }
  }

  lemma InsertedLate(s: seq<Timer>, x: Timer, now: int)
    requires x.expires >= now && Late(s, now)
    ensures Late(Inserted(s, x), now)
  {
  }

  lemma {:induction false} InsertBehind(a: seq<Timer>, r: seq<Timer>, x: Timer)
    requires Sorted(a + r) && forall i :: 0 <= i < |a| ==> a[i].expires <= x.expires
    ensures Inserted(a + r, x) == a + Inserted(r, x)
  {
    var s := a + r;
    var p := Behind(r, x.expires);
    var n := |a| + p;
    assert p < |r| ==> s[n] == r[p];
    assert n > 0 ==> s[n - 1] == if p > 0 then r[p - 1] else a[n - 1];
    BehindIs(s, x.expires, n);
    assert s[..n] == a + r[..p] && s[n..] == r[p..];
    assert s[..n] + [x] + s[n..] == a + (r[..p] + [x] + r[p..]);
  }

  function Fired(s: seq<Timer>, fn: Timer -> Option<int>): seq<Timer>
    requires s != []
  {
    if fn(s[0]).None? then s[1..] else Inserted(s[1..], Timer(s[0].id, fn(s[0]).value))
  }

  /** One callback moves the boundary between the timers still to fire and those filed again. */
  lemma {:induction false} FiredNext(s: seq<Timer>, n: nat, j: nat, fn: Timer -> Option<int>, now: int, cur: seq<Timer>)
    requires j <= n <= |s| && Sorted(cur) && cur != [] && cur[0].expires < now
    requires forall i :: 0 <= i < n ==> s[i].expires <= now - 1
    requires forall x :: fn(x).Some? ==> fn(x).value >= now
    requires cur == s[j..n] + Refiled(s[n..], s[..j], fn)
    requires Late(Refiled(s[n..], s[..j], fn), now)
    ensures j < n && cur[0] == s[j]
    ensures Fired(cur, fn) == s[j + 1..n] + Refiled(s[n..], s[..j + 1], fn)
  {
    var r := Refiled(s[n..], s[..j], fn);
    assert cur[1..] == s[j + 1..n] + r;
    assert s[..j + 1][..j] == s[..j];
    if fn(s[j]).Some? {
      InsertBehind(s[j + 1..n], r, Timer(s[j].id, fn(s[j]).value));
    }
  }

  lemma BehindLate(s: seq<Timer>, now: int)
    requires Sorted(s)
    ensures Late(s[Behind(s, now - 1)..], now)
  {
  }

  /** Of the timers s, the first n of which are due, those in fired were called back so far. */
  ghost predicate Midway(s: seq<Timer>, n: nat, fn: Timer -> Option<int>, fired: seq<Timer>, cur: seq<Timer>)
    requires n <= |s|
  {
    && |fired| <= n && fired == s[..|fired|]
    && cur == s[|fired|..n] + Refiled(s[n..], fired, fn)
  }

  lemma {:induction false} MidwayOn(s: seq<Timer>, fn: Timer -> Option<int>, now: int, fired: seq<Timer>, cur: seq<Timer>)
    requires Sorted(s) && Sorted(cur) && cur != [] && cur[0].expires < now
    requires forall x :: fn(x).Some? ==> fn(x).value >= now
    requires Midway(s, Behind(s, now - 1), fn, fired, cur)
    ensures |fired| < Behind(s, now - 1) && Midway(s, Behind(s, now - 1), fn, fired + [cur[0]], Fired(cur, fn))
  {
    var n, j := Behind(s, now - 1), |fired|;
    BehindLate(s, now);
    RefiledLate(s[n..], fired, fn, now);
    FiredNext(s, n, j, fn, now, cur);
    assert s[..j + 1] == fired + [cur[0]];
  }

  lemma {:induction false} MidwayEnds(s: seq<Timer>, fn: Timer -> Option<int>, now: int, fired: seq<Timer>, cur: seq<Timer>)
    requires Sorted(s) && (cur == [] || cur[0].expires >= now)
    requires forall x :: fn(x).Some? ==> fn(x).value >= now
    requires Midway(s, Behind(s, now - 1), fn, fired, cur)
    ensures var n := Behind(s, now - 1); fired == s[..n] && cur == Refiled(s[n..], s[..n], fn) && Late(cur, now)
  {
    var n := Behind(s, now - 1);
    BehindLate(s, now);
    RefiledLate(s[n..], fired, fn, now);
    assert |fired| == n;
  }

  class Base {
    var tree: Tree
    var first: Option<Timer>

    ghost predicate Valid()
      reads this
    {
      var s := InOrder(tree);
      Sorted(s) && Distinct(s) && first == if s == [] then None else Some(s[0])
    }

    constructor ()
      ensures Valid() && InOrder(tree) == []
    {
      tree, first := Leaf, None;
    }

    predicate Queued(id: nat)
      reads this
    {
      exists i :: 0 <= i < |InOrder(tree)| && InOrder(tree)[i].id == id
    }

    /** enqueue_hrtimer. */
    method Enqueue(x: Timer)
      requires Valid() && !Queued(x.id)
      modifies this
      ensures Valid() && InOrder(tree) == Inserted(old(InOrder(tree)), x)
    {
      LinkInOrder(tree, x);
      InsertedSorted(InOrder(tree), x);
      InsertedDistinct(InOrder(tree), x);
      tree := Link(tree, x);
      if first.None? || x.expires < first.value.expires {
        first := Some(x);
      }
    }

    /** rb_next of the first node. */
    function SecondTimer(): Option<Timer>
      reads this
    {
      var s := InOrder(tree);
      if |s| < 2 then None else Some(s[1])
    }

    /** __remove_hrtimer. */
    method Remove(x: Timer)
      requires Valid() && x in InOrder(tree)
      modifies this
      ensures Valid() && InOrder(tree) == Dropped(old(InOrder(tree)), x.id) && !Queued(x.id)
    {
      EraseInOrder(tree, x.id);
      DroppedKeeps(InOrder(tree), x.id);
      if first == Some(x) {
        DroppedFirst(InOrder(tree));
        first := SecondTimer();
      } else {
        OthersFirst(InOrder(tree), x);
      }
      tree := Erase(tree, x.id);
    }

    /** The body of the loop: the first timer is taken off, called back and perhaps filed again. */
    method FireFirst(fn: Timer -> Option<int>) returns (x: Timer)
      requires Valid() && first.Some?
      modifies this
      ensures Valid() && x == old(InOrder(tree))[0]
      ensures InOrder(tree) == Fired(old(InOrder(tree)), fn)
    {
      DroppedFirst(InOrder(tree));
      x := first.value;
      Remove(x);
      if fn(x).Some? {
        Enqueue(Timer(x.id, fn(x).value));
      }
    }

    /** run_hrtimer_queue: fn tells for each timer whether its callback asks to be filed again, and
        with which expiry.  Callbacks forward past the time of the run. */
    method RunQueue(now: int, fn: Timer -> Option<int>) returns (fired: seq<Timer>)
      requires Valid() && forall x :: fn(x).Some? ==> fn(x).value >= now
      modifies this
      ensures Valid()
      ensures var s := old(InOrder(tree)); var n := Behind(s, now - 1);
        fired == s[..n] && InOrder(tree) == Refiled(s[n..], s[..n], fn)
      ensures Late(InOrder(tree), now)
    {
      ghost var s := InOrder(tree);
      fired := [];
      assert Midway(s, Behind(s, now - 1), fn, [], s);
      while first.Some? && first.value.expires < now
        invariant Valid() && Midway(s, Behind(s, now - 1), fn, fired, InOrder(tree))
        decreases Behind(s, now - 1) - |fired|
      {
        MidwayOn(s, fn, now, fired, InOrder(tree));
        var x := FireFirst(fn);
        fired := fired + [x];
      }
      MidwayEnds(s, fn, now, fired, InOrder(tree));
    }
  }

  lemma OthersFirst(s: seq<Timer>, x: Timer)
    requires x in s && s[0] != x && Distinct(s)
    ensures Dropped(s, x.id) != [] && Dropped(s, x.id)[0] == s[0]
  {
  }
}
