/**
 * The one order behind both lists of a POSIX message queue: the message array (by priority) and the
 * lists of sleeping tasks (by scheduling priority).  Elements with the largest key come last, and of
 * equal keys the oldest comes last.
 */
module MqOrder {
  import opened Lists

  /** stamp grows with the time of arrival. */
  datatype Item<T> = Item(key: int, stamp: nat, val: T)

  predicate Below<T>(a: Item<T>, b: Item<T>) {
    a.key < b.key || (a.key == b.key && a.stamp > b.stamp)
  }

  predicate Arranged<T>(l: seq<Item<T>>) {
    forall i, j :: 0 <= i < j < |l| ==> Below(l[i], l[j])
  }

  /** The first position whose key is not smaller. */
  function Place<T>(l: seq<Item<T>>, key: int): (p: nat)
    ensures p <= |l| && (p < |l| ==> l[p].key >= key)
    ensures forall i :: 0 <= i < p ==> l[i].key < key
  {
    if l == [] || l[0].key >= key then 0 else 1 + Place(l[1..], key)
  }

  function Insert<T>(l: seq<Item<T>>, x: Item<T>): (r: seq<Item<T>>)
    ensures |r| == |l| + 1
  {
    var p := Place(l, x.key);
    l[..p] + [x] + l[p..]
  }

  predicate Older<T>(l: seq<Item<T>>, stamp: nat) {
    forall i :: 0 <= i < |l| ==> l[i].stamp < stamp
  }

  lemma InsertFirst<T>(x: Item<T>)
    ensures Insert([], x) == [x] && [x][..0] == []
  {
  }

  lemma InsertBag<T>(l: seq<Item<T>>, x: Item<T>)
    ensures multiset(Insert(l, x)) == multiset(l) + multiset{x}
  {
    var p := Place(l, x.key);
    assert l == l[..p] + l[p..];
  }

  lemma InsertPair<T>(l: seq<Item<T>>, x: Item<T>, i: nat, j: nat)
    requires Arranged(l) && Older(l, x.stamp) && i < j <= |l|
    ensures Below(Insert(l, x)[i], Insert(l, x)[j])
  {
  }

  lemma InsertArranged<T>(l: seq<Item<T>>, x: Item<T>)
    requires Arranged(l) && Older(l, x.stamp)
    ensures Arranged(Insert(l, x)) && Older(Insert(l, x), x.stamp + 1)
    ensures multiset(Insert(l, x)) == multiset(l) + multiset{x}
  {
    var r := Insert(l, x);
    forall i, j | 0 <= i < j < |r| ensures Below(r[i], r[j]) {
      InsertPair(l, x, i, j);
    }
    InsertBag(l, x);
  }

  /** The loop of msg_insert: elements move up, from the end, until the place is found. */
  method InsertInto<T>(a: array<Item<T>>, n: nat, x: Item<T>)
    requires n < a.Length && Arranged(a[..n])
    modifies a
    ensures a[..n + 1] == Insert(old(a[..n]), x)
  {
    ghost var l := a[..n];
    var k := n - 1;
    while k >= 0 && a[k].key >= x.key
      invariant -1 <= k < n
      invariant forall i :: 0 <= i <= k ==> a[i] == l[i]
      invariant forall i :: k + 1 < i <= n ==> a[i] == l[i - 1]
      invariant k + 1 < n ==> l[k + 1].key >= x.key
    {
      a[k + 1] := a[k];
      k := k - 1;
    }
    a[k + 1] := x;
    PlaceIs(l, x.key, k + 1);
    MovedUp(l, a[..n + 1], x, k + 1);
  }

  lemma MovedUp<T>(l: seq<Item<T>>, r: seq<Item<T>>, x: Item<T>, p: nat)
    requires |r| == |l| + 1 && p == Place(l, x.key) && r[p] == x
    requires forall i :: 0 <= i < p ==> r[i] == l[i]
    requires forall i :: p < i < |r| ==> r[i] == l[i - 1]
    ensures r == Insert(l, x)
  {
  }

  lemma PlaceIs<T>(l: seq<Item<T>>, key: int, p: nat)
    requires Arranged(l) && p <= |l| && (p < |l| ==> l[p].key >= key) && (p > 0 ==> l[p - 1].key < key)
    ensures Place(l, key) == p
  {
  }

  /** The walk of wq_add, from the head of the list. */
  method InsertWalk<T>(l: seq<Item<T>>, x: Item<T>) returns (r: seq<Item<T>>)
    ensures r == Insert(l, x)
  {
    var i := 0;
    while i < |l|
      invariant i <= |l| && i <= Place(l, x.key)
    {
      if l[i].key >= x.key {
        return l[..i] + [x] + l[i..];
      }
      i := i + 1;
    }
    return l + [x];
  }

  // ----- The reference: elements in the order of their arrival -----

  predicate InOrder<T>(q: seq<Item<T>>) {
    forall i, j :: 0 <= i < j < |q| ==> q[i].stamp < q[j].stamp
  }

  /** No key is larger, and of equal keys this one arrived first. */
  predicate IsBest<T>(q: seq<Item<T>>, b: nat) {
    && b < |q|
    && (forall i :: 0 <= i < |q| ==> q[i].key <= q[b].key)
    && (forall i :: 0 <= i < b ==> q[i].key < q[b].key)
  }

  function Best<T>(q: seq<Item<T>>): (b: nat)
    requires q != []
    ensures IsBest(q, b)
  {
    if |q| == 1 then 0
    else
      var b := Best(q[..|q| - 1]);
      if q[b].key >= q[|q| - 1].key then b else |q| - 1
  }

  lemma InOrderWithout<T>(q: seq<Item<T>>, b: nat)
    requires InOrder(q) && b < |q|
    ensures InOrder(Without(q, b))
  {
  }

  lemma LastIs<T>(l: seq<Item<T>>, q: seq<Item<T>>, b: nat)
    requires Arranged(l) && InOrder(q) && multiset(l) == multiset(q) && IsBest(q, b)
    ensures l != [] && l[|l| - 1] == q[b]
  {
    assert q[b] in multiset(q);
    var i :| 0 <= i < |l| && l[i] == q[b];
    var last := l[|l| - 1];
    assert last in multiset(l);
    var j :| 0 <= j < |q| && q[j] == last;
    assert forall k :: 0 <= k < |l| - 1 ==> Below(l[k], last);
  }

  lemma ButLast<T>(l: seq<T>, r: seq<T>)
    requires l != [] && multiset(l) == multiset(r) + multiset{l[|l| - 1]}
    ensures multiset(l[..|l| - 1]) == multiset(r)
  {
    var front, x := l[..|l| - 1], l[|l| - 1];
    assert l == front + [x];
    assert multiset(front) == multiset(front) + multiset{x} - multiset{x};
    assert multiset(r) == multiset(r) + multiset{x} - multiset{x};
  }

  /** The last element of the arrangement is the best of the arrivals. */
  lemma LastIsBest<T>(l: seq<Item<T>>, q: seq<Item<T>>)
    requires Arranged(l) && InOrder(q) && multiset(l) == multiset(q) && q != []
    ensures l != [] && l[|l| - 1] == q[Best(q)]
    ensures multiset(l[..|l| - 1]) == multiset(Without(q, Best(q))) && InOrder(Without(q, Best(q)))
  {
    var b := Best(q);
    LastIs(l, q, b);
    InOrderWithout(q, b);
    WithoutBag(q, b);
    ButLast(l, Without(q, b));
  }
}
