/** Optional values, and the few operations on sequences that several parts share. */
module Lists {
  datatype Option<+T> = None | Some(value: T)

  predicate NoDup(l: seq<nat>) { forall i, j :: 0 <= i < j < |l| ==> l[i] != l[j] }

  /** The sequence without its element at position i. */
  function Without<T>(q: seq<T>, i: nat): (r: seq<T>)
    requires i < |q|
    ensures |r| == |q| - 1
    ensures forall j :: 0 <= j < |r| ==> r[j] == if j < i then q[j] else q[j + 1]
  {
    q[..i] + q[i + 1..]
  }

  lemma WithoutBag<T>(q: seq<T>, i: nat)
    requires i < |q|
    ensures multiset(q) == multiset{q[i]} + multiset(Without(q, i))
  {
    assert q == q[..i] + [q[i]] + q[i + 1..];
  }

  /** list_del by identity: the sequence without x. */
  function Remove(l: seq<nat>, x: nat): (r: seq<nat>)
    ensures x !in r && forall y :: y != x ==> (y in r <==> y in l)
  {
    if l == [] then [] else if l[0] == x then Remove(l[1..], x) else [l[0]] + Remove(l[1..], x)
  }

  lemma {:induction false} RemoveNoDup(l: seq<nat>, x: nat)
    requires NoDup(l)
    ensures NoDup(Remove(l, x))
  {
    if l != [] {
      RemoveNoDup(l[1..], x);
      assert l[0] !in l[1..];
      assert l[0] != x ==> l[0] !in Remove(l[1..], x);
    }
  }

  lemma {:induction false} RemoveNone(l: seq<nat>, x: nat)
    requires forall i :: 0 <= i < |l| ==> l[i] != x
    ensures Remove(l, x) == l
  {
    if l != [] {
      RemoveNone(l[1..], x);
    }
  }

  lemma {:induction false} RemoveAt(l: seq<nat>, n: nat)
    requires NoDup(l) && n < |l|
    ensures Remove(l, l[n]) == l[..n] + l[n + 1..]
  {
    if n == 0 {
      RemoveNone(l[1..], l[0]);
    } else {
      RemoveAt(l[1..], n - 1);
      assert l[1..][..n - 1] == l[1..n] && l[1..][n..] == l[n + 1..];
    }
  }

  /** x stands somewhere before y. */
  predicate Before<T(==)>(l: seq<T>, x: T, y: T) { exists i, j :: 0 <= i < j < |l| && l[i] == x && l[j] == y }

  lemma BeforeAppend<T>(l: seq<T>, x: T, y: T, tail: seq<T>)
    requires Before(l, x, y)
    ensures Before(l + tail, x, y)
  {
    var i, j :| 0 <= i < j < |l| && l[i] == x && l[j] == y;
    assert (l + tail)[i] == x && (l + tail)[j] == y;
  }

  lemma BeforeNew<T>(l: seq<T>, x: T, y: T)
    requires x in l
    ensures Before(l + [y], x, y)
  {
    var i :| 0 <= i < |l| && l[i] == x;
    assert (l + [y])[i] == x && (l + [y])[|l|] == y;
  }

  lemma BeforePrepend<T>(l: seq<T>, x: T, y: T, z: T)
    requires Before(l, x, y)
    ensures Before([z] + l, x, y)
  {
    var i, j :| 0 <= i < j < |l| && l[i] == x && l[j] == y;
    assert ([z] + l)[i + 1] == x && ([z] + l)[j + 1] == y;
  }

  lemma BeforeWithout<T>(l: seq<T>, x: T, y: T, k: nat)
    requires Before(l, x, y) && k < |l| && l[k] != x && l[k] != y
    ensures Before(Without(l, k), x, y)
  {
    var i, j :| 0 <= i < j < |l| && l[i] == x && l[j] == y;
    var a, b := if i < k then i else i - 1, if j < k then j else j - 1;
    assert Without(l, k)[a] == x && Without(l, k)[b] == y;
  }

  lemma {:induction false} BeforeRemove(l: seq<nat>, x: nat, y: nat, z: nat)
    requires NoDup(l) && Before(l, x, y) && z != x && z != y
    ensures Before(Remove(l, z), x, y)
  {
    if z in l {
      var k :| 0 <= k < |l| && l[k] == z;
      RemoveAt(l, k);
      BeforeWithout(l, x, y, k);
    } else {
      RemoveNone(l, z);
    }
  }

  /** q consists of the elements of p at the increasing positions at. */
  predicate Picks<T(==)>(q: seq<T>, p: seq<T>, at: seq<nat>) {
    && |at| == |q| && (forall j :: 0 <= j < |q| ==> at[j] < |p| && q[j] == p[at[j]])
    && forall i, j :: 0 <= i < j < |q| ==> at[i] < at[j]
  }

  lemma {:induction false} PicksAll<T>(q: seq<T>) returns (at: seq<nat>)
    ensures Picks(q, q, at)
  {
    at := seq(|q|, j => j);
  }

  lemma {:induction false} PicksBehind<T>(q: seq<T>, p: seq<T>, i: nat, at: seq<nat>) returns (r: seq<nat>)
    requires i < |p| && Picks(q, Without(p, i), at)
    ensures Picks(q, p, r)
  {
    r := seq(|at|, j requires 0 <= j < |at| => if at[j] < i then at[j] else at[j] + 1);
  }

  lemma {:induction false} PicksLess<T>(q: seq<T>, p: seq<T>, i: nat, at: seq<nat>)
    requires i < |q| && Picks(q, p, at)
    ensures Picks(Without(q, i), p, Without(at, i))
  {
  }

  lemma {:induction false} PicksMore<T>(q: seq<T>, p: seq<T>, x: T, at: seq<nat>)
    requires Picks(q, p, at)
    ensures Picks(q, p + [x], at) && Picks(q + [x], p + [x], at + [|p|])
  {
  }

  lemma {:induction false} PicksThrough<T>(q: seq<T>, p: seq<T>, o: seq<T>, at: seq<nat>, bt: seq<nat>) returns (ct: seq<nat>)
    requires Picks(q, p, at) && Picks(p, o, bt)
    ensures Picks(q, o, ct)
  {
    ct := seq(|at|, j requires 0 <= j < |at| => bt[at[j]]);
  }

  /** The first element of p may be left out, or picked. */
  lemma {:induction false} PicksTail<T>(q: seq<T>, p: seq<T>, at: seq<nat>) returns (r: seq<nat>)
    requires p != [] && Picks(q, p[1..], at)
    ensures Picks(q, p, r) && Picks([p[0]] + q, p, [0] + r)
  {
    r := seq(|at|, j requires 0 <= j < |at| => at[j] + 1);
    forall j | 0 <= j < |q| ensures q[j] == p[r[j]] {
      assert q[j] == p[1..][at[j]];
    }
  }

  /** Where nothing occurs twice, what is picked keeps its order. */
  lemma {:induction false} PicksBefore<T>(q: seq<T>, p: seq<T>, at: seq<nat>, x: T, y: T)
    requires Picks(q, p, at) && Before(p, x, y) && x in q && y in q
    requires forall i, j :: 0 <= i < j < |p| ==> p[i] != p[j]
    ensures Before(q, x, y)
  {
    var a :| 0 <= a < |q| && q[a] == x;
    var b :| 0 <= b < |q| && q[b] == y;
    var i, j :| 0 <= i < j < |p| && p[i] == x && p[j] == y;
    assert p[at[a]] == x && p[at[b]] == y;
    assert at[a] == i && at[b] == j;
    assert a < b;
  }
}
