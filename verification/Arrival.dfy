/** Lines in which newcomers go to the end and anybody may leave: who came first stands first. */
module Arrival {
  import opened Lists

  /** Those who stay keep their order, and nobody comes. */
  predicate Thins<T(==)>(l: seq<T>, l': seq<T>) {
    && (forall x :: x in l' ==> x in l)
    && (forall i, j :: 0 <= i < j < |l| && l[i] in l' && l[j] in l' ==> Before(l', l[i], l[j]))
  }

  /** Somebody new goes to the end. */
  predicate Extends<T(==)>(l: seq<T>, l': seq<T>) {
    |l'| == |l| + 1 && l' == l + [l'[|l|]] && l'[|l|] !in l
  }

  predicate Moves<T(==)>(l: seq<T>, l': seq<T>) { Thins(l, l') || Extends(l, l') }

  /** The line in the course of time, empty at first. */
  predicate Line<T(==)>(ls: seq<seq<T>>) {
    ls != [] && ls[0] == [] && forall n :: 0 < n < |ls| ==> Moves(ls[n - 1], ls[n])
  }

  /** x came with step m and has been in the line since, up to n. */
  predicate Stands<T(==)>(ls: seq<seq<T>>, x: T, m: nat, n: nat) {
    0 < m <= n < |ls| && x !in ls[m - 1] && forall k :: m <= k <= n ==> x in ls[k]
  }

  lemma {:induction false} ThinsBefore<T>(l: seq<T>, l': seq<T>, x: T, y: T)
    requires Thins(l, l') && Before(l, x, y) && x in l' && y in l'
    ensures Before(l', x, y)
  {
    var i, j :| 0 <= i < j < |l| && l[i] == x && l[j] == y;
    assert Before(l', l[i], l[j]);
  }

  lemma {:induction false} CameFirst<T>(ls: seq<seq<T>>, x: T, m: nat, y: T, m': nat, n: nat)
    requires Line(ls) && Stands(ls, x, m, n) && Stands(ls, y, m', n) && m < m'
    ensures Before(ls[n], x, y)
    decreases n
  {
    var l, l' := ls[n - 1], ls[n];
    assert Moves(l, l') && x in l && x in l' && y in l';
    if m' == n {
      BeforeNew(l, x, y);
    } else {
      CameFirst(ls, x, m, y, m', n - 1);
      if Thins(l, l') {
        ThinsBefore(l, l', x, y);
      } else {
        BeforeAppend(l, x, y, [l'[|l|]]);
      }
    }
  }

  lemma {:induction false} CameOnce<T>(ls: seq<seq<T>>, x: T, n: nat) returns (m: nat)
    requires Line(ls) && n < |ls| && x in ls[n]
    ensures Stands(ls, x, m, n)
    decreases n
  {
    m := n;
    if n > 0 && x in ls[n - 1] {
      m := CameOnce(ls, x, n - 1);
    }
  }

  lemma {:induction false} OneComes<T>(ls: seq<seq<T>>, x: T, y: T, m: nat, n: nat)
    requires Line(ls) && Stands(ls, x, m, n) && Stands(ls, y, m, n)
    ensures x == y
  {
    assert Moves(ls[m - 1], ls[m]) && x in ls[m] && y in ls[m];
  }

  /** Where nobody stands twice, the first of the line came before all others. */
  lemma {:induction false} HeadCameFirst<T(!new)>(ls: seq<seq<T>>, n: nat) returns (m: nat)
    requires Line(ls) && n < |ls| && ls[n] != [] && forall i :: 0 < i < |ls[n]| ==> ls[n][i] != ls[n][0]
    ensures Stands(ls, ls[n][0], m, n)
    ensures forall y, m': nat :: Stands(ls, y, m', n) && y != ls[n][0] ==> m < m'
  {
    var w := ls[n][0];
    m := CameOnce(ls, w, n);
    forall y, m': nat | Stands(ls, y, m', n) && y != w ensures m < m' {
      if m' == m {
        OneComes(ls, w, y, m, n);
      } else if m' < m {
        CameFirst(ls, y, m', w, m, n);
      }
    }
  }

  lemma {:induction false} RemoveThins(l: seq<nat>, x: nat)
    requires NoDup(l)
    ensures Thins(l, Remove(l, x))
  {
    forall i, j | 0 <= i < j < |l| && l[i] in Remove(l, x) && l[j] in Remove(l, x) ensures Before(Remove(l, x), l[i], l[j]) {
      assert Before(l, l[i], l[j]);
      BeforeRemove(l, l[i], l[j], x);
    }
  }

  lemma {:induction false} SameThins<T>(l: seq<T>)
    ensures Thins(l, l)
  {
    forall i, j | 0 <= i < j < |l| ensures Before(l, l[i], l[j]) {
    }
  }
}
