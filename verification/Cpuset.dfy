/**
 * The cpuset hierarchy: each cpuset lies within its parent, and exclusive siblings do not overlap.
 */
module Cpuset {
  import opened Lists

  const EBUSY := 16
  const EACCES := 13
  const EINVAL := 22
  const ENOSPC := 28

  const TOP: nat := 0

  /** depth counts the steps up to the top cpuset; it belongs to the model only. */
  datatype Cs = Cs(cpus: set<nat>, mems: set<nat>, cpuEx: bool, memEx: bool,
                   parent: Option<nat>, children: seq<nat>, depth: nat)

  type Tree = map<nat, Cs>

  // ----- The shape of the tree -----

  /** The children of c name c as their parent, each once. */
  predicate HasChildren(m: Tree, c: nat)
    requires c in m
  {
    var l := m[c].children;
    NoDup(l) && forall i :: 0 <= i < |l| ==> l[i] in m && m[l[i]].parent == Some(c)
  }

  /** c is on its parent's list, one step further from the top. */
  predicate Listed(m: Tree, c: nat)
    requires c in m
  {
    match m[c].parent
    case None => c == TOP
    case Some(p) => c != TOP && p in m && c in m[p].children && m[c].depth == m[p].depth + 1
  }

  /** parent and children agree, and following parent leads to the top. */
  predicate Shaped(m: Tree) {
    TOP in m && forall c :: c in m ==> HasChildren(m, c) && Listed(m, c)
  }

  predicate IsChild(m: Tree, c: nat, p: nat) { c in m && p in m && m[c].parent == Some(p) }

  // ----- The rules -----

  /** is_cpuset_subset. */
  predicate Within(p: Cs, q: Cs) {
    p.cpus <= q.cpus && p.mems <= q.mems && (p.cpuEx ==> q.cpuEx) && (p.memEx ==> q.memEx)
  }

  predicate Compatible(c: Cs, d: Cs) {
    && ((c.cpuEx || d.cpuEx) ==> c.cpus !! d.cpus)
    && ((c.memEx || d.memEx) ==> c.mems !! d.mems)
  }

  ghost predicate Nested(m: Tree) { forall c, p :: IsChild(m, c, p) ==> Within(m[c], m[p]) }

  ghost predicate Exclusive(m: Tree) {
    forall c, d, p :: IsChild(m, c, p) && IsChild(m, d, p) && c != d ==> Compatible(m[c], m[d])
  }

  ghost predicate Rules(m: Tree) { Shaped(m) && Nested(m) && Exclusive(m) }

  // ----- validate_change -----

  /** trial differs from the cpuset in masks and flags only. */
  predicate Trial(m: Tree, cur: nat, trial: Cs) {
    cur in m && trial.parent == m[cur].parent && trial.children == m[cur].children && trial.depth == m[cur].depth
  }

  /** Child i in the list of c. */
  function Kid(m: Tree, c: nat, i: nat): (k: nat)
    requires Shaped(m) && c in m && i < |m[c].children|
    ensures IsChild(m, k, c)
  {
    assert HasChildren(m, c);
    m[c].children[i]
  }

  lemma KidOf(m: Tree, k: nat, c: nat) returns (i: nat)
    requires Shaped(m) && IsChild(m, k, c)
    ensures i < |m[c].children| && Kid(m, c, i) == k
  {
    assert Listed(m, k);
    i :| 0 <= i < |m[c].children| && m[c].children[i] == k;
  }

  function Verdict(m: Tree, cur: nat, trial: Cs): int
    requires Shaped(m) && Trial(m, cur, trial)
  {
    if exists i :: 0 <= i < |m[cur].children| && !Within(m[Kid(m, cur, i)], trial) then -EBUSY
    else if trial.parent.None? then 0
    else
      var p := trial.parent.value;
      if !Within(trial, m[p]) then -EACCES
      else if exists i :: 0 <= i < |m[p].children| && Kid(m, p, i) != cur && !Compatible(trial, m[Kid(m, p, i)]) then -EINVAL
      else 0
  }

  /** The trees differ in masks and flags only. */
  predicate SameShape(m: Tree, m': Tree) {
    && m.Keys == m'.Keys
    && forall c :: c in m ==> m'[c].parent == m[c].parent && m'[c].children == m[c].children && m'[c].depth == m[c].depth
  }

  lemma ShapeKept(m: Tree, m': Tree)
    requires Shaped(m) && SameShape(m, m')
    ensures Shaped(m')
    ensures forall c, p :: IsChild(m', c, p) <==> IsChild(m, c, p)
  {
    forall c | c in m' ensures HasChildren(m', c) && Listed(m', c) {
      assert HasChildren(m, c) && Listed(m, c);
    }
  }

  lemma ShapedReplace(m: Tree, cur: nat, trial: Cs)
    requires Shaped(m) && Trial(m, cur, trial)
    ensures Shaped(m[cur := trial])
    ensures forall c, p :: IsChild(m[cur := trial], c, p) <==> IsChild(m, c, p)
  {
    ShapeKept(m, m[cur := trial]);
  }

  /** Nobody beside cur is in conflict with it. */
  ghost predicate Clear(m: Tree, cur: nat) {
    forall d, p :: IsChild(m, cur, p) && IsChild(m, d, p) && d != cur ==> Compatible(m[cur], m[d])
  }

  /** With the trial values the tree is nested, and cur conflicts with no sibling. */
  ghost predicate Admissible(m: Tree, cur: nat, trial: Cs) {
    Nested(m[cur := trial]) && Clear(m[cur := trial], cur)
  }

  /** In every nested tree, whether or not its exclusive siblings are disjoint, validate_change accepts
      exactly the changes that keep it nested and bring cur into no conflict. */
  lemma {:induction false} VerdictExact(m: Tree, cur: nat, trial: Cs)
    requires Shaped(m) && Nested(m) && Trial(m, cur, trial)
    ensures Verdict(m, cur, trial) == 0 <==> Admissible(m, cur, trial)
  {
    if Verdict(m, cur, trial) == 0 {
      AcceptedNests(m, cur, trial);
      AcceptedClear(m, cur, trial);
    } else {
      RefusedBreaks(m, cur, trial);
    }
  }

  /** And in a tree that obeys the rules it accepts exactly the changes that keep all of them. */
  lemma {:induction false} ValidateExact(m: Tree, cur: nat, trial: Cs)
    requires Rules(m) && Trial(m, cur, trial)
    ensures Verdict(m, cur, trial) == 0 <==> Rules(m[cur := trial])
  {
    ShapedReplace(m, cur, trial);
    VerdictExact(m, cur, trial);
    if Verdict(m, cur, trial) == 0 {
      ClearKeeps(m, cur, trial);
    }
  }

  lemma {:induction false} AcceptedNests(m: Tree, cur: nat, trial: Cs)
    requires Shaped(m) && Nested(m) && Trial(m, cur, trial) && Verdict(m, cur, trial) == 0
    ensures Nested(m[cur := trial])
  {
    var m' := m[cur := trial];
    ShapedReplace(m, cur, trial);
    forall c, p | IsChild(m', c, p) ensures Within(m'[c], m'[p]) {
      assert IsChild(m, c, p);
      if p == cur {
        var i := KidOf(m, c, p);
      }
    }
  }

  lemma {:induction false} AcceptedClear(m: Tree, cur: nat, trial: Cs)
    requires Shaped(m) && Trial(m, cur, trial) && Verdict(m, cur, trial) == 0
    ensures Clear(m[cur := trial], cur)
  {
    var m' := m[cur := trial];
    ShapedReplace(m, cur, trial);
    forall d: nat, p: nat | IsChild(m', cur, p) && IsChild(m', d, p) && d != cur ensures Compatible(m'[cur], m'[d]) {
      assert IsChild(m, d, p);
      var i := KidOf(m, d, p);
    }
  }

  /** A change that brings cur into no conflict makes no new one. */
  lemma {:induction false} ClearKeeps(m: Tree, cur: nat, trial: Cs)
    requires Shaped(m) && Exclusive(m) && Trial(m, cur, trial) && Clear(m[cur := trial], cur)
    ensures Exclusive(m[cur := trial])
  {
    var m' := m[cur := trial];
    ShapedReplace(m, cur, trial);
    forall c: nat, d: nat, p: nat | IsChild(m', c, p) && IsChild(m', d, p) && c != d ensures Compatible(m'[c], m'[d]) {
      assert IsChild(m, c, p) && IsChild(m, d, p);
      if d == cur {
        assert Compatible(m'[cur], m'[c]);
      }
    }
  }

  lemma NotOwnParent(m: Tree, c: nat, p: nat)
    requires Shaped(m) && IsChild(m, c, p)
    ensures c != p
  {
  }

  lemma {:induction false} ChildBreaks(m: Tree, cur: nat, trial: Cs, c: nat)
    requires Shaped(m) && Trial(m, cur, trial) && IsChild(m, c, cur) && !Within(m[c], trial)
    ensures !Nested(m[cur := trial])
  {
    NotOwnParent(m, c, cur);
    assert IsChild(m[cur := trial], c, cur);
  }

  lemma {:induction false} ParentBreaks(m: Tree, cur: nat, trial: Cs, p: nat)
    requires Shaped(m) && Trial(m, cur, trial) && IsChild(m, cur, p) && !Within(trial, m[p])
    ensures !Nested(m[cur := trial])
  {
    NotOwnParent(m, cur, p);
    assert IsChild(m[cur := trial], cur, p);
  }

  lemma {:induction false} SiblingBreaks(m: Tree, cur: nat, trial: Cs, p: nat, d: nat)
    requires Shaped(m) && Trial(m, cur, trial) && IsChild(m, cur, p) && IsChild(m, d, p) && d != cur
    requires !Compatible(trial, m[d])
    ensures !Clear(m[cur := trial], cur)
  {
    NotOwnParent(m, cur, p);
    assert IsChild(m[cur := trial], cur, p) && IsChild(m[cur := trial], d, p);
  }

  lemma {:induction false} RefusedBreaks(m: Tree, cur: nat, trial: Cs)
    requires Shaped(m) && Trial(m, cur, trial) && Verdict(m, cur, trial) != 0
    ensures !Admissible(m, cur, trial)
  {
    if exists i :: 0 <= i < |m[cur].children| && !Within(m[Kid(m, cur, i)], trial) {
      var i :| 0 <= i < |m[cur].children| && !Within(m[Kid(m, cur, i)], trial);
      ChildBreaks(m, cur, trial, Kid(m, cur, i));
    } else {
      var p := trial.parent.value;
      assert IsChild(m, cur, p);
      if !Within(trial, m[p]) {
        ParentBreaks(m, cur, trial, p);
      } else {
        var i :| 0 <= i < |m[p].children| && Kid(m, p, i) != cur && !Compatible(trial, m[Kid(m, p, i)]);
        SiblingBreaks(m, cur, trial, p, Kid(m, p, i));
      }
    }
  }

  // ----- Hotplug -----

  function Mask(c: Cs, cpu: bool): set<nat> { if cpu then c.cpus else c.mems }

  /** guarantee_online_cpus (cpu true) and guarantee_online_mems: the online part of the nearest
      cpuset, from c upwards, that has one; else everything online. */
  function Guarantee(m: Tree, c: nat, online: set<nat>, cpu: bool): set<nat>
    requires Shaped(m) && c in m
    decreases m[c].depth
  {
    assert Listed(m, c);
    if Mask(m[c], cpu) * online != {} then Mask(m[c], cpu) * online
    else if m[c].parent.None? then online
    else Guarantee(m, m[c].parent.value, online, cpu)
  }

  lemma {:induction false} GuaranteeOnline(m: Tree, c: nat, online: set<nat>, cpu: bool)
    requires Shaped(m) && c in m
    ensures Guarantee(m, c, online, cpu) <= online
    ensures online != {} ==> Guarantee(m, c, online, cpu) != {}
    decreases m[c].depth
  {
    assert Listed(m, c);
    if Mask(m[c], cpu) * online == {} && m[c].parent.Some? {
      GuaranteeOnline(m, m[c].parent.value, online, cpu);
    }
  }

  /** What the walk makes of a mask; empty masks stay empty. */
  function Plugged(m: Tree, c: nat, online: set<nat>, cpu: bool): set<nat>
    requires Shaped(m) && c in m
  {
    if Mask(m[c], cpu) == {} then {} else Guarantee(m, c, online, cpu)
  }

  /** A child's mask after the walk lies within its parent's. */
  lemma {:induction false} PluggedNested(m: Tree, c: nat, p: nat, online: set<nat>, cpu: bool)
    requires Shaped(m) && IsChild(m, c, p) && Mask(m[c], cpu) <= Mask(m[p], cpu)
    ensures Plugged(m, c, online, cpu) <= Plugged(m, p, online, cpu)
  {
  }

  /** A cpuset that loses all it had. */
  predicate Stranded(m: Tree, c: nat, online: set<nat>, cpu: bool)
    requires c in m
  {
    Mask(m[c], cpu) != {} && Mask(m[c], cpu) * online == {}
  }

  /** Two siblings that did not overlap still do not, if and only if one of them has nothing or
      neither has lost everything. */
  lemma {:induction false} PluggedDisjoint(m: Tree, c: nat, d: nat, p: nat, online: set<nat>, cpu: bool)
    requires Shaped(m) && IsChild(m, c, p) && IsChild(m, d, p) && online != {}
    requires Mask(m[c], cpu) <= Mask(m[p], cpu) && Mask(m[d], cpu) <= Mask(m[p], cpu) && Mask(m[c], cpu) !! Mask(m[d], cpu)
    ensures Plugged(m, c, online, cpu) !! Plugged(m, d, online, cpu)
       <==> Mask(m[c], cpu) == {} || Mask(m[d], cpu) == {} || (!Stranded(m, c, online, cpu) && !Stranded(m, d, online, cpu))
  {
    if Mask(m[c], cpu) != {} && Mask(m[d], cpu) != {} {
      if Stranded(m, c, online, cpu) {
        StrandedOverlaps(m, c, d, p, online, cpu);
      } else if Stranded(m, d, online, cpu) {
        StrandedOverlaps(m, d, c, p, online, cpu);
      }
    }
  }

  lemma {:induction false} StrandedOverlaps(m: Tree, c: nat, d: nat, p: nat, online: set<nat>, cpu: bool)
    requires Shaped(m) && IsChild(m, c, p) && IsChild(m, d, p) && online != {}
    requires Mask(m[c], cpu) <= Mask(m[p], cpu) && Mask(m[d], cpu) <= Mask(m[p], cpu)
    requires Stranded(m, c, online, cpu) && Mask(m[d], cpu) != {}
    ensures !(Plugged(m, c, online, cpu) !! Plugged(m, d, online, cpu))
  {
    PluggedNested(m, d, p, online, cpu);
    GuaranteeOnline(m, d, online, cpu);
    var x :| x in Plugged(m, d, online, cpu);
    assert x in Plugged(m, p, online, cpu) && Plugged(m, p, online, cpu) == Plugged(m, c, online, cpu);
  }

  function After(m: Tree, c: nat, cpus: set<nat>, mems: set<nat>): Cs
    requires Shaped(m) && c in m
  {
    if c == TOP then m[c].(cpus := cpus, mems := mems)
    else m[c].(cpus := Plugged(m, c, cpus, true), mems := Plugged(m, c, mems, false))
  }

  /** The tree after common_cpu_mem_hotplug_unplug. */
  function Plug(m: Tree, cpus: set<nat>, mems: set<nat>): Tree
    requires Shaped(m)
  {
    map c | c in m :: After(m, c, cpus, mems)
  }

  lemma {:induction false} PlugShape(m: Tree, cpus: set<nat>, mems: set<nat>)
    requires Shaped(m)
    ensures Shaped(Plug(m, cpus, mems))
    ensures forall c, p :: IsChild(Plug(m, cpus, mems), c, p) <==> IsChild(m, c, p)
  {
    ShapeKept(m, Plug(m, cpus, mems));
  }

  /** Across hotplug every cpuset stays within its parent, at any depth. */
  lemma {:induction false} PlugNests(m: Tree, cpus: set<nat>, mems: set<nat>)
    requires Shaped(m) && Nested(m)
    ensures Nested(Plug(m, cpus, mems))
  {
    var m' := Plug(m, cpus, mems);
    PlugShape(m, cpus, mems);
    forall c, p | IsChild(m', c, p) ensures Within(m'[c], m'[p]) {
      assert IsChild(m, c, p);
      PluggedNested(m, c, p, cpus, true);
      PluggedNested(m, c, p, mems, false);
      GuaranteeOnline(m, c, cpus, true);
      GuaranteeOnline(m, c, mems, false);
    }
  }

  /** And whatever its masks were, it has nothing that is not online. */
  lemma {:induction false} PlugOnline(m: Tree, cpus: set<nat>, mems: set<nat>, c: nat)
    requires Shaped(m) && c in m
    ensures Plug(m, cpus, mems)[c].cpus <= cpus && Plug(m, cpus, mems)[c].mems <= mems
  {
    GuaranteeOnline(m, c, cpus, true);
    GuaranteeOnline(m, c, mems, false);
  }

  predicate SafePair(m: Tree, c: nat, d: nat, online: set<nat>, cpu: bool)
    requires c in m && d in m
  {
    Mask(m[c], cpu) == {} || Mask(m[d], cpu) == {} || (!Stranded(m, c, online, cpu) && !Stranded(m, d, online, cpu))
  }

  /** No exclusive pair of siblings has one that loses everything while the other has something. */
  ghost predicate NobodyStranded(m: Tree, cpus: set<nat>, mems: set<nat>) {
    forall c, d, p :: IsChild(m, c, p) && IsChild(m, d, p) && c != d ==>
      && ((m[c].cpuEx || m[d].cpuEx) ==> SafePair(m, c, d, cpus, true))
      && ((m[c].memEx || m[d].memEx) ==> SafePair(m, c, d, mems, false))
  }

  lemma {:induction false} PlugPair(m: Tree, c: nat, d: nat, p: nat, cpus: set<nat>, mems: set<nat>)
    requires Rules(m) && cpus != {} && mems != {} && IsChild(m, c, p) && IsChild(m, d, p) && c != d
    ensures Compatible(After(m, c, cpus, mems), After(m, d, cpus, mems)) <==>
      && ((m[c].cpuEx || m[d].cpuEx) ==> SafePair(m, c, d, cpus, true))
      && ((m[c].memEx || m[d].memEx) ==> SafePair(m, c, d, mems, false))
  {
    assert Within(m[c], m[p]) && Within(m[d], m[p]) && Compatible(m[c], m[d]);
    if m[c].cpuEx || m[d].cpuEx {
      PluggedDisjoint(m, c, d, p, cpus, true);
    }
    if m[c].memEx || m[d].memEx {
      PluggedDisjoint(m, c, d, p, mems, false);
    }
  }

  /** Hotplug keeps all the rules if and only if nobody is stranded beside an exclusive sibling. */
  lemma {:induction false} PlugExact(m: Tree, cpus: set<nat>, mems: set<nat>)
    requires Rules(m) && cpus != {} && mems != {}
    ensures Rules(Plug(m, cpus, mems)) <==> NobodyStranded(m, cpus, mems)
  {
    var m' := Plug(m, cpus, mems);
    PlugShape(m, cpus, mems);
    PlugNests(m, cpus, mems);
    forall c, d, p | IsChild(m, c, p) && IsChild(m, d, p) && c != d
      ensures Compatible(m'[c], m'[d]) <==>
        && ((m[c].cpuEx || m[d].cpuEx) ==> SafePair(m, c, d, cpus, true))
        && ((m[c].memEx || m[d].memEx) ==> SafePair(m, c, d, mems, false))
    {
      PlugPair(m, c, d, p, cpus, mems);
    }
    if NobodyStranded(m, cpus, mems) {
      forall c, d, p | IsChild(m', c, p) && IsChild(m', d, p) && c != d ensures Compatible(m'[c], m'[d]) {
        assert IsChild(m, c, p) && IsChild(m, d, p);
      }
    } else {
      var c, d, p :| IsChild(m, c, p) && IsChild(m, d, p) && c != d &&
        !(&& ((m[c].cpuEx || m[d].cpuEx) ==> SafePair(m, c, d, cpus, true))
          && ((m[c].memEx || m[d].memEx) ==> SafePair(m, c, d, mems, false)));
      assert IsChild(m', c, p) && IsChild(m', d, p);
    }
  }

  /** The top cpuset with an exclusive child and another one beside it. */
  function Example(): Tree {
    map[TOP := Cs({0, 1, 2}, {0}, true, true, None, [1, 2], 0),
        1 := Cs({1}, {}, true, false, Some(TOP), [], 1),
        2 := Cs({2}, {}, false, false, Some(TOP), [], 1)]
  }

  lemma {:induction false} ExampleShape()
    ensures Shaped(Example()) && forall c, p :: IsChild(Example(), c, p) ==> p == TOP && (c == 1 || c == 2)
  {
    var m := Example();
    assert m[TOP].children == [1, 2];
    assert 1 in m[TOP].children && 2 in m[TOP].children;
    forall c | c in m ensures HasChildren(m, c) && Listed(m, c) {
      assert c == TOP || c == 1 || c == 2;
    }
  }

  lemma {:induction false} ExampleRules()
    ensures Rules(Example())
  {
    var m := Example();
    ExampleShape();
    assert Within(m[1], m[TOP]) && Within(m[2], m[TOP]);
    assert m[1].cpus == {1} && m[2].cpus == {2};
    assert Compatible(m[1], m[2]) && Compatible(m[2], m[1]);
  }

  /** An exclusive cpuset that loses its only CPU falls back on its parent's and then overlaps its
      sibling. */
  lemma {:induction false} StrandedExample()
    ensures Rules(Example()) && !Rules(Plug(Example(), {0, 2}, {0}))
  {
    var m := Example();
    ExampleRules();
    assert IsChild(m, 1, TOP) && IsChild(m, 2, TOP);
    assert 1 in m[1].cpus && m[1].cpus * {0, 2} == {} && 2 in m[2].cpus;
    assert !SafePair(m, 1, 2, {0, 2}, true);
    assert !NobodyStranded(m, {0, 2}, {0});
    PlugExact(m, {0, 2}, {0});
  }

  // ----- The walk -----

  predicate Descends(m: Tree, x: nat, cur: nat)
    requires Shaped(m) && x in m
    decreases m[x].depth
  {
    assert Listed(m, x);
    m[x].parent.Some? && (m[x].parent.value == cur || Descends(m, m[x].parent.value, cur))
  }

  lemma {:induction false} DescendsDeeper(m: Tree, x: nat, cur: nat)
    requires Shaped(m) && x in m && cur in m && Descends(m, x, cur)
    ensures m[x].depth > m[cur].depth
    decreases m[x].depth
  {
    assert Listed(m, x);
    if m[x].parent.value != cur {
      DescendsDeeper(m, m[x].parent.value, cur);
    }
  }

  /** Descendants of cur are its children and their descendants, each through one child only. */
  lemma {:induction false} DescendsVia(m: Tree, x: nat, cur: nat) returns (k: nat)
    requires Shaped(m) && x in m && cur in m && Descends(m, x, cur)
    ensures IsChild(m, k, cur) && (x == k || Descends(m, x, k))
    decreases m[x].depth
  {
    assert Listed(m, x);
    if m[x].parent.value == cur {
      k := x;
    } else {
      k := DescendsVia(m, m[x].parent.value, cur);
    }
  }

  lemma {:induction false} BelowTop(m: Tree, x: nat)
    requires Shaped(m) && x in m && x != TOP
    ensures Descends(m, x, TOP)
    decreases m[x].depth
  {
    assert Listed(m, x);
    if m[x].parent.value != TOP {
      BelowTop(m, m[x].parent.value);
    }
  }

  lemma {:induction false} DescendsUp(m: Tree, x: nat, k: nat, cur: nat)
    requires Shaped(m) && x in m && IsChild(m, k, cur) && (x == k || Descends(m, x, k))
    ensures Descends(m, x, cur)
    decreases m[x].depth
  {
    assert Listed(m, x);
    if x != k && m[x].parent.value != k {
      DescendsUp(m, m[x].parent.value, k, cur);
    }
  }

  lemma {:induction false} OneWay(m: Tree, x: nat, k: nat, j: nat, cur: nat)
    requires Shaped(m) && x in m && IsChild(m, k, cur) && IsChild(m, j, cur)
    requires (x == k || Descends(m, x, k)) && (x == j || Descends(m, x, j))
    ensures j == k
    decreases m[x].depth
  {
    assert Listed(m, x) && Listed(m, k) && Listed(m, j);
    if x == k {
      if x != j {
        DescendsDeeper(m, x, j);
      }
    } else if x == j {
      DescendsDeeper(m, x, k);
    } else {
      OneWay(m, m[x].parent.value, k, j, cur);
    }
  }

  /** The online part depends on the masks from c upwards only. */
  lemma {:induction false} GuaranteeSame(m: Tree, m': Tree, c: nat, online: set<nat>, cpu: bool)
    requires Shaped(m) && Shaped(m') && SameShape(m, m') && c in m && Mask(m'[c], cpu) == Mask(m[c], cpu)
    requires forall a :: a in m && Descends(m, c, a) ==> Mask(m'[a], cpu) == Mask(m[a], cpu)
    ensures Guarantee(m', c, online, cpu) == Guarantee(m, c, online, cpu)
    decreases m[c].depth
  {
    assert Listed(m, c);
    if Mask(m[c], cpu) * online == {} && m[c].parent.Some? {
      var p := m[c].parent.value;
      forall a | a in m && Descends(m, p, a) ensures Descends(m, c, a) {
      }
      GuaranteeSame(m, m', p, online, cpu);
    }
  }

  // ----- The code -----

  lemma Apart(a: set<nat>, b: set<nat>)
    ensures a * b == {} <==> a !! b
  {
    if a * b == {} {
      forall x | x in a ensures x !in b {
        assert x in b ==> x in a * b;
      }
    }
  }

  class Cpusets {
    var sets: Tree
    var cpuOnline: set<nat>
    var memOnline: set<nat>

    /** What every operation keeps. Exclusive siblings may overlap after a hot-unplug. */
    ghost predicate Valid()
      reads this
    {
      Shaped(sets) && Nested(sets) && cpuOnline != {} && memOnline != {}
    }

    /** The first loop of validate_change. */
    method ChildrenFit(cur: nat, trial: Cs) returns (ok: bool)
      requires Shaped(sets) && cur in sets
      ensures ok <==> forall j :: 0 <= j < |sets[cur].children| ==> Within(sets[Kid(sets, cur, j)], trial)
    {
      var m, i := sets, 0;
      while i < |m[cur].children|
        invariant i <= |m[cur].children|
        invariant forall j :: 0 <= j < i ==> Within(m[Kid(m, cur, j)], trial)
      {
        if !Within(m[Kid(m, cur, i)], trial) {
          return false;
        }
        i := i + 1;
      }
      return true;
    }

    /** The second loop of validate_change. */
    method SiblingsFit(cur: nat, trial: Cs, p: nat) returns (ok: bool)
      requires Shaped(sets) && p in sets
      ensures ok <==> forall j :: 0 <= j < |sets[p].children| ==> Kid(sets, p, j) == cur || Compatible(trial, sets[Kid(sets, p, j)])
    {
      var m, i := sets, 0;
      while i < |m[p].children|
        invariant i <= |m[p].children|
        invariant forall j :: 0 <= j < i ==> Kid(m, p, j) == cur || Compatible(trial, m[Kid(m, p, j)])
      {
        var c := Kid(m, p, i);
        Apart(trial.cpus, m[c].cpus);
        Apart(trial.mems, m[c].mems);
        if (trial.cpuEx || m[c].cpuEx) && c != cur && trial.cpus * m[c].cpus != {} {
          return false;
        }
        if (trial.memEx || m[c].memEx) && c != cur && trial.mems * m[c].mems != {} {
          return false;
        }
        i := i + 1;
      }
      return true;
    }

    /** validate_change. */
    method ValidateChange(cur: nat, trial: Cs) returns (r: int)
      requires Shaped(sets) && Trial(sets, cur, trial)
      ensures r == Verdict(sets, cur, trial)
    {
      var ok := ChildrenFit(cur, trial);
      if !ok {
        return -EBUSY;
      }
      if trial.parent.None? {
        return 0;
      }
      assert Listed(sets, cur);
      var p := trial.parent.value;
      if !Within(trial, sets[p]) {
        return -EACCES;
      }
      ok := SiblingsFit(cur, trial, p);
      return if ok then 0 else -EINVAL;
    }

    /** The tail of update_cpumask, update_nodemask and update_flag: the trial values are stored when
        they are valid. */
    method Replace(cur: nat, trial: Cs) returns (r: int)
      requires Valid() && Trial(sets, cur, trial)
      modifies this`sets
      ensures Valid() && (sets, r) == Replaced(old(sets), cur, trial)
    {
      r := ValidateChange(cur, trial);
      if r >= 0 {
        sets := sets[cur := trial];
      }
      ReplacedKeeps(old(sets), cur, trial);
    }

    /** update_cpumask; want is the list parsed from the request. */
    method UpdateCpumask(cs: nat, want: set<nat>) returns (r: int)
      requires Valid() && cs in sets
      modifies this`sets
      ensures Valid() && (sets, r) == SetCpus(old(sets), cs, want * cpuOnline)
      ensures var mask := want * cpuOnline; var trial := old(sets)[cs].(cpus := mask);
        sets == if cs != TOP && mask != {} && Admissible(old(sets), cs, trial) then old(sets)[cs := trial] else old(sets)
    {
      SetCpusKeeps(sets, cs, want * cpuOnline);
      if cs == TOP {
        return -EACCES;
      }
      var trial := sets[cs].(cpus := want * cpuOnline);
      if trial.cpus == {} {
        return -ENOSPC;
      }
      r := Replace(cs, trial);
    }

    /** update_nodemask: nothing to do when the mask stays the same, even when that is empty. */
    method UpdateNodemask(cs: nat, want: set<nat>) returns (r: int)
      requires Valid() && cs in sets
      modifies this`sets
      ensures Valid() && (sets, r) == SetMems(old(sets), cs, want * memOnline)
      ensures var mask := want * memOnline; var trial := old(sets)[cs].(mems := mask);
        sets == if cs != TOP && mask != {} && Admissible(old(sets), cs, trial) then old(sets)[cs := trial] else old(sets)
    {
      SetMemsKeeps(sets, cs, want * memOnline);
      if cs == TOP {
        return -EACCES;
      }
      var trial := sets[cs].(mems := want * memOnline);
      if trial.mems == sets[cs].mems {
        return 0;
      }
      if trial.mems == {} {
        return -ENOSPC;
      }
      r := Replace(cs, trial);
    }

    /** update_flag for the two exclusive flags. */
    method UpdateFlag(cs: nat, cpu: bool, on: bool) returns (r: int)
      requires Valid() && cs in sets
      modifies this`sets
      ensures Valid() && (sets, r) == Replaced(old(sets), cs, Flagged(old(sets)[cs], cpu, on))
      ensures var trial := Flagged(old(sets)[cs], cpu, on);
        sets == if Admissible(old(sets), cs, trial) then old(sets)[cs := trial] else old(sets)
    {
      ReplacedKeeps(sets, cs, Flagged(sets[cs], cpu, on));
      r := Replace(cs, Flagged(sets[cs], cpu, on));
    }

    /** guarantee_online_cpus and guarantee_online_mems. */
    method GuaranteeOnlineMask(c: nat, cpu: bool) returns (mask: set<nat>)
      requires Shaped(sets) && c in sets
      ensures mask == Guarantee(sets, c, if cpu then cpuOnline else memOnline, cpu)
    {
      var online := if cpu then cpuOnline else memOnline;
      var cs := c;
      while Mask(sets[cs], cpu) * online == {}
        invariant cs in sets && Guarantee(sets, c, online, cpu) == Guarantee(sets, cs, online, cpu)
        decreases sets[cs].depth
      {
        assert Listed(sets, cs);
        if sets[cs].parent.None? {
          return online;
        }
        cs := sets[cs].parent.value;
      }
      return Mask(sets[cs], cpu) * online;
    }

    method RefreshMask(c: nat, cpu: bool)
      requires Shaped(sets) && c in sets
      modifies this`sets
      ensures sets == old(sets)[c := WithMask(old(sets)[c], cpu, Plugged(old(sets), c, if cpu then cpuOnline else memOnline, cpu))]
    {
      if Mask(sets[c], cpu) != {} {
        var mask := GuaranteeOnlineMask(c, cpu);
        sets := sets[c := WithMask(sets[c], cpu, mask)];
      } else {
        assert WithMask(sets[c], cpu, {}) == sets[c];
        assert sets[c := sets[c]] == sets;
      }
    }

    /** One child in the walk: empty masks are left alone. */
    method Refresh(c: nat, ghost m: Tree)
      requires Shaped(m) && SameShape(m, sets) && Shaped(sets) && c in m && c != TOP
      requires AsAbove(m, sets, c)
      modifies this`sets
      ensures sets == old(sets)[c := After(m, c, cpuOnline, memOnline)]
    {
      RefreshedBoth(m, sets, c, cpuOnline, memOnline);
      RefreshMask(c, true);
      RefreshMask(c, false);
    }

    /** guarantee_online_cpus_mems_in_subtree: the walk below cur, children first. */
    method Walk(cur: nat, ghost m: Tree, ghost height: nat)
      requires Shaped(m) && SameShape(m, sets) && Shaped(sets) && cur in m && Untouched(m, cur, sets)
      requires forall x :: x in m ==> m[x].depth <= height
      modifies this`sets
      ensures Wholly(m, cur, old(sets), sets, cpuOnline, memOnline) && Shaped(sets)
      decreases height - m[cur].depth
    {
      var kids := sets[cur].children;
      PartlyStart(m, cur, sets, cpuOnline, memOnline);
      var i := 0;
      while i < |kids|
        invariant i <= |kids| && kids == m[cur].children && Shaped(sets)
        invariant Partly(m, cur, i, old(sets), sets, cpuOnline, memOnline)
      {
        ghost var before := sets;
        var c := kids[i];
        assert Kid(m, cur, i) == c && Listed(m, c);
        ChildUntouched(m, cur, i, old(sets), sets, cpuOnline, memOnline);
        Walk(c, m, height);
        ghost var walked := sets;
        AboveUntouched(m, c, before, sets, cpuOnline, memOnline);
        Refresh(c, m);
        PartlyNext(m, cur, i, old(sets), before, walked, cpuOnline, memOnline);
        i := i + 1;
      }
      PartlyEnd(m, cur, old(sets), sets, cpuOnline, memOnline);
    }

    /** common_cpu_mem_hotplug_unplug, after the online maps have changed. */
    method Hotplug()
      requires Valid()
      modifies this`sets
      ensures Valid() && sets == Plug(old(sets), cpuOnline, memOnline)
      ensures old(Exclusive(sets)) ==> (Exclusive(sets) <==> NobodyStranded(old(sets), cpuOnline, memOnline))
    {
      ghost var m := sets;
      ghost var height := Height(m, m.Keys);
      PlugShape(m, cpuOnline, memOnline);
      PlugNests(m, cpuOnline, memOnline);
      if Exclusive(m) {
        PlugExact(m, cpuOnline, memOnline);
      }
      Walk(TOP, m, height);
      WhollyPlugged(m, sets, cpuOnline, memOnline);
      sets := sets[TOP := sets[TOP].(cpus := cpuOnline, mems := memOnline)];
    }

    /** cpuset_create: a new cpuset starts with nothing. */
    method Create(parent: nat, id: nat)
      requires Valid() && parent in sets && id !in sets && id != TOP
      modifies this`sets
      ensures Valid() && sets == Created(old(sets), parent, id)
    {
      CreatedShape(sets, parent, id);
      CreatedNests(sets, parent, id);
      sets := Created(sets, parent, id);
    }

    /** cpuset_rmdir; count is the number of tasks in the cpuset. */
    method Rmdir(cs: nat, count: nat) returns (r: int)
      requires Valid() && cs in sets && cs != TOP
      modifies this`sets
      ensures Valid() && (sets, r) == Dropped(old(sets), cs, count)
    {
      if count > 0 || sets[cs].children != [] {
        return -EBUSY;
      }
      assert Listed(sets, cs);
      ghost var was := sets;
      if sets[cs].cpuEx {
        r := UpdateFlag(cs, true, false);
        if r < 0 {
          return;
        }
      }
      RemovedSame(was, cs, Flagged(was[cs], true, false));
      RemovedShape(was, cs);
      RemovedNests(was, cs);
      sets := Removed(sets, cs);
      r := 0;
    }
  }

  // ----- The edits as functions, and their runs -----

  /** The tree and the result of a change that validate_change is asked about. */
  function Replaced(m: Tree, cur: nat, trial: Cs): (Tree, int)
    requires Shaped(m) && Trial(m, cur, trial)
  {
    var v := Verdict(m, cur, trial);
    (if v == 0 then m[cur := trial] else m, v)
  }

  function SetCpus(m: Tree, cs: nat, mask: set<nat>): (Tree, int)
    requires Shaped(m) && cs in m
  {
    if cs == TOP then (m, -EACCES)
    else if mask == {} then (m, -ENOSPC)
    else Replaced(m, cs, m[cs].(cpus := mask))
  }

  function SetMems(m: Tree, cs: nat, mask: set<nat>): (Tree, int)
    requires Shaped(m) && cs in m
  {
    if cs == TOP then (m, -EACCES)
    else if mask == m[cs].mems then (m, 0)
    else if mask == {} then (m, -ENOSPC)
    else Replaced(m, cs, m[cs].(mems := mask))
  }

  /** cpuset_rmdir: a cpu_exclusive cpuset first has its flag switched off, which may be refused. */
  function Dropped(m: Tree, cs: nat, count: nat): (Tree, int)
    requires Shaped(m) && cs in m && cs != TOP
  {
    assert Listed(m, cs);
    if count > 0 || m[cs].children != [] then (m, -EBUSY)
    else
      var v := if m[cs].cpuEx then Verdict(m, cs, Flagged(m[cs], true, false)) else 0;
      if v < 0 then (m, v) else (Removed(m, cs), 0)
  }

  /** m' is as well ordered as m: shaped and nested, and free of conflicts if m is. */
  ghost predicate AsOrdered(m: Tree, m': Tree) {
    Shaped(m') && Nested(m') && (Exclusive(m) ==> Exclusive(m'))
  }

  /** A change goes through if and only if it is admissible. */
  lemma {:induction false} ReplacedKeeps(m: Tree, cur: nat, trial: Cs)
    requires Shaped(m) && Nested(m) && Trial(m, cur, trial)
    ensures AsOrdered(m, Replaced(m, cur, trial).0)
    ensures Replaced(m, cur, trial).0 == if Admissible(m, cur, trial) then m[cur := trial] else m
  {
    ShapedReplace(m, cur, trial);
    VerdictExact(m, cur, trial);
    if Verdict(m, cur, trial) == 0 && Exclusive(m) {
      ClearKeeps(m, cur, trial);
    }
  }

  lemma {:induction false} SetCpusKeeps(m: Tree, cs: nat, mask: set<nat>)
    requires Shaped(m) && Nested(m) && cs in m
    ensures AsOrdered(m, SetCpus(m, cs, mask).0)
    ensures SetCpus(m, cs, mask).0 == if cs != TOP && mask != {} && Admissible(m, cs, m[cs].(cpus := mask)) then m[cs := m[cs].(cpus := mask)] else m
  {
    ReplacedKeeps(m, cs, m[cs].(cpus := mask));
  }

  lemma Unchanged(m: Tree, cs: nat, trial: Cs)
    requires cs in m && trial == m[cs]
    ensures m[cs := trial] == m
  {
  }

  lemma {:induction false} SetMemsKeeps(m: Tree, cs: nat, mask: set<nat>)
    requires Shaped(m) && Nested(m) && cs in m
    ensures AsOrdered(m, SetMems(m, cs, mask).0)
    ensures SetMems(m, cs, mask).0 == if cs != TOP && mask != {} && Admissible(m, cs, m[cs].(mems := mask)) then m[cs := m[cs].(mems := mask)] else m
  {
    if mask == m[cs].mems {
      Unchanged(m, cs, m[cs].(mems := mask));
    } else {
      ReplacedKeeps(m, cs, m[cs].(mems := mask));
    }
  }

  /** The masks and flags, the tree, and what is online. */
  datatype World = World(tree: Tree, cpus: set<nat>, mems: set<nat>)

  datatype Edit =
    | Cpus(cs: nat, want: set<nat>)
    | Mems(cs: nat, want: set<nat>)
    | Flag(cs: nat, cpu: bool, on: bool)
    | Make(parent: nat, id: nat)
    | Drop(cs: nat, count: nat)
    | Online(cpus: set<nat>, mems: set<nat>)     // the online maps change, and the walk is still to come
    | Follow                                     // the walk

  predicate Possible(w: World, e: Edit) {
    match e
    case Cpus(cs, _) => cs in w.tree
    case Mems(cs, _) => cs in w.tree
    case Flag(cs, _, _) => cs in w.tree
    case Make(parent, id) => parent in w.tree && id !in w.tree && id != TOP
    case Drop(cs, _) => cs in w.tree && cs != TOP
    case Online(cpus, mems) => cpus != {} && mems != {}
    case Follow => true
  }

  function Edited(w: World, e: Edit): World
    requires Shaped(w.tree) && Possible(w, e)
  {
    match e
    case Cpus(cs, want) => w.(tree := SetCpus(w.tree, cs, want * w.cpus).0)
    case Mems(cs, want) => w.(tree := SetMems(w.tree, cs, want * w.mems).0)
    case Flag(cs, cpu, on) => w.(tree := Replaced(w.tree, cs, Flagged(w.tree[cs], cpu, on)).0)
    case Make(parent, id) => w.(tree := Created(w.tree, parent, id))
    case Drop(cs, count) => w.(tree := Dropped(w.tree, cs, count).0)
    case Online(cpus, mems) => w.(cpus := cpus, mems := mems)
    case Follow => w.(tree := Plug(w.tree, w.cpus, w.mems))
  }

  ghost predicate Ordered(w: World) { Shaped(w.tree) && Nested(w.tree) && w.cpus != {} && w.mems != {} }

  lemma {:induction false} DroppedKeeps(m: Tree, cs: nat, count: nat)
    requires Shaped(m) && Nested(m) && cs in m && cs != TOP
    ensures AsOrdered(m, Dropped(m, cs, count).0)
  {
    assert Listed(m, cs);
    if m[cs].children == [] {
      RemovedShape(m, cs);
      RemovedNests(m, cs);
      if Exclusive(m) {
        RemovedExclusive(m, cs);
      }
    }
  }

  /** An edit keeps the tree nested; it makes no exclusive sibling overlap, unless it is a walk that
      leaves one with nothing of its own. */
  lemma {:induction false} EditKeeps(w: World, e: Edit)
    requires Ordered(w) && Possible(w, e)
    ensures Ordered(Edited(w, e))
    ensures Exclusive(w.tree) && (e == Follow ==> NobodyStranded(w.tree, w.cpus, w.mems)) ==> Exclusive(Edited(w, e).tree)
  {
    match e
    case Make(parent, id) =>
      CreatedShape(w.tree, parent, id);
      CreatedNests(w.tree, parent, id);
      if Exclusive(w.tree) {
        CreatedExclusive(w.tree, parent, id);
      }
    case Drop(cs, count) => DroppedKeeps(w.tree, cs, count);
    case Online(_, _) =>
    case Follow =>
      PlugShape(w.tree, w.cpus, w.mems);
      PlugNests(w.tree, w.cpus, w.mems);
      if Exclusive(w.tree) {
        PlugExact(w.tree, w.cpus, w.mems);
      }
    case Cpus(cs, want) => SetCpusKeeps(w.tree, cs, want * w.cpus);
    case Mems(cs, want) => SetMemsKeeps(w.tree, cs, want * w.mems);
    case Flag(cs, cpu, on) => ReplacedKeeps(w.tree, cs, Flagged(w.tree[cs], cpu, on));
  }

  ghost predicate Follows(w: World, e: Edit, w': World) { Shaped(w.tree) && Possible(w, e) && w' == Edited(w, e) }

  predicate Booted(w: World) {
    w.cpus != {} && w.mems != {} && w.tree == map[TOP := Cs(w.cpus, w.mems, true, true, None, [], 0)]
  }

  ghost predicate Run(run: seq<World>, edits: seq<Edit>) {
    && |run| == |edits| + 1 && Booted(run[0])
    && forall n :: 0 <= n < |edits| ==> Follows(run[n], edits[n], run[n + 1])
  }

  lemma {:induction false} EditNests(w: World, e: Edit)
    requires Ordered(w) && Possible(w, e)
    ensures Ordered(Edited(w, e))
  {
    EditKeeps(w, e);
  }

  lemma {:induction false} RunGoesOn(run: seq<World>, edits: seq<Edit>, k: nat) returns (w: World, e: Edit)
    requires Run(run, edits) && k < |edits|
    ensures w == run[k] && e == edits[k] && Shaped(w.tree) && Possible(w, e) && run[k + 1] == Edited(w, e)
  {
    assert Follows(run[k], edits[k], run[k + 1]);
    w, e := run[k], edits[k];
  }

  /** The first cpuset has nobody above it and nobody beside it. */
  lemma {:induction false} BootedObeys(w: World)
    requires Booted(w)
    ensures Ordered(w) && Exclusive(w.tree)
  {
    assert forall c, p :: !IsChild(w.tree, c, p);
  }

  /** In every state of every run of edits and hotplugs, in any order, every cpuset lies within its parent. */
  lemma {:induction false} NestedInEveryRun(run: seq<World>, edits: seq<Edit>, n: nat)
    requires Run(run, edits) && n < |run|
    ensures Ordered(run[n])
  {
    if n == 0 {
      BootedObeys(run[0]);
    } else {
      NestedInEveryRun(run, edits, n - 1);
      var w, e := RunGoesOn(run, edits, n - 1);
      EditNests(w, e);
    }
  }

  lemma {:induction false} EditExcludes(w: World, e: Edit)
    requires Ordered(w) && Possible(w, e) && Exclusive(w.tree) && (e == Follow ==> NobodyStranded(w.tree, w.cpus, w.mems))
    ensures Exclusive(Edited(w, e).tree)
  {
    EditKeeps(w, e);
  }

  lemma {:induction false} ExclusiveUntilStranded(run: seq<World>, edits: seq<Edit>, n: nat)
    requires Run(run, edits) && n < |run|
    requires forall i :: 0 <= i < n && edits[i] == Follow ==> NobodyStranded(run[i].tree, run[i].cpus, run[i].mems)
    ensures Exclusive(run[n].tree)
  {
    if n == 0 {
      BootedObeys(run[0]);
    } else {
      ExclusiveUntilStranded(run, edits, n - 1);
      NestedInEveryRun(run, edits, n - 1);
      var w, e := RunGoesOn(run, edits, n - 1);
      EditExcludes(w, e);
    }
  }

  /** And all the rules hold as long as no walk strands a cpuset beside an exclusive sibling. */
  lemma {:induction false} RulesUntilStranded(run: seq<World>, edits: seq<Edit>, n: nat)
    requires Run(run, edits) && n < |run|
    requires forall i :: 0 <= i < n && edits[i] == Follow ==> NobodyStranded(run[i].tree, run[i].cpus, run[i].mems)
    ensures Rules(run[n].tree)
  {
    NestedInEveryRun(run, edits, n);
    ExclusiveUntilStranded(run, edits, n);
  }

  function Flagged(c: Cs, cpu: bool, on: bool): Cs {
    if cpu then c.(cpuEx := on) else c.(memEx := on)
  }

  function Created(m: Tree, parent: nat, id: nat): Tree
    requires parent in m
  {
    m[parent := m[parent].(children := [id] + m[parent].children)]
     [id := Cs({}, {}, false, false, Some(parent), [], m[parent].depth + 1)]
  }

  lemma {:induction false} CreatedChildren(m: Tree, parent: nat, id: nat, c: nat)
    requires Shaped(m) && parent in m && id !in m && id != TOP && c in m
    ensures HasChildren(Created(m, parent, id), c)
  {
    assert HasChildren(m, c);
    var l := m[c].children;
    forall i | 0 <= i < |l| ensures l[i] in m && l[i] != id {
    }
  }

  lemma {:induction false} CreatedListed(m: Tree, parent: nat, id: nat, c: nat)
    requires Shaped(m) && parent in m && id !in m && id != TOP && c in m
    ensures Listed(Created(m, parent, id), c)
  {
    assert Listed(m, c);
  }

  lemma {:induction false} CreatedShape(m: Tree, parent: nat, id: nat)
    requires Shaped(m) && parent in m && id !in m && id != TOP
    ensures Shaped(Created(m, parent, id))
    ensures forall c, p :: IsChild(Created(m, parent, id), c, p) ==> (c == id && p == parent) || (c != id && p != id && IsChild(m, c, p))
  {
    var m' := Created(m, parent, id);
    forall c | c in m' ensures HasChildren(m', c) && Listed(m', c) {
      if c == id {
        assert m'[parent].children[0] == id;
      } else {
        CreatedChildren(m, parent, id, c);
        CreatedListed(m, parent, id, c);
      }
    }
    forall c, p | IsChild(m', c, p) ensures (c == id && p == parent) || (c != id && p != id && IsChild(m, c, p)) {
      if c != id {
        assert Listed(m, c);
      }
    }
  }

  lemma {:induction false} CreatedNests(m: Tree, parent: nat, id: nat)
    requires Shaped(m) && Nested(m) && parent in m && id !in m && id != TOP
    ensures Nested(Created(m, parent, id))
  {
    var m' := Created(m, parent, id);
    CreatedShape(m, parent, id);
    forall c, p | IsChild(m', c, p) ensures Within(m'[c], m'[p]) {
      if c != id {
        assert IsChild(m, c, p);
        assert Within(m[c], m[p]);
      }
    }
  }

  lemma {:induction false} CreatedExclusive(m: Tree, parent: nat, id: nat)
    requires Shaped(m) && Exclusive(m) && parent in m && id !in m && id != TOP
    ensures Exclusive(Created(m, parent, id))
  {
    var m' := Created(m, parent, id);
    CreatedShape(m, parent, id);
    forall c, d, p | IsChild(m', c, p) && IsChild(m', d, p) && c != d ensures Compatible(m'[c], m'[d]) {
      if c != id && d != id {
        assert IsChild(m, c, p) && IsChild(m, d, p);
        assert Compatible(m[c], m[d]);
      }
    }
  }

  function Removed(m: Tree, cs: nat): Tree
    requires cs in m && m[cs].parent.Some? && m[cs].parent.value in m
  {
    var p := m[cs].parent.value;
    m[p := m[p].(children := Remove(m[p].children, cs))] - {cs}
  }

  lemma {:induction false} RemovedShape(m: Tree, cs: nat)
    requires Shaped(m) && cs in m && cs != TOP && m[cs].children == [] && m[cs].parent.Some? && m[cs].parent.value in m
    ensures Shaped(Removed(m, cs))
  {
    var m' := Removed(m, cs);
    assert Listed(m, cs);
    forall c | c in m' ensures HasChildren(m', c) && Listed(m', c) {
      assert HasChildren(m, c) && Listed(m, c);
      RemoveNoDup(m[c].children, cs);
      var l := m'[c].children;
      forall i | 0 <= i < |l| ensures l[i] in m' && m'[l[i]].parent == Some(c) {
        assert l[i] in l && l[i] in m[c].children;
        var j :| 0 <= j < |m[c].children| && m[c].children[j] == l[i];
        assert Kid(m, c, j) == l[i];
      }
      if m[c].parent == Some(cs) {
        var i := KidOf(m, c, cs);
      }
    }
  }

  lemma {:induction false} RemovedNests(m: Tree, cs: nat)
    requires Nested(m) && cs in m && m[cs].parent.Some? && m[cs].parent.value in m
    ensures Nested(Removed(m, cs))
  {
    var m' := Removed(m, cs);
    forall c, q | IsChild(m', c, q) ensures Within(m'[c], m'[q]) {
      assert IsChild(m, c, q);
    }
  }

  lemma {:induction false} RemovedExclusive(m: Tree, cs: nat)
    requires Exclusive(m) && cs in m && m[cs].parent.Some? && m[cs].parent.value in m
    ensures Exclusive(Removed(m, cs))
  {
    var m' := Removed(m, cs);
    forall c, d, q | IsChild(m', c, q) && IsChild(m', d, q) && c != d ensures Compatible(m'[c], m'[d]) {
      assert IsChild(m, c, q) && IsChild(m, d, q);
    }
  }

  /** Without its own flag the leaf overlaps nobody who insists: the exclusive siblings for CPUs, and
      for nodes everybody if it is mem_exclusive itself. */
  ghost predicate Yields(m: Tree, cs: nat) {
    forall d, p :: IsChild(m, cs, p) && IsChild(m, d, p) && d != cs ==>
      && (m[d].cpuEx ==> m[cs].cpus !! m[d].cpus)
      && (m[cs].memEx || m[d].memEx ==> m[cs].mems !! m[d].mems)
  }

  /** Switching the exclusive flag of a leaf off is accepted if and only if it overlaps nobody who
      insists, and otherwise refused with EINVAL. */
  lemma {:induction false} TurnOff(m: Tree, cs: nat)
    requires Shaped(m) && Nested(m) && cs in m && cs != TOP && m[cs].children == []
    ensures Verdict(m, cs, Flagged(m[cs], true, false)) == if Yields(m, cs) then 0 else -EINVAL
  {
    var trial := Flagged(m[cs], true, false);
    assert Listed(m, cs);
    var p := m[cs].parent.value;
    assert IsChild(m, cs, p) && Within(m[cs], m[p]) && Within(trial, m[p]);
    if Yields(m, cs) {
      forall i | 0 <= i < |m[p].children| && Kid(m, p, i) != cs ensures Compatible(trial, m[Kid(m, p, i)]) {
      }
    } else {
      var d: nat, q: nat :| IsChild(m, cs, q) && IsChild(m, d, q) && d != cs &&
        !(&& (m[d].cpuEx ==> m[cs].cpus !! m[d].cpus)
          && (m[cs].memEx || m[d].memEx ==> m[cs].mems !! m[d].mems));
      var i := KidOf(m, d, p);
      assert !Compatible(trial, m[Kid(m, p, i)]);
    }
  }

  /** In a tree that obeys the rules it is always accepted. */
  lemma {:induction false} RulesYield(m: Tree, cs: nat)
    requires Rules(m) && cs in m && m[cs].cpuEx
    ensures Yields(m, cs)
  {
    forall d: nat, p: nat | IsChild(m, cs, p) && IsChild(m, d, p) && d != cs
      ensures (m[d].cpuEx ==> m[cs].cpus !! m[d].cpus) && (m[cs].memEx || m[d].memEx ==> m[cs].mems !! m[d].mems)
    {
      assert Compatible(m[cs], m[d]);
    }
  }

  /** Two exclusive leaves with a CPU each. */
  function Pair(): Tree {
    map[TOP := Cs({0, 1, 2}, {0}, true, true, None, [1, 2], 0),
        1 := Cs({1}, {}, true, false, Some(TOP), [], 1),
        2 := Cs({2}, {}, true, false, Some(TOP), [], 1)]
  }

  lemma {:induction false} PairRules()
    ensures Rules(Pair())
  {
    var m := Pair();
    assert 1 in m[TOP].children && 2 in m[TOP].children;
    forall c | c in m ensures HasChildren(m, c) && Listed(m, c) {
      assert c == TOP || c == 1 || c == 2;
    }
    assert forall c, p :: IsChild(m, c, p) ==> p == TOP && (c == 1 || c == 2);
    assert Within(m[1], m[TOP]) && Within(m[2], m[TOP]);
    assert m[1].cpus == {1} && m[2].cpus == {2};
    assert Compatible(m[1], m[2]) && Compatible(m[2], m[1]);
  }

  /** When CPU 1 goes away the first leaf falls back on CPUs 0 and 2; then it cannot be removed. */
  lemma {:induction false} RmdirRefused()
    ensures Rules(Pair()) && Shaped(Plug(Pair(), {0, 2}, {0}))
    ensures Dropped(Plug(Pair(), {0, 2}, {0}), 1, 0) == (Plug(Pair(), {0, 2}, {0}), -EINVAL)
  {
    PairRules();
    var m := Pair();
    var m' := Plug(m, {0, 2}, {0});
    PlugShape(m, {0, 2}, {0});
    PlugNests(m, {0, 2}, {0});
    assert m[1].cpus * {0, 2} == {} && 1 in m[1].cpus && 2 in m[2].cpus * {0, 2} && 2 in m[TOP].cpus * {0, 2};
    assert 2 in m'[1].cpus && 2 in m'[2].cpus && m'[2].cpuEx;
    assert IsChild(m', 1, TOP) && IsChild(m', 2, TOP);
    assert !Yields(m', 1);
    TurnOff(m', 1);
  }

  lemma {:induction false} RemovedSame(m: Tree, cs: nat, trial: Cs)
    requires Shaped(m) && Trial(m, cs, trial) && trial.parent.Some? && trial.parent.value in m && trial.parent.value != cs
    ensures Removed(m[cs := trial], cs) == Removed(m, cs)
  {
  }

  lemma {:induction false} Height(m: Tree, keys: set<nat>) returns (h: nat)
    requires keys <= m.Keys
    ensures forall x :: x in keys ==> m[x].depth <= h
    decreases keys
  {
    h := 0;
    if keys != {} {
      var x :| x in keys;
      h := Height(m, keys - {x});
      if h < m[x].depth {
        h := m[x].depth;
      }
    }
  }

  /** x is one of the first i children of cur, or below one. */
  ghost predicate Walked(m: Tree, cur: nat, i: nat, x: nat)
    requires Shaped(m) && cur in m && i <= |m[cur].children| && x in m
  {
    exists j :: 0 <= j < i && (x == Kid(m, cur, j) || Descends(m, x, Kid(m, cur, j)))
  }

  lemma {:induction false} WalkedAll(m: Tree, cur: nat, x: nat)
    requires Shaped(m) && cur in m && x in m
    ensures Walked(m, cur, |m[cur].children|, x) <==> Descends(m, x, cur)
  {
    if Descends(m, x, cur) {
      var k := DescendsVia(m, x, cur);
      var i := KidOf(m, k, cur);
    } else if Walked(m, cur, |m[cur].children|, x) {
      var j :| 0 <= j < |m[cur].children| && (x == Kid(m, cur, j) || Descends(m, x, Kid(m, cur, j)));
      DescendsUp(m, x, Kid(m, cur, j), cur);
    }
  }

  function WithMask(c: Cs, cpu: bool, mask: set<nat>): Cs {
    if cpu then c.(cpus := mask) else c.(mems := mask)
  }

  /** From c upwards the trees agree. */
  ghost predicate AsAbove(m: Tree, m': Tree, c: nat)
    requires Shaped(m) && SameShape(m, m') && c in m
  {
    m'[c] == m[c] && forall a :: a in m && Descends(m, c, a) ==> m'[a] == m[a]
  }

  ghost predicate MaskAbove(m: Tree, m': Tree, c: nat, cpu: bool)
    requires Shaped(m) && SameShape(m, m') && c in m
  {
    Mask(m'[c], cpu) == Mask(m[c], cpu) && forall a :: a in m && Descends(m, c, a) ==> Mask(m'[a], cpu) == Mask(m[a], cpu)
  }

  lemma {:induction false} PluggedSame(m: Tree, m': Tree, c: nat, online: set<nat>, cpu: bool)
    requires Shaped(m) && Shaped(m') && SameShape(m, m') && c in m && (AsAbove(m, m', c) || MaskAbove(m, m', c, cpu))
    ensures Plugged(m', c, online, cpu) == Plugged(m, c, online, cpu)
  {
    GuaranteeSame(m, m', c, online, cpu);
  }

  /** The new CPU mask of c changes no memory mask. */
  lemma {:induction false} Refreshed(m: Tree, was: Tree, c: nat, cpus: set<nat>)
    requires Shaped(m) && SameShape(m, was) && Shaped(was) && c in m && AsAbove(m, was, c)
    ensures var now := was[c := WithMask(m[c], true, Plugged(m, c, cpus, true))];
      Shaped(now) && SameShape(m, now) && MaskAbove(m, now, c, false)
  {
    ShapeKept(was, was[c := WithMask(m[c], true, Plugged(m, c, cpus, true))]);
  }

  lemma {:induction false} RefreshedBoth(m: Tree, was: Tree, c: nat, cpus: set<nat>, mems: set<nat>)
    requires Shaped(m) && SameShape(m, was) && Shaped(was) && c in m && c != TOP && AsAbove(m, was, c)
    ensures var mid := was[c := WithMask(was[c], true, Plugged(was, c, cpus, true))];
      && Shaped(mid)
      && mid[c := WithMask(mid[c], false, Plugged(mid, c, mems, false))] == was[c := After(m, c, cpus, mems)]
  {
    PluggedSame(m, was, c, cpus, true);
    Refreshed(m, was, c, cpus);
    var mid := was[c := WithMask(was[c], true, Plugged(was, c, cpus, true))];
    assert mid == was[c := WithMask(m[c], true, Plugged(m, c, cpus, true))];
    PluggedSame(m, mid, c, mems, false);
  }

  /** Above cur, at cur and below it everything still is as in m. */
  ghost predicate Untouched(m: Tree, cur: nat, now: Tree)
    requires Shaped(m) && SameShape(m, now) && cur in m
  {
    forall x :: x in m && (x == cur || Descends(m, cur, x) || Descends(m, x, cur)) ==> now[x] == m[x]
  }

  /** The first i children of cur, and all below them, have their new masks; nothing else changed. */
  ghost predicate Partly(m: Tree, cur: nat, i: nat, was: Tree, now: Tree, cpus: set<nat>, mems: set<nat>)
    requires Shaped(m) && SameShape(m, was) && cur in m && i <= |m[cur].children|
  {
    && SameShape(m, now)
    && forall x :: x in m ==> now[x] == if Walked(m, cur, i, x) then After(m, x, cpus, mems) else was[x]
  }

  ghost predicate Wholly(m: Tree, cur: nat, was: Tree, now: Tree, cpus: set<nat>, mems: set<nat>)
    requires Shaped(m) && SameShape(m, was) && cur in m
  {
    && SameShape(m, now)
    && forall x :: x in m ==> now[x] == if Descends(m, x, cur) then After(m, x, cpus, mems) else was[x]
  }

  lemma {:induction false} PartlyStart(m: Tree, cur: nat, was: Tree, cpus: set<nat>, mems: set<nat>)
    requires Shaped(m) && SameShape(m, was) && cur in m
    ensures Partly(m, cur, 0, was, was, cpus, mems)
  {
  }

  lemma {:induction false} PartlyEnd(m: Tree, cur: nat, was: Tree, now: Tree, cpus: set<nat>, mems: set<nat>)
    requires Shaped(m) && SameShape(m, was) && cur in m && Partly(m, cur, |m[cur].children|, was, now, cpus, mems)
    ensures Wholly(m, cur, was, now, cpus, mems)
  {
    forall x | x in m ensures Walked(m, cur, |m[cur].children|, x) <==> Descends(m, x, cur) {
      WalkedAll(m, cur, x);
    }
  }

  lemma {:induction false} ChildUntouched(m: Tree, cur: nat, i: nat, was: Tree, now: Tree, cpus: set<nat>, mems: set<nat>)
    requires Shaped(m) && SameShape(m, was) && cur in m && i < |m[cur].children| && Untouched(m, cur, was)
    requires Partly(m, cur, i, was, now, cpus, mems)
    ensures Untouched(m, Kid(m, cur, i), now)
  {
    var c := Kid(m, cur, i);
    assert Listed(m, c);
    forall x | x in m && (x == c || Descends(m, c, x) || Descends(m, x, c)) ensures now[x] == m[x] {
      NotYetWalked(m, cur, i, x);
      if x == c || Descends(m, x, c) {
        DescendsUp(m, x, c, cur);
      }
    }
  }

  /** After the walk below c, c itself and all above it are as before. */
  lemma {:induction false} AboveUntouched(m: Tree, c: nat, was: Tree, now: Tree, cpus: set<nat>, mems: set<nat>)
    requires Shaped(m) && SameShape(m, was) && c in m && Untouched(m, c, was) && Wholly(m, c, was, now, cpus, mems)
    ensures AsAbove(m, now, c)
  {
    forall a | a in m && (a == c || Descends(m, c, a)) ensures now[a] == m[a] {
      if Descends(m, a, c) {
        DescendsDeeper(m, a, c);
        if a != c {
          DescendsDeeper(m, c, a);
        }
      }
    }
  }

  lemma {:induction false} PartlyNext(m: Tree, cur: nat, i: nat, was: Tree, before: Tree, walked: Tree, cpus: set<nat>, mems: set<nat>)
    requires Shaped(m) && SameShape(m, was) && cur in m && i < |m[cur].children|
    requires Partly(m, cur, i, was, before, cpus, mems) && Wholly(m, Kid(m, cur, i), before, walked, cpus, mems)
    ensures var c := Kid(m, cur, i); var now := walked[c := After(m, c, cpus, mems)];
      Partly(m, cur, i + 1, was, now, cpus, mems) && Shaped(now)
  {
    var c := Kid(m, cur, i);
    var now := walked[c := After(m, c, cpus, mems)];
    ShapeKept(m, now);
    forall x | x in m ensures now[x] == if Walked(m, cur, i + 1, x) then After(m, x, cpus, mems) else was[x] {
      WalkedNext(m, cur, i, x);
    }
  }

  lemma {:induction false} WhollyPlugged(m: Tree, walked: Tree, cpus: set<nat>, mems: set<nat>)
    requires Shaped(m) && Wholly(m, TOP, m, walked, cpus, mems)
    ensures walked[TOP := walked[TOP].(cpus := cpus, mems := mems)] == Plug(m, cpus, mems)
  {
    assert Listed(m, TOP);
    forall x | x in m && x != TOP ensures Descends(m, x, TOP) {
      BelowTop(m, x);
    }
  }

  /** Before child i is walked, neither it, nor what is below it, nor what is above it was touched. */
  lemma {:induction false} NotYetWalked(m: Tree, cur: nat, i: nat, x: nat)
    requires Shaped(m) && cur in m && i < |m[cur].children| && x in m
    requires x == Kid(m, cur, i) || Descends(m, x, Kid(m, cur, i)) || Descends(m, Kid(m, cur, i), x)
    ensures !Walked(m, cur, i, x)
  {
    var c := Kid(m, cur, i);
    assert HasChildren(m, cur) && Listed(m, c);
    if Walked(m, cur, i, x) {
      var j :| 0 <= j < i && (x == Kid(m, cur, j) || Descends(m, x, Kid(m, cur, j)));
      var k := Kid(m, cur, j);
      assert Listed(m, k);
      if x == c || Descends(m, x, c) {
        OneWay(m, x, k, c, cur);
      } else {
        DescendsDeeper(m, c, x);
        if x != k {
          DescendsDeeper(m, x, k);
        }
      }
    }
  }

  lemma {:induction false} WalkedNext(m: Tree, cur: nat, i: nat, x: nat)
    requires Shaped(m) && cur in m && i < |m[cur].children| && x in m
    ensures Walked(m, cur, i + 1, x) <==> Walked(m, cur, i, x) || x == Kid(m, cur, i) || Descends(m, x, Kid(m, cur, i))
  {
  }
}
