/**
 * System V semaphore sets: operation vectors that happen entirely or not at all, the queue of
 * vectors that could not, and the adjustments recorded for SEM_UNDO.
 */
module Sem {
  import opened Lists

  const SEMVMX := 32767
  const SEMAEM := SEMVMX
  const EAGAIN := 11
  const ERANGE := 34
  const EFBIG := 27
  const EINVAL := 22

  predicate InShort(x: int) { -32768 <= x <= 32767 }

  /** Conversion to the 16-bit signed type of semadj. */
  function Short(x: int): (r: int)
    ensures InShort(r) && (r - x) % 65536 == 0
    ensures InShort(x) <==> r == x
  {
    (x + 32768) % 65536 - 32768
  }

  type Int16 = x: int | InShort(x)

  /** One struct sembuf: the flags are SEM_UNDO and IPC_NOWAIT. */
  datatype Op = Op(num: nat, op: Int16, undo: bool, nowait: bool)

  /** One struct sem_undo on the list of the set. */
  datatype Undo = Undo(owner: nat, semadj: seq<int>)

  /** One struct sem_queue. */
  datatype Waiter = Waiter(task: nat, ops: seq<Op>, un: Option<nat>)
  {
    predicate Alter() { Alters(ops) }
  }

  /** The set: values, undo list and pending queue.  woken lists the statuses handed to sleepers. */
  datatype Set = Set(vals: seq<int>, undos: seq<Undo>, queue: seq<Waiter>, woken: seq<(Waiter, int)>)

  predicate Alters(ops: seq<Op>) { exists i :: 0 <= i < |ops| && ops[i].op != 0 }
  predicate Undoes(ops: seq<Op>) { exists i :: 0 <= i < |ops| && ops[i].undo }

  predicate InRange(n: nat, ops: seq<Op>) {
    forall i :: 0 <= i < |ops| ==> ops[i].num < n
  }

  // ----- One vector -----

  datatype Verdict = Fine | Blocks | OutOfRange

  /** What one operation meets. */
  function Check(v: seq<int>, adj: seq<int>, op: Op): Verdict
    requires op.num < |v| == |adj|
  {
    var r := v[op.num] + op.op;
    if op.op == 0 && v[op.num] != 0 then Blocks
    else if r < 0 then Blocks
    else if r > SEMVMX then OutOfRange
    else if op.undo && !(-SEMAEM - 1 <= adj[op.num] - op.op <= SEMAEM) then OutOfRange
    else Fine
  }

  /** The values after the first i operations, added up one by one with no check. */
  function Applied(v: seq<int>, ops: seq<Op>, i: nat): (w: seq<int>)
    requires InRange(|v|, ops) && i <= |ops|
    ensures |w| == |v|
  {
    if i == 0 then v
    else
      var w := Applied(v, ops, i - 1);
      var op := ops[i - 1];
      w[op.num := w[op.num] + op.op]
  }

  /** Operation j is Fine when its turn comes. */
  predicate Passes(v: seq<int>, adj: seq<int>, ops: seq<Op>, j: nat)
    requires InRange(|v|, ops) && |adj| == |v| && j < |ops|
  {
    Check(Applied(v, ops, j), adj, ops[j]) == Fine
  }

  /** The first operation from i on that is not Fine when its turn comes, or |ops|. */
  function Stuck(v: seq<int>, adj: seq<int>, ops: seq<Op>, i: nat): (k: nat)
    requires InRange(|v|, ops) && |adj| == |v| && i <= |ops|
    ensures i <= k <= |ops|
    ensures forall j :: i <= j < k ==> Passes(v, adj, ops, j)
    ensures k < |ops| ==> !Passes(v, adj, ops, k)
    decreases |ops| - i
  {
    if i == |ops| || !Passes(v, adj, ops, i) then i else Stuck(v, adj, ops, i + 1)
  }

  function Refusal(v: seq<int>, adj: seq<int>, op: Op): (r: int)
    requires op.num < |v| == |adj|
  {
    if Check(v, adj, op) == OutOfRange then -ERANGE else if op.nowait then -EAGAIN else 1
  }

  /** Return value of try_atomic_semop: 0 done, 1 sleep, else an error. */
  function Try(v: seq<int>, adj: seq<int>, ops: seq<Op>): (r: int)
    requires InRange(|v|, ops) && |adj| == |v|
    ensures r == 0 <==> forall j :: 0 <= j < |ops| ==> Passes(v, adj, ops, j)
    ensures r == 1 || r <= 0
  {
    var k := Stuck(v, adj, ops, 0);
    if k == |ops| then 0 else Refusal(Applied(v, ops, k), adj, ops[k])
  }

  // ----- When a vector passes -----

  /** What the operations before j do to semaphore k. */
  function Moved(ops: seq<Op>, j: nat, k: nat): int
    requires j <= |ops|
  {
    if j == 0 then 0 else Moved(ops, j - 1, k) + if ops[j - 1].num == k then ops[j - 1].op else 0
  }

  lemma {:induction false} AppliedIsMoved(v: seq<int>, ops: seq<Op>, j: nat, k: nat)
    requires InRange(|v|, ops) && j <= |ops| && k < |v|
    ensures Applied(v, ops, j)[k] == v[k] + Moved(ops, j, k)
  {
    if j > 0 {
      AppliedIsMoved(v, ops, j - 1, k);
    }
  }

  /** What semop() demands of an operation that meets the value x and the adjustment a: a wait for zero
      finds zero, a change stays in range, and so does the adjustment that would undo it. */
  predicate Feasible(x: int, a: int, op: Op) {
    && (op.op == 0 ==> x == 0)
    && (op.op != 0 ==> 0 <= x + op.op <= SEMVMX)
    && (op.undo ==> InShort(a - op.op))
  }

  /** The operation waits for zero, or for an increase. */
  predicate MustWait(x: int, op: Op) { (op.op == 0 && x != 0) || (op.op != 0 && x + op.op < 0) }

  /** Operation j of the vector is feasible after those before it. */
  predicate Goes(v: seq<int>, adj: seq<int>, ops: seq<Op>, j: nat)
    requires InRange(|v|, ops) && |adj| == |v| && j < |ops|
  {
    Feasible(v[ops[j].num] + Moved(ops, j, ops[j].num), adj[ops[j].num], ops[j])
  }

  lemma {:induction false} PassesGoes(v: seq<int>, adj: seq<int>, ops: seq<Op>, j: nat)
    requires InRange(|v|, ops) && |adj| == |v| && j < |ops|
    ensures Passes(v, adj, ops, j) <==> Goes(v, adj, ops, j)
  {
    AppliedIsMoved(v, ops, j, ops[j].num);
  }

  /** The attempt succeeds if and only if every operation is feasible after those before it. */
  lemma {:induction false} TryExact(v: seq<int>, adj: seq<int>, ops: seq<Op>)
    requires InRange(|v|, ops) && |adj| == |v|
    ensures Try(v, adj, ops) == 0 <==> forall j :: 0 <= j < |ops| ==> Goes(v, adj, ops, j)
  {
    forall j | 0 <= j < |ops| ensures Passes(v, adj, ops, j) <==> Goes(v, adj, ops, j) {
      PassesGoes(v, adj, ops, j);
    }
  }

  /** The first operation that is not feasible decides: the caller sleeps when it must wait, unless
      IPC_NOWAIT forbids that, and otherwise the vector is out of range. */
  lemma {:induction false} RefusalExact(v: seq<int>, adj: seq<int>, ops: seq<Op>, j: nat)
    requires InRange(|v|, ops) && |adj| == |v| && j < |ops| && !Goes(v, adj, ops, j)
    requires forall i :: 0 <= i < j ==> Goes(v, adj, ops, i)
    ensures Try(v, adj, ops) ==
      if !MustWait(v[ops[j].num] + Moved(ops, j, ops[j].num), ops[j]) then -ERANGE
      else if ops[j].nowait then -EAGAIN else 1
  {
    forall i | 0 <= i <= j ensures Passes(v, adj, ops, i) <==> Goes(v, adj, ops, i) {
      PassesGoes(v, adj, ops, i);
    }
    StuckIs(v, adj, ops, 0, j);
    AppliedIsMoved(v, ops, j, ops[j].num);
  }

  lemma {:induction false} StuckIs(v: seq<int>, adj: seq<int>, ops: seq<Op>, i: nat, j: nat)
    requires InRange(|v|, ops) && |adj| == |v| && i <= j < |ops| && !Passes(v, adj, ops, j)
    requires forall k :: i <= k < j ==> Passes(v, adj, ops, k)
    ensures Stuck(v, adj, ops, i) == j
    decreases j - i
  {
    if i < j {
      StuckIs(v, adj, ops, i + 1, j);
    }
  }

  // ----- What a vector leaves behind -----

  /** semadj after the operations from i on were recorded, last one first. */
  function Recorded(adj: seq<int>, ops: seq<Op>, i: nat): (a: seq<int>)
    requires InRange(|adj|, ops) && i <= |ops|
    ensures |a| == |adj|
    decreases |ops| - i
  {
    if i == |ops| then adj
    else
      var a := Recorded(adj, ops, i + 1);
      var op := ops[i];
      if op.undo then a[op.num := Short(a[op.num] - op.op)] else a
  }

  /** Sum of the operations on semaphore k from i on, with (undo) or without SEM_UNDO. */
  function Sum(ops: seq<Op>, i: nat, k: nat, undo: bool): int
    requires i <= |ops|
    decreases |ops| - i
  {
    if i == |ops| then 0
    else (if ops[i].num == k && ops[i].undo == undo then ops[i].op else 0) + Sum(ops, i + 1, k, undo)
  }

  lemma {:induction false} AppliedIsSum(v: seq<int>, ops: seq<Op>, i: nat, k: nat)
    requires InRange(|v|, ops) && i <= |ops| && k < |v|
    ensures Applied(v, ops, i)[k] + Sum(ops, i, k, true) + Sum(ops, i, k, false)
         == v[k] + Sum(ops, 0, k, true) + Sum(ops, 0, k, false)
  {
    if i > 0 {
      AppliedIsSum(v, ops, i - 1, k);
    }
  }

  lemma ShortOnce(a: int, b: int)
    ensures Short(Short(a) - b) == Short(a - b)
  {
  }

  lemma {:induction false} RecordedIsSum(adj: seq<int>, ops: seq<Op>, i: nat, k: nat)
    requires InRange(|adj|, ops) && i <= |ops| && k < |adj| && InShort(adj[k])
    ensures Recorded(adj, ops, i)[k] == Short(adj[k] - Sum(ops, i, k, true))
    decreases |ops| - i
  {
    if i < |ops| {
      RecordedIsSum(adj, ops, i + 1, k);
      if ops[i].undo && ops[i].num == k {
        ShortOnce(adj[k] - Sum(ops, i + 1, k, true), ops[i].op);
      }
    }
  }

  /** Conservation of one vector: the value and its adjustment together move by the operations
      without SEM_UNDO, if and only if the new adjustment fits in semadj. */
  lemma {:induction false} Conserved(v: seq<int>, adj: seq<int>, ops: seq<Op>, k: nat)
    requires InRange(|v|, ops) && |adj| == |v| && k < |v| && InShort(adj[k])
    ensures Applied(v, ops, |ops|)[k] + Recorded(adj, ops, 0)[k] == v[k] + adj[k] + Sum(ops, 0, k, false)
       <==> InShort(adj[k] - Sum(ops, 0, k, true))
  {
    AppliedIsSum(v, ops, |ops|, k);
    RecordedIsSum(adj, ops, 0, k);
  }

  /** No semaphore has two operations with SEM_UNDO from i on. */
  predicate OneUndoEach(ops: seq<Op>) {
    forall i, j :: 0 <= i < j < |ops| && ops[i].undo && ops[j].undo ==> ops[i].num != ops[j].num
  }

  lemma {:induction false} NoUndo(ops: seq<Op>, i: nat, k: nat)
    requires i <= |ops| && forall j :: i <= j < |ops| && ops[j].undo ==> ops[j].num != k
    ensures Sum(ops, i, k, true) == 0
    decreases |ops| - i
  {
    if i < |ops| {
      NoUndo(ops, i + 1, k);
    }
  }

  lemma {:induction false} OneUndo(ops: seq<Op>, i: nat, k: nat)
    requires i <= |ops| && OneUndoEach(ops)
    ensures Sum(ops, i, k, true) == 0
         || exists j :: i <= j < |ops| && ops[j].undo && ops[j].num == k && Sum(ops, i, k, true) == ops[j].op
    decreases |ops| - i
  {
    if i < |ops| {
      if ops[i].undo && ops[i].num == k {
        NoUndo(ops, i + 1, k);
      } else {
        OneUndo(ops, i + 1, k);
      }
    }
  }

  /** With at most one SEM_UNDO operation per semaphore the range check is exact. */
  lemma {:induction false} OneUndoFits(v: seq<int>, adj: seq<int>, ops: seq<Op>, k: nat)
    requires InRange(|v|, ops) && |adj| == |v| && k < |v| && InShort(adj[k])
    requires Try(v, adj, ops) == 0 && OneUndoEach(ops)
    ensures InShort(adj[k] - Sum(ops, 0, k, true))
  {
    OneUndo(ops, 0, k);
    if Sum(ops, 0, k, true) != 0 {
      var j :| 0 <= j < |ops| && ops[j].undo && ops[j].num == k && Sum(ops, 0, k, true) == ops[j].op;
      assert Passes(v, adj, ops, j);
    }
  }

  /** Two SEM_UNDO operations on one semaphore each pass the range check and together wrap semadj. */
  lemma TwoUndosWrap()
    ensures var ops := [Op(0, -20000, true, false), Op(0, 20000, false, false), Op(0, -20000, true, false)];
      && Try([20000], [0], ops) == 0
      && Applied([20000], ops, 3) == [0]
      && Recorded([0], ops, 0) == [-25536]
      && !InShort(0 - Sum(ops, 0, 0, true))
  {
  }

  /** Values stay in 0..SEMVMX. */
  predicate Sound(v: seq<int>) { forall k :: 0 <= k < |v| ==> 0 <= v[k] <= SEMVMX }

  lemma UpdateSound(v: seq<int>, adj: seq<int>, op: Op)
    requires op.num < |v| == |adj| && Sound(v) && Check(v, adj, op) == Fine
    ensures Sound(v[op.num := v[op.num] + op.op])
  {
  }

  lemma {:induction false} AppliedSound(v: seq<int>, adj: seq<int>, ops: seq<Op>, i: nat)
    requires InRange(|v|, ops) && |adj| == |v| && Sound(v) && i <= |ops|
    requires forall j :: 0 <= j < i ==> Passes(v, adj, ops, j)
    ensures Sound(Applied(v, ops, i))
  {
    if i > 0 {
      AppliedSound(v, adj, ops, i - 1);
      assert Passes(v, adj, ops, i - 1);
      UpdateSound(Applied(v, ops, i - 1), adj, ops[i - 1]);
    }
  }

  /** A vector of zero operations changes nothing. */
  lemma {:induction false} ReadOnly(v: seq<int>, adj: seq<int>, ops: seq<Op>, i: nat)
    requires InRange(|v|, ops) && |adj| == |v| && i <= |ops| && !Alters(ops)
    requires forall k :: 0 <= k < |adj| ==> InShort(adj[k])
    ensures Applied(v, ops, i) == v && Recorded(adj, ops, |ops| - i) == adj
  {
    if i > 0 {
      ReadOnly(v, adj, ops, i - 1);
      assert ops[i - 1].op == 0 && ops[|ops| - i].op == 0;
    }
  }

  // ----- The set -----

  function Find(undos: seq<Undo>, owner: nat): (r: nat)
    ensures r <= |undos| && (r < |undos| ==> undos[r].owner == owner)
    ensures forall j :: 0 <= j < r ==> undos[j].owner != owner
  {
    if undos == [] || undos[0].owner == owner then 0 else 1 + Find(undos[1..], owner)
  }

  predicate Has(undos: seq<Undo>, owner: nat) { Find(undos, owner) < |undos| }

  /** The adjustments a vector is checked against and recorded in; zeros when it carries none. */
  function AdjOf(s: Set, un: Option<nat>): seq<int> {
    if un.Some? && Has(s.undos, un.value) then s.undos[Find(s.undos, un.value)].semadj
    else seq(|s.vals|, _ => 0)
  }

  predicate WellFormed(s: Set, w: Waiter) {
    && w.ops != [] && InRange(|s.vals|, w.ops)
    && (w.un.Some? <==> Undoes(w.ops)) && (w.un.Some? ==> Has(s.undos, w.un.value))
  }

  predicate UndoShape(n: nat, undos: seq<Undo>) {
    && (forall i :: 0 <= i < |undos| ==> |undos[i].semadj| == n)
    && (forall i, k :: 0 <= i < |undos| && 0 <= k < |undos[i].semadj| ==> InShort(undos[i].semadj[k]))
    && (forall i, j :: 0 <= i < j < |undos| ==> undos[i].owner != undos[j].owner)
  }

  predicate Shape(s: Set) {
    && Sound(s.vals) && UndoShape(|s.vals|, s.undos)
    && (forall i :: 0 <= i < |s.queue| ==> WellFormed(s, s.queue[i]))
  }

  /** The vector would still sleep if tried now. */
  predicate Blocked(s: Set, w: Waiter)
    requires Shape(s) && WellFormed(s, w)
  {
    Try(s.vals, AdjOf(s, w.un), w.ops) == 1
  }

  predicate Quiescent(s: Set)
    requires Shape(s)
  {
    forall i :: 0 <= i < |s.queue| ==> Blocked(s, s.queue[i])
  }

  /** Vectors that wait for zero stand before those that change values. */
  predicate Ordered(q: seq<Waiter>) {
    forall i, j :: 0 <= i < j < |q| && q[i].Alter() ==> q[j].Alter()
  }

  predicate OneEach(q: seq<Waiter>) {
    forall i, j :: 0 <= i < j < |q| ==> q[i].task != q[j].task
  }

  // ----- Performing a vector -----

  function Recording(undos: seq<Undo>, un: Option<nat>, ops: seq<Op>): (r: seq<Undo>)
    requires un.Some? ==> Has(undos, un.value) && InRange(|undos[Find(undos, un.value)].semadj|, ops)
  {
    if un.None? then undos
    else
      var f := Find(undos, un.value);
      undos[f := Undo(un.value, Recorded(undos[f].semadj, ops, 0))]
  }

  /** try_atomic_semop on the set. */
  function Attempt(s: Set, w: Waiter): (Set, int)
    requires Shape(s) && WellFormed(s, w)
  {
    var r := Try(s.vals, AdjOf(s, w.un), w.ops);
    if r == 0
    then (s.(vals := Applied(s.vals, w.ops, |w.ops|), undos := Recording(s.undos, w.un, w.ops)), r)
    else (s, r)
  }

  /** The owners on the list, in order. */
  predicate SameOwners(a: seq<Undo>, b: seq<Undo>) {
    |a| == |b| && forall i :: 0 <= i < |a| ==> a[i].owner == b[i].owner
  }

  lemma {:induction false} RecordedFits(adj: seq<int>, ops: seq<Op>, i: nat)
    requires InRange(|adj|, ops) && i <= |ops| && forall k :: 0 <= k < |adj| ==> InShort(adj[k])
    ensures forall k :: 0 <= k < |adj| ==> InShort(Recorded(adj, ops, i)[k])
    decreases |ops| - i
  {
    if i < |ops| {
      RecordedFits(adj, ops, i + 1);
    }
  }

  lemma {:induction false} RecordingShape(n: nat, undos: seq<Undo>, un: Option<nat>, ops: seq<Op>)
    requires UndoShape(n, undos) && InRange(n, ops) && (un.Some? ==> Has(undos, un.value))
    ensures UndoShape(n, Recording(undos, un, ops)) && SameOwners(undos, Recording(undos, un, ops))
  {
    if un.Some? {
      RecordedFits(undos[Find(undos, un.value)].semadj, ops, 0);
    }
  }

  lemma {:induction false} StillWellFormed(s: Set, t: Set, w: Waiter)
    requires |s.vals| == |t.vals| && SameOwners(s.undos, t.undos) && WellFormed(s, w)
    ensures WellFormed(t, w)
  {
  }

  lemma {:induction false} ShapeKept(s: Set, t: Set)
    requires Shape(s) && Sound(t.vals) && |s.vals| == |t.vals| && t.queue == s.queue
    requires UndoShape(|t.vals|, t.undos) && SameOwners(s.undos, t.undos)
    ensures Shape(t)
  {
    forall i | 0 <= i < |t.queue| ensures WellFormed(t, t.queue[i]) {
      assert WellFormed(s, s.queue[i]);
      StillWellFormed(s, t, s.queue[i]);
    }
  }

  lemma {:induction false} AttemptShape(s: Set, w: Waiter)
    requires Shape(s) && WellFormed(s, w)
    ensures var t := Attempt(s, w).0;
      Shape(t) && |t.vals| == |s.vals| && t.queue == s.queue && SameOwners(s.undos, t.undos)
  {
    if Attempt(s, w).1 == 0 {
      AppliedSound(s.vals, AdjOf(s, w.un), w.ops, |w.ops|);
      RecordingShape(|s.vals|, s.undos, w.un, w.ops);
      ShapeKept(s, Attempt(s, w).0);
    }
  }

  lemma {:induction false} AttemptReadOnly(s: Set, w: Waiter)
    requires Shape(s) && WellFormed(s, w) && !w.Alter()
    ensures Attempt(s, w).0 == s
  {
    if Attempt(s, w).1 == 0 {
      ReadOnly(s.vals, AdjOf(s, w.un), w.ops, |w.ops|);
      if w.un.Some? {
        var f := Find(s.undos, w.un.value);
        assert Recording(s.undos, w.un, w.ops) == s.undos[f := s.undos[f]] == s.undos;
      }
    }
  }

  // ----- update_queue -----

  /** The waiter at pos leaves the queue with its status. */
  function Dequeued(s: Set, pos: nat, status: int): Set
    requires pos < |s.queue|
  {
    s.(queue := Without(s.queue, pos), woken := s.woken + [(s.queue[pos], status)])
  }

  lemma DequeuedShape(s: Set, pos: nat, status: int)
    requires Shape(s) && pos < |s.queue|
    ensures Shape(Dequeued(s, pos, status))
  {
  }

  /** What the loop of update_queue makes of the set when it stands at position pos. */
  function Scan(s: Set, pos: nat): (t: Set)
    requires Shape(s) && pos <= |s.queue|
    decreases |s.queue|, |s.queue| - pos
  {
    if pos == |s.queue| then s
    else
      var w := s.queue[pos];
      var (t, r) := Attempt(s, w);
      AttemptShape(s, w);
      if r <= 0 then
        DequeuedShape(t, pos, r);
        Scan(Dequeued(t, pos, r), if w.Alter() then 0 else pos)
      else Scan(s, pos + 1)
  }

  predicate QuietBefore(s: Set, pos: nat)
    requires Shape(s) && pos <= |s.queue|
  {
    forall i :: 0 <= i < pos ==> Blocked(s, s.queue[i])
  }

  lemma DequeuedQuiet(s: Set, pos: nat, status: int)
    requires Shape(s) && pos < |s.queue| && QuietBefore(s, pos)
    ensures Shape(Dequeued(s, pos, status)) && QuietBefore(Dequeued(s, pos, status), pos)
  {
  }

  /** The fixpoint: although the scan restarts only after a vector that alters values, every vector
      still pending at its end would block if tried. */
  lemma {:induction false} ScanQuiets(s: Set, pos: nat)
    requires Shape(s) && pos <= |s.queue| && QuietBefore(s, pos)
    ensures Shape(Scan(s, pos)) && Quiescent(Scan(s, pos))
    decreases |s.queue|, |s.queue| - pos
  {
    if pos < |s.queue| {
      var w := s.queue[pos];
      var (t, r) := Attempt(s, w);
      AttemptShape(s, w);
      if r > 0 {
        ScanQuiets(s, pos + 1);
      } else if w.Alter() {
        DequeuedShape(t, pos, r);
        ScanQuiets(Dequeued(t, pos, r), 0);
      } else {
        AttemptReadOnly(s, w);
        DequeuedQuiet(s, pos, r);
        ScanQuiets(Dequeued(s, pos, r), pos);
      }
    }
  }

  /** The log replayed one vector at a time: every status in it is what the vector met at its turn,
      and the set ends with t's values and adjustments. */
  predicate Replays(s: Set, log: seq<(Waiter, int)>, t: Set)
    requires Shape(s)
    decreases |log|
  {
    if log == [] then t.vals == s.vals && t.undos == s.undos
    else
      var (w, r) := log[0];
      && WellFormed(s, w)
      && Attempt(s, w).1 == r
      && (AttemptShape(s, w); Replays(Attempt(s, w).0, log[1..], t))
  }

  lemma {:induction false} ReplayIgnoresQueue(s: Set, s': Set, log: seq<(Waiter, int)>, t: Set)
    requires Shape(s) && Shape(s') && s.vals == s'.vals && s.undos == s'.undos && Replays(s, log, t)
    ensures Replays(s', log, t)
    decreases |log|
  {
    if log != [] {
      var w := log[0].0;
      AttemptShape(s, w);
      AttemptShape(s', w);
      ReplayIgnoresQueue(Attempt(s, w).0, Attempt(s', w).0, log[1..], t);
    }
  }

  /** Waiters of a log, as a multiset. */
  function Served(log: seq<(Waiter, int)>): multiset<Waiter> {
    if log == [] then multiset{} else multiset{log[0].0} + Served(log[1..])
  }

  lemma {:induction false} ReplayFirst(s: Set, w: Waiter, d: Set, rest: seq<(Waiter, int)>, t: Set)
    requires Shape(s) && WellFormed(s, w) && Shape(d) && Replays(d, rest, t)
    requires d.vals == Attempt(s, w).0.vals && d.undos == Attempt(s, w).0.undos
    ensures Replays(s, [(w, Attempt(s, w).1)] + rest, t)
  {
    AttemptShape(s, w);
    ReplayIgnoresQueue(d, Attempt(s, w).0, rest, t);
    assert ([(w, Attempt(s, w).1)] + rest)[1..] == rest;
  }

  lemma {:induction false} ServedFirst(q: seq<Waiter>, pos: nat, r: int, rest: seq<(Waiter, int)>)
    requires pos < |q|
    ensures multiset(q) == multiset{q[pos]} + multiset(Without(q, pos))
    ensures Served([(q[pos], r)] + rest) == multiset{q[pos]} + Served(rest)
  {
    WithoutBag(q, pos);
    assert ([(q[pos], r)] + rest)[1..] == rest;
  }

  lemma Regroup<T>(a: seq<T>, x: T, rest: seq<T>)
    ensures (a + [x]) + rest == a + ([x] + rest)
  {
  }

  /** The log leads from s to t: its results, its tasks and the account of the queue. */
  predicate Logged(s: Set, log: seq<(Waiter, int)>, t: Set)
    requires Shape(s)
  {
    && t.woken == s.woken + log && Replays(s, log, t) && multiset(s.queue) == Served(log) + multiset(t.queue)
    && forall i :: 0 <= i < |log| ==> log[i].1 <= 0
  }

  lemma {:induction false} QueueServed(q: seq<Waiter>, pos: nat, r: int, rest: seq<(Waiter, int)>, left: seq<Waiter>)
    requires pos < |q| && multiset(Without(q, pos)) == Served(rest) + multiset(left)
    ensures multiset(q) == Served([(q[pos], r)] + rest) + multiset(left)
  {
    ServedFirst(q, pos, r, rest);
    BagAssociates(multiset{q[pos]}, Served(rest), multiset(left));
  }

  lemma BagAssociates(a: multiset<Waiter>, b: multiset<Waiter>, c: multiset<Waiter>)
    ensures a + (b + c) == a + b + c
  {
  }

  lemma {:induction false} LogFirst(s: Set, pos: nat, r: int, d: Set, rest: seq<(Waiter, int)>, t: Set)
    requires Shape(s) && pos < |s.queue| && r <= 0 && r == Attempt(s, s.queue[pos]).1 && Shape(d) && Logged(d, rest, t)
    requires d.vals == Attempt(s, s.queue[pos]).0.vals && d.undos == Attempt(s, s.queue[pos]).0.undos
    requires d.queue == Without(s.queue, pos) && d.woken == s.woken + [(s.queue[pos], r)]
    ensures Logged(s, [(s.queue[pos], r)] + rest, t)
  {
    var w := s.queue[pos];
    ReplayFirst(s, w, d, rest, t);
    QueueServed(s.queue, pos, r, rest, t.queue);
    Regroup(s.woken, (w, r), rest);
  }

  /** The scan hands out a log that replays: each sleeper it wakes gets one status, the vectors with
      status 0 took effect one after the other, and nobody else leaves the queue. */
  lemma {:induction false} ScanReplays(s: Set, pos: nat) returns (log: seq<(Waiter, int)>)
    requires Shape(s) && pos <= |s.queue|
    ensures Logged(s, log, Scan(s, pos))
    decreases |s.queue|, |s.queue| - pos
  {
    log := [];
    if pos < |s.queue| {
      var w := s.queue[pos];
      var (t, r) := Attempt(s, w);
      AttemptShape(s, w);
      if r > 0 {
        log := ScanReplays(s, pos + 1);
      } else {
        DequeuedShape(t, pos, r);
        var d := Dequeued(t, pos, r);
        var rest := ScanReplays(d, if w.Alter() then 0 else pos);
        log := [(w, r)] + rest;
        LogFirst(s, pos, r, d, rest, Scan(s, pos));
      }
    }
  }

  /** The queue after the scan keeps its order. */
  predicate SubQueue(q: seq<Waiter>, p: seq<Waiter>) {
    (Ordered(p) ==> Ordered(q)) && (OneEach(p) ==> OneEach(q)) && forall w :: w in q ==> w in p
  }

  lemma WithoutSub(p: seq<Waiter>, i: nat)
    requires i < |p|
    ensures SubQueue(Without(p, i), p)
  {
  }

  /** The queue after the scan is a subsequence of the queue before it. */
  lemma {:induction false} ScanPicks(s: Set, pos: nat) returns (at: seq<nat>)
    requires Shape(s) && pos <= |s.queue|
    ensures Picks(Scan(s, pos).queue, s.queue, at)
    decreases |s.queue|, |s.queue| - pos
  {
    if pos < |s.queue| {
      var w := s.queue[pos];
      var (t, r) := Attempt(s, w);
      AttemptShape(s, w);
      if r > 0 {
        at := ScanPicks(s, pos + 1);
      } else {
        DequeuedShape(t, pos, r);
        at := ScanPicks(Dequeued(t, pos, r), if w.Alter() then 0 else pos);
        at := PicksBehind(Scan(s, pos).queue, s.queue, pos, at);
      }
    } else {
      at := PicksAll(s.queue);
    }
  }

  lemma {:induction false} ScanSub(s: Set, pos: nat)
    requires Shape(s) && pos <= |s.queue|
    ensures SubQueue(Scan(s, pos).queue, s.queue) && |Scan(s, pos).vals| == |s.vals|
    ensures SameOwners(s.undos, Scan(s, pos).undos)
    decreases |s.queue|, |s.queue| - pos
  {
    if pos < |s.queue| {
      var w := s.queue[pos];
      var (t, r) := Attempt(s, w);
      AttemptShape(s, w);
      if r > 0 {
        ScanSub(s, pos + 1);
      } else {
        DequeuedShape(t, pos, r);
        WithoutSub(t.queue, pos);
        ScanSub(Dequeued(t, pos, r), if w.Alter() then 0 else pos);
      }
    }
  }

  /** Each entry of the log was, when it was served, the first of the queue that did not block. */
  ghost predicate Fair(s: Set, log: seq<(Waiter, int)>)
    decreases |log|
  {
    log == [] || exists pos: nat :: Serves(s, pos, log[0]) && Fair(ServedNext(s, pos), log[1..])
  }

  ghost predicate Serves(s: Set, pos: nat, x: (Waiter, int)) {
    Shape(s) && pos < |s.queue| && QuietBefore(s, pos) && !Blocked(s, s.queue[pos]) && x == (s.queue[pos], Attempt(s, s.queue[pos]).1)
  }

  ghost function ServedNext(s: Set, pos: nat): Set
    requires Shape(s) && pos < |s.queue|
  {
    Dequeued(Attempt(s, s.queue[pos]).0, pos, Attempt(s, s.queue[pos]).1)
  }

  /** Where the scan resumes after it served the waiter at pos. */
  ghost function Resumes(s: Set, pos: nat): nat
    requires pos < |s.queue|
  {
    if s.queue[pos].Alter() then 0 else pos
  }

  lemma {:induction false} ServedGoesOn(s: Set, pos: nat)
    requires Shape(s) && pos < |s.queue| && QuietBefore(s, pos) && !Blocked(s, s.queue[pos])
    ensures Shape(ServedNext(s, pos)) && |ServedNext(s, pos).queue| == |s.queue| - 1
    ensures QuietBefore(ServedNext(s, pos), Resumes(s, pos))
    ensures ServedNext(s, pos).woken == s.woken + [(s.queue[pos], Attempt(s, s.queue[pos]).1)]
  {
    var w := s.queue[pos];
    AttemptShape(s, w);
    DequeuedShape(Attempt(s, w).0, pos, Attempt(s, w).1);
    if !w.Alter() {
      AttemptReadOnly(s, w);
      DequeuedQuiet(s, pos, Attempt(s, w).1);
    }
  }

  lemma {:induction false} FairFirst(s: Set, pos: nat, x: (Waiter, int), rest: seq<(Waiter, int)>)
    requires Serves(s, pos, x) && Fair(ServedNext(s, pos), rest)
    ensures Fair(s, [x] + rest)
  {
    assert ([x] + rest)[1..] == rest;
  }

  lemma {:induction false} QuietUpTo(s: Set, pos: nat)
    requires Shape(s) && pos < |s.queue| && QuietBefore(s, pos) && Blocked(s, s.queue[pos])
    ensures QuietBefore(s, pos + 1)
  {
  }

  /** The scan passes over nobody who could proceed. */
  lemma {:induction false} ScanFair(s: Set, pos: nat) returns (log: seq<(Waiter, int)>)
    requires Shape(s) && pos <= |s.queue| && QuietBefore(s, pos)
    ensures Scan(s, pos).woken == s.woken + log && Fair(s, log)
    decreases |s.queue|, |s.queue| - pos
  {
    log := [];
    if pos < |s.queue| {
      if Blocked(s, s.queue[pos]) {
        QuietUpTo(s, pos);
        log := ScanFair(s, pos + 1);
      } else {
        var x := (s.queue[pos], Attempt(s, s.queue[pos]).1);
        ServedGoesOn(s, pos);
        var rest := ScanFair(ServedNext(s, pos), Resumes(s, pos));
        log := [x] + rest;
        FairFirst(s, pos, x, rest);
        Regroup(s.woken, x, rest);
      }
    }
  }

  // ----- Conservation over a log -----

  function SumAdj(undos: seq<Undo>, k: nat): int
    requires forall i :: 0 <= i < |undos| ==> k < |undos[i].semadj|
  {
    if undos == [] then 0 else undos[0].semadj[k] + SumAdj(undos[1..], k)
  }

  /** A semaphore's value with everything that exits would still give back. */
  function Total(s: Set, k: nat): int
    requires Shape(s) && k < |s.vals|
  {
    s.vals[k] + SumAdj(s.undos, k)
  }

  lemma {:induction false} SumAdjUpdate(undos: seq<Undo>, f: nat, u: Undo, k: nat)
    requires f < |undos| && k < |u.semadj| && forall i :: 0 <= i < |undos| ==> k < |undos[i].semadj|
    ensures SumAdj(undos[f := u], k) == SumAdj(undos, k) - undos[f].semadj[k] + u.semadj[k]
  {
    if f > 0 {
      SumAdjUpdate(undos[1..], f - 1, u, k);
      assert undos[f := u][1..] == undos[1..][f - 1 := u];
    } else {
      assert undos[f := u][1..] == undos[1..];
    }
  }

  lemma {:induction false} NoUndoSum(ops: seq<Op>, k: nat)
    requires !Undoes(ops)
    ensures Sum(ops, 0, k, true) == 0
  {
    NoUndo(ops, 0, k);
  }

  /** One vector on the set: the total moves by the operations without SEM_UNDO, if and only if the
      recorded adjustment fits. */
  lemma {:induction false} AttemptTotal(s: Set, w: Waiter, k: nat)
    requires Shape(s) && WellFormed(s, w) && k < |s.vals| && Attempt(s, w).1 == 0
    ensures Shape(Attempt(s, w).0) && |Attempt(s, w).0.vals| == |s.vals|
    ensures Total(Attempt(s, w).0, k) == Total(s, k) + Sum(w.ops, 0, k, false)
       <==> InShort(AdjOf(s, w.un)[k] - Sum(w.ops, 0, k, true))
  {
    AttemptShape(s, w);
    var adj := AdjOf(s, w.un);
    Conserved(s.vals, adj, w.ops, k);
    if w.un.Some? {
      var f := Find(s.undos, w.un.value);
      SumAdjUpdate(s.undos, f, Undo(w.un.value, Recorded(adj, w.ops, 0)), k);
    } else {
      NoUndoSum(w.ops, k);
      AppliedIsSum(s.vals, w.ops, |w.ops|, k);
    }
  }

  /** What the completed vectors of a log add to semaphore k without SEM_UNDO. */
  function PlainSum(log: seq<(Waiter, int)>, k: nat): int {
    if log == [] then 0
    else (if log[0].1 == 0 then Sum(log[0].0.ops, 0, k, false) else 0) + PlainSum(log[1..], k)
  }

  /** Conservation over any log that replays. */
  lemma {:induction false} ReplayTotal(s: Set, log: seq<(Waiter, int)>, t: Set, k: nat)
    requires Shape(s) && Shape(t) && k < |s.vals| && Replays(s, log, t)
    requires forall i :: 0 <= i < |log| ==> OneUndoEach(log[i].0.ops)
    ensures |t.vals| == |s.vals| && Total(t, k) == Total(s, k) + PlainSum(log, k)
    decreases |log|
  {
    if log != [] {
      var w := log[0].0;
      AttemptShape(s, w);
      ReplayTotal(Attempt(s, w).0, log[1..], t, k);
      if log[0].1 == 0 {
        OneUndoFits(s.vals, AdjOf(s, w.un), w.ops, k);
        AttemptTotal(s, w, k);
      }
    }
  }

  // ----- The system calls -----

  /** The state between two holders of the set's lock. */
  predicate Inv(s: Set) {
    Shape(s) && Quiescent(s) && Ordered(s.queue) && OneEach(s.queue)
  }

  /** find_undo: a structure of zeros is added in front when the task has none yet. */
  function WithUndo(s: Set, owner: nat): Set {
    if Has(s.undos, owner) then s
    else s.(undos := [Undo(owner, seq(|s.vals|, _ => 0))] + s.undos)
  }

  /** append_to_queue for vectors that alter values, prepend_to_queue for the others. */
  function Enqueued(s: Set, w: Waiter): Set {
    s.(queue := if w.Alter() then s.queue + [w] else [w] + s.queue)
  }

  /** update_queue. */
  function Updated(s: Set): Set
    requires Shape(s)
  {
    Scan(s, 0)
  }

  predicate Pending(s: Set, task: nat) { exists i :: 0 <= i < |s.queue| && s.queue[i].task == task }

  /** sys_semtimedop until it returns or sleeps (result 1). */
  function Semop(s: Set, w: Waiter): (Set, int)
    requires Shape(s)
    requires w.un.Some? <==> Undoes(w.ops)
  {
    if w.ops == [] then (s, -EINVAL)
    else
      var u := if w.un.Some? then WithUndo(s, w.un.value) else s;
      WithUndoShape(s, w.un);
      if !InRange(|s.vals|, w.ops) then (u, -EFBIG)
      else
        var (t, r) := Attempt(u, w);
        AttemptShape(u, w);
        if r > 0 then (Enqueued(u, w), r)
        else if w.Alter() && r == 0 then (Updated(t), r)
        else (t, r)
  }

  lemma {:induction false} WithUndoShape(s: Set, un: Option<nat>)
    requires Shape(s)
    ensures un.Some? ==>
      var t := WithUndo(s, un.value);
      Shape(t) && Has(t.undos, un.value) && forall w :: w in s.queue ==> AdjOf(t, w.un) == AdjOf(s, w.un)
  {
    if un.Some? && !Has(s.undos, un.value) {
      var t := WithUndo(s, un.value);
      forall i | 0 <= i < |s.queue|
        ensures WellFormed(t, s.queue[i]) && AdjOf(t, s.queue[i].un) == AdjOf(s, s.queue[i].un)
      {
        assert WellFormed(s, s.queue[i]);
      }
    }
  }

  lemma {:induction false} WithUndoKeeps(s: Set, un: Option<nat>)
    requires Inv(s)
    ensures un.Some? ==> Inv(WithUndo(s, un.value)) && Has(WithUndo(s, un.value).undos, un.value)
  {
    if un.Some? {
      var t := WithUndo(s, un.value);
      WithUndoShape(s, un);
      forall i | 0 <= i < |t.queue| ensures Blocked(t, t.queue[i]) {
        assert Blocked(s, s.queue[i]);
        assert s.queue[i] in s.queue;
      }
    }
  }

  /** The lock may be dropped after update_queue, whatever was done to values and adjustments. */
  lemma {:induction false} UpdatedKeeps(s: Set)
    requires Shape(s) && Ordered(s.queue) && OneEach(s.queue)
    ensures Inv(Updated(s)) && |Updated(s).vals| == |s.vals|
  {
    ScanQuiets(s, 0);
    ScanSub(s, 0);
  }

  lemma {:induction false} EnqueuedKeeps(s: Set, w: Waiter)
    requires Inv(s) && WellFormed(s, w) && Blocked(s, w) && !Pending(s, w.task)
    ensures Inv(Enqueued(s, w))
  {
    var t := Enqueued(s, w);
    forall i | 0 <= i < |t.queue| ensures WellFormed(t, t.queue[i]) {
      assert t.queue[i] == w || WellFormed(s, t.queue[i]);
    }
    forall i | 0 <= i < |t.queue| ensures Blocked(t, t.queue[i]) {
      assert t.queue[i] == w || Blocked(s, t.queue[i]);
    }
    EnqueuedOrder(s.queue, w);
  }

  lemma EnqueuedOrder(q: seq<Waiter>, w: Waiter)
    requires Ordered(q) && OneEach(q) && forall i :: 0 <= i < |q| ==> q[i].task != w.task
    ensures w.Alter() ==> Ordered(q + [w]) && OneEach(q + [w])
    ensures !w.Alter() ==> Ordered([w] + q) && OneEach([w] + q)
  {
  }

  lemma {:induction false} SemopKeeps(s: Set, w: Waiter)
    requires Inv(s) && (w.un.Some? <==> Undoes(w.ops)) && !Pending(s, w.task)
    ensures Inv(Semop(s, w).0)
  {
    if w.ops != [] {
      var u := if w.un.Some? then WithUndo(s, w.un.value) else s;
      WithUndoKeeps(s, w.un);
      if InRange(|s.vals|, w.ops) {
        var (t, r) := Attempt(u, w);
        AttemptShape(u, w);
        if r > 0 {
          EnqueuedKeeps(u, w);
        } else if r == 0 && w.Alter() {
          UpdatedKeeps(t);
        } else if r == 0 {
          AttemptReadOnly(u, w);
        }
      }
    }
  }

  /** A sleeper that times out or is interrupted leaves the queue by itself. */
  function GiveUp(s: Set, i: nat): Set
    requires i < |s.queue|
  {
    s.(queue := Without(s.queue, i))
  }

  lemma {:induction false} GiveUpKeeps(s: Set, i: nat)
    requires Inv(s) && i < |s.queue|
    ensures Inv(GiveUp(s, i))
  {
    var t := GiveUp(s, i);
    WithoutSub(s.queue, i);
    forall j | 0 <= j < |t.queue| ensures WellFormed(t, t.queue[j]) {
      var b := if j < i then j else j + 1;
      assert WellFormed(s, s.queue[b]);
    }
    forall j | 0 <= j < |t.queue| ensures Blocked(t, t.queue[j]) {
      var b := if j < i then j else j + 1;
      assert Blocked(s, s.queue[b]);
    }
  }

  function Zeroed(undos: seq<Undo>, k: nat): (r: seq<Undo>)
    requires forall i :: 0 <= i < |undos| ==> k < |undos[i].semadj|
    ensures |r| == |undos|
    ensures forall i :: 0 <= i < |undos| ==> r[i] == Undo(undos[i].owner, undos[i].semadj[k := 0])
  {
    if undos == [] then []
    else [Undo(undos[0].owner, undos[0].semadj[k := 0])] + Zeroed(undos[1..], k)
  }

  /** A value is stored, and every adjustment of its semaphore is forgotten. */
  function Stored(s: Set, k: nat, val: int): Set
    requires Shape(s) && k < |s.vals|
  {
    s.(vals := s.vals[k := val], undos := Zeroed(s.undos, k))
  }

  /** SETVAL. */
  function SetVal(s: Set, k: nat, val: int): (Set, int)
    requires Shape(s)
  {
    if k >= |s.vals| then (s, -EINVAL)
    else if val > SEMVMX || val < 0 then (s, -ERANGE)
    else
      ShapeKept(s, Stored(s, k, val));
      (Updated(Stored(s, k, val)), 0)
  }

  function AllZero(n: nat, undos: seq<Undo>): (r: seq<Undo>)
    ensures |r| == |undos|
    ensures forall i :: 0 <= i < |undos| ==> r[i] == Undo(undos[i].owner, seq(n, _ => 0))
  {
    if undos == [] then [] else [Undo(undos[0].owner, seq(n, _ => 0))] + AllZero(n, undos[1..])
  }

  /** SETALL: vals are the unsigned shorts copied in, one per semaphore. */
  function SetAll(s: Set, vals: seq<int>): (Set, int)
    requires Shape(s) && |vals| == |s.vals| && forall k :: 0 <= k < |vals| ==> 0 <= vals[k]
  {
    if exists k :: 0 <= k < |vals| && vals[k] > SEMVMX then (s, -ERANGE)
    else
      var t := s.(vals := vals, undos := AllZero(|vals|, s.undos));
      ShapeKept(s, t);
      (Updated(t), 0)
  }

  /** A value with an adjustment added, capped at both ends. */
  function GivenBack(v: int, adj: int): int {
    if adj == 0 then v else if v + adj < 0 then 0 else if v + adj > SEMVMX then SEMVMX else v + adj
  }

  function Adjusted(v: seq<int>, adj: seq<int>): (r: seq<int>)
    requires |v| == |adj|
    ensures |r| == |v| && forall k :: 0 <= k < |v| ==> r[k] == GivenBack(v[k], adj[k])
  {
    if v == [] then []
    else [GivenBack(v[0], adj[0])] + Adjusted(v[1..], adj[1..])
  }

  /** The undo structure at f is unlinked and its adjustments are applied. */
  function Exited(s: Set, f: nat): Set
    requires f < |s.undos| && |s.undos[f].semadj| == |s.vals|
  {
    s.(vals := Adjusted(s.vals, s.undos[f].semadj), undos := Without(s.undos, f))
  }

  /** Some sleeper still holds a reference on the undo list of this owner. */
  predicate InUse(s: Set, owner: nat) {
    exists i :: 0 <= i < |s.queue| && s.queue[i].un == Some(owner)
  }

  lemma {:induction false} FindWithout(undos: seq<Undo>, f: nat, owner: nat)
    requires f < |undos| && undos[f].owner != owner && Has(undos, owner)
    ensures Has(Without(undos, f), owner)
  {
    var g := Find(undos, owner);
    var j := if g < f then g else g - 1;
    assert Without(undos, f)[j].owner == owner;
  }

  lemma {:induction false} ExitedShape(s: Set, f: nat)
    requires Shape(s) && f < |s.undos| && !InUse(s, s.undos[f].owner)
    ensures Shape(Exited(s, f))
  {
    var t := Exited(s, f);
    forall i | 0 <= i < |t.queue| ensures WellFormed(t, t.queue[i]) {
      var w := s.queue[i];
      assert WellFormed(s, w);
      if w.un.Some? {
        FindWithout(s.undos, f, w.un.value);
      }
    }
  }

  /** exit_sem for one set: the last user of an undo list gives its adjustments back. */
  function Exit(s: Set, owner: nat): Set
    requires Shape(s)
  {
    if !Has(s.undos, owner) || InUse(s, owner) then s
    else
      ExitedShape(s, Find(s.undos, owner));
      Updated(Exited(s, Find(s.undos, owner)))
  }

  lemma {:induction false} SumAdjWithout(undos: seq<Undo>, f: nat, k: nat)
    requires f < |undos| && forall i :: 0 <= i < |undos| ==> k < |undos[i].semadj|
    ensures SumAdj(Without(undos, f), k) == SumAdj(undos, k) - undos[f].semadj[k]
  {
    if f > 0 {
      SumAdjWithout(undos[1..], f - 1, k);
      assert Without(undos, f)[1..] == Without(undos[1..], f - 1);
    } else {
      assert Without(undos, f) == undos[1..];
    }
  }

  /** Giving adjustments back keeps a semaphore's total, if and only if the value is not capped. */
  lemma {:induction false} ExitedTotal(s: Set, f: nat, k: nat)
    requires Shape(s) && f < |s.undos| && !InUse(s, s.undos[f].owner) && k < |s.vals|
    ensures Shape(Exited(s, f))
    ensures Total(Exited(s, f), k) == Total(s, k) <==> 0 <= s.vals[k] + s.undos[f].semadj[k] <= SEMVMX
  {
    ExitedShape(s, f);
    SumAdjWithout(s.undos, f, k);
  }

  function Distance(a: int, b: int): nat { if a < b then b - a else a - b }

  /** Exit leaves each semaphore, of all the values it may have, with the one nearest to what the
      adjustment asks for. */
  lemma {:induction false} ExitedNearest(s: Set, f: nat, k: nat, x: int)
    requires Shape(s) && f < |s.undos| && k < |s.vals| && 0 <= x <= SEMVMX
    ensures var v := Exited(s, f).vals[k]; var y := s.vals[k] + s.undos[f].semadj[k];
      0 <= v <= SEMVMX && Distance(v, y) <= Distance(x, y)
  {
    assert 0 <= s.vals[k] <= SEMVMX;
  }

  /** Five units were released with undo and taken by somebody else: nothing is left to give back. */
  lemma CappedExample()
    ensures var s := Set([0], [Undo(1, [-5])], [], []);
      Shape(s) && Shape(Exited(s, 0)) && Total(s, 0) == -5 && Total(Exited(s, 0), 0) == 0
  {
    var s := Set([0], [Undo(1, [-5])], [], []);
    assert Adjusted([0], [-5]) == [0] && Without(s.undos, 0) == [];
  }

  datatype Event =
    | Call(w: Waiter)
    | Leave(i: nat)
    | StoreOne(k: nat, val: int)
    | StoreAll(vals: seq<int>)
    | LastExit(owner: nat)

  /** Events that can happen: a task that sleeps makes no call, and un is set as sys_semtimedop does. */
  predicate Possible(s: Set, e: Event) {
    match e
    case Call(w) => !Pending(s, w.task) && (w.un.Some? <==> Undoes(w.ops))
    case Leave(i) => i < |s.queue|
    case StoreOne(k, val) => true
    case StoreAll(vals) => |vals| == |s.vals| && forall k :: 0 <= k < |vals| ==> 0 <= vals[k]
    case LastExit(owner) => true
  }

  function Step(s: Set, e: Event): Set
    requires Shape(s) && Possible(s, e)
  {
    match e
    case Call(w) => Semop(s, w).0
    case Leave(i) => GiveUp(s, i)
    case StoreOne(k, val) => SetVal(s, k, val).0
    case StoreAll(vals) => SetAll(s, vals).0
    case LastExit(owner) => Exit(s, owner)
  }

  lemma {:induction false} StoredKeeps(s: Set, k: nat, val: int)
    requires Inv(s)
    ensures Inv(SetVal(s, k, val).0)
  {
    if k < |s.vals| && 0 <= val <= SEMVMX {
      ShapeKept(s, Stored(s, k, val));
      UpdatedKeeps(Stored(s, k, val));
    }
  }

  lemma {:induction false} AllStoredKeeps(s: Set, vals: seq<int>)
    requires Inv(s) && Possible(s, StoreAll(vals))
    ensures Inv(SetAll(s, vals).0)
  {
    if forall k :: 0 <= k < |vals| ==> vals[k] <= SEMVMX {
      var t := s.(vals := vals, undos := AllZero(|vals|, s.undos));
      ShapeKept(s, t);
      UpdatedKeeps(t);
    }
  }

  lemma {:induction false} ExitKeeps(s: Set, owner: nat)
    requires Inv(s)
    ensures Inv(Exit(s, owner))
  {
    if Has(s.undos, owner) && !InUse(s, owner) {
      ExitedShape(s, Find(s.undos, owner));
      UpdatedKeeps(Exited(s, Find(s.undos, owner)));
    }
  }

  lemma {:induction false} StepKeeps(s: Set, e: Event)
    requires Inv(s) && Possible(s, e)
    ensures Inv(Step(s, e))
  {
    match e
    case Call(w) => SemopKeeps(s, w);
    case Leave(i) => GiveUpKeeps(s, i);
    case StoreOne(k, val) => StoredKeeps(s, k, val);
    case StoreAll(vals) => AllStoredKeeps(s, vals);
    case LastExit(owner) => ExitKeeps(s, owner);
  }

  /** run is a run of the set: each state follows from the one before by a possible event. */
  ghost predicate Run(run: seq<Set>) {
    forall i :: 0 < i < |run| ==> Moves(run, i)
  }

  ghost predicate Moves(run: seq<Set>, i: nat)
    requires 0 < i < |run|
  {
    Follows(run[i - 1], run[i])
  }

  ghost predicate Follows(s: Set, t: Set) {
    Shape(s) && exists e :: Possible(s, e) && t == Step(s, e)
  }

  /** A new set has no undo structure and no sleeper. */
  predicate Fresh(s: Set) {
    (forall k :: 0 <= k < |s.vals| ==> s.vals[k] == 0) && s.undos == [] && s.queue == []
  }

  lemma {:induction false} FollowsKeeps(s: Set, t: Set)
    requires Inv(s) && Follows(s, t)
    ensures Inv(t)
  {
    var e :| Possible(s, e) && t == Step(s, e);
    StepKeeps(s, e);
  }

  /** In every state of every run from a new set each pending vector would still block. */
  lemma {:induction false} RunsStayQuiet(run: seq<Set>, n: nat)
    requires Run(run) && n < |run| && Fresh(run[0])
    ensures Inv(run[n])
  {
    for k := 0 to n
      invariant Inv(run[k])
    {
      assert Moves(run, k + 1);
      FollowsKeeps(run[k], run[k + 1]);
    }
  }

  // ----- The order of sleepers -----

  lemma {:induction false} UpdatedOrder(s: Set, u: Waiter, v: Waiter)
    requires Shape(s) && OneEach(s.queue) && (v in s.queue ==> Before(s.queue, u, v))
    requires u in Updated(s).queue && v in Updated(s).queue
    ensures Before(Updated(s).queue, u, v)
  {
    var at := ScanPicks(s, 0);
    ScanSub(s, 0);
    PicksBefore(Updated(s).queue, s.queue, at, u, v);
  }

  lemma {:induction false} SemopOrder(s: Set, w: Waiter, u: Waiter, v: Waiter)
    requires Inv(s) && Possible(s, Call(w)) && u in s.queue && v.Alter() && (v in s.queue ==> Before(s.queue, u, v))
    requires u in Semop(s, w).0.queue && v in Semop(s, w).0.queue
    ensures Before(Semop(s, w).0.queue, u, v)
  {
    if w.ops != [] && InRange(|s.vals|, w.ops) {
      var x := if w.un.Some? then WithUndo(s, w.un.value) else s;
      WithUndoKeeps(s, w.un);
      AttemptShape(x, w);
      var (t, r) := Attempt(x, w);
      if r > 0 && w.Alter() && v !in s.queue {
        BeforeNew(s.queue, u, v);
      } else if r > 0 && w.Alter() {
        BeforeAppend(s.queue, u, v, [w]);
      } else if r > 0 {
        assert v in s.queue;
        BeforePrepend(s.queue, u, v, w);
      } else if w.Alter() && r == 0 {
        UpdatedOrder(t, u, v);
      }
    }
  }

  lemma {:induction false} WithoutOrder(q: seq<Waiter>, i: nat, u: Waiter, v: Waiter)
    requires i < |q| && OneEach(q) && (v in q ==> Before(q, u, v)) && u in Without(q, i) && v in Without(q, i)
    ensures Before(Without(q, i), u, v)
  {
    var at := PicksAll(Without(q, i));
    at := PicksBehind(Without(q, i), q, i, at);
    PicksBefore(Without(q, i), q, at, u, v);
  }

  lemma {:induction false} StoreAllOrder(s: Set, vals: seq<int>, u: Waiter, v: Waiter)
    requires Inv(s) && Possible(s, StoreAll(vals)) && (v in s.queue ==> Before(s.queue, u, v))
    requires u in SetAll(s, vals).0.queue && v in SetAll(s, vals).0.queue
    ensures Before(SetAll(s, vals).0.queue, u, v)
  {
    if forall k :: 0 <= k < |vals| ==> vals[k] <= SEMVMX {
      var t := s.(vals := vals, undos := AllZero(|vals|, s.undos));
      ShapeKept(s, t);
      UpdatedOrder(t, u, v);
    }
  }

  lemma {:induction false} StoreOneOrder(s: Set, k: nat, val: int, u: Waiter, v: Waiter)
    requires Inv(s) && (v in s.queue ==> Before(s.queue, u, v))
    requires u in SetVal(s, k, val).0.queue && v in SetVal(s, k, val).0.queue
    ensures Before(SetVal(s, k, val).0.queue, u, v)
  {
    if k < |s.vals| && 0 <= val <= SEMVMX {
      ShapeKept(s, Stored(s, k, val));
      UpdatedOrder(Stored(s, k, val), u, v);
    }
  }

  lemma {:induction false} ExitOrder(s: Set, owner: nat, u: Waiter, v: Waiter)
    requires Inv(s) && (v in s.queue ==> Before(s.queue, u, v))
    requires u in Exit(s, owner).queue && v in Exit(s, owner).queue
    ensures Before(Exit(s, owner).queue, u, v)
  {
    if Has(s.undos, owner) && !InUse(s, owner) {
      ExitedShape(s, Find(s.undos, owner));
      UpdatedOrder(Exited(s, Find(s.undos, owner)), u, v);
    }
  }

  lemma {:induction false} StepOrder(s: Set, e: Event, u: Waiter, v: Waiter)
    requires Inv(s) && Possible(s, e) && u in s.queue && v.Alter() && (v in s.queue ==> Before(s.queue, u, v))
    requires u in Step(s, e).queue && v in Step(s, e).queue
    ensures Before(Step(s, e).queue, u, v)
  {
    match e
    case Call(w) => SemopOrder(s, w, u, v);
    case Leave(i) => WithoutOrder(s.queue, i, u, v);
    case StoreOne(k, val) => StoreOneOrder(s, k, val, u, v);
    case StoreAll(vals) => StoreAllOrder(s, vals, u, v);
    case LastExit(owner) => ExitOrder(s, owner, u, v);
  }

  /** A step does not bring v in front of u. */
  predicate NotPassed(q: seq<Waiter>, p: seq<Waiter>, u: Waiter, v: Waiter) {
    u in q && (v in q ==> Before(q, u, v)) && u in p && v in p ==> Before(p, u, v)
  }

  lemma {:induction false} FollowsOrder(s: Set, t: Set, u: Waiter, v: Waiter)
    requires Inv(s) && Follows(s, t) && v.Alter()
    ensures Inv(t) && NotPassed(s.queue, t.queue, u, v)
  {
    var e :| Possible(s, e) && t == Step(s, e);
    StepKeeps(s, e);
    if u in s.queue && (v in s.queue ==> Before(s.queue, u, v)) && u in t.queue && v in t.queue {
      StepOrder(s, e, u, v);
    }
  }

  lemma {:induction false} MovesOrder(run: seq<Set>, k: nat, u: Waiter, v: Waiter)
    requires Run(run) && k + 1 < |run| && Inv(run[k]) && v.Alter()
    ensures Inv(run[k + 1]) && NotPassed(run[k].queue, run[k + 1].queue, u, v)
  {
    assert Moves(run, k + 1);
    FollowsOrder(run[k], run[k + 1], u, v);
  }

  /** Sleepers that alter values are queued in the order of their calls: of two that sleep, the one
      that was pending when the other was not yet stands in front, in every state of every run. */
  lemma {:induction false} NoOvertaking(run: seq<Set>, u: Waiter, v: Waiter, m: nat, n: nat)
    requires Run(run) && m <= n < |run| && Fresh(run[0]) && v.Alter()
    requires v !in run[m].queue && v in run[n].queue && forall k :: m <= k <= n ==> u in run[k].queue
    ensures Before(run[n].queue, u, v)
  {
    for k := 0 to n
      invariant Inv(run[k])
      invariant m <= k && v in run[k].queue ==> Before(run[k].queue, u, v)
    {
      MovesOrder(run, k, u, v);
    }
  }

  // ----- What a call returns -----

  /** A call's result in terms of the values it finds: 0 exactly when every operation is feasible in
      turn, and otherwise what the first one that is not makes of it. A call that sleeps is queued,
      and one that fails queues nothing and changes no value. */
  lemma {:induction false} SemopOutcome(s: Set, w: Waiter)
    requires Shape(s) && (w.un.Some? <==> Undoes(w.ops))
    ensures var (t, r) := Semop(s, w); var adj := AdjOf(s, w.un);
      && (w.ops == [] ==> r == -EINVAL)
      && (w.ops != [] && !InRange(|s.vals|, w.ops) ==> r == -EFBIG)
      && (w.ops != [] && InRange(|s.vals|, w.ops) ==> r == Try(s.vals, adj, w.ops))
      && (r > 0 ==> w in t.queue) && (r != 0 ==> t.vals == s.vals) && (r < 0 ==> t.queue == s.queue)
  {
  }

  // ----- What storing a value does -----

  lemma {:induction false} ZeroedSum(undos: seq<Undo>, k: nat, i: nat)
    requires forall j :: 0 <= j < |undos| ==> k < |undos[j].semadj| && i < |undos[j].semadj|
    ensures SumAdj(Zeroed(undos, k), i) == if i == k then 0 else SumAdj(undos, i)
  {
    if undos != [] {
      ZeroedSum(undos[1..], k, i);
    }
  }

  lemma {:induction false} AllZeroSum(n: nat, undos: seq<Undo>, i: nat)
    requires i < n
    ensures SumAdj(AllZero(n, undos), i) == 0
  {
    if undos != [] {
      AllZeroSum(n, undos[1..], i);
    }
  }

  /** SETALL leaves nothing to give back on any semaphore: before anybody is woken, each total is the
      value stored. */
  lemma {:induction false} AllStoredTotal(s: Set, vals: seq<int>, i: nat)
    requires Shape(s) && |vals| == |s.vals| && Sound(vals) && i < |vals|
    ensures var t := s.(vals := vals, undos := AllZero(|vals|, s.undos));
      Shape(t) && Total(t, i) == vals[i] && SetAll(s, vals) == (Updated(t), 0)
  {
    ShapeKept(s, s.(vals := vals, undos := AllZero(|vals|, s.undos)));
    AllZeroSum(|vals|, s.undos, i);
  }

  /** After SETVAL has stored its value, and before anybody is woken, nothing is left to give back on
      that semaphore, and no other total moved. */
  lemma {:induction false} StoredTotal(s: Set, k: nat, val: int, i: nat)
    requires Shape(s) && k < |s.vals| && i < |s.vals| && 0 <= val <= SEMVMX
    ensures Shape(Stored(s, k, val)) && Total(Stored(s, k, val), i) == if i == k then val else Total(s, i)
  {
    ShapeKept(s, Stored(s, k, val));
    ZeroedSum(s.undos, k, i);
  }

  // ----- Conservation over a call -----

  predicate AllOneUndo(q: seq<Waiter>) { forall i :: 0 <= i < |q| ==> OneUndoEach(q[i].ops) }

  lemma {:induction false} ServedMember(log: seq<(Waiter, int)>, i: nat)
    requires i < |log|
    ensures log[i].0 in Served(log)
  {
    if i > 0 {
      ServedMember(log[1..], i - 1);
    }
  }

  /** update_queue moves every total by what the vectors it completed did without SEM_UNDO. */
  lemma {:induction false} UpdatedTotal(s: Set, k: nat) returns (log: seq<(Waiter, int)>)
    requires Shape(s) && k < |s.vals| && AllOneUndo(s.queue)
    ensures Shape(Updated(s)) && |Updated(s).vals| == |s.vals| && Updated(s).woken == s.woken + log
    ensures Total(Updated(s), k) == Total(s, k) + PlainSum(log, k)
  {
    log := ScanReplays(s, 0);
    ScanQuiets(s, 0);
    ScanSub(s, 0);
    forall i | 0 <= i < |log| ensures OneUndoEach(log[i].0.ops) {
      ServedMember(log, i);
      assert log[i].0 in multiset(s.queue);
    }
    ReplayTotal(s, log, Updated(s), k);
  }

  lemma {:induction false} WithUndoTotal(s: Set, owner: nat, k: nat)
    requires Shape(s) && k < |s.vals|
    ensures Shape(WithUndo(s, owner)) && Total(WithUndo(s, owner), k) == Total(s, k)
  {
  }

  lemma {:induction false} CompletedTotal(u: Set, w: Waiter, k: nat) returns (log: seq<(Waiter, int)>)
    requires Shape(u) && WellFormed(u, w) && k < |u.vals| && Attempt(u, w).1 == 0
    requires AllOneUndo(u.queue) && OneUndoEach(w.ops)
    ensures Shape(Attempt(u, w).0) &&
      var t := if w.Alter() then Updated(Attempt(u, w).0) else Attempt(u, w).0;
      && Shape(t) && |t.vals| == |u.vals| && t.woken == u.woken + log
      && Total(t, k) == Total(u, k) + Sum(w.ops, 0, k, false) + PlainSum(log, k)
  {
    log := [];
    AttemptShape(u, w);
    OneUndoFits(u.vals, AdjOf(u, w.un), w.ops, k);
    AttemptTotal(u, w, k);
    if w.Alter() {
      log := UpdatedTotal(Attempt(u, w).0, k);
    }
  }

  /** A whole semop call: the total moves by the caller's own vector, if it completed, and by the
      vectors completed on its behalf, counting only operations without SEM_UNDO. */
  lemma {:induction false} SemopTotal(s: Set, w: Waiter, k: nat) returns (log: seq<(Waiter, int)>)
    requires Inv(s) && (w.un.Some? <==> Undoes(w.ops)) && !Pending(s, w.task) && k < |s.vals|
    requires AllOneUndo(s.queue) && OneUndoEach(w.ops)
    ensures var (t, r) := Semop(s, w);
      && Shape(t) && |t.vals| == |s.vals| && t.woken == s.woken + log
      && Total(t, k) == Total(s, k) + (if r == 0 then Sum(w.ops, 0, k, false) else 0) + PlainSum(log, k)
  {
    log := [];
    SemopKeeps(s, w);
    if w.ops != [] {
      var u := if w.un.Some? then WithUndo(s, w.un.value) else s;
      WithUndoShape(s, w.un);
      if w.un.Some? {
        WithUndoTotal(s, w.un.value, k);
      }
      if InRange(|s.vals|, w.ops) && Attempt(u, w).1 == 0 {
        log := CompletedTotal(u, w, k);
      }
    }
  }

  // ----- The counts -----

  /** Whether count_semncnt (zero false) or count_semzcnt (zero true) counts the operation. */
  predicate Counts(op: Op, num: nat, zero: bool) {
    op.num == num && (if zero then op.op == 0 else op.op < 0) && !op.nowait
  }

  function CountOps(ops: seq<Op>, n: nat, num: nat, zero: bool): nat
    requires n <= |ops|
  {
    if n == 0 then 0 else CountOps(ops, n - 1, num, zero) + if Counts(ops[n - 1], num, zero) then 1 else 0
  }

  function CountQueue(q: seq<Waiter>, n: nat, num: nat, zero: bool): nat
    requires n <= |q|
  {
    if n == 0 then 0 else CountQueue(q, n - 1, num, zero) + CountOps(q[n - 1].ops, |q[n - 1].ops|, num, zero)
  }

  /** The nested loops of count_semncnt and count_semzcnt. */
  method CountPending(q: seq<Waiter>, num: nat, zero: bool) returns (n: nat)
    ensures n == CountQueue(q, |q|, num, zero)
  {
    n := 0;
    for i := 0 to |q|
      invariant n == CountQueue(q, i, num, zero)
    {
      var ops := q[i].ops;
      for j := 0 to |ops|
        invariant n == CountQueue(q, i, num, zero) + CountOps(ops, j, num, zero)
      {
        if Counts(ops[j], num, zero) {
          n := n + 1;
        }
      }
    }
  }

  lemma {:induction false} CountOpsPositive(ops: seq<Op>, n: nat, j: nat, num: nat, zero: bool)
    requires j < n <= |ops| && Counts(ops[j], num, zero)
    ensures CountOps(ops, n, num, zero) > 0
  {
    if j < n - 1 {
      CountOpsPositive(ops, n - 1, j, num, zero);
    }
  }

  lemma {:induction false} CountQueuePositive(q: seq<Waiter>, n: nat, i: nat, num: nat, zero: bool)
    requires i < n <= |q| && CountOps(q[i].ops, |q[i].ops|, num, zero) > 0
    ensures CountQueue(q, n, num, zero) > 0
  {
    if i < n - 1 {
      CountQueuePositive(q, n - 1, i, num, zero);
    }
  }

  /** The promise about the counts: every pending task is counted somewhere. */
  lemma {:induction false} PendingIsCounted(s: Set, i: nat) returns (num: nat)
    requires Inv(s) && i < |s.queue|
    ensures num < |s.vals|
    ensures CountQueue(s.queue, |s.queue|, num, false) + CountQueue(s.queue, |s.queue|, num, true) > 0
  {
    var w := s.queue[i];
    assert Blocked(s, w);
    var adj := AdjOf(s, w.un);
    var j := Stuck(s.vals, adj, w.ops, 0);
    AppliedSound(s.vals, adj, w.ops, j);
    var op := w.ops[j];
    num := op.num;
    var zero := op.op == 0;
    assert Counts(op, num, zero);
    CountOpsPositive(w.ops, |w.ops|, j, num, zero);
    CountQueuePositive(s.queue, |s.queue|, i, num, zero);
  }

  // ----- The code -----

  class SemArray {
    const semval: array<int>
    var undos: seq<Undo>
    var pending: seq<Waiter>
    var woken: seq<(Waiter, int)>

    constructor (nsems: nat)
      ensures fresh(semval) && semval.Length == nsems && Fresh(View()) && Inv(View())
    {
      semval := new int[nsems](_ => 0);
      undos, pending, woken := [], [], [];
    }

    function View(): Set
      reads this, semval
    {
      Set(semval[..], undos, pending, woken)
    }

    /** try_atomic_semop: the forward loop. */
    method Forward(w: Waiter, adj: seq<int>) returns (sop: nat)
      requires InRange(semval.Length, w.ops) && |adj| == semval.Length
      modifies semval
      ensures sop == Stuck(old(semval[..]), adj, w.ops, 0)
      ensures semval[..] == Applied(old(semval[..]), w.ops, sop)
    {
      sop := 0;
      ghost var v := semval[..];
      while sop < |w.ops|
        invariant sop <= |w.ops| && semval[..] == Applied(v, w.ops, sop)
        invariant Stuck(v, adj, w.ops, 0) == Stuck(v, adj, w.ops, sop)
      {
        var op := w.ops[sop];
        var result := semval[op.num];
        if op.op == 0 && result != 0 {
          return;
        }
        result := result + op.op;
        if result < 0 || result > SEMVMX {
          return;
        }
        if op.undo {
          var undo := adj[op.num] - op.op;
          if undo < -SEMAEM - 1 || undo > SEMAEM {
            return;
          }
        }
        assert Passes(v, adj, w.ops, sop);
        semval[op.num] := result;
        sop := sop + 1;
      }
    }

    /** The loop behind the label undo: subtract what was added, last operation first. */
    method Rollback(w: Waiter, count: nat, ghost v: seq<int>)
      requires InRange(semval.Length, w.ops) && count <= |w.ops| && |v| == semval.Length
      requires semval[..] == Applied(v, w.ops, count)
      modifies semval
      ensures semval[..] == v
    {
      var sop := count;
      while sop > 0
        invariant 0 <= sop <= count && semval[..] == Applied(v, w.ops, sop)
      {
        sop := sop - 1;
        var op := w.ops[sop];
        assert Applied(v, w.ops, sop + 1)[op.num := Applied(v, w.ops, sop)[op.num]] == Applied(v, w.ops, sop);
        semval[op.num] := semval[op.num] - op.op;
      }
    }

    /** The loop that records the adjustments, last operation first. */
    method Record(w: Waiter, f: nat)
      requires f < |undos| && |undos[f].semadj| == semval.Length && InRange(semval.Length, w.ops)
      modifies this`undos
      ensures undos == old(undos)[f := Undo(old(undos)[f].owner, Recorded(old(undos)[f].semadj, w.ops, 0))]
    {
      ghost var adj := undos[f].semadj;
      var sop := |w.ops|;
      while sop > 0
        invariant 0 <= sop <= |w.ops|
        invariant undos == old(undos)[f := Undo(old(undos)[f].owner, Recorded(adj, w.ops, sop))]
      {
        sop := sop - 1;
        var op := w.ops[sop];
        if op.undo {
          var u := undos[f];
          undos := undos[f := u.(semadj := u.semadj[op.num := Short(u.semadj[op.num] - op.op)])];
        }
      }
    }

    method TryAtomic(w: Waiter) returns (result: int)
      requires Shape(View()) && WellFormed(View(), w)
      modifies semval, this`undos
      ensures (View(), result) == Attempt(old(View()), w)
    {
      ghost var s := View();
      ghost var v := semval[..];
      var adj := AdjOf(View(), w.un);
      var sop := Forward(w, adj);
      if sop == |w.ops| {
        if w.un.Some? {
          Record(w, Find(undos, w.un.value));
        }
        return 0;
      }
      result := Refusal(semval[..], adj, w.ops[sop]);
      Rollback(w, sop, v);
    }

    /** update_queue: restart at the head only after a vector that alters values. */
    method UpdateQueue()
      requires Shape(View())
      modifies this, semval
      ensures View() == Updated(old(View()))
    {
      var pos := 0;
      while pos < |pending|
        invariant pos <= |pending| && Shape(View())
        invariant Scan(View(), pos) == Updated(old(View()))
        decreases |pending|, |pending| - pos
      {
        var w := pending[pos];
        ghost var s := View();
        AttemptShape(s, w);
        var error := TryAtomic(w);
        if error <= 0 {
          ghost var t := View();
          DequeuedShape(t, pos, error);
          pending, woken := Without(pending, pos), woken + [(w, error)];
          assert View() == Dequeued(t, pos, error);
          pos := if w.Alter() then 0 else pos;
        } else {
          pos := pos + 1;
        }
      }
    }

    /** sys_semtimedop up to the point where it returns or sleeps. */
    method SemTimedOp(w: Waiter) returns (result: int)
      requires Inv(View()) && (w.un.Some? <==> Undoes(w.ops)) && !Pending(View(), w.task)
      modifies this, semval
      ensures (View(), result) == Semop(old(View()), w) && Inv(View())
    {
      SemopKeeps(View(), w);
      if w.ops == [] {
        return -EINVAL;
      }
      WithUndoShape(View(), w.un);
      if w.un.Some? && !Has(undos, w.un.value) {
        undos := [Undo(w.un.value, seq(semval.Length, _ => 0))] + undos;
      }
      if !InRange(semval.Length, w.ops) {
        return -EFBIG;
      }
      AttemptShape(View(), w);
      result := TryAtomic(w);
      if result > 0 {
        pending := if w.Alter() then pending + [w] else [w] + pending;
      } else if w.Alter() && result == 0 {
        UpdateQueue();
      }
    }

    /** SETVAL: the loop over the undo list. */
    method ZeroAdjustments(k: nat)
      requires UndoShape(semval.Length, undos) && k < semval.Length
      modifies this`undos
      ensures undos == Zeroed(old(undos), k)
    {
      ghost var was := undos;
      var i := 0;
      while i < |undos|
        invariant i <= |undos| == |was|
        invariant forall j :: 0 <= j < i ==> undos[j] == Zeroed(was, k)[j]
        invariant forall j :: i <= j < |was| ==> undos[j] == was[j]
      {
        undos := undos[i := undos[i].(semadj := undos[i].semadj[k := 0])];
        i := i + 1;
      }
    }

    method StoreValue(k: nat, val: int) returns (result: int)
      requires Inv(View())
      modifies this, semval
      ensures (View(), result) == SetVal(old(View()), k, val) && Inv(View())
    {
      StepKeeps(View(), StoreOne(k, val));
      if k >= semval.Length {
        return -EINVAL;
      }
      if val > SEMVMX || val < 0 {
        return -ERANGE;
      }
      ghost var s := View();
      ShapeKept(s, Stored(s, k, val));
      PutValue(k, val);
      UpdateQueue();
      return 0;
    }

    method PutValue(k: nat, val: int)
      requires Shape(View()) && k < semval.Length
      modifies this`undos, semval
      ensures View() == Stored(old(View()), k, val)
    {
      ZeroAdjustments(k);
      semval[k] := val;
    }

    /** exit_sem: the loop over the adjustments of one undo structure. */
    method GiveBack(adj: seq<int>)
      requires |adj| == semval.Length
      modifies semval
      ensures semval[..] == Adjusted(old(semval[..]), adj)
    {
      ghost var v := semval[..];
      var i := 0;
      while i < semval.Length
        invariant i <= semval.Length
        invariant forall k :: 0 <= k < i ==> semval[k] == GivenBack(v[k], adj[k])
        invariant forall k :: i <= k < semval.Length ==> semval[k] == v[k]
      {
        if adj[i] != 0 {
          var val := semval[i] + adj[i];
          if val < 0 {
            val := 0;
          }
          if val > SEMVMX {
            val := SEMVMX;
          }
          semval[i] := val;
        }
        i := i + 1;
      }
    }

    method ExitSem(owner: nat)
      requires Inv(View())
      modifies this, semval
      ensures View() == Exit(old(View()), owner) && Inv(View())
    {
      StepKeeps(View(), LastExit(owner));
      if !Has(undos, owner) || InUse(View(), owner) {
        return;
      }
      ghost var s := View();
      var f := Find(undos, owner);
      ExitedShape(s, f);
      GiveBack(undos[f].semadj);
      undos := Without(undos, f);
      assert View() == Exited(s, f);
      UpdateQueue();
    }
  }
}
