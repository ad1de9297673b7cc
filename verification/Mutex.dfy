/**
 * The mutex: a counter (1 free, 0 held, negative held with waiters), a FIFO of waiters and a
 * spinlock around the slow paths.  Tasks take turns at the granularity of one atomic operation on
 * the counter or one section under the spinlock that does not touch the counter.
 */
module Mutex {
  import opened Lists
  import opened Arrival

  /** Where a task stands.  intr tells mutex_lock_interruptible from mutex_lock. */
  datatype Pc =
    | Idle
    | Missed(intr: bool)      // the fast path failed, on the way to the slow path
    | Queued(intr: bool)      // in the list with the spinlock held, before the exchange
    | Won                     // the exchange returned 1
    | Lost(intr: bool)        // the exchange did not
    | Asleep(intr: bool)
    | Woken(intr: bool)       // runnable again, on the way back to the spinlock
    | Owner
    | Releasing               // the unlock fast path failed
    | Clearing                // spinlock held, before the count is set
    | Waking                  // before the first waiter is woken
    | Trying                  // slow trylock, spinlock held
    | Tried(won: bool)        // after its exchange
    | Restoring(prev: int)    // the exchange-based trylock took a negative count away

  /** needs is __mutex_slowpath_needs_to_unlock: true for the decrement, arm and debugging fast
      paths, false for the exchange-based one. */
  datatype State = State(needs: bool, count: int, wait: Option<nat>, list: seq<nat>, pcs: seq<Pc>)

  // ----- What the fast paths may do -----

  /** A failed lock: decrement (stored or not), or exchange with 0. */
  predicate LockMiss(needs: bool, c: int, c': int) {
    if needs then c' == c || (c <= 0 && c' == c - 1) else c <= 0 && c' == 0
  }

  /** A failed unlock: increment (stored or not), or exchange with 1. */
  predicate UnlockMiss(needs: bool, c: int, c': int) {
    if needs then c <= 0 && (c' == c || (c < 0 && c' == c + 1)) else c < 0 && c' == 1
  }

  // ----- Steps -----

  datatype Action =
    | Lock(intr: bool, c': int)
    | Enter
    | Exchange
    | Take
    | Interrupt
    | Sleep
    | Signal
    | Relock
    | Unlock(c': int)
    | EnterRelease
    | Clear
    | Wake
    | TryCas
    | TryEnter
    | TryExchange
    | TryLeave
    | TrySwap
    | Restore

  predicate Free(s: State) { s.wait == None }

  predicate Can(s: State, i: nat, a: Action)
    requires i < |s.pcs|
  {
    var pc := s.pcs[i];
    match a
    case Lock(intr, c') => pc == Idle && ((s.count == 1 && c' == 0) || LockMiss(s.needs, s.count, c'))
    case Enter => pc.Missed? && Free(s)
    case Exchange => pc.Queued?
    case Take => pc == Won
    case Interrupt => pc == Lost(true)
    case Sleep => pc.Lost?
    case Signal => pc == Asleep(true)
    case Relock => pc.Woken? && Free(s)
    case Unlock(c') => pc == Owner && ((s.count == 0 && c' == 1) || UnlockMiss(s.needs, s.count, c'))
    case EnterRelease => pc == Releasing && Free(s)
    case Clear => pc == Clearing
    case Wake => pc == Waking
    case TryCas => pc == Idle && s.needs
    case TryEnter => pc == Idle && s.needs && Free(s)
    case TryExchange => pc == Trying
    case TryLeave => pc.Tried?
    case TrySwap => pc == Idle && !s.needs
    case Restore => pc.Restoring?
  }

  function Move(s: State, i: nat, pc: Pc): State
    requires i < |s.pcs|
  {
    s.(pcs := s.pcs[i := pc])
  }

  function Do(s: State, i: nat, a: Action): State
    requires i < |s.pcs| && Can(s, i, a)
  {
    var pc := s.pcs[i];
    match a
    case Lock(intr, c') =>
      Move(s, i, if s.count == 1 && c' == 0 then Owner else Missed(intr)).(count := c')
    case Enter => Move(s, i, Queued(pc.intr)).(wait := Some(i), list := s.list + [i])
    case Exchange => Move(s, i, if s.count == 1 then Won else Lost(pc.intr)).(count := -1)
    case Take =>
      var l := Remove(s.list, i);
      Move(s, i, Owner).(wait := None, list := l, count := if l == [] then 0 else s.count)
    case Interrupt => Move(s, i, Idle).(wait := None, list := Remove(s.list, i))
    case Sleep => Move(s, i, Asleep(pc.intr)).(wait := None)
    case Signal => Move(s, i, Woken(true))
    case Relock => Move(s, i, Queued(pc.intr)).(wait := Some(i))
    case Unlock(c') => Move(s, i, if s.count == 0 && c' == 1 then Idle else Releasing).(count := c')
    case EnterRelease => Move(s, i, Clearing).(wait := Some(i))
    case Clear => Move(s, i, Waking).(count := if s.needs then 1 else s.count)
    case Wake => Awaken(Move(s, i, Idle).(wait := None))
    case TryCas => if s.count == 1 then Move(s, i, Owner).(count := 0) else s
    case TryEnter => Move(s, i, Trying).(wait := Some(i))
    case TryExchange => Move(s, i, Tried(s.count == 1)).(count := -1)
    case TryLeave =>
      Move(s, i, if pc.won then Owner else Idle).(wait := None, count := if s.list == [] then 0 else s.count)
    case TrySwap =>
      Move(s, i, if s.count == 1 then Owner else if s.count < 0 then Restoring(s.count) else Idle).(count := 0)
    case Restore => Move(s, i, if s.count == 1 then Owner else Idle).(count := pc.prev)
  }

  /** wake_up_process on the first waiter. */
  function Awaken(s: State): State {
    if s.list != [] && s.list[0] < |s.pcs| && s.pcs[s.list[0]].Asleep?
    then Move(s, s.list[0], Woken(s.pcs[s.list[0]].intr))
    else s
  }

  // ----- The invariant -----

  predicate HasSpinlock(pc: Pc) {
    pc.Queued? || pc.Won? || pc.Lost? || pc.Clearing? || pc.Waking? || pc.Trying? || pc.Tried?
  }

  predicate InList(pc: Pc) { pc.Queued? || pc.Won? || pc.Lost? || pc.Asleep? || pc.Woken? }

  /** The mutex belongs to this task. */
  predicate Holds(needs: bool, pc: Pc) {
    pc.Owner? || pc.Won? || pc == Tried(true) || (needs && (pc.Releasing? || pc.Clearing?))
  }

  /** The task has not yet begun to release. */
  predicate Keeps(pc: Pc) { pc.Owner? || pc.Won? || pc == Tried(true) }

  /** The task will by itself get to the counter again, or wake the first waiter. */
  predicate Flying(pc: Pc) {
    pc.Missed? || pc.Queued? || pc.Woken? || pc.Restoring? || pc.Releasing? || pc.Clearing? || pc.Waking?
  }

  predicate Locking(s: State) {
    && (s.wait.Some? ==> s.wait.value < |s.pcs|)
    && forall i :: 0 <= i < |s.pcs| ==> (HasSpinlock(s.pcs[i]) <==> s.wait == Some(i))
  }

  predicate Listing(s: State) {
    && NoDup(s.list)
    && (forall x :: x in s.list ==> x < |s.pcs|)
    && (forall i :: 0 <= i < |s.pcs| ==> (i in s.list <==> InList(s.pcs[i])))
  }

  predicate OneHolder(needs: bool, pcs: seq<Pc>) {
    forall i, j :: 0 <= i < j < |pcs| ==> !(Holds(needs, pcs[i]) && Holds(needs, pcs[j]))
  }

  predicate Held(needs: bool, pcs: seq<Pc>) { exists i :: 0 <= i < |pcs| && Holds(needs, pcs[i]) }
  predicate Kept(pcs: seq<Pc>) { exists i :: 0 <= i < |pcs| && Keeps(pcs[i]) }
  predicate InFlight(pcs: seq<Pc>) { exists i :: 0 <= i < |pcs| && Flying(pcs[i]) }

  /** Which steps belong to which fast path, and what a failed slow trylock may still see. */
  predicate Trylocks(s: State) {
    forall i :: 0 <= i < |s.pcs| ==>
      && (s.pcs[i].Restoring? ==> !s.needs && s.pcs[i].prev < 0)
      && (s.pcs[i].Trying? || s.pcs[i].Tried? ==> s.needs)
      && (s.pcs[i] == Tried(false) ==> s.count < if Kept(s.pcs) then 0 else 1)
  }

  /** Waiters have a live task that comes for them, or a holder whose unlock takes the slow path. */
  predicate Attended(s: State) { s.list != [] ==> InFlight(s.pcs) || (s.count < 0 && Kept(s.pcs)) }

  /** Everything but Attended. */
  predicate Orderly(s: State) {
    && s.count <= 1
    && Locking(s) && Listing(s) && Trylocks(s)
    && OneHolder(s.needs, s.pcs) && (s.count == 1 <==> !Held(s.needs, s.pcs))
  }

  predicate Inv(s: State) { Orderly(s) && Attended(s) }

  // The same, leaving task i out.
  predicate HeldElse(needs: bool, pcs: seq<Pc>, i: nat) {
    exists j :: 0 <= j < |pcs| && j != i && Holds(needs, pcs[j])
  }
  predicate KeptElse(pcs: seq<Pc>, i: nat) { exists j :: 0 <= j < |pcs| && j != i && Keeps(pcs[j]) }
  predicate FlightElse(pcs: seq<Pc>, i: nat) { exists j :: 0 <= j < |pcs| && j != i && Flying(pcs[j]) }

  lemma Split(needs: bool, pcs: seq<Pc>, i: nat)
    requires i < |pcs|
    ensures Held(needs, pcs) <==> Holds(needs, pcs[i]) || HeldElse(needs, pcs, i)
    ensures Kept(pcs) <==> Keeps(pcs[i]) || KeptElse(pcs, i)
    ensures InFlight(pcs) <==> Flying(pcs[i]) || FlightElse(pcs, i)
    ensures KeptElse(pcs, i) ==> HeldElse(needs, pcs, i)
  {
  }

  lemma Moved(needs: bool, pcs: seq<Pc>, i: nat, pc: Pc)
    requires i < |pcs|
    ensures HeldElse(needs, pcs[i := pc], i) <==> HeldElse(needs, pcs, i)
    ensures KeptElse(pcs[i := pc], i) <==> KeptElse(pcs, i)
    ensures FlightElse(pcs[i := pc], i) <==> FlightElse(pcs, i)
  {
    var q := pcs[i := pc];
    assert forall j :: 0 <= j < |pcs| && j != i ==> q[j] == pcs[j];
    if HeldElse(needs, pcs, i) {
      var j :| 0 <= j < |pcs| && j != i && Holds(needs, pcs[j]);
      assert Holds(needs, q[j]);
    }
    if KeptElse(pcs, i) {
      var j :| 0 <= j < |pcs| && j != i && Keeps(pcs[j]);
      assert Keeps(q[j]);
    }
    if FlightElse(pcs, i) {
      var j :| 0 <= j < |pcs| && j != i && Flying(pcs[j]);
      assert Flying(q[j]);
    }
  }

  /** The whole effect of one task's move on who holds, keeps and flies. */
  lemma Around(needs: bool, pcs: seq<Pc>, i: nat, pc: Pc)
    requires i < |pcs|
    ensures var q := pcs[i := pc];
      && (Held(needs, pcs) <==> Holds(needs, pcs[i]) || HeldElse(needs, pcs, i))
      && (Kept(pcs) <==> Keeps(pcs[i]) || KeptElse(pcs, i))
      && (InFlight(pcs) <==> Flying(pcs[i]) || FlightElse(pcs, i))
      && (KeptElse(pcs, i) ==> HeldElse(needs, pcs, i))
      && (Held(needs, q) <==> Holds(needs, pc) || HeldElse(needs, pcs, i))
      && (Kept(q) <==> Keeps(pc) || KeptElse(pcs, i))
      && (InFlight(q) <==> Flying(pc) || FlightElse(pcs, i))
  {
    Split(needs, pcs, i);
    Split(needs, pcs[i := pc], i);
    Moved(needs, pcs, i, pc);
  }

  /** Where task i stands after its step. */
  function After(s: State, i: nat, a: Action): Pc
    requires i < |s.pcs| && Can(s, i, a)
  {
    if a.Wake? then Idle else Do(s, i, a).pcs[i]
  }

  lemma Shape(s: State, i: nat, a: Action)
    requires i < |s.pcs| && Can(s, i, a) && !a.Wake?
    ensures Do(s, i, a).pcs == s.pcs[i := After(s, i, a)] && Do(s, i, a).needs == s.needs
  {
  }

  lemma LockingKept(s: State, i: nat, a: Action)
    requires Locking(s) && i < |s.pcs| && Can(s, i, a) && !a.Wake?
    ensures Locking(Do(s, i, a))
  {
  }

  lemma Relisted(s: State, i: nat, pc: Pc, l: seq<nat>)
    requires Listing(s) && i < |s.pcs| && NoDup(l)
    requires i in l <==> InList(pc)
    requires forall x :: x != i ==> (x in l <==> x in s.list)
    ensures Listing(State(s.needs, s.count, s.wait, l, s.pcs[i := pc]))
  {
  }

  lemma ListingKept(s: State, i: nat, a: Action)
    requires Listing(s) && i < |s.pcs| && Can(s, i, a) && !a.Wake?
    ensures Listing(Do(s, i, a))
  {
    var t := Do(s, i, a);
    Shape(s, i, a);
    assert i in s.list <==> InList(s.pcs[i]);
    RemoveNoDup(s.list, i);
    Relisted(s, i, t.pcs[i], t.list);
  }

  lemma OneMoved(needs: bool, pcs: seq<Pc>, i: nat, pc: Pc)
    requires OneHolder(needs, pcs) && i < |pcs|
    ensures Holds(needs, pcs[i]) ==> !HeldElse(needs, pcs, i)
    ensures !Holds(needs, pc) || !HeldElse(needs, pcs, i) ==> OneHolder(needs, pcs[i := pc])
  {
  }

  predicate CountTells(s: State) {
    s.count <= 1 && OneHolder(s.needs, s.pcs) && (s.count == 1 <==> !Held(s.needs, s.pcs))
  }

  /** A move keeps the count telling the truth when it does so for the one task that moved. */
  lemma Retold(s: State, i: nat, pc: Pc, c: int)
    requires CountTells(s) && i < |s.pcs| && c <= 1
    requires Holds(s.needs, s.pcs[i]) ==> (Holds(s.needs, pc) <==> c != 1)
    requires !Holds(s.needs, s.pcs[i]) && Holds(s.needs, pc) ==> s.count == 1 && c != 1
    requires !Holds(s.needs, s.pcs[i]) && !Holds(s.needs, pc) ==> (c == 1 <==> s.count == 1)
    ensures CountTells(State(s.needs, c, s.wait, s.list, s.pcs[i := pc]))
  {
    Around(s.needs, s.pcs, i, pc);
    OneMoved(s.needs, s.pcs, i, pc);
  }

  lemma HoldersKept(s: State, i: nat, a: Action)
    requires CountTells(s) && Trylocks(s) && i < |s.pcs| && Can(s, i, a) && !a.Wake?
    ensures CountTells(Do(s, i, a))
  {
    var t := Do(s, i, a);
    Shape(s, i, a);
    Split(s.needs, s.pcs, i);
    Retold(s, i, t.pcs[i], t.count);
  }

  lemma TrylocksKept(s: State, i: nat, a: Action)
    requires Inv(s) && i < |s.pcs| && Can(s, i, a) && !a.Wake?
    ensures Trylocks(Do(s, i, a))
  {
  }

  lemma AttendedKept(s: State, i: nat, a: Action)
    requires Inv(s) && i < |s.pcs| && Can(s, i, a) && !a.Wake?
    ensures Attended(Do(s, i, a))
  {
    Shape(s, i, a);
    Around(s.needs, s.pcs, i, After(s, i, a));
  }

  predicate FirstDozes(s: State) {
    s.list != [] ==> s.list[0] < |s.pcs| && (s.pcs[s.list[0]].Asleep? || s.pcs[s.list[0]].Woken?)
  }

  /** Waking a sleeper moves nobody in or out of the list, the spinlock or the mutex. */
  lemma AwakenKept(s: State)
    requires Orderly(s) && FirstDozes(s)
    ensures Inv(Awaken(s))
  {
  }

  lemma WakingFirst(s: State, i: nat)
    requires Inv(s) && i < |s.pcs| && s.pcs[i] == Waking
    ensures i !in s.list && FirstDozes(s)
  {
    if s.list != [] {
      var w := s.list[0];
      assert w in s.list;
      assert InList(s.pcs[w]) && (HasSpinlock(s.pcs[w]) <==> s.wait == Some(w));
    }
  }

  lemma WakingLeaves(s: State, i: nat)
    requires Inv(s) && i < |s.pcs| && s.pcs[i] == Waking
    ensures Orderly(Move(s, i, Idle).(wait := None))
  {
  }

  lemma WakeKept(s: State, i: nat)
    requires Inv(s) && i < |s.pcs| && s.pcs[i] == Waking
    ensures Inv(Do(s, i, Wake))
  {
    WakingFirst(s, i);
    WakingLeaves(s, i);
    AwakenKept(Move(s, i, Idle).(wait := None));
  }

  lemma StepKeeps(s: State, i: nat, a: Action)
    requires Inv(s) && i < |s.pcs| && Can(s, i, a)
    ensures Inv(Do(s, i, a)) && |Do(s, i, a).pcs| == |s.pcs|
  {
    if a.Wake? {
      WakeKept(s, i);
    } else {
      LockingKept(s, i, a);
      ListingKept(s, i, a);
      HoldersKept(s, i, a);
      TrylocksKept(s, i, a);
      AttendedKept(s, i, a);
    }
  }

  // ----- Runs -----

  /** mutex_init: free, nobody waits. */
  predicate Init(s: State) {
    s.count == 1 && s.wait == None && s.list == [] && forall i :: 0 <= i < |s.pcs| ==> s.pcs[i] == Idle
  }

  ghost predicate Next(s: State, t: State) {
    exists i: nat, a :: i < |s.pcs| && Can(s, i, a) && t == Do(s, i, a)
  }

  ghost predicate Run(run: seq<State>) {
    run != [] && Init(run[0]) && forall n :: 0 < n < |run| ==> Next(run[n - 1], run[n])
  }

  lemma {:induction false} Reachable(run: seq<State>, n: nat)
    requires Run(run) && n < |run|
    ensures Inv(run[n])
  {
    if n > 0 {
      Reachable(run, n - 1);
      var s := run[n - 1];
      assert Next(s, run[n]);
      var i: nat, a :| i < |s.pcs| && Can(s, i, a) && run[n] == Do(s, i, a);
      StepKeeps(s, i, a);
    }
  }

  /** Mutual exclusion, in every interleaving. */
  lemma {:induction false} MutualExclusion(run: seq<State>, n: nat, i: nat, j: nat)
    requires Run(run) && n < |run| && i < |run[n].pcs| && j < |run[n].pcs|
    requires run[n].pcs[i] == Owner && run[n].pcs[j] == Owner
    ensures i == j && run[n].count != 1
  {
    Reachable(run, n);
    assert Holds(run[n].needs, run[n].pcs[i]);
  }

  /** Nothing but sleepers, owners and tasks that want nothing. */
  predicate Still(s: State) {
    forall i :: 0 <= i < |s.pcs| ==> s.pcs[i].Idle? || s.pcs[i].Asleep? || s.pcs[i].Owner?
  }

  /** No wakeup is lost: a free mutex with waiters has a task on its way to take it or to wake one. */
  lemma {:induction false} FreeIsClaimed(run: seq<State>, n: nat)
    requires Run(run) && n < |run| && run[n].count == 1 && run[n].list != []
    ensures InFlight(run[n].pcs)
  {
    Reachable(run, n);
  }

  /** When nothing moves and somebody sleeps, there is an owner and its unlock must take the slow
      path: no fast unlock is possible. */
  lemma {:induction false} SleepersHaveAnOwner(run: seq<State>, n: nat, i: nat) returns (o: nat)
    requires Run(run) && n < |run| && Still(run[n]) && i < |run[n].pcs| && run[n].pcs[i].Asleep?
    ensures o < |run[n].pcs| && run[n].pcs[o] == Owner && run[n].count < 0
    ensures forall c' :: Can(run[n], o, Unlock(c')) ==> Do(run[n], o, Unlock(c')).pcs[o] == Releasing
  {
    Reachable(run, n);
    var s := run[n];
    assert i in s.list;
    o :| 0 <= o < |s.pcs| && Keeps(s.pcs[o]);
  }

  /** Task i takes a step from s to t. */
  ghost predicate StepOf(i: nat, s: State, t: State) {
    i < |s.pcs| && exists a :: Can(s, i, a) && t == Do(s, i, a)
  }

  /** The slow unlock in isolation. */
  lemma {:induction false} ReleaseWakes(s: State, o: nat, c': int, w: nat) returns (run: seq<State>)
    requires o < |s.pcs| && s.pcs[o] == Owner && s.count < 0 && s.wait == None && Can(s, o, Unlock(c'))
    requires s.list != [] && s.list[0] == w < |s.pcs| && s.pcs[w].Asleep?
    ensures |run| == 5 && run[0] == s && forall n :: 0 <= n < 4 ==> StepOf(o, run[n], run[n + 1])
    ensures run[1] == Do(s, o, Unlock(c'))
    ensures run[4] == State(s.needs, 1, None, s.list, s.pcs[o := Idle][w := Woken(s.pcs[w].intr)])
  {
    var s1 := Do(s, o, Unlock(c'));
    var s2 := Do(s1, o, EnterRelease);
    var s3 := Do(s2, o, Clear);
    var s4 := Do(s3, o, Wake);
    run := [s, s1, s2, s3, s4];
    assert s.pcs[o := Releasing][o := Clearing][o := Waking][o := Idle] == s.pcs[o := Idle];
  }

  lemma {:induction false} WokenTakes(s: State, w: nat) returns (run: seq<State>)
    requires w < |s.pcs| && s.pcs[w].Woken? && s.count == 1 && s.wait == None
    ensures |run| == 4 && run[0] == s && forall n :: 0 <= n < 3 ==> StepOf(w, run[n], run[n + 1])
    ensures run[3].pcs == s.pcs[w := Owner] && run[3].list == Remove(s.list, w) && run[3].wait == None
  {
    var s1 := Do(s, w, Relock);
    var s2 := Do(s1, w, Exchange);
    run := [s, s1, s2, Do(s2, w, Take)];
    assert s.pcs[w := Queued(s.pcs[w].intr)][w := Won][w := Owner] == s.pcs[w := Owner];
  }

  lemma StillUnlocked(s: State)
    requires Inv(s) && Still(s) && s.list != []
    ensures s.wait == None && s.count < 0 && s.list[0] < |s.pcs| && s.pcs[s.list[0]].Asleep?
  {
    assert s.list[0] in s.list;
  }

  /** Where sleepers wait in a still state, whatever way the owner's unlock takes, the owner's steps
      alone make the first on the list runnable, and that waiter's steps alone then make it the owner. */
  lemma {:induction false} HandOver(s: State, o: nat, c': int) returns (run: seq<State>)
    requires Inv(s) && Still(s) && s.list != [] && o < |s.pcs| && s.pcs[o] == Owner
    requires Can(s, o, Unlock(c'))
    ensures |run| == 8 && run[0] == s && run[1] == Do(s, o, Unlock(c'))
    ensures forall n :: 0 <= n < 7 ==> StepOf(if n < 4 then o else s.list[0], run[n], run[n + 1])
    ensures s.list[0] < |s.pcs| && run[7].pcs == s.pcs[o := Idle][s.list[0] := Owner]
    ensures run[7].list == Remove(s.list, s.list[0])
  {
    StillUnlocked(s);
    var w := s.list[0];
    var a := ReleaseWakes(s, o, c', w);
    var b := WokenTakes(a[4], w);
    run := a + b[1..];
    assert s.pcs[o := Idle][w := Woken(s.pcs[w].intr)][w := Owner] == s.pcs[o := Idle][w := Owner];
  }

  // ----- First come, first served -----

  /** Task i joined the waiters in step m and has been one ever since, up to state n. */
  ghost predicate Since(run: seq<State>, i: nat, m: nat, n: nat) {
    && 0 < m <= n < |run| && i < |run[m - 1].pcs| && run[m - 1].pcs[i].Missed?
    && forall k :: m <= k <= n ==> Waits(run[k], i)
  }

  predicate Waits(s: State, i: nat) { i < |s.pcs| && InList(s.pcs[i]) }

  /** The list in the course of a run. */
  function Lines(run: seq<State>): seq<seq<nat>> { seq(|run|, k requires 0 <= k < |run| => run[k].list) }

  lemma {:induction false} ListMoves(s: State, i: nat, a: Action)
    requires Inv(s) && i < |s.pcs| && Can(s, i, a)
    ensures Moves(s.list, Do(s, i, a).list)
  {
    if a == Enter {
      assert i !in s.list;
    } else {
      SameThins(s.list);
      RemoveThins(s.list, i);
    }
  }

  lemma {:induction false} RunIsLine(run: seq<State>)
    requires Run(run)
    ensures Line(Lines(run))
  {
    forall n | 0 < n < |run| ensures Moves(run[n - 1].list, run[n].list) {
      Reachable(run, n - 1);
      assert Next(run[n - 1], run[n]);
      var i: nat, a :| i < |run[n - 1].pcs| && Can(run[n - 1], i, a) && run[n] == Do(run[n - 1], i, a);
      ListMoves(run[n - 1], i, a);
    }
  }

  lemma {:induction false} WaitsListed(run: seq<State>, n: nat, i: nat)
    requires Run(run) && n < |run|
    ensures Waits(run[n], i) <==> i in run[n].list
  {
    Reachable(run, n);
  }

  /** A task that becomes a waiter comes from a failed fast path. */
  lemma {:induction false} FromMissed(s: State, i: nat, a: Action, x: nat)
    requires i < |s.pcs| && Can(s, i, a) && Waits(Do(s, i, a), x) && !Waits(s, x)
    ensures x < |s.pcs| && s.pcs[x].Missed?
  {
  }

  lemma {:induction false} JoinsFromMissed(run: seq<State>, n: nat, x: nat)
    requires Run(run) && 0 < n < |run| && Waits(run[n], x) && !Waits(run[n - 1], x)
    ensures x < |run[n - 1].pcs| && run[n - 1].pcs[x].Missed?
  {
    assert Next(run[n - 1], run[n]);
    var i: nat, a :| i < |run[n - 1].pcs| && Can(run[n - 1], i, a) && run[n] == Do(run[n - 1], i, a);
    FromMissed(run[n - 1], i, a, x);
  }

  lemma {:induction false} SinceStands(run: seq<State>, i: nat, m: nat, n: nat)
    requires Run(run)
    ensures Since(run, i, m, n) <==> Stands(Lines(run), i, m, n)
  {
    if 0 < m <= n < |run| {
      WaitsListed(run, m - 1, i);
      forall k | m <= k <= n ensures Waits(run[k], i) <==> i in Lines(run)[k] {
        WaitsListed(run, k, i);
      }
      if Stands(Lines(run), i, m, n) {
        assert i in Lines(run)[m];
        JoinsFromMissed(run, m, i);
      }
    }
  }

  /** In every run a waiter that joined earlier stands before one that joined later. */
  lemma {:induction false} ArrivalOrder(run: seq<State>, n: nat, i: nat, m: nat, j: nat, m': nat)
    requires Run(run) && Since(run, i, m, n) && Since(run, j, m', n) && m < m'
    ensures Before(run[n].list, i, j)
  {
    RunIsLine(run);
    SinceStands(run, i, m, n);
    SinceStands(run, j, m', n);
    CameFirst(Lines(run), i, m, j, m', n);
  }

  /** The waiter at the head of the list joined before all others. */
  lemma {:induction false} HeadIsOldest(run: seq<State>, n: nat) returns (m: nat)
    requires Run(run) && n < |run| && run[n].list != []
    ensures Since(run, run[n].list[0], m, n)
    ensures forall j, m' :: Since(run, j, m', n) && j != run[n].list[0] ==> m < m'
  {
    Reachable(run, n);
    RunIsLine(run);
    m := HeadCameFirst(Lines(run), n);
    SinceStands(run, run[n].list[0], m, n);
    forall j: nat, m': nat | Since(run, j, m', n) && j != run[n].list[0] ensures m < m' {
      SinceStands(run, j, m', n);
    }
  }

  /** In every run, where sleepers wait in a still state, the owner's unlock hands the mutex to the
      task that has waited longest. */
  lemma {:induction false} OldestGetsIt(run: seq<State>, n: nat, o: nat, c': int) returns (w: nat, m: nat, rest: seq<State>)
    requires Run(run) && n < |run| && Still(run[n]) && run[n].list != [] && o < |run[n].pcs| && run[n].pcs[o] == Owner
    requires Can(run[n], o, Unlock(c'))
    ensures Since(run, w, m, n) && forall j, m' :: Since(run, j, m', n) && j != w ==> m < m'
    ensures |rest| == 8 && rest[0] == run[n] && rest[1] == Do(run[n], o, Unlock(c'))
    ensures forall k :: 0 <= k < 7 ==> StepOf(if k < 4 then o else w, rest[k], rest[k + 1])
    ensures w < |run[n].pcs| && rest[7].pcs == run[n].pcs[o := Idle][w := Owner]
  {
    Reachable(run, n);
    m := HeadIsOldest(run, n);
    w := run[n].list[0];
    rest := HandOver(run[n], o, c');
  }

  /** A free mutex is had at once, by the fast path and by either kind of trylock; a held one is not
      had by a trylock. */
  lemma {:induction false} FreeIsTaken(s: State, i: nat, intr: bool)
    requires Inv(s) && i < |s.pcs| && s.pcs[i] == Idle
    ensures s.count == 1 ==> Can(s, i, Lock(intr, 0)) && Do(s, i, Lock(intr, 0)).pcs[i] == Owner
    ensures s.needs ==> (Do(s, i, TryCas).pcs[i] == Owner <==> !Held(s.needs, s.pcs))
    ensures !s.needs ==> (Do(s, i, TrySwap).pcs[i] == Owner <==> !Held(s.needs, s.pcs))
  {
  }
}
