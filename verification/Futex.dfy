/**
 * Futexes: waiters on hash chains, each chain under its bucket's lock.  A waiter may be moved to
 * another chain while it sleeps, so when it leaves it must find out which lock protects it.  Tasks
 * take turns at the granularity of one access to a lock, to lock_ptr, or of one chain entry handled
 * under the locks.
 */
module Futex {
  import opened Lists

  /** futex_wake, or futex_requeue with its optional compare value.  b and b2 are the buckets of the
      keys k and k2; a wake has one key only. */
  datatype Job =
    | Wake(k: nat, b: nat, n: int)
    | Requeue(k: nat, b: nat, k2: nat, b2: nat, nw: int, nr: int, cmp: Option<int>)
  {
    function Other(): nat { if Requeue? then b2 else b }
    function First(): nat { if b < Other() then b else Other() }
    function Second(): nat { if b < Other() then Other() else b }
  }

  datatype Pc =
    | Idle
    | Wanting(val: int)                                 // queue_lock, before the lock is had
    | Checking(val: int)                                // the word is about to be read
    | Matched                                           // it was val
    | Asleep
    | Leaving(l: nat)                                   // unqueue_me has read lock_ptr
    | Deciding(l: nat)                                  // and has that lock
    | Want(job: Job)
    | Want2(job: Job)                                   // the first of two locks is held
    | Begun(job: Job)                                   // all locks are held
    | Scanning(job: Job, ret: int, drops: nat, todo: seq<nat>)
    | Clearing(job: Job, ret: int, drops: nat, todo: seq<nat>, w: nat)   // w is off its chain, lock_ptr still set
    | Dropping(k: nat, drops: nat)                      // unlocked, references still to be dropped

  /** A task with its struct futex_q; home is the bucket key hashes to. */
  datatype Task = Task(pc: Pc, key: nat, home: nat, lock: Option<nat>)

  /** hash gives the bucket of each key, words the user's memory, refs the references on each key. */
  datatype State = State(hash: seq<nat>, words: seq<int>, refs: seq<int>,
                         chains: seq<seq<nat>>, locks: seq<Option<nat>>, tasks: seq<Task>)

  /** The task has been queued and has not returned. */
  predicate Resting(pc: Pc) { pc.Asleep? || pc.Leaving? || pc.Deciding? }

  /** A pass over a chain, with all locks held. */
  predicate Passing(pc: Pc) { pc.Scanning? || pc.Clearing? }

  // ----- Steps -----

  datatype Action =
    | WaitBegin(k: nat, val: int)
    | WaitLock
    | Check(fault: bool)           // fault: the word cannot be read with the lock held
    | Enqueue
    | Leave
    | LeaveLock
    | Decide
    | Start(job: Job)
    | Lock1
    | Lock2
    | Begin
    | Next
    | Clear
    | Drop
    | Store(k: nat, v: int)        // user space writes the word

  predicate Keyed(s: State, k: nat, b: nat) { k < |s.hash| && s.hash[k] == b < |s.chains| }

  predicate JobOk(s: State, job: Job) { Keyed(s, job.k, job.b) && (job.Requeue? ==> Keyed(s, job.k2, job.b2)) }

  /** Indices are in range, and buckets are those the keys hash to. */
  predicate TaskOk(s: State, u: Task) {
    && Keyed(s, u.key, u.home) && (u.lock.Some? ==> u.lock.value < |s.chains|)
    && match u.pc
       case Leaving(l) => l < |s.chains|
       case Deciding(l) => l < |s.chains|
       case Want(job) => JobOk(s, job)
       case Want2(job) => JobOk(s, job) && job.b != job.Other()
       case Begun(job) => JobOk(s, job)
       case Scanning(job, _, _, todo) => JobOk(s, job) && forall i :: 0 <= i < |todo| ==> todo[i] < |s.tasks|
       case Clearing(job, _, _, todo, w) =>
         JobOk(s, job) && w < |s.tasks| && forall i :: 0 <= i < |todo| ==> todo[i] < |s.tasks|
       case Dropping(k, _) => k < |s.hash|
       case _ => true
  }

  predicate Shaped(s: State) {
    && |s.words| == |s.hash| == |s.refs| && |s.chains| == |s.locks|
    && forall t :: 0 <= t < |s.tasks| ==> TaskOk(s, s.tasks[t])
  }

  predicate Can(s: State, t: nat, a: Action)
    requires Shaped(s) && t < |s.tasks|
  {
    var u := s.tasks[t];
    match a
    case WaitBegin(k, _) => u.pc == Idle && k < |s.hash| && s.hash[k] < |s.chains|
    case WaitLock => u.pc.Wanting? && s.locks[u.home] == None
    case Check(_) => u.pc.Checking?
    case Enqueue => u.pc == Matched
    case Leave => u.pc == Asleep
    case LeaveLock => u.pc.Leaving? && s.locks[u.pc.l] == None
    case Decide => u.pc.Deciding?
    case Start(job) => u.pc == Idle && JobOk(s, job)
    case Lock1 => u.pc.Want? && s.locks[u.pc.job.First()] == None
    case Lock2 => u.pc.Want2? && s.locks[u.pc.job.Second()] == None
    case Begin => u.pc.Begun?
    case Next => u.pc.Scanning?
    case Clear => u.pc.Clearing?
    case Drop => u.pc.Dropping?
    case Store(k, _) => k < |s.words|
  }

  function Counted(refs: seq<int>, k: nat, d: int): seq<int>
    requires k < |refs|
  {
    refs[k := refs[k] + d]
  }

  /** spin_unlock of the job's buckets; the references counted in drops go later. */
  function Finish(s: State, t: nat, job: Job, drops: nat): State
    requires t < |s.tasks| && job.b < |s.locks| && job.Other() < |s.locks|
  {
    s.(tasks := s.tasks[t := s.tasks[t].(pc := Dropping(job.k, drops))],
       locks := s.locks[job.b := None][job.Other() := None])
  }

  function DoCheck(s: State, t: nat, fault: bool): State
    requires Shaped(s) && t < |s.tasks| && s.tasks[t].pc.Checking?
  {
    var u := s.tasks[t];
    if !fault && s.words[u.key] == u.pc.val then s.(tasks := s.tasks[t := u.(pc := Matched)])
    else s.(tasks := s.tasks[t := u.(pc := Idle)], locks := s.locks[u.home := None], refs := Counted(s.refs, u.key, -1))
  }

  /** unqueue_me with the lock it read: when lock_ptr has changed meanwhile it starts over. */
  function DoDecide(s: State, t: nat): State
    requires Shaped(s) && t < |s.tasks| && s.tasks[t].pc.Deciding?
  {
    var u := s.tasks[t];
    var l := u.pc.l;
    if u.lock != Some(l) then s.(tasks := s.tasks[t := u.(pc := Asleep)], locks := s.locks[l := None])
    else
      s.(tasks := s.tasks[t := u.(pc := Idle)], locks := s.locks[l := None],
         chains := s.chains[l := Remove(s.chains[l], t)], refs := Counted(s.refs, u.key, -1))
  }

  /** The first half of wake_futex for entry x. */
  function TakeOff(s: State, t: nat, job: Job, ret: int, drops: nat, rest: seq<nat>, x: nat): State
    requires t < |s.tasks| && job.b < |s.chains|
  {
    s.(tasks := s.tasks[t := s.tasks[t].(pc := Clearing(job, ret, drops, rest, x))],
       chains := s.chains[job.b := Remove(s.chains[job.b], x)])
  }

  /** Entry x is moved to the second key, and to its chain when that is another one. */
  function Shift(s: State, x: nat, job: Job): State
    requires x < |s.tasks| && job.Requeue? && job.b < |s.chains| && job.b2 < |s.chains| && job.k2 < |s.refs|
  {
    var u := s.tasks[x];
    if job.b == job.b2 then
      s.(tasks := s.tasks[x := Task(u.pc, job.k2, job.b2, u.lock)], refs := Counted(s.refs, job.k2, 1))
    else
      s.(tasks := s.tasks[x := Task(u.pc, job.k2, job.b2, Some(job.b2))], refs := Counted(s.refs, job.k2, 1),
         chains := s.chains[job.b := Remove(s.chains[job.b], x)][job.b2 := s.chains[job.b2] + [x]])
  }

  /** What follows after entry x was requeued as the ret-th match. */
  function Requeued(s: State, t: nat, job: Job, ret: int, drops: nat, rest: seq<nat>): State
    requires t < |s.tasks| && job.Requeue? && job.b < |s.locks| && job.b2 < |s.locks|
  {
    if ret - job.nw >= job.nr then Finish(s, t, job, drops)
    else s.(tasks := s.tasks[t := s.tasks[t].(pc := Scanning(job, ret, drops, rest))])
  }

  /** One entry of the chain. */
  function DoNext(s: State, t: nat): State
    requires Shaped(s) && t < |s.tasks| && s.tasks[t].pc.Scanning?
  {
    assert TaskOk(s, s.tasks[t]);
    var Scanning(job, ret, drops, todo) := s.tasks[t].pc;
    if todo == [] then Finish(s, t, job, drops)
    else
      var x, rest := todo[0], todo[1..];
      if s.tasks[x].key != job.k then s.(tasks := s.tasks[t := s.tasks[t].(pc := Scanning(job, ret, drops, rest))])
      else if job.Wake? || ret + 1 <= job.nw then TakeOff(s, t, job, ret + 1, drops, rest, x)
      else Requeued(Shift(s, x, job), t, job, ret + 1, drops + 1, rest)
  }

  /** lock_ptr of a woken entry is cleared, the last write of wake_futex. */
  function Cleared(s: State, w: nat): State
    requires w < |s.tasks|
  {
    s.(tasks := s.tasks[w := s.tasks[w].(lock := None)])
  }

  function DoClear(s: State, t: nat): State
    requires Shaped(s) && t < |s.tasks| && s.tasks[t].pc.Clearing?
  {
    assert TaskOk(s, s.tasks[t]);
    var Clearing(job, ret, drops, todo, w) := s.tasks[t].pc;
    var r := Cleared(s, w);
    if job.Wake? && ret >= job.n then Finish(r, t, job, drops)
    else r.(tasks := r.tasks[t := r.tasks[t].(pc := Scanning(job, ret, drops, todo))])
  }

  function Do(s: State, t: nat, a: Action): State
    requires Shaped(s) && t < |s.tasks| && Can(s, t, a)
  {
    var u := s.tasks[t];
    assert TaskOk(s, u);
    match a
    case WaitBegin(k, val) =>
      s.(tasks := s.tasks[t := Task(Wanting(val), k, s.hash[k], Some(s.hash[k]))], refs := Counted(s.refs, k, 1))
    case WaitLock => s.(tasks := s.tasks[t := u.(pc := Checking(u.pc.val))], locks := s.locks[u.home := Some(t)])
    case Check(fault) => DoCheck(s, t, fault)
    case Enqueue =>
      s.(tasks := s.tasks[t := u.(pc := Asleep)], locks := s.locks[u.home := None],
         chains := s.chains[u.home := s.chains[u.home] + [t]])
    case Leave =>
      if u.lock.None? then s.(tasks := s.tasks[t := u.(pc := Idle)], refs := Counted(s.refs, u.key, -1))
      else s.(tasks := s.tasks[t := u.(pc := Leaving(u.lock.value))])
    case LeaveLock => s.(tasks := s.tasks[t := u.(pc := Deciding(u.pc.l))], locks := s.locks[u.pc.l := Some(t)])
    case Decide => DoDecide(s, t)
    case Start(job) => s.(tasks := s.tasks[t := u.(pc := Want(job))])
    case Lock1 =>
      var job := u.pc.job;
      s.(tasks := s.tasks[t := u.(pc := if job.b == job.Other() then Begun(job) else Want2(job))],
         locks := s.locks[job.First() := Some(t)])
    case Lock2 => s.(tasks := s.tasks[t := u.(pc := Begun(u.pc.job))], locks := s.locks[u.pc.job.Second() := Some(t)])
    case Begin =>
      var job := u.pc.job;
      if job.Requeue? && job.cmp.Some? && s.words[job.k] != job.cmp.value then Finish(s, t, job, 0)
      else
        s.(tasks := s.tasks[t := u.(pc := Scanning(job, 0, 0, s.chains[job.b]))])
    case Next => DoNext(s, t)
    case Clear => DoClear(s, t)
    case Drop =>
      if u.pc.drops > 0 then
        s.(tasks := s.tasks[t := u.(pc := Dropping(u.pc.k, u.pc.drops - 1))], refs := Counted(s.refs, u.pc.k, -1))
      else s.(tasks := s.tasks[t := u.(pc := Idle)])
    case Store(k, v) => s.(words := s.words[k := v])
  }

  // ----- The locks -----

  /** The task stands where it holds the lock of bucket d. */
  predicate Holds(u: Task, d: nat) {
    match u.pc
    case Checking(_) => d == u.home
    case Matched => d == u.home
    case Deciding(l) => d == l
    case Want2(job) => d == job.First()
    case Begun(job) => d == job.b || d == job.Other()
    case Scanning(job, _, _, _) => d == job.b || d == job.Other()
    case Clearing(job, _, _, _, _) => d == job.b || d == job.Other()
    case _ => false
  }

  /** A lock is held by the task that stands where it holds it, and by nobody else. */
  predicate Locked(locks: seq<Option<nat>>, tasks: seq<Task>) {
    && (forall d :: 0 <= d < |locks| && locks[d].Some? ==> locks[d].value < |tasks|)
    && forall d, t :: 0 <= d < |locks| && 0 <= t < |tasks| ==> (locks[d] == Some(t) <==> Holds(tasks[t], d))
  }

  lemma LockedMove(locks: seq<Option<nat>>, tasks: seq<Task>, t: nat, u: Task)
    requires Locked(locks, tasks) && t < |tasks| && forall d :: 0 <= d < |locks| ==> (Holds(u, d) <==> Holds(tasks[t], d))
    ensures Locked(locks, tasks[t := u])
  {
  }

  lemma LockedTake(locks: seq<Option<nat>>, tasks: seq<Task>, t: nat, u: Task, b: nat)
    requires Locked(locks, tasks) && t < |tasks| && b < |locks| && locks[b] == None
    requires forall d :: 0 <= d < |locks| ==> (Holds(u, d) <==> Holds(tasks[t], d) || d == b)
    ensures Locked(locks[b := Some(t)], tasks[t := u])
  {
  }

  lemma LockedGive(locks: seq<Option<nat>>, tasks: seq<Task>, t: nat, u: Task, b: nat, c: nat)
    requires Locked(locks, tasks) && t < |tasks| && b < |locks| && c < |locks|
    requires forall d :: 0 <= d < |locks| ==> !Holds(u, d) && (Holds(tasks[t], d) <==> d == b || d == c)
    ensures Locked(locks[b := None][c := None], tasks[t := u])
  {
    assert locks[b] == Some(t) && locks[c] == Some(t);
  }

  lemma LockedDrop(locks: seq<Option<nat>>, tasks: seq<Task>, t: nat, u: Task, b: nat)
    requires Locked(locks, tasks) && t < |tasks| && b < |locks|
    requires forall d :: 0 <= d < |locks| ==> !Holds(u, d) && (Holds(tasks[t], d) <==> d == b)
    ensures Locked(locks[b := None], tasks[t := u])
  {
    LockedGive(locks, tasks, t, u, b, b);
    assert locks[b := None][b := None] == locks[b := None];
  }

  // ----- The chains -----

  /** x is queued in bucket b and says so itself. */
  predicate OnChain(tasks: seq<Task>, b: nat, x: nat) {
    x < |tasks| && Resting(tasks[x].pc) && tasks[x].home == b && tasks[x].lock == Some(b)
  }

  predicate ChainOk(l: seq<nat>, tasks: seq<Task>, b: nat) {
    NoDup(l) && forall i :: 0 <= i < |l| ==> OnChain(tasks, b, l[i])
  }

  /** A queued futex_q sits on exactly the chain its key hashes to, with lock_ptr naming that bucket. */
  predicate Chained(chains: seq<seq<nat>>, tasks: seq<Task>) {
    forall b :: 0 <= b < |chains| ==> ChainOk(chains[b], tasks, b)
  }

  /** Somebody has taken x off its chain and not yet cleared its lock_ptr. */
  predicate Taken(tasks: seq<Task>, x: nat) {
    exists h :: 0 <= h < |tasks| && tasks[h].pc.Clearing? && tasks[h].pc.w == x
  }

  /** While lock_ptr is set a waiter is on that chain, or just being taken off. */
  predicate Present(chains: seq<seq<nat>>, tasks: seq<Task>) {
    forall x :: 0 <= x < |tasks| && Resting(tasks[x].pc) && tasks[x].lock.Some? ==>
      && tasks[x].lock.value < |chains|
      && (x in chains[tasks[x].lock.value] || Taken(tasks, x))
  }

  predicate RemovedOk(chains: seq<seq<nat>>, tasks: seq<Task>, pc: Pc) {
    pc.Clearing? ==>
      && pc.job.b < |chains| && pc.w < |tasks| && pc.w !in chains[pc.job.b]
      && Resting(tasks[pc.w].pc) && tasks[pc.w].lock == Some(pc.job.b) && tasks[pc.w].home == pc.job.b
  }

  predicate Removed(chains: seq<seq<nat>>, tasks: seq<Task>) {
    forall h :: 0 <= h < |tasks| ==> RemovedOk(chains, tasks, tasks[h].pc)
  }

  predicate Same(job: Job) { job.Requeue? && job.k2 == job.k }

  /** What a pass has left behind it does not match any more, unless it requeues to the same key. */
  predicate PassOk(chains: seq<seq<nat>>, tasks: seq<Task>, pc: Pc) {
    Passing(pc) ==>
      && pc.job.b < |chains| && |pc.todo| <= |chains[pc.job.b]|
      && var c := chains[pc.job.b]; var n := |c| - |pc.todo|;
         && c[n..] == pc.todo
         && (Same(pc.job) || forall i :: 0 <= i < n && c[i] < |tasks| ==> tasks[c[i]].key != pc.job.k)
  }

  predicate Passes(chains: seq<seq<nat>>, tasks: seq<Task>) {
    forall h :: 0 <= h < |tasks| ==> PassOk(chains, tasks, tasks[h].pc)
  }

  predicate ChainInv(chains: seq<seq<nat>>, tasks: seq<Task>) {
    Chained(chains, tasks) && Present(chains, tasks) && Removed(chains, tasks) && Passes(chains, tasks)
  }

  lemma TakenKept(tasks: seq<Task>, t: nat, u: Task)
    requires t < |tasks| && !tasks[t].pc.Clearing?
    ensures forall x: nat :: Taken(tasks, x) ==> Taken(tasks[t := u], x)
  {
    forall x: nat | Taken(tasks, x) ensures Taken(tasks[t := u], x) {
      var h :| 0 <= h < |tasks| && tasks[h].pc.Clearing? && tasks[h].pc.w == x;
      assert tasks[t := u][h].pc.Clearing?;
    }
  }

  /** A step of task t that is none of a pass and neither queues nor unqueues it. */
  lemma {:induction false} QuietMove(chains: seq<seq<nat>>, tasks: seq<Task>, t: nat, u: Task)
    requires ChainInv(chains, tasks) && t < |tasks| && !tasks[t].pc.Clearing? && !Passing(u.pc)
    requires Resting(u.pc) <==> Resting(tasks[t].pc)
    requires Resting(u.pc) ==> u.lock == tasks[t].lock && u.home == tasks[t].home && u.key == tasks[t].key
    ensures ChainInv(chains, tasks[t := u])
  {
    var q := tasks[t := u];
    TakenKept(tasks, t, u);
    ChainedMove(chains, tasks, t, u);
    PassesMove(chains, tasks, t, u);
    assert Removed(chains, q) by {
      forall h | 0 <= h < |q| ensures RemovedOk(chains, q, q[h].pc) {
        assert RemovedOk(chains, tasks, tasks[h].pc);
      }
    }
  }

  lemma ChainedMove(chains: seq<seq<nat>>, tasks: seq<Task>, t: nat, u: Task)
    requires Chained(chains, tasks) && t < |tasks|
    requires Resting(tasks[t].pc) && tasks[t].lock.Some? ==> Resting(u.pc) && u.lock == tasks[t].lock && u.home == tasks[t].home
    ensures Chained(chains, tasks[t := u])
  {
    forall b | 0 <= b < |chains| ensures ChainOk(chains[b], tasks[t := u], b) {
      assert ChainOk(chains[b], tasks, b);
    }
  }

  /** Whoever is on a chain keeps its key. */
  lemma PassesMove(chains: seq<seq<nat>>, tasks: seq<Task>, t: nat, u: Task)
    requires Chained(chains, tasks) && Passes(chains, tasks) && t < |tasks|
    requires Resting(tasks[t].pc) && tasks[t].lock.Some? ==> u.key == tasks[t].key
    requires PassOk(chains, tasks, u.pc)
    ensures Passes(chains, tasks[t := u])
  {
    var q := tasks[t := u];
    forall h | 0 <= h < |q| ensures PassOk(chains, q, q[h].pc) {
      assert PassOk(chains, tasks, q[h].pc);
      if Passing(q[h].pc) {
        var b := q[h].pc.job.b;
        assert ChainOk(chains[b], tasks, b);
      }
    }
  }

  lemma ChainRemove(c: seq<nat>, tasks: seq<Task>, b: nat, t: nat, u: Task)
    requires ChainOk(c, tasks, b) && t < |tasks|
    ensures ChainOk(Remove(c, t), tasks[t := u], b)
  {
    RemoveNoDup(c, t);
    var r := Remove(c, t);
    forall i | 0 <= i < |r| ensures OnChain(tasks[t := u], b, r[i]) {
      assert r[i] in r;
      assert r[i] in c;
      var j :| 0 <= j < |c| && c[j] == r[i];
    }
  }

  /** Nobody but t passes over the chain of bucket b. */
  predicate NoPasser(tasks: seq<Task>, t: nat, b: nat) {
    forall h :: 0 <= h < |tasks| && h != t && Passing(tasks[h].pc) ==> tasks[h].pc.job.b != b
  }

  lemma AlonePasses(locks: seq<Option<nat>>, tasks: seq<Task>, t: nat, b: nat)
    requires Locked(locks, tasks) && t < |tasks| && b < |locks| && Holds(tasks[t], b)
    ensures NoPasser(tasks, t, b)
  {
    assert locks[b] == Some(t);
    forall h | 0 <= h < |tasks| && h != t && Passing(tasks[h].pc) ensures tasks[h].pc.job.b != b {
      assert locks[b] == Some(h) <==> Holds(tasks[h], b);
    }
  }

  /** A chain that changes under its lock changes nothing for passes over other chains. */
  lemma {:induction false} PassesElsewhere(chains: seq<seq<nat>>, tasks: seq<Task>, t: nat, u: Task, b: nat, c: seq<nat>)
    requires Chained(chains, tasks) && Passes(chains, tasks) && Removed(chains, tasks)
    requires t < |tasks| && b < |chains| && NoPasser(tasks, t, b)
    requires Resting(tasks[t].pc) && tasks[t].lock.Some? ==> u.key == tasks[t].key || tasks[t].lock == Some(b)
    requires forall h :: 0 <= h < |tasks| && h != t && tasks[h].pc.Clearing? ==>
      tasks[h].pc.w != t || (Resting(u.pc) && u.lock == tasks[t].lock && u.home == tasks[t].home)
    ensures var q := tasks[t := u]; var d := chains[b := c];
      forall h :: 0 <= h < |tasks| && h != t ==> PassOk(d, q, q[h].pc) && RemovedOk(d, q, q[h].pc)
  {
    var q, d := tasks[t := u], chains[b := c];
    forall h | 0 <= h < |tasks| && h != t ensures PassOk(d, q, q[h].pc) && RemovedOk(d, q, q[h].pc) {
      assert PassOk(chains, tasks, tasks[h].pc) && RemovedOk(chains, tasks, tasks[h].pc);
      if Passing(q[h].pc) {
        var e := q[h].pc.job.b;
        assert ChainOk(chains[e], tasks, e);
      }
    }
  }

  lemma {:induction false} EnqueueKeeps(chains: seq<seq<nat>>, tasks: seq<Task>, t: nat, b: nat)
    requires ChainInv(chains, tasks) && t < |tasks| && b < |chains| && NoPasser(tasks, t, b)
    requires tasks[t].pc == Matched && tasks[t].lock == Some(b) && tasks[t].home == b
    ensures ChainInv(chains[b := chains[b] + [t]], tasks[t := tasks[t].(pc := Asleep)])
  {
    var u := tasks[t].(pc := Asleep);
    var q, d := tasks[t := u], chains[b := chains[b] + [t]];
    TakenKept(tasks, t, u);
    PassesElsewhere(chains, tasks, t, u, b, chains[b] + [t]);
    forall e | 0 <= e < |d| ensures ChainOk(d[e], q, e) {
      assert ChainOk(chains[e], tasks, e);
    }
  }

  lemma {:induction false} UnlinkKeeps(chains: seq<seq<nat>>, tasks: seq<Task>, t: nat, b: nat, u: Task)
    requires ChainInv(chains, tasks) && t < |tasks| && b < |chains| && NoPasser(tasks, t, b)
    requires Resting(tasks[t].pc) && tasks[t].lock == Some(b) && !Resting(u.pc) && !Passing(u.pc)
    ensures t in chains[b] && tasks[t].home == b
    ensures ChainInv(chains[b := Remove(chains[b], t)], tasks[t := u])
  {
    var q, d := tasks[t := u], chains[b := Remove(chains[b], t)];
    forall h | 0 <= h < |tasks| && h != t && tasks[h].pc.Clearing? ensures tasks[h].pc.w != t {
      assert RemovedOk(chains, tasks, tasks[h].pc);
    }
    assert ChainOk(chains[b], tasks, b);
    TakenKept(tasks, t, u);
    PassesElsewhere(chains, tasks, t, u, b, Remove(chains[b], t));
    forall e | 0 <= e < |d| ensures ChainOk(d[e], q, e) {
      assert ChainOk(chains[e], tasks, e);
      ChainRemove(chains[e], tasks, e, t, u);
    }
  }

  /** A woken waiter returns: it is on no chain. */
  lemma {:induction false} LeaveKeeps(chains: seq<seq<nat>>, tasks: seq<Task>, t: nat, u: Task)
    requires ChainInv(chains, tasks) && t < |tasks| && Resting(tasks[t].pc) && tasks[t].lock == None
    requires !Resting(u.pc) && !Passing(u.pc)
    ensures ChainInv(chains, tasks[t := u])
    ensures forall b :: 0 <= b < |chains| ==> t !in chains[b]
  {
    var q := tasks[t := u];
    TakenKept(tasks, t, u);
    ChainedMove(chains, tasks, t, u);
    PassesMove(chains, tasks, t, u);
    forall h | 0 <= h < |q| ensures RemovedOk(chains, q, q[h].pc) {
      assert RemovedOk(chains, tasks, tasks[h].pc);
    }
    forall b | 0 <= b < |chains| ensures t !in chains[b] {
      assert ChainOk(chains[b], tasks, b);
    }
  }

  /** A pass begins, goes past an entry that does not match, or ends. */
  lemma {:induction false} PassMove(chains: seq<seq<nat>>, tasks: seq<Task>, t: nat, u: Task)
    requires ChainInv(chains, tasks) && t < |tasks| && !Resting(tasks[t].pc) && !tasks[t].pc.Clearing?
    requires !Resting(u.pc) && !u.pc.Clearing? && PassOk(chains, tasks, u.pc)
    ensures ChainInv(chains, tasks[t := u])
  {
    var q := tasks[t := u];
    TakenKept(tasks, t, u);
    ChainedMove(chains, tasks, t, u);
    PassesMove(chains, tasks, t, u);
    forall h | 0 <= h < |q| ensures RemovedOk(chains, q, q[h].pc) {
      assert RemovedOk(chains, tasks, tasks[h].pc);
    }
  }

  lemma {:induction false} SkipOk(chains: seq<seq<nat>>, tasks: seq<Task>, job: Job, ret: int, drops: nat, todo: seq<nat>)
    requires todo != [] && todo[0] < |tasks| && PassOk(chains, tasks, Scanning(job, ret, drops, todo))
    requires tasks[todo[0]].key != job.k || Same(job)
    ensures PassOk(chains, tasks, Scanning(job, ret, drops, todo[1..]))
  {
    var c := chains[job.b];
    var n := |c| - |todo|;
    assert c[n + 1..] == todo[1..] && c[n] == todo[0];
  }

  /** The chain without the entry at hand. */
  lemma {:induction false} TodoRemove(chains: seq<seq<nat>>, tasks: seq<Task>, pc: Pc)
    requires Chained(chains, tasks) && pc.Scanning? && PassOk(chains, tasks, pc) && pc.todo != []
    ensures var c := chains[pc.job.b]; var x := pc.todo[0]; var n := |c| - |pc.todo|;
      OnChain(tasks, pc.job.b, x) && c[n] == x && Remove(c, x) == c[..n] + pc.todo[1..] && x in c
  {
    var b := pc.job.b;
    var c := chains[b];
    var n := |c| - |pc.todo|;
    assert ChainOk(c, tasks, b);
    assert c[n] == pc.todo[0] && c[n + 1..] == pc.todo[1..];
    RemoveAt(c, n);
  }

  lemma {:induction false} TakeOffChained(chains: seq<seq<nat>>, tasks: seq<Task>, t: nat, b: nat, x: nat, u: Task)
    requires Chained(chains, tasks) && t < |tasks| && x < |tasks| && b < |chains| && !Resting(tasks[t].pc)
    ensures Chained(chains[b := Remove(chains[b], x)], tasks[t := u])
  {
    var d := chains[b := Remove(chains[b], x)];
    assert tasks[x := tasks[x]] == tasks;
    assert Chained(d, tasks) by {
      forall e | 0 <= e < |d| ensures ChainOk(d[e], tasks, e) {
        assert ChainOk(chains[e], tasks, e);
        ChainRemove(chains[e], tasks, e, x, tasks[x]);
      }
    }
    ChainedMove(d, tasks, t, u);
  }

  lemma {:induction false} TakeOffPresent(chains: seq<seq<nat>>, tasks: seq<Task>, t: nat, b: nat, x: nat, u: Task)
    requires Chained(chains, tasks) && Present(chains, tasks) && t < |tasks| && b < |chains|
    requires !Resting(tasks[t].pc) && !tasks[t].pc.Clearing? && u.pc.Clearing? && u.pc.w == x
    ensures Present(chains[b := Remove(chains[b], x)], tasks[t := u])
  {
    var q, d := tasks[t := u], chains[b := Remove(chains[b], x)];
    TakenKept(tasks, t, u);
    assert Taken(q, x) by {
      assert q[t].pc.Clearing? && q[t].pc.w == x;
    }
    forall y | 0 <= y < |q| && Resting(q[y].pc) && q[y].lock.Some?
      ensures q[y].lock.value < |d| && (y in d[q[y].lock.value] || Taken(q, y))
    {
      assert y in chains[tasks[y].lock.value] || Taken(tasks, y);
    }
  }

  /** The pass itself goes on with the rest of the chain. */
  lemma {:induction false} TakeOffPass(chains: seq<seq<nat>>, tasks: seq<Task>, t: nat, u: Task)
    requires ChainInv(chains, tasks) && t < |tasks| && tasks[t].pc.Scanning? && tasks[t].pc.todo != []
    requires tasks[t].pc.job.b < |chains| && !Resting(u.pc)
    requires u.pc.Clearing? && u.pc.job == tasks[t].pc.job && u.pc.todo == tasks[t].pc.todo[1..] && u.pc.w == tasks[t].pc.todo[0]
    ensures PassOk(chains[u.pc.job.b := Remove(chains[u.pc.job.b], u.pc.w)], tasks[t := u], u.pc)
  {
    var b, x, todo := u.pc.job.b, u.pc.w, tasks[t].pc.todo;
    assert PassOk(chains, tasks, tasks[t].pc);
    TodoRemove(chains, tasks, tasks[t].pc);
    var c, r := chains[b], Remove(chains[b], x);
    var n := |c| - |todo|;
    assert r[n..] == todo[1..] && r[..n] == c[..n];
  }

  lemma {:induction false} TakeOffKeeps(chains: seq<seq<nat>>, tasks: seq<Task>, t: nat, job: Job, ret: int, drops: nat, todo: seq<nat>, u: Task)
    requires ChainInv(chains, tasks) && t < |tasks| && todo != [] && job.b < |chains| && NoPasser(tasks, t, job.b)
    requires tasks[t].pc.Scanning? && tasks[t].pc.job == job && tasks[t].pc.todo == todo
    requires u.pc == Clearing(job, ret, drops, todo[1..], todo[0])
    ensures ChainInv(chains[job.b := Remove(chains[job.b], todo[0])], tasks[t := u])
  {
    var b, x := job.b, todo[0];
    assert PassOk(chains, tasks, tasks[t].pc);
    TodoRemove(chains, tasks, tasks[t].pc);
    TakeOffChained(chains, tasks, t, b, x, u);
    TakeOffPresent(chains, tasks, t, b, x, u);
    PassesElsewhere(chains, tasks, t, u, b, Remove(chains[b], x));
    TakeOffPass(chains, tasks, t, u);
  }

  /** The tasks after w was cleared and the passer moved on to u. */
  function Cleaned(tasks: seq<Task>, t: nat, w: nat, u: Task): seq<Task>
    requires t < |tasks| && w < |tasks|
  {
    tasks[w := tasks[w].(lock := None)][t := u]
  }

  lemma {:induction false} ClearPasses(chains: seq<seq<nat>>, tasks: seq<Task>, t: nat, u: Task, h: nat)
    requires ChainInv(chains, tasks) && t < |tasks| && tasks[t].pc.Clearing? && tasks[t].pc.w < |tasks| && tasks[t].pc.w != t
    requires tasks[t].pc.job.b < |chains| && NoPasser(tasks, t, tasks[t].pc.job.b)
    requires !u.pc.Clearing? && (Passing(u.pc) ==> u.pc.job == tasks[t].pc.job && u.pc.todo == tasks[t].pc.todo)
    requires Resting(tasks[tasks[t].pc.w].pc) && h < |tasks|
    ensures var q := Cleaned(tasks, t, tasks[t].pc.w, u); RemovedOk(chains, q, q[h].pc) && PassOk(chains, q, q[h].pc)
  {
    assert RemovedOk(chains, tasks, tasks[t].pc) && PassOk(chains, tasks, tasks[t].pc);
    assert RemovedOk(chains, tasks, tasks[h].pc) && PassOk(chains, tasks, tasks[h].pc);
  }

  lemma {:induction false} ClearPresent(chains: seq<seq<nat>>, tasks: seq<Task>, t: nat, u: Task, x: nat)
    requires Present(chains, tasks) && t < |tasks| && tasks[t].pc.Clearing? && tasks[t].pc.w < |tasks| && tasks[t].pc.w != t
    requires !Resting(u.pc) && !u.pc.Clearing? && x < |tasks|
    requires var v := Cleaned(tasks, t, tasks[t].pc.w, u)[x]; Resting(v.pc) && v.lock.Some?
    ensures var q := Cleaned(tasks, t, tasks[t].pc.w, u);
      q[x].lock.value < |chains| && (x in chains[q[x].lock.value] || Taken(q, x))
  {
    var q := Cleaned(tasks, t, tasks[t].pc.w, u);
    if x !in chains[q[x].lock.value] {
      assert Taken(tasks, x);
      var h :| 0 <= h < |tasks| && tasks[h].pc.Clearing? && tasks[h].pc.w == x;
      assert q[h].pc.Clearing? && q[h].pc.w == x;
    }
  }

  lemma {:induction false} ClearKeeps(chains: seq<seq<nat>>, tasks: seq<Task>, t: nat, u: Task)
    requires ChainInv(chains, tasks) && t < |tasks| && tasks[t].pc.Clearing?
    requires tasks[t].pc.job.b < |chains| && NoPasser(tasks, t, tasks[t].pc.job.b)
    requires !Resting(u.pc) && !u.pc.Clearing?
    requires Passing(u.pc) ==> u.pc.job == tasks[t].pc.job && u.pc.todo == tasks[t].pc.todo
    ensures var w := tasks[t].pc.w; w < |tasks| && w != t && ChainInv(chains, Cleaned(tasks, t, w, u))
  {
    var w := tasks[t].pc.w;
    assert RemovedOk(chains, tasks, tasks[t].pc) && PassOk(chains, tasks, tasks[t].pc);
    var q := Cleaned(tasks, t, w, u);
    forall b | 0 <= b < |chains| ensures ChainOk(chains[b], q, b) {
      assert ChainOk(chains[b], tasks, b);
    }
    forall h | 0 <= h < |q| ensures RemovedOk(chains, q, q[h].pc) && PassOk(chains, q, q[h].pc) {
      ClearPasses(chains, tasks, t, u, h);
    }
    forall x | 0 <= x < |q| && Resting(q[x].pc) && q[x].lock.Some?
      ensures q[x].lock.value < |chains| && (x in chains[q[x].lock.value] || Taken(q, x))
    {
      ClearPresent(chains, tasks, t, u, x);
    }
  }

  /** The task as Shift leaves it. */
  function Shifted(u: Task, job: Job): Task
    requires job.Requeue?
  {
    Task(u.pc, job.k2, job.b2, if job.b == job.b2 then u.lock else Some(job.b2))
  }

  function ShiftedChains(chains: seq<seq<nat>>, job: Job, x: nat): seq<seq<nat>>
    requires job.Requeue? && job.b < |chains| && job.b2 < |chains|
  {
    if job.b == job.b2 then chains else chains[job.b := Remove(chains[job.b], x)][job.b2 := chains[job.b2] + [x]]
  }

  lemma {:induction false} ShiftChained(chains: seq<seq<nat>>, tasks: seq<Task>, job: Job, x: nat)
    requires Chained(chains, tasks) && job.Requeue? && job.b < |chains| && job.b2 < |chains| && OnChain(tasks, job.b, x)
    ensures Chained(ShiftedChains(chains, job, x), tasks[x := Shifted(tasks[x], job)])
  {
    var u := Shifted(tasks[x], job);
    var q, d := tasks[x := u], ShiftedChains(chains, job, x);
    forall e | 0 <= e < |d| ensures ChainOk(d[e], q, e) {
      assert ChainOk(chains[e], tasks, e);
      if job.b != job.b2 {
        ChainRemove(chains[e], tasks, e, x, u);
        if e != job.b {
          RemoveNone(chains[e], x);
        }
      }
    }
  }

  lemma {:induction false} ShiftOthers(chains: seq<seq<nat>>, tasks: seq<Task>, t: nat, job: Job, x: nat)
    requires Chained(chains, tasks) && Passes(chains, tasks) && Removed(chains, tasks) && t < |tasks|
    requires job.Requeue? && job.b < |chains| && job.b2 < |chains| && OnChain(tasks, job.b, x)
    requires NoPasser(tasks, t, job.b) && NoPasser(tasks, t, job.b2)
    ensures var q := tasks[x := Shifted(tasks[x], job)]; var d := ShiftedChains(chains, job, x);
      forall h :: 0 <= h < |tasks| && h != t ==> PassOk(d, q, q[h].pc) && RemovedOk(d, q, q[h].pc)
  {
    var q, d := tasks[x := Shifted(tasks[x], job)], ShiftedChains(chains, job, x);
    forall h | 0 <= h < |tasks| && h != t ensures PassOk(d, q, q[h].pc) && RemovedOk(d, q, q[h].pc) {
      assert PassOk(chains, tasks, tasks[h].pc) && RemovedOk(chains, tasks, tasks[h].pc);
      if Passing(q[h].pc) {
        var e := q[h].pc.job.b;
        assert ChainOk(chains[e], tasks, e);
      }
    }
  }

  lemma {:induction false} ShiftPresent(chains: seq<seq<nat>>, tasks: seq<Task>, job: Job, x: nat)
    requires Chained(chains, tasks) && Present(chains, tasks)
    requires job.Requeue? && job.b < |chains| && job.b2 < |chains| && OnChain(tasks, job.b, x) && x in chains[job.b]
    ensures Present(ShiftedChains(chains, job, x), tasks[x := Shifted(tasks[x], job)])
  {
    var q, d := tasks[x := Shifted(tasks[x], job)], ShiftedChains(chains, job, x);
    forall y | 0 <= y < |q| && Resting(q[y].pc) && q[y].lock.Some?
      ensures q[y].lock.value < |d| && (y in d[q[y].lock.value] || Taken(q, y))
    {
      if y != x && y !in chains[tasks[y].lock.value] {
        var h :| 0 <= h < |tasks| && tasks[h].pc.Clearing? && tasks[h].pc.w == y;
        assert q[h].pc.Clearing? && q[h].pc.w == y;
      }
    }
  }

  lemma {:induction false} ShiftPass(chains: seq<seq<nat>>, tasks: seq<Task>, pc: Pc, ret: int, drops: nat)
    requires Chained(chains, tasks) && pc.Scanning? && PassOk(chains, tasks, pc) && pc.todo != []
    requires pc.job.Requeue? && pc.job.b2 < |chains|
    ensures pc.todo[0] < |tasks|
    ensures var job := pc.job; var x := pc.todo[0];
      PassOk(ShiftedChains(chains, job, x), tasks[x := Shifted(tasks[x], job)], Scanning(job, ret, drops, pc.todo[1..]))
  {
    var job, x, rest := pc.job, pc.todo[0], pc.todo[1..];
    TodoRemove(chains, tasks, pc);
    var q, d := tasks[x := Shifted(tasks[x], job)], ShiftedChains(chains, job, x);
    var c := chains[job.b];
    var n := |c| - |pc.todo|;
    if job.b == job.b2 {
      assert c[n + 1..] == rest;
    } else {
      assert d[job.b] == c[..n] + rest;
      assert d[job.b][n..] == rest && d[job.b][..n] == c[..n];
    }
  }

  /** A requeue keeps the waiter on the chain of its new key. */
  lemma {:induction false} ShiftKeeps(chains: seq<seq<nat>>, tasks: seq<Task>, t: nat, u: Task)
    requires ChainInv(chains, tasks) && t < |tasks| && tasks[t].pc.Scanning? && tasks[t].pc.todo != []
    requires var job := tasks[t].pc.job; job.Requeue? && job.b < |chains| && job.b2 < |chains|
                                         && NoPasser(tasks, t, job.b) && NoPasser(tasks, t, job.b2)
    requires u.pc.Dropping? || (u.pc.Scanning? && u.pc.job == tasks[t].pc.job && u.pc.todo == tasks[t].pc.todo[1..])
    ensures var x := tasks[t].pc.todo[0]; x < |tasks| && x != t && Resting(tasks[x].pc)
    ensures var job := tasks[t].pc.job; var x := tasks[t].pc.todo[0];
      ChainInv(ShiftedChains(chains, job, x), tasks[x := Shifted(tasks[x], job)][t := u])
  {
    var pc := tasks[t].pc;
    var job, x := pc.job, pc.todo[0];
    assert PassOk(chains, tasks, pc);
    TodoRemove(chains, tasks, pc);
    var q, d := tasks[x := Shifted(tasks[x], job)], ShiftedChains(chains, job, x);
    ShiftChained(chains, tasks, job, x);
    ShiftOthers(chains, tasks, t, job, x);
    ShiftPresent(chains, tasks, job, x);
    if u.pc.Scanning? {
      ShiftPass(chains, tasks, pc, u.pc.ret, u.pc.drops);
    }
    PasserMoves(d, q, t, u);
  }

  /** The passing task alone moves; everybody else's part is in order already. */
  lemma {:induction false} PasserMoves(chains: seq<seq<nat>>, tasks: seq<Task>, t: nat, u: Task)
    requires Chained(chains, tasks) && Present(chains, tasks) && t < |tasks| && tasks[t].pc.Scanning?
    requires forall h :: 0 <= h < |tasks| && h != t ==> PassOk(chains, tasks, tasks[h].pc) && RemovedOk(chains, tasks, tasks[h].pc)
    requires !Resting(u.pc) && !u.pc.Clearing? && PassOk(chains, tasks, u.pc)
    ensures ChainInv(chains, tasks[t := u])
  {
    var q := tasks[t := u];
    TakenKept(tasks, t, u);
    ChainedMove(chains, tasks, t, u);
    forall h | 0 <= h < |q| ensures PassOk(chains, q, q[h].pc) && RemovedOk(chains, q, q[h].pc) {
      assert PassOk(chains, tasks, q[h].pc) && RemovedOk(chains, tasks, q[h].pc);
      if Passing(q[h].pc) {
        assert ChainOk(chains[q[h].pc.job.b], tasks, q[h].pc.job.b);
      }
    }
  }

  // ----- The references -----

  predicate HasRef(pc: Pc) { pc.Wanting? || pc.Checking? || pc.Matched? || Resting(pc) }

  /** The references on key k that task u must still drop. */
  function RefsOf(u: Task, k: nat): nat {
    match u.pc
    case Scanning(job, _, drops, _) => if job.k == k then drops else 0
    case Clearing(job, _, drops, _, _) => if job.k == k then drops else 0
    case Dropping(j, drops) => if j == k then drops else 0
    case _ => if HasRef(u.pc) && u.key == k then 1 else 0
  }

  function Tally(tasks: seq<Task>, k: nat): nat {
    if tasks == [] then 0 else Tally(tasks[..|tasks| - 1], k) + RefsOf(tasks[|tasks| - 1], k)
  }

  /** Every reference taken on a key is owed by exactly one task. */
  predicate RefsOk(refs: seq<int>, tasks: seq<Task>) {
    forall k :: 0 <= k < |refs| ==> refs[k] == Tally(tasks, k)
  }

  lemma {:induction false} TallyMoved(tasks: seq<Task>, t: nat, u: Task, k: nat)
    requires t < |tasks|
    ensures Tally(tasks[t := u], k) == Tally(tasks, k) - RefsOf(tasks[t], k) + RefsOf(u, k)
  {
    var n := |tasks| - 1;
    if t == n {
      assert tasks[t := u][..n] == tasks[..n];
    } else {
      TallyMoved(tasks[..n], t, u, k);
      assert tasks[t := u][..n] == tasks[..n][t := u];
    }
  }

  lemma {:induction false} RefsMove(refs: seq<int>, tasks: seq<Task>, t: nat, u: Task)
    requires RefsOk(refs, tasks) && t < |tasks| && forall k: nat :: RefsOf(u, k) == RefsOf(tasks[t], k)
    ensures RefsOk(refs, tasks[t := u])
  {
    forall k | 0 <= k < |refs| ensures refs[k] == Tally(tasks[t := u], k) {
      TallyMoved(tasks, t, u, k);
    }
  }

  lemma {:induction false} RefsCount(refs: seq<int>, tasks: seq<Task>, t: nat, u: Task, k: nat, d: int)
    requires RefsOk(refs, tasks) && t < |tasks| && k < |refs|
    requires forall j: nat :: RefsOf(u, j) == RefsOf(tasks[t], j) + if j == k then d else 0
    ensures RefsOk(Counted(refs, k, d), tasks[t := u])
  {
    var r := Counted(refs, k, d);
    forall j | 0 <= j < |r| ensures r[j] == Tally(tasks[t := u], j) {
      TallyMoved(tasks, t, u, j);
    }
  }

  lemma {:induction false} RefsTwo(refs: seq<int>, tasks: seq<Task>, x: nat, v: Task, t: nat, u: Task, k: nat)
    requires RefsOk(refs, tasks) && t < |tasks| && x < |tasks| && x != t && k < |refs|
    requires forall j: nat :: RefsOf(v, j) + RefsOf(u, j) == RefsOf(tasks[x], j) + RefsOf(tasks[t], j) + if j == k then 1 else 0
    ensures RefsOk(Counted(refs, k, 1), tasks[x := v][t := u])
  {
    var r := Counted(refs, k, 1);
    forall j | 0 <= j < |r| ensures r[j] == Tally(tasks[x := v][t := u], j) {
      TallyMoved(tasks, x, v, j);
      TallyMoved(tasks[x := v], t, u, j);
    }
  }

  // ----- Every step keeps the invariant -----

  /** queue_lock sets lock_ptr before the waiter is queued. */
  predicate Prepared(tasks: seq<Task>) {
    forall t :: 0 <= t < |tasks| && (tasks[t].pc.Wanting? || tasks[t].pc.Checking? || tasks[t].pc.Matched?) ==>
      tasks[t].lock == Some(tasks[t].home)
  }

  predicate Inv(s: State) {
    && Shaped(s) && Prepared(s.tasks)
    && Locked(s.locks, s.tasks) && ChainInv(s.chains, s.tasks) && RefsOk(s.refs, s.tasks)
  }

  lemma {:induction false} ShapedStep(s: State, s': State)
    requires Shaped(s) && s'.hash == s.hash && |s'.words| == |s.words| && |s'.refs| == |s.refs|
    requires |s'.chains| == |s.chains| && |s'.locks| == |s.locks| && |s'.tasks| == |s.tasks|
    requires forall t :: 0 <= t < |s.tasks| ==> s'.tasks[t] == s.tasks[t] || TaskOk(s', s'.tasks[t])
    ensures Shaped(s')
  {
    forall t | 0 <= t < |s'.tasks| ensures TaskOk(s', s'.tasks[t]) {
      assert TaskOk(s, s.tasks[t]);
    }
  }

  /** The steps of a waiter up to and including its queueing. */
  lemma {:induction false} WaitBeginKeeps(s: State, t: nat, a: Action)
    requires Inv(s) && t < |s.tasks| && Can(s, t, a) && a.WaitBegin?
    ensures Inv(Do(s, t, a))
  {
    var u := Task(Wanting(a.val), a.k, s.hash[a.k], Some(s.hash[a.k]));
    ShapedStep(s, Do(s, t, a));
    LockedMove(s.locks, s.tasks, t, u);
    QuietMove(s.chains, s.tasks, t, u);
    RefsCount(s.refs, s.tasks, t, u, a.k, 1);
  }

  lemma {:induction false} WaitLockKeeps(s: State, t: nat)
    requires Inv(s) && t < |s.tasks| && Can(s, t, WaitLock)
    ensures Inv(Do(s, t, WaitLock))
  {
    assert TaskOk(s, s.tasks[t]);
    var u := s.tasks[t].(pc := Checking(s.tasks[t].pc.val));
    ShapedStep(s, Do(s, t, WaitLock));
    LockedTake(s.locks, s.tasks, t, u, u.home);
    QuietMove(s.chains, s.tasks, t, u);
    RefsMove(s.refs, s.tasks, t, u);
  }

  lemma {:induction false} CheckKeeps(s: State, t: nat, fault: bool)
    requires Inv(s) && t < |s.tasks| && Can(s, t, Check(fault))
    ensures Inv(Do(s, t, Check(fault)))
  {
    var u := s.tasks[t];
    assert TaskOk(s, u);
    ShapedStep(s, DoCheck(s, t, fault));
    if !fault && s.words[u.key] == u.pc.val {
      var v := u.(pc := Matched);
      LockedMove(s.locks, s.tasks, t, v);
      QuietMove(s.chains, s.tasks, t, v);
      RefsMove(s.refs, s.tasks, t, v);
    } else {
      var v := u.(pc := Idle);
      LockedDrop(s.locks, s.tasks, t, v, u.home);
      QuietMove(s.chains, s.tasks, t, v);
      RefsCount(s.refs, s.tasks, t, v, u.key, -1);
    }
  }

  lemma {:induction false} EnqueueStepKeeps(s: State, t: nat)
    requires Inv(s) && t < |s.tasks| && Can(s, t, Enqueue)
    ensures Inv(Do(s, t, Enqueue))
  {
    var u := s.tasks[t];
    assert TaskOk(s, u);
    var v := u.(pc := Asleep);
    ShapedStep(s, Do(s, t, Enqueue));
    AlonePasses(s.locks, s.tasks, t, u.home);
    EnqueueKeeps(s.chains, s.tasks, t, u.home);
    LockedDrop(s.locks, s.tasks, t, v, u.home);
    RefsMove(s.refs, s.tasks, t, v);
  }

  lemma {:induction false} LeaveStepKeeps(s: State, t: nat)
    requires Inv(s) && t < |s.tasks| && Can(s, t, Leave)
    ensures Inv(Do(s, t, Leave))
  {
    var u := s.tasks[t];
    assert TaskOk(s, u);
    ShapedStep(s, Do(s, t, Leave));
    if u.lock.None? {
      var v := u.(pc := Idle);
      LockedMove(s.locks, s.tasks, t, v);
      LeaveKeeps(s.chains, s.tasks, t, v);
      RefsCount(s.refs, s.tasks, t, v, u.key, -1);
    } else {
      var v := u.(pc := Leaving(u.lock.value));
      LockedMove(s.locks, s.tasks, t, v);
      QuietMove(s.chains, s.tasks, t, v);
      RefsMove(s.refs, s.tasks, t, v);
    }
  }

  lemma {:induction false} LeaveLockKeeps(s: State, t: nat)
    requires Inv(s) && t < |s.tasks| && Can(s, t, LeaveLock)
    ensures Inv(Do(s, t, LeaveLock))
  {
    var u := s.tasks[t];
    assert TaskOk(s, u);
    var v := u.(pc := Deciding(u.pc.l));
    ShapedStep(s, Do(s, t, LeaveLock));
    LockedTake(s.locks, s.tasks, t, v, u.pc.l);
    QuietMove(s.chains, s.tasks, t, v);
    RefsMove(s.refs, s.tasks, t, v);
  }

  /** unqueue_me: when lock_ptr still is the lock it took, the waiter is on that chain and nowhere else,
      so it takes itself off under the right lock. */
  lemma {:induction false} DecideKeeps(s: State, t: nat)
    requires Inv(s) && t < |s.tasks| && Can(s, t, Decide)
    ensures Inv(Do(s, t, Decide))
    ensures var u := s.tasks[t]; u.lock == Some(u.pc.l) ==> t in s.chains[u.pc.l] && s.hash[u.key] == u.pc.l
  {
    var u := s.tasks[t];
    assert TaskOk(s, u);
    var l := u.pc.l;
    ShapedStep(s, DoDecide(s, t));
    if u.lock != Some(l) {
      var v := u.(pc := Asleep);
      LockedDrop(s.locks, s.tasks, t, v, l);
      QuietMove(s.chains, s.tasks, t, v);
      RefsMove(s.refs, s.tasks, t, v);
    } else {
      var v := u.(pc := Idle);
      AlonePasses(s.locks, s.tasks, t, l);
      LockedDrop(s.locks, s.tasks, t, v, l);
      UnlinkKeeps(s.chains, s.tasks, t, l, v);
      RefsCount(s.refs, s.tasks, t, v, u.key, -1);
    }
  }

  lemma {:induction false} StartKeeps(s: State, t: nat, job: Job)
    requires Inv(s) && t < |s.tasks| && Can(s, t, Start(job))
    ensures Inv(Do(s, t, Start(job)))
  {
    var v := s.tasks[t].(pc := Want(job));
    assert TaskOk(s, s.tasks[t]);
    ShapedStep(s, Do(s, t, Start(job)));
    LockedMove(s.locks, s.tasks, t, v);
    QuietMove(s.chains, s.tasks, t, v);
    RefsMove(s.refs, s.tasks, t, v);
  }

  lemma {:induction false} JobLockKeeps(s: State, t: nat, a: Action)
    requires Inv(s) && t < |s.tasks| && Can(s, t, a) && (a.Lock1? || a.Lock2?)
    ensures Inv(Do(s, t, a))
  {
    var u := s.tasks[t];
    assert TaskOk(s, u);
    var job := u.pc.job;
    var v := u.(pc := if a.Lock2? || job.b == job.Other() then Begun(job) else Want2(job));
    ShapedStep(s, Do(s, t, a));
    LockedTake(s.locks, s.tasks, t, v, if a.Lock1? then job.First() else job.Second());
    QuietMove(s.chains, s.tasks, t, v);
    RefsMove(s.refs, s.tasks, t, v);
  }

  lemma {:induction false} FinishKeeps(s: State, t: nat, job: Job, drops: nat)
    requires Inv(s) && t < |s.tasks| && JobOk(s, job)
    requires var pc := s.tasks[t].pc;
      (pc == Begun(job) && drops == 0) || (pc.Scanning? && pc.job == job && pc.drops == drops)
    ensures Inv(Finish(s, t, job, drops))
  {
    var v := s.tasks[t].(pc := Dropping(job.k, drops));
    assert TaskOk(s, s.tasks[t]);
    ShapedStep(s, Finish(s, t, job, drops));
    LockedGive(s.locks, s.tasks, t, v, job.b, job.Other());
    PassMove(s.chains, s.tasks, t, v);
    RefsMove(s.refs, s.tasks, t, v);
  }

  lemma {:induction false} ScanKeeps(s: State, t: nat, job: Job, v: Task)
    requires Inv(s) && t < |s.tasks| && s.tasks[t].pc == Begun(job) && JobOk(s, job)
    requires v == s.tasks[t].(pc := Scanning(job, 0, 0, s.chains[job.b]))
    ensures Inv(s.(tasks := s.tasks[t := v]))
  {
    var c := s.chains[job.b];
    assert TaskOk(s, s.tasks[t]);
    assert ChainOk(c, s.tasks, job.b);
    ShapedStep(s, s.(tasks := s.tasks[t := v]));
    LockedMove(s.locks, s.tasks, t, v);
    PassMove(s.chains, s.tasks, t, v);
    RefsMove(s.refs, s.tasks, t, v);
  }

  lemma {:induction false} BeginKeeps(s: State, t: nat)
    requires Inv(s) && t < |s.tasks| && Can(s, t, Begin)
    ensures Inv(Do(s, t, Begin))
  {
    var u := s.tasks[t];
    assert TaskOk(s, u);
    var job := u.pc.job;
    if job.Requeue? && job.cmp.Some? && s.words[job.k] != job.cmp.value {
      FinishKeeps(s, t, job, 0);
    } else {
      ScanKeeps(s, t, job, u.(pc := Scanning(job, 0, 0, s.chains[job.b])));
    }
  }

  lemma {:induction false} DropKeeps(s: State, t: nat, a: Action)
    requires Inv(s) && t < |s.tasks| && Can(s, t, a) && (a.Drop? || a.Store?)
    ensures Inv(Do(s, t, a))
  {
    var u := s.tasks[t];
    assert TaskOk(s, u);
    ShapedStep(s, Do(s, t, a));
    if a.Drop? {
      var v := u.(pc := if u.pc.drops > 0 then Dropping(u.pc.k, u.pc.drops - 1) else Idle);
      LockedMove(s.locks, s.tasks, t, v);
      QuietMove(s.chains, s.tasks, t, v);
      if u.pc.drops > 0 {
        RefsCount(s.refs, s.tasks, t, v, u.pc.k, -1);
      } else {
        RefsMove(s.refs, s.tasks, t, v);
      }
    }
  }

  lemma {:induction false} SkipKeeps(s: State, t: nat)
    requires Inv(s) && t < |s.tasks| && s.tasks[t].pc.Scanning? && s.tasks[t].pc.todo != []
    requires s.tasks[t].pc.todo[0] < |s.tasks| && s.tasks[s.tasks[t].pc.todo[0]].key != s.tasks[t].pc.job.k
    ensures Inv(DoNext(s, t))
  {
    var u := s.tasks[t];
    assert TaskOk(s, u) && PassOk(s.chains, s.tasks, u.pc);
    var Scanning(job, ret, drops, todo) := u.pc;
    var v := u.(pc := Scanning(job, ret, drops, todo[1..]));
    SkipOk(s.chains, s.tasks, job, ret, drops, todo);
    ShapedStep(s, DoNext(s, t));
    LockedMove(s.locks, s.tasks, t, v);
    PassMove(s.chains, s.tasks, t, v);
    RefsMove(s.refs, s.tasks, t, v);
  }

  lemma {:induction false} TakeOffShaped(s: State, t: nat, job: Job, ret: int, drops: nat, todo: seq<nat>)
    requires Shaped(s) && Prepared(s.tasks) && t < |s.tasks| && todo != [] && JobOk(s, job) && TaskOk(s, s.tasks[t])
    requires s.tasks[t].pc.Scanning? && s.tasks[t].pc.todo == todo
    ensures Shaped(TakeOff(s, t, job, ret, drops, todo[1..], todo[0])) && Prepared(TakeOff(s, t, job, ret, drops, todo[1..], todo[0]).tasks)
  {
    ShapedStep(s, TakeOff(s, t, job, ret, drops, todo[1..], todo[0]));
  }

  lemma {:induction false} TakeOffStepKeeps(s: State, t: nat, job: Job, ret: int, drops: nat, todo: seq<nat>)
    requires Inv(s) && t < |s.tasks| && todo != [] && JobOk(s, job) && TaskOk(s, s.tasks[t])
    requires var pc := s.tasks[t].pc; pc.Scanning? && pc.job == job && pc.drops == drops && pc.todo == todo
    ensures Inv(TakeOff(s, t, job, ret, drops, todo[1..], todo[0]))
  {
    var v := s.tasks[t].(pc := Clearing(job, ret, drops, todo[1..], todo[0]));
    TakeOffShaped(s, t, job, ret, drops, todo);
    LockedMove(s.locks, s.tasks, t, v);
    AlonePasses(s.locks, s.tasks, t, job.b);
    TakeOffKeeps(s.chains, s.tasks, t, job, ret, drops, todo, v);
    RefsMove(s.refs, s.tasks, t, v);
  }

  /** Locks and references of a requeue step, on both tasks. */
  lemma {:induction false} ShiftBooks(s: State, t: nat, x: nat, u: Task)
    requires Inv(s) && t < |s.tasks| && x < |s.tasks| && x != t && Resting(s.tasks[x].pc)
    requires s.tasks[t].pc.Scanning? && s.tasks[t].pc.job.Requeue? && s.tasks[x].key == s.tasks[t].pc.job.k
    requires var pc := s.tasks[t].pc;
      || (u.pc.Scanning? && u.pc.job == pc.job && u.pc.drops == pc.drops + 1)
      || u.pc == Dropping(pc.job.k, pc.drops + 1)
    ensures var job := s.tasks[t].pc.job; var q := s.tasks[x := Shifted(s.tasks[x], job)];
      && job.k2 < |s.refs| && RefsOk(Counted(s.refs, job.k2, 1), q[t := u])
      && (u.pc.Scanning? ==> Locked(s.locks, q[t := u]))
      && job.b < |s.locks| && job.b2 < |s.locks|
      && (u.pc.Dropping? ==> Locked(s.locks[job.b := None][job.b2 := None], q[t := u]))
  {
    assert TaskOk(s, s.tasks[t]);
    var job := s.tasks[t].pc.job;
    var v := Shifted(s.tasks[x], job);
    RefsTwo(s.refs, s.tasks, x, v, t, u, job.k2);
    LockedMove(s.locks, s.tasks, x, v);
    if u.pc.Scanning? {
      LockedMove(s.locks, s.tasks[x := v], t, u);
    } else {
      LockedGive(s.locks, s.tasks[x := v], t, u, job.b, job.b2);
    }
  }

  /** Where the passing task stands after a requeue. */
  function Onward(job: Job, ret: int, drops: nat, rest: seq<nat>): Pc
    requires job.Requeue?
  {
    if ret - job.nw >= job.nr then Dropping(job.k, drops) else Scanning(job, ret, drops, rest)
  }

  /** The whole state after a requeue step. */
  lemma {:induction false} RequeueIs(s: State, t: nat, job: Job, ret: int, drops: nat, todo: seq<nat>, u: Task)
    requires Shaped(s) && t < |s.tasks| && s.tasks[t].pc == Scanning(job, ret, drops, todo) && JobOk(s, job) && job.Requeue?
    requires todo != [] && todo[0] < |s.tasks| && todo[0] != t && s.tasks[todo[0]].key == job.k && ret + 1 > job.nw
    requires u == s.tasks[t].(pc := Onward(job, ret + 1, drops + 1, todo[1..]))
    ensures DoNext(s, t) == AfterShift(s, t, job, todo[0], u)
  {
    assert TaskOk(s, s.tasks[t]);
  }

  function AfterShift(s: State, t: nat, job: Job, x: nat, u: Task): State
    requires t < |s.tasks| && x < |s.tasks| && job.Requeue? && job.k2 < |s.refs|
    requires job.b < |s.chains| == |s.locks| && job.b2 < |s.chains|
  {
    State(s.hash, s.words, Counted(s.refs, job.k2, 1), ShiftedChains(s.chains, job, x),
          if u.pc.Dropping? then s.locks[job.b := None][job.b2 := None] else s.locks,
          s.tasks[x := Shifted(s.tasks[x], job)][t := u])
  }

  lemma {:induction false} ShiftShaped(s: State, t: nat, job: Job, x: nat, u: Task)
    requires Shaped(s) && Prepared(s.tasks) && t < |s.tasks| && x < |s.tasks| && job.Requeue? && JobOk(s, job)
    requires Resting(s.tasks[x].pc) && TaskOk(s, u) && (u.pc.Dropping? || u.pc.Scanning?)
    ensures Shaped(AfterShift(s, t, job, x, u)) && Prepared(AfterShift(s, t, job, x, u).tasks)
  {
    assert TaskOk(s, s.tasks[x]);
    ShapedStep(s, AfterShift(s, t, job, x, u));
  }

  lemma {:induction false} ShiftInv(s: State, t: nat, job: Job, x: nat, u: Task)
    requires Inv(s) && t < |s.tasks| && s.tasks[t].pc.Scanning? && s.tasks[t].pc.todo != []
    requires job == s.tasks[t].pc.job && x == s.tasks[t].pc.todo[0] && job.Requeue? && JobOk(s, job) && TaskOk(s, u)
    requires x < |s.tasks| && s.tasks[x].key == job.k
    requires || (u.pc.Scanning? && u.pc.job == job && u.pc.todo == s.tasks[t].pc.todo[1..] && u.pc.drops == s.tasks[t].pc.drops + 1)
             || u.pc == Dropping(job.k, s.tasks[t].pc.drops + 1)
    ensures x != t && Inv(AfterShift(s, t, job, x, u))
  {
    AlonePasses(s.locks, s.tasks, t, job.b);
    AlonePasses(s.locks, s.tasks, t, job.b2);
    ShiftKeeps(s.chains, s.tasks, t, u);
    ShiftBooks(s, t, x, u);
    ShiftShaped(s, t, job, x, u);
  }

  lemma {:induction false} RequeueKeeps(s: State, t: nat)
    requires Inv(s) && t < |s.tasks| && s.tasks[t].pc.Scanning? && s.tasks[t].pc.todo != [] && s.tasks[t].pc.job.Requeue?
    requires s.tasks[t].pc.todo[0] < |s.tasks| && s.tasks[s.tasks[t].pc.todo[0]].key == s.tasks[t].pc.job.k
    requires s.tasks[t].pc.ret + 1 > s.tasks[t].pc.job.nw
    ensures Inv(DoNext(s, t))
  {
    assert TaskOk(s, s.tasks[t]);
    var Scanning(job, ret, drops, todo) := s.tasks[t].pc;
    var u := s.tasks[t].(pc := Onward(job, ret + 1, drops + 1, todo[1..]));
    ShiftInv(s, t, job, todo[0], u);
    RequeueIs(s, t, job, ret, drops, todo, u);
  }

  lemma {:induction false} ClearBooks(s: State, t: nat, w: nat, u: Task)
    requires Inv(s) && t < |s.tasks| && w < |s.tasks| && w != t && Resting(s.tasks[w].pc) && s.tasks[t].pc.Clearing?
    requires var pc := s.tasks[t].pc;
      || (u.pc.Scanning? && u.pc.job == pc.job && u.pc.drops == pc.drops)
      || u.pc == Dropping(pc.job.k, pc.drops)
    ensures var job := s.tasks[t].pc.job; var q := s.tasks[w := s.tasks[w].(lock := None)][t := u];
      && RefsOk(s.refs, q)
      && (u.pc.Scanning? ==> Locked(s.locks, q))
      && job.b < |s.locks| && job.Other() < |s.locks|
      && (u.pc.Dropping? ==> Locked(s.locks[job.b := None][job.Other() := None], q))
  {
    assert TaskOk(s, s.tasks[t]);
    var v, job := s.tasks[w].(lock := None), s.tasks[t].pc.job;
    RefsMove(s.refs, s.tasks, w, v);
    RefsMove(s.refs, s.tasks[w := v], t, u);
    LockedMove(s.locks, s.tasks, w, v);
    if u.pc.Scanning? {
      LockedMove(s.locks, s.tasks[w := v], t, u);
    } else {
      LockedGive(s.locks, s.tasks[w := v], t, u, job.b, job.Other());
    }
  }

  function AfterClear(s: State, t: nat, job: Job, w: nat, u: Task): State
    requires t < |s.tasks| && w < |s.tasks| && job.b < |s.locks| && job.Other() < |s.locks|
  {
    State(s.hash, s.words, s.refs, s.chains,
          if u.pc.Dropping? then s.locks[job.b := None][job.Other() := None] else s.locks,
          s.tasks[w := s.tasks[w].(lock := None)][t := u])
  }

  lemma {:induction false} ClearShaped(s: State, t: nat, job: Job, w: nat, u: Task)
    requires Shaped(s) && Prepared(s.tasks) && t < |s.tasks| && w < |s.tasks| && JobOk(s, job)
    requires Resting(s.tasks[w].pc) && TaskOk(s, u) && (u.pc.Dropping? || u.pc.Scanning?)
    ensures Shaped(AfterClear(s, t, job, w, u)) && Prepared(AfterClear(s, t, job, w, u).tasks)
  {
    assert TaskOk(s, s.tasks[w]);
    ShapedStep(s, AfterClear(s, t, job, w, u));
  }

  lemma {:induction false} ClearInv(s: State, t: nat, job: Job, w: nat, u: Task)
    requires Inv(s) && t < |s.tasks| && s.tasks[t].pc.Clearing? && job == s.tasks[t].pc.job && w == s.tasks[t].pc.w
    requires JobOk(s, job) && TaskOk(s, u)
    requires || (u.pc.Scanning? && u.pc.job == job && u.pc.todo == s.tasks[t].pc.todo && u.pc.drops == s.tasks[t].pc.drops)
             || u.pc == Dropping(job.k, s.tasks[t].pc.drops)
    ensures w < |s.tasks| && w != t && Inv(AfterClear(s, t, job, w, u))
  {
    assert RemovedOk(s.chains, s.tasks, s.tasks[t].pc);
    AlonePasses(s.locks, s.tasks, t, job.b);
    ClearKeeps(s.chains, s.tasks, t, u);
    ClearBooks(s, t, w, u);
    ClearShaped(s, t, job, w, u);
  }

  lemma {:induction false} ClearStepKeeps(s: State, t: nat)
    requires Inv(s) && t < |s.tasks| && Can(s, t, Clear)
    ensures Inv(DoClear(s, t))
  {
    assert TaskOk(s, s.tasks[t]);
    var Clearing(job, ret, drops, todo, w) := s.tasks[t].pc;
    var last := job.Wake? && ret >= job.n;
    var u := s.tasks[t].(pc := if last then Dropping(job.k, drops) else Scanning(job, ret, drops, todo));
    ClearInv(s, t, job, w, u);
    assert DoClear(s, t) == AfterClear(s, t, job, w, u);
  }

  lemma {:induction false} FinishNext(s: State, t: nat)
    requires Inv(s) && t < |s.tasks| && s.tasks[t].pc.Scanning? && s.tasks[t].pc.todo == []
    ensures Inv(DoNext(s, t))
  {
    assert TaskOk(s, s.tasks[t]);
    FinishKeeps(s, t, s.tasks[t].pc.job, s.tasks[t].pc.drops);
  }

  lemma {:induction false} TakeOffNext(s: State, t: nat)
    requires Inv(s) && t < |s.tasks| && s.tasks[t].pc.Scanning? && s.tasks[t].pc.todo != []
    requires s.tasks[t].pc.todo[0] < |s.tasks| && s.tasks[s.tasks[t].pc.todo[0]].key == s.tasks[t].pc.job.k
    requires s.tasks[t].pc.job.Wake? || s.tasks[t].pc.ret + 1 <= s.tasks[t].pc.job.nw
    ensures Inv(DoNext(s, t))
  {
    assert TaskOk(s, s.tasks[t]);
    var Scanning(job, ret, drops, todo) := s.tasks[t].pc;
    TakeOffStepKeeps(s, t, job, ret + 1, drops, todo);
    assert DoNext(s, t) == TakeOff(s, t, job, ret + 1, drops, todo[1..], todo[0]);
  }

  lemma {:induction false} NextKeeps(s: State, t: nat)
    requires Inv(s) && t < |s.tasks| && Can(s, t, Next)
    ensures Inv(DoNext(s, t))
  {
    assert TaskOk(s, s.tasks[t]);
    var Scanning(job, ret, drops, todo) := s.tasks[t].pc;
    if todo == [] {
      FinishNext(s, t);
    } else if s.tasks[todo[0]].key != job.k {
      SkipKeeps(s, t);
    } else if job.Wake? || ret + 1 <= job.nw {
      TakeOffNext(s, t);
    } else {
      RequeueKeeps(s, t);
    }
  }

  lemma {:induction false} StepKeeps(s: State, t: nat, a: Action)
    requires Inv(s) && t < |s.tasks| && Can(s, t, a)
    ensures Inv(Do(s, t, a))
  {
    match a
    case WaitBegin(_, _) => WaitBeginKeeps(s, t, a);
    case WaitLock => WaitLockKeeps(s, t);
    case Check(fault) => CheckKeeps(s, t, fault);
    case Enqueue => EnqueueStepKeeps(s, t);
    case Leave => LeaveStepKeeps(s, t);
    case LeaveLock => LeaveLockKeeps(s, t);
    case Decide => DecideKeeps(s, t);
    case Start(job) => StartKeeps(s, t, job);
    case Lock1 => JobLockKeeps(s, t, a);
    case Lock2 => JobLockKeeps(s, t, a);
    case Begin => BeginKeeps(s, t);
    case Next => NextKeeps(s, t);
    case Clear => ClearStepKeeps(s, t);
    case Drop => DropKeeps(s, t, a);
    case Store(_, _) => DropKeeps(s, t, a);
  }

  // ----- Runs -----

  predicate Init(s: State) {
    && Shaped(s)
    && (forall t :: 0 <= t < |s.tasks| ==> s.tasks[t].pc == Idle)
    && (forall b :: 0 <= b < |s.chains| ==> s.chains[b] == [] && s.locks[b] == None)
    && (forall k :: 0 <= k < |s.refs| ==> s.refs[k] == 0)
  }

  lemma {:induction false} NoRefs(tasks: seq<Task>, k: nat)
    requires forall t :: 0 <= t < |tasks| ==> tasks[t].pc == Idle
    ensures Tally(tasks, k) == 0
  {
    if tasks != [] {
      NoRefs(tasks[..|tasks| - 1], k);
    }
  }

  lemma {:induction false} InitKeeps(s: State)
    requires Init(s)
    ensures Inv(s)
  {
    forall k | 0 <= k < |s.refs| ensures s.refs[k] == Tally(s.tasks, k) {
      NoRefs(s.tasks, k);
    }
  }

  ghost predicate StepOf(t: nat, s: State, s': State) {
    Shaped(s) && t < |s.tasks| && exists a :: Can(s, t, a) && s' == Do(s, t, a)
  }

  ghost predicate Moves(s: State, s': State) { exists t: nat :: StepOf(t, s, s') }

  ghost predicate Run(run: seq<State>) {
    run != [] && Init(run[0]) && forall n :: 0 < n < |run| ==> Moved(run, n)
  }

  ghost predicate Moved(run: seq<State>, n: nat)
    requires 0 < n < |run|
  {
    Moves(run[n - 1], run[n])
  }

  lemma {:induction false} Reachable(run: seq<State>, n: nat)
    requires Run(run) && n < |run|
    ensures Inv(run[n])
  {
    InitKeeps(run[0]);
    for k := 0 to n
      invariant Inv(run[k])
    {
      assert Moved(run, k + 1);
      MovesKeep(run[k], run[k + 1]);
    }
  }

  lemma {:induction false} MovesKeep(s: State, s': State)
    requires Inv(s) && Moves(s, s')
    ensures Inv(s')
  {
    var t: nat :| StepOf(t, s, s');
    var a :| Can(s, t, a) && s' == Do(s, t, a);
    StepKeeps(s, t, a);
  }

  /** Some task that holds a lock is blocked by nobody. */
  ghost predicate Free(s: State) {
    Shaped(s) && exists t: nat, d: nat, a :: Freely(s, t, d, a)
  }

  ghost predicate Freely(s: State, t: nat, d: nat, a: Action)
    requires Shaped(s)
  {
    t < |s.tasks| && d < |s.locks| && s.locks[d] == Some(t) && !a.Store? && Can(s, t, a)
  }

  /** The holder of the highest lock that is held can go on, since a second lock is a higher one. */
  lemma {:induction false} HighestGoesOn(s: State, d: nat)
    requires Inv(s) && d < |s.locks| && s.locks[d].Some?
    requires forall e :: d < e < |s.locks| ==> s.locks[e] == None
    ensures Free(s)
  {
    var t := s.locks[d].value;
    var u := s.tasks[t];
    assert Holds(u, d) && TaskOk(s, u);
    var a := match u.pc
      case Checking(_) => Check(false)
      case Matched => Enqueue
      case Deciding(_) => Decide
      case Want2(_) => Lock2
      case Begun(_) => Begin
      case Scanning(_, _, _, _) => Next
      case _ => Clear;
    assert Freely(s, t, d, a);
  }

  lemma {:induction false} Highest(locks: seq<Option<nat>>, d: nat) returns (h: nat)
    requires d < |locks| && locks[d].Some?
    ensures d <= h < |locks| && locks[h].Some? && forall e :: h < e < |locks| ==> locks[e] == None
  {
    h := |locks| - 1;
    while locks[h].None?
      invariant d <= h < |locks| && forall e :: h < e < |locks| ==> locks[e] == None
      decreases h
    {
      h := h - 1;
    }
  }

  /** The locks cannot be deadlocked: in every state of every run in which a lock is held, one of the
      holders can go on. */
  lemma {:induction false} NoDeadlock(run: seq<State>, n: nat, d: nat)
    requires Run(run) && n < |run| && d < |run[n].locks| && run[n].locks[d].Some?
    ensures Free(run[n])
  {
    Reachable(run, n);
    var h := Highest(run[n].locks, d);
    HighestGoesOn(run[n], h);
  }

  /** References balance: with nobody under way none is held. */
  lemma {:induction false} RefsBalance(run: seq<State>, n: nat, k: nat)
    requires Run(run) && n < |run| && k < |run[n].refs|
    requires forall t :: 0 <= t < |run[n].tasks| ==> run[n].tasks[t].pc == Idle
    ensures run[n].refs[k] == 0
  {
    Reachable(run, n);
    NoRefs(run[n].tasks, k);
  }

  /** A wake misses nobody: when its pass has come to the end of the chain, every waiter on the key
      either was woken or has not yet read the word. */
  lemma {:induction false} WakeMissesNobody(s: State, t: nat, w: nat)
    requires Inv(s) && t < |s.tasks| && w < |s.tasks| && w != t
    requires s.tasks[t].pc.Scanning? && s.tasks[t].pc.job.Wake? && s.tasks[t].pc.todo == []
    requires HasRef(s.tasks[w].pc) && s.tasks[w].key == s.tasks[t].pc.job.k
    ensures s.tasks[w].pc.Wanting? || (Resting(s.tasks[w].pc) && s.tasks[w].lock == None)
  {
    var pc, u := s.tasks[t].pc, s.tasks[w];
    var b := pc.job.b;
    assert TaskOk(s, s.tasks[t]) && TaskOk(s, u) && PassOk(s.chains, s.tasks, pc);
    assert u.home == b;
    assert s.locks[b] == Some(t);
    assert s.locks[b] == Some(w) <==> Holds(u, b);
    if Resting(u.pc) && u.lock.Some? && w !in s.chains[u.lock.value] {
      var h :| 0 <= h < |s.tasks| && s.tasks[h].pc.Clearing? && s.tasks[h].pc.w == w;
      assert RemovedOk(s.chains, s.tasks, s.tasks[h].pc);
      AlonePasses(s.locks, s.tasks, t, b);
    }
  }

  /** The same state, with todo left of the chain for task t to look at. */
  function Ahead(s: State, t: nat, todo: seq<nat>): State
    requires t < |s.tasks| && s.tasks[t].pc.Scanning?
  {
    var u := s.tasks[t];
    s.(tasks := s.tasks[t := u.(pc := Scanning(u.pc.job, u.pc.ret, u.pc.drops, todo))])
  }

  ghost predicate Steps(t: nat, run: seq<State>) {
    forall n :: 0 < n < |run| ==> StepOf(t, run[n - 1], run[n])
  }

  /** A pass goes over the waiters on other keys. */
  lemma {:induction false} SkipsTo(s: State, t: nat, p: nat) returns (run: seq<State>)
    requires Shaped(s) && t < |s.tasks| && s.tasks[t].pc.Scanning? && p <= |s.tasks[t].pc.todo|
    requires forall i :: 0 <= i < p ==> s.tasks[t].pc.todo[i] < |s.tasks| && s.tasks[s.tasks[t].pc.todo[i]].key != s.tasks[t].pc.job.k
    ensures |run| == p + 1 && run[0] == s && run[p] == Ahead(s, t, s.tasks[t].pc.todo[p..]) && Steps(t, run)
    decreases p
  {
    var todo := s.tasks[t].pc.todo;
    if p == 0 {
      run := [s];
      assert Ahead(s, t, todo[0..]) == s;
    } else {
      var s' := Do(s, t, Next);
      assert s' == Ahead(s, t, todo[1..]);
      ShapedStep(s, s');
      var rest := SkipsTo(s', t, p - 1);
      assert todo[1..][p - 1..] == todo[p..];
      run := [s] + rest;
      forall n | 0 < n < |run| ensures StepOf(t, run[n - 1], run[n]) {
        if n > 1 {
          assert StepOf(t, rest[n - 2], rest[n - 1]);
        }
      }
    }
  }

  /** What a wake of one writes when it finds w: w is off its chain and has no lock_ptr. */
  function Woken(s: State, t: nat, job: Job, w: nat): State
    requires t < |s.tasks| && w < |s.tasks| && job.b < |s.chains|
  {
    s.(tasks := s.tasks[w := s.tasks[w].(lock := None)][t := s.tasks[t].(pc := Dropping(job.k, 0))],
       chains := s.chains[job.b := Remove(s.chains[job.b], w)])
  }

  /** From the first look at the chain to the unlock. */
  lemma {:induction false} PassWakes(s: State, t: nat, p: nat) returns (run: seq<State>)
    requires Shaped(s) && t < |s.tasks| && s.tasks[t].pc.Scanning? && s.tasks[t].pc.job.Wake?
    requires var pc := s.tasks[t].pc;
      && pc.ret == 0 && pc.drops == 0 && pc.job.n <= 1 && p < |pc.todo| && pc.todo[p] != t
      && forall i :: 0 <= i <= p ==> pc.todo[i] < |s.tasks| && (s.tasks[pc.todo[i]].key == pc.job.k <==> i == p)
    ensures var pc := s.tasks[t].pc;
      && |run| == p + 3 && run[0] == s && Steps(t, run)
      && run[p + 2] == Woken(s, t, pc.job, pc.todo[p]).(locks := s.locks[pc.job.b := None])
  {
    var pc := s.tasks[t].pc;
    var w := pc.todo[p];
    var front := SkipsTo(s, t, p);
    var a := front[p];
    ShapedStep(s, a);
    var b := Do(a, t, Next);
    assert a.tasks[w] == s.tasks[w];
    ShapedStep(a, b);
    var c := Do(b, t, Clear);
    assert c.tasks == Woken(s, t, pc.job, w).tasks;
    run := front + [b, c];
    forall n | 0 < n < |run| ensures StepOf(t, run[n - 1], run[n]) {
      if n <= p {
        assert StepOf(t, front[n - 1], front[n]);
      }
    }
  }

  /** Up to the first look at the chain. */
  lemma {:induction false} WakeBegins(s: State, t: nat, job: Job) returns (run: seq<State>)
    requires Shaped(s) && t < |s.tasks| && s.tasks[t].pc == Idle && JobOk(s, job) && job.Wake? && s.locks[job.b] == None
    requires forall i :: 0 <= i < |s.chains[job.b]| ==> s.chains[job.b][i] < |s.tasks|
    ensures |run| == 4 && run[0] == s && Steps(t, run) && Shaped(run[3])
    ensures run[3] == s.(tasks := s.tasks[t := s.tasks[t].(pc := Scanning(job, 0, 0, s.chains[job.b]))],
                         locks := s.locks[job.b := Some(t)])
  {
    var s1 := Do(s, t, Start(job));
    ShapedStep(s, s1);
    var s2 := Do(s1, t, Lock1);
    ShapedStep(s1, s2);
    var s3 := Do(s2, t, Begin);
    ShapedStep(s2, s3);
    run := [s, s1, s2, s3];
  }

  /** A wake of one reaches the first waiter on the key, wherever it stands on the chain: there are
      steps of the waker alone that unlink it and clear its lock_ptr. */
  lemma {:induction false} WakeReaches(s: State, t: nat, job: Job, p: nat) returns (run: seq<State>)
    requires Shaped(s) && t < |s.tasks| && s.tasks[t].pc == Idle && JobOk(s, job) && job.Wake? && job.n == 1
    requires s.locks[job.b] == None && p < |s.chains[job.b]| && s.chains[job.b][p] != t
    requires forall i :: 0 <= i < |s.chains[job.b]| ==> s.chains[job.b][i] < |s.tasks|
    requires forall i :: 0 <= i <= p ==> (s.tasks[s.chains[job.b][i]].key == job.k <==> i == p)
    ensures |run| == p + 6 && run[0] == s && Steps(t, run) && run[p + 5] == Woken(s, t, job, s.chains[job.b][p])
  {
    var w := s.chains[job.b][p];
    var front := WakeBegins(s, t, job);
    forall i | 0 <= i <= p ensures front[3].tasks[s.chains[job.b][i]].key == s.tasks[s.chains[job.b][i]].key {
    }
    var pass := PassWakes(front[3], t, p);
    run := front[..3] + pass;
    forall n | 0 < n < |run| ensures StepOf(t, run[n - 1], run[n]) {
      if n <= 3 {
        assert StepOf(t, front[n - 1], front[n]);
      } else {
        assert StepOf(t, pass[n - 4], pass[n - 3]);
      }
    }
    assert run[p + 5].tasks == Woken(s, t, job, w).tasks && run[p + 5].locks == s.locks;
  }

  /** So in every state where the bucket is unlocked an idle task can wake the first waiter on a key,
      and that one, once it runs, returns at once. */
  lemma {:induction false} WakeWakes(s: State, t: nat, job: Job, p: nat, w: nat) returns (run: seq<State>)
    requires Inv(s) && t < |s.tasks| && s.tasks[t].pc == Idle && JobOk(s, job) && job.Wake? && job.n == 1
    requires s.locks[job.b] == None && p < |s.chains[job.b]| && s.chains[job.b][p] == w
    requires forall i :: 0 <= i <= p ==> s.chains[job.b][i] < |s.tasks| && (s.tasks[s.chains[job.b][i]].key == job.k <==> i == p)
    requires s.tasks[w].pc == Asleep
    ensures |run| == p + 7 && run[0] == s && Steps(t, run[..p + 6]) && StepOf(w, run[p + 5], run[p + 6])
    ensures w < |run[p + 6].tasks| && run[p + 6].tasks[w].pc == Idle
  {
    assert ChainOk(s.chains[job.b], s.tasks, job.b);
    var front := WakeReaches(s, t, job, p);
    var last := front[p + 5];
    ShapedStep(s, last);
    run := front + [Do(last, w, Leave)];
    assert run[..p + 6] == front;
  }

  /** A waiter that finds its value goes to sleep at the end of its chain. */
  lemma {:induction false} Waits(s: State, w: nat, k: nat) returns (run: seq<State>)
    requires Shaped(s) && w < |s.tasks| && s.tasks[w].pc == Idle && k < |s.hash| && s.hash[k] < |s.chains|
    requires s.locks[s.hash[k]] == None
    ensures |run| == 5 && run[0] == s && Steps(w, run)
    ensures var b := s.hash[k];
      run[4] == s.(tasks := s.tasks[w := Task(Asleep, k, b, Some(b))], chains := s.chains[b := s.chains[b] + [w]],
                   refs := s.refs[k := s.refs[k] + 1])
  {
    var b := s.hash[k];
    var s1 := Do(s, w, WaitBegin(k, s.words[k]));
    ShapedStep(s, s1);
    var s2 := Do(s1, w, WaitLock);
    ShapedStep(s1, s2);
    var s3 := Do(s2, w, Check(false));
    ShapedStep(s2, s3);
    var s4 := Do(s3, w, Enqueue);
    assert s4.tasks == s.tasks[w := Task(Asleep, k, b, Some(b))] && s4.locks == s.locks;
    run := [s, s1, s2, s3, s4];
  }

  lemma {:induction false} StepsRun(t: nat, run: seq<State>)
    requires run != [] && Init(run[0]) && Steps(t, run)
    ensures Run(run)
  {
    forall n | 0 < n < |run| ensures Moved(run, n) {
      assert StepOf(t, run[n - 1], run[n]);
    }
  }

  lemma {:induction false} FirstWaits(s: State, w: nat, k: nat) returns (run: seq<State>)
    requires Init(s) && w < |s.tasks| && k < |s.hash| && s.hash[k] < |s.chains|
    ensures |run| == 5 && run[0] == s && Steps(w, run) && Inv(run[4]) && run[4].hash == s.hash && run[4].locks == s.locks
    ensures run[4].chains == s.chains[s.hash[k] := [w]]
    ensures run[4].tasks == s.tasks[w := Task(Asleep, k, s.hash[k], Some(s.hash[k]))]
  {
    run := Waits(s, w, k);
    assert s.chains[s.hash[k]] + [w] == [w];
    StepsRun(w, run);
    Reachable(run, 4);
  }

  /** From every fresh state and for every word: task w waits for its value, task t wakes one, and w returns. */
  lemma {:induction false} WaitThenWake(s: State, w: nat, t: nat, k: nat) returns (wait: seq<State>, wake: seq<State>)
    requires Init(s) && w < |s.tasks| && t < |s.tasks| && w != t && k < |s.hash| && s.hash[k] < |s.chains|
    ensures |wait| == 5 && wait[0] == s && Steps(w, wait)
    ensures w < |wait[4].tasks| && wait[4].tasks[w].pc == Asleep
    ensures |wake| == 7 && wake[0] == wait[4] && Steps(t, wake[..6]) && StepOf(w, wake[5], wake[6])
    ensures w < |wake[6].tasks| && wake[6].tasks[w].pc == Idle
  {
    wait := FirstWaits(s, w, k);
    wake := WakeWakes(wait[4], t, Wake(k, s.hash[k], 1), 0, w);
  }

  /** A step that is no step of a pass moves its own task only. */
  lemma {:induction false} OwnTaskOnly(s: State, t: nat, a: Action)
    requires Shaped(s) && t < |s.tasks| && Can(s, t, a) && !a.Next? && !a.Clear?
    ensures |Do(s, t, a).tasks| == |s.tasks| && forall x :: 0 <= x < |s.tasks| && x != t ==> Do(s, t, a).tasks[x] == s.tasks[x]
  {
    assert TaskOk(s, s.tasks[t]);
  }

  /** A step of a pass moves the passing task and the entry it looks at, and nobody else. */
  lemma {:induction false} OthersStay(s: State, t: nat, x: nat)
    requires Shaped(s) && t < |s.tasks| && s.tasks[t].pc.Scanning? && x < |s.tasks| && x != t
    requires s.tasks[t].pc.todo == [] || s.tasks[t].pc.todo[0] != x
    ensures |DoNext(s, t).tasks| == |s.tasks| && DoNext(s, t).tasks[x] == s.tasks[x]
  {
    assert TaskOk(s, s.tasks[t]);
  }

  lemma {:induction false} PassLeavesAlone(s: State, t: nat, x: nat)
    requires Inv(s) && t < |s.tasks| && s.tasks[t].pc.Scanning? && x < |s.tasks| && x != t && !Resting(s.tasks[x].pc)
    ensures |DoNext(s, t).tasks| == |s.tasks| && DoNext(s, t).tasks[x] == s.tasks[x]
  {
    assert PassOk(s.chains, s.tasks, s.tasks[t].pc);
    if s.tasks[t].pc.todo != [] {
      TodoRemove(s.chains, s.tasks, s.tasks[t].pc);
    }
    OthersStay(s, t, x);
  }

  lemma {:induction false} ClearLeavesAlone(s: State, t: nat, x: nat)
    requires Inv(s) && t < |s.tasks| && s.tasks[t].pc.Clearing? && x < |s.tasks| && x != t && !Resting(s.tasks[x].pc)
    ensures |DoClear(s, t).tasks| == |s.tasks| && DoClear(s, t).tasks[x] == s.tasks[x]
  {
    assert TaskOk(s, s.tasks[t]) && RemovedOk(s.chains, s.tasks, s.tasks[t].pc);
  }

  /** Others neither move a task that is not asleep nor change its key. */
  lemma {:induction false} OthersLeaveAlone(s: State, t: nat, a: Action, x: nat)
    requires Inv(s) && t < |s.tasks| && Can(s, t, a) && x < |s.tasks| && x != t && !Resting(s.tasks[x].pc)
    ensures |Do(s, t, a).tasks| == |s.tasks| && Do(s, t, a).tasks[x] == s.tasks[x]
  {
    if a.Next? {
      PassLeavesAlone(s, t, x);
    } else if a.Clear? {
      ClearLeavesAlone(s, t, x);
    } else {
      OwnTaskOnly(s, t, a);
    }
  }

  lemma {:induction false} MatchedMove(s: State, s': State, t: nat)
    requires Inv(s) && Moves(s, s') && t < |s'.tasks| && s'.tasks[t].pc == Matched
    ensures MatchedBack(s, s', t)
  {
    var x: nat :| StepOf(x, s, s');
    var a :| Can(s, x, a) && s' == Do(s, x, a);
    StepKeeps(s, x, a);
    SameNumber(s, x, a);
    MatchedBefore(s, x, a, t);
  }

  lemma {:induction false} SameNumber(s: State, t: nat, a: Action)
    requires Shaped(s) && t < |s.tasks| && Can(s, t, a)
    ensures |Do(s, t, a).tasks| == |s.tasks|
  {
    assert TaskOk(s, s.tasks[t]);
  }

  /** A task about to queue itself was so before, or has just found the word equal. */
  ghost predicate MatchedBack(s: State, s': State, t: nat) {
    t < |s'.tasks| && s'.tasks[t].pc == Matched ==>
      t < |s.tasks| &&
      var u := s.tasks[t];
      || (u.pc == Matched && s'.tasks[t] == u)
      || (u.pc.Checking? && s'.tasks[t].key == u.key < |s.words| && s.words[u.key] == u.pc.val)
  }

  lemma {:induction false} MatchedTrace(run: seq<State>, t: nat)
    requires Run(run)
    ensures forall n :: 0 < n < |run| ==> MatchedBack(run[n - 1], run[n], t)
  {
    forall n | 0 < n < |run| ensures MatchedBack(run[n - 1], run[n], t) {
      Reachable(run, n - 1);
      assert Moved(run, n);
      if t < |run[n].tasks| && run[n].tasks[t].pc == Matched {
        MatchedMove(run[n - 1], run[n], t);
      }
    }
  }

  lemma {:induction false} TraceBack(run: seq<State>, n: nat, t: nat) returns (m: nat)
    requires n < |run| && t < |run[n].tasks| && run[n].tasks[t].pc == Matched
    requires forall i :: 0 < i < |run| ==> MatchedBack(run[i - 1], run[i], t)
    requires t < |run[0].tasks| ==> run[0].tasks[t].pc != Matched
    ensures m < n && t < |run[m].tasks| && run[m].tasks[t].pc.Checking? && run[m].tasks[t].key == run[n].tasks[t].key
    ensures run[n].tasks[t].key < |run[m].words| && run[m].words[run[n].tasks[t].key] == run[m].tasks[t].pc.val
    ensures forall i :: m < i <= n ==> t < |run[i].tasks| && run[i].tasks[t] == run[n].tasks[t]
  {
    assert n > 0 && MatchedBack(run[n - 1], run[n], t);
    if run[n - 1].tasks[t].pc == Matched {
      m := TraceBack(run, n - 1, t);
    } else {
      m := n - 1;
    }
  }

  /** A waiter is queued only if the word held its value while it held the bucket's lock: back from any
      moment at which it is about to queue itself, the lock was its own ever since the word was read. */
  lemma {:induction false} QueuedOnlyIfEqual(run: seq<State>, n: nat, t: nat) returns (m: nat)
    requires Run(run) && n < |run| && t < |run[n].tasks| && run[n].tasks[t].pc == Matched
    ensures m < n && t < |run[m].tasks| && run[m].tasks[t].pc.Checking? && run[m].tasks[t].key == run[n].tasks[t].key
    ensures run[n].tasks[t].key < |run[m].words| && run[m].words[run[n].tasks[t].key] == run[m].tasks[t].pc.val
    ensures forall i :: m < i <= n ==> t < |run[i].tasks| && run[i].tasks[t] == run[n].tasks[t]
  {
    MatchedTrace(run, t);
    m := TraceBack(run, n, t);
  }

  lemma {:induction false} MatchedBefore(s: State, x: nat, a: Action, t: nat)
    requires Inv(s) && x < |s.tasks| && Can(s, x, a) && t < |s.tasks| && |Do(s, x, a).tasks| == |s.tasks|
    requires Do(s, x, a).tasks[t].pc == Matched
    ensures var u := s.tasks[t]; var u' := Do(s, x, a).tasks[t];
      || (u.pc == Matched && u' == u)
      || (u.pc.Checking? && u'.key == u.key < |s.words| && s.words[u.key] == u.pc.val)
  {
    if x == t {
      MatchedOwn(s, t, a);
    } else if Resting(s.tasks[t].pc) {
      RestingStays(s, x, a, t);
    } else {
      OthersLeaveAlone(s, x, a, t);
    }
  }

  lemma {:induction false} MatchedOwn(s: State, t: nat, a: Action)
    requires Shaped(s) && t < |s.tasks| && Can(s, t, a) && |Do(s, t, a).tasks| == |s.tasks|
    requires Do(s, t, a).tasks[t].pc == Matched
    ensures var u := s.tasks[t]; var u' := Do(s, t, a).tasks[t];
      || (u.pc == Matched && u' == u)
      || (u.pc.Checking? && u'.key == u.key < |s.words| && s.words[u.key] == u.pc.val)
  {
    assert TaskOk(s, s.tasks[t]);
  }

  lemma {:induction false} RestingStays(s: State, t: nat, a: Action, x: nat)
    requires Shaped(s) && t < |s.tasks| && Can(s, t, a) && x < |s.tasks| && x != t && Resting(s.tasks[x].pc)
    ensures |Do(s, t, a).tasks| == |s.tasks| && Do(s, t, a).tasks[x].pc == s.tasks[x].pc
  {
    assert TaskOk(s, s.tasks[t]);
  }

  // ----- What a pass does -----

  /** Those on the list that wait on key k, in order. */
  function Waiters(l: seq<nat>, tasks: seq<Task>, k: nat): seq<nat> {
    if l == [] then []
    else (if l[0] < |tasks| && tasks[l[0]].key == k then [l[0]] else []) + Waiters(l[1..], tasks, k)
  }

  function Take(l: seq<nat>, n: int): seq<nat> { if n <= 0 then [] else if n < |l| then l[..n] else l }

  function AtLeastOne(n: int): int { if n < 1 then 1 else n }

  /** How many waiters a call asks for in all: a requeue moves one even if it is asked for none. */
  function Asked(job: Job): int { if job.Wake? then job.n else job.nw + AtLeastOne(job.nr) }

  /** How many of the first n waiters handled are woken; the others are moved. */
  function Wakes(job: Job, n: int): int {
    if job.Wake? || n <= job.nw then n else if job.nw < 0 then 0 else job.nw
  }

  function Less(l: seq<nat>, gone: seq<nat>): seq<nat> {
    if l == [] then [] else (if l[0] in gone then [] else [l[0]]) + Less(l[1..], gone)
  }

  /** Those the pass will still handle. */
  function Due(job: Job, ret: int, todo: seq<nat>, tasks: seq<Task>): seq<nat>
    decreases |todo|
  {
    if todo == [] then []
    else if todo[0] < |tasks| && tasks[todo[0]].key == job.k then
      [todo[0]] + if ret + 1 >= Asked(job) then [] else Due(job, ret + 1, todo[1..], tasks)
    else Due(job, ret, todo[1..], tasks)
  }

  /** A pass handles the first waiters on its key, as many as the call asks for, but at least one. */
  lemma {:induction false} DueAre(job: Job, ret: int, todo: seq<nat>, tasks: seq<Task>)
    ensures Due(job, ret, todo, tasks) == Take(Waiters(todo, tasks, job.k), AtLeastOne(Asked(job) - ret))
    decreases |todo|
  {
    if todo != [] {
      DueAre(job, ret + 1, todo[1..], tasks);
      DueAre(job, ret, todo[1..], tasks);
    }
  }

  lemma {:induction false} DueSame(job: Job, ret: int, todo: seq<nat>, tasks: seq<Task>, tasks': seq<Task>)
    requires |tasks| == |tasks'| && forall i :: 0 <= i < |todo| && todo[i] < |tasks| ==> tasks'[todo[i]].key == tasks[todo[i]].key
    ensures Due(job, ret, todo, tasks') == Due(job, ret, todo, tasks)
    decreases |todo|
  {
    if todo != [] {
      DueSame(job, ret + 1, todo[1..], tasks, tasks');
      DueSame(job, ret, todo[1..], tasks, tasks');
    }
  }

  lemma {:induction false} LessOneMore(l: seq<nat>, gone: seq<nat>, x: nat)
    ensures Remove(Less(l, gone), x) == Less(l, gone + [x])
  {
    if l != [] {
      LessOneMore(l[1..], gone, x);
      assert Less(l, gone) == if l[0] in gone then Less(l[1..], gone) else [l[0]] + Less(l[1..], gone);
    }
  }

  lemma {:induction false} LessNone(l: seq<nat>)
    ensures Less(l, []) == l
  {
    if l != [] {
      LessNone(l[1..]);
    }
  }

  /** The chains after the first n of g have been handled: the woken are off chain c, and the others
      at the end of chain d, if that is another one. */
  predicate Rechained(c: seq<nat>, d: seq<nat>, g: seq<nat>, job: Job, n: int, chains: seq<seq<nat>>) {
    && 0 <= Wakes(job, n) <= n <= |g| && job.b < |chains| && job.Other() < |chains|
    && var w := Wakes(job, n);
    && (job.b == job.Other() ==> chains[job.b] == Less(c, g[..w]))
    && (job.b != job.Other() ==> chains[job.b] == Less(c, g[..n]) && chains[job.Other()] == d + g[w..n])
  }

  /** The waiter has been moved: it has the second key and is on its chain. */
  predicate Rekeyed(job: Job, s: State, x: nat) {
    job.Requeue? ==> job.b2 < |s.chains| && x in s.chains[job.b2] && x < |s.tasks| && s.tasks[x].key == job.k2
  }

  predicate Handled(c: seq<nat>, d: seq<nat>, g: seq<nat>, job: Job, n: int, s: State) {
    Rechained(c, d, g, job, n, s.chains) && forall i :: Wakes(job, n) <= i < n ==> Rekeyed(job, s, g[i])
  }

  /** What a pass at pc will still handle. */
  function Remaining(pc: Pc, tasks: seq<Task>): seq<nat>
    requires Passing(pc)
  {
    if pc.Clearing? && pc.ret >= Asked(pc.job) then [] else Due(pc.job, pc.ret, pc.todo, tasks)
  }

  predicate Progress(c: seq<nat>, d: seq<nat>, g: seq<nat>, s: State, t: nat, job: Job) {
    && t < |s.tasks| && Passing(s.tasks[t].pc)
    && var pc := s.tasks[t].pc;
    && pc.job == job && Handled(c, d, g, job, pc.ret, s) && g[pc.ret..] == Remaining(pc, s.tasks)
    && (pc.Clearing? ==> pc.ret > 0 && pc.w == g[pc.ret - 1] && Wakes(job, pc.ret) == pc.ret)
  }

  predicate Settled(c: seq<nat>, d: seq<nat>, g: seq<nat>, s: State, t: nat, job: Job) {
    t < |s.tasks| && s.tasks[t].pc.Dropping? && Handled(c, d, g, job, |g|, s)
  }

  /** How many of those woken have no lock_ptr any more. */
  function Freed(job: Job, pc: Pc, all: nat): int {
    if pc.Clearing? then pc.ret - 1 else if pc.Scanning? then Wakes(job, pc.ret) else Wakes(job, all)
  }

  predicate NewlyFreed(g: seq<nat>, s: State, s': State, t: nat, job: Job)
    requires t < |s.tasks| && t < |s'.tasks|
  {
    forall i :: 0 <= i < |g| && Freed(job, s.tasks[t].pc, |g|) <= i < Freed(job, s'.tasks[t].pc, |g|) ==>
      g[i] < |s'.tasks| && s'.tasks[g[i]].lock == None
  }

  predicate GoesOn(c: seq<nat>, d: seq<nat>, g: seq<nat>, s: State, s': State, t: nat, job: Job)
    requires t < |s.tasks|
  {
    t < |s'.tasks| && (Progress(c, d, g, s', t, job) || Settled(c, d, g, s', t, job)) && NewlyFreed(g, s, s', t, job)
  }

  lemma {:induction false} NextSkips(c: seq<nat>, d: seq<nat>, g: seq<nat>, s: State, t: nat, job: Job)
    requires Shaped(s) && Progress(c, d, g, s, t, job) && s.tasks[t].pc.Scanning?
    requires var todo := s.tasks[t].pc.todo; todo == [] || (todo[0] < |s.tasks| && s.tasks[todo[0]].key != job.k)
    ensures GoesOn(c, d, g, s, DoNext(s, t), t, job)
  {
    var pc, s' := s.tasks[t].pc, DoNext(s, t);
    assert TaskOk(s, s.tasks[t]);
    if pc.todo != [] {
      DueSame(job, pc.ret, pc.todo[1..], s.tasks, s'.tasks);
    }
  }

  lemma {:induction false} WokenOne(c: seq<nat>, d: seq<nat>, g: seq<nat>, job: Job, n: int, s: State, s': State)
    requires Handled(c, d, g, job, n, s) && n < |g| && Wakes(job, n + 1) == n + 1 && Wakes(job, n) == n
    requires s'.chains == s.chains[job.b := Remove(s.chains[job.b], g[n])]
    ensures Handled(c, d, g, job, n + 1, s')
  {
    LessOneMore(c, g[..n], g[n]);
    assert g[..n] + [g[n]] == g[..n + 1];
    assert g[n..n] == g[n + 1..n + 1];
  }

  lemma {:induction false} NextWakes(c: seq<nat>, d: seq<nat>, g: seq<nat>, s: State, t: nat, job: Job)
    requires Shaped(s) && Progress(c, d, g, s, t, job) && s.tasks[t].pc.Scanning?
    requires s.tasks[t].pc.todo != [] && s.tasks[t].pc.todo[0] < |s.tasks| && s.tasks[s.tasks[t].pc.todo[0]].key == job.k
    requires job.Wake? || s.tasks[t].pc.ret + 1 <= job.nw
    ensures GoesOn(c, d, g, s, DoNext(s, t), t, job)
  {
    var pc, s' := s.tasks[t].pc, DoNext(s, t);
    assert TaskOk(s, s.tasks[t]);
    var n := pc.ret;
    assert g[n..][0] == pc.todo[0] && g[n + 1..] == g[n..][1..];
    DueSame(job, n + 1, pc.todo[1..], s.tasks, s'.tasks);
    WokenOne(c, d, g, job, n, s, s');
  }

  lemma {:induction false} RechainedOne(c: seq<nat>, d: seq<nat>, g: seq<nat>, job: Job, n: int, chains: seq<seq<nat>>)
    requires Rechained(c, d, g, job, n, chains) && n < |g| && job.Requeue? && n + 1 > job.nw
    ensures Rechained(c, d, g, job, n + 1, ShiftedChains(chains, job, g[n]))
  {
    LessOneMore(c, g[..n], g[n]);
    assert g[..n] + [g[n]] == g[..n + 1];
    var w := Wakes(job, n);
    assert d + g[w..n] + [g[n]] == d + g[w..n + 1];
  }

  lemma {:induction false} MovedOne(c: seq<nat>, d: seq<nat>, g: seq<nat>, job: Job, n: int, s: State, s': State)
    requires Handled(c, d, g, job, n, s) && n < |g| && job.Requeue? && n + 1 > job.nw && |s'.tasks| == |s.tasks|
    requires g[n] in s.chains[job.b]
    requires s'.chains == ShiftedChains(s.chains, job, g[n])
    requires g[n] < |s.tasks| && s'.tasks[g[n]].key == job.k2
    requires forall x :: 0 <= x < |s.tasks| && x != g[n] ==> s'.tasks[x].key == s.tasks[x].key
    ensures Handled(c, d, g, job, n + 1, s')
  {
    RechainedOne(c, d, g, job, n, s.chains);
    forall i | Wakes(job, n + 1) <= i < n + 1 ensures Rekeyed(job, s', g[i]) {
      assert i < n ==> Rekeyed(job, s, g[i]);
    }
  }

  /** What a requeue step does to keys and chains. */
  lemma {:induction false} AfterShiftKeys(s: State, t: nat, job: Job, x: nat, u: Task)
    requires t < |s.tasks| && x < |s.tasks| && x != t && job.Requeue? && job.k2 < |s.refs| && u.key == s.tasks[t].key
    requires job.b < |s.chains| == |s.locks| && job.b2 < |s.chains|
    ensures var s' := AfterShift(s, t, job, x, u);
      && |s'.tasks| == |s.tasks| && s'.tasks[x].key == job.k2 && s'.tasks[t] == u
      && (forall y :: 0 <= y < |s.tasks| && y != x ==> s'.tasks[y].key == s.tasks[y].key)
      && s'.chains == ShiftedChains(s.chains, job, x)
  {
  }

  lemma MovedGoesOn(c: seq<nat>, d: seq<nat>, g: seq<nat>, s: State, s': State, t: nat, job: Job, n: int)
    requires t < |s.tasks| == |s'.tasks| && s.tasks[t].pc.Scanning? && s.tasks[t].pc.ret == n
    requires Wakes(job, n) == Wakes(job, n + 1) && Handled(c, d, g, job, n + 1, s')
    requires var pc := s'.tasks[t].pc;
      || (pc.Dropping? && n + 1 == |g|)
      || (pc.Scanning? && pc.job == job && pc.ret == n + 1 && g[n + 1..] == Due(job, n + 1, pc.todo, s'.tasks))
    ensures GoesOn(c, d, g, s, s', t, job)
  {
  }

  lemma {:induction false} MoveGoesOn(c: seq<nat>, d: seq<nat>, g: seq<nat>, s: State, s': State, t: nat, job: Job,
                                      n: int, drops: nat, todo: seq<nat>)
    requires Progress(c, d, g, s, t, job) && s.tasks[t].pc == Scanning(job, n, drops, todo) && job.Requeue? && n + 1 > job.nw
    requires todo != [] && todo[0] !in todo[1..] && Shifts(s, s', t, job, todo[0]) && s.tasks[todo[0]].key == job.k
    requires s'.tasks[t].pc == Onward(job, n + 1, drops + 1, todo[1..])
    ensures GoesOn(c, d, g, s, s', t, job)
  {
    assert g[n..][0] == todo[0] && g[n + 1..] == g[n..][1..];
    MovedOne(c, d, g, job, n, s, s');
    DueSame(job, n + 1, todo[1..], s.tasks, s'.tasks);
    MovedGoesOn(c, d, g, s, s', t, job, n);
  }

  /** The entry x is moved by a step of t. */
  predicate Shifts(s: State, s': State, t: nat, job: Job, x: nat)
    requires job.Requeue? && job.b < |s.chains| && job.b2 < |s.chains| && t < |s.tasks|
  {
    && |s'.tasks| == |s.tasks| && x < |s.tasks| && s'.tasks[x].key == job.k2 && x in s.chains[job.b]
    && (forall y :: 0 <= y < |s.tasks| && y != x ==> s'.tasks[y].key == s.tasks[y].key)
    && s'.chains == ShiftedChains(s.chains, job, x)
  }

  lemma {:induction false} NextShifts(s: State, s': State, t: nat)
    requires Inv(s) && t < |s.tasks| && s.tasks[t].pc.Scanning? && s.tasks[t].pc.todo != [] && s.tasks[t].pc.job.Requeue?
    requires s.tasks[t].pc.todo[0] < |s.tasks| && s.tasks[s.tasks[t].pc.todo[0]].key == s.tasks[t].pc.job.k
    requires s.tasks[t].pc.ret + 1 > s.tasks[t].pc.job.nw && s' == DoNext(s, t)
    ensures var pc := s.tasks[t].pc;
      && pc.job.b < |s.chains| && pc.job.b2 < |s.chains| && pc.todo[0] !in pc.todo[1..]
      && Shifts(s, s', t, pc.job, pc.todo[0])
      && s'.tasks[t].pc == Onward(pc.job, pc.ret + 1, pc.drops + 1, pc.todo[1..])
  {
    var pc := s.tasks[t].pc;
    assert TaskOk(s, s.tasks[t]) && PassOk(s.chains, s.tasks, pc);
    TodoOnce(s.chains, s.tasks, pc);
    TodoRemove(s.chains, s.tasks, pc);
    var u := s.tasks[t].(pc := Onward(pc.job, pc.ret + 1, pc.drops + 1, pc.todo[1..]));
    RequeueIs(s, t, pc.job, pc.ret, pc.drops, pc.todo, u);
    AfterShiftKeys(s, t, pc.job, pc.todo[0], u);
  }

  lemma {:induction false} NextMoves(c: seq<nat>, d: seq<nat>, g: seq<nat>, s: State, s': State, t: nat, job: Job)
    requires Inv(s) && Progress(c, d, g, s, t, job) && s.tasks[t].pc.Scanning? && s' == DoNext(s, t)
    requires s.tasks[t].pc.todo != [] && s.tasks[t].pc.todo[0] < |s.tasks| && s.tasks[s.tasks[t].pc.todo[0]].key == job.k
    requires job.Requeue? && s.tasks[t].pc.ret + 1 > job.nw
    ensures GoesOn(c, d, g, s, s', t, job)
  {
    var pc := s.tasks[t].pc;
    NextShifts(s, s', t);
    MoveGoesOn(c, d, g, s, s', t, job, pc.ret, pc.drops, pc.todo);
  }

  lemma {:induction false} TodoOnce(chains: seq<seq<nat>>, tasks: seq<Task>, pc: Pc)
    requires Chained(chains, tasks) && pc.Scanning? && PassOk(chains, tasks, pc) && pc.todo != []
    ensures pc.todo[0] !in pc.todo[1..]
  {
    var c := chains[pc.job.b];
    var n := |c| - |pc.todo|;
    assert ChainOk(c, tasks, pc.job.b);
    forall i | 1 <= i < |pc.todo| ensures pc.todo[i] != pc.todo[0] {
      assert c[n..][i] == c[n + i] && c[n..][0] == c[n];
    }
  }

  lemma {:induction false} ClearedGoesOn(c: seq<nat>, d: seq<nat>, g: seq<nat>, s: State, s': State, t: nat, job: Job)
    requires Progress(c, d, g, s, t, job) && s.tasks[t].pc.Clearing? && |s'.tasks| == |s.tasks| && s'.chains == s.chains
    requires forall x :: 0 <= x < |s.tasks| ==> s'.tasks[x].key == s.tasks[x].key
    requires s.tasks[t].pc.w < |s.tasks| && s'.tasks[s.tasks[t].pc.w].lock == None
    requires var pc, pc' := s.tasks[t].pc, s'.tasks[t].pc;
      if job.Wake? && pc.ret >= job.n then pc'.Dropping? else pc' == Scanning(job, pc.ret, pc.drops, pc.todo)
    ensures GoesOn(c, d, g, s, s', t, job)
  {
    var pc := s.tasks[t].pc;
    DueSame(job, pc.ret, pc.todo, s.tasks, s'.tasks);
  }

  lemma {:induction false} ClearGoesOn(c: seq<nat>, d: seq<nat>, g: seq<nat>, s: State, s': State, t: nat, job: Job)
    requires Shaped(s) && Progress(c, d, g, s, t, job) && s.tasks[t].pc.Clearing? && s' == DoClear(s, t)
    ensures GoesOn(c, d, g, s, s', t, job)
  {
    assert TaskOk(s, s.tasks[t]);
    ClearedGoesOn(c, d, g, s, s', t, job);
  }

  lemma {:induction false} OwnGoesOn(c: seq<nat>, d: seq<nat>, g: seq<nat>, s: State, t: nat, a: Action, job: Job)
    requires Inv(s) && Progress(c, d, g, s, t, job) && Can(s, t, a) && !a.Store?
    ensures GoesOn(c, d, g, s, Do(s, t, a), t, job)
  {
    var pc := s.tasks[t].pc;
    assert TaskOk(s, s.tasks[t]);
    if pc.Clearing? {
      ClearGoesOn(c, d, g, s, Do(s, t, a), t, job);
    } else if pc.todo == [] || s.tasks[pc.todo[0]].key != job.k {
      NextSkips(c, d, g, s, t, job);
    } else if job.Wake? || pc.ret + 1 <= job.nw {
      NextWakes(c, d, g, s, t, job);
    } else {
      NextMoves(c, d, g, s, Do(s, t, a), t, job);
    }
  }

  // ----- What the others do meanwhile -----

  lemma {:induction false} NextChain(s: State, x: nat, b: nat)
    requires Shaped(s) && x < |s.tasks| && s.tasks[x].pc.Scanning? && b < |s.chains| && !Holds(s.tasks[x], b)
    ensures |DoNext(s, x).chains| == |s.chains| && DoNext(s, x).chains[b] == s.chains[b]
  {
    assert TaskOk(s, s.tasks[x]);
  }

  /** A chain changes only by steps of the task that has its lock. */
  lemma {:induction false} ChainKept(s: State, x: nat, a: Action, b: nat)
    requires Shaped(s) && x < |s.tasks| && Can(s, x, a) && b < |s.chains| && !Holds(s.tasks[x], b)
    ensures |Do(s, x, a).chains| == |s.chains| && Do(s, x, a).chains[b] == s.chains[b]
  {
    if a.Next? {
      NextChain(s, x, b);
    } else {
      assert TaskOk(s, s.tasks[x]);
    }
  }

  lemma {:induction false} RestingKeepsKey(s: State, x: nat, a: Action)
    requires Shaped(s) && x < |s.tasks| && Can(s, x, a) && Resting(s.tasks[x].pc)
    ensures |Do(s, x, a).tasks| == |s.tasks| && Do(s, x, a).tasks[x].key == s.tasks[x].key
  {
    assert TaskOk(s, s.tasks[x]);
  }

  lemma {:induction false} PassKeepsKeys(s: State, x: nat, b: nat, y: nat)
    requires Inv(s) && x < |s.tasks| && s.tasks[x].pc.Scanning? && s.tasks[x].pc.job.b != b < |s.chains| && y in s.chains[b]
    ensures y < |s.tasks| == |DoNext(s, x).tasks| && DoNext(s, x).tasks[y].key == s.tasks[y].key
  {
    var pc := s.tasks[x].pc;
    assert ChainOk(s.chains[b], s.tasks, b) && PassOk(s.chains, s.tasks, pc);
    if pc.todo != [] {
      TodoRemove(s.chains, s.tasks, pc);
    }
    OthersStay(s, x, y);
  }

  /** The key of a waiter on a chain changes only by steps of the task that has the chain's lock. */
  lemma {:induction false} KeyKept(s: State, x: nat, a: Action, b: nat, y: nat)
    requires Inv(s) && x < |s.tasks| && Can(s, x, a) && b < |s.chains| && !Holds(s.tasks[x], b) && y in s.chains[b]
    ensures y < |s.tasks| == |Do(s, x, a).tasks| && Do(s, x, a).tasks[y].key == s.tasks[y].key
  {
    assert ChainOk(s.chains[b], s.tasks, b);
    if a.Next? {
      PassKeepsKeys(s, x, b, y);
    } else if a.Clear? {
      assert TaskOk(s, s.tasks[x]);
    } else if x == y {
      RestingKeepsKey(s, x, a);
    } else {
      OwnTaskOnly(s, x, a);
    }
  }

  /** Neither a chain nor a key on it changes by steps of tasks that do not have the chain's lock. */
  lemma {:induction false} LockKeeps(s: State, x: nat, a: Action, b: nat)
    requires Inv(s) && x < |s.tasks| && Can(s, x, a) && b < |s.chains| && !Holds(s.tasks[x], b)
    ensures |Do(s, x, a).chains| == |s.chains| && Do(s, x, a).chains[b] == s.chains[b] && |Do(s, x, a).tasks| == |s.tasks|
    ensures forall y :: y in s.chains[b] ==> y < |s.tasks| && Do(s, x, a).tasks[y].key == s.tasks[y].key
  {
    ChainKept(s, x, a, b);
    SameNumber(s, x, a);
    forall y | y in s.chains[b] ensures y < |s.tasks| && Do(s, x, a).tasks[y].key == s.tasks[y].key {
      KeyKept(s, x, a, b, y);
    }
  }

  lemma {:induction false} HeldByOne(s: State, t: nat, x: nat, d: nat)
    requires Inv(s) && t < |s.tasks| && x < |s.tasks| && x != t && d < |s.locks| && Holds(s.tasks[t], d)
    ensures !Holds(s.tasks[x], d)
  {
    assert s.locks[d] == Some(t);
  }

  lemma {:induction false} SameGoesOn(c: seq<nat>, d: seq<nat>, g: seq<nat>, s: State, s': State, t: nat, job: Job)
    requires Progress(c, d, g, s, t, job) && PassOk(s.chains, s.tasks, s.tasks[t].pc)
    requires |s'.tasks| == |s.tasks| && s'.tasks[t] == s.tasks[t] && |s'.chains| == |s.chains|
    requires s'.chains[job.b] == s.chains[job.b] && s'.chains[job.Other()] == s.chains[job.Other()]
    requires forall y :: y in s.chains[job.b] || y in s.chains[job.Other()] ==>
      y < |s.tasks| && s'.tasks[y].key == s.tasks[y].key
    ensures GoesOn(c, d, g, s, s', t, job)
  {
    var pc := s.tasks[t].pc;
    var l := s.chains[job.b];
    forall i | 0 <= i < |pc.todo|
      ensures pc.todo[i] < |s.tasks| && s'.tasks[pc.todo[i]].key == s.tasks[pc.todo[i]].key
    {
      assert l[|l| - |pc.todo| + i] == pc.todo[i] && pc.todo[i] in l;
    }
    DueSame(job, pc.ret, pc.todo, s.tasks, s'.tasks);
  }

  lemma {:induction false} PassMoves(c: seq<nat>, d: seq<nat>, g: seq<nat>, s: State, s': State, t: nat, job: Job)
    requires Inv(s) && Moves(s, s') && Progress(c, d, g, s, t, job)
    ensures GoesOn(c, d, g, s, s', t, job)
  {
    var x: nat :| StepOf(x, s, s');
    var a :| Can(s, x, a) && s' == Do(s, x, a);
    assert PassOk(s.chains, s.tasks, s.tasks[t].pc);
    if x == t && !a.Store? {
      OwnGoesOn(c, d, g, s, t, a, job);
    } else if x != t {
      OthersLeaveAlone(s, x, a, t);
      HeldByOne(s, t, x, job.b);
      HeldByOne(s, t, x, job.Other());
      LockKeeps(s, x, a, job.b);
      LockKeeps(s, x, a, job.Other());
      SameGoesOn(c, d, g, s, s', t, job);
    } else {
      assert ChainOk(s.chains[job.b], s.tasks, job.b);
      SameGoesOn(c, d, g, s, s', t, job);
    }
  }

  // ----- The outcome of a call -----

  lemma {:induction false} HandledNone(c: seq<nat>, d: seq<nat>, g: seq<nat>, job: Job, s: State)
    requires job.b < |s.chains| && job.Other() < |s.chains| && s.chains[job.b] == c && s.chains[job.Other()] == d
    ensures Handled(c, d, g, job, 0, s)
  {
    LessNone(c);
    assert g[..0] == g[0..0] == [] && d + [] == d;
  }

  /** Whether the call compares the word with a value it does not have. */
  predicate Differs(s: State, job: Job) {
    job.Requeue? && job.cmp.Some? && (job.k < |s.words| ==> s.words[job.k] != job.cmp.value)
  }

  /** The waiters a call is to handle: the first on its key, as many as it asks for, but at least one. */
  function Selected(s: State, job: Job): seq<nat>
    requires job.b < |s.chains|
  {
    Take(Waiters(s.chains[job.b], s.tasks, job.k), AtLeastOne(Asked(job)))
  }

  predicate OnlyMoved(s: State, s': State, t: nat) {
    && s'.chains == s.chains && |s'.tasks| == |s.tasks|
    && forall x :: 0 <= x < |s.tasks| && x != t ==> s'.tasks[x] == s.tasks[x]
  }

  /** What the first step under the locks does. */
  predicate Starts(s: State, s': State, t: nat, job: Job) {
    && job.b < |s.chains| && job.Other() < |s.chains| && t < |s'.tasks|
    && if Differs(s, job) then s'.tasks[t].pc.Dropping? && OnlyMoved(s, s', t)
       else Progress(s.chains[job.b], s.chains[job.Other()], Selected(s, job), s', t, job) && s'.tasks[t].pc.Scanning?
            && s'.tasks[t].pc.ret == 0
  }

  /** A requeue gives up at once if and only if it finds another value than the one to compare with. */
  lemma {:induction false} BeginDecides(s: State, t: nat, job: Job)
    requires Shaped(s) && t < |s.tasks| && s.tasks[t].pc == Begun(job)
    ensures Do(s, t, Begin).tasks[t].pc == if Differs(s, job) then Dropping(job.k, 0) else Scanning(job, 0, 0, s.chains[job.b])
  {
    assert TaskOk(s, s.tasks[t]);
  }

  lemma {:induction false} BeginStarts(s: State, t: nat, job: Job)
    requires Inv(s) && t < |s.tasks| && s.tasks[t].pc == Begun(job)
    ensures Starts(s, Do(s, t, Begin), t, job)
  {
    BeginDecides(s, t, job);
    assert TaskOk(s, s.tasks[t]);
    if !Differs(s, job) {
      var s' := Do(s, t, Begin);
      var c, d := s.chains[job.b], s.chains[job.Other()];
      DueSame(job, 0, c, s.tasks, s'.tasks);
      DueAre(job, 0, c, s.tasks);
      HandledNone(c, d, Selected(s, job), job, s');
    }
  }

  /** The step by which a call that has its locks goes on is its own. */
  lemma {:induction false} FirstStep(s: State, s': State, t: nat, job: Job)
    requires Inv(s) && Moves(s, s') && t < |s.tasks| && s.tasks[t].pc == Begun(job) && t < |s'.tasks| && !s'.tasks[t].pc.Begun?
    ensures Starts(s, s', t, job)
  {
    var x: nat :| StepOf(x, s, s');
    var a :| Can(s, x, a) && s' == Do(s, x, a);
    if x != t {
      OthersLeaveAlone(s, x, a, t);
    } else {
      BeginStarts(s, t, job);
    }
  }

  /** The call of t has its locks in state m and gives them up with the step to state n. */
  predicate Call(run: seq<State>, t: nat, job: Job, m: nat, n: nat) {
    && m < n < |run| && t < |run[m].tasks| && run[m].tasks[t].pc == Begun(job)
    && (forall k :: m < k < n ==> t < |run[k].tasks| && Passing(run[k].tasks[t].pc))
    && t < |run[n].tasks| && run[n].tasks[t].pc.Dropping?
  }

  /** The lock_ptr of x was cleared at some time after m. */
  predicate WasFreed(run: seq<State>, x: nat, m: nat, n: nat) {
    exists j :: m < j <= n < |run| && x < |run[j].tasks| && run[j].tasks[x].lock == None
  }

  lemma {:induction false} TwoStates(run: seq<State>, k: nat) returns (s: State, s': State)
    requires Run(run) && k + 1 < |run|
    ensures s == run[k] && s' == run[k + 1] && Inv(s) && Moves(s, s')
  {
    Reachable(run, k);
    assert Moved(run, k + 1);
    s, s' := run[k], run[k + 1];
  }

  /** The pass is under way in state k only if it is so, or over, in the next. */
  predicate PassesOn(run: seq<State>, k: nat, c: seq<nat>, d: seq<nat>, g: seq<nat>, t: nat, job: Job)
    requires k + 1 < |run|
  {
    Progress(c, d, g, run[k], t, job) ==> GoesOn(c, d, g, run[k], run[k + 1], t, job)
  }

  lemma {:induction false} CallPassesOn(run: seq<State>, k: nat, c: seq<nat>, d: seq<nat>, g: seq<nat>, t: nat, job: Job)
    requires Run(run) && k + 1 < |run|
    ensures PassesOn(run, k, c, d, g, t, job)
  {
    var s, s' := TwoStates(run, k);
    if Progress(c, d, g, s, t, job) {
      PassMoves(c, d, g, s, s', t, job);
    }
  }

  lemma {:induction false} Accumulates(run: seq<State>, c: seq<nat>, d: seq<nat>, g: seq<nat>, t: nat, job: Job, m: nat, n: nat)
    requires Call(run, t, job, m, n) && m + 1 < n && Progress(c, d, g, run[m + 1], t, job)
    requires Freed(job, run[m + 1].tasks[t].pc, |g|) == 0
    requires forall k :: m < k < n ==> PassesOn(run, k, c, d, g, t, job)
    ensures Settled(c, d, g, run[n], t, job) && forall i :: 0 <= i < Wakes(job, |g|) ==> WasFreed(run, g[i], m, n)
  {
    for k := m + 1 to n
      invariant Progress(c, d, g, run[k], t, job) || (k == n && Settled(c, d, g, run[k], t, job))
      invariant forall i :: 0 <= i < Freed(job, run[k].tasks[t].pc, |g|) && i < |g| ==> WasFreed(run, g[i], m, k)
    {
      assert PassesOn(run, k, c, d, g, t, job);
    }
  }

  /** What is woken and what is moved by a call, however the steps of other tasks fall in between: of
      the selected waiters the first leave their chain with a cleared lock_ptr, and the others get the
      second key and go to the end of its chain, in their order. */
  lemma {:induction false} CallSettles(run: seq<State>, t: nat, job: Job, m: nat, n: nat)
    requires Run(run) && Call(run, t, job, m, n) && !Differs(run[m], job)
    ensures job.b < |run[m].chains| && job.Other() < |run[m].chains|
    ensures var s := run[m]; var g := Selected(s, job);
      && Handled(s.chains[job.b], s.chains[job.Other()], g, job, |g|, run[n])
      && forall i :: 0 <= i < Wakes(job, |g|) ==> WasFreed(run, g[i], m, n)
  {
    assert Starts(run[m], run[m + 1], t, job) by {
      var s, s' := TwoStates(run, m);
      FirstStep(s, s', t, job);
    }
    var c, d, g := run[m].chains[job.b], run[m].chains[job.Other()], Selected(run[m], job);
    forall k | m < k < n ensures PassesOn(run, k, c, d, g, t, job) {
      CallPassesOn(run, k, c, d, g, t, job);
    }
    Accumulates(run, c, d, g, t, job, m, n);
  }

  /** A requeue that finds another value than the one to compare with wakes and moves nobody. */
  lemma {:induction false} RequeueRefused(run: seq<State>, t: nat, job: Job, m: nat, n: nat)
    requires Run(run) && Call(run, t, job, m, n) && Differs(run[m], job)
    ensures n == m + 1 && OnlyMoved(run[m], run[n], t)
  {
    var s, s' := TwoStates(run, m);
    FirstStep(s, s', t, job);
  }
}
