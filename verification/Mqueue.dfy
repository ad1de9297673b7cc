/**
 * POSIX message queues: senders and receivers that pass messages through the array or, when the
 * other side already sleeps, straight into its hands.  Tasks take turns at the granularity of a
 * section under the queue's lock, except that the two writes of a hand-over (PENDING, then READY)
 * are separate steps, because the sleeper may look at its state without the lock.
 */
module Mqueue {
  import opened Lists
  import opened MqOrder

  datatype Msg = Msg(id: nat, prio: int, size: nat)

  /** The history of the queue as seen from outside. */
  datatype Event = Sent(task: nat, msg: Msg) | Received(task: nat, msg: Msg)

  // ----- The reference: an atomic bounded priority queue -----

  /** The messages in the order of their arrival after the history, if the history is one of a queue
      that holds at most max messages and gives out the oldest of the highest priority. */
  function Replay(max: nat, hist: seq<Event>): (r: Option<seq<Item<Msg>>>) {
    if hist == [] then Some([])
    else
      var r := Replay(max, hist[..|hist| - 1]);
      if r.None? then None
      else
        var q := r.value;
        match hist[|hist| - 1]
        case Sent(_, m) => if |q| < max then Some(q + [Item(m.prio, |hist| - 1, m)]) else None
        case Received(_, m) => if q != [] && q[Best(q)].val == m then Some(Without(q, Best(q))) else None
  }

  // ----- The array -----

  datatype Content = Content(max: nat, arr: seq<Item<Msg>>, qsize: int, hist: seq<Event>)

  function SumSize(l: seq<Item<Msg>>): int {
    if l == [] then 0 else SumSize(l[..|l| - 1]) + l[|l| - 1].val.size
  }

  ghost predicate Refines(arr: seq<Item<Msg>>, max: nat, hist: seq<Event>) {
    var r := Replay(max, hist);
    r.Some? && multiset(arr) == multiset(r.value) && InOrder(r.value) && Older(r.value, |hist|)
  }

  ghost predicate Sound(c: Content) {
    && 0 < c.max && |c.arr| <= c.max
    && Arranged(c.arr) && Older(c.arr, |c.hist|) && c.qsize == SumSize(c.arr)
    && Refines(c.arr, c.max, c.hist)
  }

  /** msg_insert on behalf of task t. */
  function Put(c: Content, t: nat, m: Msg): Content {
    Content(c.max, Insert(c.arr, Item(m.prio, |c.hist|, m)), c.qsize + m.size, c.hist + [Sent(t, m)])
  }

  function Front(c: Content): Msg
    requires c.arr != []
  {
    c.arr[|c.arr| - 1].val
  }

  /** msg_get on behalf of task t. */
  function Take(c: Content, t: nat): Content
    requires c.arr != []
  {
    Content(c.max, c.arr[..|c.arr| - 1], c.qsize - Front(c).size, c.hist + [Received(t, Front(c))])
  }

  lemma {:induction false} SumSizeInsert(l: seq<Item<Msg>>, p: nat, x: Item<Msg>)
    requires p <= |l|
    ensures SumSize(l[..p] + [x] + l[p..]) == SumSize(l) + x.val.size
  {
    var r := l[..p] + [x] + l[p..];
    if p == |l| {
      assert r[..|r| - 1] == l;
    } else {
      var front := l[..|l| - 1];
      SumSizeInsert(front, p, x);
      assert r[..|r| - 1] == front[..p] + [x] + front[p..];
    }
  }

  lemma BagSize<T>(a: seq<T>, b: seq<T>)
    requires multiset(a) == multiset(b)
    ensures |a| == |b|
  {
    assert |multiset(a)| == |a| && |multiset(b)| == |b|;
  }

  lemma {:induction false} PutSound(c: Content, t: nat, m: Msg)
    requires Sound(c) && |c.arr| < c.max
    ensures Sound(Put(c, t, m))
  {
    var x := Item(m.prio, |c.hist|, m);
    InsertArranged(c.arr, x);
    SumSizeInsert(c.arr, Place(c.arr, x.key), x);
    var hist := c.hist + [Sent(t, m)];
    assert hist[..|hist| - 1] == c.hist;
    BagSize(c.arr, Replay(c.max, c.hist).value);
  }

  lemma {:induction false} TakeRefines(arr: seq<Item<Msg>>, max: nat, hist: seq<Event>, t: nat)
    requires Refines(arr, max, hist) && Arranged(arr) && arr != []
    ensures var q := Replay(max, hist).value; q != [] && arr[|arr| - 1].val == q[Best(q)].val
    ensures Refines(arr[..|arr| - 1], max, hist + [Received(t, arr[|arr| - 1].val)])
  {
    var q := Replay(max, hist).value;
    BagSize(arr, q);
    LastIsBest(arr, q);
    assert (hist + [Received(t, arr[|arr| - 1].val)])[..|hist|] == hist;
  }

  lemma {:induction false} TakeSound(c: Content, t: nat)
    requires Sound(c) && c.arr != []
    ensures Sound(Take(c, t))
    ensures var q := Replay(c.max, c.hist).value; q != [] && Front(c) == q[Best(q)].val
  {
    TakeRefines(c.arr, c.max, c.hist, t);
  }

  /** A message handed from t to r past the empty array leaves the queue as if it had gone through. */
  lemma {:induction false} PastSound(c: Content, t: nat, r: nat, m: Msg)
    requires Sound(c) && c.arr == []
    ensures Sound(c.(hist := c.hist + [Sent(t, m), Received(r, m)]))
  {
    var d := Put(c, t, m);
    PutSound(c, t, m);
    InsertFirst(Item(m.prio, |c.hist|, m));
    TakeSound(d, r);
    assert Take(d, r) == c.(hist := c.hist + [Sent(t, m), Received(r, m)]) by {
      assert d.hist + [Received(r, m)] == c.hist + [Sent(t, m), Received(r, m)];
    }
  }

  // ----- The protocol -----

  /** The field state of struct ext_wait_queue. */
  datatype Phase = Waiting | Pending | Ready

  datatype Pc =
    | Idle
    | Sending(msg: Msg, st: Phase)                // in wq_sleep, as a sender
    | Receiving(st: Phase, got: Option<Msg>)      // in wq_sleep, as a receiver
    | Handing(msg: Msg, to: nat)                  // pipelined_send, between PENDING and READY
    | Taking(msg: Msg, from: nat)                 // pipelined_receive, between PENDING and READY

  /** How a call ended. */
  datatype Result = Ok(sent: bool, task: nat, msg: Msg) | Failed(sent: bool, task: nat)

  /** nice holds the static priority of each task; sleepers do not change theirs. */
  datatype Queue = Queue(
    c: Content, senders: seq<Item<nat>>, receivers: seq<Item<nat>>, clock: nat,
    nice: seq<int>, lock: Option<nat>, pcs: seq<Pc>, done: seq<Result>)

  datatype Action =
    | Send(msg: Msg, block: bool)    // block false: O_NONBLOCK, or a timeout already in the past
    | Receive(block: bool)
    | Finish                         // the second write of a hand-over, and the unlock
    | Return                         // a sleeper finds READY
    | GiveUp                         // a sleeper takes the lock and does not find READY

  predicate Can(s: Queue, t: nat, a: Action)
    requires t < |s.pcs|
  {
    var pc := s.pcs[t];
    match a
    case Send(_, _) => pc == Idle && s.lock.None?
    case Receive(_) => pc == Idle && s.lock.None?
    case Finish => (pc.Handing? && pc.to < |s.pcs|) || (pc.Taking? && pc.from < |s.pcs|)
    case Return => (pc.Sending? && pc.st == Ready) || (pc.Receiving? && pc.st == Ready && pc.got.Some?)
    case GiveUp => s.lock.None? && ((pc.Sending? && pc.st != Ready) || (pc.Receiving? && pc.st != Ready))
  }

  function Woken(pc: Pc): Pc {
    match pc
    case Sending(m, _) => Sending(m, Ready)
    case Receiving(_, got) => Receiving(Ready, got)
    case _ => pc
  }

  function IndexOf(l: seq<Item<nat>>, t: nat): (i: nat)
    ensures i <= |l| && (i < |l| ==> l[i].val == t) && forall j :: 0 <= j < i ==> l[j].val != t
  {
    if l == [] || l[0].val == t then 0 else 1 + IndexOf(l[1..], t)
  }

  /** list_del. */
  function Unlink(l: seq<Item<nat>>, t: nat): seq<Item<nat>> {
    var i := IndexOf(l, t);
    if i < |l| then Without(l, i) else l
  }

  /** wq_get_first_waiter. */
  function First(l: seq<Item<nat>>): nat
    requires l != []
  {
    l[|l| - 1].val
  }

  function Refuse(s: Queue, sent: bool, t: nat): Queue { s.(done := s.done + [Failed(sent, t)]) }

  function SleepSending(s: Queue, t: nat, m: Msg): Queue
    requires t < |s.pcs| == |s.nice|
  {
    s.(pcs := s.pcs[t := Sending(m, Waiting)],
       senders := Insert(s.senders, Item(-s.nice[t], s.clock, t)), clock := s.clock + 1)
  }

  /** pipelined_send up to PENDING. */
  function Hand(s: Queue, t: nat, m: Msg, r: nat): Queue
    requires t < |s.pcs| && r < |s.pcs|
  {
    s.(pcs := s.pcs[r := Receiving(Pending, Some(m))][t := Handing(m, r)],
       receivers := Unlink(s.receivers, r), lock := Some(t),
       c := s.c.(hist := s.c.hist + [Sent(t, m), Received(r, m)]))
  }

  function Store(s: Queue, t: nat, m: Msg): Queue {
    s.(c := Put(s.c, t, m), done := s.done + [Ok(true, t, m)])
  }

  function DoSend(s: Queue, t: nat, m: Msg, block: bool): Queue
    requires t < |s.pcs| == |s.nice| && (s.receivers != [] ==> First(s.receivers) < |s.pcs|)
  {
    if |s.c.arr| == s.c.max then
      if block then SleepSending(s, t, m) else Refuse(s, true, t)
    else if s.receivers != [] then Hand(s, t, m, First(s.receivers))
    else Store(s, t, m)
  }

  function SleepReceiving(s: Queue, t: nat): Queue
    requires t < |s.pcs| == |s.nice|
  {
    s.(pcs := s.pcs[t := Receiving(Waiting, None)],
       receivers := Insert(s.receivers, Item(-s.nice[t], s.clock, t)), clock := s.clock + 1)
  }

  /** The front message is taken, and pipelined_receive gets up to PENDING. */
  function Refill(s: Queue, t: nat, f: nat): Queue
    requires t < |s.pcs| && f < |s.pcs| && s.pcs[f].Sending? && s.c.arr != []
  {
    var w := s.pcs[f].msg;
    s.(c := Put(Take(s.c, t), f, w), senders := Unlink(s.senders, f), lock := Some(t),
       pcs := s.pcs[f := Sending(w, Pending)][t := Taking(Front(s.c), f)])
  }

  function Fetch(s: Queue, t: nat): Queue
    requires s.c.arr != []
  {
    s.(c := Take(s.c, t), done := s.done + [Ok(false, t, Front(s.c))])
  }

  function DoReceive(s: Queue, t: nat, block: bool): Queue
    requires t < |s.pcs| == |s.nice|
    requires s.senders != [] ==> First(s.senders) < |s.pcs| && s.pcs[First(s.senders)].Sending?
  {
    if s.c.arr == [] then
      if block then SleepReceiving(s, t) else Refuse(s, false, t)
    else if s.senders != [] then Refill(s, t, First(s.senders))
    else Fetch(s, t)
  }

  function DoFinish(s: Queue, t: nat): Queue
    requires t < |s.pcs| && Can(s, t, Finish)
  {
    var pc := s.pcs[t];
    var w := if pc.Handing? then pc.to else pc.from;
    s.(pcs := s.pcs[w := Woken(s.pcs[w])][t := Idle], lock := None,
       done := s.done + [Ok(pc.Handing?, t, pc.msg)])
  }

  function DoReturn(s: Queue, t: nat): Queue
    requires t < |s.pcs| && Can(s, t, Return)
  {
    var pc := s.pcs[t];
    s.(pcs := s.pcs[t := Idle],
       done := s.done + [if pc.Sending? then Ok(true, t, pc.msg) else Ok(false, t, pc.got.value)])
  }

  function DoGiveUp(s: Queue, t: nat): Queue
    requires t < |s.pcs| && Can(s, t, GiveUp)
  {
    var sent := s.pcs[t].Sending?;
    s.(pcs := s.pcs[t := Idle], done := s.done + [Failed(sent, t)],
       senders := if sent then Unlink(s.senders, t) else s.senders,
       receivers := if sent then s.receivers else Unlink(s.receivers, t))
  }

  // ----- The invariant -----

  predicate Waits(pc: Pc, sending: bool) {
    if sending then pc.Sending? && pc.st == Waiting else pc.Receiving? && pc.st == Waiting
  }

  predicate Names(l: seq<Item<nat>>, t: nat) { exists i :: 0 <= i < |l| && l[i].val == t }

  predicate Distinct(l: seq<Item<nat>>) { forall i, j :: 0 <= i < j < |l| ==> l[i].val != l[j].val }

  /** The list holds the sleepers of its kind, each once, the most urgent and oldest last. */
  ghost predicate Listing(l: seq<Item<nat>>, clock: nat, pcs: seq<Pc>, sending: bool) {
    && Arranged(l) && Older(l, clock) && Distinct(l)
    && forall t: nat :: Names(l, t) <==> t < |pcs| && Waits(pcs[t], sending)
  }

  /** Hand-overs under way: the holder of the lock and its one PENDING partner. */
  predicate HandOver(pcs: seq<Pc>, lock: Option<nat>) {
    && (lock.Some? ==> lock.value < |pcs|)
    && (forall h :: 0 <= h < |pcs| ==> (pcs[h].Handing? || pcs[h].Taking? <==> lock == Some(h)))
    && (forall h :: 0 <= h < |pcs| && pcs[h].Handing? ==>
         pcs[h].to < |pcs| && pcs[pcs[h].to] == Receiving(Pending, Some(pcs[h].msg)))
    && (forall h :: 0 <= h < |pcs| && pcs[h].Taking? ==>
         pcs[h].from < |pcs| && pcs[pcs[h].from].Sending? && pcs[pcs[h].from].st == Pending)
    && (forall t :: 0 <= t < |pcs| ==>
         && (pcs[t].Sending? && pcs[t].st == Pending ==>
              lock.Some? && pcs[lock.value].Taking? && pcs[lock.value].from == t)
         && (pcs[t].Receiving? && pcs[t].st == Pending ==>
              lock.Some? && pcs[lock.value].Handing? && pcs[lock.value].to == t)
         && (pcs[t].Receiving? ==> (pcs[t].got.Some? <==> pcs[t].st != Waiting)))
  }

  /** A completed operation: what was sent or received, and by whom. */
  datatype Entry = Entry(sent: bool, task: nat, msg: Msg)

  /** What task t has done to the queue and not yet returned from. */
  function Tag(t: nat, pc: Pc): Option<Entry> {
    match pc
    case Sending(m, st) => if st != Waiting then Some(Entry(true, t, m)) else None
    case Handing(m, _) => Some(Entry(true, t, m))
    case Receiving(_, got) => if got.Some? then Some(Entry(false, t, got.value)) else None
    case Taking(m, _) => Some(Entry(false, t, m))
    case Idle => None
  }

  function Of(e: Event): Option<Entry> { Some(Entry(e.Sent?, e.task, e.msg)) }

  function Ended(r: Result): Option<Entry> {
    if r.Ok? then Some(Entry(r.sent, r.task, r.msg)) else None
  }

  function One(o: Option<Entry>, y: Entry): nat { if o == Some(y) then 1 else 0 }

  function Tally(pcs: seq<Pc>, y: Entry): nat {
    if pcs == [] then 0 else Tally(pcs[..|pcs| - 1], y) + One(Tag(|pcs| - 1, pcs[|pcs| - 1]), y)
  }

  function Events(hist: seq<Event>, y: Entry): nat {
    if hist == [] then 0 else Events(hist[..|hist| - 1], y) + One(Of(hist[|hist| - 1]), y)
  }

  function Results(done: seq<Result>, y: Entry): nat {
    if done == [] then 0 else Results(done[..|done| - 1], y) + One(Ended(done[|done| - 1]), y)
  }

  /** The history holds the operation as often as calls returned it with success or are about to. */
  predicate Booked(hist: seq<Event>, done: seq<Result>, pcs: seq<Pc>, y: Entry) {
    Events(hist, y) == Results(done, y) + Tally(pcs, y)
  }

  ghost predicate Balanced(hist: seq<Event>, done: seq<Result>, pcs: seq<Pc>) {
    forall y :: Booked(hist, done, pcs, y)
  }

  /** Sleepers, hand-overs and results. */
  ghost predicate Tasks(s: Queue) {
    && |s.pcs| == |s.nice|
    && Listing(s.senders, s.clock, s.pcs, true) && Listing(s.receivers, s.clock, s.pcs, false)
    && HandOver(s.pcs, s.lock)
    && Balanced(s.c.hist, s.done, s.pcs)
  }

  ghost predicate Inv(s: Queue) {
    && Sound(s.c) && Tasks(s)
    && (s.receivers != [] ==> s.c.arr == []) && (s.senders != [] ==> |s.c.arr| == s.c.max)
  }

  // ----- Small steps of the parts -----

  lemma {:induction false} TallyMoved(pcs: seq<Pc>, t: nat, pc: Pc, y: Entry)
    requires t < |pcs|
    ensures Tally(pcs[t := pc], y) + One(Tag(t, pcs[t]), y) == Tally(pcs, y) + One(Tag(t, pc), y)
  {
    var n := |pcs| - 1;
    if t == n {
      assert pcs[t := pc][..n] == pcs[..n];
    } else {
      TallyMoved(pcs[..n], t, pc, y);
      assert pcs[t := pc][..n] == pcs[..n][t := pc];
    }
  }

  lemma {:induction false} ListingAdd(l: seq<Item<nat>>, clock: nat, pcs: seq<Pc>, sending: bool, t: nat, key: int, pc: Pc)
    requires Listing(l, clock, pcs, sending) && t < |pcs| && !Waits(pcs[t], sending) && Waits(pc, sending)
    ensures Listing(Insert(l, Item(key, clock, t)), clock + 1, pcs[t := pc], sending)
  {
    var x := Item(key, clock, t);
    var r := Insert(l, x);
    var p := Place(l, key);
    InsertArranged(l, x);
    assert !Names(l, t);
    forall u: nat ensures Names(r, u) <==> Names(l, u) || u == t {
      if Names(l, u) {
        var i :| 0 <= i < |l| && l[i].val == u;
        assert r[if i < p then i else i + 1].val == u;
      }
      assert r[p].val == t;
    }
  }

  lemma {:induction false} ListingOther(l: seq<Item<nat>>, clock: nat, pcs: seq<Pc>, sending: bool, t: nat, pc: Pc)
    requires Listing(l, clock, pcs, sending) && t < |pcs| && Waits(pcs[t], sending) == Waits(pc, sending)
    ensures Listing(l, clock, pcs[t := pc], sending) && Listing(l, clock + 1, pcs[t := pc], sending)
  {
  }

  lemma {:induction false} WithoutArranged(l: seq<Item<nat>>, k: nat, clock: nat)
    requires Arranged(l) && Older(l, clock) && Distinct(l) && k < |l|
    ensures Arranged(Without(l, k)) && Older(Without(l, k), clock) && Distinct(Without(l, k))
  {
    var r := Without(l, k);
    forall i, j | 0 <= i < j < |r| ensures Below(r[i], r[j]) && r[i].val != r[j].val {
      var i', j' := if i < k then i else i + 1, if j < k then j else j + 1;
      assert Below(l[i'], l[j']) && l[i'].val != l[j'].val;
    }
  }

  lemma {:induction false} ListingRemove(l: seq<Item<nat>>, clock: nat, pcs: seq<Pc>, sending: bool, t: nat, pc: Pc)
    requires Listing(l, clock, pcs, sending) && t < |pcs| && Waits(pcs[t], sending) && !Waits(pc, sending)
    ensures Listing(Unlink(l, t), clock, pcs[t := pc], sending) && |Unlink(l, t)| == |l| - 1
  {
    assert Names(l, t);
    var k := IndexOf(l, t);
    WithoutArranged(l, k, clock);
    var r := Without(l, k);
    forall u: nat ensures Names(r, u) <==> Names(l, u) && u != t {
      if Names(l, u) && u != t {
        var i :| 0 <= i < |l| && l[i].val == u;
        assert r[if i < k then i else i - 1].val == u;
      }
    }
  }

  function Logged(hist: seq<Event>, e: Option<Event>): seq<Event> {
    if e.Some? then hist + [e.value] else hist
  }

  function Noted(done: seq<Result>, r: Option<Result>): seq<Result> {
    if r.Some? then done + [r.value] else done
  }

  /** A move with event e and result r is booked: begun, begun and ended, ended, or neither. */
  predicate Fair(e: Option<Event>, r: Option<Result>, was: Option<Entry>, now: Option<Entry>) {
    var b := if e.Some? then Of(e.value) else None;
    var d := if r.Some? then Ended(r.value) else None;
    (b == now && was == d == None) || (b == d && was == now) || (was == d && b == now == None)
  }

  lemma {:induction false} BookedStep(hist: seq<Event>, done: seq<Result>, pcs: seq<Pc>, y: Entry,
                                      e: Option<Event>, r: Option<Result>, t: nat, pc: Pc)
    requires Booked(hist, done, pcs, y) && t < |pcs| && Fair(e, r, Tag(t, pcs[t]), Tag(t, pc))
    ensures Booked(Logged(hist, e), Noted(done, r), pcs[t := pc], y)
  {
    TallyMoved(pcs, t, pc, y);
    if e.Some? {
      assert (hist + [e.value])[..|hist|] == hist;
    }
    if r.Some? {
      assert (done + [r.value])[..|done|] == done;
    }
  }

  lemma {:induction false} BalancedStep(hist: seq<Event>, done: seq<Result>, pcs: seq<Pc>,
                                        e: Option<Event>, r: Option<Result>, t: nat, pc: Pc)
    requires Balanced(hist, done, pcs) && t < |pcs| && Fair(e, r, Tag(t, pcs[t]), Tag(t, pc))
    ensures Balanced(Logged(hist, e), Noted(done, r), pcs[t := pc])
  {
    var h, d, p := Logged(hist, e), Noted(done, r), pcs[t := pc];
    forall y ensures Booked(h, d, p, y) {
      BookedStep(hist, done, pcs, y, e, r, t, pc);
    }
  }

  lemma {:induction false} BalancedSame(hist: seq<Event>, done: seq<Result>, pcs: seq<Pc>,
                                        e: Option<Event>, r: Option<Result>, t: nat)
    requires Balanced(hist, done, pcs) && t < |pcs| && Fair(e, r, Tag(t, pcs[t]), Tag(t, pcs[t]))
    ensures Balanced(Logged(hist, e), Noted(done, r), pcs)
  {
    BalancedStep(hist, done, pcs, e, r, t, pcs[t]);
    assert pcs[t := pcs[t]] == pcs;
  }

  lemma {:induction false} BooksHand(hist: seq<Event>, done: seq<Result>, pcs: seq<Pc>, t: nat, m: Msg, r: nat)
    requires Balanced(hist, done, pcs) && t < |pcs| && r < |pcs| && pcs[t] == Idle
    requires pcs[r].Receiving? && pcs[r].got.None?
    ensures Balanced(hist + [Sent(t, m), Received(r, m)], done, pcs[r := Receiving(Pending, Some(m))][t := Handing(m, r)])
  {
    var pr, pt := Receiving(Pending, Some(m)), Handing(m, r);
    BalancedStep(hist, done, pcs, Some(Sent(t, m)), None, t, pt);
    BalancedStep(hist + [Sent(t, m)], done, pcs[t := pt], Some(Received(r, m)), None, r, pr);
    assert hist + [Sent(t, m)] + [Received(r, m)] == hist + [Sent(t, m), Received(r, m)];
    assert pcs[t := pt][r := pr] == pcs[r := pr][t := pt];
  }

  lemma {:induction false} BooksTake(hist: seq<Event>, done: seq<Result>, pcs: seq<Pc>, t: nat, m: Msg, f: nat, w: Msg)
    requires Balanced(hist, done, pcs) && t < |pcs| && f < |pcs| && pcs[t] == Idle && pcs[f] == Sending(w, Waiting)
    ensures Balanced(hist + [Received(t, m)] + [Sent(f, w)], done, pcs[f := Sending(w, Pending)][t := Taking(m, f)])
  {
    var pf, pt := Sending(w, Pending), Taking(m, f);
    BalancedStep(hist, done, pcs, Some(Received(t, m)), None, t, pt);
    BalancedStep(hist + [Received(t, m)], done, pcs[t := pt], Some(Sent(f, w)), None, f, pf);
    assert pcs[t := pt][f := pf] == pcs[f := pf][t := pt];
  }

  lemma {:induction false} BooksFinish(hist: seq<Event>, done: seq<Result>, pcs: seq<Pc>, t: nat, w: nat)
    requires Balanced(hist, done, pcs) && t < |pcs| && w < |pcs| && w != t
    requires pcs[t].Handing? || pcs[t].Taking?
    requires (pcs[w].Sending? && pcs[w].st == Pending) || pcs[w].Receiving?
    ensures Balanced(hist, done + [Ok(pcs[t].Handing?, t, pcs[t].msg)], pcs[w := Woken(pcs[w])][t := Idle])
  {
    BalancedStep(hist, done, pcs, None, None, w, Woken(pcs[w]));
    BalancedStep(hist, done, pcs[w := Woken(pcs[w])], None, Some(Ok(pcs[t].Handing?, t, pcs[t].msg)), t, Idle);
  }

  /** A task outside any hand-over. */
  predicate Apart(pc: Pc) {
    match pc
    case Idle => true
    case Sending(_, st) => st != Pending
    case Receiving(st, got) => st != Pending && (got.Some? <==> st == Ready)
    case _ => false
  }

  lemma {:induction false} HandOverApart(pcs: seq<Pc>, lock: Option<nat>, t: nat, pc: Pc)
    requires HandOver(pcs, lock) && t < |pcs| && Apart(pcs[t]) && Apart(pc)
    ensures HandOver(pcs[t := pc], lock)
  {
  }

  lemma {:induction false} HandOverBegins(pcs: seq<Pc>, t: nat, m: Msg, w: nat)
    requires HandOver(pcs, None) && t < |pcs| && w < |pcs| && pcs[t] == Idle
    ensures pcs[w].Receiving? ==> HandOver(pcs[w := Receiving(Pending, Some(m))][t := Handing(m, w)], Some(t))
    ensures pcs[w].Sending? ==> HandOver(pcs[w := Sending(pcs[w].msg, Pending)][t := Taking(m, w)], Some(t))
  {
  }

  lemma {:induction false} HandOverEnds(pcs: seq<Pc>, lock: Option<nat>, t: nat)
    requires HandOver(pcs, lock) && t < |pcs| && (pcs[t].Handing? || pcs[t].Taking?)
    ensures var w := if pcs[t].Handing? then pcs[t].to else pcs[t].from;
      w < |pcs| && w != t && HandOver(pcs[w := Woken(pcs[w])][t := Idle], None)
  {
  }

  /** Neither list knows task t, before or after. */
  lemma {:induction false} ListsOther(s: Queue, t: nat, pc: Pc)
    requires Listing(s.senders, s.clock, s.pcs, true) && Listing(s.receivers, s.clock, s.pcs, false) && t < |s.pcs|
    requires Waits(s.pcs[t], true) == Waits(pc, true) && Waits(s.pcs[t], false) == Waits(pc, false)
    ensures Listing(s.senders, s.clock, s.pcs[t := pc], true) && Listing(s.receivers, s.clock, s.pcs[t := pc], false)
  {
    ListingOther(s.senders, s.clock, s.pcs, true, t, pc);
    ListingOther(s.receivers, s.clock, s.pcs, false, t, pc);
  }

  lemma FirstWaits(l: seq<Item<nat>>, clock: nat, pcs: seq<Pc>, sending: bool)
    requires Listing(l, clock, pcs, sending)
    ensures l != [] ==> First(l) < |pcs| && Waits(pcs[First(l)], sending)
  {
    if l != [] {
      assert Names(l, First(l));
    }
  }

  // ----- Every step keeps the invariant -----

  /** An idle task that goes to sleep changes neither the hand-overs nor the books. */
  lemma {:induction false} SleepTasks(s: Queue, t: nat, pc: Pc, senders: seq<Item<nat>>, receivers: seq<Item<nat>>)
    requires HandOver(s.pcs, s.lock) && Balanced(s.c.hist, s.done, s.pcs) && t < |s.pcs| == |s.nice|
    requires s.pcs[t] == Idle && Apart(pc) && Tag(t, pc) == None
    requires Listing(senders, s.clock + 1, s.pcs[t := pc], true)
    requires Listing(receivers, s.clock + 1, s.pcs[t := pc], false)
    ensures Tasks(s.(pcs := s.pcs[t := pc], senders := senders, receivers := receivers, clock := s.clock + 1))
  {
    HandOverApart(s.pcs, s.lock, t, pc);
    BalancedStep(s.c.hist, s.done, s.pcs, None, None, t, pc);
  }

  lemma {:induction false} SleepLists(l: seq<Item<nat>>, k: seq<Item<nat>>, clock: nat, pcs: seq<Pc>,
                                      sending: bool, t: nat, key: int, pc: Pc)
    requires Listing(l, clock, pcs, sending) && Listing(k, clock, pcs, !sending)
    requires t < |pcs| && pcs[t] == Idle && Waits(pc, sending)
    ensures Listing(Insert(l, Item(key, clock, t)), clock + 1, pcs[t := pc], sending)
    ensures Listing(k, clock + 1, pcs[t := pc], !sending)
  {
    ListingAdd(l, clock, pcs, sending, t, key, pc);
    ListingOther(k, clock, pcs, !sending, t, pc);
  }

  lemma {:induction false} SendSleeps(s: Queue, t: nat, m: Msg)
    requires Tasks(s) && t < |s.pcs| && s.pcs[t] == Idle
    ensures Tasks(SleepSending(s, t, m))
  {
    var pc := Sending(m, Waiting);
    SleepLists(s.senders, s.receivers, s.clock, s.pcs, true, t, -s.nice[t], pc);
    SleepTasks(s, t, pc, Insert(s.senders, Item(-s.nice[t], s.clock, t)), s.receivers);
  }

  lemma {:induction false} CallFails(s: Queue, t: nat, sent: bool)
    requires Inv(s) && t < |s.pcs|
    ensures Inv(Refuse(s, sent, t))
  {
    BalancedSame(s.c.hist, s.done, s.pcs, None, Some(Failed(sent, t)), t);
  }

  lemma {:induction false} SendStores(s: Queue, t: nat, m: Msg)
    requires Inv(s) && t < |s.pcs| && |s.c.arr| < s.c.max && s.receivers == []
    ensures Inv(Store(s, t, m))
  {
    PutSound(s.c, t, m);
    BalancedSame(s.c.hist, s.done, s.pcs, Some(Sent(t, m)), Some(Ok(true, t, m)), t);
  }

  lemma {:induction false} SendHands(s: Queue, t: nat, m: Msg, r: nat)
    requires Inv(s) && t < |s.pcs| && s.pcs[t] == Idle && s.lock.None? && |s.c.arr| < s.c.max
    requires s.receivers != [] && r == First(s.receivers) && r < |s.pcs| && Waits(s.pcs[r], false)
    ensures Inv(Hand(s, t, m, r))
  {
    var pr, pt := Receiving(Pending, Some(m)), Handing(m, r);
    PastSound(s.c, t, r, m);
    ListingRemove(s.receivers, s.clock, s.pcs, false, r, pr);
    ListingOther(s.senders, s.clock, s.pcs, true, r, pr);
    ListsOther(s.(receivers := Unlink(s.receivers, r), pcs := s.pcs[r := pr]), t, pt);
    HandOverBegins(s.pcs, t, m, r);
    BooksHand(s.c.hist, s.done, s.pcs, t, m, r);
  }

  lemma {:induction false} SendKeeps(s: Queue, t: nat, m: Msg, block: bool)
    requires Inv(s) && t < |s.pcs| && Can(s, t, Send(m, block))
    ensures (s.receivers != [] ==> First(s.receivers) < |s.pcs|) && Inv(DoSend(s, t, m, block))
  {
    FirstWaits(s.receivers, s.clock, s.pcs, false);
    if |s.c.arr| == s.c.max {
      if block {
        SendSleeps(s, t, m);
      } else {
        CallFails(s, t, true);
      }
    } else if s.receivers != [] {
      SendHands(s, t, m, First(s.receivers));
    } else {
      SendStores(s, t, m);
    }
  }

  lemma {:induction false} ReceiveSleeps(s: Queue, t: nat)
    requires Tasks(s) && t < |s.pcs| && s.pcs[t] == Idle
    ensures Tasks(SleepReceiving(s, t))
  {
    var pc := Receiving(Waiting, None);
    SleepLists(s.receivers, s.senders, s.clock, s.pcs, false, t, -s.nice[t], pc);
    SleepTasks(s, t, pc, s.senders, Insert(s.receivers, Item(-s.nice[t], s.clock, t)));
  }

  lemma {:induction false} ReceiveTakes(s: Queue, t: nat)
    requires Inv(s) && t < |s.pcs| && s.c.arr != [] && s.senders == []
    ensures Inv(Fetch(s, t))
  {
    TakeSound(s.c, t);
    var m := Front(s.c);
    BalancedSame(s.c.hist, s.done, s.pcs, Some(Received(t, m)), Some(Ok(false, t, m)), t);
  }

  lemma {:induction false} ReceiveRefills(s: Queue, t: nat, f: nat, w: Msg)
    requires Inv(s) && t < |s.pcs| && s.pcs[t] == Idle && s.lock.None? && s.c.arr != []
    requires s.senders != [] && f == First(s.senders) && f < |s.pcs| && s.pcs[f] == Sending(w, Waiting)
    ensures Inv(Refill(s, t, f))
  {
    var m := Front(s.c);
    TakeSound(s.c, t);
    PutSound(Take(s.c, t), f, w);
    var pf, pt := Sending(w, Pending), Taking(m, f);
    ListingRemove(s.senders, s.clock, s.pcs, true, f, pf);
    ListingOther(s.receivers, s.clock, s.pcs, false, f, pf);
    ListsOther(s.(senders := Unlink(s.senders, f), pcs := s.pcs[f := pf]), t, pt);
    HandOverBegins(s.pcs, t, m, f);
    BooksTake(s.c.hist, s.done, s.pcs, t, m, f, w);
  }

  lemma {:induction false} ReceiveKeeps(s: Queue, t: nat, block: bool)
    requires Inv(s) && t < |s.pcs| && Can(s, t, Receive(block))
    ensures s.senders != [] ==> First(s.senders) < |s.pcs| && s.pcs[First(s.senders)].Sending?
    ensures Inv(DoReceive(s, t, block))
  {
    FirstWaits(s.senders, s.clock, s.pcs, true);
    if s.c.arr == [] {
      if block {
        ReceiveSleeps(s, t);
      } else {
        CallFails(s, t, false);
      }
    } else if s.senders != [] {
      ReceiveRefills(s, t, First(s.senders), s.pcs[First(s.senders)].msg);
    } else {
      ReceiveTakes(s, t);
    }
  }

  lemma {:induction false} FinishKeeps(s: Queue, t: nat)
    requires Inv(s) && t < |s.pcs| && Can(s, t, Finish)
    ensures Inv(DoFinish(s, t))
  {
    var pc := s.pcs[t];
    var w := if pc.Handing? then pc.to else pc.from;
    var pw := Woken(s.pcs[w]);
    HandOverEnds(s.pcs, s.lock, t);
    ListsOther(s, w, pw);
    ListsOther(s.(pcs := s.pcs[w := pw]), t, Idle);
    BooksFinish(s.c.hist, s.done, s.pcs, t, w);
  }

  lemma {:induction false} ReturnKeeps(s: Queue, t: nat)
    requires Inv(s) && t < |s.pcs| && Can(s, t, Return)
    ensures Inv(DoReturn(s, t))
  {
    var pc := s.pcs[t];
    ListsOther(s, t, Idle);
    HandOverApart(s.pcs, s.lock, t, Idle);
    BalancedStep(s.c.hist, s.done, s.pcs, None,
                 Some(if pc.Sending? then Ok(true, t, pc.msg) else Ok(false, t, pc.got.value)), t, Idle);
  }

  /** The recheck under the lock is enough: PENDING is never seen there. */
  lemma {:induction false} NotPendingUnderLock(s: Queue, t: nat)
    requires HandOver(s.pcs, s.lock) && t < |s.pcs| && Can(s, t, GiveUp)
    ensures Waits(s.pcs[t], s.pcs[t].Sending?)
  {
  }

  lemma {:induction false} GiveUpKeeps(s: Queue, t: nat)
    requires Inv(s) && t < |s.pcs| && Can(s, t, GiveUp)
    ensures Inv(DoGiveUp(s, t))
  {
    NotPendingUnderLock(s, t);
    var sent := s.pcs[t].Sending?;
    HandOverApart(s.pcs, s.lock, t, Idle);
    BalancedStep(s.c.hist, s.done, s.pcs, None, Some(Failed(sent, t)), t, Idle);
    if sent {
      ListingRemove(s.senders, s.clock, s.pcs, true, t, Idle);
      ListingOther(s.receivers, s.clock, s.pcs, false, t, Idle);
    } else {
      ListingRemove(s.receivers, s.clock, s.pcs, false, t, Idle);
      ListingOther(s.senders, s.clock, s.pcs, true, t, Idle);
    }
  }

  // ----- Runs -----

  function Do(s: Queue, t: nat, a: Action): Queue
    requires t < |s.pcs| == |s.nice| && Can(s, t, a)
    requires s.receivers != [] ==> First(s.receivers) < |s.pcs|
    requires s.senders != [] ==> First(s.senders) < |s.pcs| && s.pcs[First(s.senders)].Sending?
  {
    match a
    case Send(m, block) => DoSend(s, t, m, block)
    case Receive(block) => DoReceive(s, t, block)
    case Finish => DoFinish(s, t)
    case Return => DoReturn(s, t)
    case GiveUp => DoGiveUp(s, t)
  }

  lemma {:induction false} StepKeeps(s: Queue, t: nat, a: Action)
    requires Inv(s) && t < |s.pcs| && Can(s, t, a)
    ensures s.receivers != [] ==> First(s.receivers) < |s.pcs|
    ensures s.senders != [] ==> First(s.senders) < |s.pcs| && s.pcs[First(s.senders)].Sending?
    ensures Inv(Do(s, t, a))
  {
    FirstWaits(s.receivers, s.clock, s.pcs, false);
    FirstWaits(s.senders, s.clock, s.pcs, true);
    match a
    case Send(m, block) => SendKeeps(s, t, m, block);
    case Receive(block) => ReceiveKeeps(s, t, block);
    case Finish => FinishKeeps(s, t);
    case Return => ReturnKeeps(s, t);
    case GiveUp => GiveUpKeeps(s, t);
  }

  predicate Init(s: Queue) {
    && |s.pcs| == |s.nice| && (forall t :: 0 <= t < |s.pcs| ==> s.pcs[t] == Idle)
    && s.senders == [] && s.receivers == [] && s.lock == None && s.done == []
    && s.c == Content(s.c.max, [], 0, []) && s.c.max > 0
  }

  ghost predicate Next(s: Queue, s': Queue) {
    exists t: nat, a ::
      && t < |s.pcs| == |s.nice| && Can(s, t, a)
      && (s.receivers != [] ==> First(s.receivers) < |s.pcs|)
      && (s.senders != [] ==> First(s.senders) < |s.pcs| && s.pcs[First(s.senders)].Sending?)
      && s' == Do(s, t, a)
  }

  ghost predicate Follows(run: seq<Queue>) {
    forall n :: 0 < n < |run| ==> Moved(run, n)
  }

  ghost predicate Moved(run: seq<Queue>, n: nat)
    requires 0 < n < |run|
  {
    Next(run[n - 1], run[n])
  }

  ghost predicate Run(run: seq<Queue>) {
    run != [] && Init(run[0]) && Follows(run)
  }

  lemma {:induction false} TallyIdle(pcs: seq<Pc>, y: Entry)
    requires forall t :: 0 <= t < |pcs| ==> pcs[t] == Idle
    ensures Tally(pcs, y) == 0
  {
    if pcs != [] {
      TallyIdle(pcs[..|pcs| - 1], y);
    }
  }

  lemma {:induction false} InitKeeps(s: Queue)
    requires Init(s)
    ensures Inv(s)
  {
    forall y ensures Booked(s.c.hist, s.done, s.pcs, y) {
      TallyIdle(s.pcs, y);
    }
  }

  lemma {:induction false} NextKeeps(s: Queue, s': Queue)
    requires Inv(s) && Next(s, s')
    ensures Inv(s')
  {
    var t: nat, a :| t < |s.pcs| == |s.nice| && Can(s, t, a)
      && (s.receivers != [] ==> First(s.receivers) < |s.pcs|)
      && (s.senders != [] ==> First(s.senders) < |s.pcs| && s.pcs[First(s.senders)].Sending?)
      && s' == Do(s, t, a);
    StepKeeps(s, t, a);
  }

  /** In every state of every run the array refines the reference queue after the history, waiting
      receivers mean an empty array and waiting senders a full one, and the books balance. */
  lemma {:induction false} Reachable(run: seq<Queue>, n: nat)
    requires Run(run) && n < |run|
    ensures Inv(run[n])
  {
    InitKeeps(run[0]);
    for k := 0 to n
      invariant Inv(run[k])
    {
      assert Moved(run, k + 1);
      NextKeeps(run[k], run[k + 1]);
    }
  }

  function Sends(hist: seq<Event>, m: Msg): nat {
    if hist == [] then 0
    else Sends(hist[..|hist| - 1], m) + if hist[|hist| - 1].Sent? && hist[|hist| - 1].msg == m then 1 else 0
  }

  function Receipts(hist: seq<Event>, m: Msg): nat {
    if hist == [] then 0
    else Receipts(hist[..|hist| - 1], m) + if hist[|hist| - 1].Received? && hist[|hist| - 1].msg == m then 1 else 0
  }

  function Copies(q: seq<Item<Msg>>, m: Msg): nat {
    if q == [] then 0 else Copies(q[..|q| - 1], m) + if q[|q| - 1].val == m then 1 else 0
  }

  lemma {:induction false} CopiesWithout(q: seq<Item<Msg>>, b: nat, m: Msg)
    requires b < |q|
    ensures Copies(q, m) == Copies(Without(q, b), m) + if q[b].val == m then 1 else 0
  {
    var n := |q| - 1;
    if b == n {
      assert Without(q, b) == q[..n];
    } else {
      CopiesWithout(q[..n], b, m);
      var r := Without(q, b);
      assert r[..n - 1] == Without(q[..n], b) && r[n - 1] == q[n];
    }
  }

  /** A message of the reference queue is received as often as it was sent, less the copies still in. */
  lemma {:induction false} ReplayConserves(max: nat, hist: seq<Event>, m: Msg)
    requires Replay(max, hist).Some?
    ensures Sends(hist, m) == Receipts(hist, m) + Copies(Replay(max, hist).value, m)
  {
    if hist != [] {
      var front, e := hist[..|hist| - 1], hist[|hist| - 1];
      ReplayConserves(max, front, m);
      var q := Replay(max, front).value;
      if e.Sent? {
        assert (q + [Item(e.msg.prio, |hist| - 1, e.msg)])[..|q|] == q;
      } else {
        CopiesWithout(q, Best(q), m);
      }
    }
  }

  /** Once no call is under way: the successful calls are exactly the events of the history, and the
      history is one of the reference queue, so each message sent was received once or is in the array. */
  lemma {:induction false} ExactlyOnce(run: seq<Queue>, n: nat, y: Entry)
    requires Run(run) && n < |run| && forall t :: 0 <= t < |run[n].pcs| ==> run[n].pcs[t] == Idle
    ensures Events(run[n].c.hist, y) == Results(run[n].done, y)
    ensures var r := Replay(run[n].c.max, run[n].c.hist); r.Some? && multiset(run[n].c.arr) == multiset(r.value)
  {
    Reachable(run, n);
    TallyIdle(run[n].pcs, y);
    assert Booked(run[n].c.hist, run[n].done, run[n].pcs, y);
  }

  lemma {:induction false} Moves(s: Queue, t: nat, a: Action) returns (s': Queue)
    requires Inv(s) && t < |s.pcs| && Can(s, t, a)
    ensures Inv(s') && Next(s, s')
    ensures (s.receivers != [] ==> First(s.receivers) < |s.pcs|)
    ensures (s.senders != [] ==> First(s.senders) < |s.pcs| && s.pcs[First(s.senders)].Sending?)
    ensures s' == Do(s, t, a)
  {
    StepKeeps(s, t, a);
    s' := Do(s, t, a);
  }

  /** What the three steps of a hand-over write. */
  lemma {:induction false} Handed(s: Queue, t: nat, m: Msg, r: nat)
    requires t < |s.pcs| && r < |s.pcs| && t != r && s.pcs[t] == Idle && s.lock == None
    ensures Can(Hand(s, t, m, r), t, Finish)
    ensures var v := DoFinish(Hand(s, t, m, r), t); r < |v.pcs| && Can(v, r, Return)
    ensures var w := DoReturn(DoFinish(Hand(s, t, m, r), t), r);
      && w.pcs == s.pcs[r := Idle] && w.lock == None && w.c.arr == s.c.arr
      && w.done == s.done + [Ok(true, t, m), Ok(false, r, m)] && w.receivers == Unlink(s.receivers, r)
  {
    var w := DoReturn(DoFinish(Hand(s, t, m, r), t), r);
    assert w.pcs == s.pcs[r := Idle];
    assert w.done == s.done + [Ok(true, t, m)] + [Ok(false, r, m)];
  }

  function HandRun(s: Queue, t: nat, m: Msg, r: nat): seq<Queue>
    requires t < |s.pcs| && r < |s.pcs| && Can(Hand(s, t, m, r), t, Finish) && Can(DoFinish(Hand(s, t, m, r), t), r, Return)
  {
    var u := Hand(s, t, m, r);
    var v := DoFinish(u, t);
    [s, u, v, DoReturn(v, r)]
  }

  lemma FourStates(s: Queue, u: Queue, v: Queue, w: Queue)
    requires Next(s, u) && Next(u, v) && Next(v, w)
    ensures Follows([s, u, v, w])
  {
    var run := [s, u, v, w];
    forall n | 0 < n < |run| ensures Moved(run, n) {
      assert n == 1 || n == 2 || n == 3;
    }
  }

  lemma {:induction false} HandsOn(s: Queue, t: nat, m: Msg, r: nat)
    requires t < |s.pcs| && r < |s.pcs| && Can(Hand(s, t, m, r), t, Finish) && Can(DoFinish(Hand(s, t, m, r), t), r, Return)
    requires Inv(Hand(s, t, m, r)) && Next(s, Hand(s, t, m, r))
    ensures Follows(HandRun(s, t, m, r))
  {
    var u := Hand(s, t, m, r);
    var v := Moves(u, t, Finish);
    var w := Moves(v, r, Return);
    FourStates(s, u, v, w);
  }

  lemma {:induction false} HandBegins(s: Queue, t: nat, m: Msg, block: bool)
    requires Inv(s) && t < |s.pcs| && s.pcs[t] == Idle && s.lock.None? && s.receivers != []
    ensures First(s.receivers) < |s.pcs| && First(s.receivers) != t && s.c.arr == []
    ensures Inv(Hand(s, t, m, First(s.receivers))) && Next(s, Hand(s, t, m, First(s.receivers)))
  {
    FirstWaits(s.receivers, s.clock, s.pcs, false);
    var u := Moves(s, t, Send(m, block));
  }

  /** A send meets a waiting receiver: in three steps of the two both calls have succeeded, whatever
      the others were doing, and the message never was in the array. */
  lemma {:induction false} HandsOver(s: Queue, t: nat, m: Msg, block: bool) returns (run: seq<Queue>)
    requires Inv(s) && t < |s.pcs| && s.pcs[t] == Idle && s.lock.None? && s.receivers != []
    ensures |run| == 4 && run[0] == s && Follows(run)
    ensures var r := First(s.receivers);
      && r < |s.pcs| && run[3].pcs == s.pcs[r := Idle] && run[3].lock == None
      && run[3].done == s.done + [Ok(true, t, m), Ok(false, r, m)]
      && run[3].receivers == Unlink(s.receivers, r) && run[3].c.arr == []
  {
    var r := First(s.receivers);
    HandBegins(s, t, m, block);
    Handed(s, t, m, r);
    HandsOn(s, t, m, r);
    run := HandRun(s, t, m, r);
  }

  lemma {:induction false} Prepend(s: Queue, rest: seq<Queue>)
    requires rest != [] && Next(s, rest[0]) && Follows(rest)
    ensures Follows([s] + rest)
  {
    var run := [s] + rest;
    forall n | 0 < n < |run| ensures Moved(run, n) {
      assert n > 1 ==> Moved(rest, n - 1);
    }
  }

  lemma {:induction false} FirstSleeps(s: Queue, r: nat)
    requires Init(s) && r < |s.pcs|
    ensures Inv(SleepReceiving(s, r)) && Next(s, SleepReceiving(s, r))
    ensures SleepReceiving(s, r).receivers == [Item(-s.nice[r], s.clock, r)]
  {
    InitKeeps(s);
    InsertFirst(Item(-s.nice[r], s.clock, r));
    var u := Moves(s, r, Receive(true));
  }

  /** From every fresh queue: task r waits, task t sends, and both return with the message. */
  lemma {:induction false} Exchange(s: Queue, t: nat, r: nat, m: Msg) returns (run: seq<Queue>)
    requires Init(s) && t < |s.pcs| && r < |s.pcs| && t != r
    ensures |run| == 5 && Run(run) && run[0] == s && run[4].pcs == s.pcs
    ensures run[4].done == [Ok(true, t, m), Ok(false, r, m)]
  {
    FirstSleeps(s, r);
    var rest := HandsOver(SleepReceiving(s, r), t, m, true);
    Prepend(s, rest);
    run := [s] + rest;
    assert rest[3].pcs == s.pcs;
  }

  // ----- Who is served -----

  function Side(s: Queue, sending: bool): seq<Item<nat>> { if sending then s.senders else s.receivers }

  /** Of a list's entries the last has the largest key and, among equals, the smallest stamp. */
  lemma {:induction false} FirstIsMostUrgent(l: seq<Item<nat>>, i: nat)
    requires Arranged(l) && i < |l|
    ensures var f := l[|l| - 1]; l[i].key <= f.key && (l[i].key == f.key ==> i == |l| - 1 || l[i].stamp > f.stamp)
  {
    assert i == |l| - 1 || Below(l[i], l[|l| - 1]);
  }

  lemma InsertHas(l: seq<Item<nat>>, x: Item<nat>, y: Item<nat>)
    requires y == x || y in l
    ensures y in Insert(l, x)
  {
    InsertBag(l, x);
    assert y in multiset(Insert(l, x));
  }

  lemma UnlinkHas(l: seq<Item<nat>>, t: nat, y: Item<nat>)
    requires y in l && y.val != t
    ensures y in Unlink(l, t)
  {
    var i :| 0 <= i < |l| && l[i] == y;
    var k := IndexOf(l, t);
    if k < |l| {
      assert Without(l, k)[if i < k then i else i - 1] == y;
    }
  }

  /** The task was chosen by the other side. */
  predicate Pends(pc: Pc, sending: bool) {
    if sending then pc.Sending? && pc.st == Pending else pc.Receiving? && pc.st == Pending
  }

  /** What a step does to the entry y of a task that waits before and after it. */
  predicate Stays(l: seq<Item<nat>>, l': seq<Item<nat>>, pcs': seq<Pc>, y: Item<nat>, sending: bool) {
    y in l && y.val < |pcs'| && Waits(pcs'[y.val], sending) ==> y in l'
  }

  /** What a step does to a task g that begins to wait. */
  predicate Joins(l': seq<Item<nat>>, s: Queue, pcs': seq<Pc>, clock': nat, g: nat, sending: bool)
    requires |pcs'| == |s.pcs| == |s.nice|
  {
    g < |s.pcs| && !Waits(s.pcs[g], sending) && Waits(pcs'[g], sending) ==>
      Item(-s.nice[g], s.clock, g) in l' && clock' == s.clock + 1
  }

  /** What a step does to a task g that it serves. */
  predicate Chosen(l: seq<Item<nat>>, pcs: seq<Pc>, pcs': seq<Pc>, g: nat, sending: bool)
    requires |pcs'| == |pcs|
  {
    g < |pcs| && Waits(pcs[g], sending) && Pends(pcs'[g], sending) ==> l != [] && g == First(l)
  }

  predicate Orderly(s: Queue, s': Queue, y: Item<nat>, g: nat, sending: bool) {
    && |s'.pcs| == |s.pcs| == |s.nice| && s'.nice == s.nice && s.clock <= s'.clock
    && Stays(Side(s, sending), Side(s', sending), s'.pcs, y, sending)
    && Joins(Side(s', sending), s, s'.pcs, s'.clock, g, sending)
    && Chosen(Side(s, sending), s.pcs, s'.pcs, g, sending)
  }

  lemma {:induction false} SleepOrderly(s: Queue, t: nat, pc: Pc, l: seq<Item<nat>>, y: Item<nat>, g: nat, sending: bool)
    requires t < |s.pcs| == |s.nice| && s.pcs[t] == Idle && Waits(pc, sending)
    ensures var l' := Insert(l, Item(-s.nice[t], s.clock, t)); var pcs' := s.pcs[t := pc];
      Stays(l, l', pcs', y, sending) && Joins(l', s, pcs', s.clock + 1, g, sending) && Chosen(l, s.pcs, pcs', g, sending)
  {
    var x := Item(-s.nice[t], s.clock, t);
    InsertHas(l, x, x);
    if y in l {
      InsertHas(l, x, y);
    }
  }

  lemma {:induction false} ServeOrderly(s: Queue, t: nat, pt: Pc, pf: Pc, l: seq<Item<nat>>, y: Item<nat>, g: nat,
                                        sending: bool)
    requires t < |s.pcs| == |s.nice| && l != [] && First(l) < |s.pcs|
    requires pt.Handing? || pt.Taking?
    requires !Waits(pf, sending)
    ensures var f := First(l); var l' := Unlink(l, f); var pcs' := s.pcs[f := pf][t := pt];
      Stays(l, l', pcs', y, sending) && Joins(l', s, pcs', s.clock, g, sending) && Chosen(l, s.pcs, pcs', g, sending)
  {
    if y in l && y.val != First(l) {
      UnlinkHas(l, First(l), y);
    }
  }

  /** A step that lets nobody join or be served on this side keeps the list's order. */
  lemma {:induction false} OtherOrderly(s: Queue, t: nat, pc: Pc, l: seq<Item<nat>>, clock': nat, y: Item<nat>, g: nat, sending: bool)
    requires t < |s.pcs| == |s.nice| && !Waits(pc, sending) && (Waits(s.pcs[t], sending) ==> !Pends(pc, sending))
    ensures var pcs' := s.pcs[t := pc];
      Stays(l, l, pcs', y, sending) && Joins(l, s, pcs', clock', g, sending) && Chosen(l, s.pcs, pcs', g, sending)
  {
  }

  lemma {:induction false} SendOrderly(s: Queue, t: nat, m: Msg, block: bool, y: Item<nat>, g: nat, sending: bool)
    requires t < |s.pcs| == |s.nice| && Can(s, t, Send(m, block)) && (s.receivers != [] ==> First(s.receivers) < |s.pcs|)
    ensures Orderly(s, DoSend(s, t, m, block), y, g, sending)
  {
    if |s.c.arr| == s.c.max && block {
      if sending {
        SleepOrderly(s, t, Sending(m, Waiting), s.senders, y, g, true);
      } else {
        OtherOrderly(s, t, Sending(m, Waiting), s.receivers, s.clock + 1, y, g, false);
      }
    } else if |s.c.arr| != s.c.max && s.receivers != [] && !sending {
      ServeOrderly(s, t, Handing(m, First(s.receivers)), Receiving(Pending, Some(m)), s.receivers, y, g, false);
    }
  }

  lemma {:induction false} RefillOrderly(s: Queue, t: nat, f: nat, y: Item<nat>, g: nat, sending: bool)
    requires t < |s.pcs| == |s.nice| && s.pcs[t] == Idle && s.c.arr != []
    requires s.senders != [] && f == First(s.senders) < |s.pcs| && s.pcs[f].Sending?
    ensures Orderly(s, Refill(s, t, f), y, g, sending)
  {
    if sending {
      ServeOrderly(s, t, Taking(Front(s.c), f), Sending(s.pcs[f].msg, Pending), s.senders, y, g, true);
    }
  }

  lemma {:induction false} ReceiveOrderly(s: Queue, t: nat, block: bool, y: Item<nat>, g: nat, sending: bool)
    requires t < |s.pcs| == |s.nice| && Can(s, t, Receive(block))
    requires s.senders != [] ==> First(s.senders) < |s.pcs| && s.pcs[First(s.senders)].Sending?
    ensures Orderly(s, DoReceive(s, t, block), y, g, sending)
  {
    if s.c.arr == [] && block {
      if !sending {
        SleepOrderly(s, t, Receiving(Waiting, None), s.receivers, y, g, false);
      } else {
        OtherOrderly(s, t, Receiving(Waiting, None), s.senders, s.clock + 1, y, g, true);
      }
    } else if s.c.arr != [] && s.senders != [] {
      RefillOrderly(s, t, First(s.senders), y, g, sending);
    }
  }

  lemma {:induction false} RestOrderly(s: Queue, t: nat, a: Action, y: Item<nat>, g: nat, sending: bool)
    requires t < |s.pcs| == |s.nice| && Can(s, t, a) && (a.Finish? || a.Return? || a.GiveUp?)
    requires s.receivers != [] ==> First(s.receivers) < |s.pcs|
    requires s.senders != [] ==> First(s.senders) < |s.pcs| && s.pcs[First(s.senders)].Sending?
    ensures Orderly(s, Do(s, t, a), y, g, sending)
  {
    if a.GiveUp? {
      if y in s.senders && y.val != t {
        UnlinkHas(s.senders, t, y);
      }
      if y in s.receivers && y.val != t {
        UnlinkHas(s.receivers, t, y);
      }
    }
  }

  lemma {:induction false} NextOrderly(s: Queue, s': Queue, y: Item<nat>, g: nat, sending: bool)
    requires Next(s, s')
    ensures Orderly(s, s', y, g, sending)
  {
    var t: nat, a :| t < |s.pcs| == |s.nice| && Can(s, t, a)
      && (s.receivers != [] ==> First(s.receivers) < |s.pcs|)
      && (s.senders != [] ==> First(s.senders) < |s.pcs| && s.pcs[First(s.senders)].Sending?)
      && s' == Do(s, t, a);
    match a
    case Send(m, block) => SendOrderly(s, t, m, block, y, g, sending);
    case Receive(block) => ReceiveOrderly(s, t, block, y, g, sending);
    case _ => RestOrderly(s, t, a, y, g, sending);
  }

  lemma {:induction false} RunOrderly(run: seq<Queue>, k: nat, y: Item<nat>, g: nat, sending: bool)
    requires Run(run) && k + 1 < |run|
    ensures Orderly(run[k], run[k + 1], y, g, sending)
  {
    assert Moved(run, k + 1);
    NextOrderly(run[k], run[k + 1], y, g, sending);
  }

  /** Task g fell asleep in step m of the run and still waits in state n. */
  predicate Since(run: seq<Queue>, g: nat, m: nat, n: nat, sending: bool) {
    && 0 < m <= n < |run| && g < |run[m - 1].pcs| && !Waits(run[m - 1].pcs[g], sending)
    && forall k :: m <= k <= n ==> g < |run[k].pcs| && Waits(run[k].pcs[g], sending)
  }

  lemma {:induction false} ClockGrows(run: seq<Queue>, i: nat, j: nat)
    requires Run(run) && i <= j < |run|
    ensures run[i].clock <= run[j].clock && run[i].nice == run[j].nice && |run[i].pcs| == |run[j].pcs|
  {
    for k := i to j
      invariant run[i].clock <= run[k].clock && run[i].nice == run[k].nice && |run[i].pcs| == |run[k].pcs|
    {
      RunOrderly(run, k, Item(0, 0, 0), 0, true);
    }
  }

  /** Everybody who waits fell asleep at some step. */
  lemma {:induction false} FellAsleep(run: seq<Queue>, g: nat, n: nat, sending: bool) returns (m: nat)
    requires Run(run) && n < |run| && g < |run[n].pcs| && Waits(run[n].pcs[g], sending)
    ensures Since(run, g, m, n, sending)
  {
    ClockGrows(run, 0, n);
    ClockGrows(run, n - 1, n);
    m := n;
    while Waits(run[m - 1].pcs[g], sending)
      invariant 0 < m <= n && g < |run[m - 1].pcs|
      invariant forall k :: m <= k <= n ==> g < |run[k].pcs| && Waits(run[k].pcs[g], sending)
      decreases m
    {
      m := m - 1;
      ClockGrows(run, m - 1, n);
    }
  }

  /** The entry of a sleeper carries its static priority and the clock of its step. */
  lemma {:induction false} EntryOf(run: seq<Queue>, g: nat, m: nat, n: nat, sending: bool)
    requires Run(run) && Since(run, g, m, n, sending)
    ensures g < |run[n].nice| && Item(-run[n].nice[g], run[m - 1].clock, g) in Side(run[n], sending)
  {
    RunOrderly(run, m - 1, Item(0, 0, g), g, sending);
    var y := Item(-run[m - 1].nice[g], run[m - 1].clock, g);
    for k := m to n
      invariant run[k].nice == run[m - 1].nice && y in Side(run[k], sending)
    {
      RunOrderly(run, k, y, g, sending);
    }
  }

  lemma {:induction false} LastOfAll(l: seq<Item<nat>>, x: Item<nat>, y: Item<nat>)
    requires Arranged(l) && Distinct(l) && x in l && y in l && x.val == First(l) && y.val != x.val
    ensures y.key <= x.key && (y.key == x.key ==> y.stamp > x.stamp)
  {
    var i :| 0 <= i < |l| && l[i] == x;
    var j :| 0 <= j < |l| && l[j] == y;
    assert i == |l| - 1;
    FirstIsMostUrgent(l, j);
  }

  lemma {:induction false} SideArranged(run: seq<Queue>, n: nat, sending: bool)
    requires Run(run) && n < |run|
    ensures Arranged(Side(run[n], sending)) && Distinct(Side(run[n], sending))
  {
    Reachable(run, n);
  }

  /** Whoever a hand-over serves has, of all the tasks that wait on that side, the least static
      priority and, among those of the same, fell asleep first. */
  lemma {:induction false} MostUrgentIsServed(run: seq<Queue>, n: nat, f: nat, mf: nat, g: nat, mg: nat, sending: bool)
    requires Run(run) && n + 1 < |run| && f != g && Since(run, f, mf, n, sending) && Since(run, g, mg, n, sending)
    requires f < |run[n + 1].pcs| && Pends(run[n + 1].pcs[f], sending)
    ensures |run[n].nice| == |run[n].pcs| && run[n].nice == run[0].nice
    ensures run[n].nice[f] <= run[n].nice[g] && (run[n].nice[f] == run[n].nice[g] ==> mf < mg)
  {
    EntryOf(run, f, mf, n, sending);
    EntryOf(run, g, mg, n, sending);
    ClockGrows(run, 0, n);
    RunOrderly(run, n, Item(0, 0, 0), f, sending);
    SideArranged(run, n, sending);
    var s := run[n];
    LastOfAll(Side(s, sending), Item(-s.nice[f], run[mf - 1].clock, f), Item(-s.nice[g], run[mg - 1].clock, g));
    if mg <= mf {
      ClockGrows(run, mg - 1, mf - 1);
    }
  }

  // ----- What a call does -----

  /** Some task waits on that side. */
  predicate Waiter(s: Queue, sending: bool) { exists g :: 0 <= g < |s.pcs| && Waits(s.pcs[g], sending) }

  lemma {:induction false} WaiterListed(s: Queue, sending: bool)
    requires Inv(s)
    ensures Waiter(s, sending) <==> Side(s, sending) != []
    ensures Side(s, sending) != [] ==> First(Side(s, sending)) < |s.pcs| && Waits(s.pcs[First(Side(s, sending))], sending)
  {
    FirstWaits(Side(s, sending), s.clock, s.pcs, sending);
    if Waiter(s, sending) {
      var g :| 0 <= g < |s.pcs| && Waits(s.pcs[g], sending);
      assert Names(Side(s, sending), g);
    }
  }

  /** The messages of the reference queue, in the order of their arrival. */
  function Messages(c: Content): seq<Item<Msg>>
    requires Replay(c.max, c.hist).Some?
  {
    Replay(c.max, c.hist).value
  }

  lemma {:induction false} Stored(c: Content, t: nat, m: Msg)
    requires Sound(c) && |c.arr| < c.max
    ensures Replay(c.max, c.hist).Some? && |Messages(c)| == |c.arr| && Replay(c.max, Put(c, t, m).hist).Some?
    ensures Messages(Put(c, t, m)) == Messages(c) + [Item(m.prio, |c.hist|, m)]
  {
    BagSize(c.arr, Messages(c));
    assert (c.hist + [Sent(t, m)])[..|c.hist|] == c.hist;
  }

  lemma {:induction false} Fetched(c: Content, t: nat)
    requires Sound(c) && c.arr != []
    ensures Replay(c.max, c.hist).Some? && |Messages(c)| == |c.arr| && Replay(c.max, Take(c, t).hist).Some?
    ensures var q := Messages(c); Front(c) == q[Best(q)].val && Messages(Take(c, t)) == Without(q, Best(q))
  {
    BagSize(c.arr, Messages(c));
    TakeSound(c, t);
    assert (c.hist + [Received(t, Front(c))])[..|c.hist|] == c.hist;
  }

  /** A send to a full queue sleeps, or fails if it may not. */
  lemma {:induction false} SendFull(s: Queue, t: nat, m: Msg, block: bool)
    requires Inv(s) && t < |s.pcs| && Can(s, t, Send(m, block))
    ensures Replay(s.c.max, s.c.hist).Some? && (s.receivers != [] ==> First(s.receivers) < |s.pcs|)
    ensures |Messages(s.c)| == s.c.max ==>
      var s' := DoSend(s, t, m, block);
      && s'.c == s.c && s'.pcs == (if block then s.pcs[t := Sending(m, Waiting)] else s.pcs)
      && s'.done == (if block then s.done else s.done + [Failed(true, t)])
  {
    WaiterListed(s, false);
    BagSize(s.c.arr, Messages(s.c));
  }

  /** A send to a queue with room hands the message to a receiver if one waits, and otherwise puts it
      behind all others. */
  lemma {:induction false} SendRoom(s: Queue, t: nat, m: Msg, block: bool) returns (r: nat)
    requires Inv(s) && t < |s.pcs| && Can(s, t, Send(m, block))
    requires |Messages(s.c)| < s.c.max
    ensures s.receivers != [] ==> First(s.receivers) < |s.pcs|
    ensures var s' := DoSend(s, t, m, block); var q := Messages(s.c);
      if Waiter(s, false) then
        && q == [] && r < |s.pcs| && Waits(s.pcs[r], false) && s'.done == s.done && s'.c.arr == s.c.arr
        && s'.pcs == s.pcs[r := Receiving(Pending, Some(m))][t := Handing(m, r)]
      else
        && Replay(s.c.max, s'.c.hist) == Some(q + [Item(m.prio, |s.c.hist|, m)])
        && s'.pcs == s.pcs && s'.done == s.done + [Ok(true, t, m)]
  {
    WaiterListed(s, false);
    BagSize(s.c.arr, Messages(s.c));
    r := 0;
    if s.receivers == [] {
      Stored(s.c, t, m);
    } else {
      r := First(s.receivers);
    }
  }

  /** A receive from an empty queue sleeps, or fails if it may not. */
  lemma {:induction false} ReceiveEmpty(s: Queue, t: nat, block: bool)
    requires Inv(s) && t < |s.pcs| && Can(s, t, Receive(block))
    ensures Replay(s.c.max, s.c.hist).Some?
    ensures s.senders != [] ==> First(s.senders) < |s.pcs| && s.pcs[First(s.senders)].Sending?
    ensures Messages(s.c) == [] ==>
      var s' := DoReceive(s, t, block);
      && s'.c == s.c && s'.pcs == (if block then s.pcs[t := Receiving(Waiting, None)] else s.pcs)
      && s'.done == (if block then s.done else s.done + [Failed(false, t)])
  {
    WaiterListed(s, true);
    BagSize(s.c.arr, Messages(s.c));
  }

  /** A receive takes the oldest message of the highest priority, and a sender that waits puts its own
      behind the others in the same step. */
  lemma {:induction false} ReceiveSome(s: Queue, t: nat, block: bool) returns (f: nat)
    requires Inv(s) && t < |s.pcs| && Can(s, t, Receive(block))
    requires Messages(s.c) != []
    ensures s.senders != [] ==> First(s.senders) < |s.pcs| && s.pcs[First(s.senders)].Sending?
    ensures var s' := DoReceive(s, t, block); var q := Messages(s.c); var m := q[Best(q)].val;
      if Waiter(s, true) then
        && f < |s.pcs| && Waits(s.pcs[f], true) && s'.done == s.done
        && var w := s.pcs[f].msg;
        && s'.pcs == s.pcs[f := Sending(w, Pending)][t := Taking(m, f)]
        && Replay(s.c.max, s'.c.hist) == Some(Without(q, Best(q)) + [Item(w.prio, |s.c.hist| + 1, w)])
      else
        && Replay(s.c.max, s'.c.hist) == Some(Without(q, Best(q)))
        && s'.pcs == s.pcs && s'.done == s.done + [Ok(false, t, m)]
  {
    WaiterListed(s, true);
    BagSize(s.c.arr, Messages(s.c));
    Fetched(s.c, t);
    f := 0;
    if s.senders != [] {
      f := First(s.senders);
      TakeSound(s.c, t);
      Stored(Take(s.c, t), f, s.pcs[f].msg);
    }
  }

  // ----- The code -----

  class Info {
    const messages: array<Item<Msg>>
    var curmsgs: nat
    var qsize: int
    ghost var hist: seq<Event>

    ghost predicate Valid()
      reads this, messages
    {
      curmsgs <= messages.Length && Sound(View())
    }

    ghost function View(): Content
      requires curmsgs <= messages.Length
      reads this, messages
    {
      Content(messages.Length, messages[..curmsgs], qsize, hist)
    }

    /** msg_insert. */
    method MsgInsert(stamp: nat, t: nat, m: Msg)
      requires Valid() && curmsgs < messages.Length && stamp == |hist|
      modifies this, messages
      ensures Valid() && View() == Put(old(View()), t, m)
    {
      PutSound(View(), t, m);
      InsertInto(messages, curmsgs, Item(m.prio, stamp, m));
      curmsgs := curmsgs + 1;
      qsize := qsize + m.size;
      hist := hist + [Sent(t, m)];
    }

    /** msg_get. */
    method MsgGet(t: nat) returns (m: Msg)
      requires Valid() && curmsgs > 0
      modifies this
      ensures Valid() && View() == Take(old(View()), t) && m == Front(old(View()))
    {
      TakeSound(View(), t);
      m := Pop(t);
    }

    method Pop(t: nat) returns (m: Msg)
      requires 0 < curmsgs <= messages.Length
      modifies this
      ensures curmsgs <= messages.Length && View() == Take(old(View()), t) && m == Front(old(View()))
    {
      ghost var c := View();
      curmsgs := curmsgs - 1;
      m := messages[curmsgs].val;
      qsize := qsize - m.size;
      hist := hist + [Received(t, m)];
      assert messages[..curmsgs] == c.arr[..|c.arr| - 1];
    }
  }
}
