/**
 * System V message queues: typed selection, direct hand-over to sleeping receivers, and the accounts
 * of bytes and messages.  Calls take turns at the granularity of the queue's lock.
 */
module SysvMsg {
  import opened Lists

  const LONG_MIN := -0x8000_0000
  const LONG_MAX := 0x7FFF_FFFF
  const INT_MAX: nat := 0x7FFF_FFFF

  datatype Msg = Msg(mtype: int, size: nat, id: nat)

  datatype Mode = Any | Equal | NotEqual | LessEqual

  /** testmsg. */
  predicate Test(m: Msg, mtype: int, mode: Mode) {
    match mode
    case Any => true
    case LessEqual => m.mtype <= mtype
    case Equal => m.mtype == mtype
    case NotEqual => m.mtype != mtype
  }

  /** Negation of a 32-bit long. */
  function Negated(x: int): int { if x == LONG_MIN then LONG_MIN else -x }

  /** convert_mode. */
  function Convert(msgtyp: int, except: bool): (int, Mode) {
    if msgtyp == 0 then (0, Any)
    else if msgtyp < 0 then (Negated(msgtyp), LessEqual)
    else (msgtyp, if except then NotEqual else Equal)
  }

  // ----- Selection -----

  /** What msgrcv() promises for a type: the first message of the type, the first not of it, the first
      at all, or the first of the least type not above the absolute value of a negative one. */
  predicate Promised(q: seq<Msg>, msgtyp: int, except: bool, i: nat) {
    && i < |q|
    && if msgtyp == 0 then i == 0
       else if msgtyp > 0 then
         (q[i].mtype == msgtyp) != except && forall j :: 0 <= j < i ==> (q[j].mtype == msgtyp) == except
       else
         && q[i].mtype <= -msgtyp
         && (forall j :: 0 <= j < |q| ==> q[i].mtype <= q[j].mtype)
         && (forall j :: 0 <= j < i ==> q[i].mtype < q[j].mtype)
  }

  /** The scan in sys_msgrcv: with LessEqual each match lowers the bound, and type 1 ends it. */
  method Select(q: seq<Msg>, mtype: int, mode: Mode) returns (r: Option<nat>)
    requires forall i :: 0 <= i < |q| ==> q[i].mtype >= 1
    ensures r == Selected(q, mtype, mode)
  {
    r := None;
    var bound, i := mtype, 0;
    while i < |q|
      invariant i <= |q| && Scan(q, mtype, mode, 0, None) == Scan(q, bound, mode, i, r)
    {
      if Test(q[i], bound, mode) {
        r := Some(i);
        if mode == LessEqual && q[i].mtype != 1 {
          bound := q[i].mtype - 1;
        } else {
          return;
        }
      }
      i := i + 1;
    }
  }

  /** The scan from position i, with the best match so far. */
  function Scan(q: seq<Msg>, bound: int, mode: Mode, i: nat, best: Option<nat>): Option<nat>
    requires i <= |q|
    decreases |q| - i
  {
    if i == |q| then best
    else if !Test(q[i], bound, mode) then Scan(q, bound, mode, i + 1, best)
    else if mode == LessEqual && q[i].mtype != 1 then Scan(q, q[i].mtype - 1, mode, i + 1, Some(i))
    else Some(i)
  }

  function Selected(q: seq<Msg>, mtype: int, mode: Mode): Option<nat> { Scan(q, mtype, mode, 0, None) }

  predicate Typed(q: seq<Msg>) { forall i :: 0 <= i < |q| ==> q[i].mtype >= 1 }

  /** The scan of the other modes finds the first match. */
  lemma {:induction false} ScanFirst(q: seq<Msg>, mtype: int, mode: Mode, i: nat)
    requires i <= |q| && mode != LessEqual && forall j :: 0 <= j < i ==> !Test(q[j], mtype, mode)
    ensures var r := Scan(q, mtype, mode, i, None);
      match r
      case None => forall j :: 0 <= j < |q| ==> !Test(q[j], mtype, mode)
      case Some(k) => k < |q| && Test(q[k], mtype, mode) && forall j :: 0 <= j < k ==> !Test(q[j], mtype, mode)
    decreases |q| - i
  {
    if i < |q| && !Test(q[i], mtype, mode) {
      ScanFirst(q, mtype, mode, i + 1);
    }
  }

  /** best is the earliest of the least type up to mtype among the first i messages. */
  predicate Least(q: seq<Msg>, mtype: int, i: nat, best: Option<nat>)
    requires i <= |q|
  {
    match best
    case None => forall j :: 0 <= j < i ==> q[j].mtype > mtype
    case Some(k) =>
      && k < i && q[k].mtype <= mtype
      && (forall j :: 0 <= j < i ==> q[k].mtype <= q[j].mtype)
      && (forall j :: 0 <= j < k ==> q[k].mtype < q[j].mtype)
  }

  lemma {:induction false} ScanLeast(q: seq<Msg>, mtype: int, bound: int, i: nat, best: Option<nat>)
    requires Typed(q) && i <= |q| && Least(q, mtype, i, best)
    requires bound == if best.None? then mtype else q[best.value].mtype - 1
    ensures Least(q, mtype, |q|, Scan(q, bound, LessEqual, i, best))
    decreases |q| - i
  {
    if i < |q| {
      if !Test(q[i], bound, LessEqual) {
        ScanLeast(q, mtype, bound, i + 1, best);
      } else if q[i].mtype != 1 {
        ScanLeast(q, mtype, q[i].mtype - 1, i + 1, Some(i));
      }
    }
  }

  /** For every type argument of the long type but LONG_MIN the scan finds exactly what msgrcv()
      promises; for LONG_MIN it finds nothing, although every message would do. */
  lemma {:induction false} SelectsPromised(q: seq<Msg>, msgtyp: int, except: bool)
    requires Typed(q) && LONG_MIN <= msgtyp <= LONG_MAX
    ensures var (mtype, mode) := Convert(msgtyp, except); var r := Selected(q, mtype, mode);
      && (r.Some? ==> Promised(q, msgtyp, except, r.value))
      && (msgtyp != LONG_MIN && r.None? ==> forall i :: !Promised(q, msgtyp, except, i))
      && (msgtyp == LONG_MIN ==> r.None?)
  {
    var (mtype, mode) := Convert(msgtyp, except);
    if mode == LessEqual {
      ScanLeast(q, mtype, mtype, 0, None);
    } else {
      ScanFirst(q, mtype, mode, 0);
    }
  }

  /** The exception is real whenever there is a message of a type a long can hold. */
  lemma {:induction false} LongMinFindsNothing(q: seq<Msg>, except: bool)
    requires Typed(q) && q != [] && forall i :: 0 <= i < |q| ==> q[i].mtype <= LONG_MAX
    ensures var (mtype, mode) := Convert(LONG_MIN, except);
      Selected(q, mtype, mode) == None && exists i :: Promised(q, LONG_MIN, except, i)
  {
    SelectsPromised(q, LONG_MIN, except);
    ScanLeast(q, LONG_MAX, LONG_MAX, 0, None);
    var r := Scan(q, LONG_MAX, LessEqual, 0, None);
    assert r.Some? by {
      assert q[0].mtype <= LONG_MAX;
    }
    assert Promised(q, LONG_MIN, except, r.value);
  }

  // ----- Hand-over -----

  /** A sleeping receiver; its maximal size is INT_MAX with MSG_NOERROR. */
  datatype Receiver = Receiver(task: nat, mtype: int, mode: Mode, maxSize: nat)

  predicate Wants(r: Receiver, m: Msg) { Test(m, r.mtype, r.mode) }

  /** What pipelined_send makes of the list: who stays, who is sent off with E2BIG, and who gets the
      message. */
  datatype Piped = Piped(stay: seq<Receiver>, refused: seq<Receiver>, taker: Option<Receiver>)

  function Pipe(rs: seq<Receiver>, m: Msg): Piped {
    if rs == [] then Piped([], [], None)
    else if !Wants(rs[0], m) then
      var p := Pipe(rs[1..], m);
      p.(stay := [rs[0]] + p.stay)
    else if rs[0].maxSize < m.size then
      var p := Pipe(rs[1..], m);
      p.(refused := [rs[0]] + p.refused)
    else Piped(rs[1..], [], Some(rs[0]))
  }

  /** Everybody on the list stays, is refused or takes the message. */
  lemma {:induction false} PipeBag(rs: seq<Receiver>, m: Msg)
    ensures var p := Pipe(rs, m);
      multiset(rs) == multiset(p.stay) + multiset(p.refused) + (if p.taker.Some? then multiset{p.taker.value} else multiset{})
  {
    if rs != [] {
      assert rs == [rs[0]] + rs[1..];
      if !(Wants(rs[0], m) && rs[0].maxSize >= m.size) {
        PipeBag(rs[1..], m);
      }
    }
  }

  /** The taker wants the message and has room for it; those refused want it and have not; when nobody
      takes it nobody who wants it stays. */
  lemma {:induction false} PipeMeaning(rs: seq<Receiver>, m: Msg)
    ensures var p := Pipe(rs, m);
      && (p.taker.Some? ==> Wants(p.taker.value, m) && p.taker.value.maxSize >= m.size)
      && (p.taker.None? ==> forall i :: 0 <= i < |p.stay| ==> !Wants(p.stay[i], m))
      && (forall i :: 0 <= i < |p.refused| ==> Wants(p.refused[i], m) && p.refused[i].maxSize < m.size)
  {
    if rs != [] && !(Wants(rs[0], m) && rs[0].maxSize >= m.size) {
      PipeMeaning(rs[1..], m);
    }
  }

  /** The taker is the first on the list whom the message suits and fits, and nobody who could have
      taken it is refused or passed over before him. */
  lemma {:induction false} PipeFirst(rs: seq<Receiver>, m: Msg, i: nat)
    requires i < |rs| && Wants(rs[i], m) && rs[i].maxSize >= m.size
    requires forall j :: 0 <= j < i ==> !Wants(rs[j], m) || rs[j].maxSize < m.size
    ensures Pipe(rs, m).taker == Some(rs[i])
  {
    if i > 0 {
      PipeFirst(rs[1..], m, i - 1);
    }
  }

  lemma {:induction false} PipeSub(rs: seq<Receiver>, m: Msg, r: Receiver)
    requires r in Pipe(rs, m).stay
    ensures r in rs
  {
    if rs != [] && !(Wants(rs[0], m) && rs[0].maxSize >= m.size) {
      var p := Pipe(rs[1..], m);
      if r in p.stay {
        PipeSub(rs[1..], m, r);
      }
    }
  }

  function Refused(rs: seq<Receiver>): seq<(Receiver, Option<Msg>)> {
    if rs == [] then [] else Refused(rs[..|rs| - 1]) + [(rs[|rs| - 1], None)]
  }

  /** What pipelined_send writes to r_msg, in this order: E2BIG to those refused, then the message. */
  function Answers(rs: seq<Receiver>, m: Msg): seq<(Receiver, Option<Msg>)> {
    var p := Pipe(rs, m);
    Refused(p.refused) + if p.taker.Some? then [(p.taker.value, Some(m))] else []
  }

  // ----- The queue -----

  datatype Sender = Sender(task: nat, size: nat, woken: bool)

  /** qbytes is the limit of both counts. */
  datatype Queue = Queue(messages: seq<Msg>, receivers: seq<Receiver>, senders: seq<Sender>, cbytes: int, qnum: int, qbytes: nat)

  function Sum(q: seq<Msg>): nat {
    if q == [] then 0 else Sum(q[..|q| - 1]) + q[|q| - 1].size
  }

  predicate Room(q: Queue, size: nat) { size + q.cbytes <= q.qbytes && 1 + q.qnum <= q.qbytes }

  /** No sleeping receiver wants a message that is there. */
  predicate NoMatch(q: Queue) {
    forall i, j :: 0 <= i < |q.receivers| && 0 <= j < |q.messages| ==> !Wants(q.receivers[i], q.messages[j])
  }

  /** No sender sleeps on while there is room for its message. */
  predicate NoRoom(q: Queue) {
    forall i :: 0 <= i < |q.senders| && !q.senders[i].woken ==> !Room(q, q.senders[i].size)
  }

  predicate Inv(q: Queue) {
    && Typed(q.messages) && q.cbytes == Sum(q.messages) && q.qnum == |q.messages|
    && NoMatch(q) && NoRoom(q)
  }

  lemma {:induction false} SumAppend(q: seq<Msg>, m: Msg)
    ensures Sum(q + [m]) == Sum(q) + m.size
  {
  }

  lemma {:induction false} SumWithout(q: seq<Msg>, i: nat)
    requires i < |q|
    ensures Sum(Without(q, i)) == Sum(q) - q[i].size
  {
    var n := |q| - 1;
    if i == n {
      assert Without(q, i) == q[..n];
    } else {
      SumWithout(q[..n], i);
      var r := Without(q, i);
      assert r[..n - 1] == Without(q[..n], i) && r[n - 1] == q[n];
    }
  }

  /** The message is handed over, or put at the end of the queue. */
  function Deliver(q: Queue, m: Msg): Queue {
    var p := Pipe(q.receivers, m);
    if p.taker.Some? then q.(receivers := p.stay)
    else
      q.(receivers := p.stay, messages := q.messages + [m], cbytes := q.cbytes + m.size, qnum := q.qnum + 1)
  }

  lemma {:induction false} DeliverKeeps(q: Queue, m: Msg)
    requires Inv(q) && m.mtype >= 1
    ensures Inv(Deliver(q, m))
  {
    var p, q' := Pipe(q.receivers, m), Deliver(q, m);
    SumAppend(q.messages, m);
    PipeMeaning(q.receivers, m);
    forall i, j | 0 <= i < |q'.receivers| && 0 <= j < |q'.messages| ensures !Wants(q'.receivers[i], q'.messages[j]) {
      PipeSub(q.receivers, m, p.stay[i]);
      var k :| 0 <= k < |q.receivers| && q.receivers[k] == p.stay[i];
      assert j < |q.messages| ==> !Wants(q.receivers[k], q.messages[j]);
    }
  }

  /** sys_msgsnd with the lock held; result 0 sent, 1 asleep, else an error. */
  function Send(q: Queue, task: nat, m: Msg, nowait: bool): (Queue, int) {
    if m.mtype < 1 then (q, -22)
    else if Room(q, m.size) then (Deliver(q, m), 0)
    else if nowait then (q, -11)
    else (q.(senders := q.senders + [Sender(task, m.size, false)]), 1)
  }

  lemma {:induction false} SendKeeps(q: Queue, task: nat, m: Msg, nowait: bool)
    requires Inv(q)
    ensures Inv(Send(q, task, m, nowait).0)
  {
    if m.mtype >= 1 && Room(q, m.size) {
      DeliverKeeps(q, m);
    }
  }

  /** ss_wakeup: the senders stay on the list until they run. */
  function WakeAll(ss: seq<Sender>): (r: seq<Sender>)
    ensures |r| == |ss| && forall i :: 0 <= i < |ss| ==> r[i] == ss[i].(woken := true)
  {
    if ss == [] then [] else [ss[0].(woken := true)] + WakeAll(ss[1..])
  }

  function TakeOut(q: Queue, i: nat): Queue
    requires i < |q.messages|
  {
    q.(messages := Without(q.messages, i), qnum := q.qnum - 1, cbytes := q.cbytes - q.messages[i].size,
       senders := WakeAll(q.senders))
  }

  lemma {:induction false} TakeOutKeeps(q: Queue, i: nat)
    requires Inv(q) && i < |q.messages|
    ensures Inv(TakeOut(q, i))
  {
    SumWithout(q.messages, i);
    var q' := TakeOut(q, i);
    forall a, b | 0 <= a < |q'.receivers| && 0 <= b < |q'.messages| ensures !Wants(q'.receivers[a], q'.messages[b]) {
      var j := if b < i then b else b + 1;
      assert !Wants(q.receivers[a], q.messages[j]);
    }
  }

  /** How msgrcv ends. */
  datatype Received = Got(msg: Msg) | TooBig | NoMsg | Sleeps

  /** sys_msgrcv with the lock held. */
  function Receive(q: Queue, task: nat, msgtyp: int, except: bool, msgsz: nat, noerror: bool, nowait: bool): (Queue, Received)
    requires Typed(q.messages)
  {
    var (mtype, mode) := Convert(msgtyp, except);
    var r := Selected(q.messages, mtype, mode);
    if r.Some? && r.value < |q.messages| then
      var m := q.messages[r.value];
      if msgsz < m.size && !noerror then (q, TooBig) else (TakeOut(q, r.value), Got(m))
    else if nowait then (q, NoMsg)
    else (q.(receivers := q.receivers + [Receiver(task, mtype, mode, if noerror then INT_MAX else msgsz)]), Sleeps)
  }

  /** A scan that finds nothing means that nothing matches. */
  lemma {:induction false} NothingMatches(q: seq<Msg>, mtype: int, mode: Mode)
    requires Typed(q) && Selected(q, mtype, mode).None?
    ensures forall i :: 0 <= i < |q| ==> !Test(q[i], mtype, mode)
  {
    if mode == LessEqual {
      ScanLeast(q, mtype, mtype, 0, None);
    } else {
      ScanFirst(q, mtype, mode, 0);
    }
  }

  lemma {:induction false} SelectedInside(q: seq<Msg>, mtype: int, mode: Mode)
    requires Typed(q) && Selected(q, mtype, mode).Some?
    ensures Selected(q, mtype, mode).value < |q|
  {
    if mode == LessEqual {
      ScanLeast(q, mtype, mtype, 0, None);
    } else {
      ScanFirst(q, mtype, mode, 0);
    }
  }

  lemma {:induction false} ReceiveKeeps(q: Queue, task: nat, msgtyp: int, except: bool, msgsz: nat, noerror: bool, nowait: bool)
    requires Inv(q)
    ensures Inv(Receive(q, task, msgtyp, except, msgsz, noerror, nowait).0)
  {
    var (mtype, mode) := Convert(msgtyp, except);
    var r := Selected(q.messages, mtype, mode);
    if r.Some? {
      SelectedInside(q.messages, mtype, mode);
      TakeOutKeeps(q, r.value);
    } else {
      NothingMatches(q.messages, mtype, mode);
    }
  }

  // ----- Runs -----

  datatype Event =
    | Snd(task: nat, msg: Msg, nowait: bool)
    | Rcv(task: nat, msgtyp: int, except: bool, msgsz: nat, noerror: bool, nowait: bool)
    | SenderRuns(i: nat)           // a woken or signalled sender takes itself off the list
    | ReceiverRuns(i: nat)         // a signalled receiver that was given nothing takes itself off the list
    | SetLimit(qbytes: nat)        // IPC_SET: everybody is woken to look again

  predicate Possible(q: Queue, e: Event) {
    match e
    case SenderRuns(i) => i < |q.senders|
    case ReceiverRuns(i) => i < |q.receivers|
    case _ => true
  }

  function Step(q: Queue, e: Event): Queue
    requires Typed(q.messages) && Possible(q, e)
  {
    match e
    case Snd(task, m, nowait) => Send(q, task, m, nowait).0
    case Rcv(task, msgtyp, except, msgsz, noerror, nowait) => Receive(q, task, msgtyp, except, msgsz, noerror, nowait).0
    case SenderRuns(i) => q.(senders := Without(q.senders, i))
    case ReceiverRuns(i) => q.(receivers := Without(q.receivers, i))
    case SetLimit(n) => q.(qbytes := n, senders := WakeAll(q.senders))
  }

  lemma {:induction false} StepKeeps(q: Queue, e: Event)
    requires Inv(q) && Possible(q, e)
    ensures Inv(Step(q, e))
  {
    match e
    case Snd(task, m, nowait) => SendKeeps(q, task, m, nowait);
    case Rcv(task, msgtyp, except, msgsz, noerror, nowait) =>
      ReceiveKeeps(q, task, msgtyp, except, msgsz, noerror, nowait);
    case SenderRuns(i) =>
    case ReceiverRuns(i) =>
      var q' := Step(q, e);
      forall a, b | 0 <= a < |q'.receivers| && 0 <= b < |q'.messages| ensures !Wants(q'.receivers[a], q'.messages[b]) {
        var j := if a < i then a else a + 1;
        assert !Wants(q.receivers[j], q.messages[b]);
      }
    case SetLimit(n) =>
  }

  predicate Fresh(q: Queue) { q == Queue([], [], [], 0, 0, q.qbytes) }

  ghost predicate Follows(q: Queue, q': Queue) {
    Typed(q.messages) && exists e :: Possible(q, e) && q' == Step(q, e)
  }

  ghost predicate Run(run: seq<Queue>) {
    run != [] && Fresh(run[0]) && forall n :: 0 < n < |run| ==> Follows(run[n - 1], run[n])
  }

  /** In every state of every run no receiver sleeps although a message for it is there, no sender
      sleeps although there is room, and the counts are those of the queued messages. */
  lemma {:induction false} Reachable(run: seq<Queue>, n: nat)
    requires Run(run) && n < |run|
    ensures Inv(run[n])
  {
    if n > 0 {
      Reachable(run, n - 1);
      assert Follows(run[n - 1], run[n]);
      var e :| Possible(run[n - 1], e) && run[n] == Step(run[n - 1], e);
      StepKeeps(run[n - 1], e);
    }
  }

  // ----- One queue: the order of messages and of receivers -----

  /** The states of one queue and the events between them. */
  ghost predicate Story(run: seq<Queue>, events: seq<Event>) {
    && |run| == |events| + 1 && Fresh(run[0])
    && forall n :: 0 <= n < |events| ==> Happens(run[n], events[n], run[n + 1])
  }

  predicate Happens(q: Queue, e: Event, q': Queue) { Typed(q.messages) && Possible(q, e) && q' == Step(q, e) }

  /** The message that msgsnd accepts, if it does. */
  function Taken(q: Queue, e: Event): Option<Msg> {
    if e.Snd? && Send(q, e.task, e.msg, e.nowait).1 == 0 then Some(e.msg) else None
  }

  /** The receiver that msgrcv leaves asleep, if it does. */
  function Dozes(q: Queue, e: Event): Option<Receiver>
    requires Typed(q.messages)
  {
    if e.Rcv? && Receive(q, e.task, e.msgtyp, e.except, e.msgsz, e.noerror, e.nowait).1 == Sleeps then
      Some(Receiver(e.task, Convert(e.msgtyp, e.except).0, Convert(e.msgtyp, e.except).1, if e.noerror then INT_MAX else e.msgsz))
    else None
  }

  function Listed<T>(o: Option<T>): seq<T> { if o.Some? then [o.value] else [] }

  /** The messages accepted before state n, in the order they were accepted. */
  ghost function Accepted(run: seq<Queue>, events: seq<Event>, n: nat): seq<Msg>
    requires Story(run, events) && n < |run|
  {
    if n == 0 then [] else Accepted(run, events, n - 1) + Listed(Taken(run[n - 1], events[n - 1]))
  }

  /** The receivers that went to sleep before state n, in the order they did. */
  ghost function Dozers(run: seq<Queue>, events: seq<Event>, n: nat): seq<Receiver>
    requires Story(run, events) && n < |run|
  {
    if n == 0 then []
    else
      assert Happens(run[n - 1], events[n - 1], run[n]);
      Dozers(run, events, n - 1) + Listed(Dozes(run[n - 1], events[n - 1]))
  }

  lemma {:induction false} PipePicks(rs: seq<Receiver>, m: Msg) returns (at: seq<nat>)
    ensures Picks(Pipe(rs, m).stay, rs, at)
  {
    at := [];
    if rs != [] {
      if Wants(rs[0], m) && rs[0].maxSize >= m.size {
        at := PicksAll(rs[1..]);
        at := PicksTail(rs[1..], rs, at);
      } else {
        at := PipePicks(rs[1..], m);
        at := PicksTail(Pipe(rs[1..], m).stay, rs, at);
        at := if Wants(rs[0], m) then at else [0] + at;
      }
    }
  }

  lemma {:induction false} SendOrders(q: Queue, e: Event, rec: seq<Msg>, at: seq<nat>) returns (at': seq<nat>)
    requires e.Snd? && Typed(q.messages) && Picks(q.messages, rec, at)
    ensures Picks(Step(q, e).messages, rec + Listed(Taken(q, e)), at')
  {
    at' := at;
    if Taken(q, e).Some? {
      PicksMore(q.messages, rec, e.msg, at);
      if Pipe(q.receivers, e.msg).taker.None? {
        at' := at + [|rec|];
      }
    } else {
      assert rec + [] == rec;
    }
  }

  lemma {:induction false} ReceiveOrders(q: Queue, e: Event, rec: seq<Msg>, at: seq<nat>) returns (at': seq<nat>)
    requires e.Rcv? && Typed(q.messages) && Picks(q.messages, rec, at)
    ensures Picks(Step(q, e).messages, rec, at')
  {
    at' := at;
    if Receive(q, e.task, e.msgtyp, e.except, e.msgsz, e.noerror, e.nowait).1.Got? {
      var (mtype, mode) := Convert(e.msgtyp, e.except);
      var i := Selected(q.messages, mtype, mode).value;
      PicksLess(q.messages, rec, i, at);
      at' := Without(at, i);
    }
  }

  /** One event: what was accepted goes to the end, and the others stay in order. */
  lemma {:induction false} MessagesStay(q: Queue, e: Event, rec: seq<Msg>, at: seq<nat>) returns (at': seq<nat>)
    requires Inv(q) && Possible(q, e) && Picks(q.messages, rec, at)
    ensures Picks(Step(q, e).messages, rec + Listed(Taken(q, e)), at')
  {
    if e.Snd? {
      at' := SendOrders(q, e, rec, at);
    } else {
      assert rec + Listed(Taken(q, e)) == rec;
      at' := at;
      if e.Rcv? {
        at' := ReceiveOrders(q, e, rec, at);
      }
    }
  }

  lemma {:induction false} ReceiversStay(q: Queue, e: Event, rec: seq<Receiver>, at: seq<nat>) returns (at': seq<nat>)
    requires Inv(q) && Possible(q, e) && Picks(q.receivers, rec, at)
    ensures Picks(Step(q, e).receivers, rec + Listed(Dozes(q, e)), at')
  {
    at' := at;
    assert rec + [] == rec;
    match e
    case Snd(task, m, nowait) =>
      if Send(q, task, m, nowait).1 == 0 {
        var bt := PipePicks(q.receivers, m);
        at' := PicksThrough(Pipe(q.receivers, m).stay, q.receivers, rec, bt, at);
      }
    case Rcv(task, msgtyp, except, msgsz, noerror, nowait) =>
      if Dozes(q, e).Some? {
        PicksMore(q.receivers, rec, Dozes(q, e).value, at);
        at' := at + [|rec|];
      }
    case ReceiverRuns(i) =>
      PicksLess(q.receivers, rec, i, at);
      at' := Without(at, i);
    case _ =>
  }

  lemma {:induction false} StoryKeeps(run: seq<Queue>, events: seq<Event>, n: nat)
    requires Story(run, events) && n < |run|
    ensures Inv(run[n])
  {
    if n > 0 {
      StoryKeeps(run, events, n - 1);
      assert Happens(run[n - 1], events[n - 1], run[n]);
      StepKeeps(run[n - 1], events[n - 1]);
    }
  }

  /** First in, first out: in every state of every run the queued messages are some of those accepted,
      in the order they were accepted. */
  lemma {:induction false} MessagesInOrder(run: seq<Queue>, events: seq<Event>, n: nat) returns (at: seq<nat>)
    requires Story(run, events) && n < |run|
    ensures Picks(run[n].messages, Accepted(run, events, n), at)
  {
    at := [];
    if n > 0 {
      at := MessagesInOrder(run, events, n - 1);
      StoryKeeps(run, events, n - 1);
      assert Happens(run[n - 1], events[n - 1], run[n]);
      at := MessagesStay(run[n - 1], events[n - 1], Accepted(run, events, n - 1), at);
    }
  }

  /** And the receivers asleep are in the order in which they went to sleep. */
  lemma {:induction false} ReceiversInOrder(run: seq<Queue>, events: seq<Event>, n: nat) returns (at: seq<nat>)
    requires Story(run, events) && n < |run|
    ensures Picks(run[n].receivers, Dozers(run, events, n), at)
  {
    at := [];
    if n > 0 {
      at := ReceiversInOrder(run, events, n - 1);
      StoryKeeps(run, events, n - 1);
      assert Happens(run[n - 1], events[n - 1], run[n]);
      at := ReceiversStay(run[n - 1], events[n - 1], Dozers(run, events, n - 1), at);
    }
  }

  /** Message i is what msgrcv asks for, leaving age aside. */
  predicate Asked(q: seq<Msg>, msgtyp: int, except: bool, i: nat) {
    && i < |q|
    && (msgtyp > 0 ==> (q[i].mtype == msgtyp) != except)
    && (msgtyp < 0 ==> q[i].mtype <= -msgtyp && forall j :: 0 <= j < |q| ==> q[i].mtype <= q[j].mtype)
  }

  lemma {:induction false} PromisedIsFirst(q: seq<Msg>, msgtyp: int, except: bool, i: nat)
    requires Promised(q, msgtyp, except, i)
    ensures Asked(q, msgtyp, except, i) && forall j: nat :: Asked(q, msgtyp, except, j) ==> i <= j
  {
  }

  /** What a receive returns was, of all that is queued and asked for, accepted first; rec is the
      record of the accepted messages and at tells where in it those are that are queued. */
  lemma {:induction false} ReceivesOldest(q: Queue, e: Event, rec: seq<Msg>, at: seq<nat>) returns (i: nat)
    requires Inv(q) && e.Rcv? && LONG_MIN <= e.msgtyp <= LONG_MAX && Picks(q.messages, rec, at)
    requires Receive(q, e.task, e.msgtyp, e.except, e.msgsz, e.noerror, e.nowait).1.Got?
    ensures Asked(q.messages, e.msgtyp, e.except, i)
    ensures Receive(q, e.task, e.msgtyp, e.except, e.msgsz, e.noerror, e.nowait).1 == Got(rec[at[i]])
    ensures Step(q, e).messages == Without(q.messages, i)
    ensures forall j: nat :: Asked(q.messages, e.msgtyp, e.except, j) && j != i ==> at[i] < at[j]
  {
    SelectsPromised(q.messages, e.msgtyp, e.except);
    i := Selected(q.messages, Convert(e.msgtyp, e.except).0, Convert(e.msgtyp, e.except).1).value;
    PromisedIsFirst(q.messages, e.msgtyp, e.except, i);
  }

  /** So in every run a receive that succeeds returns the message that was accepted first among those
      that are queued and asked for. */
  lemma {:induction false} OldestFirst(run: seq<Queue>, events: seq<Event>, n: nat) returns (at: seq<nat>, i: nat)
    requires Story(run, events) && n < |events| && events[n].Rcv? && LONG_MIN <= events[n].msgtyp <= LONG_MAX
    requires Typed(run[n].messages)
    requires var e := events[n]; Receive(run[n], e.task, e.msgtyp, e.except, e.msgsz, e.noerror, e.nowait).1.Got?
    ensures Picks(run[n].messages, Accepted(run, events, n), at) && Asked(run[n].messages, events[n].msgtyp, events[n].except, i)
    ensures var e := events[n];
      Receive(run[n], e.task, e.msgtyp, e.except, e.msgsz, e.noerror, e.nowait).1 == Got(Accepted(run, events, n)[at[i]])
    ensures run[n + 1].messages == Without(run[n].messages, i)
    ensures forall j: nat :: Asked(run[n].messages, events[n].msgtyp, events[n].except, j) && j != i ==> at[i] < at[j]
  {
    at := MessagesInOrder(run, events, n);
    StoryKeeps(run, events, n);
    assert Happens(run[n], events[n], run[n + 1]);
    i := ReceivesOldest(run[n], events[n], Accepted(run, events, n), at);
  }

  /** A message goes to the receiver that has slept longest among those that want it and have room. */
  lemma {:induction false} LongestSleeperTakes(run: seq<Queue>, events: seq<Event>, n: nat, m: Msg, k: nat) returns (at: seq<nat>, i: nat)
    requires Story(run, events) && n < |run|
    requires k < |run[n].receivers| && Wants(run[n].receivers[k], m) && run[n].receivers[k].maxSize >= m.size
    ensures Picks(run[n].receivers, Dozers(run, events, n), at) && i < |run[n].receivers|
    ensures Pipe(run[n].receivers, m).taker == Some(run[n].receivers[i]) && at[i] <= at[k]
  {
    at := ReceiversInOrder(run, events, n);
    i := FirstAble(run[n].receivers, m, k);
    PipeFirst(run[n].receivers, m, i);
  }

  lemma {:induction false} FirstAble(rs: seq<Receiver>, m: Msg, k: nat) returns (i: nat)
    requires k < |rs| && Wants(rs[k], m) && rs[k].maxSize >= m.size
    ensures i <= k && Wants(rs[i], m) && rs[i].maxSize >= m.size
    ensures forall j :: 0 <= j < i ==> !Wants(rs[j], m) || rs[j].maxSize < m.size
  {
    i := 0;
    while !(Wants(rs[i], m) && rs[i].maxSize >= m.size)
      invariant i <= k && forall j :: 0 <= j < i ==> !Wants(rs[j], m) || rs[j].maxSize < m.size
      decreases k - i
    {
      i := i + 1;
    }
  }

  /** When msgsnd succeeds, fails and sleeps, told by the messages that are there. */
  lemma {:induction false} SendOutcome(q: Queue, task: nat, m: Msg, nowait: bool)
    requires Inv(q)
    ensures var r := Send(q, task, m, nowait).1; var room := Sum(q.messages) + m.size <= q.qbytes && |q.messages| < q.qbytes;
      && (r == 0 <==> m.mtype >= 1 && room) && (r == -22 <==> m.mtype < 1)
      && (r == -11 <==> m.mtype >= 1 && !room && nowait) && (r == 1 <==> m.mtype >= 1 && !room && !nowait)
  {
  }

  /** When msgrcv succeeds, fails and sleeps, told by what it promises. */
  lemma {:induction false} ReceiveOutcome(q: Queue, task: nat, msgtyp: int, except: bool, msgsz: nat, noerror: bool, nowait: bool)
    requires Inv(q) && LONG_MIN < msgtyp <= LONG_MAX
    ensures var r := Receive(q, task, msgtyp, except, msgsz, noerror, nowait).1;
      match r
      case Got(m) => exists i: nat :: Promised(q.messages, msgtyp, except, i) && m == q.messages[i] && (m.size <= msgsz || noerror)
      case TooBig => exists i: nat :: Promised(q.messages, msgtyp, except, i) && q.messages[i].size > msgsz && !noerror
      case NoMsg => nowait && forall i: nat :: !Promised(q.messages, msgtyp, except, i)
      case Sleeps => !nowait && forall i: nat :: !Promised(q.messages, msgtyp, except, i)
  {
    SelectsPromised(q.messages, msgtyp, except);
  }

  // ----- All queues: the totals, and what becomes of a message -----

  /** What can be added up over the queues. */
  datatype Kind = Bytes | Hdrs | Copy(x: Msg)

  /** How often x is among the messages. */
  function Copies(q: seq<Msg>, x: Msg): nat {
    if q == [] then 0 else Copies(q[..|q| - 1], x) + if q[|q| - 1] == x then 1 else 0
  }

  function Share(q: Queue, k: Kind): int {
    match k
    case Bytes => q.cbytes
    case Hdrs => q.qnum
    case Copy(x) => Copies(q.messages, x)
  }

  function Total(qs: seq<Queue>, k: Kind): int {
    if qs == [] then 0 else Total(qs[..|qs| - 1], k) + Share(qs[|qs| - 1], k)
  }

  /** Whatever is added to a queue's own count belongs to the total. */
  lemma {:induction false} TotalKept(qs: seq<Queue>, i: nat, q: Queue, k: Kind)
    requires i < |qs|
    ensures Total(qs[i := q], k) == Total(qs, k) - Share(qs[i], k) + Share(q, k)
  {
    var n := |qs| - 1;
    if i == n {
      assert qs[i := q][..n] == qs[..n];
    } else {
      TotalKept(qs[..n], i, q, k);
      assert qs[i := q][..n] == qs[..n][i := q];
    }
  }

  /** What goes with a queue leaves the total. */
  lemma {:induction false} TotalWithout(qs: seq<Queue>, i: nat, k: Kind)
    requires i < |qs|
    ensures Total(Without(qs, i), k) == Total(qs, k) - Share(qs[i], k)
  {
    var n := |qs| - 1;
    var r := Without(qs, i);
    if i == n {
      assert r == qs[..n];
    } else {
      TotalWithout(qs[..n], i, k);
      assert r[..n - 1] == Without(qs[..n], i) && r[n - 1] == qs[n];
    }
  }

  /** All messages that are queued anywhere. */
  function Queued(qs: seq<Queue>): seq<Msg> {
    if qs == [] then [] else Queued(qs[..|qs| - 1]) + qs[|qs| - 1].messages
  }

  lemma {:induction false} SumConcat(a: seq<Msg>, b: seq<Msg>)
    ensures Sum(a + b) == Sum(a) + Sum(b)
  {
    if b == [] {
      assert a + b == a;
    } else {
      SumConcat(a, b[..|b| - 1]);
      assert (a + b)[..|a + b| - 1] == a + b[..|b| - 1];
    }
  }

  lemma {:induction false} CopiesConcat(a: seq<Msg>, b: seq<Msg>, x: Msg)
    ensures Copies(a + b, x) == Copies(a, x) + Copies(b, x)
  {
    if b == [] {
      assert a + b == a;
    } else {
      CopiesConcat(a, b[..|b| - 1], x);
      assert (a + b)[..|a + b| - 1] == a + b[..|b| - 1];
    }
  }

  /** The queues' own counts add up to the sizes and the number of the queued messages. */
  lemma {:induction false} TotalIsSum(qs: seq<Queue>, x: Msg)
    requires forall i :: 0 <= i < |qs| ==> Inv(qs[i])
    ensures Total(qs, Bytes) == Sum(Queued(qs)) && Total(qs, Hdrs) == |Queued(qs)| && Total(qs, Copy(x)) == Copies(Queued(qs), x)
  {
    if qs != [] {
      TotalIsSum(qs[..|qs| - 1], x);
      SumConcat(Queued(qs[..|qs| - 1]), qs[|qs| - 1].messages);
      CopiesConcat(Queued(qs[..|qs| - 1]), qs[|qs| - 1].messages, x);
    }
  }

  lemma {:induction false} CopiesWithout(q: seq<Msg>, i: nat, x: Msg)
    requires i < |q|
    ensures Copies(Without(q, i), x) == Copies(q, x) - if q[i] == x then 1 else 0
  {
    var n := |q| - 1;
    var r := Without(q, i);
    if i == n {
      assert r == q[..n];
    } else {
      CopiesWithout(q[..n], i, x);
      assert r[..n - 1] == Without(q[..n], i) && r[n - 1] == q[n];
    }
  }

  function Opt(o: Option<Msg>): seq<Msg> { if o.Some? then [o.value] else [] }

  lemma {:induction false} CopiesOpt(q: seq<Msg>, o: Option<Msg>, x: Msg)
    ensures Copies(q + Opt(o), x) == Copies(q, x) + if o == Some(x) then 1 else 0
  {
    if o.None? {
      assert q + Opt(o) == q;
    } else {
      assert (q + Opt(o))[..|q|] == q;
    }
  }

  /** What an event adds to msg_bytes and msg_hdrs, the message it accepts or returns, and what it
      writes to the receivers it takes off the list. */
  datatype Book = Book(bytes: int, hdrs: int, sent: Option<Msg>, got: Option<Msg>, answers: seq<(Receiver, Option<Msg>)>)

  const NOTHING := Book(0, 0, None, None, [])

  function Booked(q: Queue, e: Event): Book
    requires Typed(q.messages)
  {
    match e
    case Snd(task, m, nowait) =>
      if Send(q, task, m, nowait).1 != 0 then NOTHING
      else if Pipe(q.receivers, m).taker.Some? then Book(0, 0, Some(m), None, Answers(q.receivers, m))
      else Book(m.size, 1, Some(m), None, Answers(q.receivers, m))
    case Rcv(task, msgtyp, except, msgsz, noerror, nowait) =>
      (match Receive(q, task, msgtyp, except, msgsz, noerror, nowait).1
       case Got(m) => Book(0 - m.size, -1, None, Some(m), [])
       case _ => NOTHING)
    case _ => NOTHING
  }

  /** The messages handed over by these writes. */
  function Handed(a: seq<(Receiver, Option<Msg>)>): seq<Msg> {
    if a == [] then []
    else Handed(a[..|a| - 1]) + Opt(a[|a| - 1].1)
  }

  lemma {:induction false} HandedMore(a: seq<(Receiver, Option<Msg>)>, r: Receiver, o: Option<Msg>)
    ensures Handed(a + [(r, o)]) == Handed(a) + Opt(o)
  {
    assert (a + [(r, o)])[..|a|] == a;
  }

  lemma Associates(a: seq<(Receiver, Option<Msg>)>, b: seq<(Receiver, Option<Msg>)>, c: seq<(Receiver, Option<Msg>)>)
    ensures a + (b + c) == a + b + c
  {
  }

  lemma {:induction false} RefusedGetNothing(a: seq<(Receiver, Option<Msg>)>, rs: seq<Receiver>)
    ensures Handed(a + Refused(rs)) == Handed(a)
  {
    if rs == [] {
      assert a + Refused(rs) == a;
    } else {
      var n := |rs| - 1;
      RefusedGetNothing(a, rs[..n]);
      HandedMore(a + Refused(rs[..n]), rs[n], None);
      Associates(a, Refused(rs[..n]), [(rs[n], None)]);
    }
  }

  /** A message for which there is a taker is handed over, once. */
  lemma {:induction false} AnswersHand(a: seq<(Receiver, Option<Msg>)>, rs: seq<Receiver>, m: Msg)
    ensures Handed(a + Answers(rs, m)) == Handed(a) + Opt(if Pipe(rs, m).taker.Some? then Some(m) else None)
  {
    var p := Pipe(rs, m);
    RefusedGetNothing(a, p.refused);
    if p.taker.Some? {
      HandedMore(a + Refused(p.refused), p.taker.value, Some(m));
      assert a + Answers(rs, m) == a + Refused(p.refused) + [(p.taker.value, Some(m))];
    } else {
      assert Answers(rs, m) == Refused(p.refused);
    }
  }

  /** The counts of a queue move as the totals do. */
  lemma {:induction false} CountsMove(q: Queue, e: Event)
    requires Typed(q.messages) && Possible(q, e)
    ensures Step(q, e).cbytes == q.cbytes + Booked(q, e).bytes && Step(q, e).qnum == q.qnum + Booked(q, e).hdrs
  {
  }

  /** What leaves the queue was returned or handed over, and what enters it was accepted; a is what was
      handed over before. */
  predicate Balanced(q: Queue, q': Queue, b: Book, a: seq<(Receiver, Option<Msg>)>, x: Msg) {
    Copies(q'.messages, x) + (if b.got == Some(x) then 1 else 0) + Copies(Handed(a + b.answers), x)
    == Copies(q.messages, x) + (if b.sent == Some(x) then 1 else 0) + Copies(Handed(a), x)
  }

  lemma {:induction false} IdleBalanced(q: Queue, q': Queue, a: seq<(Receiver, Option<Msg>)>, x: Msg)
    requires q'.messages == q.messages
    ensures Balanced(q, q', NOTHING, a, x)
  {
    assert a + [] == a;
  }

  lemma {:induction false} DeliverBalanced(q: Queue, b: Book, m: Msg, a: seq<(Receiver, Option<Msg>)>, x: Msg)
    requires b.sent == Some(m) && b.got == None && b.answers == Answers(q.receivers, m)
    ensures Balanced(q, Deliver(q, m), b, a, x)
  {
    AnswersHand(a, q.receivers, m);
    CopiesOpt(Handed(a), if Pipe(q.receivers, m).taker.Some? then Some(m) else None, x);
    CopiesOpt(q.messages, Some(m), x);
  }

  lemma {:induction false} MessagesMove(q: Queue, e: Event, a: seq<(Receiver, Option<Msg>)>, x: Msg)
    requires Typed(q.messages) && Possible(q, e)
    ensures Balanced(q, Step(q, e), Booked(q, e), a, x)
  {
    match e
    case Snd(task, m, nowait) =>
      if Send(q, task, m, nowait).1 == 0 {
        DeliverBalanced(q, Booked(q, e), m, a, x);
      } else {
        IdleBalanced(q, Step(q, e), a, x);
      }
    case Rcv(task, msgtyp, except, msgsz, noerror, nowait) =>
      var r := Receive(q, task, msgtyp, except, msgsz, noerror, nowait).1;
      if r.Got? {
        var i := Selected(q.messages, Convert(msgtyp, except).0, Convert(msgtyp, except).1).value;
        CopiesWithout(q.messages, i, x);
        assert a + [] == a;
      } else {
        IdleBalanced(q, Step(q, e), a, x);
      }
    case _ => IdleBalanced(q, Step(q, e), a, x);
  }

  /** The system: its queues, the counters msg_bytes and msg_hdrs, and a record of the messages that
      were accepted, returned by msgrcv, and freed with a queue, and of everything written to r_msg. */
  datatype World = World(queues: seq<Queue>, bytes: int, hdrs: int,
                         sent: seq<Msg>, got: seq<Msg>, freed: seq<Msg>, served: seq<(Receiver, Option<Msg>)>)

  datatype Move =
    | NewQueue(qbytes: nat)        // newque
    | On(i: nat, e: Event)         // an event of queue i
    | FreeQueue(i: nat)            // freeque

  predicate Able(w: World, v: Move) {
    match v
    case NewQueue(_) => true
    case On(i, e) => i < |w.queues| && Typed(w.queues[i].messages) && Possible(w.queues[i], e)
    case FreeQueue(i) => i < |w.queues|
  }

  function Moved(w: World, v: Move): World
    requires Able(w, v)
  {
    match v
    case NewQueue(n) => w.(queues := w.queues + [Queue([], [], [], 0, 0, n)])
    case On(i, e) =>
      var b := Booked(w.queues[i], e);
      World(w.queues[i := Step(w.queues[i], e)], w.bytes + b.bytes, w.hdrs + b.hdrs,
            w.sent + Opt(b.sent), w.got + Opt(b.got), w.freed, w.served + b.answers)
    case FreeQueue(i) =>
      var q := w.queues[i];
      w.(queues := Without(w.queues, i), bytes := w.bytes - q.cbytes, hdrs := w.hdrs - |q.messages|,
         freed := w.freed + q.messages)
  }

  predicate Counted(w: World) { w.bytes == Total(w.queues, Bytes) && w.hdrs == Total(w.queues, Hdrs) }

  /** Message x was accepted as often as it is queued, was returned, was handed over or was freed. */
  predicate Found(w: World, x: Msg) {
    Copies(w.sent, x) == Total(w.queues, Copy(x)) + Copies(w.got, x) + Copies(Handed(w.served), x) + Copies(w.freed, x)
  }

  predicate AllInv(qs: seq<Queue>) { forall i :: 0 <= i < |qs| ==> Inv(qs[i]) }

  ghost predicate Accounted(w: World) { AllInv(w.queues) && Counted(w) && forall x :: Found(w, x) }

  lemma {:induction false} NewKeeps(w: World, n: nat)
    requires Accounted(w)
    ensures Accounted(Moved(w, NewQueue(n)))
  {
    var w' := Moved(w, NewQueue(n));
    assert w'.queues[..|w'.queues| - 1] == w.queues;
    forall x ensures Found(w', x) {
      assert Found(w, x);
    }
  }

  lemma {:induction false} OnCounts(w: World, i: nat, e: Event)
    requires AllInv(w.queues) && Counted(w) && Able(w, On(i, e))
    ensures AllInv(Moved(w, On(i, e)).queues) && Counted(Moved(w, On(i, e)))
  {
    var q' := Step(w.queues[i], e);
    StepKeeps(w.queues[i], e);
    CountsMove(w.queues[i], e);
    TotalKept(w.queues, i, q', Bytes);
    TotalKept(w.queues, i, q', Hdrs);
  }

  lemma {:induction false} OnFinds(w: World, i: nat, e: Event, x: Msg)
    requires Found(w, x) && Able(w, On(i, e))
    ensures Found(Moved(w, On(i, e)), x)
  {
    var q, b := w.queues[i], Booked(w.queues[i], e);
    TotalKept(w.queues, i, Step(q, e), Copy(x));
    MessagesMove(q, e, w.served, x);
    CopiesOpt(w.sent, b.sent, x);
    CopiesOpt(w.got, b.got, x);
  }

  lemma {:induction false} FreeKeeps(w: World, i: nat)
    requires Accounted(w) && i < |w.queues|
    ensures Accounted(Moved(w, FreeQueue(i)))
  {
    TotalWithout(w.queues, i, Bytes);
    TotalWithout(w.queues, i, Hdrs);
    forall x ensures Found(Moved(w, FreeQueue(i)), x) {
      assert Found(w, x);
      TotalWithout(w.queues, i, Copy(x));
      CopiesConcat(w.freed, w.queues[i].messages, x);
    }
  }

  lemma {:induction false} MovedKeeps(w: World, v: Move)
    requires Accounted(w) && Able(w, v)
    ensures Accounted(Moved(w, v))
  {
    match v
    case NewQueue(k) => NewKeeps(w, k);
    case FreeQueue(i) => FreeKeeps(w, i);
    case On(i, e) =>
      OnCounts(w, i, e);
      forall x ensures Found(Moved(w, v), x) {
        assert Found(w, x);
        OnFinds(w, i, e, x);
      }
  }

  ghost predicate Goes(w: World, w': World) { exists v :: Able(w, v) && w' == Moved(w, v) }

  predicate Booted(w: World) { w == World([], 0, 0, [], [], [], []) }

  ghost predicate History(run: seq<World>) {
    run != [] && Booted(run[0]) && forall n :: 0 < n < |run| ==> Goes(run[n - 1], run[n])
  }

  lemma {:induction false} HistoryKeeps(run: seq<World>, n: nat)
    requires History(run) && n < |run|
    ensures Accounted(run[n])
  {
    if n > 0 {
      HistoryKeeps(run, n - 1);
      assert Goes(run[n - 1], run[n]);
      var v :| Able(run[n - 1], v) && run[n] == Moved(run[n - 1], v);
      MovedKeeps(run[n - 1], v);
    }
  }

  /** In every state of every run over any number of queues, msg_bytes and msg_hdrs are the sizes and
      the number of the queued messages, and a message accepted is queued, returned by msgrcv, handed
      over or freed with its queue, as often as it was accepted. */
  lemma {:induction false} TotalsInEveryRun(run: seq<World>, n: nat, x: Msg)
    requires History(run) && n < |run|
    ensures var w := run[n]; var all := Queued(w.queues);
      && w.bytes == Sum(all) && w.hdrs == |all|
      && Copies(w.sent, x) == Copies(all, x) + Copies(w.got, x) + Copies(Handed(w.served), x) + Copies(w.freed, x)
      && forall i :: 0 <= i < |w.queues| ==> Inv(w.queues[i])
  {
    HistoryKeeps(run, n);
    TotalIsSum(run[n].queues, x);
    assert Found(run[n], x);
  }

  // ----- The code -----

  /** The counters msg_bytes and msg_hdrs. */
  class Totals {
    var bytes: int
    var hdrs: int
  }

  class MsgQueue {
    const totals: Totals
    var messages: seq<Msg>
    var receivers: seq<Receiver>
    var senders: seq<Sender>
    var cbytes: int
    var qnum: int
    var qbytes: nat
    /** r_msg of the receivers that were taken off the list: a message, or E2BIG. */
    var served: seq<(Receiver, Option<Msg>)>

    function View(): Queue
      reads this
    {
      Queue(messages, receivers, senders, cbytes, qnum, qbytes)
    }

    constructor (totals: Totals, qbytes: nat)
      ensures this.totals == totals && Fresh(View()) && View().qbytes == qbytes && Inv(View())
    {
      this.totals, this.qbytes := totals, qbytes;
      messages, receivers, senders, cbytes, qnum, served := [], [], [], 0, 0, [];
    }

    /** pipelined_send: the walk over the receivers. */
    method PipelinedSend(m: Msg) returns (taken: bool)
      modifies this`receivers, this`served
      ensures var p := Pipe(old(receivers), m);
        && receivers == p.stay && (taken <==> p.taker.Some?)
        && served == old(served) + Answers(old(receivers), m)
    {
      ghost var p := Pipe(receivers, m);
      ghost var off: seq<Receiver> := [];
      var i := 0;
      assert receivers[0..] == receivers;
      while i < |receivers|
        invariant i <= |receivers| && served == old(served) + Refused(off)
        invariant Midway(p, receivers[..i], off, receivers[i..], m)
        decreases |receivers| - i
      {
        var r := receivers[i];
        PipeOff(receivers, i);
        MidwayOn(p, receivers[..i], off, receivers[i..], m);
        if Test(m, r.mtype, r.mode) {
          receivers := Without(receivers, i);
          if r.maxSize < m.size {
            RefusedMore(off, r);
            served := served + [(r, None)];
            off := off + [r];
          } else {
            served := served + [(r, Some(m))];
            return true;
          }
        } else {
          i := i + 1;
        }
      }
      assert receivers[i..] == [] && off + [] == off && receivers[..i] + [] == receivers;
      return false;
    }

    /** ss_wakeup without kill: the walk over the senders. */
    method WakeSenders()
      modifies this`senders
      ensures senders == WakeAll(old(senders))
    {
      var i := 0;
      while i < |senders|
        invariant i <= |senders| == |old(senders)|
        invariant forall j :: 0 <= j < |senders| ==> senders[j] == if j < i then old(senders)[j].(woken := true) else old(senders)[j]
      {
        senders := senders[i := senders[i].(woken := true)];
        i := i + 1;
      }
    }

    /** sys_msgsnd with the lock held, up to its return or sleep. */
    method Msgsnd(task: nat, m: Msg, nowait: bool) returns (r: int)
      requires Inv(View())
      modifies this, totals
      ensures Inv(View()) && (View(), r) == Send(old(View()), task, m, nowait)
      ensures var b := Booked(old(View()), Snd(task, m, nowait));
        && totals.bytes == old(totals.bytes) + b.bytes && totals.hdrs == old(totals.hdrs) + b.hdrs
        && served == old(served) + b.answers
    {
      SendKeeps(View(), task, m, nowait);
      if m.mtype < 1 {
        return -22;
      }
      if !(m.size + cbytes <= qbytes && 1 + qnum <= qbytes) {
        if nowait {
          return -11;
        }
        senders := senders + [Sender(task, m.size, false)];
        return 1;
      }
      var taken := PipelinedSend(m);
      if !taken {
        messages := messages + [m];
        cbytes, qnum := cbytes + m.size, qnum + 1;
        totals.bytes, totals.hdrs := totals.bytes + m.size, totals.hdrs + 1;
      }
      return 0;
    }

    /** The found half of sys_msgrcv: message i leaves the queue and the totals. */
    method Unlink(i: nat)
      requires i < |messages|
      modifies this`messages, this`qnum, this`cbytes, this`senders, totals
      ensures View() == TakeOut(old(View()), i)
      ensures totals.bytes == old(totals.bytes) - old(messages)[i].size && totals.hdrs == old(totals.hdrs) - 1
    {
      var m := messages[i];
      messages := Without(messages, i);
      qnum, cbytes := qnum - 1, cbytes - m.size;
      totals.bytes, totals.hdrs := totals.bytes - m.size, totals.hdrs - 1;
      WakeSenders();
    }

    /** sys_msgrcv with the lock held, up to its return or sleep. */
    method Msgrcv(task: nat, msgtyp: int, except: bool, msgsz: nat, noerror: bool, nowait: bool) returns (r: Received)
      requires Inv(View())
      modifies this, totals
      ensures Inv(View()) && (View(), r) == Receive(old(View()), task, msgtyp, except, msgsz, noerror, nowait)
      ensures var b := Booked(old(View()), Rcv(task, msgtyp, except, msgsz, noerror, nowait));
        && totals.bytes == old(totals.bytes) + b.bytes && totals.hdrs == old(totals.hdrs) + b.hdrs
        && served == old(served) + b.answers
    {
      ReceiveKeeps(View(), task, msgtyp, except, msgsz, noerror, nowait);
      var (mtype, mode) := Convert(msgtyp, except);
      var found := Select(messages, mtype, mode);
      if found.Some? {
        SelectedInside(messages, mtype, mode);
        var m := messages[found.value];
        if msgsz < m.size && !noerror {
          return TooBig;
        }
        Unlink(found.value);
        return Got(m);
      }
      if nowait {
        return NoMsg;
      }
      receivers := receivers + [Receiver(task, mtype, mode, if noerror then INT_MAX else msgsz)];
      return Sleeps;
    }

    /** The end of freeque: the queued messages leave the totals. */
    method FreeMessages()
      requires Inv(View())
      modifies this, totals
      ensures totals.bytes == old(totals.bytes) - old(cbytes) && totals.hdrs == old(totals.hdrs) - |old(messages)|
    {
      var i := 0;
      while i < |messages|
        invariant i <= |messages| && messages == old(messages) && cbytes == old(cbytes)
        invariant totals.hdrs == old(totals.hdrs) - i && totals.bytes == old(totals.bytes)
      {
        totals.hdrs := totals.hdrs - 1;
        i := i + 1;
      }
      totals.bytes := totals.bytes - cbytes;
    }
  }

  /** The walk has kept pre and sent off with E2BIG those in off; rest is still before it. */
  ghost predicate Midway(p: Piped, pre: seq<Receiver>, off: seq<Receiver>, rest: seq<Receiver>, m: Msg) {
    var r := Pipe(rest, m);
    p.stay == pre + r.stay && p.refused == off + r.refused && p.taker == r.taker
  }

  lemma {:induction false} MidwayOn(p: Piped, pre: seq<Receiver>, off: seq<Receiver>, rest: seq<Receiver>, m: Msg)
    requires Midway(p, pre, off, rest, m) && rest != []
    ensures !Wants(rest[0], m) ==> Midway(p, pre + [rest[0]], off, rest[1..], m)
    ensures Wants(rest[0], m) && rest[0].maxSize < m.size ==> Midway(p, pre, off + [rest[0]], rest[1..], m)
    ensures Wants(rest[0], m) && rest[0].maxSize >= m.size ==> p == Piped(pre + rest[1..], off, Some(rest[0]))
  {
  }

  lemma PipeOff(rs: seq<Receiver>, i: nat)
    requires i < |rs|
    ensures Without(rs, i)[..i] == rs[..i] && Without(rs, i)[i..] == rs[i + 1..] && Without(rs, i) == rs[..i] + rs[i + 1..]
    ensures rs[i..][0] == rs[i] && rs[i..][1..] == rs[i + 1..] && rs[..i + 1] == rs[..i] + [rs[i]]
  {
  }

  lemma {:induction false} RefusedMore(rs: seq<Receiver>, r: Receiver)
    ensures Refused(rs + [r]) == Refused(rs) + [(r, None)]
  {
  }
}
