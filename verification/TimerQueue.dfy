/**
  The timer queue of net/TimerQueue.cc as a machine over values.  Timer objects live at addresses
  that the allocator may hand out again after a delete; timers_ is a strictly sorted sequence of
  (expiration, address) pairs, activeTimers_ a set of (address, sequence) pairs, and the timerfd a
  one-shot alarm.  handleRead is cut into its atomic pieces, between which the callbacks' own
  additions and cancellations fall.
 */
module Timers {

  const ADDRESS_MAX := 0xFFFF_FFFF_FFFF_FFFF   // UINTPTR_MAX, no object's address
  const MIN_DELAY := 100                       // microseconds

  datatype Timer = Timer(expiration: int, interval: nat, sequence: nat)

  datatype Entry = Entry(when: int, addr: nat)

  datatype Id = Id(addr: nat, sequence: nat)

  /** Armed at a moment, to become readable at another; it stays readable until it is read. */
  datatype Alarm = Disarmed | Armed(at: int, fire: int)

  datatype Phase = Idle | Calling | Resetting

  datatype TimerRun = TimerRun(batch: nat, sequence: nat)

  /** The two indices and the objects behind them. */
  datatype Index = Index(heap: map<nat, Timer>, timers: seq<Entry>, active: set<Id>)

  /** expired holds the entries of the current batch that are not yet reset, called of which have
      run; pending the objects not yet handed to addTimerInLoop; cancelled the batch number at
      which a live timer's id was cancelled; fault a failed assertion or a use after delete. */
  datatype Queue = Queue(
    index: Index, pending: set<nat>, numCreated: nat,
    phase: Phase, canceling: set<Id>, expired: seq<Entry>, called: nat, now: nat, alarm: Alarm,
    batch: nat, runs: seq<TimerRun>, cancelled: map<nat, nat>, fault: bool)

  // ----- ordered sets -----

  predicate Less(a: Entry, b: Entry) { a.when < b.when || (a.when == b.when && a.addr < b.addr) }

  ghost predicate Sorted(s: seq<Entry>) { forall i, j :: 0 <= i < j < |s| ==> Less(s[i], s[j]) }

  /** std::set::insert, at the place the order gives; the second part says whether it was new. */
  function Insert(s: seq<Entry>, e: Entry): seq<Entry> {
    if s == [] || Less(e, s[0]) then [e] + s
    else if s[0] == e then s
    else [s[0]] + Insert(s[1..], e)
  }

  function Erase(s: seq<Entry>, e: Entry): seq<Entry> {
    if s == [] then [] else if s[0] == e then s[1..] else [s[0]] + Erase(s[1..], e)
  }

  /** std::set::lower_bound: how many entries come before the given one. */
  function LowerBound(s: seq<Entry>, e: Entry): (k: nat)
    ensures k <= |s|
  {
    if s == [] || !Less(s[0], e) then 0 else 1 + LowerBound(s[1..], e)
  }

  lemma {:induction false} InsertSorted(s: seq<Entry>, e: Entry)
    requires Sorted(s)
    ensures Sorted(Insert(s, e))
    ensures forall x :: x in Insert(s, e) <==> x == e || x in s
    ensures e !in s ==> |Insert(s, e)| == |s| + 1
  {
    if s != [] && !Less(e, s[0]) && s[0] != e {
      InsertSorted(s[1..], e);
      var t := Insert(s[1..], e);
      assert s == [s[0]] + s[1..];
      assert forall i :: 0 <= i < |t| ==> t[i] in t;
    }
  }

  lemma {:induction false} EraseSorted(s: seq<Entry>, e: Entry)
    requires Sorted(s)
    ensures Sorted(Erase(s, e))
    ensures forall x :: x in Erase(s, e) <==> x != e && x in s
    ensures e in s ==> |Erase(s, e)| == |s| - 1
  {
    if s != [] {
      assert s == [s[0]] + s[1..];
      if s[0] != e {
        EraseSorted(s[1..], e);
        var t := Erase(s[1..], e);
        assert forall i :: 0 <= i < |t| ==> t[i] in t;
      }
    }
  }

  lemma {:induction false} LowerBoundSplits(s: seq<Entry>, e: Entry)
    requires Sorted(s)
    ensures var k := LowerBound(s, e);
      && (forall i :: 0 <= i < k ==> Less(s[i], e))
      && (forall i :: k <= i < |s| ==> !Less(s[i], e))
  {
    if s != [] && Less(s[0], e) {
      LowerBoundSplits(s[1..], e);
    }
  }

  // ----- the two indices -----

  function IdOf(heap: map<nat, Timer>, e: Entry): Id { Id(e.addr, if e.addr in heap then heap[e.addr].sequence else 0) }

  function Ids(heap: map<nat, Timer>, s: seq<Entry>): set<Id> { set e | e in s :: IdOf(heap, e) }

  function Addrs(s: seq<Entry>): set<nat> { set e | e in s :: e.addr }

  /** Every entry is keyed by its object's current expiration. */
  ghost predicate Keyed(heap: map<nat, Timer>, s: seq<Entry>) {
    forall e :: e in s ==> e.addr in heap && heap[e.addr].expiration == e.when
  }

  /** The two indices hold the same timers. */
  ghost predicate Agree(x: Index) {
    Sorted(x.timers) && Keyed(x.heap, x.timers) && x.active == Ids(x.heap, x.timers)
  }

  /** TimerQueue::insert. */
  function Put(x: Index, addr: nat): Index
    requires addr in x.heap
  {
    var t := x.heap[addr];
    x.(timers := Insert(x.timers, Entry(t.expiration, addr)), active := x.active + {Id(addr, t.sequence)})
  }

  /** Does one of insert's assertions fail? */
  predicate PutFails(x: Index, addr: nat) {
    addr !in x.heap || Entry(x.heap[addr].expiration, addr) in x.timers || Id(addr, x.heap[addr].sequence) in x.active
  }

  /** The found branch of cancelInLoop: both indices forget the timer and its object is deleted. */
  function Drop(x: Index, id: Id): Index
    requires id.addr in x.heap
  {
    Index(x.heap - {id.addr}, Erase(x.timers, Entry(x.heap[id.addr].expiration, id.addr)), x.active - {id})
  }

  predicate DropFails(x: Index, id: Id) {
    id.addr !in x.heap || Entry(x.heap[id.addr].expiration, id.addr) !in x.timers
  }

  /** TimerQueue::getExpired: the number of entries that come before (now, UINTPTR_MAX). */
  function Due(x: Index, now: int): (k: nat)
    ensures k <= |x.timers|
  {
    LowerBound(x.timers, Entry(now, ADDRESS_MAX))
  }

  function Take(x: Index, now: int): Index {
    var k := Due(x, now);
    x.(timers := x.timers[k..], active := x.active - Ids(x.heap, x.timers[..k]))
  }

  predicate TakeFails(x: Index, now: int) {
    var k := Due(x, now);
    !(Addrs(x.timers[..k]) <= x.heap.Keys) || !(Ids(x.heap, x.timers[..k]) <= x.active)
  }

  lemma PutAgrees(x: Index, addr: nat)
    requires Agree(x) && addr in x.heap && addr !in Addrs(x.timers)
    ensures !PutFails(x, addr) && Agree(Put(x, addr))
    ensures Addrs(Put(x, addr).timers) == Addrs(x.timers) + {addr}
  {
    var e := Entry(x.heap[addr].expiration, addr);
    var y := Put(x, addr);
    InsertSorted(x.timers, e);
    assert e !in x.timers;
    assert Ids(x.heap, y.timers) == Ids(x.heap, x.timers) + {IdOf(x.heap, e)};
    assert forall id :: id in x.active ==> id.addr in Addrs(x.timers);
  }

  lemma DropAgrees(x: Index, id: Id)
    requires Agree(x) && id in x.active
    ensures !DropFails(x, id) && x.heap[id.addr].sequence == id.sequence && Agree(Drop(x, id))
    ensures Addrs(Drop(x, id).timers) == Addrs(x.timers) - {id.addr}
  {
    var e :| e in x.timers && IdOf(x.heap, e) == id;
    assert e == Entry(x.heap[id.addr].expiration, id.addr);
    EraseSorted(x.timers, e);
    var y := Drop(x, id);
    assert forall f :: f in y.timers ==> f.addr != id.addr;
    assert forall f :: f in y.timers ==> IdOf(y.heap, f) == IdOf(x.heap, f);
    assert forall f :: f in x.timers && f != e ==> f in y.timers;
  }

  /** getExpired splits the timers exactly at now, in order. */
  lemma DueAt(x: Index, now: int, i: nat)
    requires Agree(x) && (forall a :: a in x.heap ==> a < ADDRESS_MAX) && i < |x.timers|
    ensures x.timers[i].when <= now <==> i < Due(x, now)
  {
    LowerBoundSplits(x.timers, Entry(now, ADDRESS_MAX));
    assert x.timers[i] in x.timers;
  }

  lemma DueSplits(x: Index, now: int)
    requires Agree(x) && forall a :: a in x.heap ==> a < ADDRESS_MAX
    ensures var k := Due(x, now);
      && (forall e :: e in x.timers[..k] <==> e in x.timers && e.when <= now)
      && (forall e :: e in x.timers[k..] <==> e in x.timers && now < e.when)
  {
    var k := Due(x, now);
    forall i | 0 <= i < |x.timers| ensures x.timers[i].when <= now <==> i < k {
      DueAt(x, now, i);
    }
    SplitBy(x.timers, now, k);
  }

  lemma SplitBy(s: seq<Entry>, now: int, k: nat)
    requires k <= |s| && forall i :: 0 <= i < |s| ==> (s[i].when <= now <==> i < k)
    ensures forall e :: e in s[..k] <==> e in s && e.when <= now
    ensures forall e :: e in s[k..] <==> e in s && now < e.when
  {
    forall e | e in s ensures e in s[..k] <==> e.when <= now ensures e in s[k..] <==> now < e.when {
      var i :| 0 <= i < |s| && s[i] == e;
      assert i < k ==> s[..k][i] == e;
      assert i >= k ==> s[k..][i - k] == e;
    }
  }

  lemma TakeAgrees(x: Index, now: int)
    requires Agree(x) && forall a :: a in x.heap ==> a < ADDRESS_MAX
    ensures !TakeFails(x, now) && Agree(Take(x, now)) && Sorted(x.timers[..Due(x, now)])
    ensures Addrs(x.timers[..Due(x, now)]) !! Addrs(Take(x, now).timers)
    ensures Addrs(x.timers[..Due(x, now)]) + Addrs(Take(x, now).timers) == Addrs(x.timers)
  {
    DueSplits(x, now);
    SplitIds(x, x.timers[..Due(x, now)], x.timers[Due(x, now)..], now);
  }

  lemma SplitIds(x: Index, due: seq<Entry>, rest: seq<Entry>, now: int)
    requires Agree(x)
    requires forall e :: e in due <==> e in x.timers && e.when <= now
    requires forall e :: e in rest <==> e in x.timers && now < e.when
    ensures Ids(x.heap, due) <= x.active && Ids(x.heap, rest) == x.active - Ids(x.heap, due)
    ensures Addrs(due) !! Addrs(rest) && Addrs(due) + Addrs(rest) == Addrs(x.timers)
  {
    assert forall e, f :: e in due && f in rest ==> e.addr != f.addr;
  }

  /** The source's recurring assertion: both indices have the same size. */
  lemma SizesAgree(x: Index)
    requires Agree(x)
    ensures |x.timers| == |x.active|
  {
    IdsSize(x.heap, x.timers);
  }

  lemma {:induction false} IdsSize(heap: map<nat, Timer>, s: seq<Entry>)
    requires Sorted(s) && Keyed(heap, s)
    ensures |Ids(heap, s)| == |s|
  {
    if s != [] {
      var r := s[..|s| - 1];
      var e := s[|s| - 1];
      assert s == r + [e];
      assert Sorted(r) && Keyed(heap, r);
      IdsSize(heap, r);
      assert forall i :: 0 <= i < |r| ==> r[i] == s[i] && Less(s[i], e);
      IdsExtend(heap, r, e);
    }
  }

  lemma IdsExtend(heap: map<nat, Timer>, r: seq<Entry>, e: Entry)
    requires Keyed(heap, r + [e]) && e !in r
    ensures Ids(heap, r + [e]) == Ids(heap, r) + {IdOf(heap, e)} && IdOf(heap, e) !in Ids(heap, r)
  {
    assert forall f :: f in r ==> f in r + [e];
    assert e in r + [e];
  }

  // ----- the alarm -----

  datatype Timespec = Timespec(sec: int, nsec: int)

  function Delay(when: int, clock: int): int { if when - clock < MIN_DELAY then MIN_DELAY else when - clock }

  /** howMuchTimeFromNow; both operands are positive, so truncation is Euclidean. */
  function HowMuchTimeFromNow(when: int, clock: int): Timespec {
    var micros := Delay(when, clock);
    Timespec(micros / 1_000_000, micros % 1_000_000 * 1000)
  }

  /** The timespec is normalised, is not the zero that would disarm the alarm, and is the delay. */
  lemma TimespecIsDelay(when: int, clock: int)
    ensures var ts := HowMuchTimeFromNow(when, clock);
      && 0 <= ts.sec && 0 <= ts.nsec < 1_000_000_000 && (ts.sec, ts.nsec) != (0, 0)
      && ts.sec * 1_000_000_000 + ts.nsec == 1000 * Delay(when, clock)
      && clock + Delay(when, clock) == if when < clock + MIN_DELAY then clock + MIN_DELAY else when
  {
    var micros := Delay(when, clock);
    assert micros == micros / 1_000_000 * 1_000_000 + micros % 1_000_000;
  }

  function Arm(when: int, clock: int): Alarm { Armed(clock, clock + Delay(when, clock)) }

  function ReadAlarm(a: Alarm, now: int): Alarm { if a.Armed? && a.fire <= now then Disarmed else a }

  /** Set to go off by the given deadline, or MIN_DELAY after it was set if that is later. */
  predicate InTime(a: Alarm, when: int) { a.Armed? && (a.fire <= when || a.fire <= a.at + MIN_DELAY) }

  // ----- the steps -----

  datatype Event =
    | New(addr: nat, when: int, interval: nat)   // new Timer, on any thread, at a free address
    | Add(addr: nat, clock: nat)                 // addTimerInLoop
    | Cancel(id: Id)                             // cancelInLoop
    | Begin(now: nat)                            // handleRead up to the first callback
    | Call                                       // the next expired timer's callback starts
    | EndCalls
    | ResetOne                                   // one round of reset's loop
    | Rearm(clock: nat)                          // the end of reset

  function DoNew(q: Queue, addr: nat, when: int, interval: nat): Queue {
    q.(index := q.index.(heap := q.index.heap[addr := Timer(when, interval, q.numCreated + 1)]),
       pending := q.pending + {addr}, numCreated := q.numCreated + 1)
  }

  function DoAdd(q: Queue, addr: nat, clock: nat): Queue {
    if PutFails(q.index, addr) then q.(fault := true)
    else
      var when := q.index.heap[addr].expiration;
      var earliestChanged := q.index.timers == [] || when < q.index.timers[0].when;
      q.(index := Put(q.index, addr), pending := q.pending - {addr},
         alarm := if earliestChanged then Arm(when, clock) else q.alarm)
  }

  function DoCancel(q: Queue, id: Id): Queue {
    if id in q.index.active then
      if DropFails(q.index, id) then q.(fault := true)
      else q.(index := Drop(q.index, id), cancelled := q.cancelled[id.sequence := q.batch])
    else if q.phase.Calling? then
      q.(canceling := q.canceling + {id},
         cancelled := if id in Ids(q.index.heap, q.expired) then q.cancelled[id.sequence := q.batch] else q.cancelled)
    else q
  }

  function DoBegin(q: Queue, now: nat): Queue {
    if TakeFails(q.index, now) then q.(fault := true)
    else
      q.(index := Take(q.index, now), expired := q.index.timers[..Due(q.index, now)], called := 0, now := now,
         phase := Calling, canceling := {}, alarm := ReadAlarm(q.alarm, now), batch := q.batch + 1)
  }

  function DoCall(q: Queue): Queue
    requires q.called < |q.expired|
  {
    var addr := q.expired[q.called].addr;
    if addr !in q.index.heap then q.(fault := true)
    else q.(called := q.called + 1, runs := q.runs + [TimerRun(q.batch, q.index.heap[addr].sequence)])
  }

  predicate Repeats(q: Queue, e: Entry)
    requires e.addr in q.index.heap
  {
    q.index.heap[e.addr].interval > 0 && IdOf(q.index.heap, e) !in q.canceling
  }

  /** Timer::restart on a repeating timer. */
  function Restarted(x: Index, addr: nat, now: int): Index
    requires addr in x.heap
  {
    x.(heap := x.heap[addr := x.heap[addr].(expiration := now + x.heap[addr].interval)])
  }

  function DoResetOne(q: Queue): Queue
    requires q.expired != []
  {
    var e := q.expired[0];
    if e.addr !in q.index.heap then q.(fault := true)
    else if Repeats(q, e) then
      var x := Restarted(q.index, e.addr, q.now);
      if PutFails(x, e.addr) then q.(fault := true) else q.(index := Put(x, e.addr), expired := q.expired[1..])
    else q.(index := q.index.(heap := q.index.heap - {e.addr}), expired := q.expired[1..])
  }

  /** Timestamp::valid is "positive". */
  function DoRearm(q: Queue, clock: nat): Queue {
    q.(phase := Idle,
       alarm := if q.index.timers != [] && q.index.timers[0].when > 0
                then Arm(q.index.timers[0].when, clock) else q.alarm)
  }

  function Step(q: Queue, ev: Event): Queue {
    if q.fault then q
    else match ev
      case New(addr, when, interval) =>
        if addr < ADDRESS_MAX && addr !in q.index.heap then DoNew(q, addr, when, interval) else q
      case Add(addr, clock) => if addr in q.pending && !q.phase.Resetting? then DoAdd(q, addr, clock) else q
      case Cancel(id) => if q.phase.Resetting? then q else DoCancel(q, id)
      case Begin(now) => if q.phase.Idle? then DoBegin(q, now) else q
      case Call => if q.phase.Calling? && q.called < |q.expired| then DoCall(q) else q
      case EndCalls => if q.phase.Calling? && q.called >= |q.expired| then q.(phase := Resetting) else q
      case ResetOne => if q.phase.Resetting? && q.expired != [] then DoResetOne(q) else q
      case Rearm(clock) => if q.phase.Resetting? && q.expired == [] then DoRearm(q, clock) else q
  }

  const EMPTY := Queue(Index(map[], [], {}), {}, 0, Idle, {}, [], 0, 0, Disarmed, 0, [], map[], false)

  function StepsFrom(q: Queue, evs: seq<Event>): Queue {
    if evs == [] then q else Step(StepsFrom(q, evs[..|evs| - 1]), evs[|evs| - 1])
  }

  function Steps(evs: seq<Event>): Queue { StepsFrom(EMPTY, evs) }

  // ----- what every step keeps -----

  /** The objects are exactly those in timers_, in the current batch, or waiting to be added. */
  ghost predicate Owned(q: Queue) {
    && Agree(q.index) && Keyed(q.index.heap, q.expired) && Sorted(q.expired)
    && (forall a :: a in q.index.heap ==> a < ADDRESS_MAX)
    && Addrs(q.index.timers) !! Addrs(q.expired) && Addrs(q.index.timers) !! q.pending && Addrs(q.expired) !! q.pending
    && q.index.heap.Keys == Addrs(q.index.timers) + Addrs(q.expired) + q.pending
  }

  /** Sequence numbers tell objects apart, also across reuse of an address. */
  ghost predicate Numbered(q: Queue) {
    && (forall a :: a in q.index.heap ==> 1 <= q.index.heap[a].sequence <= q.numCreated)
    && (forall a, b :: a in q.index.heap && b in q.index.heap && a != b ==>
          q.index.heap[a].sequence != q.index.heap[b].sequence)
  }

  /** A cancelled timer is gone, or is in the current batch and marked. */
  ghost predicate Settled(q: Queue) {
    && (forall n :: n in q.cancelled ==> n <= q.numCreated && q.cancelled[n] <= q.batch)
    && (forall a :: a in q.index.heap && q.index.heap[a].sequence in q.cancelled ==>
          && a in Addrs(q.expired) && q.cancelled[q.index.heap[a].sequence] == q.batch
          && Id(a, q.index.heap[a].sequence) in q.canceling)
    && (forall i :: 0 <= i < |q.runs| ==>
          q.runs[i].batch <= q.batch &&
          (q.runs[i].sequence in q.cancelled ==> q.runs[i].batch <= q.cancelled[q.runs[i].sequence]))
  }

  ghost predicate AlarmKept(q: Queue) {
    q.index.timers != [] && (q.phase.Idle? || q.index.timers[0].when <= 0) ==> InTime(q.alarm, q.index.timers[0].when)
  }

  ghost predicate Inv(q: Queue) {
    && !q.fault && (q.phase.Idle? ==> q.expired == [])
    && Owned(q) && Numbered(q) && Settled(q) && AlarmKept(q)
  }

  // ----- each step keeps it -----

  lemma SameIds(h: map<nat, Timer>, g: map<nat, Timer>, s: seq<Entry>)
    requires Keyed(h, s) && forall e :: e in s ==> e.addr in g && g[e.addr] == h[e.addr]
    ensures Keyed(g, s) && Ids(g, s) == Ids(h, s)
  {
    assert forall e :: e in s ==> IdOf(g, e) == IdOf(h, e);
  }

  lemma NewOwned(q: Queue, addr: nat, when: int, interval: nat)
    requires Inv(q) && addr < ADDRESS_MAX && addr !in q.index.heap
    ensures Owned(DoNew(q, addr, when, interval))
  {
    var r := DoNew(q, addr, when, interval);
    assert forall e :: e in q.index.timers ==> e.addr in Addrs(q.index.timers);
    assert forall e :: e in q.expired ==> e.addr in Addrs(q.expired);
    SameIds(q.index.heap, r.index.heap, q.index.timers);
    SameIds(q.index.heap, r.index.heap, q.expired);
  }

  lemma NewKeeps(q: Queue, addr: nat, when: int, interval: nat)
    requires Inv(q) && addr < ADDRESS_MAX && addr !in q.index.heap
    ensures Inv(DoNew(q, addr, when, interval))
  {
    NewOwned(q, addr, when, interval);
  }

  lemma AddKeeps(q: Queue, addr: nat, clock: nat)
    requires Inv(q) && addr in q.pending
    ensures Inv(DoAdd(q, addr, clock))
  {
    PutAgrees(q.index, addr);
    InsertHead(q.index.timers, Entry(q.index.heap[addr].expiration, addr));
  }

  lemma InsertHead(s: seq<Entry>, e: Entry)
    ensures Insert(s, e) != []
    ensures Insert(s, e)[0].when == if s == [] || e.when < s[0].when then e.when else s[0].when
  {
  }

  lemma EraseHead(s: seq<Entry>, e: Entry)
    requires Sorted(s)
    ensures Erase(s, e) != [] ==> s != [] && s[0].when <= Erase(s, e)[0].when
  {
  }

  lemma CancelKeeps(q: Queue, id: Id)
    requires Inv(q)
    ensures Inv(DoCancel(q, id))
  {
    if id in q.index.active {
      CancelActiveOwned(q, id);
      EraseHead(q.index.timers, Entry(q.index.heap[id.addr].expiration, id.addr));
    } else if q.phase.Calling? {
      CancelDeferred(q, id);
    }
  }

  lemma CancelDeferred(q: Queue, id: Id)
    requires Inv(q) && id !in q.index.active && q.phase.Calling?
    ensures Inv(DoCancel(q, id))
  {
    if id in Ids(q.index.heap, q.expired) {
      var e :| e in q.expired && IdOf(q.index.heap, e) == id;
      assert id.addr in Addrs(q.expired);
    }
  }

  lemma CancelActiveOwned(q: Queue, id: Id)
    requires Inv(q) && id in q.index.active
    ensures !DropFails(q.index, id) && q.index.heap[id.addr].sequence == id.sequence
    ensures id.addr in Addrs(q.index.timers) && Owned(DoCancel(q, id))
  {
    DropAgrees(q.index, id);
    var r := DoCancel(q, id);
    assert Entry(q.index.heap[id.addr].expiration, id.addr) in q.index.timers;
    assert forall e :: e in q.expired ==> e.addr in Addrs(q.expired);
    SameIds(q.index.heap, r.index.heap, q.expired);
  }

  lemma BeginKeeps(q: Queue, now: nat)
    requires Inv(q) && q.phase.Idle?
    ensures Inv(DoBegin(q, now))
  {
    TakeAgrees(q.index, now);
    DueSplits(q.index, now);
    var r := DoBegin(q, now);
    assert r.index.timers != [] ==> r.index.timers[0] in r.index.timers;
  }

  lemma CallKeeps(q: Queue)
    requires Inv(q) && q.called < |q.expired|
    ensures Inv(DoCall(q))
  {
    assert q.expired[q.called] in q.expired;
    assert q.expired[q.called].addr in Addrs(q.expired);
  }

  lemma ResetNumbered(q: Queue)
    requires Inv(q) && q.phase.Resetting? && q.expired != []
    ensures Numbered(DoResetOne(q))
  {
  }

  lemma ResetSettled(q: Queue)
    requires Inv(q) && q.phase.Resetting? && q.expired != []
    ensures Settled(DoResetOne(q))
  {
    HeadLeaves(q.index.heap, q.expired);
    assert forall e :: e in q.expired ==> e.addr in Addrs(q.expired);
  }

  /** What reset puts back is due after now, which is no time before the epoch. */
  lemma ResetAlarm(q: Queue)
    requires Inv(q) && q.phase.Resetting? && q.expired != []
    ensures AlarmKept(DoResetOne(q))
  {
    ResetOwned(q);
    var e := q.expired[0];
    if Repeats(q, e) { InsertHead(q.index.timers, Entry(q.now + q.index.heap[e.addr].interval, e.addr)); }
  }

  lemma ResetKeeps(q: Queue)
    requires Inv(q) && q.phase.Resetting? && q.expired != []
    ensures Inv(DoResetOne(q))
  {
    ResetOwned(q);
    ResetNumbered(q);
    ResetSettled(q);
    ResetAlarm(q);
  }

  lemma RestartOwned(q: Queue)
    requires Owned(q) && q.expired != [] && q.expired[0].addr in q.index.heap && Repeats(q, q.expired[0])
    ensures !PutFails(Restarted(q.index, q.expired[0].addr, q.now), q.expired[0].addr) && Owned(DoResetOne(q))
    ensures Addrs(DoResetOne(q).expired) == Addrs(q.expired) - {q.expired[0].addr}
  {
    var e := q.expired[0];
    var x := Restarted(q.index, e.addr, q.now);
    HeadLeaves(q.index.heap, q.expired);
    assert e in q.expired && e.addr in Addrs(q.expired);
    assert forall f :: f in q.index.timers ==> f.addr in Addrs(q.index.timers);
    assert forall f :: f in q.expired[1..] ==> f.addr in Addrs(q.expired[1..]);
    SameIds(q.index.heap, x.heap, q.index.timers);
    SameIds(q.index.heap, x.heap, q.expired[1..]);
    PutAgrees(x, e.addr);
  }

  lemma DeleteOwned(q: Queue)
    requires Owned(q) && q.expired != [] && q.expired[0].addr in q.index.heap && !Repeats(q, q.expired[0])
    ensures Owned(DoResetOne(q)) && Addrs(DoResetOne(q).expired) == Addrs(q.expired) - {q.expired[0].addr}
  {
    var e := q.expired[0];
    HeadLeaves(q.index.heap, q.expired);
    assert e in q.expired && e.addr in Addrs(q.expired);
    assert forall f :: f in q.index.timers ==> f.addr in Addrs(q.index.timers);
    assert forall f :: f in q.expired[1..] ==> f.addr in Addrs(q.expired[1..]);
    SameIds(q.index.heap, q.index.heap - {e.addr}, q.index.timers);
    SameIds(q.index.heap, q.index.heap - {e.addr}, q.expired[1..]);
  }

  lemma ResetOwned(q: Queue)
    requires Owned(q) && q.expired != [] && !q.fault
    ensures q.expired[0].addr in q.index.heap && q.expired[0].addr !in Addrs(q.index.timers)
    ensures Owned(DoResetOne(q)) && !DoResetOne(q).fault && DoResetOne(q).expired == q.expired[1..]
  {
    assert q.expired[0] in q.expired && q.expired[0].addr in Addrs(q.expired);
    if Repeats(q, q.expired[0]) {
      RestartOwned(q);
    } else {
      DeleteOwned(q);
    }
  }

  /** The loop of TimerQueue::reset. */
  function ResetAll(q: Queue): Queue
    decreases |q.expired|
  {
    if q.expired == [] || DoResetOne(q).expired != q.expired[1..] then q else ResetAll(DoResetOne(q))
  }

  lemma HeadLeaves(heap: map<nat, Timer>, s: seq<Entry>)
    requires Sorted(s) && Keyed(heap, s) && s != []
    ensures Sorted(s[1..]) && Keyed(heap, s[1..]) && Addrs(s[1..]) == Addrs(s) - {s[0].addr}
  {
    assert s == [s[0]] + s[1..];
    assert s[0] !in s[1..];
    assert forall e :: e in s[1..] ==> e in s && e.addr != s[0].addr;
  }

  lemma RearmKeeps(q: Queue, clock: nat)
    requires Inv(q) && q.expired == []
    ensures Inv(DoRearm(q, clock))
  {
  }

  /** The steps of other threads and of the public calls. */
  lemma CallStepKeeps(q: Queue, ev: Event)
    requires Inv(q) && (ev.New? || ev.Add? || ev.Cancel?)
    ensures Inv(Step(q, ev))
  {
    match ev
    case New(addr, when, interval) =>
      if addr < ADDRESS_MAX && addr !in q.index.heap { NewKeeps(q, addr, when, interval); }
    case Add(addr, clock) => if addr in q.pending { AddKeeps(q, addr, clock); }
    case Cancel(id) => CancelKeeps(q, id);
  }

  /** The steps of a dispatch. */
  lemma DispatchStepKeeps(q: Queue, ev: Event)
    requires Inv(q) && !ev.New? && !ev.Add? && !ev.Cancel?
    ensures Inv(Step(q, ev))
  {
    match ev
    case Begin(now) => if q.phase.Idle? { BeginKeeps(q, now); }
    case Call => if q.called < |q.expired| { CallKeeps(q); }
    case EndCalls => assert q.phase.Calling? ==> Inv(q.(phase := Resetting));
    case ResetOne => if q.phase.Resetting? && q.expired != [] { ResetKeeps(q); }
    case Rearm(clock) => if q.expired == [] { RearmKeeps(q, clock); }
  }

  lemma StepKeeps(q: Queue, ev: Event)
    requires Inv(q)
    ensures Inv(Step(q, ev))
  {
    if ev.New? || ev.Add? || ev.Cancel? { CallStepKeeps(q, ev); } else { DispatchStepKeeps(q, ev); }
  }

  lemma {:induction false} StepsKeep(q: Queue, evs: seq<Event>)
    requires Inv(q)
    ensures Inv(StepsFrom(q, evs))
  {
    if evs != [] {
      StepsKeep(q, evs[..|evs| - 1]);
      StepKeeps(StepsFrom(q, evs[..|evs| - 1]), evs[|evs| - 1]);
    }
  }

  // ----- the theorems, for every sequence of events -----

  /** No assertion fails and no deleted timer is touched; the two indices hold the same timers,
      each keyed by its current expiration, in strict order; and every object is owned once: by
      the indices, by the batch being dispatched, or by an addTimerInLoop still to come, so
      none is deleted twice or lost. */
  lemma TimersConsistent(evs: seq<Event>)
    ensures var q := Steps(evs);
      && !q.fault && |q.index.timers| == |q.index.active|
      && (forall i, j :: 0 <= i < j < |q.index.timers| ==> Less(q.index.timers[i], q.index.timers[j]))
      && (forall e :: e in q.index.timers ==> e.addr in q.index.heap && q.index.heap[e.addr].expiration == e.when)
      && q.index.active == Ids(q.index.heap, q.index.timers)
      && q.index.heap.Keys == Addrs(q.index.timers) + Addrs(q.expired) + q.pending
      && Addrs(q.index.timers) !! Addrs(q.expired)
      && Addrs(q.index.timers) !! q.pending && Addrs(q.expired) !! q.pending
  {
    StepsKeep(EMPTY, evs);
    SizesAgree(Steps(evs).index);
  }

  /** Between dispatches the alarm is set for the earliest timer or earlier, but never less than
      MIN_DELAY ahead of the moment it was set, however timers were added, cancelled or expired. */
  lemma NoLateTimer(evs: seq<Event>)
    ensures var q := Steps(evs);
      q.phase.Idle? && q.index.timers != [] ==>
        && InTime(q.alarm, q.index.timers[0].when)
        && forall e :: e in q.index.timers ==> q.index.timers[0].when <= e.when
  {
    StepsKeep(EMPTY, evs);
    var q := Steps(evs);
    assert forall i :: 0 < i < |q.index.timers| ==> Less(q.index.timers[0], q.index.timers[i]);
  }

  lemma BeginFields(q: Queue, now: nat)
    requires Inv(q) && q.phase.Idle?
    ensures var r := Step(q, Begin(now));
      && r.phase.Calling? && !r.fault
      && r.expired == q.index.timers[..Due(q.index, now)] && r.index.timers == q.index.timers[Due(q.index, now)..]
  {
    TakeAgrees(q.index, now);
  }

  /** A dispatch takes exactly the timers that are due, in order, and leaves the others. */
  lemma DispatchIsExact(evs: seq<Event>, now: nat)
    requires Steps(evs).phase.Idle?
    ensures var q, r := Steps(evs), Step(Steps(evs), Begin(now));
      && r.phase.Calling? && r.expired + r.index.timers == q.index.timers
      && (forall e :: e in r.expired <==> e in q.index.timers && e.when <= now)
      && (forall e :: e in r.index.timers <==> e in q.index.timers && now < e.when)
  {
    StepsKeep(EMPTY, evs);
    BeginExact(Steps(evs), now);
  }

  lemma BeginExact(q: Queue, now: nat)
    requires Inv(q) && q.phase.Idle?
    ensures var r := Step(q, Begin(now));
      && r.phase.Calling? && r.expired + r.index.timers == q.index.timers
      && (forall e :: e in r.expired <==> e in q.index.timers && e.when <= now)
      && (forall e :: e in r.index.timers <==> e in q.index.timers && now < e.when)
  {
    BeginFields(q, now);
    DueSplits(q.index, now);
  }

  ghost predicate Live(q: Queue, id: Id) { id in q.index.active || id in Ids(q.index.heap, q.expired) }

  lemma CancelStays(q: Queue, id: Id, n: nat)
    requires Inv(q) && n in q.cancelled
    ensures n in DoCancel(q, id).cancelled && DoCancel(q, id).cancelled[n] == q.cancelled[n]
  {
    if id in q.index.active { CancelActiveOwned(q, id); }
  }

  lemma CancelledStays(q: Queue, ev: Event, n: nat)
    requires Inv(q) && n in q.cancelled
    ensures n in Step(q, ev).cancelled && Step(q, ev).cancelled[n] == q.cancelled[n]
  {
    if ev.Cancel? { CancelStays(q, ev.id, n); } else { assert Step(q, ev).cancelled == q.cancelled; }
  }

  lemma {:induction false} CancelledForGood(q: Queue, evs: seq<Event>, n: nat)
    requires Inv(q) && n in q.cancelled
    ensures n in StepsFrom(q, evs).cancelled && StepsFrom(q, evs).cancelled[n] == q.cancelled[n]
  {
    if evs != [] {
      CancelledForGood(q, evs[..|evs| - 1], n);
      StepsKeep(q, evs[..|evs| - 1]);
      CancelledStays(StepsFrom(q, evs[..|evs| - 1]), evs[|evs| - 1], n);
    }
  }

  /** Once cancelInLoop has processed a live timer's id, that timer never runs in a later batch:
      whether it was waiting or in the batch being dispatched, and whatever happens next. */
  lemma CancelledNeverRunsAgain(before: seq<Event>, id: Id, after: seq<Event>)
    requires Live(Steps(before), id) && !Steps(before).phase.Resetting?
    ensures var q := StepsFrom(Step(Steps(before), Cancel(id)), after);
      forall i :: 0 <= i < |q.runs| && q.runs[i].sequence == id.sequence ==> q.runs[i].batch <= Steps(before).batch
  {
    var q := Steps(before);
    StepsKeep(EMPTY, before);
    StepKeeps(q, Cancel(id));
    assert id.sequence in Step(q, Cancel(id)).cancelled && Step(q, Cancel(id)).cancelled[id.sequence] == q.batch;
    CancelledForGood(Step(q, Cancel(id)), after, id.sequence);
    StepsKeep(Step(q, Cancel(id)), after);
  }

  /** No object has the sequence number n, it will not be given out again, and it has not run since
      the first k runs. */
  ghost predicate Dead(q: Queue, n: nat, k: nat) {
    && n <= q.numCreated && (forall a :: a in q.index.heap ==> q.index.heap[a].sequence != n)
    && (forall i :: k <= i < |q.runs| ==> q.runs[i].sequence != n)
  }

  lemma ResetDead(q: Queue, n: nat, k: nat)
    requires Dead(q, n, k) && q.expired != []
    ensures Dead(DoResetOne(q), n, k)
  {
  }

  lemma CancelDead(q: Queue, id: Id, n: nat, k: nat)
    requires Dead(q, n, k)
    ensures Dead(DoCancel(q, id), n, k)
  {
  }

  lemma DeadStays(q: Queue, ev: Event, n: nat, k: nat)
    requires Dead(q, n, k)
    ensures Dead(Step(q, ev), n, k)
  {
    match ev
    case ResetOne => if q.expired != [] { ResetDead(q, n, k); }
    case Cancel(id) => CancelDead(q, id, n, k);
    case _ =>
  }

  lemma {:induction false} DeadForGood(q: Queue, evs: seq<Event>, n: nat, k: nat)
    requires Dead(q, n, k)
    ensures Dead(StepsFrom(q, evs), n, k)
  {
    if evs != [] {
      DeadForGood(q, evs[..|evs| - 1], n, k);
      DeadStays(StepsFrom(q, evs[..|evs| - 1]), evs[|evs| - 1], n, k);
    }
  }

  lemma CancelKills(q: Queue, id: Id)
    requires Inv(q) && id in q.index.active && !q.phase.Resetting?
    ensures Dead(Step(q, Cancel(id)), id.sequence, |q.runs|)
  {
    CancelActiveOwned(q, id);
  }

  /** A waiting timer that is cancelled is deleted: it never runs again, not even in the batch being
      dispatched. */
  lemma CancelledWaitingNeverRuns(before: seq<Event>, id: Id, after: seq<Event>)
    requires id in Steps(before).index.active && !Steps(before).phase.Resetting?
    ensures var q := StepsFrom(Step(Steps(before), Cancel(id)), after);
      forall i :: 0 <= i < |q.runs| && q.runs[i].sequence == id.sequence ==> i < |Steps(before).runs|
  {
    StepsKeep(EMPTY, before);
    CancelKills(Steps(before), id);
    DeadForGood(Step(Steps(before), Cancel(id)), after, id.sequence, |Steps(before).runs|);
  }

  /** Equal but for a mark that matches no timer of the current batch. */
  ghost predicate Twins(q: Queue, r: Queue, id: Id) {
    && r == q.(canceling := r.canceling)
    && (r.canceling == q.canceling || r.canceling == q.canceling + {id})
    && id !in Ids(q.index.heap, q.expired)
  }

  /** A step other than Begin leaves the ids of the current batch alone, or drops the first. */
  ghost predicate Shrinks(q: Queue, r: Queue) {
    forall e :: e in r.expired ==> e in q.expired && IdOf(r.index.heap, e) == IdOf(q.index.heap, e)
  }

  lemma ResetShrinks(q: Queue)
    requires Owned(q) && q.expired != []
    ensures Shrinks(q, DoResetOne(q))
  {
    HeadLeaves(q.index.heap, q.expired);
    assert forall f :: f in q.expired[1..] ==> f in q.expired && f.addr in Addrs(q.expired[1..]);
  }

  lemma CancelShrinks(q: Queue, id: Id)
    requires Inv(q)
    ensures Shrinks(q, DoCancel(q, id))
  {
    assert forall e :: e in q.expired ==> e.addr in Addrs(q.expired);
    if id in q.index.active {
      CancelActiveOwned(q, id);
    }
  }

  lemma NotInBatch(q: Queue, ev: Event, id: Id)
    requires Inv(q) && id !in Ids(q.index.heap, q.expired) && !ev.Begin?
    ensures id !in Ids(Step(q, ev).index.heap, Step(q, ev).expired)
  {
    match ev
    case New(addr, _, _) =>
      assert forall e :: e in q.expired ==> e.addr in q.index.heap;
      assert Shrinks(q, Step(q, ev));
    case Cancel(i) => CancelShrinks(q, i); assert Shrinks(q, Step(q, ev));
    case ResetOne => if q.phase.Resetting? && q.expired != [] { ResetShrinks(q); } assert Shrinks(q, Step(q, ev));
    case _ =>
  }

  /** The marks of the two queues after a step that does not clear them. */
  ghost predicate Marks(q: Queue, r: Queue, id: Id) {
    r == q.(canceling := r.canceling) && (r.canceling == q.canceling || r.canceling == q.canceling + {id})
  }

  lemma TwinsReset(q: Queue, r: Queue, id: Id)
    requires q.expired != [] && Twins(q, r, id)
    ensures Marks(DoResetOne(q), DoResetOne(r), id)
  {
    var e := q.expired[0];
    assert IdOf(q.index.heap, e) in Ids(q.index.heap, q.expired);
    assert e.addr in q.index.heap ==> (Repeats(q, e) <==> Repeats(r, e));
  }

  lemma TwinsCancel(q: Queue, r: Queue, id: Id, i: Id)
    requires Twins(q, r, id)
    ensures Marks(DoCancel(q, i), DoCancel(r, i), id)
  {
    assert q.canceling + {id} + {i} == q.canceling + {i} + {id};
  }

  lemma TwinsOther(q: Queue, r: Queue, id: Id, ev: Event)
    requires Twins(q, r, id) && !ev.Begin? && !ev.ResetOne? && !ev.Cancel?
    ensures Marks(Step(q, ev), Step(r, ev), id)
  {
  }

  lemma TwinsStep(q: Queue, r: Queue, id: Id, ev: Event)
    requires Inv(q) && Twins(q, r, id)
    ensures var q', r' := Step(q, ev), Step(r, ev); Twins(q', r', id) || q' == r'
  {
    if !ev.Begin? {
      NotInBatch(q, ev, id);
      if ev.ResetOne? {
        if q.phase.Resetting? && q.expired != [] { TwinsReset(q, r, id); }
      } else if ev.Cancel? {
        TwinsCancel(q, r, id, ev.id);
      } else {
        TwinsOther(q, r, id, ev);
      }
    } else if q.phase.Idle? {
      assert DoBegin(q, ev.now) == DoBegin(r, ev.now) || q.fault || TakeFails(q.index, ev.now);
    }
  }

  lemma {:induction false} TwinsSteps(q: Queue, r: Queue, id: Id, evs: seq<Event>)
    requires Inv(q) && Twins(q, r, id)
    ensures var q', r' := StepsFrom(q, evs), StepsFrom(r, evs); Twins(q', r', id) || q' == r'
  {
    if evs != [] {
      var evs' := evs[..|evs| - 1];
      TwinsSteps(q, r, id, evs');
      StepsKeep(q, evs');
      if StepsFrom(q, evs') != StepsFrom(r, evs') {
        TwinsStep(StepsFrom(q, evs'), StepsFrom(r, evs'), id, evs[|evs| - 1]);
      }
    }
  }

  /** Cancelling an id that is not live has no effect on any timer, now or later, even if its
      address is in use again: every run goes on as if it had not been cancelled. */
  lemma StaleCancelHarmless(before: seq<Event>, id: Id, after: seq<Event>)
    requires !Live(Steps(before), id)
    ensures var q, r := StepsFrom(Steps(before), after), StepsFrom(Step(Steps(before), Cancel(id)), after);
      r == q.(canceling := r.canceling)
  {
    StepsKeep(EMPTY, before);
    TwinsSteps(Steps(before), Step(Steps(before), Cancel(id)), id, after);
  }
}
