/** The TimerQueue object, proved to take the steps of Timers; the source's assertions are
    assertions here and are proved. */
module TimerQueueObject {
  import opened Timers

  predicate UserOp(ev: Event) { ev.New? || ev.Add? || ev.Cancel? }

  predicate UserOps(evs: seq<Event>) { forall i :: 0 <= i < |evs| ==> UserOp(evs[i]) }

  predicate AllUserOps(scripts: seq<seq<Event>>) { forall i :: 0 <= i < |scripts| ==> UserOps(scripts[i]) }

  function Rounds(n: nat): seq<Event> { if n == 0 then [] else [ResetOne] + Rounds(n - 1) }

  /** reset's loop is as many ResetOne steps as there are entries, so all that holds of every
      sequence of steps holds of it. */
  lemma {:induction false} ResetAllIsSteps(q: Queue)
    requires Owned(q) && !q.fault && q.phase.Resetting?
    ensures StepsFrom(q, Rounds(|q.expired|)) == ResetAll(q)
    decreases |q.expired|
  {
    if q.expired != [] {
      ResetRound(q);
      ResetAllIsSteps(Step(q, ResetOne));
      StepsAppend(q, [ResetOne], Rounds(|q.expired| - 1));
      StepsOne(q, ResetOne);
    }
  }

  lemma ResetRound(q: Queue)
    requires Owned(q) && !q.fault && q.phase.Resetting? && q.expired != []
    ensures var r := Step(q, ResetOne);
      Owned(r) && !r.fault && r.phase.Resetting? && r.expired == q.expired[1..] && ResetAll(q) == ResetAll(r)
  {
    ResetOwned(q);
  }

  lemma StepsLast(q: Queue, evs: seq<Event>, ev: Event)
    ensures StepsFrom(q, evs + [ev]) == Step(StepsFrom(q, evs), ev)
  {
    assert (evs + [ev])[..|evs|] == evs;
  }

  lemma {:induction false} StepsAppend(q: Queue, a: seq<Event>, b: seq<Event>)
    ensures StepsFrom(q, a + b) == StepsFrom(StepsFrom(q, a), b)
  {
    if b == [] {
      AppendNone(q, a, b);
    } else {
      StepsAppend(q, a, b[..|b| - 1]);
      AppendLast(q, a, b[..|b| - 1], b[|b| - 1], b);
    }
  }

  lemma AppendNone(q: Queue, a: seq<Event>, b: seq<Event>)
    requires b == []
    ensures StepsFrom(q, a + b) == StepsFrom(StepsFrom(q, a), b)
  {
    assert a + b == a;
  }

  lemma AppendLast(q: Queue, a: seq<Event>, b: seq<Event>, ev: Event, all: seq<Event>)
    requires StepsFrom(q, a + b) == StepsFrom(StepsFrom(q, a), b) && all == b + [ev]
    ensures StepsFrom(q, a + all) == StepsFrom(StepsFrom(q, a), all)
  {
    assert a + all == (a + b) + [ev];
    StepsLast(q, a + b, ev);
    StepsLast(StepsFrom(q, a), b, ev);
  }

  lemma StepsOne(q: Queue, ev: Event)
    ensures StepsFrom(q, [ev]) == Step(q, ev)
  {
    assert [ev][..0] == [];
    assert StepsFrom(q, []) == q;
  }

  class TimerQueue {
    var heap: map<nat, Timer>         // the Timer objects, by address
    var numCreated: nat               // Timer::s_numCreated_
    var timers: seq<Entry>
    var activeTimers: set<Id>
    var callingExpiredTimers: bool
    var cancelingTimers: set<Id>
    var alarm: Alarm
    var pending: set<nat>             // objects whose addTimerInLoop is still to come
    ghost var resetting: bool
    ghost var left: seq<Entry>
    ghost var called: nat
    var now: nat                      // handleRead's reading of the clock
    ghost var batch: nat
    ghost var runs: seq<TimerRun>
    ghost var cancelled: map<nat, nat>

    ghost function TheIndex(): Index reads this { Index(heap, timers, activeTimers) }

    ghost function Model(): Queue
      reads this
    {
      Queue(TheIndex(), pending, numCreated,
            if callingExpiredTimers then Calling else if resetting then Resetting else Idle,
            cancelingTimers, left, called, now, alarm, batch, runs, cancelled, false)
    }

    constructor ()
      ensures Model() == EMPTY && Inv(Model())
    {
      heap, numCreated, timers, activeTimers := map[], 0, [], {};
      callingExpiredTimers, cancelingTimers, alarm := false, {}, Disarmed;
      pending, resetting, left, called, now, batch, runs, cancelled := {}, false, [], 0, 0, 0, [], map[];
    }

    /** new Timer at an address the allocator has free. */
    method NewTimer(addr: nat, when: int, interval: nat)
      requires Inv(Model()) && addr < ADDRESS_MAX && addr !in heap
      modifies this`heap, this`numCreated, this`pending
      ensures Model() == Step(old(Model()), New(addr, when, interval)) && Inv(Model())
    {
      NewKeeps(Model(), addr, when, interval);
      numCreated := numCreated + 1;
      heap := heap[addr := Timer(when, interval, numCreated)];
      pending := pending + {addr};
    }

    method InsertTimer(addr: nat) returns (earliestChanged: bool)
      requires Agree(TheIndex()) && addr in heap && addr !in Addrs(timers)
      modifies this`timers, this`activeTimers
      ensures TheIndex() == Put(old(TheIndex()), addr) && Agree(TheIndex())
      ensures earliestChanged <==> old(timers) == [] || heap[addr].expiration < old(timers)[0].when
    {
      PutAgrees(TheIndex(), addr);
      earliestChanged := false;
      var when := heap[addr].expiration;
      if timers == [] || when < timers[0].when {
        earliestChanged := true;
      }
      assert Entry(when, addr) !in timers;
      timers := Insert(timers, Entry(when, addr));
      assert Id(addr, heap[addr].sequence) !in activeTimers;
      activeTimers := activeTimers + {Id(addr, heap[addr].sequence)};
    }

    method AddTimerInLoop(addr: nat, clock: nat)
      requires Inv(Model()) && addr in pending && !Model().phase.Resetting?
      modifies this`timers, this`activeTimers, this`pending, this`alarm
      ensures Model() == Step(old(Model()), Add(addr, clock)) && Inv(Model())
    {
      AddFacts(Model(), addr, clock);
      var earliestChanged := InsertTimer(addr);
      if earliestChanged {
        alarm := Arm(heap[addr].expiration, clock);
      }
      pending := pending - {addr};
    }

    method CancelInLoop(id: Id)
      requires Inv(Model()) && !Model().phase.Resetting?
      modifies this`heap, this`timers, this`activeTimers, this`cancelingTimers, this`cancelled
      ensures Model() == Step(old(Model()), Cancel(id)) && Inv(Model())
    {
      ghost var q := Model();
      CancelFields(id);
      StepKeeps(q, Cancel(id));
    }

    /** The body of cancelInLoop, which needs only that the indices agree. */
    method CancelFields(id: Id)
      requires Agree(TheIndex())
      modifies this`heap, this`timers, this`activeTimers, this`cancelingTimers, this`cancelled
      ensures Model() == DoCancel(old(Model()), id)
    {
      if id in activeTimers {
        DropAgrees(TheIndex(), id);
        var e := Entry(heap[id.addr].expiration, id.addr);
        assert e in timers;
        timers := Erase(timers, e);
        heap := heap - {id.addr};
        activeTimers := activeTimers - {id};
        cancelled := cancelled[id.sequence := batch];
      } else if callingExpiredTimers {
        cancelingTimers := cancelingTimers + {id};
        cancelled := if id in Ids(heap, left) then cancelled[id.sequence := batch] else cancelled;
      }
    }

    method GetExpired(now: int) returns (expired: seq<Entry>)
      requires Agree(TheIndex()) && forall a :: a in heap ==> a < ADDRESS_MAX
      modifies this`timers, this`activeTimers
      ensures expired == old(timers)[..Due(old(TheIndex()), now)]
      ensures TheIndex() == Take(old(TheIndex()), now) && !TakeFails(old(TheIndex()), now)
    {
      TakeAgrees(TheIndex(), now);
      DueSplits(TheIndex(), now);
      var end := LowerBound(timers, Entry(now, ADDRESS_MAX));
      assert end == |timers| || now < timers[end].when by {
        assert end < |timers| ==> timers[end..][0] in timers[end..];
      }
      expired := timers[..end];
      timers := timers[end..];
      EraseActive(expired);
    }

    /** The loop of getExpired: each entry's id is found in activeTimers_ and leaves it. */
    method EraseActive(expired: seq<Entry>)
      requires Sorted(expired) && Keyed(heap, expired) && Ids(heap, expired) <= activeTimers
      modifies this`activeTimers
      ensures activeTimers == old(activeTimers) - Ids(heap, expired)
    {
      var i := 0;
      while i < |expired|
        invariant 0 <= i <= |expired|
        invariant activeTimers == old(activeTimers) - Ids(heap, expired[..i])
      {
        assert expired[i] in expired;
        var id := Id(expired[i].addr, heap[expired[i].addr].sequence);
        assert id in Ids(heap, expired);
        assert id in activeTimers;
        assert expired[..i + 1] == expired[..i] + [expired[i]];
        activeTimers := activeTimers - {id};
        i := i + 1;
      }
      assert expired[..i] == expired;
    }

    /** Timer::restart: a timer that does not repeat gets the invalid time. */
    method Restart(addr: nat, now: nat)
      requires addr in heap
      modifies this`heap
      ensures var t := old(heap)[addr];
        heap == old(heap)[addr := t.(expiration := if t.interval > 0 then now + t.interval else 0)]
    {
      var t := heap[addr];
      if t.interval > 0 {
        heap := heap[addr := t.(expiration := now + t.interval)];
      } else {
        heap := heap[addr := t.(expiration := 0)];
      }
    }

    /** A repeating timer of the batch is restarted and goes back into both sets. */
    method Reinsert(addr: nat, now: nat)
      requires Agree(TheIndex()) && addr in heap && addr !in Addrs(timers) && heap[addr].interval > 0
      modifies this`heap, this`timers, this`activeTimers
      ensures var x := Restarted(old(TheIndex()), addr, now);
        !PutFails(x, addr) && TheIndex() == Put(x, addr) && Agree(TheIndex())
    {
      RestartAgrees(TheIndex(), addr, now);
      Restart(addr, now);
      PutAgrees(TheIndex(), addr);
      var _ := InsertTimer(addr);
    }

    /** One round of reset's loop: the timer goes back into the queue, or it is deleted. */
    method ResetEntry(e: Entry)
      requires Agree(TheIndex()) && e.addr in heap && e.addr !in Addrs(timers) && left != [] && e == left[0]
      modifies this`heap, this`timers, this`activeTimers, this`left
      ensures Model() == DoResetOne(old(Model()))
    {
      if heap[e.addr].interval > 0 && Id(e.addr, heap[e.addr].sequence) !in cancelingTimers {
        Reinsert(e.addr, now);
      } else {
        heap := heap - {e.addr};
      }
      left := left[1..];
    }

    method ResetLoop(expired: seq<Entry>)
      requires Owned(Model()) && left == expired
      modifies this`heap, this`timers, this`activeTimers, this`left
      ensures Owned(Model()) && left == [] && Model() == ResetAll(old(Model()))
    {
      for i := 0 to |expired|
        invariant left == expired[i..]
        invariant Owned(Model())
        invariant ResetAll(Model()) == ResetAll(old(Model()))
      {
        ResetOwned(Model());
        ghost var q := Model();
        ResetEntry(expired[i]);
        assert ResetAll(q) == ResetAll(Model());
      }
    }

    /** reset: the loop, then the alarm for the new earliest timer, if its time is valid. */
    method Reset(expired: seq<Entry>, clock: nat)
      requires Owned(Model()) && left == expired && !callingExpiredTimers
      modifies this`heap, this`timers, this`activeTimers, this`left, this`alarm, this`resetting
      ensures Model() == DoRearm(ResetAll(old(Model())), clock)
    {
      ResetLoop(expired);
      var nextExpire := 0;
      if timers != [] {
        assert timers[0] in timers;
        nextExpire := heap[timers[0].addr].expiration;
      }
      if nextExpire > 0 {
        alarm := Arm(nextExpire, clock);
      }
      resetting := false;
    }

    /** One thing a callback may do. */
    method Perform(op: Event)
      requires Inv(Model()) && UserOp(op) && !Model().phase.Resetting?
      modifies this`heap, this`numCreated, this`pending, this`timers, this`activeTimers, this`alarm,
               this`cancelingTimers, this`cancelled
      ensures Model() == Step(old(Model()), op) && Inv(Model())
    {
      match op {
        case New(addr, when, interval) => if addr < ADDRESS_MAX && addr !in heap { NewTimer(addr, when, interval); }
        case Add(addr, clock) => if addr in pending { AddTimerInLoop(addr, clock); }
        case Cancel(id) => CancelInLoop(id);
      }
    }

    method RunOps(ops: seq<Event>)
      requires Inv(Model()) && UserOps(ops) && !Model().phase.Resetting?
      modifies this`heap, this`numCreated, this`pending, this`timers, this`activeTimers, this`alarm,
               this`cancelingTimers, this`cancelled
      ensures Model() == StepsFrom(old(Model()), ops) && Inv(Model())
    {
      for i := 0 to |ops|
        invariant Inv(Model())
        invariant Model() == StepsFrom(old(Model()), ops[..i])
      {
        assert UserOp(ops[i]);
        ghost var q := Model();
        Perform(ops[i]);
        StepsSnoc(old(Model()), ops, i);
      }
      assert ops[..|ops|] == ops;
    }

    /** handleRead up to the callbacks. */
    method StartBatch(now: nat) returns (expired: seq<Entry>)
      requires Agree(TheIndex()) && (forall a :: a in heap ==> a < ADDRESS_MAX) && Model().phase.Idle?
      modifies this`timers, this`activeTimers, this`alarm, this`callingExpiredTimers, this`cancelingTimers,
               this`left, this`called, this`now, this`batch
      ensures Model() == DoBegin(old(Model()), now) && expired == left
    {
      expired := GetExpired(now);
      Mark(expired, now);
    }

    /** The flag, the cleared marks and the read alarm, once the due entries are out. */
    method Mark(expired: seq<Entry>, now: nat)
      requires Model().phase.Idle?
      modifies this`alarm, this`callingExpiredTimers, this`cancelingTimers, this`left, this`called, this`now, this`batch
      ensures left == expired
      ensures Model() == old(Model()).(expired := expired, called := 0, now := now, phase := Calling, canceling := {},
                                       alarm := ReadAlarm(old(alarm), now), batch := old(batch) + 1)
    {
      alarm, callingExpiredTimers, cancelingTimers := ReadAlarm(alarm, now), true, {};
      left, called, this.now, batch := expired, 0, now, batch + 1;
    }

    /** Timer::run on the next entry of the batch: its object is still there. */
    method RunTimer(e: Entry)
      requires Owned(Model()) && called < |left| && e == left[called] && callingExpiredTimers
      modifies this`called, this`runs
      ensures Model() == DoCall(old(Model()))
    {
      assert e in left;
      assert e.addr in heap;
      called, runs := called + 1, runs + [TimerRun(batch, heap[e.addr].sequence)];
    }

    /** A callback: it starts, and makes its calls. */
    method CallBack(e: Entry, ops: seq<Event>)
      requires Inv(Model()) && called < |left| && e == left[called] && callingExpiredTimers && UserOps(ops)
      modifies this`called, this`runs, this`heap, this`numCreated, this`pending, this`timers, this`activeTimers,
               this`alarm, this`cancelingTimers, this`cancelled
      ensures Model() == StepsFrom(Step(old(Model()), Call), ops) && Inv(Model()) && called == old(called) + 1
    {
      CallFacts(Model());
      RunTimer(e);
      RunOps(ops);
    }

    /** The first i callbacks of the batch that began in q have run. */
    ghost predicate After(q: Queue, scripts: seq<seq<Event>>, expired: seq<Entry>, i: nat)
      reads this
    {
      && Inv(Model()) && called == i && left == expired && callingExpiredTimers
      && Model() == StepsFrom(q, Calls(scripts, i))
    }

    method CallNext(e: Entry, scripts: seq<seq<Event>>, i: nat, ghost q: Queue, ghost expired: seq<Entry>)
      requires After(q, scripts, expired, i) && i < |expired| && e == expired[i] && AllUserOps(scripts)
      modifies this`called, this`runs, this`heap, this`numCreated, this`pending, this`timers, this`activeTimers,
               this`alarm, this`cancelingTimers, this`cancelled
      ensures After(q, scripts, expired, i + 1)
    {
      CallBack(e, Script(scripts, i));
      CallsSnoc(q, scripts, i);
    }

    method CallAll(expired: seq<Entry>, scripts: seq<seq<Event>>)
      requires Inv(Model()) && called == 0 && left == expired && callingExpiredTimers
      requires AllUserOps(scripts)
      modifies this`called, this`runs, this`heap, this`numCreated, this`pending, this`timers, this`activeTimers,
               this`alarm, this`cancelingTimers, this`cancelled
      ensures Model() == StepsFrom(old(Model()), Calls(scripts, |expired|)) && Inv(Model()) && called == |expired|
    {
      ghost var q := Model();
      for i := 0 to |expired|
        invariant After(q, scripts, expired, i)
      {
        CallNext(expired[i], scripts, i, q, expired);
      }
    }

    /** handleRead: the due timers are taken out, each one's callback runs in order, with whatever it adds and
        cancels, and the batch is reset; clock is the reading the alarm is set by. */
    method HandleRead(now: nat, scripts: seq<seq<Event>>, clock: nat)
      requires Inv(Model()) && Model().phase.Idle?
      requires AllUserOps(scripts)
      modifies this
      ensures Model() == StepsFrom(old(Model()), Dispatch(now, scripts, Due(old(TheIndex()), now), clock))
      ensures Inv(Model()) && Model().phase.Idle?
    {
      ghost var q := Model();
      var expired := RunBatch(now, scripts);
      FinishBatch(expired, clock);
      DispatchParts(q, now, scripts, |expired|, clock);
    }

    method RunBatch(now: nat, scripts: seq<seq<Event>>) returns (expired: seq<Entry>)
      requires Inv(Model()) && Model().phase.Idle?
      requires AllUserOps(scripts)
      modifies this
      ensures |expired| == Due(old(TheIndex()), now) && left == expired && called == |left| && callingExpiredTimers
      ensures Model() == StepsFrom(Step(old(Model()), Begin(now)), Calls(scripts, |expired|)) && Inv(Model())
    {
      BeginFacts(Model(), now);
      expired := StartBatch(now);
      CallAll(expired, scripts);
    }

    method FinishBatch(expired: seq<Entry>, clock: nat)
      requires Inv(Model()) && callingExpiredTimers && left == expired && called == |left|
      modifies this
      ensures Model() == Step(StepsFrom(Step(old(Model()), EndCalls), Rounds(|expired|)), Rearm(clock))
      ensures Inv(Model()) && Model().phase.Idle?
    {
      ghost var c := Model();
      EndFacts(c, clock);
      callingExpiredTimers, resetting := false, true;
      assert Model() == Step(c, EndCalls);
      Reset(expired, clock);
    }
  }

  lemma AddFacts(q: Queue, addr: nat, clock: nat)
    requires Inv(q) && addr in q.pending && !q.phase.Resetting?
    ensures Step(q, Add(addr, clock)) == DoAdd(q, addr, clock) && Inv(DoAdd(q, addr, clock))
    ensures !PutFails(q.index, addr) && addr in q.index.heap && addr !in Addrs(q.index.timers)
  {
    AddKeeps(q, addr, clock);
    PutAgrees(q.index, addr);
  }

  lemma CallFacts(q: Queue)
    requires Inv(q) && q.phase.Calling? && q.called < |q.expired|
    ensures Step(q, Call) == DoCall(q) && Inv(DoCall(q)) && DoCall(q).phase.Calling?
  {
    StepKeeps(q, Call);
  }

  lemma BeginFacts(q: Queue, now: nat)
    requires Inv(q) && q.phase.Idle?
    ensures Step(q, Begin(now)) == DoBegin(q, now) && Inv(DoBegin(q, now)) && Due(q.index, now) <= |q.index.timers|
    ensures DoBegin(q, now).expired == q.index.timers[..Due(q.index, now)]
  {
    StepKeeps(q, Begin(now));
    TakeAgrees(q.index, now);
  }

  lemma EndFacts(q: Queue, clock: nat)
    requires Inv(q) && q.phase.Calling? && q.called == |q.expired|
    ensures var d := Step(q, EndCalls);
      && d == q.(phase := Resetting) && Owned(d)
      && DoRearm(ResetAll(d), clock) == Step(StepsFrom(d, Rounds(|q.expired|)), Rearm(clock))
      && Inv(DoRearm(ResetAll(d), clock)) && DoRearm(ResetAll(d), clock).phase.Idle?
  {
    StepKeeps(q, EndCalls);
    ResetThenRearm(Step(q, EndCalls), clock);
  }

  /** What the i-th expired timer's callback does. */
  function Script(scripts: seq<seq<Event>>, i: nat): seq<Event> { if i < |scripts| then scripts[i] else [] }

  /** The callbacks of a batch of n timers. */
  function Calls(scripts: seq<seq<Event>>, n: nat): seq<Event> {
    if n == 0 then [] else Calls(scripts, n - 1) + [Call] + Script(scripts, n - 1)
  }

  /** The steps of one handleRead that finds n timers due. */
  function Dispatch(now: nat, scripts: seq<seq<Event>>, n: nat, clock: nat): seq<Event> {
    [Begin(now)] + Calls(scripts, n) + [EndCalls] + Rounds(n) + [Rearm(clock)]
  }

  lemma CallsSnoc(q: Queue, scripts: seq<seq<Event>>, i: nat)
    ensures StepsFrom(q, Calls(scripts, i + 1)) ==
      StepsFrom(Step(StepsFrom(q, Calls(scripts, i)), Call), Script(scripts, i))
  {
    StepsAppend(q, Calls(scripts, i) + [Call], Script(scripts, i));
    StepsAppend(q, Calls(scripts, i), [Call]);
    StepsOne(StepsFrom(q, Calls(scripts, i)), Call);
  }

  lemma DispatchParts(q: Queue, now: nat, scripts: seq<seq<Event>>, n: nat, clock: nat)
    ensures StepsFrom(q, Dispatch(now, scripts, n, clock)) ==
      Step(StepsFrom(Step(StepsFrom(Step(q, Begin(now)), Calls(scripts, n)), EndCalls), Rounds(n)), Rearm(clock))
  {
    var b := Step(q, Begin(now));
    var c := StepsFrom(b, Calls(scripts, n));
    var d := Step(c, EndCalls);
    StepsAppend(q, [Begin(now)] + Calls(scripts, n) + [EndCalls] + Rounds(n), [Rearm(clock)]);
    StepsAppend(q, [Begin(now)] + Calls(scripts, n) + [EndCalls], Rounds(n));
    StepsAppend(q, [Begin(now)] + Calls(scripts, n), [EndCalls]);
    StepsAppend(q, [Begin(now)], Calls(scripts, n));
    StepsOne(q, Begin(now));
    StepsOne(c, EndCalls);
    StepsOne(StepsFrom(d, Rounds(n)), Rearm(clock));
  }

  lemma {:induction false} RoundsKeep(q: Queue)
    requires Inv(q) && q.phase.Resetting?
    ensures var r := ResetAll(q);
      Inv(r) && r.phase.Resetting? && r.expired == [] && r == StepsFrom(q, Rounds(|q.expired|))
    decreases |q.expired|
  {
    ResetAllIsSteps(q);
    StepsKeep(q, Rounds(|q.expired|));
    ResetAllEnds(q);
  }

  lemma {:induction false} ResetAllEnds(q: Queue)
    requires Owned(q) && !q.fault && q.phase.Resetting?
    ensures ResetAll(q).phase.Resetting? && ResetAll(q).expired == []
    decreases |q.expired|
  {
    if q.expired != [] {
      ResetRound(q);
      ResetAllEnds(Step(q, ResetOne));
    }
  }

  lemma ResetThenRearm(q: Queue, clock: nat)
    requires Inv(q) && q.phase.Resetting?
    ensures var r := DoRearm(ResetAll(q), clock);
      Inv(r) && r.phase.Idle? && r == Step(StepsFrom(q, Rounds(|q.expired|)), Rearm(clock))
  {
    RoundsKeep(q);
    RearmFacts(ResetAll(q), clock);
  }

  lemma RearmFacts(q: Queue, clock: nat)
    requires Inv(q) && q.phase.Resetting? && q.expired == []
    ensures Step(q, Rearm(clock)) == DoRearm(q, clock) && Inv(DoRearm(q, clock))
  {
    StepKeeps(q, Rearm(clock));
  }

  lemma RestartAgrees(x: Index, addr: nat, now: int)
    requires Agree(x) && addr in x.heap && addr !in Addrs(x.timers)
    ensures Agree(Restarted(x, addr, now))
  {
    assert forall f :: f in x.timers ==> f.addr in Addrs(x.timers);
    SameIds(x.heap, Restarted(x, addr, now).heap, x.timers);
  }

  lemma StepsSnoc(q: Queue, evs: seq<Event>, i: nat)
    requires i < |evs|
    ensures StepsFrom(q, evs[..i + 1]) == Step(StepsFrom(q, evs[..i]), evs[i])
  {
    assert evs[..i + 1][..i] == evs[..i];
  }
}
