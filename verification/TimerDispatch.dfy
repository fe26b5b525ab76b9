/** What a timer may count on: it waits until it is due or cancelled, each dispatch runs exactly the due
    ones, and a repeating one waits again one interval later. */
module TimerDispatch {
  import opened Timers
  import opened TimerQueueObject

  // ----- waiting -----

  /** The timer with this id waits in both indices, and t is its object. */
  ghost predicate Waits(q: Queue, id: Id, t: Timer) {
    && id in q.index.active && id.addr in q.index.heap && q.index.heap[id.addr] == t
    && Entry(t.expiration, id.addr) in q.index.timers && t.sequence == id.sequence
  }

  lemma ActiveWaits(q: Queue, id: Id)
    requires Inv(q) && id in q.index.active
    ensures id.addr in q.index.heap && Waits(q, id, q.index.heap[id.addr])
    ensures id.addr in Addrs(q.index.timers)
  {
    var e :| e in q.index.timers && IdOf(q.index.heap, e) == id;
  }

  /** addTimer: the object carries its time, its interval and the next sequence number, and once
      addTimerInLoop has run it waits. */
  lemma AddedTimerWaits(q: Queue, addr: nat, when: int, interval: nat, clock: nat)
    requires Inv(q) && addr < ADDRESS_MAX && addr !in q.index.heap && !q.phase.Resetting?
    ensures var r := Step(Step(q, New(addr, when, interval)), Add(addr, clock));
      Waits(r, Id(addr, q.numCreated + 1), Timer(when, interval, q.numCreated + 1))
  {
    var p := Step(q, New(addr, when, interval));
    StepKeeps(q, New(addr, when, interval));
    assert addr in p.pending && p.index.heap[addr] == Timer(when, interval, q.numCreated + 1);
    PutAgrees(p.index, addr);
    InsertSorted(p.index.timers, Entry(when, addr));
  }

  lemma CancelLeaves(q: Queue, id: Id, other: Id)
    requires Inv(q) && id in q.index.active && other != id
    ensures id in DoCancel(q, other).index.active
    ensures var h := DoCancel(q, other).index.heap; id.addr in h && h[id.addr] == q.index.heap[id.addr]
  {
    ActiveWaits(q, id);
    if other in q.index.active {
      ActiveWaits(q, other);
      CancelActiveOwned(q, other);
    }
  }

  lemma BeginLeaves(q: Queue, id: Id, now: nat)
    requires Inv(q) && q.phase.Idle? && id in q.index.active && now < q.index.heap[id.addr].expiration
    ensures id in DoBegin(q, now).index.active && DoBegin(q, now).index.heap == q.index.heap
  {
    ActiveWaits(q, id);
    TakeAgrees(q.index, now);
    DueSplits(q.index, now);
    assert Entry(q.index.heap[id.addr].expiration, id.addr) in DoBegin(q, now).index.timers;
  }

  lemma ResetLeaves(q: Queue, id: Id)
    requires Inv(q) && q.phase.Resetting? && q.expired != [] && id in q.index.active
    ensures id in DoResetOne(q).index.active
    ensures var h := DoResetOne(q).index.heap; id.addr in h && h[id.addr] == q.index.heap[id.addr]
  {
    ActiveWaits(q, id);
    ResetOwned(q);
  }

  lemma StepLeaves(q: Queue, ev: Event, id: Id)
    requires Inv(q) && id in q.index.active && id.addr in q.index.heap && ev != Cancel(id)
    requires ev.Begin? ==> ev.now < q.index.heap[id.addr].expiration
    ensures id in Step(q, ev).index.active
    ensures var h := Step(q, ev).index.heap; id.addr in h && h[id.addr] == q.index.heap[id.addr]
  {
    match ev
    case Cancel(other) => if !q.phase.Resetting? { CancelLeaves(q, id, other); }
    case Begin(now) => if q.phase.Idle? { BeginLeaves(q, id, now); }
    case ResetOne => if q.phase.Resetting? && q.expired != [] { ResetLeaves(q, id); }
    case _ =>
  }

  predicate Harmless(ev: Event, id: Id, t: Timer) {
    ev != Cancel(id) && (ev.Begin? ==> ev.now < t.expiration)
  }

  /** A waiting timer waits on, with the same deadline, through anything but its cancellation and a
      dispatch at or after its deadline. */
  lemma {:induction false} WaitsUntilDue(q: Queue, evs: seq<Event>, id: Id, t: Timer)
    requires Inv(q) && Waits(q, id, t) && forall i :: 0 <= i < |evs| ==> Harmless(evs[i], id, t)
    ensures Waits(StepsFrom(q, evs), id, t)
  {
    if evs != [] {
      var evs', ev := evs[..|evs| - 1], evs[|evs| - 1];
      assert forall i :: 0 <= i < |evs'| ==> evs'[i] == evs[i];
      WaitsUntilDue(q, evs', id, t);
      StepsKeep(q, evs');
      assert Harmless(ev, id, t);
      StepLeaves(StepsFrom(q, evs'), ev, id);
      StepKeeps(StepsFrom(q, evs'), ev);
      ActiveWaits(StepsFrom(q, evs), id);
    }
  }

  // ----- the alarm -----

  /** Set at the given moment for the deadline, or 100 microseconds later if that is later. */
  function AlarmFor(when: int, clock: int): Alarm { Armed(clock, if when < clock + 100 then clock + 100 else when) }

  /** When the timerfd is set, and to what: for an added timer that is earlier than all waiting, and at the end
      of a dispatch for the earliest one, if its time is valid; the dispatch reads it if it has gone off. */
  lemma AlarmMoves(q: Queue, ev: Event)
    requires Inv(q)
    ensures Step(q, ev).alarm ==
      match ev
      case Add(addr, clock) =>
        if addr in q.pending && !q.phase.Resetting? && addr in q.index.heap
           && (forall e :: e in q.index.timers ==> q.index.heap[addr].expiration < e.when)
        then AlarmFor(q.index.heap[addr].expiration, clock) else q.alarm
      case Begin(now) => if q.phase.Idle? && q.alarm.Armed? && q.alarm.fire <= now then Disarmed else q.alarm
      case Rearm(clock) =>
        if q.phase.Resetting? && q.expired == [] && q.index.timers != [] && q.index.timers[0].when > 0
        then AlarmFor(q.index.timers[0].when, clock) else q.alarm
      case _ => q.alarm
  {
    match ev
    case Add(addr, clock) => if addr in q.pending && !q.phase.Resetting? { AddMovesAlarm(q, addr, clock); }
    case Begin(now) => if q.phase.Idle? { BeginReadsAlarm(q, now); }
    case Rearm(clock) => RearmSetsAlarm(q, clock);
    case _ => OthersLeaveAlarm(q, ev);
  }

  lemma RearmSetsAlarm(q: Queue, clock: nat)
    requires !q.fault
    ensures Step(q, Rearm(clock)).alarm ==
      if q.phase.Resetting? && q.expired == [] && q.index.timers != [] && q.index.timers[0].when > 0
      then AlarmFor(q.index.timers[0].when, clock) else q.alarm
  {
  }

  lemma OthersLeaveAlarm(q: Queue, ev: Event)
    requires !ev.Add? && !ev.Begin? && !ev.Rearm?
    ensures Step(q, ev).alarm == q.alarm
  {
  }

  lemma BeginReadsAlarm(q: Queue, now: nat)
    requires Inv(q) && q.phase.Idle?
    ensures Step(q, Begin(now)).alarm == if q.alarm.Armed? && q.alarm.fire <= now then Disarmed else q.alarm
  {
    TakeAgrees(q.index, now);
  }

  lemma AddMovesAlarm(q: Queue, addr: nat, clock: nat)
    requires Inv(q) && addr in q.pending && !q.phase.Resetting?
    ensures addr in q.index.heap
    ensures Step(q, Add(addr, clock)).alarm ==
      if forall e :: e in q.index.timers ==> q.index.heap[addr].expiration < e.when
      then AlarmFor(q.index.heap[addr].expiration, clock) else q.alarm
  {
    AddFacts(q, addr, clock);
    EarliestFirst(q.index.timers);
  }

  lemma EarliestFirst(s: seq<Entry>)
    requires Sorted(s)
    ensures s != [] ==> s[0] in s && forall e :: e in s ==> s[0].when <= e.when
  {
    forall e | e in s ensures s[0].when <= e.when {
      var i :| 0 <= i < |s| && s[i] == e;
      assert i > 0 ==> Less(s[0], s[i]);
    }
  }

  // ----- one round of reset -----

  /** A round of reset on entry e, with object t: a repeating timer that no callback has cancelled waits
      again, one interval after the dispatch; any other is deleted. */
  lemma ResetOneExact(q: Queue)
    requires Inv(q) && q.phase.Resetting? && q.expired != []
    ensures var e := q.expired[0];
      e.addr in q.index.heap &&
      var t, r := q.index.heap[e.addr], Step(q, ResetOne);
      if t.interval > 0 && Id(e.addr, t.sequence) !in q.canceling
      then Waits(r, Id(e.addr, t.sequence), Timer(q.now + t.interval, t.interval, t.sequence))
      else e.addr !in r.index.heap
  {
    ResetOwned(q);
    StepKeeps(q, ResetOne);
    RestartedFields(q, q.expired[0]);
    if Repeats(q, q.expired[0]) {
      ActiveWaits(Step(q, ResetOne), IdOf(q.index.heap, q.expired[0]));
    }
  }

  lemma RestartedFields(q: Queue, e: Entry)
    requires q.expired != [] && e == q.expired[0] && e.addr in q.index.heap && !DoResetOne(q).fault && !q.fault
    ensures var t, r := q.index.heap[e.addr], DoResetOne(q);
      if t.interval > 0 && Id(e.addr, t.sequence) !in q.canceling
      then r.index.heap == q.index.heap[e.addr := Timer(q.now + t.interval, t.interval, t.sequence)]
           && Id(e.addr, t.sequence) in r.index.active
      else r.index.heap == q.index.heap - {e.addr}
  {
  }

  /** What becomes of entry e of the batch in q: the object waits again, or it is deleted. */
  ghost predicate Settles(q: Queue, e: Entry, again: bool, r: Queue)
    requires e.addr in q.index.heap
  {
    var t := q.index.heap[e.addr];
    if t.interval > 0 && again
    then Waits(r, Id(e.addr, t.sequence), Timer(q.now + t.interval, t.interval, t.sequence))
    else e.addr !in r.index.heap
  }

  // ----- all of reset -----

  lemma {:induction false} ResetGone(q: Queue, a: nat)
    requires Inv(q) && q.phase.Resetting? && a !in q.index.heap
    ensures a !in ResetAll(q).index.heap && ResetAll(q).runs == q.runs
    decreases |q.expired|
  {
    if q.expired != [] {
      ResetRound(q);
      StepKeeps(q, ResetOne);
      ResetOneFields(q);
      ResetGone(Step(q, ResetOne), a);
    }
  }

  lemma ResetOneFields(q: Queue)
    requires q.expired != []
    ensures var r := Step(q, ResetOne);
      && r.runs == q.runs && r.now == q.now && r.canceling == q.canceling
      && (forall a :: a in r.index.heap ==> a in q.index.heap)
      && (forall a :: a in q.index.heap && a != q.expired[0].addr ==>
            a in r.index.heap && r.index.heap[a] == q.index.heap[a])
  {
  }

  lemma {:induction false} RoundsAreResets(n: nat)
    ensures |Rounds(n)| == n && forall i :: 0 <= i < |Rounds(n)| ==> Rounds(n)[i] == ResetOne
  {
    if n > 0 { RoundsAreResets(n - 1); }
  }

  lemma ResetLeavesWaiting(q: Queue, id: Id, t: Timer)
    requires Inv(q) && q.phase.Resetting? && Waits(q, id, t)
    ensures Waits(ResetAll(q), id, t)
  {
    var evs := Rounds(|q.expired|);
    RoundsAreResets(|q.expired|);
    assert forall i :: 0 <= i < |evs| ==> Harmless(evs[i], id, t);
    WaitsUntilDue(q, evs, id, t);
    ResetAllIsSteps(q);
  }

  lemma FirstSettles(q: Queue)
    requires Inv(q) && q.phase.Resetting? && q.expired != []
    ensures var e := q.expired[0];
      && e.addr in q.index.heap
      && Settles(q, e, Id(e.addr, q.index.heap[e.addr].sequence) !in q.canceling, ResetAll(q))
  {
    var e, r := q.expired[0], Step(q, ResetOne);
    ResetRound(q);
    StepKeeps(q, ResetOne);
    ResetOneExact(q);
    var t := q.index.heap[e.addr];
    if t.interval > 0 && Id(e.addr, t.sequence) !in q.canceling {
      ResetLeavesWaiting(r, Id(e.addr, t.sequence), Timer(q.now + t.interval, t.interval, t.sequence));
    } else {
      ResetGone(r, e.addr);
    }
  }

  lemma NextRound(q: Queue)
    requires Inv(q) && q.phase.Resetting? && q.expired != []
    ensures var r := Step(q, ResetOne);
      Inv(r) && r.phase.Resetting? && r.expired == q.expired[1..] && ResetAll(q) == ResetAll(r)
  {
    ResetRound(q);
    StepKeeps(q, ResetOne);
  }

  lemma NotFirst(heap: map<nat, Timer>, s: seq<Entry>, e: Entry)
    requires Sorted(s) && Keyed(heap, s) && e in s && e != s[0]
    ensures e in s[1..] && e.addr != s[0].addr && e.addr in heap
  {
    HeadLeaves(heap, s);
    assert s == [s[0]] + s[1..];
    assert e.addr in Addrs(s[1..]);
  }

  /** A later entry is as it was when its round comes. */
  predicate SameFor(q: Queue, r: Queue, e: Entry) {
    && e.addr in q.index.heap && e.addr in r.index.heap && r.index.heap[e.addr] == q.index.heap[e.addr]
    && r.now == q.now && r.canceling == q.canceling
  }

  lemma OtherUnchanged(q: Queue, e: Entry)
    requires Inv(q) && q.phase.Resetting? && e in q.expired && e != q.expired[0]
    ensures e in q.expired[1..] && SameFor(q, Step(q, ResetOne), e)
  {
    NotFirst(q.index.heap, q.expired, e);
    ResetOneFields(q);
  }

  lemma SettlesSame(q: Queue, r: Queue, e: Entry, f: Queue)
    requires SameFor(q, r, e) && Settles(r, e, Id(e.addr, r.index.heap[e.addr].sequence) !in r.canceling, f)
    ensures Settles(q, e, Id(e.addr, q.index.heap[e.addr].sequence) !in q.canceling, f)
  {
  }

  lemma {:induction false} ResetSettles(q: Queue, e: Entry)
    requires Inv(q) && q.phase.Resetting? && e in q.expired
    ensures e.addr in q.index.heap
    ensures Settles(q, e, Id(e.addr, q.index.heap[e.addr].sequence) !in q.canceling, ResetAll(q))
    decreases |q.expired|
  {
    if e == q.expired[0] {
      FirstSettles(q);
    } else {
      NextRound(q);
      OtherUnchanged(q, e);
      ResetSettles(Step(q, ResetOne), e);
      SettlesSame(q, Step(q, ResetOne), e, ResetAll(q));
    }
  }

  // ----- the callbacks -----

  predicate InCallback(ev: Event) { UserOp(ev) || ev.Call? }

  predicate InCallbacks(evs: seq<Event>) { forall i :: 0 <= i < |evs| ==> InCallback(evs[i]) }

  lemma CallbacksInit(evs: seq<Event>)
    requires InCallbacks(evs) && evs != []
    ensures InCallbacks(evs[..|evs| - 1]) && InCallback(evs[|evs| - 1]) && evs[..|evs| - 1] + [evs[|evs| - 1]] == evs
  {
    assert forall i :: 0 <= i < |evs| - 1 ==> evs[..|evs| - 1][i] == evs[i];
  }

  /** What callbacks leave alone of an entry of the batch, and how they cancel it. */
  ghost predicate KeepsEntry(q: Queue, evs: seq<Event>, r: Queue, e: Entry) {
    && r.phase.Calling? && r.expired == q.expired && r.now == q.now && r.batch == q.batch
    && e.addr in q.index.heap && e.addr in r.index.heap && r.index.heap[e.addr] == q.index.heap[e.addr]
    && var id := Id(e.addr, q.index.heap[e.addr].sequence);
       id in r.canceling <==> id in q.canceling || Cancel(id) in evs
  }

  lemma CallingKeeps(q: Queue, ev: Event, e: Entry)
    requires Inv(q) && q.phase.Calling? && e in q.expired && InCallback(ev)
    ensures KeepsEntry(q, [ev], Step(q, ev), e)
  {
    assert e.addr in Addrs(q.expired);
    match ev
    case Cancel(other) => CancelKeepsEntry(q, other, e);
    case _ =>
  }

  lemma CancelKeepsEntry(q: Queue, other: Id, e: Entry)
    requires Inv(q) && q.phase.Calling? && e in q.expired
    ensures KeepsEntry(q, [Cancel(other)], Step(q, Cancel(other)), e)
  {
    assert e.addr in Addrs(q.expired);
    if other in q.index.active { ActiveWaits(q, other); }
  }

  lemma KeepsNothing(q: Queue, e: Entry)
    requires Inv(q) && q.phase.Calling? && e in q.expired
    ensures KeepsEntry(q, [], q, e)
  {
    assert e.addr in Addrs(q.expired);
  }

  lemma KeepsThrough(q: Queue, evs: seq<Event>, p: Queue, ev: Event, e: Entry)
    requires KeepsEntry(q, evs, p, e) && Inv(p) && e in q.expired && InCallback(ev)
    ensures KeepsEntry(q, evs + [ev], Step(p, ev), e)
  {
    CallingKeeps(p, ev, e);
  }

  lemma {:induction false} CallbacksKeep(q: Queue, evs: seq<Event>, e: Entry)
    requires Inv(q) && q.phase.Calling? && e in q.expired && InCallbacks(evs)
    ensures KeepsEntry(q, evs, StepsFrom(q, evs), e)
  {
    if evs == [] {
      KeepsNothing(q, e);
    } else {
      var evs' := evs[..|evs| - 1];
      CallbacksInit(evs);
      CallbacksKeep(q, evs', e);
      StepsKeep(q, evs');
      KeepsThrough(q, evs', StepsFrom(q, evs'), evs[|evs| - 1], e);
    }
  }

  lemma {:induction false} CallsAreCallbacks(scripts: seq<seq<Event>>, n: nat)
    requires AllUserOps(scripts)
    ensures InCallbacks(Calls(scripts, n))
  {
    if n > 0 {
      CallsAreCallbacks(scripts, n - 1);
      var head, tail := Calls(scripts, n - 1), Script(scripts, n - 1);
      assert UserOps(tail);
      assert forall i :: 0 <= i < |tail| ==> UserOp(tail[i]);
      assert Calls(scripts, n) == head + [Call] + tail;
    }
  }

  /** The runs of the first n timers of the batch, each once and in order. */
  function Runs(q: Queue, n: nat): seq<TimerRun>
    requires n <= |q.expired|
  {
    if n == 0 then [] else Runs(q, n - 1) + [TimerRun(q.batch, IdOf(q.index.heap, q.expired[n - 1]).sequence)]
  }

  lemma {:induction false} OpsKeepRuns(q: Queue, ops: seq<Event>)
    requires UserOps(ops)
    ensures StepsFrom(q, ops).runs == q.runs && StepsFrom(q, ops).called == q.called
  {
    if ops != [] {
      var ops' := ops[..|ops| - 1];
      assert forall i :: 0 <= i < |ops'| ==> ops'[i] == ops[i];
      OpsKeepRuns(q, ops');
      assert UserOp(ops[|ops| - 1]);
    }
  }

  /** Between callbacks: k have run, and the next one's timer is still the one of the batch. */
  ghost predicate Ran(q: Queue, c: Queue, k: nat)
    requires k <= |q.expired|
  {
    c.called == k && c.runs == q.runs + Runs(q, k)
  }

  ghost predicate NextIs(q: Queue, c: Queue, k: nat)
    requires k < |q.expired|
  {
    && !c.fault && c.phase.Calling? && c.expired == q.expired && c.batch == q.batch
    && q.expired[k].addr in c.index.heap && IdOf(c.index.heap, q.expired[k]) == IdOf(q.index.heap, q.expired[k])
  }

  lemma BeforeCall(q: Queue, scripts: seq<seq<Event>>, k: nat)
    requires Inv(q) && q.phase.Calling? && k < |q.expired| && AllUserOps(scripts)
    ensures NextIs(q, StepsFrom(q, Calls(scripts, k)), k)
  {
    CallsAreCallbacks(scripts, k);
    StepsKeep(q, Calls(scripts, k));
    CallbacksKeep(q, Calls(scripts, k), q.expired[k]);
  }

  lemma CallRuns(q: Queue, c: Queue, k: nat)
    requires k < |q.expired| && Ran(q, c, k) && NextIs(q, c, k)
    ensures Ran(q, Step(c, Call), k + 1)
  {
  }

  lemma OneCall(q: Queue, scripts: seq<seq<Event>>, k: nat)
    requires k < |q.expired| && AllUserOps(scripts)
    requires Ran(q, StepsFrom(q, Calls(scripts, k)), k) && NextIs(q, StepsFrom(q, Calls(scripts, k)), k)
    ensures Ran(q, StepsFrom(q, Calls(scripts, k + 1)), k + 1)
  {
    var c := StepsFrom(q, Calls(scripts, k));
    CallRuns(q, c, k);
    CallsSnoc(q, scripts, k);
    assert UserOps(Script(scripts, k));
    OpsKeepRuns(Step(c, Call), Script(scripts, k));
  }

  lemma {:induction false} CallsRun(q: Queue, scripts: seq<seq<Event>>, n: nat)
    requires Inv(q) && q.phase.Calling? && q.called == 0 && n <= |q.expired| && AllUserOps(scripts)
    ensures Ran(q, StepsFrom(q, Calls(scripts, n)), n)
  {
    if n > 0 {
      CallsRun(q, scripts, n - 1);
      BeforeCall(q, scripts, n - 1);
      OneCall(q, scripts, n - 1);
    }
  }

  // ----- the dispatch -----

  /** The end of a dispatch, from the state after the callbacks. */
  function Finish(c: Queue, clock: nat): Queue {
    Step(StepsFrom(Step(c, EndCalls), Rounds(|c.expired|)), Rearm(clock))
  }

  lemma FinishFields(c: Queue, clock: nat)
    requires Inv(c) && c.phase.Calling? && c.called == |c.expired|
    ensures var d, f := c.(phase := Resetting), Finish(c, clock);
      && Inv(d) && f == DoRearm(ResetAll(d), clock) && f.index == ResetAll(d).index && f.runs == ResetAll(d).runs
      && f.phase.Idle?
  {
    StepKeeps(c, EndCalls);
    EndFacts(c, clock);
  }

  lemma {:induction false} ResetKeepsRuns(q: Queue)
    requires Inv(q) && q.phase.Resetting?
    ensures ResetAll(q).runs == q.runs
    decreases |q.expired|
  {
    if q.expired != [] {
      ResetRound(q);
      StepKeeps(q, ResetOne);
      ResetOneFields(q);
      ResetKeepsRuns(Step(q, ResetOne));
    }
  }

  lemma FinishSettles(c: Queue, clock: nat, e: Entry)
    requires Inv(c) && c.phase.Calling? && c.called == |c.expired| && e in c.expired && e.addr in c.index.heap
    ensures Settles(c, e, Id(e.addr, c.index.heap[e.addr].sequence) !in c.canceling, Finish(c, clock))
  {
    FinishFields(c, clock);
    ResetSettles(c.(phase := Resetting), e);
  }

  lemma BatchEnds(b: Queue, scripts: seq<seq<Event>>, e: Entry)
    requires Inv(b) && b.phase.Calling? && b.called == 0 && b.canceling == {} && AllUserOps(scripts) && e in b.expired
    ensures var n := |b.expired|;
      var c := StepsFrom(b, Calls(scripts, n));
      && Inv(c) && c.called == n && c.expired == b.expired && KeepsEntry(b, Calls(scripts, n), c, e)
  {
    var n := |b.expired|;
    CallsAreCallbacks(scripts, n);
    CallbacksKeep(b, Calls(scripts, n), e);
    CallsRun(b, scripts, n);
    StepsKeep(b, Calls(scripts, n));
  }

  /** The callbacks and the reset of a batch that has begun in b. */
  lemma BatchSettles(b: Queue, scripts: seq<seq<Event>>, clock: nat, e: Entry)
    requires Inv(b) && b.phase.Calling? && b.called == 0 && b.canceling == {} && AllUserOps(scripts) && e in b.expired
    ensures e.addr in b.index.heap
    ensures var calls := Calls(scripts, |b.expired|);
      Settles(b, e, Cancel(Id(e.addr, b.index.heap[e.addr].sequence)) !in calls, Finish(StepsFrom(b, calls), clock))
  {
    BatchEnds(b, scripts, e);
    FinishSettles(StepsFrom(b, Calls(scripts, |b.expired|)), clock, e);
  }

  lemma {:induction false} CallsKeepBatch(b: Queue, scripts: seq<seq<Event>>, n: nat)
    requires Inv(b) && b.phase.Calling? && AllUserOps(scripts) && n <= |b.expired|
    ensures var c := StepsFrom(b, Calls(scripts, n)); c.phase.Calling? && c.expired == b.expired
  {
    if b.expired != [] {
      CallsAreCallbacks(scripts, n);
      CallbacksKeep(b, Calls(scripts, n), b.expired[0]);
    } else {
      assert Calls(scripts, 0) == [];
    }
  }

  lemma BatchRuns(b: Queue, scripts: seq<seq<Event>>, clock: nat)
    requires Inv(b) && b.phase.Calling? && b.called == 0 && AllUserOps(scripts)
    ensures var f := Finish(StepsFrom(b, Calls(scripts, |b.expired|)), clock);
      f.phase.Idle? && f.runs == b.runs + Runs(b, |b.expired|)
  {
    var n := |b.expired|;
    var c := StepsFrom(b, Calls(scripts, n));
    CallsRun(b, scripts, n);
    CallsKeepBatch(b, scripts, n);
    StepsKeep(b, Calls(scripts, n));
    FinishFields(c, clock);
    ResetKeepsRuns(c.(phase := Resetting));
  }

  lemma BeginsBatch(q: Queue, now: nat)
    requires Inv(q) && q.phase.Idle?
    ensures var b := Step(q, Begin(now));
      && Inv(b) && b.phase.Calling? && b.called == 0 && b.canceling == {} && b.now == now && b.batch == q.batch + 1
      && b.index.heap == q.index.heap && b.runs == q.runs && b.expired == q.index.timers[..Due(q.index, now)]
  {
    BeginFacts(q, now);
  }

  /** handleRead ends Idle, in the state its callbacks and reset leave. */
  lemma DispatchFinishes(q: Queue, now: nat, scripts: seq<seq<Event>>, clock: nat)
    requires Inv(q) && q.phase.Idle? && AllUserOps(scripts)
    ensures var b, n := Step(q, Begin(now)), Due(q.index, now);
      && |b.expired| == n
      && StepsFrom(q, Dispatch(now, scripts, n, clock)) == Finish(StepsFrom(b, Calls(scripts, n)), clock)
  {
    BeginsBatch(q, now);
    CallsKeepBatch(Step(q, Begin(now)), scripts, Due(q.index, now));
    DispatchParts(q, now, scripts, Due(q.index, now), clock);
  }

  /** Of the timers waiting in q the first n are due, and on the way to r exactly these ran, each once and
      in the order of their deadlines. */
  ghost predicate RanDue(q: Queue, now: int, n: nat, r: Queue) {
    && n <= |q.index.timers|
    && (forall k :: 0 <= k < |q.index.timers| ==> (q.index.timers[k].when <= now <==> k < n))
    && |r.runs| == |q.runs| + n && q.runs <= r.runs
    && (forall k :: 0 <= k < n ==>
          r.runs[|q.runs| + k] == TimerRun(q.batch + 1, IdOf(q.index.heap, q.index.timers[k]).sequence))
  }

  /** A whole handleRead runs exactly the due timers, whatever its callbacks add and cancel. */
  lemma DueTimersRun(evs: seq<Event>, now: nat, scripts: seq<seq<Event>>, clock: nat)
    requires Steps(evs).phase.Idle? && AllUserOps(scripts)
    ensures var q, n := Steps(evs), Due(Steps(evs).index, now);
      var r := StepsFrom(q, Dispatch(now, scripts, n, clock)); r.phase.Idle? && RanDue(q, now, n, r)
  {
    StepsKeep(EMPTY, evs);
    DispatchRuns(Steps(evs), now, scripts, clock);
  }

  lemma DueAre(x: Index, now: int)
    requires Agree(x) && forall a :: a in x.heap ==> a < ADDRESS_MAX
    ensures forall k :: 0 <= k < |x.timers| ==> (x.timers[k].when <= now <==> k < Due(x, now))
  {
    forall k | 0 <= k < |x.timers| ensures x.timers[k].when <= now <==> k < Due(x, now) {
      DueAt(x, now, k);
    }
  }

  lemma DispatchRuns(q: Queue, now: nat, scripts: seq<seq<Event>>, clock: nat)
    requires Inv(q) && q.phase.Idle? && AllUserOps(scripts)
    ensures var n := Due(q.index, now);
      var r := StepsFrom(q, Dispatch(now, scripts, n, clock)); r.phase.Idle? && RanDue(q, now, n, r)
  {
    var b, n := Step(q, Begin(now)), Due(q.index, now);
    DueAre(q.index, now);
    BeginsBatch(q, now);
    DispatchFinishes(q, now, scripts, clock);
    BatchRuns(b, scripts, clock);
    RanBatch(q, now, n, b, Finish(StepsFrom(b, Calls(scripts, n)), clock));
  }

  lemma RanBatch(q: Queue, now: int, n: nat, b: Queue, r: Queue)
    requires n <= |q.index.timers| && b.expired == q.index.timers[..n] && b.index.heap == q.index.heap
    requires forall k :: 0 <= k < |q.index.timers| ==> (q.index.timers[k].when <= now <==> k < n)
    requires b.batch == q.batch + 1 && r.runs == q.runs + Runs(b, n)
    ensures RanDue(q, now, n, r)
  {
    RunsAre(b, n);
  }

  /** A timer that is due waits again after the dispatch, for now plus its interval, if it repeats and no callback
      cancels it, even one that runs before or after its own; and else its object is deleted. */
  lemma DueTimersRepeat(evs: seq<Event>, now: nat, scripts: seq<seq<Event>>, clock: nat, id: Id, t: Timer)
    requires Steps(evs).phase.Idle? && AllUserOps(scripts) && Waits(Steps(evs), id, t) && t.expiration <= now
    ensures var q, n := Steps(evs), Due(Steps(evs).index, now);
      var r := StepsFrom(q, Dispatch(now, scripts, n, clock));
      if t.interval > 0 && Cancel(id) !in Calls(scripts, n)
      then Waits(r, id, Timer(now + t.interval, t.interval, t.sequence))
      else id.addr !in r.index.heap
  {
    StepsKeep(EMPTY, evs);
    var q := Steps(evs);
    BeginsBatch(q, now);
    BeginExact(q, now);
    DispatchFinishes(q, now, scripts, clock);
    BatchSettles(Step(q, Begin(now)), scripts, clock, Entry(t.expiration, id.addr));
  }

  /** A timer that is not due waits on through the dispatch, unless a callback cancels it. */
  lemma LaterTimersWaitOn(evs: seq<Event>, now: nat, scripts: seq<seq<Event>>, clock: nat, id: Id, t: Timer)
    requires Steps(evs).phase.Idle? && AllUserOps(scripts) && Waits(Steps(evs), id, t) && now < t.expiration
    requires Cancel(id) !in Calls(scripts, Due(Steps(evs).index, now))
    ensures Waits(StepsFrom(Steps(evs), Dispatch(now, scripts, Due(Steps(evs).index, now), clock)), id, t)
  {
    var n := Due(Steps(evs).index, now);
    StepsKeep(EMPTY, evs);
    DispatchHarmless(now, scripts, n, clock, id, t);
    WaitsUntilDue(Steps(evs), Dispatch(now, scripts, n, clock), id, t);
  }

  lemma DispatchHarmless(now: nat, scripts: seq<seq<Event>>, n: nat, clock: nat, id: Id, t: Timer)
    requires AllUserOps(scripts) && now < t.expiration && Cancel(id) !in Calls(scripts, n)
    ensures var evs := Dispatch(now, scripts, n, clock); forall i :: 0 <= i < |evs| ==> Harmless(evs[i], id, t)
  {
    CallsAreCallbacks(scripts, n);
    RoundsAreResets(n);
    var calls := Calls(scripts, n);
    forall ev | ev in Dispatch(now, scripts, n, clock) ensures Harmless(ev, id, t) {
      if ev in calls {
        var i :| 0 <= i < |calls| && calls[i] == ev;
        assert InCallback(calls[i]);
      }
    }
  }

  lemma {:induction false} RunsAre(q: Queue, n: nat)
    requires n <= |q.expired|
    ensures |Runs(q, n)| == n
    ensures forall k :: 0 <= k < n ==> Runs(q, n)[k] == TimerRun(q.batch, IdOf(q.index.heap, q.expired[k]).sequence)
  {
    if n > 0 { RunsAre(q, n - 1); }
  }
}
