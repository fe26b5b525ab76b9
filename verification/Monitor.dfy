/**
  The two monitors with a pair of condition variables: base/BoundedBlockingQueue.h and
  base/ThreadPool.cc.  Each critical section is one atomic step.  A thread that waits is asleep
  until it is signalled or woken spuriously; a woken thread is on its way to retake the mutex and
  look at the condition again.
 */
module Monitor {

  type Item = nat

  /** What tells the two monitors apart: when the queue counts as full, and whether there is a
      running flag that stop clears. */
  datatype Kind = BoundedQueue(capacity: nat) | Pool(maxQueueSize: nat)

  /** emptyWait: consumers asleep on notEmpty_; emptyWoken: consumers woken from it, not yet back
      in the mutex; the same for producers on notFull_. */
  datatype State = State(
    kind: Kind, queue: seq<Item>, running: bool,
    emptyWait: set<nat>, emptyWoken: set<nat>, fullWait: set<nat>, fullWoken: set<nat>,
    put: seq<Item>, taken: seq<Item>)

  /** t is the calling thread; wake is whom the signal reaches if anybody waits (the system's
      choice).  A put or take by a woken thread is its retry. */
  datatype Event =
    | Put(t: nat, x: Item, wake: nat)
    | Take(t: nat, wake: nat)
    | Spurious(t: nat)
    | Stop

  /** boost::circular_buffer::full, and ThreadPool::isFull. */
  predicate Full(s: State) {
    match s.kind
    case BoundedQueue(capacity) => |s.queue| == capacity
    case Pool(max) => max > 0 && |s.queue| >= max
  }

  predicate Signals(s: State) { s.kind.BoundedQueue? || s.kind.maxQueueSize > 0 }

  predicate Asleep(s: State, t: nat) { t in s.emptyWait || t in s.fullWait }

  /** Condition::notify on notEmpty_: a sleeper, if there is any, is woken. */
  function NotifyEmpty(s: State, wake: nat): State {
    if wake in s.emptyWait then s.(emptyWait := s.emptyWait - {wake}, emptyWoken := s.emptyWoken + {wake}) else s
  }

  function NotifyFull(s: State, wake: nat): State {
    if wake in s.fullWait then s.(fullWait := s.fullWait - {wake}, fullWoken := s.fullWoken + {wake}) else s
  }

  /** A signal reaches one of the sleepers unless nobody sleeps. */
  predicate Reaches(sleepers: set<nat>, wake: nat) { sleepers == {} || wake in sleepers }

  /** put, and ThreadPool::run with threads: wait while full, give up if stopped, else push. */
  function DoPut(s: State, t: nat, x: Item, wake: nat): State {
    var r := s.(fullWoken := s.fullWoken - {t});
    if Full(s) && s.running then r.(fullWait := s.fullWait + {t})
    else if !s.running then r
    else NotifyEmpty(r.(queue := s.queue + [x], put := s.put + [x]), wake)
  }

  /** take: wait while empty and running, then pop if there is anything. */
  function DoTake(s: State, t: nat, wake: nat): State {
    var r := s.(emptyWoken := s.emptyWoken - {t});
    if s.queue == [] then (if s.running then r.(emptyWait := s.emptyWait + {t}) else r)
    else
      var u := r.(queue := s.queue[1..], taken := s.taken + [s.queue[0]]);
      if Signals(s) then NotifyFull(u, wake) else u
  }

  /** ThreadPool::stop. */
  function DoStop(s: State): State {
    s.(running := false, emptyWait := {}, emptyWoken := s.emptyWoken + s.emptyWait,
       fullWait := {}, fullWoken := s.fullWoken + s.fullWait)
  }

  function Step(s: State, e: Event): State {
    match e
    case Put(t, x, wake) =>
      if Asleep(s, t) || t in s.emptyWoken || !Reaches(s.emptyWait, wake) then s else DoPut(s, t, x, wake)
    case Take(t, wake) =>
      if Asleep(s, t) || t in s.fullWoken || !Reaches(s.fullWait, wake) then s else DoTake(s, t, wake)
    case Spurious(t) => NotifyFull(NotifyEmpty(s, t), t)
    case Stop => if s.kind.Pool? then DoStop(s) else s
  }

  function Init(kind: Kind): State { State(kind, [], true, {}, {}, {}, {}, [], []) }

  function Run(kind: Kind, es: seq<Event>): State {
    if es == [] then Init(kind) else Step(Run(kind, es[..|es| - 1]), es[|es| - 1])
  }

  // ----- what every step keeps -----

  function Capacity(s: State): nat { if s.kind.BoundedQueue? then s.kind.capacity else s.kind.maxQueueSize }

  predicate Bounded(s: State) { s.kind.BoundedQueue? || s.kind.maxQueueSize > 0 ==> |s.queue| <= Capacity(s) }

  /** A consumer sleeps only if every queued item has a woken consumer on its way to it; a
      producer only if every free slot has a woken producer on its way. */
  predicate Attended(s: State) {
    && (s.emptyWait != {} ==> |s.queue| <= |s.emptyWoken|)
    && (s.fullWait != {} ==> Signals(s) && Capacity(s) - |s.queue| <= |s.fullWoken|)
  }

  predicate Apart(s: State) {
    s.emptyWait !! s.emptyWoken && s.fullWait !! s.fullWoken
  }

  predicate Stopped(s: State) {
    (s.kind.BoundedQueue? ==> s.running) && (!s.running ==> s.emptyWait == {} && s.fullWait == {})
  }

  predicate InOrder(s: State) { s.taken + s.queue == s.put }

  predicate Inv(s: State) { Bounded(s) && Attended(s) && Apart(s) && Stopped(s) && InOrder(s) }

  lemma PutKeeps(s: State, t: nat, x: Item, wake: nat)
    requires Inv(s) && !Asleep(s, t) && t !in s.emptyWoken && Reaches(s.emptyWait, wake)
    ensures Inv(DoPut(s, t, x, wake))
  {
    assert s.taken + (s.queue + [x]) == s.taken + s.queue + [x];
  }

  lemma TakeKeeps(s: State, t: nat, wake: nat)
    requires Inv(s) && !Asleep(s, t) && t !in s.fullWoken && Reaches(s.fullWait, wake)
    ensures Inv(DoTake(s, t, wake))
  {
    if s.queue != [] {
      assert s.queue == [s.queue[0]] + s.queue[1..];
      assert s.taken + [s.queue[0]] + s.queue[1..] == s.taken + s.queue;
    }
  }

  lemma WakeKeeps(s: State, t: nat)
    requires Inv(s)
    ensures Inv(NotifyEmpty(s, t)) && Inv(NotifyFull(s, t))
  {
  }

  lemma SpuriousKeeps(s: State, t: nat)
    requires Inv(s)
    ensures Inv(NotifyFull(NotifyEmpty(s, t), t))
  {
    WakeKeeps(s, t);
    WakeKeeps(NotifyEmpty(s, t), t);
  }

  lemma StopKeeps(s: State)
    requires Inv(s) && s.kind.Pool?
    ensures Inv(DoStop(s))
  {
  }

  lemma StepKeeps(s: State, e: Event)
    requires Inv(s)
    ensures Inv(Step(s, e)) && Step(s, e).kind == s.kind
  {
    match e
    case Put(t, x, wake) =>
      if !Asleep(s, t) && t !in s.emptyWoken && Reaches(s.emptyWait, wake) { PutKeeps(s, t, x, wake); }
    case Take(t, wake) =>
      if !Asleep(s, t) && t !in s.fullWoken && Reaches(s.fullWait, wake) { TakeKeeps(s, t, wake); }
    case Spurious(t) => SpuriousKeeps(s, t);
    case Stop => if s.kind.Pool? { StopKeeps(s); }
  }

  lemma {:induction false} RunKeeps(kind: Kind, es: seq<Event>)
    ensures Inv(Run(kind, es)) && Run(kind, es).kind == kind
  {
    if es != [] {
      RunKeeps(kind, es[..|es| - 1]);
      StepKeeps(Run(kind, es[..|es| - 1]), es[|es| - 1]);
    }
  }

  // ----- what the calls say -----

  /** A put that comes through: by a thread that is not asleep or on its way to a take, with room in the queue,
      before stop; if consumers sleep, the signal reaches one. */
  predicate Puts(s: State, e: Event) {
    && e.Put? && e.t !in s.emptyWait && e.t !in s.fullWait && e.t !in s.emptyWoken
    && (s.emptyWait == {} || e.wake in s.emptyWait) && s.running
    && match s.kind
       case BoundedQueue(capacity) => |s.queue| < capacity
       case Pool(max) => max == 0 || |s.queue| < max
  }

  /** A take that comes through: something is queued. */
  predicate Takes(s: State, e: Event) {
    && e.Take? && e.t !in s.emptyWait && e.t !in s.fullWait && e.t !in s.fullWoken
    && (s.fullWait == {} || e.wake in s.fullWait) && s.queue != []
  }

  /** The items handed to puts that came through, and how many takes have. */
  function Offered(kind: Kind, es: seq<Event>): seq<Item> {
    if es == [] then []
    else
      var before, last := es[..|es| - 1], es[|es| - 1];
      Offered(kind, before) + if Puts(Run(kind, before), last) then [last.x] else []
  }

  function Served(kind: Kind, es: seq<Event>): nat {
    if es == [] then 0
    else Served(kind, es[..|es| - 1]) + if Takes(Run(kind, es[..|es| - 1]), es[|es| - 1]) then 1 else 0
  }

  lemma StepPuts(s: State, e: Event)
    requires Inv(s)
    ensures Step(s, e).put == s.put + if Puts(s, e) then [e.x] else []
    ensures |Step(s, e).taken| == |s.taken| + if Takes(s, e) then 1 else 0
  {
    assert s.put + [] == s.put;
  }

  lemma {:induction false} PutIsOffered(kind: Kind, es: seq<Event>)
    ensures Run(kind, es).put == Offered(kind, es) && |Run(kind, es).taken| == Served(kind, es)
  {
    if es != [] {
      PutIsOffered(kind, es[..|es| - 1]);
      RunKeeps(kind, es[..|es| - 1]);
      StepPuts(Run(kind, es[..|es| - 1]), es[|es| - 1]);
    }
  }

  /** A call that must wait goes to sleep and changes nothing else: a put on a full queue, a take on an
      empty one, before stop. */
  lemma WaitersSleep(s: State, t: nat, x: Item, wake: nat)
    requires Inv(s) && !Asleep(s, t) && s.running
    ensures t !in s.emptyWoken && Full(s) && Reaches(s.emptyWait, wake) ==>
      Step(s, Put(t, x, wake)) == s.(fullWait := s.fullWait + {t}, fullWoken := s.fullWoken - {t})
    ensures t !in s.fullWoken && s.queue == [] && Reaches(s.fullWait, wake) ==>
      Step(s, Take(t, wake)) == s.(emptyWait := s.emptyWait + {t}, emptyWoken := s.emptyWoken - {t})
  {
  }

  // ----- the theorems, for every interleaving -----

  /** What has been taken, followed by what is queued, is what was put by the calls that came through, in
      order, and each take that came through has taken one; and a bounded queue never holds more than its
      capacity. */
  lemma FifoAndBounded(kind: Kind, es: seq<Event>)
    ensures var s := Run(kind, es);
      && s.taken + s.queue == Offered(kind, es) && |s.taken| == Served(kind, es)
      && (kind.BoundedQueue? ==> |s.queue| <= kind.capacity)
      && (kind.Pool? && kind.maxQueueSize > 0 ==> |s.queue| <= kind.maxQueueSize)
  {
    RunKeeps(kind, es);
    PutIsOffered(kind, es);
  }

  /** Nobody is forgotten: while a consumer sleeps there are at least as many woken consumers as
      queued items, and while a producer sleeps at least as many woken producers as free slots. */
  lemma SleepersAttended(kind: Kind, es: seq<Event>)
    ensures var s := Run(kind, es);
      && (s.emptyWait != {} ==> |s.queue| <= |s.emptyWoken|)
      && (s.fullWait != {} ==> Signals(s) && Capacity(s) - |s.queue| <= |s.fullWoken|)
      && (s.emptyWait != {} && s.emptyWoken == {} ==> s.queue == [])
      && (s.fullWait != {} && s.fullWoken == {} ==> Full(s))
  {
    RunKeeps(kind, es);
  }

  predicate AllAsleep(s: State) {
    s.emptyWait != {} && s.fullWait != {} && s.emptyWoken == {} && s.fullWoken == {}
  }

  predicate Deadlocks(kind: Kind, es: seq<Event>) { AllAsleep(Run(kind, es)) }

  /** No deadlock with positive capacity: consumers and producers are never all asleep together
      with nobody woken; and after ThreadPool::stop nobody sleeps at all. */
  lemma NotAllAsleep(kind: Kind, es: seq<Event>)
    ensures var s := Run(kind, es);
      && (AllAsleep(s) ==> Capacity(s) == 0)
      && (!s.running ==> s.emptyWait == {} && s.fullWait == {})
  {
    RunKeeps(kind, es);
  }

  /** The positive capacity is needed, for all capacities exactly: everybody can be asleep with
      nobody woken if and only if the capacity of the bounded queue is zero. */
  lemma DeadlockIffNoCapacity(capacity: nat)
    ensures (exists es: seq<Event> :: Deadlocks(BoundedQueue(capacity), es)) <==> capacity == 0
  {
    if capacity == 0 {
      var es := ZeroCapacityDeadlocks();
      assert Deadlocks(BoundedQueue(capacity), es);
    } else {
      forall es: seq<Event> ensures !Deadlocks(BoundedQueue(capacity), es) {
        NotAllAsleep(BoundedQueue(capacity), es);
        RunKeeps(BoundedQueue(capacity), es);
      }
    }
  }

  lemma ZeroCapacityDeadlocks() returns (es: seq<Event>)
    ensures Deadlocks(BoundedQueue(0), es)
  {
    var kind := BoundedQueue(0);
    var e1, e2 := Take(1, 0), Put(2, 7, 1);
    es := [e1, e2];
    assert es[..1] == [e1] && [e1][..0] == [];
    assert Run(kind, []) == Init(kind);
    assert Run(kind, [e1]) == Step(Init(kind), e1);
    var s := Run(kind, es);
    assert s == Step(Step(Init(kind), e1), e2);
    assert s.emptyWait == {1} && s.fullWait == {2};
  }

  /** After stop, a run() adds nothing and a take() of an empty queue returns at once, so that a
      worker that looks at the flag leaves its loop. */
  lemma StoppedForGood(kind: Kind, es: seq<Event>, e: Event)
    requires !Run(kind, es).running
    ensures var s, r := Run(kind, es), Run(kind, es + [e]);
      !r.running && r.put == s.put && r.emptyWait == {} && r.fullWait == {} && |r.queue| <= |s.queue|
  {
    RunKeeps(kind, es);
    RunKeeps(kind, es + [e]);
    assert (es + [e])[..|es|] == es;
  }
}
