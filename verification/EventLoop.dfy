/**
  The functor queue and the wake-up of net/EventLoop.cc as interleaved atomic steps of the loop
  thread and of any number of other threads.  The eventfd is a saturating counter; a poll may
  return at any time, and is forced to return when the counter is positive.
 */
module EventLoop {

  const EVENTFD_MAX := 0xFFFF_FFFF_FFFF_FFFE

  type Functor = nat   // a name

  datatype Pc =
    | Outside                  // not in loop()
    | AtCheck                  // about to read quit_
    | BeforePoll               // has read quit_ as false; about to block in poll
    | Handling                 // between poll and doPendingFunctors
    | Draining(rest: seq<Functor>, owes: bool)
                               // in doPendingFunctors after the swap; owes: between the push and
                               // the wakeup of a queueInLoop made by a functor

  /** swaps counts the batches taken so far; a push remembers how many there had been, an
      execution to which batch it belongs. */
  datatype Push = Push(f: Functor, swaps: nat)
  datatype Exec = Exec(f: Functor, batch: nat)

  datatype Loop = Loop(
    pc: Pc, quit: bool, pending: seq<Functor>, eventfd: nat,
    pushing: set<nat>,         // threads between the push and the wakeup of queueInLoop
    quitting: set<nat>,        // threads between the store and the wakeup of quit
    // history; strayed: all that is pending, if anything, was queued by the loop thread outside loop()
    swaps: nat, pushed: seq<Push>, executed: seq<Exec>, strayed: bool)

  datatype Event =
    // other threads
    | PushBy(t: nat, f: Functor) | QuitBy(t: nat) | WakeBy(t: nat)
    // the loop thread
    | EnterLoop | Check | PollReturns | HandleWakeup
    | PushHere(f: Functor) | WakeHere | QuitHere
    | Swap | RunOne | EndBatch

  function Enqueue(s: Loop, f: Functor): Loop {
    s.(pending := s.pending + [f], pushed := s.pushed + [Push(f, s.swaps)], strayed := false)
  }

  function Wakeup(s: Loop): Loop { s.(eventfd := if s.eventfd < EVENTFD_MAX then s.eventfd + 1 else s.eventfd) }

  predicate Busy(s: Loop) { s.pc.Draining? && s.pc.owes }

  function Step(s: Loop, e: Event): Loop {
    match e
    case PushBy(t, f) =>
      if t !in s.pushing && t !in s.quitting then Enqueue(s, f).(pushing := s.pushing + {t}) else s
    case QuitBy(t) =>
      if t !in s.pushing && t !in s.quitting then s.(quit := true, quitting := s.quitting + {t}) else s
    case WakeBy(t) =>
      if t in s.pushing || t in s.quitting
      then Wakeup(s).(pushing := s.pushing - {t}, quitting := s.quitting - {t}) else s
    case EnterLoop => if s.pc.Outside? then s.(pc := AtCheck, quit := false) else s
    case Check => if s.pc.AtCheck? then s.(pc := if s.quit then Outside else BeforePoll) else s
    case PollReturns => if s.pc.BeforePoll? then s.(pc := Handling) else s
    case HandleWakeup => if s.pc.Handling? then s.(eventfd := 0) else s
    case PushHere(f) =>
      if s.pc.Handling? then Enqueue(s, f)
      else if s.pc.Draining? && !s.pc.owes then Enqueue(s, f).(pc := s.pc.(owes := true))
      else if s.pc.Outside? then Enqueue(s, f).(strayed := s.pending == [] || s.strayed)
      else s
    case WakeHere => if Busy(s) then Wakeup(s).(pc := s.pc.(owes := false)) else s
    case QuitHere => if s.pc.Handling? || (s.pc.Draining? && !s.pc.owes) then s.(quit := true) else s
    case Swap =>
      if s.pc.Handling? then s.(pc := Draining(s.pending, false), pending := [], swaps := s.swaps + 1, strayed := false)
      else s
    case RunOne =>
      if s.pc.Draining? && !s.pc.owes && s.pc.rest != []
      then s.(pc := s.pc.(rest := s.pc.rest[1..]), executed := s.executed + [Exec(s.pc.rest[0], s.swaps)])
      else s
    case EndBatch => if s.pc.Draining? && !s.pc.owes && s.pc.rest == [] then s.(pc := AtCheck) else s
  }

  const INIT := Loop(Outside, false, [], 0, {}, {}, 0, [], [], false)

  function RunFrom(s: Loop, es: seq<Event>): Loop {
    if es == [] then s else Step(RunFrom(s, es[..|es| - 1]), es[|es| - 1])
  }

  function Run(es: seq<Event>): Loop { RunFrom(INIT, es) }

  // ----- no lost wake-up -----

  predicate Awake(s: Loop) {
    && (s.pending != [] && !s.pc.Handling? && !s.strayed ==> s.eventfd > 0 || s.pushing != {} || Busy(s))
    && (s.quit && s.pc.BeforePoll? ==> s.eventfd > 0 || s.quitting != {})
  }

  lemma StepAwake(s: Loop, e: Event)
    requires Awake(s)
    ensures Awake(Step(s, e))
  {
    match e
    case PushBy(t, _) => assert t in s.pushing + {t};
    case QuitBy(t) => assert t in s.quitting + {t};
    case _ =>
  }

  lemma {:induction false} RunAwake(s: Loop, es: seq<Event>)
    requires Awake(s)
    ensures Awake(RunFrom(s, es))
  {
    if es != [] {
      RunAwake(s, es[..|es| - 1]);
      StepAwake(RunFrom(s, es[..|es| - 1]), es[|es| - 1]);
    }
  }

  /** In every interleaving: when the loop is about to block in poll while functors are pending or
      quit has been asked for, the eventfd is readable, or a thread is on its way to make it so; for
      the functors, unless all of those pending were queued by the loop thread outside loop(). */
  lemma NoLostWakeup(es: seq<Event>)
    ensures var s := Run(es);
      && (s.pc.BeforePoll? && s.pending != [] && !s.strayed ==> s.eventfd > 0 || s.pushing != {})
      && (s.pc.BeforePoll? && s.quit ==> s.eventfd > 0 || s.quitting != {})
  {
    RunAwake(INIT, es);
  }

  lemma ThreeSteps(s: Loop, a: Event, b: Event, c: Event)
    ensures RunFrom(s, [a, b, c]) == Step(Step(Step(s, a), b), c)
  {
    assert [a, b, c][..2] == [a, b] && [a, b][..1] == [a] && [a][..0] == [];
    assert RunFrom(s, []) == s;
    assert RunFrom(s, [a]) == Step(s, a);
    assert RunFrom(s, [a, b]) == Step(Step(s, a), b);
  }

  /** The proviso is needed: a functor queued on the loop thread before loop() wakes nobody. */
  lemma StrayPushSleeps(f: Functor)
    ensures var s := Run([PushHere(f), EnterLoop, Check]);
      s.pc.BeforePoll? && s.pending == [f] && s.eventfd == 0 && s.pushing == {} && s.quitting == {}
  {
    ThreeSteps(INIT, PushHere(f), EnterLoop, Check);
  }

  // ----- quit -----

  /** A quit asked for before loop() is lost: loop() overwrites it and goes on to poll. */
  lemma QuitBeforeLoopLost(t: nat)
    ensures var s := Run([QuitBy(t), WakeBy(t), EnterLoop, Check]); s.pc.BeforePoll? && !s.quit && s.quitting == {}
  {
    var es := [QuitBy(t), WakeBy(t), EnterLoop, Check];
    assert es[..3] == [QuitBy(t), WakeBy(t), EnterLoop];
    ThreeSteps(INIT, QuitBy(t), WakeBy(t), EnterLoop);
  }

  /** A quit is stored whenever it is called, by the loop thread in a callback or a functor or by another
      thread, which is then on its way to wake the loop. */
  lemma QuitStored(s: Loop, e: Event)
    requires e.QuitBy? || e.QuitHere?
    requires e.QuitBy? ==> e.t !in s.pushing && e.t !in s.quitting
    requires e.QuitHere? ==> s.pc.Handling? || (s.pc.Draining? && !s.pc.owes)
    ensures Step(s, e).quit && Step(s, e).pc == s.pc && (e.QuitBy? ==> e.t in Step(s, e).quitting)
  {
  }

  /** A thread on its way to wake the loop arrives with its next step, and so does the loop thread in a functor;
      the eventfd is then readable. */
  lemma WakeupArrives(s: Loop, t: nat)
    ensures t in s.pushing || t in s.quitting ==>
      var r := Step(s, WakeBy(t)); r.eventfd > 0 && t !in r.pushing && t !in r.quitting && r.pending == s.pending
    ensures s.pc.Draining? && s.pc.owes ==>
      var r := Step(s, WakeHere); r.eventfd > 0 && r.pc == Draining(s.pc.rest, false) && r.pending == s.pending
  {
  }

  /** The rounds the loop may still take once it has been told to quit. */
  function RoundsLeft(pc: Pc): nat { if pc.BeforePoll? || pc.Handling? then 1 else 0 }

  predicate Leaving(s: Loop, r: Loop) {
    r.quit && !r.pc.Outside? && r.swaps + RoundsLeft(r.pc) <= s.swaps + RoundsLeft(s.pc)
  }

  predicate LeftBy(s: Loop, es: seq<Event>, k: nat)
    requires k <= |es|
  {
    RunFrom(s, es[..k]).pc.Outside?
  }

  /** A quit stored once loop() has begun is heeded: whatever happens next, the loop leaves, or it has so
      far taken at most the one batch it was on its way to; and at its next look at quit_ it leaves. */
  lemma {:induction false} QuitHeeded(s: Loop, es: seq<Event>)
    requires s.quit && !s.pc.Outside?
    ensures (exists k :: 0 <= k <= |es| && LeftBy(s, es, k)) || Leaving(s, RunFrom(s, es))
    ensures var r := RunFrom(s, es); Leaving(s, r) && r.pc.AtCheck? ==> Step(r, Check).pc.Outside?
  {
    if es != [] {
      var es' := es[..|es| - 1];
      QuitHeeded(s, es');
      if exists k :: 0 <= k <= |es'| && LeftBy(s, es', k) {
        var k :| 0 <= k <= |es'| && LeftBy(s, es', k);
        assert es'[..k] == es[..k];
        assert LeftBy(s, es, k);
      } else if RunFrom(s, es).pc.Outside? {
        assert es[..|es|] == es;
        assert LeftBy(s, es, |es|);
      }
    }
  }

  // ----- order and exactly-once -----

  function Rest(s: Loop): seq<Functor> { if s.pc.Draining? then s.pc.rest else [] }

  function Names(ps: seq<Push>): seq<Functor> {
    if ps == [] then [] else Names(ps[..|ps| - 1]) + [ps[|ps| - 1].f]
  }

  function Done(xs: seq<Exec>): seq<Functor> {
    if xs == [] then [] else Done(xs[..|xs| - 1]) + [xs[|xs| - 1].f]
  }

  lemma Snoc(ps: seq<Push>, p: Push, xs: seq<Exec>, x: Exec)
    ensures Names(ps + [p]) == Names(ps) + [p.f] && Done(xs + [x]) == Done(xs) + [x.f]
  {
    assert (ps + [p])[..|ps|] == ps && (xs + [x])[..|xs|] == xs;
  }

  /** A call of queueInLoop that does happen: a thread makes one call at a time, and the loop thread calls
      from outside loop(), from an event callback, or from a functor. */
  predicate Hands(s: Loop, e: Event) {
    match e
    case PushBy(t, _) => t !in s.pushing && t !in s.quitting
    case PushHere(_) => s.pc.Outside? || s.pc.Handling? || (s.pc.Draining? && !s.pc.owes)
    case _ => false
  }

  /** The functors handed to queueInLoop, in order. */
  function Handed(es: seq<Event>): seq<Functor> {
    if es == [] then []
    else
      var before, last := es[..|es| - 1], es[|es| - 1];
      Handed(before) + if Hands(Run(before), last) then [last.f] else []
  }

  lemma StepPushes(s: Loop, e: Event)
    ensures Step(s, e).pushed == s.pushed + if Hands(s, e) then [Push(e.f, s.swaps)] else []
  {
    assert s.pushed + [] == s.pushed;
  }

  /** The record of the pushes is what was handed over. */
  lemma {:induction false} PushedIsHanded(es: seq<Event>)
    ensures Names(Run(es).pushed) == Handed(es)
  {
    if es != [] {
      var before, last := es[..|es| - 1], es[|es| - 1];
      PushedIsHanded(before);
      StepPushes(Run(before), last);
      if Hands(Run(before), last) {
        Snoc(Run(before).pushed, Push(last.f, Run(before).swaps), [], Exec(0, 0));
      } else {
        assert Run(es).pushed == Run(before).pushed && Handed(before) + [] == Handed(before);
      }
    }
  }

  predicate InOrder(s: Loop) { Done(s.executed) + Rest(s) + s.pending == Names(s.pushed) }

  lemma StepInOrder(s: Loop, e: Event)
    requires InOrder(s)
    ensures InOrder(Step(s, e))
  {
    match e
    case PushBy(_, f) => EnqueueInOrder(s, f);
    case PushHere(f) => EnqueueInOrder(s, f);
    case Swap => SwapInOrder(s);
    case RunOne => if s.pc.Draining? && s.pc.rest != [] { RunOneInOrder(s); }
    case _ =>
  }

  lemma SwapInOrder(s: Loop)
    requires InOrder(s)
    ensures InOrder(Step(s, Swap))
  {
    if s.pc.Handling? {
      assert Rest(s) == [];
      assert Done(s.executed) + [] == Done(s.executed);
      assert Done(s.executed) + s.pending + [] == Done(s.executed) + s.pending;
    }
  }

  lemma RunOneDone(s: Loop)
    requires s.pc.Draining? && !s.pc.owes && s.pc.rest != []
    ensures Done(Step(s, RunOne).executed) == Done(s.executed) + [s.pc.rest[0]]
  {
    Snoc([], Push(0, 0), s.executed, Exec(s.pc.rest[0], s.swaps));
  }

  lemma Shift(a: seq<Functor>, r: seq<Functor>, p: seq<Functor>)
    requires r != []
    ensures a + r + p == a + [r[0]] + r[1..] + p
  {
    assert r == [r[0]] + r[1..];
  }

  lemma RunOneInOrder(s: Loop)
    requires InOrder(s) && s.pc.Draining? && s.pc.rest != []
    ensures InOrder(Step(s, RunOne))
  {
    if !s.pc.owes {
      RunOneDone(s);
      Shift(Done(s.executed), s.pc.rest, s.pending);
    }
  }

  lemma EnqueueInOrder(s: Loop, f: Functor)
    requires InOrder(s)
    ensures Done(s.executed) + Rest(s) + Enqueue(s, f).pending == Names(Enqueue(s, f).pushed)
  {
    Snoc(s.pushed, Push(f, s.swaps), [], Exec(0, 0));
    assert Done(s.executed) + Rest(s) + (s.pending + [f]) == Done(s.executed) + Rest(s) + s.pending + [f];
  }

  /** How many functors the batches taken so far hold. */
  function Swapped(s: Loop): nat { |s.executed| + |Rest(s)| }

  /** The functors of the batches taken were queued before the last of them, the others since. */
  ghost predicate Batched(s: Loop) {
    && |s.pushed| == Swapped(s) + |s.pending|
    && (forall i :: 0 <= i < Swapped(s) ==> s.pushed[i].swaps < s.swaps)
    && (forall i :: Swapped(s) <= i < |s.pushed| ==> s.pushed[i].swaps == s.swaps)
    && (forall i :: 0 <= i < |s.executed| ==> s.pushed[i].swaps < s.executed[i].batch)
  }

  lemma EnqueueBatched(s: Loop, f: Functor)
    requires Batched(s)
    ensures var r := Enqueue(s, f);
      && |r.pushed| == Swapped(s) + |r.pending|
      && (forall i :: 0 <= i < Swapped(s) ==> r.pushed[i].swaps < s.swaps)
      && (forall i :: Swapped(s) <= i < |r.pushed| ==> r.pushed[i].swaps == s.swaps)
  {
  }

  lemma SwapBatched(s: Loop)
    requires Batched(s)
    ensures Batched(Step(s, Swap))
  {
  }

  lemma RunOneBatched(s: Loop)
    requires Batched(s)
    ensures Batched(Step(s, RunOne))
  {
    if s.pc.Draining? && !s.pc.owes && s.pc.rest != [] {
      assert Swapped(Step(s, RunOne)) == Swapped(s);
    }
  }

  lemma OtherBatched(s: Loop, e: Event)
    requires Batched(s) && !e.PushBy? && !e.PushHere? && !e.Swap? && !e.RunOne?
    ensures Batched(Step(s, e))
  {
    var r := Step(s, e);
    assert r.pushed == s.pushed && r.pending == s.pending && r.executed == s.executed && r.swaps == s.swaps;
    assert Rest(r) == Rest(s);
  }

  lemma StepBatched(s: Loop, e: Event)
    requires Batched(s)
    ensures Batched(Step(s, e))
  {
    match e
    case PushBy(_, f) => EnqueueBatched(s, f);
    case PushHere(f) => EnqueueBatched(s, f);
    case Swap => SwapBatched(s);
    case RunOne => RunOneBatched(s);
    case _ => OtherBatched(s, e);
  }

  lemma {:induction false} RunOrdered(s: Loop, es: seq<Event>)
    requires InOrder(s) && Batched(s)
    ensures InOrder(RunFrom(s, es)) && Batched(RunFrom(s, es))
  {
    if es != [] {
      RunOrdered(s, es[..|es| - 1]);
      StepInOrder(RunFrom(s, es[..|es| - 1]), es[|es| - 1]);
      StepBatched(RunFrom(s, es[..|es| - 1]), es[|es| - 1]);
    }
  }

  /** In every interleaving the functors executed, those of the current batch still to run, and
      those pending are together the functors handed to queueInLoop, in the order of the calls: each
      runs at most once and in order, and in a batch taken after it was queued. */
  lemma FunctorsInOrder(es: seq<Event>)
    ensures var s := Run(es);
      && Done(s.executed) + Rest(s) + s.pending == Handed(es) && Names(s.pushed) == Handed(es)
      && |s.executed| <= |s.pushed|
      && (forall i :: 0 <= i < |s.executed| ==> s.pushed[i].swaps < s.executed[i].batch)
  {
    RunOrdered(INIT, es);
    PushedIsHanded(es);
  }

  // ----- progress -----

  lemma {:induction false} NamesPrefix(a: seq<Push>, b: seq<Push>)
    requires a <= b
    ensures Names(a) <= Names(b) && |Names(b)| == |b|
    decreases |b|
  {
    if |a| == |b| {
      NamesSize(b);
      assert a == b;
    } else {
      NamesPrefix(a, b[..|b| - 1]);
    }
  }

  lemma {:induction false} NamesSize(a: seq<Push>)
    ensures |Names(a)| == |a|
  {
    if a != [] { NamesSize(a[..|a| - 1]); }
  }

  lemma {:induction false} DoneSize(xs: seq<Exec>)
    ensures |Done(xs)| == |xs|
  {
    if xs != [] { DoneSize(xs[..|xs| - 1]); }
  }

  lemma StepGrows(s: Loop, e: Event)
    ensures s.pushed <= Step(s, e).pushed && s.swaps <= Step(s, e).swaps
  {
  }

  lemma {:induction false} PushedGrows(s: Loop, es: seq<Event>)
    ensures s.pushed <= RunFrom(s, es).pushed && s.swaps <= RunFrom(s, es).swaps
  {
    if es != [] {
      PushedGrows(s, es[..|es| - 1]);
      StepGrows(RunFrom(s, es[..|es| - 1]), es[|es| - 1]);
    }
  }

  /** In every interleaving, whenever the loop is not in the middle of a batch, the functors executed
      are exactly those queued before the last batch was taken, in order. */
  lemma BatchesComplete(es: seq<Event>)
    requires !Run(es).pc.Draining?
    ensures var s := Run(es);
      && Done(s.executed) <= Handed(es)
      && forall i :: 0 <= i < |s.pushed| ==> (s.pushed[i].swaps < s.swaps <==> i < |s.executed|)
  {
    RunOrdered(INIT, es);
    PushedIsHanded(es);
    BetweenBatches(Run(es));
  }

  lemma BetweenBatches(s: Loop)
    requires InOrder(s) && Batched(s) && !s.pc.Draining?
    ensures Done(s.executed) <= Names(s.pushed)
    ensures forall i :: 0 <= i < |s.pushed| ==> (s.pushed[i].swaps < s.swaps <==> i < |s.executed|)
  {
    assert Done(s.executed) + [] + s.pending == Done(s.executed) + s.pending;
  }

  lemma RoundDone(s: Loop, r: Loop)
    requires Batched(s) && InOrder(r) && Batched(r) && !r.pc.Draining? && s.pushed <= r.pushed && s.swaps < r.swaps
    ensures Names(s.pushed) <= Done(r.executed)
  {
    BetweenBatches(r);
    NamesPrefix(s.pushed, r.pushed);
    NamesSize(s.pushed);
    DoneSize(r.executed);
    if s.pushed != [] {
      assert s.pushed[|s.pushed| - 1] == r.pushed[|s.pushed| - 1];
    }
  }

  /** Whatever else happens, once another batch has been taken and finished, all that was queued
      before has been executed. */
  lemma RoundRunsPending(es: seq<Event>, more: seq<Event>)
    requires Run(es + more).swaps > Run(es).swaps && !Run(es + more).pc.Draining?
    ensures Handed(es) <= Done(Run(es + more).executed)
  {
    PushedIsHanded(es);
    RunAppend(INIT, es, more);
    PushedGrows(Run(es), more);
    RunOrdered(INIT, es);
    RunOrdered(INIT, es + more);
    RoundDone(Run(es), Run(es + more));
  }

  function Ones(n: nat): seq<Event> { if n == 0 then [] else Ones(n - 1) + [RunOne] }

  lemma {:induction false} DrainBatch(s: Loop, n: nat)
    requires s.pc.Draining? && !s.pc.owes && n <= |s.pc.rest|
    ensures var r := RunFrom(s, Ones(n));
      && r.pc == Draining(s.pc.rest[n..], false) && r.pending == s.pending && r.pushed == s.pushed
      && r.eventfd == s.eventfd
      && Done(r.executed) == Done(s.executed) + s.pc.rest[..n]
  {
    if n > 0 {
      DrainBatch(s, n - 1);
      assert Ones(n)[..|Ones(n)| - 1] == Ones(n - 1);
      RunOneDone(RunFrom(s, Ones(n - 1)));
      Advance(Done(s.executed), s.pc.rest, n);
    }
  }

  lemma Advance(a: seq<Functor>, r: seq<Functor>, n: nat)
    requires 0 < n <= |r|
    ensures a + r[..n - 1] + [r[n - 1..][0]] == a + r[..n] && r[n - 1..][1..] == r[n..]
  {
    assert r[..n] == r[..n - 1] + [r[n - 1]];
  }

  lemma {:induction false} RunAppend(s: Loop, a: seq<Event>, b: seq<Event>)
    ensures RunFrom(s, a + b) == RunFrom(RunFrom(s, a), b)
  {
    if b == [] {
      assert a + b == a;
    } else {
      RunAppend(s, a, b[..|b| - 1]);
      assert (a + b)[..|a + b| - 1] == a + b[..|b| - 1];
    }
  }

  lemma ComesBack(r: Loop)
    requires r.pc == Draining([], false)
    ensures Step(Step(r, EndBatch), Check).pc == if r.quit then Outside else BeforePoll
  {
  }

  lemma SoloRound(s: Loop)
    requires s.pc.BeforePoll?
    ensures var r := RunFrom(RunFrom(s, [PollReturns, HandleWakeup, Swap]), Ones(|s.pending|));
      Done(r.executed) == Done(s.executed) + s.pending && r.eventfd == 0 && r.pc == Draining([], false)
  {
    ThreeSteps(s, PollReturns, HandleWakeup, Swap);
    DrainBatch(RunFrom(s, [PollReturns, HandleWakeup, Swap]), |s.pending|);
    assert s.pending[..|s.pending|] == s.pending;
  }

  /** And the loop can always get there alone: once poll returns, its own next steps execute everything
      that has been queued by then, and bring it back to poll, with the eventfd read, or out of loop(). */
  lemma SoloRoundRunsPending(es: seq<Event>)
    requires Run(es).pc.BeforePoll?
    ensures var s := Run(es);
      var r := Run(es + [PollReturns, HandleWakeup, Swap] + Ones(|s.pending|));
      && Done(r.executed) == Handed(es) && Done(r.executed) == Done(s.executed) + s.pending && r.eventfd == 0
      && Step(Step(r, EndBatch), Check).pc == if r.quit then Outside else BeforePoll
  {
    var a, b := [PollReturns, HandleWakeup, Swap], Ones(|Run(es).pending|);
    SoloRound(Run(es));
    RunAppend(INIT, es, a);
    RunAppend(INIT, es + a, b);
    AllPending(es);
    ComesBack(Run(es + a + b));
  }

  lemma AllPending(es: seq<Event>)
    requires Run(es).pc.BeforePoll?
    ensures Done(Run(es).executed) + Run(es).pending == Handed(es)
  {
    FunctorsInOrder(es);
    assert Done(Run(es).executed) + [] == Done(Run(es).executed);
  }
}
