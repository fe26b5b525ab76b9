/** The life of a connection under one server on one loop: states, user callbacks, the server's
    table entry, connectDestroyed, and the calls its channel makes to the poller. */
module Lifecycle {
  import opened Bytes
  import opened Connection
  import opened NetChannel

  /** How far a channel has got with the poller; Illegal marks a call some poller asserts against. */
  datatype Phase = New | Active(read: bool, write: bool) | Gone | Illegal

  function PhaseAfter(p: Phase, k: PollerCall): Phase {
    match k
    case Update(r, w) => if p.Active? || (p.New? && (r || w)) then Active(r, w) else Illegal
    case Remove => if p == Active(false, false) then Gone else Illegal
  }

  function PhaseOf(calls: seq<PollerCall>): Phase {
    if calls == [] then New else PhaseAfter(PhaseOf(calls[..|calls| - 1]), calls[|calls| - 1])
  }

  lemma PhaseAppend(calls: seq<PollerCall>, k: PollerCall)
    ensures PhaseOf(calls + [k]) == PhaseAfter(PhaseOf(calls), k)
  {
    assert (calls + [k])[..|calls|] == calls;
  }

  /** connectDestroyed functors waiting in the loop. */
  function Waiting(q: seq<Functor>): nat { multiset(q)[DestroyF] }

  predicate Tracked(c: Conn) { PhaseOf(c.log.poller) == Active(c.readInterest, c.link.writing) }

  /** The shape of an unblamed connection. */
  predicate Sound(c: Conn) {
    && !Failed(c)
    && (if c.link.state.Live()
        then c.log.callbacks == [Up] && c.registered && c.log.destroyed + Waiting(c.queue) == 0
        else c.link.state.Disconnected? && c.log.callbacks == [Up, Down] && !c.registered
             && c.log.destroyed + Waiting(c.queue) == 1 && !c.readInterest)
    && (c.link.state.Disconnected? ==> !c.link.writing)
    && (if c.log.destroyed == 0 then Tracked(c) else PhaseOf(c.log.poller) == Gone)
  }

  /** What a user's script leaves alone, unless it is recorded as lateRead. */
  predicate Inside(c: Conn, d: Conn) {
    && d.registered == c.registered && Waiting(d.queue) == Waiting(c.queue)
    && d.log.callbacks == c.log.callbacks && d.log.destroyed == c.log.destroyed && d.log.failure == c.log.failure
    && SameBlame(c, d)
    && (c.log.lateRead ==> d.log.lateRead)
    && StateKept(c.link, d.link)
    && (c.link.state.Disconnected? && !c.readInterest && !d.log.lateRead ==> !d.readInterest)
    && (c.link.state.Disconnected? && !c.readInterest && !d.log.lateRead && c.log.destroyed > 0 ==>
          d.log.poller == c.log.poller)
    && (Tracked(c) ==> Tracked(d))
  }

  predicate SameBlame(c: Conn, d: Conn) {
    && d.log.oddHangup == c.log.oddHangup && d.log.tornDown == c.log.tornDown
    && d.log.lateHangup == c.log.lateHangup
  }

  predicate StateKept(l: Link, m: Link) {
    && (m.state.Live() <==> l.state.Live())
    && l.state.Rank() <= m.state.Rank()
    && (l.state.Disconnected? && !l.writing ==> !m.writing)
  }

  lemma WaitingAppend(q: seq<Functor>, fs: seq<Functor>)
    requires DestroyF !in fs
    ensures Waiting(q + fs) == Waiting(q)
  {
  }

  /** What a send may do: extend the queue by notices, and turn write interest on. */
  predicate Sends(c: Conn, d: Conn, fs: seq<Functor>) {
    && d.registered == c.registered && d.readInterest == c.readInterest && d.reading == c.reading
    && d.link.state == c.link.state && d.queue == c.queue + fs && DestroyF !in fs
    && (if d.link.writing == c.link.writing then d.log == c.log
        else d.link.writing && !c.link.state.Disconnected? && d.log == Tell(c, c.readInterest, true))
  }

  lemma SendSends(c: Conn, data: seq<byte>, r: WriteResult)
    ensures Sends(c, SendInLoop(c, data, r), if c.link.state.Disconnected? then [] else Notices(c, data, r))
  {
    assert c.queue + [] == c.queue;
  }

  lemma SendsInside(c: Conn, d: Conn, fs: seq<Functor>)
    requires Sends(c, d, fs) && !c.link.state.Connecting?
    ensures Inside(c, d)
  {
    WaitingAppend(c.queue, fs);
    PhaseAppend(c.log.poller, Update(c.readInterest, true));
  }

  lemma SendInside(c: Conn, data: seq<byte>, r: WriteResult)
    requires !c.link.state.Connecting?
    ensures Inside(c, SendInLoop(c, data, r))
  {
    SendSends(c, data, r);
    SendsInside(c, SendInLoop(c, data, r), if c.link.state.Disconnected? then [] else Notices(c, data, r));
  }

  lemma ToldPhase(c: Conn, read: bool)
    requires Tracked(c)
    ensures PhaseOf(Tell(c, read, c.link.writing).poller) == Active(read, c.link.writing)
  {
    PhaseAppend(c.log.poller, Update(read, c.link.writing));
  }

  lemma SwitchInside(c: Conn, d: Conn, read: bool, late: bool)
    requires !c.link.state.Connecting? && (c.link.state.Disconnected? && (read || c.log.destroyed > 0) ==> late)
    requires d == c.(reading := read, readInterest := read,
                     log := Tell(c, read, c.link.writing).(lateRead := c.log.lateRead || late))
    ensures Inside(c, d)
  {
    if Tracked(c) { ToldPhase(c, read); }
  }

  lemma SameInside(c: Conn)
    ensures Inside(c, c)
  {
  }

  lemma StartInside(c: Conn)
    requires !c.link.state.Connecting?
    ensures Inside(c, StartReadInLoop(c))
  {
    if c.reading && c.readInterest {
      SameInside(c);
    } else {
      SwitchInside(c, StartReadInLoop(c), true, c.link.state.Disconnected?);
    }
  }

  lemma StopInside(c: Conn)
    requires !c.link.state.Connecting?
    ensures Inside(c, StopReadInLoop(c))
  {
    if c.reading || c.readInterest {
      SwitchInside(c, StopReadInLoop(c), false, c.log.destroyed > 0);
    } else {
      SameInside(c);
    }
  }

  /** A functor other than connectDestroyed is queued, and at most the state moves on. */
  lemma QueuedInside(c: Conn, l: Link, f: Functor)
    requires f != DestroyF && l.writing == c.link.writing
    ensures StateKept(c.link, l) ==> Inside(c, c.(link := l, queue := c.queue + [f]))
  {
    WaitingAppend(c.queue, [f]);
  }

  lemma ShutdownInside(c: Conn)
    requires c.link.state.Connected?
    ensures Inside(c, Call(c, Shutdown))
  {
  }

  lemma ForceCloseInside(c: Conn, op: Op)
    requires (op.ForceClose? || op.ForceCloseWithDelay?) && !c.link.state.Connecting?
    ensures Inside(c, Call(c, op))
  {
    SameInside(c);
    if op.ForceClose? && c.link.state.Live() { QueuedInside(c, c.link.(state := Disconnecting), ForceCloseF); }
  }

  lemma CallInside(c: Conn, op: Op)
    requires !c.link.state.Connecting?
    ensures Inside(c, Call(c, op))
  {
    match op
    case Send(data, r) => SameInside(c); SendInside(c, data, r);
    case StartRead => StartInside(c);
    case StopRead => StopInside(c);
    case Shutdown => SameInside(c); if c.link.state.Connected? { ShutdownInside(c); }
    case ForceClose => ForceCloseInside(c, op);
    case ForceCloseWithDelay => ForceCloseInside(c, op);
  }

  lemma {:induction false} ScriptInside(c: Conn, script: seq<Op>)
    requires !c.link.state.Connecting?
    ensures Inside(c, RunScript(c, script))
    decreases |script|
  {
    if script != [] {
      CallInside(c, script[0]);
      ScriptInside(Call(c, script[0]), script[1..]);
    }
  }

  predicate Accounted(c: Conn) { Blamed(c) || Sound(c) }

  /** A sound connection that is let go has another owner or is disconnected. */
  lemma ReleaseAccounted(c: Conn)
    requires Accounted(c)
    ensures Accounted(Release(c)) && (!Blamed(c) ==> Release(c) == c)
  {
  }

  lemma InsideAccounted(c: Conn, d: Conn)
    requires Sound(c) && Inside(c, d)
    ensures Accounted(d)
  {
  }

  lemma ClosePhase(c: Conn)
    requires Sound(c) && c.link.state.Live()
    ensures Tracked(Close(c))
  {
    PhaseAppend(c.log.poller, Update(false, false));
  }

  /** A close on a sound connection goes through, whatever the DOWN callback does. */
  lemma HandleCloseSound(c: Conn, onDown: seq<Op>)
    requires Sound(c) && c.link.state.Live() && !c.log.lateRead
    ensures var d := HandleClose(c, onDown);
      && !Failed(d) && d.link.state.Disconnected? && !d.link.writing
      && SameBlame(c, d) && (!d.log.lateRead ==> Sound(d))
  {
    ClosePhase(c);
    ScriptInside(Close(c), onDown);
    var e := RunScript(Close(c), onDown);
    assert Waiting(e.queue + [DestroyF]) == Waiting(e.queue) + 1;
    assert e.link.state.Disconnected?;
  }

  lemma WriteTracked(c: Conn, r: WriteResult)
    requires Tracked(c)
    ensures Tracked(HandleWrite(c, r))
  {
    PhaseAppend(c.log.poller, Update(c.readInterest, false));
  }

  lemma WriteInside(c: Conn, ready: Ready)
    requires !c.link.state.Connecting? && (c.link.state.Disconnected? ==> !c.link.writing)
    ensures Inside(c, WritePart(c, ready))
  {
    if c.link.writing && ready.out && !Failed(c) {
      var d := HandleWrite(c, ready.write);
      WaitingAppend(c.queue, [WriteCompleteF]);
      assert StateKept(c.link, d.link);
      if Tracked(c) { WriteTracked(c, ready.write); }
    }
  }

  /** A connection in the middle of a dispatch. */
  predicate Midway(c: Conn) {
    && !Failed(c) && !c.link.state.Connecting?
    && (c.link.state.Disconnected? ==> !c.link.writing)
    && (!c.log.lateRead ==> Sound(c))
  }

  /** What one stage of a dispatch guarantees. */
  predicate Stage(c: Conn, d: Conn) {
    Midway(d) && SameBlame(c, d)
  }

  lemma InsideStage(c: Conn, d: Conn)
    requires Midway(c) && Inside(c, d)
    ensures Stage(c, d)
  {
  }

  lemma ReadStage(c: Conn, ready: Ready)
    requires Midway(c)
    requires Reads(ready) && ready.read.EndOfStream? ==> Sound(c) && c.link.state.Live() && !c.log.lateRead
    ensures Stage(c, ReadPart(c, ready))
  {
    if Reads(ready) {
      match ready.read
      case Data =>
        ScriptInside(c, ready.onMessage);
        InsideStage(c, RunScript(c, ready.onMessage));
      case EndOfStream => HandleCloseSound(c, ready.onDown);
      case ReadError =>
    }
  }

  lemma LiveDispatchSound(c: Conn, ready: Ready)
    requires Sound(c) && !Blamed(c) && c.link.state.Live()
    ensures Failed(Dispatch(c, ready)) <==> OddHangup(ready)
    ensures Accounted(Dispatch(c, ready))
  {
    var c0 := Mark(c, ready);
    var c1 := HangupPart(c0, ready);
    HandleCloseSound(c0, ready.onDown);
    assert Stage(c0, c1);
    if !OddHangup(ready) {
      ReadStage(c1, ready);
      var c2 := ReadPart(c1, ready);
      WriteInside(c2, ready);
      InsideStage(c2, WritePart(c2, ready));
    }
  }

  /** A closed connection without interest can only be told of a hang-up, and that is fatal. */
  lemma ClosedDispatchSound(c: Conn, ready: Ready)
    requires Sound(c) && !Blamed(c) && !c.link.state.Live() && Reports(c, ready)
    ensures Failed(Dispatch(c, ready)) <==> HangsUp(ready)
    ensures Accounted(Dispatch(c, ready))
  {
    var c0 := Mark(c, ready);
    assert WritePart(c0, ready) == c0 && ReadPart(c0, ready) == c0;
  }

  /** Of all that the poller may report, exactly the odd hang-up of a live connection and any
      hang-up of a closed one make an assertion fail. */
  lemma DispatchSound(c: Conn, ready: Ready)
    requires Sound(c) && !Blamed(c) && Reports(c, ready)
    ensures Failed(Dispatch(c, ready)) <==> if c.link.state.Live() then OddHangup(ready) else HangsUp(ready)
    ensures Accounted(Dispatch(c, ready))
  {
    if c.link.state.Live() { LiveDispatchSound(c, ready); } else { ClosedDispatchSound(c, ready); }
  }

  /** After a script, reading is on if its last StartRead or StopRead is a StartRead, or if it has
      neither and reading was on before. */
  function ReadsAfter(script: seq<Op>, before: bool): bool {
    if script == [] then before
    else
      match script[|script| - 1]
      case StartRead => true
      case StopRead => false
      case _ => ReadsAfter(script[..|script| - 1], before)
  }

  /** The last StartRead or StopRead of the script is a StartRead. */
  predicate EndsReading(script: seq<Op>) { ReadsAfter(script, false) }

  lemma {:induction false} ReadsAfterFirst(script: seq<Op>, before: bool)
    requires script != []
    ensures ReadsAfter(script, before) ==
      ReadsAfter(script[1..], if script[0].StartRead? then true else if script[0].StopRead? then false else before)
  {
    var init := script[..|script| - 1];
    if |script| > 1 {
      ReadsAfterFirst(init, before);
      assert script[1..][..|script| - 2] == init[1..];
    }
  }

  /** On a closed connection a script changes the interest only by its StartReads and StopReads. */
  lemma {:induction false} ClosedScriptReads(c: Conn, script: seq<Op>)
    requires c.link.state.Disconnected? && !c.link.writing
    ensures var d := RunScript(c, script);
      d.link.state.Disconnected? && !d.link.writing && d.readInterest == ReadsAfter(script, c.readInterest)
    ensures RunScript(c, script).log.failure == c.log.failure
    decreases |script|
  {
    if script != [] {
      ReadsAfterFirst(script, c.readInterest);
      ClosedScriptReads(Call(c, script[0]), script[1..]);
    }
  }

  /** connectDestroyed asserts that the channel has no interest left; it fails exactly if the
      connection is taken down here and the DOWN callback ends reading, or it is not and has some. */
  lemma DestroyedSound(c: Conn, onDown: seq<Op>)
    requires !Failed(c)
    ensures Failed(ConnectDestroyed(c, onDown)) <==>
            if c.link.state.Connected? then EndsReading(onDown) else c.readInterest || c.link.writing
  {
    ClosedScriptReads(Close(c), onDown);
  }

  lemma DestroyFunctorSound(c: Conn, script: seq<Op>)
    requires Sound(c) && !Blamed(c) && c.queue != [] && c.queue[0] == DestroyF
    ensures Sound(RunHead(c, script, WouldBlock))
  {
    assert c.queue == [DestroyF] + c.queue[1..];
    PhaseAppend(c.log.poller, Remove);
  }

  lemma PopSound(c: Conn)
    requires Sound(c) && c.queue != [] && c.queue[0] != DestroyF
    ensures Sound(c.(queue := c.queue[1..]))
  {
    assert c.queue == [c.queue[0]] + c.queue[1..];
  }

  lemma HeadSound(c: Conn, script: seq<Op>, r: WriteResult)
    requires Sound(c) && !Blamed(c) && c.queue != []
    ensures Accounted(RunHead(c, script, r))
  {
    if c.queue[0] == DestroyF {
      DestroyFunctorSound(c, script);
    } else if c.queue[0] == ForceCloseF {
      PopSound(c);
      var d := c.(queue := c.queue[1..]);
      if d.link.state.Live() { HandleCloseSound(d, script); }
    } else {
      PopSound(c);
      HeadInside(c, script, r);
      InsideAccounted(c.(queue := c.queue[1..]), RunHead(c, script, r));
    }
  }

  lemma HeadInside(c: Conn, script: seq<Op>, r: WriteResult)
    requires c.queue != [] && c.queue[0] != DestroyF && c.queue[0] != ForceCloseF && !c.link.state.Connecting?
    ensures Inside(c.(queue := c.queue[1..]), RunHead(c, script, r))
  {
    var d := c.(queue := c.queue[1..]);
    match c.queue[0]
    case SendF(data) => SendInside(d, data, r);
    case StartReadF => StartInside(d);
    case StopReadF => StopInside(d);
    case WriteCompleteF => ScriptInside(d, script);
    case HighWaterF(_) => ScriptInside(d, script);
    case ShutdownF =>
  }

  /** Taken down, and the channel still to be removed. */
  predicate Torn(c: Conn) {
    && !Failed(c) && c.link.state.Disconnected? && !c.link.writing && !c.registered
    && c.log.callbacks == [Up, Down] && c.log.destroyed + Waiting(c.queue) == 0
    && Tracked(c) && (c.readInterest ==> c.log.lateRead)
  }

  lemma TornDownConnected(c: Conn, script: seq<Op>)
    requires Sound(c) && !Blamed(c) && c.link.state.Connected?
    ensures Torn(RunScript(Close(Unregister(c)), script))
  {
    PhaseAppend(c.log.poller, Update(false, false));
    ScriptInside(Close(Unregister(c)), script);
  }

  lemma RemoveTorn(c: Conn)
    requires Torn(c)
    ensures Accounted(RemoveChannel(c))
  {
    PhaseAppend(c.log.poller, Remove);
  }

  lemma TeardownSound(c: Conn, script: seq<Op>)
    requires Sound(c) && !Blamed(c)
    ensures Accounted(Teardown(c, script))
  {
    if c.link.state.Connected? {
      TornDownConnected(c, script);
      RemoveTorn(RunScript(Close(Unregister(c)), script));
      ReleaseAccounted(ConnectDestroyed(Unregister(c), script));
    } else if c.registered {
      assert Blamed(ConnectDestroyed(Unregister(c), script));
    }
  }

  lemma RemoteInside(c: Conn, op: Op)
    requires !c.link.state.Connecting?
    ensures Inside(c, CallRemotely(c, op))
  {
    SameInside(c);
    match op
    case Send(data, _) => if c.link.state.Connected? { QueuedInside(c, c.link, SendF(data)); }
    case Shutdown =>
      if c.link.state.Connected? { QueuedInside(c, c.link.(state := Disconnecting, asked := true), ShutdownF); }
    case StartRead => QueuedInside(c, c.link, StartReadF);
    case StopRead => QueuedInside(c, c.link, StopReadF);
    case _ => CallInside(c, op);
  }

  // ----- time's arrow: in every run, states and blame only move forward and an entry erased
  // from the server's table stays erased -----

  predicate MovesForward(c: Conn, d: Conn) {
    && c.link.state.Rank() <= d.link.state.Rank()
    && (Blamed(c) ==> Blamed(d))
    && (d.registered ==> c.registered)
  }

  lemma {:induction false} ScriptForward(c: Conn, script: seq<Op>)
    ensures MovesForward(c, RunScript(c, script))
    decreases |script|
  {
    if script != [] {
      CallForward(c, script[0]);
      ScriptForward(Call(c, script[0]), script[1..]);
    }
  }

  lemma CloseForward(c: Conn, onDown: seq<Op>)
    ensures MovesForward(c, HandleClose(c, onDown)) && MovesForward(c, ConnectDestroyed(c, onDown))
  {
    ScriptForward(Close(c), onDown);
  }

  lemma ReadForward(c: Conn, ready: Ready)
    ensures MovesForward(c, ReadPart(c, ready))
  {
    CloseForward(c, ready.onDown);
    ScriptForward(c, ready.onMessage);
  }

  lemma DispatchForward(c: Conn, ready: Ready)
    ensures MovesForward(c, Dispatch(c, ready))
  {
    var c0 := Mark(c, ready);
    CloseForward(c0, ready.onDown);
    var c1 := HangupPart(c0, ready);
    assert MovesForward(c0, c1);
    ReadForward(c1, ready);
  }

  lemma CallForward(c: Conn, op: Op)
    ensures MovesForward(c, Call(c, op))
  {
    if op.Send? { SendSends(c, op.data, op.result); }
  }

  lemma RemoteForward(c: Conn, op: Op)
    ensures MovesForward(c, CallRemotely(c, op))
  {
    CallForward(c, op);
  }

  lemma HeadForward(c: Conn, script: seq<Op>, r: WriteResult)
    requires c.queue != []
    ensures MovesForward(c, RunHead(c, script, r))
  {
    var d := c.(queue := c.queue[1..]);
    match c.queue[0]
    case SendF(data) => SendSends(d, data, r);
    case ForceCloseF => CloseForward(d, script);
    case DestroyF => CloseForward(d, script);
    case WriteCompleteF => ScriptForward(d, script);
    case HighWaterF(_) => ScriptForward(d, script);
    case _ =>
  }

  lemma StepForward(c: Conn, e: Event)
    ensures MovesForward(c, Step(c, e))
  {
    match e
    case Poll(ready) => DispatchForward(c, ready);
    case RunFunctor(script, r) => if c.queue != [] { HeadForward(c, script, r); }
    case LocalCall(op) => CallForward(c, op);
    case RemoteCall(op) => RemoteForward(c, op);
    case DestroyServer(script) =>
      CloseForward(Unregister(c), script);
  }

  /** Between any two moments of a run the state has moved forward. */
  lemma {:induction false} StateMovesForward(c: Conn, es: seq<Event>, k: nat)
    requires k <= |es|
    ensures MovesForward(Run(c, es[..k]), Run(c, es))
    decreases |es|
  {
    if k == |es| {
      assert es[..k] == es;
    } else {
      var es' := es[..|es| - 1];
      assert es'[..k] == es[..k];
      StateMovesForward(c, es', k);
      StepForward(Run(c, es'), es[|es| - 1]);
    }
  }

  // ----- the theorem -----

  lemma StepAccounted(c: Conn, e: Event)
    requires Accounted(c)
    ensures Accounted(Step(c, e))
  {
    if Blamed(c) {
      StepForward(c, e);
    } else {
      match e
      case Poll(ready) => if Reports(c, ready) { DispatchSound(c, ready); }
      case RunFunctor(script, r) =>
        if c.queue != [] { HeadSound(c, script, r); ReleaseAccounted(RunHead(c, script, r)); }
      case LocalCall(op) => CallInside(c, op); InsideAccounted(c, Call(c, op));
      case RemoteCall(op) => RemoteInside(c, op); InsideAccounted(c, CallRemotely(c, op));
      case DestroyServer(script) => TeardownSound(c, script);
    }
  }

  lemma EstablishedAccounted(config: Config, onUp: seq<Op>)
    ensures Accounted(ConnectEstablished(Fresh(config), onUp))
  {
    PhaseAppend([], Update(true, false));
    assert Sound(Open(Fresh(config)));
    ScriptInside(Open(Fresh(config)), onUp);
  }

  lemma {:induction false} RunAccounted(c: Conn, es: seq<Event>)
    requires Accounted(c)
    ensures Accounted(Run(c, es))
  {
    if es != [] {
      RunAccounted(c, es[..|es| - 1]);
      StepAccounted(Run(c, es[..|es| - 1]), es[|es| - 1]);
    }
  }

  /** The life of a connection, for every run, script and system-call outcome: unless one of
      the four hazards in Blamed has occurred, no assertion has failed; the user saw UP
      once and DOWN once after the close; the server's entry is there exactly until the close;
      connectDestroyed has run or waits exactly once after the close and never before, and finds
      no interest; and the channel's calls are ones both pollers accept. */
  lemma ConnectionLife(config: Config, onUp: seq<Op>, es: seq<Event>)
    ensures var c := Run(ConnectEstablished(Fresh(config), onUp), es);
      Blamed(c) ||
      (&& !Failed(c) && !c.link.state.Connecting?
       && c.log.callbacks == (if c.link.state.Disconnected? then [Up, Down] else [Up])
       && (c.registered <==> !c.link.state.Disconnected?)
       && c.log.destroyed + Waiting(c.queue) == (if c.link.state.Disconnected? then 1 else 0)
       && (c.link.state.Disconnected? ==> !c.readInterest && !c.link.writing)
       && PhaseOf(c.log.poller) ==
          if c.log.destroyed == 0 then Active(c.readInterest, c.link.writing) else Gone)
  {
    EstablishedAccounted(config, onUp);
    RunAccounted(ConnectEstablished(Fresh(config), onUp), es);
  }

  /** A disconnecting connection is left as it is, but for the entry; nothing runs its queue meanwhile. */
  lemma TornDisconnecting(c: Conn, script: seq<Op>)
    requires c.registered && c.link.state.Disconnecting? && !c.readInterest && !c.link.writing && !Failed(c)
    ensures Failed(Teardown(c, script)) <==> !c.config.kept && !QueueOwns(c.queue)
  {
    assert ConnectDestroyed(Unregister(c), script).queue == c.queue;
  }

  lemma TornConnected(c: Conn, script: seq<Op>)
    requires c.registered && c.link.state.Connected? && !Failed(c)
    ensures Failed(Teardown(c, script)) <==> EndsReading(script)
  {
    DestroyedSound(Unregister(c), script);
    ClosedScriptReads(Close(Unregister(c)), script);
  }

  /** Destroying the server under a sound connection fails exactly if the connection is
      disconnecting, and has interest left or no other owner: neither the user nor a queued functor
      holds a shared pointer; or if it is connected and its DOWN callback ends reading. */
  lemma TeardownFails(c: Conn, script: seq<Op>)
    requires Sound(c) && !Blamed(c)
    ensures Failed(Teardown(c, script)) <==>
            || (c.link.state.Disconnecting? &&
                  (c.readInterest || c.link.writing || !(c.config.kept || QueueOwns(c.queue))))
            || (c.link.state.Connected? && EndsReading(script))
  {
    if c.link.state.Connected? {
      TornConnected(c, script);
    } else if c.link.state.Disconnecting? && !c.readInterest && !c.link.writing {
      TornDisconnecting(c, script);
    } else {
      DestroyedSound(Unregister(c), script);
    }
  }

  /** Hang-up without input, nothing else. */
  function Hangup(onDown: seq<Op>): Ready {
    Ready(true, false, false, false, false, ReadError, WouldBlock, [], onDown)
  }

  /** Each of the first three hazards does break an assertion on some run; LateHangup has the fourth. */
  lemma BlameIsReal(config: Config)
    ensures var c := ConnectEstablished(Fresh(config), []);
      && Step(c, Poll(Hangup([]).(rdhup := true, read := EndOfStream))).log.failure == SecondClose
      && Step(Step(c, Poll(Hangup([StartRead]))), RunFunctor([], WouldBlock)).log.failure == InterestLeft
      && Step(Step(c, LocalCall(Shutdown)), DestroyServer([])).log.failure == InterestLeft
  {
    var c := ConnectEstablished(Fresh(config), []);
    HangupWithStart(c);
    assert RunScript(Close(Mark(c, Hangup([]).(rdhup := true, read := EndOfStream))), []).link.state.Disconnected?;
  }

  lemma HangupWithStart(c: Conn)
    requires c.link.state.Live() && c.readInterest && c.registered && c.queue == [] && !Failed(c)
    ensures Step(Step(c, Poll(Hangup([StartRead]))), RunFunctor([], WouldBlock)).log.failure == InterestLeft
  {
    var ready := Hangup([StartRead]);
    var d := RunScript(Close(Mark(c, ready)), [StartRead]);
    assert d == RunScript(Call(Close(Mark(c, ready)), StartRead), []);
    assert d.readInterest && d.link.state.Disconnected? && d.queue == [];
    assert Step(c, Poll(ready)) == RemoveConnection(d);
  }
}
