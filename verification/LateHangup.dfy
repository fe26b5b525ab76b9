/** A hang-up after the close: when epoll's kernel set still holds the descriptor of a closed
    connection, and that exactly then the poller can bring the program down. */
module LateHangup {
  import opened Bytes
  import opened Connection
  import opened NetChannel
  import opened Lifecycle

  /** The channel was told twice in a row to watch for nothing: epoll has deleted its descriptor
      and added it again. */
  predicate TwiceEmptied(calls: seq<PollerCall>) {
    var n := |calls|;
    n >= 2 && calls[n - 1] == Update(false, false) && calls[n - 2] == Update(false, false)
  }

  lemma HeldAppend(calls: seq<PollerCall>, k: PollerCall)
    ensures Held(calls + [k]) <==> k.Update? && (k.read || k.write || !Held(calls))
    ensures TwiceEmptied(calls + [k]) <==>
      k == Update(false, false) && calls != [] && calls[|calls| - 1] == Update(false, false)
  {
    assert (calls + [k])[..|calls|] == calls;
  }

  // ----- what of a connection matters to the poller -----

  datatype View = View(live: bool, reading: bool, read: bool, write: bool, calls: seq<PollerCall>, destroyed: nat)

  function ViewOf(c: Conn): View {
    View(c.link.state.Live(), c.reading, c.readInterest, c.link.writing, c.log.poller, c.log.destroyed)
  }

  function Told(v: View, read: bool, write: bool): View {
    v.(read := read, write := write, calls := v.calls + [Update(read, write)])
  }

  /** While the connection lives, epoll holds its descriptor exactly if it has interest.  After the
      close, until connectDestroyed, exactly if the interest was emptied twice; a stopRead can still
      do that while reading_ is set.  After connectDestroyed it holds it no more. */
  predicate PollerAware(v: View) {
    if v.live then
      && v.destroyed == 0 && v.reading == v.read && v.calls != []
      && v.calls[|v.calls| - 1] == Update(v.read, v.write)
      && (Held(v.calls) <==> v.read || v.write) && !TwiceEmptied(v.calls)
    else if v.destroyed == 0 then
      && !v.read && !v.write && v.calls != [] && v.calls[|v.calls| - 1] == Update(false, false)
      && (Held(v.calls) <==> TwiceEmptied(v.calls)) && (v.reading ==> !TwiceEmptied(v.calls))
    else !v.write && !Held(v.calls) && !TwiceEmptied(v.calls)
  }

  /** PollerAware, unless reading was started or stopped too late. */
  predicate Minded(c: Conn) { c.log.lateRead || (!c.link.state.Connecting? && PollerAware(ViewOf(c))) }

  lemma SendMinded(c: Conn, data: seq<byte>, r: WriteResult)
    requires Minded(c)
    ensures Minded(SendInLoop(c, data, r))
  {
    var v, d := ViewOf(c), SendInLoop(c, data, r);
    assert ViewOf(d) == v || (v.live && !v.write && ViewOf(d) == Told(v, v.read, true)) || c.log.lateRead;
    HeldAppend(v.calls, Update(v.read, true));
  }

  /** Reading switched on or off on a live connection, or off on a closed one. */
  lemma SwitchAware(v: View, read: bool)
    requires PollerAware(v) && (if v.live then v.read != read else v.destroyed == 0 && v.reading && !read)
    ensures PollerAware(Told(v, read, v.write).(reading := read))
  {
    HeldAppend(v.calls, Update(read, v.write));
  }

  lemma StartMinded(c: Conn)
    requires Minded(c)
    ensures Minded(StartReadInLoop(c))
  {
    if !c.log.lateRead && c.link.state.Live() && !c.readInterest { SwitchAware(ViewOf(c), true); }
  }

  lemma StopMinded(c: Conn)
    requires Minded(c)
    ensures Minded(StopReadInLoop(c))
  {
    if !c.log.lateRead && c.log.destroyed == 0 && c.reading { SwitchAware(ViewOf(c), false); }
  }

  lemma CallMinded(c: Conn, op: Op)
    requires Minded(c)
    ensures Minded(Call(c, op))
  {
    match op
    case Send(data, r) => SendMinded(c, data, r);
    case StartRead => StartMinded(c);
    case StopRead => StopMinded(c);
    case _ =>
  }

  lemma {:induction false} ScriptMinded(c: Conn, script: seq<Op>)
    requires Minded(c)
    ensures Minded(RunScript(c, script))
    decreases |script|
  {
    if script != [] {
      CallMinded(c, script[0]);
      ScriptMinded(Call(c, script[0]), script[1..]);
    }
  }

  lemma CloseMinded(c: Conn)
    requires Minded(c) && c.link.state.Live()
    ensures Minded(Close(c))
    ensures !c.log.lateRead ==> (TwiceEmptied(Close(c).log.poller) <==> !c.readInterest && !c.link.writing)
  {
    HeldAppend(c.log.poller, Update(false, false));
  }

  lemma HandleCloseMinded(c: Conn, onDown: seq<Op>)
    requires Minded(c)
    ensures Minded(HandleClose(c, onDown))
  {
    if c.link.state.Live() {
      CloseMinded(c);
      ScriptMinded(Close(c), onDown);
    }
  }

  lemma WriteMinded(c: Conn, r: WriteResult)
    requires Minded(c)
    ensures Minded(HandleWrite(c, r))
  {
    var v, d := ViewOf(c), HandleWrite(c, r);
    assert c.log.lateRead || ViewOf(d) == v || (v.live && v.write && ViewOf(d) == Told(v, v.read, false));
    HeldAppend(v.calls, Update(v.read, false));
  }

  lemma DestroyedMinded(c: Conn, onDown: seq<Op>)
    requires Minded(c)
    ensures Minded(ConnectDestroyed(c, onDown)) || Failed(ConnectDestroyed(c, onDown)) || c.link.state.Disconnecting?
  {
    var d := if c.link.state.Connected? then RunScript(Close(c), onDown) else c;
    if c.link.state.Connected? {
      CloseMinded(c);
      ScriptMinded(Close(c), onDown);
      ClosedScriptReads(Close(c), onDown);
    }
    HeldAppend(d.log.poller, Remove);
  }

  lemma DispatchMinded(c: Conn, ready: Ready)
    requires Minded(c)
    ensures Minded(Dispatch(c, ready))
  {
    var c0 := Mark(c, ready);
    HandleCloseMinded(c0, ready.onDown);
    var c1 := HangupPart(c0, ready);
    ScriptMinded(c1, ready.onMessage);
    HandleCloseMinded(c1, ready.onDown);
    var c2 := ReadPart(c1, ready);
    assert Minded(c2);
    WriteMinded(c2, ready.write);
  }

  lemma HeadMinded(c: Conn, script: seq<Op>, r: WriteResult)
    requires Minded(c) && c.queue != [] && c.queue[0] != DestroyF
    ensures Minded(RunHead(c, script, r))
  {
    var d := c.(queue := c.queue[1..]);
    match c.queue[0]
    case SendF(data) => SendMinded(d, data, r);
    case StartReadF => StartMinded(d);
    case StopReadF => StopMinded(d);
    case ForceCloseF => HandleCloseMinded(d, script);
    case WriteCompleteF => ScriptMinded(d, script);
    case HighWaterF(_) => ScriptMinded(d, script);
    case ShutdownF =>
  }

  lemma RemoteMinded(c: Conn, op: Op)
    requires Minded(c)
    ensures Minded(CallRemotely(c, op))
  {
    CallMinded(c, op);
  }

  // ----- over runs -----

  predicate Guarded(c: Conn) { Blamed(c) || (Sound(c) && Minded(c)) }

  lemma FunctorGuarded(c: Conn, script: seq<Op>, r: WriteResult)
    requires Sound(c) && Minded(c) && !Blamed(c) && c.queue != []
    ensures Guarded(RunHead(c, script, r))
  {
    HeadSound(c, script, r);
    if c.queue[0] == DestroyF {
      assert Waiting(c.queue) > 0;
      DestroyedMinded(c.(queue := c.queue[1..]), script);
    } else {
      HeadMinded(c, script, r);
    }
  }

  lemma TeardownGuarded(c: Conn, script: seq<Op>)
    requires Sound(c) && Minded(c) && !Blamed(c)
    ensures Guarded(Teardown(c, script))
  {
    TeardownSound(c, script);
    if c.registered && !c.link.state.Disconnecting? {
      DestroyedMinded(Unregister(c), script);
    }
  }

  lemma StepGuarded(c: Conn, e: Event)
    requires Guarded(c)
    ensures Guarded(Step(c, e))
  {
    StepAccounted(c, e);
    if Blamed(c) {
      StepForward(c, e);
    } else {
      match e
      case Poll(ready) => DispatchMinded(c, ready);
      case RunFunctor(script, r) => if c.queue != [] { FunctorGuarded(c, script, r); }
      case LocalCall(op) => CallMinded(c, op);
      case RemoteCall(op) => RemoteMinded(c, op);
      case DestroyServer(script) => TeardownGuarded(c, script);
    }
  }

  lemma EstablishedGuarded(config: Config, onUp: seq<Op>)
    ensures Guarded(ConnectEstablished(Fresh(config), onUp))
  {
    EstablishedAccounted(config, onUp);
    HeldAppend([], Update(true, false));
    assert Minded(Open(Fresh(config)));
    ScriptMinded(Open(Fresh(config)), onUp);
  }

  lemma {:induction false} RunGuarded(c: Conn, es: seq<Event>)
    requires Guarded(c)
    ensures Guarded(Run(c, es))
  {
    if es != [] {
      RunGuarded(c, es[..|es| - 1]);
      StepGuarded(Run(c, es[..|es| - 1]), es[|es| - 1]);
    }
  }

  /** Does epoll still report the closed connection, before connectDestroyed? */
  predicate Exposed(c: Conn) {
    c.config.poller.WithEpoll? && c.link.state.Disconnected? && c.log.destroyed == 0 && TwiceEmptied(c.log.poller)
  }

  /** In every run not yet spoiled, a poll makes an assertion fail exactly if it reports the odd
      hang-up of a live connection, or a hang-up, and nothing else, of a closed one that epoll's
      kernel set still holds: one whose interest was emptied twice and that is not yet destroyed. */
  lemma FatalPolls(config: Config, onUp: seq<Op>, es: seq<Event>, ready: Ready)
    requires !Blamed(Run(ConnectEstablished(Fresh(config), onUp), es))
    ensures var c := Run(ConnectEstablished(Fresh(config), onUp), es);
      Failed(Step(c, Poll(ready))) <==>
        if c.link.state.Live() then OddHangup(ready)
        else Exposed(c) && ready.hup && !Reads(ready) && !ready.out
  {
    EstablishedGuarded(config, onUp);
    RunGuarded(ConnectEstablished(Fresh(config), onUp), es);
    var c := Run(ConnectEstablished(Fresh(config), onUp), es);
    if Reports(c, ready) { DispatchSound(c, ready); }
  }

  // ----- when the interest is emptied twice -----

  /** After the close only a stopRead changes anything here, and only the first. */
  lemma ClosedCall(c: Conn, op: Op)
    requires c.link.state.Disconnected? && c.log.destroyed == 0 && Minded(c) && !Call(c, op).log.lateRead
    ensures var d := Call(c, op);
      && d.link.state.Disconnected? && d.log.destroyed == 0 && d.reading == (c.reading && !op.StopRead?)
      && (TwiceEmptied(d.log.poller) <==> TwiceEmptied(c.log.poller) || (c.reading && op.StopRead?))
  {
    HeldAppend(c.log.poller, Update(false, c.link.writing));
  }

  predicate Stops(script: seq<Op>) { exists i :: 0 <= i < |script| && script[i].StopRead? }

  lemma StopsFirst(script: seq<Op>)
    requires script != []
    ensures Stops(script) <==> script[0].StopRead? || Stops(script[1..])
  {
    if Stops(script[1..]) {
      var i :| 0 <= i < |script[1..]| && script[1..][i].StopRead?;
      assert script[i + 1].StopRead?;
    }
    if Stops(script) && !script[0].StopRead? {
      var i :| 0 <= i < |script| && script[i].StopRead?;
      assert script[1..][i - 1].StopRead?;
    }
  }

  lemma {:induction false} ScriptEmpties(c: Conn, script: seq<Op>)
    requires c.link.state.Disconnected? && c.log.destroyed == 0 && Minded(c) && !RunScript(c, script).log.lateRead
    ensures TwiceEmptied(RunScript(c, script).log.poller)
      <==> TwiceEmptied(c.log.poller) || (c.reading && Stops(script))
    decreases |script|
  {
    if script != [] {
      LateReadStays(Call(c, script[0]), script[1..]);
      CallMinded(c, script[0]);
      ClosedCall(c, script[0]);
      ScriptEmpties(Call(c, script[0]), script[1..]);
      StopsFirst(script);
    }
  }

  lemma {:induction false} LateReadStays(c: Conn, script: seq<Op>)
    ensures c.log.lateRead ==> RunScript(c, script).log.lateRead
    decreases |script|
  {
    if script != [] {
      LateReadStays(Call(c, script[0]), script[1..]);
    }
  }

  /** A close leaves the descriptor in epoll's set exactly if it found the interest empty already,
      or found reading on and the DOWN callback stops it. */
  lemma CloseExposes(c: Conn, onDown: seq<Op>)
    requires Sound(c) && Minded(c) && !Blamed(c) && c.link.state.Live() && !Blamed(HandleClose(c, onDown))
    ensures Exposed(HandleClose(c, onDown)) <==>
      && c.config.poller.WithEpoll?
      && ((!c.readInterest && !c.link.writing) || (c.reading && Stops(onDown)))
  {
    HandleCloseSound(c, onDown);
    CloseMinded(c);
    ScriptEmpties(Close(c), onDown);
    ConfigStays(Close(c), onDown);
  }

  lemma {:induction false} ConfigStays(c: Conn, script: seq<Op>)
    ensures RunScript(c, script).config == c.config
    decreases |script|
  {
    if script != [] {
      ConfigStays(Call(c, script[0]), script[1..]);
    }
  }

  // ----- a user that never stops reading -----

  predicate EventStops(e: Event) {
    match e
    case Poll(ready) => Stops(ready.onMessage) || Stops(ready.onDown)
    case RunFunctor(script, _) => Stops(script)
    case LocalCall(op) => op.StopRead?
    case RemoteCall(op) => op.StopRead?
    case DestroyServer(script) => Stops(script)
  }

  predicate StillReading(c: Conn) { c.reading && StopReadF !in c.queue }

  lemma CallReads(c: Conn, op: Op)
    requires StillReading(c) && !op.StopRead?
    ensures StillReading(Call(c, op)) && StillReading(CallRemotely(c, op))
  {
    if op.Send? { SendSends(c, op.data, op.result); NoStopNotice(c, op.data, op.result); }
  }

  lemma NoStopNotice(c: Conn, data: seq<byte>, r: WriteResult)
    ensures StopReadF !in Notices(c, data, r)
  {
  }

  lemma {:induction false} ScriptReads(c: Conn, script: seq<Op>)
    requires StillReading(c) && !Stops(script)
    ensures StillReading(RunScript(c, script))
    decreases |script|
  {
    if script != [] {
      StopsFirst(script);
      CallReads(c, script[0]);
      ScriptReads(Call(c, script[0]), script[1..]);
    }
  }

  lemma CloseReads(c: Conn, onDown: seq<Op>)
    requires StillReading(c) && !Stops(onDown)
    ensures StillReading(HandleClose(c, onDown)) && StillReading(ConnectDestroyed(c, onDown))
  {
    ScriptReads(Close(c), onDown);
  }

  lemma DispatchReads(c: Conn, ready: Ready)
    requires StillReading(c) && !Stops(ready.onMessage) && !Stops(ready.onDown)
    ensures StillReading(Dispatch(c, ready))
  {
    var c0 := Mark(c, ready);
    CloseReads(c0, ready.onDown);
    var c1 := HangupPart(c0, ready);
    CloseReads(c1, ready.onDown);
    ScriptReads(c1, ready.onMessage);
    assert StillReading(ReadPart(c1, ready));
  }

  lemma HeadReads(c: Conn, script: seq<Op>, r: WriteResult)
    requires StillReading(c) && !Stops(script) && c.queue != []
    ensures StillReading(RunHead(c, script, r))
  {
    var d := c.(queue := c.queue[1..]);
    assert c.queue[0] in c.queue;
    match c.queue[0]
    case SendF(data) => SendSends(d, data, r); NoStopNotice(d, data, r);
    case ForceCloseF => CloseReads(d, script);
    case DestroyF => CloseReads(d, script);
    case WriteCompleteF => ScriptReads(d, script);
    case HighWaterF(_) => ScriptReads(d, script);
    case ShutdownF =>
    case StartReadF =>
  }

  lemma StepReads(c: Conn, e: Event)
    requires StillReading(c) && !EventStops(e)
    ensures StillReading(Step(c, e))
  {
    match e
    case Poll(ready) => DispatchReads(c, ready);
    case RunFunctor(script, r) => if c.queue != [] { HeadReads(c, script, r); }
    case LocalCall(op) => CallReads(c, op);
    case RemoteCall(op) => CallReads(c, op);
    case DestroyServer(script) => CloseReads(Unregister(c), script);
  }

  lemma {:induction false} RunReads(c: Conn, es: seq<Event>)
    requires StillReading(c) && forall i :: 0 <= i < |es| ==> !EventStops(es[i])
    ensures StillReading(Run(c, es))
  {
    if es != [] {
      var es' := es[..|es| - 1];
      assert forall i :: 0 <= i < |es'| ==> es'[i] == es[i];
      RunReads(c, es');
      StepReads(Run(c, es'), es[|es| - 1]);
    }
  }

  /** The constructor sets reading_. */
  lemma FreshReads(config: Config, onUp: seq<Op>)
    requires !Stops(onUp)
    ensures StillReading(ConnectEstablished(Fresh(config), onUp))
  {
    ScriptReads(Open(Fresh(config)), onUp);
  }

  /** A user that never calls stopRead, on any thread or in any callback, never has a closed connection
      in epoll's set: until one of the hazards occurs, only the odd hang-up of a live connection fails. */
  lemma NeverStoppingIsSafe(config: Config, onUp: seq<Op>, es: seq<Event>, ready: Ready)
    requires !Stops(onUp) && forall i :: 0 <= i < |es| ==> !EventStops(es[i])
    requires !Blamed(Run(ConnectEstablished(Fresh(config), onUp), es))
    ensures var c := Run(ConnectEstablished(Fresh(config), onUp), es);
      !Exposed(c) && (Failed(Step(c, Poll(ready))) <==> c.link.state.Live() && OddHangup(ready))
  {
    var c0 := ConnectEstablished(Fresh(config), onUp);
    FreshReads(config, onUp);
    RunReads(c0, es);
    EstablishedGuarded(config, onUp);
    RunGuarded(c0, es);
    FatalPolls(config, onUp, es, ready);
  }

  /** The hazard is real: a stopRead, a force-close and a peer that hangs up before connectDestroyed
      has run; and with the same calls poll(2) does not report the connection. */
  lemma HangupAfterCloseFails(config: Config)
    ensures var c := Run(ConnectEstablished(Fresh(config), []),
                         [LocalCall(StopRead), LocalCall(ForceClose), RunFunctor([], WouldBlock)]);
      && !Blamed(c) && !Failed(c)
      && if config.poller.WithEpoll? then Step(c, Poll(Hangup([]))).log.failure == SecondClose
         else Step(c, Poll(Hangup([]))) == c
  {
    var es := [LocalCall(StopRead), LocalCall(ForceClose), RunFunctor([], WouldBlock)];
    var c0 := ConnectEstablished(Fresh(config), []);
    assert es[..2] == [es[0], es[1]] && es[..2][..1] == [es[0]] && es[..1][..0] == [];
    var c1 := Call(c0, StopRead);
    var c2 := Call(c1, ForceClose);
    assert c2.queue == [ForceCloseF] && c2.log.poller == [Update(true, false), Update(false, false)];
    var c3 := RunHead(c2, [], WouldBlock);
    assert c3 == RemoveConnection(Close(c2.(queue := [])));
    assert Run(c0, es[..2][..1]) == c1 && Run(c0, es[..2]) == c2 && Run(c0, es) == c3;
    FatalPolls(config, [], es, Hangup([]));
  }
}
