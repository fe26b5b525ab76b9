/** What a run owes to the user's calls: the messages that go into the byte stream are the ones the user
    sent, whole and in order, and none is lost on the way from another thread. */
module Delivery {
  import opened Bytes
  import opened Connection
  import opened NetChannel

  // ----- the account: what the calls and reports alone say of a run -----

  /** The state, the messages handed to the stream, those other threads have sent and the loop has not
      yet taken up, and whether a shutdown has been asked for. */
  datatype Account = Account(state: State, handed: seq<seq<byte>>, waiting: seq<seq<byte>>, asked: bool)

  function AfterCall(x: Account, op: Op): Account {
    match op
    case Send(data, _) => if x.state.Connected? then x.(handed := x.handed + [data]) else x
    case Shutdown => if x.state.Connected? then x.(state := Disconnecting, asked := true) else x
    case ForceClose => if x.state.Live() then x.(state := Disconnecting) else x
    case ForceCloseWithDelay => if x.state.Live() then x.(state := Disconnecting) else x
    case _ => x
  }

  function AfterRemote(x: Account, op: Op): Account {
    if op.Send? then (if x.state.Connected? then x.(waiting := x.waiting + [op.data]) else x) else AfterCall(x, op)
  }

  function AfterScript(x: Account, script: seq<Op>): Account
    decreases |script|
  {
    if script == [] then x else AfterScript(AfterCall(x, script[0]), script[1..])
  }

  function Closed(x: Account): Account { if x.state.Live() then x.(state := Disconnected) else x }

  /** A message from another thread reaches the stream, unless the connection is disconnected by then. */
  function TakenUp(x: Account): Account {
    if x.waiting == [] then x
    else x.(waiting := x.waiting[1..],
            handed := if x.state.Disconnected? then x.handed else x.handed + [x.waiting[0]])
  }

  /** A report: a hang-up without input closes, else the read does what it finds. */
  function AfterReport(x: Account, ready: Ready): Account {
    if !x.state.Live() then x
    else if ready.hup && !ready.inn then Closed(x)
    else if !ready.inn && !ready.pri && !ready.rdhup then x
    else
      match ready.read
      case Data => AfterScript(x, ready.onMessage)
      case EndOfStream => Closed(x)
      case ReadError => x
  }

  function AfterFunctor(x: Account, f: Functor, script: seq<Op>): Account {
    match f
    case SendF(_) => TakenUp(x)
    case ForceCloseF => Closed(x)
    case DestroyF => if x.state.Connected? then Closed(x) else x
    case WriteCompleteF => AfterScript(x, script)
    case HighWaterF(_) => AfterScript(x, script)
    case _ => x
  }

  /** Of the connection only this is used: has an assertion failed, and which kind of functor is next? */
  function AccountAfter(x: Account, c: Conn, e: Event): Account {
    if Failed(c) then x
    else
      match e
      case Poll(ready) => AfterReport(x, ready)
      case RunFunctor(script, _) => if c.queue == [] then x else AfterFunctor(x, c.queue[0], script)
      case LocalCall(op) => AfterCall(x, op)
      case RemoteCall(op) => AfterRemote(x, op)
      case DestroyServer(_) => if x.state.Connected? then Closed(x) else x
  }

  /** The account of a run from the UP callback on. */
  function Expected(config: Config, onUp: seq<Op>, es: seq<Event>): Account {
    if es == [] then AfterScript(Account(Connected, [], [], false), onUp)
    else
      var before := es[..|es| - 1];
      AccountAfter(Expected(config, onUp, before), Run(ConnectEstablished(Fresh(config), onUp), before), es[|es| - 1])
  }

  // ----- the connection keeps it -----

  function Payloads(ms: seq<Message>): seq<seq<byte>> {
    if ms == [] then [] else Payloads(ms[..|ms| - 1]) + [ms[|ms| - 1].data]
  }

  /** The messages in the queue. */
  function SendsIn(q: seq<Functor>): seq<seq<byte>> {
    if q == [] then [] else (if q[0].SendF? then [q[0].data] else []) + SendsIn(q[1..])
  }

  predicate Matches(c: Conn, x: Account) {
    && c.link.state == x.state && !x.state.Connecting? && c.link.asked == x.asked
    && Payloads(c.link.messages) == x.handed && SendsIn(c.queue) == x.waiting
    && (x.state.Connected? ==> c.registered)
  }

  lemma PayloadsSnoc(ms: seq<Message>, m: Message)
    ensures Payloads(ms + [m]) == Payloads(ms) + [m.data]
  {
    assert (ms + [m])[..|ms|] == ms;
  }

  lemma {:induction false} SendsAppend(a: seq<Functor>, b: seq<Functor>)
    ensures SendsIn(a + b) == SendsIn(a) + SendsIn(b)
    decreases |a|
  {
    if a == [] {
      assert a + b == b;
    } else {
      SendsAppend(a[1..], b);
      assert (a + b)[1..] == a[1..] + b;
    }
  }

  lemma SendsSnoc(q: seq<Functor>, f: Functor)
    ensures SendsIn(q + [f]) == if f.SendF? then SendsIn(q) + [f.data] else SendsIn(q)
  {
    SendsAppend(q, [f]);
    assert SendsIn([f]) == (if f.SendF? then [f.data] else []) + SendsIn([]);
  }

  lemma NoticesSendNothing(c: Conn, data: seq<byte>, r: WriteResult)
    ensures SendsIn(c.queue + Notices(c, data, r)) == SendsIn(c.queue)
  {
    var fs := Notices(c, data, r);
    if fs == [] { assert c.queue + fs == c.queue; } else { SendsSnoc(c.queue, fs[0]); }
  }

  /** One sendInLoop accepts exactly the message it is given. */
  lemma SendAccepts(c: Conn, data: seq<byte>, r: WriteResult)
    requires !c.link.state.Disconnected?
    ensures var d := SendInLoop(c, data, r);
      && d.link.messages == c.link.messages + [Message(data, Direct(c.link) && r.BrokenPipe?)]
      && d.link.state == c.link.state && d.link.asked == c.link.asked && d.registered == c.registered
      && SendsIn(d.queue) == SendsIn(c.queue)
  {
    NoticesSendNothing(c, data, r);
  }

  lemma SendMatches(c: Conn, x: Account, data: seq<byte>, r: WriteResult)
    requires Matches(c, x)
    ensures Matches(SendInLoop(c, data, r), if x.state.Disconnected? then x else x.(handed := x.handed + [data]))
  {
    if !x.state.Disconnected? {
      SendAccepts(c, data, r);
      PayloadsSnoc(c.link.messages, Message(data, Direct(c.link) && r.BrokenPipe?));
    }
  }

  lemma CallMatches(c: Conn, x: Account, op: Op)
    requires Matches(c, x)
    ensures Matches(Call(c, op), AfterCall(x, op))
  {
    match op
    case Send(data, r) => SendMatches(c, x, data, r);
    case ForceClose => SendsSnoc(c.queue, ForceCloseF);
    case _ =>
  }

  lemma RemoteMatches(c: Conn, x: Account, op: Op)
    requires Matches(c, x)
    ensures Matches(CallRemotely(c, op), AfterRemote(x, op))
  {
    match op
    case Send(data, _) => SendsSnoc(c.queue, SendF(data));
    case Shutdown => SendsSnoc(c.queue, ShutdownF);
    case StartRead => SendsSnoc(c.queue, StartReadF);
    case StopRead => SendsSnoc(c.queue, StopReadF);
    case _ => CallMatches(c, x, op);
  }

  lemma {:induction false} ScriptMatches(c: Conn, x: Account, script: seq<Op>)
    requires Matches(c, x)
    ensures Matches(RunScript(c, script), AfterScript(x, script))
    decreases |script|
  {
    if script != [] {
      CallMatches(c, x, script[0]);
      ScriptMatches(Call(c, script[0]), AfterCall(x, script[0]), script[1..]);
    }
  }

  /** After the close no call is accounted for. */
  lemma {:induction false} ClosedScript(x: Account, script: seq<Op>)
    requires x.state.Disconnected?
    ensures AfterScript(x, script) == x
    decreases |script|
  {
    if script != [] { ClosedScript(x, script[1..]); }
  }

  lemma DownMatches(c: Conn, x: Account, onDown: seq<Op>)
    requires Matches(c, x) && x.state.Live()
    ensures Matches(RunScript(Close(c), onDown), Closed(x))
  {
    ScriptMatches(Close(c), Closed(x), onDown);
    ClosedScript(Closed(x), onDown);
  }

  lemma RemoveMatches(c: Conn, x: Account)
    requires Matches(c, x) && x.state.Disconnected?
    ensures Matches(RemoveConnection(c), x)
  {
    SendsSnoc(c.queue, DestroyF);
  }

  lemma CloseMatches(c: Conn, x: Account, onDown: seq<Op>)
    requires Matches(c, x)
    ensures Matches(HandleClose(c, onDown), Closed(x))
  {
    if x.state.Live() {
      DownMatches(c, x, onDown);
      RemoveMatches(RunScript(Close(c), onDown), Closed(x));
    }
  }

  lemma DestroyMatches(c: Conn, x: Account, onDown: seq<Op>)
    requires Matches(c, x) || (Matches(c.(registered := true), x) && !c.registered)
    ensures Matches(ConnectDestroyed(c, onDown), if x.state.Connected? then Closed(x) else x)
  {
    if x.state.Connected? {
      ScriptMatches(Close(c), Closed(x), onDown);
      ClosedScript(Closed(x), onDown);
    }
  }

  lemma WriteMatches(c: Conn, x: Account, ready: Ready)
    requires Matches(c, x)
    ensures Matches(WritePart(c, ready), x)
  {
    SendsSnoc(c.queue, WriteCompleteF);
    assert Drain(c.link, ready.write).messages == c.link.messages;
  }

  lemma ReadMatches(c: Conn, x: Account, ready: Ready)
    requires Matches(c, x) && !Failed(c)
    ensures Matches(ReadPart(c, ready),
                    if !Reads(ready) then x
                    else match ready.read
                         case Data => AfterScript(x, ready.onMessage)
                         case EndOfStream => Closed(x)
                         case ReadError => x)
  {
    ScriptMatches(c, x, ready.onMessage);
    CloseMatches(c, x, ready.onDown);
  }

  lemma ReportMatches(c: Conn, x: Account, ready: Ready)
    requires Matches(c, x) && !Failed(c)
    ensures Matches(Dispatch(c, ready), AfterReport(x, ready))
  {
    var c0 := Mark(c, ready);
    var c1 := HangupPart(c0, ready);
    CloseMatches(c0, x, ready.onDown);
    var x1 := if HangsUp(ready) then Closed(x) else x;
    assert Matches(c1, x1);
    if !Failed(c1) {
      ReadMatches(c1, x1, ready);
      if x1.state.Disconnected? { ClosedScript(x1, ready.onMessage); }
    }
    WriteMatches(ReadPart(c1, ready), AfterReport(x, ready), ready);
  }

  lemma SendHeadMatches(c: Conn, x: Account, r: WriteResult)
    requires Matches(c, x) && c.queue != [] && c.queue[0].SendF?
    ensures Matches(SendInLoop(c.(queue := c.queue[1..]), c.queue[0].data, r), TakenUp(x))
  {
    assert x.waiting == [c.queue[0].data] + SendsIn(c.queue[1..]);
    SendMatches(c.(queue := c.queue[1..]), x.(waiting := x.waiting[1..]), c.queue[0].data, r);
  }

  lemma PopMatches(c: Conn, x: Account)
    requires Matches(c, x) && c.queue != [] && !c.queue[0].SendF?
    ensures Matches(c.(queue := c.queue[1..]), x)
  {
  }

  lemma OthersMatch(c: Conn, x: Account)
    requires Matches(c, x)
    ensures Matches(c.(link := HalfClose(c.link)), x)
    ensures Matches(StartReadInLoop(c), x) && Matches(StopReadInLoop(c), x)
  {
  }

  lemma HeadMatches(c: Conn, x: Account, script: seq<Op>, r: WriteResult)
    requires Matches(c, x) && c.queue != []
    ensures Matches(RunHead(c, script, r), AfterFunctor(x, c.queue[0], script))
  {
    if c.queue[0].SendF? {
      SendHeadMatches(c, x, r);
    } else {
      var d := c.(queue := c.queue[1..]);
      PopMatches(c, x);
      match c.queue[0]
      case ForceCloseF => CloseMatches(d, x, script);
      case DestroyF => DestroyMatches(d, x, script);
      case WriteCompleteF => ScriptMatches(d, x, script);
      case HighWaterF(_) => ScriptMatches(d, x, script);
      case _ => OthersMatch(d, x);
    }
  }

  lemma ReleaseMatches(c: Conn, x: Account)
    requires Matches(c, x)
    ensures Matches(Release(c), x)
  {
  }

  lemma TeardownMatches(c: Conn, x: Account, script: seq<Op>)
    requires Matches(c, x)
    ensures Matches(Teardown(c, script), if x.state.Connected? then Closed(x) else x)
  {
    if c.registered {
      DestroyMatches(Unregister(c), x, script);
      ReleaseMatches(ConnectDestroyed(Unregister(c), script), if x.state.Connected? then Closed(x) else x);
    }
  }

  lemma StepMatches(c: Conn, x: Account, e: Event)
    requires Matches(c, x)
    ensures Matches(Step(c, e), AccountAfter(x, c, e))
  {
    if !Failed(c) {
      match e
      case Poll(ready) => if Reports(c, ready) { ReportMatches(c, x, ready); }
      case RunFunctor(script, r) =>
        if c.queue != [] {
          HeadMatches(c, x, script, r);
          ReleaseMatches(RunHead(c, script, r), AfterFunctor(x, c.queue[0], script));
        }
      case LocalCall(op) => CallMatches(c, x, op);
      case RemoteCall(op) => RemoteMatches(c, x, op);
      case DestroyServer(script) => TeardownMatches(c, x, script);
    }
  }

  lemma {:induction false} RunMatches(config: Config, onUp: seq<Op>, es: seq<Event>)
    ensures Matches(Run(ConnectEstablished(Fresh(config), onUp), es), Expected(config, onUp, es))
  {
    if es == [] {
      ScriptMatches(Open(Fresh(config)), Account(Connected, [], [], false), onUp);
    } else {
      var before := es[..|es| - 1];
      RunMatches(config, onUp, before);
      StepMatches(Run(ConnectEstablished(Fresh(config), onUp), before), Expected(config, onUp, before), es[|es| - 1]);
    }
  }

  // ----- the theorem -----

  /** Conservation over every run, from any thread and for any behaviour of the socket.  The messages that
      enter the stream are those sent while connected, whole and in order, on the loop thread or in a
      callback, and those from other threads that the loop takes up before the disconnect; the rest of the
      latter are queued.  The bytes on the wire followed by the output buffer are these messages, but those
      lost whole to a broken pipe; the wire is always a prefix, also after the disconnect; and the buffer
      is non-empty exactly while write interest is on. */
  lemma StreamConserved(config: Config, onUp: seq<Op>, es: seq<Event>)
    ensures var c, x := Run(ConnectEstablished(Fresh(config), onUp), es), Expected(config, onUp, es);
      var l := c.link;
      && Payloads(l.messages) == x.handed && SendsIn(c.queue) == x.waiting
      && l.state == x.state && l.asked == x.asked
      && Wire(l.socket) + l.out == Kept(l.messages)
      && Wire(l.socket) <= Kept(l.messages)
      && (!l.state.Disconnected? ==> (l.writing <==> l.out != []))
      && (l.state.Disconnected? ==> !l.writing)
  {
    RunMatches(config, onUp, es);
    ScriptBytes(Open(Fresh(config)), onUp);
    RunBytes(ConnectEstablished(Fresh(config), onUp), es);
  }

  /** A message is lost only if nothing was waiting and the write that was tried at once met a broken pipe. */
  lemma OnlyBrokenPipesDrop(c: Conn, data: seq<byte>, r: WriteResult)
    requires !Failed(c) && c.link.state.Connected?
    ensures Step(c, LocalCall(Send(data, r))).link.messages ==
            c.link.messages + [Message(data, !c.link.writing && c.link.out == [] && r.BrokenPipe?)]
    ensures Step(c, RemoteCall(Send(data, r))).link == c.link
    ensures Step(c, RemoteCall(Send(data, r))).queue == c.queue + [SendF(data)]
  {
    SendAccepts(c, data, r);
  }

  /** The functor of a send from another thread makes one message of it. */
  lemma SendFunctorAccepts(c: Conn, script: seq<Op>, data: seq<byte>, r: WriteResult)
    requires !Failed(c) && c.queue != [] && c.queue[0] == SendF(data) && !c.link.state.Disconnected?
    ensures Step(c, RunFunctor(script, r)).link.messages ==
            c.link.messages + [Message(data, !c.link.writing && c.link.out == [] && r.BrokenPipe?)]
  {
    SendAccepts(c.(queue := c.queue[1..]), data, r);
  }
}
