/** Half-close: what TcpConnection::shutdown promises, and exactly when calls from other threads
    break it: a functor they queued comes too late. */
module GracefulClose {
  import opened Bytes
  import opened Connection
  import opened NetChannel

  predicate Issued(l: Link) { l.socket != [] && l.socket[|l.socket| - 1] == ShutdownWrite }

  /** The promise: the write side is shut down at most once and nothing is asked of the socket
      afterwards; by then the output buffer is empty and every accepted byte is on the wire. */
  predicate Orderly(l: Link) {
    && (forall i :: 0 <= i < |l.socket| && l.socket[i] == ShutdownWrite ==> i == |l.socket| - 1)
    && (ShutdownWrite in l.socket ==> l.out == [] && Wire(l.socket) == Kept(l.messages))
  }

  /** The functor about to run comes too late: a shutdown finds no write interest, but the write side
      shut down already or bytes that a close has left behind; or a send finds the write side shut down
      and the connection not yet disconnected. */
  predicate TooLate(c: Conn, e: Event) {
    && e.RunFunctor? && c.queue != [] && !Failed(c)
    && match c.queue[0]
       case ShutdownF => !c.link.writing && (Issued(c.link) || c.link.out != [])
       case SendF(_) => !c.link.state.Disconnected? && Issued(c.link)
       case _ => false
  }

  predicate LateAt(c: Conn, es: seq<Event>, k: nat)
    requires k < |es|
  {
    TooLate(Run(c, es[..k]), es[k])
  }

  predicate ComesLate(c: Conn, es: seq<Event>) { exists k :: 0 <= k < |es| && LateAt(c, es, k) }

  /** No send and no shutdown from another thread; everything else is allowed. */
  predicate OnLoop(e: Event) { e.RemoteCall? ==> !e.op.Send? && !e.op.Shutdown? }

  predicate NoRemote(q: seq<Functor>) { forall i :: 0 <= i < |q| ==> !q[i].SendF? && !q[i].ShutdownF? }

  // ----- while the promise is kept -----

  predicate Polite(l: Link) {
    && BytesKept(l)
    && (forall i :: 0 <= i < |l.socket| - 1 ==> l.socket[i] != ShutdownWrite)
    && (Issued(l) ==> l.state.Rank() >= 2 && l.out == [])
    && (l.asked ==> l.state.Rank() >= 2)
  }

  /** A requested shutdown is not forgotten: with the buffer empty it is issued or still queued. */
  predicate Remembered(l: Link, q: seq<Functor>) {
    && (ShutdownF in q ==> l.state.Rank() >= 2)
    && (l.asked && l.state.Disconnecting? && l.out == [] ==> Issued(l) || ShutdownF in q)
  }

  predicate Mannered(c: Conn) { Polite(c.link) && Remembered(c.link, c.queue) }

  /** One step keeps the manners, and on the loop thread queues no send and no shutdown. */
  predicate Keeps(c: Conn, d: Conn) { (Mannered(c) ==> Mannered(d)) && (NoRemote(c.queue) ==> NoRemote(d.queue)) }

  /** A link whose write side is not shut down yet may be written to. */
  lemma WrittenPolite(l: Link, m: Link, data: seq<byte>, r: WriteResult)
    requires Polite(l) && !Issued(l) && BytesKept(m) && m.state == l.state && m.asked == l.asked
    requires m.socket == l.socket || m.socket == l.socket + [Write(data, r)]
    ensures Polite(m)
  {
  }

  lemma TransmitPolite(l: Link, data: seq<byte>, r: WriteResult)
    requires Polite(l) && (l.state.Disconnected? || !Issued(l))
    ensures Polite(Transmit(l, data, r))
  {
    if !l.state.Disconnected? {
      TransmitBytes(l, data, r);
      WrittenPolite(l, Transmit(l, data, r), data, r);
    }
  }

  lemma HalfClosePolite(l: Link)
    requires Polite(l) && (!l.writing ==> !Issued(l) && l.out == [] && l.state.Rank() >= 2)
    ensures Polite(HalfClose(l)) && (!l.writing ==> Issued(HalfClose(l)))
  {
    HalfCloseBytes(l);
  }

  lemma DrainShape(l: Link, r: WriteResult)
    requires l.writing
    ensures var m := Drain(l, r);
      && m.state == l.state && m.asked == l.asked
      && if l.state.Disconnecting? && m.out == [] && l.out != []
         then m.socket == l.socket + [Write(l.out, r), ShutdownWrite]
         else m.socket == l.socket + [Write(l.out, r)]
  {
    assert l.socket + [Write(l.out, r), ShutdownWrite] == l.socket + [Write(l.out, r)] + [ShutdownWrite];
  }

  lemma DrainedPolite(l: Link, m: Link, r: WriteResult)
    requires Polite(l) && !Issued(l) && BytesKept(m) && m.state == l.state && m.asked == l.asked
    requires m.socket == l.socket + [Write(l.out, r), ShutdownWrite] && l.state.Disconnecting? && m.out == []
    ensures Polite(m) && Issued(m)
  {
  }

  lemma DrainPolite(l: Link, r: WriteResult)
    requires Polite(l)
    ensures Polite(Drain(l, r))
    ensures l.state.Disconnecting? && l.writing && Drain(l, r).out == [] ==> Issued(Drain(l, r))
  {
    if l.writing {
      var m := Drain(l, r);
      assert !Issued(l) && l.out != [];
      DrainBytes(l, r);
      DrainShape(l, r);
      if l.state.Disconnecting? && m.out == [] { DrainedPolite(l, m, r); } else { WrittenPolite(l, m, l.out, r); }
    }
  }

  lemma SendKeeps(c: Conn, data: seq<byte>, r: WriteResult)
    requires Polite(c.link) ==> c.link.state.Disconnected? || !Issued(c.link)
    ensures Keeps(c, SendInLoop(c, data, r))
  {
    if Polite(c.link) { TransmitPolite(c.link, data, r); }
    NoticesLocal(c, data, r);
  }

  lemma NoticesLocal(c: Conn, data: seq<byte>, r: WriteResult)
    ensures NoRemote(Notices(c, data, r))
    ensures NoRemote(c.queue) ==> NoRemote(c.queue + Notices(c, data, r))
  {
  }

  lemma ShutdownKeeps(c: Conn)
    requires c.link.state.Connected?
    ensures Keeps(c, Call(c, Shutdown))
  {
    if Mannered(c) { HalfClosePolite(c.link.(state := Disconnecting, asked := true)); }
  }

  lemma CallKeeps(c: Conn, op: Op)
    ensures Keeps(c, Call(c, op))
  {
    match op
    case Send(data, r) => if c.link.state.Connected? { SendKeeps(c, data, r); }
    case Shutdown => if c.link.state.Connected? { ShutdownKeeps(c); }
    case _ =>
  }

  lemma {:induction false} ScriptKeeps(c: Conn, script: seq<Op>)
    ensures Keeps(c, RunScript(c, script))
    decreases |script|
  {
    if script != [] {
      CallKeeps(c, script[0]);
      ScriptKeeps(Call(c, script[0]), script[1..]);
    }
  }

  lemma DownKeeps(c: Conn, onDown: seq<Op>)
    ensures Keeps(c, RunScript(Close(c), onDown))
  {
    assert Keeps(c, Close(c));
    ScriptKeeps(Close(c), onDown);
  }

  lemma RemoveKeeps(c: Conn)
    ensures Keeps(c, RemoveConnection(c))
  {
  }

  lemma CloseKeeps(c: Conn, onDown: seq<Op>)
    ensures Keeps(c, HandleClose(c, onDown))
  {
    DownKeeps(c, onDown);
    RemoveKeeps(RunScript(Close(c), onDown));
  }

  lemma DestroyKeeps(c: Conn, onDown: seq<Op>)
    ensures Keeps(c, ConnectDestroyed(c, onDown))
  {
    DownKeeps(c, onDown);
  }

  lemma HangupKeeps(c: Conn, ready: Ready)
    ensures Keeps(c, HangupPart(c, ready))
  {
    CloseKeeps(c, ready.onDown);
  }

  lemma ReadKeeps(c: Conn, ready: Ready)
    ensures Keeps(c, ReadPart(c, ready))
  {
    match ready.read
    case Data => ScriptKeeps(c, ready.onMessage);
    case EndOfStream => CloseKeeps(c, ready.onDown);
    case ReadError =>
  }

  lemma WriteKeeps(c: Conn, ready: Ready)
    ensures Keeps(c, WritePart(c, ready))
  {
    if Mannered(c) { DrainPolite(c.link, ready.write); }
  }

  lemma DispatchKeeps(c: Conn, ready: Ready)
    ensures Keeps(c, Dispatch(c, ready))
  {
    var c1 := HangupPart(Mark(c, ready), ready);
    HangupKeeps(Mark(c, ready), ready);
    ReadKeeps(c1, ready);
    WriteKeeps(ReadPart(c1, ready), ready);
  }

  lemma PopKeeps(c: Conn)
    requires c.queue != [] && !c.queue[0].ShutdownF?
    ensures Keeps(c, c.(queue := c.queue[1..]))
  {
    assert c.queue == [c.queue[0]] + c.queue[1..];
  }

  lemma ShutdownHeadKeeps(c: Conn)
    requires c.queue != [] && c.queue[0].ShutdownF?
    requires c.link.writing || (!Issued(c.link) && c.link.out == [])
    ensures Keeps(c, c.(queue := c.queue[1..], link := HalfClose(c.link)))
  {
    if Mannered(c) { HalfClosePolite(c.link); }
  }

  lemma HeadKeeps(c: Conn, script: seq<Op>, r: WriteResult)
    requires c.queue != [] && !Failed(c) && !TooLate(c, RunFunctor(script, r))
    ensures Keeps(c, RunHead(c, script, r))
  {
    var d := c.(queue := c.queue[1..]);
    if c.queue[0].ShutdownF? {
      ShutdownHeadKeeps(c);
    } else {
      PopKeeps(c);
      match c.queue[0]
      case SendF(data) => SendKeeps(d, data, r);
      case ForceCloseF => CloseKeeps(d, script);
      case DestroyF => DestroyKeeps(d, script);
      case WriteCompleteF => ScriptKeeps(d, script);
      case HighWaterF(_) => ScriptKeeps(d, script);
      case _ =>
    }
  }

  lemma RemoteKeeps(c: Conn, op: Op)
    ensures Mannered(c) ==> Mannered(CallRemotely(c, op))
    ensures NoRemote(c.queue) && !op.Send? && !op.Shutdown? ==> NoRemote(CallRemotely(c, op).queue)
  {
    if op.ForceClose? || op.ForceCloseWithDelay? { CallKeeps(c, op); }
  }

  /** Any step that does not come too late keeps the manners, whichever thread calls. */
  lemma StepMannered(c: Conn, e: Event)
    requires Mannered(c) && !TooLate(c, e)
    ensures Mannered(Step(c, e))
  {
    if !Failed(c) {
      match e
      case Poll(ready) => DispatchKeeps(c, ready);
      case RunFunctor(script, r) => if c.queue != [] { HeadKeeps(c, script, r); }
      case LocalCall(op) => CallKeeps(c, op);
      case RemoteCall(op) => RemoteKeeps(c, op);
      case DestroyServer(script) => DestroyKeeps(Unregister(c), script);
    }
  }

  // ----- and how it is broken -----

  /** The promise is broken for good: something was asked of the socket after the shutdown, or the
      close has left bytes behind that the shutdown promised to have sent. */
  predicate Rude(l: Link) {
    && BytesKept(l)
    && ((exists i :: 0 <= i < |l.socket| - 1 && l.socket[i] == ShutdownWrite)
        || (Issued(l) && l.state.Disconnected? && l.out != []))
  }

  lemma RudeStays(l: Link, m: Link)
    requires Rude(l) && Extends(l, m)
    ensures Rude(m)
  {
    if exists i :: 0 <= i < |l.socket| - 1 && l.socket[i] == ShutdownWrite {
      var i :| 0 <= i < |l.socket| - 1 && l.socket[i] == ShutdownWrite;
      assert m.socket[i] == ShutdownWrite;
    } else if |m.socket| > |l.socket| {
      assert m.socket[|l.socket| - 1] == ShutdownWrite;
    }
  }

  lemma SendIsRude(l: Link, data: seq<byte>, r: WriteResult)
    requires Polite(l) && Issued(l) && !l.state.Disconnected?
    ensures Rude(Transmit(l, data, r))
  {
    TransmitBytes(l, data, r);
    assert Transmit(l, data, r).socket == l.socket + [Write(data, r)];
    assert Transmit(l, data, r).socket[|l.socket| - 1] == ShutdownWrite;
  }

  lemma ShutdownIsRude(l: Link)
    requires Polite(l) && !l.writing && (Issued(l) || l.out != [])
    ensures Rude(HalfClose(l))
  {
    HalfCloseExtends(l);
    if Issued(l) { assert HalfClose(l).socket[|l.socket| - 1] == ShutdownWrite; }
  }

  lemma LateHeadIsRude(c: Conn, script: seq<Op>, r: WriteResult)
    requires Polite(c.link) && TooLate(c, RunFunctor(script, r))
    ensures Rude(RunHead(c, script, r).link)
  {
    match c.queue[0]
    case SendF(data) => SendIsRude(c.link, data, r);
    case ShutdownF => ShutdownIsRude(c.link);
  }

  /** A functor that comes too late breaks the promise. */
  lemma LateIsRude(c: Conn, e: Event)
    requires Mannered(c) && TooLate(c, e)
    ensures Rude(Step(c, e).link)
  {
    LateHeadIsRude(c, e.script, e.result);
    assert Step(c, e).link == RunHead(c, e.script, e.result).link;
  }

  // ----- over runs -----

  lemma LateBefore(c: Conn, es: seq<Event>, k: nat)
    requires k < |es| - 1
    ensures LateAt(c, es, k) <==> LateAt(c, es[..|es| - 1], k)
  {
    assert es[..|es| - 1][..k] == es[..k];
  }

  lemma ComesLateSnoc(c: Conn, es: seq<Event>)
    requires es != []
    ensures ComesLate(c, es) <==> ComesLate(c, es[..|es| - 1]) || LateAt(c, es, |es| - 1)
  {
    var es' := es[..|es| - 1];
    if ComesLate(c, es') {
      var k :| 0 <= k < |es'| && LateAt(c, es', k);
      LateBefore(c, es, k);
    }
    if ComesLate(c, es) {
      var k :| 0 <= k < |es| && LateAt(c, es, k);
      if k < |es| - 1 { LateBefore(c, es, k); }
    }
  }

  lemma {:induction false} RunManners(c: Conn, es: seq<Event>)
    requires Mannered(c)
    ensures if ComesLate(c, es) then Rude(Run(c, es).link) else Mannered(Run(c, es))
  {
    if es != [] {
      var es', e := es[..|es| - 1], es[|es| - 1];
      RunManners(c, es');
      ComesLateSnoc(c, es);
      if ComesLate(c, es') {
        StepBytes(Run(c, es'), e);
        RudeStays(Run(c, es').link, Run(c, es).link);
      } else if TooLate(Run(c, es'), e) {
        LateIsRude(Run(c, es'), e);
      } else {
        StepMannered(Run(c, es'), e);
      }
    }
  }

  lemma MannersMean(l: Link)
    ensures Polite(l) ==> Orderly(l)
    ensures Rude(l) ==> !Orderly(l)
  {
    assert Wire(l.socket) + [] == Wire(l.socket);
    if Rude(l) && !(exists i :: 0 <= i < |l.socket| - 1 && l.socket[i] == ShutdownWrite) {
      assert ShutdownWrite in l.socket;
    }
  }

  lemma EstablishedMannered(config: Config, onUp: seq<Op>)
    ensures Mannered(ConnectEstablished(Fresh(config), onUp)) && NoRemote(ConnectEstablished(Fresh(config), onUp).queue)
  {
    ScriptKeeps(Open(Fresh(config)), onUp);
  }

  /** Half-close over every run, whichever threads call: the promise holds exactly if no functor has
      come too late; and then a requested shutdown is not forgotten: while the connection is
      disconnecting with an empty buffer, it is issued or its functor is still queued. */
  lemma HalfCloseExact(config: Config, onUp: seq<Op>, es: seq<Event>)
    ensures var c0 := ConnectEstablished(Fresh(config), onUp);
      var c := Run(c0, es);
      && (Orderly(c.link) <==> !ComesLate(c0, es))
      && (Orderly(c.link) && c.link.asked && c.link.state.Disconnecting? && c.link.out == [] ==>
            ShutdownWrite in c.link.socket || ShutdownF in c.queue)
  {
    EstablishedMannered(config, onUp);
    RunManners(ConnectEstablished(Fresh(config), onUp), es);
    MannersMean(Run(ConnectEstablished(Fresh(config), onUp), es).link);
  }

  // ----- calls on the loop thread -----

  lemma StepLocal(c: Conn, e: Event)
    requires NoRemote(c.queue) && OnLoop(e)
    ensures NoRemote(Step(c, e).queue) && !TooLate(c, e)
  {
    if !Failed(c) {
      match e
      case Poll(ready) => DispatchKeeps(c, ready);
      case RunFunctor(script, r) => if c.queue != [] { HeadKeeps(c, script, r); }
      case LocalCall(op) => CallKeeps(c, op);
      case RemoteCall(op) => RemoteKeeps(c, op);
      case DestroyServer(script) => DestroyKeeps(Unregister(c), script);
    }
  }

  lemma {:induction false} RunLocal(c: Conn, es: seq<Event>)
    requires NoRemote(c.queue) && forall i :: 0 <= i < |es| ==> OnLoop(es[i])
    ensures NoRemote(Run(c, es).queue) && !ComesLate(c, es)
  {
    if es != [] {
      var es' := es[..|es| - 1];
      assert forall i :: 0 <= i < |es'| ==> es'[i] == es[i];
      RunLocal(c, es');
      StepLocal(Run(c, es'), es[|es| - 1]);
      ComesLateSnoc(c, es);
    }
  }

  /** With send and shutdown called on the loop thread only, nothing comes too late; and while a
      requested shutdown is pending it has been issued exactly if the output buffer is empty, so it
      is neither early nor forgotten. */
  lemma GracefulHalfClose(config: Config, onUp: seq<Op>, es: seq<Event>)
    requires forall i :: 0 <= i < |es| ==> OnLoop(es[i])
    ensures var l := Run(ConnectEstablished(Fresh(config), onUp), es).link;
      && Orderly(l)
      && (ShutdownWrite in l.socket ==> !l.state.Connected?)
      && (l.asked && l.state.Disconnecting? ==> (ShutdownWrite in l.socket <==> l.out == []))
  {
    var c0 := ConnectEstablished(Fresh(config), onUp);
    EstablishedMannered(config, onUp);
    RunLocal(c0, es);
    RunManners(c0, es);
    MannersMean(Run(c0, es).link);
  }

  /** A shutdown called on another thread can be issued twice: the loop drains the buffer and
      shuts down between the state change and the functor. */
  lemma RemoteShutdownTwice(config: Config)
    ensures exists es: seq<Event> ::
      Run(ConnectEstablished(Fresh(config.(onHighWater := false, onWriteComplete := false)), []), es).link.socket ==
      [Write([65], WouldBlock), Write([65], Wrote(1)), ShutdownWrite, ShutdownWrite]
  {
    var c0 := ConnectEstablished(Fresh(config.(onHighWater := false, onWriteComplete := false)), []);
    assert c0 == Open(Fresh(config.(onHighWater := false, onWriteComplete := false)));
    var e1, e2, e4 := LocalCall(Send([65], WouldBlock)), RemoteCall(Shutdown), RunFunctor([], WouldBlock);
    ShutdownTwiceFrom(c0);
    FourSteps(c0, e1, e2, WRITABLE, e4);
  }

  lemma ShutdownTwiceFrom(c: Conn)
    requires c.link.state.Connected? && Direct(c.link) && c.link.socket == [] && c.queue == [] && !Failed(c)
    requires !c.config.onHighWater && !c.config.onWriteComplete
    ensures var d := Step(Step(c, LocalCall(Send([65], WouldBlock))), RemoteCall(Shutdown));
      Step(Step(d, WRITABLE), RunFunctor([], WouldBlock)).link.socket ==
      [Write([65], WouldBlock), Write([65], Wrote(1)), ShutdownWrite, ShutdownWrite]
  {
    BufferThenAsk(c);
    DrainThenRun(Step(Step(c, LocalCall(Send([65], WouldBlock))), RemoteCall(Shutdown)));
    assert [Write([65], WouldBlock)] + [Write([65], Wrote(1)), ShutdownWrite, ShutdownWrite]
        == [Write([65], WouldBlock), Write([65], Wrote(1)), ShutdownWrite, ShutdownWrite];
  }

  lemma BufferThenAsk(c: Conn)
    requires c.link.state.Connected? && Direct(c.link) && c.link.socket == [] && c.queue == [] && !Failed(c)
    requires !c.config.onHighWater && !c.config.onWriteComplete
    ensures var d := Step(Step(c, LocalCall(Send([65], WouldBlock))), RemoteCall(Shutdown));
      && d.link == Link(Disconnecting, true, [65], [Write([65], WouldBlock)], d.link.messages, true)
      && d.queue == [ShutdownF] && d.config == c.config && !Failed(d)
  {
    var d := Step(c, LocalCall(Send([65], WouldBlock)));
    assert d.link == Transmit(c.link, [65], WouldBlock) && d.queue == [];
  }

  lemma FourSteps(c: Conn, e1: Event, e2: Event, e3: Event, e4: Event)
    ensures Run(c, [e1, e2, e3]) == Step(Step(Step(c, e1), e2), e3)
    ensures Run(c, [e1, e2, e3, e4]) == Step(Step(Step(Step(c, e1), e2), e3), e4)
  {
    Unroll(c, [], e1);
    Unroll(c, [e1], e2);
    Unroll(c, [e1, e2], e3);
    Unroll(c, [e1, e2, e3], e4);
    assert [] + [e1] == [e1] && [e1] + [e2] == [e1, e2] && [e1, e2] + [e3] == [e1, e2, e3];
    assert [e1, e2, e3] + [e4] == [e1, e2, e3, e4];
  }

  const WRITABLE := Poll(Ready(false, false, false, false, true, ReadError, Wrote(1), [], []))

  lemma DrainThenRun(c: Conn)
    requires c.link.state.Disconnecting? && c.link.writing && c.link.out == [65]
    requires c.queue == [ShutdownF] && !c.config.onWriteComplete && !Failed(c)
    ensures Step(Step(c, WRITABLE), RunFunctor([], WouldBlock)).link.socket ==
            c.link.socket + [Write([65], Wrote(1)), ShutdownWrite, ShutdownWrite]
  {
    var d := Step(c, WRITABLE);
    assert d.link == c.link.(socket := c.link.socket + [Write([65], Wrote(1))] + [ShutdownWrite], out := [],
                             writing := false);
  }

  /** A send queued by another thread reaches the socket after its write side is shut down. */
  lemma RemoteSendAfterShutdown(config: Config, r: WriteResult)
    ensures exists es: seq<Event> ::
      Run(ConnectEstablished(Fresh(config), []), es).link.socket == [ShutdownWrite, Write([65], r)]
  {
    var c0 := ConnectEstablished(Fresh(config), []);
    var e1, e2, e3 := RemoteCall(Send([65], r)), LocalCall(Shutdown), RunFunctor([], r);
    FourSteps(c0, e1, e2, e3, e3);
  }

  /** A shutdown queued by another thread is issued after a close has given up bytes it should have
      waited for. */
  lemma RemoteShutdownAfterClose(config: Config)
    ensures exists es: seq<Event> ::
      var l := Run(ConnectEstablished(Fresh(config.(onHighWater := false, onWriteComplete := false)), []), es).link;
      l.socket == [Write([65], WouldBlock), ShutdownWrite] && l.out == [65]
  {
    var c0 := ConnectEstablished(Fresh(config.(onHighWater := false, onWriteComplete := false)), []);
    assert c0 == Open(Fresh(config.(onHighWater := false, onWriteComplete := false)));
    AfterCloseFrom(c0);
  }

  lemma AfterCloseFrom(c: Conn)
    requires c.link.state.Connected? && Direct(c.link) && c.link.socket == [] && c.queue == [] && !Failed(c)
    requires c.registered && !c.config.onHighWater && !c.config.onWriteComplete
    ensures var es := [LocalCall(Send([65], WouldBlock)), RemoteCall(Shutdown), GONE, RunFunctor([], WouldBlock)];
      var l := Run(c, es).link;
      l.socket == [Write([65], WouldBlock), ShutdownWrite] && l.out == [65]
  {
    var e1, e2, e4 := LocalCall(Send([65], WouldBlock)), RemoteCall(Shutdown), RunFunctor([], WouldBlock);
    BufferThenAsk(c);
    FourSteps(c, e1, e2, GONE, e4);
    CloseThenRun(Step(Step(c, e1), e2));
  }

  const GONE := Poll(Ready(true, false, false, false, false, ReadError, WouldBlock, [], []))

  lemma CloseThenRun(c: Conn)
    requires c.link.state.Disconnecting? && c.registered && c.queue == [ShutdownF] && !Failed(c)
    ensures var d := Step(Step(c, GONE), RunFunctor([], WouldBlock));
      d.link.socket == c.link.socket + [ShutdownWrite] && d.link.out == c.link.out
  {
    var d := Step(c, GONE);
    assert d.queue == [ShutdownF, DestroyF] && d.link == c.link.(state := Disconnected, writing := false);
  }

  lemma Unroll(c: Conn, es: seq<Event>, e: Event)
    ensures Run(c, []) == c && Run(c, es + [e]) == Step(Run(c, es), e)
  {
    assert (es + [e])[..|es|] == es;
  }
}
