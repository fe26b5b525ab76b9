/** What a single call or report does to the socket, the interest and the queue; and that what is queued
    runs in order, so that a force-close does close. */
module Effects {
  import opened Bytes
  import opened Connection
  import opened Lifecycle
  import opened NetChannel

  // ----- notices -----

  /** A send queues the high-water callback exactly if it lifts the buffer to the mark, the write-complete
      callback exactly if the message went out whole at once, and nothing else. */
  lemma SendNotifies(c: Conn, data: seq<byte>, r: WriteResult)
    requires !Failed(c) && c.link.state.Connected? && BytesKept(c.link)
    ensures var d := Step(c, LocalCall(Send(data, r)));
      d.queue == c.queue +
        if |c.link.out| < c.config.highWaterMark <= |d.link.out| && c.config.onHighWater
        then [HighWaterF(|d.link.out|)]
        else if c.link.out == [] && r.Wrote? && r.n >= |data| && c.config.onWriteComplete then [WriteCompleteF]
        else []
  {
  }

  /** With nothing waiting a send asks the socket for the whole message and buffers what is not taken, unless the
      pipe is broken; else it only buffers. */
  lemma SendWrites(c: Conn, data: seq<byte>, r: WriteResult)
    requires !Failed(c) && c.link.state.Connected? && BytesKept(c.link)
    ensures var d := Step(c, LocalCall(Send(data, r)));
      if c.link.out == []
      then d.link.socket == c.link.socket + [Write(data, r)]
           && d.link.out == if r.BrokenPipe? then [] else data[Taken(data, r)..]
      else d.link.socket == c.link.socket && d.link.out == c.link.out + data
  {
  }

  function Writable(r: WriteResult): Event {
    Poll(Ready(false, false, false, false, true, ReadError, r, [], []))
  }

  /** A live connection found writable tries the whole output buffer and keeps what is not taken; when that
      empties it, interest ends, the write-complete callback is queued, and a pending shutdown is issued. */
  lemma WritableWrites(c: Conn, r: WriteResult)
    requires !Failed(c) && c.link.state.Live() && BytesKept(c.link)
    ensures var d := Step(c, Writable(r));
      if c.link.out == [] then d == c
      else
        && d.link.out == c.link.out[Taken(c.link.out, r)..] && (d.link.writing <==> d.link.out != [])
        && d.link.socket == c.link.socket +
             (if d.link.out == [] && c.link.state.Disconnecting? then [Write(c.link.out, r), ShutdownWrite]
              else [Write(c.link.out, r)])
        && d.queue == c.queue + (if d.link.out == [] && c.config.onWriteComplete then [WriteCompleteF] else [])
        && d.readInterest == c.readInterest && d.link.state == c.link.state
  {
    assert c.link.socket + [Write(c.link.out, r)] + [ShutdownWrite]
        == c.link.socket + [Write(c.link.out, r), ShutdownWrite];
    if c.link.writing { assert Step(c, Writable(r)) == HandleWrite(Mark(c, Writable(r).ready), r); }
  }

  lemma DispatchSplits(c: Conn, ready: Ready)
    requires ready.out
    ensures Dispatch(c, ready) == WritePart(Dispatch(c, ready.(out := false)), ready)
  {
    assert Mark(c, ready) == Mark(c, ready.(out := false));
    var c1 := HangupPart(Mark(c, ready), ready);
    assert c1 == HangupPart(Mark(c, ready), ready.(out := false));
    assert ReadPart(c1, ready) == ReadPart(c1, ready.(out := false));
  }

  lemma LiveWrites(m: Conn, ready: Ready)
    requires !Failed(m) && m.link.state.Live() && ready.out
    ensures WritePart(m, ready).link == Step(m, Writable(ready.write)).link
  {
    assert Step(m, Writable(ready.write)) == HandleWrite(Mark(m, Writable(ready.write).ready), ready.write);
  }

  /** In one dispatch the write callback comes last: it does what a report of its own would do next. */
  lemma WriteComesLast(c: Conn, ready: Ready)
    requires !Failed(c) && c.link.state.Live() && ready.out
    ensures var m := Step(c, Poll(ready.(out := false)));
      Step(c, Poll(ready)).link ==
        if Failed(m) || !m.link.state.Live() then m.link else Step(m, Writable(ready.write)).link
  {
    var m := Dispatch(c, ready.(out := false));
    DispatchSplits(c, ready);
    CloseStopsWriting(c, ready.(out := false));
    if !Failed(m) && m.link.state.Live() { LiveWrites(m, ready); }
  }

  lemma CloseStopsWriting(c: Conn, ready: Ready)
    requires c.link.state.Live() && !ready.out
    ensures var m := Dispatch(c, ready); Failed(m) || m.link.state.Live() || !m.link.writing
  {
    var c0 := Mark(c, ready);
    ScriptInside(Close(c0), ready.onDown);
    ScriptInside(HangupPart(c0, ready), ready.onMessage);
  }

  // ----- reading -----

  /** startRead turns reading on and stopRead turns it off, at once or when the functor runs. */
  lemma ReadSwitches(c: Conn, script: seq<Op>, r: WriteResult)
    requires !Failed(c)
    ensures var on, off := Step(c, LocalCall(StartRead)), Step(c, LocalCall(StopRead));
      on.reading && on.readInterest && !off.reading && !off.readInterest
    ensures Step(c, RemoteCall(StartRead)) == c.(queue := c.queue + [StartReadF])
    ensures Step(c, RemoteCall(StopRead)) == c.(queue := c.queue + [StopReadF])
    ensures c.queue != [] && c.queue[0].StartReadF? ==>
      var d := Step(c, RunFunctor(script, r)); d.reading && d.readInterest
    ensures c.queue != [] && c.queue[0].StopReadF? ==>
      var d := Step(c, RunFunctor(script, r)); !d.reading && !d.readInterest
  {
  }

  // ----- the queue -----

  function Turns(es: seq<Event>): nat {
    if es == [] then 0 else Turns(es[..|es| - 1]) + if es[|es| - 1].RunFunctor? then 1 else 0
  }

  lemma CallQueue(c: Conn, op: Op)
    ensures c.queue <= Call(c, op).queue
  {
    if op.Send? { SendSends(c, op.data, op.result); }
  }

  lemma {:induction false} ScriptQueue(c: Conn, script: seq<Op>)
    ensures c.queue <= RunScript(c, script).queue
    decreases |script|
  {
    if script != [] {
      CallQueue(c, script[0]);
      ScriptQueue(Call(c, script[0]), script[1..]);
    }
  }

  lemma CloseQueue(c: Conn, onDown: seq<Op>)
    ensures c.queue <= HandleClose(c, onDown).queue && c.queue <= ConnectDestroyed(c, onDown).queue
  {
    ScriptQueue(Close(c), onDown);
  }

  lemma DispatchQueue(c: Conn, ready: Ready)
    ensures c.queue <= Dispatch(c, ready).queue
  {
    var c0 := Mark(c, ready);
    CloseQueue(c0, ready.onDown);
    var c1 := HangupPart(c0, ready);
    CloseQueue(c1, ready.onDown);
    ScriptQueue(c1, ready.onMessage);
    assert c1.queue <= ReadPart(c1, ready).queue;
  }

  lemma HeadQueue(c: Conn, script: seq<Op>, r: WriteResult)
    requires c.queue != []
    ensures c.queue[1..] <= RunHead(c, script, r).queue
  {
    var d := c.(queue := c.queue[1..]);
    match c.queue[0]
    case SendF(data) => SendSends(d, data, r);
    case ForceCloseF => CloseQueue(d, script);
    case DestroyF => CloseQueue(d, script);
    case WriteCompleteF => ScriptQueue(d, script);
    case HighWaterF(_) => ScriptQueue(d, script);
    case _ =>
  }

  lemma TurnQueue(c: Conn, script: seq<Op>, r: WriteResult)
    requires !Failed(c) && c.queue != []
    ensures c.queue[1..] <= Step(c, RunFunctor(script, r)).queue
  {
    HeadQueue(c, script, r);
    assert Step(c, RunFunctor(script, r)).queue == RunHead(c, script, r).queue;
  }

  lemma OtherQueue(c: Conn, e: Event)
    requires !e.RunFunctor?
    ensures c.queue <= Step(c, e).queue
  {
    match e
    case Poll(ready) => DispatchQueue(c, ready);
    case LocalCall(op) => CallQueue(c, op);
    case RemoteCall(op) => CallQueue(c, op);
    case DestroyServer(script) => CloseQueue(Unregister(c), script);
  }

  /** First in, first out: what is queued runs in its turn, whatever is queued behind it meanwhile. */
  lemma {:induction false} QueueInOrder(c: Conn, es: seq<Event>)
    requires Turns(es) <= |c.queue|
    ensures Failed(Run(c, es)) || c.queue[Turns(es)..] <= Run(c, es).queue
  {
    if es != [] {
      var before := es[..|es| - 1];
      var d, e := Run(c, before), es[|es| - 1];
      QueueInOrder(c, before);
      if !e.RunFunctor? { OtherQueue(d, e); } else if !Failed(d) { TurnQueue(d, e.script, e.result); }
    }
  }

  lemma ForceCloseTurn(c: Conn, script: seq<Op>, r: WriteResult)
    requires !Failed(c) && c.queue != [] && c.queue[0] == ForceCloseF && !c.link.state.Connecting?
    ensures var d := Step(c, RunFunctor(script, r)); Failed(d) || d.link.state.Disconnected?
  {
    var d := c.(queue := c.queue[1..]);
    if d.link.state.Live() { ScriptForward(Close(d), script); }
  }

  /** forceClose on a live connection, from any thread: by the time the functors queued before it and its own
      have had their turn the connection is disconnected, unless an assertion has failed. */
  lemma {:induction false} ForceCloseCloses(c: Conn, es: seq<Event>)
    requires !Failed(c) && c.link.state.Live() && Turns(es) > |c.queue|
    ensures Step(c, LocalCall(ForceClose)) == Step(c, RemoteCall(ForceClose))
    ensures var d := Run(Step(c, LocalCall(ForceClose)), es); Failed(d) || d.link.state.Disconnected?
  {
    var c1 := Step(c, LocalCall(ForceClose));
    var before, e := es[..|es| - 1], es[|es| - 1];
    var d := Run(c1, before);
    if Turns(before) > |c.queue| {
      ForceCloseCloses(c, before);
      StepForward(d, e);
    } else if !Failed(d) {
      QueueInOrder(c1, before);
      assert c1.queue[|c.queue|..] == [ForceCloseF];
      StateMovesForward(c1, before, 0);
      ForceCloseTurn(d, e.script, e.result);
    }
  }
}
