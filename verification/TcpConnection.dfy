/** The connection object of net/TcpConnection.cc, proved to take the steps of Connection. */
module TcpConnectionObject {
  import opened Bytes
  import opened NetBuffer
  import opened NetChannel
  import opened C = Connection

  // The two halves of sendInLoop, and that together they are the step of the model.

  function Unsent(l: Link, data: seq<byte>, r: WriteResult): seq<byte> {
    if Direct(l) then data[Taken(data, r)..] else data
  }

  function Written(c: Conn, data: seq<byte>, r: WriteResult): Conn {
    c.(link := c.link.(socket := if Direct(c.link) then c.link.socket + [Write(data, r)] else c.link.socket,
                       messages := c.link.messages + [Message(data, Direct(c.link) && r.BrokenPipe?)]),
       queue := if Direct(c.link) && r.Wrote? && Unsent(c.link, data, r) == [] && c.config.onWriteComplete
                then c.queue + [WriteCompleteF] else c.queue)
  }

  function Buffered(c: Conn, rest: seq<byte>): Conn {
    var size := |c.link.out| + |rest|;
    c.(link := c.link.(writing := true, out := c.link.out + rest),
       queue := if size >= c.config.highWaterMark > |c.link.out| && c.config.onHighWater
                then c.queue + [HighWaterF(size)] else c.queue,
       log := if c.link.writing then c.log else Tell(c, c.readInterest, true))
  }

  lemma SendQueued(c: Conn, data: seq<byte>, r: WriteResult)
    requires !c.link.state.Disconnected? && !Direct(c.link)
    ensures C.SendInLoop(c, data, r) ==
      if data == [] then Written(c, data, r) else Buffered(Written(c, data, r), data)
  {
    assert c.link.out + [] == c.link.out && c.queue + [] == c.queue;
  }

  lemma SendAtOnce(c: Conn, data: seq<byte>, r: WriteResult)
    requires !c.link.state.Disconnected? && Direct(c.link)
    requires r.BrokenPipe? || data[Taken(data, r)..] == []
    ensures C.SendInLoop(c, data, r) == Written(c, data, r)
  {
    assert c.link.out + [] == c.link.out && c.queue + [] == c.queue;
  }

  lemma SendInPart(c: Conn, data: seq<byte>, r: WriteResult)
    requires !c.link.state.Disconnected? && Direct(c.link) && !r.BrokenPipe? && data[Taken(data, r)..] != []
    ensures C.SendInLoop(c, data, r) == Buffered(Written(c, data, r), data[Taken(data, r)..])
  {
    assert c.queue + [] == c.queue;
  }

  lemma SendInTwoHalves(c: Conn, data: seq<byte>, r: WriteResult)
    requires !c.link.state.Disconnected?
    ensures C.SendInLoop(c, data, r) ==
      if (Direct(c.link) && r.BrokenPipe?) || Unsent(c.link, data, r) == [] then Written(c, data, r)
      else Buffered(Written(c, data, r), Unsent(c.link, data, r))
  {
    if !Direct(c.link) {
      SendQueued(c, data, r);
    } else if r.BrokenPipe? || data[Taken(data, r)..] == [] {
      SendAtOnce(c, data, r);
    } else {
      SendInPart(c, data, r);
    }
  }

  class TcpConnection {
    var state: State
    var reading: bool
    const channel: Channel
    const outputBuffer: Buffer
    const config: Config
    var registered: bool          // the server's table still holds this connection
    var queue: seq<Functor>       // this connection's functors in the loop's pending queue
    ghost var socket: seq<SocketCall>
    ghost var messages: seq<Message>
    ghost var asked: bool
    var log: Log                  // also says whether an assertion has stopped the program; the poller
                                  // calls are the channel's

    ghost predicate Valid()
      reads this, channel, outputBuffer
    {
      outputBuffer.Valid()
    }

    ghost function Model(): Conn
      requires Valid()
      reads this, channel, outputBuffer
    {
      Conn(Link(state, channel.IsWriting(), outputBuffer.Contents(), socket, messages, asked),
           reading, channel.IsReading(), config, registered, queue, log.(poller := channel.calls))
    }

    constructor (fd: nat, config: Config)
      ensures Valid() && fresh(channel) && fresh(outputBuffer)
      ensures Model() == Fresh(config)
    {
      state, reading := Connecting, true;
      var ch := new Channel(fd);
      var buf := new Buffer();
      channel, outputBuffer, this.config := ch, buf, config;
      registered, queue := true, [];
      socket, messages, asked := [], [], false;
      log := Log([], [], 0, NoFailure, false, false, false, false);
    }

    /** sockets::write on the connection's descriptor, whose outcome the environment decides. */
    method SysWrite(data: seq<byte>, result: WriteResult) returns (n: int)
      modifies this`socket
      ensures socket == old(socket) + [Write(data, result)]
      ensures n == if result.Wrote? then Taken(data, result) else -1
    {
      socket := socket + [Write(data, result)];
      n := match result
        case Wrote(k) => if k <= |data| then k else |data|
        case _ => -1;
    }

    method QueueInLoop(f: Functor)
      modifies this`queue
      ensures queue == old(queue) + [f]
    {
      queue := queue + [f];
    }

    /** The first half of sendInLoop: try to write at once if nothing is waiting. */
    method WriteDirectly(data: seq<byte>, result: WriteResult) returns (rest: seq<byte>, faultError: bool)
      requires Valid()
      modifies this`socket, this`queue, this`messages
      ensures Model() == Written(old(Model()), data, result)
      ensures rest == Unsent(old(Model()).link, data, result)
      ensures faultError == (Direct(old(Model()).link) && result.BrokenPipe?)
    {
      rest, faultError := data, false;
      if !channel.IsWriting() && outputBuffer.ReadableBytes() == 0 {
        var nwrote := SysWrite(data, result);
        if nwrote >= 0 {
          rest := data[nwrote..];
          if rest == [] && config.onWriteComplete {
            QueueInLoop(WriteCompleteF);
          }
        } else {
          faultError := result.BrokenPipe?;
        }
      }
      messages := messages + [Message(data, faultError)];
    }

    /** The second half: buffer what is left and ask to be told when the socket is writable. */
    method BufferRest(rest: seq<byte>)
      requires Valid()
      modifies this`queue, this`log, channel, outputBuffer
      ensures Valid() && Model() == Buffered(old(Model()), rest)
    {
      var oldLen := outputBuffer.ReadableBytes();
      if oldLen + |rest| >= config.highWaterMark && oldLen < config.highWaterMark && config.onHighWater {
        QueueInLoop(HighWaterF(oldLen + |rest|));
      }
      outputBuffer.Append(rest);
      if !channel.IsWriting() {
        channel.EnableWriting();
      }
    }

    method SendInLoop(data: seq<byte>, result: WriteResult)
      requires Valid()
      modifies this, channel, outputBuffer
      ensures Valid() && Model() == C.SendInLoop(old(Model()), data, result)
    {
      if !state.Disconnected? {
        SendInTwoHalves(Model(), data, result);
        var rest, faultError := WriteDirectly(data, result);
        if !faultError && rest != [] {
          BufferRest(rest);
        }
      }
    }

    method Send(data: seq<byte>, result: WriteResult)
      requires Valid()
      modifies this, channel, outputBuffer
      ensures Valid() && Model() == Call(old(Model()), Op.Send(data, result))
    {
      if state.Connected? {
        SendInLoop(data, result);
      }
    }

    method ShutdownInLoop()
      requires Valid()
      modifies this`socket
      ensures Valid() && Model() == old(Model()).(link := HalfClose(old(Model()).link))
    {
      if !channel.IsWriting() {
        socket := socket + [ShutdownWrite];
      }
    }

    method Shutdown()
      requires Valid()
      modifies this`state, this`socket, this`asked
      ensures Valid() && Model() == Call(old(Model()), Op.Shutdown)
    {
      if state.Connected? {
        state, asked := Disconnecting, true;
        ShutdownInLoop();
      }
    }

    method ForceClose()
      requires Valid()
      modifies this`state, this`queue
      ensures Valid() && Model() == Call(old(Model()), Op.ForceClose)
    {
      if state.Connected? || state.Disconnecting? {
        state := Disconnecting;
        QueueInLoop(ForceCloseF);
      }
    }

    method StartReadInLoop()
      requires Valid()
      modifies this`reading, this`log, channel
      ensures Valid() && Model() == C.StartReadInLoop(old(Model()))
    {
      if !reading || !channel.IsReading() {
        channel.EnableReading();
        log := log.(lateRead := log.lateRead || state.Disconnected?);
        reading := true;
      }
    }

    method StopReadInLoop()
      requires Valid()
      modifies this`reading, this`log, channel
      ensures Valid() && Model() == C.StopReadInLoop(old(Model()))
    {
      if reading || channel.IsReading() {
        channel.DisableReading();
        log := log.(lateRead := log.lateRead || log.destroyed > 0);
        reading := false;
      }
    }

    /** A user callback: the calls it makes, one after the other. */
    method RunCallback(script: seq<Op>)
      requires Valid()
      modifies this, channel, outputBuffer
      ensures Valid() && Model() == RunScript(old(Model()), script)
    {
      var i := 0;
      while i < |script|
        invariant 0 <= i <= |script| && Valid()
        invariant RunScript(Model(), script[i..]) == RunScript(old(Model()), script)
      {
        ghost var c := Model();
        assert script[i..][0] == script[i] && script[i..][1..] == script[i + 1..];
        match script[i] {
          case Send(data, result) => Send(data, result);
          case Shutdown => Shutdown();
          case ForceClose => ForceClose();
          case ForceCloseWithDelay => if state.Connected? || state.Disconnecting? { state := Disconnecting; }
          case StartRead => StartReadInLoop();
          case StopRead => StopReadInLoop();
        }
        assert Model() == Call(c, script[i]);
        i := i + 1;
      }
    }

    method ConnectEstablished(onUp: seq<Op>)
      requires Valid() && state.Connecting?
      modifies this, channel, outputBuffer
      ensures Valid() && Model() == C.ConnectEstablished(old(Model()), onUp)
    {
      state := Connected;
      channel.EnableReading();
      log := log.(callbacks := log.callbacks + [Up]);
      assert Model() == Open(old(Model()));
      RunCallback(onUp);
    }

    method HandleWrite(result: WriteResult)
      requires Valid()
      modifies this, channel, outputBuffer
      ensures Valid() && Model() == C.HandleWrite(old(Model()), result)
    {
      if channel.IsWriting() {
        ghost var c := Model();
        var n := SysWrite(outputBuffer.Contents(), result);
        if n > 0 {
          outputBuffer.Retrieve(n);
          if outputBuffer.ReadableBytes() == 0 {
            channel.DisableWriting();
            if config.onWriteComplete {
              QueueInLoop(WriteCompleteF);
            }
            if state.Disconnecting? {
              ShutdownInLoop();
            }
          }
        }
        assert Model().link == Drain(c.link, result);
      }
    }

    /** The common part of handleClose and connectDestroyed. */
    method TakeDown(onDown: seq<Op>)
      requires Valid()
      modifies this, channel, outputBuffer
      ensures Valid() && Model() == RunScript(Close(old(Model())), onDown)
    {
      state := Disconnected;
      channel.DisableAll();
      log := log.(callbacks := log.callbacks + [Down]);
      assert Model() == Close(old(Model()));
      RunCallback(onDown);
    }

    /** The server's part of a close (TcpServer::removeConnectionInLoop), on the same loop. */
    method RemoveConnection()
      requires Valid()
      modifies this`registered, this`queue, this`log
      ensures Valid() && Model() == C.RemoveConnection(old(Model()))
    {
      if registered {
        registered := false;
        QueueInLoop(DestroyF);
      } else {
        log := log.(failure := EntryMissing);
      }
    }

    method HandleClose(onDown: seq<Op>)
      requires Valid()
      modifies this, channel, outputBuffer
      ensures Valid() && Model() == C.HandleClose(old(Model()), onDown)
    {
      if state.Connected? || state.Disconnecting? {
        TakeDown(onDown);
        RemoveConnection();
      } else {
        log := log.(failure := SecondClose);
      }
    }

    method ForceCloseInLoop(onDown: seq<Op>)
      requires Valid()
      modifies this, channel, outputBuffer
      ensures Valid() && Model() ==
        if old(Model()).link.state.Live() then C.HandleClose(old(Model()), onDown) else old(Model())
    {
      if state.Connected? || state.Disconnecting? {
        HandleClose(onDown);
      }
    }

    method HandleRead(ready: Ready)
      requires Valid()
      modifies this, channel, outputBuffer
      ensures Valid() && Model() == C.HandleRead(old(Model()), ready)
    {
      match ready.read {
        case Data => RunCallback(ready.onMessage);
        case EndOfStream => HandleClose(ready.onDown);
        case ReadError =>
      }
    }

    method ConnectDestroyed(onDown: seq<Op>)
      requires Valid()
      modifies this, channel, outputBuffer
      ensures Valid() && Model() == C.ConnectDestroyed(old(Model()), onDown)
    {
      if state.Connected? {
        TakeDown(onDown);
      }
      if channel.IsNoneEvent() {
        channel.Remove();
        log := log.(destroyed := log.destroyed + 1);
      } else {
        log := log.(failure := InterestLeft);
      }
    }

    /** Somebody lets go of a shared pointer; with the last one the destructor runs, and asserts. */
    method Release()
      requires Valid()
      modifies this`log
      ensures Valid() && Model() == C.Release(old(Model()))
    {
      if log.failure == NoFailure && !config.kept && !registered && !QueueOwns(queue) && !state.Disconnected? {
        log := log.(failure := StillOpen);
      }
    }

    // Channel::handleEventWithGuard: the callbacks in their fixed order.  The tests on the failure
    // are where a failed assertion would have stopped the program.

    method NoteHangup(ready: Ready)
      requires Valid()
      modifies this`log
      ensures Valid() && Model() == C.Mark(old(Model()), ready)
    {
      log := log.(oddHangup := log.oddHangup || OddHangup(ready),
                  lateHangup := log.lateHangup || (HangsUp(ready) && !state.Live()));
    }

    method CloseCallback(ready: Ready)
      requires Valid()
      modifies this, channel, outputBuffer
      ensures Valid() && Model() == HangupPart(old(Model()), ready)
    {
      if ready.hup && !ready.inn {
        HandleClose(ready.onDown);
      }
    }

    method ReadCallback(ready: Ready)
      requires Valid()
      modifies this, channel, outputBuffer
      ensures Valid() && Model() == ReadPart(old(Model()), ready)
    {
      if (ready.inn || ready.pri || ready.rdhup) && log.failure == NoFailure {
        HandleRead(ready);
      }
    }

    method WriteCallback(ready: Ready)
      requires Valid()
      modifies this, channel, outputBuffer
      ensures Valid() && Model() == WritePart(old(Model()), ready)
    {
      if ready.out && log.failure == NoFailure {
        HandleWrite(ready.write);
      }
    }

    method HandleEvent(ready: Ready)
      requires Valid()
      modifies this, channel, outputBuffer
      ensures Valid() && Model() == Dispatch(old(Model()), ready)
    {
      NoteHangup(ready);
      CloseCallback(ready);
      ReadCallback(ready);
      WriteCallback(ready);
    }
  }
}
