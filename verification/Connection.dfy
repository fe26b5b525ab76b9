/**
  One TCP connection as a state machine over values: the connection object, its channel's
  interest, its output buffer, its entry in the server's table, and the functors it has in the
  loop's queue, together with the history of what was done to the socket, the poller and the
  user's callbacks.  A user callback is a script: the public calls the user makes inside it.
  The class TcpConnection is proved to perform exactly these steps.
 */
module Connection {
  import opened Bytes
  import opened NetChannel

  datatype State = Connecting | Connected | Disconnecting | Disconnected {
    function Rank(): nat {
      match this
      case Connecting => 0
      case Connected => 1
      case Disconnecting => 2
      case Disconnected => 3
    }

    predicate Live() { Connected? || Disconnecting? }
  }

  /** What write(2) may answer; BrokenPipe stands for EPIPE and ECONNRESET. */
  datatype WriteResult = Wrote(n: nat) | WouldBlock | BrokenPipe | OtherError

  datatype ReadResult = Data | EndOfStream | ReadError

  datatype SocketCall = Write(data: seq<byte>, result: WriteResult) | ShutdownWrite

  /** A message that reached sendInLoop on a connection not yet disconnected. */
  datatype Message = Message(data: seq<byte>, dropped: bool)

  datatype Callback = Up | Down

  datatype Functor =
    | SendF(data: seq<byte>) | ShutdownF | ForceCloseF | StartReadF | StopReadF
    | DestroyF | WriteCompleteF | HighWaterF(size: nat)

  /** Which assertion has failed: handleClose's on the state, connectDestroyed's on the channel,
      removeConnectionInLoop's on the table, or the destructor's on the state. */
  datatype Failure = NoFailure | SecondClose | InterestLeft | EntryMissing | StillOpen

  /** The output path: connection state, write interest and output buffer, with what write(2)
      and shutdown(2) were asked, the messages that reached sendInLoop before the disconnect, and
      whether the user has asked for a shutdown. */
  datatype Link = Link(
    state: State, writing: bool, out: seq<byte>,
    socket: seq<SocketCall>, messages: seq<Message>, asked: bool)

  /** Which Poller the loop uses. */
  datatype PollerKind = WithPoll | WithEpoll

  /** What does not change: the mark, which callbacks are set, the loop's poller, and whether the user
      keeps a shared pointer of its own. */
  datatype Config = Config(highWaterMark: nat, onHighWater: bool, onWriteComplete: bool, poller: PollerKind, kept: bool)

  /** What became visible outside: interest changes, user callbacks, connectDestroyed runs, a
      failed assertion, and whether one of the four things in Blamed has happened. */
  datatype Log = Log(
    poller: seq<PollerCall>, callbacks: seq<Callback>, destroyed: nat,
    failure: Failure, lateRead: bool, oddHangup: bool, tornDown: bool, lateHangup: bool)

  datatype Conn = Conn(
    link: Link, reading: bool, readInterest: bool, config: Config,
    registered: bool, queue: seq<Functor>, log: Log)

  /** The public calls a user may make. */
  datatype Op =
    | Send(data: seq<byte>, result: WriteResult) | Shutdown | ForceClose | ForceCloseWithDelay
    | StartRead | StopRead

  /** Poll results with the outcome of the system calls they lead to and the users' scripts. */
  datatype Ready = Ready(
    hup: bool, inn: bool, pri: bool, rdhup: bool, out: bool,
    read: ReadResult, write: WriteResult, onMessage: seq<Op>, onDown: seq<Op>)

  datatype Event =
    | Poll(ready: Ready)                                   // the loop dispatches the channel
    | RunFunctor(script: seq<Op>, result: WriteResult)     // the loop runs the first functor
    | LocalCall(op: Op)                                    // a public call on the loop thread
    | RemoteCall(op: Op)                                   // a public call on another thread
    | DestroyServer(script: seq<Op>)

  // ----- what the history means -----

  function Taken(data: seq<byte>, r: WriteResult): (n: nat)
    ensures n <= |data|
  {
    if r.Wrote? then (if r.n <= |data| then r.n else |data|) else 0
  }

  /** The bytes the socket has taken: what the peer will read, in order. */
  function Wire(calls: seq<SocketCall>): seq<byte> {
    if calls == [] then []
    else
      var last := calls[|calls| - 1];
      Wire(calls[..|calls| - 1]) + if last.Write? then last.data[..Taken(last.data, last.result)] else []
  }

  /** The messages that were not dropped, one after the other. */
  function Kept(ms: seq<Message>): seq<byte> {
    if ms == [] then []
    else
      var last := ms[|ms| - 1];
      Kept(ms[..|ms| - 1]) + if last.dropped then [] else last.data
  }

  predicate Failed(c: Conn) { c.log.failure != NoFailure }

  /** The four hazards: reading is started after the close (or stopped after connectDestroyed); a
      hang-up is reported the odd way; the server is destroyed under a connection that is
      disconnecting; a hang-up is reported after the close. */
  predicate Blamed(c: Conn) { c.log.lateRead || c.log.oddHangup || c.log.tornDown || c.log.lateHangup }

  /** Does epoll's kernel set hold the descriptor?  An update with some interest adds or keeps it;
      one without deletes it, but adds it, with an empty mask, if it was not there. */
  function Held(calls: seq<PollerCall>): bool {
    if calls == [] then false
    else
      match calls[|calls| - 1]
      case Update(r, w) => r || w || !Held(calls[..|calls| - 1])
      case Remove => false
  }

  // ----- the output path -----

  predicate Direct(l: Link) { !l.writing && l.out == [] }

  /** What sendInLoop leaves to be buffered of a message. */
  function Rest(l: Link, data: seq<byte>, r: WriteResult): seq<byte> {
    if Direct(l) then (if r.BrokenPipe? then [] else data[Taken(data, r)..]) else data
  }

  function Transmit(l: Link, data: seq<byte>, r: WriteResult): Link {
    if l.state.Disconnected? then l
    else
      var rest := Rest(l, data, r);
      Link(l.state, l.writing || rest != [], l.out + rest,
           if Direct(l) then l.socket + [Write(data, r)] else l.socket,
           l.messages + [Message(data, Direct(l) && r.BrokenPipe?)], l.asked)
  }

  function HalfClose(l: Link): Link {
    if l.writing then l else l.(socket := l.socket + [ShutdownWrite])
  }

  /** Does handleWrite empty the output buffer? */
  predicate Drains(l: Link, r: WriteResult) { Taken(l.out, r) > 0 && Taken(l.out, r) == |l.out| }

  function Drain(l: Link, r: WriteResult): Link {
    if !l.writing then l
    else
      var l1 := l.(socket := l.socket + [Write(l.out, r)], out := l.out[Taken(l.out, r)..]);
      if !Drains(l, r) then l1
      else if l.state.Disconnecting? then HalfClose(l1.(writing := false))
      else l1.(writing := false)
  }

  // ----- the operations -----

  function Tell(c: Conn, read: bool, write: bool): Log { c.log.(poller := c.log.poller + [Update(read, write)]) }

  /** The notifications sendInLoop queues: the message went out whole, or the buffer rose to the
      high-water mark. */
  function Notices(c: Conn, data: seq<byte>, r: WriteResult): seq<Functor> {
    var rest := Rest(c.link, data, r);
    var size := |c.link.out| + |rest|;
    if rest == [] then (if Direct(c.link) && r.Wrote? && c.config.onWriteComplete then [WriteCompleteF] else [])
    else if size >= c.config.highWaterMark > |c.link.out| && c.config.onHighWater then [HighWaterF(size)]
    else []
  }

  function SendInLoop(c: Conn, data: seq<byte>, r: WriteResult): Conn {
    if c.link.state.Disconnected? then c
    else
      c.(link := Transmit(c.link, data, r),
         queue := c.queue + Notices(c, data, r),
         log := if Rest(c.link, data, r) != [] && !c.link.writing then Tell(c, c.readInterest, true) else c.log)
  }

  function StartReadInLoop(c: Conn): Conn {
    if !c.reading || !c.readInterest
    then c.(reading := true, readInterest := true,
            log := Tell(c, true, c.link.writing).(lateRead := c.log.lateRead || c.link.state.Disconnected?))
    else c
  }

  function StopReadInLoop(c: Conn): Conn {
    if c.reading || c.readInterest
    then c.(reading := false, readInterest := false,
            log := Tell(c, false, c.link.writing).(lateRead := c.log.lateRead || c.log.destroyed > 0))
    else c
  }

  /** A public call made on the loop thread. */
  function Call(c: Conn, op: Op): Conn {
    match op
    case Send(data, r) => if c.link.state.Connected? then SendInLoop(c, data, r) else c
    case Shutdown =>
      if c.link.state.Connected?
      then c.(link := HalfClose(c.link.(state := Disconnecting, asked := true))) else c
    case ForceClose =>
      if c.link.state.Live()
      then c.(link := c.link.(state := Disconnecting), queue := c.queue + [ForceCloseF]) else c
    case ForceCloseWithDelay => if c.link.state.Live() then c.(link := c.link.(state := Disconnecting)) else c
    case StartRead => StartReadInLoop(c)
    case StopRead => StopReadInLoop(c)
  }

  /** A public call made on another thread: the loop's part of it is queued. */
  function CallRemotely(c: Conn, op: Op): Conn {
    match op
    case Send(data, _) => if c.link.state.Connected? then c.(queue := c.queue + [SendF(data)]) else c
    case Shutdown =>
      if c.link.state.Connected?
      then c.(link := c.link.(state := Disconnecting, asked := true), queue := c.queue + [ShutdownF]) else c
    case ForceClose => Call(c, op)
    case ForceCloseWithDelay => Call(c, op)
    case StartRead => c.(queue := c.queue + [StartReadF])
    case StopRead => c.(queue := c.queue + [StopReadF])
  }

  function RunScript(c: Conn, script: seq<Op>): Conn
    decreases |script|
  {
    if script == [] then c else RunScript(Call(c, script[0]), script[1..])
  }

  function HandleWrite(c: Conn, r: WriteResult): Conn {
    if !c.link.writing then c
    else
      var empty := Drains(c.link, r);
      c.(link := Drain(c.link, r),
         queue := if empty && c.config.onWriteComplete then c.queue + [WriteCompleteF] else c.queue,
         log := if empty then Tell(c, c.readInterest, false) else c.log)
  }

  /** TcpServer::removeConnectionInLoop, reached through the close callback on the same loop. */
  function RemoveConnection(c: Conn): Conn {
    if c.registered then c.(registered := false, queue := c.queue + [DestroyF])
    else c.(log := c.log.(failure := EntryMissing))
  }

  /** The part of handleClose and connectDestroyed that takes the connection down, up to the
      user's callback. */
  function Close(c: Conn): Conn {
    c.(link := c.link.(state := Disconnected, writing := false), readInterest := false,
       log := Tell(c, false, false).(callbacks := c.log.callbacks + [Down]))
  }

  function HandleClose(c: Conn, onDown: seq<Op>): Conn {
    if c.link.state.Live() then RemoveConnection(RunScript(Close(c), onDown))
    else c.(log := c.log.(failure := SecondClose))
  }

  function HandleRead(c: Conn, ready: Ready): Conn {
    match ready.read
    case Data => RunScript(c, ready.onMessage)
    case EndOfStream => HandleClose(c, ready.onDown)
    case ReadError => c
  }

  predicate HangsUp(ready: Ready) { ready.hup && !ready.inn }

  predicate Reads(ready: Ready) { ready.inn || ready.pri || ready.rdhup }

  /** A hang-up reported together with something to read that turns out to be end of stream. */
  predicate OddHangup(ready: Ready) { HangsUp(ready) && Reads(ready) && ready.read.EndOfStream? }

  // The callbacks of Channel::handleEventWithGuard in their order (handleError only logs); a
  // failed assertion skips the rest.

  function HangupPart(c: Conn, ready: Ready): Conn { if HangsUp(ready) then HandleClose(c, ready.onDown) else c }

  function ReadPart(c: Conn, ready: Ready): Conn { if Reads(ready) && !Failed(c) then HandleRead(c, ready) else c }

  function WritePart(c: Conn, ready: Ready): Conn { if ready.out && !Failed(c) then HandleWrite(c, ready.write) else c }

  function Mark(c: Conn, ready: Ready): Conn {
    c.(log := c.log.(oddHangup := c.log.oddHangup || OddHangup(ready),
                     lateHangup := c.log.lateHangup || (HangsUp(ready) && !c.link.state.Live())))
  }

  /** Channel::handleEventWithGuard. */
  function Dispatch(c: Conn, ready: Ready): Conn {
    WritePart(ReadPart(HangupPart(Mark(c, ready), ready), ready), ready)
  }

  /** Channel::remove, with its assertion on the interest. */
  function RemoveChannel(c: Conn): Conn {
    if c.readInterest || c.link.writing then c.(log := c.log.(failure := InterestLeft))
    else c.(log := c.log.(poller := c.log.poller + [Remove], destroyed := c.log.destroyed + 1))
  }

  function ConnectDestroyed(c: Conn, onDown: seq<Op>): Conn {
    RemoveChannel(if c.link.state.Connected? then RunScript(Close(c), onDown) else c)
  }

  function RunHead(c: Conn, script: seq<Op>, r: WriteResult): Conn
    requires c.queue != []
  {
    var d := c.(queue := c.queue[1..]);
    match c.queue[0]
    case SendF(data) => SendInLoop(d, data, r)
    case ShutdownF => d.(link := HalfClose(d.link))
    case ForceCloseF => if d.link.state.Live() then HandleClose(d, script) else d
    case StartReadF => StartReadInLoop(d)
    case StopReadF => StopReadInLoop(d)
    case DestroyF => ConnectDestroyed(d, script)
    case WriteCompleteF => RunScript(d, script)
    case HighWaterF(_) => RunScript(d, script)
  }

  function Unregister(c: Conn): Conn {
    c.(registered := false, log := c.log.(tornDown := c.log.tornDown || c.link.state.Disconnecting?))
  }

  /** The functors bound to a shared pointer; the others hold a raw one. */
  predicate Owning(f: Functor) { f.ForceCloseF? || f.DestroyF? || f.WriteCompleteF? || f.HighWaterF? }

  predicate QueueOwns(q: seq<Functor>) { exists i :: 0 <= i < |q| && Owning(q[i]) }

  /** Does anybody still hold a shared pointer: the user, the server's table, or a queued functor? */
  predicate KeptAlive(c: Conn) { c.config.kept || c.registered || QueueOwns(c.queue) }

  /** A shared pointer is let go; with the last one goes the connection, and its destructor asserts
      that it is disconnected. */
  function Release(c: Conn): Conn {
    if Failed(c) || KeptAlive(c) || c.link.state.Disconnected? then c else c.(log := c.log.(failure := StillOpen))
  }

  /** TcpServer::~TcpServer, as far as this connection is concerned: the entry is dropped before
      connectDestroyed, and the destructor's own pointer after it. */
  function Teardown(c: Conn, script: seq<Op>): Conn {
    if c.registered then Release(ConnectDestroyed(Unregister(c), script)) else c
  }

  /** What the poller may report.  A live connection may be dispatched with anything, since the
      report may be older than the last change of its interest.  A closed one is reported if it has
      interest again, or else only while epoll's set holds its descriptor with the empty mask: then
      the kernel still reports hang-ups (and errors, which only log).  poll(2) sees its descriptor
      negated. */
  predicate Reports(c: Conn, ready: Ready) {
    || c.link.state.Live() || c.readInterest || c.link.writing
    || (c.config.poller.WithEpoll? && Held(c.log.poller) && !Reads(ready) && !ready.out)
  }

  /** One step.  A failed assertion has stopped the program; an empty queue runs nothing. */
  function Step(c: Conn, e: Event): Conn {
    if Failed(c) then c
    else match e
      case Poll(ready) => if Reports(c, ready) then Dispatch(c, ready) else c
      case RunFunctor(script, r) => if c.queue != [] then Release(RunHead(c, script, r)) else c
      case LocalCall(op) => Call(c, op)
      case RemoteCall(op) => CallRemotely(c, op)
      case DestroyServer(script) => Teardown(c, script)
  }

  /** A new connection as TcpServer::newConnection leaves it before connectEstablished. */
  function Fresh(config: Config): Conn {
    Conn(Link(Connecting, false, [], [], [], false), true, false, config, true, [],
         Log([], [], 0, NoFailure, false, false, false, false))
  }

  /** connectEstablished up to the user's callback. */
  function Open(c: Conn): Conn {
    c.(link := c.link.(state := Connected), readInterest := true,
       log := Tell(c, true, c.link.writing).(callbacks := c.log.callbacks + [Up]))
  }

  function ConnectEstablished(c: Conn, onUp: seq<Op>): Conn { RunScript(Open(c), onUp) }

  function Run(c: Conn, es: seq<Event>): Conn {
    if es == [] then c else Step(Run(c, es[..|es| - 1]), es[|es| - 1])
  }

  // ----- byte-stream conservation -----

  predicate BytesKept(l: Link) {
    && Wire(l.socket) + l.out == Kept(l.messages)
    && (if l.state.Disconnected? then !l.writing else (l.writing <==> l.out != []))
  }

  /** What every step does to the output path: it keeps BytesKept, only extends what the socket was
      asked and what is on the wire, and after the disconnect leaves the buffer alone. */
  predicate Extends(l: Link, m: Link) {
    BytesKept(l) ==>
      && BytesKept(m) && l.socket <= m.socket && Wire(l.socket) <= Wire(m.socket)
      && (l.state.Disconnected? ==> m.state.Disconnected? && m.out == l.out)
  }

  lemma WireAppend(calls: seq<SocketCall>, k: SocketCall)
    ensures Wire(calls + [k]) == Wire(calls) + if k.Write? then k.data[..Taken(k.data, k.result)] else []
  {
    assert (calls + [k])[..|calls|] == calls;
  }

  lemma KeptAppend(ms: seq<Message>, m: Message)
    ensures Kept(ms + [m]) == Kept(ms) + if m.dropped then [] else m.data
  {
    assert (ms + [m])[..|ms|] == ms;
  }

  lemma Regroup(w: seq<byte>, bs: seq<byte>, n: nat)
    requires n <= |bs|
    ensures (w + bs[..n]) + bs[n..] == w + bs
  {
    assert bs == bs[..n] + bs[n..];
  }

  /** The exact effect of a send on the stream: the whole message is appended, or nothing is,
      and the latter only after a disconnect or a fatal answer to a direct write. */
  lemma TransmitBytes(l: Link, data: seq<byte>, r: WriteResult)
    requires BytesKept(l)
    ensures var m := Transmit(l, data, r);
      && BytesKept(m) && Wire(l.socket) <= Wire(m.socket)
      && Wire(m.socket) + m.out ==
         Wire(l.socket) + l.out + if l.state.Disconnected? || (l.out == [] && r.BrokenPipe?) then [] else data
  {
    if !l.state.Disconnected? {
      KeptAppend(l.messages, Message(data, Direct(l) && r.BrokenPipe?));
      if Direct(l) {
        WireAppend(l.socket, Write(data, r));
        Regroup(Wire(l.socket), data, Taken(data, r));
        assert l.out + Rest(l, data, r) == Rest(l, data, r);
        assert Wire(l.socket) + l.out == Wire(l.socket);
      } else {
        assert Wire(l.socket) + (l.out + data) == Wire(l.socket) + l.out + data;
      }
    }
  }

  lemma HalfCloseBytes(l: Link)
    ensures Wire(HalfClose(l).socket) == Wire(l.socket)
  {
    WireAppend(l.socket, ShutdownWrite);
  }

  lemma DrainBytes(l: Link, r: WriteResult)
    ensures Extends(l, Drain(l, r))
  {
    if BytesKept(l) && l.writing {
      var n := Taken(l.out, r);
      WireAppend(l.socket, Write(l.out, r));
      Regroup(Wire(l.socket), l.out, n);
      var l1 := l.(socket := l.socket + [Write(l.out, r)], out := l.out[n..], writing := false);
      HalfCloseBytes(l1);
    }
  }

  lemma TransmitExtends(l: Link, data: seq<byte>, r: WriteResult)
    ensures Extends(l, Transmit(l, data, r))
  {
    if BytesKept(l) { TransmitBytes(l, data, r); }
  }

  lemma HalfCloseExtends(l: Link)
    ensures Extends(l, HalfClose(l))
    ensures l.state.Live() ==> Extends(l, HalfClose(l.(state := Disconnecting, asked := true)))
  {
    HalfCloseBytes(l);
    HalfCloseBytes(l.(state := Disconnecting, asked := true));
  }

  lemma CallBytes(c: Conn, op: Op)
    ensures Extends(c.link, Call(c, op).link)
  {
    match op
    case Send(data, r) => TransmitExtends(c.link, data, r);
    case Shutdown => HalfCloseExtends(c.link);
    case _ => assert c.link.state.Live() ==> Extends(c.link, c.link.(state := Disconnecting));
  }

  lemma RemoteBytes(c: Conn, op: Op)
    ensures Extends(c.link, CallRemotely(c, op).link)
  {
    if op.ForceClose? || op.ForceCloseWithDelay? {
      CallBytes(c, op);
    }
  }

  lemma {:induction false} ScriptBytes(c: Conn, script: seq<Op>)
    ensures Extends(c.link, RunScript(c, script).link)
    decreases |script|
  {
    if script != [] {
      CallBytes(c, script[0]);
      ScriptBytes(Call(c, script[0]), script[1..]);
    }
  }

  lemma DownBytes(c: Conn, onDown: seq<Op>)
    ensures Extends(c.link, RunScript(Close(c), onDown).link)
  {
    assert Extends(c.link, Close(c).link);
    ScriptBytes(Close(c), onDown);
  }

  lemma HandleCloseBytes(c: Conn, onDown: seq<Op>)
    ensures Extends(c.link, HandleClose(c, onDown).link)
    ensures Extends(c.link, ConnectDestroyed(c, onDown).link)
  {
    DownBytes(c, onDown);
    assert RemoveConnection(RunScript(Close(c), onDown)).link == RunScript(Close(c), onDown).link;
  }

  lemma HangupBytes(c: Conn, ready: Ready)
    ensures Extends(c.link, HangupPart(c, ready).link)
  {
    HandleCloseBytes(c, ready.onDown);
  }

  lemma ReadBytes(c: Conn, ready: Ready)
    ensures Extends(c.link, ReadPart(c, ready).link)
  {
    ScriptBytes(c, ready.onMessage);
    HandleCloseBytes(c, ready.onDown);
  }

  lemma WriteBytes(c: Conn, ready: Ready)
    ensures Extends(c.link, WritePart(c, ready).link)
  {
    DrainBytes(c.link, ready.write);
  }

  lemma DispatchBytes(c: Conn, ready: Ready)
    ensures Extends(c.link, Dispatch(c, ready).link)
  {
    var c1 := HangupPart(Mark(c, ready), ready);
    HangupBytes(Mark(c, ready), ready);
    ReadBytes(c1, ready);
    WriteBytes(ReadPart(c1, ready), ready);
  }

  lemma OwningBytes(c: Conn, script: seq<Op>, r: WriteResult)
    requires c.queue != [] && Owning(c.queue[0])
    ensures Extends(c.link, RunHead(c, script, r).link)
  {
    var d := c.(queue := c.queue[1..]);
    match c.queue[0]
    case ForceCloseF => HandleCloseBytes(d, script);
    case DestroyF => HandleCloseBytes(d, script);
    case WriteCompleteF => ScriptBytes(d, script);
    case HighWaterF(_) => ScriptBytes(d, script);
  }

  lemma RunHeadBytes(c: Conn, script: seq<Op>, r: WriteResult)
    requires c.queue != []
    ensures Extends(c.link, RunHead(c, script, r).link)
  {
    match c.queue[0]
    case SendF(data) => TransmitExtends(c.link, data, r);
    case ShutdownF => HalfCloseExtends(c.link);
    case StartReadF =>
    case StopReadF =>
    case _ => OwningBytes(c, script, r);
  }

  lemma StepBytes(c: Conn, e: Event)
    ensures Extends(c.link, Step(c, e).link)
  {
    match e
    case Poll(ready) => DispatchBytes(c, ready);
    case RunFunctor(script, r) => if c.queue != [] { RunHeadBytes(c, script, r); }
    case LocalCall(op) => CallBytes(c, op);
    case RemoteCall(op) => RemoteBytes(c, op);
    case DestroyServer(script) => HandleCloseBytes(Unregister(c), script);
  }

  lemma {:induction false} RunBytes(c: Conn, es: seq<Event>)
    ensures Extends(c.link, Run(c, es).link)
  {
    if es != [] {
      RunBytes(c, es[..|es| - 1]);
      StepBytes(Run(c, es[..|es| - 1]), es[|es| - 1]);
    }
  }
}
