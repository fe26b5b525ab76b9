/** A disconnecting connection that outlives its server: nothing closes it any more, so that it is
    either kept for ever or brings the program down. */
module Orphans {
  import opened Connection
  import opened Lifecycle

  /** Disconnecting, without an entry, and still owned by the user or by a queued functor; or an
      assertion has failed. */
  predicate Orphan(c: Conn) {
    Failed(c) || (c.link.state.Disconnecting? && !c.registered && (c.config.kept || QueueOwns(c.queue)))
  }

  /** What a callback does to a connection without an entry: its queue only grows. */
  predicate Grows(c: Conn, d: Conn) {
    && d.registered == c.registered && d.config == c.config && c.queue <= d.queue
    && (c.link.state.Disconnecting? ==> d.link.state.Disconnecting?)
  }

  lemma OwnerStays(c: Conn, d: Conn)
    requires Orphan(c) && !Failed(c) && Grows(c, d)
    ensures Orphan(d)
  {
    if QueueOwns(c.queue) {
      var i :| 0 <= i < |c.queue| && Owning(c.queue[i]);
      assert Owning(d.queue[i]);
    }
  }

  lemma CallGrows(c: Conn, op: Op)
    ensures Grows(c, Call(c, op))
  {
    match op
    case Send(data, r) => SendSends(c, data, r);
    case _ =>
  }

  lemma RemoteGrows(c: Conn, op: Op)
    ensures Grows(c, CallRemotely(c, op))
  {
    if op.ForceClose? || op.ForceCloseWithDelay? { CallGrows(c, op); }
  }

  lemma {:induction false} ScriptGrows(c: Conn, script: seq<Op>)
    ensures Grows(c, RunScript(c, script))
    decreases |script|
  {
    if script != [] {
      CallGrows(c, script[0]);
      ScriptGrows(Call(c, script[0]), script[1..]);
    }
  }

  /** The close callback finds no entry. */
  lemma CloseFails(c: Conn, onDown: seq<Op>)
    requires !c.registered
    ensures Failed(HandleClose(c, onDown))
  {
    ScriptGrows(Close(c), onDown);
  }

  lemma ReadGrows(c: Conn, ready: Ready)
    requires !c.registered && c.link.state.Disconnecting?
    ensures Failed(ReadPart(c, ready)) || Grows(c, ReadPart(c, ready))
  {
    CloseFails(c, ready.onDown);
    ScriptGrows(c, ready.onMessage);
  }

  lemma DispatchOrphan(c: Conn, ready: Ready)
    requires Orphan(c) && !Failed(c)
    ensures Orphan(Dispatch(c, ready))
  {
    var c0 := Mark(c, ready);
    CloseFails(c0, ready.onDown);
    if !HangsUp(ready) {
      ReadGrows(c0, ready);
      var c1 := ReadPart(c0, ready);
      if !Failed(c1) {
        OwnerStays(c0, c1);
        OwnerStays(c1, WritePart(c1, ready));
      }
    }
  }

  lemma HeadGrows(c: Conn, script: seq<Op>, r: WriteResult)
    requires c.queue != [] && !c.registered && c.link.state.Disconnecting?
    ensures Failed(RunHead(c, script, r)) || Grows(c.(queue := c.queue[1..]), RunHead(c, script, r))
  {
    var d := c.(queue := c.queue[1..]);
    match c.queue[0]
    case SendF(data) => SendSends(d, data, r);
    case ForceCloseF => CloseFails(d, script);
    case WriteCompleteF => ScriptGrows(d, script);
    case HighWaterF(_) => ScriptGrows(d, script);
    case _ =>
  }

  lemma StepOrphan(c: Conn, e: Event)
    requires Orphan(c)
    ensures Orphan(Step(c, e))
  {
    if !Failed(c) {
      match e
      case Poll(ready) => DispatchOrphan(c, ready);
      case RunFunctor(script, r) => if c.queue != [] { HeadGrows(c, script, r); }
      case LocalCall(op) => CallGrows(c, op); OwnerStays(c, Call(c, op));
      case RemoteCall(op) => RemoteGrows(c, op); OwnerStays(c, CallRemotely(c, op));
      case DestroyServer(_) =>
    }
  }

  lemma {:induction false} RunOrphan(c: Conn, es: seq<Event>)
    requires Orphan(c)
    ensures Orphan(Run(c, es))
  {
    if es != [] {
      RunOrphan(c, es[..|es| - 1]);
      StepOrphan(Run(c, es[..|es| - 1]), es[|es| - 1]);
    }
  }

  /** Whatever happens after the server is destroyed under a disconnecting connection, the connection
      is never disconnected again: an assertion fails, or it stays as it is, and then somebody still
      owns it.  If the user does not, one has failed by the time its functors have run. */
  lemma TornDownForGood(c: Conn, script: seq<Op>, es: seq<Event>)
    requires Sound(c) && !Blamed(c) && c.link.state.Disconnecting?
    ensures var d := Run(Teardown(c, script), es);
      && (Failed(d) || (d.link.state.Disconnecting? && !d.registered && (d.config.kept || QueueOwns(d.queue))))
      && (d.queue == [] && !d.config.kept ==> Failed(d))
  {
    RunOrphan(Teardown(c, script), es);
  }

  /** Both ends are real: with the last pointer goes an assertion at once, with a force-close under
      way when its functor runs. */
  lemma OrphansFail(config: Config)
    requires !config.kept
    ensures var c := Run(ConnectEstablished(Fresh(config), []), [LocalCall(StopRead)]);
      && Step(Step(c, LocalCall(Shutdown)), DestroyServer([])).log.failure == StillOpen
      && var d := Step(Step(c, LocalCall(ForceClose)), DestroyServer([]));
         && !Failed(d) && Step(d, RunFunctor([], WouldBlock)).log.failure == EntryMissing
  {
    var c0 := ConnectEstablished(Fresh(config), []);
    assert [LocalCall(StopRead)][..0] == [];
    assert Run(c0, []) == c0;
    var c := Call(c0, StopRead);
    assert Step(c, LocalCall(ForceClose)).queue[0] == ForceCloseF;
    CloseFails(Step(Step(c, LocalCall(ForceClose)), DestroyServer([])).(queue := []), []);
  }
}
