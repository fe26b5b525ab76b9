/** The calls a connection's channel makes to the poller are ones both pollers accept. */
module ChannelCalls {
  import C = Connection
  import H = LateHangup
  import L = Lifecycle
  import P = Pollers
  import opened NetChannel

  function OpOf(fd: nat, k: PollerCall): P.Op {
    match k
    case Update(r, w) => P.Op.Update(fd, Interest(r, w))
    case Remove => P.Op.Remove(fd)
  }

  function Ops(fd: nat, calls: seq<PollerCall>): seq<P.Op> {
    if calls == [] then [] else Ops(fd, calls[..|calls| - 1]) + [OpOf(fd, calls[|calls| - 1])]
  }

  function RegistryOf(fd: nat, p: L.Phase): P.Registry {
    if p.Active? then map[fd := Interest(p.read, p.write)] else map[]
  }

  lemma PhaseStep(fd: nat, p: L.Phase, k: PollerCall)
    requires !L.PhaseAfter(p, k).Illegal?
    ensures P.Legal(RegistryOf(fd, p), {}, OpOf(fd, k))
    ensures P.Apply(RegistryOf(fd, p), OpOf(fd, k)) == RegistryOf(fd, L.PhaseAfter(p, k))
    ensures P.Raw(RegistryOf(fd, p), {}, OpOf(fd, k)) == {}
  {
  }

  lemma RunSnoc(ops: seq<P.Op>, op: P.Op)
    ensures P.RunReg(ops + [op]) == P.Apply(P.RunReg(ops), op)
    ensures P.RunRaw(ops + [op]) == P.Raw(P.RunReg(ops), P.RunRaw(ops), op)
    ensures P.LegalRun(ops + [op]) <==> P.LegalRun(ops) && P.Legal(P.RunReg(ops), P.RunRaw(ops), op)
  {
    assert (ops + [op])[..|ops|] == ops;
  }

  /** Where the channel stands with the poller is what the poller has registered for it. */
  lemma {:induction false} PhaseIsRegistry(fd: nat, calls: seq<PollerCall>)
    requires !L.PhaseOf(calls).Illegal?
    ensures P.LegalRun(Ops(fd, calls)) && P.RunRaw(Ops(fd, calls)) == {}
    ensures P.RunReg(Ops(fd, calls)) == RegistryOf(fd, L.PhaseOf(calls))
  {
    if calls != [] {
      var before, k := calls[..|calls| - 1], calls[|calls| - 1];
      PhaseIsRegistry(fd, before);
      RunSnoc(Ops(fd, before), OpOf(fd, k));
      PhaseStep(fd, L.PhaseOf(before), k);
    }
  }

  /** The connection's view of epoll's kernel set is the set itself. */
  lemma {:induction false} HeldIsHolds(fd: nat, calls: seq<PollerCall>)
    ensures C.Held(calls) <==> P.Holds(Ops(fd, calls), fd)
  {
    if calls != [] {
      var before, k := calls[..|calls| - 1], calls[|calls| - 1];
      HeldIsHolds(fd, before);
      assert Ops(fd, calls)[..|Ops(fd, before)|] == Ops(fd, before);
    }
  }

  lemma PhaseWatched(fd: nat, calls: seq<PollerCall>, events: Interest)
    requires !L.PhaseOf(calls).Illegal?
    ensures var ops, p := Ops(fd, calls), L.PhaseOf(calls);
      && P.LegalRun(ops) && !P.RunEpoll(ops).refused
      && (!events.IsNone() ==>
            (P.PollWatches(P.RunPoll(ops), fd, events) <==> p == L.Active(events.read, events.write)) &&
            (P.EpollWatches(P.RunEpoll(ops), fd, events) <==> p == L.Active(events.read, events.write)))
      && (P.PollExposes(P.RunPoll(ops), fd) <==> p.Active? && (p.read || p.write))
      && (fd in P.RunEpoll(ops).kernel <==> C.Held(calls))
  {
    PhaseIsRegistry(fd, calls);
    HeldIsHolds(fd, calls);
    P.HangupsReported(Ops(fd, calls), fd);
    if !events.IsNone() { P.PollersAgree(Ops(fd, calls), fd, events); }
  }

  /** In every run of a connection not yet spoiled, its channel's calls keep both pollers' assertions,
      epoll_ctl is never refused, both watch the descriptor for exactly the interest the connection
      has, and epoll's kernel set holds it exactly if it has some or was emptied twice. */
  lemma ConnectionWatched(config: C.Config, onUp: seq<C.Op>, es: seq<C.Event>, fd: nat, events: Interest)
    requires !C.Blamed(C.Run(C.ConnectEstablished(C.Fresh(config), onUp), es))
    ensures var c := C.Run(C.ConnectEstablished(C.Fresh(config), onUp), es);
      var ops := Ops(fd, c.log.poller);
      && P.LegalRun(ops) && !P.RunEpoll(ops).refused
      && (!events.IsNone() ==>
            (P.PollWatches(P.RunPoll(ops), fd, events) <==>
               c.log.destroyed == 0 && events == Interest(c.readInterest, c.link.writing)))
      && (!events.IsNone() ==>
            (P.EpollWatches(P.RunEpoll(ops), fd, events) <==>
               c.log.destroyed == 0 && events == Interest(c.readInterest, c.link.writing)))
      && (fd in P.RunEpoll(ops).kernel <==>
            c.readInterest || c.link.writing || (c.log.destroyed == 0 && H.TwiceEmptied(c.log.poller)))
      && (P.PollExposes(P.RunPoll(ops), fd) <==> c.readInterest || c.link.writing)
  {
    L.ConnectionLife(config, onUp, es);
    var c := C.Run(C.ConnectEstablished(C.Fresh(config), onUp), es);
    H.EstablishedGuarded(config, onUp);
    H.RunGuarded(C.ConnectEstablished(C.Fresh(config), onUp), es);
    PhaseWatched(fd, c.log.poller, events);
  }
}
