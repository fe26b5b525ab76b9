/**
  The two pollers over values.  PollPoller keeps a dense array for poll(2) with swap-removal and
  negated descriptors; EPollPoller mirrors the kernel's interest set with a three-state mark.
  Both are proved to implement one map from registered descriptors to interests.
 */
module Pollers {
  import opened NetChannel

  datatype Op = Update(fd: nat, events: Interest) | Remove(fd: nat)

  /** The reference: every registered channel with its current interest. */
  type Registry = map<nat, Interest>

  function Apply(reg: Registry, op: Op): Registry {
    match op
    case Update(fd, events) => reg[fd := events]
    case Remove(fd) => reg - {fd}
  }

  /** The channels that were first registered without interest and not updated since. */
  function Raw(reg: Registry, raw: set<nat>, op: Op): set<nat> {
    if op.Update? && op.fd !in reg && op.events.IsNone() then raw + {op.fd} else raw - {op.fd}
  }

  /** Any update is allowed; a channel is removed when it is registered and its last update left
      it without interest. */
  predicate Legal(reg: Registry, raw: set<nat>, op: Op) {
    op.Remove? ==> op.fd in reg && reg[op.fd].IsNone() && op.fd !in raw
  }

  // ----- PollPoller -----

  datatype PollFd = PollFd(fd: int, events: Interest)

  /** pollfds_, and the index of each channel in channels_, by descriptor. */
  datatype Poll = Poll(fds: seq<PollFd>, index: map<nat, int>)

  function Negated(fd: int): int { -fd - 1 }

  function Owner(p: PollFd): nat { if p.fd < 0 then Negated(p.fd) else p.fd }

  predicate InRange(p: Poll, fd: nat) { fd in p.index && 0 <= p.index[fd] < |p.fds| }

  function PollUpdate(p: Poll, fd: nat, events: Interest): Poll {
    if fd !in p.index then Poll(p.fds + [PollFd(fd, events)], p.index[fd := |p.fds|])
    else if !InRange(p, fd) then p
    else p.(fds := p.fds[p.index[fd] := PollFd(if events.IsNone() then Negated(fd) else fd, events)])
  }

  /** The assertions of updateChannel and removeChannel. */
  predicate PollAsserts(p: Poll, reg: Registry, op: Op) {
    match op
    case Update(fd, _) =>
      fd in p.index ==>
        InRange(p, fd) && (p.fds[p.index[fd]].fd == fd || p.fds[p.index[fd]].fd == Negated(fd))
    case Remove(fd) =>
      fd in reg && reg[fd].IsNone() && InRange(p, fd) && p.fds[p.index[fd]] == PollFd(Negated(fd), reg[fd])
  }

  function PollRemove(p: Poll, fd: nat): Poll {
    if !InRange(p, fd) then p
    else
      var i, last := p.index[fd], |p.fds| - 1;
      if i == last then Poll(p.fds[..last], p.index - {fd})
      else Poll(p.fds[i := p.fds[last]][..last], (p.index - {fd})[Owner(p.fds[last]) := i])
  }

  function PollStep(p: Poll, op: Op): Poll {
    match op
    case Update(fd, events) => PollUpdate(p, fd, events)
    case Remove(fd) => PollRemove(p, fd)
  }

  function SlotOf(fd: nat, events: Interest, raw: set<nat>): PollFd {
    PollFd(if events.IsNone() && fd !in raw then Negated(fd) else fd, events)
  }

  /** The channel's index leads to its own slot. */
  predicate Leads(p: Poll, reg: Registry, raw: set<nat>, fd: nat) {
    fd in reg && InRange(p, fd) && p.fds[p.index[fd]] == SlotOf(fd, reg[fd], raw)
  }

  /** The slot's owner is registered and points back. */
  predicate PointsBack(p: Poll, i: nat)
    requires i < |p.fds|
  {
    Owner(p.fds[i]) in p.index && p.index[Owner(p.fds[i])] == i
  }

  /** The array and the channels are in bijection; a channel without interest has its descriptor
      negated, so that poll(2) ignores it, unless it is raw. */
  ghost predicate Dense(p: Poll, reg: Registry, raw: set<nat>) {
    && p.index.Keys == reg.Keys
    && (forall fd :: fd in reg ==> Leads(p, reg, raw, fd))
    && (forall i :: 0 <= i < |p.fds| ==> PointsBack(p, i))
  }

  lemma PollKeepsDense(p: Poll, reg: Registry, raw: set<nat>, op: Op)
    requires Dense(p, reg, raw) && Legal(reg, raw, op)
    ensures Dense(PollStep(p, op), Apply(reg, op), Raw(reg, raw, op))
  {
    match op
    case Update(fd, events) =>
      if fd in reg { ChangeKeepsDense(p, reg, raw, fd, events); } else { NewKeepsDense(p, reg, raw, fd, events); }
    case Remove(fd) => RemoveKeepsDense(p, reg, raw, fd);
  }

  lemma NewKeepsDense(p: Poll, reg: Registry, raw: set<nat>, fd: nat, events: Interest)
    requires Dense(p, reg, raw) && fd !in reg
    ensures Dense(PollUpdate(p, fd, events), reg[fd := events], Raw(reg, raw, Op.Update(fd, events)))
  {
    var q, r, w := PollUpdate(p, fd, events), reg[fd := events], Raw(reg, raw, Op.Update(fd, events));
    forall f | f in r ensures Leads(q, r, w, f) {
      if f != fd { assert Leads(p, reg, raw, f); }
    }
    forall i | 0 <= i < |q.fds| ensures PointsBack(q, i) {
      if i < |p.fds| { assert PointsBack(p, i); }
    }
  }

  lemma ChangeKeepsDense(p: Poll, reg: Registry, raw: set<nat>, fd: nat, events: Interest)
    requires Dense(p, reg, raw) && fd in reg
    ensures Dense(PollUpdate(p, fd, events), reg[fd := events], Raw(reg, raw, Op.Update(fd, events)))
  {
    var q, r, w := PollUpdate(p, fd, events), reg[fd := events], Raw(reg, raw, Op.Update(fd, events));
    assert Leads(p, reg, raw, fd);
    forall f | f in r ensures Leads(q, r, w, f) {
      assert Leads(p, reg, raw, f);
    }
    forall i | 0 <= i < |q.fds| ensures PointsBack(q, i) {
      assert PointsBack(p, i);
    }
  }

  lemma RemoveKeepsDense(p: Poll, reg: Registry, raw: set<nat>, fd: nat)
    requires Dense(p, reg, raw) && Legal(reg, raw, Op.Remove(fd))
    ensures Dense(PollRemove(p, fd), reg - {fd}, raw - {fd})
  {
    assert Leads(p, reg, raw, fd);
    var i, last := p.index[fd], |p.fds| - 1;
    var q, r := PollRemove(p, fd), reg - {fd};
    assert PointsBack(p, last);
    assert q.index.Keys == r.Keys;
    forall f | f in r ensures Leads(q, r, raw - {fd}, f) {
      assert Leads(p, reg, raw, f);
    }
    forall k | 0 <= k < |q.fds| ensures PointsBack(q, k) {
      assert PointsBack(p, k) && PointsBack(p, i);
    }
  }

  /** No assertion of updateChannel can fail, and those of removeChannel hold exactly for a
      registered channel without interest that is not raw. */
  lemma PollAssertsExact(p: Poll, reg: Registry, raw: set<nat>, op: Op)
    requires Dense(p, reg, raw)
    ensures PollAsserts(p, reg, op) <==> Legal(reg, raw, op)
  {
    if op.fd in reg {
      assert Leads(p, reg, raw, op.fd);
    }
  }

  // ----- EPollPoller -----

  datatype Mark = Added | Deleted      // kAdded, kDeleted; a channel with no mark is kNew

  datatype Call = Add | Mod | Del

  /** The kernel's interest set, the mark of each channel in channels_, and whether the kernel
      ever had to refuse an epoll_ctl. */
  datatype Epoll = Epoll(kernel: map<nat, Interest>, mark: map<nat, Mark>, refused: bool)

  /** epoll_ctl: ADD wants the descriptor absent, MOD and DEL want it present. */
  function Control(e: Epoll, call: Call, fd: nat, events: Interest): Epoll {
    match call
    case Add => if fd in e.kernel then e.(refused := true) else e.(kernel := e.kernel[fd := events])
    case Mod => if fd in e.kernel then e.(kernel := e.kernel[fd := events]) else e.(refused := true)
    case Del => if fd in e.kernel then e.(kernel := e.kernel - {fd}) else e.(refused := true)
  }

  function EpollUpdate(e: Epoll, fd: nat, events: Interest): Epoll {
    if fd !in e.mark || e.mark[fd] == Deleted then Control(e.(mark := e.mark[fd := Added]), Add, fd, events)
    else if events.IsNone() then Control(e, Del, fd, events).(mark := e.mark[fd := Deleted])
    else Control(e, Mod, fd, events)
  }

  function EpollRemove(e: Epoll, fd: nat): Epoll {
    var d := e.(mark := e.mark - {fd});
    if fd in e.mark && e.mark[fd] == Added then Control(d, Del, fd, NONE_EVENT) else d
  }

  function EpollStep(e: Epoll, op: Op): Epoll {
    match op
    case Update(fd, events) => EpollUpdate(e, fd, events)
    case Remove(fd) => EpollRemove(e, fd)
  }

  /** The kernel holds exactly the channels marked Added, each with its current interest; one
      marked Deleted has none. */
  ghost predicate Mirrors(e: Epoll, reg: Registry) {
    && !e.refused && e.mark.Keys == reg.Keys
    && (forall fd :: fd in e.kernel <==> fd in e.mark && e.mark[fd] == Added)
    && (forall fd :: fd in e.kernel ==> e.kernel[fd] == reg[fd])
    && (forall fd :: fd in e.mark && e.mark[fd] == Deleted ==> reg[fd].IsNone())
  }

  /** EPollPoller takes any registration; it only wants removals to be of registered channels. */
  lemma EpollKeepsMirror(e: Epoll, reg: Registry, op: Op)
    requires Mirrors(e, reg) && (op.Remove? ==> op.fd in reg)
    ensures Mirrors(EpollStep(e, op), Apply(reg, op))
  {
  }

  // ----- runs -----

  function RunReg(ops: seq<Op>): Registry {
    if ops == [] then map[] else Apply(RunReg(ops[..|ops| - 1]), ops[|ops| - 1])
  }

  function RunPoll(ops: seq<Op>): Poll {
    if ops == [] then Poll([], map[]) else PollStep(RunPoll(ops[..|ops| - 1]), ops[|ops| - 1])
  }

  function RunEpoll(ops: seq<Op>): Epoll {
    if ops == [] then Epoll(map[], map[], false) else EpollStep(RunEpoll(ops[..|ops| - 1]), ops[|ops| - 1])
  }

  function RunRaw(ops: seq<Op>): set<nat> {
    if ops == [] then {} else Raw(RunReg(ops[..|ops| - 1]), RunRaw(ops[..|ops| - 1]), ops[|ops| - 1])
  }

  predicate LegalRun(ops: seq<Op>) {
    ops == [] ||
    (LegalRun(ops[..|ops| - 1]) && Legal(RunReg(ops[..|ops| - 1]), RunRaw(ops[..|ops| - 1]), ops[|ops| - 1]))
  }

  lemma {:induction false} RunKeeps(ops: seq<Op>)
    requires LegalRun(ops)
    ensures Dense(RunPoll(ops), RunReg(ops), RunRaw(ops)) && Mirrors(RunEpoll(ops), RunReg(ops))
  {
    if ops != [] {
      var before, op := ops[..|ops| - 1], ops[|ops| - 1];
      RunKeeps(before);
      PollKeepsDense(RunPoll(before), RunReg(before), RunRaw(before), op);
      EpollKeepsMirror(RunEpoll(before), RunReg(before), op);
    }
  }

  /** What poll(2) watches: the entries with a real descriptor and some event. */
  ghost predicate PollWatches(p: Poll, fd: nat, events: Interest) {
    !events.IsNone() && exists i :: 0 <= i < |p.fds| && p.fds[i] == PollFd(fd, events)
  }

  ghost predicate EpollWatches(e: Epoll, fd: nat, events: Interest) {
    !events.IsNone() && fd in e.kernel && e.kernel[fd] == events
  }

  /** On every run that is legal for both, the two pollers watch the same descriptors for the same
      events, namely the registered channels with a non-empty interest; epoll_ctl is never refused
      and the array is dense. */
  lemma PollersAgree(ops: seq<Op>, fd: nat, events: Interest)
    requires LegalRun(ops) && !events.IsNone()
    ensures PollWatches(RunPoll(ops), fd, events) <==> fd in RunReg(ops) && RunReg(ops)[fd] == events
    ensures EpollWatches(RunEpoll(ops), fd, events) <==> fd in RunReg(ops) && RunReg(ops)[fd] == events
    ensures !RunEpoll(ops).refused && Dense(RunPoll(ops), RunReg(ops), RunRaw(ops))
  {
    RunKeeps(ops);
    var p, reg, raw := RunPoll(ops), RunReg(ops), RunRaw(ops);
    if fd in reg && reg[fd] == events {
      assert Leads(p, reg, raw, fd);
      assert p.fds[p.index[fd]] == PollFd(fd, events);
    }
    if PollWatches(p, fd, events) {
      var i :| 0 <= i < |p.fds| && p.fds[i] == PollFd(fd, events);
      assert PointsBack(p, i) && Leads(p, reg, raw, fd);
    }
  }

  // ----- hang-ups: the kernel reports them for every descriptor it is given, whatever the mask -----

  /** The descriptors poll(2) may report a hang-up for: those not negated. */
  predicate PollExposes(p: Poll, fd: nat) { exists i :: 0 <= i < |p.fds| && p.fds[i].fd == fd }

  /** Is the descriptor in epoll's kernel set after these operations?  An update with some interest
      puts or keeps it there, one without flips it. */
  function Holds(ops: seq<Op>, fd: nat): bool {
    if ops == [] then false
    else
      var before, op := ops[..|ops| - 1], ops[|ops| - 1];
      if op.fd != fd then Holds(before, fd)
      else op.Update? && (!op.events.IsNone() || !Holds(before, fd))
  }

  lemma StepHolds(e: Epoll, reg: Registry, op: Op, fd: nat)
    requires Mirrors(e, reg) && (op.Remove? ==> op.fd in reg)
    ensures fd in EpollStep(e, op).kernel <==>
      if op.fd != fd then fd in e.kernel else op.Update? && (!op.events.IsNone() || fd !in e.kernel)
  {
  }

  lemma {:induction false} KernelHolds(ops: seq<Op>, fd: nat)
    requires LegalRun(ops)
    ensures fd in RunEpoll(ops).kernel <==> Holds(ops, fd)
  {
    if ops != [] {
      var before, op := ops[..|ops| - 1], ops[|ops| - 1];
      KernelHolds(before, fd);
      RunKeeps(before);
      StepHolds(RunEpoll(before), RunReg(before), op, fd);
    }
  }

  /** Where hang-ups are reported: by poll(2) for a registered channel with interest, or raw; by
      epoll for every descriptor held, which includes one without interest after an even number of
      empty updates, and then its mask is empty. */
  lemma HangupsReported(ops: seq<Op>, fd: nat)
    requires LegalRun(ops)
    ensures PollExposes(RunPoll(ops), fd) <==> fd in RunReg(ops) && (!RunReg(ops)[fd].IsNone() || fd in RunRaw(ops))
    ensures fd in RunEpoll(ops).kernel <==> Holds(ops, fd)
    ensures fd in RunReg(ops) && !RunReg(ops)[fd].IsNone() ==> Holds(ops, fd)
    ensures !RunEpoll(ops).refused
    ensures Holds(ops, fd) ==> fd in RunReg(ops) && RunEpoll(ops).kernel[fd] == RunReg(ops)[fd]
  {
    RunKeeps(ops);
    KernelHolds(ops, fd);
    var p, reg, raw := RunPoll(ops), RunReg(ops), RunRaw(ops);
    if fd in reg { assert Leads(p, reg, raw, fd); }
    if PollExposes(p, fd) {
      var i :| 0 <= i < |p.fds| && p.fds[i].fd == fd;
      assert PointsBack(p, i);
    }
    RegisteredHeld(ops, fd);
  }

  lemma {:induction false} RegisteredHeld(ops: seq<Op>, fd: nat)
    ensures fd in RunReg(ops) && !RunReg(ops)[fd].IsNone() ==> Holds(ops, fd)
  {
    if ops != [] { RegisteredHeld(ops[..|ops| - 1], fd); }
  }

  /** A raw channel is where the two pollers part: EPollPoller can remove it, while PollPoller has
      left its descriptor positive and asserts otherwise. */
  lemma RawRemovalDiffers(fd: nat)
    ensures var ops := [Op.Update(fd, NONE_EVENT)];
      && LegalRun(ops) && Mirrors(EpollStep(RunEpoll(ops), Op.Remove(fd)), Apply(RunReg(ops), Op.Remove(fd)))
      && !PollAsserts(RunPoll(ops), RunReg(ops), Op.Remove(fd))
  {
    var ops := [Op.Update(fd, NONE_EVENT)];
    assert ops[..0] == [];
    assert LegalRun([]) && RunReg([]) == map[] && RunRaw([]) == {};
    assert RunRaw(ops) == {fd};
    RunKeeps(ops);
    PollAssertsExact(RunPoll(ops), RunReg(ops), RunRaw(ops), Op.Remove(fd));
    EpollKeepsMirror(RunEpoll(ops), RunReg(ops), Op.Remove(fd));
  }
}
