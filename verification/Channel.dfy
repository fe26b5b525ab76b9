/** The interest mask of net/Channel.h.  The mask is only ever built from kReadEvent (POLLIN and
    POLLPRI together) and kWriteEvent (POLLOUT), so two booleans determine it. */
module NetChannel {

  datatype Interest = Interest(read: bool, write: bool) {
    predicate IsNone() { !read && !write }
  }

  const NONE_EVENT := Interest(false, false)

  /** What a channel asks of the poller. */
  datatype PollerCall = Update(read: bool, write: bool) | Remove

  class Channel {
    const fd: nat
    var events: Interest
    var revents: int
    var index: int
    var addedToLoop: bool
    ghost var calls: seq<PollerCall>      // the calls made to the loop's poller

    predicate IsNoneEvent() reads this`events { events.IsNone() }

    predicate IsWriting() reads this`events { events.write }

    predicate IsReading() reads this`events { events.read }

    constructor (fd: nat)
      ensures this.fd == fd && events == NONE_EVENT && index == -1 && !addedToLoop && calls == []
    {
      this.fd := fd;
      events, revents, index, addedToLoop, calls := NONE_EVENT, 0, -1, false, [];
    }

    /** Channel::update: the loop's poller is told the new interest. */
    method Update()
      modifies this`addedToLoop, this`calls
      ensures addedToLoop && calls == old(calls) + [PollerCall.Update(events.read, events.write)]
    {
      addedToLoop := true;
      calls := calls + [PollerCall.Update(events.read, events.write)];
    }

    method EnableReading()
      modifies this`events, this`addedToLoop, this`calls
      ensures events == Interest(true, old(events).write) && addedToLoop
      ensures calls == old(calls) + [PollerCall.Update(events.read, events.write)]
    {
      events := events.(read := true);
      Update();
    }

    method DisableReading()
      modifies this`events, this`addedToLoop, this`calls
      ensures events == Interest(false, old(events).write) && addedToLoop
      ensures calls == old(calls) + [PollerCall.Update(events.read, events.write)]
    {
      events := events.(read := false);
      Update();
    }

    method EnableWriting()
      modifies this`events, this`addedToLoop, this`calls
      ensures events == Interest(old(events).read, true) && addedToLoop
      ensures calls == old(calls) + [PollerCall.Update(events.read, events.write)]
    {
      events := events.(write := true);
      Update();
    }

    method DisableWriting()
      modifies this`events, this`addedToLoop, this`calls
      ensures events == Interest(old(events).read, false) && addedToLoop
      ensures calls == old(calls) + [PollerCall.Update(events.read, events.write)]
    {
      events := events.(write := false);
      Update();
    }

    method DisableAll()
      modifies this`events, this`addedToLoop, this`calls
      ensures events == NONE_EVENT && addedToLoop
      ensures calls == old(calls) + [PollerCall.Update(false, false)]
    {
      events := NONE_EVENT;
      Update();
    }

    /** Channel::remove, with its assertion: the loop's poller forgets the channel. */
    method Remove()
      requires IsNoneEvent()
      modifies this`addedToLoop, this`calls
      ensures !addedToLoop && calls == old(calls) + [PollerCall.Remove]
    {
      addedToLoop := false;
      calls := calls + [PollerCall.Remove];
    }
  }
}
