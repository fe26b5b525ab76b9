/** The two poller objects over shared Channel objects, proved to take the steps of Pollers; the
    source's assertions are proved where they stand. */
module PollerObjects {
  import opened NetChannel
  import opened P = Pollers

  class PollPoller {
    var pollfds: seq<PollFd>
    var channels: map<nat, Channel>

    ghost function Model(): Poll
      reads this, channels.Values
    {
      Poll(pollfds, map fd | fd in channels :: channels[fd].index)
    }

    /** Every channel is filed under its own descriptor. */
    ghost predicate Filed()
      reads this
    {
      forall fd :: fd in channels ==> channels[fd].fd == fd
    }

    constructor ()
      ensures Filed() && Model() == Poll([], map[])
    {
      pollfds, channels := [], map[];
    }

    /** A channel is new, or it is the one filed under its descriptor. */
    predicate Knows(channel: Channel)
      reads this, channel
    {
      if channel.index < 0 then channel.fd !in channels
      else channel.fd in channels && channels[channel.fd] == channel
    }

    /** A first registration: the entry goes to the end of the array. */
    method Register(channel: Channel)
      requires Filed() && channel.fd !in channels
      modifies this`pollfds, this`channels, channel`index
      ensures Filed() && channels == old(channels)[channel.fd := channel]
      ensures Model() == PollUpdate(old(Model()), channel.fd, channel.events)
    {
      assert forall fd :: fd in channels ==> channels[fd] != channel;
      pollfds := pollfds + [PollFd(channel.fd, channel.events)];
      channel.index := |pollfds| - 1;
      channels := channels[channel.fd := channel];
    }

    /** A later update: the entry at the channel's index is overwritten. */
    method Overwrite(channel: Channel)
      requires channel.fd in channels && channels[channel.fd] == channel && 0 <= channel.index < |pollfds|
      modifies this`pollfds
      ensures Model() == PollUpdate(old(Model()), channel.fd, channel.events)
    {
      var idx := channel.index;
      pollfds := pollfds[idx := PollFd(channel.fd, channel.events)];
      if channel.IsNoneEvent() {
        pollfds := pollfds[idx := PollFd(Negated(channel.fd), channel.events)];
      }
    }

    /** reg and raw are what the calls so far have registered; PollKeepsDense gives the density of
        the result. */
    method UpdateChannel(channel: Channel, ghost reg: Registry, ghost raw: set<nat>)
      requires Filed() && Dense(Model(), reg, raw) && Knows(channel)
      modifies this, channel`index
      ensures Filed() && channels == old(channels)[channel.fd := channel]
      ensures Model() == PollStep(old(Model()), P.Op.Update(channel.fd, channel.events))
    {
      if channel.index < 0 {
        Register(channel);
      } else {
        assert Leads(Model(), reg, raw, channel.fd);
        assert 0 <= channel.index < |pollfds|;
        assert pollfds[channel.index].fd == channel.fd || pollfds[channel.index].fd == Negated(channel.fd);
        Overwrite(channel);
        assert channels[channel.fd := channel] == channels;
      }
    }

    method RemoveChannel(channel: Channel, ghost reg: Registry, ghost raw: set<nat>)
      requires Filed() && Dense(Model(), reg, raw)
      requires channel.fd in channels && channels[channel.fd] == channel
      requires channel.IsNoneEvent() && Legal(reg, raw, P.Op.Remove(channel.fd))
      modifies this, channels.Values`index
      ensures Filed() && channels == old(channels) - {channel.fd}
      ensures Model() == PollStep(old(Model()), P.Op.Remove(channel.fd))
      ensures channel.index == old(channel.index) && !Knows(channel)   // the index is not reset
    {
      assert Leads(Model(), reg, raw, channel.fd);
      var idx := channel.index;
      assert 0 <= idx < |pollfds|;
      assert pollfds[idx] == PollFd(Negated(channel.fd), channel.events);
      assert PointsBack(Model(), |pollfds| - 1);
      TakeOut(channel, idx);
    }

    /** The removal itself: the last entry, if it is another, moves into the gap. */
    method TakeOut(channel: Channel, idx: nat)
      requires Filed() && channel.fd in channels && channels[channel.fd] == channel
      requires idx == channel.index && idx < |pollfds| && Owner(pollfds[|pollfds| - 1]) in channels
      requires idx < |pollfds| - 1 ==> Owner(pollfds[|pollfds| - 1]) != channel.fd
      modifies this, channels.Values`index
      ensures Filed() && channels == old(channels) - {channel.fd}
      ensures Model() == PollRemove(old(Model()), channel.fd) && channel.index == old(channel.index)
    {
      channels := channels - {channel.fd};
      if idx == |pollfds| - 1 {
        pollfds := pollfds[..|pollfds| - 1];
      } else {
        var last := pollfds[|pollfds| - 1];
        var channelAtEnd := last.fd;
        pollfds := pollfds[idx := last][|pollfds| - 1 := pollfds[idx]];
        if channelAtEnd < 0 {
          channelAtEnd := -channelAtEnd - 1;
        }
        channels[channelAtEnd].index := idx;
        pollfds := pollfds[..|pollfds| - 1];
      }
    }

    /** The channels of the first n entries with an answer have it. */
    predicate Told(revents: seq<int>, n: nat)
      requires n <= |revents| == |pollfds|
      reads this, channels.Values
    {
      forall k :: 0 <= k < n && revents[k] > 0 ==>
        pollfds[k].fd in channels && channels[pollfds[k].fd].revents == revents[k]
    }

    /** One entry with an answer: its channel is looked up and told. */
    method Tell(revents: seq<int>, i: nat, ghost reg: Registry, ghost raw: set<nat>) returns (channel: Channel)
      requires Filed() && Dense(Model(), reg, raw) && i < |revents| == |pollfds| && revents[i] > 0
      requires pollfds[i].fd >= 0 && Told(revents, i)
      modifies channels.Values`revents
      ensures Told(revents, i + 1) && Model() == old(Model())
      ensures channel.fd == pollfds[i].fd && channel.fd in channels && channels[channel.fd] == channel
    {
      assert PointsBack(Model(), i);
      channel := channels[pollfds[i].fd];
      forall k | 0 <= k < i && revents[k] > 0 ensures channels[pollfds[k].fd] != channel {
        assert PointsBack(Model(), k);
      }
      channel.revents := revents[i];
    }

    /** fillActiveChannels: given the kernel's answers, all of them on real descriptors and counted
        by numEvents, the active channels are exactly the reported ones, in array order, and each is
        told its own answer. */
    method FillActiveChannels(revents: seq<int>, numEvents: nat, ghost reg: Registry, ghost raw: set<nat>)
        returns (active: seq<Channel>)
      requires Filed() && Dense(Model(), reg, raw) && |revents| == |pollfds|
      requires forall i :: 0 <= i < |revents| && revents[i] > 0 ==> pollfds[i].fd >= 0
      requires numEvents == |Reported(pollfds, revents)|
      modifies channels.Values`revents
      ensures Fds(active) == Reported(pollfds, revents) && Told(revents, |revents|)
      ensures forall k :: 0 <= k < |active| ==> active[k].fd in channels && channels[active[k].fd] == active[k]
    {
      active := [];
      var left := numEvents;
      var i := 0;
      while i < |pollfds| && left > 0
        invariant 0 <= i <= |pollfds| && left + |active| == numEvents
        invariant Told(revents, i) && Model() == old(Model())
        invariant Fds(active) == Reported(pollfds[..i], revents[..i])
        invariant forall k :: 0 <= k < |active| ==> active[k].fd in channels && channels[active[k].fd] == active[k]
      {
        ReportedSnoc(pollfds, revents, i);
        if revents[i] > 0 {
          left := left - 1;
          var channel := Tell(revents, i, reg, raw);
          active := active + [channel];
        }
        i := i + 1;
      }
      AllReported(pollfds, revents, i);
    }
  }

  function Fds(cs: seq<Channel>): (r: seq<nat>)
    ensures |r| == |cs|
  {
    seq(|cs|, i requires 0 <= i < |cs| => cs[i].fd)
  }

  /** The descriptors poll(2) has answered for, in array order. */
  function Reported(fds: seq<PollFd>, revents: seq<int>): seq<nat>
    requires |revents| == |fds|
  {
    if fds == [] then []
    else
      var n := |fds| - 1;
      Reported(fds[..n], revents[..n]) + if revents[n] > 0 then [Owner(fds[n])] else []
  }

  predicate Answers(fds: seq<PollFd>, revents: seq<int>, fd: nat, i: nat)
    requires i < |fds| == |revents|
  {
    Owner(fds[i]) == fd && revents[i] > 0
  }

  /** A descriptor is reported exactly if some entry of it has an answer. */
  lemma {:induction false} ReportedExact(fds: seq<PollFd>, revents: seq<int>, fd: nat)
    requires |revents| == |fds|
    ensures fd in Reported(fds, revents) <==> exists i :: 0 <= i < |fds| && Answers(fds, revents, fd, i)
  {
    if fds != [] {
      var n := |fds| - 1;
      ReportedExact(fds[..n], revents[..n], fd);
      assert forall i :: 0 <= i < n ==> (Answers(fds[..n], revents[..n], fd, i) <==> Answers(fds, revents, fd, i));
      assert fd in Reported(fds, revents) <==> fd in Reported(fds[..n], revents[..n]) || Answers(fds, revents, fd, n);
    }
  }

  lemma ReportedSnoc(fds: seq<PollFd>, revents: seq<int>, i: nat)
    requires i < |fds| == |revents|
    ensures Reported(fds[..i + 1], revents[..i + 1]) ==
            Reported(fds[..i], revents[..i]) + if revents[i] > 0 then [Owner(fds[i])] else []
  {
    assert fds[..i + 1][..i] == fds[..i] && revents[..i + 1][..i] == revents[..i];
  }

  /** When the prefix has them all, no later entry has an answer. */
  lemma NoneLeft(fds: seq<PollFd>, revents: seq<int>, i: nat)
    requires i <= |fds| == |revents| && |Reported(fds[..i], revents[..i])| == |Reported(fds, revents)|
    ensures forall j :: i <= j < |revents| ==> revents[j] <= 0
  {
    forall j | i <= j < |revents| ensures revents[j] <= 0 {
      assert fds[..j][..i] == fds[..i] && revents[..j][..i] == revents[..i];
      ReportedPrefix(fds[..j], revents[..j], i);
      ReportedSnoc(fds, revents, j);
      ReportedPrefix(fds, revents, j + 1);
    }
  }

  /** A prefix with as many reports as there are has them all. */
  lemma AllReported(fds: seq<PollFd>, revents: seq<int>, i: nat)
    requires i <= |fds| == |revents|
    requires i == |fds| || |Reported(fds[..i], revents[..i])| >= |Reported(fds, revents)|
    ensures Reported(fds[..i], revents[..i]) == Reported(fds, revents)
    ensures forall j :: i <= j < |revents| ==> revents[j] <= 0
  {
    assert fds[..|fds|] == fds && revents[..|revents|] == revents;
    ReportedPrefix(fds, revents, i);
    if i < |fds| { NoneLeft(fds, revents, i); }
  }

  /** Once all reported descriptors are found, the rest of the array has none. */
  lemma {:induction false} ReportedPrefix(fds: seq<PollFd>, revents: seq<int>, i: nat)
    requires i <= |fds| == |revents|
    ensures Reported(fds[..i], revents[..i]) <= Reported(fds, revents)
    decreases |fds|
  {
    if i == |fds| {
      assert fds[..i] == fds && revents[..i] == revents;
    } else {
      var n := |fds| - 1;
      ReportedPrefix(fds[..n], revents[..n], i);
      assert fds[..n][..i] == fds[..i] && revents[..n][..i] == revents[..i];
    }
  }

  const NEW := -1
  const ADDED := 1
  const DELETED := 2

  class EPollPoller {
    var channels: map<nat, Channel>
    ghost var kernel: map<nat, Interest>
    ghost var refused: bool

    ghost predicate Filed()
      reads this, channels.Values
    {
      forall fd :: fd in channels ==>
        channels[fd].fd == fd && (channels[fd].index == ADDED || channels[fd].index == DELETED)
    }

    ghost function Model(): Epoll
      reads this, channels.Values
    {
      Epoll(kernel, map fd | fd in channels :: if channels[fd].index == ADDED then Added else Deleted, refused)
    }

    constructor ()
      ensures Filed() && Model() == Epoll(map[], map[], false)
    {
      channels, kernel, refused := map[], map[], false;
    }

    /** epoll_ctl on the kernel's set. */
    method Ctl(call: Call, channel: Channel)
      modifies this`kernel, this`refused
      ensures Model() == Control(old(Model()), call, channel.fd, channel.events)
    {
      ghost var e := Control(Model(), call, channel.fd, channel.events);
      kernel, refused := e.kernel, e.refused;
    }

    /** set_index, as the marks see it. */
    method Mark(channel: Channel, index: int)
      requires Filed() && index in {ADDED, DELETED}
      requires channel.fd !in channels || channels[channel.fd] == channel
      modifies this`channels, channel`index
      ensures Filed() && channel.index == index && channels == old(channels)[channel.fd := channel]
      ensures var m := old(Model());
        Model() == m.(mark := m.mark[channel.fd := if index == ADDED then Added else Deleted])
    {
      assert forall fd :: fd in channels && fd != channel.fd ==> channels[fd] != channel;
      channel.index := index;
      channels := channels[channel.fd := channel];
    }

    method UpdateChannel(channel: Channel)
      requires Filed() && channel.index in {NEW, ADDED, DELETED}
      requires if channel.index == NEW then channel.fd !in channels
               else channel.fd in channels && channels[channel.fd] == channel
      modifies this, channel`index
      ensures Filed() && channels == old(channels)[channel.fd := channel]
      ensures Model() == EpollStep(old(Model()), P.Op.Update(channel.fd, channel.events))
    {
      if channel.index == NEW || channel.index == DELETED {
        Mark(channel, ADDED);
        Ctl(Add, channel);
      } else {
        assert channels[channel.fd := channel] == channels;
        if channel.IsNoneEvent() {
          Ctl(Del, channel);
          Mark(channel, DELETED);
        } else {
          Ctl(Mod, channel);
        }
      }
    }

    method RemoveChannel(channel: Channel)
      requires Filed() && channel.fd in channels && channels[channel.fd] == channel && channel.IsNoneEvent()
      modifies this, channel`index
      ensures Filed() && channels == old(channels) - {channel.fd} && channel.index == NEW
      ensures Model() == EpollStep(old(Model()), P.Op.Remove(channel.fd))
    {
      var index := channel.index;
      Forget(channel);
      if index == ADDED {
        Ctl(Del, channel);
      }
    }

    method Forget(channel: Channel)
      requires Filed() && channel.fd in channels && channels[channel.fd] == channel
      modifies this`channels, channel`index
      ensures Filed() && channel.index == NEW && channels == old(channels) - {channel.fd}
      ensures Model() == old(Model()).(mark := old(Model()).mark - {channel.fd})
    {
      assert forall fd :: fd in channels && fd != channel.fd ==> channels[fd] != channel;
      channels := channels - {channel.fd};
      channel.index := NEW;
    }
  }
}
