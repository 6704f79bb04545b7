// net/channel.h and the two pollers. Both refine one map from file descriptors
// to interest masks.
module Interest {
  type Mask = bv16

  const POLLIN: Mask := 0x01
  const POLLPRI: Mask := 0x02
  const POLLOUT: Mask := 0x04
  const READ_EVENT: Mask := POLLIN | POLLPRI
  const WRITE_EVENT: Mask := POLLOUT

  datatype Op = Update(fd: int, mask: Mask) | Remove(fd: int)

  type Watch = map<int, Mask>

  function Apply(w: Watch, op: Op): Watch {
    match op
    case Update(fd, mask) => w[fd := mask]
    case Remove(fd) => w - {fd}
  }

  // The interest map that a history of poller calls stands for.
  function Fold(log: seq<Op>): Watch {
    if log == [] then map[] else Apply(Fold(log[..|log| - 1]), log[|log| - 1])
  }

  lemma FoldStep(log: seq<Op>, op: Op)
    ensures Fold(log + [op]) == Apply(Fold(log), op)
  {
    assert (log + [op])[..|log|] == log;
  }

  function NonZero(w: Watch): Watch {
    map fd | fd in w && w[fd] != 0 :: w[fd]
  }
}

module Channels {
  import opened Interest

  class Channel {
    const fd: int
    var events: Mask
    var revents: int
    var index: int

    constructor (fd: int)
      ensures this.fd == fd && events == 0 && revents == 0 && index == -1
    {
      this.fd := fd;
      events, revents, index := 0, 0, -1;
    }

    predicate IsNoneEvent()
      reads this`events
    {
      events == 0
    }

    predicate IsWriting()
      reads this`events
    {
      events & WRITE_EVENT != 0
    }

    predicate IsReading()
      reads this`events
    {
      events & READ_EVENT != 0
    }

    // Each of these is followed by a call of the poller's UpdateChannel.
    method EnableReading()
      modifies this`events
      ensures IsReading() && IsWriting() == old(IsWriting())
      ensures events & !READ_EVENT == old(events) & !READ_EVENT && events & READ_EVENT == READ_EVENT
    {
      events := events | READ_EVENT;
    }

    method DisableReading()
      modifies this`events
      ensures !IsReading() && IsWriting() == old(IsWriting())
      ensures events == old(events) & !READ_EVENT
    {
      events := events & !READ_EVENT;
    }

    method EnableWriting()
      modifies this`events
      ensures IsWriting() && IsReading() == old(IsReading())
      ensures events & !WRITE_EVENT == old(events) & !WRITE_EVENT
    {
      events := events | WRITE_EVENT;
    }

    method DisableWriting()
      modifies this`events
      ensures !IsWriting() && IsReading() == old(IsReading())
      ensures events == old(events) & !WRITE_EVENT
    {
      events := events & !WRITE_EVENT;
    }

    method DisableAll()
      modifies this`events
      ensures IsNoneEvent() && !IsReading() && !IsWriting()
    {
      events := 0;
    }
  }
}

module PollPollers {
  import opened Interest
  import opened Channels

  // struct pollfd; a negative fd is ignored by the kernel.
  datatype PollFd = PollFd(fd: int, events: Mask, revents: int)

  function Hidden(fd: int): int {
    -fd - 1
  }

  // The descriptor behind a slot.
  function Decode(fd: int): int {
    if fd < 0 then Hidden(fd) else fd
  }

  // The descriptors of the slots that poll reported, in slot order.
  function ReadyFds(slots: seq<PollFd>): (fds: seq<int>)
    ensures |fds| <= |slots|
    ensures forall fd :: fd in fds <==> exists i :: 0 <= i < |slots| && slots[i].revents > 0 && slots[i].fd == fd
  {
    if slots == [] then []
    else
      var last := slots[|slots| - 1];
      var before := ReadyFds(slots[..|slots| - 1]);
      assert forall i :: 0 <= i < |slots| - 1 ==> slots[..|slots| - 1][i] == slots[i];
      if last.revents > 0 then before + [last.fd] else before
  }

  predicate DistinctFds(slots: seq<PollFd>) {
    forall i, j :: 0 <= i < j < |slots| ==> Decode(slots[i].fd) != Decode(slots[j].fd)
  }

  lemma {:induction false} ReadyOnce(slots: seq<PollFd>)
    requires DistinctFds(slots)
    ensures forall i, j :: 0 <= i < j < |ReadyFds(slots)| ==> ReadyFds(slots)[i] != ReadyFds(slots)[j]
  {
    if slots != [] {
      var n := |slots| - 1;
      ReadyOnce(slots[..n]);
      assert slots[n].fd !in ReadyFds(slots[..n]);
    }
  }

  // Array, back pointers and registered masks fit together: descriptors and
  // slots are in bijection, each slot shows the registered mask, and a hidden
  // slot has none.
  ghost predicate Indexed(slots: seq<PollFd>, index: map<int, int>, watch: Watch) {
    && index.Keys == watch.Keys
    && (forall fd :: fd in index ==>
          && fd >= 0
          && 0 <= index[fd] < |slots|
          && Decode(slots[index[fd]].fd) == fd
          && slots[index[fd]].events == watch[fd])
    && (forall i :: 0 <= i < |slots| ==>
          && Decode(slots[i].fd) in index
          && index[Decode(slots[i].fd)] == i
          && (slots[i].fd < 0 ==> slots[i].events == 0))
  }

  lemma IndexedAppend(slots: seq<PollFd>, index: map<int, int>, watch: Watch, fd: int, mask: Mask)
    requires Indexed(slots, index, watch) && fd >= 0 && fd !in index
    ensures Indexed(slots + [PollFd(fd, mask, 0)], index[fd := |slots|], watch[fd := mask])
  {
  }

  // An update after the first hides the slot exactly when the mask is zero.
  function Slot(fd: int, mask: Mask): PollFd {
    PollFd(if mask == 0 then Hidden(fd) else fd, mask, 0)
  }

  lemma IndexedUpdate(slots: seq<PollFd>, index: map<int, int>, watch: Watch, fd: int, mask: Mask)
    requires Indexed(slots, index, watch) && fd in index
    ensures Indexed(slots[index[fd] := Slot(fd, mask)], index, watch[fd := mask])
  {
  }

  // Swap-remove: the last slot moves to the hole and its descriptor's back
  // pointer follows.
  function SwapRemove(slots: seq<PollFd>, idx: int): seq<PollFd>
    requires 0 <= idx < |slots|
  {
    slots[idx := slots[|slots| - 1]][..|slots| - 1]
  }

  function Repointed(slots: seq<PollFd>, index: map<int, int>, fd: int): map<int, int>
    requires fd in index && slots != []
  {
    index[Decode(slots[|slots| - 1].fd) := index[fd]] - {fd}
  }

  lemma IndexedRemove(slots: seq<PollFd>, index: map<int, int>, watch: Watch, fd: int)
    requires Indexed(slots, index, watch) && fd in index
    ensures Indexed(SwapRemove(slots, index[fd]), Repointed(slots, index, fd), watch - {fd})
  {
    var idx, last := index[fd], |slots| - 1;
    var t, r := SwapRemove(slots, idx), Repointed(slots, index, fd);
    forall i | 0 <= i < |t|
      ensures Decode(t[i].fd) in r && r[Decode(t[i].fd)] == i
      ensures t[i].fd < 0 ==> t[i].events == 0
    {
      assert t[i] == if i == idx then slots[last] else slots[i];
    }
  }

  // poll(2) never reports on a hidden slot.
  predicate KernelReport(slots: seq<PollFd>) {
    forall i :: 0 <= i < |slots| ==> slots[i].fd >= 0 || slots[i].revents == 0
  }

  // The channels of the ready slots, in slot order.
  predicate ActiveList(slots: seq<PollFd>, channels: map<int, Channel>, active: seq<Channel>) {
    && |active| == |ReadyFds(slots)|
    && forall k :: 0 <= k < |active| ==> ReadyFds(slots)[k] in channels && active[k] == channels[ReadyFds(slots)[k]]
  }

  class PollPoller {
    var pollfds: seq<PollFd>
    var channels: map<int, Channel>
    // the calls made so far
    ghost var log: seq<Op>

    ghost function Interest(): Watch
      reads this
    {
      Fold(log)
    }

    ghost function Index(): map<int, int>
      reads this, channels.Values
    {
      map fd | fd in channels :: channels[fd].index
    }

    ghost predicate Valid()
      reads this, channels.Values
    {
      && (forall fd :: fd in channels ==> channels[fd].fd == fd)
      && Indexed(pollfds, Index(), Interest())
    }

    // What the kernel is asked to report for a descriptor beyond errors.
    ghost function Watched(): Watch
      reads this, channels.Values
      requires Valid()
    {
      map fd | fd in Index() && pollfds[Index()[fd]].fd >= 0 && pollfds[Index()[fd]].events != 0
        :: pollfds[Index()[fd]].events
    }

    constructor ()
      ensures Valid() && log == [] && channels == map[] && pollfds == []
    {
      pollfds, channels, log := [], map[], [];
    }

    method UpdateChannel(channel: Channel)
      requires Valid() && channel.fd >= 0
      requires channel.index < 0 ==> channel.fd !in channels
      requires channel.index >= 0 ==> channel.fd in channels && channels[channel.fd] == channel
      modifies this, channel`index
      ensures Valid() && log == old(log) + [Update(channel.fd, channel.events)]
      ensures channels == old(channels)[channel.fd := channel]
      ensures old(channel.index) < 0 ==>
                && Index() == old(Index())[channel.fd := |old(pollfds)|]
                && pollfds == old(pollfds) + [PollFd(channel.fd, channel.events, 0)]
      ensures old(channel.index) >= 0 ==>
                && Index() == old(Index()) && 0 <= channel.index < |old(pollfds)|
                && pollfds == old(pollfds)[channel.index := Slot(channel.fd, channel.events)]
    {
      hide Indexed;
      FoldStep(log, Update(channel.fd, channel.events));
      if channel.index < 0 {
        IndexedAppend(pollfds, Index(), Interest(), channel.fd, channel.events);
        assert forall fd :: fd in channels ==> channels[fd] != channel;
        pollfds := pollfds + [PollFd(channel.fd, channel.events, 0)];
        channel.index := |pollfds| - 1;
        channels := channels[channel.fd := channel];
      } else {
        IndexedUpdate(pollfds, Index(), Interest(), channel.fd, channel.events);
        IndexInRange(channel);
        var idx := channel.index;
        var fd := if channel.IsNoneEvent() then Hidden(channel.fd) else channel.fd;
        pollfds := pollfds[idx := PollFd(fd, channel.events, 0)];
      }
      log := log + [Update(channel.fd, channel.events)];
      assert Interest() == old(Interest())[channel.fd := channel.events];
      if old(channel.index) < 0 {
        assert Index() == old(Index())[channel.fd := |old(pollfds)|];
      } else {
        assert Index() == old(Index());
        assert pollfds == old(pollfds)[old(Index())[channel.fd] := Slot(channel.fd, channel.events)];
      }
    }

    lemma IndexInRange(channel: Channel)
      requires Valid() && channel.fd in channels && channels[channel.fd] == channel
      ensures Index()[channel.fd] == channel.index && 0 <= channel.index < |pollfds|
      ensures Decode(pollfds[|pollfds| - 1].fd) in channels
      ensures Decode(pollfds[|pollfds| - 1].fd) == channel.fd <==> channel.index == |pollfds| - 1
    {
    }

    // Array, map and back pointers after a removal.
    method Unslot(channel: Channel)
      requires forall fd :: fd in channels ==> channels[fd].fd == fd
      requires channel.fd in channels && channels[channel.fd] == channel && 0 <= channel.index < |pollfds|
      requires Decode(pollfds[|pollfds| - 1].fd) in channels
      requires Decode(pollfds[|pollfds| - 1].fd) == channel.fd <==> channel.index == |pollfds| - 1
      modifies this`channels, this`pollfds, channels.Values`index
      ensures channels == old(channels) - {channel.fd} && channel.index == old(channel.index)
      ensures pollfds == SwapRemove(old(pollfds), channel.index)
      ensures Index() == Repointed(old(pollfds), old(Index()), channel.fd)
    {
      var idx := channel.index;
      var last := |pollfds| - 1;
      channels := channels - {channel.fd};
      if idx == last {
        pollfds := pollfds[..last];
      } else {
        var channelAtEnd := pollfds[last].fd;
        pollfds := pollfds[idx := pollfds[last]][last := pollfds[idx]];
        if channelAtEnd < 0 {
          channelAtEnd := -channelAtEnd - 1;
        }
        assert channels[channelAtEnd] in old(channels).Values;
        assert forall fd :: fd in channels && channels[fd] == channels[channelAtEnd] ==> fd == channelAtEnd;
        channels[channelAtEnd].index := idx;
        pollfds := pollfds[..last];
      }
      assert Index() == Repointed(old(pollfds), old(Index()), channel.fd);
    }

    // The index of the removed channel is left as it was, so the channel does
    // not meet the demand of UpdateChannel again.
    method RemoveChannel(channel: Channel)
      requires Valid() && channel.fd in channels && channels[channel.fd] == channel && channel.IsNoneEvent()
      requires 0 <= channel.index < |pollfds| && pollfds[channel.index].fd == Hidden(channel.fd)
      modifies this, channels.Values`index
      ensures Valid() && log == old(log) + [Remove(channel.fd)]
      ensures channels == old(channels) - {channel.fd}
      ensures channel.index == old(channel.index) >= 0 && channel.fd !in channels
      ensures pollfds == SwapRemove(old(pollfds), channel.index)
      ensures Index() == Repointed(old(pollfds), old(Index()), channel.fd)
    {
      hide Indexed;
      FoldStep(log, Remove(channel.fd));
      IndexedRemove(pollfds, Index(), Interest(), channel.fd);
      IndexInRange(channel);
      hide SwapRemove, Repointed, Decode;
      Unslot(channel);
      log := log + [Remove(channel.fd)];
      assert Interest() == old(Interest()) - {channel.fd};
      assert pollfds == SwapRemove(old(pollfds), old(Index())[channel.fd]);
      assert Index() == Repointed(old(pollfds), old(Index()), channel.fd);
    }

    // The loop over the slots.
    method ListReady(ghost index: map<int, int>) returns (active: seq<Channel>)
      requires KernelReport(pollfds) && Traced(pollfds, index) && index.Keys == channels.Keys
      requires forall fd :: fd in channels ==> channels[fd].fd == fd
      modifies channels.Values`revents
      ensures ActiveList(pollfds, channels, active)
      ensures forall fd :: fd in channels ==>
                channels[fd].revents == if Reported(pollfds, index, fd) then pollfds[index[fd]].revents
                                        else old(channels[fd].revents)
    {
      hide KernelReport, Decode;
      var slots, registered := pollfds, channels;
      active := [];
      var i := 0;
      while i < |slots|
        invariant 0 <= i <= |slots|
        invariant ActiveList(slots[..i], registered, active)
        invariant forall fd :: fd in registered ==>
                    registered[fd].revents == if index[fd] < i && Reported(slots, index, fd) then slots[index[fd]].revents
                                              else old(registered[fd].revents)
      {
        assert slots[..i + 1][..i] == slots[..i];
        var pfd := slots[i];
        if pfd.revents > 0 {
          SlotFound(slots, index, i);
          var channel := registered[pfd.fd];
          assert channel in registered.Values;
          assert forall fd :: fd in registered && fd != pfd.fd ==> registered[fd] != channel && index[fd] != i;
          channel.revents := pfd.revents;
          active := active + [channel];
        } else {
          assert forall fd :: fd in registered && index[fd] == i ==> !Reported(slots, index, fd);
        }
        i := i + 1;
      }
      assert slots[..i] == slots;
    }

    // Every ready channel is listed exactly once, in slot order, and told what
    // happened; the others are left alone.
    method FillActiveChannels() returns (active: seq<Channel>)
      requires Valid() && KernelReport(pollfds)
      modifies channels.Values`revents
      ensures Valid() && Index() == old(Index())
      ensures ActiveList(pollfds, channels, active)
      ensures forall i, j :: 0 <= i < j < |active| ==> active[i] != active[j]
      ensures forall fd :: fd in channels ==>
                && (channels[fd] in active <==> Reported(pollfds, Index(), fd))
                && channels[fd].events == old(channels[fd].events)
                && channels[fd].revents == if Reported(pollfds, Index(), fd) then pollfds[Index()[fd]].revents
                                           else old(channels[fd].revents)
    {
      hide Indexed, Traced, KernelReport, Reported;
      ghost var index := Index();
      IndexFacts(pollfds, index, Interest());
      active := ListReady(index);
      assert Index() == index;
      ReadyOnce(pollfds);
      ActiveIff(pollfds, index, channels, active);
    }
  }

  predicate Reported(slots: seq<PollFd>, index: map<int, int>, fd: int) {
    fd in index && 0 <= index[fd] < |slots| && slots[index[fd]].revents > 0
  }

  // Every descriptor leads to its slot and every slot back.
  ghost predicate Traced(slots: seq<PollFd>, index: map<int, int>) {
    && (forall fd :: fd in index ==> 0 <= index[fd] < |slots| && Decode(slots[index[fd]].fd) == fd)
    && (forall i :: 0 <= i < |slots| ==> Decode(slots[i].fd) in index && index[Decode(slots[i].fd)] == i)
  }

  lemma SlotFound(slots: seq<PollFd>, index: map<int, int>, i: nat)
    requires Traced(slots, index) && KernelReport(slots) && i < |slots| && slots[i].revents > 0
    ensures slots[i].fd in index && index[slots[i].fd] == i
    ensures forall fd :: fd in index && index[fd] == i ==> fd == slots[i].fd
  {
    assert Decode(slots[i].fd) == slots[i].fd;
  }

  lemma IndexFacts(slots: seq<PollFd>, index: map<int, int>, watch: Watch)
    requires Indexed(slots, index, watch)
    ensures Traced(slots, index) && DistinctFds(slots)
  {
  }

  lemma ActiveIff(slots: seq<PollFd>, index: map<int, int>, channels: map<int, Channel>, active: seq<Channel>)
    requires KernelReport(slots) && ActiveList(slots, channels, active) && index.Keys == channels.Keys
    requires Traced(slots, index)
    requires forall fd :: fd in channels ==> channels[fd].fd == fd
    ensures forall fd :: fd in channels ==> (channels[fd] in active <==> Reported(slots, index, fd))
  {
    forall fd | fd in channels
      ensures channels[fd] in active <==> Reported(slots, index, fd)
    {
      var slot := slots[index[fd]];
      if slot.revents > 0 {
        assert slot.fd in ReadyFds(slots);
        var k :| 0 <= k < |active| && ReadyFds(slots)[k] == fd;
        assert active[k] == channels[fd];
      }
      if channels[fd] in active {
        var k :| 0 <= k < |active| && active[k] == channels[fd];
        assert ReadyFds(slots)[k] in ReadyFds(slots);
      }
    }
  }
}

module EPollPollers {
  import opened Interest
  import opened Channels

  const NEW: int := -1
  const ADDED: int := 1
  const DELETED: int := 2

  datatype Ctl = Add | Mod | Del

  // One member of the kernel's epoll set: its mask and the pointer it carries.
  datatype Member = Member(mask: Mask, ptr: Channel)

  type Kernel = map<int, Member>

  // epoll_ctl: ADD of a present or MOD or DEL of an absent descriptor fails.
  predicate CtlFails(kernel: Kernel, op: Ctl, fd: int) {
    if op.Add? then fd in kernel else fd !in kernel
  }

  function EpollCtl(kernel: Kernel, op: Ctl, fd: int, member: Member): Kernel {
    if CtlFails(kernel, op, fd) then kernel
    else if op.Del? then kernel - {fd}
    else kernel[fd := member]
  }

  // The kernel set mirrors the channels whose index is ADDED, with the mask and
  // the pointer of their last update.
  ghost predicate Mirrors(channels: map<int, Channel>, index: map<int, int>, kernel: Kernel, watch: Watch) {
    && channels.Keys == index.Keys == watch.Keys
    && kernel.Keys <= channels.Keys
    && (forall fd :: fd in index ==>
          && (index[fd] == ADDED || index[fd] == DELETED)
          && (index[fd] == ADDED <==> fd in kernel)
          && (index[fd] == DELETED ==> watch[fd] == 0))
    && (forall fd :: fd in kernel ==> kernel[fd] == Member(watch[fd], channels[fd]))
  }

  lemma MirrorsPut(channels: map<int, Channel>, index: map<int, int>, kernel: Kernel, watch: Watch,
                   fd: int, mask: Mask, ptr: Channel)
    requires Mirrors(channels, index, kernel, watch) && (fd in channels ==> channels[fd] == ptr)
    ensures Mirrors(channels[fd := ptr], index[fd := ADDED], kernel[fd := Member(mask, ptr)], watch[fd := mask])
  {
  }

  lemma MirrorsAdd(channels: map<int, Channel>, index: map<int, int>, kernel: Kernel, watch: Watch,
                   fd: int, mask: Mask, ptr: Channel)
    requires Mirrors(channels, index, kernel, watch)
    requires fd in channels ==> channels[fd] == ptr && index[fd] != ADDED
    ensures fd !in kernel
    ensures Mirrors(channels[fd := ptr], index[fd := ADDED], kernel[fd := Member(mask, ptr)], watch[fd := mask])
  {
    MirrorsPut(channels, index, kernel, watch, fd, mask, ptr);
  }

  lemma MirrorsChange(channels: map<int, Channel>, index: map<int, int>, kernel: Kernel, watch: Watch,
                      fd: int, mask: Mask, ptr: Channel)
    requires Mirrors(channels, index, kernel, watch)
    requires fd in channels && channels[fd] == ptr && index[fd] == ADDED
    ensures fd in kernel
    ensures Mirrors(channels, index[fd := if mask == 0 then DELETED else ADDED],
                    if mask == 0 then kernel - {fd} else kernel[fd := Member(mask, ptr)], watch[fd := mask])
  {
    MirrorsPut(channels, index, kernel, watch, fd, mask, ptr);
    MirrorsDrop(channels, index, kernel, watch, fd);
    assert channels[fd := ptr] == channels;
  }

  lemma MirrorsDrop(channels: map<int, Channel>, index: map<int, int>, kernel: Kernel, watch: Watch, fd: int)
    requires Mirrors(channels, index, kernel, watch) && fd in channels
    ensures Mirrors(channels, index[fd := DELETED], kernel - {fd}, watch[fd := 0])
    ensures Mirrors(channels - {fd}, index - {fd}, kernel - {fd}, watch - {fd})
  {
  }

  lemma MirrorsStates(channels: map<int, Channel>, index: map<int, int>, kernel: Kernel, watch: Watch)
    requires Mirrors(channels, index, kernel, watch)
    ensures channels.Keys == index.Keys
    ensures forall fd :: fd in index ==> index[fd] in {ADDED, DELETED} && (index[fd] == ADDED <==> fd in kernel)
    ensures forall fd :: fd in kernel ==> fd in channels && kernel[fd].ptr == channels[fd]
  {
  }

  class EPollPoller {
    var channels: map<int, Channel>
    var kernel: Kernel
    // epoll_ctl calls that failed
    var failures: nat
    ghost var log: seq<Op>

    ghost function Interest(): Watch
      reads this
    {
      Fold(log)
    }

    ghost function Index(): map<int, int>
      reads this, channels.Values
    {
      map fd | fd in channels :: channels[fd].index
    }

    // No control call ever fails: ADD is only issued for absent descriptors,
    // MOD and DEL only for present ones.
    ghost predicate Valid()
      reads this, channels.Values
    {
      && failures == 0
      && (forall fd :: fd in channels ==> channels[fd].fd == fd)
      && Mirrors(channels, Index(), kernel, Interest())
    }

    // What the kernel is asked to report for a descriptor beyond errors.
    ghost function Watched(): Watch
      reads this
    {
      map fd | fd in kernel && kernel[fd].mask != 0 :: kernel[fd].mask
    }

    constructor ()
      ensures Valid() && log == [] && channels == map[] && kernel == map[]
    {
      channels, kernel, failures, log := map[], map[], 0, [];
    }

    method Update(op: Ctl, channel: Channel)
      modifies this`kernel, this`failures
      ensures kernel == EpollCtl(old(kernel), op, channel.fd, Member(channel.events, channel))
      ensures failures == old(failures) + if CtlFails(old(kernel), op, channel.fd) then 1 else 0
    {
      if CtlFails(kernel, op, channel.fd) {
        failures := failures + 1;
      } else {
        kernel := EpollCtl(kernel, op, channel.fd, Member(channel.events, channel));
      }
    }

    // updateChannel for a channel that is new or was deleted.
    method Enlist(channel: Channel)
      requires forall fd :: fd in channels ==> channels[fd].fd == fd
      requires channel.fd in channels ==> channels[channel.fd] == channel
      requires (channel.index == NEW <==> channel.fd !in channels) && channel.fd !in kernel
      modifies this`channels, this`kernel, this`failures, channel`index
      ensures channels == old(channels)[channel.fd := channel] && channel.index == ADDED
      ensures Index() == old(Index())[channel.fd := ADDED]
      ensures kernel == old(kernel)[channel.fd := Member(channel.events, channel)] && failures == old(failures)
    {
      assert forall fd :: fd in channels && channels[fd] == channel ==> fd == channel.fd;
      if channel.index == NEW {
        channels := channels[channel.fd := channel];
      }
      channel.index := ADDED;
      Update(Add, channel);
      assert channels == old(channels)[channel.fd := channel];
      assert Index() == old(Index())[channel.fd := ADDED];
    }

    // updateChannel for a channel in the kernel set.
    method Amend(channel: Channel)
      requires forall fd :: fd in channels ==> channels[fd].fd == fd
      requires channel.fd in channels && channels[channel.fd] == channel && channel.fd in kernel
      requires channel.index == ADDED
      modifies this`kernel, this`failures, channel`index
      ensures channel.index == if channel.events == 0 then DELETED else ADDED
      ensures Index() == old(Index())[channel.fd := channel.index]
      ensures kernel == if channel.events == 0 then old(kernel) - {channel.fd}
                        else old(kernel)[channel.fd := Member(channel.events, channel)]
      ensures failures == old(failures)
    {
      assert forall fd :: fd in channels && channels[fd] == channel ==> fd == channel.fd;
      if channel.IsNoneEvent() {
        Update(Del, channel);
        channel.index := DELETED;
      } else {
        Update(Mod, channel);
      }
      assert Index() == old(Index())[channel.fd := channel.index];
    }

    method AddChannel(channel: Channel)
      requires Valid() && (channel.index == NEW || channel.index == DELETED)
      requires channel.index == NEW <==> channel.fd !in channels
      requires channel.fd in channels ==> channels[channel.fd] == channel
      modifies this, channel`index
      ensures Valid() && log == old(log) + [Op.Update(channel.fd, channel.events)]
      ensures channels == old(channels)[channel.fd := channel]
      ensures channel.index == ADDED && Index() == old(Index())[channel.fd := ADDED]
      ensures kernel == old(kernel)[channel.fd := Member(channel.events, channel)]
    {
      hide Mirrors, Fold;
      ghost var index, watch := Index(), Interest();
      FoldStep(log, Op.Update(channel.fd, channel.events));
      MirrorsAdd(channels, index, kernel, watch, channel.fd, channel.events, channel);
      Enlist(channel);
      log := log + [Op.Update(channel.fd, channel.events)];
      assert Interest() == watch[channel.fd := channel.events] && Index() == index[channel.fd := ADDED];
    }

    method ChangeChannel(channel: Channel)
      requires Valid() && channel.index == ADDED
      requires channel.fd in channels && channels[channel.fd] == channel
      modifies this, channel`index
      ensures Valid() && log == old(log) + [Op.Update(channel.fd, channel.events)]
      ensures channels == old(channels)
      ensures channel.index == if channel.events == 0 then DELETED else ADDED
      ensures Index() == old(Index())[channel.fd := channel.index]
      ensures kernel == if channel.events == 0 then old(kernel) - {channel.fd}
                        else old(kernel)[channel.fd := Member(channel.events, channel)]
    {
      hide Mirrors, Fold;
      ghost var index, watch := Index(), Interest();
      FoldStep(log, Op.Update(channel.fd, channel.events));
      MirrorsChange(channels, index, kernel, watch, channel.fd, channel.events, channel);
      Amend(channel);
      log := log + [Op.Update(channel.fd, channel.events)];
      assert Interest() == watch[channel.fd := channel.events] && Index() == index[channel.fd := channel.index];
    }

    // A deleted channel is added again even with a zero mask.
    method UpdateChannel(channel: Channel)
      requires Valid()
      requires channel.index in {NEW, ADDED, DELETED}
      requires channel.index == NEW <==> channel.fd !in channels
      requires channel.fd in channels ==> channels[channel.fd] == channel
      modifies this, channel`index
      ensures Valid() && log == old(log) + [Op.Update(channel.fd, channel.events)]
      ensures channels == old(channels)[channel.fd := channel]
      ensures Index() == old(Index())[channel.fd :=
                if old(channel.index) == ADDED && channel.events == 0 then DELETED else ADDED]
      ensures kernel == if channel.index == ADDED
                        then old(kernel)[channel.fd := Member(channel.events, channel)]
                        else old(kernel) - {channel.fd}
    {
      hide Mirrors;
      if channel.index == NEW || channel.index == DELETED {
        AddChannel(channel);
      } else {
        ChangeChannel(channel);
        assert channels == channels[channel.fd := channel];
      }
    }

    // Map, kernel set and index after a removal.
    method Delist(channel: Channel)
      requires forall fd :: fd in channels ==> channels[fd].fd == fd
      requires channel.fd in channels && channels[channel.fd] == channel
      requires channel.index == ADDED <==> channel.fd in kernel
      modifies this`channels, this`kernel, this`failures, channel`index
      ensures channels == old(channels) - {channel.fd} && kernel == old(kernel) - {channel.fd}
      ensures Index() == old(Index()) - {channel.fd} && channel.index == NEW && failures == old(failures)
    {
      assert forall fd :: fd in channels && channels[fd] == channel ==> fd == channel.fd;
      var index := channel.index;
      channels := channels - {channel.fd};
      if index == ADDED {
        Update(Del, channel);
      }
      channel.index := NEW;
      assert Index() == old(Index()) - {channel.fd};
      assert kernel == old(kernel) - {channel.fd};
    }

    // The index goes back to NEW, so the channel can be registered again.
    method RemoveChannel(channel: Channel)
      requires Valid() && channel.fd in channels && channels[channel.fd] == channel && channel.IsNoneEvent()
      modifies this, channel`index
      ensures Valid() && log == old(log) + [Remove(channel.fd)]
      ensures channels == old(channels) - {channel.fd} && kernel == old(kernel) - {channel.fd}
      ensures Index() == old(Index()) - {channel.fd} && channel.index == NEW
    {
      hide Mirrors;
      FoldStep(log, Remove(channel.fd));
      MirrorsStates(channels, Index(), kernel, Interest());
      MirrorsDrop(channels, Index(), kernel, Interest(), channel.fd);
      Delist(channel);
      log := log + [Remove(channel.fd)];
      assert Interest() == old(Interest()) - {channel.fd};
      assert Index() == old(Index()) - {channel.fd};
    }

    // The events epoll_wait delivers carry the pointers of members, each
    // descriptor at most once; every one leads to its registered channel.
    method FillActiveChannels(events: seq<(int, int)>) returns (active: seq<Channel>)
      requires Valid()
      requires forall i :: 0 <= i < |events| ==> events[i].0 in kernel
      requires forall i, j :: 0 <= i < j < |events| ==> events[i].0 != events[j].0
      modifies channels.Values`revents
      ensures Valid() && Index() == old(Index())
      ensures |active| == |events|
      ensures forall i :: 0 <= i < |events| ==>
                && events[i].0 in channels && active[i] == channels[events[i].0] && active[i].revents == events[i].1
      ensures forall i, j :: 0 <= i < j < |active| ==> active[i] != active[j]
    {
      hide Mirrors;
      MirrorsStates(channels, Index(), kernel, Interest());
      var members, registered := kernel, channels;
      forall k | 0 <= k < |events|
        ensures events[k].0 in members && events[k].0 in registered
        ensures members[events[k].0].ptr == registered[events[k].0] && registered[events[k].0].fd == events[k].0
      {
        var fd := events[k].0;
        assert fd in kernel && fd in channels && channels[fd].fd == fd;
      }
      active := [];
      var i := 0;
      while i < |events|
        invariant 0 <= i <= |events| && |active| == i
        invariant forall k :: 0 <= k < i ==> active[k] == registered[events[k].0] && active[k].revents == events[k].1
      {
        var channel := members[events[i].0].ptr;
        assert channel == registered[events[i].0] && channel in registered.Values;
        assert forall k :: 0 <= k < i ==> active[k].fd == events[k].0 && active[k] != channel;
        channel.revents := events[i].1;
        active := active + [channel];
        i := i + 1;
      }
      assert Index() == old(Index());
    }
  }
}

// The two pollers stand for the same interest map.
module PollerRefinement {
  import opened Interest
  import opened PollPollers
  import opened EPollPollers

  // What either poller has the kernel watch is the folded history without the
  // zero masks.
  lemma PollPollerWatches(p: PollPoller)
    requires p.Valid()
    ensures p.Watched() == NonZero(p.Interest())
  {
    var w, n := p.Watched(), NonZero(p.Interest());
    forall fd | fd in p.Interest()
      ensures fd in w <==> fd in n
      ensures fd in w ==> w[fd] == n[fd]
    {
      assert fd in p.Index();
      var slot := p.pollfds[p.Index()[fd]];
      assert Decode(slot.fd) == fd && slot.events == p.Interest()[fd];
    }
    assert w.Keys == n.Keys;
  }

  lemma EPollPollerWatches(e: EPollPoller)
    requires e.Valid()
    ensures e.Watched() == NonZero(e.Interest())
  {
    var w, n := e.Watched(), NonZero(e.Interest());
    forall fd | fd in e.Interest()
      ensures fd in w <==> fd in n
      ensures fd in w ==> w[fd] == n[fd]
    {
      assert fd in e.Index();
    }
    assert w.Keys == n.Keys;
  }

  // After the same calls both watch the same descriptors with the same masks.
  lemma PollersAgree(p: PollPoller, e: EPollPoller)
    requires p.Valid() && e.Valid() && p.log == e.log
    ensures p.Watched() == e.Watched()
  {
    PollPollerWatches(p);
    EPollPollerWatches(e);
  }
}
