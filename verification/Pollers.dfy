/** Channel, EpollPoller and PollPoller over shared Channel objects. */
module Pollers {
  import opened PollerSpec

  const READ_EVENT: Mask := 3   // POLLIN | POLLPRI
  const WRITE_EVENT: Mask := 4  // POLLOUT

  function With(mask: Mask, bits: Mask): Mask {
    mask | bits
  }

  function Sans(mask: Mask, bits: Mask): Mask {
    mask & !bits
  }

  predicate Writing(mask: Mask) {
    mask & WRITE_EVENT != 0
  }

  predicate Reading(mask: Mask) {
    mask & READ_EVENT != 0
  }

  /**
   * The mask operations are two independent interests: each sets its own and
   * keeps the other. A mask of these bits is empty exactly without either.
   */
  lemma MaskOperations(m: Mask)
    ensures Reading(With(m, READ_EVENT)) && (Writing(With(m, READ_EVENT)) <==> Writing(m))
    ensures Writing(With(m, WRITE_EVENT)) && (Reading(With(m, WRITE_EVENT)) <==> Reading(m))
    ensures !Writing(Sans(m, WRITE_EVENT)) && (Reading(Sans(m, WRITE_EVENT)) <==> Reading(m))
    ensures m <= With(READ_EVENT, WRITE_EVENT) ==> (m == 0 <==> !Reading(m) && !Writing(m))
  {
  }

  class Channel {
    const fd: int
    var events: Mask
    var revents: int
    var index: int
    ghost const id: nat

    constructor (fd: int, ghost id: nat)
      ensures this.id == id && View() == Chan(fd, 0, NEW)
    {
      this.fd, this.id := fd, id;
      events, revents, index := 0, 0, NEW;
    }

    ghost function View(): Chan
      reads this`events, this`index
    {
      Chan(fd, events, index)
    }

    predicate IsNoneEvent()
      reads this
    {
      events == 0
    }

    predicate IsWriting()
      reads this
    {
      Writing(events)
    }
  }

  /** The channel objects behind the numbers of a value-level poller. */
  ghost predicate Names(known: map<nat, Channel>, chans: map<nat, Chan>)
    reads known.Values
  {
    && known.Keys == chans.Keys
    && forall c | c in known :: known[c].id == c && known[c] in known.Values && known[c].View() == chans[c]
  }

  class EpollPoller {
    var channelMaps: map<int, Channel>
    var kernel: map<int, (Mask, Channel)>  // the kernel's interest list
    var failed: bool
    ghost var known: map<nat, Channel>
    ghost var p: Epoll

    ghost predicate Linked()
      reads this, known.Values
    {
      && Names(known, p.chans)
      && channelMaps.Keys == p.maps.Keys && kernel.Keys == p.kernel.Keys
      && (forall fd | fd in channelMaps :: p.maps[fd] in known && channelMaps[fd] == known[p.maps[fd]])
      && (forall fd | fd in kernel ::
            p.kernel[fd].chan in known && kernel[fd] == (p.kernel[fd].mask, known[p.kernel[fd].chan]))
      && failed == p.failed
    }

    constructor (ghost known: map<nat, Channel>)
      requires forall c | c in known :: known[c].id == c && known[c].index == NEW
      ensures Linked() && this.known == known && Fresh(p.chans) && p == EpollInit(p.chans)
    {
      channelMaps, kernel, failed := map[], map[], false;
      this.known := known;
      p := EpollInit(map c | c in known :: known[c].View());
    }

    /** epoll_ctl with the channel's descriptor, mask and pointer. */
    method Update(ctl: Ctl, channel: Channel)
      requires Linked() && channel.id in known && known[channel.id] == channel
      modifies this
      ensures Linked() && known == old(known) && p == EpollCtl(old(p), ctl, channel.id)
    {
      p := EpollCtl(p, ctl, channel.id);
      if (channel.fd in kernel) == ctl.CtlAdd? {
        failed := true;
      } else if ctl.CtlDel? {
        kernel := kernel - {channel.fd};
      } else {
        kernel := kernel[channel.fd := (channel.events, channel)];
      }
    }

    method SetIndex(channel: Channel, index: int)
      requires Linked() && channel.id in known && known[channel.id] == channel
      modifies this`p, channel`index
      ensures Linked() && p == old(p).(chans := PollerSpec.SetIndex(old(p).chans, channel.id, index))
    {
      channel.index := index;
      p := p.(chans := PollerSpec.SetIndex(p.chans, channel.id, index));
    }

    method UpdateChannel(channel: Channel)
      requires Linked() && channel.id in known && known[channel.id] == channel
      modifies this, channel`index
      ensures Linked() && known == old(known) && p == EpollUpdate(old(p), channel.id)
    {
      var index := channel.index;
      if index == NEW || index == DELETED {
        if index == NEW {
          channelMaps := channelMaps[channel.fd := channel];
          p := p.(maps := p.maps[channel.fd := channel.id]);
        }
        SetIndex(channel, ADDED);
        Update(CtlAdd, channel);
      } else if channel.IsNoneEvent() {
        Update(CtlDel, channel);
        SetIndex(channel, DELETED);
      } else {
        Update(CtlMod, channel);
      }
    }

    method RemoveChannel(channel: Channel)
      requires Linked() && channel.id in known && known[channel.id] == channel
      modifies this, channel`index
      ensures Linked() && known == old(known) && p == EpollApply(old(p), Remove(channel.id))
    {
      channelMaps := channelMaps - {channel.fd};
      p := p.(maps := p.maps - {channel.fd});
      if channel.index == ADDED {
        Update(CtlDel, channel);
      }
      SetIndex(channel, NEW);
    }

    /** The channel's mask operations: change events_, then Update. */
    method SetEvents(channel: Channel, mask: Mask)
      requires Linked() && channel.id in known && known[channel.id] == channel
      modifies this, channel
      ensures Linked() && known == old(known) && p == EpollApply(old(p), PollerSpec.SetEvents(channel.id, mask))
      ensures channel.events == mask
    {
      channel.events := mask;
      p := p.(chans := p.chans[channel.id := p.chans[channel.id].(events := mask)]);
      UpdateChannel(channel);
    }

    method EnableRead(channel: Channel)
      requires Linked() && channel.id in known && known[channel.id] == channel
      modifies this, channel
      ensures Linked() && p == EpollApply(old(p), PollerSpec.SetEvents(channel.id, With(old(channel.events), READ_EVENT)))
      ensures channel.events == With(old(channel.events), READ_EVENT)
    {
      SetEvents(channel, With(channel.events, READ_EVENT));
    }

    method EnableWrite(channel: Channel)
      requires Linked() && channel.id in known && known[channel.id] == channel
      modifies this, channel
      ensures Linked() && p == EpollApply(old(p), PollerSpec.SetEvents(channel.id, With(old(channel.events), WRITE_EVENT)))
      ensures channel.events == With(old(channel.events), WRITE_EVENT)
    {
      SetEvents(channel, With(channel.events, WRITE_EVENT));
    }

    method DisableWrite(channel: Channel)
      requires Linked() && channel.id in known && known[channel.id] == channel
      modifies this, channel
      ensures Linked() && p == EpollApply(old(p), PollerSpec.SetEvents(channel.id, Sans(old(channel.events), WRITE_EVENT)))
      ensures channel.events == Sans(old(channel.events), WRITE_EVENT)
    {
      SetEvents(channel, Sans(channel.events, WRITE_EVENT));
    }

    method DisableAll(channel: Channel)
      requires Linked() && channel.id in known && known[channel.id] == channel
      modifies this, channel
      ensures Linked() && p == EpollApply(old(p), PollerSpec.SetEvents(channel.id, 0)) && channel.events == 0
    {
      SetEvents(channel, 0);
    }
  }

  class PollPoller {
    var channelMaps: map<int, Channel>
    var pollList: seq<PollFd>
    ghost var known: map<nat, Channel>
    ghost var p: Poll

    ghost predicate Linked()
      reads this, known.Values
    {
      && Names(known, p.chans)
      && channelMaps.Keys == p.maps.Keys && pollList == p.list
      && forall fd | fd in channelMaps :: p.maps[fd] in known && channelMaps[fd] == known[p.maps[fd]]
    }

    constructor (ghost known: map<nat, Channel>)
      requires forall c | c in known :: known[c].id == c && known[c].index == NEW
      ensures Linked() && this.known == known && Fresh(p.chans) && p == PollInit(p.chans)
    {
      channelMaps, pollList := map[], [];
      this.known := known;
      p := PollInit(map c | c in known :: known[c].View());
    }

    method SetIndex(channel: Channel, index: int)
      requires Linked() && channel.id in known && known[channel.id] == channel
      modifies this`p, channel`index
      ensures Linked() && p == old(p).(chans := PollerSpec.SetIndex(old(p).chans, channel.id, index))
    {
      channel.index := index;
      p := p.(chans := PollerSpec.SetIndex(p.chans, channel.id, index));
    }

    /** False is an index past the end of the vector. */
    method UpdateChannel(channel: Channel) returns (ok: bool)
      requires Linked() && channel.id in known && known[channel.id] == channel
      modifies this, channel`index
      ensures Linked() && known == old(known)
      ensures ok <==> PollTryUpdate(old(p), channel.id).Some?
      ensures p == if ok then PollTryUpdate(old(p), channel.id).value else old(p)
    {
      ok := channel.index < |pollList|;
      if ok {
        AddOrModify(channel);
      }
    }

    method AddOrModify(channel: Channel)
      requires Linked() && channel.id in known && known[channel.id] == channel
      requires channel.index < |pollList|
      modifies this, channel`index
      ensures Linked() && known == old(known) && p == PollUpdate(old(p), channel.id)
    {
      var pollFd := PollFd(channel.fd, channel.events);
      p := PollUpdate(p, channel.id);
      if channel.index < 0 {
        pollList := pollList + [pollFd];
        channel.index := |pollList| - 1;
        channelMaps := channelMaps[channel.fd := channel];
      } else {
        pollList := pollList[channel.index := pollFd];
      }
    }

    /** Removal through whatever index the channel has; false is an index outside the vector. */
    method RemoveChannel(channel: Channel) returns (ok: bool)
      requires Linked() && channel.id in known && known[channel.id] == channel
      requires forall i | 0 <= i < |pollList| :: pollList[i].fd in channelMaps
      modifies this, known.Values`index
      ensures Linked() && known == old(known)
      ensures ok <==> PollTryRemove(old(p), channel.id).Some?
      ensures p == if ok then PollTryRemove(old(p), channel.id).value else old(p)
    {
      ok := 0 <= channel.index < |pollList|;
      if ok {
        SwapAndPop(channel);
      }
    }

    /** Changing the list alone; `live` is who has a slot in it. */
    method SetList(list: seq<PollFd>, ghost live: set<nat>)
      requires Linked()
      modifies this`pollList, this`p
      ensures Linked() && p == old(p).(list := list, live := live)
    {
      pollList := list;
      p := p.(list := list, live := live);
    }

    /** Swap the hole with the last slot, whose channel learns its new place, then pop. */
    method SwapAndPop(channel: Channel)
      requires Linked() && channel.id in known && known[channel.id] == channel
      requires 0 <= channel.index < |pollList| && pollList[|pollList| - 1].fd in channelMaps
      modifies this, known.Values`index
      ensures Linked() && known == old(known) && p == PollRemove(old(p), channel.id)
    {
      var idx, last := channel.index, |pollList| - 1;
      SwapThenPop(pollList, idx);
      if idx != last {
        var moved := channelMaps[pollList[last].fd];
        SetList(pollList[idx := pollList[last]][last := pollList[idx]], p.live);
        SetIndex(moved, idx);
      }
      SetList(pollList[..last], p.live - {channel.id});
    }

    /** The channel's mask operations: change events_, then Update. */
    method SetEvents(channel: Channel, mask: Mask) returns (ok: bool)
      requires Linked() && channel.id in known && known[channel.id] == channel
      modifies this, channel
      ensures Linked() && known == old(known)
      ensures ok <==> PollTrySet(old(p), channel.id, mask).Some?
      ensures ok ==> p == PollTrySet(old(p), channel.id, mask).value
    {
      channel.events := mask;
      p := p.(chans := p.chans[channel.id := p.chans[channel.id].(events := mask)]);
      ok := UpdateChannel(channel);
    }

    /** Each slot belongs to a channel of its own. */
    ghost static predicate Slots(list: seq<PollFd>, channels: map<int, Channel>, maps: map<int, nat>, slot: map<Channel, int>) {
      && channels.Keys == maps.Keys
      && forall i | 0 <= i < |list| ::
           && list[i].fd in channels && channels[list[i].fd].id == maps[list[i].fd]
           && channels[list[i].fd] in slot && slot[channels[list[i].fd]] == i
    }

    /** The loop over poll_list_: collect the ready channels until `nready` are found. */
    static method Collect(
      list: seq<PollFd>, channels: map<int, Channel>, revents: seq<int>, nready: int,
      ghost maps: map<int, nat>, ghost slot: map<Channel, int>
    ) returns (active: seq<Channel>, ghost ids: seq<nat>)
      requires Slots(list, channels, maps, slot) && |revents| == |list|
      modifies slot.Keys`revents
      ensures ids == FillActive(list, maps, revents, nready) && |ids| == |active|
      ensures forall j | 0 <= j < |active| :: active[j].id == ids[j]
      ensures forall c | c in active ::
                c in slot && 0 <= slot[c] < |list| && c.revents == revents[slot[c]]
    {
      active, ids := [], [];
      var i, left := 0, nready;
      while i < |list| && left > 0
        invariant 0 <= i <= |list| && |ids| == |active|
        invariant FillActive(list, maps, revents, nready) == ids + FillActive(list[i..], maps, revents[i..], left)
        invariant forall j | 0 <= j < |active| :: active[j].id == ids[j]
        invariant forall c | c in active :: c in slot && 0 <= slot[c] < i && c.revents == revents[slot[c]]
      {
        FillActiveStep(list, maps, revents, i, left, ids);
        if revents[i] > 0 && list[i].fd in channels {
          var channel := channels[list[i].fd];
          channel.revents := revents[i];
          ids := ids + [maps[list[i].fd]];
          active := active + [channel];
          left := left - 1;
        }
        i := i + 1;
      }
    }

    /** poll() has set every slot's revents. */
    method FillActiveChannels(revents: seq<int>, nready: int) returns (active: seq<Channel>)
      requires Linked() && PollAgrees(p) && |revents| == |pollList|
      modifies known.Values`revents
      ensures Linked()
      ensures |active| == |FillActive(p.list, p.maps, revents, nready)|
      ensures forall i | 0 <= i < |active| ::
                active[i].id == FillActive(p.list, p.maps, revents, nready)[i]
      ensures forall c | c in active :: 0 <= c.index < |revents| && c.revents == revents[c.index]
    {
      ghost var ids;
      ghost var slot := map c | c in known.Values :: c.index;
      active, ids := Collect(pollList, channelMaps, revents, nready, p.maps, slot);
    }
  }

  lemma SwapThenPop(list: seq<PollFd>, idx: nat)
    requires idx < |list|
    ensures var last := |list| - 1;
      list[idx := list[last]][last := list[idx]][..last] ==
      if idx == last then list[..last] else list[idx := list[last]][..last]
  {
  }

  lemma FillActiveStep(list: seq<PollFd>, maps: map<int, nat>, revents: seq<int>, i: nat, left: int, before: seq<nat>)
    requires i < |list| == |revents| && left > 0
    ensures before + FillActive(list[i..], maps, revents[i..], left) ==
            if revents[i] > 0 && list[i].fd in maps then
              before + [maps[list[i].fd]] + FillActive(list[i + 1..], maps, revents[i + 1..], left - 1)
            else
              before + FillActive(list[i + 1..], maps, revents[i + 1..], left)
  {
    assert list[i..][1..] == list[i + 1..] && revents[i..][1..] == revents[i + 1..];
  }

}
