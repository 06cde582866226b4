/**
 * Channel registration. Two pollers keep the same interests in two index-based
 * ways: epoll with a three-valued state per channel, poll with a dense list
 * and swap-with-last removal. Channels are named by numbers.
 */
module PollerSpec {
  import opened Streams

  type Mask = bv8

  const NEW := -1
  const ADDED := 1
  const DELETED := 2

  datatype Chan = Chan(fd: int, events: Mask, index: int)

  /** What one file descriptor is watched for, and for which channel. */
  datatype Want = Want(mask: Mask, chan: nat)

  type Interest = map<int, Want>

  datatype Op = SetEvents(c: nat, mask: Mask) | Remove(c: nat)

  /** The simple meaning of both pollers. */
  function Watch(want: Interest, fd: int, op: Op): Interest {
    match op
    case SetEvents(c, mask) => if mask == 0 then want - {fd} else want[fd := Want(mask, c)]
    case Remove(_) => want - {fd}
  }

  // -------------------------------------------------------------- epoll

  /** channel_maps_, the kernel's set, and whether some epoll_ctl failed. */
  datatype Epoll = Epoll(chans: map<nat, Chan>, maps: map<int, nat>, kernel: map<int, Want>, failed: bool)

  datatype Ctl = CtlAdd | CtlMod | CtlDel

  /** EPOLL_CTL_ADD fails on a registered fd, the others on an unregistered one. */
  predicate Legal(kernel: map<int, Want>, ctl: Ctl, fd: int) {
    if ctl.CtlAdd? then fd !in kernel else fd in kernel
  }

  function EpollCtl(p: Epoll, ctl: Ctl, c: nat): Epoll
    requires c in p.chans
  {
    var fd := p.chans[c].fd;
    if !Legal(p.kernel, ctl, fd) then p.(failed := true)
    else if ctl.CtlDel? then p.(kernel := p.kernel - {fd})
    else p.(kernel := p.kernel[fd := Want(p.chans[c].events, c)])
  }

  function SetIndex(chans: map<nat, Chan>, c: nat, index: int): map<nat, Chan>
    requires c in chans
  {
    chans[c := chans[c].(index := index)]
  }

  function EpollUpdate(p: Epoll, c: nat): Epoll
    requires c in p.chans
  {
    var ch := p.chans[c];
    if ch.index == NEW || ch.index == DELETED then
      var maps := if ch.index == NEW then p.maps[ch.fd := c] else p.maps;
      EpollCtl(p.(maps := maps, chans := SetIndex(p.chans, c, ADDED)), CtlAdd, c)
    else if ch.events == 0 then
      var q := EpollCtl(p, CtlDel, c);
      q.(chans := SetIndex(q.chans, c, DELETED))
    else EpollCtl(p, CtlMod, c)
  }

  function EpollRemove(p: Epoll, c: nat): Epoll
    requires c in p.chans
  {
    var q := p.(maps := p.maps - {p.chans[c].fd});
    var r := if p.chans[c].index == ADDED then EpollCtl(q, CtlDel, c) else q;
    r.(chans := SetIndex(r.chans, c, NEW))
  }

  /** A channel changes its mask and updates, or is removed. */
  function EpollApply(p: Epoll, op: Op): Epoll
    requires op.c in p.chans
  {
    match op
    case SetEvents(c, mask) => EpollUpdate(p.(chans := p.chans[c := p.chans[c].(events := mask)]), c)
    case Remove(c) => EpollRemove(p, c)
  }

  /** The index says where a channel is: in the map, and in the kernel with its mask. */
  predicate EpollAgrees(p: Epoll) {
    && !p.failed
    && (forall c | c in p.chans ::
          var ch := p.chans[c];
          && (ch.index == NEW || ch.index == ADDED || ch.index == DELETED)
          && (ch.index != NEW <==> ch.fd in p.maps && p.maps[ch.fd] == c)
          && (ch.index == ADDED <==> ch.fd in p.kernel && p.kernel[ch.fd] == Want(ch.events, c))
          && (ch.index == DELETED ==> ch.fd !in p.kernel))
    && (forall fd | fd in p.maps :: p.maps[fd] in p.chans && p.chans[p.maps[fd]].fd == fd)
    && (forall fd | fd in p.kernel ::
          fd in p.maps && p.maps[fd] == p.kernel[fd].chan && p.kernel[fd].chan in p.chans &&
          p.kernel[fd].mask == p.chans[p.kernel[fd].chan].events &&
          p.chans[p.kernel[fd].chan].index == ADDED)
  }

  /** No other registered channel uses this one's descriptor. */
  predicate FdFree(chans: map<nat, Chan>, maps: map<int, nat>, c: nat)
    requires c in chans
  {
    chans[c].fd in maps ==> maps[chans[c].fd] == c
  }

  function EpollInterest(p: Epoll): Interest {
    map fd | fd in p.kernel && p.kernel[fd].mask != 0 :: p.kernel[fd]
  }

  /** What one update does to the poller's three parts. */
  lemma EpollSetMoves(p: Epoll, c: nat, mask: Mask)
    requires EpollAgrees(p) && c in p.chans && FdFree(p.chans, p.maps, c)
    ensures var q, ch := EpollApply(p, SetEvents(c, mask)), p.chans[c];
      && !q.failed
      && q.chans == p.chans[c := Chan(ch.fd, mask, if ch.index == ADDED && mask == 0 then DELETED else ADDED)]
      && q.maps == p.maps[ch.fd := c]
      && q.kernel == (if ch.index == ADDED && mask == 0 then p.kernel - {ch.fd} else p.kernel[ch.fd := Want(mask, c)])
  {
    var ch := p.chans[c];
    if ch.index != NEW {
      assert p.maps[ch.fd] == c && p.maps == p.maps[ch.fd := c];
    }
  }

  /**
   * Epoll registration: every epoll_ctl is legal, the index keeps saying where
   * the channel is, and the kernel's non-empty masks mean the simple map. An
   * empty mask takes a watched descriptor out of the kernel's set.
   */
  lemma EpollSetKeeps(p: Epoll, c: nat, mask: Mask)
    requires EpollAgrees(p) && c in p.chans && FdFree(p.chans, p.maps, c)
    ensures var q := EpollApply(p, SetEvents(c, mask));
      && EpollAgrees(q) && SameFds(p.chans, q.chans)
      && q.kernel == (if mask == 0 && p.chans[c].fd in p.kernel then p.kernel - {p.chans[c].fd}
                      else p.kernel[p.chans[c].fd := Want(mask, c)])
      && EpollInterest(q) == Watch(EpollInterest(p), p.chans[c].fd, SetEvents(c, mask))
  {
    EpollSetMoves(p, c, mask);
    EpollSetInterest(p, EpollApply(p, SetEvents(c, mask)), c, mask);
  }

  lemma EpollSetInterest(p: Epoll, q: Epoll, c: nat, mask: Mask)
    requires c in p.chans
    requires q.kernel == p.kernel[p.chans[c].fd := Want(mask, c)] || (mask == 0 && q.kernel == p.kernel - {p.chans[c].fd})
    ensures EpollInterest(q) == Watch(EpollInterest(p), p.chans[c].fd, SetEvents(c, mask))
  {
  }

  lemma EpollRemoveMoves(p: Epoll, c: nat)
    requires EpollAgrees(p) && c in p.chans && FdFree(p.chans, p.maps, c)
    ensures var q, ch := EpollApply(p, Remove(c)), p.chans[c];
      && !q.failed && q.chans == p.chans[c := ch.(index := NEW)]
      && q.maps == p.maps - {ch.fd} && q.kernel == p.kernel - {ch.fd}
  {
    if p.chans[c].index != ADDED {
      assert p.chans[c].fd !in p.kernel;
    }
  }

  lemma EpollRemoveInterest(p: Epoll, q: Epoll, c: nat)
    requires c in p.chans && q.kernel == p.kernel - {p.chans[c].fd}
    ensures EpollInterest(q) == Watch(EpollInterest(p), p.chans[c].fd, Remove(c))
  {
  }

  lemma EpollRemoveKeeps(p: Epoll, c: nat)
    requires EpollAgrees(p) && c in p.chans && FdFree(p.chans, p.maps, c)
    ensures var q := EpollApply(p, Remove(c));
      && EpollAgrees(q) && SameFds(p.chans, q.chans)
      && EpollInterest(q) == Watch(EpollInterest(p), p.chans[c].fd, Remove(c))
  {
    EpollRemoveMoves(p, c);
    EpollRemoveInterest(p, EpollApply(p, Remove(c)), c);
  }

  // --------------------------------------------------------------- poll

  datatype PollFd = PollFd(fd: int, mask: Mask)

  /** channel_maps_, poll_list_, and the channels that are in the list. */
  datatype Poll = Poll(chans: map<nat, Chan>, maps: map<int, nat>, list: seq<PollFd>, live: set<nat>)

  function PollUpdate(p: Poll, c: nat): Poll
    requires c in p.chans && p.chans[c].index < |p.list|
  {
    var ch := p.chans[c];
    if ch.index < 0 then
      Poll(SetIndex(p.chans, c, |p.list|), p.maps[ch.fd := c], p.list + [PollFd(ch.fd, ch.events)], p.live + {c})
    else p.(list := p.list[ch.index := PollFd(ch.fd, ch.events)])
  }

  function PollSet(p: Poll, c: nat, mask: Mask): Poll
    requires c in p.chans && p.chans[c].index < |p.list|
  {
    PollUpdate(p.(chans := p.chans[c := p.chans[c].(events := mask)]), c)
  }

  /** UpdateChannel at whatever index the channel has; None is an index past the end of the vector. */
  function PollTryUpdate(p: Poll, c: nat): Option<Poll>
    requires c in p.chans
  {
    if p.chans[c].index < |p.list| then Some(PollUpdate(p, c)) else None
  }

  /** A mask operation, which sets the mask first. */
  function PollTrySet(p: Poll, c: nat, mask: Mask): Option<Poll>
    requires c in p.chans
  {
    PollTryUpdate(p.(chans := p.chans[c := p.chans[c].(events := mask)]), c)
  }

  /** The last slot moves into the hole, and its channel learns its new place. */
  function PollRemove(p: Poll, c: nat): Poll
    requires c in p.chans && 0 <= p.chans[c].index < |p.list|
    requires p.list[|p.list| - 1].fd in p.maps && p.maps[p.list[|p.list| - 1].fd] in p.chans
  {
    var idx, last := p.chans[c].index, |p.list| - 1;
    if idx == last then p.(list := p.list[..last], live := p.live - {c})
    else
      p.(list := p.list[idx := p.list[last]][..last],
         chans := SetIndex(p.chans, p.maps[p.list[last].fd], idx),
         live := p.live - {c})
  }

  /**
   * RemoveChannel at whatever index the channel has. None is a step outside the
   * vector: back() or pop_back() of an empty one, or a swap past its ends.
   */
  function PollTryRemove(p: Poll, c: nat): Option<Poll>
    requires c in p.chans
    requires forall i | 0 <= i < |p.list| :: p.list[i].fd in p.maps && p.maps[p.list[i].fd] in p.chans
  {
    if 0 <= p.chans[c].index < |p.list| then Some(PollRemove(p, c)) else None
  }

  predicate PollAgrees(p: Poll) {
    && (forall c | c in p.live ::
          && c in p.chans && 0 <= p.chans[c].index < |p.list|
          && p.list[p.chans[c].index] == PollFd(p.chans[c].fd, p.chans[c].events)
          && p.chans[c].fd in p.maps && p.maps[p.chans[c].fd] == c)
    && (forall i | 0 <= i < |p.list| ::
          p.list[i].fd in p.maps && p.maps[p.list[i].fd] in p.live && p.chans[p.maps[p.list[i].fd]].index == i)
  }

  /** A descriptor is taken while a channel in the list has it. */
  predicate FdTaken(p: Poll, fd: int) {
    fd in p.maps && p.maps[fd] in p.live && p.maps[fd] in p.chans && p.chans[p.maps[fd]].fd == fd
  }

  /** In the list already, or new with a descriptor nobody in the list has. */
  predicate PollAllowed(p: Poll, op: Op) {
    && op.c in p.chans
    && match op
       case SetEvents(c, _) => c in p.live || (p.chans[c].index < 0 && !FdTaken(p, p.chans[c].fd))
       case Remove(c) => c in p.live
  }

  function PollApply(p: Poll, op: Op): Poll
    requires PollAgrees(p) && PollAllowed(p, op)
  {
    match op
    case SetEvents(c, mask) => PollSet(p, c, mask)
    case Remove(c) => PollRemove(p, c)
  }

  function PollInterest(p: Poll): Interest
    requires PollAgrees(p)
  {
    map fd | fd in p.maps && FdTaken(p, fd) && p.list[p.chans[p.maps[fd]].index].mask != 0
      :: Want(p.list[p.chans[p.maps[fd]].index].mask, p.maps[fd])
  }

  /** Every channel's slot, mask and descriptor agree again, and the list means the simple map. */
  lemma PollSetKeeps(p: Poll, c: nat, mask: Mask)
    requires PollAgrees(p) && PollAllowed(p, SetEvents(c, mask))
    ensures var q := PollApply(p, SetEvents(c, mask));
      && PollAgrees(q) && q.live == p.live + {c} && SameFds(p.chans, q.chans)
      && PollInterest(q) == Watch(PollInterest(p), p.chans[c].fd, SetEvents(c, mask))
  {
    if c in p.live {
      PollModAgrees(p, c, mask);
    } else {
      PollAddAgrees(p, c, mask);
    }
    InterestMoves(p, PollApply(p, SetEvents(c, mask)), p.chans[c].fd, SetEvents(c, mask));
    InterestByChannels(p);
    InterestByChannels(PollApply(p, SetEvents(c, mask)));
  }

  predicate SameFds(chans: map<nat, Chan>, chans': map<nat, Chan>) {
    chans.Keys == chans'.Keys && forall c | c in chans :: chans[c].fd == chans'[c].fd
  }

  /** The same interests, read off the channels instead of the list. */
  function ChannelInterest(p: Poll): Interest {
    map fd | fd in p.maps && FdTaken(p, fd) && p.chans[p.maps[fd]].events != 0
      :: Want(p.chans[p.maps[fd]].events, p.maps[fd])
  }

  /** The list's masks are the channels' masks. */
  lemma InterestByChannels(p: Poll)
    requires PollAgrees(p)
    ensures PollInterest(p) == ChannelInterest(p)
  {
    forall fd: int | FdTaken(p, fd)
      ensures p.list[p.chans[p.maps[fd]].index].mask == p.chans[p.maps[fd]].events
    {
    }
  }

  /** Only one descriptor's channel changes. */
  lemma InterestMoves(p: Poll, q: Poll, fd: int, op: Op)
    requires forall d: int | d != fd :: FdTaken(q, d) <==> FdTaken(p, d)
    requires forall d: int | d != fd && FdTaken(p, d) && FdTaken(q, d) ::
               q.maps[d] == p.maps[d] && q.chans[q.maps[d]].events == p.chans[p.maps[d]].events
    requires op.SetEvents? ==> FdTaken(q, fd) && q.maps[fd] == op.c && q.chans[op.c].events == op.mask
    requires op.Remove? ==> !FdTaken(q, fd)
    ensures ChannelInterest(q) == Watch(ChannelInterest(p), fd, op)
  {
  }

  lemma PollModAgrees(p: Poll, c: nat, mask: Mask)
    requires PollAgrees(p) && c in p.live
    ensures var q := PollApply(p, SetEvents(c, mask));
      && PollAgrees(q) && q.live == p.live && q.maps == p.maps
      && q.chans == p.chans[c := p.chans[c].(events := mask)]
  {
  }

  lemma PollAddAgrees(p: Poll, c: nat, mask: Mask)
    requires PollAgrees(p) && c in p.chans && c !in p.live
    requires p.chans[c].index < 0 && !FdTaken(p, p.chans[c].fd)
    ensures var q := PollApply(p, SetEvents(c, mask));
      && PollAgrees(q) && q.live == p.live + {c} && q.maps == p.maps[p.chans[c].fd := c]
      && q.chans == p.chans[c := Chan(p.chans[c].fd, mask, |p.list|)]
  {
  }

  /** Which channel moves when c is removed, and where to. */
  lemma PollRemoveMoves(p: Poll, c: nat)
    requires PollAgrees(p) && c in p.live
    ensures var q, idx, last := PollApply(p, Remove(c)), p.chans[c].index, |p.list| - 1;
      && last >= 0 && p.list[last].fd in p.maps
      && (var moved := p.maps[p.list[last].fd];
          && moved in p.live && p.chans[moved].index == last
          && q.live == p.live - {c} && q.maps == p.maps && SameFds(p.chans, q.chans)
          && |q.list| == last
          && (forall i | 0 <= i < last :: q.list[i] == if i == idx then p.list[last] else p.list[i])
          && (forall d | d in q.live :: q.chans[d] == if d == moved then p.chans[d].(index := idx) else p.chans[d]))
  {
  }

  lemma PollRemoveAgrees(p: Poll, c: nat)
    requires PollAgrees(p) && c in p.live
    ensures PollAgrees(PollApply(p, Remove(c)))
  {
    PollRemoveMoves(p, c);
    var q, idx, last := PollApply(p, Remove(c)), p.chans[c].index, |p.list| - 1;
    var moved := p.maps[p.list[last].fd];
    forall d | d in q.live
      ensures && d in q.chans && 0 <= q.chans[d].index < |q.list|
              && q.list[q.chans[d].index] == PollFd(q.chans[d].fd, q.chans[d].events)
              && q.chans[d].fd in q.maps && q.maps[q.chans[d].fd] == d
    {
      assert d in p.live;
    }
    forall i | 0 <= i < |q.list|
      ensures && q.list[i].fd in q.maps && q.maps[q.list[i].fd] in q.live
              && q.chans[q.maps[q.list[i].fd]].index == i
    {
      var j := if i == idx then last else i;
      assert q.list[i] == p.list[j];
      assert p.chans[p.maps[p.list[j].fd]].index == j;
    }
  }

  /** Removal moves at most one channel, to the slot that was freed. */
  lemma PollRemoveKeeps(p: Poll, c: nat)
    requires PollAgrees(p) && c in p.live
    ensures var q := PollApply(p, Remove(c));
      && PollAgrees(q) && q.live == p.live - {c} && SameFds(p.chans, q.chans)
      && PollInterest(q) == Watch(PollInterest(p), p.chans[c].fd, Remove(c))
  {
    PollRemoveAgrees(p, c);
    PollRemoveMoves(p, c);
    InterestMoves(p, PollApply(p, Remove(c)), p.chans[c].fd, Remove(c));
    InterestByChannels(p);
    InterestByChannels(PollApply(p, Remove(c)));
  }

  /** HasChannel, and the channel's own slot at its index: what a caller can look up before removing it. */
  predicate Listed(p: Poll, c: nat)
    requires c in p.chans
  {
    var ch := p.chans[c];
    0 <= ch.index < |p.list| && p.list[ch.index].fd == ch.fd && ch.fd in p.maps && p.maps[ch.fd] == c
  }

  /**
   * Removal over every index a channel can have: it neither leaves the vector's
   * bounds nor breaks the list if and only if the channel has its slot.
   */
  lemma RemoveSoundIff(p: Poll, c: nat)
    requires PollAgrees(p) && c in p.chans
    ensures var r := PollTryRemove(p, c);
      && (r.Some? && PollAgrees(r.value) <==> Listed(p, c))
      && (Listed(p, c) <==> c in p.live)
  {
    if c in p.live {
      PollRemoveKeeps(p, c);
    } else if 0 <= p.chans[c].index < |p.list| {
      StaleRemoveBreaks(p, c);
    }
  }

  lemma StaleRemoveBreaks(p: Poll, c: nat)
    requires PollAgrees(p) && c in p.chans && c !in p.live && 0 <= p.chans[c].index < |p.list|
    ensures PollTryRemove(p, c).Some? && !PollAgrees(PollTryRemove(p, c).value)
  {
    var q, idx, last := PollRemove(p, c), p.chans[c].index, |p.list| - 1;
    var d := p.maps[p.list[idx].fd];
    assert d in q.live && q.chans[d].index == idx;
    if idx != last {
      assert q.list[idx] == p.list[last];
      assert p.maps[p.list[last].fd] != d;
    }
  }

  /**
   * Removing a channel a second time always goes wrong: out of the vector's
   * bounds if the channel was in the last slot, else through another's slot.
   */
  lemma RemoveTwiceBreaks(p: Poll, c: nat)
    requires PollAgrees(p) && c in p.live
    ensures var q := PollApply(p, Remove(c));
      && c in q.chans
      && (PollTryRemove(q, c).None? <==> p.chans[c].index == |p.list| - 1)
      && (PollTryRemove(q, c).Some? ==> !PollAgrees(PollTryRemove(q, c).value))
  {
    PollRemoveKeeps(p, c);
    PollRemoveMoves(p, c);
    var q, idx := PollApply(p, Remove(c)), p.chans[c].index;
    assert q.chans[c].index == idx;
    if idx < |q.list| {
      StaleRemoveBreaks(q, c);
    }
  }

  /**
   * What a caller can look up before an update: a new channel's descriptor is
   * free, or the slot at the channel's index has its descriptor and is its own,
   * or at least has the mask already.
   */
  predicate Updatable(p: Poll, c: nat, mask: Mask)
    requires c in p.chans
  {
    var ch := p.chans[c];
    if ch.index < 0 then !FdTaken(p, ch.fd)
    else
      && ch.index < |p.list| && p.list[ch.index].fd == ch.fd
      && (p.list[ch.index].mask == mask || (ch.fd in p.maps && p.maps[ch.fd] == c))
  }

  /** An update over every index neither leaves the vector's bounds nor breaks the list if and only if that holds. */
  lemma UpdateSoundIff(p: Poll, c: nat, mask: Mask)
    requires PollAgrees(p) && c in p.chans
    ensures var r := PollTrySet(p, c, mask);
      r.Some? && PollAgrees(r.value) <==> Updatable(p, c, mask)
  {
    var ch := p.chans[c];
    if c in p.live {
      PollSetKeeps(p, c, mask);
    } else if ch.index < 0 {
      NewUpdateIff(p, c, mask);
    } else if ch.index < |p.list| {
      StaleUpdateIff(p, c, mask);
    }
  }

  lemma NewUpdateIff(p: Poll, c: nat, mask: Mask)
    requires PollAgrees(p) && c in p.chans && c !in p.live && p.chans[c].index < 0
    ensures PollAgrees(PollSet(p, c, mask)) <==> !FdTaken(p, p.chans[c].fd)
  {
    var fd := p.chans[c].fd;
    if FdTaken(p, fd) {
      var q, d := PollSet(p, c, mask), p.maps[fd];
      assert d in q.live && q.chans[d].fd == fd && q.maps[fd] == c;
    } else {
      PollSetKeeps(p, c, mask);
    }
  }

  lemma StaleUpdateIff(p: Poll, c: nat, mask: Mask)
    requires PollAgrees(p) && c in p.chans && c !in p.live && 0 <= p.chans[c].index < |p.list|
    ensures PollAgrees(PollSet(p, c, mask)) <==> p.list[p.chans[c].index] == PollFd(p.chans[c].fd, mask)
  {
    var idx, q := p.chans[c].index, PollSet(p, c, mask);
    var d := p.maps[p.list[idx].fd];
    assert d in q.live && q.chans[d] == p.chans[d] && q.list[idx] == PollFd(p.chans[c].fd, mask);
    if p.list[idx] == PollFd(p.chans[c].fd, mask) {
      assert q.list == p.list;
    }
  }

  /**
   * A mask operation on a removed channel, as a late send can do, always goes
   * wrong: past the end if the channel was in the last slot, else in another's.
   */
  lemma UpdateAfterRemoveBreaks(p: Poll, c: nat, mask: Mask)
    requires PollAgrees(p) && c in p.live
    ensures var q := PollApply(p, Remove(c));
      && c in q.chans
      && (PollTrySet(q, c, mask).None? <==> p.chans[c].index == |p.list| - 1)
      && (PollTrySet(q, c, mask).Some? ==> !PollAgrees(PollTrySet(q, c, mask).value))
  {
    PollRemoveKeeps(p, c);
    PollRemoveMoves(p, c);
    var q, idx := PollApply(p, Remove(c)), p.chans[c].index;
    assert q.chans[c].index == idx && q.chans[c].fd == p.chans[c].fd;
    if idx < |q.list| {
      assert q.list[idx] == p.list[|p.list| - 1] && p.list[idx].fd == p.chans[c].fd;
      assert p.maps[p.list[|p.list| - 1].fd] != c;
      StaleUpdateIff(q, c, mask);
    }
  }

  // ------------------------------------------- two backends, one meaning

  predicate Fresh(chans: map<nat, Chan>) {
    forall c | c in chans :: chans[c].index == NEW
  }

  function EpollInit(chans: map<nat, Chan>): Epoll {
    Epoll(chans, map[], map[], false)
  }

  function PollInit(chans: map<nat, Chan>): Poll {
    Poll(chans, map[], [], {})
  }

  /** Neither poller went wrong, and both agree on which channels they know and on what is watched. */
  predicate Twins(p: Epoll, q: Poll) {
    && EpollAgrees(p) && PollAgrees(q) && SameFds(p.chans, q.chans)
    && (forall c | c in p.chans :: c in q.live <==> p.chans[c].index != NEW)
    && EpollInterest(p) == PollInterest(q)
  }

  lemma TwinsFd(p: Epoll, q: Poll, op: Op)
    requires Twins(p, q) && PollAllowed(q, op)
    ensures op.c in p.chans && FdFree(p.chans, p.maps, op.c)
  {
    var fd := p.chans[op.c].fd;
    if fd in p.maps {
      var d := p.maps[fd];
      assert d in q.live && q.chans[d].fd == fd && q.maps[fd] == d;
      assert FdTaken(q, fd);
    }
  }

  lemma TwinsStep(p: Epoll, q: Poll, op: Op)
    requires Twins(p, q) && PollAllowed(q, op)
    ensures op.c in p.chans && Twins(EpollApply(p, op), PollApply(q, op))
    ensures EpollInterest(EpollApply(p, op)) == Watch(EpollInterest(p), p.chans[op.c].fd, op)
  {
    TwinsFd(p, q, op);
    match op {
      case SetEvents(c, mask) =>
        EpollSetKeeps(p, c, mask);
        EpollSetMoves(p, c, mask);
        PollSetKeeps(q, c, mask);
      case Remove(c) =>
        EpollRemoveKeeps(p, c);
        PollRemoveKeeps(q, c);
        assert EpollApply(p, op).chans == p.chans[c := p.chans[c].(index := NEW)];
    }
  }

  /** A sequence of calls that keeps live descriptors distinct and never updates a removed channel. */
  predicate RunAllowed(q: Poll, ops: seq<Op>)
    requires PollAgrees(q)
    decreases |ops|
  {
    ops != [] ==>
      && PollAllowed(q, ops[0])
      && (PollStepAgrees(q, ops[0]); RunAllowed(PollApply(q, ops[0]), ops[1..]))
  }

  lemma PollStepAgrees(q: Poll, op: Op)
    requires PollAgrees(q) && PollAllowed(q, op)
    ensures PollAgrees(PollApply(q, op))
  {
    match op {
      case SetEvents(c, mask) => PollSetKeeps(q, c, mask);
      case Remove(c) => PollRemoveKeeps(q, c);
    }
  }

  function PollRun(q: Poll, ops: seq<Op>): Poll
    requires PollAgrees(q) && RunAllowed(q, ops)
    decreases |ops|
  {
    if ops == [] then q
    else
      PollStepAgrees(q, ops[0]);
      PollRun(PollApply(q, ops[0]), ops[1..])
  }

  /** The same calls on an epoll poller; a call for an unknown channel does nothing. */
  function EpollRun(p: Epoll, ops: seq<Op>): Epoll
    decreases |ops|
  {
    if ops == [] then p
    else EpollRun(if ops[0].c in p.chans then EpollApply(p, ops[0]) else p, ops[1..])
  }

  function WatchRun(want: Interest, chans: map<nat, Chan>, ops: seq<Op>): Interest
    decreases |ops|
  {
    if ops == [] then want
    else WatchRun(if ops[0].c in chans then Watch(want, chans[ops[0].c].fd, ops[0]) else want, chans, ops[1..])
  }

  lemma {:induction false} TwinsRun(p: Epoll, q: Poll, ops: seq<Op>, chans: map<nat, Chan>)
    requires Twins(p, q) && RunAllowed(q, ops) && SameFds(chans, p.chans)
    ensures Twins(EpollRun(p, ops), PollRun(q, ops))
    ensures EpollInterest(EpollRun(p, ops)) == WatchRun(EpollInterest(p), chans, ops)
    decreases |ops|
  {
    if ops != [] {
      TwinsStep(p, q, ops[0]);
      StepKeepsFds(p, ops[0]);
      TwinsRun(EpollApply(p, ops[0]), PollApply(q, ops[0]), ops[1..], chans);
    }
  }

  lemma StepKeepsFds(p: Epoll, op: Op)
    requires op.c in p.chans
    ensures SameFds(p.chans, EpollApply(p, op).chans)
  {
    match op {
      case SetEvents(c, mask) =>
        var p1 := p.(chans := p.chans[c := p.chans[c].(events := mask)]);
        assert SameFds(p.chans, p1.chans);
      case Remove(c) =>
    }
  }

  /**
   * Two backends, one meaning: after any allowed sequence of calls on fresh
   * channels, the non-empty masks of the epoll set and of the poll list are
   * the same map, which is the simple one, and no epoll_ctl failed.
   */
  lemma TwoBackendsOneMeaning(chans: map<nat, Chan>, ops: seq<Op>)
    requires Fresh(chans) && RunAllowed(PollInit(chans), ops)
    ensures var p, q := EpollRun(EpollInit(chans), ops), PollRun(PollInit(chans), ops);
      Twins(p, q) && EpollInterest(p) == WatchRun(map[], chans, ops)
  {
    TwinsInit(chans);
    TwinsRun(EpollInit(chans), PollInit(chans), ops, chans);
  }

  lemma EpollInitAgrees(chans: map<nat, Chan>)
    requires Fresh(chans)
    ensures EpollAgrees(EpollInit(chans))
  {
  }

  lemma EpollInitEmpty(p: Epoll)
    requires p.kernel == map[]
    ensures EpollInterest(p) == map[]
  {
  }

  lemma PollInitEmpty(q: Poll)
    requires PollAgrees(q) && q.maps == map[]
    ensures PollInterest(q) == map[]
  {
  }

  lemma TwinsInit(chans: map<nat, Chan>)
    requires Fresh(chans)
    ensures Twins(EpollInit(chans), PollInit(chans)) && EpollInterest(EpollInit(chans)) == map[]
  {
    EpollInitAgrees(chans);
    EpollInitEmpty(EpollInit(chans));
    PollInitEmpty(PollInit(chans));
  }

  // ------------------------------------------------ FillActiveChannnels

  /** One poll() result: the revents_ of every slot. */
  function Ready(revents: seq<int>): nat {
    if revents == [] then 0 else (if revents[0] > 0 then 1 else 0) + Ready(revents[1..])
  }

  /** The loop over poll_list_, which stops after `nready` channels. */
  function FillActive(list: seq<PollFd>, maps: map<int, nat>, revents: seq<int>, nready: int): seq<nat>
    requires |list| == |revents|
  {
    if list == [] || nready <= 0 then []
    else if revents[0] > 0 && list[0].fd in maps then
      [maps[list[0].fd]] + FillActive(list[1..], maps, revents[1..], nready - 1)
    else FillActive(list[1..], maps, revents[1..], nready)
  }

  predicate Distinct(cs: seq<nat>) {
    forall i, j | 0 <= i < j < |cs| :: cs[i] != cs[j]
  }

  lemma {:induction false} NoneReady(revents: seq<int>, i: nat)
    requires Ready(revents) == 0 && i < |revents|
    ensures revents[i] <= 0
  {
    if i > 0 {
      NoneReady(revents[1..], i - 1);
    }
  }

  /** Every slot's descriptor is known, and no two slots are for the same channel. */
  predicate SlotsNamed(list: seq<PollFd>, maps: map<int, nat>) {
    && (forall i | 0 <= i < |list| :: list[i].fd in maps)
    && (forall i, j | 0 <= i < j < |list| :: maps[list[i].fd] != maps[list[j].fd])
  }

  lemma {:induction false} FillActiveExact(list: seq<PollFd>, maps: map<int, nat>, revents: seq<int>)
    requires |list| == |revents| && SlotsNamed(list, maps)
    ensures var active := FillActive(list, maps, revents, Ready(revents));
      && Distinct(active)
      && (forall c :: c in active <==> exists i :: 0 <= i < |list| && revents[i] > 0 && maps[list[i].fd] == c)
  {
    var active := FillActive(list, maps, revents, Ready(revents));
    if list == [] {
    } else if Ready(revents) == 0 {
      forall i | 0 <= i < |list| ensures revents[i] <= 0 {
        NoneReady(revents, i);
      }
    } else {
      FillActiveExact(list[1..], maps, revents[1..]);
      var rest := FillActive(list[1..], maps, revents[1..], Ready(revents[1..]));
      assert active == (if revents[0] > 0 then [maps[list[0].fd]] else []) + rest;
      FillActiveCons(list, maps, revents, rest, active);
    }
  }

  lemma FillActiveCons(list: seq<PollFd>, maps: map<int, nat>, revents: seq<int>, rest: seq<nat>, active: seq<nat>)
    requires |list| == |revents| > 0 && SlotsNamed(list, maps) && Distinct(rest)
    requires forall c :: c in rest <==>
               exists i :: 0 <= i < |list[1..]| && revents[1..][i] > 0 && maps[list[1..][i].fd] == c
    requires active == (if revents[0] > 0 then [maps[list[0].fd]] else []) + rest
    ensures Distinct(active)
    ensures forall c :: c in active <==> exists i :: 0 <= i < |list| && revents[i] > 0 && maps[list[i].fd] == c
  {
    var first := maps[list[0].fd];
    assert first !in rest by {
      assert forall i | 0 <= i < |list[1..]| :: maps[list[1..][i].fd] == maps[list[i + 1].fd] != first;
    }
    forall c
      ensures c in active <==> exists i :: 0 <= i < |list| && revents[i] > 0 && maps[list[i].fd] == c
    {
      if i :| 0 <= i < |list| && revents[i] > 0 && maps[list[i].fd] == c {
        if i > 0 {
          assert revents[1..][i - 1] > 0 && maps[list[1..][i - 1].fd] == c;
        }
      }
      if c in rest {
        var i :| 0 <= i < |list[1..]| && revents[1..][i] > 0 && maps[list[1..][i].fd] == c;
        assert revents[i + 1] > 0 && maps[list[i + 1].fd] == c;
      }
    }
  }

  lemma {:induction false} FillNone(list: seq<PollFd>, maps: map<int, nat>, revents: seq<int>, nready: int)
    requires |list| == |revents| && Ready(revents) == 0
    ensures FillActive(list, maps, revents, nready) == []
  {
    if list != [] {
      FillNone(list[1..], maps, revents[1..], nready);
    }
  }

  /** With any ready count, the loop stops after that many of the ready channels, in slot order. */
  lemma {:induction false} FillActiveStops(list: seq<PollFd>, maps: map<int, nat>, revents: seq<int>, nready: nat)
    requires |list| == |revents| && SlotsNamed(list, maps)
    ensures var all, active := FillActive(list, maps, revents, Ready(revents)), FillActive(list, maps, revents, nready);
      && |all| == Ready(revents)
      && active == if nready < |all| then all[..nready] else all
  {
    if list == [] {
    } else if Ready(revents) == 0 {
      FillNone(list, maps, revents, nready);
    } else if nready > 0 {
      var hit := revents[0] > 0;
      FillActiveStops(list[1..], maps, revents[1..], if hit then nready - 1 else nready);
      var all := FillActive(list, maps, revents, Ready(revents));
      var rest := FillActive(list[1..], maps, revents[1..], Ready(revents[1..]));
      assert all == (if hit then [maps[list[0].fd]] else []) + rest;
      if hit && nready < |all| {
        assert all[..nready] == [all[0]] + rest[..nready - 1];
      }
    } else {
      FillActiveStops(list[1..], maps, revents[1..], 0);
      assert FillActive(list, maps, revents, Ready(revents)) ==
        (if revents[0] > 0 then [maps[list[0].fd]] else []) +
        FillActive(list[1..], maps, revents[1..], Ready(revents[1..]));
    }
  }

  /** With an accurate ready count, a poll returns exactly the ready channels in the list, once each. */
  lemma ActiveExactlyReady(p: Poll, revents: seq<int>)
    requires PollAgrees(p) && |revents| == |p.list|
    ensures var active := FillActive(p.list, p.maps, revents, Ready(revents));
      && Distinct(active)
      && (forall c :: c in active <==> c in p.live && revents[p.chans[c].index] > 0)
  {
    FillActiveExact(p.list, p.maps, revents);
  }
}
