/**
 Channels and their registration with epoll: base/include/Channel.h, base/src/Channel.cpp and
 base/src/Poller.cpp.  The kernel's interest set is modelled beside the poller's own map; a failing
 `epoll_ctl` is only logged by the code, so here it changes nothing.
 */
module Pollers {

  type Fd = nat
  type ChanId = nat

  /** The requested events: `ReadEvent` and `WriteEvent` of Channel.h. */
  datatype Mask = Mask(read: bool, write: bool)

  const NONE_EVENT := Mask(false, false)

  datatype Interest = Interest(chan: ChanId, mask: Mask)

  /** `fd_channel_map_` and the kernel's interest set. */
  datatype Epoll = Epoll(channels: map<Fd, ChanId>, kernel: map<Fd, Interest>)

  const EMPTY_EPOLL := Epoll(map[], map[])

  /** `Poller::update_channel` for channel `ch` of descriptor `fd`. */
  function Update(p: Epoll, fd: Fd, ch: ChanId, mask: Mask): Epoll {
    if fd in p.channels then
      if mask == NONE_EVENT then p.(kernel := p.kernel - {fd})
      else if fd in p.kernel then p.(kernel := p.kernel[fd := Interest(ch, mask)])
      else p
    else
      Epoll(p.channels[fd := ch], if fd in p.kernel then p.kernel else p.kernel[fd := Interest(ch, mask)])
  }

  /** `Poller::removeChannel`; its `assert` is `OwnEntry`. */
  function Remove(p: Epoll, fd: Fd): Epoll {
    if fd in p.channels then Epoll(p.channels - {fd}, p.kernel - {fd}) else p
  }

  predicate OwnEntry(p: Epoll, fd: Fd, ch: ChanId) {
    fd in p.channels ==> p.channels[fd] == ch
  }

  /** The kernel watches exactly the mapped channels with a non-empty mask, for what they ask. */
  ghost predicate Agrees(p: Epoll, masks: map<ChanId, Mask>) {
    && (forall fd :: fd in p.channels ==> p.channels[fd] in masks)
    && (forall fd :: fd in p.kernel <==> fd in p.channels && masks[p.channels[fd]] != NONE_EVENT)
    && (forall fd :: fd in p.kernel ==> p.kernel[fd] == Interest(p.channels[fd], masks[p.channels[fd]]))
  }

  /** No other descriptor is mapped to `ch`. */
  ghost predicate OnlyAt(p: Epoll, fd: Fd, ch: ChanId) {
    forall other :: other in p.channels && p.channels[other] == ch ==> other == fd
  }

  /** An update keeps the agreement exactly when a new channel asks for something, and a known one
      is not re-enabled after its mask has become empty. */
  lemma UpdateAgreesIff(p: Epoll, masks: map<ChanId, Mask>, fd: Fd, ch: ChanId, mask: Mask)
    requires Agrees(p, masks) && OwnEntry(p, fd, ch) && OnlyAt(p, fd, ch)
    ensures Agrees(Update(p, fd, ch, mask), masks[ch := mask]) <==>
            if fd in p.channels then masks[ch] != NONE_EVENT || mask == NONE_EVENT else mask != NONE_EVENT
  {
    var p1, masks1 := Update(p, fd, ch, mask), masks[ch := mask];
    assert forall other :: other in p.channels && other != fd ==> masks1[p1.channels[other]] == masks[p.channels[other]];
    if fd in p.channels {
      assert p1.channels[fd] == ch;
      if masks[ch] == NONE_EVENT && mask != NONE_EVENT {
        assert fd !in p1.kernel;
      }
    } else {
      assert fd in p1.kernel && p1.channels[fd] == ch;
    }
  }

  /** What an update does to map and kernel: a known descriptor is deleted or modified, and modifying one
      that the kernel does not watch fails; an unknown one is entered and added, and adding one that the
      kernel watches already fails. */
  lemma UpdateIsExact(p: Epoll, fd: Fd, ch: ChanId, mask: Mask)
    ensures var p1 := Update(p, fd, ch, mask);
            && p1.channels == (if fd in p.channels then p.channels else p.channels[fd := ch])
            && (forall other :: other != fd ==>
                  (other in p1.kernel <==> other in p.kernel)
                  && (other in p.kernel ==> p1.kernel[other] == p.kernel[other]))
            && (fd in p.channels && !mask.read && !mask.write ==> fd !in p1.kernel)
            && (fd in p.channels && (mask.read || mask.write) && fd in p.kernel ==>
                  fd in p1.kernel && p1.kernel[fd] == Interest(ch, mask))
            && (fd in p.channels && (mask.read || mask.write) && fd !in p.kernel ==> fd !in p1.kernel)
            && (fd !in p.channels && fd !in p.kernel ==> fd in p1.kernel && p1.kernel[fd] == Interest(ch, mask))
            && (fd !in p.channels && fd in p.kernel ==> p1.kernel == p.kernel)
  {}

  /** Removing a known descriptor takes it out of the map and out of the kernel, and touches no other. */
  lemma RemoveIsExact(p: Epoll, fd: Fd)
    ensures fd in p.channels ==>
              Remove(p, fd).channels == p.channels - {fd} && Remove(p, fd).kernel == p.kernel - {fd}
    ensures fd !in p.channels ==> Remove(p, fd) == p
  {}

  lemma RemoveAgrees(p: Epoll, masks: map<ChanId, Mask>, fd: Fd)
    requires Agrees(p, masks)
    ensures Agrees(Remove(p, fd), masks)
  {}

  /** Re-enabling a channel whose mask became empty is lost: the kernel no longer watches it. */
  lemma ReenableIsLost()
    ensures var off := Update(Update(EMPTY_EPOLL, 5, 1, Mask(true, false)), 5, 1, NONE_EVENT);
            Update(off, 5, 1, Mask(true, false)).kernel == map[]
  {}

  // ---------------------------------------------------------------- events

  /** What `epoll_wait` reports for one descriptor. */
  datatype Revents = Revents(input: bool, priority: bool, readHangup: bool, output: bool, hangup: bool)

  datatype Call = CloseCall | ReadCall | WriteCall

  /** The callbacks of `Channel::handleEvent`, in order. */
  function Calls(r: Revents): seq<Call> {
    (if r.hangup && !r.input then [CloseCall] else [])
    + (if r.input || r.priority || r.readHangup then [ReadCall] else [])
    + (if r.output then [WriteCall] else [])
  }

  /** A hang-up without IN closes, IN, PRI or RDHUP reads, and OUT writes: each at most once, closing
      before reading before writing, and nothing else is called. */
  lemma CallsAreExact(r: Revents)
    ensures CloseCall in Calls(r) <==> r.hangup && !r.input
    ensures ReadCall in Calls(r) <==> r.input || r.priority || r.readHangup
    ensures WriteCall in Calls(r) <==> r.output
    ensures forall i, j :: 0 <= i < j < |Calls(r)| ==>
              || (Calls(r)[i] == CloseCall && Calls(r)[j] != CloseCall)
              || (Calls(r)[i] == ReadCall && Calls(r)[j] == WriteCall)
  {}

  /** Both assertions of `poll` hold for a reported channel that holds descriptor `fd`. */
  predicate Registered(channels: map<Fd, ChanId>, fd: Fd, ch: ChanId) {
    fd in channels && channels[fd] == ch
  }

  class Poller {
    var channels: map<Fd, ChanId>
    /** The kernel's side of epoll. */
    var kernel: map<Fd, Interest>
    var recEvents: nat

    ghost function State(): Epoll
      reads this
    {
      Epoll(channels, kernel)
    }

    constructor ()
      ensures State() == EMPTY_EPOLL && recEvents == 16
    {
      channels := map[];
      kernel := map[];
      recEvents := 16;
    }

    method UpdateChannel(fd: Fd, ch: ChanId, mask: Mask)
      modifies this`channels, this`kernel
      ensures State() == Update(old(State()), fd, ch, mask)
    {
      if fd in channels {
        if mask == NONE_EVENT {
          kernel := kernel - {fd};
        } else if fd in kernel {
          kernel := kernel[fd := Interest(ch, mask)];
        }
        return;
      }
      channels := channels[fd := ch];
      if fd !in kernel {
        kernel := kernel[fd := Interest(ch, mask)];
      }
    }

    method RemoveChannel(fd: Fd, ch: ChanId) returns (aborted: bool)
      modifies this`channels, this`kernel
      ensures aborted <==> !OwnEntry(old(State()), fd, ch)
      ensures State() == if aborted then old(State()) else Remove(old(State()), fd)
    {
      if fd !in channels { return false; }
      if channels[fd] != ch { return true; }
      kernel := kernel - {fd};
      channels := channels - {fd};
      return false;
    }

    /** Checks every reported channel against the map; `fdOf` is the descriptor a channel holds. */
    method Poll(reported: seq<(ChanId, Revents)>, fdOf: map<ChanId, Fd>)
      returns (aborted: bool, active: seq<(ChanId, Revents)>)
      requires 0 < recEvents && |reported| <= recEvents
      requires forall i :: 0 <= i < |reported| ==> reported[i].0 in fdOf
      modifies this`recEvents
      ensures aborted <==>
                exists i :: 0 <= i < |reported| && !Registered(channels, fdOf[reported[i].0], reported[i].0)
      ensures !aborted ==> active == reported
      ensures recEvents == if |reported| == old(recEvents) then 2 * old(recEvents) else old(recEvents)
    {
      if |reported| == recEvents {
        recEvents := 2 * recEvents;
      }
      active := [];
      var i := 0;
      while i < |reported|
        invariant i <= |reported| && active == reported[..i]
        invariant forall j :: 0 <= j < i ==> Registered(channels, fdOf[reported[j].0], reported[j].0)
      {
        if !Registered(channels, fdOf[reported[i].0], reported[i].0) {
          return true, [];
        }
        active := active + [reported[i]];
        i := i + 1;
      }
      return false, active;
    }
  }

  /** While map and kernel agree, both assertions of `poll` hold for everything the kernel can report:
      the channel stored with a watched descriptor is the one the map has for it. */
  lemma PollAssertionsHold(p: Epoll, masks: map<ChanId, Mask>, fd: Fd)
    requires Agrees(p, masks) && fd in p.kernel
    ensures Registered(p.channels, fd, p.kernel[fd].chan)
  {}

  class Channel {
    const fd: Fd
    const id: ChanId
    const poller: Poller
    var events: Mask
    var isReading: bool
    var isWriting: bool

    ghost predicate Valid()
      reads this
    {
      events == Mask(isReading, isWriting)
    }

    constructor (fd: Fd, id: ChanId, poller: Poller)
      ensures Valid() && events == NONE_EVENT
      ensures this.fd == fd && this.id == id && this.poller == poller
    {
      this.fd, this.id, this.poller := fd, id, poller;
      events, isReading, isWriting := NONE_EVENT, false, false;
    }

    /** `handleEvent` makes the calls for what was reported, in order. */
    method HandleEvent(r: Revents) returns (made: seq<Call>)
      ensures made == Calls(r)
      ensures r.hangup && !r.input ==> made != [] && made[0] == CloseCall
      ensures r.input && !r.output ==> made == [ReadCall]
      ensures r.input && r.output ==> made == [ReadCall, WriteCall]
      ensures r.output && !r.input && !r.priority && !r.readHangup && !r.hangup ==> made == [WriteCall]
    {
      made := [];
      if r.hangup && !r.input {
        made := made + [CloseCall];
      }
      if r.input || r.priority || r.readHangup {
        made := made + [ReadCall];
      }
      if r.output {
        made := made + [WriteCall];
      }
    }

    method EnableRead()
      requires Valid()
      modifies this, poller
      ensures Valid() && events == old(events).(read := true)
      ensures poller.State() == Update(old(poller.State()), fd, id, events)
    {
      events, isReading := events.(read := true), true;
      poller.UpdateChannel(fd, id, events);
    }

    method EnableWrite()
      requires Valid()
      modifies this, poller
      ensures Valid() && events == old(events).(write := true)
      ensures poller.State() == Update(old(poller.State()), fd, id, events)
    {
      events, isWriting := events.(write := true), true;
      poller.UpdateChannel(fd, id, events);
    }

    method DisableWrite()
      requires Valid()
      modifies this, poller
      ensures Valid() && events == old(events).(write := false)
      ensures poller.State() == Update(old(poller.State()), fd, id, events)
    {
      events, isWriting := events.(write := false), false;
      poller.UpdateChannel(fd, id, events);
    }

    method DisableAll()
      requires Valid()
      modifies this, poller
      ensures Valid() && events == NONE_EVENT
      ensures poller.State() == Update(old(poller.State()), fd, id, events)
    {
      events, isReading, isWriting := NONE_EVENT, false, false;
      poller.UpdateChannel(fd, id, events);
    }
  }
}
