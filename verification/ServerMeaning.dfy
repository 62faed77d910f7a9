/**
 What the steps of the lifecycle model do, each spelled out in terms of the source's own fields, and
 exactly when each check of the source fails.
 */
module ServerMeaning {
  import opened ConnStatuses
  import opened EventLoops
  import opened Pollers
  import opened ServerModel

  // ---------------------------------------------------------------- the checks

  /** The loop's map has another channel under the descriptor of connection `c`. */
  predicate ForeignEntry(s: Server, l: LoopId, c: ConnId) {
    && l in s.loops && c in s.conns && s.conns[c].fd in s.loops[l].epoll.channels
    && s.loops[l].epoll.channels[s.conns[c].fd] != c
  }

  /** `assertInLoopThread` of `connectEstablished`. */
  lemma EstablishChecks(s: Server, l: LoopId, c: ConnId)
    requires !s.aborted && c in s.conns && s.conns[c].loop in s.loops
    ensures DoEstablish(s, l, c).aborted <==> l != s.conns[c].loop
  {}

  /** `assertInLoopThread` of `connectDestory` and the assertion of `removeChannel`. */
  lemma DestroyChecks(s: Server, l: LoopId, c: ConnId)
    requires !s.aborted && c in s.conns && s.conns[c].loop in s.loops
    ensures DoDestroy(s, l, c).aborted <==> l != s.conns[c].loop || ForeignEntry(s, l, c)
  {}

  /** `assertInLoopThread` and `assert(n != 0)` of `removeConnection`, and what it runs itself. */
  lemma RemoveChecks(s: Server, l: LoopId, c: ConnId)
    requires !s.aborted && c in s.conns && s.conns[c].loop in s.loops
    ensures DoRemove(s, l, c).aborted <==>
            l != MAIN || c !in s.connections || (s.conns[c].loop == MAIN && ForeignEntry(s, l, c))
  {
    hide Apply, Pollers.Remove;
  }

  /** `assertInLoopThread` of `handleClose` and the check for a second close. */
  lemma CloseChecks(s: Server, l: LoopId, c: ConnId)
    requires !s.aborted && c in s.conns && s.conns[c].loop in s.loops && MAIN in s.loops
    ensures l != s.conns[c].loop || s.conns[c].status == Disconnected ==> HandleClose(s, l, c).aborted
    ensures l == s.conns[c].loop && s.conns[c].status != Disconnected && l != MAIN ==> !HandleClose(s, l, c).aborted
  {
    hide Apply, Update, DoRemove;
  }

  /** Both assertions of `poll`: every channel handed back is in the map under its own descriptor. */
  lemma PollChecks(s: Server, l: LoopId, wake: bool, reported: seq<(ConnId, Revents)>)
    requires CanTake(s, Poll(l, wake, reported))
    ensures Take(s, Poll(l, wake, reported)).aborted <==>
            exists i :: 0 <= i < |reported| &&
              !(reported[i].0 in s.conns
                && s.conns[reported[i].0].fd in s.loops[l].epoll.channels
                && s.loops[l].epoll.channels[s.conns[reported[i].0].fd] == reported[i].0)
  {
    hide Apply, Reportable;
  }

  /** `assert(!tie_.expired())` of `handleEvent`. */
  lemma BeginChecks(s: Server, l: LoopId)
    requires CanTake(s, BeginEvent(l))
    ensures var c := s.loops[l].active[0].conn;
            Take(s, BeginEvent(l)).aborted <==> c !in s.conns || s.conns[c].stage == Deleted
  {}

  // ---------------------------------------------------------------- what the world may do

  /** The acceptor may hand over any descriptor that is not open, for any loop: the connection is
      recorded, and its own loop establishes it, at once or by a task behind all others. */
  lemma AcceptMeans(s: Server, fd: Fd, l: LoopId)
    requires !s.aborted && fd !in s.openFds && l in s.loops && MAIN in s.loops
    requires s.loops[MAIN].queue.phase == Handling
    ensures CanTake(s, Accept(fd, l))
    ensures var s1, c := Take(s, Accept(fd, l)), s.nextConnId;
            && fd in s1.openFds && c in s1.connections && c in s1.conns && s1.nextConnId == c + 1
            && s1.conns[c].fd == fd && s1.conns[c].loop == l && l in s1.loops
            && (l == MAIN ==> s1.conns[c].status == Connected && s1.conns[c].callbacks == [Callback(MAIN, true)])
            && (l != MAIN ==>
                  s1.conns[c].status == Disconnected && s1.conns[c].callbacks == []
                  && s1.loops[l].queue.functions == s.loops[l].queue.functions + [ConnectEstablished(c)])
  {
    hide Update;
  }

  /** Any connected connection may be shut down, on any thread. */
  lemma ShutdownMeans(s: Server, c: ConnId)
    requires !s.aborted && c in s.conns && s.conns[c].status == Connected
    ensures CanTake(s, Shutdown(c))
    ensures Take(s, Shutdown(c)) == s.(conns := s.conns[c := s.conns[c].(status := Disconnecting)])
  {}

  /** While its loop is not at `poll`, write interest of a connection that is not closed may go on or off,
      and the kernel follows. */
  lemma SetWriteMeans(s: Server, c: ConnId, on: bool)
    requires !s.aborted && c in s.conns && s.conns[c].status != Disconnected
    requires s.conns[c].loop in s.loops && s.loops[s.conns[c].loop].queue.phase != Polling
    ensures CanTake(s, SetWrite(c, on))
    ensures var s1, k := Take(s, SetWrite(c, on)), s.conns[c];
            && c in s1.conns && s1.conns[c] == k.(mask := Mask(k.mask.read, on)) && k.loop in s1.loops
            && (k.mask.read && k.fd in s.loops[k.loop].epoll.channels && k.fd in s.loops[k.loop].epoll.kernel ==>
                  k.fd in s1.loops[k.loop].epoll.kernel
                  && s1.loops[k.loop].epoll.kernel[k.fd] == Interest(c, Mask(true, on)))
  {}

  /** A posted send may run while the loop runs its batch, at every stage but the first and the last, and
      may turn write interest on. */
  lemma PostedSendMeans(s: Server, c: ConnId)
    requires !s.aborted && c in s.conns && s.conns[c].stage != Accepted && s.conns[c].stage != Deleted
    requires s.conns[c].loop in s.loops && s.loops[s.conns[c].loop].queue.phase == Running
    ensures CanTake(s, PostedSend(c, true)) && CanTake(s, PostedSend(c, false))
    ensures c in Take(s, PostedSend(c, true)).conns && Take(s, PostedSend(c, true)).conns[c].mask.write
    ensures Take(s, PostedSend(c, false)) == s
  {}

  /** `poll` may return any watched descriptors with any events inside their masks, hang-ups always; each
      becomes active with the calls for its events, in the order reported. */
  lemma PollMeans(s: Server, l: LoopId, c: ConnId, r: Revents)
    requires !s.aborted && l in s.loops && s.loops[l].queue.phase == Polling && s.loops[l].active == []
    requires c in s.conns && s.conns[c].fd in s.loops[l].epoll.kernel
    requires s.loops[l].epoll.kernel[s.conns[c].fd] == Interest(c, s.conns[c].mask)
    requires (r.input || r.priority ==> s.conns[c].mask.read) && (r.output ==> s.conns[c].mask.write)
    ensures CanTake(s, Poll(l, false, [(c, r)]))
    ensures Registered(s.loops[l].epoll.channels, s.conns[c].fd, c) ==>
              var s1 := Take(s, Poll(l, false, [(c, r)]));
              && !s1.aborted && l in s1.loops && s1.loops[l].queue.phase == Handling
              && s1.loops[l].active == [Ready(c, Calls(r))] && !s1.loops[l].started
  {
    hide Calls;
  }

  /** A connection that nobody refers to may be deleted, which closes its descriptor everywhere. */
  lemma DeleteMeans(s: Server, c: ConnId)
    requires !s.aborted && c in s.conns && s.conns[c].stage != Deleted && !Held(s, c)
    ensures CanTake(s, Delete(c))
    ensures var s1, fd := Take(s, Delete(c)), s.conns[c].fd;
            && (s1.aborted <==> fd !in s.openFds)
            && (!s1.aborted ==>
                  && fd !in s1.openFds && c in s1.conns && s1.conns[c].stage == Deleted
                  && forall l :: l in s1.loops ==> fd !in s1.loops[l].epoll.kernel)
  {
    hide Held;
  }

  // ---------------------------------------------------------------- what the handlers do

  /** Establishing: connected, reading, known to map and kernel, and the user is told. */
  lemma EstablishMeans(s: Server, c: ConnId)
    requires !s.aborted && c in s.conns && s.conns[c].loop in s.loops && s.conns[c].mask == NONE_EVENT
    requires s.conns[c].fd !in s.loops[s.conns[c].loop].epoll.channels
    requires s.conns[c].fd !in s.loops[s.conns[c].loop].epoll.kernel
    ensures var k := s.conns[c];
            var s1 := DoEstablish(s, k.loop, c);
            && c in s1.conns && s1.conns[c].status == Connected && s1.conns[c].mask == Mask(true, false)
            && s1.conns[c].callbacks == k.callbacks + [Callback(k.loop, true)]
            && k.loop in s1.loops
            && Registered(s1.loops[k.loop].epoll.channels, k.fd, c)
            && k.fd in s1.loops[k.loop].epoll.kernel
            && s1.loops[k.loop].epoll.kernel[k.fd] == Interest(c, Mask(true, false))
  {}

  /** Closing, off the main loop: disconnected, asking for nothing, unknown to the kernel, the user told,
      and the removal queued on the main loop behind all other tasks. */
  lemma CloseMeans(s: Server, c: ConnId)
    requires !s.aborted && c in s.conns && s.conns[c].loop in s.loops && MAIN in s.loops
    requires s.conns[c].status != Disconnected && s.conns[c].loop != MAIN
    requires Registered(s.loops[s.conns[c].loop].epoll.channels, s.conns[c].fd, c)
    ensures var k := s.conns[c];
            var s1 := HandleClose(s, k.loop, c);
            && c in s1.conns && s1.conns[c].status == Disconnected && s1.conns[c].mask == Mask(false, false)
            && s1.conns[c].callbacks == k.callbacks + [Callback(k.loop, false)]
            && k.loop in s1.loops && k.fd !in s1.loops[k.loop].epoll.kernel
            && MAIN in s1.loops
            && s1.loops[MAIN].queue.functions == s.loops[MAIN].queue.functions + [RemoveConnection(c)]
  {}

  /** Removing, for a connection of another loop: out of the set, and its destruction queued there. */
  lemma RemoveMeans(s: Server, c: ConnId)
    requires !s.aborted && c in s.conns && s.conns[c].loop in s.loops && s.conns[c].loop != MAIN
    requires c in s.connections
    ensures var l := s.conns[c].loop;
            var s1 := DoRemove(s, MAIN, c);
            && s1.connections == s.connections - {c} && l in s1.loops
            && s1.loops[l].queue.functions == s.loops[l].queue.functions + [ConnectDestroy(c)]
  {}

  /** Destroying: out of the loop's map and out of the kernel. */
  lemma DestroyMeans(s: Server, c: ConnId)
    requires !s.aborted && c in s.conns && s.conns[c].loop in s.loops
    requires Registered(s.loops[s.conns[c].loop].epoll.channels, s.conns[c].fd, c)
    ensures var k := s.conns[c];
            var s1 := DoDestroy(s, k.loop, c);
            && !s1.aborted && k.loop in s1.loops
            && k.fd !in s1.loops[k.loop].epoll.channels && k.fd !in s1.loops[k.loop].epoll.kernel
  {}
}
