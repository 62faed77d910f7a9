/**
 The lifecycle theorems: every step of every interleaving keeps the invariant, and a step brings the
 program down exactly when a hang-up without IN comes together with another read event.
 */
module ServerLifecycle {
  import opened ConnStatuses
  import opened EventLoops
  import opened Pollers
  import opened ServerModel
  import opened ServerInvariant
  import opened ServerSteps

  // ---------------------------------------------------------------- lifecycle tasks

  /** Establishing always registers a new descriptor: it never takes the branch for a known one. */
  lemma EstablishIsNew(s: Server, l: LoopId, c: ConnId)
    requires Inv(s, Holding(l, ConnectEstablished(c)))
    ensures s.conns[c].fd !in s.loops[l].epoll.channels && s.conns[c].fd !in s.loops[l].epoll.kernel
  {
    hide ConnOk, TasksOk, ActiveOk;
    var p, fd := s.loops[l].epoll, s.conns[c].fd;
    assert LoopOk(s.conns, Holding(l, ConnectEstablished(c)), l, s.loops[l]);
    assert fd in p.channels ==> InMap(s.conns, l, fd, p.channels[fd]);
    assert fd in p.kernel ==> InMap(s.conns, l, fd, p.kernel[fd].chan);
  }

  /** The active channels of a loop, each with its `ReadyOk`. */
  lemma ActivesAreReady(s: Server, hand: Hand, l: LoopId)
    requires Inv(s, hand) && l in s.loops
    ensures var loop := s.loops[l];
            forall i :: 0 <= i < |loop.active| ==> ReadyOk(s.conns, l, loop.active[i], i == 0 && loop.started)
  {
    hide ConnOk, TasksOk, EpollOk, ReadyOk;
    assert LoopOk(s.conns, hand, l, s.loops[l]);
  }

  function EstablishedConn(k: Conn, l: LoopId): Conn {
    Enter(k, Established).(
      status := Connected, mask := k.mask.(read := true), callbacks := k.callbacks + [Callback(l, true)])
  }

  lemma EstablishIsChange(s: Server, l: LoopId, c: ConnId)
    requires c in s.conns && s.conns[c].loop == l && l in s.loops
    ensures var k1 := EstablishedConn(s.conns[c], l);
            DoEstablish(s, l, c) == Changed(s, c, k1, Update(s.loops[l].epoll, k1.fd, c, k1.mask), s.connections)
  {
    hide Update;
  }

  lemma EstablishKeeps(s: Server, l: LoopId, c: ConnId)
    requires Inv(s, Holding(l, ConnectEstablished(c)))
    ensures Inv(DoEstablish(s, l, c), Free)
  {
    hide LoopOk, FdsOk, DoEstablish;
    var hand, k := Holding(l, ConnectEstablished(c)), s.conns[c];
    assert ConnOk(s, hand, c, k);
    EstablishIsNew(s, l, c);
    ActivesAreReady(s, hand, l);
    var k1 := EstablishedConn(k, l);
    var p1 := Update(s.loops[l].epoll, k.fd, c, k1.mask);
    EstablishIsChange(s, l, c);
    ConnChange(s, hand, c, k1, p1, s.connections, Free);
  }

  lemma DestroyKeeps(s: Server, l: LoopId, c: ConnId)
    requires Inv(s, Holding(l, ConnectDestroy(c)))
    ensures Inv(DoDestroy(s, l, c), Free)
  {
    hide LoopOk, FdsOk;
    var hand, k := Holding(l, ConnectDestroy(c)), s.conns[c];
    assert ConnOk(s, hand, c, k);
    ActivesAreReady(s, hand, l);
    var k1 := Enter(k, Unregistered);
    var p1 := Remove(s.loops[l].epoll, k.fd);
    ConnChange(s, hand, c, k1, p1, s.connections, Free);
    assert DoDestroy(s, l, c) == Changed(s, c, k1, p1, s.connections);
  }

  lemma TakeOutKeeps(s: Server, c: ConnId)
    requires Inv(s, Holding(MAIN, RemoveConnection(c)))
    ensures c in s.connections && Inv(TakeOut(s, c), Holding(s.conns[c].loop, ConnectDestroy(c)))
  {
    hide LoopOk, FdsOk;
    var hand, k := Holding(MAIN, RemoveConnection(c)), s.conns[c];
    assert ConnOk(s, hand, c, k);
    ActivesAreReady(s, hand, k.loop);
    var k1 := Enter(k, Removed);
    var p1, rest := s.loops[k.loop].epoll, s.connections - {c};
    KernelOfClosed(s, hand, c);
    ConnChange(s, hand, c, k1, p1, rest, Holding(k.loop, ConnectDestroy(c)));
    assert s.loops[k.loop := s.loops[k.loop]] == s.loops;
    assert TakeOut(s, c) == Changed(s, c, k1, p1, rest);
  }

  /** The kernel does not watch a connection that is not established. */
  lemma KernelOfClosed(s: Server, hand: Hand, c: ConnId)
    requires Inv(s, hand) && c in s.conns && s.conns[c].stage != Established && s.conns[c].stage != Deleted
    ensures var k := s.conns[c]; k.loop in s.loops && k.fd !in s.loops[k.loop].epoll.kernel
  {
    hide TasksOk, ActiveOk;
    var k := s.conns[c];
    assert ConnOk(s, hand, c, k);
    assert LoopOk(s.conns, hand, k.loop, s.loops[k.loop]);
    var p := s.loops[k.loop].epoll;
    assert k.fd in p.kernel ==> InMap(s.conns, k.loop, k.fd, p.kernel[k.fd].chan);
  }

  /** `c` is active in its loop at most as the channel now handling its event, past its close call. */
  predicate MayClose(s: Server, c: ConnId)
    requires c in s.conns && s.conns[c].loop in s.loops
  {
    var loop := s.loops[s.conns[c].loop];
    forall i :: 0 <= i < |loop.active| && loop.active[i].conn == c ==>
      i == 0 && loop.started && (loop.active[i].calls != [] ==> loop.active[i].calls[0] != CloseCall)
  }

  function ClosedConn(k: Conn, l: LoopId): Conn {
    Enter(k, Closed).(status := Disconnected, mask := NONE_EVENT, callbacks := k.callbacks + [Callback(l, false)])
  }

  lemma CloseIsChange(s: Server, l: LoopId, c: ConnId)
    requires c in s.conns && s.conns[c].loop == l && l in s.loops
    ensures var k1 := ClosedConn(s.conns[c], l);
            Close(s, l, c) == Changed(s, c, k1, Update(s.loops[l].epoll, k1.fd, c, NONE_EVENT), s.connections)
  {
    hide Update;
  }

  lemma CloseKeeps(s: Server, c: ConnId)
    requires Inv(s, Free) && c in s.conns && s.conns[c].loop in s.loops
    requires s.conns[c].stage == Established && MayClose(s, c)
    ensures Inv(Close(s, s.conns[c].loop, c), Holding(MAIN, RemoveConnection(c)))
  {
    hide LoopOk, FdsOk, Close;
    var k := s.conns[c];
    assert ConnOk(s, Free, c, k);
    ActivesAreReady(s, Free, k.loop);
    var k1 := ClosedConn(k, k.loop);
    var p1 := Update(s.loops[k.loop].epoll, k.fd, c, NONE_EVENT);
    CloseIsChange(s, k.loop, c);
    ConnChange(s, Free, c, k1, p1, s.connections, Holding(MAIN, RemoveConnection(c)));
  }

  lemma RunDestroyKeeps(s: Server, l: LoopId, c: ConnId)
    requires c in s.conns && Inv(s, Holding(s.conns[c].loop, ConnectDestroy(c)))
    ensures s.conns[c].loop in s.loops && Inv(RunDestroy(s, l, c), Free)
  {
    hide ConnOk, LoopOk, FdsOk, DoDestroy, PostTo;
    if l == s.conns[c].loop {
      DestroyKeeps(s, l, c);
    } else {
      PostKeeps(s, s.conns[c].loop, ConnectDestroy(c));
    }
  }

  lemma RemoveKeeps(s: Server, c: ConnId)
    requires Inv(s, Holding(MAIN, RemoveConnection(c)))
    ensures c in s.conns && s.conns[c].loop in s.loops && Inv(DoRemove(s, MAIN, c), Free)
  {
    hide LoopOk, FdsOk, RunDestroy;
    assert ConnOk(s, Holding(MAIN, RemoveConnection(c)), c, s.conns[c]);
    TakeOutKeeps(s, c);
    RunDestroyKeeps(TakeOut(s, c), MAIN, c);
  }

  lemma HandleCloseKeeps(s: Server, c: ConnId)
    requires Inv(s, Free) && c in s.conns && s.conns[c].loop in s.loops
    requires s.conns[c].stage == Established && MayClose(s, c)
    ensures Inv(HandleClose(s, s.conns[c].loop, c), Free)
  {
    hide LoopOk, FdsOk, DoRemove, PostTo;
    var l := s.conns[c].loop;
    assert ConnOk(s, Free, c, s.conns[c]);
    CloseKeeps(s, c);
    var s1 := Close(s, l, c);
    if l == MAIN {
      RemoveKeeps(s1, c);
    } else {
      PostKeeps(s1, MAIN, RemoveConnection(c));
    }
  }

  lemma ExecKeeps(s: Server, l: LoopId, t: Task)
    requires Inv(s, Holding(l, t))
    ensures t.conn in s.conns && s.conns[t.conn].loop in s.loops && Inv(Exec(s, l, t), Free)
  {
    hide LoopOk, FdsOk, DoEstablish, DoRemove, DoDestroy;
    assert ConnOk(s, Holding(l, t), t.conn, s.conns[t.conn]);
    match t
    case ConnectEstablished(c) => EstablishKeeps(s, l, c);
    case RemoveConnection(c) => RemoveKeeps(s, c);
    case ConnectDestroy(c) => DestroyKeeps(s, l, c);
  }

  // ---------------------------------------------------------------- steps of a loop

  lemma QueueStepKeeps(s: Server, l: LoopId, e: Event<Task>)
    requires Inv(s, Free) && CanTake(s, QueueStep(l, e))
    ensures Inv(Take(s, QueueStep(l, e)), Free)
  {
    hide ConnOk, TaskFits, FdsOk, EpollOk;
    var loop := s.loops[l];
    var loop1 := loop.(queue := Apply(loop.queue, e));
    assert LoopOk(s.conns, Free, l, loop);
    ApplyKeepsInv(loop.queue, e);
    assert Pending(loop1) == Pending(loop);
    LoopChange(s, Free, l, loop1, Free);
  }

  lemma CallsShape(r: Revents)
    ensures forall j :: 1 <= j < |Calls(r)| ==> Calls(r)[j] != CloseCall
  {}

  lemma ReportedIsReady(s: Server, l: LoopId, c: ConnId, r: Revents)
    requires Inv(s, Free) && l in s.loops && Reportable(s, l, c, r)
    ensures c in s.conns && Registered(s.loops[l].epoll.channels, s.conns[c].fd, c)
    ensures ReadyOk(s.conns, l, Ready(c, Calls(r)), false)
  {
    hide FdsOk, TasksOk, ActiveOk, Calls;
    var p, fd := s.loops[l].epoll, s.conns[c].fd;
    assert LoopOk(s.conns, Free, l, s.loops[l]);
    assert InMap(s.conns, l, fd, p.kernel[fd].chan);
    assert ConnOk(s, Free, c, s.conns[c]);
    CallsShape(r);
  }

  lemma PollKeeps(s: Server, l: LoopId, wake: bool, reported: seq<(ConnId, Revents)>)
    requires Inv(s, Free) && CanTake(s, Poll(l, wake, reported))
    ensures PollAsserts(s, l, reported)
    ensures Inv(Take(s, Poll(l, wake, reported)), Free)
  {
    hide ConnOk, TasksOk, FdsOk, EpollOk, ReadyOk, Calls, QueueInv, Reportable;
    forall i | 0 <= i < |reported|
      ensures reported[i].0 in s.conns
      ensures Registered(s.loops[l].epoll.channels, s.conns[reported[i].0].fd, reported[i].0)
      ensures ReadyOk(s.conns, l, Activated(reported)[i], false)
    {
      ReportedIsReady(s, l, reported[i].0, reported[i].1);
    }
    var loop := s.loops[l];
    var loop1 := loop.(queue := Apply(loop.queue, PollReturns(wake)), active := Activated(reported), started := false);
    assert LoopOk(s.conns, Free, l, loop);
    ApplyKeepsInv(loop.queue, PollReturns(wake));
    assert Pending(loop1) == Pending(loop);
    LoopChange(s, Free, l, loop1, Free);
  }

  /** Only the active channels of a loop change. */
  lemma ActiveChange(s: Server, l: LoopId, active: seq<Ready>, started: bool)
    requires Inv(s, Free) && l in s.loops
    requires ActiveOk(s.conns, l, active, started, s.loops[l].queue.phase)
    ensures Inv(WithLoop(s, l, s.loops[l].(active := active, started := started)), Free)
  {
    hide ConnOk, TaskFits, FdsOk, EpollOk, ActiveOk, QueueInv;
    var loop := s.loops[l];
    assert LoopOk(s.conns, Free, l, loop);
    LoopChange(s, Free, l, loop.(active := active, started := started), Free);
  }

  lemma BeginEventKeeps(s: Server, l: LoopId)
    requires Inv(s, Free) && CanTake(s, BeginEvent(l))
    ensures Inv(Take(s, BeginEvent(l)), Free)
  {
    hide ConnOk, TasksOk, EpollOk, FdsOk;
    var loop := s.loops[l];
    assert LoopOk(s.conns, Free, l, loop);
    assert ReadyOk(s.conns, l, loop.active[0], false);
    ActiveChange(s, l, loop.active, true);
  }

  lemma EndEventKeeps(s: Server, l: LoopId)
    requires Inv(s, Free) && CanTake(s, EndEvent(l))
    ensures Inv(Take(s, EndEvent(l)), Free)
  {
    hide ConnOk, TasksOk, EpollOk, FdsOk;
    var loop := s.loops[l];
    assert LoopOk(s.conns, Free, l, loop);
    var rest := loop.active[1..];
    assert forall i :: 0 <= i < |rest| ==> ReadyOk(s.conns, l, rest[i], false) by {
      assert forall i :: 0 <= i < |rest| ==> rest[i] == loop.active[i + 1];
    }
    ActiveChange(s, l, rest, false);
  }

  lemma PopCallKeeps(s: Server, l: LoopId)
    requires Inv(s, Free) && l in s.loops && s.loops[l].active != [] && s.loops[l].started
    requires s.loops[l].active[0].calls != []
    ensures Inv(PopCall(s, l), Free)
    ensures var head := s.loops[l].active[0];
            && head.conn in s.conns && s.conns[head.conn].loop == l
            && (head.calls[0] == CloseCall ==> s.conns[head.conn].stage == Established)
            && MayClose(PopCall(s, l), head.conn)
  {
    hide ConnOk, TasksOk, EpollOk, FdsOk;
    var loop := s.loops[l];
    assert LoopOk(s.conns, Free, l, loop);
    var head := loop.active[0];
    assert ReadyOk(s.conns, l, head, true);
    assert forall i :: 1 <= i < |loop.active| ==> ReadyOk(s.conns, l, loop.active[i], false);
    ActiveChange(s, l, loop.active[0 := head.(calls := head.calls[1..])], true);
  }

  /** The step makes a read call find the end of a stream whose connection is already closed. */
  ghost predicate ClosesTwice(s: Server, step: Step)
    requires CanTake(s, step)
  {
    step.MakeCall? && step.read == ReadEof
    && var head := s.loops[step.loop].active[0];
       head.calls[0] == ReadCall && s.conns[head.conn].status == Disconnected
  }

  lemma MakeCallKeeps(s: Server, l: LoopId, read: ReadResult)
    requires Inv(s, Free) && CanTake(s, MakeCall(l, read))
    ensures var s1 := Take(s, MakeCall(l, read));
            if ClosesTwice(s, MakeCall(l, read)) then s1.aborted else Inv(s1, Free)
  {
    hide LoopOk, FdsOk, ConnRegistered, MayClose, RunRemove;
    PopCallKeeps(s, l);
    var c := s.loops[l].active[0].conn;
    assert ConnOk(s, Free, c, s.conns[c]);
    var s1 := PopCall(s, l);
    if s.conns[c].stage == Established {
      HandleCloseKeeps(s1, c);
    }
  }

  lemma RunNextKeeps(s: Server, l: LoopId)
    requires Inv(s, Free) && CanTake(s, RunNext(l))
    ensures Inv(Take(s, RunNext(l)), Free)
  {
    hide Inv, Exec;
    PopTaskKeeps(s, l);
    ExecKeeps(PopTask(s, l), l, s.loops[l].queue.batch[0]);
  }

  // ---------------------------------------------------------------- steps of a connection

  lemma ShutdownKeeps(s: Server, c: ConnId)
    requires Inv(s, Free) && CanTake(s, Shutdown(c))
    ensures Inv(Take(s, Shutdown(c)), Free)
  {
    hide LoopOk, FdsOk;
    var k := s.conns[c];
    assert ConnOk(s, Free, c, k);
    ActivesAreReady(s, Free, k.loop);
    var k1, p := k.(status := Disconnecting), s.loops[k.loop].epoll;
    ConnChange(s, Free, c, k1, p, s.connections, Free);
    assert s.loops[k.loop := s.loops[k.loop]] == s.loops;
    assert Take(s, Shutdown(c)) == Changed(s, c, k1, p, s.connections);
  }

  lemma WriteKeeps(s: Server, c: ConnId, on: bool)
    requires Inv(s, Free) && c in s.conns && s.conns[c].loop in s.loops && s.conns[c].stage == Established
    ensures Inv(UpdateChannel(s, c, s.conns[c].mask.(write := on)), Free)
  {
    hide LoopOk, FdsOk;
    var k := s.conns[c];
    assert ConnOk(s, Free, c, k);
    ActivesAreReady(s, Free, k.loop);
    var k1 := k.(mask := k.mask.(write := on));
    var p1 := Update(s.loops[k.loop].epoll, k.fd, c, k1.mask);
    ConnChange(s, Free, c, k1, p1, s.connections, Free);
    assert UpdateChannel(s, c, k1.mask) == Changed(s, c, k1, p1, s.connections);
  }

  lemma SetWriteKeeps(s: Server, c: ConnId, on: bool)
    requires Inv(s, Free) && CanTake(s, SetWrite(c, on))
    ensures Inv(Take(s, SetWrite(c, on)), Free)
  {
    hide LoopOk, FdsOk, UpdateChannel;
    assert ConnOk(s, Free, c, s.conns[c]);
    WriteKeeps(s, c, on);
  }

  /** A posted send turns write interest on after its connection has left its loop's map. */
  ghost predicate Revives(s: Server, step: Step)
    requires CanTake(s, step)
  {
    step.PostedSend? && step.spill && s.conns[step.conn].stage == Unregistered
  }

  /** A closed connection still in its loop's map is unknown to the kernel, so turning write interest
      on changes nothing but its mask. */
  lemma LateWriteIsLost(s: Server, c: ConnId)
    requires Inv(s, Free) && c in s.conns && (s.conns[c].stage == Closed || s.conns[c].stage == Removed)
    ensures s.conns[c].loop in s.loops
    ensures var k1 := s.conns[c].(mask := Mask(false, true));
            UpdateChannel(s, c, s.conns[c].mask.(write := true)) == s.(conns := s.conns[c := k1])
  {
    hide LoopOk, FdsOk;
    var k := s.conns[c];
    assert ConnOk(s, Free, c, k);
    KernelOfClosed(s, Free, c);
    assert s.loops[k.loop := s.loops[k.loop]] == s.loops;
  }

  lemma MaskKeeps(s: Server, c: ConnId, mask: Mask)
    requires Inv(s, Free) && c in s.conns && (s.conns[c].stage == Closed || s.conns[c].stage == Removed)
    requires !mask.read
    ensures Inv(s.(conns := s.conns[c := s.conns[c].(mask := mask)]), Free)
  {
    hide LoopOk;
    var k1 := s.conns[c].(mask := mask);
    var s1 := s.(conns := s.conns[c := k1]);
    forall l | l in s1.loops ensures LoopOk(s1.conns, Free, l, s1.loops[l]) {
      MaskIsNoMatter(s.conns, c, mask, l, s.loops[l]);
    }
    forall other | other in s1.conns ensures ConnOk(s1, Free, other, s1.conns[other]) {
      assert ConnOk(s, Free, other, s.conns[other]);
    }
  }

  lemma MaskIsNoMatter(conns: Conns, c: ConnId, mask: Mask, l: LoopId, loop: Loop)
    requires LoopOk(conns, Free, l, loop) && c in conns
    ensures LoopOk(conns[c := conns[c].(mask := mask)], Free, l, loop)
  {
    hide QueueInv;
    var conns1 := conns[c := conns[c].(mask := mask)];
    forall i | 0 <= i < |Pending(loop)| ensures TaskFits(conns1, l, Pending(loop)[i]) {
      assert TaskFits(conns, l, Pending(loop)[i]);
    }
    forall i | 0 <= i < |loop.active| ensures ReadyOk(conns1, l, loop.active[i], i == 0 && loop.started) {
      assert ReadyOk(conns, l, loop.active[i], i == 0 && loop.started);
    }
  }

  /** An unregistered connection that turns write interest on is back in its loop's map. */
  lemma RevivedIsMapped(s: Server, c: ConnId)
    requires Inv(s, Free) && c in s.conns && s.conns[c].stage == Unregistered
    ensures s.conns[c].loop in s.loops
    ensures var k := s.conns[c];
            var p := s.loops[k.loop].epoll;
            && k.fd !in p.channels && k.fd !in p.kernel
            && UpdateChannel(s, c, k.mask.(write := true)).loops[k.loop].epoll
               == Update(p, k.fd, c, Mask(false, true))
               == Epoll(p.channels[k.fd := c], p.kernel[k.fd := Interest(c, Mask(false, true))])
  {
    hide TasksOk, ActiveOk, QueueInv;
    var k := s.conns[c];
    assert ConnOk(s, Free, c, k);
    var p := s.loops[k.loop].epoll;
    assert LoopOk(s.conns, Free, k.loop, s.loops[k.loop]);
    assert k.fd in p.channels ==> InMap(s.conns, k.loop, k.fd, p.channels[k.fd]);
    assert k.fd in p.kernel ==> InMap(s.conns, k.loop, k.fd, p.kernel[k.fd].chan);
  }

  /** A posted send keeps the invariant exactly when it does not bring an unregistered connection back
      into the map, whenever it runs. */
  lemma PostedSendKeepsIff(s: Server, c: ConnId, spill: bool)
    requires Inv(s, Free) && CanTake(s, PostedSend(c, spill))
    ensures !Take(s, PostedSend(c, spill)).aborted
    ensures Inv(Take(s, PostedSend(c, spill)), Free) <==> !Revives(s, PostedSend(c, spill))
  {
    hide ConnOk, LoopOk, FdsOk, UpdateChannel;
    var s1, k := Take(s, PostedSend(c, spill)), s.conns[c];
    if spill {
      UpdateIsLocal(s, c, k.mask.(write := true));
      if k.stage == Established {
        WriteKeeps(s, c, true);
      } else if k.stage == Unregistered {
        RevivedIsMapped(s, c);
        NotInMap(s1, k.loop, k.fd);
      } else {
        LateWriteIsLost(s, c);
        MaskKeeps(s, c, Mask(false, true));
      }
    }
  }

  lemma UpdateIsLocal(s: Server, c: ConnId, mask: Mask)
    requires c in s.conns && s.conns[c].loop in s.loops
    ensures var s1 := UpdateChannel(s, c, mask);
            && s1.aborted == s.aborted && s1.openFds == s.openFds && s1.loops.Keys == s.loops.Keys
            && (forall l :: l in s.loops && l != s.conns[c].loop ==> s1.loops[l] == s.loops[l])
            && s1.conns == s.conns[c := s.conns[c].(mask := mask)]
  {}

  lemma NotInMap(s: Server, l: LoopId, fd: Fd)
    requires l in s.loops && fd in s.loops[l].epoll.channels
    requires !InMap(s.conns, l, fd, s.loops[l].epoll.channels[fd])
    ensures !Inv(s, Free)
  {}

  // ---------------------------------------------------------------- birth and death

  lemma AdmitKeeps(s: Server, fd: Fd, l: LoopId)
    requires Inv(s, Free) && CanTake(s, Accept(fd, l))
    ensures Inv(Admit(s, fd, l), Holding(l, ConnectEstablished(s.nextConnId)))
  {
    hide LoopOk;
    var c, k := s.nextConnId, NewConn(fd, l);
    var s1, hand := Admit(s, fd, l), Holding(l, ConnectEstablished(c));
    assert forall other :: other in s.conns ==> ConnOk(s, Free, other, s.conns[other]) && other < c;
    forall other | other in s1.conns
      ensures ConnOk(s1, hand, other, s1.conns[other])
      ensures other != c ==> s1.conns[other].fd != fd || s1.conns[other].stage == Deleted
    {
      if other != c { assert ConnOk(s, Free, other, s.conns[other]); }
    }
    forall l1 | l1 in s1.loops ensures LoopOk(s1.conns, hand, l1, s1.loops[l1]) {
      NewConnLoop(s.conns, c, k, hand, l1, s.loops[l1]);
    }
  }

  /** A loop does not notice a connection that did not exist. */
  lemma NewConnLoop(conns: Conns, c: ConnId, k: Conn, hand: Hand, l: LoopId, loop: Loop)
    requires LoopOk(conns, Free, l, loop) && c !in conns
    requires hand.Holding? && hand.task.conn == c
    ensures LoopOk(conns[c := k], hand, l, loop)
  {
    hide QueueInv;
    var tasks := Pending(loop);
    forall i | 0 <= i < |tasks| ensures TaskFits(conns[c := k], l, tasks[i]) && tasks[i] != hand.task {
      assert TaskFits(conns, l, tasks[i]);
    }
    forall fd | fd in loop.epoll.channels ensures InMap(conns[c := k], l, fd, loop.epoll.channels[fd]) {
      assert InMap(conns, l, fd, loop.epoll.channels[fd]);
    }
    forall fd | fd in loop.epoll.kernel ensures InMap(conns[c := k], l, fd, loop.epoll.kernel[fd].chan) {
      assert InMap(conns, l, fd, loop.epoll.kernel[fd].chan);
    }
    forall i | 0 <= i < |loop.active|
      ensures ReadyOk(conns[c := k], l, loop.active[i], i == 0 && loop.started)
    {
      assert ReadyOk(conns, l, loop.active[i], i == 0 && loop.started);
    }
  }

  lemma AcceptKeeps(s: Server, fd: Fd, l: LoopId)
    requires Inv(s, Free) && CanTake(s, Accept(fd, l))
    ensures Inv(Take(s, Accept(fd, l)), Free)
  {
    hide Inv, DoEstablish, PostTo;
    AdmitKeeps(s, fd, l);
    var s1, c := Admit(s, fd, l), s.nextConnId;
    if l == MAIN {
      EstablishKeeps(s1, l, c);
    } else {
      PostKeeps(s1, l, ConnectEstablished(c));
    }
  }

  /** A connection to which no reference is left has been unregistered, and its descriptor is open. */
  lemma UnheldIsUnregistered(s: Server, c: ConnId)
    requires Inv(s, Free) && c in s.conns && s.conns[c].stage != Deleted && !Held(s, c)
    ensures s.conns[c].stage == Unregistered && s.conns[c].fd in s.openFds
  {
    hide LoopOk, FdsOk;
    var k := s.conns[c];
    assert ConnOk(s, Free, c, k);
    assert Has(s.loops, Free, Due(c, k));
    assert Due(c, k) == Free;
  }

  lemma OthersOutliveIt(s: Server, c: ConnId, other: ConnId)
    requires Inv(s, Free) && c in s.conns && s.conns[c].stage == Unregistered && other in s.conns
    requires Destruct(s, c).loops == s.loops && s.conns[c].fd in s.openFds
    ensures var s1 := Destruct(s, c); ConnOk(s1, Free, other, s1.conns[other])
  {
    hide LoopOk;
    assert ConnOk(s, Free, other, s.conns[other]) && ConnOk(s, Free, c, s.conns[c]);
  }

  lemma LoopsAfterDestruct(s: Server, c: ConnId)
    requires c in s.conns && s.conns[c].fd in s.openFds
    requires forall l :: l in s.loops ==> s.conns[c].fd !in s.loops[l].epoll.kernel
    ensures Destruct(s, c).loops == s.loops
  {
    var fd, s1 := s.conns[c].fd, Destruct(s, c);
    forall l | l in s.loops ensures s1.loops[l] == s.loops[l] {
      assert s.loops[l].epoll.kernel - {fd} == s.loops[l].epoll.kernel;
    }
  }

  lemma DestructKeeps(s: Server, c: ConnId)
    requires Inv(s, Free) && CanTake(s, Delete(c))
    ensures Inv(Take(s, Delete(c)), Free)
  {
    hide LoopOk, Held, ConnOk;
    UnheldIsUnregistered(s, c);
    KernelOfDead(s, c);
    LoopsAfterDestruct(s, c);
    var s1 := Destruct(s, c);
    forall l | l in s.loops ensures LoopOk(s1.conns, Free, l, s1.loops[l]) {
      DeadLoop(s, c, l);
    }
    forall other | other in s1.conns ensures ConnOk(s1, Free, other, s1.conns[other]) {
      OthersOutliveIt(s, c, other);
    }
  }

  /** No kernel set of any loop watches the descriptor of an unregistered connection. */
  lemma KernelOfDead(s: Server, c: ConnId)
    requires Inv(s, Free) && c in s.conns && s.conns[c].stage == Unregistered
    ensures forall l :: l in s.loops ==> s.conns[c].fd !in s.loops[l].epoll.kernel
  {
    hide ConnOk, TasksOk, ActiveOk;
    var fd := s.conns[c].fd;
    forall l | l in s.loops ensures fd !in s.loops[l].epoll.kernel {
      var p := s.loops[l].epoll;
      assert LoopOk(s.conns, Free, l, s.loops[l]);
      assert fd in p.kernel ==> InMap(s.conns, l, fd, p.kernel[fd].chan);
    }
  }

  lemma DeadLoop(s: Server, c: ConnId, l: LoopId)
    requires Inv(s, Free) && l in s.loops && c in s.conns && s.conns[c].stage == Unregistered && !Held(s, c)
    ensures LoopOk(s.conns[c := Enter(s.conns[c], Deleted)], Free, l, s.loops[l])
  {
    hide ConnOk, FdsOk, QueueInv;
    var loop, k1 := s.loops[l], Enter(s.conns[c], Deleted);
    var conns1 := s.conns[c := k1];
    assert LoopOk(s.conns, Free, l, loop);
    NoTaskQueued(s, Free, c, l);
    TasksSurvive(s.conns, c, k1, Free, Free, l, Pending(loop));
    forall fd | fd in loop.epoll.channels ensures InMap(conns1, l, fd, loop.epoll.channels[fd]) {
      assert InMap(s.conns, l, fd, loop.epoll.channels[fd]);
    }
    forall fd | fd in loop.epoll.kernel ensures InMap(conns1, l, fd, loop.epoll.kernel[fd].chan) {
      assert InMap(s.conns, l, fd, loop.epoll.kernel[fd].chan);
    }
    forall i | 0 <= i < |loop.active|
      ensures ReadyOk(conns1, l, loop.active[i], i == 0 && loop.started)
    {
      assert ReadyOk(s.conns, l, loop.active[i], i == 0 && loop.started);
      assert loop.active[i].conn != c;
    }
  }

  // ---------------------------------------------------------------- every step

  /** A step from a good state aborts exactly when it closes a connection a second time; otherwise it
      leads to a good state exactly when it does not bring an unregistered connection back. */
  lemma StepKeeps(s: Server, step: Step)
    requires Inv(s, Free) && CanTake(s, step)
    ensures Take(s, step).aborted <==> ClosesTwice(s, step)
    ensures !Take(s, step).aborted ==> (Inv(Take(s, step), Free) <==> !Revives(s, step))
  {
    hide CanTake, Take, LoopOk, ConnOk, FdsOk;
    match step
    case Accept(fd, l) => AcceptKeeps(s, fd, l);
    case Shutdown(c) => ShutdownKeeps(s, c);
    case SetWrite(c, on) => SetWriteKeeps(s, c, on);
    case PostedSend(c, spill) => PostedSendKeepsIff(s, c, spill);
    case QueueStep(l, e) => QueueStepKeeps(s, l, e);
    case Poll(l, wake, reported) => PollKeeps(s, l, wake, reported);
    case BeginEvent(l) => BeginEventKeeps(s, l);
    case MakeCall(l, read) => MakeCallKeeps(s, l, read);
    case EndEvent(l) => EndEventKeeps(s, l);
    case RunNext(l) => RunNextKeeps(s, l);
    case Delete(c) => DestructKeeps(s, c);
  }
}
