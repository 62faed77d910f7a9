/**
 The objects behind the lifecycle protocol: base/src/TcpServer.cpp:18-64 and the lifecycle methods of
 base/src/TcpConnection.cpp:156-188, as methods on the state they share.  Every method is proved to
 take the step of `ServerModel` that the protocol's theorems are about.
 */
module TcpServers {
  import opened ConnStatuses
  import opened EventLoops
  import opened Pollers
  import opened ServerModel
  import opened ServerInvariant
  import opened ServerSteps
  import opened ServerLifecycle

  class TcpServer {
    var connections: set<ConnId>
    var nextConnId: nat
    /** The connection objects, the loops and the open descriptors. */
    var conns: map<ConnId, Conn>
    var loops: map<LoopId, Loop>
    var openFds: set<Fd>
    var aborted: bool

    ghost function State(): Server
      reads this
    {
      Server(conns, connections, nextConnId, openFds, loops, aborted)
    }

    constructor (loops: set<LoopId>, openFds: set<Fd>)
      requires MAIN in loops
      ensures State() == Init(loops, openFds) && Inv(State(), Free)
    {
      this.connections, this.nextConnId, this.conns, this.aborted := {}, 1, map[], false;
      this.loops := map l | l in loops :: Loop(Empty(), EMPTY_EPOLL, [], false);
      this.openFds := openFds;
    }

    /** The cross-thread half of `EventLoop::runInLoop`. */
    method Post(to: LoopId, task: Task)
      requires to in loops
      modifies this`loops
      ensures State() == PostTo(old(State()), to, task)
    {
      var loop := loops[to];
      loops := loops[to := loop.(queue := Apply(loop.queue, EventLoops.Post(task)))];
    }

    /** A channel's mask changes, and its loop's poller hears of it. */
    method SetMask(c: ConnId, mask: Mask)
      requires c in conns && conns[c].loop in loops
      modifies this`conns, this`loops
      ensures State() == UpdateChannel(old(State()), c, mask)
    {
      var k := conns[c];
      conns := conns[c := k.(mask := mask)];
      var loop := loops[k.loop];
      loops := loops[k.loop := loop.(epoll := Update(loop.epoll, k.fd, c, mask))];
    }

    /** `TcpConnection::connectEstablished` on the thread of loop `l`. */
    method ConnectEstablished(l: LoopId, c: ConnId)
      requires c in conns && conns[c].loop in loops
      modifies this
      ensures State() == DoEstablish(old(State()), l, c)
    {
      var k := conns[c];
      if l != k.loop {
        aborted := true;
        return;
      }
      conns := conns[c := Enter(k, Established).(
        status := Connected, callbacks := k.callbacks + [Callback(l, true)])];
      SetMask(c, k.mask.(read := true));
    }

    /** `TcpConnection::connectDestory`. */
    method ConnectDestroy(l: LoopId, c: ConnId)
      requires c in conns && conns[c].loop in loops
      modifies this
      ensures State() == DoDestroy(old(State()), l, c)
    {
      var k := conns[c];
      if l != k.loop {
        aborted := true;
        return;
      }
      var loop := loops[l];
      if !OwnEntry(loop.epoll, k.fd, c) {
        aborted := true;
        return;
      }
      loops := loops[l := loop.(epoll := Pollers.Remove(loop.epoll, k.fd))];
      conns := conns[c := Enter(k, Unregistered)];
    }

    /** `removeConnection`, with its `assert(n != 0)`. */
    method RemoveConnection(l: LoopId, c: ConnId)
      requires c in conns && conns[c].loop in loops
      modifies this
      ensures State() == DoRemove(old(State()), l, c)
    {
      if l != MAIN || c !in connections {
        aborted := true;
        return;
      }
      connections := connections - {c};
      conns := conns[c := Enter(conns[c], Removed)];
      var ioLoop := conns[c].loop;
      if l == ioLoop {
        ConnectDestroy(l, c);
      } else {
        Post(ioLoop, Task.ConnectDestroy(c));
      }
    }

    /** `whenOldConnDisconnect` on the thread of loop `l`. */
    method WhenOldConnDisconnect(l: LoopId, c: ConnId)
      requires c in conns && conns[c].loop in loops && MAIN in loops
      modifies this
      ensures State() == RunRemove(old(State()), l, c)
    {
      if l == MAIN {
        RemoveConnection(l, c);
      } else {
        Post(MAIN, Task.RemoveConnection(c));
      }
    }

    /** `TcpConnection::handleClose`; closing twice is fatal. */
    method HandleClose(l: LoopId, c: ConnId)
      requires c in conns && conns[c].loop in loops && MAIN in loops
      modifies this
      ensures State() == ServerModel.HandleClose(old(State()), l, c)
    {
      hide RunRemove, Update;
      ghost var before := State();
      var k := conns[c];
      if l != k.loop || k.status == Disconnected {
        aborted := true;
        return;
      }
      conns := conns[c := Enter(k, Closed).(
        status := Disconnected, callbacks := k.callbacks + [Callback(l, false)])];
      SetMask(c, NONE_EVENT);
      assert State() == Close(before, l, c);
      WhenOldConnDisconnect(l, c);
    }

    /** `whenNewConnection`: registers the connection and has its own loop establish it. */
    method WhenNewConnection(fd: Fd, l: LoopId) returns (c: ConnId)
      requires l in loops && MAIN in loops
      modifies this
      ensures c == old(nextConnId)
      ensures State() == RunEstablish(Admit(old(State()), fd, l), MAIN, l, c)
      ensures old(Inv(State(), Free) && CanTake(State(), Accept(fd, l))) ==> Inv(State(), Free)
    {
      hide Inv, CanTake, DoEstablish, PostTo;
      ghost var before := State();
      c := nextConnId;
      nextConnId := nextConnId + 1;
      openFds := openFds + {fd};
      conns := conns[c := NewConn(fd, l)];
      connections := connections + {c};
      if l == MAIN {
        ConnectEstablished(MAIN, c);
      } else {
        Post(l, Task.ConnectEstablished(c));
      }
      AcceptOutcome(before, fd, l);
    }

    /** One task of the batch of loop `l` runs. */
    method RunNextTask(l: LoopId)
      requires l in loops && Enabled(loops[l].queue, EventLoops.RunTask)
      requires Callable(State(), loops[l].queue.batch[0].conn)
      modifies this
      ensures State() == Exec(PopTask(old(State()), l), l, old(loops[l].queue.batch[0]))
      ensures old(Inv(State(), Free)) ==> Inv(State(), Free)
    {
      hide Inv, DoEstablish, DoRemove, DoDestroy, Apply;
      ghost var before := State();
      var loop := loops[l];
      var task := loop.queue.batch[0];
      loops := loops[l := loop.(queue := Apply(loop.queue, EventLoops.RunTask))];
      match task {
        case ConnectEstablished(c) => ConnectEstablished(l, c);
        case RemoveConnection(c) => RemoveConnection(l, c);
        case ConnectDestroy(c) => ConnectDestroy(l, c);
      }
      RunOutcome(before, l);
    }
  }

  lemma AcceptOutcome(s: Server, fd: Fd, l: LoopId)
    requires l in s.loops && MAIN in s.loops
    ensures Inv(s, Free) && CanTake(s, Accept(fd, l)) ==>
              Inv(RunEstablish(Admit(s, fd, l), MAIN, l, s.nextConnId), Free)
  {
    hide Inv, CanTake, RunEstablish;
    if Inv(s, Free) && CanTake(s, Accept(fd, l)) {
      AcceptKeeps(s, fd, l);
    }
  }

  lemma RunOutcome(s: Server, l: LoopId)
    requires l in s.loops && Enabled(s.loops[l].queue, EventLoops.RunTask)
    requires Callable(s, s.loops[l].queue.batch[0].conn)
    ensures Inv(s, Free) ==> Inv(Exec(PopTask(s, l), l, s.loops[l].queue.batch[0]), Free)
  {
    hide Inv, Exec;
    if Inv(s, Free) {
      PopTaskKeeps(s, l);
      ExecKeeps(PopTask(s, l), l, s.loops[l].queue.batch[0]);
    }
  }
}
