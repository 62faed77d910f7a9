/** Every part of a step keeps the lifecycle invariant. */
module ServerSteps {
  import opened EventLoops
  import opened Pollers
  import opened ServerModel
  import opened ServerInvariant

  // ---------------------------------------------------------------- a queue changes

  /** Only the queue and the active channels of one loop change. */
  lemma LoopChange(s: Server, hand: Hand, l: LoopId, loop1: Loop, hand1: Hand)
    requires Inv(s, hand) && l in s.loops && loop1.epoll == s.loops[l].epoll
    requires LoopOk(s.conns, hand1, l, loop1)
    requires forall due :: Has(s.loops, hand, due) ==> Has(s.loops[l := loop1], hand1, due)
    requires hand1.Holding? ==> hand1.loop == l && TaskFits(s.conns, l, hand1.task)
    ensures Inv(WithLoop(s, l, loop1), hand1)
  {
    hide LoopOk, ConnShape, ConnRegistered, TaskFits, FdsOk, Has, Due;
    var s1 := WithLoop(s, l, loop1);
    forall c | c in s1.conns ensures ConnOk(s1, hand1, c, s1.conns[c]) {
      assert ConnOk(s, hand, c, s.conns[c]);
    }
    forall l1 | l1 in s1.loops ensures LoopOk(s1.conns, hand1, l1, s1.loops[l1]) {
      if l1 != l {
        OtherHand(s.conns, hand, hand1, l1, s.loops[l1]);
      }
    }
  }

  /** What another loop has in hand does not matter to this one. */
  lemma OtherHand(conns: Conns, hand: Hand, hand1: Hand, l: LoopId, loop: Loop)
    requires LoopOk(conns, hand, l, loop) && (hand1.Holding? ==> hand1.loop != l)
    ensures LoopOk(conns, hand1, l, loop)
  {}

  lemma PostKeeps(s: Server, l: LoopId, t: Task)
    requires Inv(s, Holding(l, t))
    ensures Inv(PostTo(s, l, t), Free)
  {
    hide ConnOk, TaskFits, FdsOk, TasksOk, EpollOk, ActiveOk;
    var loop := s.loops[l];
    var loop1 := loop.(queue := Apply(loop.queue, Post(t)));
    var tasks := Pending(loop);
    assert LoopOk(s.conns, Holding(l, t), l, loop);
    ApplyKeepsInv(loop.queue, Post(t));
    assert Pending(loop1) == tasks + [t];
    PostTasks(s.conns, l, tasks, t);
    forall due | Has(s.loops, Holding(l, t), due) ensures Has(s.loops[l := loop1], Free, due) {
      PostHas(tasks, t, due);
    }
    LoopChange(s, Holding(l, t), l, loop1, Free);
  }

  lemma PostHas(tasks: seq<Task>, t: Task, due: Hand)
    ensures due.Holding? && (due.task in tasks || due.task == t) ==> due.task in tasks + [t]
  {}

  lemma PostTasks(conns: Conns, l: LoopId, tasks: seq<Task>, t: Task)
    requires TasksOk(conns, Holding(l, t), l, tasks) && TaskFits(conns, l, t)
    ensures TasksOk(conns, Free, l, tasks + [t])
  {}

  lemma PopTaskKeeps(s: Server, l: LoopId)
    requires Inv(s, Free) && l in s.loops && Enabled(s.loops[l].queue, EventLoops.RunTask)
    ensures Inv(PopTask(s, l), Holding(l, s.loops[l].queue.batch[0]))
  {
    hide ConnOk, TaskFits, FdsOk, TasksOk, EpollOk, ActiveOk;
    var loop := s.loops[l];
    var loop1 := loop.(queue := Apply(loop.queue, EventLoops.RunTask));
    var t, tasks := loop.queue.batch[0], Pending(loop);
    assert LoopOk(s.conns, Free, l, loop);
    ApplyKeepsInv(loop.queue, EventLoops.RunTask);
    assert Pending(loop1) == tasks[1..] && tasks[0] == t;
    PopTasks(s.conns, l, tasks);
    forall due | Has(s.loops, Free, due) ensures Has(s.loops[l := loop1], Holding(l, t), due) {
      assert tasks == [t] + tasks[1..];
    }
    LoopChange(s, Free, l, loop1, Holding(l, t));
  }

  lemma PopTasks(conns: Conns, l: LoopId, tasks: seq<Task>)
    requires TasksOk(conns, Free, l, tasks) && tasks != []
    ensures TasksOk(conns, Holding(l, tasks[0]), l, tasks[1..]) && TaskFits(conns, l, tasks[0])
  {}

  // ---------------------------------------------------------------- a connection changes

  /** The server after connection `c` became `k1` and its loop's registration became `p1`. */
  function Changed(s: Server, c: ConnId, k1: Conn, p1: Epoll, connections1: set<ConnId>): Server
    requires c in s.conns && s.conns[c].loop in s.loops
  {
    var l := s.conns[c].loop;
    WithLoop(s, l, s.loops[l].(epoll := p1)).(conns := s.conns[c := k1], connections := connections1)
  }

  /** The change is one step in the life of a living connection `c`, and touches nothing but it:
      `hand` is the task that brings the step about, `hand1` the one it leaves to do. */
  predicate LocalChange(s: Server, hand: Hand, c: ConnId, k1: Conn, p1: Epoll, connections1: set<ConnId>, hand1: Hand)
    requires c in s.conns && s.conns[c].loop in s.loops
  {
    var k := s.conns[c];
    var p := s.loops[k.loop].epoll;
    && k1.loop == k.loop && k1.fd == k.fd && k.stage != Deleted && k1.stage != Deleted
    && (connections1 == s.connections || connections1 == s.connections - {c})
    && Due(c, k) == hand && Due(c, k1) == hand1
    && ConnShape(connections1, s.nextConnId, s.openFds, c, k1) && ConnRegistered(p1, c, k1)
    && (p1.channels == p.channels || p1.channels == p.channels[k.fd := c] || p1.channels == p.channels - {k.fd})
    && (p1.kernel == p.kernel || p1.kernel == p.kernel[k.fd := Interest(c, k1.mask)] || p1.kernel == p.kernel - {k.fd})
    && (k.fd in p1.channels ==> Mapped(k1.stage)) && (k.fd in p1.kernel ==> k1.stage == Established)
  }

  /** No queue holds a task of `c`, whose due task is in hand or does not exist. */
  lemma NoTaskQueued(s: Server, hand: Hand, c: ConnId, l: LoopId)
    requires Inv(s, hand) && c in s.conns && Due(c, s.conns[c]) == hand && l in s.loops
    ensures forall i :: 0 <= i < |Pending(s.loops[l])| ==> Pending(s.loops[l])[i].conn != c
  {
    var tasks := Pending(s.loops[l]);
    assert LoopOk(s.conns, hand, l, s.loops[l]);
    forall i | 0 <= i < |tasks| ensures tasks[i].conn != c {
      assert TaskFits(s.conns, l, tasks[i]) && Holding(l, tasks[i]) != hand;
    }
  }

  lemma TasksSurvive(conns: Conns, c: ConnId, k1: Conn, hand: Hand, hand1: Hand, l: LoopId, tasks: seq<Task>)
    requires TasksOk(conns, hand, l, tasks)
    requires forall i :: 0 <= i < |tasks| ==> tasks[i].conn != c
    requires hand1.Holding? ==> hand1.task.conn == c
    ensures TasksOk(conns[c := k1], hand1, l, tasks)
  {}

  lemma EpollSurvives(conns: Conns, c: ConnId, k1: Conn, l: LoopId, p: Epoll)
    requires EpollOk(conns, l, p) && c in conns && conns[c].loop != l && k1.loop != l
    ensures EpollOk(conns[c := k1], l, p)
  {}

  lemma ActiveSurvives(
      conns: Conns, c: ConnId, k1: Conn, l: LoopId, active: seq<Ready>, started: bool, phase: Phase)
    requires ActiveOk(conns, l, active, started, phase) && c in conns && conns[c].loop == k1.loop
    requires forall i :: 0 <= i < |active| && active[i].conn == c ==>
               ReadyOk(conns[c := k1], l, active[i], i == 0 && started)
    ensures ActiveOk(conns[c := k1], l, active, started, phase)
  {}

  lemma OwnEpoll(s: Server, hand: Hand, c: ConnId, k1: Conn, p1: Epoll, connections1: set<ConnId>, hand1: Hand)
    requires c in s.conns && s.conns[c].loop in s.loops
    requires LocalChange(s, hand, c, k1, p1, connections1, hand1)
    requires EpollOk(s.conns, k1.loop, s.loops[k1.loop].epoll)
    ensures EpollOk(s.conns[c := k1], k1.loop, p1)
  {
    hide ConnOk, TasksOk, ActiveOk, Inv, FdsOk;
    var p, conns1 := s.loops[k1.loop].epoll, s.conns[c := k1];
    forall fd | fd in p1.channels ensures InMap(conns1, k1.loop, fd, p1.channels[fd]) {
      if fd != k1.fd {
        assert InMap(s.conns, k1.loop, fd, p.channels[fd]);
      } else if fd in p.channels {
        assert InMap(s.conns, k1.loop, fd, p.channels[fd]);
      }
    }
    forall fd | fd in p1.kernel
      ensures InMap(conns1, k1.loop, fd, p1.kernel[fd].chan) && conns1[p1.kernel[fd].chan].stage == Established
    {
      if fd in p.kernel {
        assert InMap(s.conns, k1.loop, fd, p.kernel[fd].chan);
      }
    }
  }

  /** The active channels still fit when `c` has become `k1`. */
  predicate ActivesFit(s: Server, c: ConnId, k1: Conn)
    requires k1.loop in s.loops
  {
    var loop := s.loops[k1.loop];
    forall i :: 0 <= i < |loop.active| && loop.active[i].conn == c ==>
      ReadyOk(s.conns[c := k1], k1.loop, loop.active[i], i == 0 && loop.started)
  }

  lemma TaskSurvives(s: Server, hand: Hand, hand1: Hand, c: ConnId, l: LoopId, p1: Epoll, due: Hand)
    requires l in s.loops && Has(s.loops, hand, due)
    requires (hand.Holding? ==> hand.task.conn == c) && (due.Holding? ==> due.task.conn != c)
    ensures Has(s.loops[l := s.loops[l].(epoll := p1)], hand1, due)
  {}

  lemma RegistrationSurvives(
      s: Server, hand: Hand, c: ConnId, k1: Conn, p1: Epoll, connections1: set<ConnId>, hand1: Hand, other: ConnId)
    requires c in s.conns && s.conns[c].loop in s.loops && LocalChange(s, hand, c, k1, p1, connections1, hand1)
    requires other in s.conns && other != c && FdsOk(s.conns)
    requires s.conns[other].loop == k1.loop && ConnRegistered(s.loops[k1.loop].epoll, other, s.conns[other])
    ensures ConnRegistered(p1, other, s.conns[other])
  {
    hide ConnShape, Due;
    assert Mapped(s.conns[other].stage) ==> s.conns[other].fd != k1.fd;
  }

  lemma ConnSurvives(
      s: Server, hand: Hand, c: ConnId, k1: Conn, p1: Epoll, connections1: set<ConnId>, hand1: Hand, other: ConnId)
    requires Inv(s, hand) && c in s.conns && s.conns[c].loop in s.loops
    requires LocalChange(s, hand, c, k1, p1, connections1, hand1)
    requires other in s.conns && other != c
    ensures ConnOk(Changed(s, c, k1, p1, connections1), hand1, other, s.conns[other])
  {
    hide LoopOk, Has, ConnRegistered, FdsOk, Made;
    var k := s.conns[other];
    assert ConnOk(s, hand, other, k);
    if k.loop == k1.loop {
      RegistrationSurvives(s, hand, c, k1, p1, connections1, hand1, other);
    }
    TaskSurvives(s, hand, hand1, c, k1.loop, p1, Due(other, k));
  }

  lemma ConnChange(s: Server, hand: Hand, c: ConnId, k1: Conn, p1: Epoll, connections1: set<ConnId>, hand1: Hand)
    requires Inv(s, hand) && c in s.conns && s.conns[c].loop in s.loops
    requires LocalChange(s, hand, c, k1, p1, connections1, hand1)
    requires ActivesFit(s, c, k1)
    ensures Inv(Changed(s, c, k1, p1, connections1), hand1)
  {
    hide LoopOk, ConnShape, ConnRegistered, ActivesFit, Made;
    var s1 := Changed(s, c, k1, p1, connections1);
    forall other | other in s1.conns ensures ConnOk(s1, hand1, other, s1.conns[other]) {
      if other != c {
        ConnSurvives(s, hand, c, k1, p1, connections1, hand1, other);
      }
    }
    forall l | l in s1.loops ensures LoopOk(s1.conns, hand1, l, s1.loops[l]) {
      LoopSurvives(s, hand, c, k1, p1, connections1, hand1, l);
    }
  }

  lemma LoopSurvives(
      s: Server, hand: Hand, c: ConnId, k1: Conn, p1: Epoll, connections1: set<ConnId>, hand1: Hand, l: LoopId)
    requires Inv(s, hand) && c in s.conns && s.conns[c].loop in s.loops
    requires LocalChange(s, hand, c, k1, p1, connections1, hand1)
    requires ActivesFit(s, c, k1) && l in s.loops
    ensures LoopOk(s.conns[c := k1], hand1, l, Changed(s, c, k1, p1, connections1).loops[l])
  {
    hide ConnOk, FdsOk, TaskFits;
    var loop := s.loops[l];
    assert LoopOk(s.conns, hand, l, loop);
    NoTaskQueued(s, hand, c, l);
    TasksSurvive(s.conns, c, k1, hand, hand1, l, Pending(loop));
    if l == k1.loop {
      OwnEpoll(s, hand, c, k1, p1, connections1, hand1);
    } else {
      EpollSurvives(s.conns, c, k1, l, loop.epoll);
      assert forall i :: 0 <= i < |loop.active| ==> ReadyOk(s.conns, l, loop.active[i], i == 0 && loop.started);
    }
    ActiveSurvives(s.conns, c, k1, l, loop.active, loop.started, loop.queue.phase);
  }
}
