/** The invariant of the connection lifecycle protocol. */
module ServerInvariant {
  import opened ConnStatuses
  import opened EventLoops
  import opened Pollers
  import opened ServerModel

  type Conns = map<ConnId, Conn>

  /** A task that has left a queue, or was never put in one, and is about to be run by its loop. */
  datatype Hand = Free | Holding(loop: LoopId, task: Task)

  predicate Owned(stage: Stage) {
    stage == Accepted || stage == Established || stage == Closed
  }

  predicate Mapped(stage: Stage) {
    stage == Established || stage == Closed || stage == Removed
  }

  /** The callbacks a connection must have made by the time it is in `stage`. */
  function Made(stage: Stage, l: LoopId): seq<Callback> {
    if stage == Accepted then []
    else if stage == Established then [Callback(l, true)]
    else [Callback(l, true), Callback(l, false)]
  }

  /** The stages a connection has passed through by the time it is in `stage`. */
  function Path(stage: Stage): seq<Stage> {
    match stage
    case Accepted => [Accepted]
    case Established => [Accepted, Established]
    case Closed => [Accepted, Established, Closed]
    case Removed => [Accepted, Established, Closed, Removed]
    case Unregistered => [Accepted, Established, Closed, Removed, Unregistered]
    case Deleted => [Accepted, Established, Closed, Removed, Unregistered, Deleted]
  }

  /** The one task that a connection in this stage is waiting for, and where. */
  function Due(c: ConnId, k: Conn): Hand {
    match k.stage
    case Accepted => Holding(k.loop, ConnectEstablished(c))
    case Closed => Holding(MAIN, RemoveConnection(c))
    case Removed => Holding(k.loop, ConnectDestroy(c))
    case _ => Free
  }

  predicate ConnShape(connections: set<ConnId>, nextConnId: nat, openFds: set<Fd>, c: ConnId, k: Conn) {
    && c < nextConnId
    && (c in connections <==> Owned(k.stage))
    && (k.stage == Established ==> k.status != Disconnected && k.mask.read)
    && (k.stage != Established ==> k.status == Disconnected && !k.mask.read)
    && (k.stage == Accepted ==> k.mask == NONE_EVENT)
    && k.callbacks == Made(k.stage, k.loop) && k.passed == Path(k.stage)
    && (k.stage != Deleted ==> k.fd in openFds)
  }

  /** The connection's own loop knows it, and the kernel watches it, exactly as its stage says. */
  predicate ConnRegistered(p: Epoll, c: ConnId, k: Conn) {
    && (Mapped(k.stage) ==> Registered(p.channels, k.fd, c))
    && (k.stage == Established ==> k.fd in p.kernel && p.kernel[k.fd] == Interest(c, k.mask))
  }

  /** The task is queued on that loop, or in hand there. */
  predicate Has(loops: map<LoopId, Loop>, hand: Hand, due: Hand) {
    due.Holding? ==> (due.loop in loops && due.task in Pending(loops[due.loop])) || hand == due
  }

  predicate ConnOk(s: Server, hand: Hand, c: ConnId, k: Conn) {
    && k.loop in s.loops
    && ConnShape(s.connections, s.nextConnId, s.openFds, c, k)
    && ConnRegistered(s.loops[k.loop].epoll, c, k)
    && Has(s.loops, hand, Due(c, k))
  }

  /** Connection `c` is one of loop `l`, holds descriptor `fd`, and is still in the loop's map. */
  predicate InMap(conns: Conns, l: LoopId, fd: Fd, c: ConnId) {
    c in conns && conns[c].loop == l && conns[c].fd == fd && Mapped(conns[c].stage)
  }

  predicate EpollOk(conns: Conns, l: LoopId, p: Epoll) {
    && (forall fd :: fd in p.channels ==> InMap(conns, l, fd, p.channels[fd]))
    && (forall fd :: fd in p.kernel ==>
          InMap(conns, l, fd, p.kernel[fd].chan) && conns[p.kernel[fd].chan].stage == Established)
  }

  /** A task is where its connection waits for it. */
  predicate TaskFits(conns: Conns, l: LoopId, t: Task) {
    t.conn in conns && Due(t.conn, conns[t.conn]) == Holding(l, t)
  }

  predicate TasksOk(conns: Conns, hand: Hand, l: LoopId, tasks: seq<Task>) {
    && (forall i :: 0 <= i < |tasks| ==> TaskFits(conns, l, tasks[i]))
    && (forall i, j :: 0 <= i < j < |tasks| ==> tasks[i] != tasks[j])
    && (forall i :: 0 <= i < |tasks| ==> Holding(l, tasks[i]) != hand)
  }

  /** An active channel belongs to a live connection of the loop; until its own `handleEvent` runs
      the connection is open, and after it was closed no close call is left. */
  predicate ReadyOk(conns: Conns, l: LoopId, r: Ready, started: bool) {
    && r.conn in conns && conns[r.conn].loop == l
    && (forall j :: 1 <= j < |r.calls| ==> r.calls[j] != CloseCall)
    && conns[r.conn].stage != Deleted && conns[r.conn].stage != Accepted
    && (conns[r.conn].stage != Established ==> started && (r.calls != [] ==> r.calls[0] != CloseCall))
  }

  predicate ActiveOk(conns: Conns, l: LoopId, active: seq<Ready>, started: bool, phase: Phase) {
    && (active != [] ==> phase == Handling)
    && (started ==> active != [])
    && (forall i, j :: 0 <= i < j < |active| ==> active[i].conn != active[j].conn)
    && (forall i :: 0 <= i < |active| ==> ReadyOk(conns, l, active[i], i == 0 && started))
  }

  predicate LoopOk(conns: Conns, hand: Hand, l: LoopId, loop: Loop) {
    && EpollOk(conns, l, loop.epoll)
    && TasksOk(conns, hand, l, Pending(loop))
    && ActiveOk(conns, l, loop.active, loop.started, loop.queue.phase)
    && QueueInv(loop.queue)
  }

  /** No two living connections have one descriptor. */
  predicate FdsOk(conns: Conns) {
    forall c1, c2 :: c1 in conns && c2 in conns && c1 != c2 ==>
      conns[c1].fd != conns[c2].fd || conns[c1].stage == Deleted || conns[c2].stage == Deleted
  }

  predicate Inv(s: Server, hand: Hand) {
    && MAIN in s.loops
    && !s.aborted
    && (forall c :: c in s.connections ==> c in s.conns)
    && (forall c :: c in s.conns ==> ConnOk(s, hand, c, s.conns[c]))
    && (forall l :: l in s.loops ==> LoopOk(s.conns, hand, l, s.loops[l]))
    && FdsOk(s.conns)
    && (hand.Holding? ==> hand.loop in s.loops && TaskFits(s.conns, hand.loop, hand.task))
  }
}
