/**
 The life of connections across an acceptor loop and any number of I/O loops, as a labelled
 transition system: base/src/TcpServer.cpp:18-64, base/src/TcpConnection.cpp:15-37 and 156-188,
 base/src/Channel.cpp:11-37, base/src/Poller.cpp:30-105 and base/src/Eventloop.cpp:67-137.
 Every `LOG_FATAL` and `assert` on the way sets `aborted`.
 */
module ServerModel {
  import opened ConnStatuses
  import opened EventLoops
  import opened Pollers

  type LoopId = nat
  type ConnId = ChanId

  /** The loop that accepts connections and owns the connection set. */
  const MAIN: LoopId := 0

  /** The lifecycle tasks that travel between loops; each holds a reference to its connection. */
  datatype Task = ConnectEstablished(conn: ConnId) | RemoveConnection(conn: ConnId) | ConnectDestroy(conn: ConnId)

  /** How far a connection has come (a history). */
  datatype Stage = Accepted | Established | Closed | Removed | Unregistered | Deleted

  /** A call of the user's connection callback. */
  datatype Callback = Callback(loop: LoopId, connected: bool)

  /** `passed` lists the stages so far, up to the present one. */
  datatype Conn = Conn(
    loop: LoopId, fd: Fd, status: Status, mask: Mask, stage: Stage, callbacks: seq<Callback>, passed: seq<Stage>)

  function Enter(k: Conn, stage: Stage): Conn {
    k.(stage := stage, passed := k.passed + [stage])
  }

  /** An active channel with the callbacks its `handleEvent` has still to make. */
  datatype Ready = Ready(conn: ConnId, calls: seq<Call>)

  /** `started`: the `handleEvent` of the first active channel is under way and holds a reference. */
  datatype Loop = Loop(queue: Queue<Task>, epoll: Epoll, active: seq<Ready>, started: bool)

  datatype Server = Server(
    conns: map<ConnId, Conn>,
    connections: set<ConnId>,
    nextConnId: nat,
    openFds: set<Fd>,
    loops: map<LoopId, Loop>,
    aborted: bool)

  // ---------------------------------------------------------------- pieces of a step

  function Abort(s: Server): Server {
    s.(aborted := true)
  }

  function WithLoop(s: Server, l: LoopId, loop: Loop): Server {
    s.(loops := s.loops[l := loop])
  }

  /** `Channel::update_channel` after the mask of connection `c` became `mask`. */
  function UpdateChannel(s: Server, c: ConnId, mask: Mask): Server
    requires c in s.conns && s.conns[c].loop in s.loops
  {
    var k := s.conns[c];
    var loop := s.loops[k.loop];
    WithLoop(s, k.loop, loop.(epoll := Update(loop.epoll, k.fd, c, mask))).(conns := s.conns[c := k.(mask := mask)])
  }

  function PostTo(s: Server, l: LoopId, t: Task): Server
    requires l in s.loops
  {
    WithLoop(s, l, s.loops[l].(queue := Apply(s.loops[l].queue, Post(t))))
  }

  /** `TcpConnection::connectEstablished` on the thread of loop `l`. */
  function DoEstablish(s: Server, l: LoopId, c: ConnId): Server
    requires c in s.conns && s.conns[c].loop in s.loops
  {
    var k := s.conns[c];
    if l != k.loop then Abort(s)
    else
      var k1 := Enter(k, Established).(status := Connected, callbacks := k.callbacks + [Callback(l, true)]);
      UpdateChannel(s.(conns := s.conns[c := k1]), c, k.mask.(read := true))
  }

  /** `TcpConnection::connectDestory`. */
  function DoDestroy(s: Server, l: LoopId, c: ConnId): Server
    requires c in s.conns && s.conns[c].loop in s.loops
  {
    var k := s.conns[c];
    if l != k.loop || !OwnEntry(s.loops[l].epoll, k.fd, c) then Abort(s)
    else
      WithLoop(s, l, s.loops[l].(epoll := Remove(s.loops[l].epoll, k.fd)))
        .(conns := s.conns[c := Enter(k, Unregistered)])
  }

  /** `runInLoop(connectDestory)` from loop `l`. */
  function RunDestroy(s: Server, l: LoopId, c: ConnId): Server
    requires c in s.conns && s.conns[c].loop in s.loops
  {
    if l == s.conns[c].loop then DoDestroy(s, l, c) else PostTo(s, s.conns[c].loop, ConnectDestroy(c))
  }

  /** `removeConnection` before it passes the connection on. */
  function TakeOut(s: Server, c: ConnId): Server
    requires c in s.conns
  {
    s.(connections := s.connections - {c}, conns := s.conns[c := Enter(s.conns[c], Removed)])
  }

  /** `TcpServer::removeConnection`, with its `assert(n != 0)`. */
  function DoRemove(s: Server, l: LoopId, c: ConnId): Server
    requires c in s.conns && s.conns[c].loop in s.loops
  {
    if l != MAIN || c !in s.connections then Abort(s) else RunDestroy(TakeOut(s, c), l, c)
  }

  /** `TcpServer::whenOldConnDisconnect` on the thread of loop `l`. */
  function RunRemove(s: Server, l: LoopId, c: ConnId): Server
    requires c in s.conns && s.conns[c].loop in s.loops && MAIN in s.loops
  {
    if l == MAIN then DoRemove(s, l, c) else PostTo(s, MAIN, RemoveConnection(c))
  }

  /** `handleClose` up to the close callback. */
  function Close(s: Server, l: LoopId, c: ConnId): Server
    requires c in s.conns && s.conns[c].loop in s.loops
  {
    var k := s.conns[c];
    var k1 := Enter(k, Closed).(status := Disconnected, callbacks := k.callbacks + [Callback(l, false)]);
    UpdateChannel(s.(conns := s.conns[c := k1]), c, NONE_EVENT)
  }

  /** `TcpConnection::handleClose`; closing twice is fatal. */
  function HandleClose(s: Server, l: LoopId, c: ConnId): Server
    requires c in s.conns && s.conns[c].loop in s.loops && MAIN in s.loops
  {
    if l != s.conns[c].loop || s.conns[c].status == Disconnected then Abort(s) else RunRemove(Close(s, l, c), l, c)
  }

  function Exec(s: Server, l: LoopId, t: Task): Server
    requires t.conn in s.conns && s.conns[t.conn].loop in s.loops
  {
    match t
    case ConnectEstablished(c) => DoEstablish(s, l, c)
    case RemoveConnection(c) => DoRemove(s, l, c)
    case ConnectDestroy(c) => DoDestroy(s, l, c)
  }

  // ---------------------------------------------------------------- steps

  datatype ReadResult = ReadEof | ReadOther

  datatype Step =
    | Accept(fd: Fd, loop: LoopId)
    | Shutdown(conn: ConnId)
    | SetWrite(conn: ConnId, on: bool)
    | PostedSend(conn: ConnId, spill: bool)
    | QueueStep(loop: LoopId, event: Event<Task>)
    | Poll(loop: LoopId, wake: bool, reported: seq<(ConnId, Revents)>)
    | BeginEvent(loop: LoopId)
    | MakeCall(loop: LoopId, read: ReadResult)
    | EndEvent(loop: LoopId)
    | RunNext(loop: LoopId)
    | Delete(conn: ConnId)

  function Pending(loop: Loop): seq<Task> {
    loop.queue.batch + loop.queue.functions
  }

  /** Someone owns a reference: the server, a queued task or a `handleEvent` under way. */
  ghost predicate Held(s: Server, c: ConnId) {
    || c in s.connections
    || (exists l, t :: l in s.loops && t in Pending(s.loops[l]) && t.conn == c)
    || (exists l :: l in s.loops && s.loops[l].started && s.loops[l].active != [] && s.loops[l].active[0].conn == c)
  }

  /** What the kernel may report: a watched descriptor, with events inside its mask. */
  predicate Reportable(s: Server, l: LoopId, c: ConnId, r: Revents)
    requires l in s.loops
  {
    && c in s.conns
    && var fd := s.conns[c].fd;
       && fd in s.loops[l].epoll.kernel
       && s.loops[l].epoll.kernel[fd].chan == c
       && (r.input || r.priority ==> s.loops[l].epoll.kernel[fd].mask.read)
       && (r.output ==> s.loops[l].epoll.kernel[fd].mask.write)
  }

  ghost predicate CanTake(s: Server, step: Step) {
    && !s.aborted
    && match step
       case Accept(fd, l) => fd !in s.openFds && l in s.loops && MAIN in s.loops && s.loops[MAIN].queue.phase == Handling
       case Shutdown(c) => c in s.conns && s.conns[c].status == Connected
       case SetWrite(c, on) =>
         && c in s.conns && s.conns[c].status != Disconnected
         && s.conns[c].loop in s.loops && s.loops[s.conns[c].loop].queue.phase != Polling
       case PostedSend(c, _) =>
         && c in s.conns && s.conns[c].stage != Accepted && s.conns[c].stage != Deleted
         && s.conns[c].loop in s.loops && s.loops[s.conns[c].loop].queue.phase == Running
       case QueueStep(l, e) =>
         && l in s.loops && Enabled(s.loops[l].queue, e)
         && (e.Wake? || e.ReadWake? || e.EndBatch? || (e.Swap? && s.loops[l].active == []))
       case Poll(l, wake, reported) =>
         && l in s.loops && Enabled(s.loops[l].queue, PollReturns(wake)) && s.loops[l].active == []
         && (forall i :: 0 <= i < |reported| ==> Reportable(s, l, reported[i].0, reported[i].1))
         && (forall i, j :: 0 <= i < j < |reported| ==> reported[i].0 != reported[j].0)
       case BeginEvent(l) => l in s.loops && s.loops[l].active != [] && !s.loops[l].started
       case MakeCall(l, _) =>
         && l in s.loops && s.loops[l].active != [] && s.loops[l].started && s.loops[l].active[0].calls != []
         && Callable(s, s.loops[l].active[0].conn)
       case EndEvent(l) =>
         l in s.loops && s.loops[l].active != [] && s.loops[l].started && s.loops[l].active[0].calls == []
       case RunNext(l) =>
         l in s.loops && Enabled(s.loops[l].queue, EventLoops.RunTask) && Callable(s, s.loops[l].queue.batch[0].conn)
       case Delete(c) => c in s.conns && s.conns[c].stage != Deleted && !Held(s, c)
  }

  /** The connection exists and so does its loop. */
  predicate Callable(s: Server, c: ConnId) {
    c in s.conns && s.conns[c].loop in s.loops && MAIN in s.loops
  }

  function Activated(reported: seq<(ConnId, Revents)>): (active: seq<Ready>)
    ensures |active| == |reported|
    ensures forall i :: 0 <= i < |reported| ==> active[i] == Ready(reported[i].0, Calls(reported[i].1))
  {
    if reported == [] then []
    else Activated(reported[..|reported| - 1])
         + [Ready(reported[|reported| - 1].0, Calls(reported[|reported| - 1].1))]
  }

  /** The first active channel of loop `l` has made its next call. */
  function PopCall(s: Server, l: LoopId): Server
    requires l in s.loops && s.loops[l].active != [] && s.loops[l].active[0].calls != []
  {
    var loop := s.loops[l];
    var head := loop.active[0];
    WithLoop(s, l, loop.(active := loop.active[0 := head.(calls := head.calls[1..])]))
  }

  function PopTask(s: Server, l: LoopId): Server
    requires l in s.loops && Enabled(s.loops[l].queue, EventLoops.RunTask)
  {
    WithLoop(s, l, s.loops[l].(queue := Apply(s.loops[l].queue, EventLoops.RunTask)))
  }

  /** The connection object a new descriptor gets. */
  function NewConn(fd: Fd, l: LoopId): Conn {
    Conn(l, fd, Disconnected, NONE_EVENT, Accepted, [], [Accepted])
  }

  /** `whenNewConnection` before it passes the connection on. */
  function Admit(s: Server, fd: Fd, l: LoopId): Server {
    s.(openFds := s.openFds + {fd},
       conns := s.conns[s.nextConnId := NewConn(fd, l)],
       connections := s.connections + {s.nextConnId},
       nextConnId := s.nextConnId + 1)
  }

  function RunEstablish(s: Server, l: LoopId, to: LoopId, c: ConnId): Server
    requires c in s.conns && s.conns[c].loop in s.loops && to in s.loops
  {
    if l == to then DoEstablish(s, l, c) else PostTo(s, to, ConnectEstablished(c))
  }

  /** The destructor closes the descriptor, which also removes it from every kernel interest set. */
  function Destruct(s: Server, c: ConnId): Server
    requires c in s.conns
  {
    var fd := s.conns[c].fd;
    if fd !in s.openFds then Abort(s)
    else
      s.(openFds := s.openFds - {fd},
         conns := s.conns[c := Enter(s.conns[c], Deleted)],
         loops := map l | l in s.loops ::
                    s.loops[l].(epoll := s.loops[l].epoll.(kernel := s.loops[l].epoll.kernel - {fd})))
  }

  /** The channel handed back by epoll passes both assertions of `Poller::poll`. */
  predicate PollAsserts(s: Server, l: LoopId, reported: seq<(ConnId, Revents)>)
    requires l in s.loops
  {
    forall i :: 0 <= i < |reported| ==>
      reported[i].0 in s.conns && Registered(s.loops[l].epoll.channels, s.conns[reported[i].0].fd, reported[i].0)
  }

  ghost function Take(s: Server, step: Step): Server
    requires CanTake(s, step)
  {
    match step
    case Accept(fd, l) => RunEstablish(Admit(s, fd, l), MAIN, l, s.nextConnId)
    case Shutdown(c) => s.(conns := s.conns[c := s.conns[c].(status := Disconnecting)])
    case SetWrite(c, on) => UpdateChannel(s, c, s.conns[c].mask.(write := on))
    case PostedSend(c, spill) => if spill then UpdateChannel(s, c, s.conns[c].mask.(write := true)) else s
    case QueueStep(l, e) => WithLoop(s, l, s.loops[l].(queue := Apply(s.loops[l].queue, e)))
    case Poll(l, wake, reported) =>
      if !PollAsserts(s, l, reported) then Abort(s)
      else WithLoop(s, l, s.loops[l].(queue := Apply(s.loops[l].queue, PollReturns(wake)),
                                      active := Activated(reported), started := false))
    case BeginEvent(l) =>
      var c := s.loops[l].active[0].conn;
      if c !in s.conns || s.conns[c].stage == Deleted then Abort(s)
      else WithLoop(s, l, s.loops[l].(started := true))
    case MakeCall(l, read) =>
      var head := s.loops[l].active[0];
      if head.calls[0] == CloseCall || (head.calls[0] == ReadCall && read == ReadEof)
      then HandleClose(PopCall(s, l), l, head.conn)
      else PopCall(s, l)
    case EndEvent(l) => WithLoop(s, l, s.loops[l].(active := s.loops[l].active[1..], started := false))
    case RunNext(l) => Exec(PopTask(s, l), l, s.loops[l].queue.batch[0])
    case Delete(c) => Destruct(s, c)
  }

  /** Nothing accepted yet; the listening socket and the eventfds are among `openFds`. */
  function Init(loops: set<LoopId>, openFds: set<Fd>): Server {
    Server(map[], {}, 1, openFds, map l | l in loops :: Loop(Empty(), EMPTY_EPOLL, [], false), false)
  }

  /** Steps in which the environment reports no hang-up together with a read event other than IN. */
  predicate Benign(step: Step) {
    step.Poll? ==>
      forall i :: 0 <= i < |step.reported| ==>
        var r := step.reported[i].1;
        !(r.hangup && !r.input && (r.priority || r.readHangup))
  }
}
