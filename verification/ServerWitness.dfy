/**
 Concrete runs of a server with one loop: the excluded hang-up is reachable and brings the program
 down, and a posted send that runs after its connection was unregistered leaves a dead map entry that
 the next connection with the descriptor falls for.
 */
module ServerWitness {
  import opened ConnStatuses
  import opened EventLoops
  import opened Pollers
  import opened ServerModel
  import opened ServerInvariant
  import opened ServerLifecycle
  import opened ServerTheorems

  const FD: Fd := 3
  const READ := Mask(true, false)
  const HANGUP := Revents(false, false, false, false, true)
  const HANGUP_WITH_PRIORITY := Revents(false, true, false, false, true)

  /** A server with only the main loop and nothing queued. */
  function Alone(
      conns: Conns, connections: set<ConnId>, next: nat, fds: set<Fd>, phase: Phase, epoll: Epoll,
      active: seq<Ready>, started: bool): Server
  {
    var queue := Queue(phase, false, [], 0, 0, [], [], []);
    Server(conns, connections, next, fds, map[MAIN := Loop(queue, epoll, active, started)], false)
  }

  // ---------------------------------------------------------------- steps of the loop

  lemma PollAlone(conns: Conns, connections: set<ConnId>, next: nat, fds: set<Fd>, epoll: Epoll)
    ensures Reaches(
              Alone(conns, connections, next, fds, Polling, epoll, [], false), [Poll(MAIN, false, [])],
              Alone(conns, connections, next, fds, Handling, epoll, [], false))
  {
    ReachesInOne(Alone(conns, connections, next, fds, Polling, epoll, [], false), Poll(MAIN, false, []));
  }

  lemma SwapAlone(conns: Conns, connections: set<ConnId>, next: nat, fds: set<Fd>, epoll: Epoll)
    ensures Reaches(
              Alone(conns, connections, next, fds, Handling, epoll, [], false), [QueueStep(MAIN, Swap)],
              Alone(conns, connections, next, fds, Running, epoll, [], false))
  {
    ReachesInOne(Alone(conns, connections, next, fds, Handling, epoll, [], false), QueueStep(MAIN, Swap));
  }

  lemma EndAlone(conns: Conns, connections: set<ConnId>, next: nat, fds: set<Fd>, epoll: Epoll)
    ensures Reaches(
              Alone(conns, connections, next, fds, Running, epoll, [], false), [QueueStep(MAIN, EndBatch)],
              Alone(conns, connections, next, fds, Polling, epoll, [], false))
  {
    ReachesInOne(Alone(conns, connections, next, fds, Running, epoll, [], false), QueueStep(MAIN, EndBatch));
  }

  // ---------------------------------------------------------------- a connection is open

  const OPEN_CONN := Conn(MAIN, FD, Connected, READ, Established, [Callback(MAIN, true)], [Accepted, Established])
  const OPEN_EPOLL := Epoll(map[FD := 1], map[FD := Interest(1, READ)])

  function Open(phase: Phase): Server {
    Alone(map[1 := OPEN_CONN], {1}, 2, {FD}, phase, OPEN_EPOLL, [], false)
  }

  lemma AcceptAlone()
    ensures Reaches(Alone(map[], {}, 1, {}, Handling, EMPTY_EPOLL, [], false), [Accept(FD, MAIN)], Open(Handling))
  {
    var s := Alone(map[], {}, 1, {}, Handling, EMPTY_EPOLL, [], false);
    ReachesInOne(s, Accept(FD, MAIN));
    var s1 := Take(s, Accept(FD, MAIN));
    assert [Accepted] + [Established] == [Accepted, Established];
    assert [] + [Callback(MAIN, true)] == [Callback(MAIN, true)];
    assert s1.conns[1] == OPEN_CONN;
    assert s1.conns == map[1 := OPEN_CONN];
    assert s1.loops[MAIN].epoll == OPEN_EPOLL;
    assert s1.loops == Open(Handling).loops;
    assert s1.connections == {1} && s1.openFds == {FD};
  }

  const OPENING: seq<Step> :=
    [Poll(MAIN, false, [])] + ([Accept(FD, MAIN)] + ([QueueStep(MAIN, Swap)] + [QueueStep(MAIN, EndBatch)]))

  /** One connection has been accepted and established, and the loop is back at `poll`. */
  lemma OpenIsReachable()
    ensures Reaches(Init({MAIN}, {}), OPENING, Open(Polling))
  {
    hide Reaches, CanTake, Take;
    assert Init({MAIN}, {}) == Alone(map[], {}, 1, {}, Polling, EMPTY_EPOLL, [], false);
    PollAlone(map[], {}, 1, {}, EMPTY_EPOLL);
    AcceptAlone();
    SwapAlone(map[1 := OPEN_CONN], {1}, 2, {FD}, OPEN_EPOLL);
    EndAlone(map[1 := OPEN_CONN], {1}, 2, {FD}, OPEN_EPOLL);
    ReachesThen(Open(Handling), [QueueStep(MAIN, Swap)], Open(Running), [QueueStep(MAIN, EndBatch)], Open(Polling));
    var idle := Alone(map[], {}, 1, {}, Handling, EMPTY_EPOLL, [], false);
    ReachesThen(
      idle, [Accept(FD, MAIN)], Open(Handling), [QueueStep(MAIN, Swap)] + [QueueStep(MAIN, EndBatch)], Open(Polling));
    ReachesThen(
      Init({MAIN}, {}), [Poll(MAIN, false, [])], idle,
      [Accept(FD, MAIN)] + ([QueueStep(MAIN, Swap)] + [QueueStep(MAIN, EndBatch)]), Open(Polling));
  }

  // ---------------------------------------------------------------- the excluded hang-up happens

  lemma HangupIsReportable(r: Revents)
    requires r == HANGUP || r == HANGUP_WITH_PRIORITY
    ensures CanTake(Open(Polling), Poll(MAIN, false, [(1, r)]))
  {}

  /** From start-up: one connection is accepted, hangs up with priority data, and the process aborts. */
  lemma ExcludedHangupIsReachable() returns (run: seq<Step>, s: Server)
    ensures Reaches(Init({MAIN}, {}), run, s) && s.aborted
  {
    hide Reaches, CanTake, Take, Inv;
    OpenIsReachable();
    OpenIsGood();
    HangupIsReportable(HANGUP_WITH_PRIORITY);
    HangupWithPriorityAborts(Open(Polling), MAIN, false, 1, HANGUP_WITH_PRIORITY);
    var rest := [Poll(MAIN, false, [(1, HANGUP_WITH_PRIORITY)])]
                + ([BeginEvent(MAIN)] + ([MakeCall(MAIN, ReadOther)] + ([MakeCall(MAIN, ReadEof)] + [])));
    s := RunOf(Open(Polling), rest);
    assert Reaches(Open(Polling), rest, s) by { RunReaches(Open(Polling), rest); }
    ReachesThen(Init({MAIN}, {}), OPENING, Open(Polling), rest, s);
    run := OPENING + rest;
  }

  lemma RunReaches(s: Server, steps: seq<Step>)
    requires LegalRun(s, steps)
    ensures Reaches(s, steps, RunOf(s, steps))
  {}

  lemma OpenIsGood()
    ensures Inv(Open(Polling), Free)
  {
    hide QueueInv;
    var s := Open(Polling);
    assert ConnOk(s, Free, 1, s.conns[1]);
    assert LoopOk(s.conns, Free, MAIN, s.loops[MAIN]) by {
      EmptyIsGood();
    }
  }

  lemma EmptyIsGood()
    ensures QueueInv(Open(Polling).loops[MAIN].queue)
  {}

  // ---------------------------------------------------------------- a send that comes too late

  const GONE_CONN := Conn(
    MAIN, FD, Disconnected, NONE_EVENT, Unregistered, [Callback(MAIN, true), Callback(MAIN, false)],
    [Accepted, Established, Closed, Removed, Unregistered])
  const WRITE := Mask(false, true)
  const DEAD_CONN := GONE_CONN.(
    mask := WRITE, stage := Deleted, passed := [Accepted, Established, Closed, Removed, Unregistered, Deleted])
  const DEAD_EPOLL := Epoll(map[FD := 1], map[])

  function Hung(calls: seq<Call>, started: bool): Server {
    Alone(map[1 := OPEN_CONN], {1}, 2, {FD}, Handling, OPEN_EPOLL, [Ready(1, calls)], started)
  }

  function Gone(active: seq<Ready>, started: bool): Server {
    Alone(map[1 := GONE_CONN], {}, 2, {FD}, Handling, EMPTY_EPOLL, active, started)
  }

  lemma HangUp()
    ensures Reaches(Open(Polling), [Poll(MAIN, false, [(1, HANGUP)])], Hung([CloseCall], false))
  {
    hide Calls, Activated, Reportable;
    HangupIsReportable(HANGUP);
    HangupIsActive();
    ReachesInOne(Open(Polling), Poll(MAIN, false, [(1, HANGUP)]));
  }

  lemma HangupIsActive()
    ensures Activated([(1, HANGUP)]) == [Ready(1, [CloseCall])]
  {
    assert Calls(HANGUP) == [CloseCall];
  }

  lemma Begin()
    ensures Reaches(Hung([CloseCall], false), [BeginEvent(MAIN)], Hung([CloseCall], true))
  {
    ReachesInOne(Hung([CloseCall], false), BeginEvent(MAIN));
  }

  lemma CloseAlone()
    ensures Reaches(Hung([CloseCall], true), [MakeCall(MAIN, ReadOther)], Gone([Ready(1, [])], true))
  {
    var s := Hung([CloseCall], true);
    ReachesInOne(s, MakeCall(MAIN, ReadOther));
    var popped := PopCall(s, MAIN);
    assert [CloseCall][1..] == [];
    assert popped.loops[MAIN].active == [Ready(1, [])];
    var closed := Close(popped, MAIN, 1);
    assert [Callback(MAIN, true)] + [Callback(MAIN, false)] == [Callback(MAIN, true), Callback(MAIN, false)];
    assert closed.conns[1] == ClosedConn(OPEN_CONN, MAIN);
    assert closed.loops[MAIN].epoll == Epoll(map[FD := 1], map[]);
    var s1 := Take(s, MakeCall(MAIN, ReadOther));
    assert s1.conns[1].passed == GONE_CONN.passed;
    assert s1.conns == map[1 := GONE_CONN];
    assert s1.loops[MAIN].epoll == EMPTY_EPOLL;
    assert s1.loops == Gone([Ready(1, [])], true).loops;
    assert s1.connections == {};
  }

  lemma EndEventAlone()
    ensures Reaches(Gone([Ready(1, [])], true), [EndEvent(MAIN)], Gone([], false))
  {
    ReachesInOne(Gone([Ready(1, [])], true), EndEvent(MAIN));
    assert [Ready(1, [])][1..] == [];
  }

  function Revived(): Server {
    Alone(map[1 := GONE_CONN.(mask := WRITE)], {}, 2, {FD}, Running,
      Epoll(map[FD := 1], map[FD := Interest(1, WRITE)]), [], false)
  }

  lemma SendAlone()
    ensures Reaches(
              Alone(map[1 := GONE_CONN], {}, 2, {FD}, Running, EMPTY_EPOLL, [], false), [PostedSend(1, true)], Revived())
  {
    var s := Alone(map[1 := GONE_CONN], {}, 2, {FD}, Running, EMPTY_EPOLL, [], false);
    ReachesInOne(s, PostedSend(1, true));
    var s1 := Take(s, PostedSend(1, true));
    assert s1.conns == map[1 := GONE_CONN.(mask := WRITE)];
    assert s1.loops[MAIN].epoll == Epoll(map[FD := 1], map[FD := Interest(1, WRITE)]);
    assert s1.loops == Revived().loops;
  }

  function Dead(phase: Phase): Server {
    Alone(map[1 := DEAD_CONN], {}, 2, {}, phase, DEAD_EPOLL, [], false)
  }

  lemma DeleteAlone()
    ensures Reaches(Revived(), [Delete(1)], Dead(Running))
  {
    var s := Revived();
    ReachesInOne(s, Delete(1));
    var s1 := Take(s, Delete(1));
    assert s1.conns[1].passed == DEAD_CONN.passed;
    assert s1.conns == map[1 := DEAD_CONN];
    assert s1.loops[MAIN].epoll == DEAD_EPOLL;
    assert s1.loops == Dead(Running).loops;
    assert s1.openFds == {};
  }

  function Fooled(): Server {
    Alone(map[1 := DEAD_CONN, 2 := OPEN_CONN], {2}, 3, {FD}, Handling, DEAD_EPOLL, [], false)
  }

  lemma AcceptAgain()
    ensures Reaches(Dead(Handling), [Accept(FD, MAIN)], Fooled())
  {
    var s := Dead(Handling);
    ReachesInOne(s, Accept(FD, MAIN));
    var s1 := Take(s, Accept(FD, MAIN));
    assert [Accepted] + [Established] == [Accepted, Established];
    assert [] + [Callback(MAIN, true)] == [Callback(MAIN, true)];
    assert s1.conns == map[1 := DEAD_CONN, 2 := OPEN_CONN];
    assert s1.loops[MAIN].epoll == DEAD_EPOLL;
    assert s1.loops == Fooled().loops;
    assert s1.connections == {2} && s1.openFds == {FD};
  }

  lemma FooledIsBroken()
    ensures !DescriptorsLive(Fooled()) && !KernelAgrees(Fooled())
  {
    var s := Fooled();
    assert !LiveHolder(s, MAIN, FD, s.loops[MAIN].epoll.channels[FD]);
    assert Masks(s)[1] == WRITE;
    assert !Agrees(s.loops[MAIN].epoll, Masks(s));
  }

  const CLOSING: seq<Step> :=
    [Poll(MAIN, false, [(1, HANGUP)]), BeginEvent(MAIN), MakeCall(MAIN, ReadOther), EndEvent(MAIN),
     QueueStep(MAIN, Swap)]

  lemma ClosingAlone()
    ensures Reaches(
              Open(Polling), CLOSING, Alone(map[1 := GONE_CONN], {}, 2, {FD}, Running, EMPTY_EPOLL, [], false))
  {
    hide Reaches;
    var s0 := Open(Polling);
    HangUp();
    Begin();
    var run := [Poll(MAIN, false, [(1, HANGUP)])] + [BeginEvent(MAIN)];
    ReachesThen(
      s0, [Poll(MAIN, false, [(1, HANGUP)])], Hung([CloseCall], false),
      [BeginEvent(MAIN)], Hung([CloseCall], true));
    CloseAlone();
    ReachesThen(s0, run, Hung([CloseCall], true), [MakeCall(MAIN, ReadOther)], Gone([Ready(1, [])], true));
    run := run + [MakeCall(MAIN, ReadOther)];
    EndEventAlone();
    ReachesThen(s0, run, Gone([Ready(1, [])], true), [EndEvent(MAIN)], Gone([], false));
    run := run + [EndEvent(MAIN)];
    SwapAlone(map[1 := GONE_CONN], {}, 2, {FD}, EMPTY_EPOLL);
    ReachesThen(
      s0, run, Gone([], false), [QueueStep(MAIN, Swap)],
      Alone(map[1 := GONE_CONN], {}, 2, {FD}, Running, EMPTY_EPOLL, [], false));
    run := run + [QueueStep(MAIN, Swap)];
    assert run == CLOSING;
  }

  const FOOLING: seq<Step> :=
    [PostedSend(1, true), Delete(1), QueueStep(MAIN, EndBatch), Poll(MAIN, false, []), Accept(FD, MAIN)]

  lemma FoolingAlone()
    ensures Reaches(
              Alone(map[1 := GONE_CONN], {}, 2, {FD}, Running, EMPTY_EPOLL, [], false), FOOLING, Fooled())
  {
    hide Reaches;
    var s0 := Alone(map[1 := GONE_CONN], {}, 2, {FD}, Running, EMPTY_EPOLL, [], false);
    SendAlone();
    DeleteAlone();
    var run := [PostedSend(1, true)] + [Delete(1)];
    ReachesThen(s0, [PostedSend(1, true)], Revived(), [Delete(1)], Dead(Running));
    EndAlone(map[1 := DEAD_CONN], {}, 2, {}, DEAD_EPOLL);
    ReachesThen(s0, run, Dead(Running), [QueueStep(MAIN, EndBatch)], Dead(Polling));
    run := run + [QueueStep(MAIN, EndBatch)];
    PollAlone(map[1 := DEAD_CONN], {}, 2, {}, DEAD_EPOLL);
    ReachesThen(s0, run, Dead(Polling), [Poll(MAIN, false, [])], Dead(Handling));
    run := run + [Poll(MAIN, false, [])];
    AcceptAgain();
    ReachesThen(s0, run, Dead(Handling), [Accept(FD, MAIN)], Fooled());
    run := run + [Accept(FD, MAIN)];
    assert run == FOOLING;
  }

  /** From start-up, with nothing but benign reports: a send that was posted while its connection was
      up runs after the connection was unregistered and puts its descriptor back into the map; the
      connection is deleted; and the next one that gets the descriptor is taken for the old one and
      never watched, although it counts as established. */
  lemma LateSendFoolsNextConnection() returns (run: seq<Step>, s: Server)
    ensures Reaches(Init({MAIN}, {}), run, s) && !s.aborted
    ensures forall i :: 0 <= i < |run| ==> Benign(run[i])
    ensures MAIN in s.loops && Registered(s.loops[MAIN].epoll.channels, FD, 1)
    ensures 1 in s.conns && s.conns[1].stage == Deleted
    ensures 2 in s.conns && s.conns[2].stage == Established && s.conns[2].fd == FD
    ensures FD !in s.loops[MAIN].epoll.kernel
    ensures !DescriptorsLive(s) && !KernelAgrees(s)
  {
    hide Reaches, Benign, Alone, DescriptorsLive, KernelAgrees;
    var init := Init({MAIN}, {});
    OpenIsReachable();
    ClosingAlone();
    ReachesThen(
      init, OPENING, Open(Polling), CLOSING, Alone(map[1 := GONE_CONN], {}, 2, {FD}, Running, EMPTY_EPOLL, [], false));
    FoolingAlone();
    ReachesThen(
      init, OPENING + CLOSING, Alone(map[1 := GONE_CONN], {}, 2, {FD}, Running, EMPTY_EPOLL, [], false),
      FOOLING, Fooled());
    run, s := OPENING + CLOSING + FOOLING, Fooled();
    FooledIsBroken();
    FooledShape();
    AllBenign();
  }

  lemma FooledShape()
    ensures var s := Fooled();
            && !s.aborted && MAIN in s.loops && Registered(s.loops[MAIN].epoll.channels, FD, 1)
            && FD !in s.loops[MAIN].epoll.kernel
            && 1 in s.conns && s.conns[1].stage == Deleted
            && 2 in s.conns && s.conns[2].stage == Established && s.conns[2].fd == FD
  {}

  lemma AllBenign()
    ensures forall i :: 0 <= i < |OPENING + CLOSING + FOOLING| ==> Benign((OPENING + CLOSING + FOOLING)[i])
  {
    assert forall i :: 0 <= i < |OPENING| ==> Benign(OPENING[i]);
    assert forall i :: 0 <= i < |CLOSING| ==> Benign(CLOSING[i]);
    assert forall i :: 0 <= i < |FOOLING| ==> Benign(FOOLING[i]);
  }
}
