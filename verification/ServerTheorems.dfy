/** What the lifecycle invariant means for whole runs of the server. */
module ServerTheorems {
  import opened ConnStatuses
  import opened EventLoops
  import opened Pollers
  import opened ServerModel
  import opened ServerInvariant
  import opened ServerSteps
  import opened ServerLifecycle

  // ---------------------------------------------------------------- runs

  ghost predicate LegalRun(s: Server, steps: seq<Step>)
    decreases |steps|
  {
    steps != [] ==> CanTake(s, steps[0]) && LegalRun(Take(s, steps[0]), steps[1..])
  }

  ghost function RunOf(s: Server, steps: seq<Step>): Server
    requires LegalRun(s, steps)
    decreases |steps|
  {
    if steps == [] then s else RunOf(Take(s, steps[0]), steps[1..])
  }

  ghost predicate Reaches(s: Server, steps: seq<Step>, s1: Server) {
    LegalRun(s, steps) && RunOf(s, steps) == s1
  }

  lemma ReachesSelf(s: Server)
    ensures Reaches(s, [], s)
  {}

  lemma ReachesInOne(s: Server, step: Step)
    requires CanTake(s, step)
    ensures Reaches(s, [step], Take(s, step))
  {
    hide CanTake, Take;
    ReachesSelf(Take(s, step));
    assert [step][0] == step && [step][1..] == [];
  }

  lemma {:induction false} ReachesThen(s: Server, first: seq<Step>, s1: Server, second: seq<Step>, s2: Server)
    requires Reaches(s, first, s1) && Reaches(s1, second, s2)
    ensures Reaches(s, first + second, s2)
    decreases |first|
  {
    hide CanTake, Take;
    if first == [] {
      assert first + second == second;
    } else {
      assert (first + second)[0] == first[0] && (first + second)[1..] == first[1..] + second;
      ReachesThen(Take(s, first[0]), first[1..], s1, second, s2);
    }
  }

  /** No step of the run brings an unregistered connection back into its loop's map. */
  ghost predicate NoRevival(s: Server, steps: seq<Step>)
    requires LegalRun(s, steps)
    decreases |steps|
  {
    steps != [] ==> !Revives(s, steps[0]) && NoRevival(Take(s, steps[0]), steps[1..])
  }

  lemma InitIsGood(loops: set<LoopId>, openFds: set<Fd>)
    requires MAIN in loops
    ensures Inv(Init(loops, openFds), Free) && Gentle(Init(loops, openFds))
  {}

  /** Any interleaving without a revival: until something closes a connection twice, every state is
      good. */
  lemma {:induction false} EveryRunIsGood(s: Server, steps: seq<Step>)
    requires Inv(s, Free) && LegalRun(s, steps) && NoRevival(s, steps)
    ensures RunOf(s, steps).aborted || Inv(RunOf(s, steps), Free)
    decreases |steps|
  {
    hide Inv, CanTake, Take, ClosesTwice, Revives;
    if steps != [] {
      StepKeeps(s, steps[0]);
      var s1 := Take(s, steps[0]);
      if s1.aborted {
        assert steps[1..] == [] by { AbortIsFinal(s1, steps[1..]); }
      } else {
        EveryRunIsGood(s1, steps[1..]);
      }
    }
  }

  lemma AbortIsFinal(s: Server, steps: seq<Step>)
    requires s.aborted && LegalRun(s, steps)
    ensures steps == []
  {}

  // ---------------------------------------------------------------- benign runs never abort

  /** The calls a `handleEvent` may still have to make when no hang-up came with PRI or RDHUP. */
  predicate Tame(calls: seq<Call>, open: bool) {
    if open then
      calls == [] || calls == [WriteCall] || calls == [ReadCall] || calls == [ReadCall, WriteCall]
      || calls == [CloseCall] || calls == [CloseCall, WriteCall]
    else calls == [] || calls == [WriteCall]
  }

  predicate TameActive(conns: Conns, active: seq<Ready>) {
    forall i :: 0 <= i < |active| ==>
      active[i].conn in conns && Tame(active[i].calls, conns[active[i].conn].stage == Established)
  }

  predicate Gentle(s: Server) {
    forall l :: l in s.loops ==> TameActive(s.conns, s.loops[l].active)
  }

  /** Connections only pass from accepted to established; nothing is opened or closed otherwise. */
  predicate SameOpenness(conns: Conns, conns1: Conns) {
    forall c :: c in conns ==>
      && c in conns1
      && (conns[c].stage == Accepted || (conns1[c].stage == Established <==> conns[c].stage == Established))
  }

  /** The active channels did not change and no connection was closed. */
  predicate Quiet(s: Server, s1: Server) {
    && s1.loops.Keys == s.loops.Keys
    && (forall l :: l in s.loops ==> s1.loops[l].active == s.loops[l].active)
    && SameOpenness(s.conns, s1.conns)
  }

  lemma QuietIsGentle(s: Server, s1: Server)
    requires Inv(s, Free) && Gentle(s) && Quiet(s, s1)
    ensures Gentle(s1)
  {
    hide ConnOk, LoopOk, FdsOk;
    forall l | l in s1.loops ensures TameActive(s1.conns, s1.loops[l].active) {
      ActivesAreReady(s, Free, l);
      assert TameActive(s.conns, s.loops[l].active);
    }
  }

  /** Only connection `c` changed, and no active channel. */
  predicate OnlyConn(s: Server, s1: Server, c: ConnId) {
    && s1.loops.Keys == s.loops.Keys && s1.conns.Keys == s.conns.Keys
    && (forall l :: l in s.loops ==>
          s1.loops[l].active == s.loops[l].active && s1.loops[l].started == s.loops[l].started)
    && (forall other :: other in s.conns && other != c ==> s1.conns[other] == s.conns[other])
  }

  lemma OnlyConnThen(s: Server, s1: Server, s2: Server, c: ConnId)
    requires OnlyConn(s, s1, c) && OnlyConn(s1, s2, c)
    ensures OnlyConn(s, s2, c)
  {}

  lemma OnlyConnIsQuiet(s: Server, s1: Server, c: ConnId)
    requires OnlyConn(s, s1, c) && c in s.conns
    requires s.conns[c].stage == Accepted || (s.conns[c].stage != Established && s1.conns[c].stage != Established)
    ensures Quiet(s, s1)
  {}

  lemma EstablishOnly(s: Server, l: LoopId, c: ConnId)
    requires c in s.conns && s.conns[c].loop in s.loops
    ensures OnlyConn(s, DoEstablish(s, l, c), c)
  {
    hide Update;
  }

  lemma DestroyOnly(s: Server, l: LoopId, c: ConnId)
    requires c in s.conns && s.conns[c].loop in s.loops
    ensures OnlyConn(s, DoDestroy(s, l, c), c)
    ensures s.conns[c].stage != Established ==> DoDestroy(s, l, c).conns[c].stage != Established
  {
    hide Pollers.Remove;
  }

  lemma RemoveOnly(s: Server, l: LoopId, c: ConnId)
    requires c in s.conns && s.conns[c].loop in s.loops
    ensures OnlyConn(s, DoRemove(s, l, c), c)
    ensures s.conns[c].stage != Established ==> DoRemove(s, l, c).conns[c].stage != Established
  {
    hide DoDestroy, Apply;
    var s1 := TakeOut(s, c);
    assert OnlyConn(s, s1, c);
    DestroyOnly(s1, l, c);
    assert OnlyConn(s1, RunDestroy(s1, l, c), c);
    OnlyConnThen(s, s1, RunDestroy(s1, l, c), c);
  }

  lemma ExecIsQuiet(s: Server, l: LoopId, t: Task)
    requires Inv(s, Holding(l, t))
    ensures t.conn in s.conns && s.conns[t.conn].loop in s.loops && Quiet(s, Exec(s, l, t))
  {
    hide LoopOk, FdsOk, ConnShape, ConnRegistered, OnlyConn, Quiet, DoEstablish, DoDestroy, DoRemove;
    assert ConnOk(s, Holding(l, t), t.conn, s.conns[t.conn]);
    match t
    case ConnectEstablished(c) => EstablishOnly(s, l, c); OnlyConnIsQuiet(s, DoEstablish(s, l, c), c);
    case RemoveConnection(c) => RemoveOnly(s, l, c); OnlyConnIsQuiet(s, DoRemove(s, l, c), c);
    case ConnectDestroy(c) => DestroyOnly(s, l, c); OnlyConnIsQuiet(s, DoDestroy(s, l, c), c);
  }

  lemma BenignCalls(r: Revents)
    requires !(r.hangup && !r.input && (r.priority || r.readHangup))
    ensures Tame(Calls(r), true)
  {}

  lemma PollIsGentle(s: Server, l: LoopId, wake: bool, reported: seq<(ConnId, Revents)>)
    requires Inv(s, Free) && Gentle(s) && CanTake(s, Poll(l, wake, reported)) && Benign(Poll(l, wake, reported))
    ensures Gentle(Take(s, Poll(l, wake, reported)))
  {
    hide Inv, Reportable, ReadyOk, Calls, Tame;
    PollKeeps(s, l, wake, reported);
    forall i | 0 <= i < |reported|
      ensures reported[i].0 in s.conns && Tame(Calls(reported[i].1), s.conns[reported[i].0].stage == Established)
    {
      ReportedIsOpen(s, l, reported[i].0, reported[i].1);
      BenignCalls(reported[i].1);
    }
    assert TameActive(s.conns, Activated(reported));
  }

  lemma ReportedIsOpen(s: Server, l: LoopId, c: ConnId, r: Revents)
    requires Inv(s, Free) && l in s.loops && Reportable(s, l, c, r)
    ensures s.conns[c].stage == Established
  {
    hide ConnOk, LoopOk, FdsOk, Reportable, Calls;
    ReportedIsReady(s, l, c, r);
  }

  /** Closing a connection leaves the active channels and every other connection as they are. */
  lemma HandleCloseOnly(s: Server, c: ConnId)
    requires c in s.conns && s.conns[c].loop in s.loops && MAIN in s.loops
    ensures OnlyConn(s, HandleClose(s, s.conns[c].loop, c), c)
  {
    hide DoRemove, Apply, Update;
    var l := s.conns[c].loop;
    var s1 := Close(s, l, c);
    assert OnlyConn(s, s1, c);
    RemoveOnly(s1, l, c);
    assert OnlyConn(s1, RunRemove(s1, l, c), c);
    OnlyConnThen(s, s1, RunRemove(s1, l, c), c);
  }

  lemma TameAfterCall(calls: seq<Call>, open: bool)
    requires Tame(calls, open) && calls != []
    ensures Tame(calls[1..], open) && Tame(calls[1..], false)
    ensures calls[0] != WriteCall ==> open
  {}

  lemma MakeCallIsGentle(s: Server, l: LoopId, read: ReadResult)
    requires Inv(s, Free) && Gentle(s) && CanTake(s, MakeCall(l, read))
    ensures !ClosesTwice(s, MakeCall(l, read)) && Gentle(Take(s, MakeCall(l, read)))
  {
    hide ConnRegistered, LoopOk, FdsOk, HandleClose, Tame, Has, Made, Path, Due;
    var head := s.loops[l].active[0];
    assert TameActive(s.conns, s.loops[l].active);
    assert Tame(head.calls, s.conns[head.conn].stage == Established);
    TameAfterCall(head.calls, s.conns[head.conn].stage == Established);
    assert ConnOk(s, Free, head.conn, s.conns[head.conn]);
    ActivesAreReady(s, Free, l);
    var s1, s2 := PopCall(s, l), Take(s, MakeCall(l, read));
    HandleCloseOnly(s1, head.conn);
    forall l1 | l1 in s2.loops ensures TameActive(s2.conns, s2.loops[l1].active) {
      assert TameActive(s.conns, s.loops[l1].active);
      ActivesAreReady(s, Free, l1);
      OthersAreOther(s, l, l1);
    }
  }

  /** The connection at the head of a loop is active nowhere else. */
  lemma OthersAreOther(s: Server, l: LoopId, l1: LoopId)
    requires Inv(s, Free) && l in s.loops && l1 in s.loops && s.loops[l].active != []
    ensures forall i :: 0 <= i < |s.loops[l1].active| && (l1 != l || i > 0) ==>
              s.loops[l1].active[i].conn != s.loops[l].active[0].conn
  {
    hide ConnOk, TasksOk, EpollOk, FdsOk;
    assert LoopOk(s.conns, Free, l, s.loops[l]) && LoopOk(s.conns, Free, l1, s.loops[l1]);
    assert ReadyOk(s.conns, l, s.loops[l].active[0], s.loops[l].started);
  }

  lemma RunNextIsGentle(s: Server, l: LoopId)
    requires Inv(s, Free) && Gentle(s) && CanTake(s, RunNext(l))
    ensures Gentle(Take(s, RunNext(l)))
  {
    hide Inv, Exec;
    PopTaskKeeps(s, l);
    var s1, t := PopTask(s, l), s.loops[l].queue.batch[0];
    ExecIsQuiet(s1, l, t);
    QuietIsGentle(s, Take(s, RunNext(l)));
  }

  lemma NextIdIsNew(s: Server)
    requires Inv(s, Free)
    ensures s.nextConnId !in s.conns
  {
    hide LoopOk, FdsOk, ConnRegistered, Has;
    forall c | c in s.conns ensures c < s.nextConnId {
      assert ConnOk(s, Free, c, s.conns[c]);
    }
  }

  lemma AcceptIsQuiet(s: Server, fd: Fd, l: LoopId)
    requires CanTake(s, Accept(fd, l)) && s.nextConnId !in s.conns
    ensures Quiet(s, Take(s, Accept(fd, l)))
  {
    hide DoEstablish, Apply;
    var s1, c := Admit(s, fd, l), s.nextConnId;
    EstablishOnly(s1, MAIN, c);
    assert OnlyConn(s1, Take(s, Accept(fd, l)), c);
  }

  lemma AcceptIsGentle(s: Server, fd: Fd, l: LoopId)
    requires Inv(s, Free) && Gentle(s) && CanTake(s, Accept(fd, l))
    ensures Gentle(Take(s, Accept(fd, l)))
  {
    hide Inv, Gentle, CanTake, Take, Quiet;
    NextIdIsNew(s);
    AcceptIsQuiet(s, fd, l);
    QuietIsGentle(s, Take(s, Accept(fd, l)));
  }

  lemma EndEventIsGentle(s: Server, l: LoopId)
    requires Gentle(s) && CanTake(s, EndEvent(l))
    ensures Gentle(Take(s, EndEvent(l)))
  {
    hide Tame;
    var s1 := Take(s, EndEvent(l));
    forall l1 | l1 in s1.loops ensures TameActive(s1.conns, s1.loops[l1].active) {
      assert TameActive(s.conns, s.loops[l1].active);
    }
  }

  lemma OthersAreQuiet(s: Server, step: Step)
    requires CanTake(s, step)
    requires step.Shutdown? || step.SetWrite? || step.PostedSend? || step.QueueStep? || step.BeginEvent?
    ensures Quiet(s, Take(s, step))
  {
    hide Apply, Update;
  }

  lemma OthersAreGentle(s: Server, step: Step)
    requires Inv(s, Free) && Gentle(s) && CanTake(s, step)
    requires !step.Accept? && !step.Poll? && !step.MakeCall? && !step.RunNext? && !step.Delete?
    ensures Gentle(Take(s, step))
  {
    hide Inv, Gentle, CanTake, Take, Quiet;
    if step.EndEvent? {
      EndEventIsGentle(s, step.loop);
    } else {
      OthersAreQuiet(s, step);
      QuietIsGentle(s, Take(s, step));
    }
  }

  lemma DeleteIsGentle(s: Server, c: ConnId)
    requires Inv(s, Free) && Gentle(s) && CanTake(s, Delete(c))
    ensures Gentle(Take(s, Delete(c)))
  {
    hide LoopOk, ConnOk, FdsOk, Held;
    UnheldIsUnregistered(s, c);
    QuietIsGentle(s, Take(s, Delete(c)));
  }

  lemma BenignStep(s: Server, step: Step)
    requires Inv(s, Free) && Gentle(s) && CanTake(s, step) && Benign(step) && !Revives(s, step)
    ensures Inv(Take(s, step), Free) && Gentle(Take(s, step))
  {
    hide Inv, Gentle, CanTake, Take, ClosesTwice, Benign, Revives;
    StepKeeps(s, step);
    NeverClosesTwice(s, step);
    match step
    case Accept(fd, l) => AcceptIsGentle(s, fd, l);
    case Poll(l, wake, reported) => PollIsGentle(s, l, wake, reported);
    case MakeCall(l, read) => MakeCallIsGentle(s, l, read);
    case RunNext(l) => RunNextIsGentle(s, l);
    case Delete(c) => DeleteIsGentle(s, c);
    case _ => OthersAreGentle(s, step);
  }

  lemma NeverClosesTwice(s: Server, step: Step)
    requires Inv(s, Free) && Gentle(s) && CanTake(s, step)
    ensures !ClosesTwice(s, step)
  {
    hide Inv, Gentle, CanTake;
    if step.MakeCall? {
      MakeCallIsGentle(s, step.loop, step.read);
    }
  }

  /** No assertion and no fatal check of the lifecycle fails in any interleaving of any number of
      loops, as long as hang-ups without IN come without PRI and RDHUP and no posted send revives a
      connection. */
  lemma {:induction false} BenignRunsNeverAbort(s: Server, steps: seq<Step>)
    requires Inv(s, Free) && Gentle(s) && LegalRun(s, steps) && NoRevival(s, steps)
    requires forall i :: 0 <= i < |steps| ==> Benign(steps[i])
    ensures !RunOf(s, steps).aborted && Inv(RunOf(s, steps), Free)
    decreases |steps|
  {
    hide Gentle, CanTake, Take, Benign, Revives, LoopOk, ConnOk, FdsOk;
    if steps != [] {
      BenignStep(s, steps[0]);
      BenignRunsNeverAbort(Take(s, steps[0]), steps[1..]);
    }
  }

  // ---------------------------------------------------------------- what good states guarantee

  /** Every descriptor in a loop's map or in its kernel set is open and held by a living connection
      of that loop; so a reused descriptor is never confused with a connection that had it before. */
  predicate DescriptorsLive(s: Server) {
    forall l :: l in s.loops ==>
      && (forall fd :: fd in s.loops[l].epoll.channels ==> LiveHolder(s, l, fd, s.loops[l].epoll.channels[fd]))
      && (forall fd :: fd in s.loops[l].epoll.kernel ==> LiveHolder(s, l, fd, s.loops[l].epoll.kernel[fd].chan))
  }

  predicate LiveHolder(s: Server, l: LoopId, fd: Fd, c: ConnId) {
    && c in s.conns && s.conns[c].loop == l && s.conns[c].fd == fd
    && s.conns[c].stage != Deleted && fd in s.openFds
  }

  lemma GoodDescriptors(s: Server)
    requires Inv(s, Free)
    ensures DescriptorsLive(s)
  {
    hide TasksOk, ActiveOk, FdsOk, ConnRegistered;
    forall l | l in s.loops
      ensures forall fd :: fd in s.loops[l].epoll.channels ==> LiveHolder(s, l, fd, s.loops[l].epoll.channels[fd])
      ensures forall fd :: fd in s.loops[l].epoll.kernel ==> LiveHolder(s, l, fd, s.loops[l].epoll.kernel[fd].chan)
    {
      var p := s.loops[l].epoll;
      assert LoopOk(s.conns, Free, l, s.loops[l]);
      forall fd | fd in p.channels ensures LiveHolder(s, l, fd, p.channels[fd]) {
        assert InMap(s.conns, l, fd, p.channels[fd]);
        assert ConnOk(s, Free, p.channels[fd], s.conns[p.channels[fd]]);
      }
      forall fd | fd in p.kernel ensures LiveHolder(s, l, fd, p.kernel[fd].chan) {
        assert InMap(s.conns, l, fd, p.kernel[fd].chan);
        assert ConnOk(s, Free, p.kernel[fd].chan, s.conns[p.kernel[fd].chan]);
      }
    }
  }

  /** Task number `i` of loop `l`. */
  predicate QueuedAt(s: Server, l: LoopId, i: nat, t: Task) {
    l in s.loops && i < |Pending(s.loops[l])| && Pending(s.loops[l])[i] == t
  }

  /** At most one lifecycle task of a connection is queued anywhere, and in the right loop's queue:
      removal on the main loop, the others on the connection's own. */
  ghost predicate OneTaskEach(s: Server) {
    && (forall l1, i1, t1, l2, i2, t2 ::
          QueuedAt(s, l1, i1, t1) && QueuedAt(s, l2, i2, t2) && t1.conn == t2.conn ==> l1 == l2 && i1 == i2)
    && (forall l, i, t :: QueuedAt(s, l, i, t) ==>
          t.conn in s.conns && l == if t.RemoveConnection? then MAIN else s.conns[t.conn].loop)
  }

  lemma GoodTasks(s: Server)
    requires Inv(s, Free)
    ensures OneTaskEach(s)
  {
    hide EpollOk, ActiveOk, FdsOk, ConnOk, QueueInv, Pending;
    forall l, i, t | QueuedAt(s, l, i, t) ensures TaskFits(s.conns, l, t) {
      assert LoopOk(s.conns, Free, l, s.loops[l]);
    }
    forall l1, i1, t1, l2, i2, t2 | QueuedAt(s, l1, i1, t1) && QueuedAt(s, l2, i2, t2) && t1.conn == t2.conn
      ensures l1 == l2 && i1 == i2
    {
      assert TaskFits(s.conns, l1, t1) && TaskFits(s.conns, l2, t2);
      assert LoopOk(s.conns, Free, l1, s.loops[l1]);
    }
  }

  /** The user hears of a connection at most once that it is up and then at most once that it is
      down, both on the connection's own loop. */
  predicate CallbacksInOrder(s: Server) {
    forall c :: c in s.conns ==>
      var k := s.conns[c];
      k.callbacks <= [Callback(k.loop, true), Callback(k.loop, false)]
  }

  lemma GoodCallbacks(s: Server)
    requires Inv(s, Free)
    ensures CallbacksInOrder(s)
  {
    hide LoopOk, FdsOk, ConnRegistered;
    forall c | c in s.conns
      ensures s.conns[c].callbacks <= [Callback(s.conns[c].loop, true), Callback(s.conns[c].loop, false)]
    {
      assert ConnOk(s, Free, c, s.conns[c]);
    }
  }

  /** What every channel asks for. */
  function Masks(s: Server): map<ChanId, Mask> {
    map c | c in s.conns :: s.conns[c].mask
  }

  ghost predicate KernelAgrees(s: Server) {
    forall l :: l in s.loops ==> Agrees(s.loops[l].epoll, Masks(s))
  }

  /** A closed connection whose write interest a late send has turned on again: the poller's map still
      has it, the kernel does not. */
  predicate Stale(k: Conn) {
    (k.stage == Closed || k.stage == Removed) && k.mask != NONE_EVENT
  }

  predicate NoneStale(s: Server) {
    forall c :: c in s.conns ==> !Stale(s.conns[c])
  }

  lemma MapEntryAgrees(s: Server, l: LoopId, fd: Fd)
    requires Inv(s, Free) && l in s.loops && fd in s.loops[l].epoll.channels
    ensures var p, c := s.loops[l].epoll, s.loops[l].epoll.channels[fd];
            && c in s.conns && Mapped(s.conns[c].stage)
            && (fd in p.kernel <==> s.conns[c].stage == Established)
            && (fd in p.kernel ==> s.conns[c].mask.read && p.kernel[fd] == Interest(c, s.conns[c].mask))
  {
    hide TasksOk, ActiveOk, FdsOk, Has, QueueInv, Made, Path;
    var p, c := s.loops[l].epoll, s.loops[l].epoll.channels[fd];
    assert LoopOk(s.conns, Free, l, s.loops[l]);
    assert InMap(s.conns, l, fd, c);
    assert ConnOk(s, Free, c, s.conns[c]);
    if fd in p.kernel {
      KernelEntryIsMapped(s, l, fd);
    }
  }

  lemma KernelEntryIsMapped(s: Server, l: LoopId, fd: Fd)
    requires Inv(s, Free) && l in s.loops && fd in s.loops[l].epoll.kernel
    ensures var p, c := s.loops[l].epoll, s.loops[l].epoll.kernel[fd].chan;
            Registered(p.channels, fd, c) && c in s.conns && s.conns[c].stage == Established
  {
    hide TasksOk, ActiveOk, FdsOk, Has, QueueInv, Made, Path;
    var p, c := s.loops[l].epoll, s.loops[l].epoll.kernel[fd].chan;
    assert LoopOk(s.conns, Free, l, s.loops[l]);
    assert InMap(s.conns, l, fd, c);
    assert ConnOk(s, Free, c, s.conns[c]);
  }

  lemma AgreesUnlessStale(s: Server)
    requires Inv(s, Free) && NoneStale(s)
    ensures KernelAgrees(s)
  {
    hide Inv;
    forall l | l in s.loops ensures Agrees(s.loops[l].epoll, Masks(s)) {
      var p := s.loops[l].epoll;
      forall fd | fd in p.channels
        ensures p.channels[fd] in s.conns
        ensures fd in p.kernel <==> s.conns[p.channels[fd]].mask != NONE_EVENT
        ensures fd in p.kernel ==> p.kernel[fd] == Interest(p.channels[fd], s.conns[p.channels[fd]].mask)
      {
        MapEntryAgrees(s, l, fd);
      }
      forall fd | fd in p.kernel ensures fd in p.channels {
        KernelEntryIsMapped(s, l, fd);
      }
    }
  }

  lemma StaleDisagrees(s: Server, c: ConnId)
    requires Inv(s, Free) && c in s.conns && Stale(s.conns[c])
    ensures !KernelAgrees(s)
  {
    hide LoopOk, FdsOk;
    var k := s.conns[c];
    assert ConnOk(s, Free, c, k);
    KernelOfClosed(s, Free, c);
    var p := s.loops[k.loop].epoll;
    assert p.channels[k.fd] == c && k.fd !in p.kernel && Masks(s)[c] != NONE_EVENT;
    assert !Agrees(p, Masks(s));
  }

  /** Map and kernel agree exactly while no closed connection has had its write interest turned on. */
  lemma KernelAgreesIff(s: Server)
    requires Inv(s, Free)
    ensures KernelAgrees(s) <==> NoneStale(s)
  {
    hide Inv, KernelAgrees, Stale;
    if NoneStale(s) {
      AgreesUnlessStale(s);
    } else {
      var c :| c in s.conns && Stale(s.conns[c]);
      StaleDisagrees(s, c);
    }
  }

  /** Each connection passes through the six stages in this order, skipping none. */
  predicate StagesInOrder(s: Server) {
    forall c :: c in s.conns ==>
      var passed := s.conns[c].passed;
      && passed != [] && passed[|passed| - 1] == s.conns[c].stage
      && passed <= [Accepted, Established, Closed, Removed, Unregistered, Deleted]
  }

  lemma GoodStages(s: Server)
    requires Inv(s, Free)
    ensures StagesInOrder(s)
  {
    hide LoopOk, FdsOk, ConnRegistered, Made, Has;
    forall c | c in s.conns
      ensures var passed := s.conns[c].passed;
              && passed != [] && passed[|passed| - 1] == s.conns[c].stage
              && passed <= [Accepted, Established, Closed, Removed, Unregistered, Deleted]
    {
      assert ConnOk(s, Free, c, s.conns[c]);
    }
  }

  /** Whatever is next in a queue or an active list can be run: its connection still exists. */
  lemma NextIsCallable(s: Server, l: LoopId)
    requires Inv(s, Free) && l in s.loops
    ensures s.loops[l].queue.batch != [] ==> Callable(s, s.loops[l].queue.batch[0].conn)
    ensures s.loops[l].active != [] ==> Callable(s, s.loops[l].active[0].conn)
  {
    hide EpollOk, FdsOk, ConnShape, ConnRegistered, QueueInv;
    var loop := s.loops[l];
    assert LoopOk(s.conns, Free, l, loop);
    if loop.queue.batch != [] {
      assert Pending(loop)[0] == loop.queue.batch[0];
      assert TaskFits(s.conns, l, Pending(loop)[0]);
      assert ConnOk(s, Free, loop.queue.batch[0].conn, s.conns[loop.queue.batch[0].conn]);
    }
    if loop.active != [] {
      assert ReadyOk(s.conns, l, loop.active[0], loop.started);
    }
  }

  /** Any number of loops, any interleaving, any reuse of descriptors, as long as no posted send
      revives a connection: no lifecycle check fails, descriptors stay exact, tasks are never doubled or
      misdirected, every connection's stages and callbacks come in order, and the kernel's interest is
      exact but for closed connections that a late send has made write. */
  lemma ServerIsSafe(loops: set<LoopId>, openFds: set<Fd>, steps: seq<Step>)
    requires MAIN in loops && LegalRun(Init(loops, openFds), steps)
    requires forall i :: 0 <= i < |steps| ==> Benign(steps[i])
    requires NoRevival(Init(loops, openFds), steps)
    ensures var s := RunOf(Init(loops, openFds), steps);
            && !s.aborted
            && DescriptorsLive(s) && OneTaskEach(s) && CallbacksInOrder(s) && StagesInOrder(s)
            && (KernelAgrees(s) <==> NoneStale(s))
  {
    hide Inv, Gentle, LegalRun, RunOf, NoRevival, Benign;
    InitIsGood(loops, openFds);
    BenignRunsNeverAbort(Init(loops, openFds), steps);
    var s := RunOf(Init(loops, openFds), steps);
    GoodDescriptors(s);
    GoodTasks(s);
    GoodCallbacks(s);
    GoodStages(s);
    KernelAgreesIff(s);
  }

  // ---------------------------------------------------------------- stages only advance

  /** Connections never disappear, never change loop or descriptor, and never go back a stage. */
  predicate Advances(s: Server, s1: Server) {
    forall c :: c in s.conns ==>
      && c in s1.conns
      && s1.conns[c].loop == s.conns[c].loop && s1.conns[c].fd == s.conns[c].fd
      && s.conns[c].passed <= s1.conns[c].passed
  }

  /** No connection becomes stale. */
  predicate NewlyStaleNone(s: Server, s1: Server) {
    forall c :: c in s1.conns && Stale(s1.conns[c]) ==> c in s.conns && Stale(s.conns[c])
  }

  predicate NewlyDeletedNone(s: Server, s1: Server) {
    forall c :: c in s1.conns && s1.conns[c].stage == Deleted ==> c in s.conns && s.conns[c].stage == Deleted
  }

  predicate Evolves(s: Server, s1: Server) {
    Advances(s, s1) && NewlyStaleNone(s, s1) && NewlyDeletedNone(s, s1)
  }

  lemma EvolvesThen(s: Server, s1: Server, s2: Server)
    requires Evolves(s, s1) && Evolves(s1, s2)
    ensures Evolves(s, s2)
  {}

  lemma EstablishEvolves(s: Server, l: LoopId, c: ConnId)
    requires c in s.conns && s.conns[c].loop in s.loops
    ensures Evolves(s, DoEstablish(s, l, c))
  {
    hide Update;
  }

  lemma DestroyEvolves(s: Server, l: LoopId, c: ConnId)
    requires c in s.conns && s.conns[c].loop in s.loops
    ensures Evolves(s, DoDestroy(s, l, c))
  {
    hide Pollers.Remove;
  }

  lemma RemoveEvolves(s: Server, l: LoopId, c: ConnId)
    requires c in s.conns && s.conns[c].loop in s.loops && s.conns[c].stage == Closed
    ensures Evolves(s, DoRemove(s, l, c))
  {
    hide DoDestroy, Apply;
    var s1 := TakeOut(s, c);
    assert Evolves(s, s1);
    DestroyEvolves(s1, l, c);
    assert Evolves(s1, RunDestroy(s1, l, c));
    EvolvesThen(s, s1, RunDestroy(s1, l, c));
  }

  lemma HandleCloseEvolves(s: Server, c: ConnId)
    requires c in s.conns && s.conns[c].loop in s.loops && MAIN in s.loops
    ensures Evolves(s, HandleClose(s, s.conns[c].loop, c))
  {
    hide DoRemove, Apply, Update;
    if s.conns[c].status != Disconnected {
      var l, s1 := s.conns[c].loop, Close(s, s.conns[c].loop, c);
      assert Evolves(s, s1);
      RemoveEvolves(s1, l, c);
      assert Evolves(s1, RunRemove(s1, l, c));
      EvolvesThen(s, s1, RunRemove(s1, l, c));
    }
  }

  lemma ExecEvolves(s: Server, l: LoopId, t: Task)
    requires Inv(s, Holding(l, t))
    ensures t.conn in s.conns && s.conns[t.conn].loop in s.loops && Evolves(s, Exec(s, l, t))
  {
    hide LoopOk, FdsOk, ConnShape, ConnRegistered, DoEstablish, DoDestroy, DoRemove, Evolves;
    assert ConnOk(s, Holding(l, t), t.conn, s.conns[t.conn]);
    match t
    case ConnectEstablished(c) => EstablishEvolves(s, l, c);
    case RemoveConnection(c) => RemoveEvolves(s, l, c);
    case ConnectDestroy(c) => DestroyEvolves(s, l, c);
  }

  lemma AcceptEvolves(s: Server, fd: Fd, l: LoopId)
    requires Inv(s, Free) && CanTake(s, Accept(fd, l))
    ensures Evolves(s, Take(s, Accept(fd, l)))
  {
    hide Inv, DoEstablish, Apply;
    NextIdIsNew(s);
    var s1, c := Admit(s, fd, l), s.nextConnId;
    assert Evolves(s, s1);
    EstablishEvolves(s1, MAIN, c);
    assert Evolves(s1, Take(s, Accept(fd, l)));
    EvolvesThen(s, s1, Take(s, Accept(fd, l)));
  }

  lemma MakeCallEvolves(s: Server, l: LoopId, read: ReadResult)
    requires Inv(s, Free) && CanTake(s, MakeCall(l, read))
    ensures Evolves(s, Take(s, MakeCall(l, read)))
  {
    hide ConnOk, LoopOk, FdsOk, HandleClose, ReadyOk;
    ActivesAreReady(s, Free, l);
    HeadIsOwn(s, l);
    HandleCloseEvolves(PopCall(s, l), s.loops[l].active[0].conn);
  }

  lemma HeadIsOwn(s: Server, l: LoopId)
    requires Inv(s, Free) && l in s.loops && s.loops[l].active != []
    ensures var c := s.loops[l].active[0].conn; c in s.conns && s.conns[c].loop == l
  {
    hide ConnOk, LoopOk, FdsOk;
    ActivesAreReady(s, Free, l);
  }

  lemma RunNextEvolves(s: Server, l: LoopId)
    requires Inv(s, Free) && CanTake(s, RunNext(l))
    ensures Evolves(s, Take(s, RunNext(l)))
  {
    hide Inv, Exec;
    PopTaskKeeps(s, l);
    ExecEvolves(PopTask(s, l), l, s.loops[l].queue.batch[0]);
  }

  lemma SetWriteEvolves(s: Server, c: ConnId, on: bool)
    requires Inv(s, Free) && CanTake(s, SetWrite(c, on))
    ensures Evolves(s, Take(s, SetWrite(c, on)))
  {
    hide LoopOk, FdsOk, ConnRegistered, Has, Made, Path, Update;
    assert ConnOk(s, Free, c, s.conns[c]);
  }

  lemma OthersEvolve(s: Server, step: Step)
    requires CanTake(s, step)
    requires !step.Accept? && !step.MakeCall? && !step.RunNext? && !step.SetWrite? && !step.PostedSend?
    ensures Advances(s, Take(s, step)) && NewlyStaleNone(s, Take(s, step))
    ensures !step.Delete? ==> NewlyDeletedNone(s, Take(s, step))
  {
    hide Apply, Held, Update, Reportable, PollAsserts;
  }

  lemma PostedSendAdvances(s: Server, c: ConnId, spill: bool)
    requires CanTake(s, PostedSend(c, spill))
    ensures Advances(s, Take(s, PostedSend(c, spill)))
    ensures !spill || s.conns[c].stage == Established ==> Evolves(s, Take(s, PostedSend(c, spill)))
  {
    hide Update;
  }

  /** Accepted, established, closed, removed, unregistered, deleted: no step takes a connection back. */
  lemma StagesOnlyAdvance(s: Server, step: Step)
    requires Inv(s, Free) && CanTake(s, step)
    ensures Advances(s, Take(s, step))
    ensures !LateSend(s, step) ==> NewlyStaleNone(s, Take(s, step))
    ensures !LateSend(s, step) && !step.Delete? ==> NewlyDeletedNone(s, Take(s, step))
  {
    hide Inv, CanTake, Take, Advances, NewlyStaleNone, NewlyDeletedNone;
    match step
    case Accept(fd, l) => AcceptEvolves(s, fd, l);
    case SetWrite(c, on) => SetWriteEvolves(s, c, on);
    case PostedSend(c, spill) => PostedSendAdvances(s, c, spill);
    case MakeCall(l, read) => MakeCallEvolves(s, l, read);
    case RunNext(l) => RunNextEvolves(s, l);
    case _ => OthersEvolve(s, step);
  }

  // ---------------------------------------------------------------- posted sends that come late

  /** A posted send turns write interest on when its connection is no longer established. */
  ghost predicate LateSend(s: Server, step: Step)
    requires CanTake(s, step)
  {
    step.PostedSend? && step.spill && s.conns[step.conn].stage != Established
  }

  ghost predicate NoLateSend(s: Server, steps: seq<Step>)
    requires LegalRun(s, steps)
    decreases |steps|
  {
    steps != [] ==> !LateSend(s, steps[0]) && NoLateSend(Take(s, steps[0]), steps[1..])
  }

  /** Without late sends, map and kernel always agree. */
  lemma {:induction false} RunsWithoutLateSendsAgree(s: Server, steps: seq<Step>)
    requires Inv(s, Free) && Gentle(s) && NoneStale(s) && LegalRun(s, steps) && NoLateSend(s, steps)
    requires forall i :: 0 <= i < |steps| ==> Benign(steps[i])
    ensures NoRevival(s, steps) && KernelAgrees(RunOf(s, steps))
    decreases |steps|
  {
    hide Inv, Gentle, CanTake, Take, Benign, Advances, Stale, KernelAgrees;
    if steps == [] {
      AgreesUnlessStale(s);
    } else {
      RevivalIsLate(s, steps[0]);
      BenignStep(s, steps[0]);
      StagesOnlyAdvance(s, steps[0]);
      RunsWithoutLateSendsAgree(Take(s, steps[0]), steps[1..]);
    }
  }

  lemma RevivalIsLate(s: Server, step: Step)
    requires CanTake(s, step) && !LateSend(s, step)
    ensures !Revives(s, step)
  {}

  /** What a posted send that turns write interest on does, whenever it runs: descriptors stay live,
      and the kernel's interest stays exact unless the connection is closed but still in the map. */
  lemma PostedSendAtStage(s: Server, c: ConnId)
    requires Inv(s, Free) && CanTake(s, PostedSend(c, true)) && KernelAgrees(s)
    ensures var s1 := Take(s, PostedSend(c, true));
            && DescriptorsLive(s1)
            && (KernelAgrees(s1) <==> s.conns[c].stage == Established || s.conns[c].stage == Unregistered)
  {
    hide Inv, Take, Revives, KernelAgrees, DescriptorsLive, Stale;
    PostedSendKeepsIff(s, c, true);
    KernelAgreesIff(s);
    if s.conns[c].stage == Unregistered {
      RevivedIsLive(s, c);
    } else {
      var s1 := Take(s, PostedSend(c, true));
      SendMakesStale(s, c);
      GoodDescriptors(s1);
      KernelAgreesIff(s1);
    }
  }

  lemma SendMakesStale(s: Server, c: ConnId)
    requires Inv(s, Free) && CanTake(s, PostedSend(c, true)) && NoneStale(s) && s.conns[c].stage != Unregistered
    ensures !Revives(s, PostedSend(c, true))
    ensures NoneStale(Take(s, PostedSend(c, true))) <==> s.conns[c].stage == Established
  {
    hide Inv, Update;
    var s1 := Take(s, PostedSend(c, true));
    assert s1.conns[c].mask.write;
  }

  /** The map entry of a revived connection is as live as any, as long as the connection lives. */
  lemma RevivedIsLive(s: Server, c: ConnId)
    requires Inv(s, Free) && CanTake(s, PostedSend(c, true)) && s.conns[c].stage == Unregistered && NoneStale(s)
    ensures var s1 := Take(s, PostedSend(c, true)); DescriptorsLive(s1) && KernelAgrees(s1)
  {
    hide Inv, Stale, UpdateChannel, Agrees, Update, LiveHolder;
    var s1, k := Take(s, PostedSend(c, true)), s.conns[c];
    GoodDescriptors(s);
    AgreesUnlessStale(s);
    RevivedIsMapped(s, c);
    UnregisteredShape(s, c);
    UpdateIsLocal(s, c, Mask(false, true));
    assert Masks(s1) == Masks(s)[c := Mask(false, true)];
    forall l | l in s1.loops ensures Agrees(s1.loops[l].epoll, Masks(s1)) {
      if l == k.loop {
        UpdateAgreesIff(s.loops[l].epoll, Masks(s), k.fd, c, Mask(false, true));
      } else {
        AgreesElsewhere(s.loops[l].epoll, Masks(s), c, Mask(false, true));
      }
    }
    LiveAfterRevival(s, s1, c);
  }

  lemma AgreesElsewhere(p: Epoll, masks: map<ChanId, Mask>, c: ConnId, mask: Mask)
    requires Agrees(p, masks) && forall fd :: fd in p.channels ==> p.channels[fd] != c
    ensures Agrees(p, masks[c := mask])
  {}

  lemma LiveAfterRevival(s: Server, s1: Server, c: ConnId)
    requires DescriptorsLive(s) && c in s.conns && s.conns[c].loop in s.loops
    requires s.conns[c].stage != Deleted && s.conns[c].fd in s.openFds
    requires s1.loops.Keys == s.loops.Keys && s1.openFds == s.openFds
    requires s1.conns == s.conns[c := s.conns[c].(mask := Mask(false, true))]
    requires forall l :: l in s.loops && l != s.conns[c].loop ==> s1.loops[l] == s.loops[l]
    requires var k := s.conns[c];
             var p := s.loops[k.loop].epoll;
             s1.loops[k.loop].epoll
             == Epoll(p.channels[k.fd := c], p.kernel[k.fd := Interest(c, Mask(false, true))])
    ensures DescriptorsLive(s1)
  {
    hide LiveHolder;
    var k := s.conns[c];
    forall l | l in s1.loops
      ensures forall fd :: fd in s1.loops[l].epoll.channels ==> LiveHolder(s1, l, fd, s1.loops[l].epoll.channels[fd])
      ensures forall fd :: fd in s1.loops[l].epoll.kernel ==> LiveHolder(s1, l, fd, s1.loops[l].epoll.kernel[fd].chan)
    {
      var p, p1 := s.loops[l].epoll, s1.loops[l].epoll;
      LivesOn(s, s1, c);
      assert LiveHolder(s1, k.loop, k.fd, c) by { assert LiveHolder(s, k.loop, k.fd, c) by { HolderOf(s, c); } }
      forall fd | fd in p1.channels ensures LiveHolder(s1, l, fd, p1.channels[fd]) {
        if fd in p.channels && (l != k.loop || fd != k.fd) {
          assert LiveHolder(s, l, fd, p.channels[fd]);
        }
      }
      forall fd | fd in p1.kernel ensures LiveHolder(s1, l, fd, p1.kernel[fd].chan) {
        if fd in p.kernel && (l != k.loop || fd != k.fd) {
          assert LiveHolder(s, l, fd, p.kernel[fd].chan);
        }
      }
    }
  }

  lemma HolderOf(s: Server, c: ConnId)
    requires c in s.conns && s.conns[c].stage != Deleted && s.conns[c].fd in s.openFds
    ensures LiveHolder(s, s.conns[c].loop, s.conns[c].fd, c)
  {}

  lemma LivesOn(s: Server, s1: Server, c: ConnId)
    requires c in s.conns && s1.openFds == s.openFds
    requires s1.conns == s.conns[c := s.conns[c].(mask := Mask(false, true))]
    ensures forall l, fd, other :: LiveHolder(s, l, fd, other) ==> LiveHolder(s1, l, fd, other)
  {}

  lemma UnregisteredShape(s: Server, c: ConnId)
    requires Inv(s, Free) && c in s.conns && s.conns[c].stage == Unregistered
    ensures !s.conns[c].mask.read && s.conns[c].fd in s.openFds
    ensures forall l, fd :: l in s.loops && fd in s.loops[l].epoll.channels ==> s.loops[l].epoll.channels[fd] != c
  {
    hide LoopOk, FdsOk, ConnRegistered, Made, Path, Has;
    assert ConnOk(s, Free, c, s.conns[c]);
    forall l, fd | l in s.loops && fd in s.loops[l].epoll.channels ensures s.loops[l].epoll.channels[fd] != c {
      MapEntryAgrees(s, l, fd);
    }
  }

  /** Once nothing else refers to a revived connection, its deletion leaves a map entry for a deleted
      connection and a closed descriptor.  A posted send that does not spill leaves none. */
  lemma RevivalLeavesDeadEntry(s: Server, c: ConnId, spill: bool)
    requires Inv(s, Free) && c in s.conns && s.conns[c].stage == Unregistered && !Held(s, c)
    requires CanTake(s, PostedSend(c, spill)) && KernelAgrees(s)
    ensures var run := [PostedSend(c, spill)] + ([Delete(c)] + []);
            LegalRun(s, run)
            && var r := RunOf(s, run);
               && !r.aborted
               && (DescriptorsLive(r) <==> !spill) && (KernelAgrees(r) <==> !spill)
               && (spill ==> DeadEntry(r, s.conns[c].loop, s.conns[c].fd, c))
  {
    hide Inv, Held, LegalRun, RunOf, KernelAgrees, DescriptorsLive, Revives, UpdateChannel, Destruct, DeadEntry;
    var step, k := PostedSend(c, spill), s.conns[c];
    var s1 := Take(s, step);
    SendDoesNotHold(s, c, spill);
    ReachesSelf(Take(s1, Delete(c)));
    RunStep(s1, Delete(c), []);
    RunStep(s, step, [Delete(c)] + []);
    UnregisteredShape(s, c);
    if spill {
      RevivedIsMapped(s, c);
      UpdateIsLocal(s, c, k.mask.(write := true));
      DeletedEntryIsDead(s1, c);
      DeadEntryBreaks(Take(s1, Delete(c)), k.loop, k.fd, c);
    } else {
      DestructKeeps(s, c);
      GoodIsRunning(Take(s, Delete(c)));
      KernelAgreesIff(s);
      var r := Take(s, Delete(c));
      GoodDescriptors(r);
      StagesOnlyAdvance(s, Delete(c));
      EvolvesKeepsNoneStale(s, r);
      KernelAgreesIff(r);
    }
  }

  lemma GoodIsRunning(s: Server)
    requires Inv(s, Free)
    ensures !s.aborted
  {}

  lemma EvolvesKeepsNoneStale(s: Server, r: Server)
    requires NewlyStaleNone(s, r) && NoneStale(s)
    ensures NoneStale(r)
  {}

  /** The poller's map has the deleted connection `c` under a descriptor that is closed. */
  predicate DeadEntry(s: Server, l: LoopId, fd: Fd, c: ConnId) {
    && l in s.loops && Registered(s.loops[l].epoll.channels, fd, c) && fd !in s.loops[l].epoll.kernel
    && fd !in s.openFds && c in s.conns && s.conns[c].stage == Deleted && s.conns[c].mask.write
  }

  lemma DeadEntryBreaks(s: Server, l: LoopId, fd: Fd, c: ConnId)
    requires DeadEntry(s, l, fd, c)
    ensures !DescriptorsLive(s) && !KernelAgrees(s)
  {
    assert !LiveHolder(s, l, fd, s.loops[l].epoll.channels[fd]);
    assert Masks(s)[c] != NONE_EVENT;
    assert !Agrees(s.loops[l].epoll, Masks(s));
  }

  lemma DeletedEntryIsDead(s: Server, c: ConnId)
    requires !s.aborted && c in s.conns && s.conns[c].mask.write && s.conns[c].fd in s.openFds
    requires s.conns[c].loop in s.loops && Registered(s.loops[s.conns[c].loop].epoll.channels, s.conns[c].fd, c)
    ensures !Destruct(s, c).aborted && DeadEntry(Destruct(s, c), s.conns[c].loop, s.conns[c].fd, c)
  {}

  lemma SendDoesNotHold(s: Server, c: ConnId, spill: bool)
    requires CanTake(s, PostedSend(c, spill)) && !Held(s, c)
    ensures CanTake(Take(s, PostedSend(c, spill)), Delete(c))
  {
    hide Update;
  }

  // ---------------------------------------------------------------- the excluded hang-up

  lemma StatusAfterClose(s: Server, c: ConnId)
    requires c in s.conns && s.conns[c].loop in s.loops && MAIN in s.loops
    ensures var s1 := HandleClose(s, s.conns[c].loop, c);
            s1.aborted || (c in s1.conns && s1.conns[c].status == Disconnected)
  {
    hide Apply, Update, Pollers.Remove, OwnEntry;
  }

  lemma ClosedByCall(s: Server, l: LoopId, c: ConnId)
    requires Inv(s, Free) && CanTake(s, MakeCall(l, ReadOther))
    requires s.loops[l].active[0].conn == c && s.loops[l].active[0].calls[0] == CloseCall
    ensures var s1 := Take(s, MakeCall(l, ReadOther));
            && !s1.aborted && c in s1.conns && s1.conns[c].status == Disconnected
            && l in s1.loops && s1.loops[l].started && s1.loops[l].active == PopCall(s, l).loops[l].active
  {
    hide LoopOk, FdsOk, ConnRegistered, HandleClose;
    MakeCallKeeps(s, l, ReadOther);
    ActivesAreReady(s, Free, l);
    assert ConnOk(s, Free, c, s.conns[c]);
    var s1 := PopCall(s, l);
    HandleCloseOnly(s1, c);
    StatusAfterClose(s1, c);
  }

  lemma RunStep(s: Server, step: Step, rest: seq<Step>)
    requires CanTake(s, step) && LegalRun(Take(s, step), rest)
    ensures LegalRun(s, [step] + rest) && RunOf(s, [step] + rest) == RunOf(Take(s, step), rest)
  {
    hide CanTake, Take;
    assert ([step] + rest)[1..] == rest;
  }

  /** The one excluded report does bring the program down: after a hang-up with PRI or RDHUP but
      without IN, the close call is followed by a read call, and a read that finds the end of the
      stream closes a second time. */
  lemma HangupWithPriorityAborts(s: Server, l: LoopId, wake: bool, c: ConnId, r: Revents)
    requires Inv(s, Free) && CanTake(s, Poll(l, wake, [(c, r)]))
    requires r.hangup && !r.input && (r.priority || r.readHangup)
    ensures var run := [Poll(l, wake, [(c, r)])]
                       + ([BeginEvent(l)] + ([MakeCall(l, ReadOther)] + ([MakeCall(l, ReadEof)] + [])));
            LegalRun(s, run) && RunOf(s, run).aborted
  {
    var s1 := AfterHangup(s, l, wake, c, r);
    ThenAborts(s1, l, c);
    var run1 := [MakeCall(l, ReadOther)] + ([MakeCall(l, ReadEof)] + []);
    BeginThen(s, l, wake, c, r, s1, run1);
  }

  lemma BeginThen(s: Server, l: LoopId, wake: bool, c: ConnId, r: Revents, s1: Server, rest: seq<Step>)
    requires CanTake(s, Poll(l, wake, [(c, r)]))
    requires var polled := Take(s, Poll(l, wake, [(c, r)]));
             CanTake(polled, BeginEvent(l)) && s1 == Take(polled, BeginEvent(l))
    requires LegalRun(s1, rest)
    ensures var run := [Poll(l, wake, [(c, r)])] + ([BeginEvent(l)] + rest);
            LegalRun(s, run) && RunOf(s, run) == RunOf(s1, rest)
  {
    hide CanTake, Take, LegalRun, RunOf;
    var polled := Take(s, Poll(l, wake, [(c, r)]));
    RunStep(polled, BeginEvent(l), rest);
    RunStep(s, Poll(l, wake, [(c, r)]), [BeginEvent(l)] + rest);
  }

  lemma AfterHangup(s: Server, l: LoopId, wake: bool, c: ConnId, r: Revents) returns (s2: Server)
    requires Inv(s, Free) && CanTake(s, Poll(l, wake, [(c, r)]))
    requires r.hangup && !r.input && (r.priority || r.readHangup)
    ensures var polled := Take(s, Poll(l, wake, [(c, r)]));
            CanTake(polled, BeginEvent(l)) && s2 == Take(polled, BeginEvent(l))
    ensures Inv(s2, Free) && l in s2.loops && s2.loops[l].started && s2.loops[l].active == [Ready(c, Calls(r))]
    ensures |Calls(r)| >= 2 && Calls(r)[0] == CloseCall && Calls(r)[1] == ReadCall
  {
    hide LoopOk, ConnOk, FdsOk, Reportable;
    PollKeeps(s, l, wake, [(c, r)]);
    var s1 := Take(s, Poll(l, wake, [(c, r)]));
    assert s1.loops[l].active == [Ready(c, Calls(r))];
    BeginEventKeeps(s1, l);
    s2 := Take(s1, BeginEvent(l));
    ActivesAreReady(s1, Free, l);
  }

  lemma ThenAborts(s: Server, l: LoopId, c: ConnId)
    requires Inv(s, Free) && l in s.loops && s.loops[l].started && |s.loops[l].active| == 1
    requires var calls := s.loops[l].active[0].calls; |calls| >= 2 && calls[0] == CloseCall && calls[1] == ReadCall
    requires s.loops[l].active[0].conn == c
    ensures var run := [MakeCall(l, ReadOther)] + ([MakeCall(l, ReadEof)] + []);
            LegalRun(s, run) && RunOf(s, run).aborted
  {
    hide LoopOk, ConnOk, FdsOk, HandleClose;
    NextIsCallable(s, l);
    ClosedByCall(s, l, c);
    MakeCallKeeps(s, l, ReadOther);
    var s1 := Take(s, MakeCall(l, ReadOther));
    NextIsCallable(s1, l);
    MakeCallKeeps(s1, l, ReadEof);
    RunStep(s1, MakeCall(l, ReadEof), []);
    RunStep(s, MakeCall(l, ReadOther), [MakeCall(l, ReadEof)] + []);
  }
}
