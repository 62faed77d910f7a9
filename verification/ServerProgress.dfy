/**
 Progress of the whole server: from any good state, finitely many steps that the loops take on their
 own run every lifecycle task, so that no connection is left half-way.
 */
module ServerProgress {
  import opened ConnStatuses
  import opened EventLoops
  import opened Pollers
  import opened ServerModel
  import opened ServerInvariant
  import opened ServerSteps
  import opened ServerLifecycle
  import opened ServerTheorems

  // ---------------------------------------------------------------- a loop's own steps

  /** A step that loop `l` takes by itself: nobody connects, hangs up, sends or shuts down, reads find
      no end of stream, and `poll` returns only for the eventfd.  A wake-up is the second half of a
      post that another loop has begun. */
  predicate OwnOf(l: LoopId, step: Step) {
    match step
    case QueueStep(l1, e) => l1 == l && (e.Wake? || e.ReadWake? || e.Swap? || e.EndBatch?)
    case Poll(l1, wake, reported) => l1 == l && wake && reported == []
    case BeginEvent(l1) => l1 == l
    case MakeCall(l1, read) => l1 == l && read == ReadOther
    case EndEvent(l1) => l1 == l
    case RunNext(l1) => l1 == l
    case _ => false
  }

  /** The other loops stay where they are; tasks may have been posted to them. */
  predicate Spares(s: Server, s1: Server, l: LoopId) {
    && s1.loops.Keys == s.loops.Keys
    && forall l1 :: l1 in s.loops && l1 != l ==> SparesLoop(s.loops[l1], s1.loops[l1])
  }

  predicate SparesLoop(loop: Loop, loop1: Loop) {
    && loop1.active == loop.active && loop1.started == loop.started
    && loop1.queue.phase == loop.queue.phase && loop1.queue.batch == loop.queue.batch
    && loop.queue.functions <= loop1.queue.functions
  }

  /** Nothing has been posted to loop `l1`. */
  predicate NonePosted(s: Server, s1: Server, l1: LoopId) {
    l1 in s.loops && l1 in s1.loops ==> s1.loops[l1].queue.functions == s.loops[l1].queue.functions
  }

  lemma EstablishSpares(s: Server, l: LoopId, c: ConnId)
    requires c in s.conns && s.conns[c].loop in s.loops
    ensures var s1 := DoEstablish(s, l, c);
            s1.loops.Keys == s.loops.Keys && forall l1 :: l1 in s.loops ==> SameQueue(s.loops[l1], s1.loops[l1])
  {
    hide Update;
  }

  predicate SameQueue(loop: Loop, loop1: Loop) {
    loop1.active == loop.active && loop1.started == loop.started && loop1.queue == loop.queue
  }

  lemma DestroySpares(s: Server, l: LoopId, c: ConnId)
    requires c in s.conns && s.conns[c].loop in s.loops
    ensures var s1 := DoDestroy(s, l, c);
            s1.loops.Keys == s.loops.Keys && forall l1 :: l1 in s.loops ==> SameQueue(s.loops[l1], s1.loops[l1])
  {
    hide Pollers.Remove;
  }

  lemma PostSpares(s: Server, l: LoopId, t: Task)
    requires l in s.loops
    ensures var s1 := PostTo(s, l, t);
            && s1.loops.Keys == s.loops.Keys
            && SparesLoop(s.loops[l], s1.loops[l])
            && forall l1 :: l1 in s.loops && l1 != l ==> s1.loops[l1] == s.loops[l1]
  {}

  /** Removal posts at most to the connection's own loop, another one than `l`. */
  lemma RemoveSpares(s: Server, l: LoopId, c: ConnId)
    requires c in s.conns && s.conns[c].loop in s.loops && l in s.loops
    ensures var s1 := DoRemove(s, l, c);
            Spares(s, s1, l) && SameQueue(s.loops[l], s1.loops[l])
  {
    hide DoDestroy, PostTo;
    var s0 := TakeOut(s, c);
    DestroySpares(s0, l, c);
    PostSpares(s0, s.conns[c].loop, ConnectDestroy(c));
  }

  /** Closing posts at most to the main loop, and not when it runs there itself. */
  lemma CloseSpares(s: Server, l: LoopId, c: ConnId)
    requires c in s.conns && s.conns[c].loop == l && l in s.loops && MAIN in s.loops
    ensures var s1 := HandleClose(s, l, c);
            && Spares(s, s1, l) && SameQueue(s.loops[l], s1.loops[l])
            && (forall l1 :: l1 in s.loops && l1 != l && l1 != MAIN ==> NonePosted(s, s1, l1))
  {
    hide RunRemove, Close;
    if s.conns[c].status != Disconnected {
      CloseOnlySpares(s, l, c);
      RunRemoveSpares(Close(s, l, c), l, c);
    }
  }

  lemma CloseOnlySpares(s: Server, l: LoopId, c: ConnId)
    requires c in s.conns && s.conns[c].loop == l && l in s.loops
    ensures var s1 := Close(s, l, c);
            && c in s1.conns && s1.conns[c].loop == l && s1.loops.Keys == s.loops.Keys
            && forall l1 :: l1 in s.loops ==> SameQueue(s.loops[l1], s1.loops[l1])
  {
    hide Update;
  }

  lemma RunRemoveSpares(s: Server, l: LoopId, c: ConnId)
    requires c in s.conns && s.conns[c].loop == l && l in s.loops && MAIN in s.loops
    ensures var s1 := RunRemove(s, l, c);
            && Spares(s, s1, l) && SameQueue(s.loops[l], s1.loops[l])
            && (forall l1 :: l1 in s.loops && l1 != l && l1 != MAIN ==> NonePosted(s, s1, l1))
  {
    hide DoDestroy, PostTo;
    if l == MAIN {
      DestroySpares(TakeOut(s, c), l, c);
    } else {
      PostSpares(s, MAIN, RemoveConnection(c));
    }
  }

  /** The loop has made the first call of its first active channel. */
  predicate CallMade(s: Server, s1: Server, l: LoopId)
    requires l in s.loops && s.loops[l].active != [] && s.loops[l].active[0].calls != []
  {
    && Spares(s, s1, l) && l in s1.loops && s1.loops[l].queue == s.loops[l].queue
    && s1.loops[l].active == PopCall(s, l).loops[l].active && s1.loops[l].started
    && (forall l1 :: l1 in s.loops && l1 != l && l1 != MAIN ==> NonePosted(s, s1, l1))
  }

  lemma MakeCallSpares(s: Server, l: LoopId)
    requires Inv(s, Free) && CanTake(s, MakeCall(l, ReadOther))
    ensures CallMade(s, Take(s, MakeCall(l, ReadOther)), l)
  {
    hide ConnOk, LoopOk, FdsOk, HandleClose, ReadyOk;
    HeadIsOwn(s, l);
    CloseSpares(PopCall(s, l), l, s.loops[l].active[0].conn);
  }

  /** The loop has run the first task of its batch. */
  predicate TaskRun(s: Server, s1: Server, l: LoopId)
    requires l in s.loops && Enabled(s.loops[l].queue, EventLoops.RunTask)
  {
    && Spares(s, s1, l)
    && l in s1.loops && s1.loops[l].queue == Apply(s.loops[l].queue, EventLoops.RunTask)
    && s1.loops[l].active == s.loops[l].active && s1.loops[l].started == s.loops[l].started
    && (l != MAIN ==> forall l1 :: l1 in s.loops && l1 != l ==> NonePosted(s, s1, l1))
  }

  lemma RunNextSpares(s: Server, l: LoopId)
    requires Inv(s, Free) && CanTake(s, RunNext(l))
    ensures TaskRun(s, Take(s, RunNext(l)), l)
  {
    hide Inv, Exec, DoEstablish, DoRemove, DoDestroy, Apply;
    PopTaskKeeps(s, l);
    var s0, t := PopTask(s, l), s.loops[l].queue.batch[0];
    ExecSpares(s0, l, t);
  }

  lemma ExecSpares(s: Server, l: LoopId, t: Task)
    requires Inv(s, Holding(l, t))
    ensures t.conn in s.conns && s.conns[t.conn].loop in s.loops && l in s.loops
    ensures var s1 := Exec(s, l, t);
            && Spares(s, s1, l) && SameQueue(s.loops[l], s1.loops[l])
            && (l != MAIN ==> forall l1 :: l1 in s.loops && l1 != l ==> NonePosted(s, s1, l1))
  {
    hide LoopOk, FdsOk, ConnShape, ConnRegistered, DoEstablish, DoRemove, DoDestroy;
    assert ConnOk(s, Holding(l, t), t.conn, s.conns[t.conn]);
    match t
    case ConnectEstablished(c) => EstablishSpares(s, l, c);
    case RemoveConnection(c) => RemoveSpares(s, l, c);
    case ConnectDestroy(c) => DestroySpares(s, l, c);
  }

  // ---------------------------------------------------------------- stretches of own steps

  /** Loop `l` takes the steps by itself and leads from one good state to another. */
  ghost predicate Moves(s: Server, l: LoopId, steps: seq<Step>, s1: Server) {
    && Reaches(s, steps, s1) && Inv(s1, Free) && Evolves(s, s1) && Spares(s, s1, l)
    && forall i :: 0 <= i < |steps| ==> OwnOf(l, steps[i])
  }

  lemma MovesThen(s: Server, l: LoopId, first: seq<Step>, s1: Server, second: seq<Step>, s2: Server)
    requires Moves(s, l, first, s1) && Moves(s1, l, second, s2)
    ensures Moves(s, l, first + second, s2)
  {
    hide Reaches, Inv, Evolves, OwnOf;
    ReachesThen(s, first, s1, second, s2);
    EvolvesThen(s, s1, s2);
  }

  lemma MovesNot(s: Server, l: LoopId)
    requires Inv(s, Free)
    ensures Moves(s, l, [], s)
  {
    hide Inv;
    ReachesSelf(s);
  }

  lemma MovesOnce(s: Server, l: LoopId, step: Step)
    requires Inv(s, Free) && CanTake(s, step) && OwnOf(l, step) && Spares(s, Take(s, step), l)
    ensures Moves(s, l, [step], Take(s, step))
  {
    hide Inv, CanTake, Take, Spares, Reaches, Advances, NewlyStaleNone, NewlyDeletedNone;
    OwnStepIsGood(s, l, step);
    StagesOnlyAdvance(s, step);
    ReachesInOne(s, step);
    GoodIsRunning(Take(s, step));
  }

  lemma OwnStepIsGood(s: Server, l: LoopId, step: Step)
    requires Inv(s, Free) && CanTake(s, step) && OwnOf(l, step)
    ensures Inv(Take(s, step), Free) && !LateSend(s, step)
  {
    hide Inv, CanTake, Take;
    StepKeeps(s, step);
  }

  // ---------------------------------------------------------------- a loop finishes what it has

  function Work(active: seq<Ready>): nat {
    if active == [] then 0 else |active[0].calls| + 2 + Work(active[1..])
  }

  function WorkLeft(loop: Loop): int {
    Work(loop.active) - if loop.started then 1 else 0
  }

  lemma LoopFacts(s: Server, l: LoopId)
    requires Inv(s, Free) && l in s.loops
    ensures !s.aborted && MAIN in s.loops
    ensures var loop := s.loops[l];
            && (loop.active != [] ==> loop.queue.phase == Handling)
            && (loop.started ==> loop.active != [])
            && QueueInv(loop.queue)
  {
    hide ConnOk, FdsOk, TasksOk, EpollOk, QueueInv, ReadyOk;
    assert LoopOk(s.conns, Free, l, s.loops[l]);
  }

  /** The event handling under way comes to its end. */
  lemma {:induction false} FinishEvents(s: Server, l: LoopId) returns (steps: seq<Step>, s1: Server)
    requires Inv(s, Free) && l in s.loops
    ensures Moves(s, l, steps, s1) && l in s1.loops
    ensures s1.loops[l].active == [] && s1.loops[l].queue == s.loops[l].queue
    ensures forall l1 :: l1 in s.loops && l1 != l && (l1 != MAIN || s.loops[l].active == []) ==> NonePosted(s, s1, l1)
    decreases WorkLeft(s.loops[l])
  {
    hide Inv, Moves, Spares, Take, CanTake;
    LoopFacts(s, l);
    var loop := s.loops[l];
    if loop.active == [] {
      MovesNot(s, l);
      return [], s;
    }
    var step := NextEventStep(s, l);
    var s0 := Take(s, step);
    MovesOnce(s, l, step);
    GoodAfterMove(s, l, [step], s0);
    var more;
    more, s1 := FinishEvents(s0, l);
    MovesThen(s, l, [step], s0, more, s1);
    steps := [step] + more;
  }

  lemma GoodAfterMove(s: Server, l: LoopId, steps: seq<Step>, s1: Server)
    requires Moves(s, l, steps, s1)
    ensures Inv(s1, Free) && s1.loops.Keys == s.loops.Keys
  {}

  /** The next step of the event handling leaves less of it to do. */
  lemma NextEventStep(s: Server, l: LoopId) returns (step: Step)
    requires Inv(s, Free) && l in s.loops && s.loops[l].active != []
    ensures CanTake(s, step) && OwnOf(l, step) && Spares(s, Take(s, step), l)
    ensures var s1 := Take(s, step);
            && l in s1.loops && s1.loops[l].queue == s.loops[l].queue
            && 0 <= WorkLeft(s1.loops[l]) < WorkLeft(s.loops[l])
            && (forall l1 :: l1 in s.loops && l1 != l && l1 != MAIN ==> NonePosted(s, s1, l1))
  {
    hide Inv, HandleClose;
    LoopFacts(s, l);
    NextIsCallable(s, l);
    var loop := s.loops[l];
    if !loop.started {
      step := BeginEvent(l);
      BeginIsClean(s, l);
    } else if loop.active[0].calls != [] {
      step := MakeCall(l, ReadOther);
      MakeCallSpares(s, l);
      var head := loop.active[0];
      assert loop.active[0 := head.(calls := head.calls[1..])][1..] == loop.active[1..];
    } else {
      step := EndEvent(l);
    }
  }

  lemma BeginIsClean(s: Server, l: LoopId)
    requires Inv(s, Free) && CanTake(s, BeginEvent(l))
    ensures Take(s, BeginEvent(l)) == WithLoop(s, l, s.loops[l].(started := true))
  {
    hide ConnOk, LoopOk, FdsOk;
    ActivesAreReady(s, Free, l);
  }

  /** The batch under way comes to its end. */
  lemma {:induction false} FinishTasks(s: Server, l: LoopId) returns (steps: seq<Step>, s1: Server)
    requires Inv(s, Free) && l in s.loops && s.loops[l].queue.phase == Running
    ensures Moves(s, l, steps, s1) && l in s1.loops
    ensures var q, q1 := s.loops[l].queue, s1.loops[l].queue;
            q1.phase == Polling && q1.batch == [] && q1.functions == q.functions && s1.loops[l].active == []
    ensures l != MAIN ==> forall l1 :: l1 in s.loops && l1 != l ==> NonePosted(s, s1, l1)
    decreases |s.loops[l].queue.batch|
  {
    hide Inv, Moves;
    LoopFacts(s, l);
    if s.loops[l].queue.batch == [] {
      steps, s1 := [QueueStep(l, EndBatch)], Take(s, QueueStep(l, EndBatch));
      MovesOnce(s, l, QueueStep(l, EndBatch));
      return;
    }
    NextIsCallable(s, l);
    var step := RunNext(l);
    RunNextSpares(s, l);
    var s0 := RunNextMoves(s, l);
    var more;
    more, s1 := FinishTasks(s0, l);
    MovesThen(s, l, [step], s0, more, s1);
    steps := [step] + more;
  }

  lemma RunNextMoves(s: Server, l: LoopId) returns (s1: Server)
    requires Inv(s, Free) && CanTake(s, RunNext(l))
    ensures s1 == Take(s, RunNext(l)) && Moves(s, l, [RunNext(l)], s1) && Inv(s1, Free)
  {
    hide Inv, CanTake, Take, Spares;
    s1 := Take(s, RunNext(l));
    RunNextSpares(s, l);
    MovesOnce(s, l, RunNext(l));
    GoodAfterMove(s, l, [RunNext(l)], s1);
  }

  /** The loop is at `poll` with nothing to do. */
  predicate Idle(s: Server, l: LoopId) {
    l in s.loops && Resting(s.loops[l]) && s.loops[l].queue.functions == []
  }

  /** The loop is at `poll`; something may have been posted to it. */
  predicate Resting(loop: Loop) {
    loop.queue.phase == Polling && loop.queue.batch == [] && loop.active == []
  }

  /** Between `poll` and the swap: the events are handled, and everything queued is run. */
  lemma FinishTurn(s: Server, l: LoopId) returns (steps: seq<Step>, s1: Server)
    requires Inv(s, Free) && l in s.loops && s.loops[l].queue.phase == Handling
    ensures Moves(s, l, steps, s1) && Idle(s1, l)
    ensures forall l1 :: l1 in s.loops && l1 != l && l != MAIN && (l1 != MAIN || s.loops[l].active == []) ==>
              NonePosted(s, s1, l1)
  {
    hide Inv, Moves, NonePosted;
    var s2;
    steps, s2 := FinishEvents(s, l);
    GoodAfterMove(s, l, steps, s2);
    var quiet, s3 := ReadWakeUp(s2, l);
    MovesThen(s, l, steps, s2, quiet, s3);
    steps := steps + quiet;
    GoodAfterMove(s, l, steps, s3);
    LoopFacts(s3, l);
    var swap := QueueStep(l, Swap);
    var s4 := Take(s3, swap);
    MovesOnce(s3, l, swap);
    MovesThen(s, l, steps, s3, [swap], s4);
    steps := steps + [swap];
    GoodAfterMove(s, l, steps, s4);
    var tasks;
    tasks, s1 := FinishTasks(s4, l);
    MovesThen(s, l, steps, s4, tasks, s1);
    steps := steps + tasks;
    forall l1 | l1 in s.loops && l1 != l && l != MAIN && (l1 != MAIN || s.loops[l].active == [])
      ensures NonePosted(s, s1, l1)
    {
      NonePostedThen(s, s2, s3, s4, s1, l1);
    }
  }

  lemma NonePostedThen(s: Server, s2: Server, s3: Server, s4: Server, s1: Server, l1: LoopId)
    requires NonePosted(s, s2, l1) && NonePosted(s4, s1, l1) && l1 in s2.loops && l1 in s3.loops && l1 in s4.loops
    requires s3.loops[l1] == s2.loops[l1] && s4.loops[l1] == s3.loops[l1]
    ensures NonePosted(s, s1, l1)
  {}

  /** The wake channel, if it is active, reads the eventfd. */
  lemma ReadWakeUp(s: Server, l: LoopId) returns (steps: seq<Step>, s1: Server)
    requires Inv(s, Free) && l in s.loops && s.loops[l].queue.phase == Handling && s.loops[l].active == []
    ensures Moves(s, l, steps, s1) && l in s1.loops && !s1.loops[l].queue.wakeReady
    ensures s1.loops[l].queue.phase == Handling && s1.loops[l].active == []
    ensures forall l1 :: l1 in s.loops && l1 != l ==> l1 in s1.loops && s1.loops[l1] == s.loops[l1]
  {
    hide Inv, Moves;
    LoopFacts(s, l);
    MovesNot(s, l);
    if !s.loops[l].queue.wakeReady {
      return [], s;
    }
    var step := QueueStep(l, ReadWake);
    MovesOnce(s, l, step);
    return [step], Take(s, step);
  }

  /** A loop at `poll` with something queued is woken up. */
  lemma WakeUp(s: Server, l: LoopId) returns (steps: seq<Step>, s1: Server)
    requires Inv(s, Free) && l in s.loops && Resting(s.loops[l]) && s.loops[l].queue.functions != []
    ensures Moves(s, l, steps, s1) && l in s1.loops
    ensures s1.loops[l].queue.phase == Handling && s1.loops[l].active == []
    ensures forall l1 :: l1 in s.loops && l1 != l ==> l1 in s1.loops && s1.loops[l1] == s.loops[l1]
  {
    hide Inv, Moves;
    LoopFacts(s, l);
    MovesNot(s, l);
    steps, s1 := [], s;
    if s.loops[l].queue.counter == 0 {
      MovesOnce(s, l, QueueStep(l, Wake));
      steps, s1 := [QueueStep(l, Wake)], Take(s, QueueStep(l, Wake));
    }
    GoodAfterMove(s, l, steps, s1);
    LoopFacts(s1, l);
    var poll := Poll(l, true, []);
    var s2 := Take(s1, poll);
    MovesOnce(s1, l, poll);
    MovesThen(s, l, steps, s1, [poll], s2);
    return steps + [poll], s2;
  }

  /** A loop, left to itself, runs everything it has and comes to rest. */
  lemma Flush(s: Server, l: LoopId) returns (steps: seq<Step>, s1: Server)
    requires Inv(s, Free) && l in s.loops
    ensures Moves(s, l, steps, s1) && Idle(s1, l)
    ensures forall l1 :: l1 in s.loops && l1 != l && l != MAIN && (l1 != MAIN || s.loops[l].active == []) ==>
              NonePosted(s, s1, l1)
  {
    hide Inv, Moves;
    LoopFacts(s, l);
    if s.loops[l].queue.phase == Handling {
      steps, s1 := FinishTurn(s, l);
      return;
    }
    MovesNot(s, l);
    steps, s1 := [], s;
    if s.loops[l].queue.phase == Running {
      steps, s1 := FinishTasks(s, l);
      GoodAfterMove(s, l, steps, s1);
    }
    LoopFacts(s1, l);
    if s1.loops[l].queue.functions != [] {
      var more, s2 := WakeUp(s1, l);
      MovesThen(s, l, steps, s1, more, s2);
      steps := steps + more;
      GoodAfterMove(s, l, steps, s2);
      var last, s3 := FinishTurn(s2, l);
      MovesThen(s, l, steps, s2, last, s3);
      steps, s1 := steps + last, s3;
    }
  }

  // ---------------------------------------------------------------- all loops together

  /** A step that some loop takes by itself. */
  predicate Own(step: Step) {
    (step.QueueStep? || step.Poll? || step.BeginEvent? || step.MakeCall? || step.EndEvent? || step.RunNext?)
    && OwnOf(step.loop, step)
  }

  /** The loops, left to themselves, lead from one good state to another. */
  ghost predicate Settles(s: Server, steps: seq<Step>, s1: Server) {
    && Reaches(s, steps, s1) && Inv(s1, Free) && Evolves(s, s1) && s1.loops.Keys == s.loops.Keys
    && forall i :: 0 <= i < |steps| ==> Own(steps[i])
  }

  lemma SettlesThen(s: Server, first: seq<Step>, s1: Server, second: seq<Step>, s2: Server)
    requires Settles(s, first, s1) && Settles(s1, second, s2)
    ensures Settles(s, first + second, s2)
  {
    hide Reaches, Inv, Evolves, Own;
    ReachesThen(s, first, s1, second, s2);
    EvolvesThen(s, s1, s2);
  }

  lemma MoveSettles(s: Server, l: LoopId, steps: seq<Step>, s1: Server)
    requires Moves(s, l, steps, s1)
    ensures Settles(s, steps, s1) && Spares(s, s1, l) && Inv(s1, Free)
  {
    hide Reaches, Inv, Evolves, SparesLoop;
  }

  /** Every loop of `todo` is flushed; the other I/O loops keep their rest. */
  lemma {:induction false} FlushAll(s: Server, todo: set<LoopId>) returns (steps: seq<Step>, s1: Server)
    requires Inv(s, Free) && todo <= s.loops.Keys && MAIN !in todo
    ensures Settles(s, steps, s1) && Inv(s1, Free)
    ensures forall l :: l in todo ==> Idle(s1, l)
    ensures forall l :: l in s.loops && l != MAIN && Idle(s, l) ==> Idle(s1, l)
    ensures Idle(s, MAIN) && (forall l :: l in todo ==> s.loops[l].active == []) ==> Idle(s1, MAIN)
    decreases |todo|
  {
    hide Inv, Settles, Moves, SparesLoop, Resting;
    if todo == {} {
      SettlesNot(s);
      return [], s;
    }
    var l :| l in todo;
    var first, s0 := Flush(s, l);
    MoveSettles(s, l, first, s0);
    forall l1 | l1 in s.loops && l1 != l ensures l1 in s0.loops && s0.loops[l1].active == s.loops[l1].active {
      SparedLoop(s, s0, l, l1);
    }
    forall l1 | l1 in s.loops && l1 != l && Idle(s, l1) && NonePosted(s, s0, l1) ensures Idle(s0, l1) {
      StaysIdle(s, s0, l, l1);
    }
    var more;
    more, s1 := FlushAll(s0, todo - {l});
    SettlesThen(s, first, s0, more, s1);
    steps := first + more;
  }

  lemma SettlesNot(s: Server)
    requires Inv(s, Free)
    ensures Settles(s, [], s)
  {
    hide Inv;
    ReachesSelf(s);
  }

  lemma SparedLoop(s: Server, s1: Server, l: LoopId, l1: LoopId)
    requires Spares(s, s1, l) && l1 in s.loops && l1 != l
    ensures l1 in s1.loops && s1.loops[l1].active == s.loops[l1].active
    ensures Resting(s.loops[l1]) ==> Resting(s1.loops[l1])
  {}

  lemma StaysIdle(s: Server, s1: Server, l: LoopId, l1: LoopId)
    requires Spares(s, s1, l) && l1 != l && Idle(s, l1) && NonePosted(s, s1, l1)
    ensures Idle(s1, l1)
  {}

  /** From any good state the loops alone come to rest with nothing queued anywhere, and then no
      connection is half-way: every accepted one has been established, and every closed one has been
      removed and unregistered. */
  lemma EveryConnectionSettles(s: Server) returns (steps: seq<Step>, s1: Server)
    requires Inv(s, Free)
    ensures Reaches(s, steps, s1) && Inv(s1, Free)
    ensures forall i :: 0 <= i < |steps| ==> Own(steps[i])
    ensures forall l :: l in s1.loops ==> Idle(s1, l)
    ensures forall c :: c in s.conns ==>
              && c in s1.conns && s.conns[c].passed <= s1.conns[c].passed
              && (s.conns[c].stage == Accepted ==> Established in s1.conns[c].passed)
              && (s.conns[c].stage == Closed || s.conns[c].stage == Removed ==> s1.conns[c].stage == Unregistered)
              && (s.conns[c].stage != Deleted ==> s1.conns[c].stage == Established || s1.conns[c].stage == Unregistered)
  {
    hide Inv, Settles, Moves, SparesLoop, Resting, NonePosted, Idle, Own, Reaches;
    MainExists(s);
    var ioLoops := s.loops.Keys - {MAIN};
    var s2, s3;
    steps, s2 := FlushAll(s, ioLoops);
    KeysKept(s, steps, s2);
    var turn;
    turn, s3 := Flush(s2, MAIN);
    MoveSettles(s2, MAIN, turn, s3);
    SettlesThen(s, steps, s2, turn, s3);
    steps := steps + turn;
    KeysKept(s, steps, s3);
    forall l | l in ioLoops ensures s3.loops[l].active == [] {
      SparedLoop(s2, s3, MAIN, l);
      IdleIsQuiet(s2, l);
    }
    turn, s1 := FlushAll(s3, ioLoops);
    SettlesThen(s, steps, s3, turn, s1);
    steps := steps + turn;
    KeysKept(s, steps, s1);
    SettledShape(s, steps, s1);
    forall c | c in s.conns
      ensures s.conns[c].stage == Accepted ==> Established in s1.conns[c].passed
      ensures s.conns[c].stage == Closed || s.conns[c].stage == Removed ==> s1.conns[c].stage == Unregistered
      ensures s.conns[c].stage != Deleted ==> s1.conns[c].stage == Established || s1.conns[c].stage == Unregistered
    {
      NothingIsDue(s, c);
      NothingIsDue(s1, c);
    }
  }

  lemma MainExists(s: Server)
    requires Inv(s, Free)
    ensures MAIN in s.loops
  {}

  lemma KeysKept(s: Server, steps: seq<Step>, s1: Server)
    requires Settles(s, steps, s1)
    ensures s1.loops.Keys == s.loops.Keys && Inv(s1, Free)
  {}

  lemma IdleIsQuiet(s: Server, l: LoopId)
    requires Idle(s, l)
    ensures s.loops[l].active == []
  {}

  lemma SettledShape(s: Server, steps: seq<Step>, s1: Server)
    requires Settles(s, steps, s1)
    ensures Reaches(s, steps, s1) && (forall i :: 0 <= i < |steps| ==> Own(steps[i]))
    ensures forall c :: c in s.conns ==>
              && c in s1.conns && s.conns[c].passed <= s1.conns[c].passed
              && (s1.conns[c].stage == Deleted ==> s.conns[c].stage == Deleted)
  {
    hide Reaches, Inv, Own;
  }

  /** When all loops are idle no connection waits for a task. */
  lemma NothingIsDue(s: Server, c: ConnId)
    requires Inv(s, Free) && c in s.conns
    ensures s.conns[c].passed == Path(s.conns[c].stage)
    ensures (forall l :: l in s.loops ==> Idle(s, l)) ==>
              s.conns[c].stage != Accepted && s.conns[c].stage != Closed && s.conns[c].stage != Removed
  {
    hide LoopOk, FdsOk, ConnRegistered, Made;
    assert ConnOk(s, Free, c, s.conns[c]);
  }
}
