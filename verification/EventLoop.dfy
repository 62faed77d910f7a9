/**
 The cross-thread task queue of base/src/Eventloop.cpp:45-137 as a labelled transition system: one
 step per atomic action of the loop thread or of a thread that posts to it.
 */
module EventLoops {

  /** Where the loop thread is: at `poll`, between `poll` and the swap, or running the batch. */
  datatype Phase = Polling | Handling | Running

  /** `functions` is the mutex-protected queue, `counter` the eventfd, `wakers` the number of posters
      between their push and their `wakeup`, `wakeReady` whether the wake channel is active and not
      yet handled.  `log` and `executed` are histories. */
  datatype Queue<T> = Queue(
    phase: Phase,
    wakeReady: bool,
    functions: seq<T>,
    counter: nat,
    wakers: nat,
    batch: seq<T>,
    executed: seq<T>,
    log: seq<T>)

  datatype Event<T> =
    | Post(task: T)
    | Wake
    | PollReturns(wake: bool)
    | ReadWake
    | Swap
    | RunTask
    | EndBatch

  function Empty<T>(): Queue<T> {
    Queue(Polling, false, [], 0, 0, [], [], [])
  }

  /** `poll` reports the eventfd only while it is readable; it may also return for other reasons. */
  predicate Enabled<T>(q: Queue<T>, e: Event<T>) {
    match e
    case Post(_) => true
    case Wake => q.wakers > 0
    case PollReturns(wake) => q.phase == Polling && (wake ==> q.counter > 0)
    case ReadWake => q.phase == Handling && q.wakeReady
    case Swap => q.phase == Handling && !q.wakeReady
    case RunTask => q.phase == Running && q.batch != []
    case EndBatch => q.phase == Running && q.batch == []
  }

  function Apply<T>(q: Queue<T>, e: Event<T>): Queue<T>
    requires Enabled(q, e)
  {
    match e
    case Post(task) => q.(functions := q.functions + [task], log := q.log + [task], wakers := q.wakers + 1)
    case Wake => q.(wakers := q.wakers - 1, counter := q.counter + 1)
    case PollReturns(wake) => q.(phase := Handling, wakeReady := wake)
    case ReadWake => q.(wakeReady := false, counter := 0)
    case Swap => q.(phase := Running, batch := q.functions, functions := [])
    case RunTask => q.(batch := q.batch[1..], executed := q.executed + [q.batch[0]])
    case EndBatch => q.(phase := Polling)
  }

  /** Queued tasks are never forgotten by a sleeping loop, and tasks run once each, in the order in
      which the mutex let them in. */
  predicate QueueInv<T(==)>(q: Queue<T>) {
    && q.executed + q.batch + q.functions == q.log
    && (q.functions != [] ==> q.counter > 0 || q.wakers > 0 || q.phase == Handling)
    && (q.batch != [] ==> q.phase == Running)
    && (q.wakeReady ==> q.phase == Handling && q.counter > 0)
  }

  function PostOf<T>(e: Event<T>): seq<T> {
    if e.Post? then [e.task] else []
  }

  lemma ApplyLogs<T>(q: Queue<T>, e: Event<T>)
    requires Enabled(q, e)
    ensures Apply(q, e).log == q.log + PostOf(e)
  {}

  lemma ApplyKeepsInv<T>(q: Queue<T>, e: Event<T>)
    requires QueueInv(q) && Enabled(q, e)
    ensures QueueInv(Apply(q, e))
  {}

  // ---------------------------------------------------------------- runs

  predicate Legal<T>(q: Queue<T>, events: seq<Event<T>>)
    decreases |events|
  {
    events != [] ==> Enabled(q, events[0]) && Legal(Apply(q, events[0]), events[1..])
  }

  function Run<T>(q: Queue<T>, events: seq<Event<T>>): Queue<T>
    requires Legal(q, events)
    decreases |events|
  {
    if events == [] then q else Run(Apply(q, events[0]), events[1..])
  }

  /** The tasks posted during a run, in mutex order. */
  function Posted<T>(events: seq<Event<T>>): seq<T> {
    if events == [] then [] else PostOf(events[0]) + Posted(events[1..])
  }

  lemma {:induction false} RunKeepsInv<T>(q: Queue<T>, events: seq<Event<T>>)
    requires QueueInv(q) && Legal(q, events)
    ensures QueueInv(Run(q, events))
    decreases |events|
  {
    if events != [] {
      ApplyKeepsInv(q, events[0]);
      RunKeepsInv(Apply(q, events[0]), events[1..]);
    }
  }

  lemma {:induction false} RunLogs<T>(q: Queue<T>, events: seq<Event<T>>)
    requires Legal(q, events)
    ensures Run(q, events).log == q.log + Posted(events)
    decreases |events|
  {
    if events != [] {
      var next := Apply(q, events[0]);
      ApplyLogs(q, events[0]);
      RunLogs(next, events[1..]);
      assert next.log + Posted(events[1..]) == q.log + (PostOf(events[0]) + Posted(events[1..]));
    }
  }

  /** In every reachable state, what has run, what is about to run and what is queued make up
      exactly the posts so far; and a queued task has a wake-up coming or a loop already awake. */
  lemma NoLostWakeup<T>(events: seq<Event<T>>)
    requires Legal(Empty<T>(), events)
    ensures var q := Run(Empty<T>(), events);
            && q.executed + q.batch + q.functions == Posted(events)
            && (q.functions != [] ==> q.counter > 0 || q.wakers > 0 || q.phase == Handling)
  {
    RunKeepsInv(Empty<T>(), events);
    RunLogs(Empty<T>(), events);
    assert [] + Posted(events) == Posted(events);
  }

  // ---------------------------------------------------------------- progress

  lemma {:induction false} RunConcat<T>(q: Queue<T>, first: seq<Event<T>>, second: seq<Event<T>>)
    requires Legal(q, first) && Legal(Run(q, first), second)
    ensures Legal(q, first + second) && Run(q, first + second) == Run(Run(q, first), second)
    decreases |first|
  {
    if first == [] {
      assert first + second == second;
    } else {
      assert (first + second)[0] == first[0] && (first + second)[1..] == first[1..] + second;
      RunConcat(Apply(q, first[0]), first[1..], second);
    }
  }

  /** The steps that are the loop thread's own. */
  predicate OwnSteps<T>(events: seq<Event<T>>) {
    forall i :: 0 <= i < |events| ==> !events[i].Post? && !events[i].Wake?
  }

  lemma {:induction false} FinishBatch<T>(q: Queue<T>) returns (events: seq<Event<T>>)
    requires q.phase == Running
    ensures Legal(q, events) && OwnSteps(events) && |events| == |q.batch| + 1
    ensures Run(q, events) == q.(phase := Polling, batch := [], executed := q.executed + q.batch)
    decreases |q.batch|
  {
    if q.batch == [] {
      events := [EndBatch];
      assert q.executed + [] == q.executed;
      assert Run(Apply(q, EndBatch), events[1..]) == Apply(q, EndBatch);
    } else {
      var next := Apply(q, RunTask);
      var tail := FinishBatch(next);
      events := [RunTask] + tail;
      assert events[1..] == tail;
      assert next.executed + next.batch == q.executed + q.batch;
    }
  }

  lemma FromHandling<T>(q: Queue<T>) returns (events: seq<Event<T>>)
    requires q.phase == Handling && q.batch == []
    ensures Legal(q, events) && OwnSteps(events)
    ensures var r := Run(q, events);
            && r.phase == Polling && r.batch == [] && r.functions == []
            && r.executed == q.executed + q.functions && r.wakers == q.wakers
            && |events| <= |q.functions| + 3
  {
    var quiet := if q.wakeReady then Apply(q, ReadWake) else q;
    var swapped := Apply(quiet, Swap);
    var tail := FinishBatch(swapped);
    RunFirst(quiet, Swap, tail);
    events := [Swap] + tail;
    if q.wakeReady {
      RunFirst(q, ReadWake, events);
      events := [ReadWake] + events;
    }
  }

  lemma RunFirst<T>(q: Queue<T>, e: Event<T>, tail: seq<Event<T>>)
    requires Enabled(q, e) && Legal(Apply(q, e), tail)
    ensures Legal(q, [e] + tail) && Run(q, [e] + tail) == Run(Apply(q, e), tail)
  {}

  /** However the loop got where it is, if no poster is half-way then its own steps alone run every
      task posted so far: it is never asleep with work queued. */
  lemma EveryPostRuns<T>(q: Queue<T>) returns (events: seq<Event<T>>)
    requires QueueInv(q) && q.wakers == 0
    ensures Legal(q, events) && OwnSteps(events)
    ensures Run(q, events).executed == q.log
    ensures |events| <= |q.batch| + |q.functions| + 5
  {
    hide Run, Legal;
    if q.phase == Handling {
      events := FromHandling(q);
      assert q.executed + q.batch + q.functions == q.executed + q.functions;
    } else if q.phase == Polling {
      events := FromPolling(q);
    } else {
      var front := FinishBatch(q);
      var idle := Run(q, front);
      RunKeepsInv(q, front);
      RunLogs(q, front);
      OwnStepsPostNothing(front);
      var tail := FromPolling(idle);
      RunConcat(q, front, tail);
      events := front + tail;
    }
  }

  lemma FromPolling<T>(q: Queue<T>) returns (events: seq<Event<T>>)
    requires QueueInv(q) && q.wakers == 0 && q.phase == Polling
    ensures Legal(q, events) && OwnSteps(events)
    ensures Run(q, events).executed == q.log
    ensures |events| <= |q.functions| + 4
  {
    assert q.executed + q.batch + q.functions == q.executed + q.functions;
    if q.functions == [] {
      events := [];
    } else {
      var awake := Apply(q, PollReturns(true));
      var tail := FromHandling(awake);
      RunFirst(q, PollReturns(true), tail);
      events := [PollReturns(true)] + tail;
    }
  }

  lemma {:induction false} OwnStepsPostNothing<T>(events: seq<Event<T>>)
    requires OwnSteps(events)
    ensures Posted(events) == []
  {
    if events != [] {
      OwnStepsPostNothing(events[1..]);
    }
  }

  // ---------------------------------------------------------------- the loop object

  /** What one turn of `loop` meets: whether `poll` reports the eventfd, the tasks other threads post
      before the swap, and those they post while each task of the batch runs. */
  datatype Round<T> = Round(wake: bool, early: seq<T>, late: seq<seq<T>>)

  /** The tasks posted while the first `n` tasks of a batch run. */
  function Late<T>(late: seq<seq<T>>, n: nat): seq<T> {
    if n == 0 then [] else Late(late, n - 1) + if n - 1 < |late| then late[n - 1] else []
  }

  /** Every batch of late posts is there, one behind the other. */
  lemma {:induction false} LateIsComplete<T>(late: seq<seq<T>>, n: nat, i: nat)
    requires i < n <= |late|
    ensures |Late(late, i)| + |late[i]| <= |Late(late, n)|
    ensures Late(late, n)[|Late(late, i)|..|Late(late, i)| + |late[i]|] == late[i]
    ensures Late(late, n)[..|Late(late, i)|] == Late(late, i)
  {
    if i + 1 < n {
      LateIsComplete(late, n - 1, i);
    }
  }

  /** `events` is a run of the transition system from `q` to `r`. */
  predicate Leads<T(==)>(q: Queue<T>, events: seq<Event<T>>, r: Queue<T>) {
    Legal(q, events) && Run(q, events) == r
  }

  lemma LeadsThen<T>(q: Queue<T>, first: seq<Event<T>>, r: Queue<T>, second: seq<Event<T>>, last: Queue<T>)
    requires Leads(q, first, r) && Leads(r, second, last)
    ensures Leads(q, first + second, last)
  {
    RunConcat(q, first, second);
  }

  lemma OneStep<T>(q: Queue<T>, e: Event<T>)
    requires Enabled(q, e)
    ensures Leads(q, [e], Apply(q, e))
  {}

  /** The task queue of one loop.  Each method takes the steps of the transition system that it
      returns; what other threads do meanwhile is its parameter. */
  class EventLoop<T(==)> {
    var phase: Phase
    var wakeReady: bool
    var functions: seq<T>
    var counter: nat
    var wakers: nat
    var batch: seq<T>
    ghost var executed: seq<T>
    ghost var log: seq<T>

    ghost function State(): Queue<T>
      reads this
    {
      Queue(phase, wakeReady, functions, counter, wakers, batch, executed, log)
    }

    constructor ()
      ensures State() == Empty()
    {
      phase, wakeReady, functions, counter, wakers, batch := Polling, false, [], 0, 0, [];
      executed, log := [], [];
    }

    /** `runInLoop`: on the loop's own thread the task runs at once and nothing is queued; on another,
        it is pushed under the mutex and the loop woken up. */
    method RunInLoop(task: T, inLoopThread: bool) returns (ran: bool, ghost events: seq<Event<T>>)
      modifies this
      ensures ran == inLoopThread
      ensures Leads(old(State()), events, State())
      ensures ran ==> State() == old(State()) && events == []
      ensures !ran ==>
                functions == old(functions) + [task] && log == old(log) + [task] && counter == old(counter) + 1
      ensures phase == old(phase) && wakeReady == old(wakeReady) && wakers == old(wakers)
      ensures batch == old(batch) && executed == old(executed)
    {
      ghost var q := State();
      if inLoopThread {
        return true, [];
      }
      OneStep(q, Post(task));
      functions, log, wakers := functions + [task], log + [task], wakers + 1;
      ghost var pushed := State();
      OneStep(pushed, Wake);
      wakers, counter := wakers - 1, counter + 1;
      LeadsThen(q, [Post(task)], pushed, [Wake], State());
      return false, [Post(task)] + [Wake];
    }

    /** Other threads post `tasks`. */
    method RunAllInLoop(tasks: seq<T>) returns (ghost events: seq<Event<T>>)
      modifies this
      ensures Leads(old(State()), events, State())
      ensures functions == old(functions) + tasks && log == old(log) + tasks && counter >= old(counter)
      ensures phase == old(phase) && wakeReady == old(wakeReady) && wakers == old(wakers)
      ensures batch == old(batch) && executed == old(executed)
    {
      hide Leads;
      ghost var q := State();
      Nothing(q);
      events := [];
      var i := 0;
      while i < |tasks|
        invariant i <= |tasks| && Leads(q, events, State())
        invariant functions == old(functions) + tasks[..i] && log == old(log) + tasks[..i] && counter >= old(counter)
        invariant phase == old(phase) && wakeReady == old(wakeReady) && wakers == old(wakers)
        invariant batch == old(batch) && executed == old(executed)
      {
        ghost var before := State();
        var _, more := RunInLoop(tasks[i], false);
        LeadsThen(q, events, before, more, State());
        events := events + more;
        i := i + 1;
      }
    }

    static lemma Nothing(q: Queue<T>)
      ensures Leads(q, [], q)
    {}

    /** Reading the eventfd resets its counter. */
    method HandleWakeEvent()
      requires Enabled(State(), ReadWake)
      modifies this`wakeReady, this`counter
      ensures State() == Apply(old(State()), ReadWake) && !wakeReady && counter == 0
    {
      wakeReady, counter := false, 0;
    }

    /** The first task of the batch runs, while other threads post `posts`. */
    method RunHead(posts: seq<T>) returns (ghost events: seq<Event<T>>)
      requires phase == Running && batch != []
      modifies this
      ensures Leads(old(State()), events, State())
      ensures phase == Running && wakeReady == old(wakeReady) && wakers == old(wakers)
      ensures batch == old(batch)[1..] && executed == old(executed) + [old(batch)[0]]
      ensures functions == old(functions) + posts && log == old(log) + posts
    {
      hide Leads;
      ghost var before := State();
      OneStep(before, RunTask);
      batch, executed := batch[1..], executed + [batch[0]];
      ghost var ran := State();
      ghost var more := RunAllInLoop(posts);
      LeadsThen(before, [RunTask], ran, more, State());
      events := [RunTask] + more;
    }

    /** `doFunctions`: swaps the queue out under the mutex and runs exactly what was queued then, in
        order; what is posted meanwhile stays queued. */
    method DoFunctions(late: seq<seq<T>>) returns (ghost events: seq<Event<T>>)
      requires Enabled(State(), Swap)
      modifies this
      ensures Leads(old(State()), events, State())
      ensures phase == Polling && !wakeReady && batch == [] && wakers == old(wakers)
      ensures executed == old(executed) + old(functions)
      ensures functions == Late(late, |old(functions)|) && log == old(log) + functions
    {
      hide Leads;
      ghost var q, tasks := State(), functions;
      OneStep(q, Swap);
      phase, batch, functions := Running, functions, [];
      events := [Swap];
      var n := 0;
      while batch != []
        invariant n <= |tasks| && batch == tasks[n..] && executed == old(executed) + tasks[..n]
        invariant phase == Running && !wakeReady && wakers == old(wakers)
        invariant functions == Late(late, n) && log == old(log) + functions
        invariant Leads(q, events, State())
        decreases |batch|
      {
        ghost var before := State();
        ghost var more := RunHead(if n < |late| then late[n] else []);
        LeadsThen(q, events, before, more, State());
        events := events + more;
        n := n + 1;
      }
      ghost var last := State();
      OneStep(last, EndBatch);
      phase := Polling;
      LeadsThen(q, events, last, [EndBatch], State());
      events := events + [EndBatch];
    }

    /** One turn of `loop`, in a state the loop can be in. */
    method LoopOnce(round: Round<T>) returns (ghost events: seq<Event<T>>)
      requires QueueInv(State()) && phase == Polling
      modifies this
      ensures Leads(old(State()), events, State())
      ensures QueueInv(State()) && phase == Polling && wakers == old(wakers)
      ensures executed == old(executed) + (old(functions) + round.early)
      ensures functions == Late(round.late, |old(functions) + round.early|)
      ensures log == old(log) + round.early + functions
    {
      hide Leads;
      ghost var q := State();
      var wake := round.wake && counter > 0;
      OneStep(q, PollReturns(wake));
      phase, wakeReady := Handling, wake;
      events := [PollReturns(wake)];
      if wakeReady {
        ghost var polled := State();
        OneStep(polled, ReadWake);
        HandleWakeEvent();
        LeadsThen(q, events, polled, [ReadWake], State());
        events := events + [ReadWake];
      }
      ghost var before := State();
      ghost var more := RunAllInLoop(round.early);
      LeadsThen(q, events, before, more, State());
      events := events + more;
      before := State();
      more := DoFunctions(round.late);
      LeadsThen(q, events, before, more, State());
      events := events + more;
      InvAfter(q, events, State());
    }

    static lemma InvAfter(q: Queue<T>, events: seq<Event<T>>, r: Queue<T>)
      requires QueueInv(q) && Leads(q, events, r)
      ensures QueueInv(r)
    {
      RunKeepsInv(q, events);
    }
  }
}
