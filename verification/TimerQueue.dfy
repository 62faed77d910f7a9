/**
 The timer queue of base/include/TimerQueue.h and base/include/Timer.h.  Times are microseconds; an
 interval is its truncated number of microseconds.  A timer object has an address, which the
 allocator may use again after it is deleted, and a serial number that no other timer ever has.
 */
module TimerQueues {
  import opened Orders

  type Time = int
  type Address = nat

  datatype Timer = Timer(serial: nat, expiration: Time, delta: nat, repeat: bool)

  /** An entry of the ordered set. */
  datatype Entry = Entry(at: Time, timer: Address)

  /** A request to add a timer. */
  datatype NewTimer = NewTimer(when: Time, delta: nat, repeat: bool)

  /** One run of a timer: when the clock was read for the pass, and when it was due. */
  datatype Firing = Firing(serial: nat, at: Time, due: Time, delta: nat, repeat: bool)

  /** `std::pair` order. */
  predicate Before(a: Entry, b: Entry) {
    a.at < b.at || (a.at == b.at && a.timer < b.timer)
  }

  /** In front of the sentinel `(now, UINTPTR_MAX)`, an address no timer has. */
  predicate Due(e: Entry, now: Time) {
    e.at <= now
  }

  lemma EntriesAreOrdered()
    ensures StrictTotal(Before)
  {}

  lemma {:induction false} FreshAddress(used: set<Address>) returns (a: Address)
    ensures forall u :: u in used ==> u < a
    decreases |used|
  {
    if used == {} {
      return 0;
    }
    var x :| x in used;
    var b := FreshAddress(used - {x});
    a := if x < b then b else x + 1;
    assert forall u :: u in used ==> u == x || u in used - {x};
  }

  /** Earlier runs of the same timer leave room for a run that is due at `t.expiration`. */
  predicate Unfired(t: Timer, log: seq<Firing>) {
    forall i :: 0 <= i < |log| && log[i].serial == t.serial ==>
      t.repeat && log[i].at + t.delta <= t.expiration
  }

  /** No run is early; a one-shot timer runs at most once; the runs of a repeating timer are at least
      its interval apart on the cached clock, whatever the clock does. */
  predicate LogOk(log: seq<Firing>) {
    && (forall i :: 0 <= i < |log| ==> log[i].due <= log[i].at)
    && (forall i, j :: 0 <= i < j < |log| && log[i].serial == log[j].serial ==>
          log[i].repeat && log[j].repeat && log[i].delta == log[j].delta && log[i].at + log[i].delta <= log[j].at)
  }

  /** The logged runs of a living timer carry its data, and all serials in use are old. */
  predicate SerialsOk(store: map<Address, Timer>, log: seq<Firing>, nextSerial: nat) {
    && (forall a :: a in store ==> store[a].serial < nextSerial)
    && (forall a, b :: a in store && b in store && a != b ==> store[a].serial != store[b].serial)
    && (forall i :: 0 <= i < |log| ==> log[i].serial < nextSerial)
    && (forall a, i :: a in store && 0 <= i < |log| && log[i].serial == store[a].serial ==>
          log[i].delta == store[a].delta && log[i].repeat == store[a].repeat)
  }

  /** A queued entry is a living timer under its own expiration, with room for its next run. */
  predicate QueuedOk(e: Entry, store: map<Address, Timer>, log: seq<Firing>) {
    e.timer in store && store[e.timer].expiration == e.at && Unfired(store[e.timer], log)
  }

  function AsTimer(n: NewTimer, serial: nat): Timer {
    Timer(serial, n.when, n.delta, n.repeat)
  }

  lemma NoneDue(first: Entry, entries: set<Entry>, now: Time)
    requires IsFirst(Before, first, entries) && !Due(first, now)
    ensures forall e :: e in entries ==> !Due(e, now)
  {}

  lemma FirstDecides(first: Entry, entries: set<Entry>)
    requires IsFirst(Before, first, entries)
    ensures first in entries && forall e :: e in entries ==> first.at <= e.at
  {}

  /** `expired` names the timers of the entries `taken`. */
  predicate Listed(expired: seq<Address>, taken: seq<Entry>) {
    |expired| == |taken| && forall i :: 0 <= i < |taken| ==> taken[i].timer == expired[i]
  }

  predicate Ordered(taken: seq<Entry>) {
    forall i, j :: 0 <= i < j < |taken| ==> Before(taken[i], taken[j])
  }

  /** `taken` are the due entries of `timers`, and `rest` the others. */
  ghost predicate Splits(timers: set<Entry>, now: Time, rest: set<Entry>, taken: seq<Entry>) {
    && (forall e :: e in rest <==> e in timers && !Due(e, now))
    && (forall e :: e in taken <==> e in timers && Due(e, now))
  }

  /** The first entries, all due, have been taken. */
  ghost predicate PartlyTaken(timers: set<Entry>, now: Time, rest: set<Entry>, taken: seq<Entry>) {
    && (forall e :: e in timers <==> e in rest || e in taken)
    && (forall e :: e in taken ==> e !in rest && Due(e, now))
    && (forall i, e :: 0 <= i < |taken| && e in rest ==> Before(taken[i], e))
    && Ordered(taken)
  }

  lemma TakeOneMore(timers: set<Entry>, now: Time, rest: set<Entry>, taken: seq<Entry>, first: Entry)
    requires PartlyTaken(timers, now, rest, taken) && IsFirst(Before, first, rest) && Due(first, now)
    ensures PartlyTaken(timers, now, rest - {first}, taken + [first])
  {}

  lemma PartlyIsSplit(timers: set<Entry>, now: Time, rest: set<Entry>, taken: seq<Entry>)
    requires PartlyTaken(timers, now, rest, taken) && forall e :: e in rest ==> !Due(e, now)
    ensures Splits(timers, now, rest, taken)
  {}

  predicate Queued(timers: set<Entry>, a: Address) {
    exists e :: e in timers && e.timer == a
  }

  /** The timer lives and is queued. */
  ghost predicate IsQueued(timers: set<Entry>, store: map<Address, Timer>, t: Timer) {
    exists a :: a in store && store[a] == t && Entry(t.expiration, a) in timers
  }

  /** Living timers stay as they are. */
  predicate Grows(store: map<Address, Timer>, store1: map<Address, Timer>) {
    forall a :: a in store ==> a in store1 && store1[a] == store[a]
  }

  function FiringOf(t: Timer, now: Time): Firing {
    Firing(t.serial, now, t.expiration, t.delta, t.repeat)
  }

  predicate Runnable(t: Timer, log: seq<Firing>, now: Time) {
    t.expiration <= now && Unfired(t, log)
  }

  predicate HasRun(t: Timer, log: seq<Firing>, now: Time) {
    forall i :: 0 <= i < |log| && log[i].serial == t.serial ==> log[i].at <= now
  }

  /** Running a due timer keeps the log in order. */
  lemma FireKeepsLog(store: map<Address, Timer>, log: seq<Firing>, nextSerial: nat, a: Address, now: Time)
    requires SerialsOk(store, log, nextSerial) && LogOk(log)
    requires a in store && Runnable(store[a], log, now)
    ensures var log1 := log + [FiringOf(store[a], now)];
            SerialsOk(store, log1, nextSerial) && LogOk(log1)
  {}

  /** It leaves the other timers their room. */
  lemma FireKeepsRoom(store: map<Address, Timer>, log: seq<Firing>, nextSerial: nat, a: Address, now: Time)
    requires SerialsOk(store, log, nextSerial) && LogOk(log)
    requires a in store && Runnable(store[a], log, now)
    ensures var log1 := log + [FiringOf(store[a], now)];
            && HasRun(store[a], log1, now)
            && (forall b :: b in store && b != a ==>
                  (Unfired(store[b], log) ==> Unfired(store[b], log1))
                  && (HasRun(store[b], log, now) ==> HasRun(store[b], log1, now)))
  {}

  /** A new timer under a fresh serial fits in. */
  lemma AddKeeps(
      timers: set<Entry>, store: map<Address, Timer>, log: seq<Firing>, nextSerial: nat, address: Address, n: NewTimer)
    requires SerialsOk(store, log, nextSerial) && address !in store
    requires forall e :: e in timers ==> QueuedOk(e, store, log)
    ensures var t := AsTimer(n, nextSerial);
            && SerialsOk(store[address := t], log, nextSerial + 1)
            && (forall e :: e in timers ==> QueuedOk(e, store[address := t], log))
            && QueuedOk(Entry(n.when, address), store[address := t], log)
  {}

  /** Walks the ordered entries up to the sentinel. */
  method TakeDue(timers: set<Entry>, now: Time)
    returns (expired: seq<Address>, rest: set<Entry>, ghost taken: seq<Entry>)
    ensures Listed(expired, taken) && Ordered(taken) && Splits(timers, now, rest, taken)
    ensures forall e :: e in rest <==> e in timers && !Due(e, now)
  {
    expired, taken := [], [];
    rest := timers;
    while rest != {}
      invariant Listed(expired, taken)
      invariant PartlyTaken(timers, now, rest, taken)
      decreases rest
    {
      EntriesAreOrdered();
      ghost var w := FirstExists(Before, rest);
      var first :| first in rest && IsFirst(Before, first, rest);
      if !Due(first, now) {
        NoneDue(first, rest, now);
        PartlyIsSplit(timers, now, rest, taken);
        return;
      }
      TakeOneMore(timers, now, rest, taken, first);
      expired := expired + [first.timer];
      taken := taken + [first];
      rest := rest - {first};
    }
    PartlyIsSplit(timers, now, rest, taken);
  }

  /** A pass under way: the first `done` of the `expired` timers have run.  The expired ones live but
      are not queued, the other living timers are; each has room for the run still to come, or has run
      by now. */
  ghost predicate Passing(
      timers: set<Entry>, store: map<Address, Timer>, log: seq<Firing>, now: Time, expired: seq<Address>, done: nat)
  {
    && (forall e :: e in timers ==> QueuedOk(e, store, log))
    && (forall i, j :: 0 <= i < j < |expired| ==> expired[i] != expired[j])
    && (forall i :: 0 <= i < |expired| ==> expired[i] in store && !Queued(timers, expired[i]))
    && (forall i :: done <= i < |expired| ==> Runnable(store[expired[i]], log, now))
    && (forall i :: 0 <= i < done && i < |expired| ==> HasRun(store[expired[i]], log, now))
    && (forall a :: a in store ==> a in expired || Entry(store[a].expiration, a) in timers)
  }

  lemma PassingAfterRun(
      timers: set<Entry>, store: map<Address, Timer>, log: seq<Firing>, nextSerial: nat, now: Time,
      expired: seq<Address>, done: nat)
    requires Passing(timers, store, log, now, expired, done) && done < |expired|
    requires SerialsOk(store, log, nextSerial) && LogOk(log)
    ensures expired[done] in store
    ensures var log1 := log + [FiringOf(store[expired[done]], now)];
            Passing(timers, store, log1, now, expired, done + 1) && SerialsOk(store, log1, nextSerial) && LogOk(log1)
            && forall e :: e in timers ==> QueuedOk(e, store, log1)
  {
    hide LogOk, SerialsOk, Unfired, HasRun;
    var a := expired[done];
    FireKeepsLog(store, log, nextSerial, a, now);
    FireKeepsRoom(store, log, nextSerial, a, now);
    var log1 := log + [FiringOf(store[a], now)];
    forall e | e in timers ensures QueuedOk(e, store, log1) {
      assert QueuedOk(e, store, log) && e.timer != a;
    }
  }

  lemma PassingAfterAdd(
      timers: set<Entry>, store: map<Address, Timer>, log: seq<Firing>, nextSerial: nat, now: Time,
      expired: seq<Address>, done: nat, a: Address, n: NewTimer)
    requires Passing(timers, store, log, now, expired, done) && a !in store
    requires SerialsOk(store, log, nextSerial)
    ensures var t := AsTimer(n, nextSerial);
            Passing(timers + {Entry(n.when, a)}, store[a := t], log, now, expired, done)
  {}

  lemma StaysQueued(
      timers: set<Entry>, store: map<Address, Timer>, timers1: set<Entry>, store1: map<Address, Timer>, t: Timer)
    requires IsQueued(timers, store, t) && timers <= timers1 && Grows(store, store1)
    ensures IsQueued(timers1, store1, t)
  {}

  /** The runs of a pass. */
  function Firings(taken: seq<Entry>, store: map<Address, Timer>, now: Time): seq<Firing>
    requires forall i :: 0 <= i < |taken| ==> taken[i].timer in store
  {
    seq(|taken|, i requires 0 <= i < |taken| => FiringOf(store[taken[i].timer], now))
  }

  function AskedBy(t: Timer, script: map<nat, seq<NewTimer>>): seq<NewTimer> {
    if t.serial in script then script[t.serial] else []
  }

  /** The timers the callbacks of a pass add, in order. */
  function Asked(taken: seq<Entry>, store: map<Address, Timer>, script: map<nat, seq<NewTimer>>): seq<NewTimer>
    requires forall i :: 0 <= i < |taken| ==> taken[i].timer in store
  {
    if taken == [] then []
    else Asked(taken[..|taken| - 1], store, script) + AskedBy(store[taken[|taken| - 1].timer], script)
  }

  lemma FiringsExtend(taken: seq<Entry>, store: map<Address, Timer>, now: Time, i: nat)
    requires forall k :: 0 <= k < |taken| ==> taken[k].timer in store
    requires i < |taken|
    ensures Firings(taken[..i + 1], store, now)
            == Firings(taken[..i], store, now) + [FiringOf(store[taken[i].timer], now)]
  {}

  lemma Nothing(taken: seq<Entry>, store: map<Address, Timer>, now: Time, script: map<nat, seq<NewTimer>>)
    ensures Firings(taken[..0], store, now) == [] && Asked(taken[..0], store, script) == []
  {}

  lemma AskedExtend(taken: seq<Entry>, store: map<Address, Timer>, script: map<nat, seq<NewTimer>>, i: nat)
    requires forall k :: 0 <= k < |taken| ==> taken[k].timer in store
    requires i < |taken|
    ensures Asked(taken[..i + 1], store, script)
            == Asked(taken[..i], store, script) + AskedBy(store[taken[i].timer], script)
  {
    assert taken[..i + 1][..i] == taken[..i];
  }

  /** The timers asked for live under consecutive serials and are queued. */
  ghost predicate AllQueued(timers: set<Entry>, store: map<Address, Timer>, asked: seq<NewTimer>, serial: nat) {
    forall k :: 0 <= k < |asked| ==> IsQueued(timers, store, AsTimer(asked[k], serial + k))
  }

  lemma AllQueuedExtend(
      timers: set<Entry>, store: map<Address, Timer>, timers1: set<Entry>, store1: map<Address, Timer>,
      asked: seq<NewTimer>, adds: seq<NewTimer>, serial: nat)
    requires AllQueued(timers, store, asked, serial) && AllQueued(timers1, store1, adds, serial + |asked|)
    requires timers <= timers1 && Grows(store, store1)
    ensures AllQueued(timers1, store1, asked + adds, serial)
  {}

  /** Once the due entries are out of the queue, the pass is under way. */
  lemma PassingAtStart(
      timers: set<Entry>, rest: set<Entry>, store: map<Address, Timer>, log: seq<Firing>, now: Time,
      expired: seq<Address>, taken: seq<Entry>)
    requires forall e :: e in timers ==> QueuedOk(e, store, log)
    requires forall a :: a in store ==> Entry(store[a].expiration, a) in timers
    requires Listed(expired, taken) && Ordered(taken) && Splits(timers, now, rest, taken)
    ensures Passing(rest, store, log, now, expired, 0)
  {
    hide Unfired;
    forall i | 0 <= i < |taken| ensures taken[i] in timers && QueuedOk(taken[i], store, log) && Due(taken[i], now) {
      assert taken[i] in taken;
    }
    forall i, j | 0 <= i < j < |expired| ensures expired[i] != expired[j] {
      assert Before(taken[i], taken[j]);
    }
    forall i | 0 <= i < |expired| ensures !Queued(rest, expired[i]) {
      assert expired[i] == taken[i].timer;
      assert forall e :: e in rest && e.timer == expired[i] ==> e == taken[i];
    }
    forall a | a in store ensures a in expired || Entry(store[a].expiration, a) in rest {
      var e := Entry(store[a].expiration, a);
      if Due(e, now) {
        var i :| 0 <= i < |taken| && taken[i] == e;
        assert expired[i] == a;
      }
    }
  }

  function Rearmed(t: Timer, now: Time): Timer {
    t.(expiration := now + t.delta)
  }

  function RequeueTimers(timers: set<Entry>, store: map<Address, Timer>, a: Address, now: Time): set<Entry>
    requires a in store
  {
    if store[a].repeat then timers + {Entry(now + store[a].delta, a)} else timers
  }

  function RequeueStore(store: map<Address, Timer>, a: Address, now: Time): map<Address, Timer>
    requires a in store
  {
    if store[a].repeat then store[a := Rearmed(store[a], now)] else store - {a}
  }

  /** A timer that has run has room for its next run an interval from now. */
  lemma RearmedIsUnfired(t: Timer, store: map<Address, Timer>, log: seq<Firing>, nextSerial: nat, a: Address, now: Time)
    requires a in store && store[a] == t && t.repeat && HasRun(t, log, now) && SerialsOk(store, log, nextSerial)
    ensures Unfired(Rearmed(t, now), log)
  {}

  lemma RequeueKeepsSerials(
      store: map<Address, Timer>, log: seq<Firing>, nextSerial: nat, a: Address, now: Time)
    requires a in store && SerialsOk(store, log, nextSerial)
    ensures SerialsOk(RequeueStore(store, a, now), log, nextSerial)
  {}

  /** Treating the first expired timer leaves the rest of the pass as it was. */
  lemma PassingAfterRequeue(
      timers: set<Entry>, store: map<Address, Timer>, log: seq<Firing>, nextSerial: nat, now: Time,
      expired: seq<Address>)
    requires expired != [] && Passing(timers, store, log, now, expired, |expired|)
    requires SerialsOk(store, log, nextSerial)
    ensures expired[0] in store
    ensures var a := expired[0];
            && SerialsOk(RequeueStore(store, a, now), log, nextSerial)
            && Passing(RequeueTimers(timers, store, a, now), RequeueStore(store, a, now), log, now,
                       expired[1..], |expired| - 1)
            && forall e :: e in RequeueTimers(timers, store, a, now) ==> QueuedOk(e, RequeueStore(store, a, now), log)
  {
    hide Unfired, HasRun;
    var a := expired[0];
    var timers1, store1 := RequeueTimers(timers, store, a, now), RequeueStore(store, a, now);
    RequeueKeepsSerials(store, log, nextSerial, a, now);
    hide SerialsOk;
    if store[a].repeat {
      RearmedIsUnfired(store[a], store, log, nextSerial, a, now);
    }
    forall e | e in timers1 ensures QueuedOk(e, store1, log) {
      if e in timers {
        assert QueuedOk(e, store, log) && e.timer != a;
      }
    }
    forall i | 0 <= i < |expired| - 1 ensures !Queued(timers1, expired[1..][i]) && expired[1..][i] in store1 {
      assert expired[i + 1] != a && !Queued(timers, expired[i + 1]);
    }
    forall b | b in store1 ensures b in expired[1..] || Entry(store1[b].expiration, b) in timers1 {
      if b != a && b in expired {
        var i :| 0 <= i < |expired| && expired[i] == b;
        assert expired[1..][i - 1] == b;
      }
    }
  }

  /** The first `done` expired timers have been armed again or deleted; the others are untouched. */
  predicate Settled(
      store: map<Address, Timer>, store1: map<Address, Timer>, expired: seq<Address>, done: nat, now: Time)
    requires forall i :: 0 <= i < |expired| ==> expired[i] in store
  {
    && (forall i :: 0 <= i < done && i < |expired| ==>
          if store[expired[i]].repeat
          then expired[i] in store1 && store1[expired[i]] == Rearmed(store[expired[i]], now)
          else expired[i] !in store1)
    && (forall a :: a in store && (forall i :: 0 <= i < done && i < |expired| ==> expired[i] != a) ==>
          a in store1 && store1[a] == store[a])
  }

  lemma SettledExtend(
      store: map<Address, Timer>, store1: map<Address, Timer>, expired: seq<Address>, done: nat, now: Time)
    requires forall i :: 0 <= i < |expired| ==> expired[i] in store
    requires forall i, j :: 0 <= i < j < |expired| ==> expired[i] != expired[j]
    requires done < |expired| && Settled(store, store1, expired, done, now)
    ensures expired[done] in store1
    ensures Settled(store, RequeueStore(store1, expired[done], now), expired, done + 1, now)
  {}

  lemma NothingSettled(
      timers: set<Entry>, store: map<Address, Timer>, log: seq<Firing>, now: Time, expired: seq<Address>)
    requires Passing(timers, store, log, now, expired, |expired|)
    ensures forall i :: 0 <= i < |expired| ==> expired[i] in store
    ensures forall i, j :: 0 <= i < j < |expired| ==> expired[i] != expired[j]
    ensures Settled(store, store, expired, 0, now)
  {}

  lemma AllSettled(timers: set<Entry>, store: map<Address, Timer>, log: seq<Firing>, now: Time)
    requires Passing(timers, store, log, now, [], 0)
    ensures forall a :: a in store ==> Entry(store[a].expiration, a) in timers
  {}

  /** The timers the callbacks asked for are not touched. */
  lemma AskedStayQueued(
      timers: set<Entry>, store: map<Address, Timer>, log: seq<Firing>, now: Time, expired: seq<Address>,
      timers1: set<Entry>, store1: map<Address, Timer>, asked: seq<NewTimer>, serial: nat)
    requires AllQueued(timers, store, asked, serial) && Passing(timers, store, log, now, expired, |expired|)
    requires timers <= timers1 && Settled(store, store1, expired, |expired|, now)
    ensures AllQueued(timers1, store1, asked, serial)
  {}

  /** What a pass does to the timers there are when it starts. */
  predicate PassOutcome(store: map<Address, Timer>, store1: map<Address, Timer>, now: Time) {
    forall a :: a in store ==>
      if store[a].expiration > now then a in store1 && store1[a] == store[a]
      else if store[a].repeat then a in store1 && store1[a] == Rearmed(store[a], now)
      else a !in store1
  }

  lemma OutcomeOfPass(
      timers: set<Entry>, store: map<Address, Timer>, log: seq<Firing>, middle: map<Address, Timer>,
      store1: map<Address, Timer>, rest: set<Entry>, taken: seq<Entry>, expired: seq<Address>, now: Time)
    requires forall e :: e in timers ==> QueuedOk(e, store, log)
    requires forall a :: a in store ==> Entry(store[a].expiration, a) in timers
    requires Listed(expired, taken) && Splits(timers, now, rest, taken)
    requires Grows(store, middle)
    requires forall i :: 0 <= i < |expired| ==> expired[i] in middle
    requires Settled(middle, store1, expired, |expired|, now)
    ensures PassOutcome(store, store1, now)
  {
    hide Unfired;
    forall a | a in store
      ensures if store[a].expiration > now then a in store1 && store1[a] == store[a]
              else if store[a].repeat then a in store1 && store1[a] == Rearmed(store[a], now)
              else a !in store1
    {
      var e := Entry(store[a].expiration, a);
      if Due(e, now) {
        var i :| 0 <= i < |taken| && taken[i] == e;
        assert expired[i] == a;
      } else {
        forall i | 0 <= i < |expired| ensures expired[i] != a {
          assert taken[i] in taken && QueuedOk(taken[i], store, log);
        }
      }
    }
  }

  lemma TakenLive(
      timers: set<Entry>, store: map<Address, Timer>, log: seq<Firing>, rest: set<Entry>, taken: seq<Entry>, now: Time)
    requires forall e :: e in timers ==> QueuedOk(e, store, log)
    requires Splits(timers, now, rest, taken)
    ensures forall k :: 0 <= k < |taken| ==> taken[k].timer in store
  {
    forall k | 0 <= k < |taken| ensures taken[k].timer in store {
      assert taken[k] in taken && QueuedOk(taken[k], store, log);
    }
  }

  // ---------------------------------------------------------------- what a pass does, spelled out

  /** The runs of the pass are logged in order, at the cached time. */
  ghost predicate RunsLogged(
      log: seq<Firing>, log1: seq<Firing>, taken: seq<Entry>, store: map<Address, Timer>, now: Time)
    requires forall k :: 0 <= k < |taken| ==> taken[k].timer in store
  {
    && |log1| == |log| + |taken| && log1[..|log|] == log
    && forall k :: 0 <= k < |taken| ==>
         var t := store[taken[k].timer];
         log1[|log| + k] == Firing(t.serial, now, taken[k].at, t.delta, t.repeat)
  }

  lemma FiringsAreLogged(
      timers: set<Entry>, log: seq<Firing>, rest: set<Entry>, taken: seq<Entry>, store: map<Address, Timer>, now: Time)
    requires forall e :: e in timers ==> QueuedOk(e, store, log)
    requires Splits(timers, now, rest, taken)
    requires forall k :: 0 <= k < |taken| ==> taken[k].timer in store
    ensures RunsLogged(log, log + Firings(taken, store, now), taken, store, now)
  {
    hide Unfired;
    forall k | 0 <= k < |taken| ensures store[taken[k].timer].expiration == taken[k].at {
      assert taken[k] in taken && QueuedOk(taken[k], store, log);
    }
  }

  /** A repeating timer that has run is queued again, an interval after the cached time; a one-shot that
      has run is gone; every other timer is as it was. */
  ghost predicate Rescheduled(store: map<Address, Timer>, timers1: set<Entry>, store1: map<Address, Timer>, now: Time) {
    && (forall a :: a in store && store[a].expiration <= now && store[a].repeat ==>
          && a in store1 && store1[a].serial == store[a].serial && store1[a].delta == store[a].delta
          && store1[a].repeat && store1[a].expiration == now + store[a].delta
          && Entry(now + store[a].delta, a) in timers1)
    && (forall a :: a in store && store[a].expiration <= now && !store[a].repeat ==> a !in store1)
    && (forall a :: a in store && store[a].expiration > now ==> a in store1 && store1[a] == store[a])
  }

  lemma OutcomeReschedules(store: map<Address, Timer>, timers1: set<Entry>, store1: map<Address, Timer>, now: Time)
    requires PassOutcome(store, store1, now)
    requires forall a :: a in store1 ==> Entry(store1[a].expiration, a) in timers1
    ensures Rescheduled(store, timers1, store1, now)
  {}

  /** A new timer lives and is queued as it was asked for. */
  ghost predicate Lives(timers: set<Entry>, store: map<Address, Timer>, serial: nat, n: NewTimer) {
    exists a :: a in store && store[a].serial >= serial && store[a].expiration == n.when && store[a].delta == n.delta
                && store[a].repeat == n.repeat && Entry(n.when, a) in timers
  }

  /** Every timer that the callback of a timer that has run asks for. */
  ghost predicate RequestsMet(
      taken: seq<Entry>, store: map<Address, Timer>, script: map<nat, seq<NewTimer>>, serial: nat,
      timers1: set<Entry>, store1: map<Address, Timer>)
    requires forall k :: 0 <= k < |taken| ==> taken[k].timer in store
  {
    forall k, j :: 0 <= k < |taken| && store[taken[k].timer].serial in script
                   && 0 <= j < |script[store[taken[k].timer].serial]| ==>
      Lives(timers1, store1, serial, script[store[taken[k].timer].serial][j])
  }

  lemma {:induction false} RequestIsAsked(
      taken: seq<Entry>, store: map<Address, Timer>, script: map<nat, seq<NewTimer>>, k: nat, j: nat)
      returns (x: nat)
    requires forall i :: 0 <= i < |taken| ==> taken[i].timer in store
    requires k < |taken| && store[taken[k].timer].serial in script && j < |script[store[taken[k].timer].serial]|
    ensures x < |Asked(taken, store, script)|
    ensures Asked(taken, store, script)[x] == script[store[taken[k].timer].serial][j]
    decreases |taken|
  {
    var n := |taken| - 1;
    var before := Asked(taken[..n], store, script);
    if k == n {
      x := |before| + j;
    } else {
      x := RequestIsAsked(taken[..n], store, script, k, j);
    }
  }

  lemma AskedAreMet(
      taken: seq<Entry>, store: map<Address, Timer>, script: map<nat, seq<NewTimer>>, serial: nat,
      timers1: set<Entry>, store1: map<Address, Timer>)
    requires forall k :: 0 <= k < |taken| ==> taken[k].timer in store
    requires AllQueued(timers1, store1, Asked(taken, store, script), serial)
    ensures RequestsMet(taken, store, script, serial, timers1, store1)
  {
    hide Asked;
    forall k, j | 0 <= k < |taken| && store[taken[k].timer].serial in script
                  && 0 <= j < |script[store[taken[k].timer].serial]|
      ensures Lives(timers1, store1, serial, script[store[taken[k].timer].serial][j])
    {
      var x := RequestIsAsked(taken, store, script, k, j);
      assert IsQueued(timers1, store1, AsTimer(Asked(taken, store, script)[x], serial + x));
    }
  }

  /** How many timers the callbacks of a pass ask for. */
  function Requests(taken: seq<Entry>, store: map<Address, Timer>, script: map<nat, seq<NewTimer>>): nat
    requires forall i :: 0 <= i < |taken| ==> taken[i].timer in store
  {
    if taken == [] then 0
    else
      var serial := store[taken[0].timer].serial;
      (if serial in script then |script[serial]| else 0) + Requests(taken[1..], store, script)
  }

  lemma {:induction false} RequestsExtend(
      taken: seq<Entry>, e: Entry, store: map<Address, Timer>, script: map<nat, seq<NewTimer>>)
    requires (forall i :: 0 <= i < |taken| ==> taken[i].timer in store) && e.timer in store
    ensures Requests(taken + [e], store, script) == Requests(taken, store, script) + Requests([e], store, script)
    decreases |taken|
  {
    if taken == [] {
      assert taken + [e] == [e];
    } else {
      assert (taken + [e])[0] == taken[0] && (taken + [e])[1..] == taken[1..] + [e];
      RequestsExtend(taken[1..], e, store, script);
    }
  }

  lemma {:induction false} AskedAreCounted(
      taken: seq<Entry>, store: map<Address, Timer>, script: map<nat, seq<NewTimer>>)
    requires forall i :: 0 <= i < |taken| ==> taken[i].timer in store
    ensures |Asked(taken, store, script)| == Requests(taken, store, script)
    decreases |taken|
  {
    if taken != [] {
      var n := |taken| - 1;
      AskedAreCounted(taken[..n], store, script);
      RequestsExtend(taken[..n], taken[n], store, script);
      assert taken == taken[..n] + [taken[n]] && [taken[n]][1..] == [];
    }
  }

  /** When a repeating timer is due after passes at the times `nows`: each pass that finds it due moves it
      an interval behind its own time. */
  function DueAfter(due: Time, delta: nat, nows: seq<Time>): Time {
    if nows == [] then due
    else
      var now, before := nows[|nows| - 1], DueAfter(due, delta, nows[..|nows| - 1]);
      if before <= now then now + delta else before
  }

  /** One turn of the loop: the clock, and what the callbacks ask for. */
  datatype Pass = Pass(now: Time, script: map<nat, seq<NewTimer>>)

  function Times(passes: seq<Pass>): (nows: seq<Time>)
    ensures |nows| == |passes| && forall i :: 0 <= i < |passes| ==> nows[i] == passes[i].now
  {
    seq(|passes|, i requires 0 <= i < |passes| => passes[i].now)
  }

  /** A repeating timer lives on, as it was but for its expiration, and is queued for exactly the time
      its last run and the passes since have given it. */
  ghost predicate KeptUp(
      store: map<Address, Timer>, timers1: set<Entry>, store1: map<Address, Timer>, a: Address, nows: seq<Time>)
    requires a in store
  {
    var t := store[a];
    var due := DueAfter(t.expiration, t.delta, nows);
    && a in store1 && store1[a].serial == t.serial && store1[a].delta == t.delta && store1[a].repeat
    && store1[a].expiration == due && Entry(due, a) in timers1
  }

  lemma KeptUpFurther(
      store: map<Address, Timer>, timers1: set<Entry>, store1: map<Address, Timer>, timers2: set<Entry>,
      store2: map<Address, Timer>, a: Address, nows: seq<Time>, now: Time)
    requires a in store && store[a].repeat && KeptUp(store, timers1, store1, a, nows)
    requires Rescheduled(store1, timers2, store2, now)
    requires forall b :: b in store2 ==> Entry(store2[b].expiration, b) in timers2
    ensures KeptUp(store, timers2, store2, a, nows + [now])
  {
    assert (nows + [now])[..|nows|] == nows;
  }

  class TimerQueue {
    var timers: set<Entry>
    var nowCache: Time
    /** The living timer objects. */
    var store: map<Address, Timer>
    var nextSerial: nat
    ghost var log: seq<Firing>

    ghost predicate Sound()
      reads this
    {
      && SerialsOk(store, log, nextSerial) && LogOk(log)
      && (forall e :: e in timers ==> QueuedOk(e, store, log))
    }

    /** Between passes every living timer is queued. */
    ghost predicate Valid()
      reads this
    {
      Sound() && forall a :: a in store ==> Entry(store[a].expiration, a) in timers
    }

    constructor ()
      ensures Valid() && timers == {} && log == []
    {
      timers, nowCache, store, nextSerial, log := {}, 0, map[], 0, [];
    }

    /** How long to sleep: forever without timers, not at all when one is due. */
    method GetNextTimeout(now: Time) returns (timeout: int)
      requires Valid()
      modifies this`nowCache
      ensures Valid() && nowCache == now
      ensures timeout == -1 <==> timers == {}
      ensures timeout == 0 <==> exists e :: e in timers && e.at <= now
      ensures timeout > 0 ==>
                (exists e :: e in timers && e.at == now + timeout) && (forall e :: e in timers ==> now + timeout <= e.at)
    {
      hide IsFirst, StrictTotal, Before, SerialsOk, LogOk, QueuedOk;
      nowCache := now;
      if timers == {} {
        return -1;
      }
      EntriesAreOrdered();
      ghost var w := FirstExists(Before, timers);
      var first :| first in timers && IsFirst(Before, first, timers);
      FirstDecides(first, timers);
      timeout := if first.at - now <= 0 then 0 else first.at - now;
    }

    /** `addTimer` on the loop thread. */
    method AddTimer(n: NewTimer) returns (address: Address)
      requires Sound()
      modifies this`timers, this`store, this`nextSerial
      ensures Sound()
      ensures address !in old(store) && store == old(store)[address := AsTimer(n, old(nextSerial))]
      ensures store[address].expiration == n.when && store[address].delta == n.delta
      ensures store[address].repeat == n.repeat && store[address].serial == old(nextSerial)
      ensures timers == old(timers) + {Entry(n.when, address)}
      ensures nextSerial == old(nextSerial) + 1
    {
      ghost var w := FreshAddress(store.Keys);
      assert w !in store;
      address :| address !in store;
      AddKeeps(timers, store, log, nextSerial, address, n);
      store := store[address := AsTimer(n, nextSerial)];
      timers := timers + {Entry(n.when, address)};
      nextSerial := nextSerial + 1;
    }

    /** Takes the due timers out of the queue, in order. */
    method GetExpired() returns (expired: seq<Address>, ghost taken: seq<Entry>)
      requires Valid()
      modifies this`timers
      ensures Sound()
      ensures Listed(expired, taken) && Ordered(taken)
      ensures Splits(old(timers), nowCache, timers, taken)
    {
      var rest;
      expired, rest, taken := TakeDue(timers, nowCache);
      timers := rest;
    }

    /** A callback adds a timer. */
    method AddDuring(ghost expired: seq<Address>, ghost done: nat, n: NewTimer)
      requires Sound() && Passing(timers, store, log, nowCache, expired, done)
      modifies this`timers, this`store, this`nextSerial
      ensures Sound() && Passing(timers, store, log, nowCache, expired, done)
      ensures Grows(old(store), store) && old(timers) <= timers
      ensures nextSerial == old(nextSerial) + 1
      ensures IsQueued(timers, store, AsTimer(n, old(nextSerial)))
    {
      hide LogOk, SerialsOk, QueuedOk, Passing;
      ghost var timers0, store0, serial := timers, store, nextSerial;
      var a := AddTimer(n);
      PassingAfterAdd(timers0, store0, log, serial, nowCache, expired, done, a, n);
      assert store[a] == AsTimer(n, serial) && Entry(n.when, a) in timers;
    }

    /** One callback: the timer runs and asks for the timers `adds`. */
    method RunOne(expired: seq<Address>, i: nat, adds: seq<NewTimer>)
      requires Sound() && i < |expired| && Passing(timers, store, log, nowCache, expired, i)
      modifies this`timers, this`store, this`nextSerial, this`log
      ensures Sound() && Passing(timers, store, log, nowCache, expired, i + 1)
      ensures log == old(log) + [FiringOf(old(store)[expired[i]], nowCache)]
      ensures Grows(old(store), store) && old(timers) <= timers
      ensures nextSerial == old(nextSerial) + |adds|
      ensures forall k :: 0 <= k < |adds| ==> IsQueued(timers, store, AsTimer(adds[k], old(nextSerial) + k))
    {
      hide LogOk, SerialsOk, QueuedOk, Passing, AsTimer, IsQueued;
      PassingAfterRun(timers, store, log, nextSerial, nowCache, expired, i);
      log := log + [FiringOf(store[expired[i]], nowCache)];
      var j := 0;
      while j < |adds|
        invariant j <= |adds|
        invariant Sound() && Passing(timers, store, log, nowCache, expired, i + 1)
        invariant log == old(log) + [FiringOf(old(store)[expired[i]], nowCache)]
        invariant Grows(old(store), store) && old(timers) <= timers
        invariant nextSerial == old(nextSerial) + j
        invariant forall k :: 0 <= k < j ==> IsQueued(timers, store, AsTimer(adds[k], old(nextSerial) + k))
      {
        ghost var timers0, store0 := timers, store;
        AddDuring(expired, i + 1, adds[j]);
        forall k | 0 <= k < j ensures IsQueued(timers, store, AsTimer(adds[k], old(nextSerial) + k)) {
          StaysQueued(timers0, store0, timers, store, AsTimer(adds[k], old(nextSerial) + k));
        }
        j := j + 1;
      }
    }

    /** First half of `handleTimeEvent`: the callbacks of the expired timers run, in order. */
    method RunExpired(expired: seq<Address>, ghost taken: seq<Entry>, script: map<nat, seq<NewTimer>>)
      requires Sound() && Passing(timers, store, log, nowCache, expired, 0) && Listed(expired, taken)
      requires forall k :: 0 <= k < |taken| ==> taken[k].timer in store
      modifies this`timers, this`store, this`nextSerial, this`log
      ensures Sound() && Passing(timers, store, log, nowCache, expired, |expired|)
      ensures Grows(old(store), store)
      ensures log == old(log) + Firings(taken, old(store), nowCache)
      ensures nextSerial == old(nextSerial) + |Asked(taken, old(store), script)|
      ensures AllQueued(timers, store, Asked(taken, old(store), script), old(nextSerial))
    {
      hide LogOk, SerialsOk, QueuedOk, Passing, AsTimer, IsQueued, Firings, AskedBy, Asked;
      ghost var store0, log0, serial0 := store, log, nextSerial;
      Nothing(taken, store0, nowCache, script);
      var i := 0;
      while i < |expired|
        invariant i <= |expired| && Sound() && Passing(timers, store, log, nowCache, expired, i)
        invariant Grows(store0, store)
        invariant log == log0 + Firings(taken[..i], store0, nowCache)
        invariant nextSerial == serial0 + |Asked(taken[..i], store0, script)|
        invariant AllQueued(timers, store, Asked(taken[..i], store0, script), serial0)
      {
        ghost var timers1, store1, serial1 := timers, store, nextSerial;
        assert expired[i] == taken[i].timer;
        var t := Look(expired, i);
        RunOne(expired, i, AskedBy(t, script));
        assert AllQueued(timers, store, AskedBy(t, script), serial1);
        AllQueuedExtend(timers1, store1, timers, store, Asked(taken[..i], store0, script), AskedBy(t, script), serial0);
        FiringsExtend(taken, store0, nowCache, i);
        AskedExtend(taken, store0, script, i);
        i := i + 1;
      }
      assert taken[..|taken|] == taken;
    }

    /** The timer object behind an expired address. */
    method Look(expired: seq<Address>, i: nat) returns (t: Timer)
      requires i < |expired| && Passing(timers, store, log, nowCache, expired, i)
      ensures expired[i] in store && t == store[expired[i]]
    {
      t := store[expired[i]];
    }

    /** Second half: the repeating timers are armed and queued again, the others deleted. */
    method RequeueExpired(expired: seq<Address>)
      requires Sound() && Passing(timers, store, log, nowCache, expired, |expired|)
      modifies this`timers, this`store
      ensures Valid()
      ensures old(timers) <= timers
      ensures (forall i :: 0 <= i < |expired| ==> expired[i] in old(store))
              && Settled(old(store), store, expired, |expired|, nowCache)
    {
      hide LogOk, SerialsOk, QueuedOk, Passing, Settled, RequeueStore;
      ghost var store0 := store;
      NothingSettled(timers, store, log, nowCache, expired);
      assert expired[0..] == expired;
      var i := 0;
      while i < |expired|
        invariant i <= |expired| && Sound()
        invariant Passing(timers, store, log, nowCache, expired[i..], |expired| - i)
        invariant old(timers) <= timers
        invariant Settled(store0, store, expired, i, nowCache)
      {
        SettledExtend(store0, store, expired, i, nowCache);
        PassingAfterRequeue(timers, store, log, nextSerial, nowCache, expired[i..]);
        assert expired[i..][1..] == expired[i + 1..];
        Requeue(expired[i]);
        i := i + 1;
      }
      assert expired[|expired|..] == [];
      AllSettled(timers, store, log, nowCache);
    }

    method Requeue(a: Address)
      requires a in store
      modifies this`timers, this`store
      ensures timers == RequeueTimers(old(timers), old(store), a, nowCache)
      ensures store == RequeueStore(old(store), a, nowCache)
    {
      var t := store[a];
      if t.repeat {
        t := t.(expiration := nowCache + t.delta);
        store := store[a := t];
        timers := timers + {Entry(t.expiration, a)};
      } else {
        store := store - {a};
      }
    }

    /** `handleTimeEvent`.  `script` says which timers each callback adds. */
    method HandleTimeEvent(script: map<nat, seq<NewTimer>>) returns (ghost taken: seq<Entry>)
      requires Valid()
      modifies this`timers, this`store, this`nextSerial, this`log
      ensures Valid()
      // exactly the due timers run, each once, in order
      ensures Ordered(taken) && forall e :: e in taken <==> e in old(timers) && e.at <= nowCache
      ensures forall k :: 0 <= k < |taken| ==> taken[k].timer in old(store)
      ensures log == old(log) + Firings(taken, old(store), nowCache)
      // every timer asked for is queued, under serials in order of the requests
      ensures nextSerial == old(nextSerial) + |Asked(taken, old(store), script)|
      ensures AllQueued(timers, store, Asked(taken, old(store), script), old(nextSerial))
      // the other timers wait on, the repeating ones again, and the one-shot ones are gone
      ensures PassOutcome(old(store), store, nowCache)
      // the same in the timers' own terms
      ensures forall i, j :: 0 <= i < j < |taken| ==> taken[i].at <= taken[j].at
      ensures RunsLogged(old(log), log, taken, old(store), nowCache)
      ensures RequestsMet(taken, old(store), script, old(nextSerial), timers, store)
      ensures nextSerial == old(nextSerial) + Requests(taken, old(store), script)
      ensures Rescheduled(old(store), timers, store, nowCache)
    {
      hide LogOk, SerialsOk, QueuedOk, AsTimer, IsQueued, Firings, AskedBy, Asked, Settled, PassOutcome, AllQueued,
        RunsLogged, RequestsMet, Rescheduled, Requests;
      ghost var timers0, store0, log0, serial0 := timers, store, log, nextSerial;
      var expired;
      expired, taken := GetExpired();
      ghost var rest := timers;
      TakenLive(timers0, store, log, rest, taken, nowCache);
      PassingAtStart(timers0, rest, store, log, nowCache, expired, taken);
      RunExpired(expired, taken, script);
      ghost var timers1, store1 := timers, store;
      RequeueExpired(expired);
      AskedStayQueued(timers1, store1, log, nowCache, expired, timers, store, Asked(taken, store0, script), serial0);
      OutcomeOfPass(timers0, store0, log0, store1, store, rest, taken, expired, nowCache);
      FiringsAreLogged(timers0, log0, rest, taken, store0, nowCache);
      AskedAreMet(taken, store0, script, serial0, timers, store);
      AskedAreCounted(taken, store0, script);
      OutcomeReschedules(store0, timers, store, nowCache);
    }

    /** Turn after turn of the loop. */
    method RunPasses(passes: seq<Pass>)
      requires Valid()
      modifies this
      ensures Valid() && old(log) <= log
      ensures forall a :: a in old(store) && old(store)[a].repeat ==>
                KeptUp(old(store), timers, store, a, Times(passes))
    {
      hide LogOk, SerialsOk, Firings, Asked, PassOutcome, AllQueued, RunsLogged, RequestsMet, Rescheduled, Requests,
        KeptUp;
      ghost var store0 := store;
      NothingPassed(timers, store);
      var i := 0;
      while i < |passes|
        invariant i <= |passes| && Valid() && old(log) <= log
        invariant forall a :: a in store0 && store0[a].repeat ==> KeptUp(store0, timers, store, a, Times(passes[..i]))
      {
        ghost var timers1, store1 := timers, store;
        var _ := GetNextTimeout(passes[i].now);
        ghost var taken := HandleTimeEvent(passes[i].script);
        assert Times(passes[..i + 1]) == Times(passes[..i]) + [passes[i].now];
        forall a | a in store0 && store0[a].repeat ensures KeptUp(store0, timers, store, a, Times(passes[..i + 1])) {
          KeptUpFurther(store0, timers1, store1, timers, store, a, Times(passes[..i]), passes[i].now);
        }
        i := i + 1;
      }
      assert passes[..|passes|] == passes;
    }

    static lemma NothingPassed(timers: set<Entry>, store: map<Address, Timer>)
      requires forall a :: a in store ==> Entry(store[a].expiration, a) in timers
      ensures forall a :: a in store && store[a].repeat ==> KeptUp(store, timers, store, a, Times([]))
    {}

    /** A repeating timer, once added, is never lost: whatever passes come, it lives and is queued for
        exactly an interval after the last pass that ran it. */
    method AddAndRun(n: NewTimer, passes: seq<Pass>) returns (address: Address)
      requires Valid()
      modifies this
      ensures Valid()
      ensures n.repeat ==>
                var due := DueAfter(n.when, n.delta, Times(passes));
                && address in store && store[address].repeat && store[address].delta == n.delta
                && store[address].expiration == due && Entry(due, address) in timers
    {
      address := AddTimer(n);
      RunPasses(passes);
    }

    /** What every state of a queue says about all runs so far: none was early, a one-shot has at most
        one, and those of a repeating timer are at least its interval apart. */
    static lemma RunsAreSpaced(q: TimerQueue)
      requires q.Valid()
      ensures forall i :: 0 <= i < |q.log| ==> q.log[i].due <= q.log[i].at
      ensures forall i, j :: 0 <= i < j < |q.log| && q.log[i].serial == q.log[j].serial ==>
                q.log[i].repeat && q.log[i].at + q.log[i].delta <= q.log[j].at
    {}
  }
}
