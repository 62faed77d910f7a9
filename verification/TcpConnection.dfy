/**
 The output side of a connection: base/src/TcpConnection.cpp:39-101, 128-155 and 171-204.  The spill
 buffer is its readable bytes, which is all `Buffers.Buffer` shows of it.  What the kernel and the
 user's callbacks do is a parameter of every call: `WriteResult` for a `write`, a `Script` for a
 write callback, which may send and shut down again from inside.
 */
module TcpConnections {
  import opened ConnStatuses

  /** What `write` returns: an error, or how much it took (never more than it was given). */
  datatype WriteResult = WriteError | Wrote(n: nat)

  /** One thing a user callback does on the loop thread, or another thread does while it runs. */
  datatype Action =
    | UserSend(data: seq<char>, result: WriteResult, onDrained: Script)
    | UserShutdown
    | ForeignShutdown

  datatype Script = Stop | Then(action: Action, rest: Script)

  /** What can happen to an established connection.  `ForeignSend` is another thread's call of `send`,
      `PostedSend` the run of one of the tasks such calls have posted, in any order. */
  datatype Event =
    | Callback(script: Script)
    | ForeignSend(data: seq<char>)
    | PostedSend(index: nat, result: WriteResult, onDrained: Script)
    | PostedShut
    | Writable(result: WriteResult, onDrained: Script)
    | PeerClosed(onClosed: Script)

  /** A script of sends alone. */
  predicate OnlySends(script: Script) {
    script.Then? ==> script.action.UserSend? && OnlySends(script.rest)
  }

  /** What its sends send, those of the callbacks in between left out. */
  function Sends(script: Script): seq<seq<char>> {
    if script.Then? && script.action.UserSend? then [script.action.data] + Sends(script.rest) else []
  }

  /** Only sends, each of which the kernel takes whole at once, so that its callback runs too. */
  predicate AllTaken(script: Script) {
    script.Then? ==>
      && script.action.UserSend? && script.action.result.Wrote?
      && script.action.result.n >= |script.action.data|
      && AllTaken(script.action.onDrained) && AllTaken(script.rest)
  }

  /** What is sent then: after each message what its callback sends. */
  function SendsWithin(script: Script): seq<seq<char>> {
    if script.Then? && script.action.UserSend?
    then [script.action.data] + SendsWithin(script.action.onDrained) + SendsWithin(script.rest)
    else []
  }

  lemma SendsInOrder(messages: seq<seq<char>>, data: seq<char>, onDrained: Script, rest: Script)
    ensures messages + ([data] + SendsWithin(onDrained) + SendsWithin(rest))
            == (messages + [data] + SendsWithin(onDrained)) + SendsWithin(rest)
    ensures messages + ([data] + Sends(rest)) == (messages + [data]) + Sends(rest)
    ensures messages + [data] + SendsWithin(Stop) == messages + [data]
  {
    assert SendsWithin(Stop) == [];
    hide Sends, SendsWithin;
    Regroup(messages, [data], SendsWithin(onDrained), SendsWithin(rest));
    Regroup(messages, [data], [], Sends(rest));
  }

  lemma Regroup(a: seq<seq<char>>, b: seq<seq<char>>, c: seq<seq<char>>, d: seq<seq<char>>)
    ensures a + (b + c + d) == (a + b + c) + d && a + (b + d) == (a + b) + d
  {}

  function Taken(r: WriteResult, len: nat): nat {
    if r.WriteError? then 0 else if r.n < len then r.n else len
  }

  function Joined(messages: seq<seq<char>>): seq<char> {
    if messages == [] then [] else Joined(messages[..|messages| - 1]) + messages[|messages| - 1]
  }

  lemma JoinedSnoc(messages: seq<seq<char>>, m: seq<char>)
    ensures Joined(messages + [m]) == Joined(messages) + m
  {}

  class TcpConnection {
    var status: Status
    var outBuffer: seq<char>
    /** The channel's write interest. */
    var isWriting: bool
    /** `shutInLoop` tasks that other threads have posted. */
    var postedShuts: nat
    /** A fatal check failed; nothing runs any more. */
    var aborted: bool

    /** What the socket has been given. */
    var wire: seq<char>
    var writeShut: bool

    /** The messages given to `sendInLoop`, except those a failed direct write dropped whole. */
    ghost var messages: seq<seq<char>>
    /** A send posted by another thread has run when the connection was no longer connected. */
    ghost var lateSend: bool
    /** `wire` when the write side was first shut, and whether the peer had closed by then. */
    ghost var wireAtShut: seq<char>
    ghost var peerFirst: bool

    /** Bytes go out whole, once and in order; write interest is on exactly while bytes wait, until the
        connection is closed; after the write side is shut nothing is written, and unless the peer
        closed first everything accepted had been written by then. */
    ghost predicate Valid()
      reads this
    {
      && wire + outBuffer == Joined(messages)
      && (isWriting ==> outBuffer != [])
      && (outBuffer != [] ==> isWriting || status == Disconnected)
      && (writeShut && !lateSend ==>
            && wire == wireAtShut && !isWriting && status != Connected
            && (!peerFirst ==> outBuffer == []))
      && (lateSend || postedShuts > 0 ==> status != Connected)
    }

    constructor ()
      ensures Valid() && status == Connected && !aborted && !writeShut
      ensures messages == [] && wire == []
    {
      status, outBuffer, isWriting, postedShuts, aborted := Connected, [], false, 0, false;
      wire, writeShut := [], false;
      messages, lateSend, wireAtShut, peerFirst := [], false, [], false;
    }

    /** History only moves forward across a call. */
    twostate predicate Follows()
      reads this
    {
      && Valid()
      && old(messages) <= messages
      && old(wire) <= wire
      && (old(writeShut) ==> writeShut)
      && (old(status) != Connected ==> status != Connected)
      && (old(status) == Disconnected ==> status == Disconnected)
      && (old(lateSend) ==> lateSend)
      && (old(writeShut) && !lateSend ==> wire == old(wire))
    }

    /** No callback has run and nobody has shut anything. */
    twostate predicate Undisturbed()
      reads this
    {
      status == old(status) && postedShuts == old(postedShuts) && writeShut == old(writeShut) && !aborted
    }

    /** The user's callback has run, after the connection had taken `messages` and had nothing waiting:
        its first send has been taken, or its shutdown has been done; and when all it does is send, and
        the kernel takes everything, every message of it and of the callbacks inside is there in order. */
    twostate predicate CalledBack(taken: seq<seq<char>>, script: Script)
      reads this
    {
      old(status) == Connected && script.Then? ==>
        && (script.action.UserSend? && script.action.result.Wrote? ==> taken + [script.action.data] <= messages)
        && (!script.action.UserSend? ==> status != Connected)
        && (AllTaken(script) ==>
              messages == taken + SendsWithin(script) && outBuffer == [] && status == Connected && !aborted)
    }

    /** What sending `data` on the loop thread does: with bytes waiting, it waits behind them; else it goes
        out directly, and is lost when that fails, waits with what is left when part of it went out, and
        calls the user back when all of it did.  In no other case the callback runs. */
    twostate predicate SentInLoop(data: seq<char>, result: WriteResult, onDrained: Script)
      reads this
    {
      if old(outBuffer) != [] then
        && Undisturbed() && messages == old(messages) + [data] && outBuffer == old(outBuffer) + data
        && wire == old(wire) && isWriting
      else if result.WriteError? then
        && Undisturbed() && messages == old(messages) && outBuffer == [] && wire == old(wire) && !isWriting
      else if result.n < |data| then
        && Undisturbed() && messages == old(messages) + [data] && outBuffer == data[result.n..]
        && wire == old(wire) + data[..result.n] && isWriting
      else
        && old(wire) + data <= wire && old(messages) + [data] <= messages
        && CalledBack(old(messages) + [data], onDrained)
        && (onDrained.Stop? || old(status) != Connected ==>
              Undisturbed() && messages == old(messages) + [data] && outBuffer == [] && wire == old(wire) + data)
    }

    /** What a writable socket does for waiting bytes: nothing taken is fatal; part of them taken, the rest
        wait on; all of them taken, the user is called back, and a connection that is being shut down is
        shut. */
    twostate predicate Drained(result: WriteResult, onDrained: Script)
      reads this
    {
      if result.WriteError? || result.n == 0 then
        aborted && messages == old(messages) && wire == old(wire) && outBuffer == old(outBuffer)
      else if result.n < |old(outBuffer)| then
        && Undisturbed() && messages == old(messages) && isWriting
        && wire == old(wire) + old(outBuffer)[..result.n] && outBuffer == old(outBuffer)[result.n..]
      else
        && old(wire) + old(outBuffer) <= wire
        && CalledBack(old(messages), onDrained)
        && (onDrained.Stop? || old(status) != Connected ==>
              messages == old(messages) && wire == old(wire) + old(outBuffer) && outBuffer == [] && !aborted)
        && (old(status) == Disconnecting ==> writeShut)
    }

    /** At most one message has been taken, with no callback after it. */
    twostate predicate SentOnce(data: seq<seq<char>>, result: WriteResult)
      reads this
    {
      && status == old(status) && postedShuts == old(postedShuts) && writeShut == old(writeShut) && !aborted
      && (if Dropped(old(outBuffer), result) || data == [] then messages == old(messages) && outBuffer == old(outBuffer)
          else
            messages == old(messages) + data
            && (old(outBuffer) == [] ==> outBuffer == data[0][Taken(result, |data[0]|)..]))
    }

    /** `send`: the status is tested now, on whichever thread; on the loop thread the message is sent,
        on another one a task is posted that will send it without another test. */
    method Send(inLoop: bool, data: seq<char>, result: WriteResult, onDrained: Script) returns (posted: bool)
      requires Valid() && !aborted
      modifies this
      ensures Follows() && lateSend == old(lateSend)
      ensures posted <==> old(status) == Connected && !inLoop
      ensures posted ==> unchanged(this)
      ensures old(status) != Connected ==> unchanged(this)
      ensures old(status) == Connected && inLoop && !Dropped(old(outBuffer), result) ==>
                old(messages) + [data] <= messages
      ensures old(status) == Connected && inLoop ==> SentInLoop(data, result, onDrained)
      ensures inLoop && onDrained.Stop? ==> SentOnce(if old(status) == Connected then [data] else [], result)
      decreases onDrained, 2
    {
      if status != Connected {
        return false;
      }
      if inLoop {
        SendInLoop(data, result, onDrained);
        return false;
      }
      return true;
    }

    /** A direct write is tried only on an empty buffer; if it fails the message is lost whole. */
    static predicate Dropped(waiting: seq<char>, result: WriteResult) {
      waiting == [] && result.WriteError?
    }

    method SendInLoop(data: seq<char>, result: WriteResult, onDrained: Script)
      requires Valid() && !aborted
      requires status != Connected ==> lateSend
      modifies this
      ensures Follows() && lateSend == old(lateSend)
      ensures Dropped(old(outBuffer), result) ==>
                wire == old(wire) && outBuffer == old(outBuffer) && messages == old(messages) && !aborted
      ensures !Dropped(old(outBuffer), result) ==> old(messages) + [data] <= messages
      ensures old(outBuffer) == [] ==> old(wire) + data[..Taken(result, |data|)] <= wire
      ensures old(outBuffer) != [] ==> wire == old(wire) && isWriting && !aborted
      ensures onDrained.Stop? ==> SentOnce([data], result)
      ensures SentInLoop(data, result, onDrained)
      decreases onDrained, 1
    {
      hide Joined;
      if outBuffer == [] && !isWriting {
        if result.WriteError? {
          return;
        }
        var n := Taken(result, |data|);
        JoinedSnoc(messages, data);
        assert data == data[..n] + data[n..] && (n == |data| ==> data[..n] == data);
        wire := wire + data[..n];
        messages := messages + [data];
        if n < |data| {
          outBuffer := data[n..];
          isWriting := true;
        } else {
          RunScript(onDrained);
        }
      } else {
        JoinedSnoc(messages, data);
        outBuffer := outBuffer + data;
        messages := messages + [data];
        isWriting := true;
      }
    }

    /** The user's callback. */
    method RunScript(script: Script)
      requires Valid() && !aborted
      modifies this
      ensures Follows() && lateSend == old(lateSend)
      ensures script.Stop? || old(status) != Connected ==> unchanged(this)
      ensures script.Then? && script.action.UserSend? && old(status) == Connected
              && !Dropped(old(outBuffer), script.action.result) ==>
                old(messages) + [script.action.data] <= messages
      ensures script.Then? && !script.action.UserSend? ==> status != Connected
      ensures old(outBuffer) == [] ==> CalledBack(old(messages), script)
      ensures old(outBuffer) != [] && old(status) == Connected && OnlySends(script) ==>
                messages == old(messages) + Sends(script) && outBuffer != [] && status == Connected && !aborted
      decreases script, 0
    {
      hide Joined;
      if script.Then? {
        match script.action {
          case UserSend(data, result, onDrained) =>
            SendsInOrder(messages, data, onDrained, script.rest);
            var _ := Send(true, data, result, onDrained);
          case UserShutdown => Shutdown();
          case ForeignShutdown => PostShutdown();
        }
        if !aborted {
          RunScript(script.rest);
        }
      }
    }

    /** `BufferIntoNet`, when the socket has become writable. */
    method BufferIntoNet(result: WriteResult, onDrained: Script)
      requires Valid() && !aborted
      modifies this
      ensures Follows() && lateSend == old(lateSend)
      ensures !old(isWriting) ==> unchanged(this)
      ensures old(isWriting) && Taken(result, |old(outBuffer)|) == 0 ==> aborted
      ensures old(isWriting) ==> old(wire) + old(outBuffer)[..Taken(result, |old(outBuffer)|)] <= wire
      ensures old(isWriting) && 0 < Taken(result, |old(outBuffer)|) < |old(outBuffer)| ==> isWriting && !aborted
      ensures old(isWriting) && Taken(result, |old(outBuffer)|) == |old(outBuffer)| && old(status) == Disconnecting ==>
                writeShut && !aborted
      ensures onDrained.Stop? ==> messages == old(messages) && status == old(status) && postedShuts == old(postedShuts)
      ensures old(isWriting) ==> Drained(result, onDrained)
    {
      hide Joined;
      if !isWriting {
        return;
      }
      var n := Taken(result, |outBuffer|);
      if n > 0 {
        assert outBuffer == outBuffer[..n] + outBuffer[n..];
        wire := wire + outBuffer[..n];
        outBuffer := outBuffer[n..];
        if outBuffer == [] {
          isWriting := false;
          RunScript(onDrained);
          if !aborted && status == Disconnecting {
            ShutInLoop();
          }
        }
      } else {
        aborted := true;
      }
    }

    /** `shutdown` on the loop thread. */
    method Shutdown()
      requires Valid() && !aborted
      modifies this
      ensures Follows() && lateSend == old(lateSend) && messages == old(messages) && wire == old(wire)
      ensures aborted <==> old(status) == Connected && old(isWriting)
      ensures old(status) == Connected ==> status == Disconnecting && (aborted || writeShut)
      ensures old(status) != Connected ==> unchanged(this)
      ensures outBuffer == old(outBuffer) && isWriting == old(isWriting) && postedShuts == old(postedShuts)
    {
      if status == Connected {
        status := Disconnecting;
        ShutInLoop();
      }
    }

    /** `shutdown` on another thread: the status changes now, the rest is posted. */
    method PostShutdown()
      requires Valid() && !aborted
      modifies this
      ensures Follows() && lateSend == old(lateSend) && messages == old(messages) && wire == old(wire)
      ensures outBuffer == old(outBuffer) && isWriting == old(isWriting) && writeShut == old(writeShut) && !aborted
      ensures old(status) == Connected ==> status == Disconnecting && postedShuts == old(postedShuts) + 1
      ensures old(status) != Connected ==> unchanged(this)
    {
      if status == Connected {
        status := Disconnecting;
        postedShuts := postedShuts + 1;
      }
    }

    /** Shutting the write side while bytes wait is fatal. */
    method ShutInLoop()
      requires Valid() && !aborted && status != Connected
      modifies this
      ensures Follows() && lateSend == old(lateSend) && messages == old(messages) && wire == old(wire)
      ensures aborted == old(isWriting)
      ensures writeShut == (old(writeShut) || !old(isWriting))
      ensures status == old(status) && outBuffer == old(outBuffer) && isWriting == old(isWriting)
      ensures postedShuts == old(postedShuts)
      ensures !aborted && status != Disconnected ==> outBuffer == []
    {
      if isWriting {
        aborted := true;
        return;
      }
      if !writeShut {
        wireAtShut := wire;
        peerFirst := status == Disconnected;
      }
      writeShut := true;
    }

    /** `handleClose`: the peer is gone; closing twice is fatal. */
    method HandleClose(onClosed: Script)
      requires Valid() && !aborted
      modifies this
      ensures Follows() && lateSend == old(lateSend) && messages == old(messages) && wire == old(wire)
      ensures aborted <==> old(status) == Disconnected
      ensures status == Disconnected && outBuffer == old(outBuffer) && (!aborted ==> !isWriting)
      ensures onClosed.Stop? ==> postedShuts == old(postedShuts) && writeShut == old(writeShut)
    {
      if status == Disconnected {
        aborted := true;
        return;
      }
      status := Disconnected;
      isWriting := false;
      RunScript(onClosed);
    }

    /** Any sequence of events. */
    method Drive(events: seq<Event>)
      requires Valid() && !aborted
      modifies this
      ensures Follows()
      ensures (forall i :: 0 <= i < |events| ==> !events[i].PostedSend?) ==> lateSend == old(lateSend)
    {
      var pending: seq<seq<char>> := [];
      var i := 0;
      while i < |events| && !aborted
        invariant i <= |events|
        invariant Follows()
        invariant (forall j :: 0 <= j < i ==> !events[j].PostedSend?) ==> lateSend == old(lateSend)
      {
        match events[i] {
          case Callback(script) => RunScript(script);
          case ForeignSend(data) =>
            var posted := Send(false, data, WriteError, Stop);
            pending := if posted then pending + [data] else pending;
          case PostedSend(index, result, onDrained) =>
            if index < |pending| {
              var data := pending[index];
              pending := pending[..index] + pending[index + 1..];
              RunPostedSend(data, result, onDrained);
            }
          case PostedShut =>
            if postedShuts > 0 {
              postedShuts := postedShuts - 1;
              ShutInLoop();
            }
          case Writable(result, onDrained) => BufferIntoNet(result, onDrained);
          case PeerClosed(onClosed) => HandleClose(onClosed);
        }
        i := i + 1;
      }
    }

    /** The task that another thread's `send` has posted, in whatever status it finds the connection. */
    method RunPostedSend(data: seq<char>, result: WriteResult, onDrained: Script)
      requires Valid() && !aborted
      modifies this
      ensures Follows() && lateSend == (old(lateSend) || old(status) != Connected)
      ensures !Dropped(old(outBuffer), result) ==> old(messages) + [data] <= messages
      ensures SentInLoop(data, result, onDrained)
    {
      if status != Connected {
        lateSend := true;
      }
      SendInLoop(data, result, onDrained);
    }
  }
}
