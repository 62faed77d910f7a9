/**
 The server's side of one connection: http/HttpServer.cpp:21-56 with `handle_http`
 (http/HttpHandler.cpp:206-216) and `Router::deal` (http/Router.cpp:26-43), on top of the parser, the
 route table and the output path.  A handler is the serialised response it makes of a request and its
 captures.  The server sets no write callback, and its connection callback does nothing when a
 connection closes.
 */
module HttpServers {
  import opened Buffers
  import opened HttpMessages
  import opened HttpMachine
  import opened HttpParser
  import opened HttpHandlers
  import opened ConnStatuses
  import opened TcpConnections
  import opened RouterMatch
  import opened Routers
  import HttpRoundTrip

  type Handler = (Request, map<string, string>) -> seq<char>

  /** What the loop reports on the connection, with what the kernel does about it. */
  datatype NetEvent =
    | Readable(read: ReadOutcome, write: WriteResult)
    | Writable(write: WriteResult)
    | HangUp

  /** The response of `deal` when no handler is found, serialised. */
  const NOT_IMPLEMENTED := "HTTP/1.1 501 Not Implemented\r\n\r\n"

  /** What `deal` makes of a lookup; a misused `*` in the table ends the process before. */
  function ResponseTo(req: Request, matches: map<string, string>, lookup: Lookup<Handler>): seq<char> {
    match lookup
    case Found(handler, captures) => handler(req, matches + captures)
    case NotFound => NOT_IMPLEMENTED
    case Fatal => []
  }

  /** The lookup of one `handle_http`; there is none without a router. */
  datatype Dealt = Skipped | Dealt(lookup: Lookup<Handler>)

  /** How things stood when the parser first decided: whether the connection was still connected, what
      the kernel did with a write, and what the router found. */
  datatype Decision = Undecided | Decided(connected: bool, write: WriteResult, dealt: Dealt)

  /** The messages accepted for sending in the whole life of a connection. */
  function Accepted(o: Outcome, d: Decision): seq<seq<char>> {
    if o.status == PARSE_END && d.Decided? && d.connected && d.dealt.Dealt? && !d.dealt.lookup.Fatal?
       && !d.write.WriteError?
    then [ResponseTo(o.parser.req, map[], d.dealt.lookup)] else []
  }

  // ---------------------------------------------------------------- the chunks received so far

  /** The parser's outcome on what has been received: it is fed until it first decides. */
  function Fed(received: seq<seq<char>>): (o: Outcome)
    ensures o.status == PARSE_RECV ==> Ready(o.parser, o.rest)
  {
    if received == [] then Outcome(PARSE_RECV, INITIAL, [])
    else
      var before := Fed(received[..|received| - 1]);
      if before.status != PARSE_RECV then before
      else Parse(ReadLine, before.parser, before.rest + received[|received| - 1])
  }

  lemma {:induction false} FeedContinues(p: Parser, unread: seq<char>, chunks: seq<seq<char>>, chunk: seq<char>)
    requires Ready(p, unread) && chunks != []
    ensures var o := Feed(ReadLine, p, unread, chunks);
            Feed(ReadLine, p, unread, chunks + [chunk])
            == if o.status != PARSE_RECV then o else Parse(ReadLine, o.parser, o.rest + chunk)
    decreases |chunks|
  {
    var first := Parse(ReadLine, p, unread + chunks[0]);
    var all := chunks + [chunk];
    assert all[0] == chunks[0] && all[1..] == chunks[1..] + [chunk];
    if first.status == PARSE_RECV {
      if |chunks| == 1 {
        assert all[1..] == [chunk];
      } else {
        FeedContinues(first.parser, first.rest, chunks[1..], chunk);
      }
    }
  }

  /** Chunk by chunk over the life of the connection is one feed from the start. */
  lemma {:induction false} FedIsFeed(received: seq<seq<char>>)
    requires received != []
    ensures Fed(received) == Feed(ReadLine, INITIAL, [], received)
    decreases |received|
  {
    var n := |received| - 1;
    var before, chunk := received[..n], received[n];
    assert received == before + [chunk];
    if n > 0 {
      FedIsFeed(before);
      FeedContinues(INITIAL, [], before, chunk);
    }
  }

  // ---------------------------------------------------------------- one connection

  class HttpSession {
    const router: Routers.Router?<Handler>
    /** The route table, which does not change while the server runs. */
    ghost const entries: map<string, Handlers<Handler>>
    const conn: TcpConnection
    const buffer: Buffer
    const handler: HttpHandler
    /** `path_matches` of the request. */
    var pathMatches: map<string, string>
    /** The router met a misused `*`. */
    var routeFatal: bool
    /** What each read delivered. */
    ghost var received: seq<seq<char>>
    ghost var decision: Decision

    predicate Aborted()
      reads this, conn
    {
      conn.aborted || routeFatal
    }

    ghost predicate TableOk()
      reads this, router
    {
      router != null ==> router.Valid() && router.entries == entries
    }

    /** The router's lookup for a request is one that the table admits. */
    ghost predicate DealtFor(dealt: Dealt, req: Request)
      reads this
    {
      && (dealt.Skipped? <==> router == null)
      && (dealt.Dealt? ==> Admissible(entries, req.path, req.method_, dealt.lookup))
    }

    /** Nothing has been decided and nothing sent. */
    ghost predicate Waiting()
      reads this, conn
    {
      && decision == Undecided && pathMatches == map[] && !routeFatal
      && conn.messages == [] && conn.wire == [] && conn.outBuffer == [] && !conn.writeShut
      && conn.status != Disconnecting
    }

    /** What is accepted for sending has been decided once and for all; unless the process aborts over
        it, it is all on the wire and the connection is no longer connected. */
    ghost predicate Answered(o: Outcome)
      reads this, conn
    {
      && decision.Decided? && DealtFor(decision.dealt, o.parser.req)
      && (decision.dealt.Dealt? && decision.dealt.lookup.Fatal? ==> routeFatal)
      && conn.messages == Accepted(o, decision)
      && (!Aborted() ==> conn.status != Connected && conn.outBuffer == [])
      && (!Aborted() && conn.messages != [] ==> conn.writeShut)
    }

    ghost predicate Sound()
      reads this, conn, buffer, buffer.data, handler, router
    {
      && conn.Valid() && buffer.Valid() && TableOk()
      && !conn.lateSend && conn.postedShuts == 0
      && Ready(handler.State(), buffer.Contents())
    }

    /** How the session stands when the parser's outcome on what was received is `o`. */
    ghost predicate Stands(o: Outcome)
      requires buffer.Valid()
      reads this, conn, buffer, buffer.data, handler
    {
      if o.status == PARSE_RECV then Waiting() && o == Outcome(PARSE_RECV, handler.State(), buffer.Contents())
      else Answered(o)
    }

    ghost predicate Valid()
      reads this, conn, buffer, buffer.data, handler, router
    {
      Sound() && Stands(Fed(received))
    }

    /** `on_connect`: a fresh handler for a fresh connection. */
    constructor (router: Routers.Router?<Handler>)
      requires router != null ==> router.Valid()
      ensures Valid() && received == [] && conn.status == Connected && !Aborted()
      ensures this.router == router && fresh(conn) && fresh(buffer) && fresh(buffer.data) && fresh(handler)
    {
      this.router := router;
      this.entries := if router == null then map[] else router.entries;
      conn := new TcpConnection();
      buffer := new Buffer();
      handler := new HttpHandler();
      pathMatches, routeFatal := map[], false;
      received, decision := [], Undecided;
    }

    /** `Router::deal`. */
    method Deal() returns (data: seq<char>, lookup: Lookup<Handler>)
      requires router != null && TableOk()
      modifies this`pathMatches, this`routeFatal
      ensures Admissible(entries, handler.req.path, handler.req.method_, lookup)
      ensures data == ResponseTo(handler.req, old(pathMatches), lookup)
      ensures lookup.Found? ==> data == lookup.handler(handler.req, old(pathMatches) + lookup.matches)
      ensures lookup.NotFound? ==> data == "HTTP/1.1 501 Not Implemented\r\n\r\n"
      ensures routeFatal == (old(routeFatal) || lookup.Fatal?)
    {
      lookup, pathMatches := router.Match(handler.req.path, handler.req.method_, pathMatches);
      match lookup {
        case Found(respond, _) => data := respond(handler.req, pathMatches);
        case NotFound => data := NOT_IMPLEMENTED;
        case Fatal =>
          routeFatal := true;
          data := [];
      }
    }

    /** `handle_http`. */
    method HandleHttp(write: WriteResult) returns (dealt: Dealt)
      requires conn.Valid() && !Aborted() && TableOk()
      modifies conn, this`pathMatches, this`routeFatal
      ensures DealtFor(dealt, handler.req)
      ensures routeFatal <==> dealt.Dealt? && dealt.lookup.Fatal?
      ensures conn.Follows() && conn.lateSend == old(conn.lateSend)
      ensures dealt.Skipped? || dealt.lookup.Fatal? || old(conn.status) != Connected ==> unchanged(conn)
      ensures dealt.Dealt? && !dealt.lookup.Fatal? && old(conn.status) == Connected ==>
                conn.SentOnce([ResponseTo(handler.req, old(pathMatches), dealt.lookup)], write)
    {
      if router == null {
        return Skipped;
      }
      var data, lookup := Deal();
      if !routeFatal {
        var _ := conn.Send(true, data, write, Stop);
      }
      return Dealt(lookup);
    }

    /** What one `on_recv` makes the server accept for sending. */
    ghost function AnswerNow(
        status: ParseStatus, before: Status, write: WriteResult, dealt: Dealt, matches: map<string, string>)
      : (answer: seq<seq<char>>)
      reads this, handler
    {
      if status == PARSE_END && before == Connected && dealt.Dealt? && !dealt.lookup.Fatal? && !write.WriteError?
      then [ResponseTo(handler.req, matches, dealt.lookup)] else []
    }

    /** `on_recv`: the status of the parse decides whether to wait, to shut down, or to answer and shut
        down.  After an error the answer is still made, but the connection no longer takes it. */
    method OnRecv(write: WriteResult) returns (status: ParseStatus, dealt: Dealt)
      requires Sound() && !Aborted() && conn.outBuffer == []
      modifies conn, handler, buffer`readIndex, buffer.data, this`pathMatches, this`routeFatal
      ensures Sound()
      ensures Outcome(status, handler.State(), buffer.Contents())
              == Parse(ReadLine, old(handler.State()), old(buffer.Contents()))
      ensures status == PARSE_RECV ==>
                unchanged(conn) && pathMatches == old(pathMatches) && !routeFatal && dealt == Skipped
      ensures status != PARSE_RECV ==> Finished(status, write, dealt, old(pathMatches))
    {
      hide Parse, ReadLine, Ready;
      status := handler.ParseHttp(buffer);
      if status == PARSE_RECV {
        return status, Skipped;
      } else if status == PARSE_NEXT {
        assert false;
      }
      dealt := FinishRecv(status, write);
    }

    /** The parse has ended, well or badly. */
    method FinishRecv(status: ParseStatus, write: WriteResult) returns (dealt: Dealt)
      requires conn.Valid() && !Aborted() && TableOk() && !conn.lateSend && conn.postedShuts == 0
      requires conn.outBuffer == [] && (status == PARSE_ERROR || status == PARSE_END)
      modifies conn, this`pathMatches, this`routeFatal
      ensures conn.Valid() && !conn.lateSend && conn.postedShuts == 0
      ensures Finished(status, write, dealt, old(pathMatches))
    {
      hide Joined, Admissible, ResponseTo;
      if status == PARSE_ERROR {
        conn.Shutdown();
      }
      dealt := HandleHttp(write);
      if !routeFatal {
        conn.Shutdown();
      }
    }

    /** The new state once a parse has ended: what was accepted, when the process aborts, and that the
        connection is shut otherwise. */
    twostate predicate Finished(status: ParseStatus, write: WriteResult, dealt: Dealt, matches: map<string, string>)
      reads this, conn, handler
    {
      && DealtFor(dealt, handler.req)
      && (routeFatal <==> dealt.Dealt? && dealt.lookup.Fatal?)
      && (!Aborted() ==> conn.status != Connected && conn.outBuffer == [])
      && (!Aborted() && old(conn.status) == Connected ==> conn.writeShut)
      && (old(conn.status) != Connected ==> unchanged(conn))
      && var answer := AnswerNow(status, old(conn.status), write, dealt, matches);
         && conn.messages == old(conn.messages) + answer
         && (conn.aborted <==> answer != [] && Taken(write, |answer[0]|) < |answer[0]|)
    }

    /** `on_recv`, with the decision recorded: `before` is the parser's outcome without the bytes that
        have just arrived, `after` the one with them. */
    method Receive(write: WriteResult, ghost before: Outcome, ghost after: Outcome) returns (dealt: Dealt)
      requires Sound() && !Aborted()
      requires before.status == PARSE_RECV ==>
                 Waiting() && after == Parse(ReadLine, handler.State(), buffer.Contents())
      requires before.status != PARSE_RECV ==> Answered(before) && after == before
      modifies conn, handler, buffer`readIndex, buffer.data, this`pathMatches, this`routeFatal, this`decision
      ensures Sound() && Stands(after)
      ensures old(decision).Decided? ==> decision == old(decision) && conn.messages == old(conn.messages)
      ensures old(decision).Undecided? && after.status != PARSE_RECV ==>
                decision == Decided(old(conn.status) == Connected, write, dealt)
      ensures Aborted() <==>
                || (dealt.Dealt? && dealt.lookup.Fatal?)
                || (old(decision).Undecided? && conn.messages != []
                    && Taken(write, |conn.messages[0]|) < |conn.messages[0]|)
    {
      hide Parse, ReadLine, Ready, Joined, Admissible, ResponseTo;
      ghost var connected := conn.status == Connected;
      var status;
      status, dealt := OnRecv(write);
      if status != PARSE_RECV && decision == Undecided {
        decision := Decided(connected, write, dealt);
      }
    }

    /** A read.  One that delivers bytes reaches `on_recv`, one that delivers none is the end of the
        stream. */
    method NetIntoBuffer(event: NetEvent) returns (dealt: Dealt)
      requires Valid() && !Aborted() && event.Readable?
      requires event.read.ReadBytes? ==>
                 |event.read.bytes| <= buffer.data.Length - buffer.writeIndex + EXTRA_SIZE
      modifies this, conn, handler, buffer, buffer.data
      ensures Valid() && (buffer.data == old(buffer.data) || fresh(buffer.data))
      ensures received == old(received) + Delivered(event)
      ensures AfterEvent(event, dealt, old(conn.status), old(decision), old(conn.messages))
    {
      hide Fed, Parse, ReadLine, Joined, Admissible, ResponseTo, Accepted;
      dealt := Skipped;
      ghost var before := Fed(received);
      var n := buffer.ReadFd(event.read);
      if n == 0 {
        conn.HandleClose(Stop);
      } else if n > 0 {
        FedSnoc(received, event.read.bytes);
        received := received + [event.read.bytes];
        dealt := Receive(event.write, before, Fed(received));
      }
    }

    /** What an event does to the decision and the accepted messages, and when it brings the process
        down: a response that leaves only in part, a misused `*`, or a second close. */
    ghost predicate AfterEvent(
        event: NetEvent, dealt: Dealt, before: Status, decided: Decision, messages: seq<seq<char>>)
      reads this, conn
    {
      && (decided.Decided? ==> decision == decided && conn.messages == messages)
      && (decided.Undecided? && Fed(received).status != PARSE_RECV ==>
            Delivered(event) != [] && decision == Decided(before == Connected, event.write, dealt))
      && (Aborted() <==>
            if Delivered(event) != [] then
              || (dealt.Dealt? && dealt.lookup.Fatal?)
              || (decided.Undecided? && conn.messages != []
                  && Taken(event.write, |conn.messages[0]|) < |conn.messages[0]|)
            else
              before == Disconnected && (event.HangUp? || (event.Readable? && event.read.ReadBytes?)))
      // the end of the stream and a hang-up close the connection; an error or a writable socket does not
      && (Delivered(event) == [] ==>
            conn.status == if event.HangUp? || (event.Readable? && event.read.ReadBytes?) then Disconnected else before)
    }

    /** The loop reports an event. */
    method Handle(event: NetEvent) returns (dealt: Dealt)
      requires Valid() && !Aborted()
      requires event.Readable? && event.read.ReadBytes? ==>
                 |event.read.bytes| <= buffer.data.Length - buffer.writeIndex + EXTRA_SIZE
      modifies this, conn, handler, buffer, buffer.data
      ensures Valid() && (buffer.data == old(buffer.data) || fresh(buffer.data))
      ensures received == old(received) + Delivered(event)
      ensures AfterEvent(event, dealt, old(conn.status), old(decision), old(conn.messages))
    {
      hide Fed, Parse, ReadLine, Joined, Admissible, ResponseTo;
      dealt := Skipped;
      match event {
        case Readable(read, write) => dealt := NetIntoBuffer(event);
        case Writable(write) => conn.BufferIntoNet(write, Stop);
        case HangUp => conn.HandleClose(Stop);
      }
    }

    /** Any sequence of events; one that delivers more than `readv` can place does not happen. */
    method Run(events: seq<NetEvent>)
      requires Valid() && !Aborted()
      modifies this, conn, handler, buffer, buffer.data
      ensures Valid() && (buffer.data == old(buffer.data) || fresh(buffer.data))
      ensures old(received) <= received
      ensures old(decision).Decided? ==> decision == old(decision) && conn.messages == old(conn.messages)
      ensures |conn.messages| <= 1
    {
      hide Fed, Parse, ReadLine, Joined, Ready, Admissible, ResponseTo;
      var i := 0;
      while i < |events| && !Aborted()
        invariant Valid() && (buffer.data == old(buffer.data) || fresh(buffer.data))
        invariant old(received) <= received
        invariant old(decision).Decided? ==> decision == old(decision) && conn.messages == old(conn.messages)
      {
        var event := events[i];
        if event.Readable? && event.read.ReadBytes?
           && |event.read.bytes| > buffer.data.Length - buffer.writeIndex + EXTRA_SIZE {
        } else {
          var _ := Handle(event);
        }
        i := i + 1;
      }
    }

    /** The bytes an event delivers. */
    static function Delivered(event: NetEvent): (chunks: seq<seq<char>>)
      ensures chunks != [] ==> event.Readable? && event.read.ReadBytes? && chunks == [event.read.bytes]
    {
      if event.Readable? && event.read.ReadBytes? && event.read.bytes != [] then [event.read.bytes] else []
    }
  }

  lemma JoinedOne(m: seq<char>)
    ensures Joined([m]) == m
  {}

  lemma JoinedNone()
    ensures Joined([]) == []
  {}

  /** Whatever a connection has received and however it was cut, what the server has put on the wire
      is nothing or exactly one whole response, to the request that one parse of all the bytes yields:
      a response if and only if that parse ended well, while the connection was still connected, with
      a router there and a write that did not fail.  The response is the one of a handler that the
      table has for the request, or the 501 if it has none. */
  lemma AtMostOneResponse(session: HttpSession)
    requires session.Valid() && !session.Aborted() && session.received != []
    ensures var o, d := Parse(ReadLine, INITIAL, Flatten(session.received)), session.decision;
            && (d.Decided? <==> o.status != PARSE_RECV)
            && session.conn.messages == Accepted(o, d)
            && session.conn.wire == (if Accepted(o, d) == [] then [] else Accepted(o, d)[0])
            && (d.Decided? ==> session.conn.status != Connected && session.DealtFor(d.dealt, o.parser.req))
            && (Accepted(o, d) != [] ==> session.conn.writeShut)
    ensures session.conn.outBuffer == []
    ensures |session.conn.messages| <= 1
    ensures Parse(ReadLine, INITIAL, Flatten(session.received)).status != PARSE_END ==>
              session.conn.messages == [] && session.conn.wire == []
  {
    hide Fed, Feed, Parse, ReadLine, Flatten, Ready, Joined, Admissible, ResponseTo;
    FedIsFeed(session.received);
    ChunkingInvariance(ReadLine, INITIAL, [], session.received);
    assert [] + Flatten(session.received) == Flatten(session.received);
    var messages := session.conn.messages;
    if messages != [] {
      JoinedOne(messages[0]);
    }
    JoinedNone();
    assert session.conn.wire + [] == session.conn.wire;
  }

  /** The whole path: a client prints a well-formed message and the network cuts it at will.  If the
      connection was still connected when the last piece was parsed, there is a router, and the write
      did not fail, then exactly the whole response to that very message is on the wire; otherwise
      nothing is. */
  lemma RequestIsAnswered(session: HttpSession, sent: Request) returns (parsed: Request)
    requires session.Valid() && !session.Aborted()
    requires HttpRoundTrip.WellFormed(sent) && Flatten(session.received) == Dump(sent)
    ensures HttpRoundTrip.SameMessage(parsed, sent)
    ensures session.decision.Decided? && session.conn.status != Connected
    ensures session.DealtFor(session.decision.dealt, parsed)
    ensures session.conn.wire ==
            if session.decision.connected && session.router != null && !session.decision.write.WriteError?
            then ResponseTo(parsed, map[], session.decision.dealt.lookup) else []
    ensures session.decision.connected && session.router != null && !session.decision.write.WriteError? ==>
              if exists key, handler :: Serves(session.entries, key, parsed.path, parsed.method_, handler)
              then
                exists key, handler ::
                  && Serves(session.entries, key, parsed.path, parsed.method_, handler)
                  && session.conn.wire == handler(parsed, ToMap(Verdict(key, parsed.path).captures))
              else session.conn.wire == "HTTP/1.1 501 Not Implemented\r\n\r\n"
  {
    hide Parse, Feed, Fed, ReadLine, Flatten, Dump, Joined, Admissible, ResponseTo,
      HttpRoundTrip.WellFormed, HttpRoundTrip.SameMessage;
    HttpRoundTrip.EndToEnd(sent, session.received);
    AtMostOneResponse(session);
    ChunkingInvariance(ReadLine, INITIAL, [], session.received);
    assert [] + Flatten(session.received) == Flatten(session.received);
    parsed := Parse(ReadLine, INITIAL, Flatten(session.received)).parser.req;
    NotFatal(session);
    if session.decision.connected && session.router != null && !session.decision.write.WriteError? {
      AdmissibleAnswer(session.entries, parsed, session.decision.dealt.lookup);
    }
  }

  /** An admissible lookup answers with a handler that serves the request, if there is one, and with the
      501 otherwise. */
  lemma AdmissibleAnswer(entries: map<string, Handlers<Handler>>, req: Request, lookup: Lookup<Handler>)
    requires Admissible(entries, req.path, req.method_, lookup) && !lookup.Fatal?
    ensures if exists key, handler :: Serves(entries, key, req.path, req.method_, handler)
            then
              exists key, handler ::
                && Serves(entries, key, req.path, req.method_, handler)
                && ResponseTo(req, map[], lookup) == handler(req, ToMap(Verdict(key, req.path).captures))
            else ResponseTo(req, map[], lookup) == "HTTP/1.1 501 Not Implemented\r\n\r\n"
  {
    if lookup.Found? {
      var key :| Serves(entries, key, req.path, req.method_, lookup.handler)
                 && lookup.matches == ToMap(Verdict(key, req.path).captures);
      assert map[] + lookup.matches == lookup.matches;
      assert ResponseTo(req, map[], lookup) == lookup.handler(req, ToMap(Verdict(key, req.path).captures));
    }
  }

  lemma NotFatal(session: HttpSession)
    requires session.Valid() && !session.Aborted() && session.decision.Decided?
    ensures session.decision.dealt.Dealt? ==> !session.decision.dealt.lookup.Fatal?
  {
    hide Fed, Joined, Admissible, Ready;
  }

  lemma FedSnoc(received: seq<seq<char>>, chunk: seq<char>)
    ensures var before := Fed(received);
            Fed(received + [chunk])
            == if before.status != PARSE_RECV then before else Parse(ReadLine, before.parser, before.rest + chunk)
  {}
}
