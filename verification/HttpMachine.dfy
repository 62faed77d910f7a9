/**
 The resumable state machine of `parse_http` (http/HttpHandler.cpp:14-123) as a function of the
 unread bytes, for any way of interpreting a complete line; `HttpParser` supplies the one the code
 uses.  The theorems here hold of every such interpretation.
 */
module HttpMachine {
  import opened CStrings
  import opened HttpMessages

  datatype LineStatus = LINE_OK | LINE_BAD | LINE_OPEN
  datatype CheckState = REQUEST_LINE | HEADER | CONTENT
  datatype ParseStatus = PARSE_NEXT | PARSE_ERROR | PARSE_RECV | PARSE_END

  /** Interprets a complete line: what it means for the parse, and the request after it. */
  type LineReader = (CheckState, string, Request) -> (ParseStatus, Request)

  /** What the handler remembers between two calls. */
  datatype Parser = Parser(check: CheckState, lineIndex: nat, req: Request)

  /** A call's status, the handler after it, and the bytes left unread. */
  datatype Outcome = Outcome(status: ParseStatus, parser: Parser, rest: seq<char>)

  const INITIAL := Parser(REQUEST_LINE, 0, EMPTY_REQUEST)
  const BREAKS: set<char> := {'\r', '\n'}

  // ---------------------------------------------------------------- one line

  datatype LineScan = LineScan(status: LineStatus, index: nat)

  /** The loop of `parse_line`, from position `i`. */
  function ScanLine(b: seq<char>, i: nat): (r: LineScan)
    requires i <= |b|
    ensures i <= r.index <= |b|
    ensures r.status == LINE_OK ==> 2 <= r.index && i < r.index
    decreases |b| - i
  {
    if i == |b| then LineScan(LINE_OPEN, i)
    else if b[i] == '\r' then
      if i + 1 == |b| then LineScan(LINE_OPEN, i)
      else if b[i + 1] == '\n' then LineScan(LINE_OK, i + 2)
      else LineScan(LINE_BAD, i)
    else if b[i] == '\n' then
      if i > 0 && b[i - 1] == '\r' then LineScan(LINE_OK, i + 1) else LineScan(LINE_BAD, i)
    else ScanLine(b, i + 1)
  }

  /** `parse_content`. */
  function ParseContent(data: seq<char>, r: Request): (ParseStatus, Request) {
    if |data| >= r.contentLength then (PARSE_END, r.(body := r.body + data[..r.contentLength]))
    else (PARSE_RECV, r)
  }

  // ---------------------------------------------------------------- one call

  /** What holds of the handler and the unread bytes between two calls. */
  predicate Ready(p: Parser, b: seq<char>) {
    p.lineIndex <= |b| && (p.check == CONTENT ==> p.lineIndex == 0)
  }

  /** One turn of the loop: the call is over, or it goes on with fewer bytes. */
  datatype Turn = Done(outcome: Outcome) | More(parser: Parser, rest: seq<char>)

  /** Interprets a complete line and moves to the next state. */
  function Advance(read: LineReader, p: Parser, line: string): (r: (ParseStatus, Parser))
    requires p.check != CONTENT
    ensures r.1.lineIndex == 0
    ensures r.0 == PARSE_RECV ==> r.1.check != CONTENT
  {
    var (status, req) := read(p.check, line, p.req);
    var next := if p.check == REQUEST_LINE then HEADER else CONTENT;
    (status, Parser(if status == PARSE_NEXT then next else p.check, 0, req))
  }

  lemma AdvanceOf(read: LineReader, p: Parser, line: string, status: ParseStatus, req: Request)
    requires p.check != CONTENT && (status, req) == read(p.check, line, p.req)
    ensures var next := if p.check == REQUEST_LINE then HEADER else CONTENT;
            Advance(read, p, line) == (status, Parser(if status == PARSE_NEXT then next else p.check, 0, req))
  {}

  /** The turn that interprets `line`, with `rest` behind it. */
  function LineTurn(read: LineReader, p: Parser, line: string, rest: seq<char>): Turn
    requires p.check != CONTENT
  {
    var (status, p1) := Advance(read, p, line);
    if status == PARSE_NEXT || status == PARSE_RECV then More(p1, rest) else Done(Outcome(status, p1, rest))
  }

  function TurnOf(read: LineReader, p: Parser, b: seq<char>): (t: Turn)
    requires Ready(p, b)
    ensures t.More? ==> Ready(t.parser, t.rest) && |t.rest| < |b|
    ensures t.Done? ==> Ready(t.outcome.parser, t.outcome.rest) && t.outcome.status != PARSE_NEXT
  {
    if p.check == CONTENT then
      var (status, req) := ParseContent(b, p.req);
      Done(Outcome(status, p.(req := req), if status == PARSE_END then [] else b))
    else
      var scan := ScanLine(b, p.lineIndex);
      match scan.status
      case LINE_BAD => Done(Outcome(PARSE_ERROR, p.(lineIndex := scan.index), b))
      case LINE_OPEN => Done(Outcome(PARSE_RECV, p.(lineIndex := scan.index), b))
      case LINE_OK => LineTurn(read, p, CStr(b[..scan.index - 2]), b[scan.index..])
  }

  /** `parse_http` on the unread bytes `b`. */
  function Parse(read: LineReader, p: Parser, b: seq<char>): (o: Outcome)
    requires Ready(p, b)
    ensures Ready(o.parser, o.rest)
    ensures o.status != PARSE_NEXT
    decreases |b|
  {
    match TurnOf(read, p, b)
    case Done(o) => o
    case More(p1, rest) => Parse(read, p1, rest)
  }

  // ---------------------------------------------------------------- chunked input

  /** Append a chunk, parse, and go on while the parser asks for more. */
  function Feed(read: LineReader, p: Parser, unread: seq<char>, chunks: seq<seq<char>>): (o: Outcome)
    requires Ready(p, unread) && chunks != []
    ensures Ready(o.parser, o.rest)
    decreases |chunks|
  {
    var o := Parse(read, p, unread + chunks[0]);
    if o.status != PARSE_RECV || |chunks| == 1 then o else Feed(read, o.parser, o.rest, chunks[1..])
  }

  function Flatten(chunks: seq<seq<char>>): seq<char> {
    if chunks == [] then [] else chunks[0] + Flatten(chunks[1..])
  }

  /** More bytes do not change a decided line, and an open scan continues where it stopped. */
  lemma {:induction false} ScanExtends(a: seq<char>, b: seq<char>, i: nat)
    requires i <= |a|
    ensures ScanLine(a, i).status != LINE_OPEN ==> ScanLine(a + b, i) == ScanLine(a, i)
    ensures ScanLine(a, i).status == LINE_OPEN ==> ScanLine(a + b, ScanLine(a, i).index) == ScanLine(a + b, i)
    decreases |a| - i
  {
    if i < |a| && a[i] != '\r' && a[i] != '\n' {
      ScanExtends(a, b, i + 1);
    }
  }

  /** How one turn on more bytes relates to the turn on fewer. */
  ghost predicate TurnGrows(read: LineReader, part: Turn, whole: Turn, b: seq<char>)
    requires part.Done? && part.outcome.status == PARSE_RECV ==> Ready(part.outcome.parser, part.outcome.rest + b)
  {
    match part
    case More(p1, rest) => whole == More(p1, rest + b)
    case Done(o) =>
      if o.status == PARSE_RECV then whole == TurnOf(read, o.parser, o.rest + b)
      else whole.Done? && whole.outcome.status == o.status && whole.outcome.parser == o.parser
  }

  lemma ContentTurnGrows(read: LineReader, p: Parser, a: seq<char>, b: seq<char>)
    requires Ready(p, a) && p.check == CONTENT
    ensures TurnGrows(read, TurnOf(read, p, a), TurnOf(read, p, a + b), b)
  {}

  lemma FoundLineTurnGrows(read: LineReader, p: Parser, a: seq<char>, b: seq<char>)
    requires Ready(p, a) && p.check != CONTENT && ScanLine(a, p.lineIndex).status == LINE_OK
    ensures TurnGrows(read, TurnOf(read, p, a), TurnOf(read, p, a + b), b)
  {
    hide ScanLine, Advance, CStr;
    ScanExtends(a, b, p.lineIndex);
    var n := ScanLine(a, p.lineIndex).index;
    var line, rest := CStr(a[..n - 2]), a[n..];
    assert (a + b)[..n - 2] == a[..n - 2] && (a + b)[n..] == rest + b;
    assert TurnOf(read, p, a) == LineTurn(read, p, line, rest);
    assert TurnOf(read, p, a + b) == LineTurn(read, p, line, rest + b);
  }

  lemma NoLineTurnGrows(read: LineReader, p: Parser, a: seq<char>, b: seq<char>)
    requires Ready(p, a) && p.check != CONTENT && ScanLine(a, p.lineIndex).status != LINE_OK
    ensures TurnGrows(read, TurnOf(read, p, a), TurnOf(read, p, a + b), b)
  {
    ScanExtends(a, b, p.lineIndex);
  }

  lemma TurnExtends(read: LineReader, p: Parser, a: seq<char>, b: seq<char>)
    requires Ready(p, a)
    ensures TurnGrows(read, TurnOf(read, p, a), TurnOf(read, p, a + b), b)
  {
    if p.check == CONTENT {
      ContentTurnGrows(read, p, a, b);
    } else if ScanLine(a, p.lineIndex).status == LINE_OK {
      FoundLineTurnGrows(read, p, a, b);
    } else {
      NoLineTurnGrows(read, p, a, b);
    }
  }

  /** A call that wants more data is continued exactly; one that has decided keeps its decision. */
  lemma {:induction false} ParseExtends(read: LineReader, p: Parser, a: seq<char>, b: seq<char>)
    requires Ready(p, a)
    ensures var part, whole := Parse(read, p, a), Parse(read, p, a + b);
            if part.status == PARSE_RECV then whole == Parse(read, part.parser, part.rest + b)
            else whole.status == part.status && whole.parser == part.parser
    decreases |a|
  {
    TurnExtends(read, p, a, b);
    var t := TurnOf(read, p, a);
    if t.More? {
      ParseExtends(read, t.parser, t.rest, b);
    }
  }

  /** The status and the request do not depend on how the network cut the bytes, whatever the bytes
      are; and when more data is wanted, neither does anything the parser keeps. */
  lemma {:induction false} ChunkingInvariance(read: LineReader, p: Parser, unread: seq<char>, chunks: seq<seq<char>>)
    requires Ready(p, unread) && chunks != []
    ensures var fed := Feed(read, p, unread, chunks);
            var whole := Parse(read, p, unread + Flatten(chunks));
            && fed.status == whole.status
            && fed.parser == whole.parser
            && (fed.status == PARSE_RECV ==> fed.rest == whole.rest)
    decreases |chunks|
  {
    var first := Parse(read, p, unread + chunks[0]);
    assert unread + Flatten(chunks) == (unread + chunks[0]) + Flatten(chunks[1..]);
    ParseExtends(read, p, unread + chunks[0], Flatten(chunks[1..]));
    if |chunks| == 1 {
      assert (unread + chunks[0]) + Flatten(chunks[1..]) == unread + chunks[0];
    } else if first.status == PARSE_RECV {
      ChunkingInvariance(read, first.parser, first.rest, chunks[1..]);
    }
  }

  // ---------------------------------------------------------------- the line scan

  /** No CR or LF among the bytes already scanned. */
  predicate Scanned(b: seq<char>, i: nat) {
    i <= |b| && forall k :: 0 <= k < i ==> b[k] !in BREAKS
  }

  /** On bytes that are only ever scanned from a clean prefix, the first CR or LF decides: CR LF ends
      the line, a lone CR at the very end waits, and a bare LF or a CR before another byte is an
      error.  So the branch of `parse_line` for an LF after an already passed CR is never taken. */
  lemma {:induction false} ScanExact(b: seq<char>, i: nat)
    requires Scanned(b, i)
    ensures var q := Until(b, BREAKS, 0);
            ScanLine(b, i) ==
              (if q == |b| then LineScan(LINE_OPEN, |b|)
               else if b[q] == '\n' then LineScan(LINE_BAD, q)
               else if q + 1 == |b| then LineScan(LINE_OPEN, q)
               else if b[q + 1] == '\n' then LineScan(LINE_OK, q + 2)
               else LineScan(LINE_BAD, q))
    decreases |b| - i
  {
    if i < |b| && b[i] !in BREAKS {
      ScanExact(b, i + 1);
    }
  }

  /** Whenever the parser waits for more data, the bytes before `lineIndex` hold no CR or LF. */
  lemma {:induction false} ScannedIsKept(read: LineReader, p: Parser, b: seq<char>)
    requires Ready(p, b) && Scanned(b, p.lineIndex)
    ensures var o := Parse(read, p, b);
            o.status == PARSE_RECV ==> Scanned(o.rest, o.parser.lineIndex)
    decreases |b|
  {
    if p.check != CONTENT {
      ScanExact(b, p.lineIndex);
    }
    var t := TurnOf(read, p, b);
    if t.More? {
      ScannedIsKept(read, t.parser, t.rest);
    }
  }

  /** Outside the body, a turn rejects the bytes without interpreting a line exactly when the first
      CR or LF is a bare LF, or a CR before anything but LF. */
  lemma MalformedBreakIsError(read: LineReader, p: Parser, b: seq<char>)
    requires Ready(p, b) && Scanned(b, p.lineIndex) && p.check != CONTENT
    ensures var q := Until(b, BREAKS, 0);
            (exists i :: TurnOf(read, p, b) == Done(Outcome(PARSE_ERROR, p.(lineIndex := i), b))) <==>
            (q < |b| && (b[q] == '\n' || (q + 1 < |b| && b[q + 1] != '\n')))
  {
    ScanExact(b, p.lineIndex);
  }
}
