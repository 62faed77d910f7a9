/** The mutable request handler of http/HttpHandler.cpp, proved equal to `HttpMachine.Parse`. */
module HttpHandlers {
  import opened Buffers
  import opened CStrings
  import opened HttpMessages
  import opened HttpMachine
  import opened HttpParser

  /** A scan that starts at `text` stops at or before any NUL in it. */
  lemma CStrStopsAtNul(text: seq<char>, n: nat)
    requires n < |text| && text[n] == '\0'
    ensures |CStr(text)| <= n && CStr(text) == CStr(text[..n])
    ensures text[|CStr(text)|] == '\0'
  {}

  lemma SliceOfPrefix(text: seq<char>, n: nat, i: nat, j: nat)
    requires i <= j <= n <= |text|
    ensures text[..n][i..j] == text[i..j]
  {}

  /** The bytes after a CR LF pair at `p` has been overwritten. */
  function Blanked(b: seq<char>, p: nat): seq<char>
    requires p + 1 < |b|
  {
    b[p := '\0'][p + 1 := '\0']
  }

  lemma BlankedAround(b: seq<char>, p: nat)
    requires p + 1 < |b|
    ensures Blanked(b, p)[..p] == b[..p] && Blanked(b, p)[p] == '\0' && Blanked(b, p)[p + 2..] == b[p + 2..]
  {}

  class HttpHandler {
    var checkState: CheckState
    var lineState: LineStatus
    var lineIndex: nat
    var req: Request

    ghost function State(): Parser
      reads this
    {
      Parser(checkState, lineIndex, req)
    }

    constructor ()
      ensures State() == INITIAL
    {
      checkState := REQUEST_LINE;
      lineState := LINE_OPEN;
      lineIndex := 0;
      req := EMPTY_REQUEST;
    }

    method SetMethod(methodStr: string) returns (ok: bool)
      modifies this`req
      ensures ok == (MethodEnum(methodStr) != UNEXPECT_METHOD)
      ensures req == if ok then old(req).(method_ := MethodEnum(methodStr)) else old(req)
    {
      var m := MethodEnum(methodStr);
      if m == UNEXPECT_METHOD { return false; }
      req := req.(method_ := m);
      return true;
    }

    method SetUrl(url: string) returns (ok: bool)
      modifies this`req
      ensures ok == (url != "")
      ensures req == if ok then old(req).(path := url) else old(req)
    {
      if url == "" { return false; }
      req := req.(path := url);
      return true;
    }

    method SetVersion(version: string) returns (ok: bool)
      modifies this`req
      ensures ok == (version == VERSION)
      ensures req == if ok then old(req).(version := VERSION) else old(req)
    {
      if version != VERSION { return false; }
      req := req.(version := version);
      return true;
    }

    /** The NUL-terminated text is read in place; every access is within the bytes before its NUL. */
    method ParseRequestLine(text: seq<char>) returns (status: ParseStatus)
      requires |CStr(text)| < |text|
      modifies this`req
      ensures (status, req) == HttpParser.ParseRequestLine(CStr(text), old(req))
    {
      ghost var line := CStr(text);
      var index := TokenEnd(text, 0);
      if text[index] == '\0' { return PARSE_ERROR; }
      var start := index + 1;
      var ok := SetMethod(text[..index]);
      if !ok { return PARSE_ERROR; }
      index := TokenEnd(text, start);
      if text[index] == '\0' { return PARSE_ERROR; }
      ok := SetUrl(text[start..index]);
      if !ok { return PARSE_ERROR; }
      start := index + 1;
      index := TextEnd(text, start);
      assert text[start..index] == line[start..];
      ok := SetVersion(text[start..index]);
      if !ok { return PARSE_ERROR; }
      return PARSE_NEXT;
    }

    /** The scan for the next space; it stops at the NUL at the latest. */
    method TokenEnd(text: seq<char>, start: nat) returns (index: nat)
      requires |CStr(text)| < |text| && start <= |CStr(text)|
      ensures index == Until(CStr(text), {' '}, start)
      ensures text[index] == '\0' <==> index == |CStr(text)|
      ensures text[start..index] == CStr(text)[start..index]
    {
      ghost var line := CStr(text);
      index := start;
      while text[index] != '\0' && text[index] != ' '
        invariant start <= index <= |line| && forall k :: start <= k < index ==> line[k] != ' '
        decreases |line| - index
      {
        index := index + 1;
      }
      assert NulIsEnd(text, index);
      SliceOfPrefix(text, |line|, start, index);
    }

    /** The scan for the end of the text. */
    method TextEnd(text: seq<char>, start: nat) returns (index: nat)
      requires |CStr(text)| < |text| && start <= |CStr(text)|
      ensures index == |CStr(text)|
    {
      index := start;
      while text[index] != '\0'
        invariant start <= index <= |CStr(text)|
        decreases |CStr(text)| - index
      {
        index := index + 1;
      }
      assert NulIsEnd(text, index);
    }

    /** The first NUL is where the C string ends. */
    static ghost predicate NulIsEnd(text: seq<char>, index: nat)
      requires |CStr(text)| < |text| && index <= |CStr(text)|
      ensures text[index] == '\0' <==> index == |CStr(text)|
    {
      var s := CStr(text);
      index < |s| ==> s[index] in s
    }

    method ParseHeaders(text: seq<char>) returns (status: ParseStatus)
      requires |CStr(text)| < |text|
      modifies this`req
      ensures (status, req) == ParseHeader(CStr(text), old(req))
    {
      var line := CStr(text);
      if text[0] == '\0' {
        assert NulIsEnd(text, 0);
        return if req.contentLength != 0 then PARSE_NEXT else PARSE_END;
      }
      if HasPrefixNoCase(line, CONTENT_LENGTH_FIELD) {
        var value := line[Past(line, BLANKS, |CONTENT_LENGTH_FIELD|)..];
        req := req.(headers := req.headers[CONTENT_LENGTH := value]);
        req := req.(contentLength := ToSize(Atol(value)));
        return PARSE_RECV;
      }
      var start := Past(line, BLANKS, 0);
      var end := Until(line, BLANKS + {':'}, start);
      if start == end { return PARSE_ERROR; }
      var colon := Until(line, {':'}, start);
      if colon == |line| { return PARSE_ERROR; }
      var value := line[Past(line, BLANKS, colon + 1)..];
      req := req.(headers := req.headers[line[start..colon] := value]);
      return PARSE_RECV;
    }

    method ParseContent(data: seq<char>) returns (status: ParseStatus)
      modifies this`req
      ensures (status, req) == HttpMachine.ParseContent(data, old(req))
    {
      if |data| >= req.contentLength {
        req := req.(body := req.body + data[..req.contentLength]);
        return PARSE_END;
      }
      return PARSE_RECV;
    }

    method ParseLine(buffer: Buffer) returns (status: LineStatus)
      requires buffer.Valid() && lineIndex <= |buffer.Contents()|
      modifies this`lineIndex, buffer.data
      ensures buffer.Valid()
      ensures LineScan(status, lineIndex) == ScanLine(old(buffer.Contents()), old(lineIndex))
      ensures buffer.Contents() ==
              if status == LINE_OK then Blanked(old(buffer.Contents()), lineIndex - 2)
              else old(buffer.Contents())
    {
      ghost var was := buffer.Contents();
      var bufsize := buffer.ReadableBytes();
      while lineIndex < bufsize
        invariant buffer.Valid() && buffer.Contents() == was
        invariant lineIndex <= bufsize && ScanLine(was, lineIndex) == ScanLine(was, old(lineIndex))
        decreases bufsize - lineIndex
      {
        var tmp := buffer.Peek(lineIndex);
        if tmp == '\r' || tmp == '\n' {
          status := ParseBreak(buffer, bufsize, tmp);
          return;
        }
        lineIndex := lineIndex + 1;
      }
      return LINE_OPEN;
    }

    /** The scan has come to the CR or LF `tmp`. */
    method ParseBreak(buffer: Buffer, bufsize: nat, tmp: char) returns (status: LineStatus)
      requires buffer.Valid() && lineIndex < |buffer.Contents()| == bufsize
      requires tmp == buffer.Contents()[lineIndex] && (tmp == '\r' || tmp == '\n')
      modifies this`lineIndex, buffer.data
      ensures buffer.Valid()
      ensures LineScan(status, lineIndex) == ScanLine(old(buffer.Contents()), old(lineIndex))
      ensures buffer.Contents() ==
              if status == LINE_OK then Blanked(old(buffer.Contents()), lineIndex - 2)
              else old(buffer.Contents())
    {
      if tmp == '\r' {
        if lineIndex + 1 == bufsize {
          return LINE_OPEN;
        }
        var next := buffer.Peek(lineIndex + 1);
        if next == '\n' {
          buffer.ReplaceCrLf(lineIndex);
          lineIndex := lineIndex + 2;
          return LINE_OK;
        }
        return LINE_BAD;
      }
      if lineIndex > 0 {
        var previous := buffer.Peek(lineIndex - 1);
        if previous == '\r' {
          buffer.ReplaceCrLf(lineIndex - 1);
          lineIndex := lineIndex + 1;
          return LINE_OK;
        }
      }
      return LINE_BAD;
    }

    /** One call of the state machine. */
    method ParseHttp(buffer: Buffer) returns (status: ParseStatus)
      requires buffer.Valid() && Ready(State(), buffer.Contents())
      modifies this, buffer`readIndex, buffer.data
      ensures buffer.Valid()
      ensures Outcome(status, State(), buffer.Contents()) == Parse(ReadLine, old(State()), old(buffer.Contents()))
    {
      ghost var goal := Parse(ReadLine, State(), buffer.Contents());
      while true
        invariant buffer.Valid() && Ready(State(), buffer.Contents())
        invariant Parse(ReadLine, State(), buffer.Contents()) == goal
        decreases |buffer.Contents()|
      {
        var more;
        if checkState == CONTENT {
          lineState := LINE_OK;
          status := ParseBody(buffer);
          more := false;
        } else {
          more, status := ParseNextLine(buffer);
        }
        if !more {
          return;
        }
      }
    }

    /** The content case of the state machine. */
    method ParseBody(buffer: Buffer) returns (status: ParseStatus)
      requires buffer.Valid() && Ready(State(), buffer.Contents()) && checkState == CONTENT
      modifies this`req, buffer`readIndex
      ensures buffer.Valid()
      ensures TurnOf(ReadLine, old(State()), old(buffer.Contents())) ==
              Done(Outcome(status, State(), buffer.Contents()))
    {
      var text := buffer.data[buffer.readIndex..buffer.writeIndex];
      status := ParseContent(text);
      if status == PARSE_END {
        buffer.Retrieve(|text|);
      }
    }

    /** Outside the body: find a line, interpret it, move to the next state. */
    method ParseNextLine(buffer: Buffer) returns (more: bool, status: ParseStatus)
      requires buffer.Valid() && Ready(State(), buffer.Contents()) && checkState != CONTENT
      modifies this, buffer`readIndex, buffer.data
      ensures buffer.Valid()
      ensures TurnOf(ReadLine, old(State()), old(buffer.Contents())) ==
              if more then More(State(), buffer.Contents()) else Done(Outcome(status, State(), buffer.Contents()))
    {
      ghost var before, bytes := State(), buffer.Contents();
      lineState := ParseLine(buffer);
      if lineState != LINE_OK {
        return false, if lineState == LINE_BAD then PARSE_ERROR else PARSE_RECV;
      }
      ghost var n := lineIndex;
      ghost var line, rest := CStr(bytes[..n - 2]), bytes[n..];
      assert TurnOf(ReadLine, before, bytes) == LineTurn(ReadLine, before, line, rest);
      BlankedAround(bytes, n - 2);
      status := ConsumeLine(buffer, bytes[..n - 2]);
      assert buffer.Contents() == rest;
      AdvanceOf(ReadLine, before, line, status, req);
      more := status == PARSE_NEXT || status == PARSE_RECV;
      if status == PARSE_NEXT {
        checkState := if checkState == REQUEST_LINE then HEADER else CONTENT;
      }
    }

    /** The request-line and header cases: interpret the line found by the scan and drop it. */
    method ConsumeLine(buffer: Buffer, ghost line: seq<char>) returns (status: ParseStatus)
      requires buffer.Valid() && checkState != CONTENT && 2 <= lineIndex <= |buffer.Contents()|
      requires buffer.Contents()[..lineIndex - 2] == line && buffer.Contents()[lineIndex - 2] == '\0'
      modifies this`req, this`lineIndex, buffer`readIndex
      ensures buffer.Valid()
      ensures buffer.Contents() == old(buffer.Contents())[old(lineIndex)..] && lineIndex == 0
      ensures (status, req) == ReadLine(checkState, CStr(line), old(req))
    {
      var text := buffer.data[buffer.readIndex..buffer.writeIndex];
      CStrStopsAtNul(text, lineIndex - 2);
      if checkState == REQUEST_LINE {
        status := ParseRequestLine(text);
      } else {
        status := ParseHeaders(text);
      }
      buffer.Retrieve(lineIndex);
      lineIndex := 0;
    }

    /** Reading from the network: append whatever arrived, parse, and stop at the first status that
        is not a request for more data. */
    method Receive(buffer: Buffer, chunks: seq<seq<char>>) returns (status: ParseStatus)
      requires buffer.Valid() && Ready(State(), buffer.Contents()) && chunks != []
      modifies this, buffer, buffer.data
      ensures buffer.Valid() && (buffer.data == old(buffer.data) || fresh(buffer.data))
      ensures Outcome(status, State(), buffer.Contents()) == Feed(ReadLine, old(State()), old(buffer.Contents()), chunks)
    {
      ghost var goal := Feed(ReadLine, State(), buffer.Contents(), chunks);
      var i := 0;
      while true
        invariant i < |chunks|
        invariant buffer.Valid() && Ready(State(), buffer.Contents())
        invariant buffer.data == old(buffer.data) || fresh(buffer.data)
        invariant Feed(ReadLine, State(), buffer.Contents(), chunks[i..]) == goal
        decreases |chunks| - i
      {
        buffer.Append(chunks[i]);
        status := ParseHttp(buffer);
        i := i + 1;
        if status != PARSE_RECV || i == |chunks| {
          return;
        }
      }
    }
  }
}
