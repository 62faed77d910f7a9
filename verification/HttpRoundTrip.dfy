/**
 The parser undoes the printer, for every well-formed request and every cut of its bytes:
 http/HttpMsg.cpp:33-74 against http/HttpHandler.cpp:14-205.
 */
module HttpRoundTrip {
  import opened CStrings
  import opened HttpMessages
  import opened HttpMachine
  import opened HttpParser

  /** None of the characters of `s` is `c`. */
  predicate Free(s: string, c: char) {
    forall k :: 0 <= k < |s| ==> s[k] != c
  }

  /** No CR, LF or NUL. */
  predicate Plain(s: string) {
    Free(s, '\r') && Free(s, '\n') && Free(s, '\0')
  }

  predicate StartsBlank(s: string) {
    s != "" && s[0] in BLANKS
  }

  predicate SameNoCase(a: string, b: string) {
    |a| == |b| && HasPrefixNoCase(a, b)
  }

  predicate WellFormedHeader(key: string, value: string) {
    && Plain(key) && key != "" && Free(key, ':') && !StartsBlank(key)
    && Plain(value) && !StartsBlank(value)
    && (SameNoCase(key, CONTENT_LENGTH) ==> key == CONTENT_LENGTH)
  }

  /** The requests whose printed form the parser is meant to read back. */
  predicate WellFormed(r: Request) {
    && r.method_ != UNEXPECT_METHOD
    && Plain(r.path) && r.path != "" && Free(r.path, ' ')
    && (forall k :: k in r.headers ==> WellFormedHeader(k, r.headers[k]))
    && (CONTENT_LENGTH in r.headers ==> ToSize(Atol(r.headers[CONTENT_LENGTH])) == |r.body|)
    && (r.body != "" ==> CONTENT_LENGTH in r.headers)
  }

  /** What the parser's request must agree on with the printed one. */
  predicate SameMessage(parsed: Request, sent: Request) {
    && parsed.method_ == sent.method_
    && parsed.path == sent.path
    && parsed.version == VERSION
    && parsed.headers == sent.headers
    && parsed.body == sent.body
  }

  // ---------------------------------------------------------------- one printed line

  lemma LineIsScanned(line: string, rest: seq<char>)
    requires Plain(line)
    ensures var b := line + CRLF + rest;
            && ScanLine(b, 0) == LineScan(LINE_OK, |line| + 2)
            && b[..|line|] == line && b[|line| + 2..] == rest
  {
    var b := line + CRLF + rest;
    assert forall k :: 0 <= k < |line| ==> b[k] == line[k];
    assert b[|line|] == '\r' && b[|line| + 1] == '\n';
    assert Until(b, BREAKS, 0) == |line|;
    ScanExact(b, 0);
  }

  lemma LineIsRead(p: Parser, line: string, rest: seq<char>)
    requires Plain(line) && p.check != CONTENT && p.lineIndex == 0
    ensures TurnOf(ReadLine, p, line + CRLF + rest) == LineTurn(ReadLine, p, line, rest)
  {
    LineIsScanned(line, rest);
    CStrOfTerminated(line, "");
  }

  lemma PlainConcat(a: string, b: string)
    requires Plain(a) && Plain(b)
    ensures Plain(a + b)
  {}

  lemma MethodIsRead(m: HttpMethod)
    requires m != UNEXPECT_METHOD
    ensures MethodEnum(MethodStr(m)) == m && Plain(MethodStr(m)) && Free(MethodStr(m), ' ')
  {}

  /** One token of a line, up to the separator. */
  lemma TokenIsRead(line: string, from: nat, token: string, separator: char, rest: string)
    requires from <= |line| && line[from..] == token + ([separator] + rest) && Free(token, separator)
    ensures var j := from + |token|;
            && j < |line|
            && Until(line, {separator}, from) == j && line[j] == separator
            && line[from..j] == token && line[j + 1..] == rest
  {
    var j := from + |token|;
    var tail := line[from..];
    assert tail[|token|] == separator && line[j] == separator;
    assert forall k :: from <= k < j ==> line[k] == tail[k - from] == token[k - from];
    assert line[from..j] == tail[..|token|] == token;
    assert line[j + 1..] == tail[|token| + 1..] == rest;
  }

  lemma RequestLineIsPlain(r: Request)
    requires WellFormed(r)
    ensures RequestLine(r) == MethodStr(r.method_) + ([' '] + (r.path + ([' '] + VERSION)))
    ensures Plain(RequestLine(r))
  {
    MethodIsRead(r.method_);
    CStrOfTerminated(r.path, "");
    var tail := [' '] + VERSION;
    PlainConcat(r.path, tail);
    PlainConcat([' '], r.path + tail);
    PlainConcat(MethodStr(r.method_), [' '] + (r.path + tail));
    assert RequestLine(r) == MethodStr(r.method_) + ([' '] + (r.path + tail));
  }

  lemma PathIsFree(r: Request)
    requires WellFormed(r)
    ensures r.method_ != UNEXPECT_METHOD && r.path != "" && Free(r.path, ' ')
  {}

  lemma RequestLineIsRead(r: Request, into: Request)
    requires WellFormed(r)
    ensures Plain(RequestLine(r))
    ensures ParseRequestLine(RequestLine(r), into) ==
            (PARSE_NEXT, into.(method_ := r.method_, path := r.path, version := VERSION))
  {
    hide WellFormed, Plain, Free, MethodEnum;
    PathIsFree(r);
    RequestLineIsPlain(r);
    MethodIsRead(r.method_);
    var line, m := RequestLine(r), MethodStr(r.method_);
    assert line[0..] == line;
    TokenIsRead(line, 0, m, ' ', r.path + ([' '] + VERSION));
    TokenIsRead(line, |m| + 1, r.path, ' ', VERSION);
  }

  /** The request after the field `key: value` has been read. */
  function WithHeader(r: Request, key: string, value: string): Request {
    var r1 := r.(headers := r.headers[key := value]);
    if key == CONTENT_LENGTH then r1.(contentLength := ToSize(Atol(value))) else r1
  }

  lemma HeaderLineIsPlain(key: string, value: string)
    requires WellFormedHeader(key, value)
    ensures Plain(HeaderLine(key, value))
  {}

  /** The value of a printed field starts after the colon and one space. */
  lemma ValueIsRead(line: string, from: nat, value: string)
    requires from <= |line| && line[from..] == [' '] + value && !StartsBlank(value)
    ensures line[Past(line, BLANKS, from)..] == value
  {}

  lemma ContentLengthLineIsRead(value: string, into: Request)
    requires !StartsBlank(value)
    ensures ParseHeader(HeaderLine(CONTENT_LENGTH, value), into) ==
            (PARSE_RECV, WithHeader(into, CONTENT_LENGTH, value))
  {
    var line := HeaderLine(CONTENT_LENGTH, value);
    var n := |CONTENT_LENGTH_FIELD|;
    assert CONTENT_LENGTH + ": " == CONTENT_LENGTH_FIELD + [' '];
    assert line == CONTENT_LENGTH_FIELD + ([' '] + value);
    assert line[..n] == CONTENT_LENGTH_FIELD && line[n..] == [' '] + value;
    ValueIsRead(line, n, value);
  }

  /** The special case of `parse_headers` is taken for no other well-formed key. */
  lemma NotContentLength(line: string, key: string)
    requires |key| < |line| && line[..|key|] == key && line[|key|] == ':'
    requires Free(key, ':') && !SameNoCase(key, CONTENT_LENGTH)
    ensures !HasPrefixNoCase(line, CONTENT_LENGTH_FIELD)
  {
    assert CONTENT_LENGTH_FIELD == CONTENT_LENGTH + [':'];
    if |key| < 14 {
      FieldHasNoColon(|key|);
      assert ToLower(line[|key|]) != ToLower(CONTENT_LENGTH_FIELD[|key|]);
    } else if |key| == 14 {
      var k :| 0 <= k < 14 && ToLower(key[k]) != ToLower(CONTENT_LENGTH[k]);
      assert ToLower(line[k]) != ToLower(CONTENT_LENGTH_FIELD[k]);
    } else {
      assert line[14] == key[14];
      assert ToLower(line[14]) != ToLower(CONTENT_LENGTH_FIELD[14]);
    }
  }

  lemma FieldHasNoColon(k: nat)
    requires k < |CONTENT_LENGTH|
    ensures ToLower(CONTENT_LENGTH[k]) != ':'
  {}

  lemma PlainHeaderLineIsRead(key: string, value: string, into: Request)
    requires WellFormedHeader(key, value) && key != CONTENT_LENGTH
    ensures ParseHeader(HeaderLine(key, value), into) == (PARSE_RECV, WithHeader(into, key, value))
  {
    var line := HeaderLine(key, value);
    assert line == key + ([':'] + ([' '] + value));
    assert line[0..] == line;
    TokenIsRead(line, 0, key, ':', [' '] + value);
    NotContentLength(line, key);
    assert line[0] == key[0];
    assert Past(line, BLANKS, 0) == 0;
    assert Until(line, BLANKS + {':'}, 0) != 0;
    ValueIsRead(line, |key| + 1, value);
  }

  lemma HeaderLineIsRead(key: string, value: string, into: Request)
    requires WellFormedHeader(key, value)
    ensures ParseHeader(HeaderLine(key, value), into) == (PARSE_RECV, WithHeader(into, key, value))
  {
    if key == CONTENT_LENGTH {
      ContentLengthLineIsRead(value, into);
    } else {
      PlainHeaderLineIsRead(key, value, into);
    }
  }

  // ---------------------------------------------------------------- the header section

  /** The request after all fields of `order` have been read. */
  function WithHeaders(r: Request, order: seq<string>, headers: map<string, string>): Request
    requires forall k :: k in order ==> k in headers
    decreases |order|
  {
    if order == [] then r
    else WithHeaders(WithHeader(r, order[0], headers[order[0]]), order[1..], headers)
  }

  lemma {:induction false} HeaderBlockIsRead(
      req: Request, order: seq<string>, headers: map<string, string>, rest: seq<char>)
    requires forall k :: k in order ==> k in headers && WellFormedHeader(k, headers[k])
    ensures Parse(ReadLine, Parser(HEADER, 0, req), HeaderBlock(order, headers) + (CRLF + rest)) ==
            Parse(ReadLine, Parser(HEADER, 0, WithHeaders(req, order, headers)), CRLF + rest)
    decreases |order|
  {
    var b := HeaderBlock(order, headers) + (CRLF + rest);
    if order == [] {
      assert b == CRLF + rest;
    } else {
      var key, value := order[0], headers[order[0]];
      var tail := HeaderBlock(order[1..], headers) + (CRLF + rest);
      assert b == HeaderLine(key, value) + CRLF + tail;
      HeaderLineTurn(key, value, req, tail);
      HeaderBlockIsRead(WithHeader(req, key, value), order[1..], headers, rest);
    }
  }

  lemma HeaderLineTurn(key: string, value: string, req: Request, tail: seq<char>)
    requires WellFormedHeader(key, value)
    ensures TurnOf(ReadLine, Parser(HEADER, 0, req), HeaderLine(key, value) + CRLF + tail) ==
            More(Parser(HEADER, 0, WithHeader(req, key, value)), tail)
  {
    HeaderLineIsPlain(key, value);
    LineIsRead(Parser(HEADER, 0, req), HeaderLine(key, value), tail);
    HeaderLineIsRead(key, value, req);
  }

  /** Reading the fields in any order, each once, rebuilds the header map and the body length. */
  lemma {:induction false} HeadersAreRebuilt(r: Request, order: seq<string>, headers: map<string, string>)
    requires forall k :: k in order ==> k in headers
    ensures var w := WithHeaders(r, order, headers);
            && w.headers.Keys == r.headers.Keys + (set k | k in order)
            && (forall k :: k in order ==> w.headers[k] == headers[k])
            && (forall k :: k in r.headers && k !in order ==> w.headers[k] == r.headers[k])
            && w.contentLength == (if CONTENT_LENGTH in order then ToSize(Atol(headers[CONTENT_LENGTH]))
                                   else r.contentLength)
            && w.method_ == r.method_ && w.path == r.path && w.version == r.version && w.body == r.body
    decreases |order|
  {
    if order != [] {
      var key := order[0];
      var r1 := WithHeader(r, key, headers[key]);
      HeadersAreRebuilt(r1, order[1..], headers);
      var w := WithHeaders(r, order, headers);
      assert order == [key] + order[1..];
      assert r1.headers.Keys == r.headers.Keys + {key};
    }
  }

  // ---------------------------------------------------------------- the theorems

  /** The parser reads the printed request back, whatever the traversal order of the headers. */
  lemma ParseUndoesDumpInOrder(r: Request, order: seq<string>)
    requires WellFormed(r) && Enumerates(order, r.headers.Keys)
    ensures var o := Parse(ReadLine, INITIAL, DumpInOrder(r, order));
            o.status == PARSE_END && SameMessage(o.parser.req, r) && o.rest == []
  {
    hide Parse, ReadLine, HeaderBlock, RequestLine, Atol, ToSize;
    var req1 := EMPTY_REQUEST.(method_ := r.method_, path := r.path, version := VERSION);
    FirstLineIsRead(r, HeaderBlock(order, r.headers) + (CRLF + r.body));
    HeaderBlockIsRead(req1, order, r.headers, r.body);
    HeadersAreRebuilt(req1, order, r.headers);
    var req2 := WithHeaders(req1, order, r.headers);
    assert req2.headers.Keys == r.headers.Keys;
    assert req2.headers == r.headers;
    assert req2.contentLength == |r.body|;
    BlankLineIsRead(req2, r.body);
  }

  lemma FirstLineIsRead(r: Request, tail: seq<char>)
    requires WellFormed(r)
    ensures var req1 := EMPTY_REQUEST.(method_ := r.method_, path := r.path, version := VERSION);
            Parse(ReadLine, INITIAL, RequestLine(r) + CRLF + tail) == Parse(ReadLine, Parser(HEADER, 0, req1), tail)
  {
    RequestLineIsRead(r, EMPTY_REQUEST);
    LineIsRead(INITIAL, RequestLine(r), tail);
  }

  /** The blank line, and the body if one was announced. */
  lemma BlankLineIsRead(req: Request, body: seq<char>)
    requires req.contentLength == |body| && req.body == ""
    ensures var o := Parse(ReadLine, Parser(HEADER, 0, req), CRLF + body);
            o.status == PARSE_END && o.parser.req == req.(body := body) && o.rest == []
  {}

  lemma ParseUndoesDump(r: Request)
    requires WellFormed(r)
    ensures var o := Parse(ReadLine, INITIAL, Dump(r));
            o.status == PARSE_END && SameMessage(o.parser.req, r) && o.rest == []
  {
    SortedKeysEnumerate(r.headers.Keys);
    ParseUndoesDumpInOrder(r, SortedKeys(r.headers.Keys));
  }

  /** End to end: however the printed bytes are cut into chunks, parsing after every chunk ends with
      the message that was sent. */
  lemma EndToEnd(r: Request, chunks: seq<seq<char>>)
    requires WellFormed(r) && Flatten(chunks) == Dump(r)
    ensures chunks != []
         && var o := Feed(ReadLine, INITIAL, [], chunks);
            o.status == PARSE_END && SameMessage(o.parser.req, r)
  {
    assert chunks != [] by {
      assert |RequestLine(r)| > 0;
    }
    ParseUndoesDump(r);
    ChunkingInvariance(ReadLine, INITIAL, [], chunks);
    assert [] + Flatten(chunks) == Dump(r);
  }

  /** `setContent` announces the right length exactly when no body was there before: a second,
      non-empty call leaves a message whose announced length is too small. */
  lemma SetContentAnnouncesLength(r: Request, piece: string)
    requires |piece| <= LONG_MAX
    ensures var after := SetContent(r, piece);
            ToSize(Atol(after.headers[CONTENT_LENGTH])) == |after.body| <==> r.body == ""
  {
    AtolOfDecimal(|piece|);
  }

  lemma ContentLengthIsWellFormed(n: nat)
    ensures WellFormedHeader(CONTENT_LENGTH, Decimal(n))
  {}

  /** Setting a body on a message without one keeps it well-formed. */
  lemma SetContentKeepsWellFormed(r: Request, piece: string)
    requires WellFormed(r) && r.body == "" && |piece| <= LONG_MAX
    ensures WellFormed(SetContent(r, piece))
  {
    SetContentAnnouncesLength(r, piece);
    ContentLengthIsWellFormed(|piece|);
    var after := SetContent(r, piece);
    assert forall k :: k in after.headers ==> k == CONTENT_LENGTH || after.headers[k] == r.headers[k];
  }
}
