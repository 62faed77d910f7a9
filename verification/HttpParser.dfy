/** The line interpreters of http/HttpHandler.cpp:125-196, and the parser they make. */
module HttpParser {
  import opened CStrings
  import opened HttpMessages
  import opened HttpMachine

  const BLANKS: set<char> := {' ', '\t'}
  const CONTENT_LENGTH_FIELD := "Content-length:"

  /** `parse_request_line` on the C string `line`. */
  function ParseRequestLine(line: string, r: Request): (ParseStatus, Request) {
    var i := Until(line, {' '}, 0);
    if i == |line| then (PARSE_ERROR, r)
    else if MethodEnum(line[..i]) == UNEXPECT_METHOD then (PARSE_ERROR, r)
    else
      var r1 := r.(method_ := MethodEnum(line[..i]));
      var j := Until(line, {' '}, i + 1);
      if j == |line| || j == i + 1 then (PARSE_ERROR, r1)
      else
        var r2 := r1.(path := line[i + 1..j]);
        if line[j + 1..] != VERSION then (PARSE_ERROR, r2)
        else (PARSE_NEXT, r2.(version := VERSION))
  }

  /** `parse_headers` on the C string `line`. */
  function ParseHeader(line: string, r: Request): (ParseStatus, Request) {
    if line == "" then
      (if r.contentLength != 0 then PARSE_NEXT else PARSE_END, r)
    else if HasPrefixNoCase(line, CONTENT_LENGTH_FIELD) then
      var value := line[Past(line, BLANKS, |CONTENT_LENGTH_FIELD|)..];
      (PARSE_RECV, r.(headers := r.headers[CONTENT_LENGTH := value], contentLength := ToSize(Atol(value))))
    else
      var start := Past(line, BLANKS, 0);
      var colon := Until(line, {':'}, start);
      if Until(line, BLANKS + {':'}, start) == start || colon == |line| then (PARSE_ERROR, r)
      else
        var value := line[Past(line, BLANKS, colon + 1)..];
        (PARSE_RECV, r.(headers := r.headers[line[start..colon] := value]))
  }

  /** The interpretation of a line in each state. */
  function ReadLine(check: CheckState, line: string, r: Request): (ParseStatus, Request) {
    if check == REQUEST_LINE then ParseRequestLine(line, r) else ParseHeader(line, r)
  }
}
