/**
 Request messages as text, in the terms of RFC 9112 sections 2.1, 3, 5 and 6.2 and of nothing the
 parser is built from, and what the parser makes of every such text: http/HttpHandler.cpp:125-205.
 */
module HttpGrammar {
  import opened CStrings
  import opened HttpMessages
  import opened HttpMachine
  import opened HttpParser
  import opened HttpRoundTrip

  // ---------------------------------------------------------------- letters and fields

  /** Equal, or one letter in upper and in lower case. */
  predicate SameLetter(a: char, b: char) {
    || a == b
    || ('A' <= a <= 'Z' && b as int == a as int + 32)
    || ('A' <= b <= 'Z' && a as int == b as int + 32)
  }

  predicate CaseVariant(a: string, b: string) {
    |a| == |b| && forall i :: 0 <= i < |a| ==> SameLetter(a[i], b[i])
  }

  /** Spaces and tabs only. */
  predicate Blank(s: string) {
    forall i :: 0 <= i < |s| ==> s[i] == ' ' || s[i] == '\t'
  }

  /** A field line is `lead name : pad value`. */
  datatype Field = Field(lead: string, name: string, pad: string, value: string)

  predicate Readable(f: Field) {
    && Blank(f.lead) && Blank(f.pad)
    && Plain(f.name) && f.name != "" && Free(f.name, ':') && f.name[0] != ' ' && f.name[0] != '\t'
    && Plain(f.value) && (f.value != "" ==> f.value[0] != ' ' && f.value[0] != '\t')
  }

  function FieldLine(f: Field): string {
    f.lead + (f.name + ([':'] + (f.pad + f.value)))
  }

  /** The field that announces the body's length, however it is spelled, but not indented. */
  predicate Announces(f: Field) {
    f.lead == "" && CaseVariant(f.name, "Content-length")
  }

  /** The line begins with some spelling of `Content-length:`. */
  predicate LengthLine(line: string) {
    |line| >= 15 && CaseVariant(line[..14], "Content-length") && line[14] == ':'
  }

  lemma ToLowerIsCaseVariant(a: char, b: char)
    ensures ToLower(a) == ToLower(b) <==> SameLetter(a, b)
  {}

  lemma PrefixIsLengthLine(line: string)
    ensures HasPrefixNoCase(line, CONTENT_LENGTH_FIELD) <==> LengthLine(line)
  {
    var field := CONTENT_LENGTH_FIELD;
    assert |field| == 15 && field[14] == ':' && forall i :: 0 <= i < 14 ==> field[i] == "Content-length"[i];
    forall i | 0 <= i < 15 && i < |line|
      ensures ToLower(line[i]) == ToLower(field[i]) <==> SameLetter(line[i], field[i])
    {
      ToLowerIsCaseVariant(line[i], field[i]);
    }
    if LengthLine(line) {
      forall i | 0 <= i < 15 ensures ToLower(line[i]) == ToLower(field[i]) {
        assert i < 14 ==> SameLetter(line[..14][i], "Content-length"[i]);
      }
    }
    if HasPrefixNoCase(line, field) {
      assert forall i :: 0 <= i < 14 ==> SameLetter(line[..14][i], "Content-length"[i]);
    }
  }

  lemma BlanksArePassed(line: string, from: nat, pad: string, rest: string)
    requires from <= |line| && line[from..] == pad + rest && Blank(pad)
    requires rest != "" ==> rest[0] != ' ' && rest[0] != '\t'
    ensures Past(line, BLANKS, from) == from + |pad| && line[from + |pad|..] == rest
  {
    assert forall k :: from <= k < from + |pad| ==> line[k] == line[from..][k - from] == pad[k - from];
    assert rest != "" ==> line[from + |pad|] == line[from..][|pad|] == rest[0];
  }

  /** Any spelling of `Content-length`, with any blanks after the colon, sets the body's length and is
      entered under the one spelling. */
  lemma LengthIsReadInAnySpelling(k: string, pad: string, value: string, r: Request)
    requires CaseVariant(k, "Content-length") && Blank(pad)
    requires value != "" ==> value[0] != ' ' && value[0] != '\t'
    ensures ParseHeader(k + ":" + pad + value, r) ==
            (PARSE_RECV, r.(headers := r.headers["Content-length" := value], contentLength := ToSize(Atol(value))))
    ensures forall n: nat :: n <= LONG_MAX && value == Decimal(n) ==>
              ParseHeader(k + ":" + pad + value, r).1.contentLength == n
  {
    var line := k + ":" + pad + value;
    assert line[..14] == k && line[14] == ':';
    PrefixIsLengthLine(line);
    assert line[15..] == pad + value;
    BlanksArePassed(line, 15, pad, value);
    forall n: nat | n <= LONG_MAX && value == Decimal(n) ensures ToSize(Atol(value)) == n {
      AtolOfDecimal(n);
    }
  }

  /** No other line changes the body's length. */
  lemma OtherLinesKeepLength(line: string, r: Request)
    requires !LengthLine(line)
    ensures ParseHeader(line, r).1.contentLength == r.contentLength
  {
    PrefixIsLengthLine(line);
  }

  function Enter(r: Request, f: Field): Request {
    if Announces(f)
    then r.(headers := r.headers["Content-length" := f.value], contentLength := ToSize(Atol(f.value)))
    else r.(headers := r.headers[f.name := f.value])
  }

  lemma FieldShape(f: Field)
    requires Readable(f)
    ensures var line, start := FieldLine(f), |f.lead|;
            && |line| > start + |f.name| && line[start + |f.name|] == ':'
            && (start > 0 ==> line[0] == ' ' || line[0] == '\t')
            && (forall k :: start <= k < start + |f.name| ==> line[k] == f.name[k - start] && line[k] != ':')
  {}

  lemma LengthLineAnnounces(f: Field)
    requires Readable(f) && LengthLine(FieldLine(f))
    ensures Announces(f)
  {
    var line := FieldLine(f);
    forall i | 0 <= i < 14 ensures line[i] != ' ' && line[i] != '\t' && line[i] != ':' {
      assert SameLetter(line[..14][i], "Content-length"[i]);
    }
    FieldShape(f);
    assert line[..14] == f.name;
  }

  lemma FieldSlices(f: Field)
    requires Readable(f)
    ensures var line, after := FieldLine(f), f.pad + f.value;
            && |line| == |f.lead| + |f.name| + 1 + |after|
            && line[0..] == f.lead + (f.name + ([':'] + after))
            && line[|f.lead|..] == f.name + ([':'] + after)
            && line[|f.lead| + |f.name| + 1..] == after
            && f.name != "" && Free(f.name, ':') && f.name[0] != ' ' && f.name[0] != '\t'
            && Blank(f.lead) && Blank(f.pad) && (f.value != "" ==> f.value[0] != ' ' && f.value[0] != '\t')
  {}

  /** Where the parts of a field line are found. */
  lemma FieldParts(f: Field)
    requires Readable(f)
    ensures var line, start, colon := FieldLine(f), |f.lead|, |f.lead| + |f.name|;
            && colon < |line|
            && Past(line, BLANKS, 0) == start && Until(line, BLANKS + {':'}, start) != start
            && Until(line, {':'}, start) == colon && line[start..colon] == f.name
            && line[Past(line, BLANKS, colon + 1)..] == f.value
  {
    hide *;
    LeadIsPassed(f);
    FieldSlices(f);
    KeyIsFound(FieldLine(f), |f.lead|, f.name, f.pad + f.value);
    PadIsPassed(f);
  }

  lemma LeadIsPassed(f: Field)
    requires Readable(f)
    ensures Past(FieldLine(f), BLANKS, 0) == |f.lead|
  {
    hide Readable, Free, FieldLine, Past, Blank;
    FieldSlices(f);
    BlanksArePassed(FieldLine(f), 0, f.lead, f.name + ([':'] + (f.pad + f.value)));
  }

  lemma PadIsPassed(f: Field)
    requires Readable(f)
    ensures var line, colon := FieldLine(f), |f.lead| + |f.name|;
            colon < |line| && line[Past(line, BLANKS, colon + 1)..] == f.value
  {
    hide Readable, Free, FieldLine, Past, Blank;
    FieldSlices(f);
    BlanksArePassed(FieldLine(f), |f.lead| + |f.name| + 1, f.pad, f.value);
  }

  lemma KeyIsFound(line: string, start: nat, name: string, after: string)
    requires start <= |line| && line[start..] == name + ([':'] + after)
    requires name != "" && Free(name, ':') && name[0] != ' ' && name[0] != '\t'
    ensures var colon := start + |name|;
            && colon < |line| && Until(line, {':'}, start) == colon && line[start..colon] == name
            && Until(line, BLANKS + {':'}, start) != start
  {
    hide Free;
    TokenIsRead(line, start, name, ':', after);
    assert line[start] == line[start..][0] == name[0];
  }

  lemma PlainFieldIsRead(f: Field, r: Request)
    requires Readable(f) && !Announces(f)
    ensures ParseHeader(FieldLine(f), r) == (PARSE_RECV, r.(headers := r.headers[f.name := f.value]))
  {
    hide Announces, LengthLine, HasPrefixNoCase, Readable, Past, Until, FieldLine;
    FieldParts(f);
    if LengthLine(FieldLine(f)) {
      LengthLineAnnounces(f);
    }
    PrefixIsLengthLine(FieldLine(f));
  }

  /** Every readable field line is entered as it is written. */
  lemma FieldIsRead(f: Field, r: Request)
    requires Readable(f)
    ensures ParseHeader(FieldLine(f), r) == (PARSE_RECV, Enter(r, f))
  {
    hide ParseHeader, CaseVariant;
    if Announces(f) {
      assert FieldLine(f) == f.name + ":" + f.pad + f.value;
      LengthIsReadInAnySpelling(f.name, f.pad, f.value, r);
    } else {
      PlainFieldIsRead(f, r);
    }
  }

  // ---------------------------------------------------------------- whole messages

  function FieldsText(fields: seq<Field>): string {
    if fields == [] then "" else FieldLine(fields[0]) + ("\r\n" + FieldsText(fields[1..]))
  }

  function MessageText(name: string, path: string, fields: seq<Field>, body: string): string {
    name + " " + path + " HTTP/1.1" + "\r\n" + (FieldsText(fields) + ("\r\n" + body))
  }

  function EnterAll(r: Request, fields: seq<Field>): Request
    decreases |fields|
  {
    if fields == [] then r else EnterAll(Enter(r, fields[0]), fields[1..])
  }

  predicate AllReadable(fields: seq<Field>) {
    forall i :: 0 <= i < |fields| ==> Readable(fields[i])
  }

  lemma FieldLineIsPlain(f: Field)
    requires Readable(f)
    ensures Plain(FieldLine(f))
  {}

  lemma FieldTurn(f: Field, r: Request, tail: seq<char>)
    requires Readable(f)
    ensures TurnOf(ReadLine, Parser(HEADER, 0, r), FieldLine(f) + CRLF + tail) ==
            More(Parser(HEADER, 0, Enter(r, f)), tail)
  {
    FieldLineIsPlain(f);
    LineIsRead(Parser(HEADER, 0, r), FieldLine(f), tail);
    FieldIsRead(f, r);
  }

  lemma {:induction false} FieldsAreRead(r: Request, fields: seq<Field>, rest: seq<char>)
    requires AllReadable(fields)
    ensures Parse(ReadLine, Parser(HEADER, 0, r), FieldsText(fields) + rest) ==
            Parse(ReadLine, Parser(HEADER, 0, EnterAll(r, fields)), rest)
    decreases |fields|
  {
    var b := FieldsText(fields) + rest;
    if fields == [] {
      assert b == rest;
    } else {
      var tail := FieldsText(fields[1..]) + rest;
      assert b == FieldLine(fields[0]) + CRLF + tail;
      FieldTurn(fields[0], r, tail);
      FieldsAreRead(Enter(r, fields[0]), fields[1..], rest);
    }
  }

  /** The blank line and the body.  What comes after a body is thrown away; without a body it stays
      unread. */
  lemma BodyIsRead(r: Request, body: string, extra: seq<char>)
    requires r.contentLength == |body| && r.body == ""
    ensures var o := Parse(ReadLine, Parser(HEADER, 0, r), CRLF + (body + extra));
            && o.status == PARSE_END && o.parser.req == r.(body := body)
            && o.rest == if body == "" then extra else []
  {
    var b := CRLF + (body + extra);
    assert b == "" + CRLF + (body + extra);
    LineIsRead(Parser(HEADER, 0, r), "", body + extra);
    if body == "" {
      assert body + extra == extra;
    } else {
      assert (body + extra)[..|body|] == body;
    }
  }

  lemma {:induction false} EnterAllKeeps(r: Request, fields: seq<Field>)
    ensures var e := EnterAll(r, fields);
            e.method_ == r.method_ && e.path == r.path && e.version == r.version && e.body == r.body
    decreases |fields|
  {
    if fields != [] {
      EnterAllKeeps(Enter(r, fields[0]), fields[1..]);
    }
  }

  predicate GoodPath(path: string) {
    path != "" && Plain(path) && Free(path, ' ')
  }

  /** Every message text is read as it is written: method, path, fields in any spelling and order, and
      a body as long as the fields announce. */
  lemma MessageIsRead(m: HttpMethod, path: string, fields: seq<Field>, body: string, extra: seq<char>)
    requires m != UNEXPECT_METHOD && GoodPath(path) && AllReadable(fields)
    requires EnterAll(EMPTY_REQUEST, fields).contentLength == |body|
    ensures var o := Parse(ReadLine, INITIAL, MessageText(MethodStr(m), path, fields, body) + extra);
            && o.status == PARSE_END
            && o.parser.req.method_ == m && o.parser.req.path == path && o.parser.req.version == "HTTP/1.1"
            && o.parser.req.headers == EnterAll(EMPTY_REQUEST, fields).headers
            && o.parser.req.body == body
            && o.rest == if body == "" then extra else []
  {
    hide Parse, ReadLine, FieldsText, EnterAll, MethodStr, Plain, Free;
    var r := Request(m, path, VERSION, map[], 0, "");
    var req1 := EMPTY_REQUEST.(method_ := m, path := path, version := VERSION);
    var tail := FieldsText(fields) + (CRLF + (body + extra));
    FirstLineOfText(m, path, tail);
    assert MessageText(MethodStr(m), path, fields, body) + extra
        == MethodStr(m) + " " + path + " HTTP/1.1" + CRLF + tail;
    FieldsAreRead(req1, fields, CRLF + (body + extra));
    EnterAllKeeps(req1, fields);
    EnterAllIgnoresLine(EMPTY_REQUEST, req1, fields);
    BodyIsRead(EnterAll(req1, fields), body, extra);
  }

  /** What the request line put into the request plays no part in entering fields. */
  lemma {:induction false} EnterAllIgnoresLine(r: Request, r1: Request, fields: seq<Field>)
    requires r.headers == r1.headers && r.contentLength == r1.contentLength
    ensures var e, e1 := EnterAll(r, fields), EnterAll(r1, fields);
            e.headers == e1.headers && e.contentLength == e1.contentLength
    decreases |fields|
  {
    if fields != [] {
      EnterAllIgnoresLine(Enter(r, fields[0]), Enter(r1, fields[0]), fields[1..]);
    }
  }

  lemma FirstLineOfText(m: HttpMethod, path: string, tail: seq<char>)
    requires m != UNEXPECT_METHOD && GoodPath(path)
    ensures var req1 := EMPTY_REQUEST.(method_ := m, path := path, version := VERSION);
            Parse(ReadLine, INITIAL, MethodStr(m) + " " + path + " HTTP/1.1" + CRLF + tail)
            == Parse(ReadLine, Parser(HEADER, 0, req1), tail)
  {
    hide Parse, ReadLine, Plain, Free;
    var r := Request(m, path, VERSION, map[], 0, "");
    assert WellFormed(r);
    FirstLineIsRead(r, tail);
    RequestLineIsPlain(r);
    assert RequestLine(r) == MethodStr(m) + " " + path + " HTTP/1.1";
  }

  lemma {:induction false} EnterAllSplits(r: Request, before: seq<Field>, after: seq<Field>)
    ensures EnterAll(r, before + after) == EnterAll(EnterAll(r, before), after)
    decreases |before|
  {
    if before == [] {
      assert before + after == after;
    } else {
      assert (before + after)[0] == before[0] && (before + after)[1..] == before[1..] + after;
      EnterAllSplits(Enter(r, before[0]), before[1..], after);
    }
  }

  /** No field of the list is any spelling of `Content-length`. */
  predicate NoLength(fields: seq<Field>) {
    forall i :: 0 <= i < |fields| ==> !CaseVariant(fields[i].name, "Content-length")
  }

  lemma {:induction false} NoLengthKeepsLength(r: Request, fields: seq<Field>)
    requires NoLength(fields)
    ensures var e := EnterAll(r, fields);
            && e.contentLength == r.contentLength
            && ("Content-length" in r.headers ==>
                  "Content-length" in e.headers && e.headers["Content-length"] == r.headers["Content-length"])
    decreases |fields|
  {
    if fields != [] {
      assert CaseVariant("Content-length", "Content-length");
      assert fields[0].name != "Content-length";
      NoLengthKeepsLength(Enter(r, fields[0]), fields[1..]);
    }
  }

  /** However a client spells the field that announces the body, wherever it puts it, and however the
      network cuts the message, the whole body is read. */
  lemma BodyIsReadInAnySpelling(
      m: HttpMethod, path: string, before: seq<Field>, spelling: string, pad: string, after: seq<Field>,
      body: string, chunks: seq<seq<char>>)
    requires m != UNEXPECT_METHOD && GoodPath(path) && |body| <= LONG_MAX
    requires AllReadable(before) && NoLength(before) && AllReadable(after) && NoLength(after)
    requires CaseVariant(spelling, "Content-length") && Blank(pad)
    requires var announcing := Field("", spelling, pad, Decimal(|body|));
             Flatten(chunks) == MessageText(MethodStr(m), path, before + ([announcing] + after), body)
    ensures chunks != []
    ensures var o := Feed(ReadLine, INITIAL, [], chunks);
            && o.status == PARSE_END
            && o.parser.req.method_ == m && o.parser.req.path == path && o.parser.req.body == body
            && "Content-length" in o.parser.req.headers
            && o.parser.req.headers["Content-length"] == Decimal(|body|)
  {
    hide Parse, ReadLine, Feed, MessageText, Flatten, MethodStr, CaseVariant, Blank, GoodPath, NoLength,
      AllReadable, Decimal;
    AnnouncedIsRead(m, path, before, spelling, pad, after, body);
    var announcing := Field("", spelling, pad, Decimal(|body|));
    TextIsNotEmpty(MethodStr(m), path, before + ([announcing] + after), body);
    FlattenOfNone();
    ChunkingInvariance(ReadLine, INITIAL, [], chunks);
    assert [] + Flatten(chunks) == Flatten(chunks);
  }

  lemma AnnouncedIsRead(
      m: HttpMethod, path: string, before: seq<Field>, spelling: string, pad: string, after: seq<Field>, body: string)
    requires m != UNEXPECT_METHOD && GoodPath(path) && |body| <= LONG_MAX
    requires AllReadable(before) && NoLength(before) && AllReadable(after) && NoLength(after)
    requires CaseVariant(spelling, "Content-length") && Blank(pad)
    ensures var announcing := Field("", spelling, pad, Decimal(|body|));
            var o := Parse(ReadLine, INITIAL, MessageText(MethodStr(m), path, before + ([announcing] + after), body));
            && o.status == PARSE_END
            && o.parser.req.method_ == m && o.parser.req.path == path && o.parser.req.body == body
            && "Content-length" in o.parser.req.headers
            && o.parser.req.headers["Content-length"] == Decimal(|body|)
  {
    hide Parse, ReadLine, MessageText, MethodStr, EnterAll, CaseVariant, Blank, GoodPath, NoLength, Decimal, Readable,
      AllReadable, Announces;
    var announcing := Field("", spelling, pad, Decimal(|body|));
    var fields := before + ([announcing] + after);
    SpellingIsReadable(spelling, pad, |body|);
    assert Announces(announcing) by { SpellingAnnounces(spelling, pad, |body|); }
    ReadableTogether(before, announcing, after);
    LengthOfFields(before, announcing, after, |body|);
    WholeMessageIsRead(m, path, fields, body);
  }

  lemma WholeMessageIsRead(m: HttpMethod, path: string, fields: seq<Field>, body: string)
    requires m != UNEXPECT_METHOD && GoodPath(path) && AllReadable(fields)
    requires EnterAll(EMPTY_REQUEST, fields).contentLength == |body|
    ensures var o := Parse(ReadLine, INITIAL, MessageText(MethodStr(m), path, fields, body));
            && o.status == PARSE_END
            && o.parser.req.method_ == m && o.parser.req.path == path && o.parser.req.body == body
            && o.parser.req.headers == EnterAll(EMPTY_REQUEST, fields).headers
  {
    hide Parse, ReadLine, MessageText, MethodStr, EnterAll, GoodPath, AllReadable;
    MessageIsRead(m, path, fields, body, []);
    var text := MessageText(MethodStr(m), path, fields, body);
    assert text + [] == text;
  }

  lemma ReadableTogether(before: seq<Field>, f: Field, after: seq<Field>)
    requires AllReadable(before) && Readable(f) && AllReadable(after)
    ensures AllReadable(before + ([f] + after))
  {
    hide Readable;
    var fields := before + ([f] + after);
    forall i | 0 <= i < |fields| ensures Readable(fields[i]) {
      assert i >= |before| ==> fields[i] == ([f] + after)[i - |before|];
    }
  }

  lemma FlattenOfNone()
    ensures Flatten([]) == []
  {}

  lemma TextIsNotEmpty(name: string, path: string, fields: seq<Field>, body: string)
    ensures MessageText(name, path, fields, body) != ""
  {}

  lemma SpellingAnnounces(spelling: string, pad: string, n: nat)
    requires CaseVariant(spelling, "Content-length")
    ensures Announces(Field("", spelling, pad, Decimal(n)))
  {}

  lemma SpellingIsReadable(spelling: string, pad: string, n: nat)
    requires CaseVariant(spelling, "Content-length") && Blank(pad)
    ensures Readable(Field("", spelling, pad, Decimal(n)))
  {
    assert forall i :: 0 <= i < |spelling| ==> SameLetter(spelling[i], "Content-length"[i]);
    assert forall c: char :: SameLetter(c, '-') ==> c == '-';
  }

  lemma LengthOfFields(before: seq<Field>, announcing: Field, after: seq<Field>, n: nat)
    requires NoLength(before) && NoLength(after) && Announces(announcing)
    requires announcing.value == Decimal(n) && n <= LONG_MAX
    ensures var e := EnterAll(EMPTY_REQUEST, before + ([announcing] + after));
            && e.contentLength == n
            && "Content-length" in e.headers && e.headers["Content-length"] == Decimal(n)
  {
    var r := EnterAll(EMPTY_REQUEST, before);
    EnterAllSplits(EMPTY_REQUEST, before, [announcing] + after);
    assert ([announcing] + after)[1..] == after;
    NoLengthKeepsLength(Enter(r, announcing), after);
    AtolOfDecimal(n);
  }

  // ---------------------------------------------------------------- what is rejected

  /** The six methods, and nothing else. */
  lemma MethodsAreExact(s: string)
    ensures MethodEnum("HEAD") == HEAD && MethodEnum("GET") == GET && MethodEnum("DELETE") == DELETE
    ensures MethodEnum("PUT") == PUT && MethodEnum("POST") == POST && MethodEnum("PATCH") == PATCH
    ensures MethodEnum(s) == UNEXPECT_METHOD <==>
            s != "HEAD" && s != "GET" && s != "DELETE" && s != "PUT" && s != "POST" && s != "PATCH"
    ensures MethodEnum(s) != UNEXPECT_METHOD ==> MethodStr(MethodEnum(s)) == s
  {}

  /** `line` is a request line of version 1.1 with a known method and a path. */
  predicate IsRequestLine(line: string, name: string, path: string) {
    && (name == "HEAD" || name == "GET" || name == "DELETE" || name == "PUT" || name == "POST" || name == "PATCH")
    && path != "" && Free(path, ' ')
    && line == name + " " + path + " HTTP/1.1"
  }

  lemma NameIsFree(name: string)
    ensures MethodEnum(name) != UNEXPECT_METHOD ==> Free(name, ' ')
  {}

  lemma RequestLineSlices(line: string, name: string, path: string)
    requires IsRequestLine(line, name, path)
    ensures line[0..] == name + ([' '] + (path + ([' '] + VERSION)))
    ensures |line| > |name| && line[|name| + 1..] == path + ([' '] + VERSION)
    ensures line[..|name|] == name && path != "" && Free(path, ' ')
    ensures MethodEnum(name) != UNEXPECT_METHOD && Free(name, ' ')
  {
    MethodsAreExact(name);
    NameIsFree(name);
  }

  lemma RequestLineIsAccepted(line: string, name: string, path: string, r: Request)
    requires IsRequestLine(line, name, path)
    ensures ParseRequestLine(line, r) ==
            (PARSE_NEXT, r.(method_ := MethodEnum(name), path := path, version := "HTTP/1.1"))
  {
    hide MethodEnum, Free, IsRequestLine, Until;
    RequestLineSlices(line, name, path);
    TokenIsRead(line, 0, name, ' ', path + ([' '] + VERSION));
    TokenIsRead(line, |name| + 1, path, ' ', VERSION);
  }

  lemma CutAt(line: string, i: nat, k: nat)
    requires i <= k < |line| && line[k] == ' '
    ensures line[i..] == line[i..k] + ([' '] + line[k + 1..])
  {}

  lemma Regrouped(name: string, path: string, version: string)
    ensures name + ([' '] + (path + ([' '] + version))) == name + " " + path + " " + version
  {}

  lemma RequestLineParts(line: string, i: nat, j: nat)
    requires i == Until(line, {' '}, 0) && i < |line| && j == Until(line, {' '}, i + 1) && j < |line|
    ensures line == line[..i] + " " + line[i + 1..j] + " " + line[j + 1..] && Free(line[i + 1..j], ' ')
  {
    hide Until, Free;
    SpaceIsHere(line, 0);
    SpaceIsHere(line, i + 1);
    CutAt(line, 0, i);
    CutAt(line, i + 1, j);
    Regrouped(line[..i], line[i + 1..j], line[j + 1..]);
    assert line == line[0..];
  }

  lemma SpaceIsHere(line: string, from: nat)
    requires from <= |line| && Until(line, {' '}, from) < |line|
    ensures var j := Until(line, {' '}, from); from <= j && line[j] == ' ' && Free(line[from..j], ' ')
  {
    hide Until;
  }

  lemma AcceptedIsRequestLine(line: string, r: Request) returns (name: string, path: string)
    requires ParseRequestLine(line, r).0 == PARSE_NEXT
    ensures IsRequestLine(line, name, path)
  {
    hide MethodEnum, Free, Until;
    var i := Until(line, {' '}, 0);
    var j := Until(line, {' '}, i + 1);
    name, path := line[..i], line[i + 1..j];
    MethodsAreExact(name);
    RequestLineParts(line, i, j);
  }

  lemma RequestLineStatus(line: string, r: Request)
    ensures ParseRequestLine(line, r).0 == PARSE_NEXT || ParseRequestLine(line, r).0 == PARSE_ERROR
  {
    hide MethodEnum, Until;
  }

  /** A line is accepted as a request line exactly when it is one; any other is an error. */
  lemma RequestLineIsExact(line: string, r: Request)
    ensures ParseRequestLine(line, r).0 == PARSE_NEXT <==> exists name, path :: IsRequestLine(line, name, path)
    ensures ParseRequestLine(line, r).0 == PARSE_NEXT || ParseRequestLine(line, r).0 == PARSE_ERROR
  {
    hide ParseRequestLine, IsRequestLine;
    RequestLineStatus(line, r);
    if ParseRequestLine(line, r).0 == PARSE_NEXT {
      var name, path := AcceptedIsRequestLine(line, r);
    }
    forall name, path | IsRequestLine(line, name, path) ensures ParseRequestLine(line, r).0 == PARSE_NEXT {
      RequestLineIsAccepted(line, name, path, r);
    }
  }

  /** After any blanks the line has no key, or nowhere a colon. */
  predicate HasNoKey(line: string, lead: string, rest: string) {
    && line == lead + rest && Blank(lead) && (rest != "" ==> rest[0] != ' ' && rest[0] != '\t')
    && (rest == "" || rest[0] == ':' || Free(rest, ':'))
  }

  lemma FreeIsUnfound(line: string, start: nat, c: char)
    requires start <= |line|
    ensures Until(line, {c}, start) == |line| <==> Free(line[start..], c)
  {
    var i := Until(line, {c}, start);
    if i == |line| {
      assert forall k :: 0 <= k < |line| - start ==> line[start..][k] == line[start + k];
    } else {
      assert line[start..][i - start] == c;
    }
  }

  /** A blank line ends the header section; a line without a key or without a colon is an error,
      unless it announces the body's length; every other line is a field. */
  lemma HeaderLineIsExact(line: string, r: Request)
    ensures line == "" ==> ParseHeader(line, r) == (if r.contentLength != 0 then PARSE_NEXT else PARSE_END, r)
    ensures line != "" ==>
              (ParseHeader(line, r).0 == PARSE_ERROR <==>
               !LengthLine(line) && exists lead, rest :: HasNoKey(line, lead, rest))
    ensures line != "" ==> ParseHeader(line, r).0 == PARSE_ERROR || ParseHeader(line, r).0 == PARSE_RECV
  {
    hide HasPrefixNoCase, LengthLine;
    PrefixIsLengthLine(line);
    var start := Past(line, BLANKS, 0);
    var lead, rest := line[..start], line[start..];
    assert line == lead + rest && Blank(lead);
    KeyIsMissingIff(line, start);
    if HasNoKey(line, lead, rest) {
    }
    forall lead1, rest1 | HasNoKey(line, lead1, rest1) ensures HasNoKey(line, lead, rest) {
      assert line[0..] == lead1 + rest1;
      BlanksArePassed(line, 0, lead1, rest1);
    }
  }

  lemma KeyIsMissingIff(line: string, start: nat)
    requires start == Past(line, BLANKS, 0)
    ensures (Until(line, BLANKS + {':'}, start) == start || Until(line, {':'}, start) == |line|) <==>
            HasNoKey(line, line[..start], line[start..])
  {
    FreeIsUnfound(line, start, ':');
    assert line == line[..start] + line[start..];
    assert forall k :: 0 <= k < start ==> line[..start][k] == line[k];
  }

  /** A first line that is no request line ends the parse in an error, whatever follows. */
  lemma BadRequestLineIsRejected(line: string, rest: seq<char>)
    requires Plain(line) && !exists name, path :: IsRequestLine(line, name, path)
    ensures Parse(ReadLine, INITIAL, line + "\r\n" + rest).status == PARSE_ERROR
  {
    RequestLineIsExact(line, EMPTY_REQUEST);
    LineIsRead(INITIAL, line, rest);
    assert line + "\r\n" + rest == line + CRLF + rest;
  }

  /** So does a header line without a key or a colon. */
  lemma BadFieldIsRejected(line: string, r: Request, rest: seq<char>)
    requires Plain(line) && line != "" && !LengthLine(line) && exists lead, after :: HasNoKey(line, lead, after)
    ensures Parse(ReadLine, Parser(HEADER, 0, r), line + "\r\n" + rest).status == PARSE_ERROR
  {
    HeaderLineIsExact(line, r);
    LineIsRead(Parser(HEADER, 0, r), line, rest);
    assert line + "\r\n" + rest == line + CRLF + rest;
  }

  // ---------------------------------------------------------------- what is printed

  /** The fields of a printed message: one space after the colon. */
  function FieldsOf(order: seq<string>, headers: map<string, string>): seq<Field>
    requires forall k :: k in order ==> k in headers
  {
    if order == [] then []
    else [Field("", order[0], " ", headers[order[0]])] + FieldsOf(order[1..], headers)
  }

  lemma {:induction false} BlockIsText(order: seq<string>, headers: map<string, string>)
    requires forall k :: k in order ==> k in headers
    ensures HeaderBlock(order, headers) == FieldsText(FieldsOf(order, headers))
  {
    if order != [] {
      BlockIsText(order[1..], headers);
      var fields := FieldsOf(order, headers);
      assert fields[1..] == FieldsOf(order[1..], headers);
      assert FieldLine(fields[0]) == order[0] + ": " + headers[order[0]];
    }
  }

  /** A printed request is the message text of its method, path, sorted headers and body. */
  lemma DumpIsText(r: Request)
    requires Free(r.path, '\0')
    ensures forall k :: k in SortedKeys(r.headers.Keys) ==> k in r.headers
    ensures Dump(r) == MessageText(MethodStr(r.method_), r.path, FieldsOf(SortedKeys(r.headers.Keys), r.headers), r.body)
  {
    hide FieldsText, FieldsOf, HeaderBlock, MethodStr;
    var order := SortedKeys(r.headers.Keys);
    SortedKeysEnumerate(r.headers.Keys);
    BlockIsText(order, r.headers);
    CStrOfTerminated(r.path, "");
    assert RequestLine(r) == MethodStr(r.method_) + " " + r.path + " HTTP/1.1";
  }
}
