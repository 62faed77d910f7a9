/** Requests as values and their printer: http/HttpDef.cpp and http/HttpMsg.cpp. */
module HttpMessages {
  import opened Orders
  import opened CStrings

  datatype HttpMethod = HEAD | GET | DELETE | PUT | POST | PATCH | UNEXPECT_METHOD

  datatype Request = Request(
    method_: HttpMethod,
    path: string,
    version: string,
    headers: map<string, string>,
    contentLength: nat,
    body: string)

  const CONTENT_LENGTH := "Content-length"
  const VERSION := "HTTP/1.1"
  const CRLF := ['\r', '\n']

  /** A freshly constructed request. */
  const EMPTY_REQUEST := Request(UNEXPECT_METHOD, "", "", map[], 0, "")

  function MethodEnum(s: string): HttpMethod {
    if s == "HEAD" then HEAD
    else if s == "GET" then GET
    else if s == "DELETE" then DELETE
    else if s == "PUT" then PUT
    else if s == "POST" then POST
    else if s == "PATCH" then PATCH
    else UNEXPECT_METHOD
  }

  function MethodStr(m: HttpMethod): string {
    match m
    case HEAD => "HEAD"
    case GET => "GET"
    case DELETE => "DELETE"
    case PUT => "PUT"
    case POST => "POST"
    case PATCH => "PATCH"
    case UNEXPECT_METHOD => "<unexpect>"
  }

  /** Appends a piece of body and records the length of that piece alone. */
  function SetContent(r: Request, piece: string): Request {
    r.(body := r.body + piece, headers := r.headers[CONTENT_LENGTH := Decimal(|piece|)])
  }

  /** The piece goes behind the body there is; the announced length is the piece's, whatever was
      announced before; nothing else changes, the length the parser uses included. */
  lemma SetContentRecordsPiece(r: Request, piece: string)
    ensures var after := SetContent(r, piece);
            && after.body == r.body + piece
            && after.headers.Keys == r.headers.Keys + {"Content-length"}
            && after.headers["Content-length"] == Decimal(|piece|)
            && (forall k :: k in r.headers && k != "Content-length" ==> after.headers[k] == r.headers[k])
            && after.contentLength == r.contentLength && after.method_ == r.method_
            && after.path == r.path && after.version == r.version
  {}

  // ---------------------------------------------------------------- std::map order

  /** `a < b` on `std::string`. */
  predicate LexLess(a: string, b: string) {
    b != [] && (a == [] || a[0] < b[0] || (a[0] == b[0] && LexLess(a[1..], b[1..])))
  }

  /** The strings agree up to `n`, where `a` ends or has the smaller byte. */
  predicate SmallerAt(a: string, b: string, n: nat) {
    n <= |a| && n < |b| && a[..n] == b[..n] && (n == |a| || a[n] < b[n])
  }

  lemma {:induction false} SmallerAtIsLess(a: string, b: string, n: nat)
    requires SmallerAt(a, b, n)
    ensures LexLess(a, b)
    decreases n
  {
    if n > 0 {
      assert a[0] == a[..n][0] == b[..n][0] == b[0];
      assert a[1..][..n - 1] == a[..n][1..] == b[..n][1..] == b[1..][..n - 1];
      SmallerAtIsLess(a[1..], b[1..], n - 1);
    }
  }

  lemma {:induction false} LessIsSmallerAt(a: string, b: string) returns (n: nat)
    requires LexLess(a, b)
    ensures SmallerAt(a, b, n)
  {
    if a == [] || a[0] < b[0] {
      return 0;
    }
    var m := LessIsSmallerAt(a[1..], b[1..]);
    n := m + 1;
    assert a[..n] == [a[0]] + a[1..][..m] && b[..n] == [b[0]] + b[1..][..m];
  }

  /** The order is the ascending order of `std::string`: the first difference decides. */
  lemma LexLessIsAscending(a: string, b: string)
    ensures LexLess(a, b) <==> exists n :: SmallerAt(a, b, n)
  {
    if LexLess(a, b) {
      var n := LessIsSmallerAt(a, b);
    }
    forall n | SmallerAt(a, b, n) ensures LexLess(a, b) {
      SmallerAtIsLess(a, b, n);
    }
  }

  lemma {:induction false} LexTotal(a: string, b: string)
    ensures a == b || LexLess(a, b) || LexLess(b, a)
  {
    if a != [] && b != [] && a[0] == b[0] {
      LexTotal(a[1..], b[1..]);
      assert a == [a[0]] + a[1..] && b == [b[0]] + b[1..];
    }
  }

  lemma {:induction false} LexTransitive(a: string, b: string, c: string)
    requires LexLess(a, b) && LexLess(b, c)
    ensures LexLess(a, c)
  {
    if a != [] && a[0] == b[0] == c[0] {
      LexTransitive(a[1..], b[1..], c[1..]);
    }
  }

  predicate FirstKeyOf(k: string, keys: set<string>) {
    IsFirst(LexLess, k, keys)
  }

  lemma LexOrders()
    ensures StrictTotal(LexLess)
  {
    forall a, b ensures a == b || LexLess(a, b) || LexLess(b, a) {
      LexTotal(a, b);
    }
    forall a, b, c | LexLess(a, b) && LexLess(b, c) ensures LexLess(a, c) {
      LexTransitive(a, b, c);
    }
  }

  /** The keys in the order in which a `std::map` is traversed. */
  ghost function SortedKeys(keys: set<string>): (order: seq<string>)
    decreases |keys|
  {
    if keys == {} then []
    else
      var w := FirstKey(keys);
      [w] + SortedKeys(keys - {w})
  }

  ghost function FirstKey(keys: set<string>): (k: string)
    requires keys != {}
    ensures k in keys && FirstKeyOf(k, keys)
  {
    assert exists k :: FirstKeyOf(k, keys) by {
      LexOrders();
      var w := FirstExists(LexLess, keys);
      assert FirstKeyOf(w, keys);
    }
    var k :| FirstKeyOf(k, keys); k
  }

  lemma {:induction false} LexAsymmetric(a: string, b: string)
    requires LexLess(a, b)
    ensures a != b && !LexLess(b, a)
  {
    if a != [] && a[0] == b[0] {
      LexAsymmetric(a[1..], b[1..]);
    }
  }

  lemma FirstIsUnique(k: string, keys: set<string>)
    requires FirstKeyOf(k, keys)
    ensures k == FirstKey(keys)
  {
    var w := FirstKey(keys);
    if k != w {
      LexAsymmetric(k, w);
    }
  }

  /** `order` lists each of `keys` exactly once. */
  ghost predicate Enumerates(order: seq<string>, keys: set<string>) {
    && (forall k :: k in order <==> k in keys)
    && (forall i, j :: 0 <= i < j < |order| ==> order[i] != order[j])
  }

  lemma {:induction false} SortedKeysEnumerate(keys: set<string>)
    ensures Enumerates(SortedKeys(keys), keys)
    ensures forall i, j :: 0 <= i < j < |SortedKeys(keys)| ==> LexLess(SortedKeys(keys)[i], SortedKeys(keys)[j])
    decreases |keys|
  {
    if keys != {} {
      var w := FirstKey(keys);
      var tail := SortedKeys(keys - {w});
      SortedKeysEnumerate(keys - {w});
      forall k ensures k in SortedKeys(keys) <==> k in keys {
        assert k in [w] + tail <==> k == w || k in tail;
      }
      forall i, j | 0 <= i < j < |SortedKeys(keys)|
        ensures LexLess(SortedKeys(keys)[i], SortedKeys(keys)[j])
        ensures SortedKeys(keys)[i] != SortedKeys(keys)[j]
      {
        assert SortedKeys(keys)[j] == tail[j - 1] && tail[j - 1] in tail;
        LexAsymmetric(SortedKeys(keys)[i], SortedKeys(keys)[j]);
      }
    }
  }

  // ---------------------------------------------------------------- the printer

  function HeaderLine(key: string, value: string): string {
    key + ": " + value
  }

  /** The header lines in the given order of keys. */
  function HeaderBlock(order: seq<string>, headers: map<string, string>): string
    requires forall k :: k in order ==> k in headers
  {
    if order == [] then []
    else HeaderLine(order[0], headers[order[0]]) + CRLF + HeaderBlock(order[1..], headers)
  }

  function RequestLine(r: Request): string {
    MethodStr(r.method_) + " " + CStr(r.path) + " " + VERSION
  }

  /** `HttpRequest::Dump(true, true)` when the headers are traversed in `order`. */
  function DumpInOrder(r: Request, order: seq<string>): string
    requires forall k :: k in order ==> k in r.headers
  {
    RequestLine(r) + CRLF + (HeaderBlock(order, r.headers) + (CRLF + r.body))
  }

  /** `HttpRequest::Dump(true, true)`. */
  ghost function Dump(r: Request): string {
    SortedKeysEnumerate(r.headers.Keys);
    DumpInOrder(r, SortedKeys(r.headers.Keys))
  }

  lemma {:induction false} HeaderBlockExtend(order: seq<string>, k: string, headers: map<string, string>)
    requires k in headers && forall x :: x in order ==> x in headers
    ensures HeaderBlock(order + [k], headers) == HeaderBlock(order, headers) + (HeaderLine(k, headers[k]) + CRLF)
  {
    if order == [] {
      assert HeaderBlock([], headers) == [];
    } else {
      assert (order + [k])[1..] == order[1..] + [k];
      HeaderBlockExtend(order[1..], k, headers);
    }
  }

  /** One traversal step: what comes after the first key. */
  lemma NextKey(keys: set<string>, k: string, order: seq<string>, n: nat)
    requires FirstKeyOf(k, keys) && n <= |order| && SortedKeys(keys) == order[n..]
    ensures n < |order| && order[n] == k && SortedKeys(keys - {k}) == order[n + 1..]
  {
    FirstIsUnique(k, keys);
    assert order[n..] == [k] + SortedKeys(keys - {k});
  }

  lemma NothingToDump(headers: map<string, string>)
    ensures SortedKeys({}) == [] && HeaderBlock([], headers) == ""
  {}

  /** `HttpMsg::DumpHeaders`: appends one line per entry, in map order. */
  method DumpHeaders(headers: map<string, string>) returns (out: string)
    ensures (forall k :: k in SortedKeys(headers.Keys) ==> k in headers)
         && out == HeaderBlock(SortedKeys(headers.Keys), headers)
  {
    hide HeaderBlock, HeaderLine, SortedKeys, LexLess, FirstKeyOf;
    out := "";
    NothingToDump(headers);
    SortedKeysEnumerate(headers.Keys);
    var rest, n := headers.Keys, 0;
    ghost var order := SortedKeys(rest);
    while rest != {}
      invariant rest <= headers.Keys && n <= |order|
      invariant SortedKeys(rest) == order[n..]
      invariant out == HeaderBlock(order[..n], headers)
      decreases rest
    {
      assert FirstKey(rest) in rest && FirstKeyOf(FirstKey(rest), rest);
      var k :| k in rest && FirstKeyOf(k, rest);
      NextKey(rest, k, order, n);
      HeaderBlockExtend(order[..n], k, headers);
      assert order[..n + 1] == order[..n] + [k];
      out := out + (HeaderLine(k, headers[k]) + CRLF);
      rest, n := rest - {k}, n + 1;
    }
    assert order[..n] == order;
  }

  /** `HttpRequest::Dump`. */
  method DumpRequest(r: Request) returns (out: string)
    ensures out == Dump(r)
  {
    var block := DumpHeaders(r.headers);
    out := RequestLine(r) + CRLF + (block + (CRLF + r.body));
  }
}
