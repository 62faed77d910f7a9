/** The route table of http/Router.cpp and its imperative matcher. */
module Routers {
  import opened CStrings
  import opened HttpMessages
  import opened RouterMatch

  /** Entering captures into a `std::map` in order: of two with one name, the later stays. */
  function ToMap(captures: Captures): map<string, string> {
    if captures == [] then map[]
    else
      var last := captures[|captures| - 1];
      ToMap(captures[..|captures| - 1])[last.0 := last.1]
  }

  lemma ToMapSnoc(captures: Captures, name: string, value: string)
    ensures ToMap(captures + [(name, value)]) == ToMap(captures)[name := value]
  {}

  /** The names in the map are those captured. */
  lemma {:induction false} ToMapNames(captures: Captures, name: string)
    ensures name in ToMap(captures) <==> exists i :: 0 <= i < |captures| && captures[i].0 == name
  {
    if captures != [] {
      var n := |captures| - 1;
      ToMapNames(captures[..n], name);
      assert captures[n].0 == name || (forall i :: 0 <= i < |captures| && captures[i].0 == name ==> i < n);
      assert forall i :: 0 <= i < n ==> captures[..n][i] == captures[i];
    }
  }

  /** Under each name is the value captured last. */
  lemma {:induction false} ToMapHasTheLast(captures: Captures, i: nat)
    requires i < |captures| && forall j :: i < j < |captures| ==> captures[j].0 != captures[i].0
    ensures captures[i].0 in ToMap(captures) && ToMap(captures)[captures[i].0] == captures[i].1
    decreases |captures|
  {
    var n := |captures| - 1;
    if i < n {
      assert captures[n].0 != captures[i].0;
      assert captures[..n][i] == captures[i];
      ToMapHasTheLast(captures[..n], i);
    }
  }

  /** What a matching loop that already made `captures` returns. */
  function After(captures: Captures, r: MatchResult): MatchResult {
    if r.Matched? then Matched(captures + r.captures) else r
  }

  lemma AfterPrepend(captures: Captures, capture: (string, string), r: MatchResult)
    ensures After(captures, Prepend(capture, r)) == After(captures + [capture], r)
  {}

  /** `Route: '*' usage error` ends the process. */
  datatype EntryMatch = EntryNo | EntryYes(matches: map<string, string>) | EntryFatal

  /** What the code makes of a match result. */
  function EntryOf(r: MatchResult): EntryMatch {
    match r
    case NoMatch => EntryNo
    case Matched(captures) => EntryYes(ToMap(captures))
    case Aborted => EntryFatal
  }

  /** The characters at `p` are a slash and `c`. */
  predicate SlashAnd(k: string, p: nat, c: char) {
    p + 1 < |k| && k[p] == '/' && k[p + 1] == c
  }

  /** The pointer loop for one entry, `kp` in the pattern and `vp` in the path. */
  method MatchEntry(k: string, v: string) returns (r: EntryMatch)
    ensures r == EntryOf(MatchFrom(k, v))
  {
    var kp, vp := 0, 0;
    var matches: map<string, string> := map[];
    ghost var made: Captures := [];
    while kp < |k| && vp < |v|
      invariant kp <= |k| && vp <= |v|
      invariant matches == ToMap(made)
      invariant MatchFrom(k, v) == After(made, MatchFrom(k[kp..], v[vp..]))
      decreases |k| - kp
    {
      if k[kp] != v[vp] {
        return EntryNo;
      } else if SlashAnd(k, kp, '*') {
        StarTurn(k, v, kp, vp, made);
        var ks, vs := kp + 2, vp + 1;
        kp := Until(k, {'/'}, ks);
        if kp < |k| && kp + 1 < |k| {
          return EntryFatal;
        }
        vp := |v|;
        ToMapSnoc(made, k[ks..kp], v[vs..vp]);
        made := made + [(k[ks..kp], v[vs..vp])];
        matches := matches[k[ks..kp] := v[vs..vp]];
      } else if SlashAnd(k, kp, ':') || SlashAnd(k, kp, '{') {
        ParamTurn(k, v, kp, vp, made);
        var ks, vs := kp + 1, vp + 1;
        kp, vp := Until(k, {'/'}, ks), Until(v, {'/'}, vs);
        // The code now drops a closing brace if k[ks - 1] is an opening one; it is the slash.
        assert k[ks - 1] == '/';
        ToMapSnoc(made, k[ks..kp], v[vs..vp]);
        made := made + [(k[ks..kp], v[vs..vp])];
        matches := matches[k[ks..kp] := v[vs..vp]];
      } else {
        LitTurn(k, v, kp, vp);
        kp, vp := kp + 1, vp + 1;
      }
    }
    assert made + [] == made;
    return if vp == |v| && kp == |k| then EntryYes(matches) else EntryNo;
  }

  /** Scanning inside a string is scanning its suffix. */
  lemma UntilFrom(s: string, stop: char, base: nat, from: nat)
    requires base + from <= |s|
    ensures Until(s, {stop}, base + from) == base + Until(s[base..], {stop}, from)
    ensures var e := Until(s, {stop}, base + from);
            && s[base..][from..e - base] == s[base + from..e]
            && s[base..][e - base..] == s[e..]
  {}

  lemma LitTurn(k: string, v: string, kp: nat, vp: nat)
    requires kp < |k| && vp < |v| && k[kp] == v[vp]
    requires !SlashAnd(k, kp, '*') && !SlashAnd(k, kp, ':') && !SlashAnd(k, kp, '{')
    ensures MatchFrom(k[kp..], v[vp..]) == MatchFrom(k[kp + 1..], v[vp + 1..])
  {}

  lemma ParamTurn(k: string, v: string, kp: nat, vp: nat, made: Captures)
    requires kp < |k| && vp < |v| && k[kp] == v[vp] && (SlashAnd(k, kp, ':') || SlashAnd(k, kp, '{'))
    ensures var kEnd, vEnd := Until(k, {'/'}, kp + 1), Until(v, {'/'}, vp + 1);
            After(made, MatchFrom(k[kp..], v[vp..])) ==
            After(made + [(k[kp + 1..kEnd], v[vp + 1..vEnd])], MatchFrom(k[kEnd..], v[vEnd..]))
  {
    UntilFrom(k, '/', kp, 1);
    UntilFrom(v, '/', vp, 1);
    var kEnd, vEnd := Until(k, {'/'}, kp + 1), Until(v, {'/'}, vp + 1);
    var capture := (k[kp + 1..kEnd], v[vp + 1..vEnd]);
    assert MatchFrom(k[kp..], v[vp..]) == Prepend(capture, MatchFrom(k[kEnd..], v[vEnd..]));
    AfterPrepend(made, capture, MatchFrom(k[kEnd..], v[vEnd..]));
  }

  lemma StarTurn(k: string, v: string, kp: nat, vp: nat, made: Captures)
    requires kp < |k| && vp < |v| && k[kp] == v[vp] && SlashAnd(k, kp, '*')
    ensures var kEnd := Until(k, {'/'}, kp + 2);
            if kEnd + 1 < |k| then MatchFrom(k[kp..], v[vp..]) == Aborted
            else After(made, MatchFrom(k[kp..], v[vp..])) ==
                 After(made + [(k[kp + 2..kEnd], v[vp + 1..|v|])], MatchFrom(k[kEnd..], v[|v|..]))
  {
    UntilFrom(k, '/', kp, 2);
    var kEnd := Until(k, {'/'}, kp + 2);
    var capture := (k[kp + 2..kEnd], v[vp + 1..|v|]);
    assert v[vp..][1..] == v[vp + 1..|v|];
    if kEnd == |k| {
      assert k[kp..][2..] == k[kp + 2..kEnd];
      assert MatchFrom(k[kp..], v[vp..]) == Prepend(capture, Matched([]));
      AfterPrepend(made, capture, Matched([]));
    }
  }

  // ---------------------------------------------------------------- the table

  /** The handlers registered under one pattern. */
  type Handlers<H> = seq<(HttpMethod, H)>

  datatype Lookup<H> = Found(handler: H, matches: map<string, string>) | NotFound | Fatal

  /** The part of the request path that is matched. */
  function MatchedPath(path: string): string {
    CStr(path)[..Until(CStr(path), {'?'}, 0)]
  }

  predicate DistinctMethods<H>(handlers: Handlers<H>) {
    forall i, j :: 0 <= i < j < |handlers| ==> handlers[i].0 != handlers[j].0
  }

  function Verdict(key: string, path: string): MatchResult {
    MatchFrom(CStr(key), MatchedPath(path))
  }

  /** Pattern `key` accepts the path and has `handler` for the method. */
  ghost predicate Serves<H(!new)>(
      entries: map<string, Handlers<H>>, key: string, path: string, m: HttpMethod, handler: H)
  {
    key in entries && Verdict(key, path).Matched? && (m, handler) in entries[key]
  }

  /** What a lookup may return, whatever the order in which the table is walked. */
  ghost predicate Admissible<H(!new)>(entries: map<string, Handlers<H>>, path: string, m: HttpMethod, r: Lookup<H>) {
    match r
    case Found(handler, matches) =>
      exists key :: Serves(entries, key, path, m, handler) && matches == ToMap(Verdict(key, path).captures)
    case NotFound =>
      forall key, handler :: !Serves(entries, key, path, m, handler)
    case Fatal =>
      exists key :: key in entries && Verdict(key, path) == Aborted
  }

  /** What is matched is the path in front of the first `?`. */
  lemma MatchedPathIsCut(q: string, rest: string)
    requires forall i :: 0 <= i < |q| ==> q[i] != '?' && q[i] != '\0'
    ensures MatchedPath(q) == q && MatchedPath(q + "?" + rest) == q
  {
    var path := q + "?" + rest;
    var s := CStr(path);
    assert forall i :: 0 <= i < |q| ==> path[i] == q[i];
    assert path[|q|] == '?' && |s| > |q| && s[..|q|] == q && s[|q|] == '?';
    assert Until(s, {'?'}, 0) == |q|;
    CStrOfTerminated(q, "");
    assert Until(q, {'?'}, 0) == |q|;
  }

  /** A handler serves a path with or without a query exactly when it is registered for the method under
      a pattern that matches what is in front of the `?`. */
  lemma ServesIff<H(!new)>(
      entries: map<string, Handlers<H>>, key: string, q: string, rest: string, m: HttpMethod, handler: H)
    requires forall i :: 0 <= i < |q| ==> q[i] != '?' && q[i] != '\0'
    ensures Serves(entries, key, q, m, handler) <==>
            key in entries && MatchFrom(CStr(key), q).Matched? && (m, handler) in entries[key]
    ensures Serves(entries, key, q + "?" + rest, m, handler) <==>
            key in entries && MatchFrom(CStr(key), q).Matched? && (m, handler) in entries[key]
  {
    MatchedPathIsCut(q, rest);
  }

  /** A query changes nothing about the lookup. */
  lemma QueryIsIgnored<H(!new)>(
      entries: map<string, Handlers<H>>, q: string, rest: string, m: HttpMethod, r: Lookup<H>)
    requires forall i :: 0 <= i < |q| ==> q[i] != '?' && q[i] != '\0'
    ensures Admissible(entries, q + "?" + rest, m, r) <==> Admissible(entries, q, m, r)
  {
    hide MatchFrom, MatchedPath;
    MatchedPathIsCut(q, rest);
    if Admissible(entries, q, m, r) {
      SamePathSameLookup(entries, q, q + "?" + rest, m, r);
    } else if Admissible(entries, q + "?" + rest, m, r) {
      SamePathSameLookup(entries, q + "?" + rest, q, m, r);
    }
  }

  lemma SamePathSameLookup<H(!new)>(
      entries: map<string, Handlers<H>>, path: string, path1: string, m: HttpMethod, r: Lookup<H>)
    requires MatchedPath(path) == MatchedPath(path1) && Admissible(entries, path, m, r)
    ensures Admissible(entries, path1, m, r)
  {
    hide MatchFrom, MatchedPath;
    assert forall key :: Verdict(key, path) == Verdict(key, path1);
    assert forall key, h :: Serves(entries, key, path, m, h) == Serves(entries, key, path1, m, h);
  }

  /** When no pattern aborts on the path and at most one pattern with the method accepts it, the
      result does not depend on the walk. */
  lemma LookupIsDetermined<H(!new)>(
      entries: map<string, Handlers<H>>, path: string, m: HttpMethod, r1: Lookup<H>, r2: Lookup<H>)
    requires Admissible(entries, path, m, r1) && Admissible(entries, path, m, r2)
    requires forall key :: key in entries ==> DistinctMethods(entries[key]) && Verdict(key, path) != Aborted
    requires forall k1, k2, h1, h2 ::
               Serves(entries, k1, path, m, h1) && Serves(entries, k2, path, m, h2) ==> k1 == k2
    ensures r1 == r2
  {}

  class Router<H(!new)> {
    var entries: map<string, Handlers<H>>

    ghost predicate Valid()
      reads this
    {
      forall key :: key in entries ==> DistinctMethods(entries[key])
    }

    constructor ()
      ensures Valid() && entries == map[]
    {
      entries := map[];
    }

    /** Registers a handler; a second one for the same pattern and method ends the process. */
    method Route(path: string, m: HttpMethod, handler: H) returns (fatal: bool)
      requires Valid()
      modifies this
      ensures Valid()
      ensures fatal <==> exists h :: path in old(entries) && (m, h) in old(entries)[path]
      ensures fatal ==> entries == old(entries)
      ensures !fatal ==> entries == old(entries)[path :=
                (if path in old(entries) then old(entries)[path] else []) + [(m, handler)]]
    {
      var handlers: Handlers<H> := if path in entries then entries[path] else [];
      var i := 0;
      while i < |handlers|
        invariant i <= |handlers|
        invariant forall j :: 0 <= j < i ==> handlers[j].0 != m
      {
        if handlers[i].0 == m {
          assert (m, handlers[i].1) in handlers;
          return true;
        }
        i := i + 1;
      }
      entries := entries[path := handlers + [(m, handler)]];
      return false;
    }

    /** Walks the table in an arbitrary order.  `pathMatches` is the request's capture map, written
        only when a handler is found. */
    method Match(path: string, m: HttpMethod, pathMatches: map<string, string>)
      returns (r: Lookup<H>, newMatches: map<string, string>)
      requires Valid()
      ensures Admissible(entries, path, m, r)
      ensures newMatches == if r.Found? then pathMatches + r.matches else pathMatches
    {
      var v := MatchedPath(path);
      newMatches := pathMatches;
      var todo := entries.Keys;
      while todo != {}
        invariant todo <= entries.Keys
        invariant forall key, h :: key in entries && key !in todo ==> !Serves(entries, key, path, m, h)
        decreases todo
      {
        var key :| key in todo;
        var verdict := MatchEntry(CStr(key), v);
        if verdict.EntryFatal? {
          assert Verdict(key, path) == Aborted;
          return Fatal, newMatches;
        }
        if verdict.EntryYes? {
          var handlers, i := entries[key], 0;
          while i < |handlers|
            invariant i <= |handlers|
            invariant forall j :: 0 <= j < i ==> handlers[j].0 != m
          {
            if handlers[i].0 == m {
              assert Serves(entries, key, path, m, handlers[i].1);
              return Found(handlers[i].1, verdict.matches), pathMatches + verdict.matches;
            }
            i := i + 1;
          }
        }
        todo := todo - {key};
      }
      return NotFound, newMatches;
    }
  }
}
