/**
 Matching a path against a route pattern (http/Router.cpp:44-104): the two-pointer loop as a
 function, a declarative reading of patterns as templates, and the proof that they agree on every
 pattern and every path.
 */
module RouterMatch {
  import opened CStrings

  /** Captures in the order in which they are made, with the names the code gives them. */
  type Captures = seq<(string, string)>

  datatype MatchResult = NoMatch | Matched(captures: Captures) | Aborted

  function Prepend(capture: (string, string), r: MatchResult): MatchResult {
    if r.Matched? then Matched([capture] + r.captures) else r
  }

  predicate StarsHere(k: string) {
    |k| >= 2 && k[0] == '/' && k[1] == '*'
  }

  predicate ParamHere(k: string) {
    |k| >= 2 && k[0] == '/' && k[1] in {':', '{'}
  }

  /** The matching loop on what is left of the pattern and of the path. */
  function MatchFrom(k: string, v: string): MatchResult
    decreases |k|
  {
    if k == "" || v == "" then (if k == v then Matched([]) else NoMatch)
    else if k[0] != v[0] then NoMatch
    else if StarsHere(k) then
      var end := Until(k, {'/'}, 2);
      if end == |k| then Matched([(k[2..], v[1..])])
      else if end + 1 == |k| then NoMatch
      else Aborted
    else if ParamHere(k) then
      var kEnd, vEnd := Until(k, {'/'}, 1), Until(v, {'/'}, 1);
      Prepend((k[1..kEnd], v[1..vEnd]), MatchFrom(k[kEnd..], v[vEnd..]))
    else MatchFrom(k[1..], v[1..])
  }

  // ---------------------------------------------------------------- what each part of a pattern does

  /** An empty pattern matches the empty path alone, and an empty path no other pattern. */
  lemma EmptyLaw(s: string)
    ensures MatchFrom("", s) == if s == "" then Matched([]) else NoMatch
    ensures MatchFrom(s, "") == if s == "" then Matched([]) else NoMatch
  {}

  /** A character that begins no parameter and no `*` segment matches itself; and no pattern matches a
      path that begins differently. */
  lemma LetterLaw(c: char, k: string, d: char, v: string)
    ensures c != d ==> MatchFrom([c] + k, [d] + v) == NoMatch
    ensures c == d && !(c == '/' && k != "" && (k[0] == ':' || k[0] == '{' || k[0] == '*')) ==>
              MatchFrom([c] + k, [d] + v) == MatchFrom(k, v)
  {
    assert ([c] + k)[1..] == k && ([d] + v)[1..] == v;
  }

  lemma SegmentEnd(marker: string, segment: string, rest: string)
    requires SlashFree(marker) && SlashFree(segment) && (rest == "" || rest[0] == '/')
    ensures var s := "/" + marker + segment + rest;
            && Until(s, {'/'}, 1) == 1 + |marker| + |segment|
            && s[1..1 + |marker| + |segment|] == marker + segment
            && s[1 + |marker| + |segment|..] == rest
  {
    var s, body := "/" + marker + segment + rest, marker + segment;
    assert s == "/" + body + rest;
    assert forall i :: 1 <= i < 1 + |body| ==> s[i] == body[i - 1] && body[i - 1] != '/';
    assert rest != "" ==> s[1 + |body|] == rest[0];
  }

  /** A segment that begins with `:` or `{` matches one whole segment of the path, which may be empty,
      and captures it under its own text, marker included. */
  lemma ParamLaw(marker: string, x: string, k: string, segment: string, v: string)
    requires (marker == ":" || marker == "{") && SlashFree(x) && SlashFree(segment)
    requires (k == "" || k[0] == '/') && (v == "" || v[0] == '/')
    ensures MatchFrom("/" + marker + x + k, "/" + segment + v) ==
            match MatchFrom(k, v)
            case Matched(c) => Matched([(marker + x, segment)] + c)
            case NoMatch => NoMatch
            case Aborted => Aborted
  {
    SegmentEnd(marker, x, k);
    SegmentEnd("", segment, v);
    assert "/" + "" + segment + v == "/" + segment + v;
    var pattern := "/" + marker + x + k;
    assert pattern[1] == marker[0] && ParamHere(pattern) && !StarsHere(pattern);
  }

  /** A final `*` segment matches everything after the slash; a trailing slash behind it never matches,
      and anything more is the usage error. */
  lemma StarLaw(x: string, v: string, more: string)
    requires SlashFree(x) && more != ""
    ensures MatchFrom("/*" + x, "/" + v) == Matched([(x, v)])
    ensures MatchFrom("/*" + x + "/", "/" + v) == NoMatch
    ensures MatchFrom("/*" + x + "/" + more, "/" + v) == Aborted
  {
    StarEnd(x, "");
    StarEnd(x, "/");
    StarEnd(x, "/" + more);
    assert "/*" + x + "" == "/*" + x && "/*" + x + ("/" + more) == "/*" + x + "/" + more;
    assert ("/*" + x)[2..] == x && ("/" + v)[1..] == v;
  }

  lemma StarEnd(x: string, rest: string)
    requires SlashFree(x) && (rest == "" || rest[0] == '/')
    ensures var k := "/*" + x + rest;
            StarsHere(k) && Until(k, {'/'}, 2) == 2 + |x|
  {
    var k := "/*" + x + rest;
    assert forall i :: 2 <= i < 2 + |x| ==> k[i] == x[i - 2];
    assert rest != "" ==> k[2 + |x|] == rest[0];
  }

  // ---------------------------------------------------------------- patterns as templates

  /** A literal character, a parameter segment, a final catch-all, or a `*` segment that is followed
      by a trailing slash or by more. */
  datatype Token = Lit(c: char) | Param(name: string) | Rest(name: string) | RestSlash | RestMore

  function Tokens(k: string): seq<Token>
    decreases |k|
  {
    if k == "" then []
    else if StarsHere(k) then
      var end := Until(k, {'/'}, 2);
      [if end == |k| then Rest(k[2..]) else if end + 1 == |k| then RestSlash else RestMore]
    else if ParamHere(k) then
      var end := Until(k, {'/'}, 1);
      [Param(k[1..end])] + Tokens(k[end..])
    else [Lit(k[0])] + Tokens(k[1..])
  }

  predicate SlashFree(s: string) {
    forall i :: 0 <= i < |s| ==> s[i] != '/'
  }

  /** The name of a captured parameter keeps its `:` or `{`, contrary to the documentation. */
  lemma {:induction false} ParamNameKeepsMarker(k: string, i: nat)
    requires i < |Tokens(k)| && Tokens(k)[i].Param?
    ensures Tokens(k)[i].name != "" && Tokens(k)[i].name[0] in {':', '{'}
    decreases |k|
  {
    if i > 0 {
      ParamNameKeepsMarker(if ParamHere(k) then k[Until(k, {'/'}, 1)..] else k[1..], i - 1);
    }
  }

  /** `values` supplies one slash-free string per parameter and any string for the catch-all. */
  predicate Fit(tokens: seq<Token>, values: seq<string>) {
    if tokens == [] then values == []
    else match tokens[0]
      case Lit(_) => Fit(tokens[1..], values)
      case Param(_) => values != [] && SlashFree(values[0]) && Fit(tokens[1..], values[1..])
      case Rest(_) => |values| == 1 && |tokens| == 1
      case _ => false
  }

  /** The path a template stands for once its values are filled in. */
  function Render(tokens: seq<Token>, values: seq<string>): string
    requires Fit(tokens, values)
  {
    if tokens == [] then ""
    else match tokens[0]
      case Lit(c) => [c] + Render(tokens[1..], values)
      case Param(_) => ['/'] + (values[0] + Render(tokens[1..], values[1..]))
      case Rest(_) => ['/'] + values[0]
  }

  /** The names of a template's captures, paired with `values`. */
  function Named(tokens: seq<Token>, values: seq<string>): Captures
    requires Fit(tokens, values)
  {
    if tokens == [] then []
    else match tokens[0]
      case Lit(_) => Named(tokens[1..], values)
      case Param(name) => [(name, values[0])] + Named(tokens[1..], values[1..])
      case Rest(name) => [(name, values[0])]
  }

  function ValuesOf(captures: Captures): (values: seq<string>)
    ensures |values| == |captures|
  {
    if captures == [] then [] else [captures[0].1] + ValuesOf(captures[1..])
  }

  /** After a parameter, a template either ends or goes on with a slash. */
  lemma RenderAfterParam(k: string, values: seq<string>)
    requires k == "" || k[0] == '/'
    requires Fit(Tokens(k), values)
    ensures Render(Tokens(k), values) == "" <==> k == ""
    ensures k != "" ==> Render(Tokens(k), values)[0] == '/'
  {}

  lemma LitStep(c: char, tokens: seq<Token>, values: seq<string>)
    requires Fit(tokens, values)
    ensures Fit([Lit(c)] + tokens, values)
    ensures Render([Lit(c)] + tokens, values) == [c] + Render(tokens, values)
    ensures Named([Lit(c)] + tokens, values) == Named(tokens, values)
  {}

  /** The segment of a path in front of its next slash. */
  lemma SplitSegment(v: string) returns (end: nat, value: string, tail: string)
    requires v != "" && v[0] == '/'
    ensures end == Until(v, {'/'}, 1) && value == v[1..end] && tail == v[end..]
    ensures SlashFree(value) && v == ['/'] + (value + tail) && (tail == "" || tail[0] == '/')
  {
    end := Until(v, {'/'}, 1);
    value, tail := v[1..end], v[end..];
  }

  /** `v` is the template of `k` filled in with `values`, which it names as `c`. */
  predicate Fills(k: string, v: string, values: seq<string>, c: Captures) {
    Fit(Tokens(k), values) && Render(Tokens(k), values) == v && Named(Tokens(k), values) == c
  }

  predicate FilledBy(k: string, v: string, c: Captures) {
    Fills(k, v, ValuesOf(c), c)
  }

  /** Whatever the matcher accepts is the template filled in with exactly what it captured. */
  lemma {:induction false} MatchIsSound(k: string, v: string)
    ensures MatchFrom(k, v).Matched? ==> FilledBy(k, v, MatchFrom(k, v).captures)
    decreases |k|
  {
    if MatchFrom(k, v).Matched? && k != "" {
      if StarsHere(k) {
        StarIsSound(k, v);
      } else if ParamHere(k) {
        var kEnd := Until(k, {'/'}, 1);
        var vEnd, value, tail := SplitSegment(v);
        MatchIsSound(k[kEnd..], tail);
        ParamIsSound(k, v, kEnd, value, tail, MatchFrom(k[kEnd..], tail).captures);
      } else {
        MatchIsSound(k[1..], v[1..]);
        var c := MatchFrom(k[1..], v[1..]).captures;
        LitStep(k[0], Tokens(k[1..]), ValuesOf(c));
        assert v == [v[0]] + v[1..];
      }
    }
  }

  lemma StarIsSound(k: string, v: string)
    requires StarsHere(k) && MatchFrom(k, v).Matched?
    ensures FilledBy(k, v, MatchFrom(k, v).captures)
  {}

  lemma ParamIsSound(k: string, v: string, kEnd: nat, value: string, tail: string, c: Captures)
    requires ParamHere(k) && kEnd == Until(k, {'/'}, 1) && SlashFree(value) && v == ['/'] + (value + tail)
    requires FilledBy(k[kEnd..], tail, c)
    ensures FilledBy(k, v, [(k[1..kEnd], value)] + c)
  {}

  /** Every way of filling in the template is accepted, and the captures are those values: so the
      values behind a path are unique. */
  lemma {:induction false} MatchIsComplete(k: string, values: seq<string>)
    requires Fit(Tokens(k), values)
    ensures MatchFrom(k, Render(Tokens(k), values)) == Matched(Named(Tokens(k), values))
    decreases |k|
  {
    var v := Render(Tokens(k), values);
    if k != "" {
      if StarsHere(k) {
        assert v == ['/'] + values[0];
        assert v[1..] == values[0];
      } else if ParamHere(k) {
        var kEnd := Until(k, {'/'}, 1);
        assert Tokens(k)[1..] == Tokens(k[kEnd..]);
        var tail := Render(Tokens(k[kEnd..]), values[1..]);
        RenderAfterParam(k[kEnd..], values[1..]);
        FilledSegment(v, values[0], tail);
        MatchIsComplete(k[kEnd..], values[1..]);
      } else {
        assert Tokens(k)[1..] == Tokens(k[1..]);
        assert v == [k[0]] + Render(Tokens(k[1..]), values);
        assert v[1..] == Render(Tokens(k[1..]), values);
        MatchIsComplete(k[1..], values);
      }
    }
  }

  lemma FilledSegment(v: string, value: string, tail: string)
    requires v == ['/'] + (value + tail) && SlashFree(value) && (tail == "" || tail[0] == '/')
    ensures Until(v, {'/'}, 1) == 1 + |value| && v[1..1 + |value|] == value && v[1 + |value|..] == tail
  {
    assert v[1..] == value + tail;
    assert forall i :: 1 <= i < 1 + |value| ==> v[i] == value[i - 1];
    assert tail != "" ==> v[1 + |value|] == tail[0];
  }

  /** Exactness: the matcher accepts with captures `c` iff the path is the template filled in with
      fitting values, and then `c` names exactly those values. */
  lemma MatchIsExact(k: string, v: string, c: Captures)
    ensures MatchFrom(k, v) == Matched(c) <==> exists values :: Fills(k, v, values, c)
  {
    MatchIsSound(k, v);
    forall values | Fills(k, v, values, c) ensures MatchFrom(k, v) == Matched(c) {
      MatchIsComplete(k, values);
    }
  }

  /** The values behind a path are unique. */
  lemma CapturesAreUnique(k: string, values1: seq<string>, values2: seq<string>)
    requires Fit(Tokens(k), values1) && Fit(Tokens(k), values2)
    requires Render(Tokens(k), values1) == Render(Tokens(k), values2)
    ensures values1 == values2
  {
    MatchIsComplete(k, values1);
    MatchIsComplete(k, values2);
    NamedIsInjective(Tokens(k), values1, values2);
  }

  lemma {:induction false} NamedIsInjective(tokens: seq<Token>, values1: seq<string>, values2: seq<string>)
    requires Fit(tokens, values1) && Fit(tokens, values2) && Named(tokens, values1) == Named(tokens, values2)
    ensures values1 == values2
  {
    if tokens != [] {
      match tokens[0]
      case Lit(_) => NamedIsInjective(tokens[1..], values1, values2);
      case Param(_) =>
        assert Named(tokens, values1)[1..] == Named(tokens[1..], values1[1..]);
        assert Named(tokens, values2)[1..] == Named(tokens[1..], values2[1..]);
        assert Named(tokens, values1)[0] == Named(tokens, values2)[0];
        NamedIsInjective(tokens[1..], values1[1..], values2[1..]);
        assert values1 == [values1[0]] + values1[1..] && values2 == [values2[0]] + values2[1..];
      case Rest(_) =>
        assert Named(tokens, values1)[0] == Named(tokens, values2)[0];
      case _ =>
    }
  }

  // ---------------------------------------------------------------- when matching aborts

  /** The part of a template before a `*` segment that is followed by more. */
  function BeforeRestMore(k: string): seq<Token> {
    if Tokens(k) == [] then [] else Tokens(k)[..|Tokens(k)| - 1]
  }

  predicate Misuses(k: string) {
    Tokens(k) != [] && Tokens(k)[|Tokens(k)| - 1] == RestMore
  }

  /** `values` fill what stands before the misused `*`, and that and the next slash start the path. */
  predicate LeadsToMisuse(k: string, v: string, values: seq<string>) {
    Misuses(k) && Leads(BeforeRestMore(k), v, values)
  }

  predicate Leads(tokens: seq<Token>, v: string, values: seq<string>) {
    Fit(tokens, values) && Render(tokens, values) + ['/'] <= v
  }

  lemma MisuseAfterParam(k: string)
    requires ParamHere(k)
    ensures var kEnd := Until(k, {'/'}, 1);
            && Misuses(k) == Misuses(k[kEnd..])
            && (Misuses(k) ==> BeforeRestMore(k) == [Param(k[1..kEnd])] + BeforeRestMore(k[kEnd..]))
  {}

  lemma MisuseAfterLit(k: string)
    requires k != "" && !ParamHere(k) && !StarsHere(k)
    ensures Misuses(k) == Misuses(k[1..])
    ensures Misuses(k) ==> BeforeRestMore(k) == [Lit(k[0])] + BeforeRestMore(k[1..])
  {}

  lemma {:induction false} AbortReaches(k: string, v: string) returns (values: seq<string>)
    requires MatchFrom(k, v) == Aborted
    ensures LeadsToMisuse(k, v, values)
    decreases |k|
  {
    if StarsHere(k) {
      assert BeforeRestMore(k) == [];
      return [];
    } else if ParamHere(k) {
      var kEnd := Until(k, {'/'}, 1);
      var vEnd, value, tail := SplitSegment(v);
      var more := AbortReaches(k[kEnd..], tail);
      values := [value] + more;
      LeadsAfterParam(k, v, kEnd, value, tail, more);
    } else {
      values := AbortReaches(k[1..], v[1..]);
      LeadsAfterLit(k, v, values);
    }
  }

  lemma LeadsAfterParam(k: string, v: string, kEnd: nat, value: string, tail: string, more: seq<string>)
    requires ParamHere(k) && kEnd == Until(k, {'/'}, 1) && SlashFree(value) && v == ['/'] + (value + tail)
    requires LeadsToMisuse(k[kEnd..], tail, more)
    ensures LeadsToMisuse(k, v, [value] + more)
  {
    MisuseAfterParam(k);
    ParamLeadsFurther(k[1..kEnd], BeforeRestMore(k[kEnd..]), v, value, tail, more);
  }

  lemma ParamLeadsFurther(
      name: string, tokens: seq<Token>, v: string, value: string, tail: string, more: seq<string>)
    requires Leads(tokens, tail, more) && SlashFree(value) && v == ['/'] + (value + tail)
    ensures Leads([Param(name)] + tokens, v, [value] + more)
  {}

  lemma LeadsAfterLit(k: string, v: string, values: seq<string>)
    requires k != "" && v != "" && k[0] == v[0] && !ParamHere(k) && !StarsHere(k)
    requires LeadsToMisuse(k[1..], v[1..], values)
    ensures LeadsToMisuse(k, v, values)
  {
    MisuseAfterLit(k);
    LitLeadsFurther(k[0], BeforeRestMore(k[1..]), v, values);
  }

  lemma LitLeadsFurther(c: char, tokens: seq<Token>, v: string, values: seq<string>)
    requires v != "" && v[0] == c
    requires Fit(tokens, values)
    ensures Leads(tokens, v[1..], values) <==> Leads([Lit(c)] + tokens, v, values)
  {
    LitStep(c, tokens, values);
    var rendered := Render(tokens, values) + ['/'];
    PrefixUnder([c], rendered, v[1..]);
    assert v == [c] + v[1..];
    assert Render([Lit(c)] + tokens, values) + ['/'] == [c] + rendered;
  }

  lemma PrefixUnder(front: string, a: string, b: string)
    ensures a <= b <==> front + a <= front + b
  {
    assert a <= b ==> b == a + b[|a|..];
    if front + a <= front + b {
      assert forall i :: 0 <= i < |a| ==> a[i] == (front + a)[|front| + i] == (front + b)[|front| + i] == b[i];
    }
  }

  lemma {:induction false} ReachesAborts(k: string, v: string, values: seq<string>)
    requires LeadsToMisuse(k, v, values)
    ensures MatchFrom(k, v) == Aborted
    decreases |k|
  {
    if StarsHere(k) {
      assert BeforeRestMore(k) == [] && v[0] == '/';
    } else if ParamHere(k) {
      var kEnd := Until(k, {'/'}, 1);
      var more := ParamLeads(k, v, values, kEnd);
      ReachesAborts(k[kEnd..], more, values[1..]);
    } else {
      MisuseAfterLit(k);
      var before := BeforeRestMore(k[1..]);
      assert Fit(before, values) by { assert ([Lit(k[0])] + before)[1..] == before; }
      LitStep(k[0], before, values);
      LitLeadsFurther(k[0], before, v, values);
      ReachesAborts(k[1..], v[1..], values);
    }
  }

  lemma ParamLeads(k: string, v: string, values: seq<string>, kEnd: nat) returns (more: string)
    requires LeadsToMisuse(k, v, values) && ParamHere(k) && kEnd == Until(k, {'/'}, 1)
    ensures v != "" && v[0] == '/' && values != []
    ensures more == v[Until(v, {'/'}, 1)..] && LeadsToMisuse(k[kEnd..], more, values[1..])
  {
    MisuseAfterParam(k);
    var before := BeforeRestMore(k[kEnd..]);
    SlashLeadsOn(k, kEnd, values);
    more := ParamLeadsOn(k[1..kEnd], before, v, values);
  }

  lemma SlashLeadsOn(k: string, kEnd: nat, values: seq<string>)
    requires Misuses(k) && ParamHere(k) && kEnd == Until(k, {'/'}, 1) && Fit(BeforeRestMore(k), values)
    ensures var before := BeforeRestMore(k[kEnd..]);
            values != [] && Fit(before, values[1..]) && (Render(before, values[1..]) + ['/'])[0] == '/'
  {
    MisuseAfterParam(k);
    var before := BeforeRestMore(k[kEnd..]);
    assert ([Param(k[1..kEnd])] + before)[1..] == before;
    SlashLeads(k[kEnd..], values[1..]);
  }

  lemma ParamLeadsOn(name: string, before: seq<Token>, v: string, values: seq<string>) returns (more: string)
    requires Leads([Param(name)] + before, v, values) && values != []
    requires Fit(before, values[1..]) && (Render(before, values[1..]) + ['/'])[0] == '/'
    ensures v != "" && v[0] == '/'
    ensures more == v[Until(v, {'/'}, 1)..] && Leads(before, more, values[1..])
  {
    assert ([Param(name)] + before)[1..] == before;
    var value, tail := values[0], Render(before, values[1..]) + ['/'];
    var front := ['/'] + value;
    assert Render([Param(name)] + before, values) + ['/'] == front + tail;
    more := v[|front|..];
    assert front <= v && v == front + more;
    PrefixUnder(front, tail, more);
    assert more[0] == tail[0];
    assert v == ['/'] + (value + more);
    FilledSegment(v, value, more);
  }

  lemma SlashLeads(k: string, values: seq<string>)
    requires Misuses(k) && k[0] == '/' && Fit(BeforeRestMore(k), values)
    ensures (Render(BeforeRestMore(k), values) + ['/'])[0] == '/'
  {}

  /** Matching brings the program down exactly when the path gets as far as a misused `*`. */
  lemma AbortIsExact(k: string, v: string)
    ensures MatchFrom(k, v) == Aborted <==> exists values :: LeadsToMisuse(k, v, values)
  {
    if MatchFrom(k, v) == Aborted {
      var values := AbortReaches(k, v);
    }
    forall values | LeadsToMisuse(k, v, values) ensures MatchFrom(k, v) == Aborted {
      ReachesAborts(k, v, values);
    }
  }
}
