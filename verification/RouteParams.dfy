/** The route matcher (route_params.c) and its inverse. */
module RouteParams {
  import opened Options

  const MAX_ROUTE_PARAMS := 8

  datatype Param = Param(name: string, value: string)

  /** The characters up to the next slash. */
  function Segment(s: string): (r: string)
    ensures |r| <= |s| && r == s[..|r|] && '/' !in r
    ensures |r| < |s| ==> s[|r|] == '/'
  {
    if s == "" || s[0] == '/' then "" else [s[0]] + Segment(s[1..])
  }

  lemma {:induction false} SegmentIs(s: string, k: nat)
    requires k <= |s| && (forall i :: 0 <= i < k ==> s[i] != '/') && (k < |s| ==> s[k] == '/')
    ensures Segment(s) == s[..k]
  {
  }

  function AfterSegment(s: string): string {
    s[|Segment(s)|..]
  }

  /** Walks pattern and URL together: all parameters on the way, and whether both were
      used up. The first mismatch ends the walk. */
  datatype Walk = Walk(params: seq<Param>, matched: bool)

  function Match(p: string, u: string): Walk
    decreases |p|
  {
    if p == "" || u == "" then Walk([], p == "" && u == "")
    else if p[0] == ':' then
      var rest := Match(AfterSegment(p[1..]), AfterSegment(u));
      Walk([Param(Segment(p[1..]), Segment(u))] + rest.params, rest.matched)
    else if p[0] == u[0] then Match(p[1..], u[1..])
    else Walk([], false)
  }

  /** At most eight parameters are stored; further ones are matched and dropped. */
  function Stored(params: seq<Param>): seq<Param> {
    if |params| <= MAX_ROUTE_PARAMS then params else params[..MAX_ROUTE_PARAMS]
  }

  class Params {
    var params: seq<Param>

    constructor ()
      ensures params == []
    {
      params := [];
    }

    method ScanSegment(s: string, from: nat) returns (to: nat)
      requires from <= |s|
      ensures from <= to <= |s| && s[from..to] == Segment(s[from..]) && s[to..] == AfterSegment(s[from..])
    {
      to := from;
      while to < |s| && s[to] != '/'
        invariant from <= to <= |s|
        invariant forall i :: from <= i < to ==> s[i] != '/'
      {
        to := to + 1;
      }
      SegmentIs(s[from..], to - from);
      assert s[from..][..to - from] == s[from..to];
      assert s[from..][to - from..] == s[to..];
    }

    /** parseRouteParams: two advancing positions, and a parameter list that stops growing
        at eight. */
    method Parse(pattern: string, url: string) returns (matched: bool)
      modifies this
      ensures var w := Match(pattern, url); matched == w.matched && params == Stored(w.params)
    {
      hide Match, Segment, AfterSegment, Joined;
      params := [];
      var p, u := 0, 0;
      ghost var seen: seq<Param> := [];
      ghost var whole := Match(pattern, url);
      JoinedFirst(whole);
      assert pattern[0..] == pattern && url[0..] == url;
      while p < |pattern| && u < |url|
        invariant 0 <= p <= |pattern| && 0 <= u <= |url|
        invariant params == Stored(seen)
        invariant whole == Joined(seen, Match(pattern[p..], url[u..]))
      {
        MatchTurn(pattern, url, p, u);
        if pattern[p] == ':' {
          var pEnd := ScanSegment(pattern, p + 1);
          var uEnd := ScanSegment(url, u);
          var param := Param(pattern[p + 1..pEnd], url[u..uEnd]);
          if |params| < MAX_ROUTE_PARAMS {
            params := params + [param];
          }
          JoinedMore(seen, param, Match(pattern[pEnd..], url[uEnd..]));
          seen := seen + [param];
          p, u := pEnd, uEnd;
        } else if pattern[p] == url[u] {
          p, u := p + 1, u + 1;
        } else {
          JoinedNone(seen, false);
          return false;
        }
      }
      MatchEnd(pattern[p..], url[u..]);
      JoinedNone(seen, p == |pattern| && u == |url|);
      matched := p == |pattern| && u == |url|;
    }
  }

  /** Parameters already seen, in front of those of the rest of the walk. */
  function Joined(seen: seq<Param>, rest: Walk): Walk {
    Walk(seen + rest.params, rest.matched)
  }

  lemma JoinedFirst(w: Walk)
    ensures Joined([], w) == w
  {
  }

  lemma JoinedNone(seen: seq<Param>, matched: bool)
    ensures Joined(seen, Walk([], matched)) == Walk(seen, matched)
  {
  }

  lemma JoinedMore(seen: seq<Param>, param: Param, rest: Walk)
    ensures Joined(seen, Joined([param], rest)) == Joined(seen + [param], rest)
  {
  }

  lemma MatchEnd(p: string, u: string)
    requires p == "" || u == ""
    ensures Match(p, u) == Walk([], p == "" && u == "")
  {
  }

  lemma MatchTurn(pattern: string, url: string, p: nat, u: nat)
    requires p < |pattern| && u < |url|
    ensures Match(pattern[p..], url[u..]) ==
      if pattern[p] == ':' then
        Joined([Param(Segment(pattern[p + 1..]), Segment(url[u..]))],
               Match(AfterSegment(pattern[p + 1..]), AfterSegment(url[u..])))
      else if pattern[p] == url[u] then Match(pattern[p + 1..], url[u + 1..])
      else Walk([], false)
  {
    assert pattern[p..][1..] == pattern[p + 1..];
    assert url[u..][1..] == url[u + 1..];
  }

  // ---------- substitution ----------

  /** Puts the values in the places of the pattern's parameters; None when there are too few
      or too many. */
  function Substitute(p: string, values: seq<string>): Option<string>
    decreases |p|
  {
    if p == "" then (if values == [] then Some("") else None)
    else if p[0] == ':' then
      if values == [] then None
      else
        match Substitute(AfterSegment(p[1..]), values[1..])
        case None => None
        case Some(r) => Some(values[0] + r)
    else
      match Substitute(p[1..], values)
      case None => None
      case Some(r) => Some([p[0]] + r)
  }

  function Values(params: seq<Param>): seq<string> {
    seq(|params|, i requires 0 <= i < |params| => params[i].value)
  }

  /** The parameter names of a pattern. */
  function NamesOf(p: string): seq<string>
    decreases |p|
  {
    if p == "" then []
    else if p[0] == ':' then [Segment(p[1..])] + NamesOf(AfterSegment(p[1..]))
    else NamesOf(p[1..])
  }

  function Named(names: seq<string>, values: seq<string>): seq<Param>
    requires |names| == |values|
  {
    seq(|names|, i requires 0 <= i < |names| => Param(names[i], values[i]))
  }

  /** Whatever the matcher accepts, substituting the values it found into the pattern gives
      back the URL, and the names it found are those of the pattern. */
  lemma {:induction false} MatchSubstitutes(p: string, u: string)
    requires Match(p, u).matched
    ensures Substitute(p, Values(Match(p, u).params)) == Some(u)
    ensures |Match(p, u).params| == |NamesOf(p)|
    ensures Match(p, u).params == Named(NamesOf(p), Values(Match(p, u).params))
    decreases |p|
  {
    if p != "" {
      if p[0] == ':' {
        MatchSubstitutes(AfterSegment(p[1..]), AfterSegment(u));
        ParamSubstitutes(p, u);
      } else {
        MatchSubstitutes(p[1..], u[1..]);
        assert u == [u[0]] + u[1..];
      }
    }
  }

  lemma ParamWalk(p: string, u: string)
    requires p != "" && p[0] == ':' && Match(p, u).matched
    ensures Match(p, u).params
      == [Param(Segment(p[1..]), Segment(u))] + Match(AfterSegment(p[1..]), AfterSegment(u)).params
  {
  }

  lemma ParamSubstitutes(p: string, u: string)
    requires p != "" && p[0] == ':' && Match(p, u).matched
    requires var rest := Match(AfterSegment(p[1..]), AfterSegment(u)).params; var tail := AfterSegment(p[1..]);
      && Substitute(tail, Values(rest)) == Some(AfterSegment(u))
      && |rest| == |NamesOf(tail)|
      && rest == Named(NamesOf(tail), Values(rest))
    ensures Substitute(p, Values(Match(p, u).params)) == Some(u)
    ensures |Match(p, u).params| == |NamesOf(p)|
    ensures Match(p, u).params == Named(NamesOf(p), Values(Match(p, u).params))
  {
    hide Segment, Match;
    ParamWalk(p, u);
    var rest := Match(AfterSegment(p[1..]), AfterSegment(u)).params;
    var first := Param(Segment(p[1..]), Segment(u));
    var all := Match(p, u).params;
    assert all == [first] + rest;
    assert Values(all)[1..] == Values(rest) && Values(all)[0] == first.value;
    assert u == Segment(u) + AfterSegment(u);
    assert NamesOf(p) == [first.name] + NamesOf(AfterSegment(p[1..]));
    var named := Named(NamesOf(p), Values(all));
    assert forall i :: 0 < i < |all| ==>
      named[i] == Named(NamesOf(AfterSegment(p[1..])), Values(rest))[i - 1] == rest[i - 1];
  }

  /** A value that a parameter can take: non-empty and without a slash. */
  predicate ValidValues(values: seq<string>) {
    forall i :: 0 <= i < |values| ==> values[i] != "" && '/' !in values[i]
  }

  lemma {:induction false} SegmentOf(v: string, r: string)
    requires '/' !in v && (r == "" || r[0] == '/')
    ensures Segment(v + r) == v && AfterSegment(v + r) == r
  {
    if v == "" {
      assert v + r == r;
    } else {
      assert (v + r)[1..] == v[1..] + r;
      SegmentOf(v[1..], r);
    }
  }

  lemma SubstituteStart(p: string, values: seq<string>)
    requires ValidValues(values) && Substitute(p, values).Some?
    ensures p == "" ==> Substitute(p, values) == Some("")
    ensures p != "" && p[0] == '/' ==> Substitute(p, values).value != "" && Substitute(p, values).value[0] == '/'
    ensures p != "" ==> Substitute(p, values).value != ""
  {
  }

  /** Conversely, the substitution of any slash-free, non-empty values is accepted and
      yields exactly the pattern's names with those values. */
  lemma {:induction false} SubstituteMatches(p: string, values: seq<string>)
    requires ValidValues(values) && |values| == |NamesOf(p)|
    ensures Substitute(p, values).Some?
    ensures Match(p, Substitute(p, values).value) == Walk(Named(NamesOf(p), values), true)
    decreases |p|
  {
    if p != "" {
      if p[0] == ':' {
        var tail := AfterSegment(p[1..]);
        SubstituteMatches(tail, values[1..]);
        var r := Substitute(tail, values[1..]).value;
        SubstituteStart(tail, values[1..]);
        SegmentOf(values[0], r);
        assert Substitute(p, values) == Some(values[0] + r);
        assert Named(NamesOf(p), values) == [Param(Segment(p[1..]), values[0])] + Named(NamesOf(tail), values[1..]);
      } else {
        SubstituteMatches(p[1..], values);
        var r := Substitute(p[1..], values).value;
        assert ([p[0]] + r)[1..] == r;
      }
    }
  }

  /** Every route matches itself as a pattern. */
  lemma {:induction false} MatchesItself(p: string)
    ensures Match(p, p).matched
    decreases |p|
  {
    if p != "" {
      if p[0] == ':' {
        assert AfterSegment(p) == AfterSegment(p[1..]) by {
          assert Segment(p) == [':'] + Segment(p[1..]);
          assert p[|Segment(p)|..] == p[1..][|Segment(p[1..])|..];
        }
        MatchesItself(AfterSegment(p[1..]));
      } else {
        MatchesItself(p[1..]);
      }
    }
  }

  /** What the stored parameters lose: with at most eight parameters in the pattern they
      are all kept, and the round trip holds for the stored ones. */
  lemma StoredRoundTrip(p: string, u: string)
    requires Match(p, u).matched
    ensures Substitute(p, Values(Stored(Match(p, u).params))) == Some(u) <==> |NamesOf(p)| <= MAX_ROUTE_PARAMS
  {
    MatchSubstitutes(p, u);
    if |NamesOf(p)| > MAX_ROUTE_PARAMS {
      SubstituteCounts(p, Values(Stored(Match(p, u).params)));
    }
  }

  lemma {:induction false} SubstituteCounts(p: string, values: seq<string>)
    ensures Substitute(p, values).Some? <==> |values| == |NamesOf(p)|
    decreases |p|
  {
    if p != "" {
      if p[0] == ':' {
        if values != [] {
          SubstituteCounts(AfterSegment(p[1..]), values[1..]);
        }
      } else {
        SubstituteCounts(p[1..], values);
      }
    }
  }
}
