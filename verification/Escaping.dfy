/** HTML escaping of variable tags: what the two chunked writers put out, and that it
    can be undone. */
module Escaping {

  predicate Special(c: char) {
    c == '<' || c == '>' || c == '&' || c == '"'
  }

  function Entity(c: char): string {
    match c
    case '<' => "&lt;"
    case '>' => "&gt;"
    case '&' => "&amp;"
    case '"' => "&quot;"
    case _ => [c]
  }

  /** The specification: each special character becomes its entity. */
  function Escape(s: string): string {
    if s == "" then "" else Entity(s[0]) + Escape(s[1..])
  }

  lemma {:induction false} EscapeConcat(a: string, b: string)
    ensures Escape(a + b) == Escape(a) + Escape(b)
  {
    if a == "" {
      assert a + b == b;
    } else {
      assert (a + b)[1..] == a[1..] + b;
      EscapeConcat(a[1..], b);
    }
  }

  lemma {:induction false} EscapePlain(s: string)
    requires forall i :: 0 <= i < |s| ==> !Special(s[i])
    ensures Escape(s) == s
  {
    if s != "" {
      EscapePlain(s[1..]);
    }
  }

  /** A run of plain characters is escaped by copying it. */
  lemma EscapeRun(b: string, i: nat, j: nat)
    requires i <= j <= |b| && forall k :: i <= k < j ==> !Special(b[k])
    ensures Escape(b[..j]) == Escape(b[..i]) + b[i..j]
  {
    assert b[..j] == b[..i] + b[i..j];
    EscapeConcat(b[..i], b[i..j]);
    EscapePlain(b[i..j]);
  }

  lemma EscapeNext(b: string, i: nat)
    requires i < |b|
    ensures Escape(b[..i + 1]) == Escape(b[..i]) + Entity(b[i])
  {
    assert b[..i + 1] == b[..i] + [b[i]];
    EscapeConcat(b[..i], [b[i]]);
    assert Escape([b[i]]) == Entity(b[i]) + "";
  }

  /** iwrap_emit: the next run of plain characters is written in one piece, then the
      entity of the character that ended it. */
  method EmitCore(buffer: string, escape: bool, file: string) returns (out: string)
    ensures out == file + if escape then Escape(buffer) else buffer
  {
    if !escape {
      return file + buffer;
    }
    var written := "";
    var i := 0;
    while i < |buffer|
      invariant 0 <= i <= |buffer|
      invariant written == Escape(buffer[..i])
    {
      var j := i;
      while j < |buffer| && !Special(buffer[j])
        invariant i <= j <= |buffer|
        invariant forall k :: i <= k < j ==> !Special(buffer[k])
      {
        j := j + 1;
      }
      EscapeRun(buffer, i, j);
      if j != i {
        written := written + buffer[i..j];
      }
      if j < |buffer| {
        EscapeNext(buffer, j);
        written := written + Entity(buffer[j]);
        j := j + 1;
      }
      i := j;
    }
    assert buffer[..i] == buffer;
    out := file + written;
  }

  /** emit of the wrapper: the same loop on one index. */
  method EmitWrap(buffer: string, escape: bool, file: string) returns (out: string)
    ensures out == file + if escape then Escape(buffer) else buffer
  {
    if !escape {
      return file + buffer;
    }
    var written := "";
    var i := 0;
    while i < |buffer|
      invariant 0 <= i <= |buffer|
      invariant written == Escape(buffer[..i])
    {
      var s := i;
      while i < |buffer| && !Special(buffer[i])
        invariant s <= i <= |buffer|
        invariant forall k :: s <= k < i ==> !Special(buffer[k])
      {
        i := i + 1;
      }
      EscapeRun(buffer, s, i);
      if i != s {
        written := written + buffer[s..i];
      }
      if i < |buffer| {
        EscapeNext(buffer, i);
        written := written + Entity(buffer[i]);
        i := i + 1;
      }
    }
    assert buffer[..i] == buffer;
    out := file + written;
  }

  // ---------- escaping can be undone ----------

  /** Decodes the four entities, left to right. */
  function Unescape(s: string): string
    decreases |s|
  {
    if s == "" then ""
    else if "&lt;" <= s then "<" + Unescape(s[4..])
    else if "&gt;" <= s then ">" + Unescape(s[4..])
    else if "&amp;" <= s then "&" + Unescape(s[5..])
    else if "&quot;" <= s then "\"" + Unescape(s[6..])
    else [s[0]] + Unescape(s[1..])
  }

  lemma UnescapeEntity(c: char, r: string)
    ensures Unescape(Entity(c) + r) == [c] + Unescape(r)
  {
    var s := Entity(c) + r;
    assert s[|Entity(c)|..] == r;
    match c {
      case '<' => assert "&lt;" <= s;
      case '>' => assert "&gt;" <= s && !("&lt;" <= s) by { assert s[1] == 'g'; }
      case '&' => assert "&amp;" <= s && !("&lt;" <= s) && !("&gt;" <= s) by { assert s[1] == 'a'; }
      case '"' => assert "&quot;" <= s && !("&lt;" <= s) && !("&gt;" <= s) && !("&amp;" <= s) by { assert s[1] == 'q'; }
      case _ => assert s[0] == c && c != '&';
    }
  }

  /** Decoding the entities recovers the text that was escaped. */
  lemma {:induction false} EscapeRoundTrip(s: string)
    ensures Unescape(Escape(s)) == s
  {
    if s != "" {
      UnescapeEntity(s[0], Escape(s[1..]));
      EscapeRoundTrip(s[1..]);
    }
  }

  lemma EscapeInjective(a: string, b: string)
    requires Escape(a) == Escape(b)
    ensures a == b
  {
    EscapeRoundTrip(a);
    EscapeRoundTrip(b);
  }

  /** No character of escaped text opens a tag or closes a quoted attribute. */
  lemma {:induction false} EscapedIsInert(s: string)
    ensures forall i :: 0 <= i < |Escape(s)| ==>
      Escape(s)[i] != '<' && Escape(s)[i] != '>' && Escape(s)[i] != '"'
  {
    if s != "" {
      EscapedIsInert(s[1..]);
      var e := Entity(s[0]);
      assert forall i :: 0 <= i < |e| ==> e[i] != '<' && e[i] != '>' && e[i] != '"';
    }
  }
}
