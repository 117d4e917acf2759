/** What is written between the delimiters and what the tag means: printed tags are read back,
    and nothing else is read. Nothing here looks at how a tag is read. */
module TagLaws {
  import opened Options
  import opened CStrings
  import opened Selection
  import opened Tags

  /** The delimiter, put behind s, occurs there first. */
  predicate First(s: string, d: string) {
    forall i :: 0 <= i < |s| ==> !Occurs(s + d, i, d)
  }

  /** The name stands in s with white space around it. */
  ghost predicate Padded(s: string, name: string) {
    exists l, r :: Around(s, l, name, r)
  }

  predicate Around(s: string, l: string, name: string, r: string) {
    s == l + name + r && AllSpace(l) && AllSpace(r) && Tight(name)
  }

  /** No white space at either end. */
  predicate Tight(s: string) {
    s != "" ==> !IsSpace(s[0]) && !IsSpace(s[|s| - 1])
  }

  /** A name as it can be written in a tag. */
  ghost predicate WritesName(flags: Flags, s: string, name: string) {
    Padded(s, name) && (name != "" || flags.emptyTag) && |name| <= MAX_NAME
  }

  predicate Starts(body: string, sigil: char) {
    body != "" && body[0] == sigil
  }

  /** The text does not start like a tag of another kind. */
  predicate NoSigil(flags: Flags, body: string) {
    && body != "" && body[0] !in "!={&^#/>"
    && (body[0] == ':' ==> !flags.colon)
  }

  /** White space, and at least some of it. */
  predicate Gap(s: string) {
    s != "" && AllSpace(s)
  }

  /** New delimiters between equal signs: two words apart. */
  ghost predicate WritesDelims(body: string, nd: Delims) {
    exists l, gap, r :: DelimsAt(body, l, nd, gap, r)
  }

  predicate DelimsAt(body: string, l: string, nd: Delims, gap: string, r: string) {
    && body == "=" + l + nd.open + gap + nd.close + r + "="
    && AllSpace(l) && Gap(gap) && AllSpace(r)
    && ValidDelims(nd) && Tight(nd.close)
  }

  /** What is written for a tag. */
  ghost predicate Writes(flags: Flags, body: string, tag: Tag) {
    match tag
    case Variable(name, escape) =>
      if escape then
        (NoSigil(flags, body) && WritesName(flags, body, name))
        || (flags.colon && Starts(body, ':') && WritesName(flags, body[1..], name))
      else Starts(body, '&') && WritesName(flags, body[1..], name)
    case Section(name, inverted) => Starts(body, if inverted then '^' else '#') && WritesName(flags, body[1..], name)
    case Close(name) => Starts(body, '/') && WritesName(flags, body[1..], name)
    case Partial(name) => Starts(body, '>') && WritesName(flags, body[1..], name)
    case Comment => Starts(body, '!')
    case SetDelims(nd) => Starts(body, '=') && WritesDelims(body, nd)
  }

  // ---------- white space ----------

  lemma {:induction false} TrimLeftIs(l: string, s: string)
    requires AllSpace(l) && (s != "" ==> !IsSpace(s[0]))
    ensures TrimLeft(l + s) == s
  {
    if l == "" {
      assert l + s == s;
    } else {
      assert (l + s)[1..] == l[1..] + s;
      TrimLeftIs(l[1..], s);
    }
  }

  lemma {:induction false} TrimRightIs(s: string, r: string)
    requires AllSpace(r) && (s != "" ==> !IsSpace(s[|s| - 1]))
    ensures TrimRight(s + r) == s
  {
    if r == "" {
      assert s + r == s;
    } else {
      assert (s + r)[..|s + r| - 1] == s + r[..|r| - 1];
      TrimRightIs(s, r[..|r| - 1]);
    }
  }

  lemma TrimAround(l: string, name: string, r: string)
    requires AllSpace(l) && AllSpace(r) && Tight(name)
    ensures Trim(l + name + r) == name
  {
    hide TrimLeft, TrimRight;
    if name == "" {
      TrimLeftIs(l + r, "");
      assert l + name + r == l + r + "";
      TrimRightIs("", "");
    } else {
      assert l + name + r == l + (name + r);
      TrimLeftIs(l, name + r);
      TrimRightIs(name, r);
    }
  }

  lemma TrimIs(s: string, name: string)
    requires Padded(s, name)
    ensures Trim(s) == name
  {
    hide Trim;
    var l, r :| Around(s, l, name, r);
    TrimAround(l, name, r);
  }

  lemma LeftParts(s: string) returns (l: string)
    ensures s == l + TrimLeft(s) && AllSpace(l)
  {
    l := s[..|s| - |TrimLeft(s)|];
  }

  lemma RightParts(s: string) returns (r: string)
    ensures s == TrimRight(s) + r && AllSpace(r)
  {
    r := s[|TrimRight(s)|..];
  }

  lemma TrimTight(s: string)
    ensures Tight(Trim(s))
  {
  }

  lemma TrimParts(s: string) returns (l: string, r: string)
    ensures Around(s, l, Trim(s), r)
  {
    TrimTight(s);
    hide TrimLeft, TrimRight, AllSpace, Tight;
    l := LeftParts(s);
    r := RightParts(TrimLeft(s));
    assert s == l + (Trim(s) + r) == l + Trim(s) + r;
  }

  /** Exactly the names that are written are taken. */
  lemma TrimmedExactly(flags: Flags, s: string, name: string)
    ensures TrimmedName(flags, s) == Name(name) <==> WritesName(flags, s, name)
  {
    hide Trim;
    var l, r := TrimParts(s);
    if Padded(s, name) {
      TrimIs(s, name);
    }
  }

  lemma {:induction false} WordIs(w: string, s: string)
    requires NoSpace(w) && (s != "" ==> IsSpace(s[0]))
    ensures WordLength(w + s) == |w|
  {
    if w == "" {
      assert w + s == s;
    } else {
      assert (w + s)[1..] == w[1..] + s;
      WordIs(w[1..], s);
    }
  }

  // ---------- new delimiters ----------

  /** What is between the equal signs, without white space around it. */
  lemma InnerOf(body: string, l: string, inner: string, r: string)
    requires body == "=" + l + inner + r + "="
    ensures body[1..|body| - 1] == l + inner + r && body[|body| - 1] == '='
  {
  }

  lemma InnerTight(nd: Delims, gap: string)
    requires ValidDelims(nd) && Tight(nd.close)
    ensures Tight(nd.open + gap + nd.close)
  {
    var s := nd.open + gap + nd.close;
    assert s[0] == nd.open[0] && s[|s| - 1] == nd.close[|nd.close| - 1];
  }

  lemma WordsRead(nd: Delims, gap: string)
    requires ValidDelims(nd) && Gap(gap)
    ensures TwoWords(nd.open + gap + nd.close) == Some(nd)
  {
    assert IsSpace(gap[0]);
    hide TrimLeft, WordLength, NoSpace, IsSpace, AllSpace;
    var s := nd.open + gap + nd.close;
    assert s == nd.open + (gap + nd.close);
    WordIs(nd.open, gap + nd.close);
    assert s[|nd.open|..] == gap + nd.close && s[..|nd.open|] == nd.open;
    TrimLeftIs(gap, nd.close);
  }

  lemma WrittenDelimsRead(body: string, l: string, nd: Delims, gap: string, r: string)
    requires DelimsAt(body, l, nd, gap, r)
    ensures ReadDelims(body) == Some(nd)
  {
    hide Trim, TwoWords, AllSpace, Tight, ValidDelims;
    var inner := nd.open + gap + nd.close;
    InnerTight(nd, gap);
    WordsRead(nd, gap);
    assert body == "=" + l + inner + r + "=";
    InnerOf(body, l, inner, r);
    TrimAround(l, inner, r);
    LongEnough(nd, gap);
  }

  lemma LongEnough(nd: Delims, gap: string)
    requires ValidDelims(nd) && Gap(gap)
    ensures |nd.open + gap + nd.close| >= 3
  {
  }

  lemma GapThere(s: string, gap: string)
    requires s != "" && IsSpace(s[0]) && s == gap + TrimLeft(s)
    ensures gap != ""
  {
    assert TrimLeft(s) != s;
  }

  lemma LastStays(s: string, n: nat, c: string)
    requires n <= |s| && c != "" && |c| <= |s[n..]| && c == s[n..][|s[n..]| - |c|..]
    ensures c[|c| - 1] == s[|s| - 1]
  {
  }

  lemma TightParts(s: string, n: nat, c: string)
    requires Tight(s) && n <= |s| && c != "" && |c| <= |s[n..]| && c == s[n..][|s[n..]| - |c|..] && !IsSpace(c[0])
    ensures Tight(c)
  {
    LastStays(s, n, c);
  }

  lemma WordsWritten(s: string) returns (gap: string)
    requires TwoWords(s).Some? && Tight(s)
    ensures var nd := TwoWords(s).value; s == nd.open + gap + nd.close && Gap(gap) && ValidDelims(nd) && Tight(nd.close)
  {
    var n := WordLength(s);
    var rest := s[n..];
    var close := TrimLeft(rest);
    assert TwoWords(s).value == Delims(s[..n], close);
    assert n < |s| && close != "" && IsSpace(rest[0]) && !IsSpace(close[0]);
    assert ValidDelims(TwoWords(s).value);
    TightParts(s, n, close);
    hide TwoWords, ValidDelims, Tight, TrimLeft, WordLength, AllSpace, NoSpace, IsSpace;
    gap := LeftParts(rest);
    GapThere(rest, gap);
    JoinParts(s, n, gap, close);
  }

  lemma JoinParts(s: string, n: nat, gap: string, close: string)
    requires n <= |s| && s[n..] == gap + close
    ensures s == s[..n] + gap + close
  {
    assert s == s[..n] + s[n..];
  }

  lemma ReadDelimsWritten(body: string)
    requires ReadDelims(body).Some? && body[0] == '='
    ensures WritesDelims(body, ReadDelims(body).value)
  {
    hide Trim, TwoWords, AllSpace, ValidDelims, Tight;
    var s := body[1..|body| - 1];
    var l, r := TrimParts(s);
    var gap := WordsWritten(Trim(s));
    var nd := ReadDelims(body).value;
    assert body == "=" + s + "=" == "=" + l + nd.open + gap + nd.close + r + "=";
    assert DelimsAt(body, l, nd, gap, r);
  }

  lemma DelimsExactly(body: string, nd: Delims)
    requires body != "" && body[0] == '='
    ensures ReadDelims(body) == Some(nd) <==> WritesDelims(body, nd)
  {
    hide ReadDelims, DelimsAt;
    if WritesDelims(body, nd) {
      var l, gap, r :| DelimsAt(body, l, nd, gap, r);
      WrittenDelimsRead(body, l, nd, gap, r);
    }
    if ReadDelims(body) == Some(nd) {
      ReadDelimsWritten(body);
    }
  }

  // ---------- finding the tag ----------

  /** A template with one tag behind some text. */
  function Tagged(prefix: string, text: string, d: Delims, body: string, rest: string): string {
    prefix + (text + (d.open + (body + (d.close + rest))))
  }

  function Behind(prefix: string, text: string, d: Delims, body: string): nat {
    |prefix| + |text| + |d.open| + |body| + |d.close|
  }

  /** What first occurs behind s is found there. */
  lemma FoundBehind(prefix: string, s: string, d: string, rest: string)
    requires d != "" && First(s, d)
    ensures Occurs(prefix + (s + (d + rest)), |prefix| + |s|, d)
    ensures Find(prefix + (s + (d + rest)), |prefix|, d) == |prefix| + |s|
  {
    var t := prefix + (s + (d + rest));
    var p := |prefix|;
    assert t[p..][|s|..] == d + rest;
    assert t[p + |s|..p + |s| + |d|] == d;
    forall i | p <= i < p + |s| ensures !Occurs(t, i, d) {
      if Occurs(t, i, d) {
        assert (s + d)[i - p..i - p + |d|] == t[i..i + |d|];
        assert Occurs(s + d, i - p, d);
      }
    }
    FindIs(t, p, d, p + |s|);
  }

  lemma Pieces(prefix: string, text: string, d: Delims, body: string, rest: string)
    ensures var t := Tagged(prefix, text, d, body, rest); var term := Behind(prefix, text, d, body) - |d.close|;
      && term + |d.close| <= |t|
      && t[term - |body|..term] == body && t[term + |d.close|..] == rest
      && t[|prefix|..|prefix| + |text|] == text
      && t == (prefix + text + d.open) + (body + (d.close + rest))
  {
    var t := Tagged(prefix, text, d, body, rest);
    var front := prefix + text + d.open;
    assert t == front + (body + (d.close + rest));
    assert t[|front|..] == body + (d.close + rest);
    assert t[|front|..][..|body|] == body && t[|front|..][|body| + |d.close|..] == rest;
  }

  lemma Located(flags: Flags, prefix: string, text: string, d: Delims, body: string, rest: string)
    requires ValidDelims(d) && First(text, d.open) && First(body, d.close)
    ensures var t := Tagged(prefix, text, d, body, rest); var term := Behind(prefix, text, d, body) - |d.close|;
      && Occurs(t, term, d.close)
      && t[term - |body|..term] == body && t[term + |d.close|..] == rest
      && NextTag(flags, t, |prefix|, d) == ReadTag(flags, t, text, term - |body|, term, d)
  {
    hide ReadTag, Occurs, Find, First;
    Pieces(prefix, text, d, body, rest);
    FoundBehind(prefix, text, d.open, body + (d.close + rest));
    FoundBehind(prefix + text + d.open, body, d.close, rest);
  }

  // ---------- reading what is written ----------

  predicate HasSigil(flags: Flags, body: string) {
    body != "" && (body[0] in "&^#/>" || (body[0] == ':' && flags.colon))
  }

  /** Where the name stands. */
  function NamePart(flags: Flags, body: string): string {
    if HasSigil(flags, body) then body[1..] else body
  }

  /** What is wrong with a body that no tag is written as. */
  function Fault(flags: Flags, body: string): Error {
    if Starts(body, '=') then BadSeparators
    else if AllSpace(NamePart(flags, body)) && !flags.emptyTag then EmptyTag
    else TagTooLong
  }

  lemma SpaceTrims(s: string)
    ensures Trim(s) == "" <==> AllSpace(s)
  {
    hide Trim;
    var l, r := TrimParts(s);
    if AllSpace(s) {
      assert Around(s, s, "", "");
      TrimIs(s, "");
    }
    if Trim(s) == "" {
      assert s == l + r;
    }
  }

  /** The names taken, and the error otherwise. */
  lemma NameExactly(flags: Flags, s: string)
    ensures match TrimmedName(flags, s)
      case Name(name) => WritesName(flags, s, name)
      case BadName(e) =>
        && (forall name :: !WritesName(flags, s, name))
        && e == if AllSpace(s) && !flags.emptyTag then EmptyTag else TagTooLong
  {
    hide Trim, Padded;
    SpaceTrims(s);
    forall name ensures TrimmedName(flags, s) == Name(name) <==> WritesName(flags, s, name) {
      TrimmedExactly(flags, s, name);
    }
  }

  /** How the tag is read, put in terms of its name. */
  lemma ReadByName(flags: Flags, t: string, text: string, beg: nat, term: nat, d: Delims)
    requires ValidDelims(d) && beg < term && Occurs(t, term, d.close)
    requires t[beg] !in "!={"
    ensures var body := t[beg..term]; var c := body[0]; var r := ReadTag(flags, t, text, beg, term, d);
      match TrimmedName(flags, NamePart(flags, body))
      case BadName(e) => r == Bad(e)
      case Name(name) =>
        && (c in "^#" ==> r == Read(Token(text, Section(name, c == '^'), term + |d.close|, d)))
        && (c == '/' ==> r == Read(Token(text, Close(name), term + |d.close|, d)))
        && (c == '>' ==> r == Read(Token(text, Partial(name), term + |d.close|, d)))
        && (c !in "^#/>" ==> r == Read(Token(text, Variable(name, c != '&'), term + |d.close|, d)))
  {
    hide TrimmedName;
  }

  /** Which tags are written by a body whose name stands behind a sigil, or alone. */
  lemma WritesByName(flags: Flags, body: string, tag: Tag)
    requires body != "" && body[0] !in "!={"
    ensures var c := body[0]; var s := NamePart(flags, body);
      Writes(flags, body, tag) <==>
      || (c in "^#" && tag.Section? && tag.inverted == (c == '^') && WritesName(flags, s, tag.name))
      || (c == '/' && tag.Close? && WritesName(flags, s, tag.name))
      || (c == '>' && tag.Partial? && WritesName(flags, s, tag.name))
      || (c !in "^#/>" && tag.Variable? && tag.escape == (c != '&') && WritesName(flags, s, tag.name))
  {
    hide WritesName;
  }

  lemma CommentRead(flags: Flags, t: string, text: string, beg: nat, term: nat, d: Delims, body: string, tag: Tag)
    requires ValidDelims(d) && beg < term && Occurs(t, term, d.close) && t[beg..term] == body && body[0] == '!'
    ensures var r := ReadTag(flags, t, text, beg, term, d); var next := term + |d.close|;
      && (r == Read(Token(text, tag, next, if tag.SetDelims? then tag.delims else d)) <==> Writes(flags, body, tag))
      && (r == Bad(Fault(flags, body)) <==> forall x :: !Writes(flags, body, x))
  {
    assert body[0] == t[beg];
    hide WritesName, WritesDelims, Occurs;
    assert Writes(flags, body, Comment);
  }

  lemma ReadByDelims(flags: Flags, t: string, text: string, beg: nat, term: nat, d: Delims)
    requires ValidDelims(d) && beg < term && Occurs(t, term, d.close) && t[beg] == '='
    ensures var nd := ReadDelims(t[beg..term]); var r := ReadTag(flags, t, text, beg, term, d);
      r == if nd.None? then Bad(BadSeparators)
           else Read(Token(text, SetDelims(nd.value), term + |d.close|, nd.value))
  {
    hide ReadDelims;
  }

  lemma WritesByDelims(flags: Flags, body: string, tag: Tag)
    requires body != "" && body[0] == '='
    ensures Writes(flags, body, tag) <==> tag.SetDelims? && WritesDelims(body, tag.delims)
  {
    hide WritesDelims, WritesName;
  }

  lemma DelimsRead(flags: Flags, t: string, text: string, beg: nat, term: nat, d: Delims, body: string, tag: Tag)
    requires ValidDelims(d) && beg < term && Occurs(t, term, d.close) && t[beg..term] == body && body[0] == '='
    ensures var r := ReadTag(flags, t, text, beg, term, d); var next := term + |d.close|;
      && (r == Read(Token(text, tag, next, if tag.SetDelims? then tag.delims else d)) <==> Writes(flags, body, tag))
      && (r == Bad(Fault(flags, body)) <==> forall x :: !Writes(flags, body, x))
  {
    assert body[0] == t[beg];
    hide WritesName, WritesDelims, ReadDelims, Occurs, ReadTag, Writes;
    ReadByDelims(flags, t, text, beg, term, d);
    var nd := ReadDelims(body);
    forall x: Tag ensures Writes(flags, body, x) <==> x.SetDelims? && nd == Some(x.delims) {
      WritesByDelims(flags, body, x);
      if x.SetDelims? {
        DelimsExactly(body, x.delims);
      }
    }
    if nd.Some? {
      assert Writes(flags, body, SetDelims(nd.value));
    }
  }

  /** The tag that the sigil makes of a name. */
  function NamedTag(c: char, name: string): Tag {
    if c in "^#" then Section(name, c == '^')
    else if c == '/' then Close(name)
    else if c == '>' then Partial(name)
    else Variable(name, c != '&')
  }

  lemma NamedWrites(flags: Flags, body: string, x: Tag)
    requires body != "" && body[0] !in "!={"
    ensures var taken := TrimmedName(flags, NamePart(flags, body));
      Writes(flags, body, x) <==> taken.Name? && x == NamedTag(body[0], taken.name)
  {
    hide TrimmedName, WritesName, Writes;
    WritesByName(flags, body, x);
    if !x.Comment? && !x.SetDelims? {
      TrimmedExactly(flags, NamePart(flags, body), x.name);
    }
  }

  lemma NamedRead(flags: Flags, t: string, text: string, beg: nat, term: nat, d: Delims, body: string, tag: Tag)
    requires ValidDelims(d) && beg < term && Occurs(t, term, d.close) && t[beg..term] == body && body[0] !in "!={"
    ensures var r := ReadTag(flags, t, text, beg, term, d); var next := term + |d.close|;
      && (r == Read(Token(text, tag, next, if tag.SetDelims? then tag.delims else d)) <==> Writes(flags, body, tag))
      && (r == Bad(Fault(flags, body)) <==> forall x :: !Writes(flags, body, x))
  {
    var c, s := body[0], NamePart(flags, body);
    assert c == t[beg];
    hide Occurs, ReadTag, TrimmedName, WritesName, Writes, Fault, NamePart;
    ReadByName(flags, t, text, beg, term, d);
    NameFault(flags, body);
    var taken := TrimmedName(flags, s);
    forall x: Tag ensures Writes(flags, body, x) <==> taken.Name? && x == NamedTag(c, taken.name) {
      NamedWrites(flags, body, x);
    }
    if taken.Name? {
      assert Writes(flags, body, NamedTag(c, taken.name));
    }
  }

  lemma NameFault(flags: Flags, body: string)
    requires body != "" && body[0] !in "!={"
    ensures var taken := TrimmedName(flags, NamePart(flags, body)); taken.BadName? ==> taken.error == Fault(flags, body)
  {
    hide TrimmedName, WritesName;
    NameExactly(flags, NamePart(flags, body));
  }

  /** A tag is read exactly where it is written, with everything in front of it as its text,
      and what writes no tag is an error. */
  lemma TagExactly(flags: Flags, prefix: string, text: string, d: Delims, body: string, rest: string, tag: Tag)
    requires ValidDelims(d) && First(text, d.open) && First(body, d.close) && body != "" && body[0] != '{'
    ensures var r := NextTag(flags, Tagged(prefix, text, d, body, rest), |prefix|, d);
      var next := Behind(prefix, text, d, body);
      && (r == Read(Token(text, tag, next, if tag.SetDelims? then tag.delims else d)) <==> Writes(flags, body, tag))
      && (r == Bad(Fault(flags, body)) <==> forall x :: !Writes(flags, body, x))
  {
    hide NextTag, Tagged, Occurs, First, ReadTag, WritesName, WritesDelims, ReadDelims, TrimmedName, Fault;
    var t := Tagged(prefix, text, d, body, rest);
    var next := Behind(prefix, text, d, body);
    var term := next - |d.close|;
    var beg := term - |body|;
    Located(flags, prefix, text, d, body, rest);
    if body[0] == '!' {
      CommentRead(flags, t, text, beg, term, d, body, tag);
    } else if body[0] == '=' {
      DelimsRead(flags, t, text, beg, term, d, body, tag);
    } else {
      NamedRead(flags, t, text, beg, term, d, body, tag);
    }
  }

  // ---------- the unescaped form in braces ----------

  lemma BracesRead(flags: Flags, t: string, text: string, beg: nat, term: nat, d: Delims)
    requires ValidDelims(d) && beg < term && Occurs(t, term, d.close) && t[beg] == '{'
    ensures ReadTag(flags, t, text, beg, term, d) == ReadBraces(flags, t, text, t[beg..term], term + |d.close|, d)
  {
    hide ReadBraces;
  }

  /** A name in braces, with the closing one behind the delimiter, or in front of it. */
  lemma BracedName(flags: Flags, t: string, text: string, body: string, after: nat, d: Delims, inner: string,
                   name: string)
    requires ValidDelims(d) && after <= |t| && TrimmedName(flags, inner) == Name(name)
    requires body == if AllBraces(d.close) then "{" + inner else "{" + inner + "}"
    requires AllBraces(d.close) ==> after < |t| && t[after] == '}'
    ensures ReadBraces(flags, t, text, body, after, d)
      == Read(Token(text, Variable(name, false), if AllBraces(d.close) then after + 1 else after, d))
  {
    hide TrimmedName, AllBraces, ValidDelims;
    assert ("{" + inner)[1..] == inner;
    if !AllBraces(d.close) {
      assert body[..|body| - 1] == "{" + inner;
    }
  }

  lemma {:induction false} BracesShift(s: string, rest: string)
    requires AllBraces(s)
    ensures "}" + (s + rest) == s + ("}" + rest)
  {
    if s != "" {
      assert s == "}" + s[1..];
      BracesShift(s[1..], rest);
      assert s + rest == "}" + (s[1..] + rest) && s + ("}" + rest) == "}" + (s[1..] + ("}" + rest));
    }
  }

  /** A name in braces between the delimiters is an unescaped variable. */
  lemma BracesReadBack(flags: Flags, prefix: string, text: string, d: Delims, inner: string, name: string, rest: string)
    requires ValidDelims(d) && First(text, d.open) && WritesName(flags, inner, name)
    requires First(if AllBraces(d.close) then "{" + inner else "{" + inner + "}", d.close)
    ensures var body := "{" + inner + "}";
      NextTag(flags, Tagged(prefix, text, d, body, rest), |prefix|, d)
      == Read(Token(text, Variable(name, false), Behind(prefix, text, d, body), d))
  {
    hide NextTag, ReadTag, ReadBraces, WritesName, TrimmedName, First, Occurs;
    TrimmedExactly(flags, inner, name);
    var open := "{" + inner;
    var t := Tagged(prefix, text, d, open + "}", rest);
    if AllBraces(d.close) {
      BracesShift(d.close, rest);
      assert open + "}" + (d.close + rest) == open + ("}" + (d.close + rest));
      assert t == Tagged(prefix, text, d, open, "}" + rest);
      Located(flags, prefix, text, d, open, "}" + rest);
      var term := Behind(prefix, text, d, open) - |d.close|;
      assert t[term + |d.close|..][0] == '}' && t[term - |open|] == open[0];
      BracesRead(flags, t, text, term - |open|, term, d);
      BracedName(flags, t, text, open, term + |d.close|, d, inner, name);
    } else {
      Located(flags, prefix, text, d, open + "}", rest);
      var term := Behind(prefix, text, d, open + "}") - |d.close|;
      assert t[term - |open| - 1] == (open + "}")[0];
      BracesRead(flags, t, text, term - |open| - 1, term, d);
      BracedName(flags, t, text, open + "}", term + |d.close|, d, inner, name);
    }
  }

  // ---------- no tag, or no end of it ----------

  lemma NoTag(flags: Flags, prefix: string, text: string, d: Delims)
    requires ValidDelims(d) && forall i :: 0 <= i < |text| ==> !Occurs(text, i, d.open)
    ensures NextTag(flags, prefix + text, |prefix|, d) == AtEnd(text)
  {
    var t := prefix + text;
    assert t[|prefix|..] == text;
    forall i | |prefix| <= i < |t| ensures !Occurs(t, i, d.open) {
      var k := i - |prefix|;
      assert !Occurs(text, k, d.open);
      assert k + |d.open| <= |text| ==> text[k..k + |d.open|] == t[i..i + |d.open|];
    }
    FindIs(t, |prefix|, d.open, |t|);
  }

  lemma NoClosing(flags: Flags, prefix: string, text: string, d: Delims, rest: string)
    requires ValidDelims(d) && First(text, d.open) && forall i :: 0 <= i < |rest| ==> !Occurs(rest, i, d.close)
    ensures NextTag(flags, prefix + (text + (d.open + rest)), |prefix|, d) == Bad(UnexpectedEnd)
  {
    hide First, ReadTag;
    FoundBehind(prefix, text, d.open, rest);
    var t := prefix + (text + (d.open + rest));
    var beg := |prefix| + |text| + |d.open|;
    assert t[beg..] == rest;
    forall i | beg <= i < |t| ensures !Occurs(t, i, d.close) {
      var k := i - beg;
      assert !Occurs(rest, k, d.close);
      assert k + |d.close| <= |rest| ==> rest[k..k + |d.close|] == t[i..i + |d.close|];
    }
    FindIs(t, beg, d.close, |t|);
  }
}
