/** From characters to tags: reading the next mustache tag of a template under the
    delimiters in force (the scanning part of `process` in mustach.c). */
module Tags {
  import opened Options
  import opened CStrings
  import opened Selection

  const MAX_DEPTH: nat := 256
  const MAX_NAME: nat := 4096
  const MAX_DELIM: nat := 8

  datatype Error =
    | UnexpectedEnd | EmptyTag | TagTooLong | BadSeparators | TooDeep | Closing | BadUnescapeTag

  datatype Delims = Delims(open: string, close: string)

  const DEFAULT_DELIMS := Delims("{{", "}}")

  predicate ValidDelims(d: Delims) {
    && 0 < |d.open| <= MAX_DELIM && NoSpace(d.open)
    && 0 < |d.close| <= MAX_DELIM && !IsSpace(d.close[0])
  }

  datatype Tag =
    | Variable(name: string, escape: bool)
    | Comment
    | SetDelims(delims: Delims)
    | Section(name: string, inverted: bool)
    | Close(name: string)
    | Partial(name: string)

  /** A tag in place: the text between the previous tag and this one, where reading
      goes on, and the delimiters from then on. */
  datatype Token = Token(text: string, tag: Tag, next: nat, delims: Delims)

  datatype Reading = AtEnd(text: string) | Bad(error: Error) | Read(token: Token)

  datatype NameResult = Name(name: string) | BadName(error: Error)

  function TrimmedName(flags: Flags, s: string): NameResult {
    var name := Trim(s);
    if name == "" && !flags.emptyTag then BadName(EmptyTag)
    else if |name| > MAX_NAME then BadName(TagTooLong)
    else Name(name)
  }

  /** The name after a one-character sigil. When the tag is empty the sigil read is the
      first character of the closing delimiter, the length wraps around below zero, and
      the name counts as too long. */
  function SigilName(flags: Flags, body: string): NameResult {
    if body == "" then BadName(TagTooLong) else TrimmedName(flags, body[1..])
  }

  /** Two words with white space between them, neither of them too long. */
  function TwoWords(s: string): (r: Option<Delims>)
    ensures r.Some? && (s != "" ==> !IsSpace(s[0])) ==> ValidDelims(r.value)
  {
    var n := WordLength(s);
    if n == |s| || n > MAX_DELIM then None
    else
      var close := TrimLeft(s[n..]);
      if close == "" || |close| > MAX_DELIM then None else Some(Delims(s[..n], close))
  }

  /** The new delimiters written in `=open close=`. */
  function ReadDelims(body: string): (r: Option<Delims>)
    ensures r.Some? ==> ValidDelims(r.value)
  {
    if |body| < 5 || body[|body| - 1] != '=' then None
    else
      TrimStart(body[1..|body| - 1]);
      TwoWords(Trim(body[1..|body| - 1]))
  }

  lemma TrimStart(s: string)
    ensures Trim(s) != "" ==> !IsSpace(Trim(s)[0])
  {
  }

  predicate AllBraces(s: string) {
    forall i :: 0 <= i < |s| ==> s[i] == '}'
  }

  /** A name in braces: the closing one stands behind the delimiter if that is all braces, and
      in front of it otherwise. */
  function ReadBraces(flags: Flags, t: string, text: string, body: string, after: nat, d: Delims): (r: Reading)
    requires ValidDelims(d) && after <= |t|
    ensures r.Read? ==> after <= r.token.next <= |t| && r.token.delims == d && r.token.text == text
    ensures r.Read? ==> r.token.tag.Variable?
    ensures !r.AtEnd?
  {
    if AllBraces(d.close) then
      if after == |t| || t[after] != '}' then Bad(BadUnescapeTag)
      else
        match SigilName(flags, body)
        case BadName(e) => Bad(e)
        case Name(name) => Read(Token(text, Variable(name, false), after + 1, d))
    else if body == "" || body[|body| - 1] != '}' then Bad(BadUnescapeTag)
    else
      match SigilName(flags, body[..|body| - 1])
      case BadName(e) => Bad(e)
      case Name(name) => Read(Token(text, Variable(name, false), after, d))
  }

  /** The tag whose text runs from beg to the closing delimiter at term. */
  function ReadTag(flags: Flags, t: string, text: string, beg: nat, term: nat, d: Delims): (r: Reading)
    requires ValidDelims(d) && beg <= term && Occurs(t, term, d.close)
    ensures r.Read? ==> term < r.token.next <= |t| && ValidDelims(r.token.delims) && r.token.text == text
    ensures r.Read? && !r.token.tag.SetDelims? ==> r.token.delims == d
    ensures !r.AtEnd?
  {
    var body := t[beg..term];
    var after := term + |d.close|;
    var c := t[beg];
    if c == '!' then Read(Token(text, Comment, after, d))
    else if c == '=' then
      match ReadDelims(body)
      case None => Bad(BadSeparators)
      case Some(nd) => Read(Token(text, SetDelims(nd), after, nd))
    else if c == '{' then ReadBraces(flags, t, text, body, after, d)
    else
      var sigil := c == '&' || c == '^' || c == '#' || c == '/' || c == '>' || (c == ':' && flags.colon);
      match if sigil then SigilName(flags, body) else TrimmedName(flags, body)
      case BadName(e) => Bad(e)
      case Name(name) =>
        var tag :=
          if c == '^' || c == '#' then Section(name, c == '^')
          else if c == '/' then Close(name)
          else if c == '>' then Partial(name)
          else Variable(name, c != '&');
        Read(Token(text, tag, after, d))
  }

  /** The tag whose opening delimiter is at `open`, with the text from p in front of it. */
  function ReadAt(flags: Flags, t: string, p: nat, open: nat, d: Delims): (r: Reading)
    requires ValidDelims(d) && p <= open && Occurs(t, open, d.open)
    ensures r.Read? ==> open < r.token.next <= |t| && ValidDelims(r.token.delims)
    ensures r.Read? && !r.token.tag.SetDelims? ==> r.token.delims == d
    ensures r.Read? ==> r.token.text == t[p..open]
    ensures !r.AtEnd?
  {
    var beg := open + |d.open|;
    var term := Find(t, beg, d.close);
    if term == |t| then Bad(UnexpectedEnd)
    else ReadTag(flags, t, t[p..open], beg, term, d)
  }

  /** The next tag at or after p. */
  function NextTag(flags: Flags, t: string, p: nat, d: Delims): (r: Reading)
    requires ValidDelims(d) && p <= |t|
    ensures r.Read? ==> p < r.token.next <= |t| && ValidDelims(r.token.delims)
    ensures r.Read? && !r.token.tag.SetDelims? ==> r.token.delims == d
  {
    var open := Find(t, p, d.open);
    if open == |t| then AtEnd(t[p..]) else ReadAt(flags, t, p, open, d)
  }
}
