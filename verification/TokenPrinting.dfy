/** Writing tokens down and reading them back. How a token is spelled is said here by itself;
    the theorem is that the lexer reads every text written that way as the tokens meant. */
module TokenPrinting {
  import opened CStrings
  import opened Options
  import opened RawText
  import opened Lexical

  // ---------- spelling ----------

  /** The keywords of the language, by kind. */
  predicate IsKeyword(kind: TokenType) {
    || kind <= SQL || kind == DATABASE || kind == HTML || kind == CSS || JQ <= kind <= REFERENCE_DATA
    || AUTH <= kind <= SUBJECT || kind == FIELDS || PARAMS <= kind
  }

  function Spelling(kind: TokenType): string
    requires IsKeyword(kind)
  {
    if kind < API then SiteWord(kind)
    else if kind < PIPELINE then DataWord(kind)
    else if kind < AUTH then StepWord(kind)
    else if kind < FIELDS then MailWord(kind)
    else LateWord(kind)
  }

  function SiteWord(kind: TokenType): string {
    if kind == WEBSITE then "website" else if kind == PAGES then "pages" else if kind == PAGE then "page"
    else if kind == STYLES then "styles" else if kind == ROUTE then "route" else if kind == LAYOUT then "layout"
    else if kind == NAME then "name" else if kind == AUTHOR then "author" else if kind == VERSION then "version"
    else if kind == ALT then "alt" else if kind == LAYOUTS then "layouts" else "port"
  }

  function DataWord(kind: TokenType): string {
    if kind == API then "api" else if kind == METHOD then "method" else if kind == EXECUTE_QUERY then "executeQuery"
    else if kind == QUERY then "query" else if kind == SQL then "sql" else if kind == DATABASE then "database"
    else if kind == HTML then "html" else if kind == CSS then "css" else if kind == JQ then "jq" else "lua"
  }

  function StepWord(kind: TokenType): string {
    if kind == PIPELINE then "pipeline" else if kind == DYNAMIC then "dynamic"
    else if kind == TRANSFORM then "transform" else if kind == SCRIPT then "script"
    else if kind == EXECUTE_TRANSFORM then "executeTransform" else if kind == EXECUTE_SCRIPT then "executeScript"
    else if kind == INCLUDE then "include" else if kind == ERROR then "error" else if kind == SUCCESS then "success"
    else "referenceData"
  }

  function MailWord(kind: TokenType): string {
    if kind == AUTH then "auth" else if kind == SALT then "salt" else if kind == GITHUB then "github"
    else if kind == CLIENT_ID then "clientId" else if kind == CLIENT_SECRET then "clientSecret"
    else if kind == EMAIL then "email" else if kind == SENDGRID then "sendgrid"
    else if kind == FROM_EMAIL then "fromEmail" else if kind == FROM_NAME then "fromName"
    else if kind == API_KEY then "apiKey" else if kind == TEMPLATE then "template"
    else "subject"
  }

  function LateWord(kind: TokenType): string {
    if kind == FIELDS then "fields" else if kind == PARAMS then "params" else if kind == MUSTACHE then "mustache"
    else if kind == REDIRECT then "redirect" else "partial"
  }

  /** A word that is no keyword. */
  ghost predicate NoKeyword(word: string) {
    forall kind :: IsKeyword(kind) ==> Spelling(kind) != word
  }

  lemma FirstWordSpell(word: string)
    ensures var k := FirstWords(word); k != UNKNOWN ==> IsKeyword(k) && Spelling(k) == word
  {
  }

  lemma PageWordSpell(word: string)
    ensures var k := PageWords(word); k != UNKNOWN ==> IsKeyword(k) && Spelling(k) == word
  {
  }

  lemma StepWordSpell(word: string)
    ensures var k := StepWords(word); k != UNKNOWN ==> IsKeyword(k) && Spelling(k) == word
  {
  }

  lemma ResultWordSpell(word: string)
    ensures var k := ResultWords(word); k != UNKNOWN ==> IsKeyword(k) && Spelling(k) == word
  {
  }

  lemma MailWordSpell(word: string)
    ensures var k := MailWords(word); k != UNKNOWN ==> IsKeyword(k) && Spelling(k) == word
  {
  }

  /** The keyword with this length, first and last character. */
  function ByShape(length: nat, first: char, last: char): TokenType {
    match length
    case 2 => JQ
    case 3 => if first == 'c' then CSS else if first == 'a' && last == 't' then ALT
      else if first == 'a' && last == 'i' then API else if first == 's' then SQL else LUA
    case 4 => if first == 'h' then HTML else if first == 'p' && last == 'e' then PAGE
      else if first == 'p' && last == 't' then PORT else if first == 'n' then NAME else if first == 'a' then AUTH
      else SALT
    case 5 => if first == 'p' then PAGES else if first == 'r' then ROUTE else if first == 'q' then QUERY
      else if first == 'e' && last == 'r' then ERROR else EMAIL
    case 6 => if first == 's' && last == 's' then STYLES else if first == 's' && last == 't' then SCRIPT
      else if first == 'l' then LAYOUT else if first == 'a' && last == 'r' then AUTHOR
      else if first == 'a' && last == 'y' then API_KEY else if first == 'm' then METHOD
      else if first == 'f' then FIELDS else if first == 'p' then PARAMS else GITHUB
    case 7 => if first == 'w' then WEBSITE else if first == 'v' then VERSION else if first == 'l' then LAYOUTS
      else if first == 'd' then DYNAMIC else if first == 'i' then INCLUDE
      else if first == 's' && last == 's' then SUCCESS else if first == 's' && last == 't' then SUBJECT else PARTIAL
    case 8 => if first == 'd' then DATABASE else if first == 'p' then PIPELINE else if first == 'm' then MUSTACHE
      else if first == 'r' then REDIRECT else if first == 'c' then CLIENT_ID else if first == 's' then SENDGRID
      else if first == 'f' then FROM_NAME else TEMPLATE
    case 9 => if first == 't' then TRANSFORM else FROM_EMAIL
    case 12 => if first == 'e' then EXECUTE_QUERY else CLIENT_SECRET
    case 13 => if first == 'e' then EXECUTE_SCRIPT else REFERENCE_DATA
    case _ => EXECUTE_TRANSFORM
  }

  lemma ShapeOf(kind: TokenType)
    requires IsKeyword(kind)
    ensures var word := Spelling(kind); word != "" && ByShape(|word|, word[0], word[|word| - 1]) == kind
  {
  }

  lemma SiteRead(kind: TokenType)
    ensures Keyword(SiteWord(kind)) != UNKNOWN
  {
    var word := SiteWord(kind);
    assert FirstWords(word) != UNKNOWN || PageWords(word) != UNKNOWN;
    hide FirstWords, PageWords, StepWords, ResultWords, MailWords;
  }

  lemma DataRead(kind: TokenType)
    ensures Keyword(DataWord(kind)) != UNKNOWN
  {
    var word := DataWord(kind);
    assert FirstWords(word) != UNKNOWN || PageWords(word) != UNKNOWN || StepWords(word) != UNKNOWN;
    hide FirstWords, PageWords, StepWords, ResultWords, MailWords;
  }

  lemma StepRead(kind: TokenType)
    ensures Keyword(StepWord(kind)) != UNKNOWN
  {
    var word := StepWord(kind);
    assert StepWords(word) != UNKNOWN || ResultWords(word) != UNKNOWN;
    hide FirstWords, PageWords, StepWords, ResultWords, MailWords;
  }

  lemma MailRead(kind: TokenType)
    ensures Keyword(MailWord(kind)) != UNKNOWN
  {
    var word := MailWord(kind);
    assert ResultWords(word) != UNKNOWN || MailWords(word) != UNKNOWN;
    hide FirstWords, PageWords, StepWords, ResultWords, MailWords;
  }

  lemma LateRead(kind: TokenType)
    ensures Keyword(LateWord(kind)) != UNKNOWN
  {
    var word := LateWord(kind);
    assert StepWords(word) != UNKNOWN || ResultWords(word) != UNKNOWN;
    hide FirstWords, PageWords, StepWords, ResultWords, MailWords;
  }

  lemma SomeKeyword(kind: TokenType)
    requires IsKeyword(kind)
    ensures Keyword(Spelling(kind)) != UNKNOWN
  {
    hide Keyword, SiteWord, DataWord, StepWord, MailWord, LateWord;
    SiteRead(kind);
    DataRead(kind);
    StepRead(kind);
    MailRead(kind);
    LateRead(kind);
  }

  /** A word has the kind whose spelling it is, and none if it is no spelling. */
  lemma KeywordExactly(word: string)
    ensures Keyword(word) == UNKNOWN <==> NoKeyword(word)
    ensures forall kind :: IsKeyword(kind) ==> (Keyword(word) == kind <==> word == Spelling(kind))
  {
    hide FirstWords, PageWords, StepWords, ResultWords, MailWords, Spelling;
    FirstWordSpell(word);
    PageWordSpell(word);
    StepWordSpell(word);
    ResultWordSpell(word);
    MailWordSpell(word);
    forall kind | IsKeyword(kind) && word == Spelling(kind) ensures Keyword(word) == kind {
      SomeKeyword(kind);
      ShapeOf(kind);
      ShapeOf(Keyword(word));
    }
  }

  // ---------- where things end ----------

  predicate Blank(c: char) {
    c == ' ' || c == '\t' || c == '\r' || c == '\n'
  }

  /** White space, and comments up to the ends of their lines. */
  ghost predicate Gap(g: string)
    decreases |g|
  {
    || g == ""
    || (Blank(g[0]) && Gap(g[1..]))
    || exists n: nat :: CommentLine(g, n) && Gap(g[n..])
  }

  /** The first n characters are a comment, and a newline follows. */
  predicate CommentLine(g: string, n: nat) {
    2 <= n < |g| && g[0] == '/' && g[1] == '/' && g[n] == '\n' && '\n' !in g[..n]
  }

  /** No blank and no comment starts the text. */
  predicate Solid(rest: string) {
    rest == "" || (!Blank(rest[0]) && rest[0] != '/')
  }

  lemma {:induction false} CommentRead(s: string, p: nat, n: nat, k: nat)
    requires p + n < |s| && k <= n && s[p + n] == '\n' && forall i :: p + k <= i < p + n ==> s[i] != '\n'
    ensures CommentEnd(s, p + k) == p + n
    decreases n - k
  {
    if k < n {
      CommentRead(s, p, n, k + 1);
    }
  }

  lemma SkipBlank(s: string, p: nat, gap: string, rest: string)
    requires p <= |s| && s[p..] == gap + rest && gap != "" && Blank(gap[0])
    ensures p < |s| && s[p + 1..] == gap[1..] + rest && Skip(s, p) == Skip(s, p + 1)
  {
    assert s[p] == s[p..][0] == gap[0];
    assert s[p + 1..] == s[p..][1..] == gap[1..] + rest;
  }

  lemma SkipComment(s: string, p: nat, gap: string, rest: string, n: nat)
    requires p <= |s| && s[p..] == gap + rest && CommentLine(gap, n)
    ensures p + n < |s| && s[p + n..] == gap[n..] + rest && Skip(s, p) == Skip(s, p + n)
  {
    assert s[p] == s[p..][0] == gap[0] && s[p + 1] == s[p..][1] == gap[1] && s[p + n] == s[p..][n] == gap[n];
    forall i | p <= i < p + n ensures s[i] != '\n' {
      assert s[i] == s[p..][i - p] == gap[..n][i - p];
    }
    CommentRead(s, p, n, 0);
    assert s[p + n..] == s[p..][n..] == gap[n..] + rest;
  }

  lemma SkipNothing(s: string, p: nat, rest: string)
    requires p <= |s| && s[p..] == rest && Solid(rest)
    ensures Skip(s, p) == p
  {
    if rest != "" {
      assert s[p] == rest[0];
    }
  }

  lemma {:induction false} GapRead(s: string, p: nat, gap: string, rest: string)
    requires p <= |s| && s[p..] == gap + rest && Gap(gap) && Solid(rest)
    ensures Skip(s, p) == p + |gap|
    decreases |gap|
  {
    hide Skip, Solid;
    if gap == "" {
      assert gap + rest == rest;
      SkipNothing(s, p, rest);
    } else if Blank(gap[0]) && Gap(gap[1..]) {
      SkipBlank(s, p, gap, rest);
      GapRead(s, p + 1, gap[1..], rest);
    } else {
      var n: nat :| CommentLine(gap, n) && Gap(gap[n..]);
      SkipComment(s, p, gap, rest, n);
      GapRead(s, p + n, gap[n..], rest);
    }
  }

  predicate WordChar(c: char) {
    'a' <= c <= 'z' || 'A' <= c <= 'Z' || c == '_' || c == '-' || '0' <= c <= '9'
  }

  predicate AllWord(w: string) {
    forall i :: 0 <= i < |w| ==> WordChar(w[i])
  }

  /** A word that starts with no digit. */
  predicate IsName(w: string) {
    w != "" && AllWord(w) && !('0' <= w[0] <= '9')
  }

  predicate NoWordFirst(rest: string) {
    rest == "" || !WordChar(rest[0])
  }

  predicate NumberEnds(rest: string) {
    rest == "" || (!IsDigit(rest[0]) && rest[0] != '.')
  }

  predicate NoDigitAhead(rest: string) {
    rest == "" || !IsDigit(rest[0])
  }

  lemma {:induction false} WordRead(s: string, p: nat, w: string, rest: string)
    requires p <= |s| && s[p..] == w + rest && AllWord(w) && NoWordFirst(rest)
    ensures WordEnd(s, p) == p + |w|
    decreases |w|
  {
    if w == "" {
      assert rest == s[p..];
    } else {
      assert s[p] == w[0] && WordChar(w[0]);
      assert s[p + 1..] == s[p..][1..] == w[1..] + rest;
      WordRead(s, p + 1, w[1..], rest);
    }
  }

  lemma {:induction false} DigitsRead(s: string, p: nat, d: string, rest: string)
    requires p <= |s| && s[p..] == d + rest && AllDigits(d) && NoDigitAhead(rest)
    ensures DigitsEnd(s, p) == p + |d|
    decreases |d|
  {
    if d == "" {
      assert rest == s[p..];
    } else {
      assert s[p] == d[0] && IsDigit(d[0]);
      assert s[p + 1..] == s[p..][1..] == d[1..] + rest;
      DigitsRead(s, p + 1, d[1..], rest);
    }
  }

  /** Text between quotes: a backslash takes the next character along. */
  predicate Quotable(t: string)
    decreases |t|
  {
    || t == ""
    || (t[0] == '\\' && |t| > 1 && Quotable(t[2..]))
    || (t[0] != '\\' && t[0] != '"' && Quotable(t[1..]))
  }

  /** The least length limit that lets it through: characters with a backslash are not counted,
      but there has to be room for one where they stand. */
  function Room(t: string): (n: nat)
    requires Quotable(t)
    ensures n > 0 || t == ""
    decreases |t|
  {
    if t == "" then 0
    else if t[0] != '\\' then 1 + Room(t[1..])
    else if Room(t[2..]) == 0 then 1
    else Room(t[2..])
  }

  lemma {:induction false} QuotedRead(s: string, p: nat, t: string, rest: string, len: nat, limit: int)
    requires p <= |s| && s[p..] == t + "\"" + rest && Quotable(t) && (limit < 0 || len + Room(t) <= limit)
    ensures QuotedEnd(s, p, len, limit) == (p + |t|, false)
    decreases |t|
  {
    if t == "" {
      assert s[p] == s[p..][0] == '"';
    } else {
      assert s[p] == s[p..][0] == t[0];
      if t[0] == '\\' {
        assert t[0] != '"';
        assert s[p + 2..] == s[p..][2..] == t[2..] + "\"" + rest;
        QuotedRead(s, p + 2, t[2..], rest, len, limit);
      } else {
        assert s[p + 1..] == s[p..][1..] == t[1..] + "\"" + rest;
        QuotedRead(s, p + 1, t[1..], rest, len + 1, limit);
      }
    }
  }

  /** No three quotes stand in the text or reach into those behind it. */
  predicate Tripleable(t: string) {
    |t| < 100000 && forall i :: 0 <= i < |t| ==> !Occurs(t + "\"\"\"", i, "\"\"\"")
  }

  lemma ThreeQuotes(s: string, p: nat, t: string, rest: string, i: nat)
    requires p <= |s| && s[p..] == t + "\"\"\"" + rest && i <= |t|
    ensures TripleAt(s, p + i) <==> Occurs(t + "\"\"\"", i, "\"\"\"")
  {
    var u := t + "\"\"\"";
    assert s[p..] == u + rest;
    assert s[p + i] == u[i] && s[p + i + 1] == u[i + 1] && s[p + i + 2] == u[i + 2] by {
      assert s[p + i] == s[p..][i] && s[p + i + 1] == s[p..][i + 1] && s[p + i + 2] == s[p..][i + 2];
    }
    assert u[i..i + 3] == [u[i], u[i + 1], u[i + 2]];
  }

  lemma {:induction false} TripleRead(s: string, p: nat, t: string, rest: string, k: nat)
    requires p <= |s| && s[p..] == t + "\"\"\"" + rest && Tripleable(t) && k <= |t|
    ensures TripleEnd(s, p + k, k) == (p + |t|, false)
    decreases |t| - k
  {
    ThreeQuotes(s, p, t, rest, k);
    if k < |t| {
      TripleRead(s, p, t, rest, k + 1);
    } else {
      assert (t + "\"\"\"")[k..k + 3] == "\"\"\"";
    }
  }

  // ---------- tokens in writing ----------

  /** A token as it is meant. The blocks and the text that `css` and `sql` take along are one
      token with them. */
  datatype Item =
    | Word(kind: TokenType)                  // a keyword
    | Name(word: string)
    | Quoted(text: string)
    | Triple(text: string)
    | Digits(text: string)
    | Fraction(whole: string, part: string)
    | Span(low: string, high: string)
    | Env(word: string)
    | Sign(kind: TokenType)                  // a brace, bracket, parenthesis or comma
    | Block(text: string)
    | CssBlock(gap: string, text: string)
    | SqlText(gap: string, text: string)

  predicate IsSign(kind: TokenType) {
    OPEN_BRACE <= kind <= CLOSE_PAREN || OPEN_BRACKET <= kind <= COMMA
  }

  function SignChar(kind: TokenType): char
    requires IsSign(kind)
  {
    if kind == OPEN_BRACE then '{' else if kind == CLOSE_BRACE then '}'
    else if kind == OPEN_PAREN then '(' else if kind == CLOSE_PAREN then ')'
    else if kind == OPEN_BRACKET then '[' else if kind == CLOSE_BRACKET then ']' else ','
  }

  /** A keyword behind which braces hold code. */
  predicate HasCode(kind: TokenType) {
    kind in {JQ, HTML, SQL, LUA, MUSTACHE}
  }

  predicate Writable(item: Item) {
    (item.Word? ==> IsKeyword(item.kind)) && (item.Sign? ==> IsSign(item.kind))
  }

  function Written(item: Item): string
    requires Writable(item)
  {
    match item
    case Word(kind) => Spelling(kind)
    case Name(word) => word
    case Quoted(text) => "\"" + text + "\""
    case Triple(text) => "\"\"\"" + text + "\"\"\""
    case Digits(text) => text
    case Fraction(whole, part) => whole + "." + part
    case Span(low, high) => low + ".." + high
    case Env(word) => "$" + word
    case Sign(kind) => [SignChar(kind)]
    case Block(text) => "{" + text + "}"
    case CssBlock(gap, text) => "css" + gap + "{" + text + "}"
    case SqlText(gap, text) => "sql" + gap + "\"" + text + "\""
  }

  /** The token it is, in front of the given gap. In brackets keywords are plain words; a code
      keyword takes the gap along. */
  function Token(item: Item, gap: string, inBrackets: bool): Lexeme
    requires Writable(item)
  {
    match item
    case Word(kind) =>
      if inBrackets then Lexeme(STRING, Spelling(kind))
      else Lexeme(kind, if HasCode(kind) || kind == CSS then Spelling(kind) + gap else Spelling(kind))
    case Name(word) => Lexeme(STRING, word)
    case Quoted(text) => Lexeme(STRING, text)
    case Triple(text) => Lexeme(STRING, text)
    case Digits(text) => Lexeme(NUMBER, text)
    case Fraction(whole, part) => Lexeme(NUMBER, whole + "." + part)
    case Span(low, high) => Lexeme(RANGE, low + ".." + high)
    case Env(word) => Lexeme(ENV_VAR, "$" + word)
    case Sign(kind) => Lexeme(kind, [SignChar(kind)])
    case Block(text) => Lexeme(RAW_BLOCK, Stripped(text, true))
    case CssBlock(_, text) => Lexeme(RAW_BLOCK, Stripped(text, true))
    case SqlText(_, text) => Lexeme(RAW_STRING, "\"" + text + "\"")
  }

  /** What the tokens so far mean for the next: whether a bracket is open, and which token a
      code block would belong to. */
  datatype Setting = Setting(inBrackets: bool, owner: TokenType)

  function Behind(item: Item, at: Setting): Setting
    requires Writable(item)
  {
    match item
    case Digits(_) => at
    case Fraction(_, _) => at
    case Span(_, _) => at
    case Block(_) => at
    case SqlText(_, _) => at
    case Sign(kind) =>
      Setting(if kind == OPEN_BRACKET then true else if kind == CLOSE_BRACKET then false else at.inBrackets, kind)
    case _ => Setting(at.inBrackets, Token(item, "", at.inBrackets).kind)
  }

  predicate StartsWith(rest: string, c: char) {
    rest != "" && rest[0] == c
  }

  /** The item can stand here: it is well formed, a gap sets it off where it would run on, and a
      brace opens a code block exactly behind a code keyword. */
  ghost predicate Fits(item: Item, gap: string, rest: string, at: Setting) {
    && Writable(item) && Gap(gap) && Solid(rest)
    && match item
       case Word(kind) =>
         && NoWordFirst(gap + rest)
         && (at.inBrackets || ((kind == SQL ==> !StartsWith(rest, '"')) && (kind == CSS ==> !StartsWith(rest, '{'))))
       case Name(word) => IsName(word) && (at.inBrackets || NoKeyword(word)) && NoWordFirst(gap + rest)
       case Quoted(text) =>
         Quotable(text) && Room(text) <= 10000 && (text == "" ==> !StartsWith(gap + rest, '"'))
       case Triple(text) => Tripleable(text)
       case Digits(text) => text != "" && AllDigits(text) && NumberEnds(gap + rest)
       case Fraction(whole, part) =>
         whole != "" && AllDigits(whole) && part != "" && AllDigits(part) && NoDigitAhead(gap + rest)
       case Span(low, high) =>
         low != "" && AllDigits(low) && high != "" && AllDigits(high) && NoDigitAhead(gap + rest)
       case Env(word) => AllWord(word) && NoWordFirst(gap + rest)
       case Sign(kind) => kind == OPEN_BRACE ==> !HasCode(at.owner)
       case Block(text) => Balanced(text) && HasCode(at.owner)
       case CssBlock(inner, text) => !at.inBrackets && Gap(inner) && Balanced(text)
       case SqlText(inner, text) => !at.inBrackets && Gap(inner) && Quotable(text)
  }

  // ---------- reading one item ----------

  lemma Cut(s: string, p: nat, a: string, b: string)
    requires p <= |s| && s[p..] == a + b
    ensures p + |a| <= |s| && s[p..p + |a|] == a && s[p + |a|..] == b
  {
    assert |s| - p == |a| + |b|;
    assert s[p..p + |a|] == s[p..][..|a|];
    assert s[p + |a|..] == s[p..][|a|..];
  }

  lemma Ahead(s: string, p: nat, a: string, b: string)
    requires p <= |s| && s[p..] == a + b && a != ""
    ensures p < |s| && s[p] == a[0] && s[p + 1..] == a[1..] + b
  {
    assert s[p] == s[p..][0];
    assert s[p + 1..] == s[p..][1..];
  }

  lemma CharAhead(s: string, p: nat, rest: string)
    requires p <= |s| && s[p..] == rest
    ensures CharAt(s, p) == if rest == "" then NUL else rest[0]
  {
    if rest != "" {
      assert s[p] == s[p..][0];
    }
  }

  /** Where the gap behind a text ends. */
  lemma SkipPast(s: string, p: nat, e: nat, a: string, gap: string, rest: string)
    requires p <= |s| && s[p..] == a + (gap + rest) && e == p + |a| && Gap(gap) && Solid(rest)
    ensures e + |gap| <= |s| && Skip(s, e) == e + |gap|
  {
    hide *;
    Cut(s, p, a, gap + rest);
    GapRead(s, e, gap, rest);
  }

  lemma GapBehind(s: string, p: nat, e: nat, f: nat, a: string, gap: string, rest: string)
    requires p <= |s| && s[p..] == a + (gap + rest) && e == p + |a| && f == e + |gap| && Gap(gap) && Solid(rest)
    ensures f <= |s| && s[f..] == rest && Skip(s, e) == f && s[p..f] == a + gap
  {
    hide *;
    SkipPast(s, p, e, a, gap, rest);
    assert a + (gap + rest) == (a + gap) + rest;
    Cut(s, p, a + gap, rest);
  }

  /** A token that is remembered. */
  lemma NextToken(s: string, at: Place, r: Read)
    requires at.pos <= |s| && Skip(s, at.pos) < |s|
    requires !IsDigit(s[Skip(s, at.pos)]) && (s[Skip(s, at.pos)] == '{' ==> !OpensRaw(at.previous))
    requires TokenAt(s, Skip(s, at.pos), at.inBrackets) == r && r.token.kind != SQL
    ensures Next(s, at) == (r.token, Place(r.next, Brackets(s[Skip(s, at.pos)], at.inBrackets), r.token.kind))
  {
    hide TokenAt, Skip, NumberAt, RawBlockAt, Brackets, RawStringAt;
  }

  lemma NextNumber(s: string, at: Place, r: Read)
    requires at.pos <= |s| && Skip(s, at.pos) < |s|
    requires IsDigit(s[Skip(s, at.pos)]) && NumberAt(s, Skip(s, at.pos)) == r
    ensures Next(s, at) == (r.token, at.(pos := r.next))
  {
    hide TokenAt, Skip, NumberAt, RawBlockAt, Brackets, RawStringAt;
  }

  lemma NextBlock(s: string, at: Place, r: Read)
    requires at.pos <= |s| && Skip(s, at.pos) < |s|
    requires s[Skip(s, at.pos)] == '{' && OpensRaw(at.previous) && RawBlockAt(s, Skip(s, at.pos)) == r
    ensures Next(s, at) == (r.token, at.(pos := r.next))
  {
    hide TokenAt, Skip, NumberAt, RawBlockAt, Brackets, RawStringAt;
  }

  /** `sql` with a quoted text behind it, and without. */
  lemma NextSql(s: string, at: Place, r: Read)
    requires at.pos <= |s| && Skip(s, at.pos) < |s|
    requires var p := Skip(s, at.pos); IsAlpha(s[p]) && TokenAt(s, p, at.inBrackets) == r && r.token.kind == SQL
    requires !SkipsAt(s, r.next)
    ensures CharAt(s, r.next) != '"' ==> Next(s, at) == (r.token, Place(r.next, at.inBrackets, SQL))
    ensures CharAt(s, r.next) == '"' ==>
      var raw := RawStringAt(s, r.next + 1); Next(s, at) == (raw.token, Place(raw.next, at.inBrackets, at.previous))
  {
    hide TokenAt, NumberAt, RawBlockAt, RawStringAt, SkipsAt;
  }

  /** The next token is the item, and what follows the gap comes after it. */
  ghost predicate Gives(s: string, at: Place, item: Item, gap: string)
    requires at.pos <= |s| && Writable(item)
  {
    var (t, after) := Next(s, at);
    var behind := Behind(item, Setting(at.inBrackets, at.previous));
    && t == Token(item, gap, at.inBrackets)
    && after.inBrackets == behind.inBrackets && after.previous == behind.owner
    && Skip(s, after.pos) == Skip(s, at.pos) + |Written(item)| + |gap|
  }

  /** The item stands behind the gap in front of the place. */
  ghost predicate Stands(s: string, at: Place, item: Item, gap: string, rest: string) {
    && at.pos <= |s| && Fits(item, gap, rest, Setting(at.inBrackets, at.previous))
    && s[Skip(s, at.pos)..] == Written(item) + (gap + rest)
  }

  // ---------- words ----------

  lemma SiteIsName(kind: TokenType)
    ensures IsName(SiteWord(kind))
  {
  }

  lemma DataIsName(kind: TokenType)
    ensures IsName(DataWord(kind))
  {
  }

  lemma StepIsName(kind: TokenType)
    requires kind < EXECUTE_TRANSFORM
    ensures IsName(StepWord(kind))
  {
  }

  lemma ResultIsName(kind: TokenType)
    requires EXECUTE_TRANSFORM <= kind
    ensures IsName(StepWord(kind))
  {
  }

  lemma MailIsName(kind: TokenType)
    ensures IsName(MailWord(kind))
  {
  }

  lemma LateIsName(kind: TokenType)
    ensures IsName(LateWord(kind))
  {
  }

  lemma SpellingIsName(kind: TokenType)
    requires IsKeyword(kind)
    ensures IsName(Spelling(kind))
  {
    hide IsName, SiteWord, DataWord, StepWord, MailWord, LateWord;
    SiteIsName(kind);
    DataIsName(kind);
    if kind < EXECUTE_TRANSFORM {
      StepIsName(kind);
    } else {
      ResultIsName(kind);
    }
    MailIsName(kind);
    LateIsName(kind);
  }

  lemma WordAhead(s: string, p: nat, w: string, behind: string)
    requires p <= |s| && s[p..] == w + behind && IsName(w) && NoWordFirst(behind)
    ensures p < |s| && IsAlpha(s[p]) && !IsDigit(s[p]) && s[p] != '{'
    ensures WordEnd(s, p + 1) == p + |w| <= |s| && s[p..p + |w|] == w
  {
    hide WordEnd;
    Ahead(s, p, w, behind);
    assert WordChar(w[0]);
    WordRead(s, p + 1, w[1..], behind);
    Cut(s, p, w, behind);
  }

  lemma AlphaToken(s: string, p: nat, inBrackets: bool)
    requires p < |s| && IsAlpha(s[p])
    ensures TokenAt(s, p, inBrackets) == WordAt(s, p, inBrackets)
  {
    hide WordAt, StringAt;
  }

  /** The word as a token. */
  lemma WordToken(s: string, p: nat, e: nat, f: nat, w: string, gap: string, rest: string, inBrackets: bool)
    requires p < |s| && s[p..] == w + (gap + rest) && e == p + |w| && f == e + |gap|
    requires WordEnd(s, p + 1) == e <= |s| && s[p..e] == w
    requires Gap(gap) && Solid(rest)
    ensures f <= |s| && s[f..] == rest && Skip(s, e) == f
    ensures var kind := Keyword(w);
      WordAt(s, p, inBrackets) ==
        if inBrackets then Read(Lexeme(STRING, w), e)
        else if OpensRaw(kind) || (kind == CSS && !StartsWith(rest, '{')) then Read(Lexeme(kind, w + gap), f)
        else if kind == CSS then RawBlockAt(s, f)
        else Read(Lexeme(if kind == UNKNOWN then STRING else kind, w), e)
  {
    hide WordEnd, Skip, Gap, Keyword, RawBlockAt, Solid;
    GapBehind(s, p, e, f, w, gap, rest);
    CharAhead(s, f, rest);
  }

  lemma GivesName(s: string, at: Place, item: Item, gap: string, rest: string)
    requires Stands(s, at, item, gap, rest) && item.Name?
    ensures Gives(s, at, item, gap)
  {
    hide Skip, WordEnd, Keyword, Gap, Next, TokenAt, WordAt, IsAlpha, NoKeyword, Solid;
    var p, w := Skip(s, at.pos), item.word;
    WordAhead(s, p, w, gap + rest);
    WordToken(s, p, p + |w|, p + |w| + |gap|, w, gap, rest, at.inBrackets);
    AlphaToken(s, p, at.inBrackets);
    KeywordExactly(w);
    NextToken(s, at, Read(Lexeme(STRING, w), p + |w|));
    assert !SkipsAt(s, p);
  }

  lemma GivesWord(s: string, at: Place, item: Item, gap: string, rest: string)
    requires Stands(s, at, item, gap, rest) && item.Word? && (item.kind != SQL || at.inBrackets)
    ensures Gives(s, at, item, gap)
  {
    hide Skip, WordEnd, Keyword, Gap, Next, TokenAt, WordAt, IsAlpha, Spelling, Solid, IsKeyword, IsName;
    var p, w := Skip(s, at.pos), Spelling(item.kind);
    SpellingIsName(item.kind);
    WordAhead(s, p, w, gap + rest);
    WordToken(s, p, p + |w|, p + |w| + |gap|, w, gap, rest, at.inBrackets);
    AlphaToken(s, p, at.inBrackets);
    KeywordExactly(w);
    var r := WordAt(s, p, at.inBrackets);
    KeywordKinds(item.kind);
    NextToken(s, at, r);
    AlphaNoBracket(s[p], at.inBrackets);
    SkipTwice(s, p + |w|);
  }

  lemma AlphaNoBracket(c: char, inBrackets: bool)
    requires IsAlpha(c)
    ensures Brackets(c, inBrackets) == inBrackets
  {
  }

  lemma KeywordKinds(kind: TokenType)
    requires IsKeyword(kind)
    ensures kind != UNKNOWN && kind != STRING
  {
  }

  lemma SkipTwice(s: string, p: nat)
    requires p <= |s|
    ensures Skip(s, Skip(s, p)) == Skip(s, p)
  {
  }

  lemma GivesBareSql(s: string, at: Place, item: Item, gap: string, rest: string)
    requires Stands(s, at, item, gap, rest) && item == Word(SQL) && !at.inBrackets
    ensures Gives(s, at, item, gap)
  {
    hide Skip, WordEnd, Keyword, Gap, Next, TokenAt, WordAt, IsAlpha, Spelling, Solid, IsName, SkipsAt;
    var p, w := Skip(s, at.pos), Spelling(SQL);
    SpellingIsName(SQL);
    WordAhead(s, p, w, gap + rest);
    var e := p + |w| + |gap|;
    WordToken(s, p, p + |w|, e, w, gap, rest, false);
    AlphaToken(s, p, false);
    KeywordExactly(w);
    CharAhead(s, e, rest);
    SkipTwice(s, p + |w|);
    NextSql(s, at, Read(Lexeme(SQL, w + gap), e));
  }

  lemma Enclosing(open: string, t: string, close: string, behind: string)
    requires open != ""
    ensures StartsWith(open + t + close + behind, open[0])
  {
  }

  lemma CssOpens(s: string, p: nat, q: nat, g: string, tail: string)
    requires p <= |s| && s[p..] == "css" + (g + tail) && Gap(g) && StartsWith(tail, '{') && q == p + 3 + |g|
    ensures p < |s| && IsAlpha(s[p]) && !IsDigit(s[p]) && s[p] != '{'
    ensures q <= |s| && s[q..] == tail && TokenAt(s, p, false) == RawBlockAt(s, q)
  {
    hide Skip, WordEnd, Keyword, Gap, TokenAt, WordAt, IsAlpha, RawBlockAt, Spelling, Solid, IsName;
    CssSpelled();
    BraceFirst(g, tail, '{');
    WordAhead(s, p, "css", g + tail);
    WordToken(s, p, p + 3, q, "css", g, tail, false);
    AlphaToken(s, p, false);
  }

  lemma SqlOpens(s: string, p: nat, q: nat, g: string, tail: string)
    requires p <= |s| && s[p..] == "sql" + (g + tail) && Gap(g) && StartsWith(tail, '"') && q == p + 3 + |g|
    ensures p < |s| && IsAlpha(s[p]) && !IsDigit(s[p]) && s[p] != '{'
    ensures q <= |s| && s[q..] == tail && TokenAt(s, p, false) == Read(Lexeme(SQL, "sql" + g), q)
    ensures !SkipsAt(s, q) && CharAt(s, q) == '"'
  {
    hide Skip, WordEnd, Keyword, Gap, TokenAt, WordAt, IsAlpha, RawBlockAt, Spelling, Solid, IsName, SkipsAt;
    CssSpelled();
    BraceFirst(g, tail, '"');
    WordAhead(s, p, "sql", g + tail);
    WordToken(s, p, p + 3, q, "sql", g, tail, false);
    AlphaToken(s, p, false);
    CharAhead(s, q, tail);
  }

  /** `css` and a block. */
  lemma CssNext(s: string, at: Place, q: nat, e: nat, g: string, t: string, gap: string, rest: string)
    requires at.pos <= |s| && s[Skip(s, at.pos)..] == "css" + (g + ("{" + t + "}" + (gap + rest)))
    requires !at.inBrackets && Gap(g) && Balanced(t) && Gap(gap) && Solid(rest)
    requires q == Skip(s, at.pos) + 3 + |g| && e == q + |t| + 2
    ensures e <= |s| && Next(s, at) == (Lexeme(RAW_BLOCK, Stripped(t, true)), Place(e, false, RAW_BLOCK))
    ensures Skip(s, e) == e + |gap|
  {
    var p, tail := Skip(s, at.pos), "{" + t + "}" + (gap + rest);
    hide *;
    Enclosing("{", t, "}", gap + rest);
    CssOpens(s, p, q, g, tail);
    BlockThere(s, q, e, t, gap, rest);
    NextToken(s, at, RawBlockAt(s, q));
    AlphaNoBracket(s[p], false);
  }

  lemma GivesCss(s: string, at: Place, item: Item, gap: string, rest: string)
    requires Stands(s, at, item, gap, rest) && item.CssBlock?
    ensures Gives(s, at, item, gap)
  {
    hide Skip, Gap, Next, Balanced, Stripped, Solid;
    var g, t := item.gap, item.text;
    var q := Skip(s, at.pos) + 3 + |g|;
    Regroup("css", g, "{", t, "}", gap + rest);
    CssNext(s, at, q, q + |t| + 2, g, t, gap, rest);
  }

  lemma Regroup(a: string, b: string, c: string, d: string, e: string, f: string)
    ensures a + b + c + d + e + f == a + (b + (c + d + e + f))
  {
  }

  lemma CssSpelled()
    ensures Keyword("css") == CSS && Keyword("sql") == SQL && IsName("css") && IsName("sql")
  {
    KeywordExactly("css");
    KeywordExactly("sql");
    assert Spelling(CSS) == "css" && Spelling(SQL) == "sql";
    SpellingIsName(CSS);
    SpellingIsName(SQL);
  }

  lemma BraceFirst(g: string, tail: string, c: char)
    requires Gap(g) && tail != "" && tail[0] == c && (c == '{' || c == '"')
    ensures NoWordFirst(g + tail) && Solid(tail)
  {
    if g == "" {
      assert g + tail == tail;
    }
  }

  /** A text in two delimiters, taken apart. */
  lemma Enclosed(s: string, p: nat, open: string, t: string, close: string, behind: string)
    requires p <= |s| && s[p..] == open + t + close + behind
    ensures p + |open| + |t| + |close| <= |s| && s[p + |open|..] == t + close + behind
    ensures s[p + |open|..p + |open| + |t|] == t && s[p..p + |open| + |t| + |close|] == open + t + close
    ensures open != "" ==> s[p] == open[0]
  {
    Cut(s, p, open + t + close, behind);
    assert open + t + close + behind == open + (t + close + behind);
    Cut(s, p, open, t + close + behind);
    assert t + close + behind == t + (close + behind);
    Cut(s, p + |open|, t, close + behind);
    if open != "" {
      Ahead(s, p, open, t + close + behind);
    }
  }

  /** A block of balanced text. */
  lemma BlockThere(s: string, p: nat, e: nat, t: string, gap: string, rest: string)
    requires p <= |s| && s[p..] == "{" + t + "}" + (gap + rest) && Balanced(t) && Gap(gap) && Solid(rest)
    requires e == p + |t| + 2
    ensures p < |s| && s[p] == '{' && e <= |s|
    ensures RawBlockAt(s, p) == Read(Lexeme(RAW_BLOCK, Stripped(t, true)), e)
    ensures Skip(s, e) == e + |gap|
  {
    hide *;
    Enclosed(s, p, "{", t, "}", gap + rest);
    RawBlockOfBalanced(s, p, t, gap + rest);
    SkipPast(s, p, e, "{" + t + "}", gap, rest);
  }

  lemma GivesBlock(s: string, at: Place, item: Item, gap: string, rest: string)
    requires Stands(s, at, item, gap, rest) && item.Block?
    ensures Gives(s, at, item, gap)
  {
    hide Skip, Gap, Next, RawBlockAt, Balanced, Stripped, Solid;
    var p := Skip(s, at.pos);
    BlockThere(s, p, p + |item.text| + 2, item.text, gap, rest);
    NextBlock(s, at, RawBlockAt(s, p));
  }

  // ---------- quoted texts ----------

  /** The end of a quoted text, from behind its first quote. */
  lemma QuoteThere(s: string, p: nat, e: nat, t: string, gap: string, rest: string, limit: int)
    requires p <= |s| && s[p..] == "\"" + t + "\"" + (gap + rest) && Gap(gap) && Solid(rest)
    requires Quotable(t) && (limit < 0 || Room(t) <= limit) && e == p + |t| + 2
    ensures p < |s| && e <= |s| && s[p] == '"' && s[p + 1..] == t + "\"" + (gap + rest)
    ensures QuotedEnd(s, p + 1, 0, limit) == (e - 1, false)
    ensures s[p + 1..e - 1] == t && s[p..e] == "\"" + t + "\""
    ensures Skip(s, e) == e + |gap|
  {
    hide *;
    Enclosed(s, p, "\"", t, "\"", gap + rest);
    QuotedRead(s, p + 1, t, gap + rest, 0, limit);
    SkipPast(s, p, e, "\"" + t + "\"", gap, rest);
  }

  lemma QuoteToken(s: string, p: nat, inBrackets: bool)
    requires p < |s| && s[p] == '"'
    ensures TokenAt(s, p, inBrackets) == StringAt(s, p + 1)
  {
    hide WordAt, StringAt;
  }

  lemma NotTriple(s: string, p: nat, t: string, behind: string)
    requires p <= |s| && s[p..] == t + "\"" + behind && Quotable(t) && (t == "" ==> !StartsWith(behind, '"'))
    ensures !(CharAt(s, p) == '"' && CharAt(s, p + 1) == '"')
  {
    if t != "" {
      assert s[p] == s[p..][0] == t[0];
    } else if behind == "" {
      assert |s[p..]| == 1;
    } else {
      assert s[p + 1] == s[p..][1] == behind[0];
    }
  }

  lemma GivesQuoted(s: string, at: Place, item: Item, gap: string, rest: string)
    requires Stands(s, at, item, gap, rest) && item.Quoted?
    ensures Gives(s, at, item, gap)
  {
    hide Skip, Gap, Next, TokenAt, QuotedEnd, TripleEnd, Quotable, Room, Solid;
    var p, t := Skip(s, at.pos), item.text;
    var e := p + |t| + 2;
    QuoteThere(s, p, e, t, gap, rest, 10000);
    NotTriple(s, p + 1, t, gap + rest);
    QuoteToken(s, p, at.inBrackets);
    assert StringAt(s, p + 1) == Read(Lexeme(STRING, t), e);
    hide StringAt;
    NextToken(s, at, Read(Lexeme(STRING, t), e));
  }

  lemma TripleToken(s: string, p: nat, t: string, behind: string)
    requires p <= |s| && s[p..] == "\"\"\"" + t + "\"\"\"" + behind && Tripleable(t)
    ensures p < |s| && s[p] == '"' && p + |t| + 6 <= |s|
    ensures StringAt(s, p + 1) == Read(Lexeme(STRING, t), p + |t| + 6)
  {
    hide TripleEnd, QuotedEnd, Tripleable;
    Enclosed(s, p, "\"\"\"", t, "\"\"\"", behind);
    assert s[p + 1] == s[p..][1] && s[p + 2] == s[p..][2];
    TripleRead(s, p + 3, t, behind, 0);
  }

  lemma GivesTriple(s: string, at: Place, item: Item, gap: string, rest: string)
    requires Stands(s, at, item, gap, rest) && item.Triple?
    ensures Gives(s, at, item, gap)
  {
    hide Skip, Gap, Next, TokenAt, StringAt, Tripleable, Solid;
    var p, t := Skip(s, at.pos), item.text;
    TripleToken(s, p, t, gap + rest);
    SkipPast(s, p, p + |t| + 6, "\"\"\"" + t + "\"\"\"", gap, rest);
    QuoteToken(s, p, at.inBrackets);
    NextToken(s, at, StringAt(s, p + 1));
  }

  lemma RawStringIs(s: string, q: nat, e: nat, u: string)
    requires q + 2 <= e <= |s| && QuotedEnd(s, q + 1, 0, -1) == (e - 1, false) && s[q..e] == u
    ensures RawStringAt(s, q + 1) == Read(Lexeme(RAW_STRING, u), e)
  {
    hide QuotedEnd;
  }

  lemma RawStringThere(s: string, q: nat, e: nat, t: string, gap: string, rest: string)
    requires q <= |s| && s[q..] == "\"" + t + "\"" + (gap + rest) && Gap(gap) && Solid(rest)
    requires Quotable(t) && e == q + |t| + 2
    ensures q < |s| && e <= |s| && RawStringAt(s, q + 1) == Read(Lexeme(RAW_STRING, "\"" + t + "\""), e)
    ensures Skip(s, e) == e + |gap|
  {
    hide *;
    QuoteThere(s, q, e, t, gap, rest, -1);
    RawStringIs(s, q, e, "\"" + t + "\"");
  }

  /** `sql` and a quoted text. */
  lemma SqlThere(s: string, p: nat, q: nat, e: nat, g: string, t: string, gap: string, rest: string)
    requires p <= |s| && s[p..] == "sql" + (g + ("\"" + t + "\"" + (gap + rest)))
    requires Gap(g) && Quotable(t) && Gap(gap) && Solid(rest)
    requires q == p + 3 + |g| && e == q + |t| + 2
    ensures p < |s| && q < |s| && e <= |s| && IsAlpha(s[p])
    ensures TokenAt(s, p, false) == Read(Lexeme(SQL, "sql" + g), q) && !SkipsAt(s, q) && CharAt(s, q) == '"'
    ensures RawStringAt(s, q + 1) == Read(Lexeme(RAW_STRING, "\"" + t + "\""), e) && Skip(s, e) == e + |gap|
  {
    hide *;
    var tail := "\"" + t + "\"" + (gap + rest);
    Enclosing("\"", t, "\"", gap + rest);
    SqlOpens(s, p, q, g, tail);
    RawStringThere(s, q, e, t, gap, rest);
  }

  lemma GivesSql(s: string, at: Place, item: Item, gap: string, rest: string)
    requires Stands(s, at, item, gap, rest) && item.SqlText?
    ensures Gives(s, at, item, gap)
  {
    hide Skip, Gap, Next, Quotable, Solid, TokenAt, RawStringAt, IsAlpha;
    var g, t := item.gap, item.text;
    var p := Skip(s, at.pos);
    var q := p + 3 + |g|;
    Regroup("sql", g, "\"", t, "\"", gap + rest);
    SqlThere(s, p, q, q + |t| + 2, g, t, gap, rest);
    NextSql(s, at, Read(Lexeme(SQL, "sql" + g), q));
  }

  // ---------- numbers ----------

  /** Digits, and where they end. */
  lemma DigitsThere(s: string, p: nat, e: nat, d: string, tail: string)
    requires p <= |s| && s[p..] == d + tail && d != "" && AllDigits(d) && NoDigitAhead(tail) && e == p + |d|
    ensures p < e <= |s| && IsDigit(s[p]) && DigitsEnd(s, p) == DigitsEnd(s, p + 1) == e
    ensures s[e..] == tail && s[p..e] == d
  {
    hide DigitsEnd, AllDigits;
    DigitsRead(s, p, d, tail);
    Ahead(s, p, d, tail);
    FirstDigit(d);
    DigitsRead(s, p + 1, d[1..], tail);
    Cut(s, p, d, tail);
  }

  lemma FirstDigit(d: string)
    requires d != "" && AllDigits(d)
    ensures IsDigit(d[0]) && AllDigits(d[1..])
  {
  }

  lemma NumberRead(s: string, p: nat, e: nat, d: string, tail: string)
    requires p <= |s| && s[p..] == d + tail && d != "" && AllDigits(d) && NumberEnds(tail) && e == p + |d|
    ensures p < e <= |s| && IsDigit(s[p]) && NumberAt(s, p) == Read(Lexeme(NUMBER, d), e)
  {
    hide DigitsEnd, AllDigits, RangeAt, FractionAt;
    DigitsThere(s, p, e, d, tail);
    CharAhead(s, e, tail);
  }

  lemma FractionRead(s: string, p: nat, q: nat, e: nat, a: string, b: string, tail: string)
    requires p <= |s| && s[p..] == a + ("." + (b + tail)) && a != "" && AllDigits(a) && b != "" && AllDigits(b)
    requires NoDigitAhead(tail) && q == p + |a| && e == q + 1 + |b|
    ensures p < e <= |s| && IsDigit(s[p]) && NumberAt(s, p) == Read(Lexeme(NUMBER, s[p..e]), e)
  {
    hide DigitsEnd, AllDigits, RangeAt;
    DigitsThere(s, p, q, a, "." + (b + tail));
    Ahead(s, q, ".", b + tail);
    assert "."[1..] + (b + tail) == b + tail;
    DigitsThere(s, q + 1, e, b, tail);
  }

  lemma SpanRead(s: string, p: nat, q: nat, e: nat, a: string, b: string, tail: string)
    requires p <= |s| && s[p..] == a + (".." + (b + tail)) && a != "" && AllDigits(a) && b != "" && AllDigits(b)
    requires NoDigitAhead(tail) && q == p + |a| && e == q + 2 + |b|
    ensures p < e <= |s| && IsDigit(s[p]) && NumberAt(s, p) == Read(Lexeme(RANGE, s[p..e]), e)
  {
    hide DigitsEnd, AllDigits, FractionAt;
    DigitsThere(s, p, q, a, ".." + (b + tail));
    Cut(s, q, "..", b + tail);
    assert s[q] == s[q..][0] && s[q + 1] == s[q..][1];
    DigitsThere(s, q + 2, e, b, tail);
  }

  lemma GivesNumber(s: string, at: Place, item: Item, gap: string, rest: string, e: nat, r: Read)
    requires Stands(s, at, item, gap, rest) && (item.Digits? || item.Fraction? || item.Span?)
    requires e == Skip(s, at.pos) + |Written(item)| && Skip(s, at.pos) < e <= |s| && IsDigit(s[Skip(s, at.pos)])
    requires NumberAt(s, Skip(s, at.pos)) == r && r.next == e
    requires r.token == Lexeme(if item.Span? then RANGE else NUMBER, Written(item))
    ensures Gives(s, at, item, gap)
  {
    hide Skip, Gap, Next, NumberAt, Solid;
    SkipPast(s, Skip(s, at.pos), e, Written(item), gap, rest);
    NextNumber(s, at, r);
  }

  lemma GivesDigits(s: string, at: Place, item: Item, gap: string, rest: string)
    requires Stands(s, at, item, gap, rest) && item.Digits?
    ensures Gives(s, at, item, gap)
  {
    hide Skip, Gap, Next, NumberAt, Solid, Gives;
    var p, d := Skip(s, at.pos), item.text;
    NumberRead(s, p, p + |d|, d, gap + rest);
    GivesNumber(s, at, item, gap, rest, p + |d|, NumberAt(s, p));
  }

  lemma Dotted(a: string, dots: string, b: string, tail: string)
    ensures a + dots + b + tail == a + (dots + (b + tail))
  {
  }

  lemma GivesFraction(s: string, at: Place, item: Item, gap: string, rest: string)
    requires Stands(s, at, item, gap, rest) && item.Fraction?
    ensures Gives(s, at, item, gap)
  {
    hide Skip, Gap, Next, NumberAt, Solid, Gives, AllDigits;
    var p, a, b := Skip(s, at.pos), item.whole, item.part;
    var e := p + |a| + 1 + |b|;
    Dotted(a, ".", b, gap + rest);
    FractionRead(s, p, p + |a|, e, a, b, gap + rest);
    Cut(s, p, a + "." + b, gap + rest);
    GivesNumber(s, at, item, gap, rest, e, NumberAt(s, p));
  }

  lemma GivesSpan(s: string, at: Place, item: Item, gap: string, rest: string)
    requires Stands(s, at, item, gap, rest) && item.Span?
    ensures Gives(s, at, item, gap)
  {
    hide Skip, Gap, Next, NumberAt, Solid, Gives, AllDigits;
    var p, a, b := Skip(s, at.pos), item.low, item.high;
    var e := p + |a| + 2 + |b|;
    Dotted(a, "..", b, gap + rest);
    SpanRead(s, p, p + |a|, e, a, b, gap + rest);
    Cut(s, p, a + ".." + b, gap + rest);
    GivesNumber(s, at, item, gap, rest, e, NumberAt(s, p));
  }

  // ---------- signs and environment variables ----------

  lemma EnvThere(s: string, p: nat, e: nat, w: string, behind: string)
    requires p <= |s| && s[p..] == "$" + w + behind && AllWord(w) && NoWordFirst(behind) && e == p + 1 + |w|
    ensures p < e <= |s| && s[p] == '$' && WordEnd(s, p + 1) == e && s[p..e] == "$" + w
  {
    hide WordEnd, AllWord, NoWordFirst;
    Cut(s, p, "$" + w, behind);
    assert "$" + w + behind == "$" + (w + behind);
    Ahead(s, p, "$", w + behind);
    assert "$"[1..] + (w + behind) == w + behind;
    WordRead(s, p + 1, w, behind);
  }

  lemma EnvToken(s: string, p: nat, inBrackets: bool)
    requires p < |s| && s[p] == '$'
    ensures TokenAt(s, p, inBrackets) == Read(Lexeme(ENV_VAR, s[p..WordEnd(s, p + 1)]), WordEnd(s, p + 1))
  {
    hide WordAt, StringAt;
  }

  lemma GivesEnv(s: string, at: Place, item: Item, gap: string, rest: string)
    requires Stands(s, at, item, gap, rest) && item.Env?
    ensures Gives(s, at, item, gap)
  {
    hide Skip, Gap, Next, TokenAt, Solid, WordEnd, AllWord;
    var p, w := Skip(s, at.pos), item.word;
    var e := p + 1 + |w|;
    EnvThere(s, p, e, w, gap + rest);
    EnvToken(s, p, at.inBrackets);
    SkipPast(s, p, e, "$" + w, gap, rest);
    NextToken(s, at, Read(Lexeme(ENV_VAR, "$" + w), e));
  }

  lemma SignToken(s: string, p: nat, kind: TokenType, inBrackets: bool)
    requires p < |s| && IsSign(kind) && s[p] == SignChar(kind)
    ensures TokenAt(s, p, inBrackets) == Read(Lexeme(kind, [SignChar(kind)]), p + 1) && !IsDigit(s[p])
    ensures s[p] == '{' <==> kind == OPEN_BRACE
    ensures s[p] == '[' <==> kind == OPEN_BRACKET
    ensures s[p] == ']' <==> kind == CLOSE_BRACKET
  {
    hide WordAt, StringAt;
  }

  lemma GivesSign(s: string, at: Place, item: Item, gap: string, rest: string)
    requires Stands(s, at, item, gap, rest) && item.Sign?
    ensures Gives(s, at, item, gap)
  {
    hide Skip, Gap, Next, TokenAt, Solid, SignChar;
    var p, c := Skip(s, at.pos), SignChar(item.kind);
    Ahead(s, p, [c], gap + rest);
    SignToken(s, p, item.kind, at.inBrackets);
    SkipPast(s, p, p + 1, [c], gap, rest);
    NextToken(s, at, Read(Lexeme(item.kind, [c]), p + 1));
  }

  /** Any item is read where it can stand. */
  lemma GivesItem(s: string, at: Place, item: Item, gap: string, rest: string)
    requires Stands(s, at, item, gap, rest)
    ensures at.pos <= |s| && Writable(item) && Gives(s, at, item, gap)
  {
    assert at.pos <= |s| && Writable(item);
    hide *;
    match item
    case Word(kind) =>
      if kind == SQL && !at.inBrackets {
        GivesBareSql(s, at, item, gap, rest);
      } else {
        GivesWord(s, at, item, gap, rest);
      }
    case Name(_) => GivesName(s, at, item, gap, rest);
    case Quoted(_) => GivesQuoted(s, at, item, gap, rest);
    case Triple(_) => GivesTriple(s, at, item, gap, rest);
    case Digits(_) => GivesDigits(s, at, item, gap, rest);
    case Fraction(_, _) => GivesFraction(s, at, item, gap, rest);
    case Span(_, _) => GivesSpan(s, at, item, gap, rest);
    case Env(_) => GivesEnv(s, at, item, gap, rest);
    case Sign(_) => GivesSign(s, at, item, gap, rest);
    case Block(_) => GivesBlock(s, at, item, gap, rest);
    case CssBlock(_, _) => GivesCss(s, at, item, gap, rest);
    case SqlText(_, _) => GivesSql(s, at, item, gap, rest);
  }

  // ---------- whole texts ----------

  /** An item and the gap behind it. */
  datatype Piece = Piece(item: Item, gap: string)

  predicate AllWritable(ps: seq<Piece>) {
    forall i :: 0 <= i < |ps| ==> Writable(ps[i].item)
  }

  function Print(ps: seq<Piece>): string
    requires AllWritable(ps)
  {
    if ps == [] then "" else Written(ps[0].item) + (ps[0].gap + Print(ps[1..]))
  }

  /** Each piece can stand where it does. */
  ghost predicate AllFit(ps: seq<Piece>, at: Setting)
    requires AllWritable(ps)
    decreases |ps|
  {
    ps == [] || (Fits(ps[0].item, ps[0].gap, Print(ps[1..]), at) && AllFit(ps[1..], Behind(ps[0].item, at)))
  }

  function Meant(ps: seq<Piece>, at: Setting): (ts: seq<Lexeme>)
    requires AllWritable(ps)
    ensures |ts| == |ps|
    decreases |ps|
  {
    if ps == [] then [] else [Token(ps[0].item, ps[0].gap, at.inBrackets)] + Meant(ps[1..], Behind(ps[0].item, at))
  }

  lemma {:induction false} TokensFirst(s: string, from: nat, n: nat)
    ensures Tokens(s, from, n + 1) == [Nth(s, from)] + Tokens(s, from + 1, n)
  {
    hide Nth;
    if n > 0 {
      TokensFirst(s, from, n - 1);
      assert from + 1 + (n - 1) == from + n;
    }
  }

  lemma PlaceStep(s: string, k: nat, at: Place)
    requires at == PlaceAfter(s, k)
    ensures PlaceAfter(s, k + 1) == Next(s, at).1 && Nth(s, k) == Next(s, at).0
  {
  }

  /** The first piece stands at the place. */
  lemma FirstStands(s: string, at: Place, ps: seq<Piece>)
    requires AllWritable(ps) && ps != [] && AllFit(ps, Setting(at.inBrackets, at.previous))
    requires at.pos <= |s| && s[Skip(s, at.pos)..] == Print(ps)
    ensures Stands(s, at, ps[0].item, ps[0].gap, Print(ps[1..]))
    ensures AllFit(ps[1..], Behind(ps[0].item, Setting(at.inBrackets, at.previous)))
  {
    hide Fits, Skip, Written, Behind;
  }

  lemma FirstRead(s: string, at: Place, item: Item, gap: string, rest: string)
    requires Stands(s, at, item, gap, rest)
    ensures at.pos <= |s| && Writable(item)
    ensures var (t, after) := Next(s, at);
      && t == Token(item, gap, at.inBrackets)
      && Setting(after.inBrackets, after.previous) == Behind(item, Setting(at.inBrackets, at.previous))
      && s[Skip(s, after.pos)..] == rest
  {
    hide Fits, Skip, Written, Behind, Next, Token;
    GivesItem(s, at, item, gap, rest);
    var p, text := Skip(s, at.pos), Written(item);
    assert text + (gap + rest) == (text + gap) + rest;
    Cut(s, p, text + gap, rest);
  }

  lemma {:induction false} ReadsOn(s: string, k: nat, end: nat, at: Place, ps: seq<Piece>)
    requires end == k + |ps|
    requires at == PlaceAfter(s, k) && AllWritable(ps) && AllFit(ps, Setting(at.inBrackets, at.previous))
    requires s[Skip(s, at.pos)..] == Print(ps)
    ensures Tokens(s, k, |ps|) == Meant(ps, Setting(at.inBrackets, at.previous))
    ensures Nth(s, end) == Lexeme(EOF, "")
    decreases |ps|
  {
    hide Skip, Fits, Written, Token, Behind, Stands, AllFit, PlaceAfter, Nth;
    PlaceStep(s, k, at);
    if ps == [] {
      EndRead(s, at);
    } else {
      FirstStands(s, at, ps);
      FirstRead(s, at, ps[0].item, ps[0].gap, Print(ps[1..]));
      hide Next;
      ReadsOn(s, k + 1, end, Next(s, at).1, ps[1..]);
      TokensFirst(s, k, |ps| - 1);
    }
  }

  lemma EndRead(s: string, at: Place)
    requires at.pos <= |s| && s[Skip(s, at.pos)..] == ""
    ensures Next(s, at).0 == Lexeme(EOF, "")
  {
    assert |s[Skip(s, at.pos)..]| == 0;
  }

  /** Every text of items is read as the tokens meant, one after the other, and then the end:
      all keywords under their spellings, other words, strings, numbers, ranges, environment
      variables, signs and blocks of code, with any white space and comments between them, and
      none where nothing runs together. */
  lemma PrintedIsRead(lead: string, ps: seq<Piece>)
    requires Gap(lead) && AllWritable(ps) && AllFit(ps, Setting(false, UNKNOWN))
    ensures var s := lead + Print(ps);
      Tokens(s, 0, |ps|) == Meant(ps, Setting(false, UNKNOWN)) && Nth(s, |ps|) == Lexeme(EOF, "")
  {
    var s := lead + Print(ps);
    PrintSolid(ps, Setting(false, UNKNOWN));
    Begins(s);
    hide *;
    LeadRead(lead, Print(ps));
    ReadsOn(s, 0, |ps|, BEGINNING, ps);
  }

  lemma LeadRead(lead: string, text: string)
    requires Gap(lead) && Solid(text)
    ensures (lead + text)[Skip(lead + text, 0)..] == text
  {
    hide *;
    assert (lead + text)[0..] == lead + text;
    GapRead(lead + text, 0, lead, text);
  }

  lemma Begins(s: string)
    ensures PlaceAfter(s, 0) == BEGINNING && BEGINNING == Place(0, false, UNKNOWN)
  {
  }

  lemma PrintSolid(ps: seq<Piece>, at: Setting)
    requires AllWritable(ps) && AllFit(ps, at)
    ensures Solid(Print(ps))
  {
    if ps != [] {
      WrittenSolid(ps[0].item, ps[0].gap, Print(ps[1..]), at);
    }
  }

  lemma WrittenSolid(item: Item, gap: string, rest: string, at: Setting)
    requires Fits(item, gap, rest, at)
    ensures Solid(Written(item) + (gap + rest))
  {
    hide Gap, Spelling, Quotable, Tripleable, Balanced;
    if item.Word? {
      SpellingIsName(item.kind);
    }
  }
}
