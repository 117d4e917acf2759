/** Websites as trees of entries, and their texts. Which entries a block may have is said here
    without the parser's stack. */
module WebsiteTrees {
  import opened CStrings
  import opened Options
  import opened RawText
  import opened Lexical
  import opened TokenPrinting
  import opened TextPieces

  // ---------- trees ----------

  /** A text, or an environment variable. */
  datatype Value = Literal(text: string) | Variable(word: string)

  /** Code in quotes, or in braces. */
  datatype Code = InQuotes(text: string) | InBraces(text: string)

  /** A property of a field: one with a text, one with bounds, or a word by itself. */
  datatype Property = Asks(name: string, text: string) | Bounds(name: string, low: string, high: string)
                    | Flag(name: string)

  datatype Entry =
    | Says(key: TokenType, text: string)                    // name "home"
    | Takes(key: TokenType, value: Value)                   // salt $SALT
    | Port(number: string)                                  // port 8080
    | Holds(key: TokenType, code: Code)                     // html { <p>hello</p> }
    | Runs(query: Option<string>)                           // executeQuery "all", executeQuery dynamic
    | Nests(key: TokenType, entries: seq<Entry>)            // page { .. }
    | Letter(name: string, entries: seq<Entry>)             // template "welcome" { .. }
    | Field(name: string, properties: seq<Property>)        // "age" { "type" "number" "range" 1..99 }
    | Asked(params: seq<string>)                            // params [id, page]
    | Style(selector: string, declarations: seq<(string, string)>)
    | Css(text: string)                                     // css { p { color: red } }

  /** Where entries stand. */
  datatype Where =
    | AtTop | OfDeclarations | InPage | InLayout | InApi | InQuery | InTransform | InScript | InPartial
    | InResponse | InSteps | InFields | InStyles | InAuth | InGithub | InEmail | InSendGrid | InLetter

  /** The block that a keyword opens. */
  function Opens(p: Where, key: TokenType): Option<Where> {
    match p
    case AtTop => if key == AUTH then Some(InAuth) else None
    case OfDeclarations =>
      if key == PAGE then Some(InPage) else if key == LAYOUT then Some(InLayout)
      else if key == STYLES then Some(InStyles) else if key == API then Some(InApi)
      else if key == QUERY then Some(InQuery) else if key == TRANSFORM then Some(InTransform)
      else if key == SCRIPT then Some(InScript) else if key == PARTIAL then Some(InPartial)
      else if key == AUTH then Some(InAuth) else if key == EMAIL then Some(InEmail) else None
    case InPage =>
      if key == FIELDS then Some(InFields) else if key in {ERROR, SUCCESS} then Some(InResponse)
      else if key in {PIPELINE, REFERENCE_DATA} then Some(InSteps) else None
    case InApi => if key == FIELDS then Some(InFields) else if key == PIPELINE then Some(InSteps) else None
    case InAuth => if key == GITHUB then Some(InGithub) else None
    case InEmail => if key == SENDGRID then Some(InSendGrid) else None
    case _ => None
  }

  /** The keywords with a text. */
  function SaysIn(p: Where): set<TokenType> {
    match p
    case AtTop => {NAME, AUTHOR, VERSION, DATABASE, INCLUDE}
    case InPage => {ROUTE, NAME, METHOD, LAYOUT, REDIRECT}
    case InApi => {ROUTE, METHOD}
    case InLayout => {NAME}
    case InQuery => {NAME}
    case InTransform => {NAME}
    case InScript => {NAME}
    case InPartial => {NAME}
    case InResponse => {REDIRECT}
    case InSteps => {EXECUTE_TRANSFORM, EXECUTE_SCRIPT}
    case InLetter => {SUBJECT}
    case _ => {}
  }

  /** The keywords with a text or an environment variable. */
  function TakesIn(p: Where): set<TokenType> {
    match p
    case AtTop => {DATABASE}
    case InAuth => {SALT}
    case InGithub => {CLIENT_ID, CLIENT_SECRET}
    case InSendGrid => {API_KEY, FROM_EMAIL, FROM_NAME}
    case _ => {}
  }

  /** The keywords with code. */
  function HoldsIn(p: Where): set<TokenType> {
    match p
    case InPage => {HTML, MUSTACHE}
    case InLayout => {HTML, MUSTACHE}
    case InResponse => {HTML, MUSTACHE}
    case InPartial => {MUSTACHE}
    case InLetter => {MUSTACHE}
    case InTransform => {JQ}
    case InScript => {LUA}
    case InSteps => {JQ, LUA, SQL}
    case InQuery => {SQL}
    case _ => {}
  }

  predicate ValidValue(v: Value) {
    match v
    case Literal(text) => QuoteText(text)
    case Variable(word) => AllWord(word)
  }

  predicate ValidProperty(p: Property) {
    match p
    case Asks(name, text) => name in {"type", "required", "format"} && QuoteText(name) && QuoteText(text)
    case Bounds(name, low, high) =>
      name in {"range", "length"} && QuoteText(name) && low != "" && AllDigits(low) && high != "" && AllDigits(high)
    case Flag(name) => QuoteText(name) && name !in {"type", "required", "format", "range", "length"}
  }

  /** The texts of an entry can be written, and it may stand where it does. `sql` has no code
      in quotes: the lexer takes such a text along with the keyword. */
  predicate Allowed(e: Entry, p: Where)
    decreases e
  {
    match e
    case Says(key, text) => key in SaysIn(p) && QuoteText(text)
    case Takes(key, value) => key in TakesIn(p) && ValidValue(value)
    case Port(number) => p == AtTop && number != "" && AllDigits(number) && 1 <= CStrings.Number(number) <= 65535
    case Holds(key, code) =>
      key in HoldsIn(p) && if code.InBraces? then Balanced(code.text) else QuoteText(code.text) && key != SQL
    case Runs(query) => p == InSteps && (query.Some? ==> QuoteText(query.value))
    case Nests(key, entries) => Opens(p, key).Some? && AllAllowed(entries, Opens(p, key).value)
      && Complete(entries, Opens(p, key).value)
    case Letter(name, entries) => p == InEmail && QuoteText(name) && AllAllowed(entries, InLetter)
    case Field(name, properties) =>
      p == InFields && QuoteText(name) && forall i :: 0 <= i < |properties| ==> ValidProperty(properties[i])
    case Asked(params) => p == InQuery && AllNames(params)
    case Style(selector, declarations) =>
      p == InStyles && QuoteText(selector)
      && forall i :: 0 <= i < |declarations| ==> QuoteText(declarations[i].0) && QuoteText(declarations[i].1)
    case Css(text) => p == InStyles && Balanced(text)
  }

  predicate AllAllowed(es: seq<Entry>, p: Where)
    decreases es
  {
    es == [] || (Allowed(es[0], p) && AllAllowed(es[1..], p))
  }

  predicate AnySays(es: seq<Entry>) {
    exists i :: 0 <= i < |es| && es[i].Says?
  }

  predicate AnyHolds(es: seq<Entry>) {
    exists i :: 0 <= i < |es| && es[i].Holds?
  }

  /** A partial has a name and a template; in a response no template follows a redirect. */
  predicate Complete(es: seq<Entry>, p: Where) {
    && (p == InPartial ==> AnySays(es) && AnyHolds(es))
    && (p == InResponse ==> forall i, j :: 0 <= i < j < |es| && es[i].Says? ==> !es[j].Holds?)
  }

  // ---------- their texts ----------

  function CodePiece(code: Code): Piece {
    if code.InBraces? then CodeBlock(code.text) else Quote(code.text)
  }

  function ValuePiece(v: Value): Piece {
    if v.Literal? then Quote(v.text) else Piece(Env(v.word), " ")
  }

  function PropertyPieces(p: Property): (ps: seq<Piece>)
    ensures AllWritable(ps)
  {
    match p
    case Asks(name, text) => [Quote(name)] + [Quote(text)]
    case Bounds(name, low, high) => [Quote(name)] + [Piece(Span(low, high), " ")]
    case Flag(name) => [Quote(name)]
  }

  function AllProperties(ps: seq<Property>): (r: seq<Piece>)
    ensures AllWritable(r)
  {
    if ps == [] then [] else PropertyPieces(ps[0]) + AllProperties(ps[1..])
  }

  function AllPairs(ds: seq<(string, string)>): (r: seq<Piece>)
    ensures AllWritable(r)
  {
    if ds == [] then [] else [Quote(ds[0].0)] + ([Quote(ds[0].1)] + AllPairs(ds[1..]))
  }

  /** The keywords of an entry are keywords. */
  predicate Keyed(e: Entry)
    decreases e
  {
    match e
    case Says(key, _) => IsKeyword(key)
    case Takes(key, _) => IsKeyword(key)
    case Holds(key, _) => IsKeyword(key)
    case Nests(key, entries) => IsKeyword(key) && AllKeyed(entries)
    case Letter(_, entries) => AllKeyed(entries)
    case _ => true
  }

  predicate AllKeyed(es: seq<Entry>)
    decreases es
  {
    es == [] || (Keyed(es[0]) && AllKeyed(es[1..]))
  }

  function Pieces(e: Entry): (ps: seq<Piece>)
    requires Keyed(e)
    ensures AllWritable(ps)
    decreases e
  {
    match e
    case Says(key, text) => [Key(key)] + [Quote(text)]
    case Takes(key, value) => [Key(key)] + [ValuePiece(value)]
    case Port(number) => [Key(PORT)] + [Piece(Digits(number), " ")]
    case Holds(key, code) => [Key(key), CodePiece(code)]
    case Runs(query) => [Key(EXECUTE_QUERY)] + [if query.Some? then Quote(query.value) else Key(DYNAMIC)]
    case Nests(key, entries) => [Key(key), OPEN] + (AllPieces(entries) + [CLOSE])
    case Letter(name, entries) => [Key(TEMPLATE)] + ([Quote(name), OPEN] + (AllPieces(entries) + [CLOSE]))
    case Field(name, properties) => [Quote(name), OPEN] + (AllProperties(properties) + [CLOSE])
    case Asked(params) => ParamPieces(params)
    case Style(selector, declarations) => [Quote(selector), OPEN] + (AllPairs(declarations) + [CLOSE])
    case Css(text) => [Piece(CssBlock(" ", text), "\n")]
  }

  function AllPieces(es: seq<Entry>): (ps: seq<Piece>)
    requires AllKeyed(es)
    ensures AllWritable(ps)
    decreases es
  {
    if es == [] then [] else Pieces(es[0]) + AllPieces(es[1..])
  }

  lemma {:induction false} AllowedKeyed(e: Entry, p: Where)
    requires Allowed(e, p)
    ensures Keyed(e)
    decreases e
  {
    match e
    case Nests(key, entries) => AllAllowedKeyed(entries, Opens(p, key).value);
    case Letter(_, entries) => AllAllowedKeyed(entries, InLetter);
    case _ =>
  }

  lemma {:induction false} AllAllowedKeyed(es: seq<Entry>, p: Where)
    requires AllAllowed(es, p)
    ensures AllKeyed(es)
    decreases es
  {
    if es != [] {
      AllowedKeyed(es[0], p);
      AllAllowedKeyed(es[1..], p);
    }
  }

  // ---------- every tree can be written ----------

  /** A keyword as a token. */
  function KeyToken(kind: TokenType): Lexeme
    requires IsKeyword(kind)
  {
    Token(Word(kind), " ", false)
  }

  /** Two sound lists, one after the other. */
  lemma Both(a: seq<Piece>, b: seq<Piece>)
    requires Sound(a) && Sound(b)
    ensures Sound(a + b) && Lexemes(a + b) == Lexemes(a) + Lexemes(b)
  {
    assert AllWritable(a) && AllWritable(b);
    hide Sound, Lexemes;
    SoundConcat(a, b);
    SoundLexemes(a, b);
  }

  lemma Nothing()
    ensures Sound([]) && Lexemes([]) == []
  {
  }

  /** Something in braces. */
  lemma Braced(head: Piece, inner: seq<Piece>)
    requires Sound([head]) && (head.item.Quoted? || (head.item.Word? && !HasCode(head.item.kind))) && Sound(inner)
    ensures var ps := [head, OPEN] + (inner + [CLOSE]);
      && Sound(ps)
      && Lexemes(ps) == Lexemes([head]) + [Lexeme(OPEN_BRACE, "{")] + (Lexemes(inner) + [Lexeme(CLOSE_BRACE, "}")])
  {
    hide Sound, Lexemes;
    OpenSound(head);
    CloseSound();
    Both(inner, [CLOSE]);
    Both([head, OPEN], inner + [CLOSE]);
  }

  lemma SaysSound(key: TokenType, text: string)
    requires IsKeyword(key) && key != SQL && key != CSS && QuoteText(text)
    ensures Sound([Key(key)] + [Quote(text)])
    ensures Lexemes([Key(key)] + [Quote(text)]) == [KeyToken(key), Lexeme(STRING, text)]
  {
    hide Sound, Lexemes;
    KeySound(key);
    QuoteSound(text);
    Both([Key(key)], [Quote(text)]);
  }

  lemma {:induction false} PropertiesSound(ps: seq<Property>)
    requires forall i :: 0 <= i < |ps| ==> ValidProperty(ps[i])
    ensures Sound(AllProperties(ps))
  {
    hide Sound, Lexemes;
    if ps == [] {
      Nothing();
    } else {
      PropertySound(ps[0]);
      PropertiesSound(ps[1..]);
      Both(PropertyPieces(ps[0]), AllProperties(ps[1..]));
    }
  }

  /** The token a property's value is. */
  function PropertyLexemes(p: Property): seq<Lexeme> {
    match p
    case Asks(name, text) => [Lexeme(STRING, name), Lexeme(STRING, text)]
    case Bounds(name, low, high) => [Lexeme(STRING, name), Lexeme(RANGE, low + ".." + high)]
    case Flag(name) => [Lexeme(STRING, name)]
  }

  lemma PropertySound(p: Property)
    requires ValidProperty(p)
    ensures Sound(PropertyPieces(p)) && Lexemes(PropertyPieces(p)) == PropertyLexemes(p)
  {
    hide Sound, Lexemes, QuoteText;
    QuoteSound(p.name);
    match p
    case Asks(name, text) =>
      QuoteSound(text);
      Both([Quote(name)], [Quote(text)]);
    case Bounds(name, low, high) =>
      SpanSound(low, high);
      Both([Quote(name)], [Piece(Span(low, high), " ")]);
    case Flag(_) =>
  }

  lemma {:induction false} PairsSound(ds: seq<(string, string)>)
    requires forall i :: 0 <= i < |ds| ==> QuoteText(ds[i].0) && QuoteText(ds[i].1)
    ensures Sound(AllPairs(ds))
  {
    hide Sound, Lexemes, QuoteText;
    if ds == [] {
      Nothing();
    } else {
      QuoteSound(ds[0].0);
      QuoteSound(ds[0].1);
      PairsSound(ds[1..]);
      Both([Quote(ds[0].1)], AllPairs(ds[1..]));
      Both([Quote(ds[0].0)], [Quote(ds[0].1)] + AllPairs(ds[1..]));
    }
  }

  lemma HoldsSound(key: TokenType, code: Code)
    requires HasCode(key) && if code.InBraces? then Balanced(code.text) else QuoteText(code.text) && key != SQL
    ensures Sound([Key(key), CodePiece(code)])
    ensures Lexemes([Key(key), CodePiece(code)]) == [KeyToken(key), if code.InBraces? then
      Lexeme(RAW_BLOCK, Stripped(code.text, true)) else Lexeme(STRING, code.text)]
  {
    hide Sound, Lexemes, QuoteText, Balanced, Stripped;
    if code.InBraces? {
      CodeSound(key, code.text);
    } else {
      SaysSound(key, code.text);
      assert [Key(key)] + [Quote(code.text)] == [Key(key), CodePiece(code)];
    }
  }

  lemma ValueSound(v: Value)
    requires ValidValue(v)
    ensures Sound([ValuePiece(v)])
    ensures Lexemes([ValuePiece(v)]) == [if v.Literal? then Lexeme(STRING, v.text) else Lexeme(ENV_VAR, "$" + v.word)]
  {
    hide Sound, Lexemes, QuoteText;
    if v.Literal? {
      QuoteSound(v.text);
    } else {
      EnvSound(v.word);
    }
  }

  /** Keywords that open blocks or stand in front of texts are none that take code along. */
  lemma KeysOf(p: Where, key: TokenType)
    ensures Opens(p, key).Some? ==> IsKeyword(key) && !HasCode(key) && key != CSS
    ensures key in SaysIn(p) ==> IsKeyword(key) && !HasCode(key) && key != CSS
    ensures key in TakesIn(p) ==> IsKeyword(key) && !HasCode(key) && key != CSS
    ensures key in HoldsIn(p) ==> HasCode(key)
  {
  }

  lemma {:induction false} EntrySound(e: Entry, p: Where)
    requires Allowed(e, p)
    ensures Keyed(e) && Sound(Pieces(e))
    decreases e
  {
    AllowedKeyed(e, p);
    hide Sound, Lexemes, QuoteText, SaysIn, TakesIn, HoldsIn, Opens, ValidValue, Balanced, IsKeyword;
    match e
    case Says(key, text) =>
      KeysOf(p, key);
      SaysSound(key, text);
    case Takes(key, value) =>
      KeysOf(p, key);
      KeySound(key);
      ValueSound(value);
      Both([Key(key)], [ValuePiece(value)]);
    case Port(number) =>
      KeySound(PORT) by { PlainKeys(); }
      DigitsSound(number);
      Both([Key(PORT)], [Piece(Digits(number), " ")]);
    case Holds(key, code) =>
      KeysOf(p, key);
      HoldsSound(key, code);
    case Runs(query) =>
      PlainKeys();
      KeySound(EXECUTE_QUERY);
      KeySound(DYNAMIC);
      if query.Some? {
        QuoteSound(query.value);
      }
      Both([Key(EXECUTE_QUERY)], [if query.Some? then Quote(query.value) else Key(DYNAMIC)]);
    case Nests(key, entries) =>
      KeysOf(p, key);
      KeySound(key);
      EntriesSound(entries, Opens(p, key).value);
      Braced(Key(key), AllPieces(entries));
    case Letter(name, entries) =>
      PlainKeys();
      KeySound(TEMPLATE);
      QuoteSound(name);
      EntriesSound(entries, InLetter);
      Braced(Quote(name), AllPieces(entries));
      Both([Key(TEMPLATE)], [Quote(name), OPEN] + (AllPieces(entries) + [CLOSE]));
    case Field(name, properties) =>
      QuoteSound(name);
      PropertiesSound(properties);
      Braced(Quote(name), AllProperties(properties));
    case Asked(params) => ParamsSound(params);
    case Style(selector, declarations) =>
      QuoteSound(selector);
      PairsSound(declarations);
      Braced(Quote(selector), AllPairs(declarations));
    case Css(text) => CssSound(text);
  }

  lemma PlainKeys()
    ensures IsKeyword(PORT) && IsKeyword(EXECUTE_QUERY) && IsKeyword(DYNAMIC) && IsKeyword(TEMPLATE)
    ensures IsKeyword(PARAMS) && IsKeyword(WEBSITE)
  {
  }

  lemma {:induction false} EntriesSound(es: seq<Entry>, p: Where)
    requires AllAllowed(es, p)
    ensures AllKeyed(es) && Sound(AllPieces(es))
    decreases es
  {
    hide Sound, Lexemes;
    if es == [] {
      Nothing();
    } else {
      EntrySound(es[0], p);
      EntriesSound(es[1..], p);
      Both(Pieces(es[0]), AllPieces(es[1..]));
    }
  }
}
