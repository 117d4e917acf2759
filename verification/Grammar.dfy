/** The language of website texts, as a stack of what may still come: a token is read against
    the top of the stack. A stack that is used up or has failed stays so. */
module Grammar {
  import opened CStrings
  import opened Lexical

  datatype Item =
    | Tok(kind: TokenType)
    /** A string or an environment variable; a raw block or a string; a string or `dynamic`. */
    | Value | Code | Reference
    | PortNumber
    /** What stands at the top of a website: settings at first, declarations from the first
        of them on. An included file holds declarations up to its end. */
    | Settings | Declarations | Content
    /** The insides of blocks. */
    | Layout | Page | Api | Query
    | Coded(code: TokenType)
    | Partial(named: bool, template: bool)
    | Response(redirect: bool)
    | Steps | Fields | Properties
    | Params | NextParam
    | Styles | StyleBody | StyleTail | StyleProps
    | Auth | Github | Email | SendGrid | EmailText

  datatype Stack = Push(top: Item, rest: Stack) | Done | Fail

  /** A block in braces, and a string, in front of what may come. */
  function Braces(item: Item, s: Stack): Stack {
    Push(Tok(OPEN_BRACE), Push(item, s))
  }

  function Str(s: Stack): Stack {
    Push(Tok(STRING), s)
  }

  /** The text of a number is a port: no decimal point, and in range. */
  predicate ValidPort(s: string) {
    s != "" && AllDigits(s) && 1 <= Number(s) <= 65535
  }

  /** What is read as a single token, and which tokens will do. */
  predicate Leaf(item: Item) {
    item.Tok? || item.Value? || item.Code? || item.Reference? || item.PortNumber?
  }

  predicate Fits(item: Item, t: Lexeme) {
    match item
    case Tok(kind) => t.kind == kind
    case Value => t.kind == STRING || t.kind == ENV_VAR
    case Code => t.kind == STRING || t.kind == RAW_BLOCK
    case Reference => t.kind == STRING || t.kind == DYNAMIC
    case PortNumber => t.kind == ENV_VAR || (t.kind == NUMBER && ValidPort(t.text))
    case _ => false
  }

  /** The keywords of declarations. */
  function Declaration(k: TokenType, s: Stack): Stack {
    if k == PAGE then Braces(Page, s)
    else if k == LAYOUT then Braces(Layout, s)
    else if k == STYLES then Braces(Styles, s)
    else if k == API then Braces(Api, s)
    else if k == QUERY then Braces(Query, s)
    else if k == TRANSFORM then Braces(Coded(JQ), s)
    else if k == SCRIPT then Braces(Coded(LUA), s)
    else if k == PARTIAL then Braces(Partial(false, false), s)
    else if k == AUTH then Braces(Auth, s)
    else if k == EMAIL then Braces(Email, s)
    else Fail
  }

  /** What may come before the first declaration. */
  function Setting(k: TokenType, s: Stack): Stack
    requires s.Push?
  {
    if k == NAME || k == AUTHOR || k == VERSION || k == INCLUDE then Str(s)
    else if k == DATABASE then Push(Value, s)
    else if k == PORT then Push(PortNumber, s)
    else if k == AUTH then Braces(Auth, s)
    else Declaration(k, Push(Declarations, s.rest))
  }

  function PageEntry(k: TokenType, s: Stack): Stack {
    if k == ROUTE || k == NAME || k == METHOD || k == LAYOUT || k == REDIRECT then Str(s)
    else if k == FIELDS then Braces(Fields, s)
    else if k == HTML || k == MUSTACHE then Push(Code, s)
    else if k == ERROR || k == SUCCESS then Braces(Response(false), s)
    else if k == PIPELINE || k == REFERENCE_DATA then Braces(Steps, s)
    else Fail
  }

  function ApiEntry(k: TokenType, s: Stack): Stack {
    if k == ROUTE || k == METHOD then Str(s)
    else if k == PIPELINE then Braces(Steps, s)
    else if k == FIELDS then Braces(Fields, s)
    else Fail
  }

  function QueryEntry(k: TokenType, s: Stack): Stack {
    if k == NAME then Str(s)
    else if k == PARAMS then Push(Tok(OPEN_BRACKET), Push(Params, s))
    else if k == SQL then Push(Code, s)
    else Fail
  }

  function LayoutEntry(k: TokenType, s: Stack): Stack {
    if k == NAME then Str(s) else if k == HTML || k == MUSTACHE then Push(Code, s) else Fail
  }

  /** A name, and some code behind its keyword. */
  function CodedEntry(code: TokenType, k: TokenType, s: Stack): Stack {
    if k == NAME then Str(s) else if k == code then Push(Code, s) else Fail
  }

  function PartialEntry(item: Item, k: TokenType, rest: Stack): Stack
    requires item.Partial?
  {
    if k == NAME then Str(Push(item.(named := true), rest))
    else if k == MUSTACHE then Push(Code, Push(item.(template := true), rest))
    else Fail
  }

  /** A template may not follow a redirect. */
  function ResponseEntry(item: Item, k: TokenType, rest: Stack): Stack
    requires item.Response?
  {
    if k == REDIRECT then Str(Push(Response(true), rest))
    else if (k == MUSTACHE || k == HTML) && !item.redirect then Push(Code, Push(item, rest))
    else Fail
  }

  function StepEntry(k: TokenType, s: Stack): Stack {
    if k == JQ || k == LUA || k == SQL then Push(Code, s)
    else if k == EXECUTE_QUERY then Push(Reference, s)
    else if k == EXECUTE_TRANSFORM || k == EXECUTE_SCRIPT then Str(s)
    else Fail
  }

  /** A property of a field: a string, which may ask for a value. */
  function Property(t: Lexeme, s: Stack): Stack {
    if t.kind != STRING then Fail
    else if t.text == "type" || t.text == "required" || t.text == "format" then Str(s)
    else if t.text == "range" || t.text == "length" then Push(Tok(RANGE), s)
    else s
  }

  /** The form with the keyword `css` is left out: no opening brace can follow that keyword. */
  function StyleEntry(k: TokenType, s: Stack): Stack {
    if k == RAW_BLOCK then s
    else if k == STRING then Braces(StyleBody, s)
    else Fail
  }

  function AuthEntry(k: TokenType, s: Stack): Stack {
    if k == SALT then Push(Value, s) else if k == GITHUB then Braces(Github, s) else Fail
  }

  function GithubEntry(k: TokenType, s: Stack): Stack {
    if k == CLIENT_ID || k == CLIENT_SECRET then Push(Value, s) else Fail
  }

  function SendGridEntry(k: TokenType, s: Stack): Stack {
    if k == API_KEY || k == FROM_EMAIL || k == FROM_NAME then Push(Value, s) else Fail
  }

  function TextEntry(k: TokenType, s: Stack): Stack {
    if k == SUBJECT then Str(s) else if k == MUSTACHE then Push(Code, s) else Fail
  }

  /** In the braces of a style: raw CSS, or properties. */
  function StyleBodyEntry(k: TokenType, rest: Stack): Stack {
    if k == CSS || k == RAW_BLOCK then Push(StyleTail, rest)
    else if k == STRING then Str(Push(StyleProps, rest))
    else Fail
  }

  function StyleTailEntry(k: TokenType, rest: Stack): Stack {
    if k == OPEN_BRACE then Push(Tok(CLOSE_BRACE), Push(Tok(CLOSE_BRACE), rest)) else Fail
  }

  function ParamsEntry(k: TokenType, rest: Stack): Stack {
    if k == STRING then Push(NextParam, rest) else if k == CLOSE_BRACKET then rest else Fail
  }

  function NextParamEntry(k: TokenType, rest: Stack): Stack {
    if k == COMMA then Push(Params, rest) else if k == CLOSE_BRACKET then rest else Fail
  }

  function EmailEntry(k: TokenType, s: Stack): Stack {
    if k == SENDGRID then Braces(SendGrid, s)
    else if k == TEMPLATE then Str(Braces(EmailText, s))
    else Fail
  }

  /** Reading a token inside braces, other than the closing one or the end of the text. */
  function BlockEntry(t: Lexeme, s: Stack): Stack
    requires s.Push?
  {
    var k := t.kind;
    match s.top
    case Settings => Setting(k, s)
    case Declarations => Declaration(k, s)
    case Content => Declaration(k, s)
    case Layout => LayoutEntry(k, s)
    case Page => PageEntry(k, s)
    case Api => ApiEntry(k, s)
    case Query => QueryEntry(k, s)
    case Coded(code) => CodedEntry(code, k, s)
    case Partial(_, _) => PartialEntry(s.top, k, s.rest)
    case Response(_) => ResponseEntry(s.top, k, s.rest)
    case Steps => StepEntry(k, s)
    case Fields => if k == STRING then Braces(Properties, s) else Fail
    case Properties => Property(t, s)
    case Styles => StyleEntry(k, s)
    case StyleBody => StyleBodyEntry(k, s.rest)
    case StyleTail => StyleTailEntry(k, s.rest)
    case Params => ParamsEntry(k, s.rest)
    case NextParam => NextParamEntry(k, s.rest)
    case StyleProps => if k == STRING then Str(s) else Fail
    case Auth => AuthEntry(k, s)
    case Github => GithubEntry(k, s)
    case Email => EmailEntry(k, s)
    case SendGrid => SendGridEntry(k, s)
    case EmailText => TextEntry(k, s)
    case _ => Fail
  }

  /** Where a closing brace may come; a partial has to have its name and its template. */
  predicate Closes(item: Item) {
    match item
    case Partial(named, template) => named && template
    case Params => false
    case NextParam => false
    case _ => true
  }

  /** Reading a token against the stack. */
  function Shift(s: Stack, t: Lexeme): Stack {
    if !s.Push? then s
    else if t.kind == EOF then if s.top == Content then Done else Fail
    else if Leaf(s.top) then if Fits(s.top, t) then s.rest else Fail
    else if t.kind == CLOSE_BRACE then if Closes(s.top) then s.rest else Fail
    else BlockEntry(t, s)
  }

  // ---------- the entries block by block, for proofs that look at one of them ----------

  lemma LayoutReads(t: Lexeme, s: Stack)
    requires s.Push? && s.top == Layout
    ensures BlockEntry(t, s) == LayoutEntry(t.kind, s)
  {
  }

  lemma PageReads(t: Lexeme, s: Stack)
    requires s.Push? && s.top == Page
    ensures BlockEntry(t, s) == PageEntry(t.kind, s)
  {
  }

  lemma ApiReads(t: Lexeme, s: Stack)
    requires s.Push? && s.top == Api
    ensures BlockEntry(t, s) == ApiEntry(t.kind, s)
  {
  }

  lemma QueryReads(t: Lexeme, s: Stack)
    requires s.Push? && s.top == Query
    ensures BlockEntry(t, s) == QueryEntry(t.kind, s)
  {
  }

  lemma StepsReads(t: Lexeme, s: Stack)
    requires s.Push? && s.top == Steps
    ensures BlockEntry(t, s) == StepEntry(t.kind, s)
  {
  }

  lemma FieldsReads(t: Lexeme, s: Stack)
    requires s.Push? && s.top == Fields
    ensures BlockEntry(t, s) == if t.kind == STRING then Braces(Properties, s) else Fail
  {
  }

  lemma PropertiesReads(t: Lexeme, s: Stack)
    requires s.Push? && s.top == Properties
    ensures BlockEntry(t, s) == Property(t, s)
  {
  }

  lemma StylesReads(t: Lexeme, s: Stack)
    requires s.Push? && s.top == Styles
    ensures BlockEntry(t, s) == StyleEntry(t.kind, s)
  {
  }

  lemma EmailReads(t: Lexeme, s: Stack)
    requires s.Push? && s.top == Email
    ensures BlockEntry(t, s) == EmailEntry(t.kind, s)
  {
  }

  lemma CodedReads(t: Lexeme, s: Stack)
    requires s.Push? && s.top.Coded?
    ensures BlockEntry(t, s) == CodedEntry(s.top.code, t.kind, s)
  {
  }

  lemma StyleReads(t: Lexeme, s: Stack)
    ensures s.Push? && s.top == StyleBody ==> BlockEntry(t, s) == StyleBodyEntry(t.kind, s.rest)
    ensures s.Push? && s.top == StyleTail ==> BlockEntry(t, s) == StyleTailEntry(t.kind, s.rest)
    ensures s.Push? && s.top == StyleProps ==> BlockEntry(t, s) == if t.kind == STRING then Str(s) else Fail
  {
  }

  lemma ParamsRead(t: Lexeme, s: Stack)
    ensures s.Push? && s.top == Params ==> BlockEntry(t, s) == ParamsEntry(t.kind, s.rest)
    ensures s.Push? && s.top == NextParam ==> BlockEntry(t, s) == NextParamEntry(t.kind, s.rest)
  {
  }

  lemma PartialReads(t: Lexeme, named: bool, template: bool, rest: Stack)
    ensures BlockEntry(t, Push(Partial(named, template), rest)) ==
      if t.kind == NAME then Str(Push(Partial(true, template), rest))
      else if t.kind == MUSTACHE then Push(Code, Push(Partial(named, true), rest))
      else Fail
  {
  }

  lemma ResponseReads(t: Lexeme, s: Stack)
    requires s.Push? && s.top.Response?
    ensures BlockEntry(t, s) == ResponseEntry(s.top, t.kind, s.rest)
  {
  }

  lemma AuthReads(t: Lexeme, s: Stack)
    requires s.Push? && s.top == Auth
    ensures BlockEntry(t, s) == AuthEntry(t.kind, s)
  {
  }

  lemma GithubReads(t: Lexeme, s: Stack)
    requires s.Push? && s.top == Github
    ensures BlockEntry(t, s) == GithubEntry(t.kind, s)
  {
  }

  lemma SendGridReads(t: Lexeme, s: Stack)
    requires s.Push? && s.top == SendGrid
    ensures BlockEntry(t, s) == SendGridEntry(t.kind, s)
  {
  }

  lemma EmailTextReads(t: Lexeme, s: Stack)
    requires s.Push? && s.top == EmailText
    ensures BlockEntry(t, s) == TextEntry(t.kind, s)
  {
  }

  lemma WebsiteReads(t: Lexeme, s: Stack)
    ensures s.Push? && s.top == Settings ==> BlockEntry(t, s) == Setting(t.kind, s)
    ensures s.Push? && (s.top == Declarations || s.top == Content) ==> BlockEntry(t, s) == Declaration(t.kind, s)
  {
  }

  /** The stack after the first n tokens of a text. */
  function Fed(start: Stack, s: string, n: nat): Stack {
    if n == 0 then start else Shift(Fed(start, s, n - 1), Nth(s, n - 1))
  }

  lemma FedNext(start: Stack, s: string, n: nat)
    ensures Fed(start, s, n + 1) == Shift(Fed(start, s, n), Nth(s, n))
  {
  }

  lemma FailStays(t: Lexeme)
    ensures Shift(Fail, t) == Fail
  {
  }

  /** A text is in the language when some first tokens of it use up the stack. */
  ghost predicate Accepts(start: Stack, s: string) {
    exists n: nat :: Fed(start, s, n) == Done
  }

  const PROGRAM := Push(Tok(WEBSITE), Braces(Settings, Done))
  const INCLUDED := Push(Content, Done)

  /** Once used up or failed, a stack stays so. */
  lemma {:induction false} FedForGood(start: Stack, s: string, m: nat, n: nat)
    requires m <= n && !Fed(start, s, m).Push?
    ensures Fed(start, s, n) == Fed(start, s, m)
  {
    hide Nth;
    if m < n {
      FedForGood(start, s, m, n - 1);
    }
  }

  /** A text that fails somewhere is not in the language. */
  lemma FailsForGood(start: Stack, s: string, n: nat)
    requires Fed(start, s, n) == Fail
    ensures !Accepts(start, s)
  {
    hide Fed;
    forall m: nat ensures Fed(start, s, m) != Done {
      if m <= n && Fed(start, s, m) == Done {
        FedForGood(start, s, m, n);
      } else if Fed(start, s, m) == Done {
        FedForGood(start, s, n, m);
      }
    }
  }
}
