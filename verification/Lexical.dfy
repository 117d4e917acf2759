/** What a text means to the lexer: its tokens, as functions of the text. Reading at the end
    of a C string gives NUL. */
module Lexical {
  import opened Options
  import opened CStrings
  import opened RawText

  const NUL: char := '\0'

  /** The token types, numbered like the enumeration of the C code. */
  newtype TokenType = x: int | 0 <= x < 64
  const WEBSITE: TokenType := 0
  const PAGES: TokenType := 1
  const PAGE: TokenType := 2
  const STYLES: TokenType := 3
  const ROUTE: TokenType := 4
  const LAYOUT: TokenType := 5
  const NAME: TokenType := 6
  const AUTHOR: TokenType := 7
  const VERSION: TokenType := 8
  const ALT: TokenType := 9
  const LAYOUTS: TokenType := 10
  const PORT: TokenType := 11
  const API: TokenType := 12
  const METHOD: TokenType := 13
  const EXECUTE_QUERY: TokenType := 14
  const QUERY: TokenType := 15
  const SQL: TokenType := 16
  const DATABASE: TokenType := 17
  const HTML: TokenType := 18
  const CSS: TokenType := 19
  const NUMBER: TokenType := 20
  const JQ: TokenType := 21
  const LUA: TokenType := 22
  const PIPELINE: TokenType := 23
  const DYNAMIC: TokenType := 24
  const TRANSFORM: TokenType := 25
  const SCRIPT: TokenType := 26
  const EXECUTE_TRANSFORM: TokenType := 27
  const EXECUTE_SCRIPT: TokenType := 28
  const INCLUDE: TokenType := 29
  const ERROR: TokenType := 30
  const SUCCESS: TokenType := 31
  const REFERENCE_DATA: TokenType := 32
  const ENV_VAR: TokenType := 33
  const AUTH: TokenType := 34
  const SALT: TokenType := 35
  const GITHUB: TokenType := 36
  const CLIENT_ID: TokenType := 37
  const CLIENT_SECRET: TokenType := 38
  const EMAIL: TokenType := 39
  const SENDGRID: TokenType := 40
  const FROM_EMAIL: TokenType := 41
  const FROM_NAME: TokenType := 42
  const API_KEY: TokenType := 43
  const TEMPLATE: TokenType := 44
  const SUBJECT: TokenType := 45
  const STRING: TokenType := 46
  const OPEN_BRACE: TokenType := 47
  const CLOSE_BRACE: TokenType := 48
  const OPEN_PAREN: TokenType := 49
  const CLOSE_PAREN: TokenType := 50
  const EOF: TokenType := 51
  const UNKNOWN: TokenType := 52
  const RAW_BLOCK: TokenType := 53
  const RAW_STRING: TokenType := 54
  const OPEN_BRACKET: TokenType := 55
  const CLOSE_BRACKET: TokenType := 56
  const COMMA: TokenType := 57
  const FIELDS: TokenType := 58
  const RANGE: TokenType := 59
  const PARAMS: TokenType := 60
  const MUSTACHE: TokenType := 61
  const REDIRECT: TokenType := 62
  const PARTIAL: TokenType := 63

  predicate IsAlpha(c: char) {
    'a' <= c <= 'z' || 'A' <= c <= 'Z' || c == '_' || c == '-'
  }

  /** checkKeyword compares with one word after the other. */
  function Keyword(s: string): TokenType {
    if FirstWords(s) != UNKNOWN then FirstWords(s)
    else if PageWords(s) != UNKNOWN then PageWords(s)
    else if StepWords(s) != UNKNOWN then StepWords(s)
    else if ResultWords(s) != UNKNOWN then ResultWords(s)
    else MailWords(s)
  }

  function FirstWords(s: string): TokenType {
    if s == "website" then WEBSITE
    else if s == "html" then HTML
    else if s == "css" then CSS
    else if s == "pages" then PAGES
    else if s == "database" then DATABASE
    else if s == "page" then PAGE
    else if s == "styles" then STYLES
    else if s == "route" then ROUTE
    else if s == "layout" then LAYOUT
    else if s == "name" then NAME
    else UNKNOWN
  }

  function PageWords(s: string): TokenType {
    if s == "author" then AUTHOR
    else if s == "version" then VERSION
    else if s == "alt" then ALT
    else if s == "layouts" then LAYOUTS
    else if s == "port" then PORT
    else if s == "api" then API
    else if s == "method" then METHOD
    else if s == "executeQuery" then EXECUTE_QUERY
    else if s == "query" then QUERY
    else if s == "sql" then SQL
    else UNKNOWN
  }

  function StepWords(s: string): TokenType {
    if s == "fields" then FIELDS
    else if s == "jq" then JQ
    else if s == "lua" then LUA
    else if s == "pipeline" then PIPELINE
    else if s == "dynamic" then DYNAMIC
    else if s == "params" then PARAMS
    else if s == "transform" then TRANSFORM
    else if s == "script" then SCRIPT
    else if s == "executeTransform" then EXECUTE_TRANSFORM
    else if s == "executeScript" then EXECUTE_SCRIPT
    else UNKNOWN
  }

  function ResultWords(s: string): TokenType {
    if s == "mustache" then MUSTACHE
    else if s == "include" then INCLUDE
    else if s == "redirect" then REDIRECT
    else if s == "error" then ERROR
    else if s == "success" then SUCCESS
    else if s == "referenceData" then REFERENCE_DATA
    else if s == "partial" then PARTIAL
    else if s == "auth" then AUTH
    else if s == "salt" then SALT
    else if s == "github" then GITHUB
    else UNKNOWN
  }

  function MailWords(s: string): TokenType {
    if s == "clientId" then CLIENT_ID
    else if s == "clientSecret" then CLIENT_SECRET
    else if s == "email" then EMAIL
    else if s == "sendgrid" then SENDGRID
    else if s == "fromEmail" then FROM_EMAIL
    else if s == "fromName" then FROM_NAME
    else if s == "apiKey" then API_KEY
    else if s == "template" then TEMPLATE
    else if s == "subject" then SUBJECT
    else UNKNOWN
  }

  lemma KeywordIsWord(s: string)
    ensures Keyword(s) != EOF && Keyword(s) != OPEN_BRACE
  {
  }

  /** A token without its line. */
  datatype Lexeme = Lexeme(kind: TokenType, text: string)

  function CharAt(s: string, p: nat): char {
    if p < |s| then s[p] else NUL
  }

  // ---------- where things end ----------

  function CommentEnd(s: string, p: nat): (e: nat)
    requires p <= |s|
    ensures p <= e <= |s| && (p < |s| && s[p] != '\n' ==> p < e)
    decreases |s| - p
  {
    if p < |s| && s[p] != '\n' then CommentEnd(s, p + 1) else p
  }

  /** Behind white space and comments. */
  function Skip(s: string, p: nat): (e: nat)
    requires p <= |s|
    ensures p <= e <= |s| && !SkipsAt(s, e) && (!SkipsAt(s, p) ==> e == p)
    decreases |s| - p
  {
    if !SkipsAt(s, p) then p
    else if s[p] == '/' then Skip(s, CommentEnd(s, p))
    else Skip(s, p + 1)
  }

  /** White space or a comment stands here. */
  predicate SkipsAt(s: string, p: nat)
    ensures SkipsAt(s, p) ==> p < |s|
  {
    var c := CharAt(s, p);
    c == ' ' || c == '\r' || c == '\t' || c == '\n' || (c == '/' && CharAt(s, p + 1) == '/')
  }

  function WordEnd(s: string, p: nat): (e: nat)
    requires p <= |s|
    ensures p <= e <= |s|
    decreases |s| - p
  {
    if p < |s| && (IsAlpha(s[p]) || IsDigit(s[p])) then WordEnd(s, p + 1) else p
  }

  function DigitsEnd(s: string, p: nat): (e: nat)
    requires p <= |s|
    ensures p <= e <= |s|
    decreases |s| - p
  {
    if p < |s| && IsDigit(s[p]) then DigitsEnd(s, p + 1) else p
  }

  /** Behind the brace that closes the given number of open ones. */
  function BlockEnd(s: string, p: nat, open: nat): (e: Option<nat>)
    requires p <= |s|
    ensures e.Some? ==> p <= e.value <= |s| && (open > 0 ==> p < e.value)
    decreases |s| - p
  {
    if open == 0 then Some(p)
    else if p == |s| then None
    else BlockEnd(s, p + 1, if s[p] == '{' then open + 1 else if s[p] == '}' then open - 1 else open)
  }

  /** The end of a quoted string, and whether it is too long: characters behind a backslash
      do not end it and are not counted. A negative limit is none. */
  function QuotedEnd(s: string, p: nat, len: nat, limit: int): (r: (nat, bool))
    requires p <= |s|
    ensures p <= r.0 <= |s| && (r.1 ==> limit >= 0)
    ensures !r.1 ==> r.0 == |s| || s[r.0] == '"'
    decreases |s| - p
  {
    if p == |s| || s[p] == '"' then (p, false)
    else if 0 <= limit <= len then (p, true)
    else if s[p] == '\\' then QuotedEnd(s, if p + 1 < |s| then p + 2 else p + 1, len, limit)
    else QuotedEnd(s, p + 1, len + 1, limit)
  }

  /** How many newlines a quoted string takes in as escaped characters. */
  function QuotedEscapes(s: string, p: nat, len: nat, limit: int): nat
    requires p <= |s|
    decreases |s| - p
  {
    if p == |s| || s[p] == '"' || 0 <= limit <= len then 0
    else if s[p] == '\\' then
      if p + 1 < |s| then (if s[p + 1] == '\n' then 1 else 0) + QuotedEscapes(s, p + 2, len, limit)
      else 0
    else QuotedEscapes(s, p + 1, len + 1, limit)
  }

  predicate TripleAt(s: string, p: nat)
    ensures TripleAt(s, p) ==> p + 3 <= |s|
  {
    CharAt(s, p) == '"' && CharAt(s, p + 1) == '"' && CharAt(s, p + 2) == '"'
  }

  function TripleEnd(s: string, p: nat, len: nat): (r: (nat, bool))
    requires p <= |s|
    ensures p <= r.0 <= |s|
    ensures !r.1 ==> r.0 == |s| || TripleAt(s, r.0)
    decreases |s| - p
  {
    if p == |s| then (p, false)
    else if len >= 100000 then (p, true)
    else if TripleAt(s, p) then (p, false)
    else TripleEnd(s, p + 1, len + 1)
  }

  /** The end of a block is where the brace depth first drops below that of its content. */
  lemma {:induction false} BlockEndStops(s: string, p: nat, q: nat, open: nat)
    requires p <= q <= |s| && open == 1 + Depth(s[p..q])
    requires forall i :: 0 <= i < q - p ==> Depth(s[p..][..i]) >= 0
    requires open == 0 ==> p < q
    ensures match BlockEnd(s, q, open)
      case Some(e) => p < e && StopsAt(s[p..], e - p)
      case None => forall k :: !StopsAt(s[p..], k)
    decreases |s| - q
  {
    assert s[p..][..q - p] == s[p..q];
    if open > 0 && q < |s| {
      DepthStep(s[p..], q - p);
      assert s[p..][..q + 1 - p] == s[p..q + 1];
      BlockEndStops(s, p, q + 1, if s[q] == '{' then open + 1 else if s[q] == '}' then open - 1 else open);
    }
  }

  // ---------- tokens ----------

  /** A token and the position behind it. */
  datatype Read = Read(token: Lexeme, next: nat)

  /** A raw block, from its opening brace. */
  function RawBlockAt(s: string, p: nat): (r: Read)
    requires p < |s|
    ensures p < r.next <= |s|
    ensures r.token.kind == RAW_BLOCK || r.token.kind == UNKNOWN
  {
    match BlockEnd(s, p + 1, 1)
    case None => Read(Lexeme(UNKNOWN, "Unterminated raw block."), |s|)
    case Some(e) => Read(Lexeme(RAW_BLOCK, Stripped(s[p + 1..e - 1], true)), e)
  }

  /** A raw block holds the content up to the matching brace, without its indentation; it is
      an error exactly when there is no matching brace. */
  lemma RawBlockStops(s: string, p: nat)
    requires p < |s|
    ensures var r := RawBlockAt(s, p); var rest := s[p + 1..]; var n := r.next - p - 1;
      if r.token.kind == RAW_BLOCK then StopsAt(rest, n) && r.token.text == Stripped(rest[..n - 1], true)
      else forall k :: !StopsAt(rest, k)
  {
    hide Stripped, BlockEnd;
    assert s[p + 1..p + 1] == "";
    BlockEndStops(s, p + 1, p + 1, 1);
    var e := RawBlockAt(s, p).next;
    assert BlockEnd(s, p + 1, 1).Some? ==> s[p + 1..][..e - p - 2] == s[p + 1..e - 1];
  }

  /** Balanced text in braces is read as one raw block, with the text stripped. */
  lemma RawBlockOfBalanced(s: string, p: nat, text: string, rest: string)
    requires p < |s| && Balanced(text) && s[p + 1..] == text + "}" + rest
    ensures RawBlockAt(s, p) == Read(Lexeme(RAW_BLOCK, Stripped(text, true)), p + |text| + 2)
  {
    hide Stripped, RawBlockAt, Balanced, StopsAt;
    RawBlockStops(s, p);
    StopsAfterBalanced(text, rest);
    BlockContent(text, rest, |text| + 1);
    var r := RawBlockAt(s, p);
    assert r.token.kind == RAW_BLOCK;
    BlockContent(text, rest, r.next - p - 1);
  }

  /** Keywords whose code may follow in braces. */
  predicate OpensRaw(kind: TokenType) {
    kind == JQ || kind == HTML || kind == SQL || kind == LUA || kind == MUSTACHE
  }

  /** A word: inside brackets always a string; white space behind a code keyword belongs to
      its token; `css` and a block are one raw block. */
  function WordAt(s: string, start: nat, inBrackets: bool): (r: Read)
    requires start < |s|
    ensures start < r.next <= |s| && r.token.kind != EOF && r.token.kind != OPEN_BRACE
    ensures r.token.kind == CSS || r.token.kind == SQL ==> !SkipsAt(s, r.next)
    ensures r.token.kind == CSS ==> CharAt(s, r.next) != '{'
  {
    var e := WordEnd(s, start + 1);
    var kind := Keyword(s[start..e]);
    KeywordIsWord(s[start..e]);
    if inBrackets then Read(Lexeme(STRING, s[start..e]), e)
    else if OpensRaw(kind) then Read(Lexeme(kind, s[start..Skip(s, e)]), Skip(s, e))
    else if kind == CSS then
      if CharAt(s, Skip(s, e)) == '{' then RawBlockAt(s, Skip(s, e))
      else Read(Lexeme(CSS, s[start..Skip(s, e)]), Skip(s, e))
    else Read(Lexeme(if kind == UNKNOWN then STRING else kind, s[start..e]), e)
  }

  /** A string, from behind its first quote. */
  function StringAt(s: string, p: nat): (r: Read)
    requires p <= |s|
    ensures p <= r.next <= |s|
    ensures r.token.kind == STRING || r.token.kind == UNKNOWN
  {
    if CharAt(s, p) == '"' && CharAt(s, p + 1) == '"' then
      var (e, long) := TripleEnd(s, p + 2, 0);
      if long then Read(Lexeme(UNKNOWN, "String too long (exceeds max length)"), e)
      else if e == |s| then Read(Lexeme(UNKNOWN, "Unterminated triple-quoted string."), e)
      else Read(Lexeme(STRING, s[p + 2..e]), e + 3)
    else
      var (e, long) := QuotedEnd(s, p, 0, 10000);
      if long then Read(Lexeme(UNKNOWN, "String too long (exceeds max length)"), e)
      else if e == |s| then Read(Lexeme(UNKNOWN, "Unterminated string."), e)
      else Read(Lexeme(STRING, s[p..e]), e + 1)
  }

  /** A triple-quoted string has no escaped characters. */
  function StringEscapes(s: string, p: nat): nat
    requires p <= |s|
  {
    if CharAt(s, p) == '"' && CharAt(s, p + 1) == '"' then 0 else QuotedEscapes(s, p, 0, 10000)
  }

  /** A raw string, from behind its first quote; the token keeps the quotes. */
  function RawStringAt(s: string, p: nat): (r: Read)
    requires 0 < p <= |s|
    ensures p <= r.next <= |s|
    ensures r.token.kind == RAW_STRING || r.token.kind == UNKNOWN
  {
    var e := QuotedEnd(s, p, 0, -1).0;
    if e == |s| then Read(Lexeme(UNKNOWN, "Unterminated raw string."), e)
    else Read(Lexeme(RAW_STRING, s[p - 1..e + 1]), e + 1)
  }

  /** A number or a range. */
  function NumberAt(s: string, start: nat): (r: Read)
    requires start < |s|
    ensures start < r.next <= |s|
    ensures r.token.kind == NUMBER || r.token.kind == RANGE || r.token.kind == UNKNOWN
  {
    var e := DigitsEnd(s, start + 1);
    if CharAt(s, e) == '.' && CharAt(s, e + 1) == '.' then RangeAt(s, start, e + 2)
    else if CharAt(s, e) == '.' then FractionAt(s, start, e + 1)
    else Read(Lexeme(NUMBER, s[start..e]), e)
  }

  /** Behind the two dots of a range. */
  function RangeAt(s: string, start: nat, p: nat): (r: Read)
    requires start < p <= |s|
    ensures p <= r.next <= |s| && (r.token.kind == RANGE || r.token.kind == UNKNOWN)
  {
    if !IsDigit(CharAt(s, p)) then Read(Lexeme(UNKNOWN, "Expected number after '..' in range."), p)
    else Read(Lexeme(RANGE, s[start..DigitsEnd(s, p)]), DigitsEnd(s, p))
  }

  /** Behind a decimal point. */
  function FractionAt(s: string, start: nat, p: nat): (r: Read)
    requires start < p <= |s|
    ensures p <= r.next <= |s| && (r.token.kind == NUMBER || r.token.kind == UNKNOWN)
  {
    if !IsDigit(CharAt(s, p)) then Read(Lexeme(UNKNOWN, "Expected digit after decimal point."), p)
    else Read(Lexeme(NUMBER, s[start..DigitsEnd(s, p)]), DigitsEnd(s, p))
  }

  /** What the switch on the first character makes of it. */
  function TokenAt(s: string, start: nat, inBrackets: bool): (r: Read)
    requires start < |s|
    ensures start < r.next <= |s| && r.token.kind != EOF
    ensures r.token.kind == CSS || r.token.kind == SQL ==> !SkipsAt(s, r.next)
    ensures r.token.kind == CSS ==> CharAt(s, r.next) != '{'
    ensures r.token.kind == OPEN_BRACE ==> s[start] == '{'
  {
    var c := s[start];
    if c == '$' then Read(Lexeme(ENV_VAR, s[start..WordEnd(s, start + 1)]), WordEnd(s, start + 1))
    else if c == '{' then Read(Lexeme(OPEN_BRACE, "{"), start + 1)
    else if c == '}' then Read(Lexeme(CLOSE_BRACE, "}"), start + 1)
    else if c == '(' then Read(Lexeme(OPEN_PAREN, "("), start + 1)
    else if c == ')' then Read(Lexeme(CLOSE_PAREN, ")"), start + 1)
    else if c == '"' then StringAt(s, start + 1)
    else if c == '[' then Read(Lexeme(OPEN_BRACKET, "["), start + 1)
    else if c == ']' then Read(Lexeme(CLOSE_BRACKET, "]"), start + 1)
    else if c == ',' then Read(Lexeme(COMMA, ","), start + 1)
    else if IsAlpha(c) then WordAt(s, start, inBrackets)
    else Read(Lexeme(UNKNOWN, "Unexpected character."), start + 1)
  }

  /** What the lexer knows between two tokens. */
  datatype Place = Place(pos: nat, inBrackets: bool, previous: TokenType)

  function Brackets(c: char, inBrackets: bool): bool {
    if c == '[' then true else if c == ']' then false else inBrackets
  }

  /** The next token, and the place behind it. Numbers, raw blocks and raw strings are not
      remembered as the previous token. */
  function Next(s: string, at: Place): (r: (Lexeme, Place))
    requires at.pos <= |s|
    ensures at.pos <= r.1.pos <= |s|
  {
    var p := Skip(s, at.pos);
    if p == |s| then (Lexeme(EOF, ""), at.(pos := p))
    else if s[p] == '{' && OpensRaw(at.previous) then
      var r := RawBlockAt(s, p);
      (r.token, at.(pos := r.next))
    else if IsDigit(s[p]) then
      var r := NumberAt(s, p);
      (r.token, at.(pos := r.next))
    else Remembered(s, TokenAt(s, p, at.inBrackets), Brackets(s[p], at.inBrackets), at.previous)
  }

  /** `sql` takes a quoted text behind it along; any other token is remembered. */
  function Remembered(s: string, r: Read, inBrackets: bool, previous: TokenType): (n: (Lexeme, Place))
    requires r.next <= |s|
    ensures r.next <= n.1.pos <= |s|
  {
    if r.token.kind != SQL then (r.token, Place(r.next, inBrackets, r.token.kind))
    else
      var q := Skip(s, r.next);
      if CharAt(s, q) == '"' then
        var raw := RawStringAt(s, q + 1);
        (raw.token, Place(raw.next, inBrackets, previous))
      else (r.token, Place(q, inBrackets, SQL))
  }

  /** Every token but the end of input uses up a character, and the end of input is found
      exactly where nothing but white space and comments is left. */
  lemma NextProgress(s: string, at: Place)
    requires at.pos <= |s|
    ensures var (t, after) := Next(s, at);
      && (t.kind == EOF ==> after.pos == |s|)
      && (t.kind != EOF ==> at.pos < after.pos)
      && (t.kind == EOF <==> Skip(s, at.pos) == |s|)
  {
    hide TokenAt, NumberAt, RawBlockAt, Skip, RawStringAt;
  }

  /** No brace comes behind the keyword `css`: the lexer takes a block there along. */
  lemma CssWithoutBrace(s: string, at: Place)
    requires at.pos <= |s| && Next(s, at).0.kind == CSS
    ensures Next(s, Next(s, at).1).0.kind != OPEN_BRACE
  {
    hide TokenAt, NumberAt, RawBlockAt, RawStringAt, Skip;
  }

  const BEGINNING := Place(0, false, UNKNOWN)

  /** The place behind the first n tokens. */
  function PlaceAfter(s: string, n: nat): (p: Place)
    ensures p.pos <= |s|
  {
    if n == 0 then BEGINNING else Next(s, PlaceAfter(s, n - 1)).1
  }

  function Nth(s: string, n: nat): Lexeme {
    Next(s, PlaceAfter(s, n)).0
  }

  /** The newlines read as escaped characters with the next token. */
  function NextEscapes(s: string, at: Place): nat
    requires at.pos <= |s|
  {
    var p := Skip(s, at.pos);
    if p == |s| || (s[p] == '{' && OpensRaw(at.previous)) || IsDigit(s[p]) then 0
    else TokenEscapes(s, p) + RememberedEscapes(s, TokenAt(s, p, at.inBrackets))
  }

  function TokenEscapes(s: string, p: nat): nat
    requires p < |s|
  {
    if s[p] == '"' then StringEscapes(s, p + 1) else 0
  }

  function RememberedEscapes(s: string, r: Read): nat
    requires r.next <= |s|
  {
    var q := Skip(s, r.next);
    if r.token.kind == SQL && CharAt(s, q) == '"' then QuotedEscapes(s, q + 1, 0, -1) else 0
  }

  /** The newlines read as escaped characters of quoted strings with the first n tokens. */
  function EscapedNewlines(s: string, n: nat): nat {
    if n == 0 then 0 else EscapedNewlines(s, n - 1) + NextEscapes(s, PlaceAfter(s, n - 1))
  }

  /** No backslash stands directly in front of a newline. */
  predicate NoEscapedNewline(s: string) {
    forall p :: 0 < p < |s| ==> !(s[p] == '\n' && s[p - 1] == '\\')
  }

  lemma {:induction false} NoQuotedEscapes(s: string, p: nat, len: nat, limit: int)
    requires p <= |s| && NoEscapedNewline(s)
    ensures QuotedEscapes(s, p, len, limit) == 0
    decreases |s| - p
  {
    if p < |s| && s[p] == '\\' && p + 1 < |s| {
      NoQuotedEscapes(s, p + 2, len, limit);
    } else if p < |s| {
      NoQuotedEscapes(s, p + 1, len + 1, limit);
    }
  }

  lemma NoNextEscapes(s: string, at: Place)
    requires at.pos <= |s| && NoEscapedNewline(s)
    ensures NextEscapes(s, at) == 0
  {
    hide NoEscapedNewline, QuotedEscapes, TokenAt, Skip, SkipsAt, OpensRaw;
    var p := Skip(s, at.pos);
    if p < |s| {
      NoQuotedEscapes(s, p + 1, 0, 10000);
      var q := Skip(s, TokenAt(s, p, at.inBrackets).next);
      if q < |s| {
        NoQuotedEscapes(s, q + 1, 0, -1);
      }
    }
  }

  /** A text without a backslash directly in front of a newline has no escaped newlines. */
  lemma {:induction false} NoEscapes(s: string, n: nat)
    requires NoEscapedNewline(s)
    ensures EscapedNewlines(s, n) == 0
  {
    hide NoEscapedNewline, NextEscapes, PlaceAfter;
    if n > 0 {
      NoEscapes(s, n - 1);
      NoNextEscapes(s, PlaceAfter(s, n - 1));
    }
  }

  /** Reading the string of a backslash and a newline passes over that newline. */
  lemma NewlineInString()
    ensures var s := "\"\\\n\""; EscapedNewlines(s, 1) == 1 && PlaceAfter(s, 1).pos == |s| == 4
  {
    hide RawBlockAt, NumberAt, Keyword;
    var s := "\"\\\n\"";
    assert Skip(s, 0) == 0;
    assert QuotedEscapes(s, 3, 0, 10000) == 0 && QuotedEscapes(s, 1, 0, 10000) == 1;
    assert QuotedEnd(s, 3, 0, 10000) == (3, false) && QuotedEnd(s, 1, 0, 10000) == (3, false);
    assert NextEscapes(s, BEGINNING) == 1;
    assert EscapedNewlines(s, 0) == 0;
  }

  /** The n tokens of a text from its token number `from` on. */
  function Tokens(s: string, from: nat, n: nat): (r: seq<Lexeme>)
    ensures |r| == n
  {
    if n == 0 then [] else Tokens(s, from, n - 1) + [Nth(s, from + n - 1)]
  }
}
