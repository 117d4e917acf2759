/** What a tree declares, read off its entries, and that the scan of its tokens finds just
    that. */
module TreesDeclared {
  import opened CStrings
  import opened Options
  import opened RawText
  import opened Lexical
  import opened TokenPrinting
  import opened TextPieces
  import opened WebsiteTrees
  import D = Declarations

  // ---------- what a tree declares ----------

  /** The last text behind a keyword. */
  function Said(es: seq<Entry>, key: TokenType, before: string): string
    decreases |es|
  {
    if es == [] then before
    else Said(es[1..], key, if es[0].Says? && es[0].key == key then es[0].text else before)
  }

  function StyleNodes(es: seq<Entry>): seq<D.Node>
    decreases |es|
  {
    if es == [] then []
    else (match es[0]
          case Style(selector, _) => [D.Node(D.StyleNode, selector, "")]
          case Css(_) => [D.Node(D.StyleNode, "", "")]
          case _ => []) + StyleNodes(es[1..])
  }

  /** What a declaration declares: pages and endpoints by route, endpoints by method as well,
      everything else by name; styles one by one; and nothing for the rest. */
  function NodesOf(e: Entry): seq<D.Node> {
    if !e.Nests? then []
    else if e.key == PAGE then [D.Node(D.PageNode, Said(e.entries, ROUTE, ""), "")]
    else if e.key == API then [D.Node(D.ApiNode, Said(e.entries, ROUTE, ""), Said(e.entries, METHOD, ""))]
    else if e.key == LAYOUT then [D.Node(D.LayoutNode, Said(e.entries, NAME, ""), "")]
    else if e.key == QUERY then [D.Node(D.QueryNode, Said(e.entries, NAME, ""), "")]
    else if e.key == TRANSFORM then [D.Node(D.TransformNode, Said(e.entries, NAME, ""), "")]
    else if e.key == SCRIPT then [D.Node(D.ScriptNode, Said(e.entries, NAME, ""), "")]
    else if e.key == PARTIAL then [D.Node(D.PartialNode, Said(e.entries, NAME, ""), "")]
    else if e.key == STYLES then StyleNodes(e.entries)
    else []
  }

  function AllNodes(es: seq<Entry>): seq<D.Node>
    decreases |es|
  {
    if es == [] then [] else NodesOf(es[0]) + AllNodes(es[1..])
  }

  /** The paths behind the includes. */
  function PathsOf(es: seq<Entry>): seq<string>
    decreases |es|
  {
    if es == [] then []
    else (if es[0].Says? && es[0].key == INCLUDE then [es[0].text] else []) + PathsOf(es[1..])
  }

  // ---------- and the scan finds it ----------

  /** The tokens change nothing where only braces matter. */
  ghost predicate Calm(ts: seq<Lexeme>) {
    forall s: D.Scan :: D.Quiet(s) ==> D.ScanAll(s, ts) == s
  }

  lemma ScanOne(s: D.Scan, t: Lexeme)
    ensures D.ScanAll(s, [t]) == D.Step(s, t) && D.ScanAll(s, []) == s
  {
    hide D.Step;
    assert [t][..0] == [];
  }

  lemma CalmConcat(a: seq<Lexeme>, b: seq<Lexeme>)
    requires Calm(a) && Calm(b)
    ensures Calm(a + b)
  {
    hide D.ScanAll, D.Quiet;
    forall s: D.Scan | D.Quiet(s) ensures D.ScanAll(s, a + b) == s {
      D.ScanConcat(s, a, b);
    }
  }

  lemma CalmOne(t: Lexeme)
    requires D.Plain(t.kind)
    ensures Calm([t])
  {
    hide D.ScanAll, D.Quiet;
    forall s: D.Scan | D.Quiet(s) ensures D.ScanAll(s, [t]) == s {
      ScanOne(s, t);
    }
  }

  lemma {:induction false} CalmPlain(ts: seq<Lexeme>)
    requires forall i :: 0 <= i < |ts| ==> D.Plain(ts[i].kind)
    ensures Calm(ts)
  {
    hide Calm, D.Plain;
    if ts == [] {
      CalmNothing();
    } else {
      CalmOne(ts[0]);
      CalmPlain(ts[1..]);
      CalmConcat([ts[0]], ts[1..]);
      assert [ts[0]] + ts[1..] == ts;
    }
  }

  lemma CalmNothing()
    ensures Calm([])
  {
  }

  /** Something in braces brings the scan back to where it was; inside it only braces matter. */
  lemma BracesScanned(s: D.Scan, inner: seq<Lexeme>)
    requires s.depth >= 1 && Calm(inner)
    ensures D.ScanAll(s, [Lexeme(OPEN_BRACE, "{")] + (inner + [Lexeme(CLOSE_BRACE, "}")])) == s
  {
    var open, close := Lexeme(OPEN_BRACE, "{"), Lexeme(CLOSE_BRACE, "}");
    var deep := s.(depth := s.depth + 1);
    assert D.Quiet(deep) && D.Step(s, open) == deep && D.Step(deep, close) == s;
    hide D.Step, D.ScanAll, D.Quiet;
    assert D.ScanAll(deep, inner) == deep;
    D.ScanConcat(s, [open], inner + [close]);
    D.ScanConcat(deep, inner, [close]);
    ScanOne(s, open);
    ScanOne(deep, close);
  }

  lemma CalmBraced(head: seq<Lexeme>, inner: seq<Lexeme>)
    requires Calm(head) && Calm(inner)
    ensures Calm(head + ([Lexeme(OPEN_BRACE, "{")] + (inner + [Lexeme(CLOSE_BRACE, "}")])))
  {
    var block := [Lexeme(OPEN_BRACE, "{")] + (inner + [Lexeme(CLOSE_BRACE, "}")]);
    forall s: D.Scan | D.Quiet(s) ensures D.ScanAll(s, block) == s {
      hide D.ScanAll;
      BracesScanned(s, inner);
    }
    hide D.ScanAll, D.Quiet;
    CalmConcat(head, block);
  }

  /** A block with a keyword or a name in front of it. */
  lemma BlockCalm(head: Piece, inner: seq<Piece>)
    requires Sound([head]) && (head.item.Quoted? || (head.item.Word? && !HasCode(head.item.kind))) && Sound(inner)
    requires Calm(Lexemes([head])) && Calm(Lexemes(inner))
    ensures var ps := [head, OPEN] + (inner + [CLOSE]); AllWritable(ps) && Calm(Lexemes(ps))
  {
    assert AllWritable([head]) && AllWritable(inner);
    Braced(head, inner);
    hide *;
    BracedLexemes(head, inner);
    CalmBraced(Lexemes([head]), Lexemes(inner));
  }

  lemma KeyPlain(kind: TokenType)
    requires IsKeyword(kind)
    ensures D.Plain(kind) && KeyToken(kind).kind == kind && kind != STRING && kind != RAW_BLOCK
  {
  }

  lemma BracedLexemes(head: Piece, inner: seq<Piece>)
    requires Sound([head]) && (head.item.Quoted? || (head.item.Word? && !HasCode(head.item.kind))) && Sound(inner)
    ensures Lexemes([head, OPEN] + (inner + [CLOSE]))
      == Lexemes([head]) + ([Lexeme(OPEN_BRACE, "{")] + (Lexemes(inner) + [Lexeme(CLOSE_BRACE, "}")]))
  {
    assert AllWritable([head]) && AllWritable(inner);
    hide Sound, Lexemes;
    Braced(head, inner);
    Associates(Lexemes([head]), [Lexeme(OPEN_BRACE, "{")], Lexemes(inner) + [Lexeme(CLOSE_BRACE, "}")]);
  }

  lemma {:induction false} PropertiesCalm(ps: seq<Property>)
    requires forall i :: 0 <= i < |ps| ==> ValidProperty(ps[i])
    ensures Calm(Lexemes(AllProperties(ps)))
  {
    hide Sound, Lexemes, Calm, ValidProperty;
    if ps == [] {
      Nothing();
      CalmNothing();
    } else {
      PropertySound(ps[0]);
      PropertiesSound(ps[1..]);
      Both(PropertyPieces(ps[0]), AllProperties(ps[1..]));
      CalmPlain(PropertyLexemes(ps[0]));
      PropertiesCalm(ps[1..]);
      CalmConcat(PropertyLexemes(ps[0]), Lexemes(AllProperties(ps[1..])));
    }
  }

  lemma {:induction false} PairsCalm(ds: seq<(string, string)>)
    requires forall i :: 0 <= i < |ds| ==> QuoteText(ds[i].0) && QuoteText(ds[i].1)
    ensures Calm(Lexemes(AllPairs(ds)))
  {
    hide Sound, Lexemes, Calm, QuoteText;
    if ds == [] {
      Nothing();
      CalmNothing();
    } else {
      var a, b, rest := ds[0].0, ds[0].1, AllPairs(ds[1..]);
      QuoteSound(a);
      QuoteSound(b);
      PairsSound(ds[1..]);
      Both([Quote(b)], rest);
      Both([Quote(a)], [Quote(b)] + rest);
      CalmOne(Lexeme(STRING, a));
      CalmOne(Lexeme(STRING, b));
      PairsCalm(ds[1..]);
      CalmConcat([Lexeme(STRING, b)], Lexemes(rest));
      CalmConcat([Lexeme(STRING, a)], [Lexeme(STRING, b)] + Lexemes(rest));
    }
  }

  lemma {:induction false} ListedCalm(names: seq<string>)
    ensures Calm(ListedLexemes(names))
  {
    hide Calm;
    if |names| <= 1 {
      CalmPlain(ListedLexemes(names));
    } else {
      ListedCalm(names[1..]);
      CalmPlain([Lexeme(STRING, names[0]), Lexeme(COMMA, ",")]);
      CalmConcat([Lexeme(STRING, names[0]), Lexeme(COMMA, ",")], ListedLexemes(names[1..]));
    }
  }

  lemma {:induction false} EntryCalm(e: Entry, p: Where)
    requires Allowed(e, p)
    ensures Keyed(e) && Calm(Lexemes(Pieces(e)))
    decreases e
  {
    EntrySound(e, p);
    hide Sound, Lexemes, Calm, QuoteText, SaysIn, TakesIn, HoldsIn, Opens, ValidValue, Balanced, IsKeyword, Stripped,
      AllDigits;
    match e
    case Says(key, text) =>
      KeysOf(p, key);
      KeyPlain(key);
      SaysSound(key, text);
      CalmPlain([KeyToken(key), Lexeme(STRING, text)]);
    case Takes(key, value) =>
      KeysOf(p, key);
      TakesCalm(key, value);
    case Port(number) =>
      PortCalm(number);
    case Holds(key, code) =>
      KeysOf(p, key);
      CodeKeyword(key);
      KeyPlain(key);
      HoldsSound(key, code);
      CalmPlain(Lexemes([Key(key), CodePiece(code)]));
    case Runs(query) =>
      RunsCalm(query);
    case Nests(key, entries) =>
      KeysOf(p, key);
      KeyPlain(key);
      KeySound(key);
      EntriesSound(entries, Opens(p, key).value);
      EntriesCalm(entries, Opens(p, key).value);
      CalmOne(KeyToken(key));
      BlockCalm(Key(key), AllPieces(entries));
    case Letter(name, entries) =>
      EntriesSound(entries, InLetter);
      EntriesCalm(entries, InLetter);
      LetterCalm(name, AllPieces(entries));
    case Field(name, properties) =>
      QuoteSound(name);
      PropertiesSound(properties);
      PropertiesCalm(properties);
      CalmOne(Lexeme(STRING, name));
      BlockCalm(Quote(name), AllProperties(properties));
    case Asked(params) =>
      AskedCalm(params);
    case Style(selector, declarations) =>
      QuoteSound(selector);
      PairsSound(declarations);
      PairsCalm(declarations);
      CalmOne(Lexeme(STRING, selector));
      BlockCalm(Quote(selector), AllPairs(declarations));
    case Css(text) =>
      CssSound(text);
      CalmOne(Lexeme(RAW_BLOCK, Stripped(text, true)));
  }

  lemma CodeKeyword(kind: TokenType)
    requires HasCode(kind)
    ensures IsKeyword(kind)
  {
  }

  lemma TakesCalm(key: TokenType, value: Value)
    requires IsKeyword(key) && key != SQL && key != CSS && ValidValue(value)
    ensures Calm(Lexemes([Key(key)] + [ValuePiece(value)]))
  {
    hide Sound, Lexemes, Calm, IsKeyword;
    KeyPlain(key);
    KeySound(key);
    ValueSound(value);
    Both([Key(key)], [ValuePiece(value)]);
    CalmOne(KeyToken(key));
    CalmPlain(Lexemes([ValuePiece(value)]));
    CalmConcat([KeyToken(key)], Lexemes([ValuePiece(value)]));
  }

  lemma PortCalm(number: string)
    requires number != "" && AllDigits(number)
    ensures Calm(Lexemes([Key(PORT)] + [Piece(Digits(number), " ")]))
  {
    hide Sound, Lexemes, Calm, IsKeyword, AllDigits;
    PlainKeys();
    KeyPlain(PORT);
    KeySound(PORT);
    DigitsSound(number);
    Both([Key(PORT)], [Piece(Digits(number), " ")]);
    CalmOne(KeyToken(PORT));
    CalmOne(Lexeme(NUMBER, number));
    CalmConcat([KeyToken(PORT)], [Lexeme(NUMBER, number)]);
  }

  lemma RunsCalm(query: Option<string>)
    requires query.Some? ==> QuoteText(query.value)
    ensures Calm(Lexemes([Key(EXECUTE_QUERY)] + [if query.Some? then Quote(query.value) else Key(DYNAMIC)]))
  {
    hide Sound, Lexemes, Calm, QuoteText, IsKeyword;
    PlainKeys();
    KeyPlain(EXECUTE_QUERY);
    KeyPlain(DYNAMIC);
    KeySound(EXECUTE_QUERY);
    KeySound(DYNAMIC);
    if query.Some? {
      QuoteSound(query.value);
    }
    var q := if query.Some? then Quote(query.value) else Key(DYNAMIC);
    Both([Key(EXECUTE_QUERY)], [q]);
    CalmOne(KeyToken(EXECUTE_QUERY));
    CalmPlain(Lexemes([q]));
    CalmConcat([KeyToken(EXECUTE_QUERY)], Lexemes([q]));
  }

  lemma LetterCalm(name: string, inner: seq<Piece>)
    requires QuoteText(name) && Sound(inner) && Calm(Lexemes(inner))
    ensures var ps := [Key(TEMPLATE)] + ([Quote(name), OPEN] + (inner + [CLOSE])); AllWritable(ps) && Calm(Lexemes(ps))
  {
    assert AllWritable(inner);
    hide Sound, Lexemes, Calm, QuoteText, IsKeyword;
    PlainKeys();
    KeyPlain(TEMPLATE);
    KeySound(TEMPLATE);
    QuoteSound(name);
    Braced(Quote(name), inner);
    Both([Key(TEMPLATE)], [Quote(name), OPEN] + (inner + [CLOSE]));
    CalmOne(Lexeme(STRING, name));
    BlockCalm(Quote(name), inner);
    CalmOne(KeyToken(TEMPLATE));
    CalmConcat([KeyToken(TEMPLATE)], Lexemes([Quote(name), OPEN] + (inner + [CLOSE])));
  }

  lemma AskedCalm(params: seq<string>)
    requires AllNames(params)
    ensures Calm(Lexemes(ParamPieces(params)))
  {
    hide Sound, Lexemes, Calm, ListedLexemes;
    ParamsSound(params);
    var t, u := Token(Word(PARAMS), " ", false), Lexeme(OPEN_BRACKET, "[");
    ListedCalm(params);
    CalmOne(u);
    CalmConcat([u], ListedLexemes(params));
    CalmOne(t);
    CalmConcat([t], [u] + ListedLexemes(params));
  }

  lemma {:induction false} EntriesCalm(es: seq<Entry>, p: Where)
    requires AllAllowed(es, p)
    ensures AllKeyed(es) && Calm(Lexemes(AllPieces(es)))
    decreases es
  {
    hide Sound, Lexemes, Calm;
    if es == [] {
      Nothing();
      CalmNothing();
    } else {
      EntrySound(es[0], p);
      EntriesSound(es[1..], p);
      EntryCalm(es[0], p);
      EntriesCalm(es[1..], p);
      Both(Pieces(es[0]), AllPieces(es[1..]));
      CalmConcat(Lexemes(Pieces(es[0])), Lexemes(AllPieces(es[1..])));
    }
  }

  /** The list an entry of a named block belongs to. */
  function NamedKind(p: Where): Option<D.Kind> {
    match p
    case InPage => Some(D.PageNode)
    case InLayout => Some(D.LayoutNode)
    case InApi => Some(D.ApiNode)
    case InQuery => Some(D.QueryNode)
    case InTransform => Some(D.TransformNode)
    case InScript => Some(D.ScriptNode)
    case InPartial => Some(D.PartialNode)
    case _ => None
  }

  /** The key that names a declaration of the kind. */
  function NamedBy(kind: D.Kind): TokenType {
    if kind == D.PageNode || kind == D.ApiNode then ROUTE else NAME
  }

  /** The node behind an entry. */
  function NodeAfter(node: D.Node, e: Entry): D.Node {
    if !e.Says? then node
    else if e.key == NamedBy(node.kind) then node.(name := e.text)
    else if node.kind == D.ApiNode && e.key == METHOD then node.(verb := e.text)
    else node
  }

  /** Tokens that are no keys of the declaration leave the scan of its insides alone. */
  lemma InsideBoth(node: D.Node, found: D.Found, t: Lexeme, u: Lexeme)
    requires node.kind != D.StyleNode && D.Plain(t.kind) && D.Plain(u.kind)
    requires !D.IsKey(node.kind, t.kind) && !D.IsKey(node.kind, u.kind)
    ensures D.ScanAll(D.Inside(node, found), [t, u]) == D.Inside(node, found)
  {
    var s := D.Inside(node, found);
    assert D.Step(s, t) == s && D.Step(s, u) == s;
    hide D.Step, D.ScanAll;
    assert [t, u] == [t] + [u];
    D.ScanConcat(s, [t], [u]);
    ScanOne(s, t);
    ScanOne(s, u);
  }

  lemma SaysInside(node: D.Node, found: D.Found, key: TokenType, text: string)
    requires node.kind != D.StyleNode && IsKeyword(key)
    ensures D.ScanAll(D.Inside(node, found), [KeyToken(key), Lexeme(STRING, text)])
      == D.Inside(NodeAfter(node, Says(key, text)), found)
  {
    var s, t, u := D.Inside(node, found), KeyToken(key), Lexeme(STRING, text);
    KeyPlain(key);
    if D.IsKey(node.kind, key) {
      D.NameSteps(s, t, u);
      assert D.Named(s, key, text) == D.Inside(NodeAfter(node, Says(key, text)), found);
      hide D.Step, D.ScanAll;
      assert [t, u] == [t] + [u];
      D.ScanConcat(s, [t], [u]);
      ScanOne(s, t);
      ScanOne(D.Step(s, t), u);
    } else {
      InsideBoth(node, found, t, u);
    }
  }

  lemma NestsInside(node: D.Node, found: D.Found, key: TokenType, inner: seq<Lexeme>)
    requires node.kind != D.StyleNode && IsKeyword(key) && !D.IsKey(node.kind, key) && Calm(inner)
    ensures D.ScanAll(D.Inside(node, found),
      [KeyToken(key)] + ([Lexeme(OPEN_BRACE, "{")] + (inner + [Lexeme(CLOSE_BRACE, "}")]))) == D.Inside(node, found)
  {
    var s, t := D.Inside(node, found), KeyToken(key);
    KeyPlain(key);
    assert D.Step(s, t) == s;
    hide D.Step, D.ScanAll, Calm, IsKeyword;
    D.ScanConcat(s, [t], [Lexeme(OPEN_BRACE, "{")] + (inner + [Lexeme(CLOSE_BRACE, "}")]));
    ScanOne(s, t);
    BracesScanned(s, inner);
  }

  lemma {:induction false} ListedInside(node: D.Node, found: D.Found, names: seq<string>)
    requires node.kind != D.StyleNode
    ensures D.ScanAll(D.Inside(node, found), ListedLexemes(names)) == D.Inside(node, found)
  {
    hide D.ScanAll;
    if names == [] {
      InsideOne(node, found, Lexeme(CLOSE_BRACKET, "]"));
    } else if |names| == 1 {
      InsideBoth(node, found, Lexeme(STRING, names[0]), Lexeme(CLOSE_BRACKET, "]"));
    } else {
      ListedInside(node, found, names[1..]);
      InsideBoth(node, found, Lexeme(STRING, names[0]), Lexeme(COMMA, ","));
      D.ScanConcat(D.Inside(node, found), [Lexeme(STRING, names[0]), Lexeme(COMMA, ",")], ListedLexemes(names[1..]));
    }
  }

  lemma InsideOne(node: D.Node, found: D.Found, t: Lexeme)
    requires node.kind != D.StyleNode && D.Plain(t.kind) && !D.IsKey(node.kind, t.kind)
    ensures D.ScanAll(D.Inside(node, found), [t]) == D.Inside(node, found)
  {
    ScanOne(D.Inside(node, found), t);
  }

  /** Which entries of a named block are keys of it. */
  lemma KeysInside(p: Where, key: TokenType)
    requires NamedKind(p).Some?
    ensures NamedKind(p).value != D.StyleNode
    ensures key in HoldsIn(p) || Opens(p, key).Some? || key == PARAMS ==> !D.IsKey(NamedKind(p).value, key)
    ensures !D.IsKey(NamedKind(p).value, STRING) && !D.IsKey(NamedKind(p).value, RAW_BLOCK)
  {
  }

  lemma AskedInside(node: D.Node, found: D.Found, params: seq<string>)
    requires node.kind == D.QueryNode && AllNames(params)
    ensures D.ScanAll(D.Inside(node, found), Lexemes(ParamPieces(params))) == D.Inside(node, found)
  {
    var s, t, u := D.Inside(node, found), Token(Word(PARAMS), " ", false), Lexeme(OPEN_BRACKET, "[");
    InsideBoth(node, found, t, u);
    hide D.ScanAll, ListedLexemes, Lexemes, Sound;
    ParamsSound(params);
    ListedInside(node, found, params);
    assert [t] + [u] == [t, u];
    Associates([t], [u], ListedLexemes(params));
    D.ScanConcat(s, [t] + [u], ListedLexemes(params));
  }

  lemma EntryInside(e: Entry, p: Where, node: D.Node, found: D.Found)
    requires Allowed(e, p) && NamedKind(p) == Some(node.kind)
    ensures Keyed(e) && D.ScanAll(D.Inside(node, found), Lexemes(Pieces(e))) == D.Inside(NodeAfter(node, e), found)
  {
    EntrySound(e, p);
    OnlyInNamed(e, p);
    hide Sound, Lexemes, Calm, QuoteText, SaysIn, TakesIn, HoldsIn, Opens, Balanced, IsKeyword, Stripped, D.ScanAll,
      D.IsKey, D.Inside, NamedKind;
    match e
    case Says(key, text) =>
      KeysOf(p, key);
      KeysInside(p, key);
      SaysSound(key, text);
      SaysInside(node, found, key, text);
    case Holds(key, code) =>
      KeysOf(p, key);
      KeysInside(p, key);
      CodeKeyword(key);
      KeyPlain(key);
      HoldsSound(key, code);
      var u := if code.InBraces? then Lexeme(RAW_BLOCK, Stripped(code.text, true)) else Lexeme(STRING, code.text);
      InsideBoth(node, found, KeyToken(key), u);
    case Nests(key, entries) =>
      KeysOf(p, key);
      KeysInside(p, key);
      KeySound(key);
      EntriesSound(entries, Opens(p, key).value);
      EntriesCalm(entries, Opens(p, key).value);
      BracedLexemes(Key(key), AllPieces(entries));
      NestsInside(node, found, key, Lexemes(AllPieces(entries)));
    case Asked(params) =>
      AskedInside(node, found, params);
    case _ =>
  }

  lemma OnlyInNamed(e: Entry, p: Where)
    requires Allowed(e, p) && NamedKind(p).Some?
    ensures e.Says? || e.Holds? || e.Nests? || (e.Asked? && NamedKind(p) == Some(D.QueryNode))
  {
  }

  function NodeAfterAll(node: D.Node, es: seq<Entry>): D.Node
    decreases |es|
  {
    if es == [] then node else NodeAfterAll(NodeAfter(node, es[0]), es[1..])
  }

  lemma {:induction false} EntriesInside(es: seq<Entry>, p: Where, node: D.Node, found: D.Found)
    requires AllAllowed(es, p) && NamedKind(p) == Some(node.kind)
    ensures AllKeyed(es)
    ensures D.ScanAll(D.Inside(node, found), Lexemes(AllPieces(es))) == D.Inside(NodeAfterAll(node, es), found)
    decreases |es|
  {
    hide Sound, Lexemes, D.ScanAll, D.Inside, NamedKind;
    if es == [] {
      Nothing();
      ScanOne(D.Inside(node, found), Lexeme(EOF, ""));
    } else {
      EntrySound(es[0], p);
      EntriesSound(es[1..], p);
      Both(Pieces(es[0]), AllPieces(es[1..]));
      EntryInside(es[0], p, node, found);
      EntriesInside(es[1..], p, NodeAfter(node, es[0]), found);
      D.ScanConcat(D.Inside(node, found), Lexemes(Pieces(es[0])), Lexemes(AllPieces(es[1..])));
    }
  }

  lemma {:induction false} NodeSaid(node: D.Node, es: seq<Entry>)
    ensures var r := NodeAfterAll(node, es);
      && r.kind == node.kind && r.name == Said(es, NamedBy(node.kind), node.name)
      && r.verb == (if node.kind == D.ApiNode then Said(es, METHOD, node.verb) else node.verb)
    decreases |es|
  {
    if es != [] {
      NodeSaid(NodeAfter(node, es[0]), es[1..]);
    }
  }

  // ---------- styles ----------

  lemma {:induction false} StylesInside(es: seq<Entry>, found: D.Found)
    requires AllAllowed(es, InStyles)
    ensures AllKeyed(es)
    ensures D.ScanAll(D.InStyles(found), Lexemes(AllPieces(es)))
      == D.InStyles(found.(nodes := found.nodes + StyleNodes(es)))
    decreases |es|
  {
    hide Sound, Lexemes, D.ScanAll, D.InStyles;
    if es == [] {
      Nothing();
      ScanOne(D.InStyles(found), Lexeme(EOF, ""));
      assert found.nodes + [] == found.nodes;
    } else {
      EntrySound(es[0], InStyles);
      EntriesSound(es[1..], InStyles);
      Both(Pieces(es[0]), AllPieces(es[1..]));
      var more := StyleNodes([es[0]]);
      StyleInside(es[0], found);
      var next := found.(nodes := found.nodes + more);
      StylesInside(es[1..], next);
      Associates(found.nodes, more, StyleNodes(es[1..]));
      StyleNodesFirst(es);
      D.ScanConcat(D.InStyles(found), Lexemes(Pieces(es[0])), Lexemes(AllPieces(es[1..])));
    }
  }

  lemma StyleNodesFirst(es: seq<Entry>)
    requires es != []
    ensures StyleNodes(es) == StyleNodes([es[0]]) + StyleNodes(es[1..])
  {
    assert [es[0]][1..] == [];
  }

  lemma StyleInside(e: Entry, found: D.Found)
    requires Allowed(e, InStyles)
    ensures Keyed(e)
    ensures D.ScanAll(D.InStyles(found), Lexemes(Pieces(e)))
      == D.InStyles(found.(nodes := found.nodes + StyleNodes([e])))
  {
    assert e.Style? || e.Css?;
    assert [e][1..] == [];
    if e.Style? {
      var t := Lexeme(STRING, e.selector);
      var next := D.With(found, D.Node(D.StyleNode, e.selector, ""));
      assert found.nodes + StyleNodes([e]) == next.nodes;
      hide Sound, Lexemes, D.ScanAll, QuoteText, Calm, D.Step, StyleNodes;
      QuoteSound(e.selector);
      PairsSound(e.declarations);
      PairsCalm(e.declarations);
      BracedLexemes(Quote(e.selector), AllPairs(e.declarations));
      D.StyleStep(found, t);
      ScanOne(D.InStyles(found), t);
      BracesScanned(D.InStyles(next), Lexemes(AllPairs(e.declarations)));
      D.ScanConcat(D.InStyles(found), [t],
        [Lexeme(OPEN_BRACE, "{")] + (Lexemes(AllPairs(e.declarations)) + [Lexeme(CLOSE_BRACE, "}")]));
    } else {
      var t := Lexeme(RAW_BLOCK, Stripped(e.text, true));
      hide Sound, Lexemes, D.ScanAll, D.Step, Balanced, Stripped;
      CssSound(e.text);
      D.StyleStep(found, t);
      ScanOne(D.InStyles(found), t);
    }
  }

  // ---------- declarations and settings ----------

  /** Behind a keyword outside all braces, and behind the brace after it. */
  lemma TopOpens(found: D.Found, t: Lexeme, p: Where)
    requires Opens(OfDeclarations, t.kind) == Some(p)
    ensures var s := D.Step(D.Step(D.Idle(found), t), Lexeme(OPEN_BRACE, "{"));
      && (NamedKind(p).Some? ==> s == D.Inside(D.Node(NamedKind(p).value, "", ""), found))
      && (p == InStyles ==> s == D.InStyles(found))
      && (NamedKind(p).None? && p != InStyles ==> D.Step(D.Idle(found), t) == D.Idle(found))
  {
  }

  lemma TopCloses(found: D.Found, node: D.Node, t: Lexeme)
    requires t.kind == CLOSE_BRACE
    ensures D.Step(D.InStyles(found), t) == D.Idle(found)
    ensures node.kind != D.StyleNode ==> D.Step(D.Inside(node, found), t) == D.Idle(D.With(found, node))
  {
  }

  /** Keyword, brace, inside and closing brace, one step after the other. */
  lemma ScanBlock(s: D.Scan, t: Lexeme, u: Lexeme, inner: seq<Lexeme>, v: Lexeme)
    ensures D.ScanAll(s, [t] + ([u] + (inner + [v])))
      == D.Step(D.ScanAll(D.Step(D.Step(s, t), u), inner), v)
  {
    hide D.Step, D.ScanAll;
    D.ScanConcat(s, [t], [u] + (inner + [v]));
    ScanOne(s, t);
    D.ScanConcat(D.Step(s, t), [u], inner + [v]);
    ScanOne(D.Step(s, t), u);
    D.ScanConcat(D.Step(D.Step(s, t), u), inner, [v]);
    ScanOne(D.ScanAll(D.Step(D.Step(s, t), u), inner), v);
  }

  /** Somewhere outside all braces, a block that declares nothing. */
  lemma QuietBlock(found: D.Found, t: Lexeme, inner: seq<Lexeme>)
    requires D.Step(D.Idle(found), t) == D.Idle(found) && Calm(inner)
    ensures D.ScanAll(D.Idle(found), [t] + ([Lexeme(OPEN_BRACE, "{")] + (inner + [Lexeme(CLOSE_BRACE, "}")])))
      == D.Idle(found)
  {
    var u, v := Lexeme(OPEN_BRACE, "{"), Lexeme(CLOSE_BRACE, "}");
    var deep := D.Idle(found).(depth := 1);
    assert D.Step(D.Idle(found), u) == deep && D.Step(deep, v) == D.Idle(found) && D.Quiet(deep);
    assert D.ScanAll(deep, inner) == deep;
    hide D.Step, D.ScanAll, Calm;
    ScanBlock(D.Idle(found), t, u, inner, v);
  }

  lemma NodesIs(e: Entry, p: Where)
    requires e.Nests? && Opens(OfDeclarations, e.key) == Some(p)
    ensures p == InStyles ==> NodesOf(e) == StyleNodes(e.entries)
    ensures NamedKind(p).None? && p != InStyles ==> NodesOf(e) == []
    ensures NamedKind(p).Some? ==> NodesOf(e) == [NodeAfterAll(D.Node(NamedKind(p).value, "", ""), e.entries)]
  {
    if NamedKind(p).Some? {
      NodeSaid(D.Node(NamedKind(p).value, "", ""), e.entries);
    }
  }

  lemma DeclarationScanned(e: Entry, found: D.Found)
    requires Allowed(e, OfDeclarations)
    ensures Keyed(e)
    ensures D.ScanAll(D.Idle(found), Lexemes(Pieces(e))) == D.Idle(found.(nodes := found.nodes + NodesOf(e)))
  {
    EntrySound(e, OfDeclarations);
    assert e.Nests? && Opens(OfDeclarations, e.key).Some?;
    var p, t := Opens(OfDeclarations, e.key).value, KeyToken(e.key);
    assert AllAllowed(e.entries, p);
    KeysOf(OfDeclarations, e.key);
    KeyPlain(e.key);
    TopOpens(found, t, p);
    NodesIs(e, p);
    hide Sound, Lexemes, D.ScanAll, D.Step, NodesOf, StyleNodes, NamedKind, Opens, IsKeyword, Calm, D.Inside,
      D.InStyles;
    KeySound(e.key);
    EntriesSound(e.entries, p);
    EntriesCalm(e.entries, p);
    BracedLexemes(Key(e.key), AllPieces(e.entries));
    var inner, close := Lexemes(AllPieces(e.entries)), Lexeme(CLOSE_BRACE, "}");
    ScanBlock(D.Idle(found), t, Lexeme(OPEN_BRACE, "{"), inner, close);
    if NamedKind(p).Some? {
      var node := D.Node(NamedKind(p).value, "", "");
      KeysInside(p, e.key);
      EntriesInside(e.entries, p, node, found);
      NodeSaid(node, e.entries);
      TopCloses(found, NodeAfterAll(node, e.entries), close);
    } else if p == InStyles {
      StylesInside(e.entries, found);
      TopCloses(found.(nodes := found.nodes + StyleNodes(e.entries)), D.Node(D.PageNode, "", ""), close);
    } else {
      QuietBlock(found, t, inner);
      assert found.nodes + [] == found.nodes;
    }
  }

  lemma {:induction false} DeclarationsScanned(es: seq<Entry>, found: D.Found)
    requires AllAllowed(es, OfDeclarations)
    ensures AllKeyed(es)
    ensures D.ScanAll(D.Idle(found), Lexemes(AllPieces(es))) == D.Idle(found.(nodes := found.nodes + AllNodes(es)))
    decreases |es|
  {
    hide Sound, Lexemes, D.ScanAll, NodesOf;
    if es == [] {
      Nothing();
      ScanOne(D.Idle(found), Lexeme(EOF, ""));
      assert found.nodes + [] == found.nodes;
    } else {
      EntrySound(es[0], OfDeclarations);
      EntriesSound(es[1..], OfDeclarations);
      Both(Pieces(es[0]), AllPieces(es[1..]));
      DeclarationScanned(es[0], found);
      var next := found.(nodes := found.nodes + NodesOf(es[0]));
      DeclarationsScanned(es[1..], next);
      Associates(found.nodes, NodesOf(es[0]), AllNodes(es[1..]));
      D.ScanConcat(D.Idle(found), Lexemes(Pieces(es[0])), Lexemes(AllPieces(es[1..])));
    }
  }

  /** A setting: its keyword, and what stands behind it. */
  lemma SettingSteps(found: D.Found, t: Lexeme, u: Lexeme)
    requires t.kind in SaysIn(AtTop) || t.kind == PORT
    requires u.kind == STRING || u.kind == ENV_VAR || u.kind == NUMBER
    requires t.kind == INCLUDE ==> u.kind == STRING
    ensures D.ScanAll(D.Idle(found), [t, u])
      == D.Idle(found.(paths := found.paths + if t.kind == INCLUDE then [u.text] else []))
  {
    var s := D.Idle(found);
    assert found.paths + [] == found.paths;
    assert D.Step(D.Step(s, t), u) == D.Idle(found.(paths := found.paths + if t.kind == INCLUDE then [u.text] else []));
    hide D.Step, D.ScanAll;
    assert [t, u] == [t] + [u];
    D.ScanConcat(s, [t], [u]);
    ScanOne(s, t);
    ScanOne(D.Step(s, t), u);
  }

  function PathOf(e: Entry): seq<string> {
    if e.Says? && e.key == INCLUDE then [e.text] else []
  }

  lemma SettingScanned(e: Entry, found: D.Found)
    requires Allowed(e, AtTop)
    ensures Keyed(e)
    ensures D.ScanAll(D.Idle(found), Lexemes(Pieces(e))) == D.Idle(found.(paths := found.paths + PathOf(e)))
  {
    EntrySound(e, AtTop);
    assert found.paths + [] == found.paths;
    assert e.Says? || e.Takes? || e.Port? || (e.Nests? && e.key == AUTH && AllAllowed(e.entries, InAuth));
    if e.Says? {
      KeysOf(AtTop, e.key);
      KeyPlain(e.key);
      SettingSteps(found, KeyToken(e.key), Lexeme(STRING, e.text));
      hide Sound, Lexemes, D.ScanAll, QuoteText, IsKeyword;
      SaysSound(e.key, e.text);
    } else if e.Takes? {
      var u := if e.value.Literal? then Lexeme(STRING, e.value.text) else Lexeme(ENV_VAR, "$" + e.value.word);
      KeysOf(AtTop, e.key);
      KeyPlain(e.key);
      SettingSteps(found, KeyToken(e.key), u);
      hide Sound, Lexemes, D.ScanAll, IsKeyword;
      KeySound(e.key);
      ValueSound(e.value);
      Both([Key(e.key)], [ValuePiece(e.value)]);
      assert [KeyToken(e.key)] + [u] == [KeyToken(e.key), u];
    } else if e.Port? {
      PlainKeys();
      KeyPlain(PORT);
      SettingSteps(found, KeyToken(PORT), Lexeme(NUMBER, e.number));
      hide Sound, Lexemes, D.ScanAll, IsKeyword, AllDigits;
      KeySound(PORT);
      DigitsSound(e.number);
      Both([Key(PORT)], [Piece(Digits(e.number), " ")]);
      assert [KeyToken(PORT)] + [Lexeme(NUMBER, e.number)] == [KeyToken(PORT), Lexeme(NUMBER, e.number)];
    } else {
      KeyPlain(AUTH);
      TopOpens(found, KeyToken(AUTH), InAuth);
      hide Sound, Lexemes, D.ScanAll, IsKeyword, Calm, D.Step;
      KeySound(AUTH);
      EntriesSound(e.entries, InAuth);
      EntriesCalm(e.entries, InAuth);
      BracedLexemes(Key(AUTH), AllPieces(e.entries));
      QuietBlock(found, KeyToken(AUTH), Lexemes(AllPieces(e.entries)));
    }
  }

  lemma {:induction false} SettingsScanned(es: seq<Entry>, found: D.Found)
    requires AllAllowed(es, AtTop)
    ensures AllKeyed(es)
    ensures D.ScanAll(D.Idle(found), Lexemes(AllPieces(es))) == D.Idle(found.(paths := found.paths + PathsOf(es)))
    decreases |es|
  {
    hide Sound, Lexemes, D.ScanAll;
    if es == [] {
      Nothing();
      ScanOne(D.Idle(found), Lexeme(EOF, ""));
      assert found.paths + [] == found.paths;
    } else {
      EntrySound(es[0], AtTop);
      EntriesSound(es[1..], AtTop);
      Both(Pieces(es[0]), AllPieces(es[1..]));
      SettingScanned(es[0], found);
      var next := found.(paths := found.paths + PathOf(es[0]));
      SettingsScanned(es[1..], next);
      Associates(found.paths, PathOf(es[0]), PathsOf(es[1..]));
      D.ScanConcat(D.Idle(found), Lexemes(Pieces(es[0])), Lexemes(AllPieces(es[1..])));
    }
  }
}
