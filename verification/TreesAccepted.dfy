/** The grammar accepts the text of every tree: each entry leads the stack to where the next
    one is expected. */
module TreesAccepted {
  import opened CStrings
  import opened Options
  import opened RawText
  import opened Lexical
  import opened TokenPrinting
  import opened TextPieces
  import opened WebsiteTrees
  import G = Grammar

  // ---------- the stack of the grammar over a list of tokens ----------

  function Feed(s: G.Stack, ts: seq<Lexeme>): G.Stack
    decreases |ts|
  {
    if ts == [] then s else Feed(G.Shift(s, ts[0]), ts[1..])
  }

  lemma {:induction false} FeedConcat(s: G.Stack, a: seq<Lexeme>, b: seq<Lexeme>)
    ensures Feed(s, a + b) == Feed(Feed(s, a), b)
    decreases |a|
  {
    hide G.Shift;
    if a == [] {
      assert a + b == b;
    } else {
      assert (a + b)[1..] == a[1..] + b;
      FeedConcat(G.Shift(s, a[0]), a[1..], b);
    }
  }

  lemma FeedOne(s: G.Stack, t: Lexeme)
    ensures Feed(s, [t]) == G.Shift(s, t)
  {
    assert [t][1..] == [];
  }

  lemma {:induction false} FedIsFeed(start: G.Stack, s: string, n: nat)
    ensures G.Fed(start, s, n) == Feed(start, Tokens(s, 0, n))
  {
    hide G.Shift, Nth;
    if n > 0 {
      FedIsFeed(start, s, n - 1);
      FeedConcat(start, Tokens(s, 0, n - 1), [Nth(s, n - 1)]);
      FeedOne(Feed(start, Tokens(s, 0, n - 1)), Nth(s, n - 1));
    }
  }

  // ---------- every tree is accepted ----------

  /** What the grammar expects where entries stand. */
  function Expects(p: Where): G.Item {
    match p
    case AtTop => G.Settings
    case OfDeclarations => G.Declarations
    case InPage => G.Page
    case InLayout => G.Layout
    case InApi => G.Api
    case InQuery => G.Query
    case InTransform => G.Coded(JQ)
    case InScript => G.Coded(LUA)
    case InPartial => G.Partial(false, false)
    case InResponse => G.Response(false)
    case InSteps => G.Steps
    case InFields => G.Fields
    case InStyles => G.Styles
    case InAuth => G.Auth
    case InGithub => G.Github
    case InEmail => G.Email
    case InSendGrid => G.SendGrid
    case InLetter => G.EmailText
  }

  /** Among the entries of a block the grammar may be at these places. */
  predicate Among(p: Where, it: G.Item) {
    || it == Expects(p)
    || (p == OfDeclarations && (it == G.Content || it == G.Settings))
    || (p == InPartial && it.Partial?)
    || (p == InResponse && it.Response?)
  }

  /** The place behind an entry. */
  function After(it: G.Item, e: Entry): G.Item {
    match it
    case Partial(named, template) => G.Partial(named || e.Says?, template || e.Holds?)
    case Response(redirect) => G.Response(redirect || e.Says?)
    case Settings => if e.Nests? && e.key != AUTH then G.Declarations else it
    case _ => it
  }

  function AfterAll(it: G.Item, es: seq<Entry>): G.Item
    decreases |es|
  {
    if es == [] then it else AfterAll(After(it, es[0]), es[1..])
  }

  lemma SaysFed(p: Where, it: G.Item, rest: G.Stack, e: Entry, t: Lexeme, u: Lexeme)
    requires e.Says? && e.key in SaysIn(p) && Among(p, it) && t.kind == e.key && u.kind == STRING
    ensures G.Shift(G.Shift(G.Push(it, rest), t), u) == G.Push(After(it, e), rest)
  {
  }

  lemma TakesFed(p: Where, it: G.Item, rest: G.Stack, e: Entry, t: Lexeme, u: Lexeme)
    requires e.Takes? && e.key in TakesIn(p) && Among(p, it) && t.kind == e.key
    requires u.kind == STRING || u.kind == ENV_VAR
    ensures G.Shift(G.Shift(G.Push(it, rest), t), u) == G.Push(After(it, e), rest)
  {
  }

  lemma HoldsFed(p: Where, it: G.Item, rest: G.Stack, e: Entry, t: Lexeme, u: Lexeme)
    requires e.Holds? && e.key in HoldsIn(p) && Among(p, it) && t.kind == e.key
    requires u.kind == STRING || u.kind == RAW_BLOCK
    requires it != G.Response(true)
    ensures G.Shift(G.Shift(G.Push(it, rest), t), u) == G.Push(After(it, e), rest)
  {
  }

  /** A keyword that opens a block, and its brace. */
  lemma NestsFed(p: Where, it: G.Item, rest: G.Stack, e: Entry, t: Lexeme, u: Lexeme)
    requires e.Nests? && Opens(p, e.key).Some? && Among(p, it) && t.kind == e.key && u.kind == OPEN_BRACE
    ensures G.Shift(G.Shift(G.Push(it, rest), t), u)
      == G.Push(Expects(Opens(p, e.key).value), G.Push(After(it, e), rest))
  {
  }

  lemma FeedTwo(s: G.Stack, t: Lexeme, u: Lexeme)
    ensures Feed(s, [t, u]) == G.Shift(G.Shift(s, t), u)
  {
    assert [t, u] == [t] + [u];
    FeedConcat(s, [t], [u]);
    FeedOne(s, t);
    FeedOne(G.Shift(s, t), u);
  }

  /** The name of a field, or of a letter, and the brace behind it. */
  lemma NamedBlocks(rest: G.Stack, t: Lexeme, u: Lexeme, v: Lexeme)
    requires u.kind == STRING && v.kind == OPEN_BRACE
    ensures G.Shift(G.Shift(G.Push(G.Fields, rest), u), v) == G.Push(G.Properties, G.Push(G.Fields, rest))
    ensures G.Shift(G.Shift(G.Push(G.Styles, rest), u), v) == G.Push(G.StyleBody, G.Push(G.Styles, rest))
    ensures t.kind == TEMPLATE ==>
      G.Shift(G.Shift(G.Shift(G.Push(G.Email, rest), t), u), v) == G.Push(G.EmailText, G.Push(G.Email, rest))
  {
  }

  lemma ClosesBlock(it: G.Item, rest: G.Stack, t: Lexeme)
    requires t.kind == CLOSE_BRACE && !G.Leaf(it) && G.Closes(it)
    ensures G.Shift(G.Push(it, rest), t) == rest
  {
  }

  lemma PropertyFed(p: Property, rest: G.Stack)
    requires ValidProperty(p)
    ensures Feed(G.Push(G.Properties, rest), PropertyLexemes(p)) == G.Push(G.Properties, rest)
  {
    hide QuoteText;
    match p
    case Asks(name, text) => FeedTwo(G.Push(G.Properties, rest), Lexeme(STRING, name), Lexeme(STRING, text));
    case Bounds(name, low, high) =>
      FeedTwo(G.Push(G.Properties, rest), Lexeme(STRING, name), Lexeme(RANGE, low + ".." + high));
    case Flag(name) => FeedOne(G.Push(G.Properties, rest), Lexeme(STRING, name));
  }

  lemma {:induction false} PropertiesFed(ps: seq<Property>, rest: G.Stack)
    requires forall i :: 0 <= i < |ps| ==> ValidProperty(ps[i])
    ensures Feed(G.Push(G.Properties, rest), Lexemes(AllProperties(ps))) == G.Push(G.Properties, rest)
  {
    hide Sound, Lexemes, Feed, ValidProperty;
    if ps == [] {
      Nothing();
      FeedNothing(G.Push(G.Properties, rest));
    } else {
      PropertySound(ps[0]);
      PropertiesSound(ps[1..]);
      Both(PropertyPieces(ps[0]), AllProperties(ps[1..]));
      FeedConcat(G.Push(G.Properties, rest), Lexemes(PropertyPieces(ps[0])), Lexemes(AllProperties(ps[1..])));
      PropertyFed(ps[0], rest);
      PropertiesFed(ps[1..], rest);
    }
  }

  lemma FeedNothing(s: G.Stack)
    ensures Feed(s, []) == s
  {
  }

  /** The declarations of a style: the first leads from the body to the list of the rest. */
  lemma {:induction false} PairsFed(ds: seq<(string, string)>, it: G.Item, rest: G.Stack)
    requires forall i :: 0 <= i < |ds| ==> QuoteText(ds[i].0) && QuoteText(ds[i].1)
    requires it == G.StyleBody || it == G.StyleProps
    ensures var r := Feed(G.Push(it, rest), Lexemes(AllPairs(ds)));
      r == G.Push(G.StyleBody, rest) || r == G.Push(G.StyleProps, rest)
  {
    hide Sound, Lexemes, Feed, QuoteText, G.Shift;
    if ds == [] {
      Nothing();
      FeedNothing(G.Push(it, rest));
    } else {
      var a, b := ds[0].0, ds[0].1;
      QuoteSound(a);
      QuoteSound(b);
      PairsSound(ds[1..]);
      Both([Quote(b)], AllPairs(ds[1..]));
      Both([Quote(a)], [Quote(b)] + AllPairs(ds[1..]));
      var s := G.Push(it, rest);
      FeedConcat(s, [Lexeme(STRING, a)], [Lexeme(STRING, b)] + Lexemes(AllPairs(ds[1..])));
      FeedConcat(Feed(s, [Lexeme(STRING, a)]), [Lexeme(STRING, b)], Lexemes(AllPairs(ds[1..])));
      FeedOne(s, Lexeme(STRING, a));
      FeedOne(Feed(s, [Lexeme(STRING, a)]), Lexeme(STRING, b));
      PairFed(it, rest, Lexeme(STRING, a), Lexeme(STRING, b));
      PairsFed(ds[1..], G.StyleProps, rest);
    }
  }

  lemma PairFed(it: G.Item, rest: G.Stack, t: Lexeme, u: Lexeme)
    requires (it == G.StyleBody || it == G.StyleProps) && t.kind == STRING && u.kind == STRING
    ensures G.Shift(G.Shift(G.Push(it, rest), t), u) == G.Push(G.StyleProps, rest)
  {
  }

  lemma ListFed(rest: G.Stack, t: Lexeme, u: Lexeme)
    requires t.kind == STRING
    ensures u.kind == CLOSE_BRACKET ==> G.Shift(G.Push(G.Params, rest), u) == rest
    ensures u.kind == CLOSE_BRACKET ==> G.Shift(G.Shift(G.Push(G.Params, rest), t), u) == rest
    ensures u.kind == COMMA ==> G.Shift(G.Shift(G.Push(G.Params, rest), t), u) == G.Push(G.Params, rest)
  {
  }

  lemma {:induction false} ListedFed(names: seq<string>, rest: G.Stack)
    ensures Feed(G.Push(G.Params, rest), ListedLexemes(names)) == rest
  {
    hide Feed, G.Shift;
    var s := G.Push(G.Params, rest);
    if names == [] {
      FeedOne(s, Lexeme(CLOSE_BRACKET, "]"));
      ListFed(rest, Lexeme(STRING, ""), Lexeme(CLOSE_BRACKET, "]"));
    } else if |names| == 1 {
      FeedTwo(s, Lexeme(STRING, names[0]), Lexeme(CLOSE_BRACKET, "]"));
      ListFed(rest, Lexeme(STRING, names[0]), Lexeme(CLOSE_BRACKET, "]"));
    } else {
      FeedConcat(s, [Lexeme(STRING, names[0]), Lexeme(COMMA, ",")], ListedLexemes(names[1..]));
      FeedTwo(s, Lexeme(STRING, names[0]), Lexeme(COMMA, ","));
      ListFed(rest, Lexeme(STRING, names[0]), Lexeme(COMMA, ","));
      ListedFed(names[1..], rest);
    }
  }

  lemma ParamsFed(rest: G.Stack, t: Lexeme, names: seq<string>)
    requires t.kind == PARAMS
    ensures Feed(G.Push(G.Query, rest), [t] + ([Lexeme(OPEN_BRACKET, "[")] + ListedLexemes(names)))
      == G.Push(G.Query, rest)
  {
    var s, u := G.Push(G.Query, rest), Lexeme(OPEN_BRACKET, "[");
    assert G.Shift(G.Shift(s, t), u) == G.Push(G.Params, s);
    hide Feed, G.Shift, ListedLexemes;
    Associates([t], [u], ListedLexemes(names));
    FeedConcat(s, [t] + [u], ListedLexemes(names));
    assert [t] + [u] == [t, u];
    FeedTwo(s, t, u);
    ListedFed(names, s);
  }

  /** Other entries of one or two tokens. */
  lemma ShortFed(rest: G.Stack, t: Lexeme, u: Lexeme)
    ensures t.kind == PORT && u.kind == NUMBER && G.ValidPort(u.text) ==>
      G.Shift(G.Shift(G.Push(G.Settings, rest), t), u) == G.Push(G.Settings, rest)
    ensures t.kind == EXECUTE_QUERY && (u.kind == STRING || u.kind == DYNAMIC) ==>
      G.Shift(G.Shift(G.Push(G.Steps, rest), t), u) == G.Push(G.Steps, rest)
    ensures t.kind == RAW_BLOCK ==> G.Shift(G.Push(G.Styles, rest), t) == G.Push(G.Styles, rest)
  {
    hide G.ValidPort;
  }

  lemma AmongAfter(p: Where, it: G.Item, e: Entry)
    requires Among(p, it) && (p == AtTop && e.Nests? ==> e.key == AUTH)
    ensures Among(p, After(it, e)) && !G.Leaf(it)
    ensures p != InPartial && p != InResponse && !(e.Nests? && it == G.Settings) ==> After(it, e) == it
  {
  }

  /** Something in braces, fed to the grammar. */
  lemma BracedFed(start: G.Stack, inner: G.Item, last: G.Item, rest: G.Stack, head: seq<Piece>, body: seq<Piece>)
    requires Sound(head) && Sound(body) && Feed(start, Lexemes(head)) == G.Push(inner, rest)
    requires Feed(G.Push(inner, rest), Lexemes(body)) == G.Push(last, rest)
    requires !G.Leaf(last) && G.Closes(last)
    ensures AllWritable(head + (body + [CLOSE])) && Feed(start, Lexemes(head + (body + [CLOSE]))) == rest
  {
    assert AllWritable(head) && AllWritable(body);
    hide Sound, Lexemes, Feed, G.Leaf, G.Closes;
    CloseSound();
    Both(body, [CLOSE]);
    Both(head, body + [CLOSE]);
    var t := Lexeme(CLOSE_BRACE, "}");
    FeedConcat(start, Lexemes(head), Lexemes(body) + [t]);
    FeedConcat(G.Push(inner, rest), Lexemes(body), [t]);
    FeedOne(G.Push(last, rest), t);
    ClosesBlock(last, rest, t);
  }

  /** In a response no template stands behind a redirect, also not behind those before. */
  predicate InOrder(es: seq<Entry>, p: Where, it: G.Item) {
    p == InResponse ==>
      && (it == G.Response(true) ==> forall i :: 0 <= i < |es| ==> !es[i].Holds?)
      && forall i, j :: 0 <= i < j < |es| && es[i].Says? ==> !es[j].Holds?
  }

  lemma OrderRest(es: seq<Entry>, p: Where, it: G.Item)
    requires es != [] && Among(p, it) && InOrder(es, p, it)
    ensures InOrder(es[1..], p, After(it, es[0])) && (it == G.Response(true) ==> !es[0].Holds?)
  {
    assert forall i :: 0 <= i < |es[1..]| ==> es[1..][i] == es[i + 1];
  }

  /** Where the entries lead, and that a block may end there. */
  lemma {:induction false} AfterAllAmong(es: seq<Entry>, p: Where, it: G.Item)
    requires AllAllowed(es, p) && Among(p, it)
    ensures Among(p, AfterAll(it, es)) && !G.Leaf(AfterAll(it, es))
    ensures p == InPartial ==> it.Partial?
    ensures p == InPartial ==> AfterAll(it, es) == G.Partial(it.named || AnySays(es), it.template || AnyHolds(es))
    decreases |es|
  {
    hide Among, After, G.Leaf;
    if es == [] {
      AmongAfter(p, it, Css(""));
      PartialIs(p, it);
    } else {
      TopAuth(es[0], p);
      AmongAfter(p, it, es[0]);
      AfterAllAmong(es[1..], p, After(it, es[0]));
      if p == InPartial {
        PartialIs(p, it);
        PartialAfter(it, es[0]);
        var rest := es[1..];
        assert forall i :: 0 <= i < |rest| ==> rest[i] == es[i + 1];
        assert AnySays(es) <==> es[0].Says? || AnySays(rest);
        assert AnyHolds(es) <==> es[0].Holds? || AnyHolds(rest);
      }
    }
  }

  lemma PartialIs(p: Where, it: G.Item)
    ensures Among(p, it) && p == InPartial ==> it.Partial?
  {
  }

  lemma PartialAfter(it: G.Item, e: Entry)
    requires it.Partial?
    ensures After(it, e) == G.Partial(it.named || e.Says?, it.template || e.Holds?)
  {
  }

  lemma TopAuth(e: Entry, p: Where)
    requires Allowed(e, p)
    ensures p == AtTop && e.Nests? ==> e.key == AUTH
  {
  }

  lemma BlockCloses(es: seq<Entry>, p: Where)
    requires AllAllowed(es, p) && Complete(es, p)
    ensures G.Closes(AfterAll(Expects(p), es)) && !G.Leaf(AfterAll(Expects(p), es))
  {
    hide AfterAll;
    AfterAllAmong(es, p, Expects(p));
  }

  lemma {:induction false} EntryFed(e: Entry, p: Where, it: G.Item, rest: G.Stack)
    requires Allowed(e, p) && Among(p, it) && (it == G.Response(true) ==> !e.Holds?)
    ensures Keyed(e) && Feed(G.Push(it, rest), Lexemes(Pieces(e))) == G.Push(After(it, e), rest)
    decreases e
  {
    EntrySound(e, p);
    var s := G.Push(it, rest);
    hide Sound, Lexemes, QuoteText, SaysIn, TakesIn, HoldsIn, Opens, ValidValue, Balanced, IsKeyword, Feed, G.Shift,
      Among, After, Stripped, AllDigits;
    match e
    case Says(key, text) =>
      KeysOf(p, key);
      SaysSound(key, text);
      FeedTwo(s, KeyToken(key), Lexeme(STRING, text));
      SaysFed(p, it, rest, e, KeyToken(key), Lexeme(STRING, text));
    case Takes(key, value) =>
      TakesEntry(e, p, it, rest);
    case Port(number) =>
      PortEntry(e, p, it, rest);
    case Holds(key, code) =>
      KeysOf(p, key);
      HoldsSound(key, code);
      var u := if code.InBraces? then Lexeme(RAW_BLOCK, Stripped(code.text, true)) else Lexeme(STRING, code.text);
      FeedTwo(s, KeyToken(key), u);
      HoldsFed(p, it, rest, e, KeyToken(key), u);
    case Runs(query) =>
      RunsEntry(e, p, it, rest);
    case Nests(key, entries) =>
      NestsHead(e, p, it, rest);
      var q := Opens(p, key).value;
      EntriesSound(entries, q);
      StartsOrdered(entries, q);
      EntriesFed(entries, q, Expects(q), G.Push(After(it, e), rest));
      BlockCloses(entries, q);
      BracedFed(s, Expects(q), AfterAll(Expects(q), entries), G.Push(After(it, e), rest), [Key(key), OPEN],
        AllPieces(entries));
    case Letter(name, entries) =>
      LetterHead(e, p, it, rest);
      EntriesSound(entries, InLetter);
      StartsOrdered(entries, InLetter);
      EntriesFed(entries, InLetter, Expects(InLetter), s);
      LetterCloses(entries);
      var head := [Key(TEMPLATE)] + [Quote(name), OPEN];
      BracedFed(s, Expects(InLetter), AfterAll(Expects(InLetter), entries), s, head, AllPieces(entries));
      Associates([Key(TEMPLATE)], [Quote(name), OPEN], AllPieces(entries) + [CLOSE]);
    case Field(name, properties) =>
      FieldEntry(e, p, it, rest);
    case Asked(params) =>
      AskedEntry(e, p, it, rest);
    case Style(selector, declarations) =>
      StyleEntry(e, p, it, rest);
    case Css(text) =>
      CssEntry(e, p, it, rest);
  }

  lemma TakesEntry(e: Entry, p: Where, it: G.Item, rest: G.Stack)
    requires Allowed(e, p) && Among(p, it) && e.Takes?
    ensures Keyed(e) && Feed(G.Push(it, rest), Lexemes(Pieces(e))) == G.Push(After(it, e), rest)
  {
    KeysOf(p, e.key);
    hide Sound, Lexemes, TakesIn, Feed, G.Shift, Among, After, IsKeyword, SaysIn, HoldsIn, Opens;
    KeySound(e.key);
    ValueSound(e.value);
    Both([Key(e.key)], [ValuePiece(e.value)]);
    var u := if e.value.Literal? then Lexeme(STRING, e.value.text) else Lexeme(ENV_VAR, "$" + e.value.word);
    assert [KeyToken(e.key)] + [u] == [KeyToken(e.key), u];
    FeedTwo(G.Push(it, rest), KeyToken(e.key), u);
    TakesFed(p, it, rest, e, KeyToken(e.key), u);
  }

  lemma PortEntry(e: Entry, p: Where, it: G.Item, rest: G.Stack)
    requires Allowed(e, p) && Among(p, it) && e.Port?
    ensures Keyed(e) && Feed(G.Push(it, rest), Lexemes(Pieces(e))) == G.Push(After(it, e), rest)
  {
    assert it == G.Settings && After(it, e) == it && G.ValidPort(e.number);
    hide Sound, Lexemes, Feed, G.Shift, IsKeyword, G.ValidPort, AllDigits;
    PlainKeys();
    KeySound(PORT);
    DigitsSound(e.number);
    var t, u := KeyToken(PORT), Lexeme(NUMBER, e.number);
    Both([Key(PORT)], [Piece(Digits(e.number), " ")]);
    assert [t] + [u] == [t, u];
    FeedTwo(G.Push(it, rest), t, u);
    ShortFed(rest, t, u);
  }

  lemma RunsEntry(e: Entry, p: Where, it: G.Item, rest: G.Stack)
    requires Allowed(e, p) && Among(p, it) && e.Runs?
    ensures Keyed(e) && Feed(G.Push(it, rest), Lexemes(Pieces(e))) == G.Push(After(it, e), rest)
  {
    assert it == G.Steps && After(it, e) == it;
    hide Sound, Lexemes, Feed, G.Shift, IsKeyword, QuoteText;
    PlainKeys();
    KeySound(EXECUTE_QUERY);
    KeySound(DYNAMIC);
    if e.query.Some? {
      QuoteSound(e.query.value);
    }
    var q := if e.query.Some? then Quote(e.query.value) else Key(DYNAMIC);
    var t, u := KeyToken(EXECUTE_QUERY), if e.query.Some? then Lexeme(STRING, e.query.value) else KeyToken(DYNAMIC);
    Both([Key(EXECUTE_QUERY)], [q]);
    assert [t] + [u] == [t, u];
    FeedTwo(G.Push(it, rest), t, u);
    ShortFed(rest, t, u);
  }

  lemma NestsHead(e: Entry, p: Where, it: G.Item, rest: G.Stack)
    requires e.Nests? && Opens(p, e.key).Some? && Among(p, it)
    ensures var head := [Key(e.key), OPEN];
      Sound(head) && Feed(G.Push(it, rest), Lexemes(head))
        == G.Push(Expects(Opens(p, e.key).value), G.Push(After(it, e), rest))
  {
    hide Sound, Lexemes, Feed, G.Shift, Opens, Among, After, IsKeyword, Expects;
    KeysOf(p, e.key);
    KeySound(e.key);
    OpenSound(Key(e.key));
    var t, u := KeyToken(e.key), Lexeme(OPEN_BRACE, "{");
    assert [t] + [u] == [t, u];
    FeedTwo(G.Push(it, rest), t, u);
    NestsFed(p, it, rest, e, t, u);
  }

  lemma LetterHead(e: Entry, p: Where, it: G.Item, rest: G.Stack)
    requires Allowed(e, p) && e.Letter? && Among(p, it)
    ensures var head := [Key(TEMPLATE)] + [Quote(e.name), OPEN];
      && Sound(head) && Feed(G.Push(it, rest), Lexemes(head)) == G.Push(Expects(InLetter), G.Push(it, rest))
    ensures After(it, e) == it
  {
    assert it == G.Email && QuoteText(e.name);
    LetterStarts(e.name, rest);
  }

  lemma LetterStarts(name: string, rest: G.Stack)
    requires QuoteText(name)
    ensures var head := [Key(TEMPLATE)] + [Quote(name), OPEN];
      && Sound(head) && Feed(G.Push(G.Email, rest), Lexemes(head)) == G.Push(G.EmailText, G.Push(G.Email, rest))
  {
    LetterSound(name);
    var s, t, u, v := G.Push(G.Email, rest), KeyToken(TEMPLATE), Lexeme(STRING, name), Lexeme(OPEN_BRACE, "{");
    assert t.kind == TEMPLATE;
    hide *;
    FeedConcat(s, [t], [u, v]);
    FeedOne(s, t);
    FeedTwo(G.Shift(s, t), u, v);
    NamedBlocks(rest, t, u, v);
  }

  lemma LetterSound(name: string)
    requires QuoteText(name)
    ensures var head := [Key(TEMPLATE)] + [Quote(name), OPEN];
      && Sound(head) && Lexemes(head) == [KeyToken(TEMPLATE)] + [Lexeme(STRING, name), Lexeme(OPEN_BRACE, "{")]
  {
    hide Sound, Lexemes, IsKeyword, QuoteText;
    PlainKeys();
    KeySound(TEMPLATE);
    QuoteSound(name);
    OpenSound(Quote(name));
    Both([Key(TEMPLATE)], [Quote(name), OPEN]);
  }

  lemma LetterCloses(es: seq<Entry>)
    requires AllAllowed(es, InLetter)
    ensures G.Closes(AfterAll(Expects(InLetter), es)) && !G.Leaf(AfterAll(Expects(InLetter), es))
  {
    BlockCloses(es, InLetter);
  }

  lemma FieldEntry(e: Entry, p: Where, it: G.Item, rest: G.Stack)
    requires Allowed(e, p) && e.Field? && Among(p, it)
    ensures Keyed(e) && Feed(G.Push(it, rest), Lexemes(Pieces(e))) == G.Push(After(it, e), rest)
  {
    assert it == G.Fields && After(it, e) == it && QuoteText(e.name);
    var s, u, v := G.Push(it, rest), Lexeme(STRING, e.name), Lexeme(OPEN_BRACE, "{");
    assert !G.Leaf(G.Properties) && G.Closes(G.Properties);
    hide Sound, Lexemes, Feed, G.Shift, QuoteText, ValidProperty, G.Leaf, G.Closes;
    NamedHead(e.name);
    PropertiesSound(e.properties);
    FeedTwo(s, u, v);
    NamedBlocks(rest, u, u, v);
    PropertiesFed(e.properties, s);
    BracedFed(s, G.Properties, G.Properties, s, [Quote(e.name), OPEN], AllProperties(e.properties));
  }

  lemma AskedEntry(e: Entry, p: Where, it: G.Item, rest: G.Stack)
    requires Allowed(e, p) && e.Asked? && Among(p, it)
    ensures Keyed(e) && Feed(G.Push(it, rest), Lexemes(Pieces(e))) == G.Push(After(it, e), rest)
  {
    assert it == G.Query && After(it, e) == it;
    hide Sound, Lexemes, Feed, G.Shift, ListedLexemes;
    ParamsSound(e.params);
    ParamsFed(rest, Token(Word(PARAMS), " ", false), e.params);
  }

  /** A name in quotes and the brace behind it. */
  lemma NamedHead(name: string)
    requires QuoteText(name)
    ensures Sound([Quote(name), OPEN])
    ensures Lexemes([Quote(name), OPEN]) == [Lexeme(STRING, name), Lexeme(OPEN_BRACE, "{")]
  {
    hide Sound, Lexemes, QuoteText;
    QuoteSound(name);
    OpenSound(Quote(name));
  }

  lemma StyleEntry(e: Entry, p: Where, it: G.Item, rest: G.Stack)
    requires Allowed(e, p) && e.Style? && Among(p, it)
    ensures Keyed(e) && Feed(G.Push(it, rest), Lexemes(Pieces(e))) == G.Push(After(it, e), rest)
  {
    assert it == G.Styles && After(it, e) == it && QuoteText(e.selector);
    StyleFed(e.selector, e.declarations, rest);
  }

  lemma {:induction false} StyleFed(selector: string, ds: seq<(string, string)>, rest: G.Stack)
    requires QuoteText(selector) && forall i :: 0 <= i < |ds| ==> QuoteText(ds[i].0) && QuoteText(ds[i].1)
    ensures var s := G.Push(G.Styles, rest); Feed(s, Lexemes([Quote(selector), OPEN] + (AllPairs(ds) + [CLOSE]))) == s
  {
    NamedHead(selector);
    PairsSound(ds);
    var s, u, v := G.Push(G.Styles, rest), Lexeme(STRING, selector), Lexeme(OPEN_BRACE, "{");
    NamedBlocks(rest, u, u, v);
    BodyCloses();
    hide *;
    FeedTwo(s, u, v);
    PairsFed(ds, G.StyleBody, s);
    var r := Feed(G.Push(G.StyleBody, s), Lexemes(AllPairs(ds)));
    BracedFed(s, G.StyleBody, if r == G.Push(G.StyleBody, s) then G.StyleBody else G.StyleProps, s,
      [Quote(selector), OPEN], AllPairs(ds));
  }

  lemma BodyCloses()
    ensures !G.Leaf(G.StyleBody) && G.Closes(G.StyleBody) && !G.Leaf(G.StyleProps) && G.Closes(G.StyleProps)
  {
  }

  lemma CssEntry(e: Entry, p: Where, it: G.Item, rest: G.Stack)
    requires Allowed(e, p) && e.Css? && Among(p, it)
    ensures Keyed(e) && Feed(G.Push(it, rest), Lexemes(Pieces(e))) == G.Push(After(it, e), rest)
  {
    assert it == G.Styles && After(it, e) == it;
    hide Sound, Lexemes, Feed, G.Shift, Balanced, Stripped;
    CssSound(e.text);
    var t := Lexeme(RAW_BLOCK, Stripped(e.text, true));
    FeedOne(G.Push(it, rest), t);
    ShortFed(rest, t, t);
  }

  lemma StartsOrdered(es: seq<Entry>, p: Where)
    requires Complete(es, p) || p == InLetter
    ensures InOrder(es, p, Expects(p)) && Among(p, Expects(p))
  {
  }

  lemma {:induction false} EntriesFed(es: seq<Entry>, p: Where, it: G.Item, rest: G.Stack)
    requires AllAllowed(es, p) && Among(p, it) && InOrder(es, p, it)
    ensures AllKeyed(es) && Feed(G.Push(it, rest), Lexemes(AllPieces(es))) == G.Push(AfterAll(it, es), rest)
    decreases es
  {
    EntriesSound(es, p);
    hide Sound, Lexemes, Feed, Among, After, InOrder;
    if es == [] {
      Nothing();
      FeedNothing(G.Push(it, rest));
    } else {
      OrderRest(es, p, it);
      EntrySound(es[0], p);
      EntriesSound(es[1..], p);
      TopAuth(es[0], p);
      AmongAfter(p, it, es[0]);
      EntryFed(es[0], p, it, rest);
      EntriesFed(es[1..], p, After(it, es[0]), rest);
      Both(Pieces(es[0]), AllPieces(es[1..]));
      FeedConcat(G.Push(it, rest), Lexemes(Pieces(es[0])), Lexemes(AllPieces(es[1..])));
    }
  }

  lemma RawStringFails(p: Where, s: G.Stack, t: Lexeme)
    requires s.Push? && Among(p, s.top) && t.kind == RAW_STRING
    ensures G.Shift(s, t) == G.Fail
  {
  }

  /** No entry has `sql` with a text in quotes: the lexer makes one raw string of the two, which
      the grammar takes among no entries, so that a text with one there is refused. */
  lemma RawStringRefused(start: G.Stack, s: string, n: nat, p: Where)
    requires G.Fed(start, s, n).Push? && Among(p, G.Fed(start, s, n).top) && Nth(s, n).kind == RAW_STRING
    ensures !G.Accepts(start, s)
  {
    RawStringFails(p, G.Fed(start, s, n), Nth(s, n));
    hide G.Shift, Nth;
    G.FailsForGood(start, s, n + 1);
  }

  // ---------- and nothing else is ----------

  /** The tokens an entry can start with. */
  predicate Starts(p: Where, kind: TokenType) {
    || kind in SaysIn(p) || kind in TakesIn(p) || kind in HoldsIn(p) || Opens(p, kind).Some?
    || (p == AtTop && kind == PORT) || (p == InSteps && kind == EXECUTE_QUERY) || (p == InEmail && kind == TEMPLATE)
    || (p == InQuery && kind == PARAMS) || (p == InFields && kind == STRING)
    || (p == InStyles && (kind == STRING || kind == RAW_BLOCK))
  }

  predicate Outermost(p: Where) {
    p == AtTop || p == OfDeclarations
  }

  /** What may be read where an entry may stand. */
  predicate Possible(p: Where, it: G.Item, kind: TokenType) {
    || (kind == CLOSE_BRACE && (it.Partial? ==> it.named && it.template))
    || (kind == EOF && it == G.Content)
    || (Starts(p, kind) && !(it == G.Response(true) && kind in HoldsIn(p)))
    || (it == G.Settings && (Starts(AtTop, kind) || Starts(OfDeclarations, kind)))
  }

  lemma OuterStarts(p: Where, it: G.Item, rest: G.Stack, t: Lexeme)
    requires Among(p, it) && rest != G.Fail && Outermost(p)
    ensures G.Shift(G.Push(it, rest), t) != G.Fail <==> Possible(p, it, t.kind)
  {
  }

  lemma InnerStarts(p: Where, it: G.Item, rest: G.Stack, t: Lexeme)
    requires Among(p, it) && rest != G.Fail && p in {InPage, InLayout, InApi, InQuery, InTransform, InScript}
    ensures G.Shift(G.Push(it, rest), t) != G.Fail <==> Possible(p, it, t.kind)
  {
  }

  lemma SmallStarts(p: Where, it: G.Item, rest: G.Stack, t: Lexeme)
    requires Among(p, it) && rest != G.Fail && !Outermost(p)
    requires p !in {InPage, InLayout, InApi, InQuery, InTransform, InScript}
    ensures G.Shift(G.Push(it, rest), t) != G.Fail <==> Possible(p, it, t.kind)
  {
  }

  /** Where an entry may stand, only the start of one is accepted, or the end of the block: in a
      response no template behind a redirect, and the end of a partial only with both its
      parts. A website goes over from settings to declarations with the first of these. */
  lemma StartsExactly(p: Where, it: G.Item, rest: G.Stack, t: Lexeme)
    requires Among(p, it) && rest != G.Fail
    ensures G.Shift(G.Push(it, rest), t) != G.Fail <==> Possible(p, it, t.kind)
  {
    hide *;
    if Outermost(p) {
      OuterStarts(p, it, rest, t);
    } else if p in {InPage, InLayout, InApi, InQuery, InTransform, InScript} {
      InnerStarts(p, it, rest, t);
    } else {
      SmallStarts(p, it, rest, t);
    }
  }

  /** What has to stand behind the start of an entry. */
  predicate Continues(p: Where, kind: TokenType, u: Lexeme) {
    if kind in TakesIn(p) then u.kind == STRING || u.kind == ENV_VAR
    else if kind in SaysIn(p) || kind == TEMPLATE then u.kind == STRING
    else if kind in HoldsIn(p) then u.kind == STRING || u.kind == RAW_BLOCK
    else if kind == PORT then u.kind == ENV_VAR || (u.kind == NUMBER && G.ValidPort(u.text))
    else if kind == EXECUTE_QUERY then u.kind == STRING || u.kind == DYNAMIC
    else if kind == PARAMS then u.kind == OPEN_BRACKET
    else u.kind == OPEN_BRACE
  }

  lemma OuterFollows(p: Where, it: G.Item, rest: G.Stack, t: Lexeme, u: Lexeme)
    requires Among(p, it) && Starts(p, t.kind) && Outermost(p)
    ensures G.Shift(G.Shift(G.Push(it, rest), t), u) != G.Fail <==> Continues(p, t.kind, u)
  {
    hide G.ValidPort;
  }

  lemma InnerFollows(p: Where, it: G.Item, rest: G.Stack, t: Lexeme, u: Lexeme)
    requires Among(p, it) && Starts(p, t.kind) && p in {InPage, InLayout, InApi, InQuery, InTransform, InScript}
    ensures G.Shift(G.Shift(G.Push(it, rest), t), u) != G.Fail <==> Continues(p, t.kind, u)
  {
    hide G.ValidPort;
  }

  lemma SmallFollows(p: Where, it: G.Item, rest: G.Stack, t: Lexeme, u: Lexeme)
    requires Among(p, it) && Starts(p, t.kind) && !(it == G.Response(true) && t.kind in HoldsIn(p))
    requires p in {InPartial, InResponse, InSteps, InAuth, InGithub, InEmail, InSendGrid, InLetter}
    ensures G.Shift(G.Shift(G.Push(it, rest), t), u) != G.Fail <==> Continues(p, t.kind, u)
  {
    hide G.ValidPort;
  }

  lemma FollowsExactly(p: Where, it: G.Item, rest: G.Stack, t: Lexeme, u: Lexeme)
    requires Among(p, it) && Starts(p, t.kind) && p != InStyles && p != InFields
    requires !(it == G.Response(true) && t.kind in HoldsIn(p))
    ensures G.Shift(G.Shift(G.Push(it, rest), t), u) != G.Fail <==> Continues(p, t.kind, u)
  {
    if Outermost(p) {
      hide *;
      OuterFollows(p, it, rest, t, u);
    } else if p in {InPage, InLayout, InApi, InQuery, InTransform, InScript} {
      hide *;
      InnerFollows(p, it, rest, t, u);
    } else {
      assert p in {InPartial, InResponse, InSteps, InAuth, InGithub, InEmail, InSendGrid, InLetter};
      hide *;
      SmallFollows(p, it, rest, t, u);
    }
  }

  /** A property of a field is a string; some ask for a text, some for a range. */
  lemma PropertyExactly(rest: G.Stack, t: Lexeme, u: Lexeme)
    requires rest != G.Fail && t.kind == STRING
    ensures var s := G.Shift(G.Push(G.Properties, rest), t);
      && (t.text in {"type", "required", "format"} ==> (G.Shift(s, u) != G.Fail <==> u.kind == STRING))
      && (t.text in {"range", "length"} ==> (G.Shift(s, u) != G.Fail <==> u.kind == RANGE))
      && (t.text !in {"type", "required", "format", "range", "length"} ==> s == G.Push(G.Properties, rest))
  {
  }
}
