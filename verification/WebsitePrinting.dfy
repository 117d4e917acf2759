/** The theorem on website texts: every tree of entries, written down, is in the language, and
    loads with exactly the declarations of its entries. */
module WebsitePrinting {
  import opened CStrings
  import opened Lexical
  import opened TokenPrinting
  import opened TextPieces
  import opened WebsiteTrees
  import opened TreesAccepted
  import opened TreesDeclared
  import G = Grammar
  import D = Declarations
  import P = Parsing

  // ---------- whole texts ----------

  lemma {:induction false} TokenNumber(s: string, from: nat, n: nat, i: nat)
    requires i < n
    ensures Tokens(s, from, n)[i] == Nth(s, from + i)
  {
    hide Nth;
    if i < n - 1 {
      TokenNumber(s, from, n - 1, i);
    }
  }

  /** The tokens of a text behind some of its first ones. */
  lemma TokensBehind(s: string, a: seq<Lexeme>, b: seq<Lexeme>, c: seq<Lexeme>)
    requires Tokens(s, 0, |a + b + c|) == a + b + c
    ensures Tokens(s, 0, |a|) == a && Tokens(s, |a|, |b|) == b && Tokens(s, 0, |a| + |b|) == a + b
  {
    hide Nth, Tokens;
    var n := |a + b + c|;
    forall i | 0 <= i < |a + b| ensures (a + b)[i] == Nth(s, i) {
      TokenNumber(s, 0, n, i);
    }
    forall i | 0 <= i < |a| ensures Tokens(s, 0, |a|)[i] == a[i] {
      TokenNumber(s, 0, |a|, i);
      assert a[i] == (a + b)[i];
    }
    forall i | 0 <= i < |b| ensures Tokens(s, |a|, |b|)[i] == b[i] {
      TokenNumber(s, |a|, |b|, i);
      assert b[i] == (a + b)[|a| + i];
    }
    forall i | 0 <= i < |a + b| ensures Tokens(s, 0, |a| + |b|)[i] == (a + b)[i] {
      TokenNumber(s, 0, |a| + |b|, i);
    }
  }

  /** Sound pieces are read as they are meant, up to the end of the text. */
  lemma SoundIsRead(ps: seq<Piece>)
    requires Sound(ps)
    ensures var s := Print(ps); Tokens(s, 0, |ps|) == Lexemes(ps) && Nth(s, |ps|) == Lexeme(EOF, "")
  {
    assert FitBefore(ps, "", OUTSIDE) by { SolidNothing(); }
    hide FitBefore, Sound, Print, Tokens, Nth, Meant, Solid;
    FitIsFit(ps, OUTSIDE);
    LexemesAre(ps);
    assert Gap("");
    PrintedIsRead("", ps);
    assert "" + Print(ps) == Print(ps);
  }

  // ---------- included files ----------

  lemma ContentFed(es: seq<Entry>)
    requires AllAllowed(es, OfDeclarations)
    ensures AllKeyed(es) && Feed(G.INCLUDED, Lexemes(AllPieces(es)) + [Lexeme(EOF, "")]) == G.Done
  {
    EntriesSound(es, OfDeclarations);
    ContentStays(es);
    var end := Lexeme(EOF, "");
    assert G.Shift(G.INCLUDED, end) == G.Done && G.INCLUDED == G.Push(G.Content, G.Done);
    assert Among(OfDeclarations, G.Content) && InOrder(es, OfDeclarations, G.Content);
    hide Sound, Lexemes, Feed, G.Shift, AfterAll, Among, InOrder;
    EntriesFed(es, OfDeclarations, G.Content, G.Done);
    FeedConcat(G.INCLUDED, Lexemes(AllPieces(es)), [end]);
    FeedOne(G.INCLUDED, end);
  }

  lemma {:induction false} ContentStays(es: seq<Entry>)
    ensures AfterAll(G.Content, es) == G.Content
  {
    if es != [] {
      ContentStays(es[1..]);
    }
  }

  /** A file of declarations, written down, can be included, and its tokens declare what its
      entries do. */
  lemma WrittenContent(es: seq<Entry>)
    requires AllAllowed(es, OfDeclarations)
    ensures AllKeyed(es)
    ensures var s := Print(AllPieces(es));
      && G.Accepts(G.INCLUDED, s) && P.IsText(Lexemes(AllPieces(es)), s)
      && D.Declared(Lexemes(AllPieces(es))) == AllNodes(es)
  {
    EntriesSound(es, OfDeclarations);
    var ps := AllPieces(es);
    var s, ts, end := Print(ps), Lexemes(ps), Lexeme(EOF, "");
    SoundIsRead(ps);
    assert Tokens(s, 0, |ts| + 1) == ts + [end];
    DeclarationsScanned(es, D.NOTHING);
    assert [] + AllNodes(es) == AllNodes(es);
    D.ScanSnoc(D.Idle(D.NOTHING), ts, end);
    D.IdleStep(D.Found(AllNodes(es), []), end);
    hide Sound, Lexemes, Feed, D.ScanAll, D.Step, G.Shift, Tokens;
    ContentFed(es);
    FedIsFeed(G.INCLUDED, s, |ts| + 1);
  }

  // ---------- programs ----------

  /** A website: its settings and what it declares. */
  function WebsitePieces(settings: seq<Entry>, declarations: seq<Entry>): seq<Piece>
    requires AllKeyed(settings) && AllKeyed(declarations)
  {
    [Key(WEBSITE), OPEN] + (AllPieces(settings) + AllPieces(declarations)) + [CLOSE]
  }

  lemma {:induction false} SettingsStay(es: seq<Entry>)
    requires AllAllowed(es, AtTop)
    ensures AfterAll(G.Settings, es) == G.Settings
  {
    if es != [] {
      TopAuth(es[0], AtTop);
      SettingsStay(es[1..]);
    }
  }

  lemma Opening()
    ensures Sound([Key(WEBSITE), OPEN])
    ensures |Lexemes([Key(WEBSITE), OPEN])| == 2
    ensures Feed(G.PROGRAM, Lexemes([Key(WEBSITE), OPEN])) == G.Push(G.Settings, G.Done)
  {
    var t, u := KeyToken(WEBSITE), Lexeme(OPEN_BRACE, "{");
    PlainKeys();
    KeyPlain(WEBSITE);
    assert G.Shift(G.Shift(G.PROGRAM, t), u) == G.Push(G.Settings, G.Done);
    hide Sound, Lexemes, Feed, G.Shift, IsKeyword;
    KeySound(WEBSITE);
    OpenSound(Key(WEBSITE));
    assert [t] + [u] == [t, u];
    FeedTwo(G.PROGRAM, t, u);
  }

  lemma SettingsFed(es: seq<Entry>)
    requires AllAllowed(es, AtTop)
    ensures AllKeyed(es) && Sound(AllPieces(es))
    ensures Feed(G.Push(G.Settings, G.Done), Lexemes(AllPieces(es))) == G.Push(G.Settings, G.Done)
  {
    EntriesSound(es, AtTop);
    SettingsStay(es);
    assert Among(AtTop, G.Settings) && InOrder(es, AtTop, G.Settings);
    hide *;
    EntriesFed(es, AtTop, G.Settings, G.Done);
  }

  /** Where a program may be behind its declarations. */
  predicate CanClose(s: G.Stack) {
    s.Push? && s.rest == G.Done && !G.Leaf(s.top) && G.Closes(s.top)
  }

  lemma DeclarationsFed(es: seq<Entry>)
    requires AllAllowed(es, OfDeclarations)
    ensures AllKeyed(es) && Sound(AllPieces(es))
    ensures CanClose(Feed(G.Push(G.Settings, G.Done), Lexemes(AllPieces(es))))
  {
    EntriesSound(es, OfDeclarations);
    assert Among(OfDeclarations, G.Settings) && InOrder(es, OfDeclarations, G.Settings);
    AfterAllAmong(es, OfDeclarations, G.Settings);
    assert CanClose(G.Push(AfterAll(G.Settings, es), G.Done));
    hide *;
    EntriesFed(es, OfDeclarations, G.Settings, G.Done);
  }

  /** All tokens but the last leave the stack of a program where its brace can close. */
  lemma InsideFed(settings: seq<Entry>, declarations: seq<Entry>)
    requires AllAllowed(settings, AtTop) && AllAllowed(declarations, OfDeclarations)
    ensures AllKeyed(settings) && AllKeyed(declarations)
    ensures var inner := AllPieces(settings) + AllPieces(declarations);
      && Sound(inner) && Lexemes(inner) == Lexemes(AllPieces(settings)) + Lexemes(AllPieces(declarations))
      && CanClose(Feed(G.Push(G.Settings, G.Done), Lexemes(inner)))
  {
    SettingsFed(settings);
    DeclarationsFed(declarations);
    hide Sound, Lexemes, Feed, CanClose, AllPieces;
    Both(AllPieces(settings), AllPieces(declarations));
    FeedConcat(G.Push(G.Settings, G.Done), Lexemes(AllPieces(settings)), Lexemes(AllPieces(declarations)));
  }

  lemma InsideScanned(settings: seq<Entry>, declarations: seq<Entry>)
    requires AllAllowed(settings, AtTop) && AllAllowed(declarations, OfDeclarations)
    ensures AllKeyed(settings) && AllKeyed(declarations)
    ensures var ts := Lexemes(AllPieces(settings)) + Lexemes(AllPieces(declarations));
      D.Declared(ts) == AllNodes(declarations) && D.Paths(ts) == PathsOf(settings)
  {
    SettingsScanned(settings, D.NOTHING);
    var found := D.NOTHING.(paths := [] + PathsOf(settings));
    DeclarationsScanned(declarations, found);
    D.ScanConcat(D.Idle(D.NOTHING), Lexemes(AllPieces(settings)), Lexemes(AllPieces(declarations)));
    assert [] + AllNodes(declarations) == AllNodes(declarations) && [] + PathsOf(settings) == PathsOf(settings);
  }

  /** The tokens of a website: two, those of its entries, and one. */
  lemma ProgramTokens(inner: seq<Piece>)
    requires Sound(inner)
    ensures var all := [Key(WEBSITE), OPEN] + inner + [CLOSE];
      && AllWritable(all) && Sound([Key(WEBSITE), OPEN])
      && var s, a, b, c := Print(all), Lexemes([Key(WEBSITE), OPEN]), Lexemes(inner), [Lexeme(CLOSE_BRACE, "}")];
         Tokens(s, 0, |a|) == a && Tokens(s, |a|, |b|) == b && Tokens(s, 0, |a| + |b|) == a + b
         && Tokens(s, 0, |a| + |b| + 1) == a + b + c
  {
    var head := [Key(WEBSITE), OPEN];
    assert AllWritable(inner);
    Opening();
    CloseSound();
    hide *;
    Both(head, inner);
    Both(head + inner, [CLOSE]);
    SoundIsRead(head + inner + [CLOSE]);
    TokensBehind(Print(head + inner + [CLOSE]), Lexemes(head), Lexemes(inner), [Lexeme(CLOSE_BRACE, "}")]);
  }

  lemma ProgramFed(a: seq<Lexeme>, b: seq<Lexeme>, s: string)
    requires Feed(G.PROGRAM, a) == G.Push(G.Settings, G.Done) && |a| == 2
    requires CanClose(Feed(G.Push(G.Settings, G.Done), b))
    requires Tokens(s, 0, |a| + |b|) == a + b && Tokens(s, 0, |a| + |b| + 1) == a + b + [Lexeme(CLOSE_BRACE, "}")]
    ensures P.IsProgram(s, |b|)
  {
    var c := Lexeme(CLOSE_BRACE, "}");
    var inside := Feed(G.Push(G.Settings, G.Done), b);
    ClosesBlock(inside.top, G.Done, c);
    hide Feed, G.Shift, Tokens, G.Fed;
    FeedConcat(G.PROGRAM, a, b);
    FeedConcat(G.PROGRAM, a + b, [c]);
    FeedOne(inside, c);
    FedIsFeed(G.PROGRAM, s, |b| + 2);
    FedIsFeed(G.PROGRAM, s, |b| + 3);
  }

  /** Every website, written down, is a program: between its first two tokens and its last stand
      those of its entries, and they declare and include what the entries do. */
  lemma WrittenProgram(settings: seq<Entry>, declarations: seq<Entry>) returns (n: nat)
    requires AllAllowed(settings, AtTop) && AllAllowed(declarations, OfDeclarations)
    ensures AllKeyed(settings) && AllKeyed(declarations)
    ensures var s := Print(WebsitePieces(settings, declarations));
      && P.IsProgram(s, n)
      && D.Declared(Tokens(s, 2, n)) == AllNodes(declarations) && D.Paths(Tokens(s, 2, n)) == PathsOf(settings)
  {
    InsideFed(settings, declarations);
    InsideScanned(settings, declarations);
    var inner := AllPieces(settings) + AllPieces(declarations);
    n := |Lexemes(inner)|;
    Opening();
    ProgramTokens(inner);
    var s := Print(WebsitePieces(settings, declarations));
    hide Sound, Lexemes, Feed, Tokens, D.Declared, D.Paths, Print, AllPieces, CanClose, P.IsProgram;
    ProgramFed(Lexemes([Key(WEBSITE), OPEN]), Lexemes(inner), s);
  }

  /** Every website, written down, loads exactly when its includes can be included, and then
      its lists hold what its entries declare. */
  lemma WrittenLoads(settings: seq<Entry>, declarations: seq<Entry>, files: map<string, string>)
    requires AllAllowed(settings, AtTop) && AllAllowed(declarations, OfDeclarations)
    ensures AllKeyed(settings) && AllKeyed(declarations)
    ensures var s := Print(WebsitePieces(settings, declarations));
      && (P.Loads(s, files) <==> P.Includable(PathsOf(settings), files))
      && forall n: nat :: P.IsProgram(s, n) ==> D.Declared(Tokens(s, 2, n)) == AllNodes(declarations)
  {
    hide AllPieces, Print, Tokens, P.Includable, D.Declared, D.Paths, P.IsProgram;
    var n := WrittenProgram(settings, declarations);
    var s := Print(WebsitePieces(settings, declarations));
    forall m: nat | P.IsProgram(s, m) ensures m == n {
      P.ProgramEndsOnce(s, m, n);
    }
  }
}
