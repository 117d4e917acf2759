/** Pieces of a website text: tokens in writing, with the gaps behind them. Sound lists of pieces
    can be put one behind the other anywhere, and say one behind the other what each says. */
module TextPieces {
  import opened CStrings
  import opened RawText
  import opened Lexical
  import opened TokenPrinting

  // ---------- pieces of text one after the other ----------

  function Later(ps: seq<Piece>, at: Setting): Setting
    requires AllWritable(ps)
    decreases |ps|
  {
    if ps == [] then at else Later(ps[1..], Behind(ps[0].item, at))
  }

  /** The pieces can stand in front of the rest. */
  ghost predicate FitBefore(ps: seq<Piece>, rest: string, at: Setting)
    requires AllWritable(ps)
    decreases |ps|
  {
    ps == [] ||
    (Fits(ps[0].item, ps[0].gap, Print(ps[1..]) + rest, at) && FitBefore(ps[1..], rest, Behind(ps[0].item, at)))
  }

  /** Outside brackets the pieces can stand anywhere, and leave no bracket open. */
  ghost predicate Sound(ps: seq<Piece>) {
    && AllWritable(ps)
    && forall at: Setting, rest: string :: !at.inBrackets && Solid(rest) ==>
         FitBefore(ps, rest, at) && !Later(ps, at).inBrackets
  }

  lemma {:induction false} PrintConcat(a: seq<Piece>, b: seq<Piece>)
    requires AllWritable(a) && AllWritable(b)
    ensures AllWritable(a + b) && Print(a + b) == Print(a) + Print(b)
  {
    hide Written;
    if a == [] {
      assert a + b == b;
    } else {
      assert (a + b)[1..] == a[1..] + b;
      PrintConcat(a[1..], b);
      var w := Written(a[0].item);
      assert w + (a[0].gap + (Print(a[1..]) + Print(b))) == w + (a[0].gap + Print(a[1..])) + Print(b);
    }
  }

  lemma Associates<T>(a: seq<T>, b: seq<T>, c: seq<T>)
    ensures a + b + c == a + (b + c)
  {
  }

  lemma Joined(a: seq<Piece>, b: seq<Piece>)
    requires a != []
    ensures (a + b)[0] == a[0] && (a + b)[1..] == a[1..] + b && a + b != []
  {
  }

  lemma MeantFirst(ps: seq<Piece>, at: Setting)
    requires AllWritable(ps) && ps != []
    ensures AllWritable(ps[1..]) && Writable(ps[0].item)
    ensures Meant(ps, at) == [Token(ps[0].item, ps[0].gap, at.inBrackets)] + Meant(ps[1..], Behind(ps[0].item, at))
    ensures Later(ps, at) == Later(ps[1..], Behind(ps[0].item, at))
  {
    hide Token, Behind, Writable;
  }

  lemma {:induction false} MeantConcat(a: seq<Piece>, b: seq<Piece>, at: Setting)
    requires AllWritable(a) && AllWritable(b)
    ensures AllWritable(a + b) && Meant(a + b, at) == Meant(a, at) + Meant(b, Later(a, at))
    ensures Later(a + b, at) == Later(b, Later(a, at))
    decreases |a|
  {
    PrintConcat(a, b);
    if a == [] {
      assert a + b == b;
      assert Meant(a, at) + Meant(b, at) == Meant(b, at);
    } else {
      hide *;
      Joined(a, b);
      MeantFirst(a, at);
      MeantFirst(a + b, at);
      var next := Behind(a[0].item, at);
      MeantConcat(a[1..], b, next);
      Associates([Token(a[0].item, a[0].gap, at.inBrackets)], Meant(a[1..], next), Meant(b, Later(a, at)));
    }
  }

  lemma FitFirst(ps: seq<Piece>, rest: string, at: Setting)
    requires AllWritable(ps) && ps != []
    ensures FitBefore(ps, rest, at) <==>
      && Fits(ps[0].item, ps[0].gap, Print(ps[1..]) + rest, at)
      && FitBefore(ps[1..], rest, Behind(ps[0].item, at))
    ensures Later(ps, at) == Later(ps[1..], Behind(ps[0].item, at))
  {
    hide Fits, Behind, Print;
  }

  lemma FitNothing(rest: string, at: Setting)
    ensures FitBefore([], rest, at) && Later([], at) == at && Print([]) == ""
  {
  }

  lemma FitCons(a: seq<Piece>, b: seq<Piece>, rest: string, at: Setting)
    requires a != [] && AllWritable(a) && AllWritable(a[1..]) && AllWritable(b)
    requires AllWritable(a[1..] + b) && AllWritable(a + b)
    requires Fits(a[0].item, a[0].gap, Print(a[1..]) + (Print(b) + rest), at)
    requires FitBefore(a[1..] + b, rest, Behind(a[0].item, at))
    ensures FitBefore(a + b, rest, at)
  {
    hide *;
    Joined(a, b);
    PrintConcat(a[1..], b);
    Associates(Print(a[1..]), Print(b), rest);
    FitFirst(a + b, rest, at);
  }

  lemma {:induction false} FitConcat(a: seq<Piece>, b: seq<Piece>, rest: string, at: Setting)
    requires AllWritable(a) && AllWritable(b)
    requires FitBefore(a, Print(b) + rest, at) && FitBefore(b, rest, Later(a, at))
    ensures AllWritable(a + b) && FitBefore(a + b, rest, at)
    decreases |a|
  {
    PrintConcat(a, b);
    if a == [] {
      assert a + b == b;
    } else {
      assert AllWritable(a[1..]);
      hide *;
      FitFirst(a, Print(b) + rest, at);
      FitConcat(a[1..], b, rest, Behind(a[0].item, at));
      FitCons(a, b, rest, at);
    }
  }

  /** Sound pieces print as text that starts with no blank. */
  lemma SoundSolid(ps: seq<Piece>, rest: string)
    requires Sound(ps) && Solid(rest)
    ensures Solid(Print(ps) + rest)
  {
    var at := Setting(false, UNKNOWN);
    assert FitBefore(ps, rest, at);
    hide Fits, Behind, FitBefore, Later, Writable, Sound, Solid, Written;
    if ps == [] {
      assert Print(ps) + rest == rest;
    } else {
      FitFirst(ps, rest, at);
      FirstSolid(ps[0], Print(ps[1..]), rest, at);
    }
  }

  lemma FirstSolid(p: Piece, more: string, rest: string, at: Setting)
    requires Fits(p.item, p.gap, more + rest, at)
    ensures Writable(p.item) && Solid(Written(p.item) + (p.gap + more) + rest)
  {
    assert Writable(p.item);
    hide *;
    WrittenSolid(p.item, p.gap, more + rest, at);
    assert Written(p.item) + (p.gap + (more + rest)) == Written(p.item) + (p.gap + more) + rest;
  }

  lemma SoundConcat(a: seq<Piece>, b: seq<Piece>)
    requires Sound(a) && Sound(b)
    ensures Sound(a + b)
  {
    hide FitBefore, Later, Print, Solid;
    PrintConcat(a, b);
    forall at: Setting, rest: string | !at.inBrackets && Solid(rest)
      ensures FitBefore(a + b, rest, at) && !Later(a + b, at).inBrackets
    {
      SoundSolid(b, rest);
      MeantConcat(a, b, at);
      FitConcat(a, b, rest, at);
    }
  }

  lemma {:induction false} FitIsFit(ps: seq<Piece>, at: Setting)
    requires AllWritable(ps) && FitBefore(ps, "", at)
    ensures AllFit(ps, at)
    decreases |ps|
  {
    hide Fits, Behind;
    if ps != [] {
      assert Print(ps[1..]) + "" == Print(ps[1..]);
      FitIsFit(ps[1..], Behind(ps[0].item, at));
    }
  }

  // ---------- what a list of pieces says ----------

  const OUTSIDE := Setting(false, UNKNOWN)

  /** The tokens of pieces outside brackets. */
  function Lexemes(ps: seq<Piece>): (ts: seq<Lexeme>)
    requires AllWritable(ps)
    ensures |ts| == |ps|
  {
    Meant(ps, OUTSIDE)
  }

  lemma {:induction false} MeantAnywhere(ps: seq<Piece>, a: Setting, b: Setting)
    requires AllWritable(ps) && a.inBrackets == b.inBrackets
    ensures Meant(ps, a) == Meant(ps, b)
    decreases |ps|
  {
    hide Written, Writable;
    if ps != [] {
      BehindSame(ps[0].item, a, b);
      MeantAnywhere(ps[1..], Behind(ps[0].item, a), Behind(ps[0].item, b));
    }
  }

  lemma BehindSame(item: Item, a: Setting, b: Setting)
    requires Writable(item) && a.inBrackets == b.inBrackets
    ensures Behind(item, a).inBrackets == Behind(item, b).inBrackets
  {
  }

  lemma SoundLexemes(a: seq<Piece>, b: seq<Piece>)
    requires Sound(a) && AllWritable(b)
    ensures AllWritable(a + b) && Lexemes(a + b) == Lexemes(a) + Lexemes(b)
  {
    assert FitBefore(a, "", OUTSIDE) && !Later(a, OUTSIDE).inBrackets;
    hide *;
    MeantConcat(a, b, OUTSIDE);
    MeantAnywhere(b, Later(a, OUTSIDE), OUTSIDE);
    LexemesAre(a);
    LexemesAre(b);
    LexemesAre(a + b);
  }

  lemma LexemesAre(ps: seq<Piece>)
    requires AllWritable(ps)
    ensures Lexemes(ps) == Meant(ps, OUTSIDE) && OUTSIDE == Setting(false, UNKNOWN)
  {
  }

  // ---------- the pieces that entries are made of ----------

  function Key(kind: TokenType): Piece {
    Piece(Word(kind), " ")
  }

  function Quote(text: string): Piece {
    Piece(Quoted(text), " ")
  }

  const OPEN := Piece(Sign(OPEN_BRACE), " ")
  const CLOSE := Piece(Sign(CLOSE_BRACE), "\n")

  /** A text that can stand in quotes. */
  predicate QuoteText(text: string) {
    Quotable(text) && Room(text) <= 10000
  }

  lemma SpaceGap(gap: string, rest: string)
    requires gap == " " || gap == "\n"
    ensures Gap(gap) && NoWordFirst(gap + rest) && NumberEnds(gap + rest) && NoDigitAhead(gap + rest)
    ensures !StartsWith(gap + rest, '"')
  {
    assert gap[1..] == "";
  }

  lemma OneSound(p: Piece)
    requires Writable(p.item) && !Behind(p.item, OUTSIDE).inBrackets
    requires forall at: Setting, rest: string :: !at.inBrackets && Solid(rest) ==> Fits(p.item, p.gap, rest, at)
    ensures Sound([p])
  {
    hide Fits, Solid, Writable, Behind;
    assert [p][1..] == [];
    forall at: Setting, rest: string | !at.inBrackets && Solid(rest)
      ensures FitBefore([p], rest, at) && !Later([p], at).inBrackets
    {
      assert Print([p][1..]) + rest == rest;
      BehindSame(p.item, at, OUTSIDE);
    }
  }

  lemma KeySound(kind: TokenType)
    requires IsKeyword(kind) && kind != SQL && kind != CSS
    ensures Sound([Key(kind)]) && Lexemes([Key(kind)]) == [Token(Word(kind), " ", false)]
  {
    hide Gap, IsKeyword, Sound;
    forall at: Setting, rest: string | !at.inBrackets && Solid(rest) ensures Fits(Word(kind), " ", rest, at) {
      SpaceGap(" ", rest);
    }
    OneSound(Key(kind));
    assert [Key(kind)][1..] == [];
  }

  lemma QuoteSound(text: string)
    requires QuoteText(text)
    ensures Sound([Quote(text)]) && Lexemes([Quote(text)]) == [Lexeme(STRING, text)]
  {
    hide Gap, Sound;
    forall at: Setting, rest: string | !at.inBrackets && Solid(rest) ensures Fits(Quoted(text), " ", rest, at) {
      SpaceGap(" ", rest);
    }
    OneSound(Quote(text));
    assert [Quote(text)][1..] == [];
  }

  lemma CloseSound()
    ensures Sound([CLOSE]) && Lexemes([CLOSE]) == [Lexeme(CLOSE_BRACE, "}")]
  {
    hide Gap, Sound;
    forall at: Setting, rest: string | !at.inBrackets && Solid(rest) ensures Fits(CLOSE.item, "\n", rest, at) {
      SpaceGap("\n", rest);
    }
    OneSound(CLOSE);
    assert [CLOSE][1..] == [];
  }

  lemma OpenFits(rest: string, at: Setting)
    requires !at.inBrackets && !HasCode(at.owner) && Solid(rest)
    ensures AllWritable([OPEN]) && FitBefore([OPEN], rest, at) && !Later([OPEN], at).inBrackets
  {
    hide Gap;
    SpaceGap(" ", rest);
    assert [OPEN][1..] == [];
    assert Print([OPEN][1..]) + rest == rest;
  }

  lemma OwnerBehind(p: Piece, at: Setting)
    requires AllWritable([p]) && !at.inBrackets && (p.item.Quoted? || (p.item.Word? && !HasCode(p.item.kind)))
    ensures !HasCode(Later([p], at).owner)
  {
    assert [p][1..] == [];
  }

  /** A brace that opens a block behind a keyword or a string. */
  lemma OpenSound(p: Piece)
    requires Sound([p]) && (p.item.Quoted? || (p.item.Word? && !HasCode(p.item.kind)))
    ensures Sound([p, OPEN]) && Lexemes([p, OPEN]) == Lexemes([p]) + [Lexeme(OPEN_BRACE, "{")]
  {
    hide FitBefore, Later, Print, Solid, HasCode, Meant, Writable;
    assert [p] + [OPEN] == [p, OPEN];
    OpenLexemes("");
    forall at: Setting, rest: string | !at.inBrackets && Solid(rest)
      ensures FitBefore([p] + [OPEN], rest, at) && !Later([p] + [OPEN], at).inBrackets
    {
      OwnerBehind(p, at);
      OpenLexemes(rest);
      assert FitBefore([p], Print([OPEN]) + rest, at);
      OpenFits(rest, Later([p], at));
      MeantConcat([p], [OPEN], at);
      FitConcat([p], [OPEN], rest, at);
    }
    SoundLexemes([p], [OPEN]);
  }

  lemma OpenLexemes(rest: string)
    ensures AllWritable([OPEN]) && Lexemes([OPEN]) == [Lexeme(OPEN_BRACE, "{")]
    ensures Solid(Print([OPEN]) + rest)
  {
    assert [OPEN][1..] == [];
  }

  function CodeBlock(text: string): Piece {
    Piece(Block(text), "\n")
  }

  /** A code keyword and the block behind it. */
  lemma CodeSound(kind: TokenType, text: string)
    requires HasCode(kind) && Balanced(text)
    ensures var ps := [Key(kind), CodeBlock(text)];
      Sound(ps) && Lexemes(ps) == [Token(Word(kind), " ", false), Lexeme(RAW_BLOCK, Stripped(text, true))]
  {
    hide Gap, Solid, Balanced, Stripped;
    var ps := [Key(kind), CodeBlock(text)];
    assert ps[1..] == [CodeBlock(text)] && [CodeBlock(text)][1..] == [];
    forall at: Setting, rest: string | !at.inBrackets && Solid(rest)
      ensures FitBefore(ps, rest, at) && !Later(ps, at).inBrackets
    {
      hide FitBefore, Later;
      var tail := Print([CodeBlock(text)]) + rest;
      BlockPrints(text, rest);
      SpaceGap(" ", tail);
      SpaceGap("\n", rest);
      FitFirst(ps, rest, at);
      FitFirst([CodeBlock(text)], rest, Behind(Word(kind), at));
      assert Print([CodeBlock(text)][1..]) + rest == rest;
      FitNothing(rest, Behind(Block(text), Behind(Word(kind), at)));
    }
    MeantFirst(ps, OUTSIDE);
    MeantFirst([CodeBlock(text)], Behind(Word(kind), OUTSIDE));
  }

  lemma BlockPrints(text: string, rest: string)
    ensures AllWritable([CodeBlock(text)]) && Solid(Print([CodeBlock(text)]) + rest)
    ensures StartsWith(Print([CodeBlock(text)]) + rest, '{')
  {
    assert [CodeBlock(text)][1..] == [];
  }

  lemma CssSound(text: string)
    requires Balanced(text)
    ensures var p := Piece(CssBlock(" ", text), "\n");
      Sound([p]) && Lexemes([p]) == [Lexeme(RAW_BLOCK, Stripped(text, true))]
  {
    hide Gap, Sound, Balanced, Stripped;
    var p := Piece(CssBlock(" ", text), "\n");
    forall at: Setting, rest: string | !at.inBrackets && Solid(rest) ensures Fits(p.item, p.gap, rest, at) {
      SpaceGap(" ", rest);
      SpaceGap("\n", rest);
    }
    OneSound(p);
    assert [p][1..] == [];
  }

  lemma EnvSound(word: string)
    requires AllWord(word)
    ensures var p := Piece(Env(word), " "); Sound([p]) && Lexemes([p]) == [Lexeme(ENV_VAR, "$" + word)]
  {
    hide Gap, Sound, AllWord;
    var p := Piece(Env(word), " ");
    forall at: Setting, rest: string | !at.inBrackets && Solid(rest) ensures Fits(p.item, p.gap, rest, at) {
      SpaceGap(" ", rest);
    }
    OneSound(p);
    assert [p][1..] == [];
  }

  lemma DigitsSound(text: string)
    requires text != "" && AllDigits(text)
    ensures var p := Piece(Digits(text), " "); Sound([p]) && Lexemes([p]) == [Lexeme(NUMBER, text)]
  {
    hide Gap, Sound, AllDigits;
    var p := Piece(Digits(text), " ");
    forall at: Setting, rest: string | !at.inBrackets && Solid(rest) ensures Fits(p.item, p.gap, rest, at) {
      SpaceGap(" ", rest);
    }
    OneSound(p);
    assert [p][1..] == [];
  }

  lemma SpanSound(low: string, high: string)
    requires low != "" && AllDigits(low) && high != "" && AllDigits(high)
    ensures var p := Piece(Span(low, high), " "); Sound([p]) && Lexemes([p]) == [Lexeme(RANGE, low + ".." + high)]
  {
    hide Gap, Sound, AllDigits;
    var p := Piece(Span(low, high), " ");
    forall at: Setting, rest: string | !at.inBrackets && Solid(rest) ensures Fits(p.item, p.gap, rest, at) {
      SpaceGap(" ", rest);
    }
    OneSound(p);
    assert [p][1..] == [];
  }

  // ---------- lists in brackets ----------

  const OPEN_LIST := Piece(Sign(OPEN_BRACKET), " ")
  const CLOSE_LIST := Piece(Sign(CLOSE_BRACKET), "\n")
  const NEXT := Piece(Sign(COMMA), " ")

  function Cell(name: string): Piece {
    Piece(Name(name), " ")
  }

  /** Names with commas between them, and the closing bracket. */
  function Listed(names: seq<string>): (ps: seq<Piece>)
    ensures AllWritable(ps) && ps != []
  {
    if names == [] then [CLOSE_LIST]
    else [Cell(names[0])] + (if |names| == 1 then [CLOSE_LIST] else [NEXT] + Listed(names[1..]))
  }

  predicate AllNames(names: seq<string>) {
    forall i :: 0 <= i < |names| ==> IsName(names[i])
  }

  lemma ListPieceFits(p: Piece, tail: string, at: Setting)
    requires p == OPEN_LIST || at.inBrackets
    requires p == OPEN_LIST || p == CLOSE_LIST || p == NEXT || (p.item.Name? && IsName(p.item.word))
    requires Solid(tail) && (p.item.Name? ==> p.gap == " ")
    ensures Writable(p.item) && Fits(p.item, p.gap, tail, at)
    ensures Behind(p.item, at).inBrackets <==> p != CLOSE_LIST
    ensures Solid(Written(p.item) + (p.gap + tail))
  {
    hide Gap, IsName;
    SpaceGap(" ", tail);
    SpaceGap("\n", tail);
    WrittenSolid(p.item, p.gap, tail, at);
  }

  /** One more piece in front. */
  lemma FitMore(p: Piece, ps: seq<Piece>, rest: string, at: Setting)
    requires AllWritable(ps) && Writable(p.item) && Fits(p.item, p.gap, Print(ps) + rest, at)
    requires FitBefore(ps, rest, Behind(p.item, at))
    ensures AllWritable([p] + ps) && FitBefore([p] + ps, rest, at)
    ensures Later([p] + ps, at) == Later(ps, Behind(p.item, at))
    ensures Print([p] + ps) + rest == Written(p.item) + (p.gap + (Print(ps) + rest))
    ensures Meant([p] + ps, at) == [Token(p.item, p.gap, at.inBrackets)] + Meant(ps, Behind(p.item, at))
  {
    var all := [p] + ps;
    assert all[0] == p && all[1..] == ps && AllWritable(all);
    hide Fits, Behind, FitBefore, Later, Meant, Token, Writable, Written;
    FitFirst(all, rest, at);
    MeantFirst(all, at);
    assert Print(all) == Written(p.item) + (p.gap + Print(ps));
    Associates(p.gap, Print(ps), rest);
    Associates(Written(p.item), p.gap + Print(ps), rest);
  }

  /** What the list says inside the brackets. */
  function ListedLexemes(names: seq<string>): seq<Lexeme> {
    if names == [] then [Lexeme(CLOSE_BRACKET, "]")]
    else if |names| == 1 then [Lexeme(STRING, names[0]), Lexeme(CLOSE_BRACKET, "]")]
    else [Lexeme(STRING, names[0]), Lexeme(COMMA, ",")] + ListedLexemes(names[1..])
  }

  lemma ListEnd(rest: string, at: Setting)
    requires at.inBrackets && Solid(rest)
    ensures FitBefore([CLOSE_LIST], rest, at) && !Later([CLOSE_LIST], at).inBrackets
    ensures Meant([CLOSE_LIST], at) == [Lexeme(CLOSE_BRACKET, "]")] && Solid(Print([CLOSE_LIST]) + rest)
  {
    ListPieceFits(CLOSE_LIST, rest, at);
    FitNothing(rest, Behind(CLOSE_LIST.item, at));
    assert Print([]) + rest == rest;
    FitMore(CLOSE_LIST, [], rest, at);
    assert [CLOSE_LIST] + [] == [CLOSE_LIST];
  }

  lemma ListedAlone(name: string, rest: string, at: Setting)
    requires at.inBrackets && Solid(rest) && IsName(name)
    ensures var ps := [Cell(name)] + [CLOSE_LIST];
      && FitBefore(ps, rest, at) && !Later(ps, at).inBrackets && Solid(Print(ps) + rest)
      && Meant(ps, at) == [Lexeme(STRING, name), Lexeme(CLOSE_BRACKET, "]")]
  {
    hide FitBefore, Later, Print, Meant, Solid, Fits;
    var cell := Cell(name);
    SolidNothing();
    ListPieceFits(cell, "", at);
    ListEnd(rest, Behind(cell.item, at));
    ListPieceFits(cell, Print([CLOSE_LIST]) + rest, at);
    FitMore(cell, [CLOSE_LIST], rest, at);
  }

  lemma ListedStep(name: string, tail: seq<Piece>, ts: seq<Lexeme>, rest: string, at: Setting, next: Setting)
    requires at.inBrackets && Solid(rest) && IsName(name) && AllWritable(tail)
    requires next == Behind(NEXT.item, Behind(Name(name), at))
    requires FitBefore(tail, rest, next) && !Later(tail, next).inBrackets && Meant(tail, next) == ts
    requires Solid(Print(tail) + rest)
    ensures var ps := [Cell(name)] + ([NEXT] + tail);
      && FitBefore(ps, rest, at) && !Later(ps, at).inBrackets && Solid(Print(ps) + rest)
      && Meant(ps, at) == [Lexeme(STRING, name), Lexeme(COMMA, ",")] + ts
  {
    hide FitBefore, Later, Print, Meant, Solid, Fits;
    var cell := Cell(name);
    var inside := Behind(cell.item, at);
    SolidNothing();
    ListPieceFits(cell, "", at);
    ListPieceFits(NEXT, Print(tail) + rest, inside);
    FitMore(NEXT, tail, rest, inside);
    ListPieceFits(cell, Print([NEXT] + tail) + rest, at);
    FitMore(cell, [NEXT] + tail, rest, at);
    assert [Lexeme(STRING, name)] + ([Lexeme(COMMA, ",")] + ts) == [Lexeme(STRING, name), Lexeme(COMMA, ",")] + ts;
  }

  lemma {:induction false} ListedFits(names: seq<string>, rest: string, at: Setting)
    requires at.inBrackets && Solid(rest) && AllNames(names)
    ensures FitBefore(Listed(names), rest, at) && !Later(Listed(names), at).inBrackets
    ensures Meant(Listed(names), at) == ListedLexemes(names) && Solid(Print(Listed(names)) + rest)
    decreases |names|
  {
    hide FitBefore, Later, Print, Meant, Solid, Fits;
    if names == [] {
      ListEnd(rest, at);
    } else if |names| == 1 {
      ListedAlone(names[0], rest, at);
    } else {
      var next := Behind(NEXT.item, Behind(Name(names[0]), at));
      ListedFits(names[1..], rest, next);
      ListedStep(names[0], Listed(names[1..]), ListedLexemes(names[1..]), rest, at, next);
    }
  }

  lemma SolidNothing()
    ensures Solid("")
  {
  }

  /** The parameters of a query. */
  function ParamPieces(names: seq<string>): (ps: seq<Piece>)
    ensures AllWritable(ps)
  {
    [Key(PARAMS)] + ([OPEN_LIST] + Listed(names))
  }

  lemma ParamsSound(names: seq<string>)
    requires AllNames(names)
    ensures Sound(ParamPieces(names))
    ensures Lexemes(ParamPieces(names))
      == [Token(Word(PARAMS), " ", false)] + ([Lexeme(OPEN_BRACKET, "[")] + ListedLexemes(names))
  {
    hide FitBefore, Later, Print, Meant, Solid, Fits, Listed, ListedLexemes, Gap;
    var ps := ParamPieces(names);
    forall at: Setting, rest: string | !at.inBrackets && Solid(rest)
      ensures FitBefore(ps, rest, at) && !Later(ps, at).inBrackets
      ensures Meant(ps, at) == [Token(Word(PARAMS), " ", false)] + ([Lexeme(OPEN_BRACKET, "[")] + ListedLexemes(names))
    {
      ParamsFit(names, rest, at);
    }
    assert Meant(ps, OUTSIDE) == Lexemes(ps);
    SolidNothing();
  }

  lemma ParamsFit(names: seq<string>, rest: string, at: Setting)
    requires AllNames(names) && !at.inBrackets && Solid(rest)
    ensures var ps := ParamPieces(names);
      && FitBefore(ps, rest, at) && !Later(ps, at).inBrackets
      && Meant(ps, at) == [Token(Word(PARAMS), " ", false)] + ([Lexeme(OPEN_BRACKET, "[")] + ListedLexemes(names))
  {
    hide FitBefore, Later, Print, Meant, Solid, Fits, Listed, ListedLexemes, Gap, NoWordFirst;
    var list := Listed(names);
    var behind := Behind(Word(PARAMS), at);
    var inside := Behind(OPEN_LIST.item, behind);
    ListedFits(names, rest, inside);
    ListPieceFits(OPEN_LIST, Print(list) + rest, behind);
    FitMore(OPEN_LIST, list, rest, behind);
    var tail := Print([OPEN_LIST] + list) + rest;
    SpaceGap(" ", tail);
    KeyFits(PARAMS, tail, at);
    FitMore(Key(PARAMS), [OPEN_LIST] + list, rest, at);
  }

  lemma KeyFits(kind: TokenType, rest: string, at: Setting)
    requires IsKeyword(kind) && kind != SQL && kind != CSS && Solid(rest)
    ensures Fits(Word(kind), " ", rest, at)
  {
    SpaceGap(" ", rest);
  }
}
