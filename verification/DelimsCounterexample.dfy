/** Why the main theorem asks sections to restore the delimiters: going back to the start
    of a repeated section does not go back to the delimiters in force there. */
module DelimsCounterexample {
  import opened CStrings
  import opened Options
  import opened JsonValues
  import opened Selection
  import opened Tags
  import opened Lines
  import opened Engine
  import opened Template
  import opened EngineCorrect

  const TEMPLATE: string := "{{#a}}{{=[ ]=}}x[/a]"
  const DATA := Object([Member("a", Array([Null, Null]))])
  const PLAIN_FLAGS := Flags(false, false, false, false, false, false, false)
  const BRACKETS := Delims("[", "]")

  function ENV(): Env {
    Env(PLAIN_FLAGS, (j, s) => 0, j => "")
  }

  lemma NotThere(t: string, i: nat, d: string)
    requires d != "" && i < |t| && t[i] != d[0]
    ensures !Occurs(t, i, d)
  {
    if i + |d| <= |t| {
      assert t[i..i + |d|][0] == t[i];
    }
  }

  lemma NextTagIs(t: string, p: nat, open: nat, term: nat, d: Delims)
    requires ValidDelims(d) && p <= open && Occurs(t, open, d.open)
    requires open + |d.open| <= term && Occurs(t, term, d.close)
    requires forall i :: p <= i < open ==> t[i] != d.open[0]
    requires forall i :: open + |d.open| <= i < term ==> t[i] != d.close[0]
    ensures NextTag(PLAIN_FLAGS, t, p, d) == ReadTag(PLAIN_FLAGS, t, t[p..open], open + |d.open|, term, d)
  {
    hide ReadTag;
    forall i | p <= i < open
      ensures !Occurs(t, i, d.open)
    {
      NotThere(t, i, d.open);
    }
    forall i | open + |d.open| <= i < term
      ensures !Occurs(t, i, d.close)
    {
      NotThere(t, i, d.close);
    }
    FindIs(t, p, d.open, open);
    FindIs(t, open + |d.open|, d.close, term);
  }

  lemma OneLetter(c: char)
    requires !IsSpace(c)
    ensures Trim([c]) == [c] && TrimLeft([c]) == [c]
  {
    assert TrimRight([c]) == [c];
  }

  /** A tag with a sigil and a name. */
  lemma SigilTag(t: string, text: string, beg: nat, term: nat, d: Delims, c: char, name: string)
    requires ValidDelims(d) && beg <= term && Occurs(t, term, d.close)
    requires c == '#' || c == '/'
    requires t[beg..term] == [c] + name && Trim(name) == name && 0 < |name| <= MAX_NAME
    ensures ReadTag(PLAIN_FLAGS, t, text, beg, term, d)
         == Read(Token(text, if c == '#' then Section(name, false) else Close(name), term + |d.close|, d))
  {
    hide Trim;
    var body := t[beg..term];
    assert body[0] == t[beg] && body[1..] == name;
  }

  lemma DelimsTag(t: string, text: string, beg: nat, term: nat, d: Delims, nd: Delims)
    requires ValidDelims(d) && beg < term && Occurs(t, term, d.close)
    requires t[beg] == '=' && ReadDelims(t[beg..term]) == Some(nd)
    ensures ReadTag(PLAIN_FLAGS, t, text, beg, term, d) == Read(Token(text, SetDelims(nd), term + |d.close|, nd))
  {
    hide ReadDelims;
  }

  lemma BlankTag(t: string, text: string, beg: nat, term: nat, d: Delims)
    requires ValidDelims(d) && beg < term && Occurs(t, term, d.close)
    requires t[beg] == ' ' && Trim(t[beg..term]) == ""
    ensures ReadTag(PLAIN_FLAGS, t, text, beg, term, d) == Bad(EmptyTag)
  {
    hide Trim;
  }

  lemma LetterA()
    ensures Trim("a") == "a"
  {
    hide Trim, TrimLeft;
    OneLetter('a');
    assert ['a'] == "a";
  }

  lemma ReadOpen()
    ensures NextTag(PLAIN_FLAGS, TEMPLATE, 0, DEFAULT_DELIMS)
         == Read(Token("", Section("a", false), 6, DEFAULT_DELIMS))
  {
    hide ReadTag, NextTag, Trim;
    NextTagIs(TEMPLATE, 0, 0, 4, DEFAULT_DELIMS);
    LetterA();
    assert TEMPLATE[0..0] == "";
    assert TEMPLATE[2..4] == ['#'] + "a";
    SigilTag(TEMPLATE, "", 2, 4, DEFAULT_DELIMS, '#', "a");
  }

  lemma ReadChange()
    ensures NextTag(PLAIN_FLAGS, TEMPLATE, 6, DEFAULT_DELIMS)
         == Read(Token("", SetDelims(BRACKETS), 15, BRACKETS))
  {
    hide ReadTag, NextTag, ReadDelims;
    NextTagIs(TEMPLATE, 6, 6, 13, DEFAULT_DELIMS);
    assert TEMPLATE[8..13] == "=[ ]=";
    BracketsRead();
    assert TEMPLATE[6..6] == "";
    DelimsTag(TEMPLATE, "", 8, 13, DEFAULT_DELIMS, BRACKETS);
  }

  lemma BracketsRead()
    ensures ReadDelims("=[ ]=") == Some(BRACKETS)
  {
    var body := "=[ ]=";
    var inner := "[ ]";
    assert body[1..|body| - 1] == inner;
    assert TrimLeft(inner) == inner;
    assert TrimRight(inner) == inner;
    assert WordLength(inner) == 1 by {
      assert inner[1..] == " ]";
    }
    assert inner[1..] == " ]" && " ]"[1..] == "]";
    OneLetter(']');
    assert inner[..1] == "[";
  }

  lemma ReadClose()
    ensures NextTag(PLAIN_FLAGS, TEMPLATE, 15, BRACKETS)
         == Read(Token("x", Close("a"), 20, BRACKETS))
  {
    hide ReadTag, NextTag, Trim;
    NextTagIs(TEMPLATE, 15, 16, 19, BRACKETS);
    LetterA();
    assert TEMPLATE[15..16] == "x";
    assert TEMPLATE[17..19] == ['/'] + "a";
    SigilTag(TEMPLATE, "x", 17, 19, BRACKETS, '/', "a");
  }

  lemma BlankTrims()
    ensures Trim(" ") == ""
  {
    assert TrimLeft(" ") == TrimLeft(" "[1..]);
  }

  /** Going back, the opening bracket inside the delimiter tag itself starts a tag. */
  lemma ReadAgain()
    ensures NextTag(PLAIN_FLAGS, TEMPLATE, 6, BRACKETS) == Bad(EmptyTag)
  {
    hide ReadTag, NextTag, Trim;
    NextTagIs(TEMPLATE, 6, 9, 11, BRACKETS);
    assert TEMPLATE[10..11] == " ";
    BlankTrims();
    BlankTag(TEMPLATE, TEMPLATE[6..9], 10, 11, BRACKETS);
  }

  lemma ReadEnd()
    ensures NextTag(PLAIN_FLAGS, TEMPLATE, 20, BRACKETS) == AtEnd("")
  {
    assert Find(TEMPLATE, 20, "[") == 20;
    assert TEMPLATE[20..] == "";
  }

  const ITEMS: seq<View> := [View(Null, ""), View(Null, "")]

  lemma SelectsBoth()
    ensures Items(Select(ENV(), [View(DATA, "")], "a")) == ITEMS
  {
  }

  const OPEN: Token := Token("", Section("a", false), 6, DEFAULT_DELIMS)
  const CHANGE: Token := Token("", SetDelims(BRACKETS), 15, BRACKETS)
  const CLOSE: Token := Token("x", Close("a"), 20, BRACKETS)
  const BODY: Forest := Leaf(CHANGE, CloseAt(15, BRACKETS, CLOSE))
  const TREE: Forest := Node(OPEN, BODY, End(""))

  lemma ParsesTo()
    ensures Parse(PLAIN_FLAGS, TEMPLATE) == TREE
    ensures !DelimsRestored(Parse(PLAIN_FLAGS, TEMPLATE))
  {
    hide NextTag;
    ReadOpen();
    ReadChange();
    ReadClose();
    ReadEnd();
    assert [] + ["a"] == ["a"];
    assert Build(PLAIN_FLAGS, TEMPLATE, 15, BRACKETS, ["a"]) == CloseAt(15, BRACKETS, CLOSE);
    assert Build(PLAIN_FLAGS, TEMPLATE, 6, DEFAULT_DELIMS, ["a"]) == BODY;
    assert Build(PLAIN_FLAGS, TEMPLATE, 20, BRACKETS, []) == End("");
  }

  lemma LinesOf()
    ensures TagLine("", true, START, false) == ("", Line(Lone, ""))
    ensures TagLine("", true, Line(Lone, ""), false) == ("", Line(Mixed, ""))
    ensures TagLine("", true, Line(Mixed, ""), false) == ("", Line(Mixed, ""))
    ensures TagLine("x", true, Line(Mixed, ""), false) == ("x", Line(Mixed, ""))
    ensures EndLine("", true, Line(Mixed, "")) == ""
  {
    assert "x"[..0] == "";
    assert ScanText("x", true, Scan("", Line(Mixed, ""), "")) == Scan("", Line(Mixed, ""), "x");
  }

  lemma BodyPutsX(ctx: seq<View>, line: Line)
    requires ctx != [] && (line == Line(Lone, "") || line == Line(Mixed, ""))
    ensures Once(ENV(), BODY, true, ctx, line) == Closed("x", Line(Mixed, ""))
  {
  }

  /** The meaning of the template: the section puts out `x` for each of the two items. */
  lemma Means()
    ensures Render(ENV(), TEMPLATE, DATA) == Done("xx")
  {
    hide Parse, Select;
    ParsesTo();
    SelectsBoth();
    LinesOf();
    var ctx := [View(DATA, "")];
    BodyPutsX(ctx + [ITEMS[0]], Line(Lone, ""));
    BodyPutsX(ctx + [ITEMS[1]], Line(Mixed, ""));
    assert ITEMS[1..] == [ITEMS[1]];
    assert Each(ENV(), BODY, ITEMS[1..], ctx, Line(Mixed, "")) == Closed("x", Line(Mixed, ""));
    assert Each(ENV(), BODY, ITEMS, ctx, Line(Lone, "")) == Closed("xx", Line(Mixed, ""));
    assert Eval(ENV(), End(""), true, ctx, Line(Mixed, "")) == Ended("");
    assert Eval(ENV(), TREE, true, ctx, START) == Ended("xx");
  }

  /** The same template with one item in the data. */
  const ONE := Object([Member("a", Array([Null]))])

  lemma SelectsOne()
    ensures Items(Select(ENV(), [View(ONE, "")], "a")) == [View(Null, "")]
  {
  }

  lemma OneIsSteady()
    ensures Steady(ENV(), Parse(PLAIN_FLAGS, TEMPLATE), true, [View(ONE, "")])
    ensures Render(ENV(), TEMPLATE, ONE) == Done("x")
  {
    hide Parse, Select;
    ParsesTo();
    SelectsOne();
    LinesOf();
    var ctx := [View(ONE, "")];
    BodyPutsX(ctx + [View(Null, "")], Line(Lone, ""));
    assert Each(ENV(), BODY, [View(Null, "")], ctx, Line(Lone, "")) == Closed("x", Line(Mixed, ""));
    assert Eval(ENV(), End(""), true, ctx, Line(Mixed, "")) == Ended("");
    assert Eval(ENV(), TREE, true, ctx, START) == Ended("x");
  }

  const ROOT_LEVEL: Level := Level(View(DATA, ""), [])
  const SECTION: Sec := Sec("a", 6, true, true)

  /** The machine in the body of the section. */
  function Inside(pos: nat, d: Delims, line: Line, rest: seq<View>, out: string): State {
    State(pos, d, line, true, [SECTION], [ROOT_LEVEL, Level(View(Null, ""), rest)], out)
  }

  lemma Opens()
    ensures Step(ENV(), TEMPLATE, Engine.Start(DATA))
         == Next(Inside(6, DEFAULT_DELIMS, Line(Lone, ""), [View(Null, "")], ""))
  {
    hide NextTag, Select;
    ReadOpen();
    LinesOf();
    SelectsBoth();
    var a := Advance(Engine.Start(DATA), OPEN);
    assert "" + "" == "";
    assert Views(a.levels) == [View(DATA, "")];
    assert ITEMS[1..] == [View(Null, "")];
  }

  lemma Changes()
    ensures Step(ENV(), TEMPLATE, Inside(6, DEFAULT_DELIMS, Line(Lone, ""), [View(Null, "")], ""))
         == Next(Inside(15, BRACKETS, Line(Mixed, ""), [View(Null, "")], ""))
  {
    hide NextTag;
    ReadChange();
    LinesOf();
  }

  lemma GoesBack()
    ensures Step(ENV(), TEMPLATE, Inside(15, BRACKETS, Line(Mixed, ""), [View(Null, "")], ""))
         == Next(Inside(6, BRACKETS, Line(Mixed, ""), [], "x"))
  {
    hide NextTag;
    ReadClose();
    LinesOf();
    assert "" + "x" == "x";
    assert [View(Null, "")][1..] == [];
  }

  /** A section that changes the delimiters and has two items: its meaning is `xx`, but the
      machine reads the body again with the wrong delimiters and reports an empty tag. */
  lemma DelimsNotRestored()
    ensures !DelimsRestored(Parse(PLAIN_FLAGS, TEMPLATE))
    ensures Render(ENV(), TEMPLATE, DATA) == Done("xx")
    ensures Inv(TEMPLATE, Size(DATA), Engine.Start(DATA))
    ensures Run(ENV(), TEMPLATE, Size(DATA), Engine.Start(DATA)) == Fail(EmptyTag)
  {
    hide NextTag, Step, Run, Render, Parse;
    ParsesTo();
    Means();
    StartInv(TEMPLATE, DATA);
    var n := Size(DATA);
    RunStep(ENV(), TEMPLATE, n, Engine.Start(DATA));
    Opens();
    RunStep(ENV(), TEMPLATE, n, Inside(6, DEFAULT_DELIMS, Line(Lone, ""), [View(Null, "")], ""));
    Changes();
    RunStep(ENV(), TEMPLATE, n, Inside(15, BRACKETS, Line(Mixed, ""), [View(Null, "")], ""));
    GoesBack();
    RunStep(ENV(), TEMPLATE, n, Inside(6, BRACKETS, Line(Mixed, ""), [], "x"));
    Stops();
  }

  lemma Stops()
    ensures Step(ENV(), TEMPLATE, Inside(6, BRACKETS, Line(Mixed, ""), [], "x")) == Halt(Fail(EmptyTag))
  {
    hide NextTag;
    ReadAgain();
  }

  /** For such a template failure depends on the data: with one item the machine renders
      it, with two it fails. */
  lemma FailureDependsOnData()
    ensures Inv(TEMPLATE, Size(ONE), Engine.Start(ONE)) && Inv(TEMPLATE, Size(DATA), Engine.Start(DATA))
    ensures Run(ENV(), TEMPLATE, Size(ONE), Engine.Start(ONE)) == Done("x")
    ensures Run(ENV(), TEMPLATE, Size(DATA), Engine.Start(DATA)) == Fail(EmptyTag)
  {
    hide NextTag, Step, Run, Render, Parse, Steady;
    OneIsSteady();
    MachineIsRecursion(ENV(), TEMPLATE, ONE);
    DelimsNotRestored();
  }
}
