/** The line-free meaning of a template, as mustache(5) describes it: text is copied, a
    variable is replaced, a section is its body once per item. Where every non-variable
    tag shares its line with printable text or a tag in front of it, the engine renders
    exactly this meaning; its line rules only matter for tags that start their line. */
module PlainMeaning {
  import opened CStrings
  import opened JsonValues
  import opened Selection
  import opened Tags
  import opened Lines
  import opened Engine
  import opened Template
  import opened EngineCorrect

  /** Some printable character stands on the last line of the text. */
  predicate Anchored(t: string)
    decreases |t|
  {
    t != "" && t[|t| - 1] != '\n' && (!IsSpace(t[|t| - 1]) || Anchored(t[..|t| - 1]))
  }

  /** A tag behind this text shares its line with what is in front: printable text, or an
      earlier tag of which that is known. */
  predicate Fits(t: string, mixed: bool) {
    Anchored(t) || (mixed && NoNewline(t))
  }

  /** Every tag except variables has printable text or another tag in front of it on its
      line; `mixed` says that the line has something at the start of f. */
  predicate Inline(f: Forest, mixed: bool) {
    match f
    case Leaf(token, rest) => (token.tag.Variable? || Fits(token.text, mixed)) && Inline(rest, true)
    case Node(open, body, rest) => Fits(open.text, mixed) && Inline(body, true) && Inline(rest, true)
    case CloseAt(_, _, token) => Fits(token.text, mixed)
    case _ => true
  }

  /** The text put out up to the closing tag, or up to the end, or the failure. */
  datatype Plain = ToClose(out: string) | ToEnd(out: string) | Fails(error: Error)

  function Before(out: string, p: Plain): Plain {
    match p
    case ToClose(o) => ToClose(out + o)
    case ToEnd(o) => ToEnd(out + o)
    case Fails(_) => p
  }

  function Meaning(env: Env, f: Forest, ctx: seq<View>): Plain
    requires ctx != []
    decreases f, 0
  {
    match f
    case End(text) => ToEnd(text)
    case CloseAt(_, _, token) => ToClose(token.text)
    case Stop(e) => Fails(e)
    case Leaf(token, rest) =>
      Before(token.text + if token.tag.Variable? then Put(env, ctx, token.tag.name, token.tag.escape) else "",
             Meaning(env, rest, ctx))
    case Node(open, body, rest) =>
      var inner :=
        if !open.tag.Section? then Skipped(body)
        else
          match Enter(env, ctx, open.tag.name)
          case Refused => Fails(TooDeep)
          case Entered(items) =>
            if open.tag.inverted then (if items == [] then Meaning(env, body, ctx) else Skipped(body))
            else if items == [] then Skipped(body)
            else ForEach(env, body, items, ctx);
      if inner.ToClose? then Before(open.text + inner.out, Meaning(env, rest, ctx))
      else Before(open.text, inner)
  }

  function ForEach(env: Env, body: Forest, items: seq<View>, ctx: seq<View>): Plain
    requires items != []
    decreases body, 1 + |items|
  {
    var first := Meaning(env, body, ctx + [items[0]]);
    if |items| == 1 || !first.ToClose? then first
    else Before(first.out, ForEach(env, body, items[1..], ctx))
  }

  /** A body that is not rendered: only its static errors count. */
  function Skipped(body: Forest): Plain {
    match Terminator(body)
    case CloseAt(_, _, _) => ToClose("")
    case Stop(e) => Fails(e)
    case _ => ToEnd("")
  }

  // ---------- the engine renders it ----------

  predicate Loose(line: Line) {
    line.alone != Lone && line.pref == ""
  }

  lemma {:induction false} AnchoredMixes(t: string, enabled: bool, s: Scan)
    requires Anchored(t)
    ensures ScanText(t, enabled, s).line.alone == Mixed
    decreases |t|
  {
    if IsSpace(t[|t| - 1]) {
      AnchoredMixes(t[..|t| - 1], enabled, s);
    }
  }

  lemma {:induction false} FitsMixes(t: string, mixed: bool, enabled: bool, s: Scan)
    requires Fits(t, mixed) && (mixed ==> s.line.alone == Mixed)
    ensures ScanText(t, enabled, s).line.alone == Mixed
    decreases |t|
  {
    if Anchored(t) {
      AnchoredMixes(t, enabled, s);
    } else if t != "" {
      assert forall i :: 0 <= i < |t| - 1 ==> t[..|t| - 1][i] == t[i];
      FitsMixes(t[..|t| - 1], mixed, enabled, s);
    }
  }

  /** Text in front of an inline tag is copied, and leaves the line loose. */
  lemma InlineTag(t: string, line: Line, variable: bool, mixed: bool)
    requires Loose(line) && (mixed ==> line.alone == Mixed) && (variable || Fits(t, mixed))
    ensures TagLine(t, true, line, variable) == (t, Line(Mixed, ""))
  {
    ScanKeeps(t, Scan("", line, ""));
    assert "" + "" + t == t;
    if !variable {
      FitsMixes(t, mixed, true, Scan("", line, ""));
    }
  }

  lemma {:induction false} DisabledLoose(t: string, s: Scan)
    requires s.line.alone != Lone
    ensures ScanText(t, false, s).line.alone != Lone && ScanText(t, false, s).out == s.out
    decreases |t|
  {
    if t != "" {
      DisabledLoose(t[..|t| - 1], s);
    }
  }

  lemma InlineDisabled(t: string, line: Line, variable: bool, mixed: bool)
    requires line.alone != Lone && (mixed ==> line.alone == Mixed) && (variable || Fits(t, mixed))
    ensures TagLine(t, false, line, variable) == ("", Line(Mixed, ""))
  {
    DisabledLoose(t, Scan("", line, ""));
    if !variable {
      FitsMixes(t, mixed, false, Scan("", line, ""));
    }
  }

  lemma {:induction false} SkipsBody(env: Env, f: Forest, ctx: seq<View>, line: Line, mixed: bool)
    requires ctx != [] && Inline(f, mixed) && line.alone != Lone && (mixed ==> line.alone == Mixed)
    ensures match Terminator(f)
      case CloseAt(_, _, token) =>
        var y := Eval(env, f, false, ctx, line);
        && Once(env, f, false, ctx, line) == Closed("", Line(Mixed, ""))
        && y.Closed? && y.out == "" && y.line.alone != Lone && Fits(token.text, y.line.alone == Mixed)
      case Stop(e) => Eval(env, f, false, ctx, line) == Failed(e) && Once(env, f, false, ctx, line) == Failed(e)
      case _ => Eval(env, f, false, ctx, line) == Ended("") && Once(env, f, false, ctx, line) == Ended("")
  {
    match f {
      case Leaf(token, rest) =>
        InlineDisabled(token.text, line, token.tag.Variable?, mixed);
        SkipsBody(env, rest, ctx, Line(Mixed, ""), true);
      case Node(open, body, rest) =>
        InlineDisabled(open.text, line, false, mixed);
        SkipsBody(env, body, ctx, Line(Mixed, ""), true);
        if Terminator(body).CloseAt? {
          SkipsBody(env, rest, ctx, Line(Mixed, ""), true);
        }
      case CloseAt(_, _, token) =>
      case End(text) =>
        DisabledLoose(text, Scan("", line, ""));
      case Stop(_) =>
    }
    if Terminator(f).CloseAt? {
      var y := Eval(env, f, false, ctx, line);
      InlineDisabled(Terminator(f).token.text, y.line, false, y.line.alone == Mixed);
    }
  }

  /** What the engine's evaluation and the plain meaning have in common. */
  ghost predicate Same(y: Yield, p: Plain) {
    match p
    case ToClose(out) => y == Closed(out, Line(Mixed, ""))
    case ToEnd(out) => y == Ended(out)
    case Fails(e) => y == Failed(e)
  }

  lemma FinishSame(env: Env, f: Forest, ctx: seq<View>, line: Line)
    requires ctx != [] && Evaluates(env, f, ctx, line)
    ensures Same(Once(env, f, true, ctx, line), Meaning(env, f, ctx))
  {
    var y := Eval(env, f, true, ctx, line);
    if y.Closed? {
      InlineTag(Terminator(f).token.text, y.line, false, y.line.alone == Mixed);
    }
  }

  /** Up to its closing tag, f evaluates to its meaning without the text in front of that tag. */
  ghost predicate Evaluates(env: Env, f: Forest, ctx: seq<View>, line: Line)
    requires ctx != []
  {
    var y := Eval(env, f, true, ctx, line);
    match Meaning(env, f, ctx)
    case ToClose(out) =>
      && Terminator(f).CloseAt? && y.Closed? && Loose(y.line) && out == y.out + Terminator(f).token.text
      && Fits(Terminator(f).token.text, y.line.alone == Mixed)
    case ToEnd(out) => y == Ended(out)
    case Fails(e) => y == Failed(e)
  }

  lemma EvaluatesThen(env: Env, f: Forest, rest: Forest, ctx: seq<View>, line: Line, l: Line, p: string)
    requires ctx != [] && Terminator(f) == Terminator(rest)
    requires Eval(env, f, true, ctx, line) == Then(p, Eval(env, rest, true, ctx, l))
    requires Meaning(env, f, ctx) == Before(p, Meaning(env, rest, ctx))
    requires Evaluates(env, rest, ctx, l)
    ensures Evaluates(env, f, ctx, line)
  {
    var z := Eval(env, rest, true, ctx, l);
    if z.Closed? && Terminator(f).CloseAt? {
      Append(p, z.out, Terminator(f).token.text);
    }
  }

  lemma EvaluatesLeaf(env: Env, token: Token, rest: Forest, ctx: seq<View>, line: Line, mixed: bool)
    requires ctx != [] && Inline(Leaf(token, rest), mixed) && Loose(line) && (mixed ==> line.alone == Mixed)
    requires Evaluates(env, rest, ctx, Line(Mixed, ""))
    ensures Evaluates(env, Leaf(token, rest), ctx, line)
  {
    hide TagLine, Put;
    InlineTag(token.text, line, token.tag.Variable?, mixed);
    EvaluatesThen(env, Leaf(token, rest), rest, ctx, line, Line(Mixed, ""),
      token.text + if token.tag.Variable? then Put(env, ctx, token.tag.name, token.tag.escape) else "");
  }

  lemma EndLineIs(text: string, line: Line)
    requires Loose(line)
    ensures EndLine(text, true, line) == text
  {
    hide ScanText;
    ScanKeeps(text, Scan("", line, ""));
    assert "" + "" + text == text;
  }

  lemma EvaluatesEnd(env: Env, text: string, ctx: seq<View>, line: Line)
    requires ctx != [] && Loose(line)
    ensures Evaluates(env, End(text), ctx, line)
  {
    hide EndLine, TagLine, Then, Terminator, Loose;
    EndLineIs(text, line);
  }

  lemma {:induction false} EvaluatesTo(env: Env, f: Forest, ctx: seq<View>, line: Line, mixed: bool)
    requires ctx != [] && Inline(f, mixed) && Loose(line) && (mixed ==> line.alone == Mixed)
    ensures Evaluates(env, f, ctx, line)
    decreases f, 1
  {
    match f {
      case End(text) =>
        EvaluatesEnd(env, text, ctx, line);
      case CloseAt(_, _, token) =>
        assert "" + token.text == token.text;
      case Stop(_) =>
      case Leaf(token, rest) =>
        EvaluatesTo(env, rest, ctx, Line(Mixed, ""), true);
        EvaluatesLeaf(env, token, rest, ctx, line, mixed);
      case Node(open, body, rest) =>
        EvaluatesNode(env, open, body, rest, ctx, line, mixed);
    }
  }

  /** The iterations of a section, in both meanings. */
  function NodeInner(env: Env, open: Token, body: Forest, ctx: seq<View>): (Yield, Plain)
    requires ctx != []
  {
    var l := Line(Mixed, "");
    if !open.tag.Section? then (Once(env, body, false, ctx, l), Skipped(body))
    else
      match Enter(env, ctx, open.tag.name)
      case Refused => (Failed(TooDeep), Fails(TooDeep))
      case Entered(items) =>
        if open.tag.inverted == (items == []) then
          if items == [] then (Once(env, body, true, ctx, l), Meaning(env, body, ctx))
          else (Each(env, body, items, ctx, l), ForEach(env, body, items, ctx))
        else (Once(env, body, false, ctx, l), Skipped(body))
  }

  /** The iterations of a section evaluate to their meaning. */
  lemma {:induction false} InnerSame(env: Env, open: Token, body: Forest, ctx: seq<View>)
    requires ctx != [] && Inline(body, true)
    ensures var (y, p) := NodeInner(env, open, body, ctx);
      Same(y, p) && (y.Closed? ==> Terminator(body).CloseAt?)
    decreases body, 3
  {
    hide Eval, Meaning, Once, Each, ForEach, Inline, Terminator, Enter;
    var l := Line(Mixed, "");
    SkipsBody(env, body, ctx, l, true);
    EvaluatesTo(env, body, ctx, l, true);
    FinishSame(env, body, ctx, l);
    EndedOnlyAtEnd(env, body, true, ctx, l);
    EndedOnlyAtEnd(env, body, false, ctx, l);
    if open.tag.Section? && Enter(env, ctx, open.tag.name).Entered? && Enter(env, ctx, open.tag.name).items != [] {
      var items := Enter(env, ctx, open.tag.name).items;
      EvaluatesEach(env, body, items, ctx, l);
      EachEnds(env, body, items, ctx, l);
    }
  }

  lemma {:induction false} EvaluatesEach(env: Env, body: Forest, items: seq<View>, ctx: seq<View>, line: Line)
    requires ctx != [] && Inline(body, true) && items != [] && Loose(line) && line.alone == Mixed
    ensures Same(Each(env, body, items, ctx, line), ForEach(env, body, items, ctx))
    decreases body, 2, |items|
  {
    EvaluatesTo(env, body, ctx + [items[0]], line, true);
    FinishSame(env, body, ctx + [items[0]], line);
    if |items| > 1 {
      EvaluatesEach(env, body, items[1..], ctx, Line(Mixed, ""));
    }
  }

  /** Both meanings of a section, in terms of its iterations. */
  lemma NodeUnfolds(env: Env, open: Token, body: Forest, rest: Forest, ctx: seq<View>, line: Line)
    requires ctx != [] && TagLine(open.text, true, line, false) == (open.text, Line(Mixed, ""))
    ensures var f := Node(open, body, rest); var (y, p) := NodeInner(env, open, body, ctx);
      && Eval(env, f, true, ctx, line) ==
           (if y.Closed? then Then(open.text + y.out, Eval(env, rest, true, ctx, y.line)) else Then(open.text, y))
      && Meaning(env, f, ctx) ==
           (if p.ToClose? then Before(open.text + p.out, Meaning(env, rest, ctx)) else Before(open.text, p))
  {
  }

  lemma {:induction false} EvaluatesNode(env: Env, open: Token, body: Forest, rest: Forest, ctx: seq<View>,
                                         line: Line, mixed: bool)
    requires ctx != [] && Inline(Node(open, body, rest), mixed) && Loose(line) && (mixed ==> line.alone == Mixed)
    ensures Evaluates(env, Node(open, body, rest), ctx, line)
    decreases Node(open, body, rest), 0
  {
    hide Eval, Meaning, NodeInner;
    var f := Node(open, body, rest);
    InlineTag(open.text, line, false, mixed);
    InnerSame(env, open, body, ctx);
    NodeUnfolds(env, open, body, rest, ctx, line);
    var (y, p) := NodeInner(env, open, body, ctx);
    if y.Closed? {
      EvaluatesTo(env, rest, ctx, Line(Mixed, ""), true);
      EvaluatesThen(env, f, rest, ctx, line, Line(Mixed, ""), open.text + p.out);
    }
  }

  /** Where every non-variable tag is inline, and every section rendered more than once
      restores the delimiters, the machine puts out the line-free meaning. */
  lemma InlineRendersPlainly(env: Env, t: string, root: Json)
    requires Inline(Parse(env.flags, t), false) && Steady(env, Parse(env.flags, t), true, [View(root, "")])
    ensures Inv(t, Size(root), Engine.Start(root))
    ensures var r := Run(env, t, Size(root), Engine.Start(root));
      match Meaning(env, Parse(env.flags, t), [View(root, "")])
      case ToEnd(out) => r == Done(out)
      case Fails(e) => r == Fail(e)
      case ToClose(_) => false
  {
    hide Run, Steady, Inline, Meaning, Eval;
    EvaluatesTo(env, Parse(env.flags, t), [View(root, "")], START, false);
    MachineIsRecursion(env, t, root);
  }
}
