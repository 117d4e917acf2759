/** Laws of the template language and of the machine: what a disabled section puts out,
    that a section and its inverse exclude each other, when the context suffices, and what
    every reachable state keeps. */
module EngineLaws {
  import opened JsonValues
  import opened Selection
  import opened Tags
  import opened Lines
  import opened Engine
  import opened Template
  import opened EngineCorrect

  // ---------- sections and inverted sections ----------

  lemma DisabledTag(t: string, line: Line, variable: bool)
    ensures TagLine(t, false, line, variable).0 == ""
  {
    DisabledSilent(t, Scan("", line, ""));
  }

  /** A piece of template evaluated without being enabled puts nothing out. */
  lemma {:induction false} DisabledPutsNothing(env: Env, f: Forest, ctx: seq<View>, line: Line)
    requires ctx != []
    ensures var y := Eval(env, f, false, ctx, line); y.Closed? ==> y.out == ""
    ensures var y := Once(env, f, false, ctx, line); y.Closed? ==> y.out == ""
  {
    match f {
      case Leaf(token, rest) =>
        DisabledTag(token.text, line, token.tag.Variable?);
        DisabledPutsNothing(env, rest, ctx, TagLine(token.text, false, line, token.tag.Variable?).1);
      case Node(open, body, rest) =>
        DisabledTag(open.text, line, false);
        var l := TagLine(open.text, false, line, false).1;
        DisabledPutsNothing(env, body, ctx, l);
        var inner := Once(env, body, false, ctx, l);
        if inner.Closed? {
          DisabledPutsNothing(env, rest, ctx, inner.line);
        }
      case _ =>
    }
    var y := Eval(env, f, false, ctx, line);
    if y.Closed? && Terminator(f).CloseAt? {
      DisabledTag(Terminator(f).token.text, y.line, false);
    }
  }

  /** A body that is not rendered comes to its closing tag in every context. */
  lemma {:induction false} DisabledCloses(env: Env, f: Forest, ctx: seq<View>, line: Line)
    requires ctx != [] && Terminator(f).CloseAt?
    ensures Eval(env, f, false, ctx, line).Closed? && Once(env, f, false, ctx, line).Closed?
  {
    match f {
      case Leaf(token, rest) =>
        DisabledCloses(env, rest, ctx, TagLine(token.text, false, line, token.tag.Variable?).1);
      case Node(open, body, rest) =>
        var l := TagLine(open.text, false, line, false).1;
        DisabledCloses(env, body, ctx, l);
        DisabledCloses(env, rest, ctx, Once(env, body, false, ctx, l).line);
      case _ =>
    }
  }

  /** A selection with nothing to render: nothing found, null, false, an empty array, or
      members of something that has none. */
  predicate Barren(s: Selected) {
    match s
    case Nothing => true
    case Value(j) => j == Null || j == False || j == Array([])
    case _ => !s.json.Object? || s.json.members == []
  }

  lemma BarrenItems(s: Selected)
    ensures Items(s) == [] <==> Barren(s)
  {
  }

  /** Of `{{#x}}B{{/x}}` and `{{^x}}B{{/x}}` exactly one is skipped, depending on what x
      selects. Whatever its body, the skipped one puts out nothing but the text in front of
      its tag, and what follows goes on in the same context. The one that is not skipped
      renders its body: an inverted section once, in the same context, a plain one once for
      each of its items, of which there is at least one, with the item on the context. */
  lemma SectionsExclude(env: Env, open: Token, body: Forest, rest: Forest, ctx: seq<View>, line: Line)
    requires ctx != [] && open.tag.Section? && Enter(env, ctx, open.tag.name).Entered? && Terminator(body).CloseAt?
    ensures var y := Eval(env, Node(open, body, rest), true, ctx, line);
      var (put, l) := TagLine(open.text, true, line, false);
      if open.tag.inverted != Barren(Select(env, ctx, open.tag.name)) then
        exists l' :: y == Then(put, Eval(env, rest, true, ctx, l'))
      else
        var items := Items(Select(env, ctx, open.tag.name));
        var b := if items == [] then Once(env, body, true, ctx, l) else Each(env, body, items, ctx, l);
        && (open.tag.inverted <==> items == [])
        && y == Then(put, if b.Closed? then Then(b.out, Eval(env, rest, true, ctx, b.line)) else b)
  {
    var (put, l) := TagLine(open.text, true, line, false);
    var items := Items(Select(env, ctx, open.tag.name));
    BarrenItems(Select(env, ctx, open.tag.name));
    DisabledCloses(env, body, ctx, l);
    DisabledPutsNothing(env, body, ctx, l);
    assert put + "" == put;
    var b := if items == [] then Once(env, body, true, ctx, l) else Each(env, body, items, ctx, l);
    if open.tag.inverted == (items == []) && b.Closed? {
      ThenThen(put, b.out, Eval(env, rest, true, ctx, b.line));
    }
    var skipped := Once(env, body, false, ctx, l);
    assert open.tag.inverted != Barren(Select(env, ctx, open.tag.name)) ==>
      Eval(env, Node(open, body, rest), true, ctx, line) == Then(put, Eval(env, rest, true, ctx, skipped.line));
  }

  lemma ThenThen(a: string, b: string, y: Yield)
    ensures Then(a + b, y) == Then(a, Then(b, y))
  {
    if !y.Failed? {
      assert (a + b) + y.out == a + (b + y.out);
    }
  }

  // ---------- the context suffices ----------

  function Nesting(f: Forest): nat {
    match f
    case Leaf(_, rest) => Nesting(rest)
    case Node(_, body, rest) =>
      var inside := 1 + Nesting(body);
      if inside > Nesting(rest) then inside else Nesting(rest)
    case _ => 0
  }

  /** What the body of a section contributes in a context. */
  function Iterations(env: Env, inverted: bool, body: Forest, items: seq<View>, ctx: seq<View>, line: Line): Yield
    requires ctx != []
  {
    if items != [] && !inverted then Each(env, body, items, ctx, line)
    else Once(env, body, inverted == (items == []), ctx, line)
  }

  lemma {:induction false} ContextSuffices(env: Env, f: Forest, enabled: bool, ctx: seq<View>, line: Line)
    requires ctx != [] && |ctx| + Nesting(f) <= MAX_DEPTH
    ensures var y := Eval(env, f, enabled, ctx, line); y.Failed? ==> Terminator(f) == Stop(y.error)
    decreases f, 0
  {
    match f {
      case Leaf(token, rest) =>
        ContextSuffices(env, rest, enabled, ctx, TagLine(token.text, enabled, line, token.tag.Variable?).1);
      case Node(open, body, rest) =>
        var l := TagLine(open.text, enabled, line, false).1;
        var items := if enabled && open.tag.Section? then Items(Select(env, ctx, open.tag.name)) else [];
        var inverted := open.tag.Section? && open.tag.inverted;
        ContextSuffices(env, body, false, ctx, l);
        ContextSuffices(env, body, true, ctx, l);
        if items != [] {
          ContextSufficesEach(env, body, items, ctx, l);
        }
        var inner := if !enabled || !open.tag.Section? then Once(env, body, false, ctx, l)
                     else Iterations(env, inverted, body, items, ctx, l);
        EndedOnlyAtEnd(env, body, false, ctx, l);
        EndedOnlyAtEnd(env, body, true, ctx, l);
        if items != [] {
          EachEnds(env, body, items, ctx, l);
        }
        if inner.Closed? {
          ContextSuffices(env, rest, enabled, ctx, inner.line);
        }
      case _ =>
    }
  }

  lemma {:induction false} ContextSufficesEach(env: Env, body: Forest, items: seq<View>, ctx: seq<View>, line: Line)
    requires ctx != [] && items != [] && |ctx| + 1 + Nesting(body) <= MAX_DEPTH
    ensures var y := Each(env, body, items, ctx, line); y.Failed? ==> Terminator(body) == Stop(y.error)
    decreases body, 1 + |items|
  {
    ContextSuffices(env, body, true, ctx + [items[0]], line);
    var first := Once(env, body, true, ctx + [items[0]], line);
    if first.Closed? && |items| > 1 {
      ContextSufficesEach(env, body, items[1..], ctx, first.line);
    }
  }

  /** At up to 255 nested sections the data never matters for the failure of a run in which
      every section rendered more than once restores the delimiters: the machine renders
      the template, or fails with the template's own static error. */
  lemma FailsAsTemplate(env: Env, t: string, root: Json)
    requires Nesting(Parse(env.flags, t)) < MAX_DEPTH && Steady(env, Parse(env.flags, t), true, [View(root, "")])
    ensures Inv(t, Size(root), Engine.Start(root))
    ensures var e := Terminator(Parse(env.flags, t)); var r := Run(env, t, Size(root), Engine.Start(root));
      if e.Stop? then r == Fail(e.error) else r.Done?
  {
    hide Run, Steady, Parse;
    var f := Parse(env.flags, t);
    MachineIsRecursion(env, t, root);
    ContextSuffices(env, f, true, [View(root, "")], START);
    EndedOnlyAtEnd(env, f, true, [View(root, "")], START);
  }

  /** So a template whose sections all restore the delimiters renders for all data or fails
      with the same error for all data. */
  lemma FailsForAllOrNoData(env: Env, t: string, a: Json, b: Json)
    requires Nesting(Parse(env.flags, t)) < MAX_DEPTH && DelimsRestored(Parse(env.flags, t))
    ensures Inv(t, Size(a), Engine.Start(a)) && Inv(t, Size(b), Engine.Start(b))
    ensures var ra, rb := Run(env, t, Size(a), Engine.Start(a)), Run(env, t, Size(b), Engine.Start(b));
      (ra.Done? <==> rb.Done?) && (ra.Fail? ==> ra == rb)
  {
    hide Run, Steady, Parse, DelimsRestored;
    RestoredIsSteady(env, Parse(env.flags, t), true, [View(a, "")]);
    RestoredIsSteady(env, Parse(env.flags, t), true, [View(b, "")]);
    FailsAsTemplate(env, t, a);
    FailsAsTemplate(env, t, b);
  }

  // ---------- what every reachable state keeps ----------

  /** k turns lead from s to s'. */
  ghost predicate Reaches(env: Env, t: string, s: State, s': State, k: nat)
    decreases k
  {
    if k == 0 then s == s'
    else
      && ValidDelims(s.delims) && s.pos <= |t| && s.levels != []
      && Step(env, t, s).Next?
      && Reaches(env, t, Step(env, t, s).state, s', k - 1)
  }

  lemma RootStays(env: Env, t: string, n: nat, s: State)
    requires Inv(t, n, s) && Step(env, t, s).Next?
    ensures Step(env, t, s).state.levels != []
    ensures Step(env, t, s).state.levels[0].cur == s.levels[0].cur
    ensures Step(env, t, s).state.levels[0].rest == s.levels[0].rest
  {
    StepInv(env, t, n, s);
    var token := NextTag(env.flags, t, s.pos, s.delims).token;
    var a := Advance(s, token);
    assert a.levels == s.levels && a.secs == s.secs;
    if token.tag.Close? && a.enabled && Top(a.secs).entered {
      assert EnteredCount(a.secs) == EnteredCount(Pop(a.secs)) + 1;
      assert |a.levels| > 1;
    }
  }

  /** In every reachable state the context has one level more than there are entered
      sections, sections are entered only where the engine was enabled, and the outermost
      level is the data itself; a run that ends well ends with the context it began with. */
  lemma {:induction false} Discipline(env: Env, t: string, n: nat, s: State, s': State, k: nat)
    requires Inv(t, n, s) && Reaches(env, t, s, s', k)
    ensures Inv(t, n, s')
    ensures |s'.levels| == 1 + EnteredCount(s'.secs) && Nested(s'.secs, s'.enabled)
    ensures s'.levels[0] == s.levels[0]
    ensures Step(env, t, s').Halt? && Step(env, t, s').outcome.Done? ==> s'.levels == [s.levels[0]]
    decreases k
  {
    hide Step, NextTag;
    if k > 0 {
      StepInv(env, t, n, s);
      RootStays(env, t, n, s);
      Discipline(env, t, n, Step(env, t, s).state, s', k - 1);
    } else {
      FinishedContext(env, t, n, s');
    }
  }

  lemma FinishedContext(env: Env, t: string, n: nat, s: State)
    requires Inv(t, n, s)
    ensures |s.levels| == 1 + EnteredCount(s.secs) && Nested(s.secs, s.enabled)
    ensures Step(env, t, s).Halt? && Step(env, t, s).outcome.Done? ==> s.levels == [s.levels[0]]
  {
  }

  /** While the engine is disabled it neither selects, enters, advances nor puts out
      anything: a turn keeps the output, and the context too unless it leaves the section
      that was disabled. */
  lemma DisabledTurn(env: Env, t: string, n: nat, s: State)
    requires Inv(t, n, s) && !s.enabled && Step(env, t, s).Next?
    ensures var s' := Step(env, t, s).state;
      && s'.out == s.out
      && (s'.levels == s.levels || (s'.enabled && s'.levels == Pop(s.levels)))
  {
    var token := NextTag(env.flags, t, s.pos, s.delims).token;
    DisabledTag(token.text, s.line, token.tag.Variable?);
    assert s.out + "" == s.out;
  }
}
