/** The jumping machine computes the structural recursion. */
module EngineCorrect {
  import opened JsonValues
  import opened Selection
  import opened Tags
  import opened Lines
  import opened Engine
  import opened Template

  function Names(secs: seq<Sec>): (r: seq<string>)
    ensures |r| == |secs|
  {
    seq(|secs|, i requires 0 <= i < |secs| => secs[i].name)
  }

  lemma NamesPush(secs: seq<Sec>, sec: Sec)
    ensures Names(secs + [sec]) == Names(secs) + [sec.name]
  {
  }

  lemma ViewsPush(levels: seq<Level>, level: Level)
    ensures Views(levels + [level]) == Views(levels) + [level.cur]
  {
  }

  lemma Append(a: string, b: string, c: string)
    ensures (a + b) + c == a + (b + c)
  {
  }

  /** The machine is about to read f. */
  ghost predicate At(env: Env, t: string, n: nat, s: State, f: Forest) {
    && Inv(t, n, s)
    && f == Build(env.flags, t, s.pos, s.delims, Names(s.secs))
    && Steady(env, f, s.enabled, Views(s.levels))
  }

  function Moved(s: State, pos: nat, delims: Delims, out: string, line: Line): State {
    s.(pos := pos, delims := delims, out := s.out + out, line := line)
  }

  /** The run from s agrees with y, the meaning of f: it fails or ends alike, or it
      comes to the closing tag of f with the same text put out and the same line state. */
  ghost predicate Agrees(env: Env, t: string, n: nat, s: State, f: Forest, y: Yield)
    requires Inv(t, n, s)
  {
    match y
    case Failed(e) => Run(env, t, n, s) == Fail(e)
    case Ended(out) => Run(env, t, n, s) == Done(s.out + out)
    case Closed(out, line) =>
      var e := Terminator(f);
      && e.CloseAt?
      && Inv(t, n, Moved(s, e.at, e.delims, out, line))
      && Run(env, t, n, s) == Run(env, t, n, Moved(s, e.at, e.delims, out, line))
  }

  /** Putting out p first. */
  lemma AgreesThen(env: Env, t: string, n: nat, s: State, s': State, f: Forest, f': Forest, p: string, y: Yield)
    requires Inv(t, n, s) && Inv(t, n, s') && Run(env, t, n, s) == Run(env, t, n, s')
    requires Terminator(f) == Terminator(f')
    requires s' == Moved(s, s'.pos, s'.delims, p, s'.line)
    requires Agrees(env, t, n, s', f', y)
    ensures Agrees(env, t, n, s, f, Then(p, y))
  {
    if !y.Failed? {
      Append(s.out, p, y.out);
    }
    if y.Closed? {
      var e := Terminator(f);
      assert Moved(s', e.at, e.delims, y.out, y.line) == Moved(s, e.at, e.delims, p + y.out, y.line);
    }
  }

  /** The main simulation. */
  lemma {:induction false} Simulates(env: Env, t: string, n: nat, s: State, f: Forest)
    requires At(env, t, n, s, f)
    ensures Agrees(env, t, n, s, f, Eval(env, f, s.enabled, Views(s.levels), s.line))
    decreases f, 1
  {
    match f {
      case End(text) =>
        SimulatesStill(env, t, n, s, f);
      case Stop(e) =>
        SimulatesStop(env, t, n, s, f);
      case CloseAt(at, delims, token) =>
        SimulatesStill(env, t, n, s, f);
      case Leaf(token, rest) => SimulatesLeaf(env, t, n, s, token, rest);
      case Node(open, body, rest) => SimulatesNode(env, t, n, s, open, body, rest);
    }
  }

  /** What a leaf puts out. */
  function LeafOut(env: Env, s: State, token: Token): string
    requires s.levels != []
  {
    TagLine(token.text, s.enabled, s.line, token.tag.Variable?).0 +
    if s.enabled && token.tag.Variable?
    then Put(env, Views(s.levels), token.tag.name, token.tag.escape) else ""
  }

  lemma {:induction false} SimulatesLeaf(env: Env, t: string, n: nat, s: State, token: Token, rest: Forest)
    requires At(env, t, n, s, Leaf(token, rest))
    ensures var f := Leaf(token, rest);
      Agrees(env, t, n, s, f, Eval(env, f, s.enabled, Views(s.levels), s.line))
    decreases Leaf(token, rest), 0
  {
    var l := TagLine(token.text, s.enabled, s.line, token.tag.Variable?).1;
    var s' := Moved(s, token.next, token.delims, LeafOut(env, s, token), l);
    LeafStep(env, t, n, s, token, rest);
    StepInv(env, t, n, s);
    Simulates(env, t, n, s', rest);
    AgreesThen(env, t, n, s, s', Leaf(token, rest), rest, LeafOut(env, s, token),
               Eval(env, rest, s.enabled, Views(s.levels), l));
  }

  lemma SimulatesStill(env: Env, t: string, n: nat, s: State, f: Forest)
    requires At(env, t, n, s, f) && (f.End? || f.CloseAt?)
    ensures Agrees(env, t, n, s, f, Eval(env, f, s.enabled, Views(s.levels), s.line))
  {
    hide Steady;
    assert s.out + "" == s.out;
    assert Moved(s, s.pos, s.delims, "", s.line) == s;
  }

  lemma SimulatesStop(env: Env, t: string, n: nat, s: State, f: Forest)
    requires At(env, t, n, s, f) && f.Stop?
    ensures Run(env, t, n, s) == Fail(f.error)
  {
    hide Steady, Eval, NextTag, Run, TagLine, EndLine, ReadAt;
    RunStep(env, t, n, s);
    StopStep(env, t, n, s, f);
  }

  lemma StopStep(env: Env, t: string, n: nat, s: State, f: Forest)
    requires At(env, t, n, s, f) && f.Stop?
    ensures Step(env, t, s) == Halt(Fail(f.error))
  {
    hide Steady, Eval, Run, TagLine, EndLine, ScanText, NextTag, Nested, Ordered, Within, Size, Enter, Put, Select;
    if s.secs != [] {
      assert Top(Names(s.secs)) == Top(s.secs).name;
    }
  }

  lemma LeafStep(env: Env, t: string, n: nat, s: State, token: Token, rest: Forest)
    requires At(env, t, n, s, Leaf(token, rest))
    ensures var l := TagLine(token.text, s.enabled, s.line, token.tag.Variable?).1;
      Step(env, t, s) == Next(Moved(s, token.next, token.delims, LeafOut(env, s, token), l))
  {
    var put := TagLine(token.text, s.enabled, s.line, token.tag.Variable?).0;
    assert put + "" == put;
    if s.enabled && token.tag.Variable? {
      Append(s.out, put, Put(env, Views(s.levels), token.tag.name, token.tag.escape));
    }
  }

  /** The state in which a section has been opened. */
  function Opened(s: State, open: Token, put: string, l: Line, enabled: bool, items: seq<View>): State {
    s.(pos := open.next, delims := open.delims, line := l, out := s.out + put, enabled := enabled,
       secs := s.secs + [Sec(if open.tag.Section? then open.tag.name else "", open.next, s.enabled, items != [])],
       levels := if items == [] then s.levels else s.levels + [Level(items[0], items[1..])])
  }

  /** The items of a section, or none where the engine is disabled. */
  function NodeItems(env: Env, s: State, open: Token): seq<View>
    requires s.levels != [] && open.tag.Section?
  {
    ItemsAt(env, s.enabled, open, Views(s.levels))
  }

  /** The value of the iterations of a section. */
  function Inner(env: Env, s: State, open: Token, body: Forest): Yield
    requires s.levels != [] && open.tag.Section?
  {
    var items := NodeItems(env, s, open);
    var l := TagLine(open.text, s.enabled, s.line, false).1;
    if items != [] && !open.tag.inverted then Each(env, body, items, Views(s.levels), l)
    else Once(env, body, s.enabled && open.tag.inverted == (items == []), Views(s.levels), l)
  }

  predicate Refuses(env: Env, s: State, open: Token)
    requires s.levels != [] && open.tag.Section?
  {
    s.enabled && Enter(env, Views(s.levels), open.tag.name).Refused?
  }

  lemma NodeValue(env: Env, s: State, open: Token, body: Forest, rest: Forest)
    requires s.levels != [] && open.tag.Section?
    ensures var y := Eval(env, Node(open, body, rest), s.enabled, Views(s.levels), s.line);
      var put := TagLine(open.text, s.enabled, s.line, false).0;
      var inner := Inner(env, s, open, body);
      if Refuses(env, s, open) then y == Failed(TooDeep)
      else if inner.Closed? then
        y == Then(put + inner.out, Eval(env, rest, s.enabled, Views(s.levels), inner.line))
      else y == Then(put, inner)
  {
  }

  lemma NodeStep(env: Env, t: string, n: nat, s: State, open: Token, body: Forest, rest: Forest)
    requires At(env, t, n, s, Node(open, body, rest))
    ensures open.tag.Section?
    ensures var (put, l) := TagLine(open.text, s.enabled, s.line, false);
      var items := NodeItems(env, s, open);
      Step(env, t, s) ==
        if Refuses(env, s, open) then Halt(Fail(TooDeep))
        else Next(Opened(s, open, put, l, s.enabled && open.tag.inverted == (items == []), items))
  {
    assert Views(Advance(s, open).levels) == Views(s.levels);
  }

  /** Opening a section leads to the start of its body. */
  lemma OpenedAtBody(env: Env, t: string, n: nat, s: State, open: Token, body: Forest, rest: Forest)
    requires At(env, t, n, s, Node(open, body, rest))
    requires open.tag.Section? && !Refuses(env, s, open)
    ensures Step(env, t, s).Next?
    ensures var b := Step(env, t, s).state;
      var (put, l) := TagLine(open.text, s.enabled, s.line, false);
      var items := NodeItems(env, s, open);
      && b == Opened(s, open, put, l, s.enabled && open.tag.inverted == (items == []), items)
      && AtBody(env, t, n, b, body)
  {
    hide TagLine, Run, Eval, Step;
    NodeStep(env, t, n, s, open, body, rest);
    StepInv(env, t, n, s);
    var b := Step(env, t, s).state;
    NamesPush(s.secs, Top(b.secs));
    OpenedSteady(env, s, open, body, rest, b);
  }

  /** A section just opened is steady in its own context. */
  lemma OpenedSteady(env: Env, s: State, open: Token, body: Forest, rest: Forest, b: State)
    requires s.levels != [] && open.tag.Section? && Steady(env, Node(open, body, rest), s.enabled, Views(s.levels))
    requires var items := NodeItems(env, s, open);
      b == Opened(s, open, "", b.line, s.enabled && open.tag.inverted == (items == []), items).(out := b.out)
    ensures Steady(env, body, b.enabled, Views(b.levels))
    ensures Repeats(b) ==> Restores(open, body)
  {
    hide Eval, ItemsAt;
    var items := NodeItems(env, s, open);
    if items != [] {
      ViewsPush(s.levels, Level(items[0], items[1..]));
      if open.tag.inverted {
        DisabledSteady(env, body, Views(b.levels));
      }
    }
  }

  lemma {:induction false} DisabledSteady(env: Env, f: Forest, ctx: seq<View>)
    requires ctx != []
    ensures Steady(env, f, false, ctx)
  {
    match f {
      case Leaf(_, rest) => DisabledSteady(env, rest, ctx);
      case Node(_, body, rest) =>
        DisabledSteady(env, body, ctx);
        DisabledSteady(env, rest, ctx);
      case _ =>
    }
  }

  lemma {:induction false} SimulatesItems(env: Env, t: string, n: nat, s: State, open: Token,
                                          body: Forest, rest: Forest)
    requires At(env, t, n, s, Node(open, body, rest))
    requires open.tag.Section? && !Refuses(env, s, open) && Step(env, t, s).Next?
    requires AtBody(env, t, n, Step(env, t, s).state, body)
    requires NodeItems(env, s, open) != [] && !open.tag.inverted
    ensures Leaves(env, t, n, Step(env, t, s).state, body, Inner(env, s, open, body))
    decreases body, 4 + 2 * |NodeItems(env, s, open)|
  {
    var items := NodeItems(env, s, open);
    OpenedAtBody(env, t, n, s, open, body, rest);
    var b := Step(env, t, s).state;
    PopPush(s.levels, Level(items[0], items[1..]));
    assert Steady(env, Node(open, body, rest), s.enabled, Views(s.levels));
    SimulatesEach(env, t, n, b, body, items);
  }

  lemma {:induction false} SimulatesBody(env: Env, t: string, n: nat, s: State, open: Token, body: Forest, rest: Forest)
    requires At(env, t, n, s, Node(open, body, rest))
    requires open.tag.Section? && !Refuses(env, s, open) && Step(env, t, s).Next?
    requires AtBody(env, t, n, Step(env, t, s).state, body)
    ensures Leaves(env, t, n, Step(env, t, s).state, body, Inner(env, s, open, body))
    decreases body, 5 + 2 * |NodeItems(env, s, open)|
  {
    var items := NodeItems(env, s, open);
    if items != [] && !open.tag.inverted {
      SimulatesItems(env, t, n, s, open, body, rest);
    } else {
      OpenedAtBody(env, t, n, s, open, body, rest);
      var b := Step(env, t, s).state;
      SimulatesTurn(env, t, n, b, body);
      if items != [] {
        DisabledContext(env, body, Views(s.levels), Views(b.levels), b.line);
      }
    }
  }

  lemma LeftOpened(s: State, open: Token, put: string, l: Line, enabled: bool, items: seq<View>,
                   e: Forest, out: string, line: Line)
    requires s.levels != [] && e.CloseAt? && (items != [] ==> s.enabled)
    ensures Left(Opened(s, open, put, l, enabled, items), e, out, line)
         == Moved(s, e.token.next, e.delims, put + out, line).(enabled := s.enabled)
  {
  }

  /** Where reading goes on after a section. */
  lemma NodeRest(env: Env, t: string, n: nat, s: State, open: Token, body: Forest, rest: Forest, s': State)
    requires At(env, t, n, s, Node(open, body, rest)) && Terminator(body).CloseAt?
    requires Inv(t, n, s') && s'.secs == s.secs && s'.enabled == s.enabled && s'.levels == s.levels
    requires s'.pos == Terminator(body).token.next && s'.delims == Terminator(body).delims
    ensures At(env, t, n, s', rest)
    ensures Terminator(Node(open, body, rest)) == Terminator(rest)
  {
    hide ItemsAt, Restores, NextTag, Inv, Views;
  }

  lemma {:induction false} SimulatesNode(env: Env, t: string, n: nat, s: State, open: Token, body: Forest, rest: Forest)
    requires At(env, t, n, s, Node(open, body, rest))
    ensures var f := Node(open, body, rest);
      Agrees(env, t, n, s, f, Eval(env, f, s.enabled, Views(s.levels), s.line))
    decreases Node(open, body, rest), 0
  {
    var (put, l) := TagLine(open.text, s.enabled, s.line, false);
    NodeStep(env, t, n, s, open, body, rest);
    NodeValue(env, s, open, body, rest);
    if !Refuses(env, s, open) {
      OpenedAtBody(env, t, n, s, open, body, rest);
      SimulatesBody(env, t, n, s, open, body, rest);
      var items := NodeItems(env, s, open);
      var inner := Inner(env, s, open, body);
      if inner.Closed? {
        var e := Terminator(body);
        LeftOpened(s, open, put, l, s.enabled && open.tag.inverted == (items == []), items, e, inner.out, inner.line);
        var s' := Moved(s, e.token.next, e.delims, put + inner.out, inner.line);
        NodeRest(env, t, n, s, open, body, rest, s');
        Simulates(env, t, n, s', rest);
        AgreesThen(env, t, n, s, s', Node(open, body, rest), rest, put + inner.out,
                   Eval(env, rest, s.enabled, Views(s.levels), inner.line));
      }
    }
  }

  /** The state after a section has been left. */
  function Left(b: State, e: Forest, out: string, line: Line): State
    requires b.secs != [] && b.levels != [] && e.CloseAt?
  {
    var sec := Top(b.secs);
    Moved(b, e.token.next, e.delims, out, line).(
      enabled := sec.enabled, secs := Pop(b.secs),
      levels := if sec.enabled && sec.entered then Pop(b.levels) else b.levels)
  }

  /** Inside a section, the run agrees with the value y of its iterations. */
  ghost predicate Leaves(env: Env, t: string, n: nat, b: State, body: Forest, y: Yield)
    requires Inv(t, n, b) && b.secs != []
  {
    match y
    case Failed(e) => Run(env, t, n, b) == Fail(e)
    case Ended(_) => false
    case Closed(out, line) =>
      var e := Terminator(body);
      && e.CloseAt?
      && Inv(t, n, Left(b, e, out, line))
      && Run(env, t, n, b) == Run(env, t, n, Left(b, e, out, line))
  }

  /** The machine is at the start of the body of its innermost section. */
  ghost predicate AtBody(env: Env, t: string, n: nat, b: State, body: Forest) {
    && At(env, t, n, b, body)
    && b.secs != [] && Top(b.secs).again == b.pos
    && (Repeats(b) && Terminator(body).CloseAt? ==> Terminator(body).delims == b.delims)
  }

  /** The innermost section has another item to come. */
  predicate Repeats(b: State)
    requires b.secs != [] && b.levels != []
  {
    b.enabled && Top(b.secs).entered && Top(b.levels).rest != []
  }

  /** The machine has read the closing tag of the section it was in the body of. */
  function Back(b: State, e: Forest, out: string, line: Line): State
    requires e.CloseAt?
  {
    Moved(b, e.token.next, e.delims, out, line)
  }

  /** The run from the start of a body agrees with one pass over it with value y: it comes
      back to the closing tag of the section. */
  ghost predicate Passes(env: Env, t: string, n: nat, b: State, body: Forest, y: Yield)
    requires Inv(t, n, b) && b.secs != []
  {
    match y
    case Failed(x) => Run(env, t, n, b) == Fail(x)
    case Ended(_) => false
    case Closed(out, line) =>
      var e := Terminator(body);
      && e.CloseAt?
      && Inv(t, n, Back(b, e, out, line))
      && CloseSection(Back(b, e, out, line), Top(b.secs).name).Next?
      && Inv(t, n, CloseSection(Back(b, e, out, line), Top(b.secs).name).state)
      && Run(env, t, n, b) == Run(env, t, n, CloseSection(Back(b, e, out, line), Top(b.secs).name).state)
  }

  /** From the closing tag of a body on. */
  lemma PassCloses(env: Env, t: string, n: nat, b: State, body: Forest, z: Yield)
    requires AtBody(env, t, n, b, body) && Agrees(env, t, n, b, body, z) && !z.Ended?
    ensures Passes(env, t, n, b, body, Finish(z, body, b.enabled))
  {
    hide Steady, Eval, ScanText, Run, Build;
    var e := Terminator(body);
    if z.Closed? {
      var c := Moved(b, e.at, e.delims, z.out, z.line);
      BodyCloses(env, t, n, b, body);
      RunStep(env, t, n, c);
      AdvanceInv(t, n, c, e.token);
      var (put, l) := TagLine(e.token.text, c.enabled, z.line, false);
      Append(b.out, z.out, put);
      assert Advance(c, e.token) == Back(b, e, z.out + put, l);
      assert Step(env, t, c) == CloseSection(Advance(c, e.token), Top(b.secs).name);
    }
  }

  /** The tag that closes a body. */
  lemma BodyCloses(env: Env, t: string, n: nat, b: State, body: Forest)
    requires AtBody(env, t, n, b, body) && Terminator(body).CloseAt?
    ensures var e := Terminator(body);
      && ValidDelims(e.delims) && e.at <= |t| && e.token.tag == Close(Top(b.secs).name)
      && NextTag(env.flags, t, e.at, e.delims) == Read(e.token)
  {
    hide Steady, NextTag;
    assert Top(Names(b.secs)) == Top(b.secs).name;
  }

  /** One pass over a body comes to the closing tag with the line state of Once. */
  lemma {:induction false} SimulatesPass(env: Env, t: string, n: nat, b: State, body: Forest)
    requires AtBody(env, t, n, b, body)
    ensures Passes(env, t, n, b, body, Once(env, body, b.enabled, Views(b.levels), b.line))
    decreases body, 2
  {
    hide Steady, Eval, Run, Passes, Finish;
    Simulates(env, t, n, b, body);
    EndedOnlyAtEnd(env, body, b.enabled, Views(b.levels), b.line);
    BodyNeverEnds(env, t, n, b, body);
    PassCloses(env, t, n, b, body, Eval(env, body, b.enabled, Views(b.levels), b.line));
  }

  lemma BodyNeverEnds(env: Env, t: string, n: nat, b: State, body: Forest)
    requires AtBody(env, t, n, b, body)
    ensures !Terminator(body).End?
  {
    hide Steady, NextTag;
  }

  lemma {:induction false} SimulatesTurn(env: Env, t: string, n: nat, b: State, body: Forest)
    requires AtBody(env, t, n, b, body)
    requires b.enabled ==> !Top(b.secs).entered
    ensures Leaves(env, t, n, b, body, Once(env, body, b.enabled, Views(b.levels), b.line))
    decreases body, 3
  {
    SimulatesPass(env, t, n, b, body);
    LastPass(env, t, n, b, body, Once(env, body, b.enabled, Views(b.levels), b.line));
  }

  /** Between two items: the state after the closing tag has moved the read position back. */
  lemma JumpsBack(env: Env, t: string, n: nat, b: State, body: Forest, items: seq<View>, out: string, line: Line)
    requires AtBody(env, t, n, b, body) && b.enabled && Top(b.secs).entered
    requires |items| > 1 && |b.levels| > 1 && Top(b.levels) == Level(items[0], items[1..])
    requires Steady(env, body, true, Views(Pop(b.levels)) + [items[1]])
    requires var e := Terminator(body);
      && e.CloseAt?
      && CloseSection(Back(b, e, out, line), Top(b.secs).name).Next?
      && Inv(t, n, CloseSection(Back(b, e, out, line), Top(b.secs).name).state)
    ensures var e := Terminator(body); var b' := CloseSection(Back(b, e, out, line), Top(b.secs).name).state;
      && b' == Moved(b, b.pos, b.delims, out, line).(levels := Pop(b.levels) + [Level(items[1], items[2..])])
      && AtBody(env, t, n, b', body)
  {
    hide Steady;
    assert items[1..][0] == items[1] && items[1..][1..] == items[2..];
    ViewsPush(Pop(b.levels), Level(items[1], items[2..]));
  }

  lemma LeavesLater(env: Env, t: string, n: nat, b: State, b': State, body: Forest, out: string, z: Yield)
    requires Inv(t, n, b) && Inv(t, n, b') && b.secs != [] && Terminator(body).CloseAt?
    requires |b.levels| > 0 && |b'.levels| > 0 && Pop(b'.levels) == Pop(b.levels)
    requires Top(b.secs).enabled && Top(b.secs).entered
    requires b' == Moved(b, b.pos, b.delims, out, b'.line).(levels := b'.levels)
    requires Run(env, t, n, b) == Run(env, t, n, b')
    requires Leaves(env, t, n, b', body, z)
    ensures Leaves(env, t, n, b, body, Then(out, z))
  {
    if z.Closed? {
      var e := Terminator(body);
      Append(b.out, out, z.out);
      assert Left(b', e, z.out, z.line) == Left(b, e, out + z.out, z.line);
    }
  }

  /** The last item: the section is left. */
  lemma LastPass(env: Env, t: string, n: nat, b: State, body: Forest, y: Yield)
    requires AtBody(env, t, n, b, body) && Passes(env, t, n, b, body, y)
    requires y.Closed? && b.enabled && Top(b.secs).entered ==> Top(b.levels).rest == []
    ensures Leaves(env, t, n, b, body, y)
  {
  }

  lemma EachValue(env: Env, body: Forest, items: seq<View>, ctx: seq<View>, line: Line)
    requires items != []
    ensures var first := Once(env, body, true, ctx + [items[0]], line);
      Each(env, body, items, ctx, line) ==
        if |items| == 1 || !first.Closed? then first
        else Then(first.out, Each(env, body, items[1..], ctx, first.line))
  {
  }

  lemma {:induction false} SimulatesEach(env: Env, t: string, n: nat, b: State, body: Forest, items: seq<View>)
    requires AtBody(env, t, n, b, body)
    requires b.enabled && Top(b.secs).entered
    requires items != [] && |b.levels| > 1 && Top(b.levels) == Level(items[0], items[1..])
    requires forall i :: 0 <= i < |items| ==> Steady(env, body, true, Views(Pop(b.levels)) + [items[i]])
    ensures Leaves(env, t, n, b, body, Each(env, body, items, Views(Pop(b.levels)), b.line))
    decreases body, 3 + 2 * |items|
  {
    hide Run, Build, Steady, Step, Once, Each, Eval, Passes, Leaves, Terminator, Inv;
    var ctx := Views(Pop(b.levels));
    ViewsPush(Pop(b.levels), Top(b.levels));
    assert Pop(b.levels) + [Top(b.levels)] == b.levels;
    SimulatesPass(env, t, n, b, body);
    EachValue(env, body, items, ctx, b.line);
    var y := Once(env, body, true, ctx + [items[0]], b.line);
    if y.Closed? && |items| > 1 {
      SimulatesMore(env, t, n, b, body, items, y);
    } else {
      LastPass(env, t, n, b, body, y);
    }
  }

  /** After one item, the remaining ones. */
  lemma {:induction false} SimulatesMore(env: Env, t: string, n: nat, b: State, body: Forest,
                                         items: seq<View>, y: Yield)
    requires AtBody(env, t, n, b, body)
    requires b.enabled && Top(b.secs).entered
    requires |items| > 1 && |b.levels| > 1 && Top(b.levels) == Level(items[0], items[1..])
    requires forall i :: 0 <= i < |items| ==> Steady(env, body, true, Views(Pop(b.levels)) + [items[i]])
    requires y.Closed? && Passes(env, t, n, b, body, y)
    ensures Leaves(env, t, n, b, body,
                   Then(y.out, Each(env, body, items[1..], Views(Pop(b.levels)), y.line)))
    decreases body, 2 + 2 * |items|
  {
    hide Run, Build, Steady, Step, Once, Each, Eval;
    var e := Terminator(body);
    JumpsBack(env, t, n, b, body, items, y.out, y.line);
    var b' := CloseSection(Back(b, e, y.out, y.line), Top(b.secs).name).state;
    PopPush(Pop(b.levels), Top(b'.levels));
    SimulatesEach(env, t, n, b', body, items[1..]);
    LeavesLater(env, t, n, b, b', body, y.out, Each(env, body, items[1..], Views(Pop(b.levels)), y.line));
  }

  /** A disabled body does not look at the context. */
  lemma {:induction false} DisabledContext(env: Env, f: Forest, ctx: seq<View>, ctx': seq<View>, line: Line)
    requires ctx != [] && ctx' != []
    ensures Eval(env, f, false, ctx, line) == Eval(env, f, false, ctx', line)
  {
    match f {
      case Leaf(token, rest) =>
        DisabledContext(env, rest, ctx, ctx', TagLine(token.text, false, line, token.tag.Variable?).1);
      case Node(open, body, rest) =>
        var l := TagLine(open.text, false, line, false).1;
        DisabledContext(env, body, ctx, ctx', l);
        var inner := Once(env, body, false, ctx, l);
        if inner.Closed? {
          DisabledContext(env, rest, ctx, ctx', inner.line);
        }
      case _ =>
    }
  }

  /** A piece of template comes to the end of the text, to its closing tag or to a static
      error exactly as its shape says, unless the context refuses to grow. */
  lemma {:induction false} EndedOnlyAtEnd(env: Env, f: Forest, enabled: bool, ctx: seq<View>, line: Line)
    requires ctx != []
    ensures var y := Eval(env, f, enabled, ctx, line); var e := Terminator(f);
      && (y.Ended? ==> e.End?)
      && (y.Closed? ==> e.CloseAt?)
      && (y.Failed? ==> y.error == TooDeep || e == Stop(y.error))
    decreases f, 0
  {
    match f {
      case Leaf(token, rest) =>
        EndedOnlyAtEnd(env, rest, enabled, ctx, TagLine(token.text, enabled, line, token.tag.Variable?).1);
      case Node(open, body, rest) =>
        var l := TagLine(open.text, enabled, line, false).1;
        if !enabled || !open.tag.Section? {
          EndedOnlyAtEnd(env, body, false, ctx, l);
          var inner := Once(env, body, false, ctx, l);
          if inner.Closed? {
            EndedOnlyAtEnd(env, rest, enabled, ctx, inner.line);
          }
        } else if Enter(env, ctx, open.tag.name).Entered? {
          var items := Enter(env, ctx, open.tag.name).items;
          EndedOnlyAtEnd(env, body, items == [], ctx, l);
          EndedOnlyAtEnd(env, body, false, ctx, l);
          if items != [] {
            EachEnds(env, body, items, ctx, l);
          }
          var inner := if open.tag.inverted then Once(env, body, items == [], ctx, l)
                       else if items == [] then Once(env, body, false, ctx, l)
                       else Each(env, body, items, ctx, l);
          if inner.Closed? {
            EndedOnlyAtEnd(env, rest, enabled, ctx, inner.line);
          }
        }
      case _ =>
    }
  }

  lemma {:induction false} EachEnds(env: Env, body: Forest, items: seq<View>, ctx: seq<View>, line: Line)
    requires ctx != [] && items != []
    ensures var y := Each(env, body, items, ctx, line); var e := Terminator(body);
      && (y.Ended? ==> e.End?)
      && (y.Closed? ==> e.CloseAt?)
      && (y.Failed? ==> y.error == TooDeep || e == Stop(y.error))
    decreases body, 1 + |items|
  {
    EndedOnlyAtEnd(env, body, true, ctx + [items[0]], line);
    var first := Once(env, body, true, ctx + [items[0]], line);
    if |items| > 1 && first.Closed? {
      EachEnds(env, body, items[1..], ctx, first.line);
    }
  }

  /** Where every section that is rendered more than once restores the delimiters, the
      machine puts out exactly what the structural recursion puts out, and fails exactly
      when and as it fails. */
  lemma MachineIsRecursion(env: Env, t: string, root: Json)
    requires Steady(env, Parse(env.flags, t), true, [View(root, "")])
    ensures Inv(t, Size(root), Engine.Start(root))
    ensures Run(env, t, Size(root), Engine.Start(root)) == Render(env, t, root)
  {
    var s := Engine.Start(root);
    StartInv(t, root);
    assert Views(s.levels) == [View(root, "")];
    Simulates(env, t, Size(root), s, Parse(env.flags, t));
    EndedOnlyAtEnd(env, Parse(env.flags, t), true, [View(root, "")], START);
    var y := Eval(env, Parse(env.flags, t), true, [View(root, "")], START);
    if y.Ended? {
      assert "" + y.out == y.out;
    }
  }

  /** In particular, for all data, on every template whose sections restore the delimiters. */
  lemma RestoredIsRecursion(env: Env, t: string, root: Json)
    requires DelimsRestored(Parse(env.flags, t))
    ensures Inv(t, Size(root), Engine.Start(root))
    ensures Run(env, t, Size(root), Engine.Start(root)) == Render(env, t, root)
  {
    RestoredIsSteady(env, Parse(env.flags, t), true, [View(root, "")]);
    MachineIsRecursion(env, t, root);
  }

  /** The failures of such a run depend on the template alone: it renders unless the
      template has a static error, and then it fails with that error; only running out of
      context depth depends on the data. */
  lemma ErrorsAreStatic(env: Env, t: string, root: Json)
    requires Steady(env, Parse(env.flags, t), true, [View(root, "")])
    ensures Inv(t, Size(root), Engine.Start(root))
    ensures var r := Run(env, t, Size(root), Engine.Start(root)); var e := Terminator(Parse(env.flags, t));
      && (e.End? || e.Stop?)
      && (e.End? ==> r.Done? || r == Fail(TooDeep))
      && (e.Stop? ==> r == Fail(e.error) || r == Fail(TooDeep))
  {
    hide Run, Steady;
    MachineIsRecursion(env, t, root);
    EndedOnlyAtEnd(env, Parse(env.flags, t), true, [View(root, "")], START);
  }
}
