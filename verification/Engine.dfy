/** The template engine as the machine it is: one pass over the text with a section
    stack, an enabled flag, a line state and a context stack, which iterates a section by
    moving its read position back (`process` in mustach.c over the context callbacks of
    mustach-jansson.c). No partial is declared, so a partial tag includes nothing. */
module Engine {
  import opened JsonValues
  import opened Selection
  import opened Tags
  import opened Lines
  import opened Escaping

  /** A level of the context stack: what is current and what `next` will still visit. */
  datatype Level = Level(cur: View, rest: seq<View>)

  /** An open section. */
  datatype Sec = Sec(name: string, again: nat, enabled: bool, entered: bool)

  datatype State = State(
    pos: nat, delims: Delims, line: Line, enabled: bool,
    secs: seq<Sec>, levels: seq<Level>, out: string)

  datatype Outcome = Done(out: string) | Fail(error: Error)

  datatype Stepped = Next(state: State) | Halt(outcome: Outcome)

  function Views(levels: seq<Level>): (r: seq<View>)
    ensures |r| == |levels|
  {
    seq(|levels|, i requires 0 <= i < |levels| => levels[i].cur)
  }

  function Start(root: Json): State {
    State(0, DEFAULT_DELIMS, START, true, [], [Level(View(root, ""), [])], "")
  }

  function Top<T>(s: seq<T>): T
    requires s != []
  {
    s[|s| - 1]
  }

  function Pop<T>(s: seq<T>): seq<T>
    requires s != []
  {
    s[..|s| - 1]
  }

  /** What a variable tag puts out. */
  function Put(env: Env, views: seq<View>, name: string, escape: bool): string
    requires views != []
  {
    var text := TextOf(env, views, name);
    if escape then Escape(text) else text
  }

  /** Entering a section: the context refuses to grow past its limit once the name has
      selected something, whether or not there is anything to iterate. */
  datatype Entry = Entered(items: seq<View>) | Refused

  function Enter(env: Env, views: seq<View>, name: string): Entry
    requires views != []
  {
    var s := Select(env, views, name);
    if !s.Nothing? && |views| >= MAX_DEPTH then Refused else Entered(Items(s))
  }

  function OpenSection(env: Env, s: State, name: string, inverted: bool): Stepped
    requires s.levels != []
  {
    if |s.secs| == MAX_DEPTH then Halt(Fail(TooDeep))
    else if !s.enabled then
      Next(s.(secs := s.secs + [Sec(name, s.pos, false, false)]))
    else
      match Enter(env, Views(s.levels), name)
      case Refused => Halt(Fail(TooDeep))
      case Entered(items) =>
        Next(s.(enabled := inverted == (items == []),
                secs := s.secs + [Sec(name, s.pos, true, items != [])],
                levels := if items == [] then s.levels
                          else s.levels + [Level(items[0], items[1..])]))
  }

  function CloseSection(s: State, name: string): Stepped
    requires s.levels != []
  {
    if s.secs == [] || Top(s.secs).name != name then Halt(Fail(Closing))
    else
      var sec := Top(s.secs);
      var level := Top(s.levels);
      if s.enabled && sec.entered && level.rest != [] then
        Next(s.(pos := sec.again, levels := Pop(s.levels) + [Level(level.rest[0], level.rest[1..])]))
      else
        Next(s.(enabled := sec.enabled, secs := Pop(s.secs),
                levels := if sec.enabled && sec.entered then Pop(s.levels) else s.levels))
  }

  /** The action of a tag, once the text in front of it has been dealt with. */
  function Act(env: Env, s: State, tag: Tag): Stepped
    requires s.levels != []
  {
    match tag
    case Variable(name, escape) =>
      Next(if s.enabled then s.(out := s.out + Put(env, Views(s.levels), name, escape)) else s)
    case Section(name, inverted) => OpenSection(env, s, name, inverted)
    case Close(name) => CloseSection(s, name)
    case _ => Next(s)
  }

  /** Reads past a tag and puts out the text in front of it. */
  function Advance(s: State, token: Token): State {
    var (put, line) := TagLine(token.text, s.enabled, s.line, token.tag.Variable?);
    s.(pos := token.next, delims := token.delims, line := line, out := s.out + put)
  }

  /** One turn of the main loop. */
  function Step(env: Env, t: string, s: State): Stepped
    requires ValidDelims(s.delims) && s.pos <= |t| && s.levels != []
  {
    match NextTag(env.flags, t, s.pos, s.delims)
    case AtEnd(text) =>
      Halt(if s.secs != [] then Fail(UnexpectedEnd) else Done(s.out + EndLine(text, s.enabled, s.line)))
    case Bad(e) => Halt(Fail(e))
    case Read(token) => Act(env, Advance(s, token), token.tag)
  }

  // ---------- section discipline ----------

  /** How many of the open sections are entered. */
  function EnteredCount(secs: seq<Sec>): (n: nat)
    ensures n <= |secs|
  {
    if secs == [] then 0 else EnteredCount(Pop(secs)) + if Top(secs).entered then 1 else 0
  }

  /** The flags nest: a section is entered only where the engine was enabled, and the
      engine is enabled only inside sections that were opened while it was enabled. */
  predicate Nested(secs: seq<Sec>, enabled: bool) {
    if secs == [] then enabled
    else
      var top := Top(secs);
      && (top.entered ==> top.enabled)
      && (enabled ==> top.enabled)
      && Nested(Pop(secs), top.enabled)
  }

  /** The read position never falls behind where the innermost open section starts over. */
  predicate Ordered(secs: seq<Sec>, pos: nat) {
    secs == [] || (Top(secs).again <= pos && Ordered(Pop(secs), Top(secs).again))
  }

  /** All items waiting in the context are part of data with at most n nodes. */
  ghost predicate LevelsWithin(levels: seq<Level>, n: nat) {
    forall i :: 0 <= i < |levels| ==>
      && Size(levels[i].cur.obj) <= n
      && |levels[i].rest| < n
      && Within(levels[i].rest, n)
  }

  /** The invariant of every reachable state. */
  ghost predicate Inv(t: string, n: nat, s: State) {
    && ValidDelims(s.delims)
    && s.pos <= |t|
    && |s.secs| <= MAX_DEPTH
    && |s.levels| == 1 + EnteredCount(s.secs)
    && Nested(s.secs, s.enabled)
    && Ordered(s.secs, s.pos)
    && LevelsWithin(s.levels, n)
    && Settled(s.line)
  }

  lemma StartInv(t: string, root: Json)
    ensures Inv(t, Size(root), Start(root))
  {
  }

  lemma DecideSettled(t: string, enabled: bool, line: Line, variable: bool)
    ensures Settled(TagLine(t, enabled, line, variable).1)
  {
  }

  lemma PopPush<T>(s: seq<T>, x: T)
    ensures Pop(s + [x]) == s && Top(s + [x]) == x
  {
  }

  lemma OrderedWeaken(secs: seq<Sec>, p: nat, q: nat)
    requires Ordered(secs, p) && p <= q
    ensures Ordered(secs, q)
  {
  }

  lemma AdvanceInv(t: string, n: nat, s: State, token: Token)
    requires Inv(t, n, s) && s.pos <= token.next <= |t| && ValidDelims(token.delims)
    ensures Inv(t, n, Advance(s, token))
  {
    OrderedWeaken(s.secs, s.pos, token.next);
    DecideSettled(token.text, s.enabled, s.line, token.tag.Variable?);
  }

  lemma OpenInv(env: Env, t: string, n: nat, s: State, name: string, inverted: bool)
    requires Inv(t, n, s)
    ensures var r := OpenSection(env, s, name, inverted); r.Next? ==> Inv(t, n, r.state)
  {
    var r := OpenSection(env, s, name, inverted);
    if r.Next? {
      PopPush(s.secs, Top(r.state.secs));
      if s.enabled {
        ItemsWithin(env, Views(s.levels), name, n);
      }
    }
  }

  lemma CloseInv(t: string, n: nat, s: State, name: string)
    requires Inv(t, n, s)
    ensures var r := CloseSection(s, name); r.Next? ==> Inv(t, n, r.state)
  {
    if s.secs != [] {
      OrderedWeaken(Pop(s.secs), Top(s.secs).again, s.pos);
    }
  }

  lemma StepInv(env: Env, t: string, n: nat, s: State)
    requires Inv(t, n, s)
    ensures var r := Step(env, t, s); r.Next? ==> Inv(t, n, r.state)
  {
    var reading := NextTag(env.flags, t, s.pos, s.delims);
    if reading.Read? {
      var a := Advance(s, reading.token);
      AdvanceInv(t, n, s, reading.token);
      match reading.token.tag {
        case Section(name, inverted) => OpenInv(env, t, n, a, name, inverted);
        case Close(name) => CloseInv(t, n, a, name);
        case _ =>
      }
    }
  }

  // ---------- termination ----------

  /** The most turns one pass can take from section depth d with u characters unread,
      when a section has at most n items. */
  ghost function Bound(d: nat, u: nat, n: nat): (b: nat)
    ensures b >= 1
    decreases u
  {
    if u == 0 then 1
    else 1 + Bound(d, u - 1, n) + (if d < MAX_DEPTH then n * Bound(d + 1, u - 1, n) else 0)
  }

  lemma {:induction false} BoundMonotone(d: nat, u: nat, v: nat, n: nat)
    requires u <= v
    ensures Bound(d, u, n) <= Bound(d, v, n)
  {
    if u < v {
      BoundMonotone(d, u, v - 1, n);
      assert n * Bound(d + 1, v - 1, n) >= 0;
    }
  }

  lemma MulMonotone(n: nat, a: nat, b: nat)
    requires a <= b
    ensures n * a <= n * b
  {
  }

  lemma {:induction false} BoundStrict(d: nat, u: nat, v: nat, n: nat)
    requires u < v
    ensures Bound(d, u, n) < Bound(d, v, n)
    ensures d < MAX_DEPTH ==> Bound(d, u, n) + n * Bound(d + 1, u, n) < Bound(d, v, n)
  {
    BoundMonotone(d, u, v - 1, n);
    if d < MAX_DEPTH {
      BoundMonotone(d + 1, u, v - 1, n);
      MulMonotone(n, Bound(d + 1, u, n), Bound(d + 1, v - 1, n));
    }
  }

  /** The turns the open sections can still cause: the items left in each, and the text
      after it. */
  ghost function Pending(secs: seq<Sec>, levels: seq<Level>, size: nat, n: nat): nat
    requires |levels| > EnteredCount(secs)
    decreases |secs|
  {
    if secs == [] then 0
    else
      var sec := Top(secs);
      var left := if sec.again <= size then size - sec.again else 0;
      var d := |secs| - 1;
      if sec.entered then
        |Top(levels).rest| * Bound(d + 1, left, n) + Bound(d, left, n) + Pending(Pop(secs), Pop(levels), size, n)
      else Bound(d, left, n) + Pending(Pop(secs), levels, size, n)
  }

  ghost function Potential(t: string, n: nat, s: State): nat
    requires Inv(t, n, s)
  {
    Bound(|s.secs|, |t| - s.pos, n) + Pending(s.secs, s.levels, |t|, n)
  }

  lemma AdvanceDecreases(t: string, n: nat, s: State, token: Token)
    requires Inv(t, n, s) && s.pos < token.next <= |t| && ValidDelims(token.delims)
    requires Inv(t, n, Advance(s, token))
    ensures Potential(t, n, Advance(s, token)) < Potential(t, n, s)
  {
    BoundStrict(|s.secs|, |t| - token.next, |t| - s.pos, n);
  }

  /** Opening a section is paid for by the character just read. */
  lemma OpenDecreases(env: Env, t: string, n: nat, s: State, a: State, name: string, inverted: bool)
    requires Inv(t, n, s) && Inv(t, n, a) && s.pos < a.pos
    requires a.secs == s.secs && a.levels == s.levels
    requires OpenSection(env, a, name, inverted).Next? && Inv(t, n, OpenSection(env, a, name, inverted).state)
    ensures Potential(t, n, OpenSection(env, a, name, inverted).state) < Potential(t, n, s)
  {
    hide Bound, Select, Nested, Ordered, Within, Enter, Size, Act;
    var r := OpenSection(env, a, name, inverted).state;
    var d := |s.secs|;
    var left := |t| - a.pos;
    PopPush(a.secs, Top(r.secs));
    BoundStrict(d, left, |t| - s.pos, n);
    assert |a.levels[0].rest| < n;
    if Top(r.secs).entered {
      PopPush(a.levels, Top(r.levels));
      var rest := |Top(r.levels).rest|;
      assert Pending(r.secs, r.levels, |t|, n)
        == rest * Bound(d + 1, left, n) + Bound(d, left, n) + Pending(s.secs, s.levels, |t|, n);
      Pay(rest, n, Bound(d + 1, left, n));
    } else {
      assert Pending(r.secs, r.levels, |t|, n) == Bound(d, left, n) + Pending(s.secs, s.levels, |t|, n);
      Pay(0, n, Bound(d + 1, left, n));
    }
  }

  lemma Pay(rest: nat, n: nat, b: nat)
    requires rest < n
    ensures rest * b + b <= n * b
  {
    assert (rest + 1) * b <= n * b;
  }

  lemma CloseDecreases(t: string, n: nat, s: State, name: string)
    requires Inv(t, n, s)
    requires CloseSection(s, name).Next? && Inv(t, n, CloseSection(s, name).state)
    ensures Potential(t, n, CloseSection(s, name).state) <= Potential(t, n, s)
  {
    var r := CloseSection(s, name).state;
    var sec := Top(s.secs);
    var d := |s.secs| - 1;
    var left := |t| - sec.again;
    if s.enabled && sec.entered && Top(s.levels).rest != [] {
      PopPush(Pop(s.levels), Top(r.levels));
      var rest := |Top(s.levels).rest|;
      assert rest * Bound(d + 1, left, n) == (rest - 1) * Bound(d + 1, left, n) + Bound(d + 1, left, n);
    } else {
      BoundMonotone(d, |t| - s.pos, left, n);
    }
  }

  /** Every turn of the loop uses up potential: the engine halts on every template and
      all data. */
  lemma StepDecreases(env: Env, t: string, n: nat, s: State)
    requires Inv(t, n, s) && Step(env, t, s).Next?
    ensures Inv(t, n, Step(env, t, s).state)
    ensures Potential(t, n, Step(env, t, s).state) < Potential(t, n, s)
  {
    StepInv(env, t, n, s);
    var token := NextTag(env.flags, t, s.pos, s.delims).token;
    AdvanceInv(t, n, s, token);
    ActDecreases(env, t, n, s, token);
  }

  lemma ActDecreases(env: Env, t: string, n: nat, s: State, token: Token)
    requires Inv(t, n, s) && s.pos < token.next <= |t| && ValidDelims(token.delims)
    requires Inv(t, n, Advance(s, token))
    requires var r := Act(env, Advance(s, token), token.tag); r.Next? && Inv(t, n, r.state)
    ensures Potential(t, n, Act(env, Advance(s, token), token.tag).state) < Potential(t, n, s)
  {
    var a := Advance(s, token);
    AdvanceDecreases(t, n, s, token);
    match token.tag {
      case Section(name, inverted) => OpenDecreases(env, t, n, s, a, name, inverted);
      case Close(name) => CloseDecreases(t, n, a, name);
      case _ =>
    }
  }

  /** The whole run from a state. */
  ghost function Run(env: Env, t: string, n: nat, s: State): Outcome
    requires Inv(t, n, s)
    decreases Potential(t, n, s)
  {
    match Step(env, t, s)
    case Halt(o) => o
    case Next(s') =>
      StepDecreases(env, t, n, s);
      Run(env, t, n, s')
  }

  /** A turn leads to the rest of the run. */
  lemma RunStep(env: Env, t: string, n: nat, s: State)
    requires Inv(t, n, s)
    ensures var r := Step(env, t, s);
      if r.Halt? then Run(env, t, n, s) == r.outcome
      else
        && Inv(t, n, r.state) && Potential(t, n, r.state) < Potential(t, n, s)
        && Run(env, t, n, s) == Run(env, t, n, r.state)
  {
    if Step(env, t, s).Next? {
      StepDecreases(env, t, n, s);
    }
  }
}
