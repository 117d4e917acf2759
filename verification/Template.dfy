/** The meaning of a template as a structural recursion over its tree of sections. */
module Template {
  import opened JsonValues
  import opened Selection
  import opened Tags
  import opened Lines
  import Engine

  /** A run of template text up to the tag that ends it: the closing tag of the
      enclosing section, the end of the text, or the first static error. What follows a
      section that never closes is not part of the template. */
  datatype Forest =
    | Leaf(token: Token, rest: Forest)
    | Node(open: Token, body: Forest, rest: Forest)
    | End(text: string)
    | CloseAt(at: nat, delims: Delims, token: Token)
    | Stop(error: Error)

  /** What ends a forest. */
  function Terminator(f: Forest): (r: Forest)
    ensures !r.Leaf? && !r.Node?
  {
    match f
    case Leaf(_, rest) => Terminator(rest)
    case Node(_, body, rest) => if Terminator(body).CloseAt? then Terminator(rest) else Terminator(body)
    case _ => f
  }

  /** Reads the tree of a template, with the names of the open sections, innermost last. */
  function Build(flags: Flags, t: string, p: nat, d: Delims, names: seq<string>): (f: Forest)
    requires ValidDelims(d) && p <= |t|
    ensures var e := Terminator(f);
      && (e.CloseAt? ==> p <= e.at < e.token.next <= |t| && ValidDelims(e.delims)
                         && NextTag(flags, t, e.at, e.delims) == Read(e.token)
                         && names != [] && e.token.tag == Close(Engine.Top(names)))
      && (e.End? ==> names == [])
    decreases |t| - p
  {
    match NextTag(flags, t, p, d)
    case AtEnd(text) => if names == [] then End(text) else Stop(UnexpectedEnd)
    case Bad(e) => Stop(e)
    case Read(token) =>
      match token.tag
      case Section(name, _) =>
        if |names| == MAX_DEPTH then Stop(TooDeep)
        else
          var body := Build(flags, t, token.next, token.delims, names + [name]);
          var e := Terminator(body);
          if e.CloseAt? then Node(token, body, Build(flags, t, e.token.next, e.token.delims, names))
          else Node(token, body, e)
      case Close(name) =>
        if names == [] || Engine.Top(names) != name then Stop(Closing) else CloseAt(p, d, token)
      case _ => Leaf(token, Build(flags, t, token.next, token.delims, names))
  }

  function Parse(flags: Flags, t: string): (f: Forest)
    ensures !Terminator(f).CloseAt?
  {
    Build(flags, t, 0, DEFAULT_DELIMS, [])
  }

  /** What a piece of template yields: it reaches its closing tag or the end of the text
      having put out some text, or it fails. */
  datatype Yield = Closed(out: string, line: Line) | Ended(out: string) | Failed(error: Error)

  function Then(out: string, y: Yield): Yield {
    match y
    case Closed(o, line) => Closed(out + o, line)
    case Ended(o) => Ended(out + o)
    case Failed(e) => y
  }

  /** The meaning of a piece of template in a context. With `enabled` false only the line
      state moves. A section over several items is its body once per item, with that item
      pushed on the context; the line state is handed from one turn to the next. */
  function Eval(env: Env, f: Forest, enabled: bool, ctx: seq<View>, line: Line): Yield
    requires ctx != []
    decreases f, 0
  {
    match f
    case End(text) => Ended(EndLine(text, enabled, line))
    case CloseAt(_, _, _) => Closed("", line)
    case Stop(e) => Failed(e)
    case Leaf(token, rest) =>
      var (put, l) := TagLine(token.text, enabled, line, token.tag.Variable?);
      var out := put + if enabled && token.tag.Variable?
                       then Engine.Put(env, ctx, token.tag.name, token.tag.escape) else "";
      Then(out, Eval(env, rest, enabled, ctx, l))
    case Node(open, body, rest) =>
      var (put, l) := TagLine(open.text, enabled, line, false);
      var inner :=
        if !enabled || !open.tag.Section? then Once(env, body, false, ctx, l)
        else
          match Engine.Enter(env, ctx, open.tag.name)
          case Refused => Failed(TooDeep)
          case Entered(items) =>
            if open.tag.inverted then Once(env, body, items == [], ctx, l)
            else if items == [] then Once(env, body, false, ctx, l)
            else Each(env, body, items, ctx, l);
      if inner.Closed? then Then(put + inner.out, Eval(env, rest, enabled, ctx, inner.line))
      else Then(put, inner)
  }

  /** A section body evaluated once, closing tag included. */
  function Once(env: Env, body: Forest, enabled: bool, ctx: seq<View>, line: Line): Yield
    requires ctx != []
    decreases body, 1
  {
    Finish(Eval(env, body, enabled, ctx, line), body, enabled)
  }

  /** A section body evaluated for each item in turn. */
  function Each(env: Env, body: Forest, items: seq<View>, ctx: seq<View>, line: Line): Yield
    requires items != []
    decreases body, 1 + |items|
  {
    var first := Once(env, body, true, ctx + [items[0]], line);
    if |items| == 1 || !first.Closed? then first
    else Then(first.out, Each(env, body, items[1..], ctx, first.line))
  }

  /** The text in front of the closing tag, and the closing tag. */
  function Finish(y: Yield, body: Forest, enabled: bool): Yield {
    var e := Terminator(body);
    if !y.Closed? || !e.CloseAt? then y
    else
      var (put, l) := TagLine(e.token.text, enabled, y.line, false);
      Closed(y.out + put, l)
  }

  /** Every section leaves the delimiters as it found them. */
  predicate DelimsRestored(f: Forest) {
    match f
    case Leaf(_, rest) => DelimsRestored(rest)
    case Node(open, body, rest) =>
      && DelimsRestored(body) && DelimsRestored(rest)
      && Restores(open, body)
    case _ => true
  }

  /** The section restores the delimiters, if it comes to its end. */
  predicate Restores(open: Token, body: Forest) {
    Terminator(body).CloseAt? ==> Terminator(body).delims == open.delims
  }

  /** In this context every section that is rendered more than once restores the
      delimiters. */
  predicate Steady(env: Env, f: Forest, enabled: bool, ctx: seq<View>)
    requires ctx != []
    decreases f
  {
    match f
    case Leaf(_, rest) => Steady(env, rest, enabled, ctx)
    case Node(open, body, rest) =>
      var items := ItemsAt(env, enabled, open, ctx);
      && Steady(env, rest, enabled, ctx)
      && (if items != [] && !open.tag.inverted then
            && (|items| > 1 ==> Restores(open, body))
            && forall i :: 0 <= i < |items| ==> Steady(env, body, true, ctx + [items[i]])
          else Steady(env, body, enabled && open.tag.Section? && open.tag.inverted == (items == []), ctx))
    case _ => true
  }

  /** What a section iterates over in a context; nothing while disabled. */
  function ItemsAt(env: Env, enabled: bool, open: Token, ctx: seq<View>): (items: seq<View>)
    requires ctx != []
    ensures items != [] ==> enabled && open.tag.Section?
  {
    if enabled && open.tag.Section? && Engine.Enter(env, ctx, open.tag.name).Entered?
    then Engine.Enter(env, ctx, open.tag.name).items else []
  }

  lemma {:induction false} RestoredIsSteady(env: Env, f: Forest, enabled: bool, ctx: seq<View>)
    requires ctx != [] && DelimsRestored(f)
    ensures Steady(env, f, enabled, ctx)
    decreases f
  {
    match f {
      case Leaf(_, rest) => RestoredIsSteady(env, rest, enabled, ctx);
      case Node(open, body, rest) =>
        var items := ItemsAt(env, enabled, open, ctx);
        RestoredIsSteady(env, rest, enabled, ctx);
        RestoredIsSteady(env, body, enabled && open.tag.Section? && open.tag.inverted == (items == []), ctx);
        forall i | 0 <= i < |items| ensures Steady(env, body, true, ctx + [items[i]]) {
          RestoredIsSteady(env, body, true, ctx + [items[i]]);
        }
      case _ =>
    }
  }

  /** The meaning of a whole template for given data. */
  function Render(env: Env, t: string, root: Json): Engine.Outcome {
    match Eval(env, Parse(env.flags, t), true, [View(root, "")], START)
    case Ended(out) => Engine.Done(out)
    case Failed(e) => Engine.Fail(e)
    case Closed(_, _) => Engine.Fail(Closing)
  }
}
