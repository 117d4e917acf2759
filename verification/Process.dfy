/** The loop of `process` in mustach.c, statement by statement, over the mutable context. */
module Process {
  import opened CStrings
  import opened JsonValues
  import opened Selection
  import opened Tags
  import opened Lines
  import opened Engine
  import opened Template
  import opened JsonContext
  import Wrapper
  import KeyBuffer
  import EngineCorrect

  const OK := 0
  const ERROR_UNEXPECTED_END := -2
  const ERROR_EMPTY_TAG := -3
  const ERROR_TAG_TOO_LONG := -4
  const ERROR_BAD_SEPARATORS := -5
  const ERROR_TOO_DEEP := -6
  const ERROR_CLOSING := -7
  const ERROR_BAD_UNESCAPE_TAG := -8

  function Code(e: Error): int {
    match e
    case UnexpectedEnd => ERROR_UNEXPECTED_END
    case EmptyTag => ERROR_EMPTY_TAG
    case TagTooLong => ERROR_TAG_TOO_LONG
    case BadSeparators => ERROR_BAD_SEPARATORS
    case TooDeep => ERROR_TOO_DEEP
    case Closing => ERROR_CLOSING
    case BadUnescapeTag => ERROR_BAD_UNESCAPE_TAG
  }

  /** A return code and the text put out so far report an outcome; as in mustach_mem the
      text of a failed run is dropped. */
  predicate Reports(rc: int, out: string, o: Outcome) {
    match o
    case Done(text) => rc == OK && out == text
    case Fail(e) => rc == Code(e)
  }

  /** The loop variables of the scan agree with the specification's scan state. */
  ghost predicate Scanned(t: string, template: nat, beg: nat, start: nat, line: Line, enabled: bool,
                          late: Line, file: string, out: string) {
    && template <= start <= beg <= |t|
    && var s := ScanText(t[template..beg], enabled, Scan("", line, ""));
       out == file + s.out && late == s.line && t[start..beg] == s.cur
  }

  lemma ScanOneMore(t: string, p: nat, b: nat, enabled: bool, s: Scan)
    requires p <= b < |t|
    ensures ScanText(t[p..b + 1], enabled, s) == ScanChar(t[b], enabled, ScanText(t[p..b], enabled, s))
  {
    assert t[p..b + 1][..b - p] == t[p..b];
  }

  /** One character of the scan: a newline ends a line, a printable character settles it. */
  method ScanTurn(t: string, ghost template: nat, beg: nat, start: nat, ghost line: Line, enabled: bool,
                  late: Line, ghost file: string, out: string)
    returns (start': nat, late': Line, out': string)
    requires beg < |t| && Scanned(t, template, beg, start, line, enabled, late, file, out)
    ensures Scanned(t, template, beg + 1, start', line, enabled, late', file, out')
  {
    hide ScanText;
    ghost var s := ScanText(t[template..beg], enabled, Scan("", line, ""));
    ScanOneMore(t, template, beg, enabled, Scan("", line, ""));
    assert t[start..beg + 1] == t[start..beg] + [t[beg]];
    start', late' := start, late;
    var put := "";
    if t[beg] == '\n' {
      if late.alone != Lone && enabled {
        put := (if beg != start then late.pref else "") + t[start..beg] + "\n";
      }
      start', late' := beg + 1, START;
    } else if !IsSpace(t[beg]) {
      if late.alone == Lone && enabled {
        put, late' := late.pref, Line(Mixed, "");
      }
      late' := late'.(alone := Mixed);
    } else {
      assert s.out + put == s.out;
    }
    assert (file + s.out) + put == file + (s.out + put);
    out' := out + put;
  }

  /** The scanning loop: puts out whole lines up to the next opening delimiter or the end.
      `start` is where the text that is not put out yet begins. */
  method ScanLoop(t: string, template: nat, op: string, line: Line, enabled: bool, file: string)
    returns (beg: nat, start: nat, late: Line, out: string)
    requires template <= |t| && op != ""
    ensures beg == Find(t, template, op)
    ensures Scanned(t, template, beg, start, line, enabled, late, file, out)
  {
    beg, start, late, out := template, template, line, file;
    assert t[template..template] == "" && file + "" == file;
    while beg < |t|
      invariant Scanned(t, template, beg, start, line, enabled, late, file, out)
      invariant forall i :: template <= i < beg ==> !Occurs(t, i, op)
    {
      var found := OccursAt(t, beg, op);
      if found {
        break;
      }
      start, late, out := ScanTurn(t, template, beg, start, line, enabled, late, file, out);
      beg := beg + 1;
    }
    FindIs(t, template, op, beg);
  }

  /** The character-by-character comparison with a delimiter. */
  method OccursAt(t: string, at: nat, d: string) returns (b: bool)
    requires at <= |t|
    ensures b == Occurs(t, at, d)
  {
    if |t| - at < |d| {
      return false;
    }
    var l := 0;
    while l < |d| && t[at + l] == d[l]
      invariant 0 <= l <= |d|
      invariant forall i :: 0 <= i < l ==> t[at + i] == d[i]
    {
      l := l + 1;
    }
    b := l == |d|;
    if !b {
      assert t[at..at + |d|][l] != d[l];
    }
  }

  /** The loop that looks for the closing delimiter. */
  method FindLoop(t: string, from: nat, d: string) returns (term: nat)
    requires from <= |t| && d != ""
    ensures term == Find(t, from, d)
  {
    term := from;
    while term < |t|
      invariant from <= term <= |t|
      invariant forall i :: from <= i < term ==> !Occurs(t, i, d)
    {
      var found := OccursAt(t, term, d);
      if found {
        break;
      }
      term := term + 1;
    }
    FindIs(t, from, d, term);
  }

  /** Reads the tag at the opening delimiter found at `open`. */
  method ReadTagAt(flags: Flags, t: string, template: nat, open: nat, d: Delims) returns (r: Reading)
    requires ValidDelims(d) && template <= open && Occurs(t, open, d.open)
    ensures r == ReadAt(flags, t, template, open, d)
  {
    hide ReadTag;
    var beg := open + |d.open|;
    var term := FindLoop(t, beg, d.close);
    if term == |t| {
      return Bad(UnexpectedEnd);
    }
    r := ReadTag(flags, t, t[template..open], beg, term, d);
  }

  // ---------- names are C strings ----------

  predicate Free(s: string) {
    KeyBuffer.NUL !in s
  }

  predicate NamesFree(tag: Tag) {
    match tag
    case Variable(name, _) => Free(name)
    case Section(name, _) => Free(name)
    case _ => true
  }

  lemma SliceFree(s: string, a: nat, b: nat)
    requires Free(s) && a <= b <= |s|
    ensures Free(s[a..b])
  {
  }

  lemma TrimmedFree(flags: Flags, s: string)
    requires Free(s)
    ensures var r := TrimmedName(flags, s); r.Name? ==> Free(r.name)
  {
    var left := TrimLeft(s);
    SliceFree(s, |s| - |left|, |s|);
    SliceFree(left, 0, |TrimRight(left)|);
  }

  lemma SigilFree(flags: Flags, s: string)
    requires Free(s)
    ensures var r := SigilName(flags, s); r.Name? ==> Free(r.name)
  {
  }

  lemma ReadTagFree(flags: Flags, t: string, text: string, beg: nat, term: nat, d: Delims)
    requires ValidDelims(d) && beg <= term && Occurs(t, term, d.close) && Free(t)
    ensures var r := ReadTag(flags, t, text, beg, term, d); r.Read? ==> NamesFree(r.token.tag)
  {
    hide TrimmedName, SigilName, ReadDelims;
    var body := t[beg..term];
    SliceFree(t, beg, term);
    TrimmedFree(flags, body);
    SigilFree(flags, body);
    if body != "" {
      SliceFree(body, 0, |body| - 1);
      SigilFree(flags, body[..|body| - 1]);
    }
  }

  lemma NameFree(flags: Flags, t: string, template: nat, d: Delims)
    requires Free(t) && ValidDelims(d) && template <= |t|
    ensures var r := NextTag(flags, t, template, d); r.Read? ==> NamesFree(r.token.tag)
  {
    hide ReadTag;
    var open := Find(t, template, d.open);
    if open < |t| {
      var term := Find(t, open + |d.open|, d.close);
      if term < |t| {
        ReadTagFree(flags, t, t[template..open], open + |d.open|, term, d);
        assert NextTag(flags, t, template, d) == ReadTag(flags, t, t[template..open], open + |d.open|, term, d);
      }
    }
  }

  // ---------- the actions ----------

  /** Opens a section. */
  method OpenTag(e: Context, env: Env, stack: array<Sec>, depth: nat, name: string, inverted: bool,
                 again: nat, enabled: bool, ghost s: State)
    returns (rc: int, depth': nat, enabled': bool)
    requires e.Valid() && stack.Length == MAX_DEPTH && depth <= MAX_DEPTH && KeyBuffer.NUL !in name
    requires s.enabled == enabled && s.pos == again && s.secs == stack[..depth] && s.levels == e.Levels()
    modifies e, e.stack, stack
    ensures match OpenSection(env, s, name, inverted)
      case Halt(o) => o == Fail(TooDeep) && rc == ERROR_TOO_DEEP
      case Next(s') =>
        && rc >= 0 && e.Valid() && depth' <= MAX_DEPTH
        && s' == s.(enabled := enabled', secs := stack[..depth'], levels := e.Levels())
  {
    depth', enabled' := depth, enabled;
    if depth == MAX_DEPTH {
      return ERROR_TOO_DEEP, depth, enabled;
    }
    rc := 0;
    if enabled {
      rc := Wrapper.EnterSection(e, env, name);
      if rc < 0 {
        return ERROR_TOO_DEEP, depth, enabled;
      }
    }
    stack[depth] := Sec(name, again, enabled, rc != 0);
    if inverted == (rc != 0) {
      enabled' := false;
    }
    depth' := depth + 1;
    assert stack[..depth'] == s.secs + [Sec(name, again, enabled, rc != 0)];
    if enabled && rc == 0 {
      assert s.levels + [] == s.levels;
    }
  }

  /** Closes a section, or goes back to its start for the next item. */
  method CloseTag(e: Context, stack: array<Sec>, depth: nat, name: string, template: nat, enabled: bool, ghost s: State)
    returns (rc: int, depth': nat, enabled': bool, template': nat)
    requires e.Valid() && stack.Length == MAX_DEPTH && depth <= MAX_DEPTH
    requires s.enabled == enabled && s.pos == template && s.secs == stack[..depth] && s.levels == e.Levels()
    requires |s.levels| == 1 + EnteredCount(s.secs) && Nested(s.secs, s.enabled)
    modifies e`depth, e.stack
    ensures match CloseSection(s, name)
      case Halt(o) => o == Fail(Closing) && rc == ERROR_CLOSING
      case Next(s') =>
        && rc >= 0 && e.Valid() && depth' <= MAX_DEPTH
        && s' == s.(pos := template', enabled := enabled', secs := stack[..depth'], levels := e.Levels())
  {
    depth', enabled', template' := depth, enabled, template;
    if depth == 0 || name != stack[depth - 1].name {
      return ERROR_CLOSING, depth, enabled, template;
    }
    var sec := stack[depth - 1];
    assert sec == Top(s.secs);
    assert EnteredCount(s.secs) == EnteredCount(Pop(s.secs)) + if sec.entered then 1 else 0;
    assert e.depth + 1 == |s.levels|;
    rc := 0;
    if enabled && sec.entered {
      rc := e.Next();
    }
    if rc != 0 {
      template' := sec.again;
    } else {
      depth', enabled' := depth - 1, sec.enabled;
      assert stack[..depth'] == Pop(s.secs);
      if enabled' && sec.entered {
        rc := e.Leave();
        assert e.Levels() == Pop(s.levels);
      }
    }
  }

  // ---------- the main loop ----------

  /** The C variables stand for the state s of the machine. */
  ghost predicate StandsFor(s: State, template: nat, d: Delims, line: Line, enabled: bool,
                            stack: array<Sec>, depth: nat, e: Context, out: string)
    reads e, e.stack, stack
  {
    && e.Valid() && stack.Length == MAX_DEPTH && depth <= MAX_DEPTH
    && s == State(template, d, line, enabled, stack[..depth], e.Levels(), out)
  }

  /** The text in front of a tag has been scanned: puts out what is due before it acts. */
  method BeforeTag(late: Line, cur: string, enabled: bool, variable: bool, file: string,
                   ghost before: string, ghost s: Scan)
    returns (line: Line, out: string)
    requires late == s.line && cur == s.cur && file == before + s.out
    ensures var (put, l) := Decide(s, enabled, variable); line == l && out == before + put
  {
    var alone := late.alone;
    out := file;
    if alone == Lone && enabled {
      out := out + late.pref;
      alone := Mixed;
      assert out == before + (s.out + late.pref);
    }
    if variable {
      alone := Mixed;
    }
    var pref := if enabled then cur else "";
    if alone != Mixed {
      alone := Lone;
    } else if enabled {
      assert out + pref == before + ((if s.line.alone == Lone then s.out + late.pref else s.out) + cur);
      out := out + pref;
      pref := "";
    }
    line := Line(alone, pref);
  }

  /** The end of the text: puts out the rest of the last line. */
  method AtTheEnd(late: Line, cur: string, enabled: bool, file: string, depth: nat, ghost before: string, ghost s: Scan)
    returns (rc: int, out: string)
    requires late == s.line && cur == s.cur && file == before + s.out
    ensures rc == if depth == 0 then OK else ERROR_UNEXPECTED_END
    ensures out == before + (s.out + if s.line.alone != Lone && enabled
                                     then (if s.cur != "" then s.line.pref else "") + s.cur else "")
  {
    var put := "";
    if late.alone != Lone && enabled {
      put := (if cur != "" then late.pref else "") + cur;
    }
    assert (before + s.out) + put == before + (s.out + put);
    out := file + put;
    rc := if depth == 0 then OK else ERROR_UNEXPECTED_END;
  }

  /** The second switch: what the tag does. */
  method Dispatch(e: Context, env: Env, stack: array<Sec>, depth: nat, template: nat, d: Delims, line: Line,
                  enabled: bool, out: string, tag: Tag, ghost s: State)
    returns (rc: int, depth': nat, template': nat, enabled': bool, out': string)
    requires StandsFor(s, template, d, line, enabled, stack, depth, e, out) && NamesFree(tag)
    requires |s.levels| == 1 + EnteredCount(s.secs) && Nested(s.secs, s.enabled)
    modifies e, e.stack, stack
    ensures match Act(env, s, tag)
      case Halt(o) => rc < 0 && Reports(rc, out', o)
      case Next(s') => rc >= 0 && StandsFor(s', template', d, line, enabled', stack, depth', e, out')
  {
    rc, depth', template', enabled', out' := 0, depth, template, enabled, out;
    match tag {
      case Variable(name, escape) =>
        if enabled {
          out' := Wrapper.PutVariable(e, env, name, escape, out);
        }
      case Section(name, inverted) =>
        rc, depth', enabled' := OpenTag(e, env, stack, depth, name, inverted, template, enabled, s);
      case Close(name) =>
        rc, depth', enabled', template' := CloseTag(e, stack, depth, name, template, enabled, s);
      case _ =>
    }
  }

  /** One turn of the main loop does one step of the machine. */
  method Turn(e: Context, env: Env, t: string, stack: array<Sec>, depth: nat, template: nat, d: Delims, line: Line,
              enabled: bool, file: string, ghost s: State)
    returns (halted: bool, rc: int, depth': nat, template': nat, d': Delims, line': Line, enabled': bool, out: string)
    requires StandsFor(s, template, d, line, enabled, stack, depth, e, file) && Free(t)
    requires ValidDelims(d) && template <= |t|
    requires |s.levels| == 1 + EnteredCount(s.secs) && Nested(s.secs, s.enabled)
    modifies e, e.stack, stack
    ensures match Step(env, t, s)
      case Halt(o) => halted && Reports(rc, out, o)
      case Next(s') => !halted && StandsFor(s', template', d', line', enabled', stack, depth', e, out)
  {
    hide ReadAt, ScanText, Act;
    depth', template', d', line', enabled' := depth, template, d, line, enabled;
    var beg, start, late;
    beg, start, late, out := ScanLoop(t, template, d.open, line, enabled, file);
    ghost var scan := ScanText(t[template..beg], enabled, Scan("", line, ""));
    NameFree(env.flags, t, template, d);
    if beg == |t| {
      assert t[template..] == t[template..beg];
      rc, out := AtTheEnd(late, t[start..beg], enabled, out, depth, file, scan);
      return true, rc, depth, template, d, line, enabled, out;
    }
    var r := ReadTagAt(env.flags, t, template, beg, d);
    if r.Bad? {
      return true, Code(r.error), depth, template, d, line, enabled, out;
    }
    var token := r.token;
    line', out := BeforeTag(late, t[start..beg], enabled, token.tag.Variable?, out, file, scan);
    template', d' := token.next, token.delims;
    ghost var a := Advance(s, token);
    rc, depth', template', enabled', out :=
      Dispatch(e, env, stack, depth, template', d', line', enabled, out, token.tag, a);
    halted := rc < 0;
  }

  /** process: on every template and all data the loop halts, with the return code and the
      text of the machine's run; and where every section rendered more than once restores
      the delimiters, with those of the recursive meaning of the template. */
  method Process(t: string, e: Context, env: Env) returns (rc: int, out: string)
    requires e.Valid() && Free(t) && e.Levels() == Engine.Start(e.root).levels
    modifies e, e.stack
    ensures Inv(t, Size(e.root), Engine.Start(e.root))
    ensures Reports(rc, out, Run(env, t, Size(e.root), Engine.Start(e.root)))
    ensures Steady(env, Parse(env.flags, t), true, [View(e.root, "")]) ==> Reports(rc, out, Render(env, t, e.root))
  {
    hide Step, Run, Parse, Render, Steady, Potential;
    var template, d, line, enabled, depth := 0, DEFAULT_DELIMS, START, true, 0;
    var stack := new Sec[MAX_DEPTH](_ => Sec("", 0, false, false));
    out := "";
    ghost var n := Size(e.root);
    ghost var s := Engine.Start(e.root);
    StartInv(t, e.root);
    if Steady(env, Parse(env.flags, t), true, [View(e.root, "")]) {
      EngineCorrect.MachineIsRecursion(env, t, e.root);
    }
    assert stack[..0] == [];
    while true
      invariant StandsFor(s, template, d, line, enabled, stack, depth, e, out)
      invariant Inv(t, n, s)
      invariant Run(env, t, n, s) == Run(env, t, n, Engine.Start(e.root))
      invariant fresh(stack)
      decreases Potential(t, n, s)
    {
      var halted;
      RunStep(env, t, n, s);
      ghost var step := Step(env, t, s);
      halted, rc, depth, template, d, line, enabled, out :=
        Turn(e, env, t, stack, depth, template, d, line, enabled, out, s);
      if halted {
        return;
      }
      s := step.state;
    }
  }
}
