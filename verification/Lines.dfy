/** The line state of the engine: which lines hold a single standalone tag and are
    dropped, and which white space is still pending in front of such a tag. */
module Lines {
  import opened CStrings

  /** `stdalone`: 0, 1 and 2. */
  datatype Alone =
    | Mixed   // the line has printable text or a variable tag, or two tags
    | Blank   // only white space on the line so far
    | Lone    // one non-printing tag with only white space around it so far

  /** The line state between two tags. `pref` is the white space held back in front of
      a lone tag. */
  datatype Line = Line(alone: Alone, pref: string)

  const START := Line(Blank, "")

  /** The state while text is scanned: what was put out, the line, and the text since the
      last newline or tag. */
  datatype Scan = Scan(out: string, line: Line, cur: string)

  function ScanChar(c: char, enabled: bool, s: Scan): Scan {
    if c == '\n' then
      var put := if s.line.alone != Lone && enabled
                 then (if s.cur != "" then s.line.pref else "") + s.cur + "\n" else "";
      Scan(s.out + put, START, "")
    else if IsSpace(c) then s.(cur := s.cur + [c])
    else
      var put := if s.line.alone == Lone && enabled then s.line.pref else "";
      var pref := if s.line.alone == Lone && enabled then "" else s.line.pref;
      Scan(s.out + put, Line(Mixed, pref), s.cur + [c])
  }

  function ScanText(t: string, enabled: bool, s: Scan): Scan
    decreases |t|
  {
    if t == "" then s
    else
      var before := ScanText(t[..|t| - 1], enabled, s);
      ScanChar(t[|t| - 1], enabled, before)
  }

  /** What a tag decides about the text scanned in front of it: put out or held back. */
  function Decide(s: Scan, enabled: bool, variable: bool): (string, Line) {
    var late := s.line.alone == Lone && enabled;  // a second tag on a lone tag's line
    var out := if late then s.out + s.line.pref else s.out;
    var alone := if late || variable then Mixed else s.line.alone;
    if alone != Mixed then (out, Line(Lone, if enabled then s.cur else ""))
    else if enabled then (out + s.cur, Line(Mixed, ""))
    else (out, Line(Mixed, ""))
  }

  /** The text in front of a tag, and the tag itself: what is put out before the tag acts. */
  function TagLine(t: string, enabled: bool, line: Line, variable: bool): (string, Line) {
    Decide(ScanText(t, enabled, Scan("", line, "")), enabled, variable)
  }

  /** The text after the last tag. */
  function EndLine(t: string, enabled: bool, line: Line): string {
    var s := ScanText(t, enabled, Scan("", line, ""));
    s.out + if s.line.alone != Lone && enabled
            then (if s.cur != "" then s.line.pref else "") + s.cur else ""
  }

  // ---------- what the line rules mean ----------

  /** Between tags white space is only held back in front of a lone tag. */
  predicate Settled(line: Line) {
    line.alone != Lone ==> line.pref == ""
  }

  predicate NoNewline(s: string) {
    forall i :: 0 <= i < |s| ==> s[i] != '\n'
  }

  /** White space never changes the line state. */
  lemma {:induction false} ScanBlank(t: string, enabled: bool, s: Scan)
    requires AllSpace(t) && NoNewline(t)
    ensures ScanText(t, enabled, s) == s.(cur := s.cur + t)
  {
    if t != "" {
      ScanBlank(t[..|t| - 1], enabled, s);
      assert t == t[..|t| - 1] + [t[|t| - 1]];
    } else {
      assert s.cur + t == s.cur;
    }
  }

  lemma {:induction false} ScanConcat(a: string, b: string, enabled: bool, s: Scan)
    ensures ScanText(a + b, enabled, s) == ScanText(b, enabled, ScanText(a, enabled, s))
  {
    if b == "" {
      assert a + b == a;
    } else {
      assert (a + b)[..|a + b| - 1] == a + b[..|b| - 1];
      ScanConcat(a, b[..|b| - 1], enabled, s);
    }
  }

  /** A line that holds one non-variable tag and otherwise only white space leaves no
      trace: neither its indentation, nor its trailing blanks, nor its newline. */
  lemma StandaloneLineVanishes(indent: string, trail: string, rest: string)
    requires AllSpace(indent) && NoNewline(indent) && AllSpace(trail) && NoNewline(trail)
    ensures TagLine(indent, true, START, false) == ("", Line(Lone, indent))
    ensures ScanText(trail + "\n" + rest, true, Scan("", Line(Lone, indent), ""))
         == ScanText(rest, true, Scan("", START, ""))
    ensures EndLine(trail, true, Line(Lone, indent)) == ""
  {
    ScanBlank(indent, true, Scan("", START, ""));
    assert "" + indent == indent;
    var s := Scan("", Line(Lone, indent), "");
    ScanBlank(trail, true, s);
    ScanConcat(trail + "\n", rest, true, s);
    assert (trail + "\n")[..|trail|] == trail;
    assert ScanText(trail + "\n", true, s) == Scan("", START, "");
  }

  /** Text in front of a tag on a line that is not lone comes out unchanged. */
  lemma {:induction false} ScanKeeps(t: string, s: Scan)
    requires s.line.alone != Lone && s.line.pref == ""
    ensures var r := ScanText(t, true, s);
      r.line.alone != Lone && r.line.pref == "" && r.out + r.cur == s.out + s.cur + t
  {
    if t == "" {
      assert s.out + s.cur + t == s.out + s.cur;
    } else {
      var before := ScanText(t[..|t| - 1], true, s);
      ScanKeeps(t[..|t| - 1], s);
      var c := t[|t| - 1];
      assert t == t[..|t| - 1] + [c];
      assert before.out + (before.cur + [c]) == (before.out + before.cur) + [c];
      assert s.out + s.cur + t == (s.out + s.cur + t[..|t| - 1]) + [c];
      if c == '\n' {
        assert ScanText(t, true, s).out == before.out + (before.cur + [c]);
      }
    }
  }

  /** On a lone line, white space is collected until a printable character puts out the
      pending white space and ends the lone state. */
  lemma {:induction false} ScanLone(t: string, pref: string)
    ensures var r := ScanText(t, true, Scan("", Line(Lone, pref), ""));
      && (if AllSpace(t) && NoNewline(t) then r == Scan("", Line(Lone, pref), t)
          else r.line.alone != Lone && r.line.pref == "")
      && (NoNewline(t) ==> r.out == (if AllSpace(t) then "" else pref) && r.cur == t)
  {
    if t != "" {
      var init := t[..|t| - 1];
      var c := t[|t| - 1];
      ScanLone(init, pref);
      assert t == init + [c];
      SnocSpace(init, c);
    }
  }

  lemma SnocSpace(s: string, c: char)
    ensures AllSpace(s + [c]) <==> AllSpace(s) && IsSpace(c)
    ensures NoNewline(s + [c]) <==> NoNewline(s) && c != '\n'
  {
    assert forall i :: 0 <= i < |s| ==> (s + [c])[i] == s[i];
    assert (s + [c])[|s|] == c;
  }

  /** With the engine enabled the text before a tag is either put out whole (with the
      pending white space of a lone line in front) or held back for the next decision;
      in particular a variable tag always gets everything before it put out, unless a
      newline has just ended a lone line. */
  lemma TagLineConserves(t: string, line: Line, variable: bool)
    requires Settled(line)
    ensures var (out, l) := TagLine(t, true, line, variable);
      && Settled(l)
      && (variable ==> l == Line(Mixed, ""))
      && (line.alone != Lone ==> out + l.pref == t)
      && (line.alone == Lone && NoNewline(t) ==> out + l.pref == line.pref + t)
  {
    hide ScanText, Decide;
    var s := ScanText(t, true, Scan("", line, ""));
    DecideConserves(s, variable);
    if line.alone != Lone {
      ScanKeeps(t, Scan("", line, ""));
      assert "" + "" + t == t;
    } else {
      ScanLone(t, line.pref);
      if NoNewline(t) && !AllSpace(t) {
        assert s.out == line.pref && s.cur == t;
      }
    }
  }

  lemma DecideConserves(s: Scan, variable: bool)
    ensures var (out, l) := Decide(s, true, variable);
      && Settled(l)
      && (variable ==> l == Line(Mixed, ""))
      && out + l.pref == s.out + (if s.line.alone == Lone then s.line.pref else "") + s.cur
  {
    assert s.out + "" == s.out;
    assert s.out + s.cur + "" == s.out + s.cur;
    assert s.out + s.line.pref + s.cur + "" == s.out + s.line.pref + s.cur;
  }

  /** With the engine disabled nothing is put out. */
  lemma {:induction false} DisabledSilent(t: string, s: Scan)
    ensures ScanText(t, false, s).out == s.out
  {
    if t != "" {
      DisabledSilent(t[..|t| - 1], s);
    }
  }
}
