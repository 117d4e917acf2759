/** Raw blocks: where the matching brace is, and the removal of indentation. */
module RawText {

  // ---------- the matching brace ----------

  /** How a character changes the brace depth. */
  function Turn(c: char): int {
    if c == '{' then 1 else if c == '}' then -1 else 0
  }

  function Depth(s: string): int {
    if s == "" then 0 else Depth(s[..|s| - 1]) + Turn(s[|s| - 1])
  }

  /** The depth never drops below zero and ends at zero. */
  predicate Balanced(s: string) {
    Depth(s) == 0 && forall k :: 0 <= k <= |s| ==> Depth(s[..k]) >= 0
  }

  /** k is where the scan from inside a block stops: just behind the brace that brings the
      depth below that of the content. */
  predicate StopsAt(s: string, k: nat) {
    && 0 < k <= |s| && Depth(s[..k]) == -1
    && forall i :: 0 <= i < k ==> Depth(s[..i]) >= 0
  }

  lemma StopsOnce(s: string, i: nat, j: nat)
    requires StopsAt(s, i) && StopsAt(s, j)
    ensures i == j
  {
  }

  lemma DepthStep(s: string, k: nat)
    requires k < |s|
    ensures Depth(s[..k + 1]) == Depth(s[..k]) + Turn(s[k])
  {
    assert s[..k + 1][..k] == s[..k];
  }

  /** The scan stops behind the brace that follows balanced text, and only there. */
  lemma StopsAfterBalanced(text: string, rest: string)
    ensures Balanced(text) <==> StopsAt(text + "}" + rest, |text| + 1)
  {
    var s := text + "}" + rest;
    assert forall k :: 0 <= k <= |text| ==> s[..k] == text[..k];
    assert s[..|text|] == text;
    DepthStep(s, |text|);
  }

  /** For balanced text in braces, the scan stops exactly at its matching brace. */
  lemma BlockContent(text: string, rest: string, n: nat)
    requires Balanced(text) && StopsAt(text + "}" + rest, n)
    ensures n == |text| + 1 && (text + "}" + rest)[..n - 1] == text
  {
    StopsAfterBalanced(text, rest);
    StopsOnce(text + "}" + rest, n, |text| + 1);
  }

  // ---------- removing indentation ----------

  predicate Blank(c: char) {
    c == ' ' || c == '\t'
  }

  /** The copying pass: drops blanks while at the start of a line. */
  function Stripped(s: string, start: bool): string {
    if s == "" then ""
    else if start && Blank(s[0]) then Stripped(s[1..], true)
    else [s[0]] + Stripped(s[1..], s[0] == '\n')
  }

  /** Whether the text so far ends at the start of a line, blanks not counted. */
  function AtStart(s: string, start: bool): bool {
    if s == "" then start
    else if start && Blank(s[0]) then AtStart(s[1..], true)
    else AtStart(s[1..], s[0] == '\n')
  }

  lemma {:induction false} StrippedSnoc(s: string, c: char, start: bool)
    ensures var at := AtStart(s, start); var skip := at && Blank(c);
      && Stripped(s + [c], start) == Stripped(s, start) + (if skip then "" else [c])
      && AtStart(s + [c], start) == if skip then true else c == '\n'
  {
    if s == "" {
      assert s + [c] == [c];
      assert [c][1..] == "";
    } else {
      assert (s + [c])[1..] == s[1..] + [c];
      StrippedSnoc(s[1..], c, if start && Blank(s[0]) then true else s[0] == '\n');
    }
  }

  /** The lines of a text. */
  function Lines(s: string): (r: seq<string>)
    ensures r != []
  {
    if s == "" then [""]
    else if s[0] == '\n' then [""] + Lines(s[1..])
    else [[s[0]] + Lines(s[1..])[0]] + Lines(s[1..])[1..]
  }

  function Unindent(line: string): string {
    if line != "" && Blank(line[0]) then Unindent(line[1..]) else line
  }

  function UnindentAll(lines: seq<string>): seq<string> {
    if lines == [] then [] else [Unindent(lines[0])] + UnindentAll(lines[1..])
  }

  function Join(lines: seq<string>): string {
    if lines == [] then "" else if |lines| == 1 then lines[0] else lines[0] + "\n" + Join(lines[1..])
  }

  lemma JoinCons(c: char, line: string, rest: seq<string>)
    ensures Join([[c] + line] + rest) == [c] + Join([line] + rest)
  {
  }

  lemma JoinEmpty(rest: seq<string>)
    requires rest != []
    ensures Join([""] + rest) == "\n" + Join(rest)
  {
    assert ([""] + rest)[1..] == rest;
    assert "" + "\n" + Join(rest) == "\n" + Join(rest);
  }

  /** The copying pass yields the lines without their leading blanks. */
  lemma {:induction false} StripsLines(s: string)
    ensures Stripped(s, true) == Join(UnindentAll(Lines(s)))
    ensures Stripped(s, false) == Join([Lines(s)[0]] + UnindentAll(Lines(s)[1..]))
  {
    if s == "" {
      assert UnindentAll([""]) == [""] by { assert [""][1..] == []; }
      assert [""] + [] == [""];
    } else {
      StripsLines(s[1..]);
      var lines := Lines(s[1..]);
      var tail := UnindentAll(lines[1..]);
      assert UnindentAll(lines) == [Unindent(lines[0])] + tail;
      if s[0] == '\n' {
        assert Lines(s)[1..] == lines;
        JoinEmpty(UnindentAll(lines));
        assert UnindentAll(Lines(s)) == [""] + UnindentAll(lines);
      } else {
        var line := [s[0]] + lines[0];
        assert Lines(s) == [line] + lines[1..] && Lines(s)[1..] == lines[1..];
        JoinCons(s[0], lines[0], tail);
        assert line[1..] == lines[0];
        assert UnindentAll(Lines(s)) == [Unindent(line)] + tail;
      }
    }
  }

  /** A stripped text has no indentation left to strip. */
  lemma {:induction false} StripIdempotent(s: string, start: bool)
    ensures Stripped(Stripped(s, start), start) == Stripped(s, start)
  {
    if s != "" {
      if start && Blank(s[0]) {
        StripIdempotent(s[1..], true);
      } else {
        var rest := Stripped(s[1..], s[0] == '\n');
        StripIdempotent(s[1..], s[0] == '\n');
        assert ([s[0]] + rest)[1..] == rest;
      }
    }
  }
}
