/** What a variable tag puts out, from the template text to the output. */
module VariableLaws {
  import opened Options
  import opened CStrings
  import opened JsonValues
  import opened Selection
  import opened Escaping
  import opened Tags
  import opened TagLaws
  import opened Engine
  import opened Template
  import opened EngineCorrect
  import opened PlainMeaning

  /** An escaped variable is inert and unescapes to the selected text; an unescaped one is the
      selected text. */
  lemma PutIs(env: Env, views: seq<View>, name: string)
    requires views != []
    ensures var escaped := Put(env, views, name, true);
      && (forall i :: 0 <= i < |escaped| ==> escaped[i] !in "<>\"")
      && Unescape(escaped) == TextOf(env, views, name)
    ensures Put(env, views, name, false) == TextOf(env, views, name)
  {
    EscapedIsInert(TextOf(env, views, name));
    EscapeRoundTrip(TextOf(env, views, name));
  }

  /** `process` ends well with this output. */
  ghost predicate Renders(env: Env, t: string, root: Json, out: string) {
    Inv(t, Size(root), Engine.Start(root)) && Run(env, t, Size(root), Engine.Start(root)) == Done(out)
  }

  lemma TaggedIs(text: string, body: string, rest: string)
    ensures Tagged("", text, DEFAULT_DELIMS, body, rest) == text + "{{" + body + "}}" + rest
  {
  }

  lemma WrittenVariable(env: Env, text: string, body: string, name: string, escape: bool, rest: string, root: Json)
    requires First(text, "{{") && First(body, "}}") && name != ""
    requires if escape then NoSigil(env.flags, body) && WritesName(env.flags, body, name)
             else Starts(body, '&') && WritesName(env.flags, body[1..], name)
    requires forall i :: 0 <= i < |rest| ==> !Occurs(rest, i, "{{")
    ensures Renders(env, Tagged("", text, DEFAULT_DELIMS, body, rest), root,
                    text + Put(env, [View(root, "")], name, escape) + rest)
  {
    hide WritesName, First, Renders, Occurs;
    TagExactly(env.flags, "", text, DEFAULT_DELIMS, body, rest, Variable(name, escape));
    ReadVariable(env, text, body, name, escape, rest, root);
  }

  lemma ReadVariable(env: Env, text: string, body: string, name: string, escape: bool, rest: string, root: Json)
    requires var t := Tagged("", text, DEFAULT_DELIMS, body, rest);
      NextTag(env.flags, t, 0, DEFAULT_DELIMS)
      == Read(Token(text, Variable(name, escape), Behind("", text, DEFAULT_DELIMS, body), DEFAULT_DELIMS))
    requires forall i :: 0 <= i < |rest| ==> !Occurs(rest, i, "{{")
    ensures Renders(env, Tagged("", text, DEFAULT_DELIMS, body, rest), root,
                    text + Put(env, [View(root, "")], name, escape) + rest)
  {
    hide NextTag, Put, Run;
    var t := Tagged("", text, DEFAULT_DELIMS, body, rest);
    var next := Behind("", text, DEFAULT_DELIMS, body);
    var front := text + ("{{" + (body + "}}"));
    assert t == front + rest;
    NoTag(env.flags, front, rest, DEFAULT_DELIMS);
    var token := Token(text, Variable(name, escape), next, DEFAULT_DELIMS);
    assert Build(env.flags, t, next, DEFAULT_DELIMS, []) == End(rest);
    var f := Leaf(token, End(rest));
    assert Parse(env.flags, t) == f;
    InlineRendersPlainly(env, t, root);
    var put := Put(env, [View(root, "")], name, escape);
    assert Meaning(env, f, [View(root, "")]) == ToEnd((text + put) + rest);
  }

  /** A template of text and one variable renders to that text and, for a variable without a
      sigil, the escaped text that its name selects. */
  lemma PlainVariable(env: Env, text: string, inner: string, name: string, rest: string, root: Json)
    requires First(text, "{{") && WritesName(env.flags, inner, name) && name != ""
    requires forall i :: 0 <= i < |rest| ==> !Occurs(rest, i, "{{")
    requires NoSigil(env.flags, inner) && First(inner, "}}")
    ensures Renders(env, text + "{{" + inner + "}}" + rest, root, text + Put(env, [View(root, "")], name, true) + rest)
  {
    hide WritesName, First, Renders, Occurs, NoSigil, Put;
    WrittenVariable(env, text, inner, name, true, rest, root);
    TaggedIs(text, inner, rest);
  }

  /** Behind an ampersand it is the text as selected. */
  lemma AmpersandVariable(env: Env, text: string, inner: string, name: string, rest: string, root: Json)
    requires First(text, "{{") && WritesName(env.flags, inner, name) && name != ""
    requires forall i :: 0 <= i < |rest| ==> !Occurs(rest, i, "{{")
    requires First("&" + inner, "}}")
    ensures Renders(env, text + "{{" + ("&" + inner) + "}}" + rest, root,
                    text + TextOf(env, [View(root, "")], name) + rest)
  {
    hide WritesName, First, Renders, Occurs;
    assert ("&" + inner)[1..] == inner;
    WrittenVariable(env, text, "&" + inner, name, false, rest, root);
    TaggedIs(text, "&" + inner, rest);
    PutIs(env, [View(root, "")], name);
  }

  /** And so it is in braces. */
  lemma BracedVariable(env: Env, text: string, inner: string, name: string, rest: string, root: Json)
    requires First(text, "{{") && WritesName(env.flags, inner, name) && name != ""
    requires forall i :: 0 <= i < |rest| ==> !Occurs(rest, i, "{{")
    requires First("{" + inner, "}}")
    ensures Renders(env, text + "{{" + ("{" + inner + "}") + "}}" + rest, root,
                    text + TextOf(env, [View(root, "")], name) + rest)
  {
    hide WritesName, First, Renders, Occurs;
    BracesReadBack(env.flags, "", text, DEFAULT_DELIMS, inner, name, rest);
    var body := "{" + inner + "}";
    ReadVariable(env, text, body, name, false, rest, root);
    TaggedIs(text, body, rest);
    PutIs(env, [View(root, "")], name);
  }
}
