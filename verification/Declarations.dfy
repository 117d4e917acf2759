/** The declarations of a website text: what a flat scan of its tokens finds by counting
    braces. */
module Declarations {
  import opened Options
  import opened Lexical

  datatype Kind = PageNode | LayoutNode | StyleNode | QueryNode | TransformNode | ScriptNode | ApiNode | PartialNode

  /** A declaration: which list it belongs to, and what it is looked up by: its name, which
      is the route of a page or an endpoint, and for an endpoint its method as well. */
  datatype Node = Node(kind: Kind, name: string, verb: string)

  // ---------- the flat scan ----------

  /** What a text has declared, and the paths it includes. */
  datatype Found = Found(nodes: seq<Node>, paths: seq<string>)

  const NOTHING := Found([], [])

  function With(found: Found, node: Node): Found {
    found.(nodes := found.nodes + [node])
  }

  /** Where a scan stands: the brace depth, the declaration it is in, the token before if it
      was a key whose value counts, the name and method found so far, and what was found.
      Behind an unmatched closing brace or the end of the text the depth is negative for good. */
  datatype Scan = Scan(
    depth: int, block: Option<Kind>, key: Option<TokenType>, name: string, verb: string, found: Found)

  /** Outside all braces. */
  function Idle(found: Found): Scan {
    Scan(0, None, None, "", "", found)
  }

  /** Behind the keyword of a declaration. */
  function Opened(kind: Kind, found: Found): Scan {
    Scan(0, Some(kind), None, "", "", found)
  }

  /** Inside a declaration, outside the blocks it contains. */
  function Inside(node: Node, found: Found): Scan {
    Scan(1, Some(node.kind), None, node.name, node.verb, found)
  }

  /** Inside a `styles` block. */
  function InStyles(found: Found): Scan {
    Scan(1, Some(StyleNode), None, "", "", found)
  }

  /** The keywords of declarations; a `styles` block declares once for every entry in it. */
  function KindOf(t: TokenType): Option<Kind> {
    if t == PAGE then Some(PageNode)
    else if t == LAYOUT then Some(LayoutNode)
    else if t == STYLES then Some(StyleNode)
    else if t == QUERY then Some(QueryNode)
    else if t == TRANSFORM then Some(TransformNode)
    else if t == SCRIPT then Some(ScriptNode)
    else if t == API then Some(ApiNode)
    else if t == PARTIAL then Some(PartialNode)
    else None
  }

  /** Pages and API endpoints are looked up by route, everything else by name. */
  function NamingKey(k: Kind): TokenType {
    if k == PageNode || k == ApiNode then ROUTE else NAME
  }

  /** The keys inside a declaration whose values count. */
  predicate IsKey(k: Kind, t: TokenType) {
    t == NamingKey(k) || (k == ApiNode && t == METHOD)
  }

  /** Where only braces matter. */
  predicate Quiet(s: Scan) {
    s.depth >= 2 || (s.depth >= 1 && s.block.None?)
  }

  /** Directly inside a declaration other than `styles`, not behind a key. */
  predicate Within(s: Scan) {
    s.depth == 1 && s.block.Some? && s.block.value != StyleNode && s.key.None?
  }

  /** A token that is neither a brace nor the end of the text. */
  predicate Plain(t: TokenType) {
    t != OPEN_BRACE && t != CLOSE_BRACE && t != EOF
  }

  /** Where a token of this kind changes nothing. */
  predicate Passive(s: Scan, t: TokenType) {
    Plain(t) && (Quiet(s) || (Within(s) && !IsKey(s.block.value, t)))
  }

  function Step(s: Scan, t: Lexeme): (r: Scan)
    ensures Passive(s, t.kind) ==> r == s
    ensures t.kind == OPEN_BRACE && s.depth >= 0 ==> r == s.(depth := s.depth + 1)
    ensures t.kind == CLOSE_BRACE && Quiet(s) ==> r == s.(depth := s.depth - 1)
    ensures t.kind == CLOSE_BRACE && Within(s) ==> r == Idle(With(s.found, Node(s.block.value, s.name, s.verb)))
    ensures s.depth < 0 ==> r == s
  {
    if s.depth < 0 then s
    else if t.kind == EOF then s.(depth := -1)
    else if t.kind == OPEN_BRACE then s.(depth := s.depth + 1)
    else if t.kind == CLOSE_BRACE then
      if s.depth != 1 || s.block.None? then s.(depth := s.depth - 1)
      else Idle(if s.block.value == StyleNode then s.found else With(s.found, Node(s.block.value, s.name, s.verb)))
    else if s.depth == 0 then Top(s, t)
    else if s.depth == 1 && s.block.Some? then Entry(s, s.block.value, t)
    else s
  }

  /** A token outside all braces. */
  function Top(s: Scan, t: Lexeme): Scan {
    if KindOf(t.kind).Some? then Opened(KindOf(t.kind).value, s.found)
    else if s.key.Some? && t.kind == STRING then s.(key := None, found := s.found.(paths := s.found.paths + [t.text]))
    else s.(key := if t.kind == INCLUDE then Some(INCLUDE) else None)
  }

  /** A token directly inside a declaration. */
  function Entry(s: Scan, kind: Kind, t: Lexeme): Scan {
    if kind == StyleNode then
      if t.kind == STRING then s.(found := With(s.found, Node(kind, t.text, "")))
      else if t.kind == RAW_BLOCK then s.(found := With(s.found, Node(kind, "", "")))
      else s
    else if s.key.Some? && t.kind == STRING then Named(s, s.key.value, t.text)
    else s.(key := if IsKey(kind, t.kind) then Some(t.kind) else None)
  }

  /** The value of a key. */
  function Named(s: Scan, key: TokenType, value: string): Scan {
    if key == METHOD then s.(key := None, verb := value) else s.(key := None, name := value)
  }

  lemma NameSteps(s: Scan, key: Lexeme, value: Lexeme)
    requires Within(s) && IsKey(s.block.value, key.kind) && value.kind == STRING
    ensures Step(Step(s, key), value) == Named(s, key.kind, value.text)
  {
  }

  lemma StyleStep(found: Found, t: Lexeme)
    ensures t.kind == STRING ==> Step(InStyles(found), t) == InStyles(With(found, Node(StyleNode, t.text, "")))
    ensures t.kind == RAW_BLOCK ==> Step(InStyles(found), t) == InStyles(With(found, Node(StyleNode, "", "")))
    ensures t.kind == CLOSE_BRACE ==> Step(InStyles(found), t) == Idle(found)
  {
  }

  lemma IdleStep(found: Found, t: Lexeme)
    ensures t.kind == CLOSE_BRACE || t.kind == EOF ==> Step(Idle(found), t).depth < 0
    ensures Plain(t.kind) && t.kind != INCLUDE ==>
      Step(Idle(found), t) == if KindOf(t.kind).Some? then Opened(KindOf(t.kind).value, found) else Idle(found)
  {
  }

  lemma IncludeSteps(found: Found, key: Lexeme, path: Lexeme)
    requires key.kind == INCLUDE && path.kind == STRING
    ensures Step(Step(Idle(found), key), path) == Idle(found.(paths := found.paths + [path.text]))
  {
  }

  function ScanAll(s: Scan, tokens: seq<Lexeme>): Scan {
    if tokens == [] then s else Step(ScanAll(s, tokens[..|tokens| - 1]), tokens[|tokens| - 1])
  }

  lemma ScanSnoc(s: Scan, tokens: seq<Lexeme>, t: Lexeme)
    ensures ScanAll(s, tokens + [t]) == Step(ScanAll(s, tokens), t)
  {
    assert (tokens + [t])[..|tokens|] == tokens;
  }

  /** The declarations of a token sequence, in order. */
  function Declared(tokens: seq<Lexeme>): seq<Node> {
    ScanAll(Idle(NOTHING), tokens).found.nodes
  }

  /** The paths it includes, in order. */
  function Paths(tokens: seq<Lexeme>): seq<string> {
    ScanAll(Idle(NOTHING), tokens).found.paths
  }

  /** A longer token sequence includes what a shorter one does. */
  lemma {:induction false} PathsGrow(s: string, from: nat, m: nat, n: nat)
    requires m <= n
    ensures Paths(Tokens(s, from, m)) <= Paths(Tokens(s, from, n))
  {
    hide Step, ScanAll, Nth;
    if m < n {
      PathsGrow(s, from, m, n - 1);
      ScanSnoc(Idle(NOTHING), Tokens(s, from, n - 1), Nth(s, from + n - 1));
      StepAddsPaths(ScanAll(Idle(NOTHING), Tokens(s, from, n - 1)), Nth(s, from + n - 1));
    }
  }

  lemma StepAddsPaths(s: Scan, t: Lexeme)
    ensures s.found.paths <= Step(s, t).found.paths
  {
  }

  /** The declarations of several texts, one after the other. */
  function DeclaredAll(texts: seq<seq<Lexeme>>): seq<Node> {
    if texts == [] then [] else DeclaredAll(texts[..|texts| - 1]) + Declared(texts[|texts| - 1])
  }

  /** The n tokens of a text from its token number `from` on are all there is up to the first
      unmatched closing brace or the end of the text. */
  predicate Ends(s: string, from: nat, n: nat) {
    && ScanAll(Idle(NOTHING), Tokens(s, from, n)).depth >= 0
    && ScanAll(Idle(NOTHING), Tokens(s, from, n + 1)).depth < 0
  }

  lemma {:induction false} EndsForGood(s: string, from: nat, k: nat, n: nat)
    requires k <= n && ScanAll(Idle(NOTHING), Tokens(s, from, k)).depth < 0
    ensures ScanAll(Idle(NOTHING), Tokens(s, from, n)).depth < 0
  {
    hide Step, ScanAll, Nth;
    if k < n {
      EndsForGood(s, from, k, n - 1);
      ScanSnoc(Idle(NOTHING), Tokens(s, from, n - 1), Nth(s, from + n - 1));
    }
  }

  /** A text ends in one place only. */
  lemma EndsOnce(s: string, from: nat, m: nat, n: nat)
    requires Ends(s, from, m) && Ends(s, from, n)
    ensures m == n
  {
    hide ScanAll, Tokens;
    if m < n {
      EndsForGood(s, from, m + 1, n);
    } else if n < m {
      EndsForGood(s, from, n + 1, m);
    }
  }

  lemma {:induction false} ScanConcat(s: Scan, a: seq<Lexeme>, b: seq<Lexeme>)
    ensures ScanAll(s, a + b) == ScanAll(ScanAll(s, a), b)
  {
    hide Step;
    if b == [] {
      assert a + b == a;
    } else {
      assert (a + b)[..|a + b| - 1] == a + b[..|b| - 1];
      ScanConcat(s, a, b[..|b| - 1]);
    }
  }

  /** Something was found in front. */
  function Before(f: Found, s: Scan): Scan {
    s.(found := Found(f.nodes + s.found.nodes, f.paths + s.found.paths))
  }

  lemma StepShift(s: Scan, f: Found, t: Lexeme)
    ensures Step(Before(f, s), t) == Before(f, Step(s, t))
  {
    hide KindOf, NamingKey;
    assert forall n: Node :: f.nodes + (s.found.nodes + [n]) == (f.nodes + s.found.nodes) + [n];
    assert forall x: string :: f.paths + (s.found.paths + [x]) == (f.paths + s.found.paths) + [x];
  }

  /** The scan only ever adds to what it has found. */
  lemma {:induction false} ScanShift(s: Scan, f: Found, tokens: seq<Lexeme>)
    ensures ScanAll(Before(f, s), tokens) == Before(f, ScanAll(s, tokens))
  {
    hide Step;
    if tokens != [] {
      var init, t := tokens[..|tokens| - 1], tokens[|tokens| - 1];
      ScanShift(s, f, init);
      StepShift(ScanAll(s, init), f, t);
    }
  }

  /** What a text declares and includes up to a point outside all declarations does not
      depend on what follows. */
  lemma DeclaredConcat(a: seq<Lexeme>, b: seq<Lexeme>)
    requires ScanAll(Idle(NOTHING), a) == Idle(Found(Declared(a), Paths(a)))
    ensures Declared(a + b) == Declared(a) + Declared(b) && Paths(a + b) == Paths(a) + Paths(b)
  {
    ScanConcat(Idle(NOTHING), a, b);
    ScanShift(Idle(NOTHING), Found(Declared(a), Paths(a)), b);
    assert Declared(a) + [] == Declared(a) && Paths(a) + [] == Paths(a);
  }

  // ---------- the lists ----------

  /** The declarations of one kind, in order. */
  function Of(kind: Kind, nodes: seq<Node>): seq<Node> {
    if nodes == [] then []
    else Of(kind, nodes[..|nodes| - 1]) + if nodes[|nodes| - 1].kind == kind then [nodes[|nodes| - 1]] else []
  }

  lemma {:induction false} OfConcat(kind: Kind, a: seq<Node>, b: seq<Node>)
    ensures Of(kind, a + b) == Of(kind, a) + Of(kind, b)
  {
    if b == [] {
      assert a + b == a;
    } else {
      assert (a + b)[..|a + b| - 1] == a + b[..|b| - 1];
      OfConcat(kind, a, b[..|b| - 1]);
    }
  }

  lemma OfSnoc(kind: Kind, a: seq<Node>, n: Node)
    ensures Of(kind, a + [n]) == Of(kind, a) + if n.kind == kind then [n] else []
  {
    assert (a + [n])[..|a|] == a;
  }
}
