/** The recursive-descent parser (parser.c, include.c) over the lexer: it halts on every
    text, it accepts exactly the language of Grammar, and what an error-free parse declares is
    what a flat scan of the tokens finds. */
module Parsing {
  import opened Options
  import opened Lexical
  import opened Lexing
  import opened Declarations
  import opened Grammar
  import opened Websites

  class Parser {
    const lexer: Lexer
    var current: Token
    var previous: Token
    var hadError: bool
    /** The tokens passed over, from the token number `base` of the text on, and their scan. */
    ghost var base: nat
    ghost var read: seq<Lexeme>
    ghost var scan: Scan
    /** What may still come, in the language the text is read as. */
    ghost const start: Stack
    ghost var stack: Stack

    /** The current token, and the lexer, stand behind the tokens read. */
    ghost predicate Valid()
      reads this`current, this`read, this`base, this`scan, this`stack, lexer
    {
      && lexer.Valid()
      && read == Tokens(lexer.src, base, |read|)
      && Lexeme(current.kind, current.lexeme) == Nth(lexer.src, base + |read|)
      && lexer.tokens == base + |read| + 1
      && scan == ScanAll(Idle(NOTHING), read)
      && stack == Fed(start, lexer.src, base + |read|)
    }

    ghost function This(): Lexeme
      reads this`current
    {
      Lexeme(current.kind, current.lexeme)
    }

    /** What is left to read: the unread characters, and the current token unless it is the
        end of input. */
    ghost function Left(): (n: nat)
      requires Valid()
      reads this`current, this`read, this`base, this`scan, this`stack, lexer
    {
      |lexer.src| - lexer.current + if current.kind == EOF then 0 else 1
    }

    /** The current token cannot come here. */
    ghost predicate Doomed()
      reads this`stack, this`current
    {
      Shift(stack, This()) == Fail
    }

    /** An error was reported over a token that cannot come. */
    ghost predicate Justified()
      reads this`hadError, this`stack, this`current
    {
      hadError ==> Doomed()
    }

    /** At a block of this kind, and inside one. */
    ghost predicate Facing(item: Item)
      reads this`stack
    {
      stack.Push? && stack.rest.Push? && stack == Braces(item, stack.rest.rest)
    }

    ghost predicate In(item: Item)
      reads this`stack
    {
      stack.Push? && stack.top == item
    }

    /** The current token asks for another one. */
    ghost predicate Asks(item: Item)
      reads this`stack, this`current
    {
      Shift(stack, This()).Push? && Shift(stack, This()).top == item
    }

    /** What every parsing function does: it moves on or stays, and errors stay. */
    twostate predicate Progress()
      reads this, lexer
    {
      old(Valid()) && Valid() && Left() <= old(Left()) && (old(hadError) ==> hadError)
      && base == old(base)
      && (old(Justified()) ==> Justified())
    }

    /** initParser and the first call of advanceParser */
    constructor (source: string, ghost start: Stack)
      requires NUL !in source
      ensures Valid() && fresh(lexer) && lexer.src == source
      ensures !hadError && read == [] && base == 0 && scan == Idle(NOTHING)
      ensures this.start == start && stack == start
    {
      hide Next;
      lexer := new Lexer(source);
      current := Token(UNKNOWN, "", 0);
      previous := Token(UNKNOWN, "", 0);
      hadError := false;
      base, read, scan := 0, [], Idle(NOTHING);
      this.start, stack := start, start;
      new;
      previous := current;
      current := lexer.GetNextToken();
    }

    /** From here on a new scan starts. */
    ghost method Rebase()
      requires Valid()
      modifies this`base, this`read, this`scan
      ensures Valid() && Left() == old(Left()) && base == old(base + |read|) && read == [] && scan == Idle(NOTHING)
    {
      hide Nth, PlaceAfter, Lexer.Valid;
      base, read, scan := base + |read|, [], Idle(NOTHING);
    }

    lemma ReadIsScanned()
      requires Valid()
      ensures read == Tokens(lexer.src, base, |read|) && scan == ScanAll(Idle(NOTHING), read)
      ensures This() == Nth(lexer.src, base + |read|)
      ensures stack == Fed(start, lexer.src, base + |read|)
      ensures Shift(stack, This()) == Fed(start, lexer.src, base + |read| + 1)
    {
    }

    /** A text ends here when the next token is an unmatched closing brace or its end. */
    lemma EndsHere()
      requires Valid() && scan == Idle(scan.found) && (current.kind == CLOSE_BRACE || current.kind == EOF)
      ensures Ends(lexer.src, base, |read|)
    {
      hide Step, ScanAll, Nth, PlaceAfter, Lexer.Valid, Lexer.Where;
      ScanSnoc(Idle(NOTHING), read, This());
      assert Tokens(lexer.src, base, |read| + 1) == read + [This()];
      IdleStep(scan.found, This());
    }

    /** At the top of a program the closing brace ends it, and the end of the text does not. */
    lemma ProgramEnds()
      requires AtTop() && !In(Content) && stack.rest == Done
      ensures current.kind == EOF ==> Doomed()
      ensures current.kind == CLOSE_BRACE ==> Shift(stack, This()) == Done
    {
    }

    /** Where reading the current token leads. */
    lemma NextRead()
      requires Valid()
      ensures read + [This()] == Tokens(lexer.src, base, |read| + 1)
      ensures Step(scan, This()) == ScanAll(Idle(NOTHING), read + [This()])
      ensures Shift(stack, This()) == Fed(start, lexer.src, base + |read| + 1)
    {
      hide Step, ScanAll, Shift, Nth, Lexer.Valid;
      ScanSnoc(Idle(NOTHING), read, This());
      FedNext(start, lexer.src, base + |read|);
    }

    method Advance()
      requires Valid()
      modifies this, lexer
      ensures Progress() && hadError == old(hadError) && previous == old(current)
      ensures old(current).kind != EOF ==> Left() < old(Left())
      ensures |read| == |old(read)| + 1 && scan == Step(old(scan), old(This()))
      ensures stack == Shift(old(stack), old(This()))
      ensures old(current).kind == CSS ==> current.kind != OPEN_BRACE
    {
      hide Step, ScanAll, Tokens, Shift, Fed, Lexer.Valid, Next, Passive, Quiet, Within;
      ghost var next := base + |read| + 1;
      NextRead();
      NextProgress(lexer.src, PlaceAfter(lexer.src, next));
      NextProgress(lexer.src, PlaceAfter(lexer.src, next - 1));
      if current.kind == CSS {
        CssWithoutBrace(lexer.src, PlaceAfter(lexer.src, next - 1));
      }
      stack := Shift(stack, This());
      read, scan := read + [This()], Step(scan, This());
      previous := current;
      lexer.Placed();
      current := lexer.GetNextToken();
      FailStays(This());
      lexer.Placed();
    }

    method Consume(kind: TokenType)
      requires Valid() && (hadError || current.kind == kind || Doomed())
      modifies this, lexer
      ensures Progress()
      ensures hadError == (old(hadError) || old(current).kind != kind)
      ensures !hadError ==> previous == old(current) && |read| == |old(read)| + 1
      ensures !hadError ==> scan == Step(old(scan), old(This())) && stack == Shift(old(stack), old(This()))
      ensures hadError || kind == EOF || Left() < old(Left())
    {
      hide Step, BlockEntry;
      if current.kind == kind {
        Advance();
      } else {
        hadError := true;
      }
    }

    /** The condition under which the block loops go on. */
    predicate More()
      reads this
    {
      current.kind != CLOSE_BRACE && current.kind != EOF && !hadError
    }

    /** A keyword and the string behind it. */
    method StringField() returns (value: string)
      requires Valid() && current.kind != EOF && Asks(Tok(STRING))
      modifies this, lexer
      ensures Progress() && Left() < old(Left())
      ensures !hadError ==> stack == Shift(old(stack), old(This())).rest
      ensures !hadError && Passive(old(scan), old(current).kind) ==> scan == old(scan)
      ensures !hadError && Within(old(scan)) && IsKey(old(scan).block.value, old(current).kind) ==>
        scan == Named(old(scan), old(current).kind, value)
    {
      hide Valid, Left, Step, ScanAll, BlockEntry;
      if Within(scan) && IsKey(scan.block.value, current.kind) {
        forall v: Lexeme | v.kind == STRING ensures Step(Step(scan, This()), v) == Named(scan, current.kind, v.text) {
          NameSteps(scan, This(), v);
        }
      }
      Advance();
      Consume(STRING);
      value := previous.lexeme;
    }

    /** A keyword and a string or environment variable behind it. */
    method ValueField()
      requires Valid() && current.kind != EOF && Asks(Value)
      modifies this, lexer
      ensures Progress() && Left() < old(Left())
      ensures !hadError ==> stack == Shift(old(stack), old(This())).rest
      ensures !hadError && Passive(old(scan), old(current).kind) ==> scan == old(scan)
    {
      hide Valid, Left, Step, ScanAll, BlockEntry;
      Advance();
      if current.kind == ENV_VAR {
        Advance();
      } else {
        Consume(STRING);
      }
    }

    /** A keyword and a raw block or string behind it. */
    method CodeField()
      requires Valid() && current.kind != EOF && Asks(Code)
      modifies this, lexer
      ensures Progress() && Left() < old(Left())
      ensures !hadError ==> stack == Shift(old(stack), old(This())).rest
      ensures !hadError && Passive(old(scan), old(current).kind) ==> scan == old(scan)
    {
      hide Valid, Left, Step, ScanAll, BlockEntry;
      Advance();
      if current.kind == RAW_BLOCK || current.kind == STRING {
        Advance();
      } else {
        hadError := true;
      }
    }

    /** What was read includes something that cannot be included. */
    ghost predicate Blocked(files: map<string, string>)
      reads this`stack, this`scan
    {
      stack.Push? && !Includable(scan.found.paths, files)
    }

    /** Where a block in braces leaves the scan as it was. */
    static predicate Calm(s: Scan) {
      s.depth >= 1 || (s.depth == 0 && s.block.None?)
    }

    method ParsePipelineStep()
      requires Valid() && Quiet(scan) && In(Steps) && More()
      modifies this, lexer
      ensures Progress()
      ensures !hadError ==> scan == old(scan) && stack == old(stack) && Left() < old(Left())
    {
      hide Valid, Left, Step, ScanAll, BlockEntry;
      StepsReads(This(), stack);
      if current.kind == JQ || current.kind == LUA || current.kind == SQL {
        CodeField();
      } else if current.kind == EXECUTE_QUERY {
        Advance();
        if current.kind == STRING || current.kind == DYNAMIC {
          Advance();
        } else {
          hadError := true;
        }
      } else if current.kind == EXECUTE_TRANSFORM || current.kind == EXECUTE_SCRIPT {
        Advance();
        if current.kind == STRING {
          Advance();
        } else {
          hadError := true;
        }
      } else {
        hadError := true;
      }
    }

    /** parsePipeline */
    method ParsePipeline()
      requires Valid() && Calm(scan) && Facing(Steps)
      modifies this, lexer
      ensures Progress()
      ensures !hadError ==> scan == old(scan) && Left() < old(Left())
      ensures !hadError ==> stack == old(stack).rest.rest
    {
      hide Valid, Left, Step, ScanAll, BlockEntry;
      Consume(OPEN_BRACE);
      while More()
        invariant Progress()
        invariant hadError || scan == old(scan).(depth := old(scan.depth) + 1)
        invariant hadError || stack == old(stack).rest
        decreases Left(), !hadError
      {
        ParsePipelineStep();
      }
      Consume(CLOSE_BRACE);
    }

    /** The properties of a field, up to the closing brace. */
    method ParseFieldProperties()
      requires Valid() && (hadError || (Quiet(scan) && In(Properties)))
      modifies this, lexer
      ensures Progress()
      ensures !hadError ==> scan == old(scan) && stack == old(stack)
      ensures !More()
    {
      hide Valid, Left, Step, ScanAll, BlockEntry;
      while More()
        invariant Progress() && (hadError || (scan == old(scan) && stack == old(stack)))
        decreases Left(), !hadError
      {
        PropertiesReads(This(), stack);
        if current.kind != STRING {
          hadError := true;
          break;
        }
        var prop := current.lexeme;
        Advance();
        if prop == "type" || prop == "required" || prop == "format" {
          Consume(STRING);
        } else if prop == "range" || prop == "length" {
          Consume(RANGE);
        }
      }
    }

    /** A field: its name, and its properties in braces. */
    method ParseField()
      requires Valid() && Quiet(scan) && In(Fields) && current.kind == STRING && !hadError
      modifies this, lexer
      ensures Progress() && Left() < old(Left())
      ensures !hadError ==> scan == old(scan) && stack == old(stack)
    {
      hide Valid, Left, Step, ScanAll, BlockEntry;
      FieldsReads(This(), stack);
      Advance();
      Consume(OPEN_BRACE);
      ParseFieldProperties();
      Consume(CLOSE_BRACE);
    }

    /** parseApiFields, behind the opening brace of the fields. */
    method ParseApiFields()
      requires Valid() && (hadError || (Quiet(scan) && In(Fields)))
      modifies this, lexer
      ensures Progress()
      ensures !hadError ==> scan == Step(old(scan), Lexeme(CLOSE_BRACE, ""))
      ensures !hadError ==> old(stack).Push? && stack == old(stack).rest
    {
      hide Valid, Left, Step, ScanAll, BlockEntry;
      while current.kind == STRING && !hadError
        invariant Progress() && (hadError || (scan == old(scan) && stack == old(stack)))
        decreases Left()
      {
        ParseField();
      }
      if !hadError {
        FieldsReads(This(), stack);
      }
      Consume(CLOSE_BRACE);
    }

    /** The `fields` keyword with its block. */
    method FieldsBlock()
      requires Valid() && Calm(scan) && current.kind == FIELDS
      requires Shift(stack, This()) == Braces(Fields, stack)
      requires Within(scan)
      modifies this, lexer
      ensures Progress() && Left() < old(Left())
      ensures !hadError ==> scan == old(scan) && stack == old(stack)
    {
      hide Valid, Left, Step, ScanAll, BlockEntry;
      Advance();
      Consume(OPEN_BRACE);
      ParseApiFields();
    }

    /** A parameter, and the comma if there is one. */
    method QueryParam()
      requires Valid() && Within(scan) && In(Params) && !hadError
      requires current.kind != CLOSE_BRACKET && current.kind != EOF
      modifies this, lexer
      ensures Progress() && (hadError || Left() < old(Left()))
      ensures !hadError ==> scan == old(scan)
      ensures hadError || stack == old(stack)
        || (current.kind == CLOSE_BRACKET && stack == Push(NextParam, old(stack).rest))
    {
      hide Valid, Left, Step, ScanAll, BlockEntry;
      ParamsRead(This(), stack);
      if current.kind != STRING {
        hadError := true;
        return;
      }
      Advance();
      ParamsRead(This(), stack);
      if current.kind == COMMA {
        Advance();
      } else if current.kind != CLOSE_BRACKET {
        hadError := true;
      }
    }

    method ParseQueryParams()
      requires Valid() && Within(scan)
      requires stack.Push? && stack.rest.Push? && stack == Push(Tok(OPEN_BRACKET), Push(Params, stack.rest.rest))
      modifies this, lexer
      ensures Progress()
      ensures !hadError ==> scan == old(scan) && stack == old(stack).rest.rest
    {
      hide Valid, Left, Step, ScanAll, BlockEntry;
      Consume(OPEN_BRACKET);
      while current.kind != CLOSE_BRACKET && current.kind != EOF && !hadError
        invariant Progress() && (hadError || scan == old(scan))
        invariant hadError || stack == old(stack).rest
          || (stack == Push(NextParam, old(stack).rest.rest) && current.kind == CLOSE_BRACKET)
        decreases Left(), !hadError
      {
        QueryParam();
      }
      ParamsRead(This(), stack);
      Consume(CLOSE_BRACKET);
    }

    /** An entry of a response: a template may not follow a redirect */
    method ResponseEntry(redirect: bool) returns (redirects: bool)
      requires Valid() && More() && Quiet(scan) && In(Response(redirect))
      modifies this, lexer
      ensures Progress() && (hadError || Left() < old(Left()))
      ensures !hadError ==> scan == old(scan) && stack == Push(Response(redirects), old(stack).rest)
    {
      hide Valid, Left, Step, ScanAll, BlockEntry;
      redirects := redirect;
      ResponseReads(This(), stack);
      if current.kind == REDIRECT {
        var target := StringField();
        redirects := true;
      } else if (current.kind == MUSTACHE || current.kind == HTML) && !redirect {
        CodeField();
      } else {
        hadError := true;
      }
    }

    /** parseResponseBlock */
    method ParseResponseBlock()
      requires Valid() && Calm(scan) && Facing(Response(false))
      modifies this, lexer
      ensures Progress()
      ensures !hadError ==> scan == old(scan) && Left() < old(Left())
      ensures !hadError ==> stack == old(stack).rest.rest
    {
      hide Valid, Left, Step, ScanAll, BlockEntry;
      var redirect := false;
      Consume(OPEN_BRACE);
      while More()
        invariant Progress()
        invariant hadError || scan == old(scan).(depth := old(scan.depth) + 1)
        invariant hadError || stack == Push(Response(redirect), old(stack).rest.rest)
        decreases Left(), !hadError
      {
        redirect := ResponseEntry(redirect);
      }
      Consume(CLOSE_BRACE);
    }

    /** parseLayout */
    method ParseLayout() returns (node: Node)
      requires Valid() && scan == Opened(LayoutNode, scan.found) && Facing(Layout)
      modifies this, lexer
      ensures Progress() && node.kind == LayoutNode
      ensures !hadError ==> scan == Idle(With(old(scan.found), node))
      ensures !hadError ==> stack == old(stack).rest.rest
    {
      hide Valid, Left, Step, ScanAll, BlockEntry;
      node := Node(LayoutNode, "", "");
      Consume(OPEN_BRACE);
      while More()
        invariant Progress() && node.kind == LayoutNode
        invariant hadError || scan == Inside(node, old(scan.found))
        invariant hadError || stack == old(stack).rest
        decreases Left(), !hadError
      {
        LayoutReads(This(), stack);
        if current.kind == NAME {
          var name := StringField();
          node := Node(LayoutNode, name, node.verb);
        } else if current.kind == HTML || current.kind == MUSTACHE {
          CodeField();
        } else {
          hadError := true;
        }
      }
      Consume(CLOSE_BRACE);
    }

    /** The entries of a page that do not name it. */
    method PageEntry()
      requires Valid() && In(Page) && current.kind != EOF && current.kind != ROUTE && !hadError
      requires Within(scan) && scan.block == Some(PageNode)
      requires current.kind != OPEN_BRACE && current.kind != CLOSE_BRACE
      modifies this, lexer
      ensures Progress() && Left() < old(Left())
      ensures !hadError ==> scan == old(scan) && stack == old(stack)
    {
      hide Valid, Left, Step, ScanAll, BlockEntry;
      PageReads(This(), stack);
      if current.kind == NAME || current.kind == METHOD || current.kind == LAYOUT || current.kind == REDIRECT {
        var value := StringField();
      } else if current.kind == FIELDS {
        FieldsBlock();
      } else if current.kind == HTML || current.kind == MUSTACHE {
        CodeField();
      } else if current.kind == ERROR || current.kind == SUCCESS {
        Advance();
        ParseResponseBlock();
      } else if current.kind == PIPELINE || current.kind == REFERENCE_DATA {
        Advance();
        ParsePipeline();
      } else {
        hadError := true;
        Advance();
      }
    }

    /** parsePage */
    method ParsePage() returns (node: Node)
      requires Valid() && scan == Opened(PageNode, scan.found) && Facing(Page)
      modifies this, lexer
      ensures Progress() && node.kind == PageNode
      ensures !hadError ==> scan == Idle(With(old(scan.found), node))
      ensures !hadError ==> stack == old(stack).rest.rest
    {
      hide Valid, Left, Step, ScanAll, BlockEntry;
      node := Node(PageNode, "", "");
      Consume(OPEN_BRACE);
      while More()
        invariant Progress() && node.kind == PageNode
        invariant hadError || scan == Inside(node, old(scan.found))
        invariant hadError || stack == old(stack).rest
        decreases Left(), !hadError
      {
        PageReads(This(), stack);
        if current.kind == ROUTE {
          var name := StringField();
          node := Node(PageNode, name, node.verb);
        } else if current.kind == OPEN_BRACE {
          hadError := true;
          Advance();
        } else {
          PageEntry();
        }
      }
      Consume(CLOSE_BRACE);
    }

    /** parseApi */
    method ParseApi() returns (node: Node)
      requires Valid() && scan == Opened(ApiNode, scan.found) && Facing(Api)
      modifies this, lexer
      ensures Progress() && node.kind == ApiNode
      ensures !hadError ==> scan == Idle(With(old(scan.found), node))
      ensures !hadError ==> stack == old(stack).rest.rest
    {
      hide Valid, Left, Step, ScanAll, BlockEntry;
      node := Node(ApiNode, "", "");
      Consume(OPEN_BRACE);
      while More()
        invariant Progress() && node.kind == ApiNode
        invariant hadError || scan == Inside(node, old(scan.found))
        invariant hadError || stack == old(stack).rest
        decreases Left(), !hadError
      {
        ApiReads(This(), stack);
        if current.kind == ROUTE {
          var name := StringField();
          node := Node(ApiNode, name, node.verb);
        } else if current.kind == METHOD {
          var verb := StringField();
          node := Node(ApiNode, node.name, verb);
        } else if current.kind == PIPELINE {
          Advance();
          ParsePipeline();
        } else if current.kind == FIELDS {
          FieldsBlock();
        } else {
          hadError := true;
        }
      }
      Consume(CLOSE_BRACE);
    }

    /** An entry of a query. */
    method QueryEntry(node: Node) returns (next: Node)
      requires Valid() && More() && node.kind == QueryNode && scan == Inside(node, scan.found) && In(Query)
      modifies this, lexer
      ensures Progress() && (hadError || Left() < old(Left())) && next.kind == QueryNode
      ensures !hadError ==> scan == Inside(next, old(scan.found)) && stack == old(stack)
    {
      hide Valid, Left, Step, ScanAll, BlockEntry;
      next := node;
      QueryReads(This(), stack);
      if current.kind == NAME {
        var name := StringField();
        next := Node(QueryNode, name, node.verb);
      } else if current.kind == PARAMS {
        Advance();
        ParseQueryParams();
      } else if current.kind == SQL {
        CodeField();
      } else {
        hadError := true;
      }
    }

    /** parseQuery */
    method ParseQuery() returns (node: Node)
      requires Valid() && scan == Opened(QueryNode, scan.found) && Facing(Query)
      modifies this, lexer
      ensures Progress() && node.kind == QueryNode
      ensures !hadError ==> scan == Idle(With(old(scan.found), node))
      ensures !hadError ==> stack == old(stack).rest.rest
    {
      hide Valid, Left, Step, ScanAll, BlockEntry;
      node := Node(QueryNode, "", "");
      Consume(OPEN_BRACE);
      while More()
        invariant Progress() && node.kind == QueryNode
        invariant hadError || scan == Inside(node, old(scan.found))
        invariant hadError || stack == old(stack).rest
        decreases Left(), !hadError
      {
        node := QueryEntry(node);
      }
      Consume(CLOSE_BRACE);
    }

    /** An entry of a transform or a script. */
    method CodedEntry(node: Node, code: TokenType) returns (next: Node)
      requires Valid() && More() && scan == Inside(node, scan.found) && In(Coded(code))
      requires (node.kind == TransformNode && code == JQ) || (node.kind == ScriptNode && code == LUA)
      modifies this, lexer
      ensures Progress() && (hadError || Left() < old(Left())) && next.kind == node.kind
      ensures !hadError ==> scan == Inside(next, old(scan.found)) && stack == old(stack)
    {
      hide Valid, Left, Step, ScanAll, BlockEntry;
      next := node;
      CodedReads(This(), stack);
      if current.kind == NAME {
        var name := StringField();
        next := Node(node.kind, name, node.verb);
      } else if current.kind == code {
        CodeField();
      } else {
        hadError := true;
      }
    }

    /** parseTransform and parseScript, which differ in the keyword of their code. */
    method ParseNamedCode(kind: Kind, code: TokenType) returns (node: Node)
      requires Valid() && scan == Opened(kind, scan.found) && Facing(Coded(code))
      requires (kind == TransformNode && code == JQ) || (kind == ScriptNode && code == LUA)
      modifies this, lexer
      ensures Progress() && node.kind == kind
      ensures !hadError ==> scan == Idle(With(old(scan.found), node))
      ensures !hadError ==> stack == old(stack).rest.rest
    {
      hide Valid, Left, Step, ScanAll, BlockEntry;
      node := Node(kind, "", "");
      Consume(OPEN_BRACE);
      while More()
        invariant Progress() && node.kind == kind
        invariant hadError || scan == Inside(node, old(scan.found))
        invariant hadError || stack == old(stack).rest
        decreases Left(), !hadError
      {
        node := CodedEntry(node, code);
      }
      Consume(CLOSE_BRACE);
    }

    /** An entry of a partial. */
    method PartialEntry(node: Node, named: bool, template: bool) returns (next: Node, name: bool, text: bool)
      requires Valid() && More() && node.kind == PartialNode
      requires scan == Inside(node, scan.found) && In(Partial(named, template))
      modifies this, lexer
      ensures Progress() && (hadError || Left() < old(Left())) && next.kind == PartialNode
      ensures !hadError ==> scan == Inside(next, old(scan.found)) && stack == Push(Partial(name, text), old(stack).rest)
    {
      hide Valid, Left, Step, ScanAll, BlockEntry;
      next, name, text := node, named, template;
      PartialReads(This(), named, template, stack.rest);
      if current.kind == NAME {
        var value := StringField();
        next := Node(PartialNode, value, node.verb);
        name := true;
      } else if current.kind == MUSTACHE {
        CodeField();
        text := true;
      } else {
        hadError := true;
      }
    }

    /** parsePartial: the name and the template are required */
    method ParsePartial() returns (node: Node)
      requires Valid() && scan == Opened(PartialNode, scan.found) && Facing(Partial(false, false))
      modifies this, lexer
      ensures Progress() && node.kind == PartialNode
      ensures !hadError ==> scan == Idle(With(old(scan.found), node))
      ensures !hadError ==> stack == old(stack).rest.rest
    {
      hide Valid, Left, Step, ScanAll, BlockEntry;
      var named, template := false, false;
      node := Node(PartialNode, "", "");
      Consume(OPEN_BRACE);
      while More()
        invariant Progress() && node.kind == PartialNode
        invariant hadError || scan == Inside(node, old(scan.found))
        invariant hadError || stack == Push(Partial(named, template), old(stack).rest.rest)
        decreases Left(), !hadError
      {
        node, named, template := PartialEntry(node, named, template);
      }
      if !named || !template {
        hadError := true;
      }
      Consume(CLOSE_BRACE);
    }

    /** The `github` block of parseAuth, behind its opening brace. */
    method ParseGithub()
      requires Valid() && (hadError || (Quiet(scan) && In(Github)))
      modifies this, lexer
      ensures Progress()
      ensures !hadError ==> scan == Step(old(scan), Lexeme(CLOSE_BRACE, ""))
      ensures !hadError ==> old(stack).Push? && stack == old(stack).rest
    {
      hide Valid, Left, Step, ScanAll, BlockEntry;
      while More()
        invariant Progress() && (hadError || (scan == old(scan) && stack == old(stack)))
        decreases Left(), !hadError
      {
        GithubReads(This(), stack);
        if current.kind == CLIENT_ID || current.kind == CLIENT_SECRET {
          ValueField();
        } else {
          hadError := true;
        }
      }
      Consume(CLOSE_BRACE);
    }

    /** An entry of `auth`. */
    method AuthEntry()
      requires Valid() && More() && Quiet(scan) && In(Auth)
      modifies this, lexer
      ensures Progress() && (hadError || Left() < old(Left()))
      ensures !hadError ==> scan == old(scan) && stack == old(stack)
    {
      hide Valid, Left, Step, ScanAll, BlockEntry;
      AuthReads(This(), stack);
      if current.kind == SALT {
        ValueField();
      } else if current.kind == GITHUB {
        Advance();
        Consume(OPEN_BRACE);
        ParseGithub();
      } else {
        hadError := true;
      }
    }

    /** parseAuth */
    method ParseAuth()
      requires Valid() && Calm(scan) && Facing(Auth)
      modifies this, lexer
      ensures Progress()
      ensures !hadError ==> scan == old(scan) && Left() < old(Left())
      ensures !hadError ==> stack == old(stack).rest.rest
    {
      hide Valid, Left, Step, ScanAll, BlockEntry;
      Consume(OPEN_BRACE);
      while More()
        invariant Progress()
        invariant hadError || scan == old(scan).(depth := old(scan.depth) + 1)
        invariant hadError || stack == old(stack).rest
        decreases Left(), !hadError
      {
        AuthEntry();
      }
      Consume(CLOSE_BRACE);
    }

    method ParseEmailTemplate()
      requires Valid() && Quiet(scan)
      requires stack.Push? && stack.rest.Push? && stack.rest.rest.Push?
      requires stack == Str(Braces(EmailText, stack.rest.rest.rest))
      modifies this, lexer
      ensures Progress()
      ensures !hadError ==> scan == old(scan) && stack == old(stack).rest.rest.rest
    {
      hide Valid, Left, Step, ScanAll, BlockEntry;
      Consume(STRING);
      ParseEmailText();
    }

    /** An entry of a template of an email. */
    method TextEntry()
      requires Valid() && More() && Quiet(scan) && In(EmailText)
      modifies this, lexer
      ensures Progress() && (hadError || Left() < old(Left()))
      ensures !hadError ==> scan == old(scan) && stack == old(stack)
    {
      hide Valid, Left, Step, ScanAll, BlockEntry;
      EmailTextReads(This(), stack);
      if current.kind == SUBJECT {
        var subject := StringField();
      } else if current.kind == MUSTACHE {
        CodeField();
      } else {
        hadError := true;
      }
    }

    /** The block of a template of an email. */
    method ParseEmailText()
      requires Valid() && (hadError || (Quiet(scan) && Facing(EmailText)))
      modifies this, lexer
      ensures Progress()
      ensures !hadError ==> scan == old(scan) && old(Facing(EmailText)) && stack == old(stack).rest.rest
    {
      hide Valid, Left, Step, ScanAll, BlockEntry;
      Consume(OPEN_BRACE);
      while More()
        invariant Progress()
        invariant hadError || scan == old(scan).(depth := old(scan.depth) + 1)
        invariant hadError || stack == old(stack).rest
        decreases Left(), !hadError
      {
        TextEntry();
      }
      Consume(CLOSE_BRACE);
    }

    /** parseSendGrid */
    method ParseSendGrid()
      requires Valid() && Calm(scan) && Facing(SendGrid)
      modifies this, lexer
      ensures Progress()
      ensures !hadError ==> scan == old(scan) && Left() < old(Left())
      ensures !hadError ==> stack == old(stack).rest.rest
    {
      hide Valid, Left, Step, ScanAll, BlockEntry;
      Consume(OPEN_BRACE);
      while More()
        invariant Progress()
        invariant hadError || scan == old(scan).(depth := old(scan.depth) + 1)
        invariant hadError || stack == old(stack).rest
        decreases Left(), !hadError
      {
        SendGridReads(This(), stack);
        if current.kind == API_KEY || current.kind == FROM_EMAIL || current.kind == FROM_NAME {
          ValueField();
        } else {
          hadError := true;
        }
      }
      Consume(CLOSE_BRACE);
    }

    /** parseEmail */
    method ParseEmail()
      requires Valid() && Calm(scan) && Facing(Email)
      modifies this, lexer
      ensures Progress()
      ensures !hadError ==> scan == old(scan) && Left() < old(Left())
      ensures !hadError ==> stack == old(stack).rest.rest
    {
      hide Valid, Left, Step, ScanAll, BlockEntry;
      Consume(OPEN_BRACE);
      while More()
        invariant Progress()
        invariant hadError || scan == old(scan).(depth := old(scan.depth) + 1)
        invariant hadError || stack == old(stack).rest
        decreases Left(), !hadError
      {
        EmailReads(This(), stack);
        if current.kind == SENDGRID {
          Advance();
          ParseSendGrid();
        } else if current.kind == TEMPLATE {
          Advance();
          ParseEmailTemplate();
        } else {
          hadError := true;
        }
      }
      Consume(CLOSE_BRACE);
    }

    /** parseStyleProps, up to and with the closing brace. */
    method ParseStyleProps()
      requires Valid() && (hadError || (Quiet(scan) && In(StyleBody)))
      requires hadError || (current.kind != CSS && current.kind != RAW_BLOCK)
      modifies this, lexer
      ensures Progress()
      ensures !hadError ==> scan == Step(old(scan), Lexeme(CLOSE_BRACE, ""))
      ensures !hadError ==> old(stack).Push? && stack == old(stack).rest
    {
      hide Valid, Left, Step, ScanAll, BlockEntry;
      while More()
        invariant Progress() && (hadError || scan == old(scan))
        invariant hadError || stack == Push(StyleProps, old(stack).rest)
          || (stack == old(stack) && current == old(current))
        invariant hadError || old(stack).Push?
        decreases Left(), !hadError
      {
        StyleReads(This(), stack);
        if current.kind != STRING {
          break;
        }
        Advance();
        if current.kind == STRING {
          Advance();
        } else {
          hadError := true;
          break;
        }
      }
      Consume(CLOSE_BRACE);
    }

    method ParseStyleBlock() returns (node: Option<Node>)
      requires Valid() && In(Styles) && (current.kind == STRING || Doomed()) && scan == InStyles(scan.found)
      modifies this, lexer
      ensures Progress()
      ensures !hadError ==> node.Some? && Left() < old(Left()) && scan == InStyles(With(old(scan.found), node.value))
      ensures !hadError ==> stack == old(stack)
      ensures node.Some? ==> node.value.kind == StyleNode
    {
      hide Valid, Left, Step, ScanAll, BlockEntry;
      StylesReads(This(), stack);
      if current.kind != STRING {
        hadError := true;
        return None;
      }
      node := Some(Node(StyleNode, current.lexeme, ""));
      StyleStep(scan.found, This());
      Advance();
      ParseStyleBody();
    }

    /** The braces of a style block: raw CSS, or properties. */
    method ParseStyleBody()
      requires Valid() && Facing(StyleBody) && scan == InStyles(scan.found)
      modifies this, lexer
      ensures Progress()
      ensures !hadError ==> scan == old(scan) && stack == old(stack).rest.rest
    {
      hide Valid, Left, Step, ScanAll, BlockEntry;
      Consume(OPEN_BRACE);
      StyleReads(This(), stack);
      if current.kind == CSS || current.kind == RAW_BLOCK {
        Advance();
        StyleReads(This(), stack);
        if current.kind == OPEN_BRACE {
          Consume(OPEN_BRACE);
          Consume(CLOSE_BRACE);
        }
        Consume(CLOSE_BRACE);
      } else {
        ParseStyleProps();
      }
    }

    /** An entry of the `styles` block. The form with the keyword `css` never gets through:
        the lexer takes `css` and a block behind it as one raw block. */
    method ParseStyleEntry(website: Website, ghost before: seq<Node>)
      requires Valid() && In(Styles) && !hadError && scan == InStyles(scan.found)
      requires website.Valid() && website.Holds(before + scan.found.nodes)
      requires current.kind == CSS || current.kind == RAW_BLOCK || current.kind == STRING
      modifies this, lexer, website, website.lists, website.nodes
      ensures website.Valid() && fresh(website.nodes - old(website.nodes))
      ensures Progress()
      ensures old(current).kind == CSS ==> hadError
      ensures !hadError ==> Left() < old(Left()) && scan == InStyles(scan.found)
      ensures !hadError ==> stack == old(stack)
      ensures !hadError ==> |scan.found.nodes| == |old(scan.found.nodes)| + 1
      ensures !hadError ==> scan.found.paths == old(scan.found.paths)
      ensures !hadError ==> website.Holds(before + scan.found.nodes)
    {
      hide Valid, Left, Step, ScanAll, BlockEntry, Website.Holds, Website.Valid;
      StylesReads(This(), stack);
      ghost var nodes := scan.found.nodes;
      StyleStep(scan.found, This());
      assert forall n: Node :: (before + nodes) + [n] == before + (nodes + [n]);
      if current.kind == CSS || current.kind == RAW_BLOCK {
        if current.kind == CSS {
          Advance();
          Consume(OPEN_BRACE);
        }
        Advance();
        website.Append(Node(StyleNode, "", ""));
      } else {
        var block := ParseStyleBlock();
        if block.Some? {
          website.Append(block.value);
        }
      }
    }

    /** The braces of a `styles` block. */
    method StylesBlock(website: Website, ghost before: seq<Node>)
      requires Valid() && Facing(Styles) && !hadError
      requires scan == Opened(StyleNode, scan.found) && website.Valid() && website.Holds(before + scan.found.nodes)
      modifies this, lexer, website, website.lists, website.nodes
      ensures website.Valid() && fresh(website.nodes - old(website.nodes))
      ensures Progress()
      ensures !hadError ==> stack == old(stack).rest.rest
      ensures !hadError ==> scan == Idle(scan.found) && website.Holds(before + scan.found.nodes)
      ensures !hadError ==> scan.found.paths == old(scan.found.paths)
    {
      hide Valid, Left, Step, ScanAll, BlockEntry, Website.Holds, Website.Valid;
      Consume(OPEN_BRACE);
      while More()
        invariant Progress()
        invariant website.Valid() && fresh(website.nodes - old(website.nodes))
        invariant hadError || stack == old(stack).rest
        invariant hadError || (scan == InStyles(scan.found) && website.Holds(before + scan.found.nodes))
        invariant hadError || scan.found.paths == old(scan.found.paths)
        decreases Left(), !hadError
      {
        if current.kind == CSS || current.kind == RAW_BLOCK || current.kind == STRING {
          ParseStyleEntry(website, before);
        } else {
          StylesReads(This(), stack);
          hadError := true;
          break;
        }
      }
      StyleStep(scan.found, This());
      Consume(CLOSE_BRACE);
    }

    /** The keyword `styles` with its block. */
    method ParseStyles(website: Website, ghost before: seq<Node>)
      requires Valid() && AtTop() && current.kind == STYLES && !hadError
      requires scan == Idle(scan.found) && website.Valid() && website.Holds(before + scan.found.nodes)
      modifies this, lexer, website, website.lists, website.nodes
      ensures website.Valid() && fresh(website.nodes - old(website.nodes))
      ensures Progress() && Left() < old(Left())
      ensures !hadError ==> stack == old(Beyond())
      ensures !hadError ==> scan == Idle(scan.found) && website.Holds(before + scan.found.nodes)
      ensures !hadError ==> scan.found.paths == old(scan.found.paths)
    {
      hide Valid, Left, Step, ScanAll, BlockEntry, Website.Holds, Website.Valid;
      WebsiteReads(This(), stack);
      IdleStep(scan.found, This());
      Advance();
      StylesBlock(website, before);
    }

    /** Whether a token starts a declaration of one list. */
    static predicate Declares(kind: TokenType) {
      KindOf(kind).Some? && kind != STYLES
    }

    /** At the top of a website, and what the stack is behind a declaration there. */
    ghost predicate AtTop()
      reads this`stack
    {
      stack.Push? && (stack.top == Settings || stack.top == Declarations || stack.top == Content)
    }

    ghost function Beyond(): Stack
      requires AtTop()
      reads this`stack
    {
      if stack.top == Settings then Push(Declarations, stack.rest) else stack
    }

    /** A setting of the website itself. */
    static predicate Sets(kind: TokenType) {
      || kind == NAME || kind == AUTHOR || kind == VERSION || kind == DATABASE
      || kind == PORT || kind == AUTH || kind == INCLUDE
    }

    method ParseDeclaration() returns (node: Node)
      requires Valid() && AtTop() && Declares(current.kind) && !hadError && scan == Idle(scan.found)
      modifies this, lexer
      ensures Progress() && Left() < old(Left())
      ensures !hadError ==> stack == old(Beyond())
      ensures !hadError ==> scan == Idle(With(old(scan.found), node))
    {
      hide Valid, Left, Step, ScanAll, BlockEntry;
      WebsiteReads(This(), stack);
      var kind := current.kind;
      IdleStep(scan.found, This());
      Advance();
      if kind == PAGE {
        node := ParsePage();
      } else if kind == LAYOUT {
        node := ParseLayout();
      } else if kind == API {
        node := ParseApi();
      } else if kind == QUERY {
        node := ParseQuery();
      } else if kind == TRANSFORM {
        node := ParseNamedCode(TransformNode, JQ);
      } else if kind == SCRIPT {
        node := ParseNamedCode(ScriptNode, LUA);
      } else {
        node := ParsePartial();
      }
    }

    /** One turn of parseWebsiteNode. */
    method ParseWebsiteEntry(website: Website, ghost before: seq<Node>)
      requires AtTop() && (stack.top == Settings ==> !Sets(current.kind))
      requires Valid() && More() && scan == Idle(scan.found)
      requires website.Valid() && website.Holds(before + scan.found.nodes)
      modifies this, lexer, website, website.lists, website.nodes
      ensures website.Valid() && fresh(website.nodes - old(website.nodes))
      ensures Progress() && (hadError || Left() < old(Left()))
      ensures !hadError ==> stack == old(Beyond())
      ensures !hadError ==> scan == Idle(scan.found) && website.Holds(before + scan.found.nodes)
      ensures !hadError ==> scan.found.paths == old(scan.found.paths)
    {
      hide Valid, Left, Step, ScanAll, BlockEntry, Website.Holds, Website.Valid;
      WebsiteReads(This(), stack);
      if Declares(current.kind) {
        ghost var nodes := scan.found.nodes;
        var node := ParseDeclaration();
        assert (before + nodes) + [node] == before + (nodes + [node]);
        website.Append(node);
      } else if current.kind == STYLES {
        ParseStyles(website, before);
      } else if current.kind == AUTH {
        IdleStep(scan.found, This());
        Advance();
        ParseAuth();
      } else if current.kind == EMAIL {
        IdleStep(scan.found, This());
        Advance();
        ParseEmail();
      } else {
        hadError := true;
      }
    }

    /** parseWebsiteNode: declarations up to a closing brace, the end of the text or an error. */
    method ParseWebsiteNode(website: Website, ghost before: seq<Node>)
      requires AtTop() && (stack.top == Settings ==> More() && !Sets(current.kind))
      requires Valid() && scan == Idle(scan.found) && website.Valid() && website.Holds(before + scan.found.nodes)
      modifies this, lexer, website, website.lists, website.nodes
      ensures website.Valid() && fresh(website.nodes - old(website.nodes))
      ensures Progress() && !More()
      ensures old(More()) ==> hadError || Left() < old(Left())
      ensures !hadError ==> stack == old(Beyond())
      ensures !hadError ==> scan == Idle(scan.found) && website.Holds(before + scan.found.nodes)
      ensures !hadError ==> scan.found.paths == old(scan.found.paths)
    {
      hide Valid, Left, Step, ScanAll, BlockEntry, Website.Holds, Website.Valid;
      while More()
        invariant Progress()
        invariant website.Valid() && fresh(website.nodes - old(website.nodes))
        invariant hadError || stack == old(Beyond()) || (stack == old(stack) && current == old(current))
        invariant hadError || (scan == Idle(scan.found) && website.Holds(before + scan.found.nodes))
        invariant hadError || scan.found.paths == old(scan.found.paths)
        invariant old(More()) ==> hadError || Left() < old(Left()) || (More() && Left() == old(Left()))
        decreases Left(), !hadError
      {
        ParseWebsiteEntry(website, before);
      }
    }

    /** `port` and its value. */
    method ParsePort()
      requires Valid() && In(Settings) && current.kind == PORT
      modifies this, lexer
      ensures Progress() && Left() < old(Left())
      ensures !hadError && old(scan) == Idle(old(scan).found) ==> scan == old(scan)
      ensures !hadError ==> stack == old(stack)
    {
      hide Valid, Left, Step, ScanAll, BlockEntry;
      WebsiteReads(This(), stack);
      IdleStep(scan.found, This());
      Advance();
      if current.kind == ENV_VAR {
        IdleStep(scan.found, This());
        Advance();
      } else if current.kind == NUMBER {
        if !ValidPort(current.lexeme) {
          hadError := true;
          return;
        }
        IdleStep(scan.found, This());
        Advance();
      } else {
        hadError := true;
      }
    }

    /** `include` and the path behind it. */
    method IncludePath() returns (path: string)
      requires Valid() && !hadError && In(Settings) && scan == Idle(scan.found) && current.kind == INCLUDE
      modifies this, lexer
      ensures Progress() && Left() < old(Left())
      ensures !hadError ==> stack == old(stack) && scan == Idle(old(scan.found.(paths := scan.found.paths + [path])))
    {
      hide Valid, Left, Step, ScanAll, BlockEntry;
      WebsiteReads(This(), stack);
      ghost var key := This();
      Advance();
      if current.kind == STRING {
        IncludeSteps(old(scan.found), key, This());
      }
      Consume(STRING);
      path := previous.lexeme;
    }

    /** A setting of the website itself: a keyword with a string, or for the database an
        environment variable. */
    method ParseSetting()
      requires Valid() && In(Settings)
      requires current.kind == NAME || current.kind == AUTHOR || current.kind == VERSION || current.kind == DATABASE
      modifies this, lexer
      ensures Progress() && Left() < old(Left())
      ensures !hadError ==> stack == old(stack)
      ensures !hadError && old(scan) == Idle(old(scan).found) ==> scan == old(scan)
    {
      hide Valid, Left, Step, ScanAll, BlockEntry;
      WebsiteReads(This(), stack);
      var kind := current.kind;
      IdleStep(scan.found, This());
      Advance();
      IdleStep(scan.found, This());
      if kind == DATABASE && current.kind == ENV_VAR {
        Advance();
      } else {
        Consume(STRING);
      }
    }
  }

  const MAX_INCLUDES: nat := 100

  /** The files included so far. */
  class IncludeState {
    var included: seq<string>

    constructor ()
      ensures included == [] && Valid()
    {
      included := [];
    }

    /** No file is included twice, and not too many are. */
    predicate Valid()
      reads this
    {
      |included| <= MAX_INCLUDES && forall i, j :: 0 <= i < j < |included| ==> included[i] != included[j]
    }

    method Add(path: string)
      requires Valid() && path !in included && |included| < MAX_INCLUDES
      modifies this
      ensures Valid() && included == old(included) + [path]
    {
      included := included + [path];
    }

    /** The check for circular includes. */
    method Contains(path: string) returns (found: bool)
      ensures found <==> path in included
    {
      var i := 0;
      while i < |included|
        invariant 0 <= i <= |included|
        invariant path !in included[..i]
      {
        if included[i] == path {
          return true;
        }
        i := i + 1;
      }
      assert included[..i] == included;
      found := false;
    }
  }

  /** All tokens of a text up to its end or its first unmatched closing brace. */
  predicate IsText(text: seq<Lexeme>, s: string) {
    Ends(s, 0, |text|) && text == Tokens(s, 0, |text|)
  }

  /** The included paths, in order, are files with these tokens. */
  predicate Texts(included: seq<string>, files: map<string, string>, texts: seq<seq<Lexeme>>) {
    && |texts| == |included|
    && forall i :: 0 <= i < |included| ==> included[i] in files && IsText(texts[i], files[included[i]])
  }

  /** parseWebsiteContent: the declarations of a text, in a website of their own. */
  method ParseWebsiteContent(source: string) returns (hadError: bool, website: Website, ghost text: seq<Lexeme>)
    requires NUL !in source
    ensures fresh(website) && fresh(website.lists) && fresh(website.nodes) && website.Valid()
    ensures hadError <==> !Accepts(INCLUDED, source)
    ensures !hadError ==> IsText(text, source) && website.Holds(Declared(text))
  {
    hide Step, ScanAll, Tokens, Of, Ends, Fed, Nth, Parser.Valid, Website.Holds, Website.Valid;
    var parser := new Parser(source, INCLUDED);
    website := new Website();
    assert [] + parser.scan.found.nodes == [];
    parser.ParseWebsiteNode(website, []);
    hadError, text := parser.hadError, parser.read;
    parser.ReadIsScanned();
    if !hadError {
      parser.EndsHere();
    } else {
      FailsForGood(INCLUDED, source, |text| + 1);
    }
    assert [] + Declared(text) == Declared(text);
  }

  /** What including a file asks for: it is there, its text is in the language, it is not
      included yet, and not too many are. */
  ghost predicate CanInclude(included: seq<string>, path: string, files: map<string, string>) {
    path !in included && |included| < MAX_INCLUDES && path in files && Accepts(INCLUDED, files[path])
  }

  /** All these can be included, one after the other. */
  ghost predicate Includable(paths: seq<string>, files: map<string, string>) {
    forall i :: 0 <= i < |paths| ==> CanInclude(paths[..i], paths[i], files)
  }

  lemma NoIncludes(files: map<string, string>)
    ensures Includable([], files) && Texts([], files, []) && DeclaredAll([]) + [] == []
  {
  }

  lemma IncludableSnoc(paths: seq<string>, path: string, files: map<string, string>)
    requires Includable(paths, files)
    ensures Includable(paths + [path], files) <==> CanInclude(paths, path, files)
  {
    hide CanInclude;
    var all := paths + [path];
    assert forall i :: 0 <= i < |paths| ==> all[..i] == paths[..i];
    assert all[..|paths|] == paths && all[|paths|] == path;
  }

  /** processInclude: reads and parses a file that was not included yet, and puts its
      declarations behind those there are. */
  method ProcessInclude(website: Website, path: string, state: IncludeState, files: map<string, string>,
                        ghost before: seq<Node>)
    returns (ok: bool, ghost text: seq<Lexeme>)
    requires state.Valid() && website.Valid() && website.Holds(before)
    requires forall p :: p in files ==> NUL !in files[p]
    modifies website, website.lists, website.nodes, state
    ensures website.Valid() && fresh(website.nodes - old(website.nodes))
    ensures state.Valid()
    ensures ok <==> CanInclude(old(state.included), path, files)
    ensures ok ==> path in files && state.included == old(state.included) + [path]
    ensures ok ==> IsText(text, files[path]) && website.Holds(before + Declared(text))
    ensures !ok ==> website.Holds(before)
    ensures path in old(state.included) || path !in files || |old(state.included)| == MAX_INCLUDES ==>
      !ok && state.included == old(state.included)
  {
    hide IsText, Of, Accepts, Website.Holds, Website.Valid, IncludeState.Valid, Declared;
    ok, text := false, [];
    var circular := state.Contains(path);
    if circular || |state.included| >= MAX_INCLUDES || path !in files {
      return;
    }
    state.Add(path);
    var hadError, included;
    hadError, included, text := ParseWebsiteContent(files[path]);
    if hadError {
      return;
    }
    website.Splice(included);
    ok := true;
  }

  /** An include: the path, and the file under it. */
  method ParseInclude(parser: Parser, website: Website, state: IncludeState, files: map<string, string>,
                      ghost texts: seq<seq<Lexeme>>)
    returns (ghost after: seq<seq<Lexeme>>)
    requires parser.Valid() && !parser.hadError && parser.stack == Push(Settings, Done)
    requires parser.scan == Idle(Found([], state.included)) && parser.current.kind == INCLUDE
    requires state.Valid() && Texts(state.included, files, texts)
    requires website.Valid() && website.Holds(DeclaredAll(texts))
    requires Includable(state.included, files)
    requires forall p :: p in files ==> NUL !in files[p]
    modifies parser, parser.lexer, website, website.lists, website.nodes, state
    ensures website.Valid() && fresh(website.nodes - old(website.nodes))
    ensures parser.Valid() && parser.base == old(parser.base)
    ensures parser.Left() < old(parser.Left()) && state.Valid()
    ensures !parser.hadError ==> parser.scan == Idle(Found([], state.included)) && parser.stack == old(parser.stack)
    ensures !parser.hadError ==> Includable(state.included, files)
    ensures parser.hadError ==> parser.Doomed() || parser.Blocked(files)
    ensures !parser.hadError ==> website.Holds(DeclaredAll(after)) && Texts(state.included, files, after)
  {
    hide Parser.Valid, Parser.Left, Step, ScanAll, Website.Holds, Website.Valid, Declared, Quiet, Within,
      IsText, CanInclude, Includable, Shift;
    after := texts;
    var path := parser.IncludePath();
    IncludableSnoc(state.included, path, files);
    var ok, text := ProcessInclude(website, path, state, files, DeclaredAll(texts));
    if ok {
      after := texts + [text];
      assert after[..|texts|] == texts;
    } else {
      parser.hadError := true;
    }
  }

  /** One turn of parseProgram: a setting, an include, or all of the website's own
      declarations at once. */
  method ParseProgramEntry(parser: Parser, website: Website, state: IncludeState, files: map<string, string>,
                           ghost texts: seq<seq<Lexeme>>)
    returns (ghost after: seq<seq<Lexeme>>)
    requires parser.Valid() && parser.More()
    requires parser.stack == Push(Settings, Done) && parser.scan == Idle(Found([], state.included))
    requires state.Valid() && Texts(state.included, files, texts)
    requires website.Valid() && website.Holds(DeclaredAll(texts))
    requires Includable(state.included, files)
    requires forall p :: p in files ==> NUL !in files[p]
    modifies parser, parser.lexer, website, website.lists, website.nodes, state
    ensures website.Valid() && fresh(website.nodes - old(website.nodes))
    ensures parser.Valid() && parser.base == old(parser.base)
    ensures parser.Left() <= old(parser.Left()) && (parser.hadError || parser.Left() < old(parser.Left()))
    ensures state.Valid()
    ensures !parser.hadError ==> parser.scan == Idle(Found(parser.scan.found.nodes, state.included))
    ensures !parser.hadError ==> Texts(state.included, files, after)
    ensures !parser.hadError ==> website.Holds(DeclaredAll(after) + parser.scan.found.nodes)
    ensures !parser.hadError ==> Includable(state.included, files)
    ensures parser.hadError ==> parser.Doomed() || parser.Blocked(files)
    ensures !parser.hadError ==> parser.AtTop() && parser.stack.rest == Done && !parser.In(Content)
    ensures parser.More() ==> parser.In(Settings) && parser.scan.found.nodes == []
  {
    hide Parser.Valid, Parser.Left, Step, ScanAll, Website.Holds, Website.Valid, DeclaredAll, Texts,
      Includable, BlockEntry;
    WebsiteReads(parser.This(), parser.stack);
    after := texts;
    assert DeclaredAll(texts) + [] == DeclaredAll(texts);
    var kind := parser.current.kind;
    if kind == NAME || kind == AUTHOR || kind == VERSION || kind == DATABASE {
      parser.ParseSetting();
    } else if kind == PORT {
      parser.ParsePort();
    } else if kind == AUTH {
      IdleStep(parser.scan.found, parser.This());
      parser.Advance();
      parser.ParseAuth();
    } else if kind == INCLUDE {
      after := ParseInclude(parser, website, state, files, texts);
      assert DeclaredAll(after) + [] == DeclaredAll(after);
    } else {
      parser.ParseWebsiteNode(website, DeclaredAll(texts));
    }
  }

  /** A program ends with token number n + 2, the brace that closes it. */
  predicate IsProgram(s: string, n: nat) {
    Fed(PROGRAM, s, n + 2) != Done && Fed(PROGRAM, s, n + 3) == Done
  }

  /** A program ends in one place only. */
  lemma ProgramEndsOnce(s: string, m: nat, n: nat)
    requires IsProgram(s, m) && IsProgram(s, n)
    ensures m == n
  {
    hide Fed;
    if m < n {
      FedForGood(PROGRAM, s, m + 3, n + 2);
    } else if n < m {
      FedForGood(PROGRAM, s, n + 3, m + 2);
    }
  }

  /** The text is a program, and all that it includes can be included. */
  ghost predicate Loads(s: string, files: map<string, string>) {
    exists n: nat :: IsProgram(s, n) && Includable(Paths(Tokens(s, 2, n)), files)
  }

  lemma LoadsHere(s: string, files: map<string, string>, n: nat)
    requires IsProgram(s, n) && Includable(Paths(Tokens(s, 2, n)), files)
    ensures Loads(s, files)
  {
  }

  lemma FailedLoadsNot(s: string, files: map<string, string>, k: nat)
    requires Fed(PROGRAM, s, k) == Fail
    ensures !Loads(s, files)
  {
    hide Fed, Includable;
    FailsForGood(PROGRAM, s, k);
  }

  /** A program that goes on behind some tokens includes what these do. */
  lemma BlockedLoadsNot(s: string, files: map<string, string>, k: nat)
    requires Fed(PROGRAM, s, k + 2).Push? && !Includable(Paths(Tokens(s, 2, k)), files)
    ensures !Loads(s, files)
  {
    hide Fed, Tokens, Paths, CanInclude;
    forall n: nat | IsProgram(s, n) ensures !Includable(Paths(Tokens(s, 2, n)), files) {
      if n < k {
        FedForGood(PROGRAM, s, n + 3, k + 2);
      }
      PathsGrow(s, 2, k, n);
      var before, after := Paths(Tokens(s, 2, k)), Paths(Tokens(s, 2, n));
      var i :| 0 <= i < |before| && !CanInclude(before[..i], before[i], files);
      assert after[..i] == before[..i] && after[i] == before[i];
    }
  }

  /** An error stands for a text that does not load. */
  lemma LoadsNot(parser: Parser, files: map<string, string>)
    requires parser.Valid() && parser.start == PROGRAM
    requires parser.Doomed() || (parser.base == 2 && parser.Blocked(files))
    ensures !Loads(parser.lexer.src, files)
  {
    hide Shift, Fed, Nth, Step, ScanAll, Tokens, Includable, Loads, Parser.Valid;
    parser.ReadIsScanned();
    if parser.Doomed() {
      FailedLoadsNot(parser.lexer.src, files, parser.base + |parser.read| + 1);
    } else {
      BlockedLoadsNot(parser.lexer.src, files, |parser.read|);
    }
  }

  /** The keyword and the opening brace. */
  method ParseOpening(parser: Parser)
    requires parser.Valid() && parser.read == [] && parser.base == 0 && !parser.hadError && parser.stack == PROGRAM
    modifies parser, parser.lexer
    ensures parser.Valid() && parser.read == [] && parser.scan == Idle(NOTHING)
    ensures parser.Justified() && (!parser.hadError ==> parser.base == 2 && parser.stack == Push(Settings, Done))
  {
    hide Parser.Valid, Parser.Left, Step, Tokens, Next, Nth, Fed;
    parser.Consume(WEBSITE);
    parser.Consume(OPEN_BRACE);
    parser.Rebase();
  }

  /** The loop of parseProgram, up to the closing brace. */
  method ParseEntries(parser: Parser, website: Website, state: IncludeState, files: map<string, string>)
    returns (ghost texts: seq<seq<Lexeme>>)
    requires parser.Valid() && parser.start == PROGRAM && parser.scan == Idle(NOTHING)
    requires if parser.hadError then parser.Doomed() else parser.base == 2 && parser.stack == Push(Settings, Done)
    requires state.Valid() && state.included == [] && website.Valid() && website.Holds([])
    requires forall p :: p in files ==> NUL !in files[p]
    modifies parser, parser.lexer, website, website.lists, website.nodes, state
    ensures parser.Valid() && state.Valid() && website.Valid() && !parser.More()
    ensures parser.hadError ==> !Loads(parser.lexer.src, files)
    ensures !parser.hadError ==> parser.base == 2 && parser.scan == Idle(Found(parser.scan.found.nodes, state.included))
    ensures !parser.hadError ==> parser.AtTop() && parser.stack.rest == Done && !parser.In(Content)
    ensures !parser.hadError ==> Texts(state.included, files, texts) && Includable(state.included, files)
    ensures !parser.hadError ==> website.Holds(DeclaredAll(texts) + parser.scan.found.nodes)
  {
    hide Parser.Valid, Parser.Left, Step, Website.Holds, Website.Valid, IncludeState.Valid, Ends, Tokens, Next, Nth,
      Quiet, Within, KindOf, IsText, ScanAll, Fed, Includable, Loads, Shift, CanInclude, Parser.Doomed, Parser.Blocked,
      Texts, DeclaredAll;
    texts := [];
    NoIncludes(files);
    if parser.hadError {
      LoadsNot(parser, files);
    }
    while parser.More()
      invariant parser.Valid() && state.Valid() && website.Valid() && fresh(website.nodes - old(website.nodes))
      invariant parser.hadError ==> !Loads(parser.lexer.src, files)
      invariant parser.hadError || parser.base == 2
      invariant parser.hadError || parser.scan == Idle(Found(parser.scan.found.nodes, state.included))
      invariant parser.hadError || (Texts(state.included, files, texts) && Includable(state.included, files))
      invariant parser.hadError || website.Holds(DeclaredAll(texts) + parser.scan.found.nodes)
      invariant parser.hadError || (parser.AtTop() && parser.stack.rest == Done && !parser.In(Content))
      invariant parser.More() ==> parser.In(Settings) && parser.scan.found.nodes == []
      decreases parser.Left(), !parser.hadError
    {
      assert DeclaredAll(texts) + [] == DeclaredAll(texts);
      texts := ParseProgramEntry(parser, website, state, files, texts);
      if parser.hadError {
        LoadsNot(parser, files);
      }
    }
  }

  /** The closing brace of a program. */
  method ParseClosing(parser: Parser, files: map<string, string>)
    requires parser.Valid() && parser.start == PROGRAM && !parser.More()
    requires parser.hadError ==> !Loads(parser.lexer.src, files)
    requires !parser.hadError ==> parser.base == 2 && parser.AtTop() && parser.stack.rest == Done && !parser.In(Content)
    requires !parser.hadError ==> Includable(Paths(Tokens(parser.lexer.src, 2, |parser.read|)), files)
    modifies parser, parser.lexer
    ensures parser.Valid()
    ensures parser.hadError <==> !Loads(parser.lexer.src, files)
    ensures !parser.hadError ==> !old(parser.hadError) && IsProgram(parser.lexer.src, |old(parser.read)|)
  {
    hide Parser.Valid, Parser.Left, Parser.Doomed, Step, ScanAll, Tokens, Nth, Fed, Includable, Loads, Shift;
    ghost var size, was := |parser.read|, parser.hadError;
    parser.ReadIsScanned();
    if !was {
      parser.ProgramEnds();
    }
    parser.Consume(CLOSE_BRACE);
    if !parser.hadError {
      parser.ReadIsScanned();
      LoadsHere(parser.lexer.src, files, size);
    } else if !was {
      LoadsNot(parser, files);
    }
  }

  /** parseProgram, from the first token: it ends on every text. It reports no error exactly
      when the text is a program and all that it includes can be included. Then exactly the
      files it includes were read, in order and none twice; and the lists of the website hold
      the declarations of the included files, in include order, and then those of the text
      itself. */
  method ParseProgram(parser: Parser, files: map<string, string>)
    returns (website: Website, state: IncludeState, ghost size: nat, ghost texts: seq<seq<Lexeme>>)
    requires parser.Valid() && parser.read == [] && parser.base == 0 && !parser.hadError && parser.scan == Idle(NOTHING)
    requires parser.start == parser.stack == PROGRAM
    requires forall p :: p in files ==> NUL !in files[p]
    modifies parser, parser.lexer
    ensures parser.Valid() && state.Valid() && website.Valid()
    ensures parser.hadError <==> !Loads(parser.lexer.src, files)
    ensures !parser.hadError ==> IsProgram(parser.lexer.src, size) && Ends(parser.lexer.src, 2, size)
    ensures !parser.hadError ==> state.included == Paths(Tokens(parser.lexer.src, 2, size))
    ensures !parser.hadError ==> Texts(state.included, files, texts)
    ensures !parser.hadError ==>
      website.Holds(DeclaredAll(texts) + Declared(Tokens(parser.lexer.src, 2, size)))
  {
    hide Parser.Valid, Parser.Left, Step, Website.Holds, Website.Valid, IncludeState.Valid, Ends, Tokens, Next, Nth,
      Quiet, Within, KindOf, IsText, Texts, ScanAll, Fed, Includable, Loads, Shift, CanInclude, Parser.Blocked,
      Parser.Doomed, DeclaredAll;
    website := new Website();
    state := new IncludeState();
    ParseOpening(parser);
    texts := ParseEntries(parser, website, state, files);
    size := |parser.read|;
    parser.ReadIsScanned();
    if !parser.hadError {
      parser.EndsHere();
    }
    ParseClosing(parser, files);
  }
}
