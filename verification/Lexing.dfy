/** The lexer (lexer.c). The source is a C string; reading at its end gives NUL. */
module Lexing {
  import opened Options
  import opened CStrings
  import opened RawText
  import opened Lexical

  datatype Token = Token(kind: TokenType, lexeme: string, line: int)

  function Newlines(s: string): nat {
    if s == "" then 0 else Newlines(s[..|s| - 1]) + if s[|s| - 1] == '\n' then 1 else 0
  }

  lemma NewlinesStep(s: string, k: nat)
    requires k < |s|
    ensures Newlines(s[..k + 1]) == Newlines(s[..k]) + if s[k] == '\n' then 1 else 0
  {
    assert s[..k + 1][..k] == s[..k];
  }

  class Lexer {
    const src: string
    var start: nat
    var current: nat
    var line: int
    var inBrackets: bool
    var previous: TokenType
    /** How many tokens were read, and how many newlines with them as escaped characters. */
    ghost var tokens: nat
    ghost var escaped: nat

    /** The line counter is short by exactly the escaped newlines. */
    ghost predicate Sound()
      reads this`start, this`current, this`line, this`escaped
    {
      && start <= current <= |src| && NUL !in src
      && line + escaped == 1 + Newlines(src[..current])
    }

    /** Between two tokens. */
    ghost predicate Valid()
      reads this
    {
      Sound() && Where() == PlaceAfter(src, tokens) && escaped == EscapedNewlines(src, tokens)
    }

    constructor (source: string)
      requires NUL !in source
      ensures Valid() && src == source && tokens == 0
    {
      src := source;
      start, current, line, inBrackets, previous := 0, 0, 1, false, UNKNOWN;
      tokens, escaped := 0, 0;
    }

    function Peek(): (c: char)
      requires current <= |src|
      reads this`current
    {
      if current < |src| then src[current] else NUL
    }

    function PeekAt(k: nat): (c: char)
      requires current <= |src|
      reads this`current
    {
      if current + k < |src| then src[current + k] else NUL
    }

    predicate AtEnd()
      requires current <= |src| && NUL !in src
      reads this`current
      ensures AtEnd() <==> current == |src|
    {
      assert current < |src| ==> src[current] in src;
      Peek() == NUL
    }

    /** Only the position moves; the characters read are not newlines. */
    method Advance()
      requires Sound() && current < |src| && src[current] != '\n'
      modifies this`current
      ensures Sound() && current == old(current) + 1
    {
      NewlinesStep(src, current);
      current := current + 1;
    }

    /** One character, with a newline counted. */
    method AdvanceCounting()
      requires Sound() && current < |src|
      modifies this`current, this`line
      ensures Sound() && current == old(current) + 1
    {
      NewlinesStep(src, current);
      if Peek() == '\n' {
        line := line + 1;
      }
      current := current + 1;
    }

    /** A backslash and the character it escapes: a newline there is not counted. */
    method AdvanceEscaped()
      requires Sound() && current < |src| && src[current] == '\\'
      modifies this`current, this`escaped
      ensures Sound() && current == if old(current) + 1 < |src| then old(current) + 2 else old(current) + 1
      ensures escaped == old(escaped) + if old(current) + 1 < |src| && src[old(current) + 1] == '\n' then 1 else 0
    {
      NewlinesStep(src, current);
      current := current + 1;
      if current < |src| {
        NewlinesStep(src, current);
        if src[current] == '\n' {
          escaped := escaped + 1;
        }
        current := current + 1;
      }
    }

    method SkipWhitespace()
      requires Sound()
      modifies this`current, this`line
      ensures Sound() && current == Skip(src, old(current))
    {
      hide Newlines;
      while true
        invariant Sound() && Skip(src, current) == Skip(src, old(current))
        decreases |src| - current
      {
        var c := Peek();
        if c == ' ' || c == '\r' || c == '\t' {
          Advance();
        } else if c == '\n' {
          AdvanceCounting();
        } else if c == '/' {
          if PeekAt(1) != '/' {
            return;
          }
          SkipComment();
        } else {
          return;
        }
      }
    }

    /** The inner loop, up to the end of the line. */
    method SkipComment()
      requires Sound() && current < |src|
      modifies this`current
      ensures Sound() && current == CommentEnd(src, old(current))
    {
      hide Newlines;
      while Peek() != '\n' && !AtEnd()
        invariant Sound() && CommentEnd(src, current) == CommentEnd(src, old(current))
        decreases |src| - current
      {
        Advance();
      }
    }

    method MakeToken(kind: TokenType) returns (t: Token)
      requires Sound()
      ensures t == Token(kind, src[start..current], line)
    {
      t := Token(kind, src[start..current], line);
    }

    /** The search for the matching brace, from behind the opening one. */
    method ScanBraces() returns (closed: bool)
      requires Sound()
      modifies this`current, this`line
      ensures Sound() && old(current) <= current
      ensures BlockEnd(src, old(current), 1) == if closed then Some(current) else None
      ensures !closed ==> current == |src|
    {
      hide Newlines;
      var braceCount := 1;
      while !AtEnd() && braceCount > 0
        invariant Sound() && braceCount >= 0
        invariant BlockEnd(src, current, braceCount) == BlockEnd(src, old(current), 1)
        decreases |src| - current
      {
        var c := Peek();
        if c == '{' {
          braceCount := braceCount + 1;
        } else if c == '}' {
          braceCount := braceCount - 1;
        }
        AdvanceCounting();
      }
      closed := braceCount == 0;
    }

    /** rawBlock, from its opening brace: stops behind the matching brace, and copies the
        content without indentation into a buffer of the size the counting pass found. */
    method RawBlock() returns (t: Token)
      requires Sound() && current < |src| && src[current] == '{'
      modifies this`current, this`line
      ensures Sound() && Gives(t, RawBlockAt(src, old(current))) && t.line == old(line)
    {
      hide Newlines, Stripped, BlockEnd;
      Advance();
      var contentStart := current;
      var startLine := line;
      var closed := ScanBraces();
      if !closed {
        return Token(UNKNOWN, "Unterminated raw block.", startLine);
      }
      var size := CountStripped(contentStart, current - 1);
      var trimmed := CopyStripped(contentStart, current - 1, size);
      t := Token(RAW_BLOCK, trimmed, startLine);
    }

    /** The counting pass. */
    method CountStripped(from: nat, end: nat) returns (size: nat)
      requires from <= end <= |src|
      ensures size == |Stripped(src[from..end], true)|
    {
      size := 0;
      var isStartOfLine := true;
      var k := from;
      assert src[from..from] == "";
      while k < end
        invariant from <= k <= end
        invariant size == |Stripped(src[from..k], true)| && isStartOfLine == AtStart(src[from..k], true)
      {
        var c := src[k];
        StrippedSnoc(src[from..k], c, true);
        assert src[from..k + 1] == src[from..k] + [c];
        if !(isStartOfLine && Blank(c)) {
          isStartOfLine := c == '\n';
          size := size + 1;
        }
        k := k + 1;
      }
    }

    /** The copying pass, into a buffer with room for the terminator. */
    method CopyStripped(from: nat, end: nat, size: nat) returns (trimmed: string)
      requires from <= end <= |src| && size == |Stripped(src[from..end], true)|
      ensures trimmed == Stripped(src[from..end], true)
    {
      var buf := new char[size + 1];
      var pos := 0;
      var isStartOfLine := true;
      var k := from;
      assert src[from..from] == "";
      while k < end
        invariant from <= k <= end && 0 <= pos <= size
        invariant buf[..pos] == Stripped(src[from..k], true) && isStartOfLine == AtStart(src[from..k], true)
      {
        var c := src[k];
        StrippedSnoc(src[from..k], c, true);
        assert src[from..k + 1] == src[from..k] + [c];
        StrippedGrows(src[from..end], k + 1 - from);
        PrefixOfSlice(src, from, end, k + 1);
        if !(isStartOfLine && Blank(c)) {
          isStartOfLine := c == '\n';
          ghost var done := buf[..pos];
          buf[pos] := c;
          pos := pos + 1;
          assert buf[..pos] == done + [c];
        }
        k := k + 1;
      }
      buf[pos] := NUL;
      trimmed := buf[..pos];
    }

    /** The token and the position are what the specification reads. */
    predicate Gives(t: Token, r: Read)
      reads this`current
    {
      Lexeme(t.kind, t.lexeme) == r.token && current == r.next
    }

    /** The scan over letters, digits, `_` and `-`. */
    method ScanWord()
      requires Sound()
      modifies this`current
      ensures Sound() && current == WordEnd(src, old(current))
    {
      hide Newlines;
      while IsAlpha(Peek()) || IsDigit(Peek())
        invariant Sound() && WordEnd(src, current) == WordEnd(src, old(current))
        decreases |src| - current
      {
        Advance();
      }
    }

    method IdentifierOrKeyword() returns (t: Token)
      requires Sound() && current == start + 1
      modifies this`current, this`line, this`previous
      ensures Sound() && Gives(t, WordAt(src, start, inBrackets)) && OnLine(t)
      ensures previous == old(previous) || previous == t.kind
      ensures t.kind == SQL && Peek() != '{' ==> previous == old(previous)
    {
      hide Newlines, Keyword, RawBlockAt, Skip, WordEnd;
      ScanWord();
      if inBrackets {
        t := MakeToken(STRING);
        return;
      }
      var kind := Keyword(src[start..current]);
      if kind == HTML || kind == SQL || kind == JQ || kind == LUA || kind == MUSTACHE {
        SkipWhitespace();
        if Peek() == '{' {
          t := MakeToken(kind);
          previous := kind;
          return;
        }
      }
      if kind == CSS {
        SkipWhitespace();
        if Peek() == '{' {
          t := RawBlock();
          return;
        }
      }
      if kind == UNKNOWN {
        kind := STRING;
      }
      t := MakeToken(kind);
    }

    /** The triple-quoted half of stringLiteral, at its second quote. */
    method TripleQuoted() returns (t: Token)
      requires Sound() && Peek() == '"' && PeekAt(1) == '"'
      modifies this`start, this`current, this`line
      ensures Sound() && Gives(t, StringAt(src, old(current))) && OnLine(t)
    {
      hide Newlines, TripleEnd, QuotedEnd;
      Advance();
      Advance();
      start := current;
      var tooLong := ScanTriple();
      if tooLong {
        return Token(UNKNOWN, "String too long (exceeds max length)", line);
      }
      if AtEnd() {
        return Token(UNKNOWN, "Unterminated triple-quoted string.", line);
      }
      t := MakeToken(STRING);
      Advance();
      Advance();
      Advance();
    }

    method ScanTriple() returns (tooLong: bool)
      requires Sound()
      modifies this`current, this`line
      ensures Sound() && (current, tooLong) == TripleEnd(src, old(current), 0)
    {
      hide Newlines;
      var len := 0;
      while !AtEnd()
        invariant Sound() && len >= 0 && TripleEnd(src, current, len) == TripleEnd(src, old(current), 0)
        decreases |src| - current
      {
        if len >= 100000 {
          return true;
        }
        if Peek() == '"' && PeekAt(1) == '"' && PeekAt(2) == '"' {
          break;
        }
        AdvanceCounting();
        len := len + 1;
      }
      tooLong := false;
    }

    /** The loop over a quoted string: an escaped character is not counted. */
    method ScanQuoted(limit: int) returns (tooLong: bool)
      requires Sound()
      modifies this`current, this`line, this`escaped
      ensures Sound() && escaped == old(escaped) + QuotedEscapes(src, old(current), 0, limit)
      ensures (current, tooLong) == QuotedEnd(src, old(current), 0, limit)
    {
      hide Newlines;
      var len := 0;
      while !AtEnd() && Peek() != '"'
        invariant Sound() && len >= 0
        invariant escaped + QuotedEscapes(src, current, len, limit)
          == old(escaped) + QuotedEscapes(src, old(current), 0, limit)
        invariant QuotedEnd(src, current, len, limit) == QuotedEnd(src, old(current), 0, limit)
        decreases |src| - current
      {
        if 0 <= limit <= len {
          return true;
        }
        if Peek() == '\\' {
          AdvanceEscaped();
        } else {
          AdvanceCounting();
          len := len + 1;
        }
      }
      tooLong := false;
    }

    /** stringLiteral, behind its first quote. */
    method StringLiteral() returns (t: Token)
      requires Sound()
      modifies this`start, this`current, this`line, this`escaped
      ensures Sound() && escaped == old(escaped) + StringEscapes(src, old(current))
      ensures Gives(t, StringAt(src, old(current))) && OnLine(t)
    {
      hide Newlines;
      if !AtEnd() && Peek() == '"' && PeekAt(1) == '"' {
        t := TripleQuoted();
        return;
      }
      start := current;
      var tooLong := ScanQuoted(10000);
      if tooLong {
        return Token(UNKNOWN, "String too long (exceeds max length)", line);
      }
      if AtEnd() {
        return Token(UNKNOWN, "Unterminated string.", line);
      }
      t := MakeToken(STRING);
      Advance();
    }

    /** rawStringLiteral, behind its first quote. */
    method RawStringLiteral() returns (t: Token)
      requires Sound() && 0 < current
      modifies this`start, this`current, this`line, this`escaped
      ensures Sound() && escaped == old(escaped) + QuotedEscapes(src, old(current), 0, -1)
      ensures Gives(t, RawStringAt(src, old(current))) && OnLine(t)
    {
      hide Newlines;
      start := current - 1;
      var tooLong := ScanQuoted(-1);
      if AtEnd() {
        return Token(UNKNOWN, "Unterminated raw string.", line);
      }
      Advance();
      t := MakeToken(RAW_STRING);
    }

    method ScanDigits()
      requires Sound()
      modifies this`current
      ensures Sound() && current == DigitsEnd(src, old(current))
    {
      hide Newlines;
      while IsDigit(Peek())
        invariant Sound() && DigitsEnd(src, current) == DigitsEnd(src, old(current))
        decreases |src| - current
      {
        Advance();
      }
    }

    method ScanNumber() returns (t: Token)
      requires Sound() && current == start + 1
      modifies this`current
      ensures Sound() && Gives(t, NumberAt(src, start)) && OnLine(t)
    {
      hide Newlines, DigitsEnd, RangeAt, FractionAt;
      ScanDigits();
      if Peek() == '.' && PeekAt(1) == '.' {
        Advance();
        Advance();
        t := ScanRange();
        return;
      }
      if Peek() == '.' {
        Advance();
        t := ScanFraction();
        return;
      }
      t := MakeToken(NUMBER);
    }

    method ScanRange() returns (t: Token)
      requires Sound() && start < current
      modifies this`current
      ensures Sound() && Gives(t, RangeAt(src, start, old(current))) && OnLine(t)
    {
      hide Newlines, DigitsEnd;
      if !IsDigit(Peek()) {
        return Token(UNKNOWN, "Expected number after '..' in range.", line);
      }
      ScanDigits();
      t := MakeToken(RANGE);
    }

    method ScanFraction() returns (t: Token)
      requires Sound() && start < current
      modifies this`current
      ensures Sound() && Gives(t, FractionAt(src, start, old(current))) && OnLine(t)
    {
      hide Newlines, DigitsEnd;
      if !IsDigit(Peek()) {
        return Token(UNKNOWN, "Expected digit after decimal point.", line);
      }
      ScanDigits();
      t := MakeToken(NUMBER);
    }

    /** What is kept between two tokens. */
    function Where(): Place
      reads this`current, this`inBrackets, this`previous
    {
      Place(current, inBrackets, previous)
    }

    /** getNextToken yields the next token of the text and leaves the lexer behind it; the
        token carries the line it ends on, a raw block the one it starts on. */
    method GetNextToken() returns (t: Token)
      requires Valid()
      modifies this
      ensures Valid() && tokens == old(tokens) + 1
      ensures Lexeme(t.kind, t.lexeme) == Nth(src, old(tokens))
      ensures OnLine(t)
    {
      hide Newlines, Next, NextEscapes, PlaceAfter;
      t := ScanNext();
      NextPlace(src, tokens);
      tokens := tokens + 1;
    }

    lemma NextPlace(s: string, n: nat)
      ensures PlaceAfter(s, n + 1) == Next(s, PlaceAfter(s, n)).1
      ensures EscapedNewlines(s, n + 1) == EscapedNewlines(s, n) + NextEscapes(s, PlaceAfter(s, n))
    {
      hide Next, NextEscapes;
    }

    method ScanNext() returns (t: Token)
      requires Sound()
      modifies this`start, this`current, this`line, this`inBrackets, this`previous, this`escaped
      ensures Sound() && escaped == old(escaped) + NextEscapes(src, old(Where()))
      ensures (Lexeme(t.kind, t.lexeme), Where()) == Next(src, old(Where()))
      ensures OnLine(t)
    {
      hide Newlines, RawBlockAt, NumberAt, TokenAt, Remembered, TokenEscapes, RememberedEscapes;
      SkipWhitespace();
      start := current;
      if AtEnd() {
        t := MakeToken(EOF);
        assert t.lexeme == "";
        return;
      }
      if Peek() == '{' && OpensRaw(previous) {
        t := RawBlock();
        return;
      }
      var c := Peek();
      Advance();
      if IsDigit(c) {
        t := ScanNumber();
        return;
      }
      t := ScanRest(c);
    }

    /** A token made where the lexer stands, or one of those that carry another line. */
    predicate OnLine(t: Token)
      reads this`line
    {
      t.kind == RAW_BLOCK || t.kind == UNKNOWN || t.line == line
    }

    /** The token behind its first character, with the quoted form of an `sql` text. */
    method ScanRest(c: char) returns (t: Token)
      requires Sound() && current == start + 1 && c == src[start]
      modifies this`start, this`current, this`line, this`inBrackets, this`previous, this`escaped
      ensures Sound() && OnLine(t)
      ensures escaped == old(escaped) + TokenEscapes(src, old(start))
                       + RememberedEscapes(src, TokenAt(src, old(start), old(inBrackets)))
      ensures (Lexeme(t.kind, t.lexeme), Where())
           == Remembered(src, TokenAt(src, old(start), old(inBrackets)), Brackets(c, old(inBrackets)), old(previous))
    {
      hide Newlines, TokenAt, RawStringAt, TokenEscapes, QuotedEscapes;
      t := ScanToken(c);
      if t.kind == SQL {
        SkipWhitespace();
        if Peek() == '"' {
          Advance();
          t := RawStringLiteral();
          return;
        }
      }
      previous := t.kind;
    }

    /** The switch on the first character, already consumed. */
    method ScanToken(c: char) returns (t: Token)
      requires Sound() && current == start + 1 && c == src[start]
      modifies this`start, this`current, this`line, this`inBrackets, this`previous, this`escaped
      ensures Sound() && OnLine(t) && escaped == old(escaped) + TokenEscapes(src, old(start))
      ensures Gives(t, TokenAt(src, old(start), old(inBrackets))) && inBrackets == Brackets(c, old(inBrackets))
      ensures t.kind == SQL && CharAt(src, Skip(src, current)) != '{' ==> previous == old(previous)
    {
      hide Newlines, WordAt, StringAt, Skip, StringEscapes;
      if c == '$' {
        ScanWord();
        t := MakeToken(ENV_VAR);
      } else if c == '{' {
        t := MakeToken(OPEN_BRACE);
      } else if c == '}' {
        t := MakeToken(CLOSE_BRACE);
      } else if c == '(' {
        t := MakeToken(OPEN_PAREN);
      } else if c == ')' {
        t := MakeToken(CLOSE_PAREN);
      } else if c == '"' {
        t := StringLiteral();
      } else if c == '[' {
        inBrackets := true;
        t := MakeToken(OPEN_BRACKET);
      } else if c == ']' {
        inBrackets := false;
        t := MakeToken(CLOSE_BRACKET);
      } else if c == ',' {
        t := MakeToken(COMMA);
      } else if IsAlpha(c) {
        t := IdentifierOrKeyword();
      } else {
        t := Token(UNKNOWN, "Unexpected character.", line);
      }
    }

    lemma Placed()
      requires Valid()
      ensures current == PlaceAfter(src, tokens).pos <= |src|
    {
    }

    /** The line counter is one plus the newlines read, less those read as escaped characters
        of quoted strings. So it is exact exactly when there was no such newline, and always
        in a text without a backslash directly in front of a newline. */
    lemma LineCount()
      requires Valid()
      ensures line == 1 + Newlines(src[..current]) - EscapedNewlines(src, tokens)
      ensures line == 1 + Newlines(src[..current]) <==> EscapedNewlines(src, tokens) == 0
      ensures NoEscapedNewline(src) ==> line == 1 + Newlines(src[..current])
    {
      if NoEscapedNewline(src) {
        NoEscapes(src, tokens);
      }
    }
  }

  lemma OneNewline()
    ensures Newlines("\"\\\n\"") == 1
  {
    var s := "\"\\\n\"";
    assert s[..3][..2] == s[..2] && s[..2][..1] == s[..1] && s[..1][..0] == "";
    assert Newlines(s[..1]) == 0 && Newlines(s[..2]) == 0 && Newlines(s[..3]) == 1;
  }

  /** The counter stays at 1 behind a string with an escaped newline. */
  method MissedNewline() returns (lexer: Lexer)
    ensures fresh(lexer) && lexer.current == |lexer.src|
    ensures Newlines(lexer.src) == 1 && lexer.line == 1
  {
    hide Nth, PlaceAfter, Newlines, EscapedNewlines, Lexer.Valid, Lexer.Sound;
    lexer := new Lexer("\"\\\n\"");
    OneNewline();
    var t := lexer.GetNextToken();
    lexer.Placed();
    lexer.LineCount();
    NewlineInString();
    assert lexer.src[..4] == lexer.src;
  }

  lemma PrefixOfSlice(s: string, from: nat, end: nat, k: nat)
    requires from <= k <= end <= |s|
    ensures s[from..end][..k - from] == s[from..k]
  {
  }

  lemma StrippedGrows(s: string, k: nat)
    requires k <= |s|
    ensures |Stripped(s[..k], true)| <= |Stripped(s, true)|
    decreases |s| - k
  {
    if k == |s| {
      assert s[..k] == s;
    } else {
      assert s[..k + 1] == s[..k] + [s[k]];
      StrippedSnoc(s[..k], s[k], true);
      StrippedGrows(s, k + 1);
    }
  }
}
