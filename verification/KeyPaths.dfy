/** Path splitting is the inverse of escaping and joining; the one-pass decoding of JSON
    pointer tokens is the decoding of section 4 of RFC 6901. */
module KeyPaths {
  import opened Selection

  /** A separator in front of a key is skipped, and nothing else. */
  lemma SkipSeparator(c: char, tail: string)
    requires tail == "" || tail[0] != c
    ensures SkipAll([c] + tail, c) == tail
    ensures SkipAll(tail, c) == tail
  {
    assert ([c] + tail)[1..] == tail;
  }

  // ---------- dotted paths ----------

  function EscapeKey(key: string): string {
    if key == "" then ""
    else (if key[0] == '.' || key[0] == '\\' then "\\" else "") + [key[0]] + EscapeKey(key[1..])
  }

  function JoinDotted(keys: seq<string>): string {
    if keys == [] then ""
    else if |keys| == 1 then EscapeKey(keys[0])
    else EscapeKey(keys[0]) + "." + JoinDotted(keys[1..])
  }

  /** A key starts where a separator or the end of the path does not. */
  lemma EscapeKeyStart(key: string)
    requires key != ""
    ensures EscapeKey(key) != "" && EscapeKey(key)[0] != '.'
  {
  }

  lemma DottedKeyNone(rest: string)
    requires rest == "" || rest[0] == '.'
    ensures DottedKey(rest) == Split("", rest)
  {
  }

  lemma DottedKeyPlain(c: char, tail: string)
    requires c != '.' && c != '\\'
    ensures DottedKey([c] + tail) == Split([c] + DottedKey(tail).key, DottedKey(tail).rest)
  {
    assert ([c] + tail)[1..] == tail;
  }

  lemma DottedKeyQuoted(c: char, tail: string)
    requires c == '.' || c == '\\'
    ensures DottedKey("\\" + [c] + tail) == Split([c] + DottedKey(tail).key, DottedKey(tail).rest)
  {
    var s := "\\" + [c] + tail;
    assert s[2..] == tail && s[1] == c && s[0] == '\\' && |s| > 1;
  }

  lemma {:induction false} DottedKeyEscaped(key: string, rest: string)
    requires rest == "" || rest[0] == '.'
    ensures DottedKey(EscapeKey(key) + rest) == Split(key, rest)
  {
    hide DottedKey;
    if key == "" {
      assert EscapeKey(key) + rest == rest;
      DottedKeyNone(rest);
    } else {
      var tail := EscapeKey(key[1..]) + rest;
      DottedKeyEscaped(key[1..], rest);
      assert key == [key[0]] + key[1..];
      if key[0] == '.' || key[0] == '\\' {
        assert EscapeKey(key) + rest == "\\" + [key[0]] + tail;
        DottedKeyQuoted(key[0], tail);
      } else {
        assert EscapeKey(key) + rest == [key[0]] + tail;
        DottedKeyPlain(key[0], tail);
      }
    }
  }

  lemma {:induction false} JoinDottedStart(keys: seq<string>)
    requires keys != [] && keys[0] != ""
    ensures JoinDotted(keys) != "" && JoinDotted(keys)[0] != '.'
  {
    EscapeKeyStart(keys[0]);
  }

  lemma DottedLast(key: string)
    requires key != ""
    ensures EscapeKey(key) != "" && NextKey(EscapeKey(key), false) == Split(key, "")
  {
    EscapeKeyStart(key);
    DottedKeyEscaped(key, "");
    assert EscapeKey(key) + "" == EscapeKey(key);
  }

  lemma DottedMore(key: string, tail: string)
    requires key != "" && tail != "" && tail[0] != '.'
    ensures NextKey(EscapeKey(key) + "." + tail, false) == Split(key, tail)
  {
    hide DottedKey, SkipAll;
    EscapeKeyStart(key);
    DottedKeyEscaped(key, ['.'] + tail);
    assert EscapeKey(key) + "." + tail == EscapeKey(key) + (['.'] + tail);
    SkipSeparator('.', tail);
  }

  /** The first key of a joined path, and the rest after its separator. */
  lemma DottedFirst(keys: seq<string>)
    requires keys != [] && forall i :: 0 <= i < |keys| ==> keys[i] != ""
    ensures JoinDotted(keys) != ""
    ensures NextKey(JoinDotted(keys), false) == Split(keys[0], JoinDotted(keys[1..]))
  {
    if |keys| == 1 {
      DottedLast(keys[0]);
    } else {
      JoinDottedStart(keys[1..]);
      DottedMore(keys[0], JoinDotted(keys[1..]));
    }
  }

  lemma KeysStep(s: string, pointer: bool, key: string, rest: string)
    requires s != "" && NextKey(s, pointer) == Split(key, rest)
    ensures Keys(s, pointer) == [key] + Keys(rest, pointer)
  {
  }

  /** Splitting the joined, escaped keys gives them back. */
  lemma {:induction false} DottedRoundTrip(keys: seq<string>)
    requires forall i :: 0 <= i < |keys| ==> keys[i] != ""
    ensures Keys(JoinDotted(keys), false) == keys
  {
    if keys != [] {
      DottedFirst(keys);
      KeysStep(JoinDotted(keys), false, keys[0], JoinDotted(keys[1..]));
      DottedRoundTrip(keys[1..]);
    }
  }

  // ---------- JSON pointers ----------

  /** Every `~` of a reference token is followed by `0` or `1`. */
  predicate ValidToken(s: string) {
    s == "" ||
    (s[0] != '/' &&
     if s[0] == '~' then |s| > 1 && (s[1] == '0' || s[1] == '1') && ValidToken(s[2..])
     else ValidToken(s[1..]))
  }

  /** Replaces every occurrence, left to right, of `~d` by c. */
  function Replace(s: string, d: char, c: char): string {
    if s == "" then ""
    else if s[0] == '~' && |s| > 1 && s[1] == d then [c] + Replace(s[2..], d, c)
    else [s[0]] + Replace(s[1..], d, c)
  }

  /** Section 4 of RFC 6901: first every `~1` becomes `/`, then every `~0` becomes `~`. */
  function RfcDecode(s: string): string {
    Replace(Replace(s, '1', '/'), '0', '~')
  }

  lemma ReplaceStep(c: char, tail: string, d: char, r: char)
    requires c != '~' || tail == "" || tail[0] != d
    ensures Replace([c] + tail, d, r) == [c] + Replace(tail, d, r)
  {
    assert ([c] + tail)[1..] == tail;
  }

  lemma ReplacePair(tail: string, d: char, r: char)
    ensures Replace("~" + [d] + tail, d, r) == [r] + Replace(tail, d, r)
  {
    var s := "~" + [d] + tail;
    assert s[2..] == tail && s[0] == '~' && s[1] == d && |s| > 1;
  }

  /** The two substitutions, one token character at a time. */
  lemma RfcDecodeStep(s: string)
    requires s != "" && ValidToken(s)
    ensures RfcDecode(s) ==
      if s[0] == '~' then [if s[1] == '1' then '/' else '~'] + RfcDecode(s[2..])
      else [s[0]] + RfcDecode(s[1..])
  {
    if s[0] == '~' {
      var tail := s[2..];
      var once := Replace(tail, '1', '/');
      if s[1] == '1' {
        assert s == "~" + ['1'] + tail;
        ReplacePair(tail, '1', '/');
        ReplaceStep('/', once, '0', '~');
      } else {
        assert s == ['~'] + (['0'] + tail);
        ReplaceStep('~', ['0'] + tail, '1', '/');
        ReplaceStep('0', tail, '1', '/');
        assert ['~'] + (['0'] + once) == "~" + ['0'] + once;
        ReplacePair(once, '0', '~');
      }
    } else {
      assert s == [s[0]] + s[1..];
      ReplaceStep(s[0], s[1..], '1', '/');
      ReplaceStep(s[0], Replace(s[1..], '1', '/'), '0', '~');
    }
  }

  lemma PointerKeyNone(rest: string)
    requires rest == "" || rest[0] == '/'
    ensures PointerKey(rest) == Split("", rest)
  {
  }

  lemma PointerKeyStep(c: char, tail: string)
    requires c != '/' && c != '~'
    ensures PointerKey([c] + tail) == Split([c] + PointerKey(tail).key, PointerKey(tail).rest)
  {
    assert ([c] + tail)[1..] == tail;
  }

  lemma PointerKeyPair(d: char, tail: string)
    requires d == '0' || d == '1'
    ensures PointerKey("~" + [d] + tail)
         == Split([if d == '1' then '/' else '~'] + PointerKey(tail).key, PointerKey(tail).rest)
  {
    var s := "~" + [d] + tail;
    assert s[2..] == tail && s[1] == d && s[0] == '~' && |s| > 1;
  }

  /** One-pass decoding, as getkey does it while it splits. */
  function OnePass(s: string): string
    requires ValidToken(s)
  {
    if s == "" then ""
    else if s[0] == '~' then [if s[1] == '1' then '/' else '~'] + OnePass(s[2..])
    else [s[0]] + OnePass(s[1..])
  }

  /** On valid tokens one pass decodes what the two substitutions decode. */
  lemma {:induction false} OnePassIsRfc(s: string)
    requires ValidToken(s)
    ensures OnePass(s) == RfcDecode(s)
    decreases |s|
  {
    if s != "" {
      RfcDecodeStep(s);
      OnePassIsRfc(if s[0] == '~' then s[2..] else s[1..]);
    }
  }

  lemma {:induction false} PointerKeyDecodes(s: string, rest: string)
    requires ValidToken(s)
    requires rest == "" || rest[0] == '/'
    ensures PointerKey(s + rest) == Split(OnePass(s), rest)
    decreases |s|
  {
    hide PointerKey;
    if s == "" {
      assert s + rest == rest;
      PointerKeyNone(rest);
    } else if s[0] == '~' {
      PointerKeyDecodes(s[2..], rest);
      assert s + rest == "~" + [s[1]] + (s[2..] + rest);
      PointerKeyPair(s[1], s[2..] + rest);
    } else {
      PointerKeyDecodes(s[1..], rest);
      assert s + rest == [s[0]] + (s[1..] + rest);
      PointerKeyStep(s[0], s[1..] + rest);
    }
  }

  function JoinPointer(tokens: seq<string>): string {
    if tokens == [] then ""
    else if |tokens| == 1 then tokens[0]
    else tokens[0] + "/" + JoinPointer(tokens[1..])
  }

  function RfcDecodeAll(tokens: seq<string>): seq<string> {
    if tokens == [] then [] else [RfcDecode(tokens[0])] + RfcDecodeAll(tokens[1..])
  }

  predicate ValidTokens(tokens: seq<string>) {
    forall i :: 0 <= i < |tokens| ==> tokens[i] != "" && ValidToken(tokens[i])
  }

  lemma {:induction false} JoinPointerStart(tokens: seq<string>)
    requires tokens != [] && ValidTokens(tokens)
    ensures JoinPointer(tokens) != "" && JoinPointer(tokens)[0] != '/'
  {
  }

  lemma PointerLast(token: string)
    requires token != "" && ValidToken(token)
    ensures NextKey(token, true) == Split(RfcDecode(token), "")
  {
    PointerKeyDecodes(token, "");
    OnePassIsRfc(token);
    assert token + "" == token;
  }

  lemma PointerMore(token: string, tail: string)
    requires token != "" && ValidToken(token) && tail != "" && tail[0] != '/'
    ensures NextKey(token + "/" + tail, true) == Split(RfcDecode(token), tail)
  {
    hide PointerKey, SkipAll, RfcDecode, OnePass;
    PointerKeyDecodes(token, ['/'] + tail);
    OnePassIsRfc(token);
    assert token + "/" + tail == token + (['/'] + tail);
    SkipSeparator('/', tail);
  }

  lemma PointerFirst(tokens: seq<string>)
    requires tokens != [] && ValidTokens(tokens)
    ensures JoinPointer(tokens) != ""
    ensures NextKey(JoinPointer(tokens), true) == Split(RfcDecode(tokens[0]), JoinPointer(tokens[1..]))
  {
    if |tokens| == 1 {
      PointerLast(tokens[0]);
    } else {
      JoinPointerStart(tokens[1..]);
      PointerMore(tokens[0], JoinPointer(tokens[1..]));
    }
  }

  /** Following a pointer visits the decoded reference tokens in order. */
  lemma {:induction false} PointerRoundTrip(tokens: seq<string>)
    requires ValidTokens(tokens)
    ensures Keys(JoinPointer(tokens), true) == RfcDecodeAll(tokens)
  {
    if tokens != [] {
      PointerFirst(tokens);
      KeysStep(JoinPointer(tokens), true, RfcDecode(tokens[0]), JoinPointer(tokens[1..]));
      PointerRoundTrip(tokens[1..]);
    }
  }

  /** Encoding a key as a reference token: `~` becomes `~0` and `/` becomes `~1`. */
  function RfcEncode(key: string): string {
    if key == "" then ""
    else (if key[0] == '~' then "~0" else if key[0] == '/' then "~1" else [key[0]]) + RfcEncode(key[1..])
  }

  /** Encoded keys are valid tokens that decode to the key. */
  lemma {:induction false} RfcEncodeRoundTrip(key: string)
    ensures ValidToken(RfcEncode(key)) && RfcDecode(RfcEncode(key)) == key
  {
    if key != "" {
      RfcEncodeRoundTrip(key[1..]);
      var tail := RfcEncode(key[1..]);
      var e := RfcEncode(key);
      assert key == [key[0]] + key[1..];
      if key[0] == '~' || key[0] == '/' {
        assert e[2..] == tail && e[0] == '~';
      } else {
        assert e[1..] == tail && e[0] == key[0];
      }
      RfcDecodeStep(e);
    }
  }

  function EncodeAll(keys: seq<string>): seq<string> {
    if keys == [] then [] else [RfcEncode(keys[0])] + EncodeAll(keys[1..])
  }

  /** A pointer to any path of non-empty keys, encoded as RFC 6901 says, selects along
      exactly those keys. */
  lemma {:induction false} EncodedPointerRoundTrip(keys: seq<string>)
    requires forall i :: 0 <= i < |keys| ==> keys[i] != ""
    ensures ValidTokens(EncodeAll(keys)) && Keys(JoinPointer(EncodeAll(keys)), true) == keys
  {
    EncodedTokens(keys);
    PointerRoundTrip(EncodeAll(keys));
  }

  lemma {:induction false} EncodedTokens(keys: seq<string>)
    requires forall i :: 0 <= i < |keys| ==> keys[i] != ""
    ensures ValidTokens(EncodeAll(keys)) && RfcDecodeAll(EncodeAll(keys)) == keys
  {
    if keys != [] {
      EncodedTokens(keys[1..]);
      RfcEncodeRoundTrip(keys[0]);
      assert EncodeAll(keys)[1..] == EncodeAll(keys[1..]);
    }
  }
}
