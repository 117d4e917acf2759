/** What a name selects, said in terms of the data: the value at the end of a path through the
    members, found from the innermost level that has the first key, and kept or dropped by the
    comparison written behind it. */
module SelectionLaws {
  import opened Options
  import opened JsonValues
  import opened Selection
  import opened KeyPaths

  // ---------- members and levels ----------

  /** The value of the first member with the key. */
  ghost predicate FirstWith(ms: seq<Member>, key: string, v: Json) {
    exists i :: 0 <= i < |ms| && ms[i] == Member(key, v) && forall k :: 0 <= k < i ==> ms[k].key != key
  }

  lemma {:induction false} MemberExactly(ms: seq<Member>, key: string)
    ensures forall v :: GetMember(ms, key) == Some(v) <==> FirstWith(ms, key, v)
    ensures GetMember(ms, key).None? <==> forall i :: 0 <= i < |ms| ==> ms[i].key != key
  {
    if ms != [] {
      var rest := ms[1..];
      MemberExactly(rest, key);
      assert forall i :: 0 <= i < |rest| ==> rest[i] == ms[i + 1];
      if ms[0].key == key {
        assert FirstWith(ms, key, ms[0].value);
      } else {
        forall v ensures FirstWith(ms, key, v) <==> FirstWith(rest, key, v) {
          LaterMember(ms, key, v);
        }
      }
    }
  }

  lemma LaterMember(ms: seq<Member>, key: string, v: Json)
    requires ms != [] && ms[0].key != key
    ensures FirstWith(ms, key, v) <==> FirstWith(ms[1..], key, v)
  {
    var rest := ms[1..];
    assert forall i :: 0 <= i < |rest| ==> rest[i] == ms[i + 1];
    if FirstWith(ms, key, v) {
      var i :| 0 <= i < |ms| && ms[i] == Member(key, v) && forall k :: 0 <= k < i ==> ms[k].key != key;
      assert rest[i - 1] == Member(key, v);
    }
    if FirstWith(rest, key, v) {
      var i :| 0 <= i < |rest| && rest[i] == Member(key, v) && forall k :: 0 <= k < i ==> rest[k].key != key;
      assert ms[i + 1] == Member(key, v);
      forall k | 0 <= k < i + 1 ensures ms[k].key != key {
        if k > 0 {
          assert ms[k] == rest[k - 1];
        }
      }
    }
  }

  /** The value has a member with the key, and this is its value. */
  ghost predicate Has(j: Json, key: string, v: Json) {
    j.Object? && FirstWith(j.members, key, v)
  }

  lemma GetExactly(j: Json, key: string)
    ensures forall v :: Get(j, key) == Some(v) <==> Has(j, key, v)
    ensures Get(j, key).None? <==> forall v :: !Has(j, key, v)
  {
    if j.Object? {
      MemberExactly(j.members, key);
      assert Get(j, key).Some? ==> Has(j, key, Get(j, key).value);
    }
  }

  /** The innermost level with the key is this one. */
  ghost predicate Innermost(views: seq<View>, key: string, i: nat, v: Json) {
    && i < |views| && Has(views[i].obj, key, v)
    && forall k, u :: i < k < |views| ==> !Has(views[k].obj, key, u)
  }

  lemma {:induction false} LookUpExactly(views: seq<View>, key: string)
    ensures forall v :: LookUp(views, key) == Some(v) <==> exists i: nat :: Innermost(views, key, i, v)
    ensures LookUp(views, key).None? <==> forall i, v :: 0 <= i < |views| ==> !Has(views[i].obj, key, v)
  {
    if views != [] {
      var top, below := views[|views| - 1], views[..|views| - 1];
      GetExactly(top.obj, key);
      LookUpExactly(below, key);
      hide Get, Has;
      if Get(top.obj, key).Some? {
        var v := Get(top.obj, key).value;
        assert Innermost(views, key, |views| - 1, v);
        forall i: nat, u | Innermost(views, key, i, u) ensures u == v {
          assert i == |views| - 1;
        }
      } else {
        forall i: nat, v ensures Innermost(views, key, i, v) <==> Innermost(below, key, i, v) {
          if i < |below| {
            assert views[i] == below[i];
          }
        }
      }
    }
  }

  // ---------- paths ----------

  /** From one value to another through the members with these keys. */
  ghost predicate Leads(j: Json, keys: seq<string>, v: Json)
    decreases |keys|
  {
    if keys == [] then v == j else exists next :: Has(j, keys[0], next) && Leads(next, keys[1..], v)
  }

  function Init(keys: seq<string>): seq<string>
    requires keys != []
  {
    keys[..|keys| - 1]
  }

  /** A path with a star at its end, to a value that has no member of that name. */
  ghost predicate StarAt(j: Json, keys: seq<string>, v: Json) {
    && keys != [] && keys[|keys| - 1] == "*" && Leads(j, Init(keys), v)
    && forall u :: !Has(v, "*", u)
  }

  lemma HasOnce(j: Json, key: string, u: Json, v: Json)
    requires Has(j, key, u) && Has(j, key, v)
    ensures u == v
  {
    GetExactly(j, key);
  }

  /** A path ends at a value if members with its keys lead there; it iterates the members of
      the last object if only a star is left and it has no member of that name; otherwise it
      selects nothing. */
  lemma {:induction false} DescendExactly(j: Json, keys: seq<string>, iterable: bool)
    ensures forall v :: Descend(j, keys, iterable) == Value(v) <==> Leads(j, keys, v)
    ensures forall v :: Descend(j, keys, iterable) == Members(v) <==> iterable && StarAt(j, keys, v)
    ensures !Descend(j, keys, iterable).ValueOrMembers?
    decreases |keys|
  {
    if keys == [] {
    } else {
      GetExactly(j, keys[0]);
      if Get(j, keys[0]).Some? {
        var next := Get(j, keys[0]).value;
        DescendExactly(next, keys[1..], iterable);
        hide Get, Has;
        forall v ensures Leads(j, keys, v) <==> Leads(next, keys[1..], v) {
        }
        DescendStar(j, keys, next);
      } else {
        hide Get, Has;
        DescendNone(j, keys);
      }
    }
  }

  lemma DescendStar(j: Json, keys: seq<string>, next: Json)
    requires keys != [] && Has(j, keys[0], next)
    ensures forall v :: StarAt(j, keys, v) <==> StarAt(next, keys[1..], v)
  {
    if |keys| > 1 {
      assert Init(keys)[1..] == Init(keys[1..]);
      forall v ensures Leads(j, Init(keys), v) <==> Leads(next, Init(keys)[1..], v) {
        if Leads(j, Init(keys), v) {
          var n :| Has(j, keys[0], n) && Leads(n, Init(keys)[1..], v);
          HasOnce(j, keys[0], n, next);
        }
      }
    } else {
      assert Init(keys) == [];
    }
  }

  lemma DescendNone(j: Json, keys: seq<string>)
    requires keys != [] && forall v :: !Has(j, keys[0], v)
    ensures forall v :: !Leads(j, keys, v)
    ensures forall v :: StarAt(j, keys, v) <==> keys == ["*"] && v == j
  {
    hide Has;
    if |keys| > 1 {
      assert Init(keys)[0] == keys[0];
    } else {
      assert keys == [keys[0]] && Init(keys) == [];
    }
  }

  // ---------- comparisons in writing ----------

  /** What a comparison is written with. */
  function Operator(c: Comp): string {
    match c
    case NoComp => ""
    case Eq => "="
    case Lt => "<"
    case Le => "<="
    case Gt => ">"
    case Ge => ">="
  }

  /** The characters a comparison can start with under the flags. */
  predicate Compares(c: char, flags: Flags) {
    (c == '=' && (flags.equal || flags.compare)) || ((c == '<' || c == '>') && flags.compare)
  }

  /** The comparison can be written: with `=` alone only the first. */
  predicate Allowed(c: Comp, flags: Flags) {
    match c
    case NoComp => false
    case Eq => flags.equal || flags.compare
    case _ => flags.compare
  }

  function HidingChar(pointer: bool): char {
    if pointer then '~' else '\\'
  }

  /** A path written so that nothing in it reads as a comparison. */
  function Hidden(path: string, flags: Flags, pointer: bool): string {
    if path == "" then ""
    else
      (if Compares(path[0], flags) then [HidingChar(pointer), path[0]] else [path[0]])
      + Hidden(path[1..], flags, pointer)
  }

  lemma GetCompFirst(s: string, flags: Flags)
    ensures GetComp(s, flags) == NoComp <==> s == "" || !Compares(s[0], flags)
  {
  }

  /** The operator is read in front of a value that does not lengthen it. */
  lemma OperatorRead(c: Comp, value: string, flags: Flags)
    requires Allowed(c, flags) && (c == Lt || c == Gt ==> value == "" || value[0] != '=')
    ensures var s := Operator(c) + value;
      s != "" && GetComp(s, flags) == c && s[CompLength(c)..] == value
  {
    var s := Operator(c) + value;
    assert s[|Operator(c)|..] == value;
    if value != "" {
      assert s[|Operator(c)|] == value[0];
    }
  }

  lemma KeyValPlain(c: char, s: string, flags: Flags, pointer: bool)
    requires !Compares(c, flags)
    requires c == HidingChar(pointer) ==> s == "" || !Compares(s[0], flags)
    ensures var r := KeyVal(s, flags, pointer, false);
      KeyVal([c] + s, flags, pointer, false) == Compared([c] + r.path, r.comp, r.value)
  {
    hide GetComp;
    assert ([c] + s)[1..] == s;
    GetCompFirst([c] + s, flags);
    GetCompFirst(s, flags);
  }

  lemma KeyValHidden(c: char, s: string, flags: Flags, pointer: bool)
    requires Compares(c, flags)
    ensures var r := KeyVal(s, flags, pointer, false);
      KeyVal([HidingChar(pointer), c] + s, flags, pointer, false) == Compared([c] + r.path, r.comp, r.value)
  {
    hide GetComp;
    var h := HidingChar(pointer);
    var t := [h, c] + s;
    assert t[1..] == [c] + s && ([c] + s)[1..] == s;
    GetCompFirst(t, flags);
    GetCompFirst([c] + s, flags);
    assert HidesComp(t, flags, pointer);
    HiddenTaken(c, s, flags, pointer);
    assert "" + ([c] + KeyVal(s, flags, pointer, false).path) == [c] + KeyVal(s, flags, pointer, false).path;
  }

  lemma HiddenTaken(c: char, s: string, flags: Flags, pointer: bool)
    ensures var r := KeyVal(s, flags, pointer, false);
      KeyVal([c] + s, flags, pointer, true) == Compared([c] + r.path, r.comp, r.value)
  {
    assert ([c] + s)[1..] == s;
  }

  /** A hidden path is read up to what follows it. */
  lemma {:induction false} PathRead(path: string, rest: string, flags: Flags, pointer: bool)
    requires path != "" && path[|path| - 1] == HidingChar(pointer) ==> rest == ""
    requires rest == "" || Compares(rest[0], flags)
    ensures var r := KeyVal(rest, flags, pointer, false);
      KeyVal(Hidden(path, flags, pointer) + rest, flags, pointer, false) == Compared(path + r.path, r.comp, r.value)
  {
    hide KeyVal, Compares;
    if path == "" {
      assert Hidden(path, flags, pointer) + rest == rest;
      assert path + KeyVal(rest, flags, pointer, false).path == KeyVal(rest, flags, pointer, false).path;
    } else {
      var c, tail := path[0], Hidden(path[1..], flags, pointer) + rest;
      assert path == [c] + path[1..];
      PathRead(path[1..], rest, flags, pointer);
      var r := KeyVal(rest, flags, pointer, false);
      assert [c] + (path[1..] + r.path) == path + r.path;
      if Compares(c, flags) {
        assert Hidden(path, flags, pointer) + rest == [HidingChar(pointer), c] + tail;
        KeyValHidden(c, tail, flags, pointer);
      } else {
        assert Hidden(path, flags, pointer) + rest == [c] + tail;
        if c == HidingChar(pointer) {
          TailFirst(path, rest, flags, pointer);
        }
        KeyValPlain(c, tail, flags, pointer);
      }
    }
  }

  /** Behind a hiding character of the path no comparison starts. */
  lemma TailFirst(path: string, rest: string, flags: Flags, pointer: bool)
    requires path != "" && (path[|path| - 1] == HidingChar(pointer) ==> rest == "")
    requires path[0] == HidingChar(pointer)
    ensures var tail := Hidden(path[1..], flags, pointer) + rest; tail == "" || !Compares(tail[0], flags)
  {
  }

  /** A hidden path with an operator and a value is read as these, and without as the path. */
  lemma ComparisonRead(path: string, c: Comp, value: string, flags: Flags, pointer: bool)
    requires path != "" && path[|path| - 1] != HidingChar(pointer)
    requires Allowed(c, flags) && (c == Lt || c == Gt ==> value == "" || value[0] != '=')
    ensures Comparison(Hidden(path, flags, pointer) + Operator(c) + value, flags, pointer) == Compared(path, c, value)
  {
    hide KeyVal;
    var rest := Operator(c) + value;
    var name := Hidden(path, flags, pointer) + rest;
    assert name == Hidden(path, flags, pointer) + Operator(c) + value;
    OperatorRead(c, value, flags);
    GetCompFirst(rest, flags);
    OperatorEnds(c, value, flags, pointer);
    PathRead(path, rest, flags, pointer);
    GetCompFirst(name, flags);
    assert path + "" == path;
  }

  lemma OperatorEnds(c: Comp, value: string, flags: Flags, pointer: bool)
    requires GetComp(Operator(c) + value, flags) == c != NoComp && (Operator(c) + value)[CompLength(c)..] == value
    ensures KeyVal(Operator(c) + value, flags, pointer, false) == Compared("", c, value)
  {
  }

  lemma {:induction false} NothingHidden(path: string, flags: Flags, pointer: bool)
    requires !flags.equal && !flags.compare
    ensures Hidden(path, flags, pointer) == path
  {
    if path != "" {
      NothingHidden(path[1..], flags, pointer);
    }
  }

  lemma PlainRead(path: string, flags: Flags, pointer: bool)
    ensures Comparison(Hidden(path, flags, pointer), flags, pointer) == Compared(path, NoComp, "")
  {
    var name := Hidden(path, flags, pointer);
    if flags.equal || flags.compare {
      PathRead(path, "", flags, pointer);
      GetCompFirst(name, flags);
      assert name + "" == name && path + "" == path;
    } else {
      NothingHidden(path, flags, pointer);
    }
  }

  // ---------- names ----------

  /** The path to these keys: dotted, or an RFC 6901 pointer without its first slash. */
  function Path(keys: seq<string>, pointer: bool): string {
    if pointer then JoinPointer(EncodeAll(keys)) else JoinDotted(keys)
  }

  /** The path can be written, with the comparison behind it. */
  predicate Writable(flags: Flags, pointer: bool, path: string, c: Comp, value: string) {
    && (if pointer then flags.jsonPointer else !(flags.jsonPointer && path != "" && path[0] == '/'))
    && if c == NoComp then value == ""
       else
         && path != "" && path[|path| - 1] != HidingChar(pointer) && Allowed(c, flags)
         && (c == Lt || c == Gt ==> value == "" || value[0] != '=')
  }

  function NameOf(flags: Flags, pointer: bool, path: string, c: Comp, value: string): string {
    (if pointer then "/" else "") + (Hidden(path, flags, pointer) + Operator(c) + value)
  }

  /** What a comparison with the outcome of compare means. */
  predicate Holds(c: Comp, order: int) {
    match c
    case NoComp => true
    case Eq => order == 0
    case Lt => order < 0
    case Le => order <= 0
    case Gt => order > 0
    case Ge => order >= 0
  }

  /** The value passes the comparison; an exclamation mark turns it round. */
  predicate Passes(env: Env, v: Json, c: Comp, value: string) {
    c == NoComp ||
    if value != "" && value[0] == '!' then !Holds(c, env.compare(v, value[1..])) else Holds(c, env.compare(v, value))
  }

  lemma NameRead(flags: Flags, pointer: bool, path: string, c: Comp, value: string)
    requires Writable(flags, pointer, path, c, value)
    ensures var name := NameOf(flags, pointer, path, c, value);
      && (flags.jsonPointer && name != "" && name[0] == '/' <==> pointer)
      && Comparison(if pointer then name[1..] else name, flags, pointer) == Compared(path, c, value)
  {
    hide Comparison;
    var body := Hidden(path, flags, pointer) + Operator(c) + value;
    var name := NameOf(flags, pointer, path, c, value);
    assert pointer ==> name[1..] == body;
    assert "" + body == body;
    if c == NoComp {
      assert body == Hidden(path, flags, pointer);
      PlainRead(path, flags, pointer);
    } else {
      ComparisonRead(path, c, value, flags, pointer);
    }
    if !pointer && name != "" {
      NameStart(flags, path, c, value);
    }
  }

  lemma NameStart(flags: Flags, path: string, c: Comp, value: string)
    requires Writable(flags, false, path, c, value)
    ensures var body := Hidden(path, flags, false) + Operator(c) + value;
      flags.jsonPointer && body != "" ==> body[0] != '/'
  {
  }

  /** A name selects what its path selects, if that is no value or passes the comparison. */
  lemma NameSelects(env: Env, views: seq<View>, pointer: bool, path: string, c: Comp, value: string)
    requires views != [] && Writable(env.flags, pointer, path, c, value)
    ensures var r := SelectPath(views, path, pointer, c == NoComp && env.flags.objectIter);
      Select(env, views, NameOf(env.flags, pointer, path, c, value)) ==
        if r.Value? && !Passes(env, r.json, c, value) then Nothing else r
  {
    hide Comparison, SelectPath, NameOf, Writable;
    NameRead(env.flags, pointer, path, c, value);
  }

  // ---------- what is selected ----------

  /** The value at the end of the keys, the first of them looked up through the levels. */
  ghost predicate Found(views: seq<View>, keys: seq<string>, v: Json)
    requires keys != []
  {
    exists i: nat, root :: Innermost(views, keys[0], i, root) && Leads(root, keys[1..], v)
  }

  ghost predicate FoundStar(views: seq<View>, keys: seq<string>, v: Json)
    requires keys != []
  {
    exists i: nat, root :: Innermost(views, keys[0], i, root) && StarAt(root, keys[1..], v)
  }

  ghost predicate Nowhere(views: seq<View>, key: string) {
    forall i, v :: 0 <= i < |views| ==> !Has(views[i].obj, key, v)
  }

  lemma PathSelects(views: seq<View>, path: string, pointer: bool, keys: seq<string>, iterable: bool)
    requires views != [] && path != "." && Keys(path, pointer) == keys != []
    ensures var r := SelectPath(views, path, pointer, iterable);
      && (forall v :: r == Value(v) <==> Found(views, keys, v))
      && (forall v :: r == Members(v) <==> iterable && FoundStar(views, keys, v))
      && (forall v :: r == ValueOrMembers(v) <==>
            iterable && keys == ["*"] && Nowhere(views, "*") && v == views[|views| - 1].obj)
  {
    LookUpExactly(views, keys[0]);
    var found := LookUp(views, keys[0]);
    if found.Some? {
      var root := found.value;
      DescendExactly(root, keys[1..], iterable);
      hide Descend, LookUp, Has, Leads, StarAt;
      forall v ensures Found(views, keys, v) <==> Leads(root, keys[1..], v) {
        FoundFrom(views, keys, root, v);
      }
      forall v ensures FoundStar(views, keys, v) <==> StarAt(root, keys[1..], v) {
        FoundFrom(views, keys, root, v);
      }
      assert !Nowhere(views, keys[0]);
    } else {
      hide Descend, LookUp, Has, Leads, StarAt;
      assert Nowhere(views, keys[0]);
      assert forall v :: !Found(views, keys, v) && !FoundStar(views, keys, v);
    }
  }

  lemma FoundFrom(views: seq<View>, keys: seq<string>, root: Json, v: Json)
    requires keys != [] && LookUp(views, keys[0]) == Some(root)
    ensures Found(views, keys, v) <==> Leads(root, keys[1..], v)
    ensures FoundStar(views, keys, v) <==> StarAt(root, keys[1..], v)
  {
    LookUpExactly(views, keys[0]);
    hide LookUp, Has, Leads, StarAt;
    var i: nat :| Innermost(views, keys[0], i, root);
  }

  lemma PathKeys(keys: seq<string>, pointer: bool)
    requires keys != [] && forall i :: 0 <= i < |keys| ==> keys[i] != ""
    ensures Keys(Path(keys, pointer), pointer) == keys
    ensures !pointer ==> Path(keys, pointer) != "."
  {
    if pointer {
      EncodedPointerRoundTrip(keys);
    } else {
      DottedRoundTrip(keys);
      JoinDottedStart(keys);
    }
  }

  /** A name for any keys, dotted or as a pointer, with or without a comparison: it selects the
      value that the keys lead to from the innermost level with the first key, if it passes the
      comparison. Without a comparison a last star stands for the members of an object, if
      nothing has that name. Everything else selects nothing. */
  lemma SelectsExactly(env: Env, views: seq<View>, keys: seq<string>, pointer: bool, c: Comp, value: string)
    requires views != [] && keys != [] && forall i :: 0 <= i < |keys| ==> keys[i] != ""
    requires Writable(env.flags, pointer, Path(keys, pointer), c, value) && Path(keys, pointer) != "."
    ensures var r := Select(env, views, NameOf(env.flags, pointer, Path(keys, pointer), c, value));
      var iterable := c == NoComp && env.flags.objectIter;
      && (forall v :: r == Value(v) <==> Found(views, keys, v) && Passes(env, v, c, value))
      && (forall v :: r == Members(v) <==> iterable && FoundStar(views, keys, v))
      && (forall v :: r == ValueOrMembers(v) <==>
            iterable && keys == ["*"] && Nowhere(views, "*") && v == views[|views| - 1].obj)
  {
    hide Select, SelectPath, NameOf, Path, Writable, Found, FoundStar, Nowhere, Passes;
    PathKeys(keys, pointer);
    PathSelects(views, Path(keys, pointer), pointer, keys, c == NoComp && env.flags.objectIter);
    NameSelects(env, views, pointer, Path(keys, pointer), c, value);
  }

  /** A dot alone selects the current object; so does the pointer to the key `.`, which the
      code takes for a dot alone. */
  lemma SelectsCurrent(env: Env, views: seq<View>, pointer: bool, c: Comp, value: string)
    requires views != [] && Writable(env.flags, pointer, ".", c, value)
    ensures var here := views[|views| - 1].obj;
      Select(env, views, NameOf(env.flags, pointer, ".", c, value)) ==
        if Passes(env, here, c, value) then Value(here) else Nothing
    ensures Path(["."], true) == "."
  {
    hide Select, NameOf, Writable, Passes;
    NameSelects(env, views, pointer, ".", c, value);
    assert RfcEncode(".") == "." by {
      assert "."[1..] == "";
      assert RfcEncode("") == "";
    }
    assert EncodeAll(["."]) == ["."];
  }

  /** What a variable with such a name puts out, before escaping: a text as it is, nothing for
      null and for what is not found, and what is printed of any other value. A lone star gives
      the key of the member that is being walked through. */
  lemma TextExactly(env: Env, views: seq<View>, keys: seq<string>, pointer: bool, v: Json)
    requires views != [] && keys != [] && forall i :: 0 <= i < |keys| ==> keys[i] != ""
    requires Writable(env.flags, pointer, Path(keys, pointer), NoComp, "") && Path(keys, pointer) != "."
    ensures var text := TextOf(env, views, NameOf(env.flags, pointer, Path(keys, pointer), NoComp, ""));
      && (Found(views, keys, v) ==> text == (if v.Text? then v.chars else if v.Null? then "" else env.dump(v)))
      && ((forall u :: !Found(views, keys, u)) ==>
            text == if env.flags.objectIter && keys == ["*"] && Nowhere(views, "*") then views[|views| - 1].key else "")
  {
    hide Select, NameOf, Path, Writable, Found, FoundStar, Nowhere;
    SelectsExactly(env, views, keys, pointer, NoComp, "");
    var r := Select(env, views, NameOf(env.flags, pointer, Path(keys, pointer), NoComp, ""));
    if Found(views, keys, v) {
      assert r == Value(v);
    } else if env.flags.objectIter && keys == ["*"] && Nowhere(views, "*") {
      assert r == ValueOrMembers(views[|views| - 1].obj);
    }
  }

  /** Nothing, false, null and an empty array keep a section closed; an array is walked through
      from its first item, and any other value is entered once. */
  lemma ItemsExactly(j: Json)
    ensures Items(Value(j)) == [] <==> j == False || j == Null || j == Array([])
    ensures j.Array? ==> |Items(Value(j))| == |j.items|
    ensures j.Array? ==> forall i :: 0 <= i < |j.items| ==> Items(Value(j))[i].obj == j.items[i]
    ensures !j.Array? && Items(Value(j)) != [] ==> |Items(Value(j))| == 1 && Items(Value(j))[0].obj == j
    ensures j.Object? ==> |Items(Members(j))| == |j.members|
    ensures j.Object? ==> forall i :: 0 <= i < |j.members| ==> Items(Members(j))[i].obj == j.members[i].value
    ensures j.Object? ==> forall i :: 0 <= i < |j.members| ==> Items(Members(j))[i].key == j.members[i].key
    ensures Items(Nothing) == [] && Items(ValueOrMembers(j)) == Items(Members(j))
  {
  }
}
