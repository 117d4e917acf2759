/** The callbacks of the engine over a JSON context (mustach-wrap.c): each one does, on
    the mutable context and a scratch buffer, what the selection rules say. */
module Wrapper {
  import opened Options
  import opened JsonValues
  import opened Selection
  import opened Engine
  import opened KeyBuffer
  import opened JsonContext
  import opened Escaping

  /** enum sel */
  datatype Kind = SNone | SOk | SObjIter | SOkOrObjIter

  function Chosen(k: Kind, j: Json): Selected {
    match k
    case SNone => Nothing
    case SOk => Value(j)
    case SObjIter => Members(j)
    case SOkOrObjIter => ValueOrMembers(j)
  }

  lemma HoldsAt(s: seq<char>, p: nat, k: string, i: nat)
    requires Holds(s, p, k) && p <= i <= p + |k|
    ensures s[i] == NUL <==> i == p + |k|
    ensures i < p + |k| ==> s[i] == k[i - p]
  {
  }

  /** The C string at p. */
  method ReadString(buf: array<char>, p: nat, ghost k: string) returns (s: string)
    requires Holds(buf[..], p, k)
    ensures s == k
  {
    s := "";
    var i := p;
    HoldsAt(buf[..], p, k, i);
    while buf[i] != NUL
      invariant p <= i <= p + |k| < buf.Length && s == k[..i - p]
      invariant buf[i] == NUL <==> i == p + |k|
      decreases p + |k| - i
    {
      HoldsAt(buf[..], p, k, i);
      s := s + [buf[i]];
      i := i + 1;
      HoldsAt(buf[..], p, k, i);
    }
  }

  lemma HoldsTerminated(s: seq<char>, p: nat, k: string)
    requires Holds(s, p, k)
    ensures Terminated(s, p, p + |k|)
  {
    assert forall i :: p <= i < p + |k| ==> s[i] == s[p..p + |k|][i - p];
  }

  /** What lies behind the path stays in place while the path is split. */
  lemma TailKept(was: seq<char>, now: seq<char>, z: nat, value: nat, n: nat)
    requires |was| == |now| && z <= value && z <= |was| && was[z..] == now[z..] && Terminated(was, value, n)
    ensures Terminated(now, value, n) && now[value..n] == was[value..n]
  {
    assert forall i :: z <= i < |was| ==> now[i] == now[z..][i - z] == was[z..][i - z] == was[i];
  }

  method IsDot(buf: array<char>, head: nat, ghost z: nat) returns (b: bool)
    requires Terminated(buf[..], head, z)
    ensures b <==> buf[head..z] == "."
  {
    assert buf[..][head] == buf[head] && buf[..][z] == buf[z];
    b := buf[head] == '.' && buf[head + 1] == NUL;
    if b {
      assert buf[..][head + 1] == NUL;
    }
  }

  lemma TailHolds(s: seq<char>, p: nat, z: nat)
    requires Terminated(s, p, z)
    ensures Holds(s, p, s[p..z])
  {
  }

  /** The selection of a path that has been cut off in the buffer at head..z. */
  method SelectKeys(e: Context, buf: array<char>, head: nat, pointer: bool, iterable: bool, ghost z: nat)
    returns (k: Kind)
    requires e.Valid() && Terminated(buf[..], head, z) && buf[head..z] != "."
    modifies e`selection, buf
    ensures e.Valid() && e.Levels() == old(e.Levels())
    ensures Chosen(k, e.selection) == SelectPath(Views(e.Levels()), old(buf[head..z]), pointer, iterable)
    ensures buf[z..] == old(buf[z..])
  {
    hide DottedKey, PointerKey, SkipAll, NextKey, LookUp, Get, Context.Valid, Context.Levels, KeyOf;
    ghost var path := buf[head..z];
    var found, rest := GetKey(buf, head, pointer, z);
    if !found {
      return SNone;
    }
    var key := ReadString(buf, head, NextKey(path, pointer).key);
    ghost var keys := Keys(path, pointer);
    assert keys[1..] == Keys(NextKey(path, pointer).rest, pointer);
    var last := AtEnd(buf, rest, z);
    var r := e.Sel(Some(key));
    if !r {
      if key == "*" && last && iterable {
        assert keys == ["*"];
        r := e.Sel(None);
        return SOkOrObjIter;
      }
      assert keys == ["*"] ==> last;
      return SNone;
    }
    k := DescendKeys(e, buf, rest, pointer, iterable, z);
  }

  /** Whether the path is used up. */
  method AtEnd(buf: array<char>, rest: nat, ghost z: nat) returns (b: bool)
    requires Terminated(buf[..], rest, z)
    ensures b <==> buf[rest..z] == ""
  {
    assert buf[..][rest] == buf[rest] && buf[..][z] == buf[z];
    b := buf[rest] == NUL;
  }

  method DescendKeys(e: Context, buf: array<char>, from: nat, pointer: bool, iterable: bool, ghost z: nat)
    returns (k: Kind)
    requires e.Valid() && Terminated(buf[..], from, z)
    modifies e`selection, buf
    ensures e.Valid() && e.Levels() == old(e.Levels())
    ensures var d := Descend(old(e.selection), Keys(old(buf[from..z]), pointer), iterable);
      Chosen(k, e.selection) == d
    ensures buf[z..] == old(buf[z..])
  {
    hide DottedKey, PointerKey, SkipAll, NextKey, LookUp, Get, Context.Valid, Context.Levels, KeyOf;
    ghost var goal := Descend(e.selection, Keys(buf[from..z], pointer), iterable);
    var rest := from;
    k := SOk;
    while true
      invariant from <= rest <= z && Terminated(buf[..], rest, z)
      invariant e.Valid() && e.Levels() == old(e.Levels())
      invariant Descend(e.selection, Keys(buf[rest..z], pointer), iterable) == goal
      invariant buf[z..] == old(buf[z..])
      decreases z - rest
    {
      ghost var path := buf[rest..z];
      var head := rest;
      var found;
      found, rest := GetKey(buf, head, pointer, z);
      if !found {
        return SOk;
      }
      var key := ReadString(buf, head, NextKey(path, pointer).key);
      ghost var keys := Keys(path, pointer);
      assert keys[1..] == Keys(NextKey(path, pointer).rest, pointer);
      var last := AtEnd(buf, rest, z);
      var r := e.Subsel(key);
      if !r {
        if key == "*" && last && iterable {
          assert keys == ["*"];
          return SObjIter;
        }
        assert keys == ["*"] ==> last;
        return SNone;
      }
    }
  }

  /** Whether the comparison rejects the selection. */
  method Compares(e: Context, env: Env, comp: Comp, text: string) returns (rejected: bool)
    requires comp != NoComp
    ensures rejected == Rejects(env, e.selection, comp, text)
  {
    var i := text != "" && text[0] == '!';
    var scmp := env.compare(e.selection, if i then text[1..] else text);
    var j := match comp
             case Eq => scmp == 0
             case Lt => scmp < 0
             case Le => scmp <= 0
             case Gt => scmp > 0
             case Ge => scmp >= 0
             case NoComp => i;
    rejected := i == j;
  }

  /** Copies the name into the buffer and cuts it at its comparator. */
  method CutName(env: Env, name: string)
    returns (buf: array<char>, pointer: bool, head: nat, comp: Comp, value: nat, ghost z: nat)
    requires NUL !in name
    ensures fresh(buf) && buf.Length == |name| + 1
    ensures pointer == (env.flags.jsonPointer && name != "" && name[0] == '/')
    ensures var c := Comparison(if pointer then name[1..] else name, env.flags, pointer);
      && comp == c.comp && Terminated(buf[..], head, z) && buf[head..z] == c.path
      && (comp != NoComp ==> z <= value && Terminated(buf[..], value, |name|) && buf[value..|name|] == c.value)
  {
    var n := |name|;
    buf := new char[n + 1](i requires 0 <= i <= n => if i < n then name[i] else NUL);
    assert buf[..n] == name;
    assert n == 0 ==> buf[0] == NUL;
    pointer := env.flags.jsonPointer && buf[0] == '/';
    head := if pointer then 1 else 0;
    ghost var body := if pointer then name[1..] else name;
    assert buf[head..n] == body;
    assert forall i :: head <= i < n ==> buf[i] == name[i] && name[i] in name;
    assert Terminated(buf[..], head, n);
    z := n;
    comp, value := NoComp, 0;
    if env.flags.equal || env.flags.compare {
      var c := CompAt(buf, head, env.flags, n);
      var first := env.flags.escFirstCmp && c != NoComp;
      comp, z, value := CutComparison(buf, head, env.flags, pointer, first, n);
      HoldsTerminated(buf[..], head, KeyVal(body, env.flags, pointer, first).path);
    }
  }

  /** The selection of a path: a lone dot is the current object. */
  method SelectCut(e: Context, buf: array<char>, head: nat, pointer: bool, iterable: bool, ghost z: nat)
    returns (k: Kind)
    requires e.Valid() && Terminated(buf[..], head, z)
    modifies e`selection, buf
    ensures e.Valid() && e.Levels() == old(e.Levels())
    ensures Chosen(k, e.selection) == SelectPath(Views(e.Levels()), old(buf[head..z]), pointer, iterable)
    ensures buf[z..] == old(buf[z..])
  {
    var dot := IsDot(buf, head, z);
    if dot {
      var r := e.Sel(None);
      k := SOk;
    } else {
      k := SelectKeys(e, buf, head, pointer, iterable, z);
    }
  }

  /** The text after the comparator is still in place, and decides. */
  method ReadAndCompare(e: Context, env: Env, buf: array<char>, ghost cut: seq<char>,
                        comp: Comp, value: nat, ghost z: nat, ghost n: nat)
    returns (rejected: bool)
    requires comp != NoComp && |cut| == buf.Length && z <= value && z <= |cut| && cut[z..] == buf[z..]
    requires Terminated(cut, value, n)
    ensures rejected == Rejects(env, e.selection, comp, cut[value..n])
  {
    TailKept(cut, buf[..], z, value, n);
    TailHolds(buf[..], value, n);
    var text := ReadString(buf, value, cut[value..n]);
    rejected := Compares(e, env, comp, text);
  }

  /** sel: selects by name, in a scratch copy of the name. */
  method SelectName(e: Context, env: Env, name: string) returns (k: Kind)
    requires e.Valid() && NUL !in name
    modifies e`selection
    ensures e.Valid() && e.Levels() == old(e.Levels())
    ensures Chosen(k, e.selection) == Select(env, Views(e.Levels()), name)
  {
    var buf, pointer, head, comp, value;
    ghost var z;
    buf, pointer, head, comp, value, z := CutName(env, name);
    ghost var cut := buf[..];
    assert buf[head..z] == cut[head..z];
    assert comp != NoComp ==> cut[value..|name|] == buf[value..|name|];
    k := SelectCut(e, buf, head, pointer, comp == NoComp && env.flags.objectIter, z);
    if k == SOk && comp != NoComp {
      assert cut[value..|name|] == Comparison(if pointer then name[1..] else name, env.flags, pointer).value;
      var rejected := ReadAndCompare(e, env, buf, cut, comp, value, z, |name|);
      if rejected {
        k := SNone;
      }
    }
  }

  /** enter: selects, then enters what is selected. */
  method EnterSection(e: Context, env: Env, name: string) returns (rc: int)
    requires e.Valid() && NUL !in name
    modifies e`selection, e`depth, e.stack
    ensures var entry := Enter(env, Views(old(e.Levels())), name);
      && (rc < 0 <==> entry.Refused?)
      && (entry.Entered? ==>
            && e.Valid()
            && rc == (if entry.items == [] then 0 else 1)
            && e.Levels() == old(e.Levels()) +
                 if entry.items == [] then [] else [Level(entry.items[0], entry.items[1..])])
  {
    ghost var before := e.Levels();
    var k := SelectName(e, env, name);
    if k == SNone {
      assert e.Levels() == before + [];
      return 0;
    }
    rc := e.Enter(k != SOk);
  }

  /** put: the text of what is selected, escaped or not. */
  method PutVariable(e: Context, env: Env, name: string, escape: bool, file: string) returns (out: string)
    requires e.Valid() && NUL !in name
    modifies e`selection
    ensures e.Valid() && e.Levels() == old(e.Levels())
    ensures out == file + Put(env, Views(e.Levels()), name, escape)
  {
    hide Select, Context.Valid, Context.Levels;
    var text := "";
    var k := SelectName(e, env, name);
    if k == SOk || k == SOkOrObjIter {
      text := e.GetText(env, k == SOkOrObjIter);
    }
    out := file;
    if text != "" {
      out := EmitWrap(text, escape, file);
    } else {
      assert file + "" == file;
    }
  }
}
