/** The in-place splitting of a name: `getkey` and `keyval` rewrite the buffer they read,
    with a write index that never passes the read index. */
module KeyBuffer {
  import opened Selection

  const NUL: char := '\0'

  /** A C string: the characters from h up to the terminator at z. */
  predicate Terminated(s: seq<char>, h: nat, z: nat) {
    h <= z < |s| && s[z] == NUL && forall i :: h <= i < z ==> s[i] != NUL
  }

  /** The key k stands at h as a C string. */
  predicate Holds(s: seq<char>, h: nat, k: string) {
    h + |k| < |s| && s[h..h + |k|] == k && NUL !in k && s[h + |k|] == NUL
  }

  method SkipSeparators(buf: array<char>, sep: char, from: nat, ghost z: nat) returns (iter: nat)
    requires sep != NUL && Terminated(buf[..], from, z)
    ensures from <= iter <= z && buf[iter..z] == SkipAll(buf[from..z], sep)
  {
    iter := from;
    while buf[iter] == sep
      invariant from <= iter <= z
      invariant SkipAll(buf[iter..z], sep) == SkipAll(buf[from..z], sep)
      decreases z - iter
    {
      assert buf[..][iter] == sep;
      assert iter < z;
      assert buf[iter..z][1..] == buf[iter + 1..z];
      iter := iter + 1;
    }
    assert iter < z ==> buf[iter..z][0] == buf[iter];
  }

  function KeyOf(s: string, pointer: bool): Split {
    if pointer then PointerKey(s) else DottedKey(s)
  }

  function Separator(pointer: bool): char {
    if pointer then '/' else '.'
  }

  /** Having read up to iter, the characters `done` of the key have been written. */
  ghost predicate Copied(was: seq<char>, head: nat, iter: nat, z: nat, pointer: bool, done: string)
    requires head <= iter <= z <= |was|
  {
    KeyOf(was[head..z], pointer)
    == Split(done + KeyOf(was[iter..z], pointer).key, KeyOf(was[iter..z], pointer).rest)
  }

  lemma CopiedStep(was: seq<char>, head: nat, iter: nat, z: nat, pointer: bool, done: string)
    requires head <= iter < z < |was| && was[iter] != Separator(pointer)
    requires Copied(was, head, iter, z, pointer, done)
    ensures iter + TurnWidth(was[iter..z], pointer) <= z
    ensures Copied(was, head, iter + TurnWidth(was[iter..z], pointer), z, pointer,
                   done + [TurnChar(was[iter..z], pointer)])
  {
    KeyTurn(was, iter, z, pointer);
    var next := KeyOf(was[iter + TurnWidth(was[iter..z], pointer)..z], pointer).key;
    assert done + ([TurnChar(was[iter..z], pointer)] + next) == (done + [TurnChar(was[iter..z], pointer)]) + next;
  }

  lemma CopiedStop(was: seq<char>, head: nat, iter: nat, z: nat, pointer: bool, done: string)
    requires head <= iter <= z && Terminated(was, head, z)
    requires was[iter] == NUL || was[iter] == Separator(pointer)
    requires Copied(was, head, iter, z, pointer, done)
    ensures KeyOf(was[head..z], pointer) == Split(done, was[iter..z])
  {
    TailTerminated(was, head, iter, z, was);
    KeyStop(was, iter, z, pointer, Separator(pointer));
    assert done + "" == done;
  }

  /** The state of the copying loop: `now` differs from `was` only in head..iter, where
      the first write - head characters are those of the key read so far. */
  ghost predicate Copying(was: seq<char>, now: seq<char>, head: nat, iter: nat, write: nat, z: nat, pointer: bool) {
    && |now| == |was| && head <= write <= iter <= z && Terminated(was, head, z)
    && now[..head] == was[..head] && now[iter..] == was[iter..]
    && Copied(was, head, iter, z, pointer, now[head..write])
  }

  lemma CopyingStart(was: seq<char>, head: nat, z: nat, pointer: bool)
    requires Terminated(was, head, z)
    ensures Copying(was, was, head, head, head, z, pointer)
  {
    assert was[head..head] + KeyOf(was[head..z], pointer).key == KeyOf(was[head..z], pointer).key;
  }

  /** The copying loop of getkey: moves the characters of the key down over the escapes. */
  method CopyKey(buf: array<char>, head: nat, pointer: bool, ghost z: nat) returns (iter: nat, write: nat)
    requires Terminated(buf[..], head, z)
    modifies buf
    ensures head <= write <= iter <= z
    ensures buf[..head] == old(buf[..head]) && buf[iter..] == old(buf[iter..])
    ensures KeyOf(old(buf[head..z]), pointer) == Split(buf[head..write], old(buf[iter..z]))
  {
    ghost var was := buf[..];
    iter, write := head, head;
    CopyingStart(was, head, z, pointer);
    while buf[iter] != NUL && buf[iter] != Separator(pointer)
      invariant iter <= z < buf.Length
      invariant Copying(was, buf[..], head, iter, write, z, pointer)
      decreases z - iter
    {
      iter, write := CopyStep(buf, head, iter, write, pointer, was, z);
    }
    ghost var now := buf[..];
    assert now[iter..][0] == was[iter..][0];
    CopiedStop(was, head, iter, z, pointer, now[head..write]);
  }

  lemma TailTerminated(was: seq<char>, head: nat, iter: nat, z: nat, now: seq<char>)
    requires Terminated(was, head, z) && head <= iter <= z
    requires |now| == |was| && now[iter..] == was[iter..]
    ensures Terminated(was, iter, z) && Terminated(now, iter, z)
    ensures was[iter] == NUL ==> iter == z
  {
    assert forall i :: iter <= i < |was| ==> now[i] == now[iter..][i - iter] == was[i];
  }

  /** One character of the key, escapes resolved. */
  method CopyStep(buf: array<char>, head: nat, iter: nat, write: nat, pointer: bool, ghost was: seq<char>, ghost z: nat)
    returns (iter': nat, write': nat)
    requires Copying(was, buf[..], head, iter, write, z, pointer)
    requires buf[iter] != NUL && buf[iter] != Separator(pointer)
    modifies buf
    ensures iter < iter' <= z
    ensures Copying(was, buf[..], head, iter', write', z, pointer)
  {
    hide KeyOf, TurnChar, TurnWidth, Copied;
    ghost var now := buf[..];
    assert now[iter..][0] == was[iter..][0];
    TailTerminated(was, head, iter, z, now);
    assert now[iter..z] == was[iter..z] by { assert now[iter..][..z - iter] == was[iter..][..z - iter]; }
    assert buf[iter..z] == now[iter..z];
    CopiedStep(was, head, iter, z, pointer, now[head..write]);
    var step, car := StepChar(buf, iter, pointer, z);
    buf[write] := car;
    iter', write' := iter + step, write + 1;
    assert buf[..] == now[write := car];
    WriteKeeps(was, now, head, iter, write, iter', car);
  }

  lemma WriteKeeps(was: seq<char>, now: seq<char>, head: nat, iter: nat, write: nat, iter': nat, car: char)
    requires head <= write <= iter < iter' <= |was| == |now| && now[iter..] == was[iter..]
    ensures now[write := car][..head] == now[..head]
    ensures now[write := car][iter'..] == was[iter'..]
    ensures now[write := car][head..write + 1] == now[head..write] + [car]
  {
    assert now[iter'..] == now[iter..][iter' - iter..] == was[iter..][iter' - iter..] == was[iter'..];
  }

  /** getkey: splits the next key off the path that starts at head. The key is unescaped
      in place and terminated; nothing beyond the path is touched. */
  method GetKey(buf: array<char>, head: nat, pointer: bool, ghost z: nat) returns (found: bool, rest: nat)
    requires Terminated(buf[..], head, z)
    modifies buf
    ensures found <==> head < z
    ensures !found ==> rest == head && buf[..] == old(buf[..])
    ensures found ==>
      var split := NextKey(old(buf[head..z]), pointer);
      && Holds(buf[..], head, split.key) && head + |split.key| <= z
      && head < rest <= z && Terminated(buf[..], rest, z) && buf[rest..z] == split.rest
    ensures buf[..head] == old(buf[..head]) && buf[z..] == old(buf[z..])
  {
    ghost var was := buf[..];
    TailTerminated(was, head, head, z, was);
    if buf[head] == NUL {
      return false, head;
    }
    found := true;
    var iter, write := CopyKey(buf, head, pointer, z);
    ghost var mid := buf[..];
    assert mid[iter..] == was[iter..];
    TailTerminated(was, head, iter, z, mid);
    assert buf[iter..z] == was[iter..z] by { assert mid[iter..][..z - iter] == was[iter..][..z - iter]; }
    rest := SkipSeparators(buf, Separator(pointer), iter, z);
    ghost var split := NextKey(was[head..z], pointer);
    assert split == Split(buf[head..write], buf[rest..z]);
    KeyFree(was[head..z], pointer);
    Advances(was[head..z], pointer, rest - head, z - rest);
    TailTerminated(mid, iter, rest, z, mid);
    CutKey(buf, head, write, rest, z);
  }

  lemma {:induction false} KeyFree(s: string, pointer: bool)
    requires NUL !in s
    ensures NUL !in KeyOf(s, pointer).key
    decreases |s|
  {
    if s != "" && s[0] != Separator(pointer) {
      var step := TurnWidth(s, pointer);
      KeyFree(s[step..], pointer);
      assert KeyOf(s, pointer).key == [TurnChar(s, pointer)] + KeyOf(s[step..], pointer).key;
      assert s[0] in s && (|s| > 1 ==> s[1] in s);
    }
  }

  lemma Advances(s: string, pointer: bool, used: int, left: nat)
    requires s != "" && used + left == |s| && |NextKey(s, pointer).rest| == left
    ensures used > 0
  {
  }

  /** Terminates the key, which may overwrite the separator but nothing after it. */
  method CutKey(buf: array<char>, head: nat, write: nat, rest: nat, ghost z: nat)
    requires head <= write <= rest <= z && (write == rest ==> rest == z)
    requires Terminated(buf[..], rest, z) && NUL !in buf[head..write]
    modifies buf
    ensures Holds(buf[..], head, old(buf[head..write]))
    ensures Terminated(buf[..], rest, z) && buf[rest..z] == old(buf[rest..z])
    ensures buf[..head] == old(buf[..head]) && buf[z..] == old(buf[z..])
  {
    ghost var key, tail, end := buf[head..write], buf[rest..z], buf[z..];
    assert buf[..][z] == buf[z];
    buf[write] := NUL;
    assert buf[head..write] == key;
    assert buf[rest..z] == tail;
    assert buf[z..] == end;
    assert buf[..][rest..z] == buf[rest..z];
    assert buf[..][head..write] == buf[head..write];
  }

  /** What the next step of getkey writes, and how many characters it reads. */
  method StepChar(buf: array<char>, iter: nat, pointer: bool, ghost z: nat) returns (step: nat, car: char)
    requires Terminated(buf[..], iter, z) && iter < z
    ensures step == TurnWidth(buf[iter..z], pointer) && 1 <= step && iter + step <= z
    ensures car == TurnChar(buf[iter..z], pointer)
  {
    step, car := 1, buf[iter];
    var next := buf[iter + 1];
    assert next == buf[..][iter + 1];
    assert iter + 1 == z ==> next == NUL;
    assert iter + 1 < z ==> buf[iter..z][1] == next;
    if pointer {
      if car == '~' && (next == '0' || next == '1') {
        step := 2;
        car := if next == '1' then '/' else '~';
      }
    } else if car == '\\' && (next == '.' || next == '\\') {
      step, car := 2, next;
    }
  }

  function TurnWidth(s: string, pointer: bool): nat
    requires s != ""
  {
    if |s| > 1 && (if pointer then s[0] == '~' && (s[1] == '0' || s[1] == '1')
                   else s[0] == '\\' && (s[1] == '.' || s[1] == '\\')) then 2 else 1
  }

  function TurnChar(s: string, pointer: bool): char
    requires s != ""
  {
    if TurnWidth(s, pointer) == 1 then s[0]
    else if pointer then (if s[1] == '1' then '/' else '~')
    else s[1]
  }

  lemma KeyTurn(was: seq<char>, iter: nat, z: nat, pointer: bool)
    requires iter < z < |was| && was[iter] != Separator(pointer)
    ensures var s := was[iter..z]; var to := iter + TurnWidth(s, pointer);
      && to <= z
      && KeyOf(s, pointer)
        == Split([TurnChar(s, pointer)] + KeyOf(was[to..z], pointer).key, KeyOf(was[to..z], pointer).rest)
  {
    var s := was[iter..z];
    var step := TurnWidth(s, pointer);
    assert s[step..] == was[iter + step..z];
  }

  lemma KeyStop(was: seq<char>, iter: nat, z: nat, pointer: bool, sep: char)
    requires iter <= z < |was| && sep == (if pointer then '/' else '.')
    requires was[iter] == sep || was[iter] == NUL
    requires Terminated(was, iter, z)
    ensures (if pointer then PointerKey(was[iter..z]) else DottedKey(was[iter..z])) == Split("", was[iter..z])
  {
  }

  // ---------- keyval ----------

  method CompAt(buf: array<char>, iter: nat, flags: Flags, ghost z: nat) returns (k: Comp)
    requires Terminated(buf[..], iter, z)
    ensures k == GetComp(buf[iter..z], flags)
  {
    var c := buf[iter];
    assert iter == z ==> c == NUL by { assert buf[..][z] == buf[z]; }
    assert iter < z ==> buf[iter..z][0] == c;
    var next := if c == NUL then NUL else buf[iter + 1];
    assert iter + 1 == z ==> next == NUL by { assert buf[..][z] == buf[z]; }
    assert iter + 1 < z ==> buf[iter..z][1] == next;
    k := if c == '=' && (flags.equal || flags.compare) then Eq
         else if c == '<' && flags.compare then (if next == '=' then Le else Lt)
         else if c == '>' && flags.compare then (if next == '=' then Ge else Gt)
         else NoComp;
  }

  /** Having read up to iter, the characters `done` of the path have been written. */
  ghost predicate Divided(was: seq<char>, head: nat, iter: nat, z: nat, flags: Flags, pointer: bool,
                          first: bool, escaped: bool, done: string)
    requires head <= iter <= z <= |was|
  {
    var r := KeyVal(was[iter..z], flags, pointer, escaped);
    KeyVal(was[head..z], flags, pointer, first) == Compared(done + r.path, r.comp, r.value)
  }

  ghost predicate Dividing(was: seq<char>, now: seq<char>, head: nat, iter: nat, write: nat, z: nat,
                           flags: Flags, pointer: bool, first: bool, escaped: bool) {
    && |now| == |was| && head <= write <= iter <= z && Terminated(was, head, z)
    && now[..head] == was[..head] && now[iter..] == was[iter..]
    && (forall i :: head <= i < write ==> now[i] != NUL)
    && Divided(was, head, iter, z, flags, pointer, first, escaped, now[head..write])
  }

  lemma DividedStep(was: seq<char>, head: nat, iter: nat, z: nat, flags: Flags, pointer: bool,
                    first: bool, escaped: bool, done: string)
    requires head <= iter < z < |was|
    requires escaped || GetComp(was[iter..z], flags) == NoComp
    requires Divided(was, head, iter, z, flags, pointer, first, escaped, done)
    ensures var hides := !escaped && HidesComp(was[iter..z], flags, pointer);
      Divided(was, head, iter + 1, z, flags, pointer, first, hides, done + if hides then "" else [was[iter]])
  {
    hide GetComp, HidesComp;
    var hides := !escaped && HidesComp(was[iter..z], flags, pointer);
    var r := KeyVal(was[iter + 1..z], flags, pointer, hides);
    var c := if hides then "" else [was[iter]];
    assert was[iter..z][0] == was[iter] && was[iter..z][1..] == was[iter + 1..z];
    assert done + (c + r.path) == (done + c) + r.path;
  }

  lemma DividedStop(was: seq<char>, head: nat, iter: nat, z: nat, flags: Flags, pointer: bool,
                    first: bool, escaped: bool, done: string, k: Comp)
    requires head <= iter <= z < |was|
    requires k == GetComp(was[iter..z], flags) && (iter == z || (!escaped && k != NoComp))
    requires Divided(was, head, iter, z, flags, pointer, first, escaped, done)
    ensures iter + CompLength(k) <= z
    ensures KeyVal(was[head..z], flags, pointer, first) == Compared(done, k, was[iter + CompLength(k)..z])
  {
    assert done + "" == done;
    assert was[iter..z][CompLength(k)..] == was[iter + CompLength(k)..z];
  }

  /** The loop of keyval: copies the path down until a comparator or the end. */
  method DivideLoop(buf: array<char>, head: nat, flags: Flags, pointer: bool, first: bool, ghost z: nat)
    returns (k: Comp, iter: nat, write: nat)
    requires Terminated(buf[..], head, z)
    modifies buf
    ensures head <= write <= iter && iter + CompLength(k) <= z && (k == NoComp ==> iter == z)
    ensures KeyVal(old(buf[head..z]), flags, pointer, first)
         == Compared(buf[head..write], k, buf[iter + CompLength(k)..z])
    ensures Terminated(buf[..], iter, z) && NUL !in buf[head..write]
  {
    ghost var was := buf[..];
    var escaped := first;
    k, iter, write := NoComp, head, head;
    DividingStart(was, head, z, flags, pointer, first);
    while true
      invariant iter <= z < buf.Length
      invariant Dividing(was, buf[..], head, iter, write, z, flags, pointer, first, escaped)
      decreases z - iter
    {
      SameTail(was, buf[..], head, iter, z);
      k := NoComp;
      if buf[iter] == NUL {
        break;
      }
      if !escaped {
        k := CompAt(buf, iter, flags, z);
        if k != NoComp {
          break;
        }
      }
      iter, write, escaped := DivideStep(buf, head, iter, write, z, flags, pointer, first, escaped, was);
    }
    ghost var now := buf[..];
    DividingStop(was, now, head, iter, write, z, flags, pointer, first, escaped, k);
    assert buf[head..write] == now[head..write];
    assert buf[iter + CompLength(k)..z] == now[iter + CompLength(k)..z];
  }

  lemma DividingStart(was: seq<char>, head: nat, z: nat, flags: Flags, pointer: bool, first: bool)
    requires Terminated(was, head, z)
    ensures Dividing(was, was, head, head, head, z, flags, pointer, first, first)
  {
    var r := KeyVal(was[head..z], flags, pointer, first);
    assert was[head..head] + r.path == r.path;
  }

  lemma DividingStop(was: seq<char>, now: seq<char>, head: nat, iter: nat, write: nat, z: nat,
                     flags: Flags, pointer: bool, first: bool, escaped: bool, k: Comp)
    requires Dividing(was, now, head, iter, write, z, flags, pointer, first, escaped)
    requires k == GetComp(was[iter..z], flags) && (iter == z || (!escaped && k != NoComp))
    ensures iter + CompLength(k) <= z && Terminated(now, iter, z) && NUL !in now[head..write]
    ensures KeyVal(was[head..z], flags, pointer, first)
         == Compared(now[head..write], k, now[iter + CompLength(k)..z])
  {
    SameTail(was, now, head, iter, z);
    DividedStop(was, head, iter, z, flags, pointer, first, escaped, now[head..write], k);
    assert now[iter..][CompLength(k)..z - iter] == was[iter..][CompLength(k)..z - iter];
  }

  /** keyval: cuts a name at its comparator, in place. */
  method CutComparison(buf: array<char>, head: nat, flags: Flags, pointer: bool, first: bool, ghost z: nat)
    returns (k: Comp, ghost write: nat, value: nat)
    requires Terminated(buf[..], head, z)
    modifies buf
    ensures var c := KeyVal(old(buf[head..z]), flags, pointer, first);
      && k == c.comp && write == head + |c.path| <= z
      && Holds(buf[..], head, c.path)
      && (k != NoComp ==> write < value <= z && Terminated(buf[..], value, z) && buf[value..z] == c.value)
  {
    var iter, w;
    k, iter, w := DivideLoop(buf, head, flags, pointer, first, z);
    write, value := w, iter + CompLength(k);
    ghost var now := buf[..];
    buf[w] := NUL;
    assert buf[..] == now[w := NUL];
    assert now[w := NUL][head..w] == now[head..w];
    assert w < value ==> now[w := NUL][value..z] == now[value..z];
  }

  lemma SameTail(was: seq<char>, now: seq<char>, head: nat, iter: nat, z: nat)
    requires Terminated(was, head, z) && head <= iter <= z && |now| == |was| && now[iter..] == was[iter..]
    ensures Terminated(now, iter, z) && now[iter..z] == was[iter..z] && now[iter] == was[iter]
    ensures was[iter] == NUL <==> iter == z
    ensures iter < z ==> now[iter + 1..z] == was[iter + 1..z]
  {
  }

  /** One character of the path: either a hiding character, which is dropped, or a copy. */
  method DivideStep(buf: array<char>, head: nat, iter: nat, write: nat, ghost z: nat, flags: Flags, pointer: bool,
                    ghost first: bool, escaped: bool, ghost was: seq<char>)
    returns (iter': nat, write': nat, escaped': bool)
    requires Dividing(was, buf[..], head, iter, write, z, flags, pointer, first, escaped) && iter < z
    requires escaped || GetComp(was[iter..z], flags) == NoComp
    modifies buf
    ensures iter' == iter + 1
    ensures Dividing(was, buf[..], head, iter', write', z, flags, pointer, first, escaped')
  {
    hide KeyVal, GetComp, Divided;
    ghost var now := buf[..];
    SameTail(was, now, head, iter, z);
    DividedStep(was, head, iter, z, flags, pointer, first, escaped, now[head..write]);
    var car := buf[iter];
    if escaped {
      escaped' := false;
    } else {
      var k := CompAt(buf, iter + 1, flags, z);
      assert buf[iter + 1..z] == was[iter + 1..z] == was[iter..z][1..];
      escaped' := car == (if pointer then '~' else '\\') && k != NoComp;
    }
    iter', write' := iter + 1, write;
    assert now[iter..][1..] == was[iter..][1..];
    if !escaped' {
      buf[write] := car;
      write' := write + 1;
      assert buf[..] == now[write := car];
      WriteKeeps(was, now, head, iter, write, iter', car);
    } else {
      assert now[head..write] + "" == now[head..write];
    }
  }
}
