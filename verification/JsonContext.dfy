/** The context stack of the engine over JSON data (`struct expl` of mustach-jansson.c). */
module JsonContext {
  import opened Options
  import opened JsonValues
  import opened Selection
  import opened Tags
  import opened Engine

  /** One stack entry, as the C struct has it. */
  datatype Slot = Slot(cont: Json, obj: Json, iter: nat, isObjIter: bool, index: nat, count: nat)

  predicate ValidSlot(s: Slot) {
    if s.isObjIter then
      s.cont.Object? && s.iter < |s.cont.members| && s.obj == s.cont.members[s.iter].value
    else
      s.index < s.count &&
      (s.count == 1 || (s.cont.Array? && s.count == |s.cont.items| && s.obj == s.cont.items[s.index]))
  }

  /** The level of the engine an entry stands for. */
  function LevelOf(s: Slot): Level
    requires ValidSlot(s)
  {
    if s.isObjIter then
      Level(View(s.obj, s.cont.members[s.iter].key), MemberItems(s.cont)[s.iter + 1..])
    else
      Level(View(s.obj, ""), if s.count == 1 then [] else ValueItems(s.cont)[s.index + 1..])
  }

  function EnteredItems(o: Json, objIter: bool): seq<View> {
    if objIter then MemberItems(o) else ValueItems(o)
  }

  /** The entry for the first item of what is entered. */
  function FirstSlot(o: Json, objIter: bool): (r: Option<Slot>)
    ensures r.None? <==> EnteredItems(o, objIter) == []
    ensures r.Some? ==> ValidSlot(r.value)
  {
    if objIter then
      if o.Object? && o.members != [] then Some(Slot(o, o.members[0].value, 0, true, 0, 0)) else None
    else if o.Array? then
      if o.items != [] then Some(Slot(o, o.items[0], 0, false, 0, |o.items|)) else None
    else if o != False && o != Null then Some(Slot(Null, o, 0, false, 0, 1))
    else None
  }

  lemma FirstSlotLevel(o: Json, objIter: bool)
    requires FirstSlot(o, objIter).Some?
    ensures var items := EnteredItems(o, objIter);
      LevelOf(FirstSlot(o, objIter).value) == Level(items[0], items[1..])
  {
  }

  /** The entry for the next item. */
  function NextSlot(s: Slot): Option<Slot>
    requires ValidSlot(s)
  {
    if s.isObjIter then
      if s.iter + 1 == |s.cont.members| then None
      else Some(s.(iter := s.iter + 1, obj := s.cont.members[s.iter + 1].value))
    else if s.index + 1 >= s.count then None
    else Some(s.(index := s.index + 1, obj := s.cont.items[s.index + 1]))
  }

  lemma NextSlotLevel(s: Slot)
    requires ValidSlot(s)
    ensures var rest := LevelOf(s).rest;
      if rest == [] then NextSlot(s).None?
      else NextSlot(s).Some? && ValidSlot(NextSlot(s).value)
           && LevelOf(NextSlot(s).value) == Level(rest[0], rest[1..])
  {
    if NextSlot(s).Some? {
      assert LevelOf(NextSlot(s).value).rest == LevelOf(s).rest[1..];
    }
  }

  class Context {
    const root: Json
    var selection: Json
    var depth: int
    const stack: array<Slot>

    ghost predicate Valid()
      reads this, stack
    {
      && stack.Length == MAX_DEPTH
      && 0 <= depth < MAX_DEPTH
      && forall i :: 0 <= i <= depth ==> ValidSlot(stack[i])
    }

    /** The context stack, innermost level last. */
    ghost function Levels(): (r: seq<Level>)
      requires Valid()
      reads this, stack
      ensures |r| == depth + 1
    {
      seq(depth + 1, i requires 0 <= i <= depth reads this, stack requires Valid() => LevelOf(stack[i]))
    }

    constructor (root: Json)
      ensures Valid() && fresh(stack) && this.root == root
      ensures selection == Null && Levels() == Engine.Start(root).levels
    {
      this.root := root;
      selection := Null;
      depth := 0;
      stack := new Slot[MAX_DEPTH](_ => Slot(Null, root, 0, false, 0, 1));
    }

    /** sel: the current object, or the innermost object that has the key. */
    method Sel(name: Option<string>) returns (r: bool)
      requires Valid()
      modifies this`selection
      ensures Valid() && Levels() == old(Levels())
      ensures name.None? ==> r && selection == Top(Views(Levels())).obj
      ensures name.Some? ==>
        var found := LookUp(Views(Levels()), name.value);
        r == found.Some? && selection == if r then found.value else Null
    {
      if name.None? {
        selection := stack[depth].obj;
        return true;
      }
      var i := depth;
      assert Views(Levels())[..depth + 1] == Views(Levels());
      while i >= 0 && Get(stack[i].obj, name.value).None?
        invariant -1 <= i <= depth
        invariant LookUp(Views(Levels()), name.value) == LookUp(Views(Levels())[..i + 1], name.value)
      {
        assert Views(Levels())[..i + 1][..i] == Views(Levels())[..i];
        i := i - 1;
      }
      r := i >= 0;
      selection := if r then Get(stack[i].obj, name.value).value else Null;
    }

    /** subsel: a member of what is selected. */
    method Subsel(name: string) returns (r: bool)
      requires Valid()
      modifies this`selection
      ensures Valid() && Levels() == old(Levels())
      ensures r == Get(old(selection), name).Some?
      ensures selection == if r then Get(old(selection), name).value else old(selection)
    {
      var o := Get(selection, name);
      r := o.Some?;
      if r {
        selection := o.value;
      }
    }

    /** enter: pushes the first item of the selection, unless there is none. */
    method Enter(objIter: bool) returns (rc: int)
      requires Valid()
      modifies this`depth, stack
      ensures depth == old(depth) + if rc == 0 then 0 else 1
      ensures rc < 0 <==> |old(Levels())| >= MAX_DEPTH
      ensures rc >= 0 ==>
        var items := EnteredItems(selection, objIter);
        && Valid() && (rc == 0 <==> items == []) && (rc == 0 || rc == 1)
        && Levels() == old(Levels()) + if items == [] then [] else [Level(items[0], items[1..])]
    {
      ghost var before := Levels();
      depth := depth + 1;
      if depth >= MAX_DEPTH {
        return -6;
      }
      var slot := FirstSlot(selection, objIter);
      if slot.None? {
        depth := depth - 1;
        assert Levels() == before + [];
        return 0;
      }
      stack[depth] := slot.value;
      FirstSlotLevel(selection, objIter);
      assert Levels() == before + [LevelOf(slot.value)];
      rc := 1;
    }

    /** next: moves the innermost level to its next item. */
    method Next() returns (rc: int)
      requires Valid()
      modifies stack
      ensures rc < 0 <==> |old(Levels())| == 1
      ensures rc >= 0 ==>
        var top := Top(old(Levels()));
        && rc == (if top.rest == [] then 0 else 1)
        && (rc == 1 ==> Valid() && Levels() == Pop(old(Levels())) + [Level(top.rest[0], top.rest[1..])])
        && forall i :: 0 <= i < depth ==> stack[i] == old(stack[i])
      ensures rc == 0 ==> depth > 0
    {
      hide LevelOf;
      if depth <= 0 {
        return -7;
      }
      ghost var before := Levels();
      var s := stack[depth];
      assert Top(before) == LevelOf(s);
      NextSlotLevel(s);
      if s.isObjIter {
        if s.iter + 1 == |s.cont.members| {
          return 0;
        }
        stack[depth] := s.(iter := s.iter + 1, obj := s.cont.members[s.iter + 1].value);
      } else {
        stack[depth] := s.(index := s.index + 1);
        if s.index + 1 >= s.count {
          return 0;
        }
        stack[depth] := s.(index := s.index + 1, obj := s.cont.items[s.index + 1]);
      }
      assert Levels() == Pop(before) + [LevelOf(stack[depth])];
      rc := 1;
    }

    /** leave: pops the innermost level. */
    method Leave() returns (rc: int)
      requires 0 <= depth < MAX_DEPTH == stack.Length
      requires forall i :: 0 <= i < depth ==> ValidSlot(stack[i])
      modifies this`depth
      ensures rc == if old(depth) == 0 then -7 else 0
      ensures rc == 0 ==> Valid() && depth == old(depth) - 1
    {
      if depth <= 0 {
        return -7;
      }
      depth := depth - 1;
      rc := 0;
    }

    /** get: the text of the selection, or the key of the member being visited. */
    method GetText(env: Env, key: bool) returns (s: string)
      requires Valid()
      ensures s == if key then Top(Views(Levels())).key
                   else match selection
                        case Text(chars) => chars
                        case Null => ""
                        case _ => env.dump(selection)
    {
      var top := stack[depth];
      if key {
        s := if top.isObjIter then top.cont.members[top.iter].key else "";
      } else {
        match selection {
          case Text(chars) => s := chars;
          case Null => s := "";
          case _ => s := env.dump(selection);
        }
      }
    }
  }
}
