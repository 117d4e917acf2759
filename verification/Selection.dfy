/** How a tag's name selects a JSON value: dotted paths or JSON pointers, an optional
    comparison, and iteration over an object's members (mustach-wrap.c over
    mustach-jansson.c). */
module Selection {
  import opened Options
  import opened JsonValues

  /** The extension flags of a run. */
  datatype Flags = Flags(
    colon: bool, emptyTag: bool, equal: bool, compare: bool,
    jsonPointer: bool, objectIter: bool, escFirstCmp: bool)

  /** What a run is given besides its template and its data: the flags, the comparison
      of a JSON value with a text, and jansson's printed form of a value. */
  datatype Env = Env(flags: Flags, compare: (Json, string) -> int, dump: Json -> string)

  /** One entry of the context stack: the current object, and its key while the
      members of an object are being iterated (empty otherwise). */
  datatype View = View(obj: Json, key: string)

  datatype Comp = NoComp | Eq | Lt | Le | Gt | Ge

  /** The outcomes S_none, S_ok, S_objiter and S_ok_or_objiter, with the selection. */
  datatype Selected =
    | Nothing
    | Value(json: Json)
    | Members(json: Json)
    | ValueOrMembers(json: Json)

  function GetComp(s: string, flags: Flags): Comp {
    if s == "" then NoComp
    else if s[0] == '=' && (flags.equal || flags.compare) then Eq
    else if s[0] == '<' && flags.compare then (if |s| > 1 && s[1] == '=' then Le else Lt)
    else if s[0] == '>' && flags.compare then (if |s| > 1 && s[1] == '=' then Ge else Gt)
    else NoComp
  }

  function CompLength(c: Comp): nat {
    match c
    case NoComp => 0
    case Le => 2
    case Ge => 2
    case _ => 1
  }

  /** A name split at its comparator: the path, the comparator, the text compared with. */
  datatype Compared = Compared(path: string, comp: Comp, value: string)

  /** Whether the character at the start of s hides the comparator behind it. */
  predicate HidesComp(s: string, flags: Flags, pointer: bool) {
    s != "" && s[0] == (if pointer then '~' else '\\') && GetComp(s[1..], flags) != NoComp
  }

  /** Splits a name at its first unescaped comparator. */
  function KeyVal(s: string, flags: Flags, pointer: bool, escaped: bool): Compared
  {
    if s == "" then Compared("", NoComp, "")
    else if !escaped && GetComp(s, flags) != NoComp then
      Compared("", GetComp(s, flags), s[CompLength(GetComp(s, flags))..])
    else
      var hides := !escaped && HidesComp(s, flags, pointer);
      var r := KeyVal(s[1..], flags, pointer, hides);
      Compared((if hides then "" else [s[0]]) + r.path, r.comp, r.value)
  }

  /** keyval, or the whole name when no comparison extension is on. */
  function Comparison(s: string, flags: Flags, pointer: bool): Compared {
    if flags.equal || flags.compare then
      KeyVal(s, flags, pointer, flags.escFirstCmp && GetComp(s, flags) != NoComp)
    else Compared(s, NoComp, "")
  }

  function SkipAll(s: string, c: char): (r: string)
    ensures |r| <= |s|
    ensures s != "" && s[0] == c ==> |r| < |s|
  {
    if s != "" && s[0] == c then SkipAll(s[1..], c) else s
  }

  /** A key and what follows it. */
  datatype Split = Split(key: string, rest: string)

  /** The first key of a dotted path, unescaped, and what follows it, separator included. */
  function DottedKey(s: string): (r: Split)
    ensures |r.key| + |r.rest| <= |s|
    ensures r.rest != "" ==> r.rest[0] == '.'
  {
    if s == "" || s[0] == '.' then Split("", s)
    else if s[0] == '\\' && |s| > 1 && (s[1] == '.' || s[1] == '\\') then
      Split([s[1]] + DottedKey(s[2..]).key, DottedKey(s[2..]).rest)
    else
      Split([s[0]] + DottedKey(s[1..]).key, DottedKey(s[1..]).rest)
  }

  /** The first reference token of a JSON pointer, decoded in one pass, and what follows it. */
  function PointerKey(s: string): (r: Split)
    ensures |r.key| + |r.rest| <= |s|
    ensures r.rest != "" ==> r.rest[0] == '/'
  {
    if s == "" || s[0] == '/' then Split("", s)
    else if s[0] == '~' && |s| > 1 && (s[1] == '0' || s[1] == '1') then
      Split([if s[1] == '1' then '/' else '~'] + PointerKey(s[2..]).key, PointerKey(s[2..]).rest)
    else
      Split([s[0]] + PointerKey(s[1..]).key, PointerKey(s[1..]).rest)
  }

  /** getkey: the next key of a non-empty path, and the rest after all its separators. */
  function NextKey(s: string, pointer: bool): (r: Split)
    requires s != ""
    ensures |r.rest| < |s| && |r.key| <= |s|
  {
    if pointer then Split(PointerKey(s).key, SkipAll(PointerKey(s).rest, '/'))
    else Split(DottedKey(s).key, SkipAll(DottedKey(s).rest, '.'))
  }

  /** The keys getkey returns until it returns NULL. */
  function Keys(s: string, pointer: bool): seq<string>
    decreases |s|
  {
    if s == "" then [] else [NextKey(s, pointer).key] + Keys(NextKey(s, pointer).rest, pointer)
  }

  /** The innermost context object that has the key. */
  function LookUp(views: seq<View>, key: string): Option<Json> {
    if views == [] then None
    else
      var top := views[|views| - 1];
      if Get(top.obj, key).Some? then Get(top.obj, key) else LookUp(views[..|views| - 1], key)
  }

  /** Follows the remaining keys down from a value; `iterable` says that no comparison follows. */
  function Descend(j: Json, keys: seq<string>, iterable: bool): Selected
  {
    if keys == [] then Value(j)
    else if Get(j, keys[0]).Some? then Descend(Get(j, keys[0]).value, keys[1..], iterable)
    else if keys == ["*"] && iterable then Members(j)
    else Nothing
  }

  function SelectPath(views: seq<View>, path: string, pointer: bool, iterable: bool): Selected
    requires views != []
  {
    var here := views[|views| - 1].obj;
    if path == "." then Value(here)
    else
      var keys := Keys(path, pointer);
      if keys == [] then Nothing
      else if LookUp(views, keys[0]).Some? then
        Descend(LookUp(views, keys[0]).value, keys[1..], iterable)
      else if keys == ["*"] && iterable then ValueOrMembers(here)
      else Nothing
  }

  /** Whether the comparison written after the path rejects the selected value. */
  predicate Rejects(env: Env, j: Json, k: Comp, value: string)
  {
    var negated := value != "" && value[0] == '!';
    var c := env.compare(j, if negated then value[1..] else value);
    negated == match k
               case Eq => c == 0
               case Lt => c < 0
               case Le => c <= 0
               case Gt => c > 0
               case Ge => c >= 0
               case NoComp => negated
  }

  /** sel: what a name selects in a context. */
  function Select(env: Env, views: seq<View>, name: string): Selected
    requires views != []
  {
    var pointer := env.flags.jsonPointer && name != "" && name[0] == '/';
    var c := Comparison(if pointer then name[1..] else name, env.flags, pointer);
    var r := SelectPath(views, c.path, pointer, c.comp == NoComp && env.flags.objectIter);
    if r.Value? && c.comp != NoComp && Rejects(env, r.json, c.comp, c.value) then Nothing else r
  }

  /** What entering a section with this selection iterates over: the elements of an
      array, the members of an object in iteration mode, a single truthy value, or
      nothing at all. An empty result means the section is not entered. */
  function Items(s: Selected): seq<View>
  {
    match s
    case Nothing => []
    case Value(j) => ValueItems(j)
    case Members(j) => MemberItems(j)
    case ValueOrMembers(j) => MemberItems(j)
  }

  function ValueItems(j: Json): seq<View> {
    match j
    case Array(items) => seq(|items|, i requires 0 <= i < |items| => View(items[i], ""))
    case False => []
    case Null => []
    case _ => [View(j, "")]
  }

  function MemberItems(j: Json): seq<View> {
    if j.Object? then
      seq(|j.members|, i requires 0 <= i < |j.members| => View(j.members[i].value, j.members[i].key))
    else []
  }

  /** get: the text a variable tag puts out. */
  function TextOf(env: Env, views: seq<View>, name: string): string
    requires views != []
  {
    match Select(env, views, name)
    case Value(j) =>
      (match j
       case Text(chars) => chars
       case Null => ""
       case _ => env.dump(j))
    case ValueOrMembers(_) => views[|views| - 1].key
    case _ => ""
  }

  // ---------- everything selected lies within the context ----------

  /** Every context object has at most n nodes. */
  ghost predicate Within(views: seq<View>, n: nat) {
    forall i :: 0 <= i < |views| ==> Size(views[i].obj) <= n
  }

  lemma LookUpWithin(views: seq<View>, key: string, n: nat)
    requires Within(views, n)
    ensures LookUp(views, key).Some? ==> Size(LookUp(views, key).value) <= n
  {
    if views != [] {
      GetSize(views[|views| - 1].obj, key);
      LookUpWithin(views[..|views| - 1], key, n);
    }
  }

  lemma DescendWithin(j: Json, keys: seq<string>, iterable: bool, n: nat)
    requires Size(j) <= n
    ensures var r := Descend(j, keys, iterable); !r.Nothing? ==> Size(r.json) <= n
  {
    if keys != [] && Get(j, keys[0]).Some? {
      GetSize(j, keys[0]);
      DescendWithin(Get(j, keys[0]).value, keys[1..], iterable, n);
    }
  }

  lemma SelectPathWithin(views: seq<View>, path: string, pointer: bool, iterable: bool, n: nat)
    requires views != [] && Within(views, n)
    ensures var r := SelectPath(views, path, pointer, iterable); !r.Nothing? ==> Size(r.json) <= n
  {
    var keys := Keys(path, pointer);
    if path != "." && keys != [] {
      LookUpWithin(views, keys[0], n);
      if LookUp(views, keys[0]).Some? {
        DescendWithin(LookUp(views, keys[0]).value, keys[1..], iterable, n);
      }
    }
  }

  /** A section never iterates over more items than the data has nodes, and what it
      pushes is again part of the data. */
  lemma ItemsWithin(env: Env, views: seq<View>, name: string, n: nat)
    requires views != [] && Within(views, n)
    ensures var items := Items(Select(env, views, name)); |items| <= n && Within(items, n)
  {
    var s := Select(env, views, name);
    var pointer := env.flags.jsonPointer && name != "" && name[0] == '/';
    var c := Comparison(if pointer then name[1..] else name, env.flags, pointer);
    SelectPathWithin(views, c.path, pointer, c.comp == NoComp && env.flags.objectIter, n);
    if !s.Nothing? {
      assert Size(s.json) <= n;
      if s.json.Array? {
        forall i | 0 <= i < |s.json.items|
          ensures Size(s.json.items[i]) <= n && |s.json.items| <= n
        {
          ItemSize(s.json.items, i);
        }
      } else if s.json.Object? {
        forall i | 0 <= i < |s.json.members|
          ensures Size(s.json.members[i].value) <= n && |s.json.members| <= n
        {
          MemberSize(s.json.members, i);
        }
      }
    }
  }
}
