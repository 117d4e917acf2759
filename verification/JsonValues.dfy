/** JSON values as the template engine sees them. Object members keep jansson's
    insertion order; a number carries its printed form. */
module JsonValues {

  import opened Options

  datatype Member = Member(key: string, value: Json)

  datatype Json =
    | Null
    | False
    | True
    | Number(text: string)
    | Text(chars: string)
    | Array(items: seq<Json>)
    | Object(members: seq<Member>)

  /** json_object_get: the value of the first member with that key, on objects only. */
  function Get(j: Json, key: string): (r: Option<Json>)
  {
    if j.Object? then GetMember(j.members, key) else None
  }

  function GetMember(ms: seq<Member>, key: string): (r: Option<Json>)
    ensures r.Some? ==> exists i :: 0 <= i < |ms| && ms[i] == Member(key, r.value)
  {
    if ms == [] then None
    else if ms[0].key == key then Some(ms[0].value)
    else
      var r := GetMember(ms[1..], key);
      assert forall i :: 0 <= i < |ms[1..]| ==> ms[1..][i] == ms[i + 1];
      r
  }

  /** The number of nodes of a value, which bounds how many items any part of it has. */
  ghost function Size(j: Json): (n: nat)
    ensures n >= 1
    decreases j
  {
    match j
    case Array(items) => 1 + SizeItems(items)
    case Object(members) => 1 + SizeMembers(members)
    case _ => 1
  }

  ghost function SizeItems(items: seq<Json>): nat
    decreases items
  {
    if items == [] then 0 else Size(items[0]) + SizeItems(items[1..])
  }

  ghost function SizeMembers(ms: seq<Member>): nat
    decreases ms
  {
    if ms == [] then 0 else Size(ms[0].value) + SizeMembers(ms[1..])
  }

  lemma {:induction false} ItemSize(items: seq<Json>, i: nat)
    requires i < |items|
    ensures Size(items[i]) <= SizeItems(items) && |items| <= SizeItems(items)
  {
    if |items| > 1 {
      ItemSize(items[1..], if i == 0 then 0 else i - 1);
    }
  }

  lemma {:induction false} MemberSize(ms: seq<Member>, i: nat)
    requires i < |ms|
    ensures Size(ms[i].value) <= SizeMembers(ms) && |ms| <= SizeMembers(ms)
  {
    if |ms| > 1 {
      MemberSize(ms[1..], if i == 0 then 0 else i - 1);
    }
  }

  lemma GetSize(j: Json, key: string)
    ensures Get(j, key).Some? ==> Size(Get(j, key).value) < Size(j)
  {
    if Get(j, key).Some? {
      var i :| 0 <= i < |j.members| && j.members[i] == Member(key, Get(j, key).value);
      MemberSize(j.members, i);
    }
  }
}
