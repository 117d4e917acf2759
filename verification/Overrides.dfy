/** Looking a declaration up in the tables built from a parsed website. */
module Overrides {
  import opened Options
  import opened Declarations
  import HashTables

  /** Layouts, queries, transforms, scripts and partials are looked up by name, pages by
      route. */
  function NameOf(n: Node): string {
    n.name
  }

  /** Endpoints are looked up by route and method. */
  function EndpointOf(n: Node): (string, string) {
    (n.name, n.verb)
  }

  /** A list of declarations as the entries of a table: the position under the key. */
  function Entries<K>(list: seq<Node>, key: Node -> K): (r: seq<HashTables.Entry<K, nat>>)
    ensures |r| == |list|
  {
    if list == [] then []
    else Entries(list[..|list| - 1], key) + [HashTables.Entry(key(list[|list| - 1]), |list| - 1)]
  }

  /** The table of a list is built, and the key looked up in it. */
  function LookUp<K(==)>(list: seq<Node>, key: Node -> K, hash: K -> nat, k: K): Option<nat> {
    HashTables.Find<K, nat>(HashTables.Build<K, nat>(Entries(list, key), hash), hash, k)
  }

  /** The position of the last declaration with a key, or None if none has it. */
  ghost predicate LastAt<K>(list: seq<Node>, key: Node -> K, k: K, r: Option<nat>) {
    match r
    case None => forall i :: 0 <= i < |list| ==> key(list[i]) != k
    case Some(p) => p < |list| && key(list[p]) == k && forall i :: p < i < |list| ==> key(list[i]) != k
  }

  /** The table yields the last position that carries the key. */
  lemma {:induction false} LastPosition<K>(list: seq<Node>, key: Node -> K, k: K)
    ensures LastAt(list, key, k, HashTables.Last(Entries(list, key), k))
  {
    if list != [] {
      var init := list[..|list| - 1];
      LastPosition(init, key, k);
      assert Entries(list, key)[..|list| - 1] == Entries(init, key);
    }
  }

  /** Something of this kind is declared under the key. */
  ghost predicate Has<K>(nodes: seq<Node>, kind: Kind, key: Node -> K, k: K) {
    exists i :: 0 <= i < |nodes| && nodes[i].kind == kind && key(nodes[i]) == k
  }

  lemma {:induction false} HasOf<K>(kind: Kind, nodes: seq<Node>, key: Node -> K, k: K)
    ensures Has(nodes, kind, key, k) <==> exists i :: 0 <= i < |Of(kind, nodes)| && key(Of(kind, nodes)[i]) == k
  {
    if nodes != [] {
      var init, n := nodes[..|nodes| - 1], nodes[|nodes| - 1];
      HasOf(kind, init, key, k);
      HasSnoc(kind, init, n, key, k);
      var list := Of(kind, init);
      assert nodes == init + [n];
      assert n.kind == kind ==> Of(kind, nodes)[|list|] == n;
      assert forall i :: 0 <= i < |list| ==> Of(kind, nodes)[i] == list[i];
    }
  }

  lemma HasSnoc<K>(kind: Kind, init: seq<Node>, n: Node, key: Node -> K, k: K)
    ensures Has(init + [n], kind, key, k) <==> Has(init, kind, key, k) || (n.kind == kind && key(n) == k)
  {
    var nodes := init + [n];
    assert nodes[|init|] == n;
    assert forall i :: 0 <= i < |init| ==> nodes[i] == init[i];
  }

  /** In two lists put one behind the other, the last position with a key lies in the second
      one exactly when that one has the key. */
  lemma LastBehind<K>(a: seq<Node>, b: seq<Node>, key: Node -> K, k: K, p: nat)
    requires LastAt(a + b, key, k, Some(p))
    ensures p >= |a| <==> exists i :: 0 <= i < |b| && key(b[i]) == k
  {
    if p >= |a| {
      assert key(b[p - |a|]) == k;
    }
    forall i | 0 <= i < |b| && key(b[i]) == k ensures p >= |a| {
      assert (a + b)[|a| + i] == b[i];
    }
  }

  /** Included declarations in front of the website's own: a look-up finds the last one with
      the key, one of the website's own exactly when it has one, and nothing only when
      nobody has one. */
  lemma OwnHidesIncluded<K>(included: seq<Node>, own: seq<Node>, kind: Kind, key: Node -> K, hash: K -> nat, k: K)
    ensures var list := Of(kind, included + own);
      var r := LookUp(list, key, hash, k);
      && LastAt(list, key, k, r)
      && (r.None? <==> !Has(included + own, kind, key, k))
      && (r.Some? ==> (r.value >= |Of(kind, included)| <==> Has(own, kind, key, k)))
  {
    hide Of, Has, HashTables.Find, HashTables.Build, HashTables.Last;
    var list := Of(kind, included + own);
    HashTables.FindsLast(Entries(list, key), hash, k);
    LastPosition(list, key, k);
    OfConcat(kind, included, own);
    HasOf(kind, included + own, key, k);
    HasOf(kind, own, key, k);
    var r := HashTables.Last(Entries(list, key), k);
    if r.Some? {
      LastBehind(Of(kind, included), Of(kind, own), key, k, r.value);
    }
  }

  /** The kinds with a table keyed by one name. */
  predicate ByName(kind: Kind) {
    kind != ApiNode && kind != StyleNode
  }

  /** So the website's own declaration of a name hides those of the included files. */
  lemma MainOverridesIncludes(included: seq<Node>, own: seq<Node>, kind: Kind, hash: string -> nat, name: string)
    requires ByName(kind)
    ensures var list := Of(kind, included + own);
      var r := LookUp(list, NameOf, hash, name);
      && LastAt(list, NameOf, name, r)
      && (r.None? <==> !Has(included + own, kind, NameOf, name))
      && (r.Some? ==> (r.value >= |Of(kind, included)| <==> Has(own, kind, NameOf, name)))
  {
    OwnHidesIncluded(included, own, kind, NameOf, hash, name);
  }

  /** The website's own endpoint hides an included one of the same route and method, and
      leaves those of other methods alone. */
  lemma EndpointsOverride(included: seq<Node>, own: seq<Node>, hash: ((string, string)) -> nat,
                          route: string, verb: string)
    ensures var list := Of(ApiNode, included + own);
      var r := LookUp(list, EndpointOf, hash, (route, verb));
      && LastAt(list, EndpointOf, (route, verb), r)
      && (r.None? <==> !Has(included + own, ApiNode, EndpointOf, (route, verb)))
      && (r.Some? ==> (r.value >= |Of(ApiNode, included)| <==> Has(own, ApiNode, EndpointOf, (route, verb))))
  {
    OwnHidesIncluded(included, own, ApiNode, EndpointOf, hash, (route, verb));
  }
}
