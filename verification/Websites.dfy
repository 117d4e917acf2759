/** The website under construction: eight linked lists of declarations (parser.c), and the
    eight-way splice of an included website (include.c). */
module Websites {
  import opened Declarations
  import opened NodeLists

  /** Which of the eight lists a kind has. */
  function Index(k: Kind): (i: nat)
    ensures i < 8
  {
    match k
    case PageNode => 0
    case LayoutNode => 1
    case StyleNode => 2
    case QueryNode => 3
    case TransformNode => 4
    case ScriptNode => 5
    case ApiNode => 6
    case PartialNode => 7
  }

  lemma NothingOf()
    ensures forall k: Kind :: Of(k, []) == []
  {
  }

  /** Eight list heads that are NULL. */
  method EmptyLists() returns (lists: seq<NodeList<Node>>)
    ensures |lists| == 8 && fresh(lists)
    ensures forall i, j :: 0 <= i < j < 8 ==> lists[i] != lists[j]
    ensures forall i :: 0 <= i < 8 ==> lists[i].Valid() && lists[i].nodes == {} && lists[i].Contents() == []
  {
    lists := [];
    for i := 0 to 8
      invariant |lists| == i && fresh(lists)
      invariant forall j, k :: 0 <= j < k < i ==> lists[j] != lists[k]
      invariant forall j :: 0 <= j < i ==> lists[j].Valid() && lists[j].nodes == {} && lists[j].Contents() == []
    {
      hide NodeList.Valid, NodeList.Contents;
      var list := new NodeList<Node>();
      lists := lists + [list];
    }
  }

  class Website {
    const lists: seq<NodeList<Node>>
    ghost var nodes: set<ListNode<Node>>

    /** Eight acyclic lists without a node in common. */
    ghost predicate Valid()
      reads this, lists, nodes
    {
      && |lists| == 8
      && (forall i, j :: 0 <= i < j < 8 ==> lists[i] != lists[j] && lists[i].nodes !! lists[j].nodes)
      && (forall i :: 0 <= i < 8 ==> lists[i].nodes <= nodes)
      && (forall i :: 0 <= i < 8 ==> lists[i].Valid())
    }

    ghost function Contents(i: nat): seq<Node>
      requires |lists| == 8 && i < 8
      reads lists
    {
      lists[i].Contents()
    }

    /** Every list holds the declarations of its kind, in order. */
    ghost predicate Holds(declared: seq<Node>)
      reads this, lists, nodes
    {
      Valid() && forall k: Kind :: Contents(Index(k)) == Of(k, declared)
    }

    constructor ()
      ensures Valid() && Holds([]) && nodes == {} && fresh(lists)
    {
      hide NodeList.Valid, Values, Of, Index;
      lists, nodes := [], {};
      var made := EmptyLists();
      lists := made;
      new;
      assert forall k: Kind :: Of(k, []) == [] by { NothingOf(); }
    }

    /** A new declaration goes to the end of the list of its kind. */
    method Append(node: Node)
      requires Valid()
      modifies this, lists, nodes
      ensures Valid() && old(nodes) <= nodes && fresh(nodes - old(nodes))
      ensures forall declared :: old(Holds(declared)) ==> Holds(declared + [node])
    {
      hide NodeList.Valid, NodeList.Contents, Of, Index;
      AppendAt(Index(node.kind), node);
      forall declared | old(Holds(declared)) ensures Holds(declared + [node]) {
        forall k: Kind ensures Contents(Index(k)) == Of(k, declared + [node]) {
          OfSnoc(k, declared, node);
          IndexOnce(k, node.kind);
        }
      }
    }

    method AppendAt(i: nat, node: Node)
      requires Valid() && i < 8
      modifies this, lists[i], lists[i].nodes
      ensures Valid() && old(nodes) <= nodes && fresh(nodes - old(nodes))
      ensures Contents(i) == old(Contents(i)) + [node]
      ensures forall j :: 0 <= j < 8 && j != i ==> Contents(j) == old(Contents(j))
    {
      hide NodeList.Valid, Values;
      lists[i].Append(node);
      nodes := nodes + lists[i].nodes;
    }

    /** The lists i and later have not been spliced yet, those before have. */
    ghost predicate SplicedTo(other: Website, i: nat, before: seq<seq<Node>>)
      requires |before| == 8
      reads this, lists, nodes, other, other.lists, other.nodes
    {
      && Valid() && other.Valid() && i <= 8 && other != this
      && (forall j, k :: 0 <= j < 8 && 0 <= k < 8 ==> lists[j] != other.lists[k])
      && (forall j, k :: i <= j < 8 && 0 <= k < 8 ==> lists[j].nodes !! other.lists[k].nodes)
      && (forall j, k :: 0 <= j < i && i <= k < 8 ==> lists[j].nodes !! other.lists[k].nodes)
      && (forall j :: 0 <= j < 8 ==> Contents(j) == if j < i then before[j] + other.Contents(j) else before[j])
    }

    /** One list goes behind one of the eight. */
    method SpliceList(i: nat, list: NodeList<Node>)
      requires Valid() && list.Valid() && i < 8
      requires forall j :: 0 <= j < 8 ==> lists[j] != list && lists[j].nodes !! list.nodes
      modifies this, lists[i], lists[i].nodes
      ensures Valid() && list.Valid() && nodes == old(nodes) + list.nodes
      ensures lists[i].nodes == old(lists[i].nodes) + list.nodes
      ensures Contents(i) == old(Contents(i)) + list.Contents()
      ensures forall j :: 0 <= j < 8 && j != i ==>
        Contents(j) == old(Contents(j)) && lists[j].nodes == old(lists[j].nodes)
    {
      hide NodeList.Valid, NodeList.Contents;
      lists[i].Splice(list);
      nodes := nodes + list.nodes;
    }

    /** One of the eight splices. */
    method SpliceAt(other: Website, i: nat, ghost before: seq<seq<Node>>)
      requires |before| == 8 && i < 8 && SplicedTo(other, i, before)
      modifies this, lists[i], lists[i].nodes
      ensures SplicedTo(other, i + 1, before)
      ensures other.nodes == old(other.nodes) && old(nodes) <= nodes <= old(nodes) + other.nodes
      ensures forall j :: 0 <= j < 8 ==> other.Contents(j) == old(other.Contents(j))
      ensures forall j :: 0 <= j < 8 && j != i ==> lists[j].nodes == old(lists[j].nodes)
    {
      hide NodeList.Valid, NodeList.Contents;
      SpliceList(i, other.lists[i]);
    }

    /** Eight-way splice: each list of an included website goes behind the same list here. */
    method Splice(other: Website)
      requires Valid() && other.Valid() && other != this && nodes !! other.nodes
      requires forall list :: list in lists ==> list !in other.lists
      modifies this, lists, nodes
      ensures Valid() && old(nodes) <= nodes <= old(nodes) + other.nodes
      ensures forall a, b :: old(Holds(a)) && old(other.Holds(b)) ==> Holds(a + b)
    {
      hide NodeList.Valid, NodeList.Contents, Of, Index;
      ghost var before := [Contents(0), Contents(1), Contents(2), Contents(3),
                           Contents(4), Contents(5), Contents(6), Contents(7)];
      forall j, k | 0 <= j < 8 && 0 <= k < 8 ensures lists[j] != other.lists[k] {
        assert lists[j] in lists && other.lists[k] in other.lists;
      }
      SpliceAll(other, before);
      forall a, b | old(Holds(a)) && old(other.Holds(b)) ensures Holds(a + b) {
        forall k: Kind ensures Contents(Index(k)) == Of(k, a + b) {
          OfConcat(k, a, b);
          assert before[Index(k)] == Of(k, a);
        }
      }
    }

    method SpliceAll(other: Website, ghost before: seq<seq<Node>>)
      requires |before| == 8 && SplicedTo(other, 0, before)
      modifies this, lists, nodes
      ensures SplicedTo(other, 8, before)
      ensures other.nodes == old(other.nodes) && old(nodes) <= nodes <= old(nodes) + other.nodes
      ensures forall j :: 0 <= j < 8 ==> other.Contents(j) == old(other.Contents(j))
    {
      hide SplicedTo, NodeList.Valid, NodeList.Contents;
      Within(other, 0, before);
      SpliceHalf(other, 0, before);
      SpliceHalf(other, 4, before);
    }

    method SpliceHalf(other: Website, i: nat, ghost before: seq<seq<Node>>)
      requires |before| == 8 && (i == 0 || i == 4) && SplicedTo(other, i, before)
      modifies this, lists, set j, x | i <= j < 8 && x in lists[j].nodes :: x
      ensures SplicedTo(other, i + 4, before)
      ensures other.nodes == old(other.nodes) && old(nodes) <= nodes <= old(nodes) + other.nodes
      ensures forall j :: 0 <= j < 8 ==> other.Contents(j) == old(other.Contents(j))
      ensures forall j :: i + 4 <= j < 8 ==> lists[j].nodes == old(lists[j].nodes)
    {
      hide SplicedTo, NodeList.Valid, NodeList.Contents;
      Within(other, i, before);
      SpliceAt(other, i, before);
      Within(other, i + 1, before);
      SpliceAt(other, i + 1, before);
      Within(other, i + 2, before);
      SpliceAt(other, i + 2, before);
      Within(other, i + 3, before);
      SpliceAt(other, i + 3, before);
    }

    lemma Within(other: Website, i: nat, before: seq<seq<Node>>)
      requires |before| == 8 && i < 8 && SplicedTo(other, i, before)
      ensures |lists| == |other.lists| == 8 && other.lists[i].nodes <= other.nodes && other != this
      ensures forall j :: i <= j < 8 ==> lists[j].nodes <= nodes
    {
    }
  }

  lemma IndexOnce(a: Kind, b: Kind)
    ensures Index(a) == Index(b) <==> a == b
  {
  }
}
