/** The singly linked lists of declarations: grown by walking to the tail (parser.c) and
    spliced by linking a whole list behind the tail (include.c). */
module NodeLists {
  class ListNode<T> {
    const value: T
    var next: ListNode?<T>

    constructor (value: T)
      ensures this.value == value && next == null
    {
      this.value := value;
      next := null;
    }
  }

  ghost function At<T>(s: seq<ListNode<T>>, i: nat): ListNode?<T> {
    if i < |s| then s[i] else null
  }

  /** The pointers run through exactly these distinct nodes and end: the list is acyclic. */
  ghost predicate Chain<T>(head: ListNode?<T>, s: seq<ListNode<T>>)
    reads s
  {
    && head == At(s, 0)
    && (forall i :: 0 <= i < |s| ==> s[i].next == At(s, i + 1))
    && forall i, j :: 0 <= i < j < |s| ==> s[i] != s[j]
  }

  ghost function Values<T>(s: seq<ListNode<T>>): (r: seq<T>)
    ensures |r| == |s| && forall i :: 0 <= i < |s| ==> r[i] == s[i].value
  {
    seq(|s|, i requires 0 <= i < |s| => s[i].value)
  }

  lemma {:induction false} ChainPrefix<T>(head: ListNode?<T>, s: seq<ListNode<T>>, t: seq<ListNode<T>>, k: nat)
    requires Chain(head, s) && Chain(head, t) && k <= |s|
    ensures k <= |t| && s[..k] == t[..k] && At(s, k) == At(t, k)
  {
    if k > 0 {
      ChainPrefix(head, s, t, k - 1);
      assert s[k - 1].next == At(s, k) && t[k - 1].next == At(t, k);
    }
  }

  /** A list is a chain in one way only: its pointers determine its nodes. */
  lemma ChainUnique<T>(head: ListNode?<T>, s: seq<ListNode<T>>, t: seq<ListNode<T>>)
    requires Chain(head, s) && Chain(head, t)
    ensures s == t
  {
    ChainPrefix(head, s, t, |s|);
  }

  /** Two chains become one when the last node of the first points to the second. */
  lemma ChainsJoined<T>(chain: ListNode?<T>, s: seq<ListNode<T>>, t: seq<ListNode<T>>)
    requires s != [] && Chain(chain, t)
    requires forall i :: 0 <= i < |t| ==> t[i] !in s
    requires forall i :: 0 <= i < |s| - 1 ==> s[i].next == s[i + 1]
    requires forall i, j :: 0 <= i < j < |s| ==> s[i] != s[j]
    requires s[|s| - 1].next == chain
    ensures Chain(s[0], s + t)
  {
  }

  lemma EmptyChain<T>(s: seq<ListNode<T>>)
    requires Chain(null, s)
    ensures s == []
  {
  }

  /** Walks to the last node and makes it point to a chain. */
  method LinkBehind<T>(head: ListNode<T>, ghost s: seq<ListNode<T>>, chain: ListNode?<T>, ghost tail: seq<ListNode<T>>)
    requires Chain(head, s) && Chain(chain, tail)
    requires forall i :: 0 <= i < |tail| ==> tail[i] !in s
    modifies s
    ensures Chain(head, s + tail)
  {
    var last := head;
    ghost var i := 0;
    while last.next != null
      invariant 0 <= i < |s| && last == s[i]
      decreases |s| - i
    {
      last := last.next;
      i := i + 1;
    }
    forall i | 0 <= i < |tail| ensures tail[i] != last {
      assert last in s;
    }
    last.next := chain;
    assert Chain(chain, tail);
    ChainsJoined(chain, s, tail);
  }

  class NodeList<T> {
    var head: ListNode?<T>
    ghost var spine: seq<ListNode<T>>
    ghost var nodes: set<ListNode<T>>

    ghost predicate Valid()
      reads this, nodes
    {
      nodes == (set x | x in spine) && Chain(head, spine)
    }

    ghost function Contents(): seq<T>
      reads this
    {
      Values(spine)
    }

    constructor ()
      ensures Valid() && Contents() == [] && nodes == {}
    {
      head, spine, nodes := null, [], {};
    }

    /** Links a chain behind the tail, or makes it the list when that is empty. */
    method LinkTail(chain: ListNode?<T>, ghost tail: seq<ListNode<T>>)
      requires Valid() && Chain(chain, tail)
      requires forall i :: 0 <= i < |tail| ==> tail[i] !in nodes
      modifies this, nodes
      ensures Valid() && spine == old(spine) + tail && nodes == old(nodes) + (set x | x in tail)
    {
      hide Chain;
      ghost var before := spine;
      spine, nodes := spine + tail, nodes + (set x | x in tail);
      if head == null {
        EmptyChain(before);
        head := chain;
        assert spine == tail;
      } else {
        LinkBehind(head, before, chain, tail);
      }
    }

    /** A new declaration goes to the end. */
    method Append(value: T)
      requires Valid()
      modifies this, nodes
      ensures Valid() && Contents() == old(Contents()) + [value]
      ensures old(nodes) <= nodes && fresh(nodes - old(nodes))
    {
      var added := new ListNode(value);
      LinkTail(added, [added]);
    }

    /** All nodes of an included list go to the end, in their order. */
    method Splice(other: NodeList<T>)
      requires Valid() && other.Valid() && other != this && nodes !! other.nodes
      modifies this, nodes
      ensures Valid() && other.Valid()
      ensures Contents() == old(Contents()) + other.Contents() && nodes == old(nodes) + other.nodes
    {
      hide Chain;
      ghost var theirs := other.spine;
      LinkTail(other.head, theirs);
    }
  }
}
