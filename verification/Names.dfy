/** Sorting migration names as migration.c does: strcmp order, by exchanges. */
module Names {

  /** strcmp(a, b) <= 0 */
  predicate Leq(a: string, b: string)
    decreases |a|
  {
    a == "" || (b != "" && (a[0] < b[0] || (a[0] == b[0] && Leq(a[1..], b[1..]))))
  }

  lemma {:induction false} LeqTotal(a: string, b: string)
    ensures Leq(a, b) || Leq(b, a)
    decreases |a|
  {
    if a != "" && b != "" {
      LeqTotal(a[1..], b[1..]);
    }
  }

  lemma {:induction false} LeqAntisymmetric(a: string, b: string)
    requires Leq(a, b) && Leq(b, a)
    ensures a == b
    decreases |a|
  {
    if a != "" && b != "" {
      LeqAntisymmetric(a[1..], b[1..]);
      assert a == [a[0]] + a[1..] && b == [b[0]] + b[1..];
    }
  }

  lemma {:induction false} LeqTransitive(a: string, b: string, c: string)
    requires Leq(a, b) && Leq(b, c)
    ensures Leq(a, c)
    decreases |a|
  {
    if a != "" && a[0] == b[0] == c[0] {
      LeqTransitive(a[1..], b[1..], c[1..]);
    }
  }

  /** The order is that of strcmp: a text comes before its continuations, and where two texts
      first differ the smaller character decides. */
  lemma {:induction false} LeqExactly(a: string, b: string)
    ensures Leq(a, b) <==> a <= b || exists i :: FirstDifference(a, b, i) && a[i] < b[i]
    decreases |a|
  {
    if a != "" && b != "" {
      if a[0] == b[0] {
        LeqExactly(a[1..], b[1..]);
        assert a == [a[0]] + a[1..] && b == [b[0]] + b[1..];
        assert a <= b <==> a[1..] <= b[1..];
        forall i | FirstDifference(a[1..], b[1..], i) ensures FirstDifference(a, b, i + 1) {
          assert a[..i + 1] == [a[0]] + a[1..][..i] && b[..i + 1] == [b[0]] + b[1..][..i];
        }
        forall i | FirstDifference(a, b, i) ensures i > 0 && FirstDifference(a[1..], b[1..], i - 1) {
          assert a[1..][..i - 1] == a[..i][1..] && b[1..][..i - 1] == b[..i][1..];
        }
      } else {
        assert FirstDifference(a, b, 0);
        assert forall i :: 0 < i <= |a| ==> a[..i][0] == a[0];
        assert forall i :: 0 < i <= |b| ==> b[..i][0] == b[0];
      }
    }
  }

  predicate FirstDifference(a: string, b: string, i: int) {
    0 <= i < |a| && i < |b| && a[..i] == b[..i] && a[i] != b[i]
  }

  predicate Sorted(s: seq<string>) {
    forall i, j :: 0 <= i < j < |s| ==> Leq(s[i], s[j])
  }

  function Insert(x: string, s: seq<string>): seq<string> {
    if s == [] || Leq(x, s[0]) then [x] + s else [s[0]] + Insert(x, s[1..])
  }

  /** The specification of the sort. */
  function Sort(s: seq<string>): seq<string> {
    if s == [] then [] else Insert(s[0], Sort(s[1..]))
  }

  lemma {:induction false} InsertBounded(b: string, x: string, s: seq<string>)
    requires Leq(b, x) && forall i :: 0 <= i < |s| ==> Leq(b, s[i])
    ensures forall i :: 0 <= i < |Insert(x, s)| ==> Leq(b, Insert(x, s)[i])
  {
    if s != [] && !Leq(x, s[0]) {
      InsertBounded(b, x, s[1..]);
    }
  }

  lemma {:induction false} InsertMultiset(x: string, s: seq<string>)
    ensures multiset(Insert(x, s)) == multiset([x]) + multiset(s)
  {
    if s != [] && !Leq(x, s[0]) {
      InsertMultiset(x, s[1..]);
      assert s == [s[0]] + s[1..];
    }
  }

  lemma {:induction false} InsertSorts(x: string, s: seq<string>)
    requires Sorted(s)
    ensures Sorted(Insert(x, s))
  {
    if s == [] || Leq(x, s[0]) {
      forall j | 0 < j < |s| ensures Leq(x, s[j]) {
        LeqTransitive(x, s[0], s[j]);
      }
    } else {
      LeqTotal(x, s[0]);
      InsertSorts(x, s[1..]);
      InsertBounded(s[0], x, s[1..]);
    }
  }

  lemma {:induction false} SortSorts(s: seq<string>)
    ensures Sorted(Sort(s)) && multiset(Sort(s)) == multiset(s)
  {
    if s != [] {
      SortSorts(s[1..]);
      InsertSorts(s[0], Sort(s[1..]));
      InsertMultiset(s[0], Sort(s[1..]));
      assert s == [s[0]] + s[1..];
    }
  }

  /** A sorted permutation is the sort: the order has no ties between different names. */
  lemma {:induction false} SortUnique(a: seq<string>, b: seq<string>)
    requires Sorted(a) && Sorted(b) && multiset(a) == multiset(b)
    ensures a == b
  {
    hide Leq, Sorted;
    assert |a| == |multiset(a)| == |multiset(b)| == |b|;
    if a != [] {
      HeadIsLeast(a, b);
      HeadIsLeast(b, a);
      LeqAntisymmetric(a[0], b[0]);
      SortedTail(a);
      SortedTail(b);
      SortUnique(a[1..], b[1..]);
      assert a == [a[0]] + a[1..] && b == [b[0]] + b[1..];
    }
  }

  lemma SortedTail(s: seq<string>)
    requires Sorted(s) && s != []
    ensures Sorted(s[1..]) && multiset(s[1..]) == multiset(s) - multiset{s[0]}
  {
    hide Leq;
    assert s == [s[0]] + s[1..];
  }

  lemma HeadIsLeast(a: seq<string>, b: seq<string>)
    requires Sorted(a) && multiset(a) == multiset(b) && a != [] && b != []
    ensures Leq(a[0], b[0])
  {
    assert b[0] in multiset(b);
    assert b[0] in a;
    var i :| 0 <= i < |a| && a[i] == b[0];
    if i == 0 {
      LeqTotal(a[0], a[0]);
    }
  }

  // ---------- the exchange sort ----------

  method Swap(a: array<string>, i: nat, j: nat)
    requires i < j < a.Length
    modifies a
    ensures a[..] == old(a[..])[i := old(a[j])][j := old(a[i])]
    ensures multiset(a[..]) == multiset(old(a[..]))
  {
    a[i], a[j] := a[j], a[i];
  }

  /** The names before i are final: sorted, and no larger than any later one. */
  ghost predicate Settled(s: seq<string>, i: int) {
    0 <= i <= |s| && forall p, q :: 0 <= p < i && p < q < |s| ==> Leq(s[p], s[q])
  }

  /** The name at i is the least of those in i..j. */
  ghost predicate LeastSoFar(s: seq<string>, i: int, j: int) {
    0 <= i < j <= |s| && forall k :: i <= k < j ==> Leq(s[i], s[k])
  }

  lemma AfterSwap(s: seq<string>, r: seq<string>, i: int, j: int)
    requires Settled(s, i) && LeastSoFar(s, i, j) && j < |s|
    requires r == (if Leq(s[i], s[j]) then s else s[i := s[j]][j := s[i]])
    ensures Settled(r, i) && LeastSoFar(r, i, j + 1)
  {
    LeqTotal(s[i], s[j]);
    LeqTotal(r[i], r[i]);
    forall k | i < k < j ensures Leq(r[i], r[k]) {
      if !Leq(s[i], s[j]) {
        LeqTransitive(s[j], s[i], s[k]);
      }
    }
  }

  lemma NextSettled(s: seq<string>, i: int)
    requires Settled(s, i) && LeastSoFar(s, i, |s|)
    ensures Settled(s, i + 1)
  {
  }

  /** The nested loops of migrateUp: each later name that is smaller changes places. */
  method ExchangeSort(a: array<string>)
    modifies a
    ensures a[..] == Sort(old(a[..]))
  {
    ghost var was := a[..];
    var i := 0;
    while i < a.Length - 1
      invariant 0 <= i && (a.Length > 0 ==> i < a.Length)
      invariant Settled(a[..], i) && multiset(a[..]) == multiset(was)
    {
      var j := i + 1;
      LeqTotal(a[i], a[i]);
      while j < a.Length
        invariant i < j <= a.Length
        invariant Settled(a[..], i) && LeastSoFar(a[..], i, j) && multiset(a[..]) == multiset(was)
      {
        ghost var s := a[..];
        if !Leq(a[i], a[j]) {
          Swap(a, i, j);
        }
        AfterSwap(s, a[..], i, j);
        j := j + 1;
      }
      NextSettled(a[..], i);
      i := i + 1;
    }
    SortSorts(was);
    SortUnique(a[..], Sort(was));
  }
}
