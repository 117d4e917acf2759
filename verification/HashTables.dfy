/** The look-up tables of routing.c: 64 chains, each new entry put in front of its chain.
    They agree with scanning the declared list from its end. */
module HashTables {
  import opened Options

  const HASH_TABLE_SIZE: nat := 64

  datatype Entry<K, V> = Entry(key: K, value: V)

  type Chains<K, V> = seq<seq<Entry<K, V>>>

  function Slot<K>(hash: K -> nat, key: K): (b: nat)
    ensures b < HASH_TABLE_SIZE
  {
    hash(key) % HASH_TABLE_SIZE
  }

  function Put<K, V>(c: Chains<K, V>, hash: K -> nat, e: Entry<K, V>): Chains<K, V>
    requires |c| == HASH_TABLE_SIZE
  {
    c[Slot(hash, e.key) := [e] + c[Slot(hash, e.key)]]
  }

  function Empty<K, V>(): Chains<K, V> {
    seq(HASH_TABLE_SIZE, i => [])
  }

  /** buildRouteMaps for one list: the declarations in order. */
  function Build<K, V>(list: seq<Entry<K, V>>, hash: K -> nat): (c: Chains<K, V>)
    ensures |c| == HASH_TABLE_SIZE
  {
    if list == [] then Empty() else Put(Build(list[..|list| - 1], hash), hash, list[|list| - 1])
  }

  /** The first entry of a chain with the key. */
  function FindIn<K(==), V>(chain: seq<Entry<K, V>>, key: K): Option<V> {
    if chain == [] then None
    else if chain[0].key == key then Some(chain[0].value)
    else FindIn(chain[1..], key)
  }

  function Find<K(==), V>(c: Chains<K, V>, hash: K -> nat, key: K): Option<V>
    requires |c| == HASH_TABLE_SIZE
  {
    FindIn(c[Slot(hash, key)], key)
  }

  /** The specification: the last declaration with the key. */
  function Last<K(==), V>(list: seq<Entry<K, V>>, key: K): Option<V> {
    if list == [] then None
    else if list[|list| - 1].key == key then Some(list[|list| - 1].value)
    else Last(list[..|list| - 1], key)
  }

  /** The declared entries of one slot, last declared first. */
  function Partition<K, V>(list: seq<Entry<K, V>>, hash: K -> nat, b: nat): seq<Entry<K, V>> {
    if list == [] then []
    else
      var e := list[|list| - 1];
      var rest := Partition(list[..|list| - 1], hash, b);
      if Slot(hash, e.key) == b then [e] + rest else rest
  }

  lemma {:induction false} PartitionMembers<K, V>(list: seq<Entry<K, V>>, hash: K -> nat, b: nat)
    ensures forall e :: e in Partition(list, hash, b) <==> e in list && Slot(hash, e.key) == b
  {
    if list != [] {
      PartitionMembers(list[..|list| - 1], hash, b);
      assert list == list[..|list| - 1] + [list[|list| - 1]];
    }
  }

  /** The chains partition the declared list by hash. */
  lemma {:induction false} BuildPartitions<K, V>(list: seq<Entry<K, V>>, hash: K -> nat, b: nat)
    requires b < HASH_TABLE_SIZE
    ensures Build(list, hash)[b] == Partition(list, hash, b)
    ensures forall e :: e in Build(list, hash)[b] <==> e in list && Slot(hash, e.key) == b
  {
    PartitionMembers(list, hash, b);
    if list != [] {
      BuildPartitions(list[..|list| - 1], hash, b);
    }
  }

  /** Looking up a key finds its last declaration. */
  lemma {:induction false} FindsLast<K, V>(list: seq<Entry<K, V>>, hash: K -> nat, key: K)
    ensures Find(Build(list, hash), hash, key) == Last(list, key)
  {
    if list != [] {
      var init := list[..|list| - 1];
      var e := list[|list| - 1];
      FindsLast(init, hash, key);
      var chain := Build(init, hash)[Slot(hash, key)];
      if Slot(hash, e.key) == Slot(hash, key) {
        assert ([e] + chain)[1..] == chain;
      }
    }
  }

  /** Nothing is found exactly when nothing was declared under the key. */
  lemma {:induction false} LastNone<K, V>(list: seq<Entry<K, V>>, key: K)
    ensures Last(list, key).None? <==> forall i :: 0 <= i < |list| ==> list[i].key != key
  {
    if list != [] {
      LastNone(list[..|list| - 1], key);
      assert list == list[..|list| - 1] + [list[|list| - 1]];
    }
  }

  /** Declarations that come later hide the earlier ones under the same key. */
  lemma {:induction false} LaterOverrides<K, V>(a: seq<Entry<K, V>>, b: seq<Entry<K, V>>, key: K)
    ensures Last(a + b, key) == if Last(b, key).Some? then Last(b, key) else Last(a, key)
  {
    if b == [] {
      assert a + b == a;
    } else {
      assert (a + b)[..|a + b| - 1] == a + b[..|b| - 1];
      LaterOverrides(a, b[..|b| - 1], key);
    }
  }

  /** A table object. */
  class Table<K(==), V> {
    const chains: array<seq<Entry<K, V>>>

    constructor ()
      ensures chains[..] == Empty<K, V>() && fresh(chains)
    {
      chains := new seq<Entry<K, V>>[HASH_TABLE_SIZE](_ => []);
    }

    /** A new entry goes to the front of its chain. */
    method Insert(e: Entry<K, V>, hash: K -> nat)
      requires chains.Length == HASH_TABLE_SIZE
      modifies chains
      ensures chains[..] == Put(old(chains[..]), hash, e)
    {
      var b := Slot(hash, e.key);
      chains[b] := [e] + chains[b];
    }

    /** Fills a fresh table from a declared list. */
    method Fill(list: seq<Entry<K, V>>, hash: K -> nat)
      requires chains[..] == Empty<K, V>()
      modifies chains
      ensures chains[..] == Build(list, hash)
    {
      var i := 0;
      while i < |list|
        invariant 0 <= i <= |list|
        invariant chains[..] == Build(list[..i], hash)
      {
        assert list[..i + 1][..i] == list[..i];
        Insert(list[i], hash);
        i := i + 1;
      }
      assert list[..i] == list;
    }

    /** The by-name finders: walk one chain. */
    method Lookup(key: K, hash: K -> nat) returns (r: Option<V>)
      requires chains.Length == HASH_TABLE_SIZE
      ensures r == Find(chains[..], hash, key)
    {
      var chain := chains[Slot(hash, key)];
      var i := 0;
      while i < |chain|
        invariant 0 <= i <= |chain|
        invariant FindIn(chain, key) == FindIn(chain[i..], key)
      {
        if chain[i].key == key {
          return Some(chain[i].value);
        }
        assert chain[i..][1..] == chain[i + 1..];
        i := i + 1;
      }
      r := None;
    }
  }
}
