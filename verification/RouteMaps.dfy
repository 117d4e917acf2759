/** From the text of a website to what its requests find: the program is parsed, the tables
    are filled by walking the linked lists (buildRouteMaps in routing.c), and a key is looked
    up. */
module RouteMaps {
  import opened Options
  import opened Lexical
  import opened Declarations
  import opened Grammar
  import opened NodeLists
  import opened Websites
  import opened Overrides
  import opened Parsing
  import HashTables

  /** One loop of buildRouteMaps: every node of the list, head first, gets an entry under its
      key. */
  method BuildTable<K(==)>(list: NodeList<Node>, key: Node -> K, hash: K -> nat)
    returns (table: HashTables.Table<K, nat>)
    requires list.Valid()
    ensures fresh(table) && fresh(table.chains)
    ensures table.chains[..] == HashTables.Build(Entries(list.Contents(), key), hash)
  {
    hide HashTables.Put;
    table := new HashTables.Table<K, nat>();
    var current := list.head;
    var i := 0;
    ghost var nodes := list.Contents();
    while current != null
      invariant 0 <= i <= |list.spine| && current == At(list.spine, i)
      invariant table.chains[..] == HashTables.Build(Entries(nodes[..i], key), hash)
      decreases |list.spine| - i
    {
      assert nodes[..i + 1][..i] == nodes[..i];
      EntriesSnoc(nodes[..i], current.value, key);
      assert nodes[..i + 1] == nodes[..i] + [current.value];
      table.Insert(HashTables.Entry(key(current.value), i), hash);
      current := current.next;
      i := i + 1;
    }
    assert nodes[..i] == nodes;
  }

  lemma EntriesSnoc<K>(list: seq<Node>, n: Node, key: Node -> K)
    ensures Entries(list + [n], key) == Entries(list, key) + [HashTables.Entry(key(n), |list|)]
    ensures Entries(list + [n], key)[..|list|] == Entries(list, key)
  {
    assert (list + [n])[..|list|] == list;
  }

  /** A key of one kind is looked up in the website that a text describes. There is an answer
      exactly when the text loads. It is the last declaration of that kind with the key, with
      the declarations of the included files in front of the website's own: one of the
      website's own exactly when it has one, nothing exactly when there is none at all. */
  method Serve<K(==)>(source: string, files: map<string, string>, kind: Kind, key: Node -> K, hash: K -> nat, k: K)
    returns (ok: bool, r: Option<nat>, ghost included: seq<Node>, ghost own: seq<Node>)
    requires NUL !in source && forall p :: p in files ==> NUL !in files[p]
    ensures ok <==> Loads(source, files)
    ensures ok ==> Describes(source, files, included, own)
    ensures ok ==>
      && LastAt(Of(kind, included + own), key, k, r)
      && (r.None? <==> !Has(included + own, kind, key, k))
      && (r.Some? ==> (r.value >= |Of(kind, included)| <==> Has(own, kind, key, k)))
  {
    hide Loads, Describes, Texts, DeclaredAll, Declared, Paths, Tokens, IsProgram, Ends, Parser.Valid, Of, Has,
      LastAt, Shift;
    var parser := new Parser(source, PROGRAM);
    var website, state, size, texts := ParseProgram(parser, files);
    ok, r, included, own := !parser.hadError, None, DeclaredAll(texts), Declared(Tokens(source, 2, size));
    if ok {
      DescribedBy(source, files, size, state.included, texts);
      var table := BuildTable(website.lists[Index(kind)], key, hash);
      r := table.Lookup(k, hash);
      OwnHidesIncluded(included, own, kind, key, hash, k);
    }
  }

  /** The declarations of the files a text includes, in order, and its own. */
  ghost predicate Describes(source: string, files: map<string, string>, included: seq<Node>, own: seq<Node>) {
    exists size: nat, texts: seq<seq<Lexeme>> :: Describing(source, files, included, own, size, texts)
  }

  predicate Describing(source: string, files: map<string, string>, included: seq<Node>, own: seq<Node>,
                       size: nat, texts: seq<seq<Lexeme>>) {
    && IsProgram(source, size)
    && Texts(Paths(Tokens(source, 2, size)), files, texts)
    && included == DeclaredAll(texts)
    && own == Declared(Tokens(source, 2, size))
  }

  lemma DescribedBy(source: string, files: map<string, string>, size: nat, paths: seq<string>, texts: seq<seq<Lexeme>>)
    requires IsProgram(source, size) && paths == Paths(Tokens(source, 2, size)) && Texts(paths, files, texts)
    ensures Describes(source, files, DeclaredAll(texts), Declared(Tokens(source, 2, size)))
  {
    hide IsProgram, Texts, Paths, Tokens, Declared, DeclaredAll;
    assert Describing(source, files, DeclaredAll(texts), Declared(Tokens(source, 2, size)), size, texts);
  }
}
