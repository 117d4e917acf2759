/** `webdsl migrate up` and `down` (migration.c) over a database whose queries may fail at
    any point. The schema is a value of any type; running a script is a function on it. */
module Migration {
  import opened Options
  import opened CStrings
  import opened Names

  const MAX_QUERY := 100000
  const BUFFER := 1024

  predicate Contains(s: string, d: string) {
    exists i :: 0 <= i <= |s| && Occurs(s, i, d)
  }

  /** executeQuery refuses long texts and texts with comment markers unseen. */
  predicate Refused(text: string) {
    |text| > MAX_QUERY || Contains(text, "--") || Contains(text, "/*")
  }

  /** What is fixed over a whole history: the scripts of each migration, what the server
      does with a text (all or nothing), and what the two statements on the migrations table
      do when the name pasted into them is no string literal. */
  datatype Project<!S> = Project(
    up: string -> string, down: string -> string, server: (S, string) -> Option<S>,
    brokenInsert: (seq<string>, string) -> Option<seq<string>>,
    brokenDelete: (seq<string>, string) -> Option<seq<string>>)

  /** The migrations table in order of id, and the schema. */
  datatype World<S> = World(table: seq<string>, schema: S)

  /** What may go wrong during one command: reaching the table and the directory, reading
      a script, running it, and changing the table. */
  datatype Luck = Luck(starts: bool, readable: string -> bool, runnable: string -> bool, recordable: string -> bool)

  function Execute<S>(p: Project<S>, schema: S, text: string): Option<S> {
    if Refused(text) then None else p.server(schema, text)
  }

  function InsertSql(name: string): string {
    "INSERT INTO migrations (name, checksum) VALUES ('" + name + "', '')"
  }

  function DeleteSql(name: string): string {
    "DELETE FROM migrations WHERE name = '" + name + "'"
  }

  /** What the server reads when a name is pasted between single quotes: a pair of quotes
      stands for one, and a single quote ends the literal too early. */
  function Literal(name: string): Option<string> {
    if name == "" then Some("")
    else if name[0] != '\'' then
      var rest := Literal(name[1..]);
      if rest.Some? then Some([name[0]] + rest.value) else None
    else if |name| > 1 && name[1] == '\'' then
      var rest := Literal(name[2..]);
      if rest.Some? then Some("'" + rest.value) else None
    else None
  }

  /** The table after the INSERT of a name; None when it fails. The column is unique. */
  function Recorded<S>(p: Project<S>, table: seq<string>, name: string): Option<seq<string>> {
    match Literal(name)
    case None => p.brokenInsert(table, name)
    case Some(stored) => if stored in table then None else Some(table + [stored])
  }

  function Without(table: seq<string>, name: string): seq<string> {
    if table == [] then []
    else Without(table[..|table| - 1], name) + if table[|table| - 1] == name then [] else [table[|table| - 1]]
  }

  /** The table after the DELETE of a name. */
  function Erased<S>(p: Project<S>, table: seq<string>, name: string): Option<seq<string>> {
    match Literal(name)
    case None => p.brokenDelete(table, name)
    case Some(stored) => Some(Without(table, stored))
  }

  function UpPath(name: string): string {
    "migrations/" + name + "/up.sql"
  }

  function DownPath(name: string): string {
    "migrations/" + name + "/down.sql"
  }

  /** How a command ended: everything done; stopped with table and schema in step; or
      stopped between running a script and changing the table. */
  datatype Status = Finished | Stopped | Unrecorded(name: string)

  function ReturnCode(s: Status): int {
    if s == Finished then 0 else 1
  }

  /** One pending migration. */
  function ApplyOne<S>(p: Project<S>, luck: Luck, w: World<S>, name: string): (r: (World<S>, Status))
  {
    if |UpPath(name)| + 1 >= BUFFER || !luck.readable(name) || !luck.runnable(name) then (w, Stopped)
    else
      match Execute(p, w.schema, p.up(name))
      case None => (w, Stopped)
      case Some(schema) =>
        var table := Recorded(p, w.table, name);
        if |InsertSql(name)| + 1 >= BUFFER || Refused(InsertSql(name)) || !luck.recordable(name) || table.None? then
          (World(w.table, schema), Unrecorded(name))
        else (World(table.value, schema), Finished)
  }

  function ApplyAll<S>(p: Project<S>, luck: Luck, w: World<S>, names: seq<string>): (World<S>, Status)
    decreases |names|
  {
    if names == [] then (w, Finished)
    else
      var (w', s) := ApplyOne(p, luck, w, names[0]);
      if s == Finished then ApplyAll(p, luck, w', names[1..]) else (w', s)
  }

  /** The names that are not in the table. */
  function Pending(names: seq<string>, table: seq<string>): seq<string> {
    if names == [] then []
    else (if names[0] in table then [] else [names[0]]) + Pending(names[1..], table)
  }

  function Up<S>(p: Project<S>, luck: Luck, w: World<S>, dirs: seq<string>): (World<S>, Status) {
    if !luck.starts then (w, Stopped) else ApplyAll(p, luck, w, Pending(Sort(dirs), w.table))
  }

  /** Reverts the migration recorded last. */
  function Down<S>(p: Project<S>, luck: Luck, w: World<S>): (World<S>, Status) {
    if !luck.starts then (w, Stopped)
    else if w.table == [] then (w, Finished)
    else
      var name := w.table[|w.table| - 1];
      if |DownPath(name)| + 1 >= BUFFER || !luck.readable(name) || !luck.runnable(name) then (w, Stopped)
      else
        match Execute(p, w.schema, p.down(name))
        case None => (w, Stopped)
        case Some(schema) =>
          var table := Erased(p, w.table, name);
          if |DeleteSql(name)| + 1 >= BUFFER || Refused(DeleteSql(name)) || !luck.recordable(name) || table.None? then
            (World(w.table, schema), Unrecorded(name))
          else (World(table.value, schema), Finished)
  }

  // ---------- names without quotes ----------

  predicate QuoteFree(name: string) {
    '\'' !in name
  }

  predicate Clean(names: seq<string>) {
    forall i :: 0 <= i < |names| ==> QuoteFree(names[i])
  }

  /** A name is stored as it is exactly when it has no quote; with quotes it gets shorter. */
  lemma {:induction false} LiteralExact(name: string)
    ensures Literal(name) == Some(name) <==> QuoteFree(name)
    ensures Literal(name).Some? && !QuoteFree(name) ==> |Literal(name).value| < |name|
    ensures Literal(name).Some? ==> |Literal(name).value| <= |name|
  {
    if name != "" {
      assert name == [name[0]] + name[1..];
      if name[0] != '\'' {
        LiteralExact(name[1..]);
      } else if |name| > 1 && name[1] == '\'' {
        LiteralExact(name[2..]);
      }
    }
  }

  lemma {:induction false} WithoutOther(table: seq<string>, name: string)
    requires name !in table
    ensures Without(table, name) == table
  {
    if table != [] {
      WithoutOther(table[..|table| - 1], name);
      assert table == table[..|table| - 1] + [table[|table| - 1]];
    }
  }

  /** Recording and erasing of a name without quotes. */
  lemma CleanStatements<S>(p: Project<S>, table: seq<string>, name: string)
    requires QuoteFree(name)
    ensures Recorded(p, table, name) == if name in table then None else Some(table + [name])
    ensures NoDuplicates(table) && table != [] && table[|table| - 1] == name ==>
      Erased(p, table, name) == Some(table[..|table| - 1])
  {
    LiteralExact(name);
    if NoDuplicates(table) && table != [] && table[|table| - 1] == name {
      WithoutOther(table[..|table| - 1], name);
      assert table[..|table| - 1] + [] == table[..|table| - 1];
    }
  }

  // ---------- coherence ----------

  predicate NoDuplicates(s: seq<string>) {
    forall i, j :: 0 <= i < j < |s| ==> s[i] != s[j]
  }

  /** The up scripts of the names, run in order. */
  function Composed<S>(p: Project<S>, base: S, names: seq<string>): Option<S>
    decreases |names|
  {
    if names == [] then Some(base)
    else
      match Composed(p, base, names[..|names| - 1])
      case None => None
      case Some(schema) => Execute(p, schema, p.up(names[|names| - 1]))
  }

  /** The schema is what the recorded migrations made of the base schema. */
  ghost predicate Coherent<S>(p: Project<S>, base: S, w: World<S>) {
    NoDuplicates(w.table) && Composed(p, base, w.table) == Some(w.schema)
  }

  /** Each down script undoes its up script. */
  ghost predicate Inverts<S(!new)>(p: Project<S>) {
    forall schema: S, name: string :: Execute(p, schema, p.up(name)).Some? ==>
      Execute(p, Execute(p, schema, p.up(name)).value, p.down(name)) == Some(schema)
  }

  lemma ComposedSnoc<S>(p: Project<S>, base: S, names: seq<string>, name: string)
    ensures Composed(p, base, names + [name]) ==
      if Composed(p, base, names).None? then None else Execute(p, Composed(p, base, names).value, p.up(name))
  {
    assert (names + [name])[..|names|] == names;
  }

  /** One migration keeps coherence unless its recording fails; then the schema is ahead of
      the table by exactly its script, so that coherence is lost exactly when the script
      changed the schema. */
  lemma ApplyOneCoherent<S>(p: Project<S>, luck: Luck, base: S, w: World<S>, name: string)
    requires Coherent(p, base, w) && QuoteFree(name)
    ensures var (w', s) := ApplyOne(p, luck, w, name);
      match s
      case Finished => Coherent(p, base, w') && w'.table == w.table + [name]
      case Stopped => w' == w
      case Unrecorded(x) =>
        && x == name && w'.table == w.table && Composed(p, base, w.table + [x]) == Some(w'.schema)
        && (Coherent(p, base, w') <==> w' == w)
  {
    hide Recorded, Refused;
    ComposedSnoc(p, base, w.table, name);
    CleanStatements(p, w.table, name);
  }

  predicate Prefix(a: seq<string>, b: seq<string>) {
    |a| <= |b| && a == b[..|a|]
  }

  /** The names a run of ApplyAll recorded. */
  function Added<S>(w: World<S>, w': World<S>): seq<string>
    requires |w.table| <= |w'.table|
  {
    w'.table[|w.table|..]
  }

  /** The table grows by a prefix of the names, by all of them exactly when the run
      finishes, and the schema stays in step unless a recording fails; then it is ahead by
      exactly the script that was not recorded, the one after the recorded prefix. */
  lemma {:induction false} ApplyAllCoherent<S>(p: Project<S>, luck: Luck, base: S, w: World<S>, names: seq<string>)
    requires Coherent(p, base, w) && Clean(names)
    ensures var (w', s) := ApplyAll(p, luck, w, names);
      && |w.table| <= |w'.table| && w'.table[..|w.table|] == w.table
      && Prefix(Added(w, w'), names)
      && (s == Finished <==> Added(w, w') == names)
      && (match s
          case Unrecorded(x) =>
            && |Added(w, w')| < |names| && x == names[|Added(w, w')|]
            && NoDuplicates(w'.table)
            && Composed(p, base, w'.table + [x]) == Some(w'.schema)
            && (Coherent(p, base, w') <==> Composed(p, base, w'.table) == Some(w'.schema))
          case _ => Coherent(p, base, w'))
    decreases |names|
  {
    hide ApplyOne, Composed, NoDuplicates;
    var (w', s) := ApplyAll(p, luck, w, names);
    if names == [] {
      AddedNone(w);
    } else {
      ApplyOneCoherent(p, luck, base, w, names[0]);
      var (w1, s1) := ApplyOne(p, luck, w, names[0]);
      if s1 == Finished {
        ApplyAllCoherent(p, luck, base, w1, names[1..]);
        AddedSome(w, w1, w', names);
      } else {
        AddedNone(w);
        AddedNone(w');
        assert w'.table == w.table;
        CoherentNames(p, base, w);
      }
    }
  }

  lemma CoherentNames<S>(p: Project<S>, base: S, w: World<S>)
    requires Coherent(p, base, w)
    ensures NoDuplicates(w.table)
  {
  }

  lemma AddedNone<S>(w: World<S>)
    ensures w.table[..|w.table|] == w.table && w.table[|w.table|..] == []
  {
  }

  lemma AddedSome<S>(w: World<S>, w1: World<S>, w': World<S>, names: seq<string>)
    requires names != [] && w1.table == w.table + [names[0]]
    requires |w1.table| <= |w'.table| && w'.table[..|w1.table|] == w1.table
    ensures w'.table[..|w.table|] == w.table
    ensures Added(w, w') == [names[0]] + Added(w1, w')
    ensures Prefix(Added(w, w'), names) <==> Prefix(Added(w1, w'), names[1..])
    ensures Added(w, w') == names <==> Added(w1, w') == names[1..]
  {
  }

  // ---------- one up ----------

  lemma {:induction false} PendingMembers(names: seq<string>, table: seq<string>)
    ensures forall x :: x in Pending(names, table) <==> x in names && x !in table
    ensures |Pending(names, table)| <= |names|
  {
    if names != [] {
      PendingMembers(names[1..], table);
      assert names == [names[0]] + names[1..];
    }
  }

  lemma {:induction false} PendingSame(names: seq<string>, table: seq<string>, table': seq<string>)
    requires forall x :: x in names ==> (x in table <==> x in table')
    ensures Pending(names, table) == Pending(names, table')
  {
    if names != [] {
      PendingSame(names[1..], table, table');
    }
  }

  /** What is pending once the first pending names have been recorded. */
  lemma {:induction false} PendingAfter(names: seq<string>, table: seq<string>, a: seq<string>)
    requires NoDuplicates(names) && Prefix(a, Pending(names, table))
    ensures Pending(names, table + a) == Pending(names, table)[|a|..]
    decreases |names|
  {
    var all := Pending(names, table);
    if a == [] {
      assert table + a == table;
    } else {
      var x := names[0];
      assert x !in names[1..];
      if x in table {
        PendingAfter(names[1..], table, a);
      } else {
        assert a[0] == x by { assert all[..|a|][0] == all[0]; }
        assert a[1..] == Pending(names[1..], table)[..|a| - 1];
        PendingAfter(names[1..], table, a[1..]);
        PendingSame(names[1..], table + a, table + a[1..]);
      }
    }
  }

  lemma SortNoDuplicates(dirs: seq<string>)
    requires NoDuplicates(dirs)
    ensures NoDuplicates(Sort(dirs))
  {
    SortSorts(dirs);
    MultisetNoDuplicates(dirs, Sort(dirs));
  }

  lemma MultisetNoDuplicates(a: seq<string>, b: seq<string>)
    requires NoDuplicates(a) && multiset(a) == multiset(b)
    ensures NoDuplicates(b)
  {
    forall i, j | 0 <= i < j < |b| ensures b[i] != b[j] {
      if b[i] == b[j] {
        assert b == b[..i] + [b[i]] + b[i + 1..j] + [b[j]] + b[j + 1..];
        assert multiset(b)[b[i]] >= 2;
        Once(a, b[i]);
      }
    }
  }

  lemma {:induction false} Once(a: seq<string>, x: string)
    requires NoDuplicates(a)
    ensures multiset(a)[x] <= 1
  {
    if a != [] {
      Once(a[1..], x);
      assert a == [a[0]] + a[1..];
      assert a[0] !in a[1..];
    }
  }

  /** One `up`, whatever goes wrong on the way: it appends to the table a prefix of the
      sorted directories that are not in it, and returns 0 exactly when it could start and
      that prefix is all of them; if no recording failed, table and schema stay in step. */
  lemma UpCoherent<S>(p: Project<S>, luck: Luck, base: S, w: World<S>, dirs: seq<string>)
    requires Coherent(p, base, w) && NoDuplicates(dirs) && Clean(dirs)
    ensures var (w', s) := Up(p, luck, w, dirs); var pending := Pending(Sort(dirs), w.table);
      && |w.table| <= |w'.table| && w'.table[..|w.table|] == w.table
      && Prefix(Added(w, w'), pending)
      && (ReturnCode(s) == 0 <==> luck.starts && Added(w, w') == pending)
      && NoDuplicates(w'.table)
      && (!s.Unrecorded? ==> Coherent(p, base, w'))
  {
    hide Composed;
    AddedNone(w);
    PendingClean(dirs, w.table);
    if luck.starts {
      ApplyAllCoherent(p, luck, base, w, Pending(Sort(dirs), w.table));
    }
  }

  lemma SortMembers(dirs: seq<string>, x: string)
    ensures x in Sort(dirs) <==> x in dirs
  {
    hide Sort;
    SortSorts(dirs);
    assert x in Sort(dirs) <==> x in multiset(Sort(dirs));
    assert x in dirs <==> x in multiset(dirs);
  }

  lemma PendingClean(dirs: seq<string>, table: seq<string>)
    requires Clean(dirs)
    ensures Clean(Pending(Sort(dirs), table))
  {
    hide Sort, Pending;
    PendingMembers(Sort(dirs), table);
    var pending := Pending(Sort(dirs), table);
    forall i | 0 <= i < |pending| ensures QuoteFree(pending[i]) {
      SortMembers(dirs, pending[i]);
      assert pending[i] in pending;
    }
  }

  lemma UpClean<S>(p: Project<S>, luck: Luck, base: S, w: World<S>, dirs: seq<string>)
    requires Coherent(p, base, w) && NoDuplicates(dirs) && Clean(dirs) && Clean(w.table)
    ensures Clean(Up(p, luck, w, dirs).0.table)
  {
    hide Up, Composed, Pending, Sort, QuoteFree;
    UpCoherent(p, luck, base, w, dirs);
    PendingClean(dirs, w.table);
    var w' := Up(p, luck, w, dirs).0;
    var pending := Pending(Sort(dirs), w.table);
    assert w'.table == w.table + Added(w, w');
    assert forall i :: 0 <= i < |Added(w, w')| ==> Added(w, w')[i] == pending[i];
  }

  /** The recorded and the pending names after one `up`. */
  lemma UpPending<S>(p: Project<S>, luck: Luck, base: S, w: World<S>, dirs: seq<string>)
    requires Coherent(p, base, w) && NoDuplicates(dirs) && Clean(dirs) && luck.starts
    ensures var (w', s) := Up(p, luck, w, dirs); var pending := Pending(Sort(dirs), w.table);
      |w.table| <= |w'.table| && |Added(w, w')| <= |pending|
      && Pending(Sort(dirs), w'.table) == pending[|Added(w, w')|..]
  {
    hide ApplyAll, Composed, Sort, Pending, Clean;
    var (w', s) := Up(p, luck, w, dirs);
    PendingClean(dirs, w.table);
    ApplyAllCoherent(p, luck, base, w, Pending(Sort(dirs), w.table));
    SortNoDuplicates(dirs);
    PendingAfter(Sort(dirs), w.table, Added(w, w'));
    assert w'.table == w.table + Added(w, w');
  }

  /** What the server stores for names that are literals. */
  function Stored(names: seq<string>): seq<string>
    requires forall i :: 0 <= i < |names| ==> Literal(names[i]).Some?
  {
    seq(|names|, i requires 0 <= i < |names| => Literal(names[i]).value)
  }

  predicate Literals(names: seq<string>) {
    forall i :: 0 <= i < |names| ==> Literal(names[i]).Some?
  }

  lemma {:induction false} AllStored<S>(p: Project<S>, luck: Luck, w: World<S>, names: seq<string>)
    requires Literals(names) && ApplyAll(p, luck, w, names).1 == Finished
    ensures ApplyAll(p, luck, w, names).0.table == w.table + Stored(names)
    decreases |names|
  {
    hide Refused, InsertSql, UpPath, Execute;
    if names == [] {
      assert w.table + Stored(names) == w.table;
    } else {
      var w1 := ApplyOne(p, luck, w, names[0]).0;
      AllStored(p, luck, w1, names[1..]);
      assert Stored(names) == [Literal(names[0]).value] + Stored(names[1..]);
    }
  }

  /** Names are stored as they are exactly when none has a quote. */
  lemma StoredExactly(names: seq<string>)
    requires Literals(names)
    ensures Stored(names) == names <==> Clean(names)
  {
    hide Literal, QuoteFree;
    forall i | 0 <= i < |names| ensures Stored(names)[i] == names[i] <==> QuoteFree(names[i]) {
      LiteralExact(names[i]);
    }
  }

  lemma {:induction false} ComposedCons<S>(p: Project<S>, base: S, x: string, rest: seq<string>)
    ensures Composed(p, base, [x] + rest) ==
      if Execute(p, base, p.up(x)).None? then None else Composed(p, Execute(p, base, p.up(x)).value, rest)
    decreases |rest|
  {
    hide Execute;
    var names := [x] + rest;
    if rest == [] {
      assert names[..0] == [] && names == [x];
      assert Composed(p, base, names[..0]) == Some(base);
    } else {
      var init, last := rest[..|rest| - 1], rest[|rest| - 1];
      ComposedCons(p, base, x, init);
      assert names[..|names| - 1] == [x] + init && names[|names| - 1] == last;
    }
  }

  /** How many of the names a run records. */
  function Recordings<S>(p: Project<S>, luck: Luck, w: World<S>, names: seq<string>): (k: nat)
    ensures k <= |names|
    decreases |names|
  {
    if names == [] then 0
    else
      var (w', s) := ApplyOne(p, luck, w, names[0]);
      if s == Finished then 1 + Recordings(p, luck, w', names[1..]) else 0
  }

  /** What the run of one migration does, quotes or not. */
  lemma OneGrows<S>(p: Project<S>, luck: Luck, w: World<S>, name: string)
    requires NoDuplicates(w.table) && Literal(name).Some?
    ensures var (w', s) := ApplyOne(p, luck, w, name); var ran := Execute(p, w.schema, p.up(name));
      match s
      case Finished => w'.table == w.table + [Literal(name).value] && NoDuplicates(w'.table) && ran == Some(w'.schema)
      case Stopped => w' == w
      case Unrecorded(x) => x == name && w'.table == w.table && ran == Some(w'.schema)
  {
    hide Refused, InsertSql, UpPath, Literal, Execute;
  }

  /** The scripts of the first names have run, in order, and that of one more if its
      recording failed; the stored names of the first ones are in the table. */
  lemma {:induction false} ApplyAllGrows<S>(p: Project<S>, luck: Luck, w: World<S>, names: seq<string>)
    requires NoDuplicates(w.table) && Literals(names)
    ensures var (w', s) := ApplyAll(p, luck, w, names); var k := Recordings(p, luck, w, names);
      && w'.table == w.table + Stored(names[..k]) && NoDuplicates(w'.table)
      && (s == Finished <==> k == |names|)
      && (s.Unrecorded? ==> k < |names| && s.name == names[k])
      && Composed(p, w.schema, names[..if s.Unrecorded? then k + 1 else k]) == Some(w'.schema)
    decreases |names|
  {
    hide ApplyOne, Composed, NoDuplicates, Literal, Execute;
    if names == [] {
      NothingRan(p, w, names);
    } else {
      OneGrows(p, luck, w, names[0]);
      var (w1, s1) := ApplyOne(p, luck, w, names[0]);
      if s1 == Finished {
        var k, s := Recordings(p, luck, w1, names[1..]), ApplyAll(p, luck, w1, names[1..]).1;
        ApplyAllGrows(p, luck, w1, names[1..]);
        assert Stored(names[..1 + k]) == [Literal(names[0]).value] + Stored(names[1..][..k]);
        var m := if s.Unrecorded? then k + 1 else k;
        assert names[..1 + m] == [names[0]] + names[1..][..m];
        ComposedCons(p, w.schema, names[0], names[1..][..m]);
      } else {
        NothingRan(p, w, names);
        assert names[..1] == [names[0]] + [];
        ComposedCons(p, w.schema, names[0], []);
        if s1.Unrecorded? {
          NothingRan(p, ApplyOne(p, luck, w, names[0]).0, names);
        }
      }
    }
  }

  lemma NothingRan<S>(p: Project<S>, w: World<S>, names: seq<string>)
    ensures w.table + Stored(names[..0]) == w.table && Composed(p, w.schema, names[..0]) == Some(w.schema)
    ensures Composed(p, w.schema, []) == Some(w.schema)
  {
  }

  /** One `up` with quotes only in pairs, whatever goes wrong on the way: it stores what the
      server makes of a prefix of the sorted pending directories, and returns 0 exactly when
      it could start and that prefix is all of them; the schema has seen the scripts of that
      prefix, and of one more directory if its recording failed. The table holds the names
      themselves exactly when none has a quote. */
  lemma UpGrows<S>(p: Project<S>, luck: Luck, w: World<S>, dirs: seq<string>) returns (k: nat)
    requires NoDuplicates(w.table) && Literals(Pending(Sort(dirs), w.table))
    ensures var (w', s) := Up(p, luck, w, dirs); var pending := Pending(Sort(dirs), w.table);
      && k <= |pending|
      && w'.table == w.table + Stored(pending[..k]) && NoDuplicates(w'.table)
      && (w'.table == w.table + pending[..k] <==> Clean(pending[..k]))
      && (ReturnCode(s) == 0 <==> luck.starts && k == |pending|)
      && (s.Unrecorded? ==> k < |pending| && s.name == pending[k])
      && Composed(p, w.schema, pending[..if s.Unrecorded? then k + 1 else k]) == Some(w'.schema)
  {
    hide Composed, NoDuplicates, Sort, Pending, Literal, Clean;
    var pending := Pending(Sort(dirs), w.table);
    k := if luck.starts then Recordings(p, luck, w, pending) else 0;
    if luck.starts {
      ApplyAllGrows(p, luck, w, pending);
    } else {
      NothingRan(p, w, pending);
    }
    StoredExactly(pending[..k]);
    SameTail(w.table, Stored(pending[..k]), pending[..k]);
  }

  lemma SameTail(a: seq<string>, b: seq<string>, c: seq<string>)
    ensures a + b == a + c <==> b == c
  {
    if a + b == a + c {
      assert (a + b)[|a|..] == b && (a + c)[|a|..] == c;
    }
  }

  /** The longest of the names with quotes. */
  lemma {:induction false} LongestQuoted(names: seq<string>) returns (k: nat)
    requires !Clean(names)
    ensures k < |names| && !QuoteFree(names[k])
    ensures forall i :: 0 <= i < |names| && !QuoteFree(names[i]) ==> |names[i]| <= |names[k]|
  {
    var init, last := names[..|names| - 1], names[|names| - 1];
    k := |names| - 1;
    if !Clean(init) {
      var j := LongestQuoted(init);
      if QuoteFree(last) || |init[j]| > |last| {
        k := j;
      }
    } else {
      assert forall i :: 0 <= i < |init| ==> names[i] == init[i] && QuoteFree(init[i]);
    }
  }

  /** After a successful `up` a directory with quotes is still pending. */
  lemma QuotedStaysPending(names: seq<string>, table: seq<string>)
    requires var pending := Pending(names, table); Literals(pending) && !Clean(pending)
    ensures Pending(names, table + Stored(Pending(names, table))) != []
  {
    var pending := Pending(names, table);
    var k := LongestQuoted(pending);
    var x := pending[k];
    PendingMembers(names, table);
    PendingMembers(names, table + Stored(pending));
    assert x in pending;
    if x in Stored(pending) {
      var i :| 0 <= i < |pending| && Literal(pending[i]).value == x;
      LiteralExact(pending[i]);
    }
  }

  /** A migration whose stored name is in the table already never gets recorded. */
  lemma NeverTwice<S>(p: Project<S>, luck: Luck, w: World<S>, names: seq<string>)
    requires names != [] && Literal(names[0]).Some? && Literal(names[0]).value in w.table
    ensures ApplyAll(p, luck, w, names).1 != Finished
  {
  }

  /** Where the server takes the pending names for literals, a second `up` after a successful
      one succeeds exactly when no pending name had a quote in it. Then it finds nothing to
      do and changes nothing, whatever would go wrong with scripts and recording; otherwise
      it finds a migration pending that was recorded under another name. */
  lemma SecondUpExactly<S>(p: Project<S>, luck: Luck, later: Luck, w: World<S>, dirs: seq<string>)
    requires NoDuplicates(dirs) && Literals(Pending(Sort(dirs), w.table))
    requires ReturnCode(Up(p, luck, w, dirs).1) == 0 && later.starts
    ensures var w' := Up(p, luck, w, dirs).0; var again := Up(p, later, w', dirs);
      && (ReturnCode(again.1) == 0 <==> Clean(Pending(Sort(dirs), w.table)))
      && (Clean(Pending(Sort(dirs), w.table)) ==> again == (w', Finished))
  {
    hide ApplyOne, Sort, Pending;
    var names, pending := Sort(dirs), Pending(Sort(dirs), w.table);
    var w' := Up(p, luck, w, dirs).0;
    AllStored(p, luck, w, pending);
    SortNoDuplicates(dirs);
    if Clean(pending) {
      forall i | 0 <= i < |pending| ensures Stored(pending)[i] == pending[i] {
        LiteralExact(pending[i]);
      }
      assert Stored(pending) == pending;
      PendingAfter(names, w.table, pending);
    } else {
      QuotedStaysPending(names, w.table);
      var left := Pending(names, w'.table);
      PendingMembers(names, w.table);
      PendingMembers(names, w'.table);
      assert left[0] in left && left[0] in pending;
      var i :| 0 <= i < |pending| && pending[i] == left[0];
      assert Stored(pending)[i] in w'.table;
      NeverTwice(p, later, w', left);
    }
  }

  /** For example: the directory `1_it''s` is recorded as `1_it's`, and the second `up` runs
      its script again and fails. */
  lemma QuotedNameRunsTwice<S>(p: Project<S>, luck: Luck, later: Luck, schema: S)
    requires ReturnCode(Up(p, luck, World([], schema), ["1_it''s"]).1) == 0 && later.starts
    ensures Up(p, luck, World([], schema), ["1_it''s"]).0.table == ["1_it's"]
    ensures ReturnCode(Up(p, later, Up(p, luck, World([], schema), ["1_it''s"]).0, ["1_it''s"]).1) == 1
  {
    hide ApplyOne, Literal;
    var name := "1_it''s";
    LiteralOfExample();
    SortOne(name);
    assert name[4] == '\'';
    AllStored(p, luck, World([], schema), [name]);
    assert [] + Stored([name]) == ["1_it's"];
    SecondUpExactly(p, luck, later, World([], schema), [name]);
  }

  const GOOD_LUCK := Luck(true, n => true, n => true, n => true)

  /** A project whose scripts are empty. */
  function BlankProject(): Project<int> {
    Project(n => "", n => "", (schema, text) => Some(schema), (table, n) => None, (table, n) => None)
  }

  /** The hypothesis of QuotedNameRunsTwice is met. */
  lemma QuotedNameIsRecorded()
    ensures ReturnCode(Up(BlankProject(), GOOD_LUCK, World([], 0), ["1_it''s"]).1) == 0
  {
    hide Literal, Refused, InsertSql, Sort, Pending;
    SortOne("1_it''s");
    LiteralOfExample();
    NotRefused();
    assert ["1_it''s"][1..] == [];
  }

  predicate Unmarked(s: string) {
    forall i :: 0 <= i < |s| ==> s[i] != '-' && s[i] != '/'
  }

  lemma UnmarkedWords()
    ensures Unmarked("INSERT INTO ") && Unmarked("migrations ") && Unmarked("(name, ")
    ensures Unmarked("checksum) ") && Unmarked("VALUES ('")
  {
  }

  lemma UnmarkedInto()
    ensures Unmarked("INSERT INTO migrations ")
  {
    UnmarkedWords();
    assert "INSERT INTO migrations " == "INSERT INTO " + "migrations ";
  }

  lemma UnmarkedColumns()
    ensures Unmarked("(name, checksum) VALUES ('")
  {
    UnmarkedWords();
    assert "(name, checksum) VALUES ('" == "(name, " + ("checksum) " + "VALUES ('");
  }

  lemma InsertUnmarked()
    ensures Unmarked("INSERT INTO migrations (name, checksum) VALUES ('")
  {
    UnmarkedInto();
    UnmarkedColumns();
    var whole := "INSERT INTO migrations (name, checksum) VALUES ('";
    assert "INSERT INTO migrations " + "(name, checksum) VALUES ('" == whole;
  }

  lemma NotRefused()
    ensures !Refused(InsertSql("1_it''s")) && |InsertSql("1_it''s")| + 1 < BUFFER && !Refused("")
  {
    hide Contains;
    InsertUnmarked();
    var start := "INSERT INTO migrations (name, checksum) VALUES ('";
    assert Unmarked("1_it''s") && Unmarked("', '')");
    assert Unmarked(start + "1_it''s" + "', '')");
    NoMarker(InsertSql("1_it''s"));
    NoMarker("");
  }

  lemma NoMarker(text: string)
    requires Unmarked(text)
    ensures !Contains(text, "--") && !Contains(text, "/*")
  {
    forall i | 0 <= i <= |text| ensures !Occurs(text, i, "--") && !Occurs(text, i, "/*") {
      if i + 2 <= |text| {
        assert text[i..i + 2][0] == text[i];
      }
    }
  }

  lemma SortOne(name: string)
    ensures Sort([name]) == [name] && Pending([name], []) == [name]
  {
    assert [name][1..] == [];
  }

  lemma LiteralOfExample()
    ensures Literal("1_it''s") == Some("1_it's")
  {
    hide Literal;
    assert ['s'] + "" == "s" && "''" + "s" == "''s" && "'" + "s" == "'s";
    assert ['t'] + "''s" == "t''s" && ['i'] + "t''s" == "it''s";
    assert ['_'] + "it''s" == "_it''s" && ['1'] + "_it''s" == "1_it''s";
    assert ['t'] + "'s" == "t's" && ['i'] + "t's" == "it's" && ['_'] + "it's" == "_it's" && ['1'] + "_it's" == "1_it's";
    LiteralStep('s', "", "");
    LiteralPair("s", "s");
    LiteralStep('t', "''s", "'s");
    LiteralStep('i', "t''s", "t's");
    LiteralStep('_', "it''s", "it's");
    LiteralStep('1', "_it''s", "_it's");
  }

  lemma LiteralStep(c: char, rest: string, stored: string)
    requires c != '\'' && (Literal(rest) == Some(stored) || rest == stored == "")
    ensures Literal([c] + rest) == Some([c] + stored)
  {
    assert ([c] + rest)[1..] == rest;
  }

  lemma LiteralPair(rest: string, stored: string)
    requires Literal(rest) == Some(stored)
    ensures Literal("''" + rest) == Some("'" + stored)
  {
    assert ("''" + rest)[2..] == rest;
  }

  /** After a failed recording, schema and table are in step only if the script happens to
      change nothing; and the next `up` that starts has that migration first in line again:
      it runs the script a second time. */
  lemma UnrecordedRunsAgain<S>(p: Project<S>, luck: Luck, base: S, w: World<S>, dirs: seq<string>)
    requires Coherent(p, base, w) && NoDuplicates(dirs) && Clean(dirs)
    requires Up(p, luck, w, dirs).1.Unrecorded?
    ensures var (w', s) := Up(p, luck, w, dirs);
      && Composed(p, base, w'.table + [s.name]) == Some(w'.schema)
      && (Coherent(p, base, w') <==> Composed(p, base, w'.table) == Composed(p, base, w'.table + [s.name]))
      && Pending(Sort(dirs), w'.table) != []
      && Pending(Sort(dirs), w'.table)[0] == s.name
  {
    hide ApplyOne, Composed, Sort, Pending;
    UpCoherent(p, luck, base, w, dirs);
    PendingClean(dirs, w.table);
    ApplyAllCoherent(p, luck, base, w, Pending(Sort(dirs), w.table));
    UpPending(p, luck, base, w, dirs);
  }

  // ---------- down ----------

  /** One `down`, whatever goes wrong: it removes the name recorded last and undoes its
      script; only a failed deletion leaves the schema behind the table. */
  lemma DownCoherent<S(!new)>(p: Project<S>, luck: Luck, base: S, w: World<S>)
    requires Coherent(p, base, w) && Inverts(p) && Clean(w.table)
    ensures var (w', s) := Down(p, luck, w);
      match s
      case Finished => Coherent(p, base, w') && w'.table == if w.table == [] then [] else w.table[..|w.table| - 1]
      case Stopped => w' == w
      case Unrecorded(x) =>
        && w.table != [] && x == w.table[|w.table| - 1] && w'.table == w.table
        && Composed(p, base, w.table[..|w.table| - 1]) == Some(w'.schema)
  {
    hide Erased, Refused;
    if w.table != [] {
      CleanStatements(p, w.table, w.table[|w.table| - 1]);
    }
  }

  /** A history of commands. */
  datatype Command = RunUp(luck: Luck, dirs: seq<string>) | RunDown(luck: Luck)

  function Apply<S>(p: Project<S>, w: World<S>, c: Command): (World<S>, Status) {
    match c
    case RunUp(luck, dirs) => Up(p, luck, w, dirs)
    case RunDown(luck) => Down(p, luck, w)
  }

  function History<S>(p: Project<S>, w: World<S>, cs: seq<Command>): World<S>
    decreases |cs|
  {
    if cs == [] then w else History(p, Apply(p, w, cs[0]).0, cs[1..])
  }

  /** No command of the history fails between running a script and changing the table. */
  predicate AllRecorded<S>(p: Project<S>, w: World<S>, cs: seq<Command>)
    decreases |cs|
  {
    cs == [] || (!Apply(p, w, cs[0]).1.Unrecorded? && AllRecorded(p, Apply(p, w, cs[0]).0, cs[1..]))
  }

  predicate GoodDirs(cs: seq<Command>) {
    forall i :: 0 <= i < |cs| && cs[i].RunUp? ==> NoDuplicates(cs[i].dirs) && Clean(cs[i].dirs)
  }

  /** Over every history of ups and downs in which every change of the table succeeds,
      even when reading or running scripts fails: no migration is recorded twice, and the
      schema is the recorded up scripts run in order. */
  lemma {:induction false} HistoryCoherent<S(!new)>(p: Project<S>, base: S, w: World<S>, cs: seq<Command>)
    requires Coherent(p, base, w) && Clean(w.table) && Inverts(p) && GoodDirs(cs) && AllRecorded(p, w, cs)
    ensures Coherent(p, base, History(p, w, cs)) && Clean(History(p, w, cs).table)
    decreases |cs|
  {
    hide Composed, Inverts, Up, Down, Coherent;
    if cs != [] {
      match cs[0] {
        case RunUp(luck, dirs) =>
          UpCoherent(p, luck, base, w, dirs);
          UpClean(p, luck, base, w, dirs);
        case RunDown(luck) => DownCoherent(p, luck, base, w);
      }
      HistoryCoherent(p, base, Apply(p, w, cs[0]).0, cs[1..]);
    }
  }

  /** Several downs that all succeed. */
  function Downs<S>(p: Project<S>, lucks: seq<Luck>, w: World<S>): (World<S>, bool)
    decreases |lucks|
  {
    if lucks == [] then (w, true)
    else
      var (w', s) := Down(p, lucks[0], w);
      if s != Finished then (w', false) else Downs(p, lucks[1..], w')
  }

  lemma {:induction false} DownsPop<S(!new)>(p: Project<S>, lucks: seq<Luck>, base: S, w: World<S>)
    requires Coherent(p, base, w) && Inverts(p) && Clean(w.table) && |lucks| <= |w.table|
    requires Downs(p, lucks, w).1
    ensures var w' := Downs(p, lucks, w).0;
      Coherent(p, base, w') && w'.table == w.table[..|w.table| - |lucks|]
    decreases |lucks|
  {
    hide Composed, Inverts, Down;
    if lucks == [] {
      AddedNone(w);
    } else {
      DownCoherent(p, lucks[0], base, w);
      var w1 := Down(p, lucks[0], w).0;
      DownsPop(p, lucks[1..], base, w1);
      assert w.table[..|w.table| - 1][..|w.table| - |lucks|] == w.table[..|w.table| - |lucks|];
    }
  }

  // ---------- refused scripts ----------

  lemma StartsSuspicious(s: string)
    requires |s| >= 2 && s[0] == '-' && s[1] == '-'
    ensures Refused(s)
  {
    assert s[0..2] == "--";
    assert Occurs(s, 0, "--");
  }

  /** The scripts that `migrate create` writes are comments, and never run. */
  lemma TemplatesRefused<S>(p: Project<S>, schema: S)
    ensures Execute(p, schema, "-- Write your migration up SQL here\n").None?
    ensures Execute(p, schema, "-- Write your migration down SQL here\n").None?
  {
    StartsSuspicious("-- Write your migration up SQL here\n");
    StartsSuspicious("-- Write your migration down SQL here\n");
  }

  // ---------- the command ----------

  /** The database the commands work on. */
  class Store<S> {
    var table: seq<string>
    var schema: S

    constructor (table: seq<string>, schema: S)
      ensures this.table == table && this.schema == schema
    {
      this.table := table;
      this.schema := schema;
    }

    ghost function Contents(): World<S>
      reads this
    {
      World(table, schema)
    }

    /** Runs a script if executeQuery lets it. */
    method Run(p: Project<S>, text: string) returns (ok: bool)
      modifies this`schema
      ensures var r := Execute(p, old(schema), text); ok == r.Some? && schema == if ok then r.value else old(schema)
    {
      var r := Execute(p, schema, text);
      ok := r.Some?;
      if ok {
        schema := r.value;
      }
    }
  }

  method IsApplied(applied: array<string>, name: string) returns (b: bool)
    ensures b == (name in applied[..])
  {
    var j := 0;
    while j < applied.Length
      invariant 0 <= j <= applied.Length
      invariant name !in applied[..j]
    {
      if name == applied[j] {
        return true;
      }
      j := j + 1;
    }
    assert applied[..j] == applied[..];
    b := false;
  }

  /** One turn of the applying loop for a pending migration. */
  method ApplyPending<S>(db: Store<S>, p: Project<S>, luck: Luck, name: string) returns (success: bool, ghost s: Status)
    modifies db
    ensures (db.Contents(), s) == ApplyOne(p, luck, old(db.Contents()), name)
    ensures success == (s == Finished)
  {
    if |UpPath(name)| + 1 >= BUFFER || !luck.readable(name) || !luck.runnable(name) {
      return false, Stopped;
    }
    var ok := db.Run(p, p.up(name));
    if !ok {
      return false, Stopped;
    }
    var stored := Recorded(p, db.table, name);
    if |InsertSql(name)| + 1 >= BUFFER || SuspiciousInsert(name) || !luck.recordable(name) || stored.None? {
      return false, Unrecorded(name);
    }
    db.table := stored.value;
    return true, Finished;
  }

  predicate SuspiciousInsert(name: string) {
    Refused(InsertSql(name))
  }

  lemma ApplyAllStep<S>(p: Project<S>, luck: Luck, w: World<S>, names: seq<string>, i: nat, table: seq<string>)
    requires i < |names|
    ensures var all := ApplyAll(p, luck, w, Pending(names[i..], table));
      if names[i] in table then all == ApplyAll(p, luck, w, Pending(names[i + 1..], table))
      else
        var (w', s) := ApplyOne(p, luck, w, names[i]);
        all == if s == Finished then ApplyAll(p, luck, w', Pending(names[i + 1..], table)) else (w', s)
  {
    assert names[i..][0] == names[i] && names[i..][1..] == names[i + 1..];
    var rest := Pending(names[i + 1..], table);
    if names[i] in table {
      assert Pending(names[i..], table) == [] + rest == rest;
    } else {
      assert Pending(names[i..], table) == [names[i]] + rest;
      assert ([names[i]] + rest)[1..] == rest;
    }
  }

  lemma NothingLeft<S>(p: Project<S>, luck: Luck, w: World<S>, names: seq<string>, table: seq<string>)
    ensures names == [] ==> ApplyAll(p, luck, w, Pending(names, table)) == (w, Finished)
  {
  }

  /** migrateUp: sorts the directories by exchanges, then walks them and applies those that
      were not in the table at the start, stopping at the first failure. */
  method MigrateUp<S>(db: Store<S>, p: Project<S>, luck: Luck, dirs: array<string>) returns (rc: int)
    requires dirs.Length <= 1000 && |db.table| <= 1000
    modifies db, dirs
    ensures var (w, s) := Up(p, luck, old(db.Contents()), old(dirs[..]));
      db.Contents() == w && rc == ReturnCode(s)
  {
    hide ApplyAll, ApplyOne, Pending, Sort;
    if !luck.starts {
      return 1;
    }
    ghost var w0 := db.Contents();
    var applied := new string[|db.table|](i requires 0 <= i < |db.table| reads db => db.table[i]);
    assert applied[..] == w0.table;
    ExchangeSort(dirs);
    ghost var names := dirs[..];
    assert names[0..] == names;
    var i := 0;
    while i < dirs.Length
      invariant 0 <= i <= dirs.Length && dirs[..] == names && applied[..] == w0.table
      invariant ApplyAll(p, luck, db.Contents(), Pending(names[i..], w0.table))
             == ApplyAll(p, luck, w0, Pending(names, w0.table))
    {
      ApplyAllStep(p, luck, db.Contents(), names, i, w0.table);
      assert names[i] == dirs[i];
      var isApplied := IsApplied(applied, dirs[i]);
      if !isApplied {
        var success;
        ghost var s;
        success, s := ApplyPending(db, p, luck, dirs[i]);
        if !success {
          return 1;
        }
      }
      i := i + 1;
    }
    NothingLeft(p, luck, db.Contents(), names[i..], w0.table);
    rc := 0;
  }

  /** migrateDown. */
  method MigrateDown<S>(db: Store<S>, p: Project<S>, luck: Luck) returns (rc: int)
    modifies db
    ensures var (w, s) := Down(p, luck, old(db.Contents()));
      db.Contents() == w && rc == ReturnCode(s)
  {
    if !luck.starts {
      return 1;
    }
    if db.table == [] {
      return 0;
    }
    var name := db.table[|db.table| - 1];
    if |DownPath(name)| + 1 >= BUFFER || !luck.readable(name) || !luck.runnable(name) {
      return 1;
    }
    var ok := db.Run(p, p.down(name));
    if !ok || |DeleteSql(name)| + 1 >= BUFFER {
      return 1;
    }
    var erased := Erased(p, db.table, name);
    if SuspiciousDelete(name) || !luck.recordable(name) || erased.None? {
      return 1;
    }
    db.table := erased.value;
    rc := 0;
  }

  predicate SuspiciousDelete(name: string) {
    Refused(DeleteSql(name))
  }
}
