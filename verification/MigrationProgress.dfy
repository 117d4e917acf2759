/** When migrations succeed: the exact conditions under which `up` and `down` return 0, and
    what they have done then. */
module MigrationProgress {
  import opened Options
  import opened CStrings
  import opened Names
  import opened Migration

  // ---------- the statements on the migrations table ----------

  /** A name that goes through executeQuery inside a statement. */
  predicate Marked(name: string) {
    Contains(name, "--") || Contains(name, "/*")
  }

  lemma OccursAt(s: string, i: nat, d: string)
    requires |d| == 2
    ensures Occurs(s, i, d) <==> i + 2 <= |s| && s[i] == d[0] && s[i + 1] == d[1]
  {
    if i + 2 <= |s| {
      assert s[i..i + 2][0] == s[i] && s[i..i + 2][1] == s[i + 1];
      assert s[i..i + 2] == [s[i], s[i + 1]] && d == [d[0], d[1]];
    }
  }

  /** Between texts that hold no dash and no slash a marker can only lie inside the name. */
  lemma MarkerInside(head: string, name: string, tail: string, d: string)
    requires Unmarked(head) && Unmarked(tail) && (tail != "" ==> tail[0] != '*')
    requires d == "--" || d == "/*"
    ensures Contains(head + name + tail, d) <==> Contains(name, d)
  {
    var text := head + name + tail;
    forall i: nat | i <= |text| && Occurs(text, i, d) ensures Contains(name, d) {
      OccursAt(text, i, d);
      var k := i - |head|;
      assert 0 <= k && k + 2 <= |name|;
      OccursAt(name, k, d);
      assert Occurs(name, k, d);
    }
    forall k: nat | k <= |name| && Occurs(name, k, d) ensures Contains(text, d) {
      OccursAt(name, k, d);
      OccursAt(text, |head| + k, d);
      assert Occurs(text, |head| + k, d);
    }
  }

  lemma DeleteUnmarked()
    ensures Unmarked("DELETE FROM migrations WHERE name = '")
  {
    assert Unmarked("DELETE FROM ") && Unmarked("migrations ") && Unmarked("WHERE ") && Unmarked("name = '");
    assert "DELETE FROM migrations " == "DELETE FROM " + "migrations ";
    assert "WHERE name = '" == "WHERE " + "name = '";
    assert "DELETE FROM migrations WHERE name = '" == "DELETE FROM migrations " + "WHERE name = '";
  }

  /** The lengths that the buffers of 1024 bytes leave for a name. */
  const LONGEST_INSERTED: nat := 967
  const LONGEST_DELETED: nat := 984
  const LONGEST_REVERTED: nat := 1002

  lemma InsertFits(name: string)
    ensures |InsertSql(name)| + 1 >= BUFFER || Refused(InsertSql(name)) <==>
      |name| > LONGEST_INSERTED || Marked(name)
    ensures |UpPath(name)| + 1 >= BUFFER ==> |name| > LONGEST_INSERTED
  {
    hide Contains;
    InsertUnmarked();
    assert Unmarked("', '')");
    MarkerInside("INSERT INTO migrations (name, checksum) VALUES ('", name, "', '')", "--");
    MarkerInside("INSERT INTO migrations (name, checksum) VALUES ('", name, "', '')", "/*");
  }

  lemma DeleteFits(name: string)
    ensures |DeleteSql(name)| + 1 >= BUFFER || Refused(DeleteSql(name)) <==>
      |name| > LONGEST_DELETED || Marked(name)
    ensures |DownPath(name)| + 1 >= BUFFER <==> |name| > LONGEST_REVERTED
  {
    hide Contains;
    DeleteUnmarked();
    assert Unmarked("'");
    MarkerInside("DELETE FROM migrations WHERE name = '", name, "'", "--");
    MarkerInside("DELETE FROM migrations WHERE name = '", name, "'", "/*");
  }

  // ---------- one migration ----------

  /** The script of a text brings the schema to another: it is no longer than the limit, has
      no comment marker, and the server takes it. */
  predicate Runs<S(==)>(p: Project<S>, schema: S, text: string, result: S) {
    |text| <= 100000 && !Marked(text) && p.server(schema, text) == Some(result)
  }

  lemma RunsExecutes<S>(p: Project<S>, schema: S, text: string, result: S)
    ensures Runs(p, schema, text, result) <==> Execute(p, schema, text) == Some(result)
  {
  }

  /** Reading the script, running it and changing the table all work. */
  predicate Works(luck: Luck, name: string) {
    luck.readable(name) && luck.runnable(name) && luck.recordable(name)
  }

  /** The migration can be recorded under its name. */
  predicate Recordable(name: string) {
    |name| <= LONGEST_INSERTED && !Marked(name)
  }

  /** A pending migration succeeds exactly when everything works, its name can be recorded,
      and its script runs; then its name is the last one and the schema what the script made. */
  lemma OneExactly<S>(p: Project<S>, luck: Luck, w: World<S>, name: string)
    requires QuoteFree(name) && name !in w.table
    ensures var (w', s) := ApplyOne(p, luck, w, name);
      && (s == Finished <==>
            Works(luck, name) && Recordable(name) && exists result :: Runs(p, w.schema, p.up(name), result))
      && (s == Finished ==> w'.table == w.table + [name] && Runs(p, w.schema, p.up(name), w'.schema))
  {
    hide InsertSql, UpPath, Refused, Runs, Execute, Marked;
    InsertFits(name);
    CleanStatements(p, w.table, name);
    var ran := Execute(p, w.schema, p.up(name));
    forall result ensures Runs(p, w.schema, p.up(name), result) <==> ran == Some(result) {
      RunsExecutes(p, w.schema, p.up(name), result);
    }
    assert ran.Some? ==> Runs(p, w.schema, p.up(name), ran.value);
  }

  /** The migration recorded last is reverted exactly when the command starts, everything works,
      the name goes through the statement, and its down script runs; then the name is gone and
      the schema is what the script made. Nothing changes if the command cannot start, or the
      script cannot be read or run; and if only the table cannot be changed, the schema has
      changed by itself. */
  lemma DownExactly<S>(p: Project<S>, luck: Luck, w: World<S>, name: string)
    requires w.table != [] && name == w.table[|w.table| - 1] && QuoteFree(name) && NoDuplicates(w.table)
    ensures var (w', s) := Down(p, luck, w);
      var runs := luck.starts && |name| <= LONGEST_REVERTED && luck.readable(name) && luck.runnable(name)
        && exists result :: Runs(p, w.schema, p.down(name), result);
      && (s == Stopped <==> !runs)
      && (s == Finished <==> runs && luck.recordable(name) && |name| <= LONGEST_DELETED && !Marked(name))
      && (s == Stopped ==> w' == w)
      && (s != Stopped ==> Runs(p, w.schema, p.down(name), w'.schema))
      && (s == Finished ==> w'.table == w.table[..|w.table| - 1])
      && (s.Unrecorded? ==> w'.table == w.table)
  {
    hide DeleteSql, DownPath, Refused, Runs, Execute, Marked;
    DeleteFits(name);
    CleanStatements(p, w.table, name);
    var ran := Execute(p, w.schema, p.down(name));
    forall result ensures Runs(p, w.schema, p.down(name), result) <==> ran == Some(result) {
      RunsExecutes(p, w.schema, p.down(name), result);
    }
    assert ran.Some? ==> Runs(p, w.schema, p.down(name), ran.value);
  }

  /** With an empty table there is nothing to revert. */
  lemma DownNothing<S>(p: Project<S>, luck: Luck, w: World<S>)
    requires w.table == []
    ensures Down(p, luck, w).0 == w
    ensures ReturnCode(Down(p, luck, w).1) == 0 <==> luck.starts
  {
    assert w.table == [];
  }

  // ---------- up ----------

  /** The scripts of the names, run one after the other, bring the schema to the result. */
  ghost predicate Reaches<S(!new)>(p: Project<S>, schema: S, names: seq<string>, result: S)
    decreases |names|
  {
    if names == [] then result == schema
    else exists next :: Runs(p, schema, p.up(names[0]), next) && Reaches(p, next, names[1..], result)
  }

  predicate AllRecordable(luck: Luck, names: seq<string>) {
    forall i :: 0 <= i < |names| ==> Works(luck, names[i]) && Recordable(names[i])
  }

  lemma {:induction false} ApplyAllExactly<S(!new)>(p: Project<S>, luck: Luck, w: World<S>, names: seq<string>)
    requires Clean(names) && NoDuplicates(names) && forall x :: x in names ==> x !in w.table
    ensures var (w', s) := ApplyAll(p, luck, w, names);
      && (s == Finished <==> AllRecordable(luck, names) && exists result :: Reaches(p, w.schema, names, result))
      && (s == Finished ==> w'.table == w.table + names && Reaches(p, w.schema, names, w'.schema))
    decreases |names|
  {
    hide ApplyOne, Runs, Works, Recordable, QuoteFree;
    var (w', s) := ApplyAll(p, luck, w, names);
    if names == [] {
      assert w.table + names == w.table;
      assert Reaches(p, w.schema, names, w.schema);
    } else {
      assert names[0] in names && QuoteFree(names[0]);
      OneExactly(p, luck, w, names[0]);
      var (w1, s1) := ApplyOne(p, luck, w, names[0]);
      assert forall i :: 0 <= i < |names[1..]| ==> names[1..][i] == names[i + 1];
      if s1 == Finished {
        assert forall x :: x in names[1..] ==> x in names && x != names[0];
        ApplyAllExactly(p, luck, w1, names[1..]);
        OneResult(p, w, w1, names);
        assert w.table + names == w1.table + names[1..];
      } else {
        forall result | Reaches(p, w.schema, names, result)
          ensures exists next :: Runs(p, w.schema, p.up(names[0]), next)
        {
        }
      }
      FirstAndRest(luck, names);
      if s == Finished {
        assert Reaches(p, w.schema, names, w'.schema);
      }
      if AllRecordable(luck, names) && exists result :: Reaches(p, w.schema, names, result) {
        var result :| Reaches(p, w.schema, names, result);
        assert Reaches(p, w1.schema, names[1..], result);
      }
    }
  }

  lemma FirstAndRest(luck: Luck, names: seq<string>)
    requires names != []
    ensures AllRecordable(luck, names) <==>
      Works(luck, names[0]) && Recordable(names[0]) && AllRecordable(luck, names[1..])
  {
    hide Works, Recordable;
    assert forall i :: 0 <= i < |names[1..]| ==> names[1..][i] == names[i + 1];
    forall i | 0 < i < |names| && AllRecordable(luck, names[1..])
      ensures Works(luck, names[i]) && Recordable(names[i])
    {
      assert names[i] == names[1..][i - 1];
    }
  }

  lemma OneResult<S(!new)>(p: Project<S>, w: World<S>, w1: World<S>, names: seq<string>)
    requires names != [] && Runs(p, w.schema, p.up(names[0]), w1.schema)
    ensures forall result :: Reaches(p, w1.schema, names[1..], result) ==> Reaches(p, w.schema, names, result)
    ensures forall result :: Reaches(p, w.schema, names, result) ==> Reaches(p, w1.schema, names[1..], result)
  {
    forall result | Reaches(p, w.schema, names, result) ensures Reaches(p, w1.schema, names[1..], result) {
      var next :| Runs(p, w.schema, p.up(names[0]), next) && Reaches(p, next, names[1..], result);
    }
  }

  /** `up` returns 0 exactly when it can start, everything works for every pending directory,
      their names can be recorded, and their scripts run one after the other. Then all of them
      are recorded in order behind what was there, and the schema is where the scripts lead. */
  lemma UpExactly<S(!new)>(p: Project<S>, luck: Luck, w: World<S>, dirs: seq<string>)
    requires NoDuplicates(dirs) && Clean(dirs)
    ensures var (w', s) := Up(p, luck, w, dirs); var pending := Pending(Sort(dirs), w.table);
      && (ReturnCode(s) == 0 <==>
            luck.starts && AllRecordable(luck, pending) && exists result :: Reaches(p, w.schema, pending, result))
      && (ReturnCode(s) == 0 ==> w'.table == w.table + pending && Reaches(p, w.schema, pending, w'.schema))
  {
    hide ApplyAll, Sort, Pending, Reaches, AllRecordable, NoDuplicates;
    PendingClean(dirs, w.table);
    SortNoDuplicates(dirs);
    PendingNoDuplicates(Sort(dirs), w.table);
    PendingMembers(Sort(dirs), w.table);
    ApplyAllExactly(p, luck, w, Pending(Sort(dirs), w.table));
  }

  lemma {:induction false} PendingNoDuplicates(names: seq<string>, table: seq<string>)
    requires NoDuplicates(names)
    ensures NoDuplicates(Pending(names, table))
  {
    if names != [] {
      PendingNoDuplicates(names[1..], table);
      PendingMembers(names[1..], table);
      var rest := Pending(names[1..], table);
      assert forall i :: 0 <= i < |names[1..]| ==> names[1..][i] == names[i + 1];
      assert names[0] !in rest;
      forall i, j | 0 <= i < j < |[names[0]] + rest| ensures ([names[0]] + rest)[i] != ([names[0]] + rest)[j] {
        assert rest[j - 1] in rest;
      }
    }
  }

  // ---------- up and back ----------

  /** The names of the table, the last one first. */
  function FromLast(table: seq<string>, i: nat): string
    requires i < |table|
  {
    table[|table| - 1 - i]
  }

  /** Nothing goes wrong when the name is taken back. */
  predicate Revertible(luck: Luck, name: string) {
    luck.starts && Works(luck, name) && |name| <= LONGEST_DELETED && !Marked(name)
  }

  predicate AllRevertible(lucks: seq<Luck>, table: seq<string>)
    requires |lucks| <= |table|
  {
    forall i :: 0 <= i < |lucks| ==> Revertible(lucks[i], FromLast(table, i))
  }

  /** In step with its scripts, a database can be taken back exactly as far as everything works
      and the names go through the statement: that the down scripts run follows. */
  lemma {:induction false} DownsExactly<S(!new)>(p: Project<S>, lucks: seq<Luck>, base: S, w: World<S>)
    requires Coherent(p, base, w) && Inverts(p) && Clean(w.table) && |lucks| <= |w.table|
    ensures Downs(p, lucks, w).1 <==> AllRevertible(lucks, w.table)
    decreases |lucks|
  {
    if lucks != [] {
      var name := w.table[|w.table| - 1];
      assert QuoteFree(name);
      DownExactly(p, lucks[0], w, name);
      LastRuns(p, base, w, name);
      DownCoherent(p, lucks[0], base, w);
      var (w1, s) := Down(p, lucks[0], w);
      if s == Finished {
        hide Down, Composed, Inverts, Works, Marked, QuoteFree;
        DownsExactly(p, lucks[1..], base, w1);
        RestRevertible(lucks, w.table);
      } else {
        assert !Revertible(lucks[0], FromLast(w.table, 0));
      }
    }
  }

  lemma RestRevertible(lucks: seq<Luck>, table: seq<string>)
    requires lucks != [] && |lucks| <= |table|
    ensures AllRevertible(lucks, table) <==>
      Revertible(lucks[0], FromLast(table, 0)) && AllRevertible(lucks[1..], table[..|table| - 1])
  {
    hide Revertible;
    var rest := table[..|table| - 1];
    assert forall i :: 0 <= i < |lucks| - 1 ==> lucks[1..][i] == lucks[i + 1]
                                                && FromLast(rest, i) == FromLast(table, i + 1);
    if AllRevertible(lucks[1..], rest) {
      forall i | 0 < i < |lucks| ensures Revertible(lucks[i], FromLast(table, i)) {
        assert Revertible(lucks[1..][i - 1], FromLast(rest, i - 1));
      }
    }
  }

  /** The down script of the last name runs. */
  lemma LastRuns<S(!new)>(p: Project<S>, base: S, w: World<S>, name: string)
    requires Coherent(p, base, w) && Inverts(p) && w.table != [] && name == w.table[|w.table| - 1]
    ensures exists result :: Runs(p, w.schema, p.down(name), result)
  {
    hide Execute, Runs;
    var before := Composed(p, base, w.table[..|w.table| - 1]).value;
    assert Execute(p, before, p.up(name)) == Some(w.schema);
    RunsExecutes(p, w.schema, p.down(name), before);
  }

  /** What `up` has recorded goes through every later statement. */
  lemma {:induction false} RecordedFits<S>(p: Project<S>, luck: Luck, base: S, w: World<S>, names: seq<string>)
    requires Coherent(p, base, w) && Clean(names)
    ensures var w' := ApplyAll(p, luck, w, names).0;
      |w.table| <= |w'.table| && forall i :: |w.table| <= i < |w'.table| ==> Recordable(w'.table[i])
    decreases |names|
  {
    hide ApplyOne, Composed, Recordable, QuoteFree, NoDuplicates;
    if names != [] {
      assert QuoteFree(names[0]);
      ApplyOneCoherent(p, luck, base, w, names[0]);
      OneFits(p, luck, w, names[0]);
      var (w1, s1) := ApplyOne(p, luck, w, names[0]);
      if s1 == Finished {
        assert forall i :: 0 <= i < |names[1..]| ==> names[1..][i] == names[i + 1];
        RecordedFits(p, luck, base, w1, names[1..]);
        ApplyAllCoherent(p, luck, base, w1, names[1..]);
        var w' := ApplyAll(p, luck, w, names).0;
        assert w'.table[|w.table|] == w'.table[..|w1.table|][|w.table|] == names[0];
      }
    }
  }

  lemma OneFits<S>(p: Project<S>, luck: Luck, w: World<S>, name: string)
    ensures ApplyOne(p, luck, w, name).1 == Finished ==> Recordable(name)
  {
    hide InsertSql, UpPath, Refused, Execute, Marked;
    InsertFits(name);
  }

  /** As many downs as an `up` recorded migrations, also when it stopped half-way, restore table
      and schema; and they succeed exactly when each of them starts and reads, runs and records
      its migration, the last recorded first. */
  lemma UpThenDowns<S(!new)>(p: Project<S>, luck: Luck, lucks: seq<Luck>, base: S, w: World<S>, dirs: seq<string>)
    requires Coherent(p, base, w) && Inverts(p) && NoDuplicates(dirs) && Clean(dirs) && Clean(w.table)
    requires !Up(p, luck, w, dirs).1.Unrecorded?
    requires |Up(p, luck, w, dirs).0.table| == |w.table| + |lucks|
    ensures var table := Up(p, luck, w, dirs).0.table; var back := Downs(p, lucks, Up(p, luck, w, dirs).0);
      && (back.1 <==> forall i :: 0 <= i < |lucks| ==> lucks[i].starts && Works(lucks[i], FromLast(table, i)))
      && (back.1 ==> back.0 == w)
  {
    hide Inverts, Up, Down, Downs, Works, Marked, Composed;
    UpCoherent(p, luck, base, w, dirs);
    UpClean(p, luck, base, w, dirs);
    var w' := Up(p, luck, w, dirs).0;
    UpFits(p, luck, base, w, dirs);
    DownsExactly(p, lucks, base, w');
    assert forall i :: 0 <= i < |lucks| ==> Recordable(FromLast(w'.table, i));
    if Downs(p, lucks, w').1 {
      DownsPop(p, lucks, base, w');
      SameSchema(p, base, w, Downs(p, lucks, w').0);
    }
  }

  lemma UpFits<S>(p: Project<S>, luck: Luck, base: S, w: World<S>, dirs: seq<string>)
    requires Coherent(p, base, w) && Clean(dirs)
    ensures var w' := Up(p, luck, w, dirs).0;
      |w.table| <= |w'.table| && forall i :: |w.table| <= i < |w'.table| ==> Recordable(w'.table[i])
  {
    hide ApplyAll, Composed, Recordable, Sort, Pending, Clean;
    PendingClean(dirs, w.table);
    RecordedFits(p, luck, base, w, Pending(Sort(dirs), w.table));
  }

  lemma SameSchema<S>(p: Project<S>, base: S, a: World<S>, b: World<S>)
    requires Coherent(p, base, a) && Coherent(p, base, b) && a.table == b.table
    ensures a == b
  {
  }
}
