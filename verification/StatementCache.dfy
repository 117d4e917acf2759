/** The cache of prepared statements (db.c): 64 buckets of statements, newest first. */
module StatementCache {
  import opened Options
  import opened StatementNames

  const STMT_HASH_SIZE: nat := 64

  /** A prepared statement: on which connection, for which SQL, under which name. */
  datatype Stmt = Stmt(conn: nat, sql: string, name: string)

  type Cache = seq<seq<Stmt>>

  function Bucket(hash: string -> nat, sql: string): (b: nat)
    ensures b < STMT_HASH_SIZE
  {
    hash(sql) % STMT_HASH_SIZE
  }

  /** findPreparedStmt: the first match in a bucket. */
  function FindIn(chain: seq<Stmt>, conn: nat, sql: string): (r: Option<Stmt>)
    ensures r.Some? ==> r.value in chain && r.value.conn == conn && r.value.sql == sql
    ensures r.None? ==> forall s :: s in chain ==> s.conn != conn || s.sql != sql
  {
    if chain == [] then None
    else if chain[0].conn == conn && chain[0].sql == sql then Some(chain[0])
    else FindIn(chain[1..], conn, sql)
  }

  function Find(c: Cache, hash: string -> nat, conn: nat, sql: string): Option<Stmt>
    requires |c| == STMT_HASH_SIZE
  {
    FindIn(c[Bucket(hash, sql)], conn, sql)
  }

  function Add(c: Cache, hash: string -> nat, s: Stmt): Cache
    requires |c| == STMT_HASH_SIZE
  {
    c[Bucket(hash, s.sql) := [s] + c[Bucket(hash, s.sql)]]
  }

  /** Every statement lies in the bucket of its SQL, and no connection has two for the
      same SQL. */
  predicate ValidCache(c: Cache, hash: string -> nat) {
    && |c| == STMT_HASH_SIZE
    && (forall b, i :: 0 <= b < STMT_HASH_SIZE && 0 <= i < |c[b]| ==> Bucket(hash, c[b][i].sql) == b)
    && (forall b, i, j :: 0 <= b < STMT_HASH_SIZE && 0 <= i < j < |c[b]| ==>
          c[b][i].conn != c[b][j].conn || c[b][i].sql != c[b][j].sql)
  }

  predicate Cached(c: Cache, s: Stmt) {
    exists b :: 0 <= b < |c| && s in c[b]
  }

  /** Looking up finds whatever is cached, and nothing else. */
  lemma FindsCached(c: Cache, hash: string -> nat, s: Stmt)
    requires ValidCache(c, hash)
    ensures Cached(c, s) <==> Find(c, hash, s.conn, s.sql) == Some(s)
  {
  }

  lemma AddKeeps(c: Cache, hash: string -> nat, s: Stmt)
    requires ValidCache(c, hash) && Find(c, hash, s.conn, s.sql).None?
    ensures ValidCache(Add(c, hash, s), hash)
    ensures forall x :: Cached(Add(c, hash, s), x) <==> x == s || Cached(c, x)
  {
    var b := Bucket(hash, s.sql);
    var c' := Add(c, hash, s);
    assert c'[b] == [s] + c[b];
    forall d, i, j | 0 <= d < STMT_HASH_SIZE && 0 <= i < j < |c'[d]|
      ensures c'[d][i].conn != c'[d][j].conn || c'[d][i].sql != c'[d][j].sql
    {
      if d == b {
        assert c'[d][j] == c[b][j - 1];
        if i == 0 {
          assert c[b][j - 1] in c[b];
        } else {
          assert c'[d][i] == c[b][i - 1];
        }
      }
    }
    forall d, i | 0 <= d < STMT_HASH_SIZE && 0 <= i < |c'[d]|
      ensures Bucket(hash, c'[d][i].sql) == d
    {
      if d == b && i > 0 {
        assert c'[d][i] == c[b][i - 1];
      }
    }
    forall x ensures Cached(c', x) <==> x == s || Cached(c, x) {
      if Cached(c', x) && x != s {
        var d :| 0 <= d < |c'| && x in c'[d];
        assert x in c[d];
      }
      if Cached(c, x) {
        var d :| 0 <= d < |c| && x in c[d];
        assert x in c'[d];
      }
      if x == s {
        assert x in c'[b];
      }
    }
  }

  // ---------- the cache object ----------

  /** The part of the Database object that the statement lock protects, with the counter
      for statement names. */
  class CacheObject {
    const table: array<seq<Stmt>>
    var counter: nat

    ghost predicate Valid(hash: string -> nat)
      reads this, table
    {
      ValidCache(table[..], hash)
    }

    constructor (hash: string -> nat)
      ensures Valid(hash) && fresh(table) && counter == 0
      ensures forall s :: !Cached(table[..], s)
    {
      table := new seq<Stmt>[STMT_HASH_SIZE](_ => []);
      counter := 0;
    }

    method FindPreparedStmt(hash: string -> nat, conn: nat, sql: string) returns (r: Option<Stmt>)
      requires Valid(hash)
      ensures r == Find(table[..], hash, conn, sql)
    {
      var chain := table[Bucket(hash, sql)];
      var i := 0;
      while i < |chain|
        invariant 0 <= i <= |chain|
        invariant FindIn(chain, conn, sql) == FindIn(chain[i..], conn, sql)
      {
        if chain[i].conn == conn && chain[i].sql == sql {
          return Some(chain[i]);
        }
        assert chain[i..][1..] == chain[i + 1..];
        i := i + 1;
      }
      r := None;
    }

    /** prepareSqlStatement. `accepted` says whether the server accepts PQprepare under the
        name it is given; a statement is cached only then, and the counter moves on even
        when it is not. */
    method PrepareSqlStatement(hash: string -> nat, conn: nat, pid: Pid, name: (Pid, nat) -> string,
                               sql: string, accepted: bool)
      returns (r: Option<Stmt>)
      requires Valid(hash)
      modifies this`counter, table
      ensures Valid(hash)
      ensures var found := Find(old(table[..]), hash, conn, sql);
        if found.Some? then r == found && table[..] == old(table[..]) && counter == old(counter)
        else
          && counter == old(counter) + 1
          && (if accepted then
                r == Some(Stmt(conn, sql, name(pid, old(counter)))) && table[..] == Add(old(table[..]), hash, r.value)
              else r.None? && table[..] == old(table[..]))
    {
      r := FindPreparedStmt(hash, conn, sql);
      if r.Some? {
        return;
      }
      var stmtName := name(pid, counter);
      counter := counter + 1;
      if !accepted {
        return None;
      }
      var b := Bucket(hash, sql);
      var stmt := Stmt(conn, sql, stmtName);
      AddKeeps(table[..], hash, stmt);
      ghost var before := table[..];
      table[b] := [stmt] + table[b];
      assert table[..] == Add(before, hash, stmt);
      r := Some(stmt);
    }
  }
}
