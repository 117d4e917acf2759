/** Any number of threads running queries over the pool and the statement cache. The
    bodies under the two locks are single steps; between them threads interleave freely.
    What the server does (accepting connections and statements, losing a connection) is
    chosen by the event. */
module Database {
  import opened Options
  import opened ConnectionPool
  import opened StatementCache
  import opened StatementNames

  /** The statement naming and hashing functions. */
  datatype Config = Config(name: (Pid, nat) -> string, hash: string -> nat)

  /** Where a thread is in executePreparedStatement or executeQuery. */
  datatype Pc =
    | Holding(conn: nat, sql: string)               // has a connection, will prepare
    | Prepared(conn: nat, sql: string, stmt: Stmt)  // has its statement, will execute
    | Plain(conn: nat)                              // has a connection, will PQexec
    | Releasing(conn: nat)                          // will return its connection

  /** An executed prepared statement: the name sent to the connection, what was meant, what
      the server had under that name, and whether the connection had been reset since the
      statement was cached. */
  datatype Executed = Executed(conn: nat, sql: string, name: string, found: Option<string>, stale: bool)

  datatype State = State(
    pool: Pool,
    cache: Cache,
    counter: nat,
    threads: map<nat, Pc>,                      // threads not listed are idle
    server: map<nat, map<string, string>>,      // per connection, the prepared names
    stale: set<(nat, string)>,                  // cached before the connection's last reset
    log: seq<Executed>)

  datatype Event =
    | BeginPrepared(t: nat, sql: string, accepts: bool)
    | BeginPlain(t: nat, accepts: bool)
    | Prepare(t: nat, pid: Pid, accepted: bool)
    | Execute(t: nat)
    | Release(t: nat, broken: bool)

  /** The prepared names of a connection; a fresh connection has none. */
  function NamesOf(s: State, conn: nat): map<string, string> {
    if conn in s.server then s.server[conn] else map[]
  }

  function Lookup(m: map<string, string>, name: string): Option<string> {
    if name in m then Some(m[name]) else None
  }

  function Begin(s: State, t: nat, accepts: bool, pc: nat -> Pc): Option<State>
    requires ValidPool(s.pool)
  {
    if t in s.threads then None
    else
      var (pool, r) := Get(s.pool, accepts);
      match r
      case None => Some(s)   // no connection: the query returns NULL
      case Some(conn) => Some(s.(pool := pool, threads := s.threads[t := pc(conn)]))
  }

  /** prepareSqlStatement and, on the server, PQprepare: it fails when the server rejects
      the text, and when the name is taken. */
  function PrepareStep(cfg: Config, s: State, t: nat, pid: Pid, accepted: bool): Option<State>
    requires ValidCache(s.cache, cfg.hash)
  {
    if t !in s.threads || !s.threads[t].Holding? then None
    else
      var conn, sql := s.threads[t].conn, s.threads[t].sql;
      match Find(s.cache, cfg.hash, conn, sql)
      case Some(stmt) => Some(s.(threads := s.threads[t := Prepared(conn, sql, stmt)]))
      case None =>
        var name := cfg.name(pid, s.counter);
        if !accepted || name in NamesOf(s, conn) then
          Some(s.(counter := s.counter + 1, threads := s.threads[t := Releasing(conn)]))
        else
          var stmt := Stmt(conn, sql, name);
          Some(s.(counter := s.counter + 1,
                  cache := Add(s.cache, cfg.hash, stmt),
                  server := s.server[conn := NamesOf(s, conn)[name := sql]],
                  threads := s.threads[t := Prepared(conn, sql, stmt)]))
  }

  function ExecuteStep(s: State, t: nat): Option<State> {
    if t !in s.threads then None
    else
      match s.threads[t]
      case Prepared(conn, sql, stmt) =>
        var found := Lookup(NamesOf(s, conn), stmt.name);
        Some(s.(log := s.log + [Executed(conn, sql, stmt.name, found, (conn, sql) in s.stale)],
                threads := s.threads[t := Releasing(conn)]))
      case Plain(conn) => Some(s.(threads := s.threads[t := Releasing(conn)]))
      case _ => None
  }

  /** The pairs cached for a connection. */
  function CachedOn(c: Cache, conn: nat): set<(nat, string)> {
    set b, i | 0 <= b < |c| && 0 <= i < |c[b]| && c[b][i].conn == conn :: (conn, c[b][i].sql)
  }

  /** returnConnection; a broken server connection is reset, which loses its prepared
      statements while the cache keeps them. */
  function ReleaseStep(s: State, t: nat, broken: bool): Option<State> {
    if t !in s.threads || !s.threads[t].Releasing? then None
    else
      var conn := s.threads[t].conn;
      var s' := s.(pool := Return(s.pool, conn), threads := s.threads - {t});
      if broken then
        Some(s'.(server := s.server[conn := map[]], stale := s.stale + CachedOn(s.cache, conn)))
      else Some(s')
  }

  /** One step, when the thread is at the right place for it. */
  function Step(cfg: Config, s: State, e: Event): Option<State>
    requires ValidPool(s.pool) && ValidCache(s.cache, cfg.hash)
  {
    match e
    case BeginPrepared(t, sql, accepts) => Begin(s, t, accepts, (conn: nat) => Holding(conn, sql))
    case BeginPlain(t, accepts) => Begin(s, t, accepts, (conn: nat) => Plain(conn))
    case Prepare(t, pid, accepted) => PrepareStep(cfg, s, t, pid, accepted)
    case Execute(t) => ExecuteStep(s, t)
    case Release(t, broken) => ReleaseStep(s, t, broken)
  }

  // ---------- the invariant ----------

  /** A connection is in use exactly when one thread holds it, and never two. */
  ghost predicate Exclusive(s: State) {
    && (forall t, u :: t in s.threads && u in s.threads && t != u ==> s.threads[t].conn != s.threads[u].conn)
    && (forall t :: t in s.threads ==> s.threads[t].conn in InUse(s.pool))
    && (forall c :: c in InUse(s.pool) ==> exists t :: t in s.threads && s.threads[t].conn == c)
  }

  /** A thread about to execute has the cached statement for its own connection and SQL. */
  ghost predicate ThreadsPrepared(s: State) {
    forall t :: t in s.threads && s.threads[t].Prepared? ==>
      var pc := s.threads[t];
      Cached(s.cache, pc.stmt) && pc.stmt.conn == pc.conn && pc.stmt.sql == pc.sql
  }

  /** Unless its connection has been reset since, a cached statement is what the server
      has prepared on that connection under that name. */
  ghost predicate CacheMatchesServer(s: State) {
    forall x: Stmt :: Cached(s.cache, x) && (x.conn, x.sql) !in s.stale ==>
      Lookup(NamesOf(s, x.conn), x.name) == Some(x.sql)
  }

  ghost predicate LogSafe(log: seq<Executed>) {
    forall i :: 0 <= i < |log| && !log[i].stale ==> log[i].found == Some(log[i].sql)
  }

  ghost predicate Inv(cfg: Config, s: State) {
    && ValidPool(s.pool) && ValidCache(s.cache, cfg.hash)
    && Exclusive(s) && ThreadsPrepared(s) && CacheMatchesServer(s) && LogSafe(s.log)
  }

  lemma BeginKeeps(cfg: Config, s: State, t: nat, accepts: bool, pc: nat -> Pc)
    requires Inv(cfg, s) && (forall c :: pc(c).conn == c && !pc(c).Prepared?)
    ensures var r := Begin(s, t, accepts, pc); r.Some? ==> Inv(cfg, r.value)
  {
    hide Get, Exclusive;
    GetHandsOut(s.pool, accepts);
    BeginExclusive(s, t, accepts, pc);
    var conn := Get(s.pool, accepts).1;
    assert conn.Some? ==> !pc(conn.value).Prepared?;
  }

  lemma BeginExclusive(s: State, t: nat, accepts: bool, pc: nat -> Pc)
    requires ValidPool(s.pool) && Exclusive(s) && forall c :: pc(c).conn == c
    ensures var r := Begin(s, t, accepts, pc); r.Some? ==> Exclusive(r.value)
  {
    hide Get, ValidPool;
    GetHandsOut(s.pool, accepts);
    var r := Begin(s, t, accepts, pc);
    var (pool, conn) := Get(s.pool, accepts);
    if r.Some? && conn.Some? {
      var s' := r.value;
      forall c | c in InUse(s'.pool) ensures exists u :: u in s'.threads && s'.threads[u].conn == c {
        if c == conn.value {
          assert t in s'.threads && s'.threads[t].conn == c;
        } else {
          var u :| u in s.threads && s.threads[u].conn == c;
          assert u in s'.threads && s'.threads[u] == s.threads[u];
        }
      }
    }
  }

  /** A query finds no connection only when every connection of the pool is held by some
      thread and no further one can be opened. */
  lemma NoConnectionOnlyWhenAllHeld(cfg: Config, s: State, t: nat, accepts: bool, pc: nat -> Pc)
    requires Inv(cfg, s) && t !in s.threads
    requires t !in Begin(s, t, accepts, pc).value.threads
    ensures forall c :: c in Ids(s.pool) ==> exists u :: u in s.threads && s.threads[u].conn == c
    ensures s.pool.size == s.pool.maxSize || !accepts
  {
    GetHandsOut(s.pool, accepts);
  }

  /** A thread changes its place but keeps its connection. */
  lemma MoveExclusive(s: State, s': State, t: nat)
    requires Exclusive(s) && t in s.threads && s'.pool == s.pool
    requires s'.threads.Keys == s.threads.Keys
    requires forall u :: u in s.threads ==> s'.threads[u].conn == s.threads[u].conn
    ensures Exclusive(s')
  {
  }

  lemma PrepareKeeps(cfg: Config, s: State, t: nat, pid: Pid, accepted: bool)
    requires Inv(cfg, s)
    ensures var r := PrepareStep(cfg, s, t, pid, accepted); r.Some? ==> Inv(cfg, r.value)
  {
    hide Exclusive, Add, Cached, Lookup;
    var r := PrepareStep(cfg, s, t, pid, accepted);
    if r.Some? {
      var s' := r.value;
      var conn, sql := s.threads[t].conn, s.threads[t].sql;
      MoveExclusive(s, s', t);
      var found := Find(s.cache, cfg.hash, conn, sql);
      if found.Some? {
        FindsCached(s.cache, cfg.hash, found.value);
      } else if accepted && cfg.name(pid, s.counter) !in NamesOf(s, conn) {
        var stmt := Stmt(conn, sql, cfg.name(pid, s.counter));
        AddKeeps(s.cache, cfg.hash, stmt);
        AddedMatches(cfg, s, s', stmt);
      }
    }
  }

  lemma AddedMatches(cfg: Config, s: State, s': State, stmt: Stmt)
    requires Inv(cfg, s) && Find(s.cache, cfg.hash, stmt.conn, stmt.sql).None?
    requires stmt.name !in NamesOf(s, stmt.conn) && s'.stale == s.stale
    requires s'.cache == Add(s.cache, cfg.hash, stmt)
    requires s'.server == s.server[stmt.conn := NamesOf(s, stmt.conn)[stmt.name := stmt.sql]]
    ensures CacheMatchesServer(s')
  {
    AddKeeps(s.cache, cfg.hash, stmt);
  }

  lemma ReleaseKeeps(cfg: Config, s: State, t: nat, broken: bool)
    requires Inv(cfg, s)
    ensures var r := ReleaseStep(s, t, broken); r.Some? ==> Inv(cfg, r.value)
  {
    var r := ReleaseStep(s, t, broken);
    if r.Some? {
      var s' := r.value;
      var conn := s.threads[t].conn;
      ReturnFrees(s.pool, conn);
      forall c | c in InUse(s'.pool) ensures exists u :: u in s'.threads && s'.threads[u].conn == c {
        var u :| u in s.threads && s.threads[u].conn == c;
        assert u in s'.threads && s'.threads[u].conn == c;
      }
      forall x: Stmt | Cached(s'.cache, x) && (x.conn, x.sql) !in s'.stale
        ensures Lookup(NamesOf(s', x.conn), x.name) == Some(x.sql)
      {
        CachedOnHas(s.cache, x);
      }
    }
  }

  lemma CachedOnHas(c: Cache, x: Stmt)
    requires Cached(c, x)
    ensures (x.conn, x.sql) in CachedOn(c, x.conn)
  {
    var b :| 0 <= b < |c| && x in c[b];
    var i :| 0 <= i < |c[b]| && c[b][i] == x;
  }

  lemma ExecuteKeeps(cfg: Config, s: State, t: nat)
    requires Inv(cfg, s)
    ensures var r := ExecuteStep(s, t); r.Some? ==> Inv(cfg, r.value)
  {
    hide Exclusive, ValidCache, ValidPool, Cached, Lookup;
    if ExecuteStep(s, t).Some? {
      MoveExclusive(s, ExecuteStep(s, t).value, t);
      if s.threads[t].Prepared? {
        assert Cached(s.cache, s.threads[t].stmt);
      }
    }
  }

  lemma StepKeeps(cfg: Config, s: State, e: Event)
    requires Inv(cfg, s)
    ensures var r := Step(cfg, s, e); r.Some? ==> Inv(cfg, r.value)
  {
    hide Begin, PrepareStep, ExecuteStep, ReleaseStep, Inv;
    match e {
      case BeginPrepared(t, sql, accepts) => BeginKeeps(cfg, s, t, accepts, (conn: nat) => Holding(conn, sql));
      case BeginPlain(t, accepts) => BeginKeeps(cfg, s, t, accepts, (conn: nat) => Plain(conn));
      case Prepare(t, pid, accepted) => PrepareKeeps(cfg, s, t, pid, accepted);
      case Execute(t) => ExecuteKeeps(cfg, s, t);
      case Release(t, broken) => ReleaseKeeps(cfg, s, t, broken);
    }
  }

  // ---------- runs ----------

  /** Every event in turn; an event whose thread is not at the right place does nothing. */
  function Run(cfg: Config, s: State, es: seq<Event>): (s': State)
    requires Inv(cfg, s)
    ensures Inv(cfg, s')
    decreases |es|
  {
    if es == [] then s
    else
      StepKeeps(cfg, s, es[0]);
      match Step(cfg, s, es[0])
      case None => Run(cfg, s, es[1..])
      case Some(next) => Run(cfg, next, es[1..])
  }

  function Start(pool: Pool): State {
    State(pool, seq(STMT_HASH_SIZE, i => []), 0, map[], map[], {}, [])
  }

  lemma StartInv(cfg: Config, pool: Pool)
    requires ValidPool(pool) && InUse(pool) == {}
    ensures Inv(cfg, Start(pool))
  {
  }

  predicate ResetFree(es: seq<Event>) {
    forall i :: 0 <= i < |es| && es[i].Release? ==> !es[i].broken
  }

  /** For any number of threads and any interleaving: each connection in use is held by
      exactly one thread, the pool never grows past its limit, no connection has two cached
      statements for one SQL, and a prepared statement that is executed on a connection not
      reset since it was cached is the one that was asked for. */
  lemma AlwaysSafe(cfg: Config, pool: Pool, es: seq<Event>)
    requires ValidPool(pool) && InUse(pool) == {}
    ensures Inv(cfg, Start(pool))
    ensures var s := Run(cfg, Start(pool), es);
      && Exclusive(s)
      && s.pool.size == |s.pool.conns| <= s.pool.maxSize
      && ValidCache(s.cache, cfg.hash)
      && LogSafe(s.log)
  {
    StartInv(cfg, pool);
  }

  lemma {:induction false} ResetFreeNotStale(cfg: Config, s: State, es: seq<Event>)
    requires Inv(cfg, s) && ResetFree(es) && s.stale == {}
    requires forall i :: 0 <= i < |s.log| ==> !s.log[i].stale
    ensures var s' := Run(cfg, s, es); s'.stale == {} && forall i :: 0 <= i < |s'.log| ==> !s'.log[i].stale
    decreases |es|
  {
    if es != [] {
      StepKeeps(cfg, s, es[0]);
      var r := Step(cfg, s, es[0]);
      assert ResetFree(es[1..]);
      ResetFreeNotStale(cfg, if r.Some? then r.value else s, es[1..]);
    }
  }

  /** On runs without a reset every executed statement is the one that was asked for. */
  lemma ResetFreeAlwaysRight(cfg: Config, pool: Pool, es: seq<Event>)
    requires ValidPool(pool) && InUse(pool) == {} && ResetFree(es)
    ensures Inv(cfg, Start(pool))
    ensures var log := Run(cfg, Start(pool), es).log;
      forall i :: 0 <= i < |log| ==> log[i].found == Some(log[i].sql)
  {
    StartInv(cfg, pool);
    ResetFreeNotStale(cfg, Start(pool), es);
  }

  // ---------- resets ----------

  /** Names made from different counter values below the limit differ. */
  ghost predicate NamesDiffer(cfg: Config, limit: nat) {
    forall p: Pid, q: Pid, i: nat, j: nat :: i < limit && j < limit && i != j ==> cfg.name(p, i) != cfg.name(q, j)
  }

  ghost predicate NamedBefore(cfg: Config, name: string, counter: nat) {
    exists p: Pid, i: nat :: i < counter && name == cfg.name(p, i)
  }

  /** What the server can have under a name it lost: not the statement, and nothing at all if
      the name is not given out again. */
  predicate Lost(unique: bool, found: Option<string>, sql: string) {
    if unique then found == None else found != Some(sql)
  }

  /** What holds of statements cached before a reset of their connection: the server has lost
      their names. */
  ghost predicate StaleInv(cfg: Config, s: State, unique: bool) {
    && |s.cache| == STMT_HASH_SIZE
    && (unique ==> forall x: Stmt :: Cached(s.cache, x) ==> NamedBefore(cfg, x.name, s.counter))
    && (forall k :: k in s.stale ==> Find(s.cache, cfg.hash, k.0, k.1).Some?)
    && (forall x: Stmt :: Cached(s.cache, x) && (x.conn, x.sql) in s.stale ==>
          Lost(unique, Lookup(NamesOf(s, x.conn), x.name), x.sql))
    && (forall i :: 0 <= i < |s.log| && s.log[i].stale ==> Lost(unique, s.log[i].found, s.log[i].sql))
  }

  lemma PrepareKeepsStale(cfg: Config, s: State, t: nat, pid: Pid, accepted: bool, unique: bool, limit: nat)
    requires Inv(cfg, s) && StaleInv(cfg, s, unique)
    requires unique ==> NamesDiffer(cfg, limit) && s.counter < limit
    ensures var r := PrepareStep(cfg, s, t, pid, accepted); r.Some? ==> StaleInv(cfg, r.value, unique)
  {
    hide Exclusive, Add, Cached, ThreadsPrepared;
    var r := PrepareStep(cfg, s, t, pid, accepted);
    if r.Some? {
      var s' := r.value;
      var conn, sql := s.threads[t].conn, s.threads[t].sql;
      var name := cfg.name(pid, s.counter);
      if s'.cache != s.cache {
        var stmt := Stmt(conn, sql, name);
        AddKeeps(s.cache, cfg.hash, stmt);
        assert NamedBefore(cfg, name, s'.counter);
        forall k | k in s'.stale ensures Find(s'.cache, cfg.hash, k.0, k.1).Some? {
          var x := Find(s.cache, cfg.hash, k.0, k.1).value;
          FindsCached(s.cache, cfg.hash, x);
          FindsCached(s'.cache, cfg.hash, x);
        }
        forall x: Stmt | Cached(s'.cache, x) && (x.conn, x.sql) in s'.stale
          ensures Lost(unique, Lookup(NamesOf(s', x.conn), x.name), x.sql)
        {
          assert x != stmt && (x.conn, x.sql) != (conn, sql);
          assert unique ==> NamedBefore(cfg, x.name, s.counter);
        }
      }
      if unique {
        forall x: Stmt | Cached(s'.cache, x) ensures NamedBefore(cfg, x.name, s'.counter) {
          if Cached(s.cache, x) {
            var p: Pid, i: nat :| i < s.counter && x.name == cfg.name(p, i);
          }
        }
      }
    }
  }

  lemma StepKeepsStale(cfg: Config, s: State, e: Event, unique: bool, limit: nat)
    requires Inv(cfg, s) && StaleInv(cfg, s, unique)
    requires unique ==> NamesDiffer(cfg, limit) && s.counter < limit
    ensures var r := Step(cfg, s, e); r.Some? ==> StaleInv(cfg, r.value, unique)
  {
    hide Begin, PrepareStep, ExecuteStep, ReleaseStep, StaleInv;
    match e {
      case BeginPrepared(t, sql, accepts) =>
        BeginKeepsStale(cfg, s, t, accepts, (conn: nat) => Holding(conn, sql), unique);
      case BeginPlain(t, accepts) => BeginKeepsStale(cfg, s, t, accepts, (conn: nat) => Plain(conn), unique);
      case Prepare(t, pid, accepted) => PrepareKeepsStale(cfg, s, t, pid, accepted, unique, limit);
      case Execute(t) => ExecuteKeepsStale(cfg, s, t, unique);
      case Release(t, broken) => ReleaseKeepsStale(cfg, s, t, broken, unique);
    }
  }

  lemma BeginKeepsStale(cfg: Config, s: State, t: nat, accepts: bool, pc: nat -> Pc, unique: bool)
    requires Inv(cfg, s) && StaleInv(cfg, s, unique)
    ensures var r := Begin(s, t, accepts, pc); r.Some? ==> StaleInv(cfg, r.value, unique)
  {
    hide Get, Exclusive, Find, Cached;
  }

  lemma ExecuteKeepsStale(cfg: Config, s: State, t: nat, unique: bool)
    requires Inv(cfg, s) && StaleInv(cfg, s, unique)
    ensures var r := ExecuteStep(s, t); r.Some? ==> StaleInv(cfg, r.value, unique)
  {
    hide Exclusive, ValidCache, ValidPool, Find, Cached;
    if t in s.threads && s.threads[t].Prepared? {
      assert Cached(s.cache, s.threads[t].stmt);
    }
  }

  lemma ReleaseKeepsStale(cfg: Config, s: State, t: nat, broken: bool, unique: bool)
    requires Inv(cfg, s) && StaleInv(cfg, s, unique)
    ensures var r := ReleaseStep(s, t, broken); r.Some? ==> StaleInv(cfg, r.value, unique)
  {
  }

  lemma StepStaleGrows(cfg: Config, s: State, e: Event)
    requires Inv(cfg, s)
    ensures var r := Step(cfg, s, e); r.Some? ==> s.stale <= r.value.stale
  {
  }

  lemma StepCounts(cfg: Config, s: State, e: Event)
    requires Inv(cfg, s)
    ensures var r := Step(cfg, s, e); r.Some? ==> r.value.counter <= s.counter + 1
  {
  }

  lemma {:induction false} RunKeepsStale(cfg: Config, s: State, es: seq<Event>, unique: bool, limit: nat)
    requires Inv(cfg, s) && StaleInv(cfg, s, unique)
    requires unique ==> NamesDiffer(cfg, limit) && s.counter + |es| <= limit
    ensures StaleInv(cfg, Run(cfg, s, es), unique)
    ensures s.stale <= Run(cfg, s, es).stale
    decreases |es|
  {
    hide Step, StaleInv, NamesDiffer;
    if es != [] {
      StepKeeps(cfg, s, es[0]);
      StepKeepsStale(cfg, s, es[0], unique, limit);
      StepStaleGrows(cfg, s, es[0]);
      StepCounts(cfg, s, es[0]);
      var r := Step(cfg, s, es[0]);
      RunKeepsStale(cfg, if r.Some? then r.value else s, es[1..], unique, limit);
    }
  }

  /** Exactly when an execution goes right, however statements are named: if and only if its
      connection has not been reset since the statement was cached. */
  lemma RightExactlyWhenNotStale(cfg: Config, pool: Pool, es: seq<Event>)
    requires ValidPool(pool) && InUse(pool) == {}
    ensures Inv(cfg, Start(pool))
    ensures var log := Run(cfg, Start(pool), es).log;
      forall i :: 0 <= i < |log| ==> (log[i].found == Some(log[i].sql) <==> !log[i].stale)
  {
    StartInv(cfg, pool);
    RunKeepsStale(cfg, Start(pool), es, false, 0);
  }

  /** Under the names the code makes, as long as none is cut off, the server has nothing at all
      under a name it lost. */
  lemma StaleFindsNothing(cfg: Config, pool: Pool, es: seq<Event>)
    requires ValidPool(pool) && InUse(pool) == {}
    requires |es| <= NAME_LIMIT && forall p: Pid, i: nat :: cfg.name(p, i) == StatementName(p, i)
    ensures Inv(cfg, Start(pool))
    ensures var log := Run(cfg, Start(pool), es).log;
      forall i :: 0 <= i < |log| && log[i].stale ==> log[i].found == None
  {
    hide StatementName;
    StartInv(cfg, pool);
    forall p: Pid, q: Pid, i: nat, j: nat | i < NAME_LIMIT && j < NAME_LIMIT && i != j
      ensures cfg.name(p, i) != cfg.name(q, j)
    {
      NamesDifferBelow(p, q, i, j);
    }
    RunKeepsStale(cfg, Start(pool), es, true, NAME_LIMIT);
  }

  lemma StepLog(cfg: Config, s: State, e: Event, k: (nat, string))
    requires Inv(cfg, s) && k in s.stale
    ensures var r := Step(cfg, s, e); r.Some? ==>
      && k in r.value.stale && s.log <= r.value.log
      && forall i :: |s.log| <= i < |r.value.log| && (r.value.log[i].conn, r.value.log[i].sql) == k ==>
           r.value.log[i].stale
  {
  }

  /** A reset poisons the cache for good: a pair that is stale stays stale, whatever happens,
      and every later execution of it is one on stale ground. */
  lemma {:induction false} StaleForever(cfg: Config, s: State, es: seq<Event>, k: (nat, string))
    requires Inv(cfg, s) && k in s.stale
    ensures var r := Run(cfg, s, es);
      && k in r.stale && s.log <= r.log
      && forall i :: |s.log| <= i < |r.log| && (r.log[i].conn, r.log[i].sql) == k ==> r.log[i].stale
    decreases |es|
  {
    hide Step;
    if es != [] {
      StepKeeps(cfg, s, es[0]);
      StepLog(cfg, s, es[0], k);
      var r := Step(cfg, s, es[0]);
      StaleForever(cfg, if r.Some? then r.value else s, es[1..], k);
    }
  }

  // ---------- a run that goes wrong ----------

  const ONE := Pool([Conn(0, false)], 1, 1)
  const BUSY := Pool([Conn(0, true)], 1, 1)

  /** One thread runs the same query twice on the only connection, which breaks in between. */
  function Twice(sql: string): seq<Event> {
    [BeginPrepared(0, sql, true), Prepare(0, 0, true), Execute(0), Release(0, true),
     BeginPrepared(0, sql, true), Prepare(0, 0, true), Execute(0)]
  }

  lemma OneIsFree()
    ensures ValidPool(ONE) && InUse(ONE) == {} && ValidPool(BUSY)
    ensures Get(ONE, true) == (BUSY, Some(0)) && Return(BUSY, 0) == ONE
  {
    assert ONE.conns[0 := Conn(0, true)] == [Conn(0, true)];
  }

  lemma RunStep(cfg: Config, s: State, e: Event, es: seq<Event>)
    requires Inv(cfg, s) && Step(cfg, s, e).Some?
    ensures Inv(cfg, Step(cfg, s, e).value)
    ensures Run(cfg, s, [e] + es) == Run(cfg, Step(cfg, s, e).value, es)
  {
    hide Step;
    StepKeeps(cfg, s, e);
    assert ([e] + es)[1..] == es;
  }

  /** The statement of the run, and the states it passes through. */
  function Prepare1(cfg: Config, sql: string): Stmt {
    Stmt(0, sql, cfg.name(0, 0))
  }

  function Caching(cfg: Config, sql: string): Cache {
    Add(Start(ONE).cache, cfg.hash, Prepare1(cfg, sql))
  }

  function Ready(cfg: Config, sql: string): State {
    State(BUSY, Caching(cfg, sql), 1, map[0 := Prepared(0, sql, Prepare1(cfg, sql))],
          map[0 := map[cfg.name(0, 0) := sql]], {}, [])
  }

  function Good(cfg: Config, sql: string): Executed {
    Executed(0, sql, cfg.name(0, 0), Some(sql), false)
  }

  function Reset(cfg: Config, sql: string): State {
    State(ONE, Caching(cfg, sql), 1, map[], map[0 := map[]], CachedOn(Caching(cfg, sql), 0), [Good(cfg, sql)])
  }

  lemma GetsReady(cfg: Config, sql: string, rest: seq<Event>)
    requires Inv(cfg, Start(ONE))
    ensures Inv(cfg, Ready(cfg, sql))
    ensures Run(cfg, Start(ONE), [BeginPrepared(0, sql, true)] + ([Prepare(0, 0, true)] + rest))
      == Run(cfg, Ready(cfg, sql), rest)
  {
    hide Run, Inv;
    OneIsFree();
    var s0, e, f := Start(ONE), BeginPrepared(0, sql, true), Prepare(0, 0, true);
    InvValid(cfg, s0);
    var s1 := s0.(pool := BUSY, threads := map[0 := Holding(0, sql)]);
    assert Step(cfg, s0, e) == Some(s1);
    RunStep(cfg, s0, e, [f] + rest);
    InvValid(cfg, s1);
    NothingCached(cfg, sql);
    var stmt := Prepare1(cfg, sql);
    OneThread(Holding(0, sql), Prepared(0, sql, stmt));
    assert NamesOf(s1, 0)[cfg.name(0, 0) := sql] == map[cfg.name(0, 0) := sql];
    assert s1.server[0 := map[cfg.name(0, 0) := sql]] == map[0 := map[cfg.name(0, 0) := sql]];
    assert Step(cfg, s1, f) == Some(Ready(cfg, sql));
    RunStep(cfg, s1, f, rest);
  }

  lemma OneThread<V>(a: V, b: V)
    ensures map[0 := a][0 := b] == map[0 := b] && map[0 := a] - {0} == map[]
  {
  }

  lemma InvValid(cfg: Config, s: State)
    requires Inv(cfg, s)
    ensures ValidPool(s.pool) && ValidCache(s.cache, cfg.hash)
  {
  }

  lemma NothingCached(cfg: Config, sql: string)
    ensures Find(Start(ONE).cache, cfg.hash, 0, sql) == None
    ensures Find(Caching(cfg, sql), cfg.hash, 0, sql) == Some(Prepare1(cfg, sql))
    ensures (0, sql) in CachedOn(Caching(cfg, sql), 0)
  {
    var b := Bucket(cfg.hash, sql);
    var chain := Caching(cfg, sql)[b];
    assert chain[0] == Prepare1(cfg, sql);
    assert Cached(Caching(cfg, sql), Prepare1(cfg, sql));
  }

  lemma GetsReset(cfg: Config, sql: string, rest: seq<Event>)
    requires Inv(cfg, Ready(cfg, sql))
    ensures Inv(cfg, Reset(cfg, sql))
    ensures Run(cfg, Ready(cfg, sql), [Execute(0)] + ([Release(0, true)] + rest)) == Run(cfg, Reset(cfg, sql), rest)
  {
    hide Run, Inv, Caching;
    OneIsFree();
    var s2 := Ready(cfg, sql);
    InvValid(cfg, s2);
    var s3 := s2.(threads := map[0 := Releasing(0)], log := [Good(cfg, sql)]);
    OneThread(s2.threads[0], Releasing(0));
    assert Lookup(NamesOf(s2, 0), cfg.name(0, 0)) == Some(sql);
    assert s2.log + [Good(cfg, sql)] == [Good(cfg, sql)];
    assert Step(cfg, s2, Execute(0)) == Some(s3);
    RunStep(cfg, s2, Execute(0), [Release(0, true)] + rest);
    InvValid(cfg, s3);
    OneThread(Releasing(0), Releasing(0));
    OneThread(s3.server[0], map[]);
    assert {} + CachedOn(Caching(cfg, sql), 0) == CachedOn(Caching(cfg, sql), 0);
    assert Step(cfg, s3, Release(0, true)) == Some(Reset(cfg, sql));
    RunStep(cfg, s3, Release(0, true), rest);
  }

  lemma GoesWrong(cfg: Config, sql: string)
    requires Inv(cfg, Reset(cfg, sql))
    ensures var es := [BeginPrepared(0, sql, true)] + ([Prepare(0, 0, true)] + ([Execute(0)] + []));
      Run(cfg, Reset(cfg, sql), es).log == [Good(cfg, sql), Executed(0, sql, cfg.name(0, 0), None, true)]
  {
    hide Run, Inv, Caching;
    OneIsFree();
    NothingCached(cfg, sql);
    var s4, stmt := Reset(cfg, sql), Prepare1(cfg, sql);
    var s5 := s4.(pool := BUSY, threads := map[0 := Holding(0, sql)]);
    var s6 := s5.(threads := map[0 := Prepared(0, sql, stmt)]);
    var last := Executed(0, sql, cfg.name(0, 0), None, true);
    var s7 := s6.(threads := map[0 := Releasing(0)], log := [Good(cfg, sql), last]);
    InvValid(cfg, s4);
    assert Step(cfg, s4, BeginPrepared(0, sql, true)) == Some(s5);
    RunStep(cfg, s4, BeginPrepared(0, sql, true), [Prepare(0, 0, true)] + ([Execute(0)] + []));
    InvValid(cfg, s5);
    OneThread(Holding(0, sql), Prepared(0, sql, stmt));
    assert Step(cfg, s5, Prepare(0, 0, true)) == Some(s6);
    RunStep(cfg, s5, Prepare(0, 0, true), [Execute(0)] + []);
    InvValid(cfg, s6);
    OneThread(Prepared(0, sql, stmt), Releasing(0));
    assert [Good(cfg, sql)] + [last] == [Good(cfg, sql), last];
    assert Step(cfg, s6, Execute(0)) == Some(s7);
    RunStep(cfg, s6, Execute(0), []);
    RunNothing(cfg, s7);
  }

  lemma RunNothing(cfg: Config, s: State)
    requires Inv(cfg, s)
    ensures Run(cfg, s, []) == s
  {
  }

  /** The second execution finds nothing on the server under its name: the cache still holds
      the statement that the reset removed. */
  lemma ResetBreaksAnExecution(cfg: Config, sql: string)
    ensures Inv(cfg, Start(ONE))
    ensures var log := Run(cfg, Start(ONE), Twice(sql)).log;
      |log| == 2 && log[0].found == Some(sql) && !log[0].stale && log[1].found == None && log[1].stale
  {
    hide Run, Inv;
    OneIsFree();
    StartInv(cfg, ONE);
    var third := [BeginPrepared(0, sql, true)] + ([Prepare(0, 0, true)] + ([Execute(0)] + []));
    GetsReady(cfg, sql, [Execute(0)] + ([Release(0, true)] + third));
    GetsReset(cfg, sql, third);
    GoesWrong(cfg, sql);
    assert Twice(sql) == [BeginPrepared(0, sql, true)]
      + ([Prepare(0, 0, true)] + ([Execute(0)] + ([Release(0, true)] + third)));
  }
}
