/** That queries come to their end: which steps are possible, what each of them does, and that
    every connection handed out comes back. Nothing here names the step functions but Step. */
module DatabaseProgress {
  import opened Options
  import opened ConnectionPool
  import opened StatementCache
  import opened StatementNames
  import opened Database

  // ---------- which steps are possible ----------

  /** The place of its thread at which an event can happen. */
  predicate Enabled(s: State, e: Event) {
    match e
    case BeginPrepared(t, _, _) => t !in s.threads
    case BeginPlain(t, _) => t !in s.threads
    case Prepare(t, _, _) => t in s.threads && s.threads[t].Holding?
    case Execute(t) => t in s.threads && (s.threads[t].Prepared? || s.threads[t].Plain?)
    case Release(t, _) => t in s.threads && s.threads[t].Releasing?
  }

  /** A step exists exactly at its place, and it touches no other thread. */
  lemma EnabledExactly(cfg: Config, s: State, e: Event)
    requires Inv(cfg, s)
    ensures var r := Step(cfg, s, e);
      && (r.Some? <==> Enabled(s, e))
      && (r.Some? ==> r.value.threads - {e.t} == s.threads - {e.t})
  {
    hide Get, Find, Add, Return, CachedOn, Inv;
    InvValid(cfg, s);
  }

  /** Whatever the server answers, a thread inside a query has exactly one kind of step before
      it, and no thread is ever stuck. */
  lemma NeverStuck(cfg: Config, s: State, t: nat, pid: Pid, accepted: bool, broken: bool)
    requires Inv(cfg, s) && t in s.threads
    ensures 1 == (if Step(cfg, s, Prepare(t, pid, accepted)).Some? then 1 else 0)
      + (if Step(cfg, s, Execute(t)).Some? then 1 else 0) + (if Step(cfg, s, Release(t, broken)).Some? then 1 else 0)
    ensures s.threads[t].Holding? ==> Step(cfg, s, Prepare(t, pid, accepted)).Some?
    ensures s.threads[t].Prepared? || s.threads[t].Plain? ==> Step(cfg, s, Execute(t)).Some?
    ensures s.threads[t].Releasing? ==> Step(cfg, s, Release(t, broken)).Some?
  {
    hide Step, Inv;
    EnabledExactly(cfg, s, Prepare(t, pid, accepted));
    EnabledExactly(cfg, s, Execute(t));
    EnabledExactly(cfg, s, Release(t, broken));
  }

  // ---------- what each step does ----------

  /** Everything but the pool and the threads is as it was. */
  predicate OnlyPoolMoved(s: State, s': State) {
    s' == s.(pool := s'.pool, threads := s'.threads)
  }

  /** An idle thread takes a connection nobody has, or finds none and stays idle. */
  lemma BeginTakes(cfg: Config, s: State, t: nat, sql: string, accepts: bool, plain: bool)
    requires Inv(cfg, s) && t !in s.threads
    ensures var r := Step(cfg, s, if plain then BeginPlain(t, accepts) else BeginPrepared(t, sql, accepts));
      && r.Some? && OnlyPoolMoved(s, r.value)
      && (t !in r.value.threads <==> InUse(s.pool) == Ids(s.pool) && (s.pool.size == s.pool.maxSize || !accepts))
      && (t !in r.value.threads ==> r.value == s)
      && (t in r.value.threads ==> var pc := r.value.threads[t];
            && pc == (if plain then Plain(pc.conn) else Holding(pc.conn, sql))
            && pc.conn !in InUse(s.pool)
            && InUse(r.value.pool) == InUse(s.pool) + {pc.conn})
  {
    hide Get, Ids, InUse, Inv;
    InvValid(cfg, s);
    GetHandsOut(s.pool, accepts);
    GetNone(s.pool, accepts);
  }

  lemma GetNone(p: Pool, accepts: bool)
    requires ValidPool(p)
    ensures Get(p, accepts).1.None? <==> InUse(p) == Ids(p) && (p.size == p.maxSize || !accepts)
  {
    GetHandsOut(p, accepts);
    var i := FirstFree(p.conns);
    if i < |p.conns| {
      assert p.conns[i].id in Ids(p);
      assert p.conns[i].id !in InUse(p);
    }
  }

  /** The statement a connection has cached for an SQL text. */
  ghost predicate Has(c: Cache, conn: nat, sql: string, x: Stmt) {
    Cached(c, x) && x.conn == conn && x.sql == sql
  }

  /** A thread at Holding goes on with the cached statement of its connection and SQL text; if
      there is none, with a new one, which cache and server know from then on; only if the
      server refuses the text or has the name already it gives up. */
  lemma PrepareOutcome(cfg: Config, s: State, t: nat, pid: Pid, accepted: bool)
    requires Inv(cfg, s) && t in s.threads && s.threads[t].Holding?
    ensures var conn, sql := s.threads[t].conn, s.threads[t].sql;
      var r := Step(cfg, s, Prepare(t, pid, accepted));
      && r.Some? && t in r.value.threads && r.value.pool == s.pool && r.value.log == s.log && r.value.stale == s.stale
      && (forall x :: Has(s.cache, conn, sql, x) ==>
            r.value == s.(threads := s.threads[t := Prepared(conn, sql, x)]))
      && ((forall x :: !Has(s.cache, conn, sql, x)) ==>
            var name := cfg.name(pid, s.counter);
            r.value.counter == s.counter + 1
            && (r.value.threads[t] == Releasing(conn) <==> !accepted || name in NamesOf(s, conn))
            && if !accepted || name in NamesOf(s, conn) then r.value.cache == s.cache && r.value.server == s.server
               else
                 && r.value.threads[t] == Prepared(conn, sql, Stmt(conn, sql, name))
                 && (forall x :: Cached(r.value.cache, x) <==> x == Stmt(conn, sql, name) || Cached(s.cache, x))
                 && (forall c :: c != conn ==> NamesOf(r.value, c) == NamesOf(s, c))
                 && (forall n :: Lookup(NamesOf(r.value, conn), n)
                      == if n == name then Some(sql) else Lookup(NamesOf(s, conn), n)))
  {
    hide Inv, Add, Cached, ValidPool;
    InvValid(cfg, s);
    var conn, sql := s.threads[t].conn, s.threads[t].sql;
    var found := Find(s.cache, cfg.hash, conn, sql);
    if found.Some? {
      FindsCached(s.cache, cfg.hash, found.value);
      assert Has(s.cache, conn, sql, found.value);
    } else {
      AddKeeps(s.cache, cfg.hash, Stmt(conn, sql, cfg.name(pid, s.counter)));
    }
    forall x | Has(s.cache, conn, sql, x) ensures found == Some(x) {
      FindsCached(s.cache, cfg.hash, x);
    }
  }

  /** Executing logs what the server has under the name of the statement, and nothing for a
      plain query; then the connection goes back. */
  lemma ExecuteOutcome(cfg: Config, s: State, t: nat)
    requires Inv(cfg, s) && t in s.threads && (s.threads[t].Prepared? || s.threads[t].Plain?)
    ensures var pc := s.threads[t];
      var r := Step(cfg, s, Execute(t));
      && r.Some? && r.value == s.(threads := s.threads[t := Releasing(pc.conn)], log := r.value.log)
      && (pc.Plain? ==> r.value.log == s.log)
      && (pc.Prepared? ==>
            && |r.value.log| == |s.log| + 1 && s.log <= r.value.log
            && var last := r.value.log[|s.log|];
               && last.conn == pc.conn && last.sql == pc.sql && last.name == pc.stmt.name
               && (last.found == Some(pc.sql) <== !last.stale)
               && (last.stale <==> (pc.conn, pc.sql) in s.stale)
               && (last.found.Some? <==> last.name in NamesOf(s, pc.conn)))
  {
    hide Exclusive, ValidCache, ValidPool, Cached, LogSafe;
  }

  /** Releasing makes its thread idle and its connection free, broken or not, and changes
      nothing else; a broken connection comes back without its prepared statements. */
  lemma ReleaseReturns(cfg: Config, s: State, t: nat, broken: bool)
    requires Inv(cfg, s) && t in s.threads && s.threads[t].Releasing?
    ensures var conn := s.threads[t].conn;
      var r := Step(cfg, s, Release(t, broken));
      && r.Some? && r.value.threads == s.threads - {t}
      && InUse(r.value.pool) == InUse(s.pool) - {conn} && Ids(r.value.pool) == Ids(s.pool)
      && r.value.cache == s.cache && r.value.log == s.log && r.value.counter == s.counter
      && (!broken ==> r.value.server == s.server && r.value.stale == s.stale)
      && (broken ==>
            && NamesOf(r.value, conn) == map[]
            && (forall c :: c != conn ==> NamesOf(r.value, c) == NamesOf(s, c))
            && forall c: nat, q: string :: (c, q) in r.value.stale <==>
                 (c, q) in s.stale || (c == conn && exists x :: Has(s.cache, conn, q, x)))
  {
    hide Inv, Ids, InUse, Return;
    InvValid(cfg, s);
    ReturnFrees(s.pool, s.threads[t].conn);
    var conn := s.threads[t].conn;
    forall q: string ensures (conn, q) in CachedOn(s.cache, conn) <==> exists x :: Has(s.cache, conn, q, x) {
      CachedOnExactly(s.cache, conn, q);
    }
  }

  lemma CachedOnExactly(c: Cache, conn: nat, q: string)
    ensures (conn, q) in CachedOn(c, conn) <==> exists x :: Has(c, conn, q, x)
  {
    if (conn, q) in CachedOn(c, conn) {
      var b, i :| 0 <= b < |c| && 0 <= i < |c[b]| && c[b][i].conn == conn && c[b][i].sql == q;
      assert Has(c, conn, q, c[b][i]);
    }
    forall x | Has(c, conn, q, x) ensures (conn, q) in CachedOn(c, conn) {
      CachedOnHas(c, x);
    }
  }

  // ---------- whole queries ----------

  /** Where a thread is in the text of executePreparedStatement or executeQuery. */
  datatype Stage = Out | ToPrepare | ToExecute | ToRelease

  /** Among all the events of a run those of thread t are whole queries one after the other,
      the first of them from the given stage on. */
  predicate WholeQueries(es: seq<Event>, t: nat, stage: Stage) {
    if es == [] then stage == Out
    else if es[0].t != t then WholeQueries(es[1..], t, stage)
    else
      match es[0]
      case BeginPrepared(_, _, _) => stage == Out && WholeQueries(es[1..], t, ToPrepare)
      case BeginPlain(_, _) => stage == Out && WholeQueries(es[1..], t, ToExecute)
      case Prepare(_, _, _) => stage == ToPrepare && WholeQueries(es[1..], t, ToExecute)
      case Execute(_) => stage == ToExecute && WholeQueries(es[1..], t, ToRelease)
      case Release(_, _) => stage == ToRelease && WholeQueries(es[1..], t, Out)
  }

  /** The place of a thread fits its stage. A query that got no connection has ended early,
      and so has the execution after a failed prepare. */
  predicate Fits(s: State, t: nat, stage: Stage) {
    t in s.threads ==>
      match s.threads[t]
      case Holding(_, _) => stage == ToPrepare
      case Prepared(_, _, _) => stage == ToExecute
      case Plain(_) => stage == ToExecute
      case Releasing(_) => stage == ToExecute || stage == ToRelease
  }

  lemma StepFits(cfg: Config, s: State, e: Event, es: seq<Event>, t: nat, stage: Stage)
    requires Inv(cfg, s) && Fits(s, t, stage) && WholeQueries([e] + es, t, stage)
    ensures var r := Step(cfg, s, e);
      exists next :: WholeQueries(es, t, next) && Fits(if r.Some? then r.value else s, t, next)
  {
    hide Get, Find, Add, Return, CachedOn, Inv, NamesOf;
    InvValid(cfg, s);
    EnabledExactly(cfg, s, e);
    assert ([e] + es)[1..] == es;
    var next := if e.t != t then stage else
      match e
      case BeginPrepared(_, _, _) => ToPrepare
      case BeginPlain(_, _) => ToExecute
      case Prepare(_, _, _) => ToExecute
      case Execute(_) => ToRelease
      case Release(_, _) => Out;
    assert WholeQueries(es, t, next);
    if e.t != t && Step(cfg, s, e).Some? {
      OtherThread(s.threads, Step(cfg, s, e).value.threads, e.t, t);
    }
  }

  lemma OtherThread(m: map<nat, Pc>, m': map<nat, Pc>, u: nat, t: nat)
    requires m' - {u} == m - {u} && t != u
    ensures t in m <==> t in m'
    ensures t in m ==> m[t] == m'[t]
  {
    assert t in m <==> t in m - {u};
    assert t in m' <==> t in m' - {u};
  }

  /** A thread that runs whole queries is idle in the end, whatever the others do in between
      and whatever the server answers. */
  lemma {:induction false} QueriesEnd(cfg: Config, s: State, es: seq<Event>, t: nat, stage: Stage)
    requires Inv(cfg, s) && Fits(s, t, stage) && WholeQueries(es, t, stage)
    ensures t !in Run(cfg, s, es).threads
    decreases |es|
  {
    if es == [] {
      RunNothing(cfg, s);
    } else {
      hide Step, Fits, WholeQueries, Inv;
      StepKeeps(cfg, s, es[0]);
      assert [es[0]] + es[1..] == es;
      StepFits(cfg, s, es[0], es[1..], t, stage);
      var r := Step(cfg, s, es[0]);
      var s' := if r.Some? then r.value else s;
      var next :| WholeQueries(es[1..], t, next) && Fits(s', t, next);
      QueriesEnd(cfg, s', es[1..], t, next);
    }
  }

  /** Every connection comes back: any number of threads, interleaved in any way, with refused
      statements and broken connections, leave no connection in use once each has run whole
      queries. */
  lemma AllReturned(cfg: Config, pool: Pool, es: seq<Event>)
    requires ValidPool(pool) && InUse(pool) == {}
    requires forall t: nat :: WholeQueries(es, t, Out)
    ensures Inv(cfg, Start(pool))
    ensures var s := Run(cfg, Start(pool), es); s.threads == map[] && InUse(s.pool) == {}
  {
    StartInv(cfg, pool);
    forall t: nat ensures t !in Run(cfg, Start(pool), es).threads {
      QueriesEnd(cfg, Start(pool), es, t, Out);
    }
  }

  // ---------- one query by itself ----------

  /** The pool can hand out a connection. */
  predicate Available(s: State, accepts: bool) {
    InUse(s.pool) != Ids(s.pool) || (s.pool.size != s.pool.maxSize && accepts)
  }

  function Query(t: nat, sql: string, pid: Pid, accepts: bool, accepted: bool, broken: bool): seq<Event> {
    [BeginPrepared(t, sql, accepts)] + ([Prepare(t, pid, accepted)] + ([Execute(t)] + ([Release(t, broken)] + [])))
  }

  /** The statement can be used on the connection: it is cached, or the server takes it. */
  ghost predicate Usable(cfg: Config, s: State, conn: nat, sql: string, pid: Pid, accepted: bool) {
    || (exists x :: Has(s.cache, conn, sql, x))
    || (accepted && cfg.name(pid, s.counter) !in NamesOf(s, conn))
  }

  /** What a query leaves behind that had connection conn. */
  ghost predicate QueryDone(cfg: Config, s: State, r: State, conn: nat, sql: string, pid: Pid, accepted: bool) {
    && conn !in InUse(s.pool)
    && r.threads == s.threads && InUse(r.pool) == InUse(s.pool)
    && if !Usable(cfg, s, conn, sql, pid, accepted) then r.log == s.log
       else
         && |r.log| == |s.log| + 1 && s.log <= r.log
         && var x := r.log[|s.log|];
            && x.conn == conn && x.sql == sql && (x.stale <==> (conn, sql) in s.stale)
            && (!x.stale ==> x.found == Some(sql))
  }

  lemma Releases(cfg: Config, s: State, t: nat, broken: bool)
    requires Inv(cfg, s) && t in s.threads && s.threads[t].Releasing?
    ensures var r := Run(cfg, s, [Release(t, broken)] + []);
      && r.threads == s.threads - {t} && r.log == s.log
      && InUse(r.pool) == InUse(s.pool) - {s.threads[t].conn}
  {
    hide Step, Run, Inv;
    InvValid(cfg, s);
    ReleaseReturns(cfg, s, t, broken);
    RunStep(cfg, s, Release(t, broken), []);
    RunNothing(cfg, Step(cfg, s, Release(t, broken)).value);
  }

  lemma ExecutesAndReleases(cfg: Config, s: State, t: nat, broken: bool)
    requires Inv(cfg, s) && t in s.threads && !s.threads[t].Holding?
    ensures var pc := s.threads[t];
      var r := Run(cfg, s, [Execute(t)] + ([Release(t, broken)] + []));
      && r.threads == s.threads - {t} && InUse(r.pool) == InUse(s.pool) - {pc.conn}
      && (!pc.Prepared? ==> r.log == s.log)
      && (pc.Prepared? ==>
            && |r.log| == |s.log| + 1 && s.log <= r.log
            && var x := r.log[|s.log|];
               && x.conn == pc.conn && x.sql == pc.sql && (x.stale <==> (pc.conn, pc.sql) in s.stale)
               && (!x.stale ==> x.found == Some(pc.sql)))
  {
    hide Step, Run, Inv;
    InvValid(cfg, s);
    var rest := [Release(t, broken)] + [];
    if s.threads[t].Releasing? {
      EnabledExactly(cfg, s, Execute(t));
      RunSkip(cfg, s, Execute(t), rest);
      Releases(cfg, s, t, broken);
    } else {
      ExecuteOutcome(cfg, s, t);
      RunStep(cfg, s, Execute(t), rest);
      Releases(cfg, Step(cfg, s, Execute(t)).value, t, broken);
    }
  }

  lemma RunSkip(cfg: Config, s: State, e: Event, es: seq<Event>)
    requires Inv(cfg, s) && Step(cfg, s, e).None?
    ensures Run(cfg, s, [e] + es) == Run(cfg, s, es)
  {
    hide Step;
    assert ([e] + es)[1..] == es;
  }

  /** A prepared query of an idle thread for which there is a connection ends with the thread
      idle and the connections in use as before, whether the connection broke or the server
      refused the statement; if the statement could be used, exactly one execution is logged,
      on that connection, and it ran the SQL text that was asked for unless the pair is stale. */
  lemma QueryEnds(cfg: Config, s: State, t: nat, sql: string, pid: Pid, accepts: bool, accepted: bool, broken: bool)
    requires Inv(cfg, s) && t !in s.threads && Available(s, accepts)
    ensures exists conn ::
      QueryDone(cfg, s, Run(cfg, s, Query(t, sql, pid, accepts, accepted, broken)), conn, sql, pid, accepted)
  {
    hide Step, Run, Inv, Ids, InUse;
    InvValid(cfg, s);
    var last := [Execute(t)] + ([Release(t, broken)] + []);
    BeginTakes(cfg, s, t, sql, accepts, false);
    RunStep(cfg, s, BeginPrepared(t, sql, accepts), [Prepare(t, pid, accepted)] + last);
    var s1 := Step(cfg, s, BeginPrepared(t, sql, accepts)).value;
    var conn := s1.threads[t].conn;
    EnabledExactly(cfg, s, BeginPrepared(t, sql, accepts));
    InvValid(cfg, s1);
    PrepareOutcome(cfg, s1, t, pid, accepted);
    EnabledExactly(cfg, s1, Prepare(t, pid, accepted));
    RunStep(cfg, s1, Prepare(t, pid, accepted), last);
    var s2 := Step(cfg, s1, Prepare(t, pid, accepted)).value;
    ExecutesAndReleases(cfg, s2, t, broken);
    assert s2.threads - {t} == s.threads;
    assert NamesOf(s1, conn) == NamesOf(s, conn);
    var r := Run(cfg, s, Query(t, sql, pid, accepts, accepted, broken));
    assert InUse(r.pool) == InUse(s.pool);
    assert QueryDone(cfg, s, r, conn, sql, pid, accepted);
  }

  /** A plain query likewise, and it logs nothing. */
  lemma PlainQueryEnds(cfg: Config, s: State, t: nat, accepts: bool, broken: bool)
    requires Inv(cfg, s) && t !in s.threads && Available(s, accepts)
    ensures var r := Run(cfg, s, [BeginPlain(t, accepts)] + ([Execute(t)] + ([Release(t, broken)] + [])));
      r.threads == s.threads && InUse(r.pool) == InUse(s.pool) && r.log == s.log
  {
    hide Step, Run, Inv, Ids, InUse;
    InvValid(cfg, s);
    BeginTakes(cfg, s, t, "", accepts, true);
    RunStep(cfg, s, BeginPlain(t, accepts), [Execute(t)] + ([Release(t, broken)] + []));
    var s1 := Step(cfg, s, BeginPlain(t, accepts)).value;
    InvValid(cfg, s1);
    EnabledExactly(cfg, s, BeginPlain(t, accepts));
    ExecutesAndReleases(cfg, s1, t, broken);
    assert s1.threads - {t} == s.threads;
  }
}
