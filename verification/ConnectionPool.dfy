/** The database connection pool (db_pool.c): the list of connections on values, and the
    pool object whose locked methods follow it. */
module ConnectionPool {
  import opened Options

  const MAX_POOL_SIZE := 50

  /** A pooled connection: which server connection it wraps, and whether it is handed out. */
  datatype Conn = Conn(id: nat, inUse: bool)

  /** The pool: its connections, newest first, its size counter and its limit. */
  datatype Pool = Pool(conns: seq<Conn>, size: int, maxSize: int)

  predicate Distinct(conns: seq<Conn>) {
    forall i, j :: 0 <= i < j < |conns| ==> conns[i].id != conns[j].id
  }

  predicate ValidPool(p: Pool) {
    && p.size == |p.conns| <= p.maxSize
    && Distinct(p.conns)
    && forall i :: 0 <= i < |p.conns| ==> p.conns[i].id < |p.conns|
  }

  function Ids(p: Pool): set<nat> {
    set i | 0 <= i < |p.conns| :: p.conns[i].id
  }

  function InUse(p: Pool): set<nat> {
    set i | 0 <= i < |p.conns| && p.conns[i].inUse :: p.conns[i].id
  }

  /** The first connection of the list that is free, or its length. */
  function FirstFree(conns: seq<Conn>): (i: nat)
    ensures i <= |conns|
    ensures i < |conns| ==> !conns[i].inUse
    ensures forall j :: 0 <= j < i ==> conns[j].inUse
  {
    if conns == [] || !conns[0].inUse then 0 else 1 + FirstFree(conns[1..])
  }

  /** getConnection. `accepts` says whether the server would accept a new connection now. */
  function Get(p: Pool, accepts: bool): (r: (Pool, Option<nat>))
    requires ValidPool(p)
  {
    var i := FirstFree(p.conns);
    if i < |p.conns| then
      (p.(conns := p.conns[i := p.conns[i].(inUse := true)]), Some(p.conns[i].id))
    else if p.size < p.maxSize && accepts then
      (p.(conns := [Conn(|p.conns|, true)] + p.conns, size := p.size + 1), Some(|p.conns|))
    else (p, None)
  }

  /** returnConnection, apart from the reset of the server connection. */
  function Return(p: Pool, id: nat): Pool {
    p.(conns := seq(|p.conns|, i requires 0 <= i < |p.conns| =>
                    if p.conns[i].id == id then p.conns[i].(inUse := false) else p.conns[i]))
  }

  /** getConnection hands out a connection that nobody holds and marks it; it fails only
      when every connection is in use and no new one can be made. */
  lemma GetHandsOut(p: Pool, accepts: bool)
    requires ValidPool(p)
    ensures var (p', r) := Get(p, accepts);
      && ValidPool(p') && p'.maxSize == p.maxSize
      && (r.None? ==> p' == p && InUse(p) == Ids(p) && (p.size == p.maxSize || !accepts))
      && (r.Some? ==>
            && r.value !in InUse(p)
            && InUse(p') == InUse(p) + {r.value}
            && Ids(p') == Ids(p) + {r.value})
      && (r.Some? && r.value !in Ids(p) ==> InUse(p) == Ids(p) && p.size < p.maxSize)
  {
    var i := FirstFree(p.conns);
    var (p', r) := Get(p, accepts);
    if i < |p.conns| {
      Updated(p, i);
    } else if r.Some? {
      Prepended(p, p');
    } else {
      assert forall j :: 0 <= j < |p.conns| ==> p.conns[j].inUse;
      assert InUse(p) == Ids(p);
    }
  }

  lemma Updated(p: Pool, i: nat)
    requires ValidPool(p) && i < |p.conns| && !p.conns[i].inUse
    ensures var p' := p.(conns := p.conns[i := p.conns[i].(inUse := true)]);
      ValidPool(p') && p.conns[i].id !in InUse(p)
      && InUse(p') == InUse(p) + {p.conns[i].id} && Ids(p') == Ids(p) == Ids(p) + {p.conns[i].id}
  {
    var p' := p.(conns := p.conns[i := p.conns[i].(inUse := true)]);
    assert forall j :: 0 <= j < |p.conns| ==> p'.conns[j].id == p.conns[j].id;
    assert Ids(p') == Ids(p);
    forall id | id in InUse(p') ensures id in InUse(p) + {p.conns[i].id} {
      var j :| 0 <= j < |p'.conns| && p'.conns[j].inUse && p'.conns[j].id == id;
      assert j != i ==> p.conns[j] == p'.conns[j];
    }
    forall id | id in InUse(p) + {p.conns[i].id} ensures id in InUse(p') {
      if id == p.conns[i].id {
        assert p'.conns[i].inUse && p'.conns[i].id == id;
      } else {
        var j :| 0 <= j < |p.conns| && p.conns[j].inUse && p.conns[j].id == id;
        assert p'.conns[j] == p.conns[j];
      }
    }
  }

  lemma AllBusy(p: Pool)
    requires forall i :: 0 <= i < |p.conns| ==> p.conns[i].inUse
    ensures InUse(p) == Ids(p)
  {
  }

  lemma IdsPrepended(p: Pool, p': Pool, c: Conn)
    requires p'.conns == [c] + p.conns
    ensures Ids(p') == Ids(p) + {c.id}
  {
    assert forall j :: 0 <= j < |p.conns| ==> p'.conns[j + 1] == p.conns[j];
    assert p'.conns[0] == c;
    forall id | id in Ids(p) ensures id in Ids(p') {
      var j :| 0 <= j < |p.conns| && p.conns[j].id == id;
      assert p'.conns[j + 1].id == id;
    }
    assert c.id in Ids(p');
  }

  lemma Prepended(p: Pool, p': Pool)
    requires ValidPool(p) && FirstFree(p.conns) == |p.conns| && p.size < p.maxSize
    requires p' == p.(conns := [Conn(|p.conns|, true)] + p.conns, size := p.size + 1)
    ensures ValidPool(p') && |p.conns| !in Ids(p) && InUse(p) == Ids(p)
    ensures InUse(p') == InUse(p) + {|p.conns|} && Ids(p') == Ids(p) + {|p.conns|}
  {
    hide InUse;
    assert forall j :: 1 <= j < |p'.conns| ==> p'.conns[j] == p.conns[j - 1];
    AllBusy(p);
    AllBusy(p');
    IdsPrepended(p, p', Conn(|p.conns|, true));
  }

  /** Returning frees exactly that connection. */
  lemma ReturnFrees(p: Pool, id: nat)
    requires ValidPool(p)
    ensures var p' := Return(p, id);
      ValidPool(p') && p'.maxSize == p.maxSize && Ids(p') == Ids(p) && InUse(p') == InUse(p) - {id}
  {
    var p' := Return(p, id);
    assert forall j :: 0 <= j < |p.conns| ==> p'.conns[j].id == p.conns[j].id;
    forall x | x in InUse(p) - {id} ensures x in InUse(p') {
      var j :| 0 <= j < |p.conns| && p.conns[j].inUse && p.conns[j].id == x;
      assert p'.conns[j] == p.conns[j];
    }
  }

  // ---------- the pool object ----------

  class PooledConnection {
    const id: nat
    var inUse: bool

    constructor (id: nat)
      ensures this.id == id && !inUse
    {
      this.id := id;
      inUse := false;
    }
  }

  class PoolObject {
    var connections: seq<PooledConnection>
    var size: int
    const maxSize: int

    ghost predicate Valid()
      reads this, connections
    {
      (forall i, j :: 0 <= i < j < |connections| ==> connections[i] != connections[j])
      && ValidPool(Contents())
    }

    ghost function Contents(): (p: Pool)
      reads this, connections
      ensures |p.conns| == |connections|
    {
      Pool(seq(|connections|, i requires 0 <= i < |connections| reads this, connections =>
                 Conn(connections[i].id, connections[i].inUse)), size, maxSize)
    }

    /** The fresh pool of initConnectionPool. `accepts(i)` says whether the server takes the
        i-th connection; the first refusal ends the loop. The loop looks at the requested
        size only, so the pool keeps within its limit exactly when the connections it could
        open do. */
    constructor (initialSize: int, max: int, accepts: nat -> bool)
      requires 1 <= initialSize <= max
      ensures fresh(connections) && size == |connections| <= initialSize
      ensures maxSize == if max > MAX_POOL_SIZE then MAX_POOL_SIZE else max
      ensures forall i :: 0 <= i < size ==> accepts(i)
      ensures size < initialSize ==> !accepts(size)
      ensures InUse(Contents()) == {}
      ensures Valid() <==> size <= maxSize
    {
      connections := [];
      size := 0;
      maxSize := if max > MAX_POOL_SIZE then MAX_POOL_SIZE else max;
      new;
      var i := 0;
      while i < initialSize
        invariant 0 <= i <= initialSize && size == i == |connections|
        invariant fresh(connections)
        invariant forall j :: 0 <= j < i ==> accepts(j)
        invariant forall j :: 0 <= j < |connections| ==> connections[j].id == i - 1 - j && !connections[j].inUse
        invariant forall j, k :: 0 <= j < k < |connections| ==> connections[j] != connections[k]
      {
        if !accepts(i) {
          break;
        }
        var conn := new PooledConnection(i);
        connections := [conn] + connections;
        size := size + 1;
        i := i + 1;
      }
    }

    /** getConnection. */
    method GetConnection(accepts: bool) returns (conn: PooledConnection?)
      requires Valid()
      modifies this, connections
      ensures Valid()
      ensures var (p', r) := Get(old(Contents()), accepts);
        Contents() == p' && (conn == null <==> r.None?) && (conn != null ==> conn.id == r.value && conn in connections)
      ensures fresh(set c | c in connections && c !in old(connections))
    {
      hide Ids, InUse;
      ghost var before := Contents();
      GetHandsOut(before, accepts);
      var i := 0;
      while i < |connections|
        invariant 0 <= i <= |connections|
        invariant forall j :: 0 <= j < i ==> before.conns[j].inUse
      {
        if !connections[i].inUse {
          conn := connections[i];
          FirstFreeIs(before.conns, i);
          conn.inUse := true;
          assert Contents().conns == before.conns[i := before.conns[i].(inUse := true)];
          return;
        }
        i := i + 1;
      }
      FirstFreeIs(before.conns, i);
      if size < maxSize && accepts {
        conn := new PooledConnection(|connections|);
        conn.inUse := true;
        connections := [conn] + connections;
        size := size + 1;
        assert Contents().conns == [Conn(|before.conns|, true)] + before.conns;
        return;
      }
      conn := null;
    }

    /** returnConnection. */
    method ReturnConnection(conn: PooledConnection)
      requires Valid() && conn in connections
      modifies conn
      ensures Valid() && Contents() == Return(old(Contents()), conn.id)
    {
      ghost var before := Contents();
      ReturnFrees(before, conn.id);
      var k :| 0 <= k < |connections| && connections[k] == conn;
      assert before.conns[k].id == conn.id;
      assert forall j :: 0 <= j < |connections| && j != k ==> before.conns[j].id != conn.id;
      conn.inUse := false;
      assert Contents().conns == Return(before, conn.id).conns;
    }
  }

  /** initConnectionPool: NULL on arguments that make no sense and when not a single
      connection could be opened. A requested size of at most 50 always gives a pool that
      keeps within its limit; a larger one does so exactly when the server refuses the
      fifty-first connection. */
  method InitConnectionPool(initialSize: int, max: int, accepts: nat -> bool) returns (pool: PoolObject?)
    ensures pool == null <==> initialSize < 1 || max < initialSize || !accepts(0)
    ensures pool != null ==>
      && fresh(pool) && fresh(pool.connections) && 1 <= pool.size <= initialSize
      && (pool.size < initialSize ==> !accepts(pool.size))
      && pool.maxSize == (if max > MAX_POOL_SIZE then MAX_POOL_SIZE else max)
      && (pool.Valid() <==> initialSize <= MAX_POOL_SIZE || exists i :: 0 <= i <= MAX_POOL_SIZE && !accepts(i))
  {
    if initialSize < 1 || max < initialSize {
      return null;
    }
    pool := new PoolObject(initialSize, max, accepts);
    if pool.size == 0 {
      pool := null;
    }
  }

  /** For example: a pool asked to start with 51 connections holds 51, one more than it
      allows. */
  method PoolOverLimit() returns (pool: PoolObject?)
    ensures pool != null && fresh(pool) && pool.size == 51 && pool.maxSize == 50 && !pool.Valid()
  {
    pool := InitConnectionPool(51, 51, i => true);
  }

  lemma {:induction false} FirstFreeIs(conns: seq<Conn>, i: nat)
    requires i <= |conns| && (i < |conns| ==> !conns[i].inUse)
    requires forall j :: 0 <= j < i ==> conns[j].inUse
    ensures FirstFree(conns) == i
  {
  }
}
