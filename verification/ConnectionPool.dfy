/**
 * The connection pool as the C code runs it: a fixed array of slots, searched by index loops
 * and changed in place (src/cspcl.c:82-243, 420-487). Each method is proved to compute the
 * operation of module `Pool` with the same meaning.
 */
module ConnectionPool {
  import opened Base
  import opened Search
  import P = Pool

  class ConnectionPool {
    var initialized: bool
    const entries: array<P.Entry>
    var tick: uint32
    var maxAgeMs: uint32
    var stats: P.Stats
    /** Every call made into libcsp so far. */
    ghost var calls: seq<Call>

    ghost predicate Valid()
      reads this
    {
      entries.Length == POOL_SIZE
    }

    ghost function Value(): (p: P.Pool)
      requires Valid()
      reads this, entries
      ensures P.Shaped(p)
    {
      P.Pool(initialized, entries[..], tick, maxAgeMs, stats, calls)
    }

    /** A zeroed pool. */
    constructor ()
      ensures Valid() && fresh(entries)
      ensures Value() == P.Init(0).(initialized := false)
    {
      entries := new P.Entry[POOL_SIZE](_ => P.UNUSED);
      initialized, tick, maxAgeMs := false, 0, 0;
      stats, calls := P.Stats(0, 0, 0, 0, 0), [];
      new;
      assert entries[..] == P.Init(0).entries;
    }

    /**
     * `cspcl_conn_pool_init`; the maximum age comes from the process environment. Without a
     * mutex the pool stays zeroed, and refuses every use.
     */
    static method Create(maxAge: uint32, mutexCreated: bool) returns (pool: ConnectionPool, code: Code)
      ensures fresh(pool) && fresh(pool.entries) && pool.Valid()
      ensures code == if mutexCreated then OK else NO_MEMORY
      ensures pool.Value() == if mutexCreated then P.Init(maxAge) else P.Init(0).(initialized := false)
    {
      pool := new ConnectionPool();
      if !mutexCreated { return pool, NO_MEMORY; }
      pool.maxAgeMs := maxAge;
      pool.initialized := true;
      code := OK;
    }

    /** `csp_close` on the connection of slot `i`, if it has one. */
    method CloseSlot(i: nat)
      requires Valid() && i < POOL_SIZE
      modifies this`calls, entries
      ensures Value() == P.CloseSlot(old(Value()), i)
    {
      if entries[i].conn != None {
        calls := calls + [Close(entries[i].conn.value)];
        entries[i] := entries[i].(conn := None);
      }
      entries[i] := entries[i].(used := false);
      assert entries[..] == P.CloseSlot(old(Value()), i).entries;
      assert calls == P.CloseSlot(old(Value()), i).calls;
    }

    /** Close and free slot `i`, counted as an invalidation. */
    method Discard(i: nat)
      requires Valid() && i < POOL_SIZE
      modifies this`calls, this`stats, entries
      ensures Value() == P.Invalidated(old(Value()), i)
    {
      CloseSlot(i);
      stats := stats.(invalidations := Wrap(stats.invalidations + 1));
    }

    /** Stamp slot `i` with the current tick, counted as a hit. */
    method Reuse(i: nat)
      requires Valid() && i < POOL_SIZE
      modifies this`stats, entries
      ensures Value() == P.Hit(old(Value()), i)
    {
      entries[i] := entries[i].(lastUsed := tick);
      stats := stats.(hits := Wrap(stats.hits + 1));
      assert entries[..] == P.Hit(old(Value()), i).entries;
    }

    /** The scan for the least recently used slot. */
    method FindOldest() returns (lru: nat)
      requires Valid()
      ensures lru < POOL_SIZE && lru == P.Oldest(entries[..])
    {
      lru := 0;
      var oldest := entries[0].lastUsed;
      for i := 1 to POOL_SIZE
        invariant lru < i && oldest == entries[lru].lastUsed
        invariant forall j :: 0 <= j < i ==> oldest <= entries[j].lastUsed
        invariant forall j :: 0 <= j < lru ==> oldest < entries[j].lastUsed
      {
        if entries[i].lastUsed < oldest {
          oldest := entries[i].lastUsed;
          lru := i;
        }
      }
      assert entries[..][lru] == entries[lru];
      assert entries[..][P.Oldest(entries[..])] == entries[P.Oldest(entries[..])];
    }

    /** Close the least recently used connection of a full pool, which leaves one free slot. */
    method EvictOldest() returns (slot: nat)
      requires Valid() && First(entries[..], P.Free()) == POOL_SIZE
      modifies this`calls, this`stats, entries
      ensures Value() == P.Evict(old(Value()))
      ensures slot < POOL_SIZE && slot == First(entries[..], P.Free())
    {
      ghost var p := Value();
      assert forall j :: 0 <= j < POOL_SIZE ==> !P.Free()(p.entries[j]);
      slot := FindOldest();
      CloseSlot(slot);
      stats := stats.(evictions := Wrap(stats.evictions + 1));
      assert P.Free()(entries[..][slot]);
    }

    /** Connect and cache the connection in the free slot `slot`. */
    method ConnectInto(slot: nat, dest: Dest, w: P.Weather) returns (conn: Option<Handle>)
      requires Valid() && slot < POOL_SIZE && slot == First(entries[..], P.Free())
      modifies this`calls, this`stats, entries
      ensures Value() == P.Fill(old(Value()), dest, w) && conn == w.connected
    {
      ghost var room := Value();
      calls := calls + [Connect(dest, w.connected)];
      conn := w.connected;
      if conn == None {
        stats := stats.(connectFailures := Wrap(stats.connectFailures + 1));
        return;
      }
      entries[slot] := P.Entry(true, dest, conn, tick, w.stamp);
      stats := stats.(misses := Wrap(stats.misses + 1));
      assert entries[..] == P.Fill(room, dest, w).entries;
    }

    /** `cspcl_pool_find_free_or_evict_locked`. */
    method FindFreeOrEvict() returns (slot: nat)
      requires Valid()
      modifies this`calls, this`stats, entries
      ensures var p := old(Value());
              Value() == if First(p.entries, P.Free()) == POOL_SIZE then P.Evict(p) else p
      ensures slot < POOL_SIZE && slot == First(entries[..], P.Free())
    {
      ghost var p := Value();
      for i := 0 to POOL_SIZE
        invariant Value() == p
        invariant forall j :: 0 <= j < i ==> entries[j].used
      {
        if !entries[i].used {
          slot := i;
          assert P.Free()(entries[..][i]);
          return;
        }
      }
      slot := EvictOldest();
    }

    /** `cspcl_conn_pool_add`; `lockable` is whether the mutex could be taken. */
    method Add(dest: Dest, conn: Option<Handle>, lockable: bool, stamp: int) returns (code: Code)
      requires Valid()
      modifies this, entries
      ensures (Value(), code) == P.Add(old(Value()), dest, conn, lockable, stamp)
    {
      if conn == None { return INVALID_PARAM; }
      if !initialized { return NOT_INITIALIZED; }
      if !lockable { return CONNECTION; }
      ghost var r := P.Add(Value(), dest, conn, lockable, stamp);
      tick := Wrap(tick + 1);
      var slot := FindFreeOrEvict();
      entries[slot] := P.Entry(true, dest, conn, tick, stamp);
      calls := calls + [Adopt(conn.value)];
      code := OK;
      assert entries[..] == r.0.entries;
    }

    /**
     * The scan of `cspcl_pool_get_or_create_locked`: finds the cached connection, or the first
     * free slot. A connection that is too old is closed on the way and ends the scan.
     */
    method Scan(dest: Dest, now: int) returns (conn: Option<Handle>, freeSlot: nat)
      requires Valid()
      modifies this`stats, this`calls, entries
      ensures var q := old(Value());
              var hit := First(q.entries, P.CachedFor(dest));
              if hit < POOL_SIZE && !P.Expired(q.maxAgeMs, q.entries[hit].connectedAt, now) then
                Value() == P.Hit(q, hit) && conn == q.entries[hit].conn && conn.Some?
              else
                && conn == None
                && Value() == (if hit < POOL_SIZE then P.Invalidated(q, hit) else q)
                && freeSlot == First(entries[..], P.Free())
    {
      ghost var q := Value();
      conn, freeSlot := None, POOL_SIZE;
      for i := 0 to POOL_SIZE
        invariant Value() == q && conn == None
        invariant forall j :: 0 <= j < i ==> !P.CachedFor(dest)(q.entries[j])
        invariant freeSlot <= POOL_SIZE
        invariant freeSlot < POOL_SIZE ==> freeSlot < i && !q.entries[freeSlot].used
        invariant forall j :: 0 <= j < i && j < freeSlot ==> q.entries[j].used
      {
        if !entries[i].used {
          if freeSlot == POOL_SIZE {
            freeSlot := i;
          }
          assert !P.CachedFor(dest)(q.entries[i]);
          continue;
        }
        if entries[i].dest == dest && entries[i].conn != None {
          assert P.CachedFor(dest)(q.entries[i]);
          assert i == First(q.entries, P.CachedFor(dest));
          if maxAgeMs > 0 && Wrap(now - entries[i].connectedAt) > maxAgeMs / 1000 {
            Discard(i);
            if freeSlot == POOL_SIZE {
              freeSlot := i;
            }
            assert P.Free()(entries[..][freeSlot]);
            assert forall j :: 0 <= j < freeSlot ==> !P.Free()(entries[..][j]);
            return;
          }
          conn := entries[i].conn;
          Reuse(i);
          return;
        }
        assert !P.CachedFor(dest)(q.entries[i]);
      }
      assert freeSlot < POOL_SIZE ==> P.Free()(q.entries[freeSlot]);
      assert forall j :: 0 <= j < freeSlot ==> !P.Free()(q.entries[j]);
    }

    /** `cspcl_pool_get_or_create_locked`. */
    method GetOrCreate(dest: Dest, w: P.Weather) returns (conn: Option<Handle>)
      requires Valid()
      modifies this, entries
      ensures (Value(), conn) == P.Obtain(old(Value()), dest, w)
    {
      hide P.Hit, P.Fill, P.Evict, P.Expired, P.Invalidated, Wrap, First;
      tick := Wrap(tick + 1);
      ghost var q := Value();
      P.RoomIsFree(q, First(q.entries, P.CachedFor(dest)));
      var freeSlot;
      conn, freeSlot := Scan(dest, w.now);
      if conn != None { return; }
      if freeSlot == POOL_SIZE {
        freeSlot := EvictOldest();
      }
      conn := ConnectInto(freeSlot, dest, w);
    }

    /** `cspcl_pool_invalidate_locked`. */
    method Invalidate(dest: Dest)
      requires Valid()
      modifies this`calls, this`stats, entries
      ensures Value() == P.Invalidate(old(Value()), dest)
    {
      ghost var p := Value();
      for i := 0 to POOL_SIZE
        invariant Value() == p
        invariant forall j :: 0 <= j < i ==> !P.KeptFor(dest)(p.entries[j])
      {
        if entries[i].used && entries[i].dest == dest {
          assert P.KeptFor(dest)(p.entries[i]);
          Discard(i);
          return;
        }
        assert !P.KeptFor(dest)(p.entries[i]);
      }
    }

    /** `cspcl_conn_pool_cleanup`. */
    method Cleanup(lockable: bool)
      requires Valid()
      modifies this, entries
      ensures Value() == P.Cleanup(old(Value()), lockable)
    {
      if !initialized || !lockable { return; }
      ghost var p := Value();
      for i := 0 to POOL_SIZE
        invariant unchanged(`initialized) && unchanged(`tick) && unchanged(`maxAgeMs) && unchanged(`stats)
        invariant calls == p.calls + P.CleanupCalls(p.entries, i)
        invariant forall j :: 0 <= j < i ==> entries[j] == p.entries[j].(used := false, conn := None)
        invariant forall j :: i <= j < POOL_SIZE ==> entries[j] == p.entries[j]
      {
        if entries[i].used && entries[i].conn != None {
          calls := calls + [Close(entries[i].conn.value)];
        }
        entries[i] := entries[i].(used := false, conn := None);
      }
      initialized := false;
      assert entries[..] == P.Cleanup(p, lockable).entries;
    }
  }
}
