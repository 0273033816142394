/** What the pool promises in plain terms: how old a cached connection may be, and what its counters count. */
module PoolLaws {
  import opened Base
  import opened Search
  import opened Pool
  import opened Lru = PoolLru
  import R = Retry
  import S = Send

  // ----- The age of a connection -----

  /** Not older than the maximum age, in whole seconds; a maximum of 0 ms is none. */
  predicate Young(maxAgeMs: nat, age: nat) {
    maxAgeMs == 0 || 1000 * age <= maxAgeMs
  }

  lemma EntryIsFirst(p: Pool, dest: Dest, i: nat)
    requires R.Regular(p) && i < POOL_SIZE && p.entries[i].used && p.entries[i].dest == dest
    ensures First(p.entries, CachedFor(dest)) == i && p.entries[i].conn.Some?
  {
    assert CachedFor(dest)(p.entries[i]);
  }

  /**
   * The law of a lookup with an entry for the destination: a connection that is young enough is
   * returned without any call to libcsp, and only such a one; an older one is closed, and then a
   * new one opened.
   */
  lemma AgeLaw(p: Pool, dest: Dest, w: Weather, i: nat)
    requires R.Regular(p) && i < POOL_SIZE && p.entries[i].used && p.entries[i].dest == dest
    requires 0 <= w.now - p.entries[i].connectedAt < 0x1_0000_0000
    ensures var (q, conn) := Obtain(p, dest, w);
            var young := Young(p.maxAgeMs, w.now - p.entries[i].connectedAt);
            if young then conn == p.entries[i].conn && q.calls == p.calls
            else
              && conn == w.connected
              && q.calls == p.calls + [Close(p.entries[i].conn.value), Connect(dest, w.connected)]
  {
    EntryIsFirst(p, dest, i);
    var q := Ticked(p);
    ExpiredIsOutdated(p.maxAgeMs, p.entries[i].connectedAt, w.now);
    if Expired(q.maxAgeMs, q.entries[i].connectedAt, w.now) {
      assert MakeRoom(q, dest) == Invalidated(q, i);
    }
  }

  // ----- What the counters count -----

  datatype Tally = Tally(hits: nat, misses: nat, evictions: nat, failures: nat, invalidations: nat)

  /** One more operation on the list: what it was, told from what it did. */
  function Counting(t: Tally, list: seq<Cached>, maxAgeMs: uint32, op: Op): Tally {
    match op
    case Use(dest, w) =>
      var done := Touch(list, maxAgeMs, dest, w);
      if !done.connects then t.(hits := t.hits + 1)
      else
        var known := exists c :: c in list && c.dest == dest;
        var t' := if done.closed.None? then t
                  else if known then t.(invalidations := t.invalidations + 1)
                  else t.(evictions := t.evictions + 1);
        if done.conn.Some? then t'.(misses := t'.misses + 1) else t'.(failures := t'.failures + 1)
    case Discard(dest) =>
      if Forget(list, dest).closed.None? then t else t.(invalidations := t.invalidations + 1)
  }

  /** The list after some operations, with the count of what they were. */
  ghost function Tallied(maxAgeMs: uint32, ops: seq<Op>): Tally {
    if ops == [] then Tally(0, 0, 0, 0, 0)
    else
      var k := |ops| - 1;
      Counting(Tallied(maxAgeMs, ops[..k]), CacheSession(maxAgeMs, ops[..k]).cache.list, maxAgeMs, ops[k])
  }

  ghost predicate Within(t: Tally, n: nat) {
    t.hits <= n && t.misses <= n && t.evictions <= n && t.failures <= n && t.invalidations <= n
  }

  lemma KnownIsCached(list: seq<Cached>, dest: Dest)
    ensures (exists c :: c in list && c.dest == dest) <==> First(list, To(dest)) < |list|
  {
    var k := First(list, To(dest));
    if k < |list| {
      assert To(dest)(list[k]) && list[k] in list;
    } else {
      assert forall j :: 0 <= j < |list| ==> !To(dest)(list[j]);
    }
  }

  lemma FullIsSixteen(p: Pool, order: seq<nat>)
    requires Ranked(p, order)
    ensures First(p.entries, Free()) == POOL_SIZE <==> |order| == 16
    ensures |order| <= 16
  {
    OrderCount(p.entries, order);
    UsedCount(p.entries);
  }

  /** The counters of the pool, as a count. */
  function Shown(s: Stats): Tally {
    Tally(s.hits, s.misses, s.evictions, s.connectFailures, s.invalidations)
  }

  lemma HitCounts(q: Pool, order: seq<nat>, dest: Dest, w: Weather)
    requires Ranked(q, order) && Usable(q, dest, w.now) && q.stats.hits < 0xFFFF_FFFF
    ensures var i := First(q.entries, CachedFor(dest));
            Shown(Hit(q, i).stats) == Counting(Shown(q.stats), View(q.entries, order), q.maxAgeMs, Use(dest, w))
  {
    hide Expired, Outdated, Tidy, Lists, ByLastUse, View;
    RankedIsTidy(q, order);
    SameHit(q.entries, order, dest);
    var k := First(View(q.entries, order), To(dest));
    ExpiredIsOutdated(q.maxAgeMs, q.entries[order[k]].connectedAt, w.now);
  }

  /** No counter is at its limit. */
  ghost predicate Roomy(s: Stats) {
    && s.hits < 0xFFFF_FFFF && s.misses < 0xFFFF_FFFF && s.evictions < 0xFFFF_FFFF
    && s.connectFailures < 0xFFFF_FFFF && s.invalidations < 0xFFFF_FFFF
  }

  /** What making room in a pool that holds these connections counts. */
  function RoomTally(t: Tally, known: bool, full: bool): Tally {
    if known then t.(invalidations := t.invalidations + 1)
    else if full then t.(evictions := t.evictions + 1)
    else t
  }

  function ConnectTally(t: Tally, connected: bool): Tally {
    if connected then t.(misses := t.misses + 1) else t.(failures := t.failures + 1)
  }

  lemma RoomCounting(q: Pool, dest: Dest)
    requires Shaped(q) && Roomy(q.stats)
    ensures Shown(MakeRoom(q, dest).stats)
            == RoomTally(Shown(q.stats), First(q.entries, CachedFor(dest)) < POOL_SIZE,
                         First(q.entries, Free()) == POOL_SIZE)
    ensures MakeRoom(q, dest).stats.misses == q.stats.misses
    ensures MakeRoom(q, dest).stats.connectFailures == q.stats.connectFailures
  {
  }

  lemma FillCounting(room: Pool, dest: Dest, w: Weather)
    requires Shaped(room) && First(room.entries, Free()) < POOL_SIZE
    requires room.stats.misses < 0xFFFF_FFFF && room.stats.connectFailures < 0xFFFF_FFFF
    ensures Shown(Fill(room, dest, w).stats) == ConnectTally(Shown(room.stats), w.connected.Some?)
  {
  }

  /** A lookup on the list that finds no young connection. */
  lemma TouchCounting(t: Tally, list: seq<Cached>, maxAgeMs: uint32, dest: Dest, w: Weather)
    requires |list| <= 16
    requires var k := First(list, To(dest)); k < |list| ==> Outdated(maxAgeMs, w.now - list[k].connectedAt)
    ensures Counting(t, list, maxAgeMs, Use(dest, w))
            == ConnectTally(RoomTally(t, First(list, To(dest)) < |list|, |list| == 16), w.connected.Some?)
  {
    hide Outdated, First;
    KnownIsCached(list, dest);
  }

  lemma MissCounts(q: Pool, order: seq<nat>, dest: Dest, w: Weather)
    requires Ranked(q, order) && !Usable(q, dest, w.now) && Roomy(q.stats)
    ensures Shown(Fill(MakeRoom(q, dest), dest, w).stats)
            == Counting(Shown(q.stats), View(q.entries, order), q.maxAgeMs, Use(dest, w))
  {
    hide Expired, Outdated, Tidy, Lists, ByLastUse, View, MakeRoom, Fill, Counting, First;
    RankedIsTidy(q, order);
    SameHit(q.entries, order, dest);
    FullIsSixteen(q, order);
    var list := View(q.entries, order);
    var k := First(list, To(dest));
    if k < |list| {
      ExpiredIsOutdated(q.maxAgeMs, q.entries[order[k]].connectedAt, w.now);
    }
    RoomCounting(q, dest);
    FillCounting(MakeRoom(q, dest), dest, w);
    TouchCounting(Shown(q.stats), list, q.maxAgeMs, dest, w);
  }

  lemma UseCounts(p: Pool, order: seq<nat>, dest: Dest, w: Weather)
    requires Ranked(p, order) && p.tick < 0xFFFF_FFFF && Roomy(p.stats)
    ensures Shown(Obtain(p, dest, w).0.stats)
            == Counting(Shown(p.stats), View(p.entries, order), p.maxAgeMs, Use(dest, w))
  {
    hide Usable, MakeRoom, Fill, Hit, Counting, First, View;
    TickedRanked(p, order);
    var q := Ticked(p);
    if Usable(q, dest, w.now) {
      HitCounts(q, order, dest, w);
    } else {
      MissCounts(q, order, dest, w);
    }
  }

  lemma TickedRanked(p: Pool, order: seq<nat>)
    requires Ranked(p, order) && p.tick < 0xFFFF_FFFF
    ensures Ranked(Ticked(p), order) && View(Ticked(p).entries, order) == View(p.entries, order)
  {
  }

  lemma DiscardCounts(p: Pool, order: seq<nat>, dest: Dest)
    requires Ranked(p, order) && Roomy(p.stats)
    ensures Shown(Invalidate(p, dest).stats)
            == Counting(Shown(p.stats), View(p.entries, order), p.maxAgeMs, Discard(dest))
  {
    hide Tidy, Lists, ByLastUse, View;
    RankedIsTidy(p, order);
    SameHit(p.entries, order, dest);
  }

  /** An operation counts one at most of each. */
  lemma OneEach(t: Tally, list: seq<Cached>, maxAgeMs: uint32, op: Op, n: nat)
    requires Within(t, n)
    ensures Within(Counting(t, list, maxAgeMs, op), n + 1)
  {
    hide Touch, Forget;
  }

  /**
   * The counters tell what happened: over any sequence of lookups and invalidations before the
   * tick wraps, hits are the lookups that connected to nothing, misses and connect failures
   * those that did and succeeded or not, evictions the connections closed for another
   * destination, and invalidations those closed for age or on request.
   */
  lemma {:induction false} CountersTell(maxAgeMs: uint32, ops: seq<Op>)
    requires |ops| < 0x1_0000_0000
    ensures Shown(PoolSession(maxAgeMs, ops).cache.stats) == Tallied(maxAgeMs, ops)
    ensures Within(Tallied(maxAgeMs, ops), |ops|)
  {
    hide Counting, Ranked, Counted, Touch, Forget, Obtain, Invalidate, View;
    if ops != [] {
      var k := |ops| - 1;
      CountersTell(maxAgeMs, ops[..k]);
      var order := PoolIsLruCache(maxAgeMs, ops[..k]);
      var p, list := PoolSession(maxAgeMs, ops[..k]).cache, CacheSession(maxAgeMs, ops[..k]).cache.list;
      OneEach(Tallied(maxAgeMs, ops[..k]), list, maxAgeMs, ops[k], k);
      match ops[k]
      case Use(dest, w) => UseCounts(p, order, dest, w);
      case Discard(dest) => DiscardCounts(p, order, dest);
    }
  }

  // ----- A connection handed over -----

  /**
   * `cspcl_conn_pool_add` caches the connection for its destination, stamped as just used; it
   * closes nothing if a slot is free, and else the one connection used longest ago.
   */
  lemma AddLaw(p: Pool, dest: Dest, conn: Handle, stamp: int) returns (i: nat)
    requires Shaped(p) && p.initialized
    ensures var (q, code) := Add(p, dest, Some(conn), true, stamp);
            && code == OK && i < POOL_SIZE && q.tick == (p.tick + 1) % 0x1_0000_0000
            && q.entries == p.entries[i := Entry(true, dest, Some(conn), q.tick, stamp)]
            && (if exists j :: 0 <= j < POOL_SIZE && !p.entries[j].used
                then !p.entries[i].used && q.calls == p.calls + [Adopt(conn)]
                else (forall j :: 0 <= j < POOL_SIZE ==> p.entries[i].lastUsed <= p.entries[j].lastUsed)
                     && q.calls == p.calls + CloseCalls(p.entries[i].conn) + [Adopt(conn)])
  {
    var q := Ticked(p);
    var free := First(q.entries, Free());
    if free < POOL_SIZE {
      i := free;
      assert Free()(q.entries[i]);
    } else {
      assert forall j :: 0 <= j < POOL_SIZE ==> !Free()(q.entries[j]);
      i := Oldest(q.entries);
      var room := Evict(q);
      RoomIsFree(q, 0);
      assert Free()(room.entries[i]);
      assert First(room.entries, Free()) == i;
    }
  }

  /** What `cspcl_conn_pool_add` refuses: the first check that fails gives the code, and nothing changes. */
  lemma AddRefusals(p: Pool, dest: Dest, conn: Option<Handle>, lockable: bool, stamp: int)
    requires Shaped(p)
    ensures var (q, code) := Add(p, dest, conn, lockable, stamp);
            && (code == INVALID_PARAM <==> conn.None?)
            && (code == NOT_INITIALIZED <==> conn.Some? && !p.initialized)
            && (code == CONNECTION <==> conn.Some? && p.initialized && !lockable)
            && (code != OK ==> q == p)
  {
    hide Evict;
  }

  // ----- Cleanup -----

  /** After a cleanup every slot is free, and every later use of the pool is refused and changes nothing. */
  lemma CleanedPoolRefuses(p: Pool, bundle: seq<byte>, dest: Dest, conn: Handle, lockable: bool,
                           ws: seq<Weather>, rs: seq<S.Reply>, stamp: int)
    requires Shaped(p) && p.initialized && |ws| == |rs| == 2 && 0 < |bundle| < 65536
    ensures var q := Cleanup(p, true);
            && (forall i :: 0 <= i < POOL_SIZE ==> !q.entries[i].used && q.entries[i].conn == None)
            && S.Outcome(true, q, Some(bundle), dest, lockable, ws, rs) == (q, NOT_INITIALIZED)
            && Add(q, dest, Some(conn), lockable, stamp) == (q, NOT_INITIALIZED)
            && Cleanup(q, lockable) == q
  {
    hide CleanupCalls;
  }
}
