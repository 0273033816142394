/**
 * The outbound connection pool (src/cspcl.c:82-243, 420-487) on values: what each operation
 * does to the slot array, the tick, the counters and libcsp.
 */
module Pool {
  import opened Base
  import opened Search

  datatype Entry = Entry(used: bool, dest: Dest, conn: Option<Handle>, lastUsed: uint32, connectedAt: int)

  datatype Stats = Stats(hits: uint32, misses: uint32, evictions: uint32,
                         connectFailures: uint32, invalidations: uint32)

  /** The pool, together with every call it made into libcsp. */
  datatype Pool = Pool(initialized: bool, entries: seq<Entry>, tick: uint32, maxAgeMs: uint32,
                       stats: Stats, calls: seq<Call>)

  const UNUSED := Entry(false, Dest(0, 0), None, 0, 0)

  /**
   * What the environment answers while a connection is obtained: the wall clock at the age
   * check, the outcome of `csp_connect`, and the wall clock stamped on a new connection.
   */
  datatype Weather = Weather(now: int, connected: Option<Handle>, stamp: int)

  predicate Shaped(p: Pool) {
    |p.entries| == POOL_SIZE
  }

  function Init(maxAgeMs: uint32): Pool {
    Pool(true, seq(POOL_SIZE, _ => UNUSED), 0, maxAgeMs, Stats(0, 0, 0, 0, 0), [])
  }

  function CachedFor(dest: Dest): Entry -> bool {
    (e: Entry) => e.used && e.dest == dest && e.conn.Some?
  }

  function KeptFor(dest: Dest): Entry -> bool {
    (e: Entry) => e.used && e.dest == dest
  }

  function Free(): Entry -> bool {
    (e: Entry) => !e.used
  }

  function Ages(entries: seq<Entry>): (ages: seq<int>)
    ensures |ages| == |entries|
    ensures forall i :: 0 <= i < |ages| ==> ages[i] == entries[i].lastUsed
  {
    seq(|entries|, i requires 0 <= i < |entries| => entries[i].lastUsed)
  }

  /** The slot used longest ago. */
  function Oldest(entries: seq<Entry>): (i: nat)
    requires entries != []
    ensures i < |entries|
    ensures forall j :: 0 <= j < |entries| ==> entries[i].lastUsed <= entries[j].lastUsed
    ensures forall j :: 0 <= j < i ==> entries[i].lastUsed < entries[j].lastUsed
  {
    ArgMin(Ages(entries))
  }

  /** Whether a connection exceeded the maximum age; 0 disables the check. */
  predicate Expired(maxAgeMs: uint32, connectedAt: int, now: int) {
    maxAgeMs > 0 && Wrap(now - connectedAt) > maxAgeMs / 1000
  }

  function CloseCalls(conn: Option<Handle>): seq<Call> {
    if conn.Some? then [Close(conn.value)] else []
  }

  /** Close the connection of slot `i` and free the slot. */
  function CloseSlot(p: Pool, i: nat): Pool
    requires i < |p.entries|
  {
    p.(entries := p.entries[i := p.entries[i].(used := false, conn := None)],
       calls := p.calls + CloseCalls(p.entries[i].conn))
  }

  function Evict(p: Pool): Pool
    requires Shaped(p)
  {
    CloseSlot(p, Oldest(p.entries)).(stats := p.stats.(evictions := Wrap(p.stats.evictions + 1)))
  }

  function Invalidated(p: Pool, i: nat): Pool
    requires i < |p.entries|
  {
    CloseSlot(p, i).(stats := p.stats.(invalidations := Wrap(p.stats.invalidations + 1)))
  }

  function Hit(p: Pool, i: nat): Pool
    requires i < |p.entries|
  {
    p.(entries := p.entries[i := p.entries[i].(lastUsed := p.tick)],
       stats := p.stats.(hits := Wrap(p.stats.hits + 1)))
  }

  /** Connect to `dest` and cache the connection in the first free slot. */
  function Fill(p: Pool, dest: Dest, w: Weather): Pool
    requires Shaped(p) && First(p.entries, Free()) < POOL_SIZE
  {
    var called := p.(calls := p.calls + [Connect(dest, w.connected)]);
    if w.connected.None? then
      called.(stats := p.stats.(connectFailures := Wrap(p.stats.connectFailures + 1)))
    else
      var entry := Entry(true, dest, w.connected, p.tick, w.stamp);
      called.(entries := p.entries[First(p.entries, Free()) := entry],
              stats := p.stats.(misses := Wrap(p.stats.misses + 1)))
  }

  /**
   * `cspcl_pool_get_or_create_locked`: the cached connection, unless it is too old; else a
   * new one, in a slot freed by evicting the least recently used one if need be.
   */
  function Obtain(p: Pool, dest: Dest, w: Weather): (r: (Pool, Option<Handle>))
    requires Shaped(p)
    ensures Shaped(r.0)
  {
    var q := Ticked(p);
    if Usable(q, dest, w.now) then
      var i := First(q.entries, CachedFor(dest));
      (Hit(q, i), q.entries[i].conn)
    else
      (Fill(MakeRoom(q, dest), dest, w), w.connected)
  }

  function Ticked(p: Pool): Pool {
    p.(tick := Wrap(p.tick + 1))
  }

  /** Whether a connection to `dest` is cached and not too old. */
  predicate Usable(q: Pool, dest: Dest, now: int)
    requires Shaped(q)
  {
    var i := First(q.entries, CachedFor(dest));
    i < POOL_SIZE && !Expired(q.maxAgeMs, q.entries[i].connectedAt, now)
  }

  /** Close the outdated connection to `dest`, or else the least recently used one of a full pool. */
  function MakeRoom(q: Pool, dest: Dest): (room: Pool)
    requires Shaped(q)
    ensures Shaped(room) && First(room.entries, Free()) < POOL_SIZE
  {
    var i := First(q.entries, CachedFor(dest));
    RoomIsFree(q, i);
    if i < POOL_SIZE then Invalidated(q, i)
    else if First(q.entries, Free()) == POOL_SIZE then Evict(q)
    else q
  }

  lemma RoomIsFree(q: Pool, i: nat)
    requires Shaped(q)
    ensures i < POOL_SIZE ==> First(Invalidated(q, i).entries, Free()) < POOL_SIZE
    ensures First(Evict(q).entries, Free()) < POOL_SIZE
  {
    if i < POOL_SIZE {
      assert Free()(Invalidated(q, i).entries[i]);
    }
    assert Free()(Evict(q).entries[Oldest(q.entries)]);
  }

  /** `cspcl_pool_invalidate_locked`: drop the first entry kept for `dest`, if any. */
  function Invalidate(p: Pool, dest: Dest): (r: Pool)
    requires Shaped(p)
    ensures Shaped(r)
  {
    var i := First(p.entries, KeptFor(dest));
    if i < POOL_SIZE then Invalidated(p, i) else p
  }

  /** `cspcl_conn_pool_add`: take over a connection, also for a destination already cached. */
  function Add(p: Pool, dest: Dest, conn: Option<Handle>, lockable: bool, stamp: int): (r: (Pool, Code))
    requires Shaped(p)
    ensures Shaped(r.0)
  {
    if conn.None? then (p, INVALID_PARAM)
    else if !p.initialized then (p, NOT_INITIALIZED)
    else if !lockable then (p, CONNECTION)
    else
      var q := Ticked(p);
      var room := if First(q.entries, Free()) == POOL_SIZE then Evict(q) else q;
      RoomIsFree(q, 0);
      var entry := Entry(true, dest, conn, q.tick, stamp);
      (room.(entries := room.entries[First(room.entries, Free()) := entry],
             calls := room.calls + [Adopt(conn.value)]), OK)
  }

  /** The closes that emptying the first `n` slots makes. */
  function CleanupCalls(entries: seq<Entry>, n: nat): seq<Call>
    requires n <= |entries|
  {
    if n == 0 then []
    else CleanupCalls(entries, n - 1) + if entries[n - 1].used then CloseCalls(entries[n - 1].conn) else []
  }

  /** `cspcl_conn_pool_cleanup`: close every cached connection; the pool refuses work from then on. */
  function Cleanup(p: Pool, lockable: bool): (r: Pool)
    requires Shaped(p)
    ensures Shaped(r)
  {
    if !p.initialized || !lockable then p
    else
      p.(initialized := false,
         entries := seq(POOL_SIZE, i requires 0 <= i < POOL_SIZE => p.entries[i].(used := false, conn := None)),
         calls := p.calls + CleanupCalls(p.entries, POOL_SIZE))
  }
}
