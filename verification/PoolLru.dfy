/**
 * The slot array is a least-recently-used cache: without `cspcl_conn_pool_add`, and as long as
 * the tick has not wrapped, it behaves exactly like a list ordered by last use.
 */
module PoolLru {
  import opened Base
  import opened Counting
  import opened Search
  import opened Pool

  // ----- The reference: a list of cached connections, least recently used first -----

  datatype Cached = Cached(dest: Dest, conn: Handle, connectedAt: int)

  function Without<T>(s: seq<T>, k: nat): (r: seq<T>)
    requires k < |s|
    ensures |r| == |s| - 1
    ensures forall j :: 0 <= j < k ==> r[j] == s[j]
    ensures forall j :: k <= j < |r| ==> r[j] == s[j + 1]
  {
    s[..k] + s[k + 1..]
  }

  function To(dest: Dest): Cached -> bool {
    (c: Cached) => c.dest == dest
  }

  /** What a lookup leaves: the list, the connection to use, and the one it closed. */
  datatype Lookup = Lookup(list: seq<Cached>, conn: Option<Handle>, closed: Option<Handle>, connects: bool)

  /** Older than the maximum age, in whole seconds modulo 2^32; a maximum of 0 ms is none. */
  predicate Outdated(maxAgeMs: nat, age: int) {
    maxAgeMs > 0 && 1000 * (age % 0x1_0000_0000) > maxAgeMs
  }

  /** Look `dest` up, connecting if it is not cached (or too old) and dropping the oldest of 16. */
  function Touch(list: seq<Cached>, maxAgeMs: uint32, dest: Dest, w: Weather): Lookup {
    var k := First(list, To(dest));
    if k < |list| && !Outdated(maxAgeMs, w.now - list[k].connectedAt) then
      Lookup(Without(list, k) + [list[k]], Some(list[k].conn), None, false)
    else if k < |list| then
      Connected(Without(list, k), Some(list[k].conn), dest, w)
    else if |list| == 16 then
      Connected(list[1..], Some(list[0].conn), dest, w)
    else
      Connected(list, None, dest, w)
  }

  function Connected(list: seq<Cached>, closed: Option<Handle>, dest: Dest, w: Weather): Lookup {
    if w.connected.None? then Lookup(list, None, closed, true)
    else Lookup(list + [Cached(dest, w.connected.value, w.stamp)], w.connected, closed, true)
  }

  /** Forget the connection to `dest`. */
  function Forget(list: seq<Cached>, dest: Dest): Lookup {
    var k := First(list, To(dest));
    if k < |list| then Lookup(Without(list, k), None, Some(list[k].conn), false)
    else Lookup(list, None, None, false)
  }

  // ----- The slot array seen through the order of last use -----

  /** Exactly the used slots hold a connection, and no two for the same destination. */
  ghost predicate Tidy(entries: seq<Entry>) {
    && |entries| == POOL_SIZE
    && (forall i :: 0 <= i < POOL_SIZE ==> (entries[i].used <==> entries[i].conn.Some?))
    && (forall i, j :: 0 <= i < j < POOL_SIZE && entries[i].used && entries[j].used ==>
          entries[i].dest != entries[j].dest)
  }

  /** `order` lists the used slots. */
  ghost predicate Lists(entries: seq<Entry>, order: seq<nat>) {
    && |entries| == POOL_SIZE
    && Distinct(order)
    && (forall k :: 0 <= k < |order| ==> order[k] < POOL_SIZE && entries[order[k]].used)
    && (forall i {:trigger entries[i]} :: 0 <= i < POOL_SIZE && entries[i].used ==> i in order)
  }

  /** Later in `order` means used later. */
  ghost predicate ByLastUse(entries: seq<Entry>, order: seq<nat>, tick: uint32)
    requires |entries| == POOL_SIZE
    requires forall k :: 0 <= k < |order| ==> order[k] < POOL_SIZE
  {
    && (forall k :: 0 <= k < |order| ==> entries[order[k]].lastUsed <= tick)
    && (forall j, k :: 0 <= j < k < |order| ==> entries[order[j]].lastUsed < entries[order[k]].lastUsed)
  }

  ghost predicate Ranked(p: Pool, order: seq<nat>) {
    Shaped(p) && Tidy(p.entries) && Lists(p.entries, order) && ByLastUse(p.entries, order, p.tick)
  }

  /** No slot was used in the current tick yet. */
  ghost predicate Stale(q: Pool, order: seq<nat>)
    requires Ranked(q, order)
  {
    forall k :: 0 <= k < |order| ==> q.entries[order[k]].lastUsed < q.tick
  }

  ghost function CachedAt(e: Entry): Cached
    requires e.conn.Some?
  {
    Cached(e.dest, e.conn.value, e.connectedAt)
  }

  ghost function View(entries: seq<Entry>, order: seq<nat>): (list: seq<Cached>)
    requires Tidy(entries) && Lists(entries, order)
    ensures |list| == |order|
    ensures forall k :: 0 <= k < |order| ==> list[k] == CachedAt(entries[order[k]])
  {
    seq(|order|, k requires 0 <= k < |order| => CachedAt(entries[order[k]]))
  }

  lemma Rank(entries: seq<Entry>, order: seq<nat>, i: nat) returns (k: nat)
    requires Lists(entries, order) && i < POOL_SIZE && entries[i].used
    ensures k < |order| && order[k] == i
  {
    assert i in order;
    k :| 0 <= k < |order| && order[k] == i;
  }

  ghost function UsedSlots(entries: seq<Entry>): set<nat> {
    set i: nat | i < |entries| && entries[i].used
  }

  lemma OrderCount(entries: seq<Entry>, order: seq<nat>)
    requires Lists(entries, order)
    ensures |order| == |UsedSlots(entries)|
  {
    assert Members(order) == UsedSlots(entries);
    DistinctCount(order);
  }

  lemma UsedCount(entries: seq<Entry>)
    ensures |UsedSlots(entries)| <= |entries|
    ensures |UsedSlots(entries)| == |entries| <==> First(entries, Free()) == |entries|
  {
    var slots := Range(|entries|);
    SubsetCount(UsedSlots(entries), slots);
    var free := First(entries, Free());
    if free < |entries| {
      assert Free()(entries[free]);
      assert free in slots && free !in UsedSlots(entries);
    } else {
      assert forall i: nat :: i < |entries| ==> !Free()(entries[i]);
      assert slots == UsedSlots(entries);
    }
  }

  /** The oldest of 16 used slots is the first in order. */
  lemma OldestIsFirst(entries: seq<Entry>, order: seq<nat>, tick: uint32)
    requires Lists(entries, order) && ByLastUse(entries, order, tick)
    requires First(entries, Free()) == POOL_SIZE
    ensures |order| > 0 && Oldest(entries) == order[0]
  {
    var i := Oldest(entries);
    assert !Free()(entries[i]);
    var k := Rank(entries, order, i);
    assert entries[i].lastUsed <= entries[order[0]].lastUsed;
  }

  /** Both sides find the same connection. */
  lemma SameHit(entries: seq<Entry>, order: seq<nat>, dest: Dest)
    requires Tidy(entries) && Lists(entries, order)
    ensures var k := First(View(entries, order), To(dest));
            var i := First(entries, CachedFor(dest));
            && i == First(entries, KeptFor(dest))
            && (k < |order| <==> i < POOL_SIZE)
            && (k < |order| ==> i == order[k])
  {
    var list := View(entries, order);
    var k := First(list, To(dest));
    var i := First(entries, CachedFor(dest));
    assert forall j :: 0 <= j < POOL_SIZE ==> CachedFor(dest)(entries[j]) == KeptFor(dest)(entries[j]);
    if i < POOL_SIZE {
      assert CachedFor(dest)(entries[i]);
      var r := Rank(entries, order, i);
      assert To(dest)(list[r]);
    }
    if k < |order| {
      assert To(dest)(list[k]);
      assert CachedFor(dest)(entries[order[k]]);
    }
  }

  // ----- One step on both sides -----

  lemma FreedOrder(entries: seq<Entry>, order: seq<nat>, k: nat, e: Entry)
    requires Lists(entries, order) && k < |order| && !e.used
    ensures Lists(entries[order[k] := e], Without(order, k))
  {
    var after, rest := entries[order[k] := e], Without(order, k);
    forall i | 0 <= i < POOL_SIZE && after[i].used
      ensures i in rest
    {
      var r := Rank(entries, order, i);
      assert r < k ==> rest[r] == i;
      assert r > k ==> rest[r - 1] == i;
    }
  }

  /** Freeing a slot takes it out of the order. */
  lemma FreedList(entries: seq<Entry>, order: seq<nat>, k: nat, e: Entry)
    requires Tidy(entries) && Lists(entries, order) && k < |order|
    requires !e.used && e.conn.None?
    ensures Tidy(entries[order[k] := e]) && Lists(entries[order[k] := e], Without(order, k))
    ensures View(entries[order[k] := e], Without(order, k)) == Without(View(entries, order), k)
  {
    FreedOrder(entries, order, k, e);
    var after, rest := entries[order[k] := e], Without(order, k);
    assert View(after, rest) == Without(View(entries, order), k);
  }

  lemma CloseRanked(p: Pool, order: seq<nat>, k: nat)
    requires Ranked(p, order) && k < |order|
    ensures Ranked(CloseSlot(p, order[k]), Without(order, k))
    ensures View(CloseSlot(p, order[k]).entries, Without(order, k)) == Without(View(p.entries, order), k)
    ensures CloseSlot(p, order[k]).calls == p.calls + [Close(View(p.entries, order)[k].conn)]
    ensures Stale(p, order) ==> Stale(CloseSlot(p, order[k]), Without(order, k))
  {
    FreedList(p.entries, order, k, p.entries[order[k]].(used := false, conn := None));
  }

  lemma MovedOrder(entries: seq<Entry>, order: seq<nat>, k: nat, tick: uint32)
    requires Lists(entries, order) && k < |order|
    ensures Lists(entries[order[k] := entries[order[k]].(lastUsed := tick)], Without(order, k) + [order[k]])
  {
    var after, moved := entries[order[k] := entries[order[k]].(lastUsed := tick)], Without(order, k) + [order[k]];
    forall i | 0 <= i < POOL_SIZE && after[i].used
      ensures i in moved
    {
      var r := Rank(entries, order, i);
      assert r < k ==> moved[r] == i;
      assert r == k ==> moved[|moved| - 1] == i;
      assert r > k ==> moved[r - 1] == i;
    }
  }

  /** Reusing a connection moves its slot to the end of the order. */
  lemma MovedList(entries: seq<Entry>, order: seq<nat>, k: nat, tick: uint32)
    requires Tidy(entries) && Lists(entries, order) && k < |order|
    ensures var after := entries[order[k] := entries[order[k]].(lastUsed := tick)];
            var moved := Without(order, k) + [order[k]];
            && Tidy(after) && Lists(after, moved)
            && View(after, moved) == Without(View(entries, order), k) + [View(entries, order)[k]]
  {
    MovedOrder(entries, order, k, tick);
    var after, moved := entries[order[k] := entries[order[k]].(lastUsed := tick)], Without(order, k) + [order[k]];
    assert View(after, moved) == Without(View(entries, order), k) + [View(entries, order)[k]];
  }

  lemma MovedByLastUse(entries: seq<Entry>, order: seq<nat>, k: nat, tick: uint32)
    requires Lists(entries, order) && k < |order| && ByLastUse(entries, order, tick)
    requires forall j :: 0 <= j < |order| ==> entries[order[j]].lastUsed < tick
    ensures var after := entries[order[k] := entries[order[k]].(lastUsed := tick)];
            var moved := Without(order, k) + [order[k]];
            (forall j :: 0 <= j < |moved| ==> moved[j] < POOL_SIZE) && ByLastUse(after, moved, tick)
  {
    var after, moved := entries[order[k] := entries[order[k]].(lastUsed := tick)], Without(order, k) + [order[k]];
    forall i, j | 0 <= i < j < |moved|
      ensures after[moved[i]].lastUsed < after[moved[j]].lastUsed
    {
      var a := if i < k then i else i + 1;
      assert moved[i] == order[a];
    }
  }

  lemma HitRanked(p: Pool, order: seq<nat>, k: nat)
    requires Ranked(p, order) && k < |order|
    requires Stale(p, order)
    ensures var moved := Without(order, k) + [order[k]];
            && Ranked(Hit(p, order[k]), moved)
            && View(Hit(p, order[k]).entries, moved) == Without(View(p.entries, order), k) + [View(p.entries, order)[k]]
  {
    hide Tidy, Lists, ByLastUse, View;
    MovedList(p.entries, order, k, p.tick);
    MovedByLastUse(p.entries, order, k, p.tick);
  }

  /** A new connection joins at the end of the order. */
  lemma GrownList(entries: seq<Entry>, order: seq<nat>, i: nat, e: Entry)
    requires Tidy(entries) && Lists(entries, order)
    requires i < POOL_SIZE && !entries[i].used && e.used && e.conn.Some?
    requires First(View(entries, order), To(e.dest)) == |order|
    ensures Tidy(entries[i := e]) && Lists(entries[i := e], order + [i])
    ensures View(entries[i := e], order + [i]) == View(entries, order) + [CachedAt(e)]
  {
    var after, grown, list := entries[i := e], order + [i], View(entries, order);
    forall j | 0 <= j < POOL_SIZE && j != i && entries[j].used
      ensures entries[j].dest != e.dest && j in grown
    {
      var r := Rank(entries, order, j);
      assert !To(e.dest)(list[r]);
      assert grown[r] == j;
    }
    assert i in grown;
    assert View(after, grown) == list + [CachedAt(e)];
  }

  lemma GrownByLastUse(entries: seq<Entry>, order: seq<nat>, i: nat, e: Entry, tick: uint32)
    requires Lists(entries, order) && i < POOL_SIZE && !entries[i].used && e.lastUsed == tick
    requires ByLastUse(entries, order, tick)
    requires forall j :: 0 <= j < |order| ==> entries[order[j]].lastUsed < tick
    ensures ByLastUse(entries[i := e], order + [i], tick)
  {
  }

  lemma FillRanked(p: Pool, order: seq<nat>, dest: Dest, w: Weather) returns (grown: seq<nat>)
    requires Ranked(p, order) && First(p.entries, Free()) < POOL_SIZE
    requires Stale(p, order)
    requires First(View(p.entries, order), To(dest)) == |order|
    ensures Ranked(Fill(p, dest, w), grown)
    ensures View(Fill(p, dest, w).entries, grown) == Connected(View(p.entries, order), None, dest, w).list
  {
    hide View, Tidy, Lists, ByLastUse;
    var i := First(p.entries, Free());
    assert Free()(p.entries[i]);
    grown := order;
    if w.connected.Some? {
      GrownList(p.entries, order, i, Entry(true, dest, w.connected, p.tick, w.stamp));
      GrownByLastUse(p.entries, order, i, Entry(true, dest, w.connected, p.tick, w.stamp), p.tick);
      grown := order + [i];
    }
  }

  /** Taking the connection to `dest` out of the list leaves none to it. */
  lemma NoneLeft(entries: seq<Entry>, order: seq<nat>, k: nat, dest: Dest)
    requires Tidy(entries) && Lists(entries, order) && k < |order| && entries[order[k]].dest == dest
    ensures First(Without(View(entries, order), k), To(dest)) == |order| - 1
  {
    var rest := Without(View(entries, order), k);
    forall j | 0 <= j < |rest|
      ensures !To(dest)(rest[j])
    {
      var a := if j < k then j else j + 1;
      assert rest[j] == CachedAt(entries[order[a]]);
      assert order[a] != order[k];
    }
  }

  ghost function LookupCalls(l: Lookup, dest: Dest, w: Weather): seq<Call> {
    CloseCalls(l.closed) + if l.connects then [Connect(dest, w.connected)] else []
  }

  /** The pool `q` with answer `conn` is the outcome `t` of a lookup that started after `calls`. */
  ghost predicate Agrees(q: Pool, conn: Option<Handle>, order: seq<nat>, t: Lookup, calls: seq<Call>, dest: Dest,
                         w: Weather) {
    && Ranked(q, order)
    && View(q.entries, order) == t.list
    && conn == t.conn
    && q.calls == calls + LookupCalls(t, dest, w)
  }

  lemma ExpiredIsOutdated(maxAgeMs: uint32, connectedAt: int, now: int)
    ensures Expired(maxAgeMs, connectedAt, now) <==> Outdated(maxAgeMs, now - connectedAt)
  {
  }

  lemma HitIsTouch(q: Pool, order: seq<nat>, dest: Dest, w: Weather) returns (order': seq<nat>)
    requires Ranked(q, order) && Stale(q, order)
    requires var i := First(q.entries, CachedFor(dest));
             i < POOL_SIZE && !Expired(q.maxAgeMs, q.entries[i].connectedAt, w.now)
    ensures var i := First(q.entries, CachedFor(dest));
            Agrees(Hit(q, i), q.entries[i].conn, order', Touch(View(q.entries, order), q.maxAgeMs, dest, w), q.calls,
                   dest, w)
  {
    hide Expired, Outdated;
    SameHit(q.entries, order, dest);
    var k := First(View(q.entries, order), To(dest));
    ExpiredIsOutdated(q.maxAgeMs, q.entries[order[k]].connectedAt, w.now);
    HitRanked(q, order, k);
    order' := Without(order, k) + [order[k]];
  }

  lemma OutdatedIsTouch(q: Pool, order: seq<nat>, dest: Dest, w: Weather) returns (order': seq<nat>)
    requires Ranked(q, order) && Stale(q, order)
    requires var i := First(q.entries, CachedFor(dest));
             i < POOL_SIZE && Expired(q.maxAgeMs, q.entries[i].connectedAt, w.now)
    ensures Agrees(Fill(MakeRoom(q, dest), dest, w), w.connected, order',
                   Touch(View(q.entries, order), q.maxAgeMs, dest, w), q.calls, dest, w)
  {
    hide Tidy, Lists, ByLastUse, Expired, Outdated;
    var list := View(q.entries, order);
    SameHit(q.entries, order, dest);
    var k := First(list, To(dest));
    ExpiredIsOutdated(q.maxAgeMs, q.entries[order[k]].connectedAt, w.now);
    CloseRanked(q, order, k);
    assert To(dest)(list[k]);
    NoneLeft(q.entries, order, k, dest);
    var room := MakeRoom(q, dest);
    assert Ranked(room, Without(order, k)) && Stale(room, Without(order, k));
    order' := FillRanked(room, Without(order, k), dest, w);
  }

  lemma EvictionIsTouch(q: Pool, order: seq<nat>, dest: Dest, w: Weather) returns (order': seq<nat>)
    requires Ranked(q, order) && Stale(q, order)
    requires First(q.entries, CachedFor(dest)) == POOL_SIZE == First(q.entries, Free())
    ensures Agrees(Fill(MakeRoom(q, dest), dest, w), w.connected, order',
                   Touch(View(q.entries, order), q.maxAgeMs, dest, w), q.calls, dest, w)
  {
    hide Tidy, Lists, ByLastUse;
    var list := View(q.entries, order);
    SameHit(q.entries, order, dest);
    OrderCount(q.entries, order);
    UsedCount(q.entries);
    OldestIsFirst(q.entries, order, q.tick);
    CloseRanked(q, order, 0);
    assert Without(list, 0) == list[1..];
    StillNone(list, dest);
    var room := MakeRoom(q, dest);
    assert Ranked(room, Without(order, 0)) && Stale(room, Without(order, 0));
    order' := FillRanked(room, Without(order, 0), dest, w);
  }

  lemma GrowthIsTouch(q: Pool, order: seq<nat>, dest: Dest, w: Weather) returns (order': seq<nat>)
    requires Ranked(q, order) && Stale(q, order)
    requires First(q.entries, CachedFor(dest)) == POOL_SIZE > First(q.entries, Free())
    ensures Agrees(Fill(MakeRoom(q, dest), dest, w), w.connected, order',
                   Touch(View(q.entries, order), q.maxAgeMs, dest, w), q.calls, dest, w)
  {
    hide Tidy, Lists, ByLastUse;
    SameHit(q.entries, order, dest);
    OrderCount(q.entries, order);
    UsedCount(q.entries);
    order' := FillRanked(q, order, dest, w);
  }

  lemma StillNone(list: seq<Cached>, dest: Dest)
    requires list != [] && First(list, To(dest)) == |list|
    ensures First(list[1..], To(dest)) == |list| - 1
  {
  }

  /** Obtaining a connection from the slot array is a lookup in the list: same connection, same victim. */
  lemma ObtainIsTouch(p: Pool, order: seq<nat>, dest: Dest, w: Weather) returns (order': seq<nat>)
    requires Ranked(p, order) && p.tick < 0xFFFF_FFFF
    ensures Agrees(Obtain(p, dest, w).0, Obtain(p, dest, w).1, order',
                   Touch(View(p.entries, order), p.maxAgeMs, dest, w), p.calls, dest, w)
  {
    var q := Ticked(p);
    assert Ranked(q, order) && Stale(q, order);
    hide Tidy, Lists, ByLastUse, Agrees, Stale, Touch, Expired;
    var i := First(q.entries, CachedFor(dest));
    if i < POOL_SIZE {
      if Expired(q.maxAgeMs, q.entries[i].connectedAt, w.now) {
        order' := OutdatedIsTouch(q, order, dest, w);
      } else {
        order' := HitIsTouch(q, order, dest, w);
      }
    } else if First(q.entries, Free()) == POOL_SIZE {
      order' := EvictionIsTouch(q, order, dest, w);
    } else {
      order' := GrowthIsTouch(q, order, dest, w);
    }
  }

  /** Invalidating a destination forgets it from the list. */
  lemma InvalidateIsForget(p: Pool, order: seq<nat>, dest: Dest) returns (order': seq<nat>)
    requires Ranked(p, order)
    ensures var q, f := Invalidate(p, dest), Forget(View(p.entries, order), dest);
            && Ranked(q, order') && View(q.entries, order') == f.list
            && q.calls == p.calls + CloseCalls(f.closed)
  {
    SameHit(p.entries, order, dest);
    var k := First(View(p.entries, order), To(dest));
    if k < |order| {
      CloseRanked(p, order, k);
      order' := Without(order, k);
    } else {
      order' := order;
    }
  }

  // ----- Counters -----

  /** Every cached connection is a miss not yet evicted or invalidated; every tick is accounted for. */
  ghost predicate Counted(p: Pool) {
    && Balanced(p)
    && p.tick == p.stats.hits + p.stats.misses + p.stats.connectFailures
  }

  lemma ClosedCount(p: Pool, i: nat)
    requires i < |p.entries| && p.entries[i].used
    ensures |UsedSlots(CloseSlot(p, i).entries)| == |UsedSlots(p.entries)| - 1
  {
    assert UsedSlots(CloseSlot(p, i).entries) == UsedSlots(p.entries) - {i};
  }

  lemma FilledCount(entries: seq<Entry>, i: nat, e: Entry)
    requires i < |entries| && !entries[i].used && e.used
    ensures |UsedSlots(entries[i := e])| == |UsedSlots(entries)| + 1
  {
    assert UsedSlots(entries[i := e]) == UsedSlots(entries) + {i};
  }

  lemma SameCount(entries: seq<Entry>, i: nat, e: Entry)
    requires i < |entries| && entries[i].used && e.used
    ensures UsedSlots(entries[i := e]) == UsedSlots(entries)
  {
  }

  ghost predicate Balanced(p: Pool) {
    p.stats.misses == |UsedSlots(p.entries)| + p.stats.evictions + p.stats.invalidations
  }

  lemma RoomCounts(q: Pool, dest: Dest)
    requires Shaped(q) && Balanced(q)
    ensures var room := MakeRoom(q, dest);
            && Balanced(room) && room.tick == q.tick && room.stats.hits == q.stats.hits
            && room.stats.misses == q.stats.misses && room.stats.connectFailures == q.stats.connectFailures
  {
    var i := First(q.entries, CachedFor(dest));
    if i < POOL_SIZE {
      ClosedCount(q, i);
    } else if First(q.entries, Free()) == POOL_SIZE {
      assert !Free()(q.entries[Oldest(q.entries)]);
      ClosedCount(q, Oldest(q.entries));
    }
  }

  lemma FillCounts(room: Pool, dest: Dest, w: Weather)
    requires Shaped(room) && First(room.entries, Free()) < POOL_SIZE
    requires Balanced(room) && room.stats.hits + room.stats.misses + room.stats.connectFailures + 1 == room.tick
    ensures Counted(Fill(room, dest, w)) && Fill(room, dest, w).tick == room.tick
  {
    var slot := First(room.entries, Free());
    assert Free()(room.entries[slot]);
    if w.connected.Some? {
      FilledCount(room.entries, slot, Entry(true, dest, w.connected, room.tick, w.stamp));
    }
  }

  lemma ObtainCounts(p: Pool, dest: Dest, w: Weather)
    requires Shaped(p) && Counted(p) && p.tick < 0xFFFF_FFFF
    ensures Counted(Obtain(p, dest, w).0) && Obtain(p, dest, w).0.tick == p.tick + 1
  {
    var q := Ticked(p);
    var i := First(q.entries, CachedFor(dest));
    if i < POOL_SIZE && !Expired(q.maxAgeMs, q.entries[i].connectedAt, w.now) {
      SameCount(q.entries, i, q.entries[i].(lastUsed := q.tick));
    } else {
      RoomCounts(q, dest);
      hide MakeRoom, Fill, UsedSlots;
      FillCounts(MakeRoom(q, dest), dest, w);
    }
  }

  lemma InvalidateCounts(p: Pool, dest: Dest)
    requires Shaped(p) && Counted(p)
    ensures Counted(Invalidate(p, dest)) && Invalidate(p, dest).tick == p.tick
  {
    var i := First(p.entries, KeptFor(dest));
    if i < POOL_SIZE {
      ClosedCount(p, i);
    }
  }

  // ----- Whole runs -----

  datatype Op = Use(dest: Dest, weather: Weather) | Discard(dest: Dest)

  /** A pool, or a list, with the answers it gave so far. */
  datatype Session<T> = Session(cache: T, answers: seq<Option<Handle>>)

  ghost function PoolSession(maxAgeMs: uint32, ops: seq<Op>): (s: Session<Pool>)
    ensures Shaped(s.cache)
  {
    if ops == [] then Session(Init(maxAgeMs), [])
    else
      var s, op := PoolSession(maxAgeMs, ops[..|ops| - 1]), ops[|ops| - 1];
      match op
      case Use(dest, w) => var r := Obtain(s.cache, dest, w); Session(r.0, s.answers + [r.1])
      case Discard(dest) => Session(Invalidate(s.cache, dest), s.answers)
  }

  /** The reference cache, with the calls it makes into libcsp. */
  datatype Cache = Cache(list: seq<Cached>, calls: seq<Call>)

  ghost function CacheSession(maxAgeMs: uint32, ops: seq<Op>): Session<Cache> {
    if ops == [] then Session(Cache([], []), [])
    else
      var s, op := CacheSession(maxAgeMs, ops[..|ops| - 1]), ops[|ops| - 1];
      match op
      case Use(dest, w) =>
        var t := Touch(s.cache.list, maxAgeMs, dest, w);
        Session(Cache(t.list, s.cache.calls + LookupCalls(t, dest, w)), s.answers + [t.conn])
      case Discard(dest) =>
        var f := Forget(s.cache.list, dest);
        Session(Cache(f.list, s.cache.calls + CloseCalls(f.closed)), s.answers)
  }

  lemma InitRanked(maxAgeMs: uint32)
    ensures Ranked(Init(maxAgeMs), []) && View(Init(maxAgeMs).entries, []) == [] && Counted(Init(maxAgeMs))
  {
    assert UsedSlots(Init(maxAgeMs).entries) == {};
  }

  ghost predicate Matches(s: Session<Pool>, order: seq<nat>, c: Session<Cache>) {
    && Ranked(s.cache, order)
    && View(s.cache.entries, order) == c.cache.list
    && s.cache.calls == c.cache.calls
    && s.answers == c.answers
  }

  /**
   * Refinement over whole runs: for any sequence of lookups and invalidations, fewer than the
   * ticks a `uint32_t` holds, the slot array gives the answers of the list, opens and closes
   * the same connections in the same order, and its counters stay balanced.
   */
  lemma {:induction false} PoolIsLruCache(maxAgeMs: uint32, ops: seq<Op>) returns (order: seq<nat>)
    requires |ops| < 0x1_0000_0000
    ensures Matches(PoolSession(maxAgeMs, ops), order, CacheSession(maxAgeMs, ops))
    ensures Counted(PoolSession(maxAgeMs, ops).cache)
    ensures PoolSession(maxAgeMs, ops).cache.tick <= |ops|
    ensures PoolSession(maxAgeMs, ops).cache.maxAgeMs == maxAgeMs
  {
    hide Ranked, Counted, Touch;
    InitRanked(maxAgeMs);
    if ops == [] {
      order := [];
    } else {
      var k := |ops| - 1;
      var before := PoolIsLruCache(maxAgeMs, ops[..k]);
      var p := PoolSession(maxAgeMs, ops[..k]).cache;
      RankedIsTidy(p, before);
      match ops[k]
      case Use(dest, w) =>
        order := ObtainIsTouch(p, before, dest, w);
        ObtainCounts(p, dest, w);
      case Discard(dest) =>
        order := InvalidateIsForget(p, before, dest);
        InvalidateCounts(p, dest);
    }
  }

  lemma RankedIsTidy(p: Pool, order: seq<nat>)
    requires Ranked(p, order)
    ensures Shaped(p) && Tidy(p.entries) && Lists(p.entries, order)
  {
  }

  // ----- Beyond the wrap -----

  lemma WrappedHit(p: Pool, dest: Dest, w: Weather)
    requires Shaped(p) && p.tick == 0xFFFF_FFFF && Usable(Ticked(p), dest, w.now)
    requires forall j :: 0 <= j < POOL_SIZE ==> p.entries[j].used && p.entries[j].lastUsed > 0
    ensures var i, q := First(p.entries, CachedFor(dest)), Obtain(p, dest, w).0;
            && i < POOL_SIZE && q == Hit(Ticked(p), i)
            && First(q.entries, Free()) == POOL_SIZE && Oldest(q.entries) == i
  {
    var i, q := First(p.entries, CachedFor(dest)), Obtain(p, dest, w).0;
    assert q.entries[i].lastUsed == 0;
    assert forall j :: 0 <= j < POOL_SIZE && j != i ==> q.entries[j] == p.entries[j];
    assert forall j :: 0 <= j < POOL_SIZE ==> !Free()(q.entries[j]);
  }

  /**
   * The bound on the tick is needed: in a full pool, the connection used when the tick wraps is
   * stamped 0, and the next new destination evicts it, the most recently used one.
   */
  lemma WrapEvictsTheMostRecent(p: Pool, dest: Dest, w: Weather, other: Dest, w': Weather)
    requires Shaped(p) && p.tick == 0xFFFF_FFFF && Usable(Ticked(p), dest, w.now)
    requires forall j :: 0 <= j < POOL_SIZE ==>
          p.entries[j].used && p.entries[j].lastUsed > 0 && p.entries[j].dest != other
    ensures var (q, conn) := Obtain(p, dest, w);
            conn.Some? && Obtain(q, other, w').0.calls == q.calls + [Close(conn.value), Connect(other, w'.connected)]
  {
    WrappedHit(p, dest, w);
    var i, q := First(p.entries, CachedFor(dest)), Obtain(p, dest, w).0;
    assert CachedFor(dest)(p.entries[i]);
    assert forall j :: 0 <= j < POOL_SIZE ==> !CachedFor(other)(q.entries[j]);
    assert MakeRoom(Ticked(q), other) == Evict(Ticked(q));
  }
}
