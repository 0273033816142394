/**
 * Ownership of connection handles by the pool, from initialisation through cleanup, including
 * `cspcl_conn_pool_add`: no handle is leaked, none is closed twice, and without `add` the pool
 * never has more than 16 connections open, at any moment of any operation.
 */
module PoolLedger {
  import opened Base
  import opened Bags
  import opened Search
  import opened Pool

  ghost function HeldBy(e: Entry): multiset<Handle> {
    if e.conn.Some? then multiset{e.conn.value} else multiset{}
  }

  ghost function OpenedBy(c: Call): multiset<Handle> {
    match c
    case Connect(_, Some(h)) => multiset{h}
    case Adopt(h) => multiset{h}
    case _ => multiset{}
  }

  ghost function ClosedBy(c: Call): multiset<Handle> {
    match c
    case Close(h) => multiset{h}
    case _ => multiset{}
  }

  ghost function Held(p: Pool): multiset<Handle> {
    Total(p.entries, HeldBy)
  }

  ghost function Opened(calls: seq<Call>): multiset<Handle> {
    Total(calls, OpenedBy)
  }

  ghost function Closed(calls: seq<Call>): multiset<Handle> {
    Total(calls, ClosedBy)
  }

  /** Every handle obtained is held or was closed, and only used slots hold one. */
  ghost predicate Sound(p: Pool) {
    && Shaped(p)
    && (forall i :: 0 <= i < POOL_SIZE ==> (p.entries[i].used <==> p.entries[i].conn.Some?))
    && Held(p) + Closed(p.calls) == Opened(p.calls)
  }

  lemma CallBags(calls: seq<Call>, c: Call)
    ensures Opened(calls + [c]) == Opened(calls) + OpenedBy(c)
    ensures Closed(calls + [c]) == Closed(calls) + ClosedBy(c)
  {
    TotalAppend(calls, c, OpenedBy);
    TotalAppend(calls, c, ClosedBy);
  }

  lemma InitSound(maxAgeMs: uint32)
    ensures Sound(Init(maxAgeMs))
  {
    TotalEmpty(Init(maxAgeMs).entries, HeldBy);
  }

  /** Replacing a slot that held `gone` by one that holds `come`, in bags. */
  lemma Rebalance(held: multiset<Handle>, held': multiset<Handle>, gone: multiset<Handle>, come: multiset<Handle>,
                  closed: multiset<Handle>, ever: multiset<Handle>)
    requires held + closed == ever
    requires held' + gone == held + come
    ensures held' + (closed + gone) == ever + come
  {
    assert held' + (closed + gone) == (held' + gone) + closed;
    assert ever + come == (held + come) + closed;
  }

  lemma UpdateHeld(p: Pool, i: nat, e: Entry, q: Pool)
    requires i < |p.entries| && q.entries == p.entries[i := e]
    ensures Held(q) + HeldBy(p.entries[i]) == Held(p) + HeldBy(e)
  {
    TotalUpdate(p.entries, i, e, HeldBy);
  }

  lemma CloseSound(p: Pool, i: nat)
    requires Sound(p) && i < POOL_SIZE
    ensures Sound(CloseSlot(p, i))
  {
    hide Held, Closed, Opened;
    var e, q := p.entries[i].(used := false, conn := None), CloseSlot(p, i);
    UpdateHeld(p, i, e, q);
    Rebalance(Held(p), Held(q), HeldBy(p.entries[i]), HeldBy(e), Closed(p.calls), Opened(p.calls));
    if p.entries[i].conn.Some? {
      CallBags(p.calls, Close(p.entries[i].conn.value));
    } else {
      assert q.calls == p.calls;
      assert Closed(p.calls) + HeldBy(p.entries[i]) == Closed(p.calls);
    }
  }

  /** Storing a handle obtained by call `c` in a free slot. */
  lemma StoreSound(p: Pool, i: nat, e: Entry, c: Call)
    requires Sound(p) && i < POOL_SIZE && !p.entries[i].used
    requires e.used && e.conn.Some?
    requires OpenedBy(c) == multiset{e.conn.value} && ClosedBy(c) == multiset{}
    ensures Sound(p.(entries := p.entries[i := e], calls := p.calls + [c]))
  {
    hide Held, Closed, Opened, OpenedBy, ClosedBy;
    var q := p.(entries := p.entries[i := e], calls := p.calls + [c]);
    UpdateHeld(p, i, e, q);
    CallBags(p.calls, c);
    Rebalance(Held(p), Held(q), HeldBy(p.entries[i]), HeldBy(e), Closed(p.calls), Opened(p.calls));
  }

  lemma FreeSlot(p: Pool) returns (i: nat)
    requires Shaped(p) && First(p.entries, Free()) < POOL_SIZE
    ensures i == First(p.entries, Free()) && !p.entries[i].used
  {
    i := First(p.entries, Free());
    assert Free()(p.entries[i]);
  }

  lemma RoomSound(q: Pool, dest: Dest)
    requires Sound(q)
    ensures Sound(MakeRoom(q, dest))
  {
    hide Sound, CloseSlot, CachedFor, Free, First;
    SoundShape(q);
    var i, oldest := First(q.entries, CachedFor(dest)), Oldest(q.entries);
    if i < POOL_SIZE {
      CloseSound(q, i);
      SameSlots(q, i);
      SameSound(CloseSlot(q, i), Invalidated(q, i));
    } else if First(q.entries, Free()) == POOL_SIZE {
      CloseSound(q, oldest);
      SameSlots(q, oldest);
      SameSound(CloseSlot(q, oldest), Evict(q));
    }
  }

  lemma SoundShape(q: Pool)
    requires Sound(q)
    ensures Shaped(q)
  {
  }

  /** Counting an eviction or an invalidation moves no handle. */
  lemma SameSlots(q: Pool, i: nat)
    requires Shaped(q) && i < POOL_SIZE
    ensures Invalidated(q, i).entries == CloseSlot(q, i).entries && Invalidated(q, i).calls == CloseSlot(q, i).calls
    ensures i == Oldest(q.entries) ==>
          Evict(q).entries == CloseSlot(q, i).entries && Evict(q).calls == CloseSlot(q, i).calls
  {
  }

  /** A call that opens and closes nothing. */
  lemma FailedSound(p: Pool, c: Call)
    requires Sound(p) && OpenedBy(c) == multiset{} && ClosedBy(c) == multiset{}
    ensures Sound(p.(calls := p.calls + [c]))
  {
    hide Opened, Closed, Total;
    CallBags(p.calls, c);
    assert Opened(p.calls) + multiset{} == Opened(p.calls) && Closed(p.calls) + multiset{} == Closed(p.calls);
  }

  lemma FillSound(room: Pool, dest: Dest, w: Weather)
    requires Sound(room) && Shaped(room) && First(room.entries, Free()) < POOL_SIZE
    ensures Sound(Fill(room, dest, w))
  {
    hide Sound;
    var i := FreeSlot(room);
    var c := Connect(dest, w.connected);
    if w.connected.Some? {
      var e := Entry(true, dest, w.connected, room.tick, w.stamp);
      StoreSound(room, i, e, c);
      SameSound(room.(entries := room.entries[i := e], calls := room.calls + [c]), Fill(room, dest, w));
    } else {
      FailedSound(room, c);
      SameSound(room.(calls := room.calls + [c]), Fill(room, dest, w));
    }
  }

  lemma HitSound(q: Pool, i: nat)
    requires Sound(q) && i < POOL_SIZE
    ensures Sound(Hit(q, i))
  {
    hide Held, Closed, Opened;
    UpdateHeld(q, i, q.entries[i].(lastUsed := q.tick), Hit(q, i));
    var same := HeldBy(q.entries[i]);
    assert Held(Hit(q, i)) == Held(q) by {
      assert Held(Hit(q, i)) == (Held(Hit(q, i)) + same) - same;
      assert Held(q) == (Held(q) + same) - same;
    }
  }

  /** Advancing the tick, or counting, moves no handle. */
  lemma SameSound(p: Pool, q: Pool)
    requires Sound(p) && q.entries == p.entries && q.calls == p.calls
    ensures Sound(q)
  {
  }

  lemma ObtainSound(p: Pool, dest: Dest, w: Weather)
    requires Sound(p)
    ensures Sound(Obtain(p, dest, w).0)
  {
    var q := Ticked(p);
    SameSound(p, q);
    hide Sound, Hit, Fill, MakeRoom, Expired, Ticked;
    if Usable(q, dest, w.now) {
      HitSound(q, First(q.entries, CachedFor(dest)));
    } else {
      RoomSound(q, dest);
      FillSound(MakeRoom(q, dest), dest, w);
    }
  }

  lemma InvalidateSound(p: Pool, dest: Dest)
    requires Sound(p)
    ensures Sound(Invalidate(p, dest))
  {
    var i := First(p.entries, KeptFor(dest));
    if i < POOL_SIZE {
      CloseSound(p, i);
    }
  }

  lemma AddSound(p: Pool, dest: Dest, conn: Option<Handle>, lockable: bool, stamp: int)
    requires Sound(p)
    ensures Sound(Add(p, dest, conn, lockable, stamp).0)
  {
    if conn.Some? && p.initialized && lockable {
      var q := Ticked(p);
      SameSound(p, q);
      RoomIsFree(q, 0);
      CloseSound(q, Oldest(q.entries));
      SameSound(CloseSlot(q, Oldest(q.entries)), Evict(q));
      hide Sound, Evict;
      var room := if First(q.entries, Free()) == POOL_SIZE then Evict(q) else q;
      var i := FreeSlot(room);
      StoreSound(room, i, Entry(true, dest, conn, q.tick, stamp), Adopt(conn.value));
    }
  }

  /** Cleaning up the first `n` slots closes exactly what they held. */
  lemma {:induction false} CleanupCloses(entries: seq<Entry>, n: nat)
    requires n <= |entries| && (forall i :: 0 <= i < |entries| ==> (entries[i].used <==> entries[i].conn.Some?))
    ensures Closed(CleanupCalls(entries, n)) == Total(entries[..n], HeldBy)
    ensures Opened(CleanupCalls(entries, n)) == multiset{}
  {
    hide CleanupCalls, HeldBy, Closed, Opened, Total;
    if n == 0 {
      NoCloses(entries);
    } else {
      CleanupCloses(entries, n - 1);
      CleanupStep(entries, n);
    }
  }

  lemma NoCloses(entries: seq<Entry>)
    ensures Closed(CleanupCalls(entries, 0)) == multiset{} && Opened(CleanupCalls(entries, 0)) == multiset{}
    ensures Total(entries[..0], HeldBy) == multiset{}
  {
  }

  /** The `n`-th slot's close adds exactly what that slot held. */
  lemma CleanupStep(entries: seq<Entry>, n: nat)
    requires 0 < n <= |entries| && (entries[n - 1].used <==> entries[n - 1].conn.Some?)
    ensures Closed(CleanupCalls(entries, n)) == Closed(CleanupCalls(entries, n - 1)) + HeldBy(entries[n - 1])
    ensures Opened(CleanupCalls(entries, n)) == Opened(CleanupCalls(entries, n - 1))
    ensures Total(entries[..n], HeldBy) == Total(entries[..n - 1], HeldBy) + HeldBy(entries[n - 1])
  {
    hide Total, Closed, Opened;
    var e, calls := entries[n - 1], CleanupCalls(entries, n - 1);
    assert entries[..n] == entries[..n - 1] + [e];
    TotalAppend(entries[..n - 1], e, HeldBy);
    if e.used {
      CallBags(calls, Close(e.conn.value));
    } else {
      assert CleanupCalls(entries, n) == calls;
    }
  }

  lemma CleanupSound(p: Pool, lockable: bool)
    requires Sound(p)
    ensures Sound(Cleanup(p, lockable))
    ensures p.initialized && lockable ==> Closed(Cleanup(p, lockable).calls) == Opened(Cleanup(p, lockable).calls)
  {
    hide Total, CleanupCalls;
    if p.initialized && lockable {
      var q, calls := Cleanup(p, lockable), CleanupCalls(p.entries, POOL_SIZE);
      CleanupCloses(p.entries, POOL_SIZE);
      assert p.entries[..POOL_SIZE] == p.entries;
      TotalConcat(p.calls, calls, OpenedBy);
      TotalConcat(p.calls, calls, ClosedBy);
      CleanedHoldsNone(p, lockable);
    }
  }

  lemma CleanedHoldsNone(p: Pool, lockable: bool)
    requires Shaped(p) && p.initialized && lockable
    ensures Held(Cleanup(p, lockable)) == multiset{}
  {
    hide CleanupCalls;
    TotalEmpty(Cleanup(p, lockable).entries, HeldBy);
  }

  // ----- Whole runs -----

  datatype Op =
    | Use(dest: Dest, weather: Weather)
    | Discard(dest: Dest)
    | AddConn(dest: Dest, conn: Option<Handle>, lockable: bool, stamp: int)
    | CleanUp(lockable: bool)

  /** One call of the pool's interface; sends refuse to start on a pool that is not initialised. */
  ghost function Perform(p: Pool, op: Op): (q: Pool)
    requires Shaped(p)
    ensures Shaped(q)
  {
    match op
    case Use(dest, w) => if p.initialized then Obtain(p, dest, w).0 else p
    case Discard(dest) => if p.initialized then Invalidate(p, dest) else p
    case AddConn(dest, conn, lockable, stamp) => Add(p, dest, conn, lockable, stamp).0
    case CleanUp(lockable) => Cleanup(p, lockable)
  }

  ghost function Run(maxAgeMs: uint32, ops: seq<Op>): (p: Pool)
    ensures Shaped(p)
  {
    if ops == [] then Init(maxAgeMs) else Perform(Run(maxAgeMs, ops[..|ops| - 1]), ops[|ops| - 1])
  }

  lemma {:induction false} RunSound(maxAgeMs: uint32, ops: seq<Op>)
    ensures Sound(Run(maxAgeMs, ops))
  {
    hide Sound;
    if ops == [] {
      InitSound(maxAgeMs);
    } else {
      var p := Run(maxAgeMs, ops[..|ops| - 1]);
      RunSound(maxAgeMs, ops[..|ops| - 1]);
      match ops[|ops| - 1]
      case Use(dest, w) => ObtainSound(p, dest, w);
      case Discard(dest) => InvalidateSound(p, dest);
      case AddConn(dest, conn, lockable, stamp) => AddSound(p, dest, conn, lockable, stamp);
      case CleanUp(lockable) => CleanupSound(p, lockable);
    }
  }

  ghost predicate Holds(p: Pool, i: int, h: Handle) {
    0 <= i < |p.entries| && p.entries[i].used && p.entries[i].conn == Some(h)
  }

  /**
   * Exactly-once close: in every run, a handle that libcsp (or a caller of `add`) supplied once
   * is either held by exactly one used slot and never closed, or held by none and closed exactly
   * once; after a cleanup it is the latter. A handle never supplied is neither held nor closed.
   */
  lemma ExactlyOnceClose(maxAgeMs: uint32, ops: seq<Op>, h: Handle)
    requires Opened(Run(maxAgeMs, ops).calls)[h] <= 1
    ensures var p := Run(maxAgeMs, ops);
            if Opened(p.calls)[h] == 0 then
              Closed(p.calls)[h] == 0 && (forall i :: !Holds(p, i, h))
            else
              || (Closed(p.calls)[h] == 1 && (forall i :: !Holds(p, i, h)))
              || (Closed(p.calls)[h] == 0 && exists i :: Holds(p, i, h) && forall j :: Holds(p, j, h) ==> j == i)
    ensures var p := Run(maxAgeMs, ops);
            !p.initialized ==> Closed(p.calls)[h] == Opened(p.calls)[h]
  {
    RunSound(maxAgeMs, ops);
    var p := Run(maxAgeMs, ops);
    assert Held(p)[h] + Closed(p.calls)[h] == Opened(p.calls)[h];
    forall i | Holds(p, i, h)
      ensures h in Held(p)
    {
      TotalOfOne(p.entries, i, HeldBy);
    }
    forall i, j | Holds(p, i, h) && Holds(p, j, h)
      ensures i == j
    {
      if i < j {
        TotalOfTwo(p.entries, i, j, HeldBy);
      } else if j < i {
        TotalOfTwo(p.entries, j, i, HeldBy);
      }
    }
    if h in Held(p) {
      var i := TotalHolder(p.entries, h, HeldBy);
      assert Holds(p, i, h);
    }
    if !p.initialized {
      DeadIsEmpty(maxAgeMs, ops);
    }
  }

  /** Only a cleanup ends a pool. */
  lemma StaysAlive(p: Pool, op: Op)
    requires Shaped(p) && p.initialized && !Perform(p, op).initialized
    ensures op.CleanUp? && op.lockable
  {
  }

  /** Once cleaned up, a pool holds nothing and stays that way. */
  lemma {:induction false} DeadIsEmpty(maxAgeMs: uint32, ops: seq<Op>)
    requires !Run(maxAgeMs, ops).initialized
    ensures Held(Run(maxAgeMs, ops)) == multiset{}
  {
    assert ops != [];
    var p, op := Run(maxAgeMs, ops[..|ops| - 1]), ops[|ops| - 1];
    if p.initialized {
      hide Obtain, Invalidate;
      StaysAlive(p, op);
      TotalEmpty(Run(maxAgeMs, ops).entries, HeldBy);
    } else {
      DeadIsEmpty(maxAgeMs, ops[..|ops| - 1]);
    }
  }

  // ----- How many are open at once -----

  /** Connections opened and not yet closed after these calls. */
  ghost function OpenNow(calls: seq<Call>): int {
    |Opened(calls)| - |Closed(calls)|
  }

  /** At every moment between two calls, at most `limit` connections are open. */
  ghost predicate AlwaysWithin(calls: seq<Call>, limit: nat) {
    forall n :: 0 <= n <= |calls| ==> OpenNow(calls[..n]) <= limit
  }

  lemma {:induction false} HeldCount(entries: seq<Entry>)
    ensures |Total(entries, HeldBy)| <= |entries|
    ensures (exists i :: 0 <= i < |entries| && entries[i].conn.None?) ==> |Total(entries, HeldBy)| < |entries|
  {
    if entries != [] {
      var k := |entries| - 1;
      HeldCount(entries[..k]);
      if exists i :: 0 <= i < |entries| && entries[i].conn.None? {
        var i :| 0 <= i < |entries| && entries[i].conn.None?;
        assert i < k ==> entries[..k][i].conn.None?;
      }
    }
  }

  lemma SoundCount(p: Pool)
    requires Sound(p)
    ensures OpenNow(p.calls) == |Held(p)| <= POOL_SIZE
    ensures First(p.entries, Free()) < POOL_SIZE ==> OpenNow(p.calls) < POOL_SIZE
  {
    HeldCount(p.entries);
    assert |Held(p) + Closed(p.calls)| == |Held(p)| + |Closed(p.calls)|;
    if First(p.entries, Free()) < POOL_SIZE {
      var i := FreeSlot(p);
      assert p.entries[i].conn.None?;
    }
  }

  lemma OneMoreCall(calls: seq<Call>, c: Call, limit: nat)
    requires AlwaysWithin(calls, limit) && OpenNow(calls + [c]) <= limit
    ensures AlwaysWithin(calls + [c], limit)
  {
    forall n | 0 <= n <= |calls| + 1
      ensures OpenNow((calls + [c])[..n]) <= limit
    {
      if n <= |calls| {
        assert (calls + [c])[..n] == calls[..n];
      } else {
        assert (calls + [c])[..n] == calls + [c];
      }
    }
  }

  lemma CloseWithin(p: Pool, i: nat)
    requires Sound(p) && i < POOL_SIZE && AlwaysWithin(p.calls, POOL_SIZE)
    ensures AlwaysWithin(CloseSlot(p, i).calls, POOL_SIZE)
  {
    CloseSound(p, i);
    SoundCount(CloseSlot(p, i));
    if p.entries[i].conn.Some? {
      OneMoreCall(p.calls, Close(p.entries[i].conn.value), POOL_SIZE);
    } else {
      assert CloseSlot(p, i).calls == p.calls;
    }
  }

  /** Obtaining a connection closes before it connects, so it stays within the pool's size throughout. */
  lemma ObtainWithin(p: Pool, dest: Dest, w: Weather)
    requires Sound(p) && AlwaysWithin(p.calls, POOL_SIZE)
    ensures AlwaysWithin(Obtain(p, dest, w).0.calls, POOL_SIZE)
  {
    var q := Ticked(p);
    SameSound(p, q);
    assert q.calls == p.calls;
    RoomWithin(q, dest);
    hide Sound, AlwaysWithin, Fill, MakeRoom, Expired, Ticked, Hit;
    if Usable(q, dest, w.now) {
      HitCalls(q, First(q.entries, CachedFor(dest)));
    } else {
      ConnectWithin(MakeRoom(q, dest), dest, w);
    }
  }

  lemma HitCalls(q: Pool, i: nat)
    requires i < |q.entries|
    ensures Hit(q, i).calls == q.calls
  {
  }

  lemma RoomWithin(q: Pool, dest: Dest)
    requires Sound(q) && AlwaysWithin(q.calls, POOL_SIZE)
    ensures Sound(MakeRoom(q, dest)) && AlwaysWithin(MakeRoom(q, dest).calls, POOL_SIZE)
  {
    RoomSound(q, dest);
    var i := First(q.entries, CachedFor(dest));
    if i < POOL_SIZE {
      CloseWithin(q, i);
    } else {
      CloseWithin(q, Oldest(q.entries));
    }
  }

  lemma ConnectWithin(room: Pool, dest: Dest, w: Weather)
    requires Sound(room) && First(room.entries, Free()) < POOL_SIZE && AlwaysWithin(room.calls, POOL_SIZE)
    ensures AlwaysWithin(Fill(room, dest, w).calls, POOL_SIZE)
  {
    SoundCount(room);
    CallBags(room.calls, Connect(dest, w.connected));
    OneMoreCall(room.calls, Connect(dest, w.connected), POOL_SIZE);
  }

  lemma InvalidateWithin(p: Pool, dest: Dest)
    requires Sound(p) && AlwaysWithin(p.calls, POOL_SIZE)
    ensures AlwaysWithin(Invalidate(p, dest).calls, POOL_SIZE)
  {
    var i := First(p.entries, KeptFor(dest));
    if i < POOL_SIZE {
      CloseWithin(p, i);
    }
  }
}
