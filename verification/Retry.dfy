/** What one send may do to the pool and to the network, whatever libcsp answers. */
module Retry {
  import opened Base
  import opened Search
  import opened Pool
  import opened Send
  import opened Lru = PoolLru

  /** Slot `i` holds the only entry for `dest`, with connection `conn`, stamped with the current tick. */
  ghost predicate OnlyEntry(p: Pool, dest: Dest, i: int, conn: Option<Handle>) {
    && 0 <= i < |p.entries| && KeptFor(dest)(p.entries[i])
    && p.entries[i].conn == conn && p.entries[i].lastUsed == p.tick
    && (forall j :: 0 <= j < |p.entries| && KeptFor(dest)(p.entries[j]) ==> j == i)
  }

  ghost predicate NoEntry(p: Pool, dest: Dest) {
    forall j :: 0 <= j < |p.entries| ==> !KeptFor(dest)(p.entries[j])
  }

  /** A pool that `cspcl_conn_pool_add` gave no second entry for a destination; any tick, any stamps. */
  ghost predicate Regular(p: Pool) {
    Shaped(p) && Tidy(p.entries)
  }

  /** Slots whose connection to another destination than `dest` is gone in `after`. */
  ghost function Lost(before: seq<Entry>, after: seq<Entry>, dest: Dest): set<nat>
    requires |before| == |after|
  {
    set i: nat | i < |before| && before[i].used && before[i].dest != dest &&
                 !(after[i].used && after[i].dest == before[i].dest && after[i].conn == before[i].conn)
  }

  ghost predicate AtMostOne(s: set<nat>) {
    forall i, j :: i in s && j in s ==> i == j
  }

  lemma CloseEffect(p: Pool, i: nat, dest: Dest)
    requires Regular(p) && i < POOL_SIZE
    ensures Regular(CloseSlot(p, i))
    ensures Lost(p.entries, CloseSlot(p, i).entries, dest) <= {i}
    ensures p.entries[i].dest == dest ==> Lost(p.entries, CloseSlot(p, i).entries, dest) == {}
    ensures NoEntry(p, dest) || (KeptFor(dest)(p.entries[i])) ==> NoEntry(CloseSlot(p, i), dest)
  {
  }

  lemma RoomEffect(q: Pool, dest: Dest)
    requires Regular(q)
    ensures var room := MakeRoom(q, dest);
            && Regular(room) && NoEntry(room, dest) && room.tick == q.tick
            && AtMostOne(Lost(q.entries, room.entries, dest))
            && (First(q.entries, Free()) < POOL_SIZE || !NoEntry(q, dest) ==> Lost(q.entries, room.entries, dest) == {})
            && q.calls <= room.calls && (forall k :: |q.calls| <= k < |room.calls| ==> room.calls[k].Close?)
  {
    var i := First(q.entries, CachedFor(dest));
    forall j | 0 <= j < POOL_SIZE
      ensures CachedFor(dest)(q.entries[j]) == KeptFor(dest)(q.entries[j])
    {
    }
    if i < POOL_SIZE {
      assert CachedFor(dest)(q.entries[i]);
      CloseEffect(q, i, dest);
    } else {
      assert NoEntry(q, dest);
      var oldest := Oldest(q.entries);
      CloseEffect(q, oldest, dest);
    }
  }

  lemma FillEffect(room: Pool, dest: Dest, w: Weather)
    requires Regular(room) && NoEntry(room, dest) && First(room.entries, Free()) < POOL_SIZE
    ensures var q := Fill(room, dest, w);
            && Regular(q) && Lost(room.entries, q.entries, dest) == {}
            && (if w.connected.Some? then exists i :: OnlyEntry(q, dest, i, w.connected) else NoEntry(q, dest))
  {
    var i, q := First(room.entries, Free()), Fill(room, dest, w);
    assert Free()(room.entries[i]);
    if w.connected.Some? {
      forall j | 0 <= j < POOL_SIZE
        ensures KeptFor(dest)(q.entries[j]) <==> j == i
      {
        assert !KeptFor(dest)(room.entries[j]);
      }
      assert OnlyEntry(q, dest, i, w.connected);
      assert Tidy(q.entries) by {
        forall j | 0 <= j < POOL_SIZE && room.entries[j].used
          ensures room.entries[j].dest != dest
        {
          assert !KeptFor(dest)(room.entries[j]);
        }
      }
    }
  }

  lemma HitEffect(q: Pool, dest: Dest, i: nat)
    requires Regular(q) && i < POOL_SIZE && CachedFor(dest)(q.entries[i])
    ensures var r := Hit(q, i);
            && Regular(r) && Lost(q.entries, r.entries, dest) == {}
            && OnlyEntry(r, dest, i, q.entries[i].conn)
  {
    var r := Hit(q, i);
    forall j | 0 <= j < POOL_SIZE
      ensures KeptFor(dest)(r.entries[j]) <==> j == i
    {
    }
  }

  lemma LostTwice(a: seq<Entry>, b: seq<Entry>, c: seq<Entry>, dest: Dest)
    requires |a| == |b| == |c|
    ensures Lost(a, c, dest) <= Lost(a, b, dest) + Lost(b, c, dest)
  {
  }

  /** Whether `calls` extends `before` by closes, then at most one connect. */
  ghost predicate Extends(before: seq<Call>, calls: seq<Call>, dest: Dest, conn: Option<Handle>, connects: bool) {
    && before <= calls
    && (forall k :: |before| <= k < |calls| ==> calls[k].Close? || calls[k] == Connect(dest, conn))
    && (connects ==> |before| < |calls| && calls[|calls| - 1] == Connect(dest, conn))
  }

  /** The effect of obtaining a connection: at most one other one is lost, and none if there was room. */
  ghost predicate Effect(p: Pool, q: Pool, dest: Dest, conn: Option<Handle>) {
    && Regular(p) && Regular(q)
    && (if conn.Some? then exists i :: OnlyEntry(q, dest, i, conn) else NoEntry(q, dest))
    && AtMostOne(Lost(p.entries, q.entries, dest))
    && (First(p.entries, Free()) < POOL_SIZE || !NoEntry(p, dest) ==> Lost(p.entries, q.entries, dest) == {})
    && Extends(p.calls, q.calls, dest, conn, NoEntry(p, dest))
  }

  lemma HitIsEffect(q: Pool, dest: Dest, now: int)
    requires Regular(q) && Usable(q, dest, now)
    ensures var i := First(q.entries, CachedFor(dest));
            Effect(q, Hit(q, i), dest, q.entries[i].conn)
  {
    var i := First(q.entries, CachedFor(dest));
    assert CachedFor(dest)(q.entries[i]);
    assert KeptFor(dest)(q.entries[i]);
    HitEffect(q, dest, i);
  }

  lemma MissIsEffect(q: Pool, dest: Dest, w: Weather)
    requires Regular(q)
    ensures Effect(q, Fill(MakeRoom(q, dest), dest, w), dest, w.connected)
  {
    hide Tidy, NoEntry, OnlyEntry, MakeRoom, Lost, First;
    RoomEffect(q, dest);
    var room := MakeRoom(q, dest);
    FillEffect(room, dest, w);
    LostTwice(q.entries, room.entries, Fill(room, dest, w).entries, dest);
    FillCalls(room, dest, w);
  }

  lemma FillCalls(room: Pool, dest: Dest, w: Weather)
    requires Shaped(room) && First(room.entries, Free()) < POOL_SIZE
    ensures Fill(room, dest, w).calls == room.calls + [Connect(dest, w.connected)]
    ensures Fill(room, dest, w).tick == room.tick
  {
  }

  /** The effect does not depend on the tick it starts from. */
  lemma TickedEffect(p: Pool, r: Pool, dest: Dest, conn: Option<Handle>)
    requires Regular(p) && Effect(Ticked(p), r, dest, conn)
    ensures Effect(p, r, dest, conn)
  {
    hide OnlyEntry, Lost, AtMostOne, Extends, First, Tidy;
  }

  lemma ObtainTick(q: Pool, dest: Dest, w: Weather)
    requires Shaped(q)
    ensures Usable(q, dest, w.now) ==> Hit(q, First(q.entries, CachedFor(dest))).tick == q.tick
    ensures Fill(MakeRoom(q, dest), dest, w).tick == q.tick
  {
  }

  lemma ObtainEffect(p: Pool, dest: Dest, w: Weather)
    requires Regular(p)
    ensures Effect(p, Obtain(p, dest, w).0, dest, Obtain(p, dest, w).1)
    ensures Obtain(p, dest, w).0.tick == Wrap(p.tick + 1)
  {
    hide Effect, MakeRoom, Fill, Hit, Tidy, First;
    var q := Ticked(p);
    if Usable(q, dest, w.now) {
      HitIsEffect(q, dest, w.now);
    } else {
      MissIsEffect(q, dest, w);
    }
    ObtainTick(q, dest, w);
    TickedEffect(p, Obtain(p, dest, w).0, dest, Obtain(p, dest, w).1);
  }

  lemma InvalidateEffect(p: Pool, dest: Dest)
    requires Regular(p)
    ensures var q := Invalidate(p, dest);
            && Regular(q) && NoEntry(q, dest) && Lost(p.entries, q.entries, dest) == {} && q.tick == p.tick
            && (NoEntry(p, dest) || First(q.entries, Free()) < POOL_SIZE)
            && p.calls <= q.calls && (forall k :: |p.calls| <= k < |q.calls| ==> q.calls[k].Close?)
  {
    var i := First(p.entries, KeptFor(dest));
    if i < POOL_SIZE {
      assert KeptFor(dest)(p.entries[i]);
      CloseEffect(p, i, dest);
      assert Free()(Invalidate(p, dest).entries[i]);
    }
  }

  // ----- The contract of one send -----

  ghost predicate SendAt(calls: seq<Call>, from: nat, k: int) {
    from <= k < |calls| && calls[k].SfpSend?
  }

  /** At most two SFP sends were made since `from`, the second on a connection opened after the first. */
  ghost predicate TwoSends(calls: seq<Call>, from: nat, t: Task) {
    && (forall a, b, c :: a < b < c && SendAt(calls, from, a) && SendAt(calls, from, b) ==> !SendAt(calls, from, c))
    && (forall a, b :: a < b && SendAt(calls, from, a) && SendAt(calls, from, b) ==>
          exists c :: a < c < b && calls[c] == Connect(t.dest, Some(calls[b].conn)))
    && (forall a :: SendAt(calls, from, a) ==> calls[a].data == t.data)
  }

  /** The last SFP send used connection `conn`, and its ack was read. */
  ghost predicate AckedOn(calls: seq<Call>, conn: Option<Handle>) {
    && |calls| >= 2 && conn.Some?
    && calls[|calls| - 1] == ReadAck(conn.value, CspOk)
    && calls[|calls| - 2].SfpSend? && calls[|calls| - 2].conn == conn.value && calls[|calls| - 2].sent == CspOk
  }

  ghost predicate Delivered(q: Pool, dest: Dest, i: int, conn: Option<Handle>) {
    OnlyEntry(q, dest, i, conn) && AckedOn(q.calls, conn)
  }

  /** What `t` leaves of the pool `p`, and did on the way. */
  ghost predicate Contract(p: Pool, q: Pool, t: Task, code: Code) {
    && Regular(p) && Regular(q)
    && p.calls <= q.calls && TwoSends(q.calls, |p.calls|, t)
    && (if code == OK then exists i, conn :: Delivered(q, t.dest, i, conn) else NoEntry(q, t.dest))
    && AtMostOne(Lost(p.entries, q.entries, t.dest))
  }

  ghost predicate NoSends(before: seq<Call>, after: seq<Call>) {
    before <= after && forall k :: |before| <= k < |after| ==> !after[k].SfpSend?
  }

  /** One attempt that ended in `ret`: a connection, the send on it, and, if it failed, its removal. */
  lemma ConfirmCalls(q: Pool, conn: Handle, data: seq<byte>, r: Reply)
    ensures var (c, ret) := Confirm(q, conn, data, r);
            && c.entries == q.entries && c.tick == q.tick
            && NoSends(q.calls + [SfpSend(conn, data, r.sfp)], c.calls)
            && (ret == CspOk ==> AckedOn(c.calls, Some(conn)))
  {
  }

  lemma FirstFails(p: Pool, t: Task, w: Weather, r: Reply)
    requires Regular(p)
    requires Obtain(p, t.dest, w).1.Some?
    requires Confirm(Obtain(p, t.dest, w).0, Obtain(p, t.dest, w).1.value, t.data, r).1 != CspOk
    ensures var (q, conn) := Obtain(p, t.dest, w);
            var next := Invalidate(Confirm(q, conn.value, t.data, r).0, t.dest);
            && Regular(next) && NoEntry(next, t.dest)
            && First(next.entries, Free()) < POOL_SIZE
            && AtMostOne(Lost(p.entries, next.entries, t.dest))
            && NoSends(p.calls, q.calls) && NoSends(q.calls + [SfpSend(conn.value, t.data, r.sfp)], next.calls)
  {
    ObtainEffect(p, t.dest, w);
    var (q, conn) := Obtain(p, t.dest, w);
    ConfirmCalls(q, conn.value, t.data, r);
    var c := Confirm(q, conn.value, t.data, r).0;
    assert Regular(c);
    InvalidateEffect(c, t.dest);
    var next := Invalidate(c, t.dest);
    assert !NoEntry(c, t.dest);
    LostTwice(p.entries, c.entries, next.entries, t.dest);
  }

  /** The retry contract, for every pool without duplicate keys, every task and behaviour of libcsp, at any tick. */
  lemma RetryContract(p: Pool, t: Task, ws: seq<Weather>, rs: seq<Reply>)
    requires Regular(p) && |ws| == |rs| == 2
    ensures var (q, code) := Attempts(p, t, 0, CspTimedOut, ws, rs);
            Contract(p, q, t, code)
  {
    ObtainEffect(p, t.dest, ws[0]);
    var (q, conn) := Obtain(p, t.dest, ws[0]);
    if conn.Some? {
      ConfirmCalls(q, conn.value, t.data, rs[0]);
      var (c, ret) := Confirm(q, conn.value, t.data, rs[0]);
      if ret == CspOk {
        Once(p, q, c, t, conn, rs[0]);
      } else {
        FirstFails(p, t, ws[0], rs[0]);
        Second(p, t, q.calls, conn.value, rs[0].sfp, Invalidate(c, t.dest), ret, ws, rs);
      }
    } else {
      assert Attempts(p, t, 0, CspTimedOut, ws, rs) == (q, CONNECTION);
      assert forall a :: !SendAt(q.calls, |p.calls|, a);
    }
  }

  /** Why a call is refused, `OK` if it is not: the first check that fails. */
  function Refusal(initialized: bool, p: Pool, bundle: Option<seq<byte>>, lockable: bool): Code {
    match bundle
    case None => INVALID_PARAM
    case Some(data) =>
      if |data| == 0 then INVALID_PARAM
      else if !initialized then NOT_INITIALIZED
      else if |data| >= 65536 then BUNDLE_TOO_LARGE
      else if !p.initialized then NOT_INITIALIZED
      else if !lockable then CONNECTION
      else OK
  }

  /** The whole function: what it refuses leaves the pool alone, and everything else keeps the contract. */
  lemma SendContract(initialized: bool, p: Pool, bundle: Option<seq<byte>>, dest: Dest, lockable: bool,
                     ws: seq<Weather>, rs: seq<Reply>)
    requires Regular(p) && |ws| == |rs| == 2
    ensures var (q, code) := Outcome(initialized, p, bundle, dest, lockable, ws, rs);
            var refusal := Refusal(initialized, p, bundle, lockable);
            if refusal == OK then Contract(p, q, Task(dest, bundle.value), code) else q == p && code == refusal
  {
    hide Contract, Regular, Attempts;
    if bundle.Some? && lockable {
      RetryContract(p, Task(dest, bundle.value), ws, rs);
    }
  }

  lemma Once(p: Pool, q: Pool, c: Pool, t: Task, conn: Option<Handle>, r: Reply)
    requires Effect(p, q, t.dest, conn) && conn.Some?
    requires (c, CspOk) == Confirm(q, conn.value, t.data, r)
    ensures Contract(p, c, t, OK)
  {
    ConfirmCalls(q, conn.value, t.data, r);
    var i :| OnlyEntry(q, t.dest, i, conn);
    assert Delivered(c, t.dest, i, conn);
    forall a | SendAt(c.calls, |p.calls|, a)
      ensures a == |q.calls|
    {
    }
  }

  /** Obtaining the connection of the second attempt loses nothing more: the first one left room. */
  lemma SecondObtain(p: Pool, dest: Dest, next: Pool, w: Weather)
    requires Regular(p) && Regular(next) && NoEntry(next, dest)
    requires First(next.entries, Free()) < POOL_SIZE && AtMostOne(Lost(p.entries, next.entries, dest))
    ensures var (q, conn) := Obtain(next, dest, w);
            && Effect(next, q, dest, conn) && AtMostOne(Lost(p.entries, q.entries, dest))
            && NoSends(next.calls, q.calls) && |next.calls| < |q.calls| && q.calls[|q.calls| - 1] == Connect(dest, conn)
  {
    hide Obtain, Tidy, OnlyEntry;
    ObtainEffect(next, dest, w);
    var q := Obtain(next, dest, w).0;
    LostTwice(p.entries, next.entries, q.entries, dest);
  }

  lemma LaterSends(before: seq<Call>, middle: seq<Call>, after: seq<Call>)
    requires NoSends(before, middle) && NoSends(middle, after)
    ensures NoSends(before, after)
  {
    assert before <= after;
  }

  /** The second attempt, on a pool from which the first one removed its connection. */
  lemma Second(p: Pool, t: Task, first: seq<Call>, conn1: Handle, sent1: CspResult, next: Pool, ret: CspResult,
               ws: seq<Weather>, rs: seq<Reply>)
    requires |ws| == |rs| == 2 && ret != CspOk
    requires Regular(p) && Regular(next) && NoEntry(next, t.dest)
    requires First(next.entries, Free()) < POOL_SIZE && AtMostOne(Lost(p.entries, next.entries, t.dest))
    requires NoSends(p.calls, first) && NoSends(first + [SfpSend(conn1, t.data, sent1)], next.calls)
    ensures var (q, code) := Attempts(next, t, 1, ret, ws, rs);
            Contract(p, q, t, code)
  {
    hide Obtain, Confirm, Invalidate, Effect, Contract, NoEntry, Lost, AtMostOne, Tidy, NoSends;
    SecondObtain(p, t.dest, next, ws[1]);
    var (q, conn) := Obtain(next, t.dest, ws[1]);
    var sent := first + [SfpSend(conn1, t.data, sent1)];
    LaterSends(sent, next.calls, q.calls);
    if conn.None? {
      NoSecond(p, t, first, conn1, sent1, next, q, CodeOf(ret));
    } else {
      SecondLonger(sent, next.calls, q.calls);
      var (c, ret') := Confirm(q, conn.value, t.data, rs[1]);
      SecondEnds(p, t, first, conn1, sent1, next, q, conn, rs[1]);
      if ret' != CspOk {
        var last := Invalidate(c, t.dest);
        assert Attempts(last, t, 2, ret', ws, rs) == (last, CodeOf(ret'));
      }
    }
  }

  lemma SecondLonger(sent: seq<Call>, calls: seq<Call>, after: seq<Call>)
    requires NoSends(sent, calls) && |calls| < |after|
    ensures |after| > |sent|
  {
  }

  lemma NoSecond(p: Pool, t: Task, first: seq<Call>, conn1: Handle, sent1: CspResult, next: Pool, q: Pool, code: Code)
    requires Effect(next, q, t.dest, None) && Regular(p) && AtMostOne(Lost(p.entries, q.entries, t.dest)) && code != OK
    requires NoSends(p.calls, first) && NoSends(first + [SfpSend(conn1, t.data, sent1)], q.calls)
    ensures Contract(p, q, t, code)
  {
    hide Tidy, Lost, AtMostOne, Extends;
    OneSend(p.calls, first, conn1, sent1, t, q.calls);
  }

  /** The second attempt ends with its connection cached and the ack read, or with the connection removed. */
  lemma SecondEnds(p: Pool, t: Task, first: seq<Call>, conn1: Handle, sent1: CspResult, next: Pool, q: Pool,
                   conn: Option<Handle>, r: Reply)
    requires conn.Some? && Effect(next, q, t.dest, conn) && Regular(p) && AtMostOne(Lost(p.entries, q.entries, t.dest))
    requires NoSends(p.calls, first) && NoSends(first + [SfpSend(conn1, t.data, sent1)], q.calls)
    requires |q.calls| > |first| + 1 && q.calls[|q.calls| - 1] == Connect(t.dest, conn)
    ensures var (c, ret) := Confirm(q, conn.value, t.data, r);
            && Shaped(c)
            && (ret == CspOk ==> Contract(p, c, t, OK))
            && (ret != CspOk ==> Contract(p, Invalidate(c, t.dest), t, CodeOf(ret)))
  {
    hide Confirm, Invalidate, Tidy, Lost, AtMostOne, Extends, TwoSends, NoSends, AckedOn, NoEntry;
    ConfirmCalls(q, conn.value, t.data, r);
    var (c, ret) := Confirm(q, conn.value, t.data, r);
    SecondSend(p.calls, first, conn1, sent1, t, q.calls, conn.value, r.sfp, c.calls);
    if ret == CspOk {
      var i :| OnlyEntry(q, t.dest, i, conn);
      assert Delivered(c, t.dest, i, conn);
    } else {
      SecondRemoved(p, t, first, conn1, sent1, q, conn.value, r.sfp, c);
    }
  }

  lemma SecondRemoved(p: Pool, t: Task, first: seq<Call>, conn1: Handle, sent1: CspResult, q: Pool, conn2: Handle,
                      sent2: CspResult, c: Pool)
    requires Regular(c) && Regular(p) && AtMostOne(Lost(p.entries, c.entries, t.dest))
    requires NoSends(p.calls, first) && NoSends(first + [SfpSend(conn1, t.data, sent1)], q.calls)
    requires |q.calls| > |first| + 1 && q.calls[|q.calls| - 1] == Connect(t.dest, Some(conn2))
    requires NoSends(q.calls + [SfpSend(conn2, t.data, sent2)], c.calls)
    ensures var last := Invalidate(c, t.dest);
            && Regular(last) && NoEntry(last, t.dest) && AtMostOne(Lost(p.entries, last.entries, t.dest))
            && p.calls <= last.calls && TwoSends(last.calls, |p.calls|, t)
  {
    hide Invalidate, Tidy, TwoSends, NoEntry;
    InvalidateEffect(c, t.dest);
    var last := Invalidate(c, t.dest);
    LostTwice(p.entries, c.entries, last.entries, t.dest);
    LaterSends(q.calls + [SfpSend(conn2, t.data, sent2)], c.calls, last.calls);
    SecondSend(p.calls, first, conn1, sent1, t, q.calls, conn2, sent2, last.calls);
  }

  lemma OneSend(before: seq<Call>, first: seq<Call>, conn1: Handle, sent1: CspResult, t: Task, after: seq<Call>)
    requires NoSends(before, first) && NoSends(first + [SfpSend(conn1, t.data, sent1)], after)
    ensures before <= after && TwoSends(after, |before|, t)
  {
    forall a | SendAt(after, |before|, a)
      ensures a == |first|
    {
    }
    assert after[|first|] == SfpSend(conn1, t.data, sent1);
  }

  lemma SecondSend(before: seq<Call>, first: seq<Call>, conn1: Handle, sent1: CspResult, t: Task, second: seq<Call>,
                   conn2: Handle, sent2: CspResult, after: seq<Call>)
    requires NoSends(before, first) && NoSends(first + [SfpSend(conn1, t.data, sent1)], second)
    requires |second| > |first| + 1 && second[|second| - 1] == Connect(t.dest, Some(conn2))
    requires NoSends(second + [SfpSend(conn2, t.data, sent2)], after)
    ensures before <= after && TwoSends(after, |before|, t)
  {
    var n1, n2 := |first|, |second|;
    assert after[n1] == second[n1] == SfpSend(conn1, t.data, sent1);
    assert after[n2] == SfpSend(conn2, t.data, sent2);
    forall a | SendAt(after, |before|, a)
      ensures a == n1 || a == n2
    {
      assert a < n2 ==> after[a] == second[a];
    }
    assert after[n2 - 1] == Connect(t.dest, Some(conn2));
  }

  // ----- Recency, as long as the tick does not wrap -----

  ghost predicate MostRecent(p: Pool, i: nat)
    requires i < |p.entries|
  {
    forall j :: 0 <= j < |p.entries| && j != i && p.entries[j].used ==> p.entries[j].lastUsed < p.entries[i].lastUsed
  }

  /** No used slot is stamped later than now. */
  ghost predicate Stamped(p: Pool) {
    forall i :: 0 <= i < |p.entries| && p.entries[i].used ==> p.entries[i].lastUsed <= p.tick
  }

  ghost predicate StampedNow(p: Pool, i: int) {
    0 <= i < |p.entries| && p.entries[i].used && p.entries[i].lastUsed == p.tick
  }

  /** At most one used slot is stamped with the current tick. */
  ghost predicate OneNow(p: Pool) {
    forall i, j :: StampedNow(p, i) && StampedNow(p, j) ==> i == j
  }

  lemma CloseStamps(p: Pool, i: nat)
    requires Stamped(p) && i < |p.entries|
    ensures Stamped(CloseSlot(p, i)) && (OneNow(p) ==> OneNow(CloseSlot(p, i)))
  {
    assert forall j :: StampedNow(CloseSlot(p, i), j) ==> StampedNow(p, j);
  }

  lemma InvalidateStamps(p: Pool, dest: Dest)
    requires Shaped(p) && Stamped(p)
    ensures Stamped(Invalidate(p, dest)) && Invalidate(p, dest).tick == p.tick
    ensures OneNow(p) ==> OneNow(Invalidate(p, dest))
  {
    hide Stamped, OneNow;
    var i := First(p.entries, KeptFor(dest));
    if i < POOL_SIZE {
      CloseStamps(p, i);
      SameStamps(CloseSlot(p, i), Invalidated(p, i));
    }
  }

  lemma SameStamps(p: Pool, q: Pool)
    requires q.entries == p.entries && q.tick == p.tick
    ensures Stamped(p) ==> Stamped(q)
    ensures OneNow(p) ==> OneNow(q)
  {
    assert forall i :: StampedNow(q, i) <==> StampedNow(p, i);
  }

  /** No used slot is stamped with the current tick, or later. */
  ghost predicate Earlier(p: Pool) {
    forall i :: 0 <= i < |p.entries| && p.entries[i].used ==> p.entries[i].lastUsed < p.tick
  }

  lemma RoomEarlier(q: Pool, dest: Dest)
    requires Shaped(q) && Earlier(q)
    ensures Earlier(MakeRoom(q, dest))
  {
  }

  lemma FillStamps(room: Pool, dest: Dest, w: Weather)
    requires Shaped(room) && First(room.entries, Free()) < POOL_SIZE && Earlier(room)
    ensures Stamped(Fill(room, dest, w)) && OneNow(Fill(room, dest, w))
  {
  }

  lemma HitStamps(q: Pool, i: nat)
    requires i < |q.entries| && Earlier(q)
    ensures Stamped(Hit(q, i)) && OneNow(Hit(q, i))
  {
  }

  /** Until the tick wraps, a lookup stamps one slot later than all others. */
  lemma ObtainStamps(p: Pool, dest: Dest, w: Weather)
    requires Shaped(p) && Stamped(p) && p.tick < 0xFFFF_FFFF
    ensures var q := Obtain(p, dest, w).0;
            Stamped(q) && OneNow(q) && q.tick == p.tick + 1
  {
    hide Stamped, OneNow, Earlier, MakeRoom, Fill, Hit, First;
    TickedEarlier(p);
    var q := Ticked(p);
    if Usable(q, dest, w.now) {
      HitStamps(q, First(q.entries, CachedFor(dest)));
    } else {
      RoomEarlier(q, dest);
      FillStamps(MakeRoom(q, dest), dest, w);
    }
    ObtainTick(q, dest, w);
  }

  lemma TickedEarlier(p: Pool)
    requires Stamped(p) && p.tick < 0xFFFF_FFFF
    ensures Earlier(Ticked(p)) && Ticked(p).tick == p.tick + 1
  {
  }

  /** The attempts from `attempt` on keep the stamps in order, and on OK leave one slot stamped last. */
  lemma {:induction false} AttemptsStamp(p: Pool, t: Task, attempt: nat, ret: CspResult, ws: seq<Weather>,
                                         rs: seq<Reply>)
    requires Shaped(p) && Stamped(p) && attempt <= 2 && |ws| == |rs| == 2 && p.tick + 2 - attempt <= 0xFFFF_FFFF
    requires attempt > 0 ==> ret != CspOk
    ensures var (q, code) := Attempts(p, t, attempt, ret, ws, rs);
            Stamped(q) && (code == OK && attempt < 2 ==> OneNow(q))
    decreases 2 - attempt
  {
    hide Stamped, OneNow, Obtain, Invalidate;
    if attempt < 2 {
      ObtainStamps(p, t.dest, ws[attempt]);
      var (q, conn) := Obtain(p, t.dest, ws[attempt]);
      if conn.Some? {
        var (c, ret') := Confirm(q, conn.value, t.data, rs[attempt]);
        SameStamps(q, c);
        if ret' != CspOk {
          InvalidateStamps(c, t.dest);
          AttemptsStamp(Invalidate(c, t.dest), t, attempt + 1, ret', ws, rs);
        }
      }
    }
  }

  lemma LastStampIsMostRecent(q: Pool, dest: Dest, i: nat, conn: Option<Handle>)
    requires Stamped(q) && OneNow(q) && OnlyEntry(q, dest, i, conn)
    ensures MostRecent(q, i)
  {
    assert StampedNow(q, i);
    forall j | 0 <= j < |q.entries| && j != i && q.entries[j].used
      ensures q.entries[j].lastUsed < q.entries[i].lastUsed
    {
      assert !StampedNow(q, j);
    }
  }

  /** Unless the tick wraps during the send, the entry that an OK leaves is the most recently used one. */
  lemma OkIsMostRecent(p: Pool, t: Task, ws: seq<Weather>, rs: seq<Reply>) returns (i: nat, conn: Option<Handle>)
    requires Regular(p) && Stamped(p) && p.tick <= 0xFFFF_FFFD && |ws| == |rs| == 2
    requires Attempts(p, t, 0, CspTimedOut, ws, rs).1 == OK
    ensures var q := Attempts(p, t, 0, CspTimedOut, ws, rs).0;
            OnlyEntry(q, t.dest, i, conn) && MostRecent(q, i)
  {
    hide Attempts, Stamped, OneNow, TwoSends, Lost, AtMostOne, Tidy, AckedOn;
    RetryContract(p, t, ws, rs);
    AttemptsStamp(p, t, 0, CspTimedOut, ws, rs);
    var q := Attempts(p, t, 0, CspTimedOut, ws, rs).0;
    i, conn :| Delivered(q, t.dest, i, conn);
    LastStampIsMostRecent(q, t.dest, i, conn);
  }
}
