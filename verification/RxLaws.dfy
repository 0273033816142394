/**
 * What the C receive table promises in plain terms: which connection a new one replaces, which
 * bundle a call returns, and what becomes of connections that are broken.
 */
module RxLaws {
  import opened Base
  import opened Search
  import opened RxTable
  import F = RxFairness
  import L = RxLedger

  // ----- When a connection was last busy, told from the calls -----

  /** A connection was accepted, or a bundle on it acknowledged. */
  predicate IsBusy(c: RxCall) {
    c.Accepted? || c.Acked?
  }

  ghost function BusyCalls(trace: seq<RxCall>): nat {
    if trace == [] then 0
    else BusyCalls(trace[..|trace| - 1]) + if IsBusy(trace[|trace| - 1]) then 1 else 0
  }

  /** How many such calls there had been when `h` was last busy, that one included; 0 if never. */
  ghost function LastBusy(trace: seq<RxCall>, h: Handle): nat {
    if trace == [] then 0
    else
      var last := trace[|trace| - 1];
      if IsBusy(last) && last.conn == h then BusyCalls(trace) else LastBusy(trace[..|trace| - 1], h)
  }

  lemma OneCall(trace: seq<RxCall>, c: RxCall, h: Handle)
    ensures BusyCalls(trace + [c]) == BusyCalls(trace) + if IsBusy(c) then 1 else 0
    ensures LastBusy(trace + [c], h) == if IsBusy(c) && c.conn == h then BusyCalls(trace) + 1 else LastBusy(trace, h)
  {
    assert (trace + [c])[..|trace|] == trace;
  }

  lemma TwoCalls(trace: seq<RxCall>, c: RxCall, d: RxCall, h: Handle)
    ensures var calls := trace + [c, d];
            && BusyCalls(calls) == BusyCalls(trace) + (if IsBusy(c) then 1 else 0) + (if IsBusy(d) then 1 else 0)
            && LastBusy(calls, h) == if IsBusy(d) && d.conn == h then BusyCalls(calls)
                                     else if IsBusy(c) && c.conn == h then BusyCalls(trace) + 1 else LastBusy(trace, h)
  {
    OneCall(trace, c, h);
    OneCall(trace + [c], d, h);
    assert trace + [c, d] == (trace + [c]) + [d];
  }

  lemma {:induction false} NeverLater(trace: seq<RxCall>, h: Handle)
    ensures LastBusy(trace, h) <= BusyCalls(trace)
  {
    if trace != [] {
      NeverLater(trace[..|trace| - 1], h);
    }
  }

  // ----- The table agrees with the calls, in every run -----

  ghost predicate DistinctPeers(entries: seq<Entry>) {
    forall i, j :: 0 <= i < j < |entries| && entries[i].used && entries[j].used ==> entries[i].src != entries[j].src
  }

  /** Slot `i` is stamped with the time its connection was last busy. */
  ghost predicate StampedAt(rx: Rx, i: nat) {
    i < |rx.entries| && rx.entries[i].used && rx.entries[i].conn.Some? ==>
      rx.entries[i].lastActive == LastBusy(rx.trace, rx.entries[i].conn.value) % 0x1_0000_0000
  }

  ghost predicate Timely(rx: Rx) {
    && F.Separate(rx.entries) && DistinctPeers(rx.entries)
    && rx.tick == BusyCalls(rx.trace) % 0x1_0000_0000
    && (forall i: nat :: StampedAt(rx, i))
  }

  lemma WrapAdds(n: nat)
    ensures Wrap(n % 0x1_0000_0000 + 1) == (n + 1) % 0x1_0000_0000
  {
  }

  lemma TakeTimely(rx: Rx, i: nat)
    requires Timely(rx) && i < RX_TABLE_SIZE && rx.entries[i].used
    ensures Timely(Take(rx, i))
  {
    hide BusyCalls, LastBusy, Wrap;
    var h, r := HandleAt(rx, i), Take(rx, i);
    WrapAdds(BusyCalls(rx.trace));
    TwoCalls(rx.trace, Read(h), Acked(h), h);
    forall j: nat
      ensures StampedAt(r, j)
    {
      assert StampedAt(rx, j);
      if j < RX_TABLE_SIZE && rx.entries[j].used {
        TwoCalls(rx.trace, Read(h), Acked(h), rx.entries[j].conn.value);
      }
    }
  }

  lemma PassTimely(rx: Rx, i: nat)
    requires Timely(rx) && i < RX_TABLE_SIZE
    ensures Timely(Pass(rx, i))
  {
    hide BusyCalls, LastBusy;
    var c, r := Read(HandleAt(rx, i)), Pass(rx, i);
    OneCall(rx.trace, c, 0);
    forall j: nat
      ensures StampedAt(r, j)
    {
      assert StampedAt(rx, j);
      if j < RX_TABLE_SIZE && rx.entries[j].used {
        OneCall(rx.trace, c, rx.entries[j].conn.value);
      }
    }
  }

  lemma DropTimely(rx: Rx, i: nat)
    requires Timely(rx) && i < RX_TABLE_SIZE
    ensures Timely(Drop(rx, i))
  {
    hide BusyCalls, LastBusy;
    var h, r := HandleAt(rx, i), Drop(rx, i);
    TwoCalls(rx.trace, Read(h), Closed(h), 0);
    forall j: nat
      ensures StampedAt(r, j)
    {
      assert StampedAt(rx, j);
      if j < RX_TABLE_SIZE && rx.entries[j].used {
        TwoCalls(rx.trace, Read(h), Closed(h), rx.entries[j].conn.value);
      }
    }
  }

  lemma {:induction false} PollTimely(rx: Rx, start: nat, n: nat, maxLen: nat, inboxes: seq<Inbox>)
    requires Timely(rx) && |inboxes| == RX_TABLE_SIZE && n <= RX_TABLE_SIZE
    ensures Timely(Poll(rx, start, n, maxLen, inboxes).0)
    decreases RX_TABLE_SIZE - n
  {
    hide Timely, Poll, Take, Pass, Drop;
    TimelyShape(rx);
    if n == RX_TABLE_SIZE {
      PollOver(rx, start, maxLen, inboxes);
    } else {
      PollTurn(rx, start, n, maxLen, inboxes);
      var i := (start + n) % RX_TABLE_SIZE;
      var code := ReadCode(inboxes[i], maxLen);
      if !rx.entries[i].used {
        PollTimely(rx, start, n + 1, maxLen, inboxes);
      } else if code == OK {
        TakeTimely(rx, i);
      } else if code == TIMEOUT {
        PassTimely(rx, i);
        PollTimely(Pass(rx, i), start, n + 1, maxLen, inboxes);
      } else {
        DropTimely(rx, i);
        PollTimely(Drop(rx, i), start, n + 1, maxLen, inboxes);
      }
    }
  }

  lemma TimelyShape(rx: Rx)
    requires Timely(rx)
    ensures Shaped(rx)
  {
  }

  // ----- Storing a new connection -----

  ghost predicate HasPeer(entries: seq<Entry>, src: Dest) {
    exists i :: 0 <= i < |entries| && entries[i].used && entries[i].src == src
  }

  ghost predicate HasRoom(entries: seq<Entry>) {
    exists i :: 0 <= i < |entries| && !entries[i].used
  }

  /** The slot that a connection from `src` goes to. */
  lemma SlotLaw(entries: seq<Entry>, src: Dest)
    requires |entries| == RX_TABLE_SIZE
    ensures var k := SlotFor(entries, src);
            if HasPeer(entries, src) then entries[k].used && entries[k].src == src
            else if HasRoom(entries) then !entries[k].used
            else forall j :: 0 <= j < RX_TABLE_SIZE ==> entries[k].lastActive <= entries[j].lastActive
    ensures First(entries, From(src)) < RX_TABLE_SIZE <==> HasPeer(entries, src)
  {
    var known, free := First(entries, From(src)), First(entries, Vacant());
    if i :| 0 <= i < |entries| && entries[i].used && entries[i].src == src {
      assert From(src)(entries[i]);
      assert From(src)(entries[known]);
    } else {
      assert forall j :: 0 <= j < RX_TABLE_SIZE ==> !From(src)(entries[j]);
      if j :| 0 <= j < |entries| && !entries[j].used {
        assert Vacant()(entries[j]);
        assert Vacant()(entries[free]);
      } else {
        assert forall j :: 0 <= j < RX_TABLE_SIZE ==> !Vacant()(entries[j]);
        var keys, m := Activity(entries), ArgMin(Activity(entries));
        assert forall j :: 0 <= j < RX_TABLE_SIZE ==> keys[m] <= keys[j];
      }
    }
  }

  /** What `Store` records, for a connection not held before. */
  lemma StoreCalls(rx: Rx, conn: Handle, src: Dest)
    requires F.Separate(rx.entries)
    requires forall i :: 0 <= i < RX_TABLE_SIZE && rx.entries[i].used ==> rx.entries[i].conn != Some(conn)
    ensures var k, r := SlotFor(rx.entries, src), Store(rx, conn, src);
            && r == rx.(entries := rx.entries[k := Entry(true, Some(conn), src, Wrap(rx.tick + 1))],
                        tick := Wrap(rx.tick + 1), trace := r.trace)
            && r.trace == if rx.entries[k].used then rx.trace + [Accepted(conn), Closed(rx.entries[k].conn.value)]
                          else rx.trace + [Accepted(conn)]
  {
    hide SlotFor;
  }

  lemma StoreStamps(rx: Rx, conn: Handle, src: Dest)
    requires Timely(rx)
    requires forall i :: 0 <= i < RX_TABLE_SIZE && rx.entries[i].used ==> rx.entries[i].conn != Some(conn)
    ensures var r := Store(rx, conn, src);
            && BusyCalls(r.trace) == BusyCalls(rx.trace) + 1 && LastBusy(r.trace, conn) == BusyCalls(rx.trace) + 1
            && (forall h :: h != conn ==> LastBusy(r.trace, h) == LastBusy(rx.trace, h))
  {
    hide BusyCalls, LastBusy, SlotFor, Store, DistinctPeers, StampedAt;
    StoreCalls(rx, conn, src);
    var k, r := SlotFor(rx.entries, src), Store(rx, conn, src);
    forall h
      ensures BusyCalls(r.trace) == BusyCalls(rx.trace) + 1
      ensures LastBusy(r.trace, h) == if h == conn then BusyCalls(rx.trace) + 1 else LastBusy(rx.trace, h)
    {
      if rx.entries[k].used {
        TwoCalls(rx.trace, Accepted(conn), Closed(rx.entries[k].conn.value), h);
      } else {
        OneCall(rx.trace, Accepted(conn), h);
      }
    }
    assert LastBusy(r.trace, conn) == BusyCalls(rx.trace) + 1;
  }

  lemma StorePeers(rx: Rx, conn: Handle, src: Dest)
    requires Shaped(rx) && DistinctPeers(rx.entries)
    ensures DistinctPeers(Store(rx, conn, src).entries)
  {
    hide SlotFor;
    SlotLaw(rx.entries, src);
    var k := SlotFor(rx.entries, src);
    forall j | 0 <= j < RX_TABLE_SIZE && j != k && rx.entries[j].used
      ensures rx.entries[j].src != src
    {
      assert rx.entries[j].src == src ==> HasPeer(rx.entries, src);
    }
  }

  lemma StoreTimely(rx: Rx, conn: Handle, src: Dest)
    requires Timely(rx) && L.Sound(rx) && conn !in L.Gained(rx.trace)
    ensures Timely(Store(rx, conn, src))
  {
    hide BusyCalls, LastBusy, SlotFor, Store, DistinctPeers, Wrap;
    NotHeld(rx, conn);
    StoreCalls(rx, conn, src);
    StoreStamps(rx, conn, src);
    StorePeers(rx, conn, src);
    WrapAdds(BusyCalls(rx.trace));
    L.StoreApart(rx, conn, src);
    var r := Store(rx, conn, src);
    forall j: nat
      ensures StampedAt(r, j)
    {
      assert StampedAt(rx, j);
    }
  }

  lemma NotHeld(rx: Rx, conn: Handle)
    requires L.Sound(rx) && conn !in L.Gained(rx.trace)
    ensures forall i :: 0 <= i < RX_TABLE_SIZE && rx.entries[i].used ==> rx.entries[i].conn != Some(conn)
  {
    forall i | 0 <= i < RX_TABLE_SIZE && rx.entries[i].used
      ensures rx.entries[i].conn != Some(conn)
    {
      L.HeldIsIn(rx.entries, i);
    }
  }

  // ----- Every run -----

  lemma InitTimely()
    ensures Timely(Init())
  {
  }

  lemma CleanupTimely(rx: Rx)
    requires Timely(rx)
    ensures Timely(Cleanup(rx))
  {
    hide CloseAllCalls, LastBusy, BusyCalls;
    ClosesAreNotBusy(rx.trace, rx.entries, RX_TABLE_SIZE);
  }

  lemma {:induction false} ClosesAreNotBusy(trace: seq<RxCall>, entries: seq<Entry>, n: nat)
    requires n <= |entries|
    ensures BusyCalls(trace + CloseAllCalls(entries, n)) == BusyCalls(trace)
  {
    if n == 0 {
      assert trace + [] == trace;
    } else {
      ClosesAreNotBusy(trace, entries, n - 1);
      var calls, e := CloseAllCalls(entries, n - 1), entries[n - 1];
      if e.used && e.conn.Some? {
        OneCall(trace + calls, Closed(e.conn.value), 0);
        assert (trace + calls) + [Closed(e.conn.value)] == trace + (calls + [Closed(e.conn.value)]);
      } else {
        assert CloseAllCalls(entries, n) == calls;
      }
    }
  }

  lemma RecvTimely(rx: Rx, s: Surroundings)
    requires Timely(rx) && L.Sound(rx) && |s.inboxes| == RX_TABLE_SIZE
    requires s.arrival.NewConn? ==> s.arrival.conn !in L.Gained(rx.trace)
    ensures Timely(Recv(rx, s).0)
  {
    hide Timely, Poll, Store, L.Sound;
    TimelyShape(rx);
    if s.arrival.NewConn? {
      StoreTimely(rx, s.arrival.conn, s.arrival.src);
      var rx1 := Store(rx, s.arrival.conn, s.arrival.src);
      PollTimely(rx1, rx1.tick % RX_TABLE_SIZE, 0, s.maxLen, s.inboxes);
    } else {
      PollTimely(rx, rx.tick % RX_TABLE_SIZE, 0, s.maxLen, s.inboxes);
    }
  }

  lemma {:induction false} RunTimely(ops: seq<L.Op>)
    requires L.Plausible(ops)
    ensures Timely(L.Run(ops))
  {
    hide Timely, L.Sound, L.Gained, Recv, Cleanup;
    if ops == [] {
      InitTimely();
    } else {
      L.Earlier(ops);
      var before, n := ops[..|ops| - 1], |ops| - 1;
      RunTimely(before);
      L.RunSound(before);
      match ops[n]
      case Receive(s) =>
        if s.arrival.NewConn? {
          L.NotYet(before, ops, s.arrival.conn);
        }
        RecvTimely(L.Run(before), s);
      case CleanUp => CleanupTimely(L.Run(before));
    }
  }

  /**
   * Which connection a new one replaces, in every run before the tick wraps: that of the same
   * peer, whose address and port no other slot has; else none, if a slot is free; else the one
   * that was accepted, or delivered a bundle, longest ago. It is closed, and no other is touched.
   */
  lemma StoreLaw(ops: seq<L.Op>, conn: Handle, src: Dest) returns (k: nat)
    requires L.Plausible(ops) && conn !in L.Gained(L.Run(ops).trace) && BusyCalls(L.Run(ops).trace) < 0x1_0000_0000
    ensures k < RX_TABLE_SIZE
    ensures var rx := L.Run(ops);
            var r := Store(rx, conn, src);
            && DistinctPeers(rx.entries) && F.Separate(rx.entries)
            && r.entries == rx.entries[k := r.entries[k]]
            && r.entries[k].used && r.entries[k].conn == Some(conn) && r.entries[k].src == src
            && r.trace == (if HasPeer(rx.entries, src) || !HasRoom(rx.entries)
                           then rx.trace + [Accepted(conn), Closed(HandleAt(rx, k))] else rx.trace + [Accepted(conn)])
            && (HasPeer(rx.entries, src) ==> rx.entries[k].used && rx.entries[k].src == src)
            && (!HasPeer(rx.entries, src) && HasRoom(rx.entries) ==> !rx.entries[k].used)
            && (!HasPeer(rx.entries, src) && !HasRoom(rx.entries) ==>
                  forall j :: 0 <= j < RX_TABLE_SIZE ==>
                    LastBusy(rx.trace, HandleAt(rx, k)) <= LastBusy(rx.trace, HandleAt(rx, j)))
  {
    hide BusyCalls, LastBusy, SlotFor, Store, L.Gained, HasPeer, L.Sound, StampedAt, DistinctPeers;
    var rx := L.Run(ops);
    L.RunSound(ops);
    RunTimely(ops);
    NotHeld(rx, conn);
    StoreCalls(rx, conn, src);
    SlotLaw(rx.entries, src);
    k := SlotFor(rx.entries, src);
    if !HasRoom(rx.entries) {
      StampsAreTimes(rx);
    }
  }

  lemma StampsAreTimes(rx: Rx)
    requires Timely(rx) && !HasRoom(rx.entries) && BusyCalls(rx.trace) < 0x1_0000_0000
    ensures forall j :: 0 <= j < RX_TABLE_SIZE ==>
              rx.entries[j].used && rx.entries[j].lastActive == LastBusy(rx.trace, HandleAt(rx, j))
  {
    hide BusyCalls, LastBusy, DistinctPeers;
    forall j | 0 <= j < RX_TABLE_SIZE
      ensures rx.entries[j].used && rx.entries[j].lastActive == LastBusy(rx.trace, HandleAt(rx, j))
    {
      assert rx.entries[j].used;
      assert StampedAt(rx, j);
      NeverLater(rx.trace, HandleAt(rx, j));
    }
  }

  // ----- Polling -----

  /** The slot polled at turn `m`. */
  function Spot(start: nat, m: nat): (i: nat)
    ensures i < RX_TABLE_SIZE
  {
    (start + m) % 8
  }

  /** A bundle waits that fits the buffer. */
  predicate Ready(rx: Rx, i: nat, maxLen: nat, inboxes: seq<Inbox>)
    requires i < |rx.entries| && i < |inboxes|
  {
    rx.entries[i].used && inboxes[i].Arrived? && 1 <= |inboxes[i].data| <= maxLen
  }

  /** The read fails: no bundle could be assembled, or it is empty, or too large for the buffer. */
  predicate Broken(rx: Rx, i: nat, maxLen: nat, inboxes: seq<Inbox>)
    requires i < |rx.entries| && i < |inboxes|
  {
    rx.entries[i].used && !inboxes[i].Silent? && !Ready(rx, i, maxLen, inboxes)
  }

  /** The codes of a read. */
  lemma ReadLaw(inbox: Inbox, maxLen: nat)
    ensures ReadCode(inbox, maxLen) == OK <==> inbox.Arrived? && 1 <= |inbox.data| <= maxLen
    ensures ReadCode(inbox, maxLen) == TIMEOUT <==> inbox.Silent?
    ensures ReadCode(inbox, maxLen) == SFP <==> inbox.Garbled?
    ensures ReadCode(inbox, maxLen) == CSP_RECV <==> inbox.Arrived? && inbox.data == []
    ensures ReadCode(inbox, maxLen) == NO_MEMORY <==> inbox.Arrived? && |inbox.data| > maxLen && inbox.data != []
  {
  }

  /** What is asked of libcsp at the turns from `n` to `k`, which finds a bundle unless it is 8. */
  ghost function PollCalls(rx: Rx, start: nat, n: nat, k: nat, maxLen: nat, inboxes: seq<Inbox>): seq<RxCall>
    requires Shaped(rx) && n <= k <= RX_TABLE_SIZE == |inboxes|
    decreases k - n
  {
    if n == RX_TABLE_SIZE then []
    else
      var i := Spot(start, n);
      var h := HandleAt(rx, i);
      if n == k then [Read(h), Acked(h)]
      else
        Missed(rx, i, maxLen, inboxes) + PollCalls(rx, start, n + 1, k, maxLen, inboxes)
  }

  /** What is asked for a slot that yields nothing. */
  function Missed(rx: Rx, i: nat, maxLen: nat, inboxes: seq<Inbox>): seq<RxCall>
    requires i < |rx.entries| && i < |inboxes|
  {
    var h := HandleAt(rx, i);
    if !rx.entries[i].used then []
    else if Broken(rx, i, maxLen, inboxes) then [Read(h), Closed(h)]
    else [Read(h)]
  }

  lemma CallsFrom(rx: Rx, start: nat, n: nat, k: nat, maxLen: nat, inboxes: seq<Inbox>)
    requires Shaped(rx) && n < k <= RX_TABLE_SIZE == |inboxes|
    ensures PollCalls(rx, start, n, k, maxLen, inboxes)
            == Missed(rx, Spot(start, n), maxLen, inboxes) + PollCalls(rx, start, n + 1, k, maxLen, inboxes)
  {
  }

  lemma MissedTrace(rx: Rx, i: nat, maxLen: nat, inboxes: seq<Inbox>)
    requires i < |rx.entries| && i < |inboxes|
    ensures Skipped(rx, i, maxLen, inboxes).trace == rx.trace + Missed(rx, i, maxLen, inboxes)
  {
    hide Broken;
  }

  /** Turns `n` to 7 come first to a fitting bundle at turn `k`, or to none. */
  ghost predicate FirstReady(rx: Rx, start: nat, n: nat, k: nat, maxLen: nat, inboxes: seq<Inbox>)
    requires Shaped(rx) && |inboxes| == RX_TABLE_SIZE
  {
    && n <= k <= RX_TABLE_SIZE
    && (forall m :: n <= m < k ==> !Ready(rx, Spot(start, m), maxLen, inboxes))
    && (k < RX_TABLE_SIZE ==> Ready(rx, Spot(start, k), maxLen, inboxes))
  }

  /** The table after turns `n` to `k`: broken connections are gone, the one served is stamped. */
  ghost predicate Polled(rx: Rx, start: nat, n: nat, k: nat, maxLen: nat, inboxes: seq<Inbox>, r: Rx)
    requires Shaped(rx) && |inboxes| == RX_TABLE_SIZE
  {
    && Shaped(r) && r.initialized == rx.initialized
    && r.tick == (if k < RX_TABLE_SIZE then (rx.tick + 1) % 0x1_0000_0000 else rx.tick)
    && (forall m :: 0 <= m < RX_TABLE_SIZE ==>
          var i := Spot(start, m);
          r.entries[i] == if n <= m < k && Broken(rx, i, maxLen, inboxes)
                          then rx.entries[i].(used := false, conn := None)
                          else if m == k then rx.entries[i].(lastActive := r.tick)
                          else rx.entries[i])
  }

  /** What turn `k` yields. */
  ghost function TakenAt(rx: Rx, start: nat, k: nat, inboxes: seq<Inbox>): Option<Taken>
    requires Shaped(rx) && |inboxes| == RX_TABLE_SIZE
  {
    var i := Spot(start, k);
    if k >= RX_TABLE_SIZE || !inboxes[i].Arrived? then None
    else Some(Taken(i, inboxes[i].data, rx.entries[i].src))
  }

  /** One slot's change leaves the other turns as they were. */
  lemma OtherTurns(start: nat, n: nat, m: nat)
    requires n < RX_TABLE_SIZE && m < RX_TABLE_SIZE && n != m
    ensures Spot(start, n) != Spot(start, m)
  {
  }

  lemma SpotOfTurn(start: nat, n: nat)
    ensures (start + n) % RX_TABLE_SIZE == Spot(start, n)
  {
  }

  /** What polling from turn `n` on does when `k` is the first turn with a fitting bundle. */
  ghost predicate PollDoes(rx: Rx, start: nat, n: nat, k: nat, maxLen: nat, inboxes: seq<Inbox>,
                           result: (Rx, Option<Taken>))
    requires Shaped(rx) && n <= k <= RX_TABLE_SIZE == |inboxes|
  {
    && Polled(rx, start, n, k, maxLen, inboxes, result.0)
    && result.0.trace == rx.trace + PollCalls(rx, start, n, k, maxLen, inboxes)
    && result.1 == TakenAt(rx, start, k, inboxes)
  }

  /** The slot of turn `n` yields nothing: unused slots are passed over, broken connections dropped. */
  function Skipped(rx: Rx, i: nat, maxLen: nat, inboxes: seq<Inbox>): Rx
    requires i < |rx.entries| && i < |inboxes|
  {
    if !rx.entries[i].used then rx else if Broken(rx, i, maxLen, inboxes) then Drop(rx, i) else Pass(rx, i)
  }

  lemma SkipDoes(rx: Rx, start: nat, n: nat, k: nat, maxLen: nat, inboxes: seq<Inbox>, result: (Rx, Option<Taken>))
    requires Shaped(rx) && |inboxes| == RX_TABLE_SIZE && n < k && FirstReady(rx, start, n, k, maxLen, inboxes)
    requires var next := Skipped(rx, Spot(start, n), maxLen, inboxes);
             Shaped(next) && PollDoes(next, start, n + 1, k, maxLen, inboxes, result)
    ensures PollDoes(rx, start, n, k, maxLen, inboxes, result)
  {
    hide Polled, Spot, FirstReady, TakenAt, Drop, Pass, Broken, PollCalls, Missed;
    var i, next := Spot(start, n), Skipped(rx, Spot(start, n), maxLen, inboxes);
    SkipTurn(rx, next, start, n, k, maxLen, inboxes);
    FirstInRange(rx, start, n, k, maxLen, inboxes);
    MissedTrace(rx, i, maxLen, inboxes);
    CallsFrom(rx, start, n, k, maxLen, inboxes);
    SameTaken(rx, next, start, n, k, inboxes);
    SkipPolled(rx, next, start, n, k, maxLen, inboxes, result.0);
  }

  lemma FirstInRange(rx: Rx, start: nat, n: nat, k: nat, maxLen: nat, inboxes: seq<Inbox>)
    requires Shaped(rx) && |inboxes| == RX_TABLE_SIZE && FirstReady(rx, start, n, k, maxLen, inboxes)
    ensures n <= k <= RX_TABLE_SIZE
  {
  }

  lemma TakeDoes(rx: Rx, start: nat, k: nat, maxLen: nat, inboxes: seq<Inbox>)
    requires Shaped(rx) && |inboxes| == RX_TABLE_SIZE && k < RX_TABLE_SIZE
    requires FirstReady(rx, start, k, k, maxLen, inboxes)
    ensures var i := Spot(start, k);
            && inboxes[i].Arrived?
            && var taken := Taken(i, inboxes[i].data, rx.entries[i].src);
               PollDoes(rx, start, k, k, maxLen, inboxes, (Take(rx, i), Some(taken)))
  {
    hide Polled, Spot, Take;
    TakePolled(rx, start, k, maxLen, inboxes);
    TurnCalls(rx, Spot(start, k));
  }

  lemma OverDoes(rx: Rx, start: nat, maxLen: nat, inboxes: seq<Inbox>)
    requires Shaped(rx) && |inboxes| == RX_TABLE_SIZE
    ensures PollDoes(rx, start, RX_TABLE_SIZE, RX_TABLE_SIZE, maxLen, inboxes, (rx, None))
  {
    NothingPolled(rx, start, maxLen, inboxes);
    assert rx.trace + [] == rx.trace;
  }

  /**
   * The law of a poll: the first connection in turn with a bundle that fits the buffer is read,
   * acknowledged and stamped; those before it whose read failed are closed and forgotten, those
   * that were silent stay; no other is touched.
   */
  lemma {:induction false} PollLaw(rx: Rx, start: nat, n: nat, k: nat, maxLen: nat, inboxes: seq<Inbox>)
    requires Shaped(rx) && |inboxes| == RX_TABLE_SIZE && FirstReady(rx, start, n, k, maxLen, inboxes)
    ensures PollDoes(rx, start, n, k, maxLen, inboxes, Poll(rx, start, n, maxLen, inboxes))
    decreases RX_TABLE_SIZE - n
  {
    hide Poll, PollDoes, ReadCode, Spot, Take, Drop, Pass;
    if n == RX_TABLE_SIZE {
      PollOver(rx, start, maxLen, inboxes);
      OverDoes(rx, start, maxLen, inboxes);
    } else {
      PollTurn(rx, start, n, maxLen, inboxes);
      SpotOfTurn(start, n);
      var i := Spot(start, n);
      ReadLaw(inboxes[i], maxLen);
      if n == k {
        TakeDoes(rx, start, k, maxLen, inboxes);
      } else {
        var next := Skipped(rx, i, maxLen, inboxes);
        SkipTurn(rx, next, start, n, k, maxLen, inboxes);
        PollLaw(next, start, n + 1, k, maxLen, inboxes);
        SkipDoes(rx, start, n, k, maxLen, inboxes, Poll(next, start, n + 1, maxLen, inboxes));
      }
    }
  }

  lemma TurnCalls(rx: Rx, i: nat)
    requires i < |rx.entries|
    ensures Take(rx, i).trace == rx.trace + [Read(HandleAt(rx, i)), Acked(HandleAt(rx, i))]
    ensures Drop(rx, i).trace == rx.trace + [Read(HandleAt(rx, i)), Closed(HandleAt(rx, i))]
    ensures Pass(rx, i).trace == rx.trace + [Read(HandleAt(rx, i))]
  {
  }

  lemma SameTaken(rx: Rx, next: Rx, start: nat, n: nat, k: nat, inboxes: seq<Inbox>)
    requires Shaped(rx) && Shaped(next) && |inboxes| == RX_TABLE_SIZE && n < k
    requires k < RX_TABLE_SIZE ==> next.entries[Spot(start, k)] == rx.entries[Spot(start, k)]
    ensures TakenAt(next, start, k, inboxes) == TakenAt(rx, start, k, inboxes)
  {
  }

  lemma NothingPolled(rx: Rx, start: nat, maxLen: nat, inboxes: seq<Inbox>)
    requires Shaped(rx) && |inboxes| == RX_TABLE_SIZE
    ensures Polled(rx, start, RX_TABLE_SIZE, RX_TABLE_SIZE, maxLen, inboxes, rx)
  {
  }

  lemma TakePolled(rx: Rx, start: nat, k: nat, maxLen: nat, inboxes: seq<Inbox>)
    requires Shaped(rx) && |inboxes| == RX_TABLE_SIZE && k < RX_TABLE_SIZE
    ensures Polled(rx, start, k, k, maxLen, inboxes, Take(rx, Spot(start, k)))
  {
    hide Spot;
    var i := Spot(start, k);
    var r := Take(rx, i);
    forall m | 0 <= m < RX_TABLE_SIZE && m != k
      ensures r.entries[Spot(start, m)] == rx.entries[Spot(start, m)]
    {
      OtherTurns(start, k, m);
    }
  }

  /** Past turn `n`, nothing ahead has changed. */
  lemma SkipTurn(rx: Rx, next: Rx, start: nat, n: nat, k: nat, maxLen: nat, inboxes: seq<Inbox>)
    requires Shaped(rx) && |inboxes| == RX_TABLE_SIZE && n < k && FirstReady(rx, start, n, k, maxLen, inboxes)
    requires var i := Spot(start, n); next == rx || next == Drop(rx, i) || next == Pass(rx, i)
    ensures Shaped(next) && FirstReady(next, start, n + 1, k, maxLen, inboxes)
    ensures PollCalls(next, start, n + 1, k, maxLen, inboxes) == PollCalls(rx, start, n + 1, k, maxLen, inboxes)
    ensures forall m :: n < m < RX_TABLE_SIZE ==>
              next.entries[Spot(start, m)] == rx.entries[Spot(start, m)]
  {
    hide Spot;
    forall m | n < m < RX_TABLE_SIZE
      ensures next.entries[Spot(start, m)] == rx.entries[Spot(start, m)]
    {
      OtherTurns(start, n, m);
    }
    SameCalls(rx, next, start, n + 1, k, maxLen, inboxes);
  }

  lemma {:induction false} SameCalls(rx: Rx, next: Rx, start: nat, n: nat, k: nat, maxLen: nat, inboxes: seq<Inbox>)
    requires Shaped(rx) && Shaped(next) && n <= k <= RX_TABLE_SIZE == |inboxes|
    requires forall m :: n <= m < RX_TABLE_SIZE ==>
               next.entries[Spot(start, m)] == rx.entries[Spot(start, m)]
    ensures PollCalls(next, start, n, k, maxLen, inboxes) == PollCalls(rx, start, n, k, maxLen, inboxes)
    decreases k - n
  {
    hide Spot, PollCalls, Missed;
    if n < k {
      SameCalls(rx, next, start, n + 1, k, maxLen, inboxes);
      CallsFrom(rx, start, n, k, maxLen, inboxes);
      CallsFrom(next, start, n, k, maxLen, inboxes);
      SameMissed(rx, next, Spot(start, n), maxLen, inboxes);
    } else {
      SameLast(rx, next, start, k, maxLen, inboxes);
    }
  }

  lemma SameMissed(rx: Rx, next: Rx, i: nat, maxLen: nat, inboxes: seq<Inbox>)
    requires i < |rx.entries| && i < |next.entries| && i < |inboxes| && next.entries[i] == rx.entries[i]
    ensures Missed(next, i, maxLen, inboxes) == Missed(rx, i, maxLen, inboxes)
  {
  }

  lemma SameLast(rx: Rx, next: Rx, start: nat, k: nat, maxLen: nat, inboxes: seq<Inbox>)
    requires Shaped(rx) && Shaped(next) && k <= RX_TABLE_SIZE == |inboxes|
    requires k < RX_TABLE_SIZE ==> next.entries[Spot(start, k)] == rx.entries[Spot(start, k)]
    ensures PollCalls(next, start, k, k, maxLen, inboxes) == PollCalls(rx, start, k, k, maxLen, inboxes)
  {
  }

  lemma SkipPolled(rx: Rx, next: Rx, start: nat, n: nat, k: nat, maxLen: nat, inboxes: seq<Inbox>, r: Rx)
    requires Shaped(rx) && Shaped(next) && |inboxes| == RX_TABLE_SIZE && n < k <= RX_TABLE_SIZE
    requires next == Skipped(rx, Spot(start, n), maxLen, inboxes)
    requires Polled(next, start, n + 1, k, maxLen, inboxes, r)
    ensures Polled(rx, start, n, k, maxLen, inboxes, r)
  {
    hide Spot;
    forall m | 0 <= m < RX_TABLE_SIZE && m != n
      ensures next.entries[Spot(start, m)] == rx.entries[Spot(start, m)]
    {
      OtherTurns(start, n, m);
    }
  }

  // ----- The whole call -----

  /** The table that a call polls: with the connection that arrived, if one did. */
  function Polls(rx: Rx, s: Surroundings): (r: Rx)
    requires Shaped(rx)
    ensures Shaped(r)
  {
    if s.arrival.NewConn? then Store(rx, s.arrival.conn, s.arrival.src) else rx
  }

  ghost predicate SomeReady(rx: Rx, maxLen: nat, inboxes: seq<Inbox>)
    requires Shaped(rx) && |inboxes| == RX_TABLE_SIZE
  {
    exists i :: 0 <= i < RX_TABLE_SIZE && Ready(rx, i, maxLen, inboxes)
  }

  /** The first turn with a fitting bundle. */
  lemma {:induction false} FindReady(rx: Rx, start: nat, n: nat, maxLen: nat, inboxes: seq<Inbox>) returns (k: nat)
    requires Shaped(rx) && n <= RX_TABLE_SIZE == |inboxes|
    ensures FirstReady(rx, start, n, k, maxLen, inboxes)
    decreases RX_TABLE_SIZE - n
  {
    hide Spot, Ready;
    if n == RX_TABLE_SIZE || Ready(rx, Spot(start, n), maxLen, inboxes) {
      k := n;
    } else {
      k := FindReady(rx, start, n + 1, maxLen, inboxes);
    }
  }

  lemma ReadyTurn(rx: Rx, start: nat, i: nat) returns (m: nat)
    requires i < RX_TABLE_SIZE
    ensures m < RX_TABLE_SIZE && Spot(start, m) == i
  {
    m := (i + 8 - start % 8) % 8;
  }

  lemma NoneUsed(rx: Rx, maxLen: nat, inboxes: seq<Inbox>)
    requires Shaped(rx) && |inboxes| == RX_TABLE_SIZE && CountUsed(rx.entries) == 0
    ensures !SomeReady(rx, maxLen, inboxes)
  {
    if i :| 0 <= i < RX_TABLE_SIZE && Ready(rx, i, maxLen, inboxes) {
      F.SomeUsed(rx.entries, i);
    }
  }

  lemma PollFinds(rx: Rx, start: nat, maxLen: nat, inboxes: seq<Inbox>)
    requires Shaped(rx) && |inboxes| == RX_TABLE_SIZE
    ensures Poll(rx, start, 0, maxLen, inboxes).1.Some? <==> SomeReady(rx, maxLen, inboxes)
  {
    hide Poll, Spot, Polled, PollCalls;
    var k := FindReady(rx, start, 0, maxLen, inboxes);
    PollLaw(rx, start, 0, k, maxLen, inboxes);
    if i :| 0 <= i < RX_TABLE_SIZE && Ready(rx, i, maxLen, inboxes) {
      var m := ReadyTurn(rx, start, i);
      assert k < RX_TABLE_SIZE;
    }
  }

  /**
   * The code of a call: a failed accept is reported at once; otherwise it is OK exactly if some
   * live connection, the one just accepted included, has a bundle that fits the buffer.
   */
  lemma RecvLaw(rx: Rx, s: Surroundings)
    requires Shaped(rx) && |s.inboxes| == RX_TABLE_SIZE
    ensures var (r, code, taken) := Recv(rx, s);
            if !rx.initialized then code == NOT_INITIALIZED && r == rx && taken == None
            else if s.arrival.AcceptFails? && s.arrival.code != TIMEOUT then
              code == s.arrival.code && r == rx && taken == None
            else
              && code == (if SomeReady(Polls(rx, s), s.maxLen, s.inboxes) then OK else TIMEOUT)
              && (taken.Some? <==> code == OK)
  {
    hide Poll, Store, SomeReady;
    if rx.initialized {
      var rx1 := Polls(rx, s);
      if CountUsed(rx1.entries) == 0 {
        NoneUsed(rx1, s.maxLen, s.inboxes);
      } else {
        PollFinds(rx1, rx1.tick % RX_TABLE_SIZE, s.maxLen, s.inboxes);
      }
    }
  }

  /** After a cleanup no slot is used, and every later call is refused and changes nothing. */
  lemma CleanedTableRefuses(rx: Rx, s: Surroundings)
    requires Shaped(rx) && |s.inboxes| == RX_TABLE_SIZE
    ensures var r := Cleanup(rx);
            && (forall i :: 0 <= i < RX_TABLE_SIZE ==> !r.entries[i].used && r.entries[i].conn == None)
            && Recv(r, s) == (r, NOT_INITIALIZED, None)
  {
    hide CloseAllCalls;
  }
}
