/** Ownership of inbound connections by the C receive table: each is held once or was closed once. */
module RxLedger {
  import opened Base
  import opened Bags
  import opened RxTable
  import opened Fair = RxFairness

  ghost function HeldBy(e: Entry): multiset<Handle> {
    if e.conn.Some? then multiset{e.conn.value} else multiset{}
  }

  ghost function GainedBy(c: RxCall): multiset<Handle> {
    if c.Accepted? then multiset{c.conn} else multiset{}
  }

  ghost function ClosedBy(c: RxCall): multiset<Handle> {
    if c.Closed? then multiset{c.conn} else multiset{}
  }

  ghost function Held(entries: seq<Entry>): multiset<Handle> {
    Total(entries, HeldBy)
  }

  ghost function Gained(trace: seq<RxCall>): multiset<Handle> {
    Total(trace, GainedBy)
  }

  ghost function Released(trace: seq<RxCall>): multiset<Handle> {
    Total(trace, ClosedBy)
  }

  ghost predicate Matched(entries: seq<Entry>) {
    |entries| == RX_TABLE_SIZE && forall i :: 0 <= i < RX_TABLE_SIZE ==> (entries[i].used <==> entries[i].conn.Some?)
  }

  /** Every connection accepted is held or was closed. */
  ghost predicate Sound(rx: Rx) {
    Matched(rx.entries) && Held(rx.entries) + Released(rx.trace) == Gained(rx.trace)
  }

  lemma TraceBags(trace: seq<RxCall>, c: RxCall)
    ensures Gained(trace + [c]) == Gained(trace) + GainedBy(c)
    ensures Released(trace + [c]) == Released(trace) + ClosedBy(c)
  {
    TotalAppend(trace, c, GainedBy);
    TotalAppend(trace, c, ClosedBy);
  }

  /** Reading and acking concern no ownership. */
  lemma TraceTwo(trace: seq<RxCall>, c: RxCall, d: RxCall)
    ensures Gained(trace + [c, d]) == Gained(trace) + GainedBy(c) + GainedBy(d)
    ensures Released(trace + [c, d]) == Released(trace) + ClosedBy(c) + ClosedBy(d)
  {
    TraceBags(trace, c);
    TraceBags(trace + [c], d);
    assert trace + [c, d] == (trace + [c]) + [d];
  }

  lemma Rebalance(held: multiset<Handle>, held': multiset<Handle>, gone: multiset<Handle>, come: multiset<Handle>,
                  closed: multiset<Handle>, gained: multiset<Handle>)
    requires held + closed == gained && held' + gone == held + come
    ensures held' + (closed + gone) == gained + come
  {
    assert held' + (closed + gone) == (held' + gone) + closed;
    assert gained + come == (held + come) + closed;
  }

  lemma UpdateHeld(entries: seq<Entry>, i: nat, e: Entry)
    requires i < |entries|
    ensures Held(entries[i := e]) + HeldBy(entries[i]) == Held(entries) + HeldBy(e)
  {
    TotalUpdate(entries, i, e, HeldBy);
  }

  lemma InitSound()
    ensures Sound(Init())
  {
    TotalEmpty(Init().entries, HeldBy);
  }

  lemma StoreSound(rx: Rx, conn: Handle, src: Dest)
    requires Sound(rx) && conn !in Held(rx.entries)
    ensures Sound(Store(rx, conn, src)) && Gained(Store(rx, conn, src).trace) == Gained(rx.trace) + multiset{conn}
  {
    hide Held, Released, Gained, SlotFor;
    var slot := SlotFor(rx.entries, src);
    var prior, e := rx.entries[slot], Entry(true, Some(conn), src, Wrap(rx.tick + 1));
    UpdateHeld(rx.entries, slot, e);
    Rebalance(Held(rx.entries), Held(rx.entries[slot := e]), HeldBy(prior), HeldBy(e), Released(rx.trace),
              Gained(rx.trace));
    TraceBags(rx.trace, Accepted(conn));
    if prior.used {
      HeldIsIn(rx.entries, slot);
      TraceBags(rx.trace + [Accepted(conn)], Closed(prior.conn.value));
      assert Store(rx, conn, src).trace == rx.trace + [Accepted(conn)] + [Closed(prior.conn.value)];
    } else {
      assert Store(rx, conn, src).trace == rx.trace + [Accepted(conn)];
    }
  }

  lemma HeldIsIn(entries: seq<Entry>, i: nat)
    requires i < |entries| && entries[i].conn.Some?
    ensures entries[i].conn.value in Held(entries)
  {
    TotalOfOne(entries, i, HeldBy);
  }

  lemma DropSound(rx: Rx, i: nat)
    requires Sound(rx) && i < RX_TABLE_SIZE && rx.entries[i].used
    ensures Sound(Drop(rx, i)) && Gained(Drop(rx, i).trace) == Gained(rx.trace)
  {
    hide Held, Released, Gained;
    var e := rx.entries[i].(used := false, conn := None);
    UpdateHeld(rx.entries, i, e);
    Rebalance(Held(rx.entries), Held(rx.entries[i := e]), HeldBy(rx.entries[i]), HeldBy(e), Released(rx.trace),
              Gained(rx.trace));
    TraceTwo(rx.trace, Read(HandleAt(rx, i)), Closed(HandleAt(rx, i)));
  }

  lemma SameHeld(entries: seq<Entry>, i: nat, e: Entry)
    requires i < |entries| && e.conn == entries[i].conn
    ensures Held(entries[i := e]) == Held(entries)
  {
    hide Held;
    UpdateHeld(entries, i, e);
    var held, held', same := Held(entries), Held(entries[i := e]), HeldBy(e);
    assert held' == (held' + same) - same;
    assert held == (held + same) - same;
  }

  lemma TakeSound(rx: Rx, i: nat)
    requires Sound(rx) && i < RX_TABLE_SIZE
    ensures Sound(Take(rx, i)) && Gained(Take(rx, i).trace) == Gained(rx.trace)
  {
    hide Held, Released, Gained;
    SameHeld(rx.entries, i, rx.entries[i].(lastActive := Wrap(rx.tick + 1)));
    TraceTwo(rx.trace, Read(HandleAt(rx, i)), Acked(HandleAt(rx, i)));
  }

  lemma PassSound(rx: Rx, i: nat)
    requires Sound(rx) && i < RX_TABLE_SIZE
    ensures Sound(Pass(rx, i)) && Gained(Pass(rx, i).trace) == Gained(rx.trace)
  {
    hide Held, Released, Gained;
    TraceBags(rx.trace, Read(HandleAt(rx, i)));
  }

  /** Polling keeps the ledger balanced and accepts nothing. */
  lemma {:induction false} PollSound(rx: Rx, start: nat, n: nat, maxLen: nat, inboxes: seq<Inbox>)
    requires Sound(rx) && |inboxes| == RX_TABLE_SIZE && n <= RX_TABLE_SIZE
    ensures var r := Poll(rx, start, n, maxLen, inboxes).0;
            Sound(r) && Gained(r.trace) == Gained(rx.trace)
    decreases RX_TABLE_SIZE - n
  {
    hide Held, Released, Gained, Drop, Take, Pass;
    if n < RX_TABLE_SIZE {
      var i := Turn(start, n);
      if !rx.entries[i].used {
        PollSound(rx, start, n + 1, maxLen, inboxes);
      } else {
        var code := ReadCode(inboxes[i], maxLen);
        if code == OK {
          TakeSound(rx, i);
        } else if code == TIMEOUT {
          PassSound(rx, i);
          PollSound(Pass(rx, i), start, n + 1, maxLen, inboxes);
        } else {
          DropSound(rx, i);
          PollSound(Drop(rx, i), start, n + 1, maxLen, inboxes);
        }
      }
    }
  }

  lemma {:induction false} CloseAllReleases(entries: seq<Entry>, n: nat)
    requires n <= |entries| && (forall i :: 0 <= i < |entries| ==> (entries[i].used <==> entries[i].conn.Some?))
    ensures Released(CloseAllCalls(entries, n)) == Total(entries[..n], HeldBy)
    ensures Gained(CloseAllCalls(entries, n)) == multiset{}
  {
    hide CloseAllCalls, HeldBy, Released, Gained, Total;
    if n == 0 {
      NoCloses(entries);
    } else {
      CloseAllReleases(entries, n - 1);
      CloseAllStep(entries, n);
    }
  }

  lemma NoCloses(entries: seq<Entry>)
    ensures Released(CloseAllCalls(entries, 0)) == multiset{} && Gained(CloseAllCalls(entries, 0)) == multiset{}
    ensures Total(entries[..0], HeldBy) == multiset{}
  {
  }

  /** The `n`-th slot's close releases exactly what that slot held. */
  lemma CloseAllStep(entries: seq<Entry>, n: nat)
    requires 0 < n <= |entries| && (entries[n - 1].used <==> entries[n - 1].conn.Some?)
    ensures Released(CloseAllCalls(entries, n)) == Released(CloseAllCalls(entries, n - 1)) + HeldBy(entries[n - 1])
    ensures Gained(CloseAllCalls(entries, n)) == Gained(CloseAllCalls(entries, n - 1))
    ensures Total(entries[..n], HeldBy) == Total(entries[..n - 1], HeldBy) + HeldBy(entries[n - 1])
  {
    hide Total, Released, Gained;
    var e, calls := entries[n - 1], CloseAllCalls(entries, n - 1);
    assert entries[..n] == entries[..n - 1] + [e];
    TotalAppend(entries[..n - 1], e, HeldBy);
    if e.used {
      TraceBags(calls, Closed(e.conn.value));
    } else {
      assert CloseAllCalls(entries, n) == calls;
    }
  }

  lemma CleanupSound(rx: Rx)
    requires Sound(rx)
    ensures Sound(Cleanup(rx)) && Held(Cleanup(rx).entries) == multiset{}
    ensures Gained(Cleanup(rx).trace) == Gained(rx.trace)
  {
    hide CloseAllCalls;
    var calls := CloseAllCalls(rx.entries, RX_TABLE_SIZE);
    CloseAllReleases(rx.entries, RX_TABLE_SIZE);
    assert rx.entries[..RX_TABLE_SIZE] == rx.entries;
    TotalConcat(rx.trace, calls, GainedBy);
    TotalConcat(rx.trace, calls, ClosedBy);
    TotalEmpty(Cleanup(rx).entries, HeldBy);
  }

  // ----- Whole runs -----

  datatype Op = Receive(around: Surroundings) | CleanUp

  ghost predicate Arrives(ops: seq<Op>, k: int, h: Handle) {
    0 <= k < |ops| && ops[k].Receive? && ops[k].around.arrival.NewConn? && ops[k].around.arrival.conn == h
  }

  /** Every call has an inbox per slot, and libcsp accepts no connection twice. */
  ghost predicate Plausible(ops: seq<Op>) {
    && (forall k :: 0 <= k < |ops| && ops[k].Receive? ==> |ops[k].around.inboxes| == RX_TABLE_SIZE)
    && (forall j, k, h :: Arrives(ops, j, h) && Arrives(ops, k, h) ==> j == k)
  }

  lemma Earlier(ops: seq<Op>)
    requires Plausible(ops) && ops != []
    ensures Plausible(ops[..|ops| - 1])
    ensures forall k, h :: Arrives(ops[..|ops| - 1], k, h) ==> Arrives(ops, k, h) && !Arrives(ops, |ops| - 1, h)
  {
    var before := ops[..|ops| - 1];
    assert forall k :: 0 <= k < |before| ==> before[k] == ops[k];
    assert forall k, h :: Arrives(before, k, h) ==> Arrives(ops, k, h);
  }

  ghost function Run(ops: seq<Op>): (rx: Rx)
    requires Plausible(ops)
    ensures Shaped(rx)
  {
    if ops == [] then Init()
    else
      Earlier(ops);
      var rx := Run(ops[..|ops| - 1]);
      match ops[|ops| - 1]
      case Receive(s) => Recv(rx, s).0
      case CleanUp => Cleanup(rx)
  }

  /** A call accepts at most its arrival. */
  lemma RecvSound(rx: Rx, s: Surroundings)
    requires Sound(rx) && |s.inboxes| == RX_TABLE_SIZE
    requires s.arrival.NewConn? ==> s.arrival.conn !in Gained(rx.trace)
    ensures var r := Recv(rx, s).0;
            && Sound(r)
            && (Gained(r.trace) == Gained(rx.trace)
                || (s.arrival.NewConn? && Gained(r.trace) == Gained(rx.trace) + multiset{s.arrival.conn}))
  {
    hide Store, Poll, Held, Gained, Released;
    if s.arrival.NewConn? {
      StoreSound(rx, s.arrival.conn, s.arrival.src);
      var rx1 := Store(rx, s.arrival.conn, s.arrival.src);
      PollSound(rx1, rx1.tick % RX_TABLE_SIZE, 0, s.maxLen, s.inboxes);
    } else {
      PollSound(rx, rx.tick % RX_TABLE_SIZE, 0, s.maxLen, s.inboxes);
    }
  }

  lemma {:induction false} RunSound(ops: seq<Op>)
    requires Plausible(ops)
    ensures Sound(Run(ops))
    ensures forall h :: Gained(Run(ops).trace)[h] <= 1
    ensures forall h :: h in Gained(Run(ops).trace) ==> exists k :: Arrives(ops, k, h)
  {
    hide Sound, Gained, Recv, Cleanup;
    if ops == [] {
      InitSound();
      EmptyTrace();
    } else {
      Earlier(ops);
      var before, n := ops[..|ops| - 1], |ops| - 1;
      RunSound(before);
      var rx := Run(before);
      match ops[n] {
        case Receive(s) =>
          if s.arrival.NewConn? {
            NotYet(before, ops, s.arrival.conn);
          }
          RecvSound(rx, s);
        case CleanUp =>
          CleanupSound(rx);
      }
      forall h | h in Gained(Run(ops).trace)
        ensures exists k :: Arrives(ops, k, h)
      {
        if h in Gained(rx.trace) {
          var k :| Arrives(before, k, h);
          assert Arrives(ops, k, h);
        } else {
          assert Arrives(ops, n, h);
        }
      }
    }
  }

  /** The last arrival was not accepted before. */
  lemma NotYet(before: seq<Op>, ops: seq<Op>, h: Handle)
    requires Plausible(ops) && ops != [] && before == ops[..|ops| - 1] && Arrives(ops, |ops| - 1, h)
    ensures !exists k :: Arrives(before, k, h)
  {
    forall k
      ensures !Arrives(before, k, h)
    {
      assert Arrives(before, k, h) ==> Arrives(ops, k, h);
    }
  }

  lemma EmptyTrace()
    ensures Gained(Init().trace) == multiset{}
  {
  }

  /**
   * Exactly-once close: in every run, an accepted connection is held by exactly one used slot
   * and not closed, or held by none and closed exactly once; cleanup closes all that is held.
   */
  lemma ExactlyOnceClose(ops: seq<Op>, h: Handle)
    requires Plausible(ops)
    ensures var rx := Run(ops);
            if h !in Gained(rx.trace) then
              Released(rx.trace)[h] == 0 && (forall i :: !HeldAt(rx, i, h))
            else
              || (Released(rx.trace)[h] == 1 && (forall i :: !HeldAt(rx, i, h)))
              || (Released(rx.trace)[h] == 0 && exists i :: HeldAt(rx, i, h) && forall j :: HeldAt(rx, j, h) ==> j == i)
    ensures ops != [] && ops[|ops| - 1].CleanUp? ==> Released(Run(ops).trace)[h] == Gained(Run(ops).trace)[h]
    ensures Separate(Run(ops).entries)
  {
    RunSound(ops);
    var rx := Run(ops);
    SlotsApart(rx, h);
    if ops != [] && ops[|ops| - 1].CleanUp? {
      Earlier(ops);
      RunSound(ops[..|ops| - 1]);
      CleanupSound(Run(ops[..|ops| - 1]));
    }
    forall i, j | 0 <= i < j < RX_TABLE_SIZE && rx.entries[i].used && rx.entries[j].used
      ensures rx.entries[i].conn != rx.entries[j].conn
    {
      SlotsApart(rx, rx.entries[i].conn.value);
      assert HeldAt(rx, i, rx.entries[i].conn.value);
      assert rx.entries[i].conn == rx.entries[j].conn ==> HeldAt(rx, j, rx.entries[i].conn.value);
    }
  }

  lemma SlotsApart(rx: Rx, h: Handle)
    requires Sound(rx) && Gained(rx.trace)[h] <= 1
    ensures Held(rx.entries)[h] + Released(rx.trace)[h] == Gained(rx.trace)[h]
    ensures forall i, j :: HeldAt(rx, i, h) && HeldAt(rx, j, h) ==> i == j
    ensures h in Held(rx.entries) <==> exists i :: HeldAt(rx, i, h)
  {
    assert (Held(rx.entries) + Released(rx.trace))[h] == Gained(rx.trace)[h];
    forall i | HeldAt(rx, i, h)
      ensures h in Held(rx.entries)
    {
      TotalOfOne(rx.entries, i, HeldBy);
    }
    forall i, j | HeldAt(rx, i, h) && HeldAt(rx, j, h)
      ensures i == j
    {
      if i < j {
        TotalOfTwo(rx.entries, i, j, HeldBy);
      } else if j < i {
        TotalOfTwo(rx.entries, j, i, HeldBy);
      }
    }
    if h in Held(rx.entries) {
      var i := TotalHolder(rx.entries, h, HeldBy);
      assert HeldAt(rx, i, h);
    }
  }

  /** With the connections kept apart, one call reads each of them at most once. */
  lemma EachReadAtMostOnce(ops: seq<Op>, s: Surroundings)
    requires Plausible(ops + [Receive(s)]) && Plausible(ops) && |s.inboxes| == RX_TABLE_SIZE
    ensures var before, after := Run(ops).trace, Recv(Run(ops), s).0.trace;
            && before <= after
            && (forall x, y :: |before| <= x < y < |after| && after[x].Read? && after[y].Read? ==> after[x] != after[y])
  {
    hide Poll, Total;
    var all, n := ops + [Receive(s)], |ops|;
    assert all[..n] == ops && all[n] == Receive(s);
    Earlier(all);
    RunSound(ops);
    var rx := Run(ops);
    ExactlyOnceClose(ops, 0);
    if rx.initialized && !(s.arrival.AcceptFails? && s.arrival.code != TIMEOUT) {
      var rx1 := rx;
      if s.arrival.NewConn? {
        NotYet(ops, all, s.arrival.conn);
        assert s.arrival.conn !in Gained(rx.trace);
        StoreApart(rx, s.arrival.conn, s.arrival.src);
        rx1 := Store(rx, s.arrival.conn, s.arrival.src);
      }
      PollReadsOnce(rx1, rx1.tick % RX_TABLE_SIZE, 0, s.maxLen, s.inboxes);
    }
  }

  lemma StoreApart(rx: Rx, conn: Handle, src: Dest)
    requires Sound(rx) && Separate(rx.entries) && conn !in Gained(rx.trace)
    ensures Separate(Store(rx, conn, src).entries)
    ensures var trace := Store(rx, conn, src).trace;
            rx.trace <= trace && forall x :: |rx.trace| <= x < |trace| ==> !trace[x].Read?
  {
    hide SlotFor;
    forall i | 0 <= i < RX_TABLE_SIZE && rx.entries[i].used
      ensures rx.entries[i].conn != Some(conn)
    {
      HeldIsIn(rx.entries, i);
    }
  }
}
