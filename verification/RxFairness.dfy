/** The rotating poll order starves no peer, and reads each connection at most once per call. */
module RxFairness {
  import opened Base
  import opened RxTable

  /** Slot `i` holds connection `conn`. */
  predicate HeldAt(rx: Rx, i: nat, conn: Handle) {
    i < |rx.entries| && rx.entries[i].used && rx.entries[i].conn == Some(conn)
  }

  /** A poll that has slot `i` ahead of it with a fitting bundle takes one, there or before. */
  lemma {:induction false} PollTakes(rx: Rx, start: nat, n: nat, m: nat, maxLen: nat, inboxes: seq<Inbox>, conn: Handle)
    requires Shaped(rx) && |inboxes| == RX_TABLE_SIZE && n <= m < RX_TABLE_SIZE
    requires HeldAt(rx, Turn(start, m), conn) && Fits(inboxes[Turn(start, m)], maxLen)
    ensures var (rx', taken) := Poll(rx, start, n, maxLen, inboxes);
            && taken.Some? && HeldAt(rx', Turn(start, m), conn) && rx'.tick == Wrap(rx.tick + 1)
            && rx'.initialized == rx.initialized
            && (n == m ==>
                  taken.value == Taken(Turn(start, m), inboxes[Turn(start, m)].data, rx.entries[Turn(start, m)].src))
    decreases m - n
  {
    hide Turn, Wrap;
    var i := Turn(start, n);
    if n < m {
      TurnsDiffer(start, n, m);
      if !rx.entries[i].used {
        PollTakes(rx, start, n + 1, m, maxLen, inboxes, conn);
      } else if ReadCode(inboxes[i], maxLen) == TIMEOUT {
        PollTakes(Pass(rx, i), start, n + 1, m, maxLen, inboxes, conn);
      } else if ReadCode(inboxes[i], maxLen) != OK {
        PollTakes(Drop(rx, i), start, n + 1, m, maxLen, inboxes, conn);
      }
    }
  }

  lemma TurnsDiffer(start: nat, n: nat, m: nat)
    requires n < m < RX_TABLE_SIZE
    ensures Turn(start, n) != Turn(start, m)
  {
  }

  /** Every slot has a turn. */
  lemma TurnOf(start: nat, i: nat) returns (m: nat)
    requires start < RX_TABLE_SIZE && i < RX_TABLE_SIZE
    ensures m < RX_TABLE_SIZE && Turn(start, m) == i && (start == i ==> m == 0)
  {
    m := (i + RX_TABLE_SIZE - start) % RX_TABLE_SIZE;
  }

  lemma {:induction false} SomeUsed(entries: seq<Entry>, i: nat)
    requires i < |entries| && entries[i].used
    ensures CountUsed(entries) > 0
  {
    if i < |entries| - 1 {
      SomeUsed(entries[..|entries| - 1], i);
    }
  }

  /** One call while connection `conn` of slot `i` has a fitting bundle and nobody connects. */
  lemma ReadyCallSucceeds(rx: Rx, s: Surroundings, i: nat, conn: Handle)
    requires Shaped(rx) && rx.initialized && |s.inboxes| == RX_TABLE_SIZE && s.arrival.Nobody?
    requires HeldAt(rx, i, conn) && Fits(s.inboxes[i], s.maxLen)
    ensures var (rx', code, taken) := Recv(rx, s);
            && code == OK && taken.Some? && rx'.initialized && HeldAt(rx', i, conn)
            && rx'.tick % RX_TABLE_SIZE == (rx.tick + 1) % RX_TABLE_SIZE
            && (rx.tick % RX_TABLE_SIZE == i ==> taken.value.slot == i && taken.value.data == s.inboxes[i].data)
  {
    hide Turn, Wrap, Poll, CountUsed;
    var start := rx.tick % RX_TABLE_SIZE;
    var m := TurnOf(start, i);
    SomeUsed(rx.entries, i);
    NextTurn(rx.tick);
    PollTakes(rx, start, 0, m, s.maxLen, s.inboxes, conn);
  }

  /** The wrap of the tick does not disturb the rotation: 8 divides 2^32. */
  lemma NextTurn(tick: uint32)
    ensures Wrap(tick + 1) % RX_TABLE_SIZE == (tick + 1) % RX_TABLE_SIZE
  {
  }

  lemma TurnsAdd(tick: nat, n: nat, later: nat)
    requires later % RX_TABLE_SIZE == (tick + n) % RX_TABLE_SIZE
    ensures (later + 1) % RX_TABLE_SIZE == (tick + n + 1) % RX_TABLE_SIZE
  {
  }

  /** The table after the first `n` calls. */
  ghost function After(rx: Rx, calls: seq<Surroundings>, n: nat): (r: Rx)
    requires Shaped(rx) && n <= |calls| && (forall k :: 0 <= k < |calls| ==> |calls[k].inboxes| == RX_TABLE_SIZE)
    ensures Shaped(r)
  {
    if n == 0 then rx else Recv(After(rx, calls, n - 1), calls[n - 1]).0
  }

  ghost predicate AlwaysReady(calls: seq<Surroundings>, i: nat) {
    forall k :: 0 <= k < |calls| ==>
      && |calls[k].inboxes| == RX_TABLE_SIZE && i < RX_TABLE_SIZE
      && calls[k].arrival.Nobody? && Fits(calls[k].inboxes[i], calls[k].maxLen)
  }

  lemma {:induction false} StaysReady(rx: Rx, calls: seq<Surroundings>, i: nat, conn: Handle, n: nat)
    requires Shaped(rx) && rx.initialized && AlwaysReady(calls, i) && HeldAt(rx, i, conn) && n <= |calls|
    ensures var r := After(rx, calls, n);
            r.initialized && HeldAt(r, i, conn) && r.tick % RX_TABLE_SIZE == (rx.tick + n) % RX_TABLE_SIZE
  {
    hide Recv, Fits, HeldAt;
    if n > 0 {
      StaysReady(rx, calls, i, conn, n - 1);
      ReadyCallSucceeds(After(rx, calls, n - 1), calls[n - 1], i, conn);
      TurnsAdd(rx.tick, n - 1, After(rx, calls, n - 1).tick);
    }
  }

  lemma ServedAt(tick: nat, i: nat) returns (k: nat)
    requires i < RX_TABLE_SIZE
    ensures k < RX_TABLE_SIZE && (tick + k) % RX_TABLE_SIZE == i
  {
    k := (i + RX_TABLE_SIZE - tick % RX_TABLE_SIZE) % RX_TABLE_SIZE;
  }

  /**
   * Fairness: as long as nobody connects, every call succeeds while some connection always has
   * a fitting bundle, and within any 8 consecutive calls each such connection is served,
   * wherever the tick stands, its wrap included.
   */
  lemma ServedWithinEightCalls(rx: Rx, calls: seq<Surroundings>, i: nat, conn: Handle) returns (k: nat)
    requires Shaped(rx) && rx.initialized && AlwaysReady(calls, i) && |calls| == RX_TABLE_SIZE && HeldAt(rx, i, conn)
    ensures k < RX_TABLE_SIZE
    ensures var r := Recv(After(rx, calls, k), calls[k]);
            && r.1 == OK && r.2.Some? && r.2.value.slot == i && HeldAt(After(rx, calls, k), i, conn)
            && r.2.value.data == calls[k].inboxes[i].data
  {
    hide Recv, Fits;
    k := ServedAt(rx.tick, i);
    StaysReady(rx, calls, i, conn, k);
    ReadyCallSucceeds(After(rx, calls, k), calls[k], i, conn);
  }

  // ----- Each connection is read at most once per call -----

  /** The reads recorded in `trace` from `from` on are of the slots of turns `a` to `b`, each at most once, in turn. */
  ghost predicate ReadsInTurn(entries: seq<Entry>, trace: seq<RxCall>, from: nat, start: nat, a: nat, b: nat)
    requires |entries| == RX_TABLE_SIZE
  {
    && from <= |trace|
    && (forall x :: from <= x < |trace| && trace[x].Read? ==>
          exists n :: a <= n < b && ReadsTurn(entries, trace[x], start, n))
  }

  ghost predicate ReadsTurn(entries: seq<Entry>, call: RxCall, start: nat, n: nat)
    requires |entries| == RX_TABLE_SIZE
  {
    var e := entries[Turn(start, n)];
    e.used && e.conn.Some? && call == Read(e.conn.value)
  }

  /** Used slots hold a connection, and no two the same one. */
  ghost predicate Separate(entries: seq<Entry>) {
    && |entries| == RX_TABLE_SIZE
    && (forall i :: 0 <= i < RX_TABLE_SIZE && entries[i].used ==> entries[i].conn.Some?)
    && (forall i, j :: 0 <= i < j < RX_TABLE_SIZE && entries[i].used && entries[j].used ==>
          entries[i].conn != entries[j].conn)
  }

  /** The reads recorded from `from` on are of the connections of turns `n` and later, none twice. */
  ghost predicate ReadsOnce(entries: seq<Entry>, trace: seq<RxCall>, from: nat, start: nat, n: nat)
    requires |entries| == RX_TABLE_SIZE
  {
    && ReadsInTurn(entries, trace, from, start, n, RX_TABLE_SIZE)
    && (forall x, y :: from <= x < y < |trace| && trace[x].Read? && trace[y].Read? ==> trace[x] != trace[y])
  }

  /** Skipping an unused slot. */
  lemma SkippedOnce(entries: seq<Entry>, trace: seq<RxCall>, from: nat, start: nat, n: nat)
    requires |entries| == RX_TABLE_SIZE && ReadsOnce(entries, trace, from, start, n + 1)
    ensures ReadsOnce(entries, trace, from, start, n)
  {
    hide ReadsTurn;
  }

  /** The slot of turn `n` was read and the poll goes on. */
  lemma PassedOnce(rx: Rx, next: Rx, start: nat, n: nat, trace: seq<RxCall>)
    requires Separate(rx.entries) && n < RX_TABLE_SIZE && rx.entries[Turn(start, n)].used
    requires next == Pass(rx, Turn(start, n)) || next == Drop(rx, Turn(start, n))
    requires next.trace <= trace && ReadsOnce(next.entries, trace, |next.trace|, start, n + 1)
    ensures rx.trace <= trace && ReadsOnce(rx.entries, trace, |rx.trace|, start, n)
  {
    hide Turn, ReadsTurn, Separate, Pass, Drop;
    ReadOfTurn(rx, start, n);
    LaterTurns(rx, next, start, n, trace);
  }

  lemma ReadOfTurn(rx: Rx, start: nat, n: nat)
    requires Separate(rx.entries) && n < RX_TABLE_SIZE && rx.entries[Turn(start, n)].used
    ensures ReadsTurn(rx.entries, Read(HandleAt(rx, Turn(start, n))), start, n)
  {
  }

  lemma TakenOnce(rx: Rx, start: nat, n: nat)
    requires Separate(rx.entries) && n < RX_TABLE_SIZE && rx.entries[Turn(start, n)].used
    ensures var trace := Take(rx, Turn(start, n)).trace;
            rx.trace <= trace && ReadsOnce(rx.entries, trace, |rx.trace|, start, n)
  {
    hide Turn, ReadsTurn;
    ReadOfTurn(rx, start, n);
  }

  /** What was read from turn `n` on: distinct live connections. */
  lemma {:induction false} PollReadsOnce(rx: Rx, start: nat, n: nat, maxLen: nat, inboxes: seq<Inbox>)
    requires Separate(rx.entries) && |inboxes| == RX_TABLE_SIZE && n <= RX_TABLE_SIZE
    ensures var rx' := Poll(rx, start, n, maxLen, inboxes).0;
            rx.trace <= rx'.trace && ReadsOnce(rx.entries, rx'.trace, |rx.trace|, start, n)
    decreases RX_TABLE_SIZE - n
  {
    hide Poll, ReadsOnce, Take, Pass, Drop;
    if n == RX_TABLE_SIZE {
      PollOver(rx, start, maxLen, inboxes);
      NoneRead(rx, start);
    } else {
      PollTurn(rx, start, n, maxLen, inboxes);
      var i := Turn(start, n);
      var code := ReadCode(inboxes[i], maxLen);
      if !rx.entries[i].used {
        PollReadsOnce(rx, start, n + 1, maxLen, inboxes);
        SkippedOnce(rx.entries, Poll(rx, start, n + 1, maxLen, inboxes).0.trace, |rx.trace|, start, n);
      } else if code == OK {
        TakenOnce(rx, start, n);
      } else {
        var next := if code == TIMEOUT then Pass(rx, i) else Drop(rx, i);
        StaysSeparate(rx, i);
        PollReadsOnce(next, start, n + 1, maxLen, inboxes);
        PassedOnce(rx, next, start, n, Poll(next, start, n + 1, maxLen, inboxes).0.trace);
      }
    }
  }

  lemma NoneRead(rx: Rx, start: nat)
    requires Separate(rx.entries)
    ensures ReadsOnce(rx.entries, rx.trace, |rx.trace|, start, RX_TABLE_SIZE)
  {
  }

  lemma StaysSeparate(rx: Rx, i: nat)
    requires Separate(rx.entries) && i < RX_TABLE_SIZE
    ensures Separate(Pass(rx, i).entries) && Separate(Drop(rx, i).entries)
  {
  }

  /** Reads of later turns are of other connections than turn `n`'s. */
  lemma LaterTurns(rx: Rx, next: Rx, start: nat, n: nat, trace: seq<RxCall>)
    requires Separate(rx.entries) && n < RX_TABLE_SIZE && rx.entries[Turn(start, n)].used
    requires next == Pass(rx, Turn(start, n)) || next == Drop(rx, Turn(start, n))
    requires next.trace <= trace && ReadsInTurn(next.entries, trace, |next.trace|, start, n + 1, RX_TABLE_SIZE)
    ensures forall x :: |next.trace| <= x < |trace| && trace[x].Read? ==>
              && (exists k :: n < k < RX_TABLE_SIZE && ReadsTurn(rx.entries, trace[x], start, k))
              && trace[x] != Read(HandleAt(rx, Turn(start, n)))
    ensures rx.trace <= trace && trace[|rx.trace|] == Read(HandleAt(rx, Turn(start, n)))
    ensures forall x :: |rx.trace| < x < |next.trace| ==> !trace[x].Read?
  {
    hide Turn;
    forall x | |next.trace| <= x < |trace| && trace[x].Read?
      ensures exists k :: n < k < RX_TABLE_SIZE && ReadsTurn(rx.entries, trace[x], start, k)
      ensures trace[x] != Read(HandleAt(rx, Turn(start, n)))
    {
      var k :| n + 1 <= k < RX_TABLE_SIZE && ReadsTurn(next.entries, trace[x], start, k);
      TurnsDiffer(start, n, k);
      assert ReadsTurn(rx.entries, trace[x], start, k);
    }
  }
}
