/**
 * The C receive table behind `cspcl_recv_bundle` (src/cspcl.c:731-949): eight inbound
 * connections, the least recently active one evicted, polled in a rotating order.
 */
module RxTable {
  import opened Base
  import opened Search

  datatype Entry = Entry(used: bool, conn: Option<Handle>, src: Dest, lastActive: uint32)

  /** What the receive side asked of libcsp. */
  datatype RxCall = Accepted(conn: Handle) | Read(conn: Handle) | Acked(conn: Handle) | Closed(conn: Handle)

  datatype Rx = Rx(initialized: bool, entries: seq<Entry>, tick: uint32, trace: seq<RxCall>)

  /** The outcome of `cspcl_accept_conn`. */
  datatype Arrival = Nobody | NewConn(conn: Handle, src: Dest) | AcceptFails(code: Code)

  /** What reading one connection yields. */
  datatype Inbox = Arrived(data: seq<byte>) | Silent | Garbled

  /** A bundle taken from a slot. */
  datatype Taken = Taken(slot: nat, data: seq<byte>, src: Dest)

  const EMPTY := Entry(false, None, Dest(0, 0), 0)

  predicate Shaped(rx: Rx) {
    |rx.entries| == RX_TABLE_SIZE
  }

  function Init(): Rx {
    Rx(true, seq(RX_TABLE_SIZE, _ => EMPTY), 0, [])
  }

  function From(src: Dest): Entry -> bool {
    (e: Entry) => e.used && e.src == src
  }

  function Vacant(): Entry -> bool {
    (e: Entry) => !e.used
  }

  function Activity(entries: seq<Entry>): (keys: seq<int>)
    ensures |keys| == |entries|
    ensures forall i :: 0 <= i < |keys| ==> keys[i] == entries[i].lastActive
  {
    seq(|entries|, i requires 0 <= i < |entries| => entries[i].lastActive)
  }

  /** The slot a connection from `src` goes to: the peer's own, a free one, or the least active. */
  function SlotFor(entries: seq<Entry>, src: Dest): (slot: nat)
    requires |entries| == RX_TABLE_SIZE
    ensures slot < RX_TABLE_SIZE
  {
    var known := First(entries, From(src));
    if known < RX_TABLE_SIZE then known
    else
      var free := First(entries, Vacant());
      if free < RX_TABLE_SIZE then free else ArgMin(Activity(entries))
  }

  /** `cspcl_rx_table_store`. */
  function Store(rx: Rx, conn: Handle, src: Dest): (r: Rx)
    requires Shaped(rx)
    ensures Shaped(r)
  {
    var slot := SlotFor(rx.entries, src);
    var prior := rx.entries[slot];
    var known := First(rx.entries, From(src)) < RX_TABLE_SIZE;
    var replaced := prior.used && prior.conn.Some? && !(known && prior.conn.value == conn);
    var closed := if replaced then [Closed(prior.conn.value)] else [];
    var tick := Wrap(rx.tick + 1);
    rx.(entries := rx.entries[slot := Entry(true, Some(conn), src, tick)],
        tick := tick, trace := rx.trace + [Accepted(conn)] + closed)
  }

  /** `cspcl_recv_from_conn_timeout`: the code it returns for what it read. */
  function ReadCode(inbox: Inbox, maxLen: nat): Code {
    match inbox
    case Silent => TIMEOUT
    case Garbled => SFP
    case Arrived(data) => if data == [] then CSP_RECV else if |data| > maxLen then NO_MEMORY else OK
  }

  /** A bundle is waiting, and fits the caller's buffer. */
  predicate Fits(inbox: Inbox, maxLen: nat) {
    inbox.Arrived? && 0 < |inbox.data| <= maxLen
  }

  /** The `n`-th slot polled when polling starts at `start`. */
  function Turn(start: nat, n: nat): (i: nat)
    ensures i < RX_TABLE_SIZE
  {
    (start + n) % RX_TABLE_SIZE
  }

  function HandleAt(rx: Rx, i: nat): Handle
    requires i < |rx.entries|
  {
    if rx.entries[i].conn.Some? then rx.entries[i].conn.value else 0
  }

  function Drop(rx: Rx, i: nat): (r: Rx)
    requires i < |rx.entries|
    ensures |r.entries| == |rx.entries|
  {
    rx.(entries := rx.entries[i := rx.entries[i].(used := false, conn := None)],
        trace := rx.trace + [Read(HandleAt(rx, i)), Closed(HandleAt(rx, i))])
  }

  function Take(rx: Rx, i: nat): (r: Rx)
    requires i < |rx.entries|
    ensures |r.entries| == |rx.entries|
  {
    var tick := Wrap(rx.tick + 1);
    rx.(entries := rx.entries[i := rx.entries[i].(lastActive := tick)], tick := tick,
        trace := rx.trace + [Read(HandleAt(rx, i)), Acked(HandleAt(rx, i))])
  }

  function Pass(rx: Rx, i: nat): (r: Rx)
    requires i < |rx.entries|
  {
    rx.(trace := rx.trace + [Read(HandleAt(rx, i))])
  }

  /** Poll the remaining turns from the `n`-th on, until one yields a bundle. */
  function Poll(rx: Rx, start: nat, n: nat, maxLen: nat, inboxes: seq<Inbox>): (r: (Rx, Option<Taken>))
    requires Shaped(rx) && n <= RX_TABLE_SIZE == |inboxes|
    ensures Shaped(r.0)
    decreases RX_TABLE_SIZE - n
  {
    if n == RX_TABLE_SIZE then (rx, None)
    else
      var i := Turn(start, n);
      if !rx.entries[i].used then Poll(rx, start, n + 1, maxLen, inboxes)
      else
        var code := ReadCode(inboxes[i], maxLen);
        if code == OK then (Take(rx, i), Some(Taken(i, inboxes[i].data, rx.entries[i].src)))
        else Poll(if code == TIMEOUT then Pass(rx, i) else Drop(rx, i), start, n + 1, maxLen, inboxes)
  }

  lemma PollTurn(rx: Rx, start: nat, n: nat, maxLen: nat, inboxes: seq<Inbox>)
    requires Shaped(rx) && n < RX_TABLE_SIZE == |inboxes|
    ensures var i := (start + n) % RX_TABLE_SIZE;
            var code := ReadCode(inboxes[i], maxLen);
            Poll(rx, start, n, maxLen, inboxes) ==
              if rx.entries[i].used && code == OK then (Take(rx, i), Some(Taken(i, inboxes[i].data, rx.entries[i].src)))
              else Poll(if !rx.entries[i].used then rx else if code == TIMEOUT then Pass(rx, i) else Drop(rx, i),
                        start, n + 1, maxLen, inboxes)
  {
  }

  lemma PollOver(rx: Rx, start: nat, maxLen: nat, inboxes: seq<Inbox>)
    requires Shaped(rx) && |inboxes| == RX_TABLE_SIZE
    ensures Poll(rx, start, RX_TABLE_SIZE, maxLen, inboxes) == (rx, None)
  {
  }

  function CountUsed(entries: seq<Entry>): nat {
    if entries == [] then 0
    else CountUsed(entries[..|entries| - 1]) + if entries[|entries| - 1].used then 1 else 0
  }

  /** One call's surroundings: who connects, the caller's buffer, and what each slot's read would find. */
  datatype Surroundings = Surroundings(arrival: Arrival, maxLen: nat, inboxes: seq<Inbox>)

  /** `cspcl_recv_bundle`. */
  function Recv(rx: Rx, s: Surroundings): (r: (Rx, Code, Option<Taken>))
    requires Shaped(rx) && |s.inboxes| == RX_TABLE_SIZE
    ensures Shaped(r.0)
  {
    if !rx.initialized then (rx, NOT_INITIALIZED, None)
    else if s.arrival.AcceptFails? && s.arrival.code != TIMEOUT then (rx, s.arrival.code, None)
    else
      var rx1 := if s.arrival.NewConn? then Store(rx, s.arrival.conn, s.arrival.src) else rx;
      if CountUsed(rx1.entries) == 0 then (rx1, TIMEOUT, None)
      else
        var (rx2, taken) := Poll(rx1, rx1.tick % RX_TABLE_SIZE, 0, s.maxLen, s.inboxes);
        (rx2, if taken.Some? then OK else TIMEOUT, taken)
  }

  /** The closes that emptying the first `n` slots makes. */
  function CloseAllCalls(entries: seq<Entry>, n: nat): seq<RxCall>
    requires n <= |entries|
  {
    if n == 0 then []
    else
      var e := entries[n - 1];
      CloseAllCalls(entries, n - 1) + if e.used && e.conn.Some? then [Closed(e.conn.value)] else []
  }

  /** The receive table's part of `cspcl_cleanup`. */
  function Cleanup(rx: Rx): (r: Rx)
    requires Shaped(rx)
    ensures Shaped(r)
  {
    rx.(initialized := false,
        entries := seq(RX_TABLE_SIZE, i requires 0 <= i < RX_TABLE_SIZE => rx.entries[i].(used := false, conn := None)),
        trace := rx.trace + CloseAllCalls(rx.entries, RX_TABLE_SIZE))
  }

  // ----- As the C code runs it -----

  class Receiver {
    var initialized: bool
    const entries: array<Entry>
    var tick: uint32
    ghost var trace: seq<RxCall>

    ghost predicate Valid()
      reads this
    {
      entries.Length == RX_TABLE_SIZE
    }

    ghost function Value(): (rx: Rx)
      requires Valid()
      reads this, entries
      ensures Shaped(rx)
    {
      Rx(initialized, entries[..], tick, trace)
    }

    constructor ()
      ensures Valid() && fresh(entries)
      ensures Value() == Init()
    {
      entries := new Entry[RX_TABLE_SIZE](_ => EMPTY);
      initialized, tick, trace := true, 0, [];
      new;
      assert entries[..] == Init().entries;
    }

    /** The scans of `cspcl_rx_table_store`. */
    method FindSlot(src: Dest) returns (slot: nat, known: bool)
      requires Valid()
      ensures slot == SlotFor(entries[..], src)
      ensures known <==> First(entries[..], From(src)) < RX_TABLE_SIZE
    {
      slot, known := RX_TABLE_SIZE, false;
      for i := 0 to RX_TABLE_SIZE
        invariant slot <= RX_TABLE_SIZE
        invariant forall j :: 0 <= j < i ==> !From(src)(entries[..][j])
        invariant slot < RX_TABLE_SIZE ==> slot < i && Vacant()(entries[..][slot])
        invariant forall j :: 0 <= j < i && j < slot ==> !Vacant()(entries[..][j])
      {
        if entries[i].used && entries[i].src == src {
          assert From(src)(entries[..][i]);
          return i, true;
        }
        if !entries[i].used && slot == RX_TABLE_SIZE {
          slot := i;
        }
      }
      assert First(entries[..], From(src)) == RX_TABLE_SIZE;
      if slot == RX_TABLE_SIZE {
        slot := LeastActive();
      }
    }

    method LeastActive() returns (slot: nat)
      requires Valid()
      ensures slot < RX_TABLE_SIZE && slot == ArgMin(Activity(entries[..]))
    {
      slot := 0;
      for i := 1 to RX_TABLE_SIZE
        invariant slot < i
        invariant forall j :: 0 <= j < i ==> entries[slot].lastActive <= entries[j].lastActive
        invariant forall j :: 0 <= j < slot ==> entries[slot].lastActive < entries[j].lastActive
      {
        if entries[i].lastActive < entries[slot].lastActive {
          slot := i;
        }
      }
      var keys := Activity(entries[..]);
      assert forall j :: 0 <= j < RX_TABLE_SIZE ==> keys[j] == entries[j].lastActive;
    }

    method TableStore(conn: Handle, src: Dest)
      requires Valid()
      modifies this`tick, this`trace, entries
      ensures Value() == Store(old(Value()), conn, src)
    {
      ghost var rx := Value();
      var slot, known := FindSlot(src);
      trace := trace + [Accepted(conn)];
      if entries[slot].used && entries[slot].conn != None && !(known && entries[slot].conn.value == conn) {
        trace := trace + [Closed(entries[slot].conn.value)];
      }
      tick := Wrap(tick + 1);
      entries[slot] := Entry(true, Some(conn), src, tick);
      assert entries[..] == Store(rx, conn, src).entries;
      assert trace == Store(rx, conn, src).trace;
    }

    method CountLive() returns (live: nat)
      requires Valid()
      ensures live == CountUsed(entries[..])
    {
      live := 0;
      for i := 0 to RX_TABLE_SIZE
        invariant live == CountUsed(entries[..i])
      {
        assert entries[..i + 1][..i] == entries[..i];
        if entries[i].used {
          live := live + 1;
        }
      }
      assert entries[..RX_TABLE_SIZE] == entries[..];
    }

    /** A bundle was read and acknowledged on slot `i`. */
    method Taking(i: nat)
      requires Valid() && i < RX_TABLE_SIZE
      modifies this`tick, this`trace, entries
      ensures Value() == Take(old(Value()), i)
    {
      ghost var rx := Value();
      trace := trace + [Read(HandleAt(rx, i)), Acked(HandleAt(rx, i))];
      tick := Wrap(tick + 1);
      entries[i] := entries[i].(lastActive := tick);
      assert entries[..] == Take(rx, i).entries;
    }

    /** The read on slot `i` failed: its connection is closed. */
    method Dropping(i: nat)
      requires Valid() && i < RX_TABLE_SIZE
      modifies this`trace, entries
      ensures Value() == Drop(old(Value()), i)
    {
      ghost var rx := Value();
      trace := trace + [Read(HandleAt(rx, i)), Closed(HandleAt(rx, i))];
      entries[i] := entries[i].(conn := None);
      entries[i] := entries[i].(used := false);
      assert entries[..] == Drop(rx, i).entries;
    }

    /** Slot `i` had nothing. */
    method Passing(i: nat)
      requires Valid() && i < RX_TABLE_SIZE
      modifies this`trace
      ensures Value() == Pass(old(Value()), i)
    {
      trace := trace + [Read(HandleAt(Value(), i))];
    }

    /** The polling loop of `cspcl_recv_bundle`. */
    method PollAll(maxLen: nat, inboxes: seq<Inbox>) returns (taken: Option<Taken>)
      requires Valid() && |inboxes| == RX_TABLE_SIZE
      modifies this`tick, this`trace, entries
      ensures (Value(), taken) == Poll(old(Value()), old(tick) % RX_TABLE_SIZE, 0, maxLen, inboxes)
    {
      hide Take, Drop, Pass, Poll;
      var start := tick % RX_TABLE_SIZE;
      ghost var result := Poll(Value(), start, 0, maxLen, inboxes);
      for n := 0 to RX_TABLE_SIZE
        invariant result == Poll(Value(), start, n, maxLen, inboxes)
      {
        ghost var rx := Value();
        PollTurn(rx, start, n, maxLen, inboxes);
        var i := (start + n) % RX_TABLE_SIZE;
        if !entries[i].used { continue; }
        var code, src := ReadCode(inboxes[i], maxLen), entries[i].src;
        if code == OK {
          Taking(i);
          return Some(Taken(i, inboxes[i].data, src));
        }
        if code != TIMEOUT {
          Dropping(i);
        } else {
          Passing(i);
        }
      }
      PollOver(Value(), start, maxLen, inboxes);
      taken := None;
    }

    /** `len` is the caller's: the size of its buffer before, that of the bundle after, or 0. */
    method RecvBundle(s: Surroundings) returns (code: Code, taken: Option<Taken>, len: nat)
      requires Valid() && |s.inboxes| == RX_TABLE_SIZE
      modifies this, entries
      ensures (Value(), code, taken) == Recv(old(Value()), s)
      ensures len == if !old(initialized) then s.maxLen else if taken.Some? then |taken.value.data| else 0
    {
      if !initialized { return NOT_INITIALIZED, None, s.maxLen; }
      if s.arrival.NewConn? {
        TableStore(s.arrival.conn, s.arrival.src);
      } else if s.arrival.AcceptFails? && s.arrival.code != TIMEOUT {
        return s.arrival.code, None, 0;
      }
      var live := CountLive();
      if live == 0 { return TIMEOUT, None, 0; }
      taken := PollAll(s.maxLen, s.inboxes);
      code := if taken.Some? then OK else TIMEOUT;
      len := if taken.Some? then |taken.value.data| else 0;
    }

    method CloseAll()
      requires Valid()
      modifies this, entries
      ensures Value() == Cleanup(old(Value()))
    {
      ghost var rx := Value();
      for i := 0 to RX_TABLE_SIZE
        invariant unchanged(`initialized) && unchanged(`tick)
        invariant trace == rx.trace + CloseAllCalls(rx.entries, i)
        invariant forall j :: 0 <= j < i ==> entries[j] == rx.entries[j].(used := false, conn := None)
        invariant forall j :: i <= j < RX_TABLE_SIZE ==> entries[j] == rx.entries[j]
      {
        if entries[i].used && entries[i].conn != None {
          trace := trace + [Closed(entries[i].conn.value)];
        }
        entries[i] := entries[i].(conn := None, used := false);
      }
      initialized := false;
      assert entries[..] == Cleanup(rx).entries;
    }
  }
}
