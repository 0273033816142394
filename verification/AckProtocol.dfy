/**
 * The delivery ack as a protocol between the sender and its peers.
 *
 * The ack carries no identifier: whatever packet arrives on the connection confirms the bundle
 * just sent (src/cspcl.c:526-545). This module lets any number of sends run over lossy
 * connections, with the receiver's and the network's steps in between, and proves that an OK
 * is nevertheless only reported for a bundle the receiver accepted.
 */
module AckProtocol {
  import opened Base
  import opened Search
  import opened P = Pool
  import opened Counting
  import S = Send
  import Lru = PoolLru

  // ----- State -----

  /**
   * One connection: what was put on it, what is still on its way, what the receiver took, and
   * the acks, which are all alike and therefore only counted.
   */
  datatype Conn = Conn(dest: Dest, sent: seq<Copy>, fwd: seq<Copy>, received: seq<Copy>,
                       bwd: nat, acksSent: nat, acksRead: nat)

  /** The one send in progress; the pool lock excludes a second one. */
  datatype Phase =
    | Idle
    | Ready(task: S.Task, attempt: nat, conn: Handle)
    | Waiting(task: S.Task, attempt: nat, conn: Handle)

  /** Where the bundle of an acknowledged send went: the `pos`-th one on connection `conn`. */
  datatype Receipt = Receipt(conn: Handle, attempt: nat, pos: nat)

  /** What a finished send returned. */
  datatype Report = Report(send: nat, task: S.Task, code: Code, receipt: Option<Receipt>)

  datatype World = World(pool: Pool, conns: map<Handle, Conn>, phase: Phase, sends: nat, log: seq<Report>)

  // ----- Steps -----

  datatype Event =
    | Start(task: S.Task, weather: Weather)
    | SfpSent
    | SfpFails(ret: CspResult, leaked: bool, weather: Weather)
    | AckRead
    | AckTimesOut(weather: Weather)
    | Receive(at: Handle, acked: bool)
    | Lose(at: Handle, i: nat)
    | LoseAck(at: Handle)

  function Init(maxAgeMs: uint32): World {
    World(P.Init(maxAgeMs), map[], Idle, 0, [])
  }

  /** libcsp hands out connections it has not handed out before. */
  predicate Fresh(w: World, weather: Weather) {
    weather.connected.Some? ==> weather.connected.value !in w.conns
  }

  ghost predicate Enabled(w: World, e: Event) {
    Shaped(w.pool) &&
    match e
    case Start(_, weather) => w.phase.Idle? && Fresh(w, weather)
    case SfpSent => w.phase.Ready? && w.phase.conn in w.conns
    case SfpFails(ret, _, weather) => w.phase.Ready? && w.phase.conn in w.conns && ret != CspOk && Fresh(w, weather)
    case AckRead => w.phase.Waiting? && w.phase.conn in w.conns && w.conns[w.phase.conn].bwd > 0
    case AckTimesOut(weather) => w.phase.Waiting? && Fresh(w, weather)
    case Receive(h, _) => h in w.conns && w.conns[h].fwd != []
    case Lose(h, i) => h in w.conns && i < |w.conns[h].fwd|
    case LoseAck(h) => h in w.conns && w.conns[h].bwd > 0
  }

  /** The copy that the current attempt puts on the wire. */
  function Current(w: World): Copy
    requires !w.phase.Idle?
  {
    Copy(w.sends, w.phase.attempt, w.phase.task.data)
  }

  function Put(c: Conn, m: Copy): Conn {
    c.(sent := c.sent + [m], fwd := c.fwd + [m])
  }

  function Finish(w: World, pool: Pool, t: S.Task, code: Code, receipt: Option<Receipt>): World {
    w.(pool := pool, phase := Idle, sends := w.sends + 1, log := w.log + [Report(w.sends, t, code, receipt)])
  }

  /** Go on with the connection obtained, or report the failure. */
  function Settle(w: World, t: S.Task, r: (Pool, S.Phase)): World {
    match r.1
    case Finished(code) => Finish(w, r.0, t, code, None)
    case Exchanging(h, attempt) =>
      w.(pool := r.0, phase := Ready(t, attempt, h),
         conns := if h in w.conns then w.conns else w.conns[h := Conn(t.dest, [], [], [], 0, 0, 0)])
  }

  /** The receiver reassembles the next bundle, hands it on, and acks it if it can. */
  function Accept(c: Conn, acked: bool): Conn
    requires c.fwd != []
  {
    var c' := c.(fwd := c.fwd[1..], received := c.received + [c.fwd[0]]);
    if acked then c'.(bwd := c.bwd + 1, acksSent := c.acksSent + 1) else c'
  }

  ghost function Apply(w: World, e: Event): World
    requires Enabled(w, e)
  {
    match e
    case Start(t, weather) => Settle(w, t, S.Acquire(w.pool, t, 0, CspTimedOut, weather))
    case SfpSent =>
      var ph := w.phase;
      w.(pool := S.Called(w.pool, SfpSend(ph.conn, ph.task.data, CspOk)),
         phase := Waiting(ph.task, ph.attempt, ph.conn),
         conns := w.conns[ph.conn := Put(w.conns[ph.conn], Current(w))])
    case SfpFails(ret, leaked, weather) =>
      var ph := w.phase;
      var conns := if leaked then w.conns[ph.conn := Put(w.conns[ph.conn], Current(w))] else w.conns;
      var pool := S.Called(w.pool, SfpSend(ph.conn, ph.task.data, ret));
      Settle(w.(conns := conns), ph.task, S.GiveUp(pool, ph.task, ph.attempt, ret, weather))
    case AckRead =>
      var ph := w.phase;
      var c := w.conns[ph.conn];
      var pool := S.Called(w.pool, ReadAck(ph.conn, CspOk));
      Finish(w.(conns := w.conns[ph.conn := c.(bwd := c.bwd - 1, acksRead := c.acksRead + 1)]),
             pool, ph.task, OK, Some(Receipt(ph.conn, ph.attempt, c.acksRead)))
    case AckTimesOut(weather) =>
      var ph := w.phase;
      var pool := S.Called(w.pool, ReadAck(ph.conn, CspTimedOut));
      Settle(w, ph.task, S.GiveUp(pool, ph.task, ph.attempt, CspTimedOut, weather))
    case Receive(h, acked) => w.(conns := w.conns[h := Accept(w.conns[h], acked)])
    case Lose(h, i) =>
      var c := w.conns[h];
      w.(conns := w.conns[h := c.(fwd := c.fwd[..i] + c.fwd[i + 1..])])
    case LoseAck(h) =>
      var c := w.conns[h];
      w.(conns := w.conns[h := c.(bwd := c.bwd - 1)])
  }

  // ----- Invariants -----

  ghost predicate Pooled(p: Pool, h: Handle, d: Dest) {
    exists i :: HoldsAt(p, i, h, d)
  }

  ghost predicate HoldsAt(p: Pool, i: int, h: Handle, d: Dest) {
    0 <= i < |p.entries| && p.entries[i].used && p.entries[i].conn == Some(h) && p.entries[i].dest == d
  }

  /** Everything sent on the connection was received, acked, and its ack read. */
  ghost predicate Quiet(c: Conn) {
    c.fwd == [] && c.bwd == 0 && c.received == c.sent && c.acksSent == c.acksRead == |c.sent|
  }

  /** As quiet as before, but for the copy `m` now on its way, received, or acked. */
  ghost predicate InFlight(c: Conn, m: Copy) {
    && c.sent != [] && c.sent[|c.sent| - 1] == m
    && var n := |c.sent| - 1;
       && c.acksRead == n
       && (|| (c.received == c.sent[..n] && (c.fwd == [] || c.fwd == [m]) && c.bwd == 0 && c.acksSent == n)
           || (c.received == c.sent && c.fwd == [] && c.acksSent <= n + 1 && n + c.bwd <= c.acksSent))
  }

  /** The channels lose, but never duplicate or invent. */
  ghost predicate Honest(c: Conn) {
    && multiset(c.received) + multiset(c.fwd) <= multiset(c.sent)
    && c.acksRead + c.bwd <= c.acksSent <= |c.received|
  }

  ghost predicate PoolOk(w: World) {
    && Shaped(w.pool) && Lru.Tidy(w.pool.entries)
    && (forall h: Handle, d: Dest :: Pooled(w.pool, h, d) ==> h in w.conns && w.conns[h].dest == d)
    && (!w.phase.Idle? ==> w.phase.attempt <= 1 && Pooled(w.pool, w.phase.conn, w.phase.task.dest))
  }

  ghost predicate Talking(w: World, h: Handle) {
    w.phase.Waiting? && w.phase.conn == h
  }

  /** The counting invariant: every pooled connection is quiet, except the one waited on. */
  ghost predicate QuietOk(w: World) {
    && (forall h: Handle, d: Dest :: Pooled(w.pool, h, d) && !Talking(w, h) ==> h in w.conns && Quiet(w.conns[h]))
    && (w.phase.Waiting? ==> w.phase.conn in w.conns && InFlight(w.conns[w.phase.conn], Current(w)))
  }

  ghost predicate ConnsOk(conns: map<Handle, Conn>) {
    forall h :: h in conns ==> Honest(conns[h])
  }

  /** The next attempt number the current send has not used yet. */
  function NextAttempt(w: World): nat {
    match w.phase
    case Idle => 0
    case Ready(_, attempt, _) => attempt
    case Waiting(_, attempt, _) => attempt + 1
  }

  /** The copy belongs to a past send, or to an attempt of the current one before `next`. */
  ghost predicate Used(m: Copy, sends: nat, next: nat) {
    m.Copy? && m.attempt <= 1 && (m.send < sends || (m.send == sends && m.attempt < next))
  }

  ghost predicate Carried(conns: map<Handle, Conn>, h: Handle, m: Copy) {
    h in conns && m in conns[h].sent
  }

  /** Every copy is put on one connection, once. */
  ghost predicate CopiesOk(conns: map<Handle, Conn>, sends: nat, next: nat) {
    && (forall h, m :: Carried(conns, h, m) ==> Used(m, sends, next))
    && (forall h :: h in conns ==> Distinct(conns[h].sent))
    && (forall h, h', m, m' ::
          Carried(conns, h, m) && Carried(conns, h', m') && m.send == m'.send && m.attempt == m'.attempt ==>
          h == h' && m == m')
  }

  /** The receiver took the bundle that this receipt stands for. */
  ghost predicate Backed(conns: map<Handle, Conn>, r: Report) {
    && r.receipt.Some? && r.receipt.value.conn in conns
    && var c := conns[r.receipt.value.conn];
       && c.dest == r.task.dest
       && r.receipt.value.pos < |c.received|
       && c.received[r.receipt.value.pos] == Copy(r.send, r.receipt.value.attempt, r.task.data)
  }

  ghost predicate LogOk(conns: map<Handle, Conn>, log: seq<Report>) {
    forall k :: 0 <= k < |log| ==> log[k].send == k && (log[k].code == OK ==> Backed(conns, log[k]))
  }

  ghost predicate Inv(w: World) {
    && PoolOk(w) && QuietOk(w)
    && ConnsOk(w.conns) && CopiesOk(w.conns, w.sends, NextAttempt(w))
    && LogOk(w.conns, w.log) && |w.log| == w.sends
  }

  lemma InitInv(maxAgeMs: uint32)
    ensures Inv(Init(maxAgeMs))
  {
  }

  // ----- The pool's part -----

  /** Every connection in `q` was in `p`, or is the one just opened to `dest`. */
  ghost predicate Inherits(p: Pool, q: Pool, dest: Dest, fresh': Option<Handle>) {
    forall h: Handle, d: Dest :: Pooled(q, h, d) ==> Pooled(p, h, d) || (d == dest && Some(h) == fresh')
  }

  lemma ClosePooled(p: Pool, i: nat)
    requires Shaped(p) && Lru.Tidy(p.entries) && i < POOL_SIZE
    ensures Lru.Tidy(CloseSlot(p, i).entries)
    ensures forall j: int, h: Handle, d: Dest :: HoldsAt(CloseSlot(p, i), j, h, d) ==> HoldsAt(p, j, h, d) && j != i
  {
  }

  lemma RoomPooled(q: Pool, dest: Dest)
    requires Shaped(q) && Lru.Tidy(q.entries)
    ensures var room := MakeRoom(q, dest);
            && Lru.Tidy(room.entries)
            && (forall j: int, h: Handle, d: Dest :: HoldsAt(room, j, h, d) ==> HoldsAt(q, j, h, d) && d != dest)
  {
    var i, room := First(q.entries, CachedFor(dest)), MakeRoom(q, dest);
    ClosePooled(q, if i < POOL_SIZE then i else Oldest(q.entries));
    forall j: int, h: Handle, d: Dest | HoldsAt(room, j, h, d)
      ensures HoldsAt(q, j, h, d) && d != dest
    {
    }
  }

  lemma FillPooled(room: Pool, dest: Dest, w: Weather)
    requires Shaped(room) && Lru.Tidy(room.entries) && First(room.entries, Free()) < POOL_SIZE
    requires forall j: int, h: Handle, d: Dest :: HoldsAt(room, j, h, d) ==> d != dest
    ensures var q := Fill(room, dest, w);
            && Lru.Tidy(q.entries)
            && (w.connected.Some? ==> Pooled(q, w.connected.value, dest))
            && (forall j: int, h: Handle, d: Dest :: HoldsAt(q, j, h, d) ==>
                  HoldsAt(room, j, h, d) || (d == dest && Some(h) == w.connected))
  {
    var i, q := First(room.entries, Free()), Fill(room, dest, w);
    assert Free()(room.entries[i]);
    if w.connected.Some? {
      assert HoldsAt(q, i, w.connected.value, dest);
      forall j | 0 <= j < POOL_SIZE && room.entries[j].used
        ensures room.entries[j].dest != dest
      {
        assert HoldsAt(room, j, room.entries[j].conn.value, room.entries[j].dest);
      }
    }
  }

  lemma HitPooled(q: Pool, i: nat)
    requires Shaped(q) && Lru.Tidy(q.entries) && i < POOL_SIZE
    ensures Lru.Tidy(Hit(q, i).entries)
    ensures forall j: int, h: Handle, d: Dest :: HoldsAt(Hit(q, i), j, h, d) <==> HoldsAt(q, j, h, d)
  {
  }

  /** The connection obtained is pooled for its destination, and was so before or is new. */
  lemma ObtainPooled(p: Pool, dest: Dest, w: Weather)
    requires Shaped(p) && Lru.Tidy(p.entries)
    ensures var (q, conn) := Obtain(p, dest, w);
            && Lru.Tidy(q.entries) && Inherits(p, q, dest, conn)
            && (conn.Some? ==> Pooled(q, conn.value, dest) && (Pooled(p, conn.value, dest) || conn == w.connected))
  {
    var q := Ticked(p);
    assert forall j: int, h: Handle, d: Dest :: HoldsAt(q, j, h, d) <==> HoldsAt(p, j, h, d);
    if Usable(q, dest, w.now) {
      var i := First(q.entries, CachedFor(dest));
      assert CachedFor(dest)(q.entries[i]);
      HitPooled(q, i);
      assert HoldsAt(q, i, q.entries[i].conn.value, dest);
      assert HoldsAt(Hit(q, i), i, q.entries[i].conn.value, dest);
    } else {
      RoomPooled(q, dest);
      FillPooled(MakeRoom(q, dest), dest, w);
    }
  }

  lemma InvalidatePooled(p: Pool, dest: Dest)
    requires Shaped(p) && Lru.Tidy(p.entries)
    ensures var q := Invalidate(p, dest);
            && Lru.Tidy(q.entries)
            && (forall h: Handle, d: Dest :: Pooled(q, h, d) ==> Pooled(p, h, d) && d != dest)
  {
    var i, q := First(p.entries, KeptFor(dest)), Invalidate(p, dest);
    if i < POOL_SIZE {
      ClosePooled(p, i);
    }
    forall j: int, h: Handle, d: Dest | HoldsAt(q, j, h, d)
      ensures HoldsAt(p, j, h, d) && d != dest
    {
    }
  }

  // ----- Every step keeps the invariant -----

  /** A pool all of whose connections are quiet, except perhaps the one to `busy`. */
  ghost predicate QuietPool(p: Pool, conns: map<Handle, Conn>, busy: Option<Dest>) {
    && Shaped(p) && Lru.Tidy(p.entries)
    && (forall h: Handle, d: Dest :: Pooled(p, h, d) ==>
          h in conns && conns[h].dest == d && (Some(d) != busy ==> Quiet(conns[h])))
  }

  /** The rest of the invariant, which depends on the connections and the log only. */
  ghost predicate Kept(w: World, next: nat) {
    ConnsOk(w.conns) && CopiesOk(w.conns, w.sends, next) && LogOk(w.conns, w.log) && |w.log| == w.sends
  }

  lemma FinishInv(w: World, pool: Pool, t: S.Task, code: Code, next: nat)
    requires QuietPool(pool, w.conns, None) && Kept(w, next) && code != OK
    ensures Inv(Finish(w, pool, t, code, None))
  {
    forall h, m | Carried(w.conns, h, m)
      ensures Used(m, w.sends + 1, 0)
    {
      assert Used(m, w.sends, next);
    }
  }

  /** A connection joins with nothing sent on it. */
  lemma JoinKept(w: World, h: Handle, d: Dest, next: nat)
    requires Kept(w, next) && h !in w.conns
    ensures Kept(w.(conns := w.conns[h := Conn(d, [], [], [], 0, 0, 0)]), next)
  {
    var w' := w.(conns := w.conns[h := Conn(d, [], [], [], 0, 0, 0)]);
    forall k | 0 <= k < |w.log| && w.log[k].code == OK
      ensures Backed(w'.conns, w.log[k])
    {
      assert Backed(w.conns, w.log[k]);
    }
    assert forall h', m :: Carried(w'.conns, h', m) ==> Carried(w.conns, h', m);
  }

  lemma ReadyInv(w: World)
    requires w.phase.Ready? && w.phase.attempt <= 1 && Pooled(w.pool, w.phase.conn, w.phase.task.dest)
    requires QuietPool(w.pool, w.conns, None) && Kept(w, w.phase.attempt)
    ensures Inv(w)
  {
    hide ConnsOk, CopiesOk, LogOk, Lru.Tidy, Pooled, Quiet;
  }

  /** A pool that only gained a new, quiet connection to `dest` is quiet. */
  lemma InheritQuiet(p: Pool, q: Pool, conns: map<Handle, Conn>, dest: Dest, conn: Handle)
    requires QuietPool(p, conns, None) && Shaped(q) && Lru.Tidy(q.entries)
    requires Inherits(p, q, dest, Some(conn)) && (Pooled(p, conn, dest) || conn !in conns)
    ensures QuietPool(q, if conn in conns then conns else conns[conn := Conn(dest, [], [], [], 0, 0, 0)], None)
  {
    hide Pooled, Lru.Tidy;
    var conns' := if conn in conns then conns else conns[conn := Conn(dest, [], [], [], 0, 0, 0)];
    forall h: Handle, d: Dest | Pooled(q, h, d)
      ensures h in conns' && conns'[h].dest == d && Quiet(conns'[h])
    {
      if !Pooled(p, h, d) {
        assert h == conn && d == dest;
      }
    }
  }

  lemma AcquireInv(w: World, pool: Pool, t: S.Task, attempt: nat, ret: CspResult, weather: Weather)
    requires QuietPool(pool, w.conns, None) && Kept(w, attempt) && attempt <= 1 && Fresh(w, weather) && ret != CspOk
    ensures Inv(Settle(w, t, S.Acquire(pool, t, attempt, ret, weather)))
  {
    ObtainPooled(pool, t.dest, weather);
    var (q, conn) := Obtain(pool, t.dest, weather);
    if conn.None? {
      assert QuietPool(q, w.conns, None);
      hide Obtain, Lru.Tidy, QuietPool, Kept, Inv;
      FinishInv(w, q, t, if attempt == 0 then CONNECTION else S.CodeOf(ret), attempt);
    } else {
      InheritQuiet(pool, q, w.conns, t.dest, conn.value);
      hide Obtain, Lru.Tidy, QuietPool, Kept, Inv, Pooled, Inherits;
      if conn.value !in w.conns {
        JoinKept(w, conn.value, t.dest, attempt);
      }
      var w' := Settle(w, t, S.Acquire(pool, t, attempt, ret, weather));
      SameKept(w, w', attempt);
      ReadyInv(w');
    }
  }

  lemma SameKept(w: World, w': World, next: nat)
    requires w'.sends == w.sends && w'.log == w.log
    ensures Kept(w.(conns := w'.conns), next) ==> Kept(w', next)
  {
  }

  lemma GiveUpInv(w: World, pool: Pool, t: S.Task, attempt: nat, ret: CspResult, weather: Weather)
    requires QuietPool(pool, w.conns, Some(t.dest)) && Kept(w, attempt + 1) && attempt <= 1 && Fresh(w, weather)
    requires ret != CspOk
    ensures Inv(Settle(w, t, S.GiveUp(pool, t, attempt, ret, weather)))
  {
    InvalidatePooled(pool, t.dest);
    var q := Invalidate(pool, t.dest);
    hide Invalidate, Lru.Tidy, Pooled;
    assert QuietPool(q, w.conns, None);
    if attempt == 0 {
      AcquireInv(w, q, t, 1, ret, weather);
    } else {
      FinishInv(w, q, t, S.CodeOf(ret), attempt + 1);
    }
  }

  /** Replacing one connection by a later state of itself, with the same bundles sent. */
  lemma AdvanceKept(w: World, h: Handle, c: Conn, next: nat)
    requires Kept(w, next) && h in w.conns && Honest(c)
    requires c.dest == w.conns[h].dest && c.sent == w.conns[h].sent && w.conns[h].received <= c.received
    ensures Kept(w.(conns := w.conns[h := c]), next)
  {
    var conns' := w.conns[h := c];
    forall k | 0 <= k < |w.log| && w.log[k].code == OK
      ensures Backed(conns', w.log[k])
    {
      assert Backed(w.conns, w.log[k]);
    }
    assert CopiesOk(conns', w.sends, next) by {
      assert forall h', m :: Carried(conns', h', m) ==> Carried(w.conns, h', m);
    }
  }

  /** Putting a new copy on a connection. */
  lemma PutKept(w: World, h: Handle, m: Copy, next: nat)
    requires Kept(w, next) && h in w.conns && m.Copy? && m.send == w.sends && m.attempt == next <= 1
    ensures Kept(w.(conns := w.conns[h := Put(w.conns[h], m)]), next + 1)
  {
    var c := w.conns[h];
    var conns' := w.conns[h := Put(c, m)];
    forall h' | h' in w.conns
      ensures m !in w.conns[h'].sent
    {
      assert !Used(m, w.sends, next);
      assert !Carried(w.conns, h', m);
    }
    forall k | 0 <= k < |w.log| && w.log[k].code == OK
      ensures Backed(conns', w.log[k])
    {
      assert Backed(w.conns, w.log[k]);
    }
    assert Honest(Put(c, m)) by {
      assert multiset(c.fwd + [m]) == multiset(c.fwd) + multiset{m};
      assert multiset(c.sent + [m]) == multiset(c.sent) + multiset{m};
    }
    assert CopiesOk(conns', w.sends, next + 1) by {
      forall h', m' | Carried(conns', h', m')
        ensures Used(m', w.sends, next + 1)
        ensures if m' == m then h' == h else Carried(w.conns, h', m')
      {
        if h' == h && m' != m {
          assert m' in c.sent;
        }
        if m' != m {
          assert Carried(w.conns, h', m') && Used(m', w.sends, next);
        }
      }
    }
  }

  /** Recording a call changes nothing the pool holds. */
  lemma CalledPool(p: Pool, c: Call, conns: map<Handle, Conn>, busy: Option<Dest>)
    ensures forall h: Handle, d: Dest :: Pooled(S.Called(p, c), h, d) <==> Pooled(p, h, d)
    ensures QuietPool(p, conns, busy) ==> QuietPool(S.Called(p, c), conns, busy)
  {
    assert forall i: int, h: Handle, d: Dest :: HoldsAt(S.Called(p, c), i, h, d) <==> HoldsAt(p, i, h, d);
  }

  /** While a send talks on a connection, only that one may be busy. */
  lemma OneBusy(w: World)
    requires Inv(w)
    ensures w.phase.Idle? ==> QuietPool(w.pool, w.conns, None)
    ensures !w.phase.Idle? ==> QuietPool(w.pool, w.conns, Some(w.phase.task.dest))
    ensures Kept(w, NextAttempt(w))
  {
    hide Lru.Tidy, Pooled, ConnsOk, CopiesOk, LogOk, Quiet;
  }

  lemma StartStep(w: World, t: S.Task, weather: Weather)
    requires Inv(w) && Enabled(w, Start(t, weather))
    ensures Inv(Apply(w, Start(t, weather)))
  {
    OneBusy(w);
    hide Inv, QuietPool, Kept;
    AcquireInv(w, w.pool, t, 0, CspTimedOut, weather);
  }

  lemma MoreAttempts(w: World, next: nat)
    requires Kept(w, next)
    ensures Kept(w, next + 1)
  {
    forall h, m | Carried(w.conns, h, m)
      ensures Used(m, w.sends, next + 1)
    {
      assert Used(m, w.sends, next);
    }
  }

  /** A quiet connection with one more copy put on it has just that copy in flight. */
  lemma PutInFlight(c: Conn, m: Copy)
    requires Quiet(c)
    ensures InFlight(Put(c, m), m)
  {
    assert (c.sent + [m])[..|c.sent|] == c.sent;
  }

  lemma SfpSentStep(w: World)
    requires Inv(w) && Enabled(w, SfpSent)
    ensures Inv(Apply(w, SfpSent))
  {
    hide PoolOk, QuietOk, Kept, Put;
    OneBusy(w);
    var ph, w' := w.phase, Apply(w, SfpSent);
    TwoAttempts(w);
    SentPool(w);
    SentQuiet(w);
    PutKept(w, ph.conn, Current(w), ph.attempt);
    SameKept(w, w', ph.attempt + 1);
    KeptInv(w');
  }

  lemma TwoAttempts(w: World)
    requires PoolOk(w) && !w.phase.Idle?
    ensures w.phase.attempt <= 1
  {
  }

  lemma SentPool(w: World)
    requires PoolOk(w) && Enabled(w, SfpSent)
    ensures PoolOk(Apply(w, SfpSent))
  {
    hide Lru.Tidy, Pooled;
    CalledPool(w.pool, SfpSend(w.phase.conn, w.phase.task.data, CspOk), w.conns, None);
  }

  lemma SentQuiet(w: World)
    requires PoolOk(w) && QuietOk(w) && Enabled(w, SfpSent)
    ensures QuietOk(Apply(w, SfpSent))
  {
    hide Lru.Tidy, Pooled, Quiet, InFlight, Put;
    PutInFlight(w.conns[w.phase.conn], Current(w));
    CalledPool(w.pool, SfpSend(w.phase.conn, w.phase.task.data, CspOk), w.conns, None);
  }

  lemma KeptInv(w: World)
    requires PoolOk(w) && QuietOk(w) && Kept(w, NextAttempt(w))
    ensures Inv(w)
  {
  }

  lemma SfpFailsStep(w: World, ret: CspResult, leaked: bool, weather: Weather)
    requires Inv(w) && Enabled(w, SfpFails(ret, leaked, weather))
    ensures Inv(Apply(w, SfpFails(ret, leaked, weather)))
  {
    var ph := w.phase;
    var pool := S.Called(w.pool, SfpSend(ph.conn, ph.task.data, ret));
    OneBusy(w);
    var w1 := if leaked then w.(conns := w.conns[ph.conn := Put(w.conns[ph.conn], Current(w))]) else w;
    if leaked {
      PutKept(w, ph.conn, Current(w), ph.attempt);
      ChangeBusy(w.pool, w.conns, ph.task.dest, ph.conn, w1.conns[ph.conn]);
    } else {
      MoreAttempts(w, ph.attempt);
    }
    CalledPool(w.pool, SfpSend(ph.conn, ph.task.data, ret), w1.conns, Some(ph.task.dest));
    hide Inv, QuietPool, Kept;
    GiveUpInv(w1, pool, ph.task, ph.attempt, ret, weather);
  }

  /** Changing the busy connection leaves the others quiet. */
  lemma ChangeBusy(p: Pool, conns: map<Handle, Conn>, dest: Dest, h: Handle, c: Conn)
    requires QuietPool(p, conns, Some(dest)) && h in conns && c.dest == conns[h].dest == dest
    ensures QuietPool(p, conns[h := c], Some(dest))
  {
    hide Lru.Tidy, Pooled, Quiet;
  }

  lemma AckTimesOutStep(w: World, weather: Weather)
    requires Inv(w) && Enabled(w, AckTimesOut(weather))
    ensures Inv(Apply(w, AckTimesOut(weather)))
  {
    var ph := w.phase;
    OneBusy(w);
    CalledPool(w.pool, ReadAck(ph.conn, CspTimedOut), w.conns, Some(ph.task.dest));
    hide QuietPool, Kept, ConnsOk, CopiesOk, LogOk, QuietOk;
    GiveUpInv(w, S.Called(w.pool, ReadAck(ph.conn, CspTimedOut)), ph.task, ph.attempt, CspTimedOut, weather);
  }

  /** The ack read can only be the one for the bundle just sent: the receiver took that bundle. */
  lemma AckMeansReceived(c: Conn, m: Copy)
    requires InFlight(c, m) && c.bwd > 0
    ensures c.received == c.sent && c.received[c.acksRead] == m
    ensures Quiet(c.(bwd := c.bwd - 1, acksRead := c.acksRead + 1))
  {
  }

  lemma AckReadStep(w: World)
    requires Inv(w) && Enabled(w, AckRead)
    ensures Inv(Apply(w, AckRead))
    ensures var w' := Apply(w, AckRead);
            w'.conns[w.phase.conn].received == w'.conns[w.phase.conn].sent
  {
    hide Lru.Tidy, Pooled, Honest, CopiesOk, LogOk;
    var ph, w' := w.phase, Apply(w, AckRead);
    var c := w.conns[ph.conn];
    AckMeansReceived(c, Current(w));
    var w1 := w.(conns := w'.conns);
    StillHonest(c);
    AdvanceKept(w, ph.conn, w'.conns[ph.conn], NextAttempt(w));
    CalledPool(w.pool, ReadAck(ph.conn, CspOk), w1.conns, None);
    assert QuietPool(w'.pool, w'.conns, None);
    FinishOk(w1, w'.pool, ph.task, Receipt(ph.conn, ph.attempt, c.acksRead), NextAttempt(w));
  }

  lemma StillHonest(c: Conn)
    requires Honest(c) && c.bwd > 0
    ensures Honest(c.(bwd := c.bwd - 1, acksRead := c.acksRead + 1))
  {
  }

  lemma FinishOk(w: World, pool: Pool, t: S.Task, r: Receipt, next: nat)
    requires QuietPool(pool, w.conns, None) && Kept(w, next)
    requires Backed(w.conns, Report(w.sends, t, OK, Some(r)))
    ensures Inv(Finish(w, pool, t, OK, Some(r)))
  {
    forall h, m | Carried(w.conns, h, m)
      ensures Used(m, w.sends + 1, 0)
    {
      assert Used(m, w.sends, next);
    }
  }

  /** What the receiver and the network do to one connection. */
  ghost function NetStep(c: Conn, e: Event): Conn
    requires e.Receive? || e.Lose? || e.LoseAck?
    requires e.Receive? ==> c.fwd != []
    requires e.Lose? ==> e.i < |c.fwd|
    requires e.LoseAck? ==> c.bwd > 0
  {
    match e
    case Receive(_, acked) => Accept(c, acked)
    case Lose(_, i) => c.(fwd := c.fwd[..i] + c.fwd[i + 1..])
    case LoseAck(_) => c.(bwd := c.bwd - 1)
  }

  lemma NetHonest(c: Conn, e: Event)
    requires e.Receive? || e.Lose? || e.LoseAck?
    requires e.Receive? ==> c.fwd != []
    requires e.Lose? ==> e.i < |c.fwd|
    requires e.LoseAck? ==> c.bwd > 0
    requires Honest(c)
    ensures Honest(NetStep(c, e)) && c.received <= NetStep(c, e).received
    ensures NetStep(c, e).dest == c.dest && NetStep(c, e).sent == c.sent
  {
    match e
    case Receive(_, _) =>
      assert c.fwd == [c.fwd[0]] + c.fwd[1..];
    case Lose(_, i) =>
      assert c.fwd == c.fwd[..i] + [c.fwd[i]] + c.fwd[i + 1..];
    case LoseAck(_) =>
  }

  /** A quiet connection offers the network nothing to do. */
  lemma NetNotQuiet(c: Conn, e: Event)
    requires e.Receive? || e.Lose? || e.LoseAck?
    requires e.Receive? ==> c.fwd != []
    requires e.Lose? ==> e.i < |c.fwd|
    requires e.LoseAck? ==> c.bwd > 0
    ensures !Quiet(c)
  {
  }

  lemma NetInFlight(c: Conn, e: Event, m: Copy)
    requires e.Receive? || e.Lose? || e.LoseAck?
    requires e.Receive? ==> c.fwd != []
    requires e.Lose? ==> e.i < |c.fwd|
    requires e.LoseAck? ==> c.bwd > 0
    requires InFlight(c, m)
    ensures InFlight(NetStep(c, e), m)
  {
    var n := |c.sent| - 1;
    if e.Receive? {
      assert c.received + [m] == c.sent;
    }
  }

  lemma NetApply(w: World, e: Event)
    requires Enabled(w, e) && (e.Receive? || e.Lose? || e.LoseAck?)
    ensures Apply(w, e) == w.(conns := w.conns[e.at := NetStep(w.conns[e.at], e)])
  {
  }

  lemma NetworkStep(w: World, e: Event)
    requires Inv(w) && Enabled(w, e) && (e.Receive? || e.Lose? || e.LoseAck?)
    ensures Inv(Apply(w, e))
  {
    hide Lru.Tidy, Pooled, Honest, Quiet, InFlight, Accept, CopiesOk, LogOk, Apply, NetStep;
    NetApply(w, e);
    var h, w' := e.at, Apply(w, e);
    var c := w.conns[h];
    NetHonest(c, e);
    NetNotQuiet(c, e);
    if Talking(w, h) {
      NetInFlight(c, e, Current(w));
    }
    AdvanceKept(w, h, NetStep(c, e), NextAttempt(w));
    KeptInv(w');
  }

  lemma StepInv(w: World, e: Event)
    requires Inv(w) && Enabled(w, e)
    ensures Inv(Apply(w, e))
  {
    match e
    case Start(t, weather) => StartStep(w, t, weather);
    case SfpSent => SfpSentStep(w);
    case SfpFails(ret, leaked, weather) => SfpFailsStep(w, ret, leaked, weather);
    case AckRead => AckReadStep(w);
    case AckTimesOut(weather) => AckTimesOutStep(w, weather);
    case Receive(_, _) => NetworkStep(w, e);
    case Lose(_, _) => NetworkStep(w, e);
    case LoseAck(_) => NetworkStep(w, e);
  }

  // ----- Whole runs -----

  ghost predicate IsRun(maxAgeMs: uint32, ws: seq<World>, es: seq<Event>) {
    && |ws| == |es| + 1 && ws[0] == Init(maxAgeMs)
    && (forall i :: 0 <= i < |es| ==> Enabled(ws[i], es[i]) && ws[i + 1] == Apply(ws[i], es[i]))
  }

  lemma {:induction false} RunInv(maxAgeMs: uint32, ws: seq<World>, es: seq<Event>, i: nat)
    requires IsRun(maxAgeMs, ws, es) && i < |ws|
    ensures Inv(ws[i])
  {
    hide Inv, Apply;
    if i == 0 {
      InitInv(maxAgeMs);
    } else {
      RunInv(maxAgeMs, ws, es, i - 1);
      StepInv(ws[i - 1], es[i - 1]);
    }
  }

  /**
   * Ack soundness: in every state of every run, each send that returned OK had its bundle
   * accepted by the receiver at its destination, exactly once on the connection that
   * acknowledged it, and that copy went over no other connection.
   */
  lemma AckSoundness(maxAgeMs: uint32, ws: seq<World>, es: seq<Event>, i: nat, k: nat)
    requires IsRun(maxAgeMs, ws, es) && i < |ws| && k < |ws[i].log| && ws[i].log[k].code == OK
    ensures var w, r := ws[i], ws[i].log[k];
            && Backed(w.conns, r)
            && var m := Copy(k, r.receipt.value.attempt, r.task.data);
               && multiset(w.conns[r.receipt.value.conn].received)[m] == 1
               && (forall h :: Carried(w.conns, h, m) ==> h == r.receipt.value.conn)
  {
    RunInv(maxAgeMs, ws, es, i);
    var w, r := ws[i], ws[i].log[k];
    var h := r.receipt.value.conn;
    var m := Copy(k, r.receipt.value.attempt, r.task.data);
    OnceOnly(w.conns[h].sent, m);
    assert multiset(w.conns[h].received)[m] > 0 by {
      assert m in w.conns[h].received;
    }
    assert m in multiset(w.conns[h].sent);
    assert Carried(w.conns, h, m);
  }

  lemma {:induction false} OnceOnly<T>(s: seq<T>, x: T)
    requires Distinct(s)
    ensures multiset(s)[x] <= 1
  {
    if s != [] {
      var k := |s| - 1;
      OnceOnly(s[..k], x);
      assert s == s[..k] + [s[k]];
      if s[k] == x {
        assert x !in s[..k];
      }
    }
  }

  /** Between sends, whatever was ever sent on a pooled connection was received, acked and read, in order. */
  lemma PoolIsQuietBetweenSends(maxAgeMs: uint32, ws: seq<World>, es: seq<Event>, i: nat, h: Handle, d: Dest)
    requires IsRun(maxAgeMs, ws, es) && i < |ws| && ws[i].phase.Idle? && Pooled(ws[i].pool, h, d)
    ensures h in ws[i].conns && ws[i].conns[h].dest == d && Quiet(ws[i].conns[h])
  {
    RunInv(maxAgeMs, ws, es, i);
  }

  ghost predicate Accepted(w: World, h: Handle, m: Copy) {
    h in w.conns && m in w.conns[h].received
  }

  /** Whatever the network does, no send has more than two copies accepted, by whichever receivers. */
  lemma AtMostTwoCopies(maxAgeMs: uint32, ws: seq<World>, es: seq<Event>, i: nat, m1: Copy, m2: Copy, m3: Copy,
                        h1: Handle, h2: Handle, h3: Handle)
    requires IsRun(maxAgeMs, ws, es) && i < |ws|
    requires Accepted(ws[i], h1, m1) && Accepted(ws[i], h2, m2) && Accepted(ws[i], h3, m3)
    requires m1.send == m2.send == m3.send
    ensures (h1, m1) == (h2, m2) || (h1, m1) == (h3, m3) || (h2, m2) == (h3, m3)
    ensures multiset(ws[i].conns[h1].received)[m1] == 1
  {
    RunInv(maxAgeMs, ws, es, i);
    var conns := ws[i].conns;
    SentBefore(ws[i], h1, m1);
    SentBefore(ws[i], h2, m2);
    SentBefore(ws[i], h3, m3);
    OnceOnly(conns[h1].sent, m1);
    assert Used(m1, ws[i].sends, NextAttempt(ws[i])) && Used(m2, ws[i].sends, NextAttempt(ws[i]))
        && Used(m3, ws[i].sends, NextAttempt(ws[i]));
  }

  /** Nothing is accepted that was not put on that connection. */
  lemma SentBefore(w: World, h: Handle, m: Copy)
    requires Inv(w) && Accepted(w, h, m)
    ensures Carried(w.conns, h, m)
  {
    assert m in multiset(w.conns[h].received);
    assert m in multiset(w.conns[h].sent);
  }

  // ----- Exactly when a nameless ack is enough -----

  ghost predicate CanHappen(c: Conn, e: Event) {
    match e
    case Receive(_, _) => c.fwd != []
    case Lose(_, i) => i < |c.fwd|
    case LoseAck(_) => c.bwd > 0
    case _ => false
  }

  /** The receiver and the network can bring the connection from `c` to `c'`. */
  ghost predicate Evolves(c: Conn, es: seq<Event>, c': Conn)
    decreases |es|
  {
    if es == [] then c == c' else CanHappen(c, es[0]) && Evolves(NetStep(c, es[0]), es[1..], c')
  }

  /** After `m` was put on `c`, an ack can be read although the receiver never took `m`. */
  ghost predicate FalseAck(c: Conn, m: Copy) {
    exists es, c' :: Evolves(Put(c, m), es, c') && c'.bwd > 0 && m !in c'.received
  }

  lemma {:induction false} NoFalseAck(c: Conn, es: seq<Event>, c': Conn, m: Copy)
    requires Evolves(c, es, c')
    requires m in c.received || (c.bwd == 0 && (c.fwd == [] || c.fwd == [m]))
    ensures c'.bwd > 0 ==> m in c'.received
    decreases |es|
  {
    if es != [] {
      NoFalseAck(NetStep(c, es[0]), es[1..], c', m);
    }
  }

  /**
   * The exact condition: for any connection, adopted ones included, an ack proves that the
   * bundle just sent arrived if and only if nothing was outstanding when it was sent, neither
   * an ack nor a bundle still to be acked.
   */
  lemma AckProvesDeliveryIffNothingOutstanding(c: Conn, m: Copy)
    requires m !in c.received && m !in c.fwd
    ensures !FalseAck(c, m) <==> c.fwd == [] && c.bwd == 0
  {
    if c.fwd == [] && c.bwd == 0 {
      forall es, c' | Evolves(Put(c, m), es, c') && c'.bwd > 0
        ensures m in c'.received
      {
        NoFalseAck(Put(c, m), es, c', m);
      }
    } else if c.bwd > 0 {
      assert Evolves(Put(c, m), [], Put(c, m));
    } else {
      var e := Receive(0, true);
      var c' := NetStep(Put(c, m), e);
      assert [e][1..] == [];
      assert Evolves(c', [], c');
      assert Evolves(Put(c, m), [e], c');
      assert Put(c, m).fwd[0] == c.fwd[0];
    }
  }
}
