/**
 * `cspcl_send_bundle` (src/cspcl.c:489-622): send on a pooled connection, wait for the ack, and
 * on failure discard the connection and try once more.
 */
module Send {
  import opened Base
  import opened Pool
  import ConnectionPool

  datatype Task = Task(dest: Dest, data: seq<byte>)

  /** How libcsp answers one exchange: the SFP send, then the read of the ack. */
  datatype Reply = Reply(sfp: CspResult, acked: bool)

  /** Where a send stands: talking on `conn` in attempt 0 or 1, or done. */
  datatype Phase = Exchanging(conn: Handle, attempt: nat) | Finished(code: Code)

  function CodeOf(ret: CspResult): Code {
    match ret
    case CspOk => OK
    case CspTimedOut => TIMEOUT
    case CspFailed => CSP_SEND
  }

  /** Get a connection for `attempt`; `ret` is how the attempt before it ended. */
  function Acquire(p: Pool, t: Task, attempt: nat, ret: CspResult, w: Weather): (r: (Pool, Phase))
    requires Shaped(p)
    ensures Shaped(r.0) && (r.1.Exchanging? ==> r.1.attempt == attempt)
  {
    var (q, conn) := Obtain(p, t.dest, w);
    if conn.Some? then (q, Exchanging(conn.value, attempt))
    else (q, Finished(if attempt == 0 then CONNECTION else CodeOf(ret)))
  }

  /** The exchange of `attempt` failed with `ret`: drop its connection, and retry the first time. */
  function GiveUp(p: Pool, t: Task, attempt: nat, ret: CspResult, w: Weather): (r: (Pool, Phase))
    requires Shaped(p)
    ensures Shaped(r.0) && (r.1.Exchanging? ==> attempt == 0 && r.1.attempt == 1)
  {
    var q := Invalidate(p, t.dest);
    if attempt == 0 then Acquire(q, t, 1, ret, w) else (q, Finished(CodeOf(ret)))
  }

  /** `cspcl_send_and_confirm`: any packet read on the connection counts as the ack. */
  function Confirm(p: Pool, conn: Handle, data: seq<byte>, r: Reply): (Pool, CspResult) {
    var sent := Called(p, SfpSend(conn, data, r.sfp));
    if r.sfp != CspOk then (sent, r.sfp)
    else
      var ret := if r.acked then CspOk else CspTimedOut;
      (Called(sent, ReadAck(conn, ret)), ret)
  }

  function Called(p: Pool, c: Call): Pool {
    p.(calls := p.calls + [c])
  }

  /** The two attempts, from `attempt` on: what the environment answers to each is in `ws` and `rs`. */
  function Attempts(p: Pool, t: Task, attempt: nat, ret: CspResult, ws: seq<Weather>, rs: seq<Reply>): (r: (Pool, Code))
    requires Shaped(p) && attempt <= 2 && |ws| == |rs| == 2
    ensures Shaped(r.0)
    decreases 2 - attempt
  {
    if attempt == 2 then (p, CodeOf(ret))
    else
      var (q, phase) := Acquire(p, t, attempt, ret, ws[attempt]);
      match phase
      case Finished(code) => (q, code)
      case Exchanging(conn, _) =>
        var (q', ret') := Confirm(q, conn, t.data, rs[attempt]);
        if ret' == CspOk then (q', OK)
        else Attempts(Invalidate(q', t.dest), t, attempt + 1, ret', ws, rs)
  }

  /** A send as a sequence of phases, from `phase` on: the form in which peers can act in between. */
  function Proceed(p: Pool, t: Task, phase: Phase, ws: seq<Weather>, rs: seq<Reply>): (Pool, Code)
    requires Shaped(p) && |ws| == |rs| == 2 && (phase.Exchanging? ==> phase.attempt < 2)
    decreases phase.Exchanging?, if phase.Exchanging? then 2 - phase.attempt else 0
  {
    match phase
    case Finished(code) => (p, code)
    case Exchanging(conn, attempt) =>
      var (q, ret) := Confirm(p, conn, t.data, rs[attempt]);
      if ret == CspOk then (q, OK)
      else
        var (q', phase') := GiveUp(q, t, attempt, ret, ws[1]);
        Proceed(q', t, phase', ws, rs)
  }

  /** The retry loop and the sequence of phases are the same computation. */
  lemma {:induction false} LoopIsPhases(p: Pool, t: Task, attempt: nat, ret: CspResult, ws: seq<Weather>,
                                        rs: seq<Reply>)
    requires Shaped(p) && |ws| == |rs| == 2 && attempt < 2
    ensures var (q, phase) := Acquire(p, t, attempt, ret, ws[attempt]);
            Attempts(p, t, attempt, ret, ws, rs) == Proceed(q, t, phase, ws, rs)
    decreases 2 - attempt
  {
    hide Obtain, Invalidate;
    var (q, phase) := Acquire(p, t, attempt, ret, ws[attempt]);
    if phase.Exchanging? {
      var (c, ret') := Confirm(q, phase.conn, t.data, rs[attempt]);
      if ret' != CspOk {
        var next := Invalidate(c, t.dest);
        if attempt == 0 {
          LoopIsPhases(next, t, 1, ret', ws, rs);
        } else {
          assert Attempts(next, t, 2, ret', ws, rs) == (next, CodeOf(ret'));
        }
      }
    }
  }

  /** The whole function; `bundle` is `None` for a null pointer. */
  function Outcome(initialized: bool, p: Pool, bundle: Option<seq<byte>>, dest: Dest, lockable: bool,
                   ws: seq<Weather>, rs: seq<Reply>): (r: (Pool, Code))
    requires Shaped(p) && |ws| == |rs| == 2
    ensures Shaped(r.0)
  {
    if bundle.None? || bundle.value == [] then (p, INVALID_PARAM)
    else if !initialized then (p, NOT_INITIALIZED)
    else if |bundle.value| > MAX_BUNDLE_SIZE then (p, BUNDLE_TOO_LARGE)
    else if !p.initialized then (p, NOT_INITIALIZED)
    else if !lockable then (p, CONNECTION)
    else Attempts(p, Task(dest, bundle.value), 0, CspTimedOut, ws, rs)
  }

  /** The sending half of a cspcl instance. */
  class Instance {
    var initialized: bool
    const pool: ConnectionPool.ConnectionPool

    constructor (pool: ConnectionPool.ConnectionPool)
      ensures this.pool == pool && initialized
    {
      this.pool := pool;
      initialized := true;
    }

    /** `cspcl_send_and_confirm`. */
    method SendAndConfirm(conn: Handle, data: seq<byte>, r: Reply) returns (ret: CspResult)
      requires pool.Valid()
      modifies pool`calls
      ensures (pool.Value(), ret) == Confirm(old(pool.Value()), conn, data, r)
    {
      pool.calls := pool.calls + [SfpSend(conn, data, r.sfp)];
      if r.sfp != CspOk {
        return r.sfp;
      }
      ret := if r.acked then CspOk else CspTimedOut;
      pool.calls := pool.calls + [ReadAck(conn, ret)];
    }

    /** `cspcl_send_bundle`. */
    method SendBundle(bundle: Option<seq<byte>>, dest: Dest, lockable: bool, ws: seq<Weather>, rs: seq<Reply>)
      returns (code: Code)
      requires pool.Valid() && |ws| == |rs| == 2
      modifies pool, pool.entries
      ensures (pool.Value(), code) == Outcome(initialized, old(pool.Value()), bundle, dest, lockable, ws, rs)
    {
      if bundle == None || bundle.value == [] { return INVALID_PARAM; }
      if !initialized { return NOT_INITIALIZED; }
      if |bundle.value| > MAX_BUNDLE_SIZE { return BUNDLE_TOO_LARGE; }
      if !pool.initialized { return NOT_INITIALIZED; }
      if !lockable { return CONNECTION; }

      var ret, connFailed := CspTimedOut, false;
      ghost var t := Task(dest, bundle.value);
      ghost var result := Attempts(pool.Value(), t, 0, ret, ws, rs);
      var attempt := 0;
      while attempt < 2
        invariant attempt <= 2 && !connFailed
        invariant result == Attempts(pool.Value(), t, attempt, ret, ws, rs)
      {
        var conn := pool.GetOrCreate(dest, ws[attempt]);
        if conn == None {
          connFailed := attempt == 0;
          break;
        }
        ret := SendAndConfirm(conn.value, bundle.value, rs[attempt]);
        if ret == CspOk {
          break;
        }
        pool.Invalidate(dest);
        attempt := attempt + 1;
      }
      assert pool.Value() == result.0;
      if connFailed { return CONNECTION; }
      if ret == CspTimedOut { return TIMEOUT; }
      if ret != CspOk { return CSP_SEND; }
      code := OK;
    }
  }
}
