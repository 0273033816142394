/**
 * What a send does and returns, in terms of libcsp's answers alone: which exchanges are made, that
 * a failed first one is retried on a new connection, and which code each outcome has.
 */
module SendLaws {
  import opened Base
  import opened Search
  import opened P = Pool
  import S = Send
  import A = AckProtocol
  import R = Retry

  // ----- The reference -----

  /** The peer confirmed the bundle. */
  predicate Confirmed(r: S.Reply) {
    r.sfp == CspOk && r.acked
  }

  /** The calls of one exchange: the ack is awaited only if the bundle could be sent. */
  function Exchange(conn: Handle, data: seq<byte>, r: S.Reply): seq<Call> {
    if r.sfp != CspOk then [SfpSend(conn, data, r.sfp)]
    else [SfpSend(conn, data, CspOk), ReadAck(conn, if r.acked then CspOk else CspTimedOut)]
  }

  /** What an exchange that was not confirmed is reported as: a missing ack is a timeout. */
  function Blame(r: S.Reply): Code {
    if r.sfp == CspFailed then CSP_SEND else TIMEOUT
  }

  /** All calls after the first lookup, which gave `first`; `second` is what the reconnect gives. */
  function Script(first: Option<Handle>, t: S.Task, second: Option<Handle>, rs: seq<S.Reply>): seq<Call>
    requires |rs| == 2
  {
    if first.None? then []
    else if Confirmed(rs[0]) then Exchange(first.value, t.data, rs[0])
    else
      Exchange(first.value, t.data, rs[0]) + [Close(first.value), Connect(t.dest, second)] + Retried(t, second, rs[1])
  }

  function Retried(t: S.Task, second: Option<Handle>, r: S.Reply): seq<Call> {
    if second.None? then []
    else Exchange(second.value, t.data, r) + if Confirmed(r) then [] else [Close(second.value)]
  }

  function Verdict(first: Option<Handle>, second: Option<Handle>, rs: seq<S.Reply>): Code
    requires |rs| == 2
  {
    if first.None? then CONNECTION
    else if Confirmed(rs[0]) then OK
    else if second.None? then Blame(rs[0])
    else if Confirmed(rs[1]) then OK
    else Blame(rs[1])
  }

  // ----- The steps -----

  lemma ConfirmIsExchange(p: Pool, conn: Handle, data: seq<byte>, r: S.Reply)
    ensures var (q, ret) := S.Confirm(p, conn, data, r);
            && q == p.(calls := p.calls + Exchange(conn, data, r))
            && (ret == CspOk <==> Confirmed(r)) && (ret != CspOk ==> S.CodeOf(ret) == Blame(r))
  {
  }

  /** Dropping the only entry of a destination closes its connection. */
  lemma DropsOnly(p: Pool, dest: Dest, i: int, conn: Handle)
    requires R.Regular(p) && R.OnlyEntry(p, dest, i, Some(conn))
    ensures Invalidate(p, dest).calls == p.calls + [Close(conn)]
    ensures R.Regular(Invalidate(p, dest)) && R.NoEntry(Invalidate(p, dest), dest)
    ensures First(Invalidate(p, dest).entries, Free()) < POOL_SIZE
  {
    R.InvalidateEffect(p, dest);
    assert KeptFor(dest)(p.entries[i]);
    assert First(p.entries, KeptFor(dest)) == i;
  }

  /** Without an entry, and with room, a lookup is one connect. */
  lemma LooksUpAfresh(p: Pool, dest: Dest, w: Weather)
    requires R.Regular(p) && R.NoEntry(p, dest)
    ensures Obtain(p, dest, w).1 == w.connected
    ensures First(p.entries, Free()) < POOL_SIZE ==>
              Obtain(p, dest, w).0.calls == p.calls + [Connect(dest, w.connected)]
  {
    var q := Ticked(p);
    forall j | 0 <= j < POOL_SIZE
      ensures !CachedFor(dest)(q.entries[j])
    {
      assert !KeptFor(dest)(q.entries[j]);
    }
    assert First(q.entries, CachedFor(dest)) == POOL_SIZE;
  }

  /** The second attempt, after the first one was given up. */
  lemma SecondAttempt(next: Pool, t: S.Task, ret: CspResult, ws: seq<Weather>, rs: seq<S.Reply>)
    requires |ws| == |rs| == 2 && R.Regular(next) && R.NoEntry(next, t.dest)
    requires First(next.entries, Free()) < POOL_SIZE && ret != CspOk
    ensures var (q, code) := S.Attempts(next, t, 1, ret, ws, rs);
            && q.calls == next.calls + [Connect(t.dest, ws[1].connected)] + Retried(t, ws[1].connected, rs[1])
            && code == (if ws[1].connected.None? then S.CodeOf(ret) else if Confirmed(rs[1]) then OK else Blame(rs[1]))
  {
    hide Obtain, Invalidate, S.Confirm, R.Regular, First, R.NoEntry, Confirmed, Exchange;
    RegularIsShaped(next);
    LooksUpAfresh(next, t.dest, ws[1]);
    R.ObtainEffect(next, t.dest, ws[1]);
    var (q, conn) := Obtain(next, t.dest, ws[1]);
    if conn.Some? {
      var (c, ret') := S.Confirm(q, conn.value, t.data, rs[1]);
      ConfirmIsExchange(q, conn.value, t.data, rs[1]);
      if ret' != CspOk {
        SameEntry(q, c, t.dest, conn.value);
        var last := Invalidate(c, t.dest);
        assert S.Attempts(last, t, 2, ret', ws, rs) == (last, S.CodeOf(ret'));
      }
    }
  }

  lemma RegularIsShaped(p: Pool)
    requires R.Regular(p)
    ensures Shaped(p)
  {
  }

  /** After an exchange, the connection it used is dropped. */
  lemma SameEntry(q: Pool, c: Pool, dest: Dest, conn: Handle)
    requires R.Regular(q) && c.entries == q.entries && c.tick == q.tick
    requires exists i :: R.OnlyEntry(q, dest, i, Some(conn))
    ensures Invalidate(c, dest).calls == c.calls + [Close(conn)]
    ensures R.Regular(Invalidate(c, dest)) && R.NoEntry(Invalidate(c, dest), dest)
    ensures First(Invalidate(c, dest).entries, Free()) < POOL_SIZE
  {
    var i :| R.OnlyEntry(q, dest, i, Some(conn));
    assert R.OnlyEntry(c, dest, i, Some(conn));
    DropsOnly(c, dest, i, conn);
  }

  /**
   * The law of a send, for every pool with unique keys: after the first lookup its calls and its
   * code are those of the reference. In particular it returns OK exactly if it got a connection
   * and the exchange on it was confirmed, or was not but a reconnect succeeded and the exchange
   * on the new connection was; and whenever the first exchange fails and the reconnect succeeds,
   * the bundle is sent again.
   */
  lemma SendLaw(p: Pool, t: S.Task, ws: seq<Weather>, rs: seq<S.Reply>)
    requires R.Regular(p) && |ws| == |rs| == 2
    ensures var (q, code) := S.Attempts(p, t, 0, CspTimedOut, ws, rs);
            var (found, first) := Obtain(p, t.dest, ws[0]);
            && q.calls == found.calls + Script(first, t, ws[1].connected, rs)
            && code == Verdict(first, ws[1].connected, rs)
    ensures var code, first := S.Attempts(p, t, 0, CspTimedOut, ws, rs).1, Obtain(p, t.dest, ws[0]).1;
            code == OK <==>
              first.Some? && (Confirmed(rs[0]) || (ws[1].connected.Some? && Confirmed(rs[1])))
  {
    hide Obtain, Invalidate, S.Confirm, R.Regular, First, R.NoEntry, Confirmed, Exchange;
    RegularIsShaped(p);
    R.ObtainEffect(p, t.dest, ws[0]);
    var (q, conn) := Obtain(p, t.dest, ws[0]);
    if conn.Some? {
      var (c, ret) := S.Confirm(q, conn.value, t.data, rs[0]);
      ConfirmIsExchange(q, conn.value, t.data, rs[0]);
      if ret != CspOk {
        SameEntry(q, c, t.dest, conn.value);
        var next := Invalidate(c, t.dest);
        SecondAttempt(next, t, ret, ws, rs);
        Joined(q.calls, Exchange(conn.value, t.data, rs[0]), Close(conn.value), Connect(t.dest, ws[1].connected),
               Retried(t, ws[1].connected, rs[1]));
      } else {
        assert S.Attempts(p, t, 0, CspTimedOut, ws, rs) == (c, OK);
      }
    } else {
      assert S.Attempts(p, t, 0, CspTimedOut, ws, rs) == (q, CONNECTION);
      assert q.calls + [] == q.calls;
    }
  }

  lemma Joined(calls: seq<Call>, exchange: seq<Call>, close: Call, connect: Call, rest: seq<Call>)
    ensures ((calls + exchange) + [close]) + [connect] + rest == calls + (exchange + [close, connect] + rest)
  {
  }

  /** A failed first exchange with a connection to be had is followed by a second SFP send. */
  lemma FailureIsRetried(p: Pool, t: S.Task, ws: seq<Weather>, rs: seq<S.Reply>)
    requires R.Regular(p) && |ws| == |rs| == 2
    requires Obtain(p, t.dest, ws[0]).1.Some? && !Confirmed(rs[0]) && ws[1].connected.Some?
    ensures var calls, first := S.Attempts(p, t, 0, CspTimedOut, ws, rs).0.calls, Obtain(p, t.dest, ws[0]).1.value;
            exists a, b :: 0 <= a < b < |calls| && calls[a] == SfpSend(first, t.data, rs[0].sfp)
                           && calls[b] == SfpSend(ws[1].connected.value, t.data, rs[1].sfp)
  {
    hide Obtain, S.Attempts, R.Regular;
    RegularIsShaped(p);
    SendLaw(p, t, ws, rs);
    var (found, first) := Obtain(p, t.dest, ws[0]);
    var second := ws[1].connected.value;
    var calls := S.Attempts(p, t, 0, CspTimedOut, ws, rs).0.calls;
    var exchange := Exchange(first.value, t.data, rs[0]);
    var a, b := |found.calls|, |found.calls| + |exchange| + 2;
    assert calls[a] == Script(first, t, Some(second), rs)[0] == exchange[0];
    assert calls[b] == Script(first, t, Some(second), rs)[|exchange| + 2] == Exchange(second, t.data, rs[1])[0];
  }

  // ----- The same in runs -----

  /** The pool of a world in which a send talks on `conn`: its only entry for the destination. */
  lemma TalksOnEntry(w: A.World) returns (i: int)
    requires A.Inv(w) && !w.phase.Idle?
    ensures R.Regular(w.pool) && A.HoldsAt(w.pool, i, w.phase.conn, w.phase.task.dest)
    ensures forall j :: 0 <= j < |w.pool.entries| && KeptFor(w.phase.task.dest)(w.pool.entries[j]) ==> j == i
  {
    hide A.QuietOk, A.ConnsOk, A.CopiesOk, A.LogOk;
    i :| A.HoldsAt(w.pool, i, w.phase.conn, w.phase.task.dest);
  }

  /** Giving up the exchange in progress drops its connection; in attempt 0 it reconnects. */
  lemma GivesUp(w: A.World, call: Call, ret: CspResult, weather: Weather)
    requires A.Inv(w) && !w.phase.Idle? && ret != CspOk
    ensures Shaped(w.pool)
    ensures var (q, phase) := S.GiveUp(S.Called(w.pool, call), w.phase.task, w.phase.attempt, ret, weather);
            phase == if w.phase.attempt == 0 && weather.connected.Some? then S.Exchanging(weather.connected.value, 1)
                     else S.Finished(S.CodeOf(ret))
  {
    hide A.Inv, Obtain, Invalidate;
    var i := TalksOnEntry(w);
    var p := S.Called(w.pool, call);
    R.InvalidateEffect(p, w.phase.task.dest);
    LooksUpAfresh(Invalidate(p, w.phase.task.dest), w.phase.task.dest, weather);
  }

  /**
   * In every state of every run: when the SFP send fails or the ack does not come, the first
   * attempt goes on to a second one on the new connection if there is one; otherwise, and in the
   * second attempt, the send ends and reports the failure.
   */
  lemma EveryFailureIsRetried(maxAgeMs: uint32, ws: seq<A.World>, es: seq<A.Event>, i: nat)
    requires A.IsRun(maxAgeMs, ws, es) && i < |es| && (es[i].SfpFails? || es[i].AckTimesOut?)
    ensures var w, w', e := ws[i], ws[i + 1], es[i];
            var code := if e.SfpFails? && e.ret == CspFailed then CSP_SEND else TIMEOUT;
            if w.phase.attempt == 0 && e.weather.connected.Some? then
              w'.phase == A.Ready(w.phase.task, 1, e.weather.connected.value) && w'.log == w.log
            else
              w'.phase.Idle? && w'.log == w.log + [A.Report(w.sends, w.phase.task, code, None)]
  {
    hide A.Inv, S.GiveUp, A.Put;
    A.RunInv(maxAgeMs, ws, es, i);
    var w, e := ws[i], es[i];
    var ret := if e.SfpFails? then e.ret else CspTimedOut;
    var call := if e.SfpFails? then SfpSend(w.phase.conn, w.phase.task.data, ret)
                else ReadAck(w.phase.conn, CspTimedOut);
    GivesUp(w, call, ret, e.weather);
  }

  /** A send that starts goes on with a connection, or reports that there is none. */
  lemma EveryStartGoesOn(maxAgeMs: uint32, ws: seq<A.World>, es: seq<A.Event>, i: nat)
    requires A.IsRun(maxAgeMs, ws, es) && i < |es| && es[i].Start?
    ensures Shaped(ws[i].pool)
    ensures var w, w', t := ws[i], ws[i + 1], es[i].task;
            var conn := Obtain(w.pool, t.dest, es[i].weather).1;
            if conn.Some? then w'.phase == A.Ready(t, 0, conn.value) && w'.log == w.log
            else w'.phase.Idle? && w'.log == w.log + [A.Report(w.sends, t, CONNECTION, None)]
  {
    hide Obtain;
  }
}
