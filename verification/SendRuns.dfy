/**
 * The sends of the protocol are runs of the retry loop: whatever peers and network do in
 * between, a send that starts and finishes in a run of `AckProtocol` leaves the pool, and
 * reports, what `cspcl_send_bundle` computes for some answers of libcsp. Its contract therefore
 * holds for every send of every run.
 */
module SendRuns {
  import opened Base
  import P = Pool
  import S = Send
  import A = AckProtocol
  import R = Retry

  /** What is left of a send whose SFP send succeeded: the ack is read, or it is given up. */
  function AfterSend(p: P.Pool, t: S.Task, conn: Handle, attempt: nat, w: P.Weather, rs: seq<S.Reply>): (P.Pool, Code)
    requires P.Shaped(p) && |rs| == 2 && attempt <= 1
  {
    if rs[attempt].acked then (S.Called(p, ReadAck(conn, CspOk)), OK)
    else
      var (q, phase) := S.GiveUp(S.Called(p, ReadAck(conn, CspTimedOut)), t, attempt, CspTimedOut, w);
      S.Proceed(q, t, phase, [w, w], rs)
  }

  ghost predicate Sending(w: A.World) {
    P.Shaped(w.pool) && !w.phase.Idle? && w.phase.attempt <= 1
  }

  /** How the send in progress ends, if libcsp answers `weather` and `rs` from now on. */
  ghost function Future(w: A.World, weather: P.Weather, rs: seq<S.Reply>): (P.Pool, Code)
    requires Sending(w) && |rs| == 2
  {
    match w.phase
    case Ready(t, attempt, conn) => S.Proceed(w.pool, t, S.Exchanging(conn, attempt), [weather, weather], rs)
    case Waiting(t, attempt, conn) => AfterSend(w.pool, t, conn, attempt, weather, rs)
  }

  /** The send in progress at `i` is the one that finishes with step `j - 1`. */
  ghost predicate Spans(ws: seq<A.World>, i: nat, j: nat) {
    && i < j < |ws| && ws[j].sends == ws[i].sends + 1
    && (forall m :: i <= m < j ==> ws[m].sends == ws[i].sends)
  }

  ghost predicate Reports(w: A.World, r: (P.Pool, Code)) {
    |w.log| > 0 && (w.pool, w.log[|w.log| - 1].code) == r
  }

  // ----- One step -----

  /** The weather matters only to the connection of the second attempt, the replies only to their own attempt. */
  lemma LastAttempt(p: P.Pool, t: S.Task, phase: S.Phase, ws: seq<P.Weather>, rs: seq<S.Reply>, ws': seq<P.Weather>,
                    rs': seq<S.Reply>)
    requires P.Shaped(p) && |ws| == |rs| == |ws'| == |rs'| == 2
    requires phase.Exchanging? ==> phase.attempt == 1 && rs[1] == rs'[1]
    ensures S.Proceed(p, t, phase, ws, rs) == S.Proceed(p, t, phase, ws', rs')
  {
    hide P.Invalidate;
  }

  lemma Succeeded(p: P.Pool, t: S.Task, conn: Handle, attempt: nat, w: P.Weather, rs: seq<S.Reply>)
    requires P.Shaped(p) && |rs| == 2 && attempt <= 1
    ensures var rs' := rs[attempt := S.Reply(CspOk, rs[attempt].acked)];
            S.Proceed(p, t, S.Exchanging(conn, attempt), [w, w], rs')
            == AfterSend(S.Called(p, SfpSend(conn, t.data, CspOk)), t, conn, attempt, w, rs)
  {
    hide S.GiveUp;
    var rs' := rs[attempt := S.Reply(CspOk, rs[attempt].acked)];
    if !rs[attempt].acked {
      var (q, phase) := S.GiveUp(S.Called(S.Called(p, SfpSend(conn, t.data, CspOk)), ReadAck(conn, CspTimedOut)), t,
                                 attempt, CspTimedOut, w);
      LastAttempt(q, t, phase, [w, w], rs, [w, w], rs');
    }
  }

  /** Giving up the exchange on the way: the rest of the send, from the phase it leads to. */
  lemma GivenUp(w: A.World, t: S.Task, attempt: nat, p: P.Pool, ret: CspResult, weather: P.Weather,
                conns: map<Handle, A.Conn>)
    requires P.Shaped(p) && attempt <= 1
    ensures var (q, phase) := S.GiveUp(p, t, attempt, ret, weather);
            var w' := A.Settle(w.(conns := conns), t, (q, phase));
            if phase.Finished? then w'.sends == w.sends + 1 && Reports(w', (q, phase.code))
            else w'.sends == w.sends && Sending(w') && w'.pool == q && w'.phase == A.Ready(t, 1, phase.conn)
  {
    hide S.GiveUp;
  }

  lemma FailedExchange(p: P.Pool, t: S.Task, conn: Handle, attempt: nat, ret: CspResult, weather: P.Weather,
                       rs: seq<S.Reply>)
    requires P.Shaped(p) && |rs| == 2 && attempt <= 1 && ret != CspOk && rs[attempt] == S.Reply(ret, false)
    ensures var (q, phase) := S.GiveUp(S.Called(p, SfpSend(conn, t.data, ret)), t, attempt, ret, weather);
            S.Proceed(p, t, S.Exchanging(conn, attempt), [weather, weather], rs)
            == S.Proceed(q, t, phase, [weather, weather], rs)
  {
    hide S.GiveUp;
  }

  lemma TimedOut(p: P.Pool, t: S.Task, conn: Handle, attempt: nat, weather: P.Weather, rs: seq<S.Reply>)
    requires P.Shaped(p) && |rs| == 2 && attempt <= 1 && !rs[attempt].acked
    ensures var (q, phase) := S.GiveUp(S.Called(p, ReadAck(conn, CspTimedOut)), t, attempt, CspTimedOut, weather);
            AfterSend(p, t, conn, attempt, weather, rs) == S.Proceed(q, t, phase, [weather, weather], rs)
  {
    hide S.GiveUp;
  }

  /** Both ways to give up an exchange: the failed SFP send, and the ack that did not come. */
  ghost predicate GivesUp(w: A.World, e: A.Event, ret: CspResult, weather: P.Weather) {
    && Sending(w) && A.Enabled(w, e)
    && (|| (w.phase.Ready? && e.SfpFails? && e.ret == ret && e.weather == weather)
        || (w.phase.Waiting? && e.AckTimesOut? && e.weather == weather && ret == CspTimedOut))
  }

  function GivenUpCall(ph: A.Phase, ret: CspResult): Call
    requires !ph.Idle?
  {
    if ph.Ready? then SfpSend(ph.conn, ph.task.data, ret) else ReadAck(ph.conn, CspTimedOut)
  }

  ghost function GiveUpOf(w: A.World, ret: CspResult, weather: P.Weather): (r: (P.Pool, S.Phase))
    requires Sending(w)
    ensures P.Shaped(r.0) && (r.1.Exchanging? ==> w.phase.attempt == 0 && r.1.attempt == 1)
  {
    S.GiveUp(S.Called(w.pool, GivenUpCall(w.phase, ret)), w.phase.task, w.phase.attempt, ret, weather)
  }

  lemma GiveUpStep(w: A.World, e: A.Event, ret: CspResult, weather: P.Weather)
    requires GivesUp(w, e, ret, weather)
    ensures var w', (q, phase) := A.Apply(w, e), GiveUpOf(w, ret, weather);
            if phase.Finished? then w'.sends == w.sends + 1 && Reports(w', (q, phase.code))
            else w'.sends == w.sends && Sending(w') && w'.pool == q && w'.phase == A.Ready(w.phase.task, 1, phase.conn)
  {
    hide S.GiveUp, A.Settle, Reports, Sending;
    ShapedWhileSending(w);
    var h, conns := w.phase.conn, w.conns;
    if e.SfpFails? && e.leaked {
      conns := w.conns[h := A.Put(w.conns[h], A.Current(w))];
    }
    GivenUp(w, w.phase.task, w.phase.attempt, S.Called(w.pool, GivenUpCall(w.phase, ret)), ret, weather, conns);
  }

  lemma ShapedWhileSending(w: A.World)
    requires Sending(w)
    ensures P.Shaped(w.pool) && !w.phase.Idle? && w.phase.attempt <= 1
  {
  }

  lemma GiveUpFuture(w: A.World, e: A.Event, ret: CspResult, weather: P.Weather, rs: seq<S.Reply>)
    requires GivesUp(w, e, ret, weather) && |rs| == 2 && rs[w.phase.attempt] == S.Reply(ret, false)
    ensures var (q, phase) := GiveUpOf(w, ret, weather);
            Future(w, weather, rs) == S.Proceed(q, w.phase.task, phase, [weather, weather], rs)
  {
    hide S.GiveUp, S.Proceed, AfterSend, A.Fresh;
    var ph := w.phase;
    if ph.Ready? {
      FailedExchange(w.pool, ph.task, ph.conn, ph.attempt, ret, weather, rs);
    } else {
      TimedOut(w.pool, ph.task, ph.conn, ph.attempt, weather, rs);
    }
  }

  lemma FinishedProceeds(p: P.Pool, t: S.Task, code: Code, ws: seq<P.Weather>, rs: seq<S.Reply>)
    requires P.Shaped(p) && |ws| == |rs| == 2
    ensures S.Proceed(p, t, S.Finished(code), ws, rs) == (p, code)
  {
  }

  lemma AckStep(w: A.World, weather: P.Weather, rs: seq<S.Reply>)
    requires Sending(w) && A.Enabled(w, A.AckRead) && |rs| == 2 && rs[w.phase.attempt].acked
    ensures A.Apply(w, A.AckRead).sends == w.sends + 1
    ensures Reports(A.Apply(w, A.AckRead), Future(w, weather, rs))
  {
  }

  lemma Only(w: A.World, e: A.Event)
    requires A.Enabled(w, e) && !w.phase.Idle? && !e.Receive? && !e.Lose? && !e.LoseAck? && !e.SfpSent? && !e.AckRead?
    ensures (e.SfpFails? && w.phase.Ready? && e.ret != CspOk) || (e.AckTimesOut? && w.phase.Waiting?)
  {
  }

  /** The rest of a send, from any moment in it: some answers of libcsp lead to what it reports. */
  lemma {:induction false} RestOfSend(maxAgeMs: uint32, ws: seq<A.World>, es: seq<A.Event>, i: nat, j: nat)
    returns (weather: P.Weather, rs: seq<S.Reply>)
    requires A.IsRun(maxAgeMs, ws, es) && Spans(ws, i, j) && Sending(ws[i])
    ensures |rs| == 2 && Reports(ws[j], Future(ws[i], weather, rs))
    decreases j - i, 1
  {
    hide A.Enabled, A.Apply, S.GiveUp, S.Proceed, AfterSend, Reports;
    var w, e := ws[i], es[i];
    var ph := w.phase;
    if e.Receive? || e.Lose? || e.LoseAck? {
      NetworkOnly(w, e);
      weather, rs := RestOfSend(maxAgeMs, ws, es, i + 1, j);
    } else if e.SfpSent? {
      SentStep(w);
      weather, rs := RestOfSend(maxAgeMs, ws, es, i + 1, j);
      Succeeded(w.pool, ph.task, ph.conn, ph.attempt, weather, rs);
      rs := rs[ph.attempt := S.Reply(CspOk, rs[ph.attempt].acked)];
    } else if e.AckRead? {
      weather, rs := P.Weather(0, None, 0), [S.Reply(CspOk, true), S.Reply(CspOk, true)];
      AckStep(w, weather, rs);
      assert ws[i + 1] == A.Apply(w, e) && j == i + 1;
    } else {
      Only(w, e);
      weather := e.weather;
      rs := RestAfterGivingUp(maxAgeMs, ws, es, i, j, if e.SfpFails? then e.ret else CspTimedOut, weather);
    }
  }

  lemma {:induction false} RestAfterGivingUp(maxAgeMs: uint32, ws: seq<A.World>, es: seq<A.Event>, i: nat, j: nat,
                                             ret: CspResult, weather: P.Weather) returns (rs: seq<S.Reply>)
    requires A.IsRun(maxAgeMs, ws, es) && Spans(ws, i, j) && ret != CspOk && GivesUp(ws[i], es[i], ret, weather)
    ensures |rs| == 2 && Reports(ws[j], Future(ws[i], weather, rs))
    decreases j - i, 0
  {
    hide A.Enabled, A.Apply, S.GiveUp, S.Proceed, AfterSend, Reports, GiveUpOf;
    var w, ph := ws[i], ws[i].phase;
    GiveUpStep(w, es[i], ret, weather);
    var (q, phase) := GiveUpOf(w, ret, weather);
    var failed := S.Reply(ret, false);
    if phase.Finished? {
      rs := [failed, failed];
      FinishedProceeds(q, ph.task, phase.code, [weather, weather], rs);
      assert ws[i + 1] == A.Apply(w, es[i]) && j == i + 1;
    } else {
      var weather', rs' := RestOfSend(maxAgeMs, ws, es, i + 1, j);
      rs := [failed, rs'[1]];
      LastAttempt(q, ph.task, phase, [weather', weather'], rs', [weather, weather], rs);
    }
    GiveUpFuture(w, es[i], ret, weather, rs);
  }

  lemma NetworkOnly(w: A.World, e: A.Event)
    requires A.Enabled(w, e) && (e.Receive? || e.Lose? || e.LoseAck?)
    ensures var w' := A.Apply(w, e);
            w'.pool == w.pool && w'.phase == w.phase && w'.sends == w.sends && w'.log == w.log
  {
  }

  lemma SentStep(w: A.World)
    requires A.Enabled(w, A.SfpSent)
    ensures var w', ph := A.Apply(w, A.SfpSent), w.phase;
            && ph.Ready? && w'.pool == S.Called(w.pool, SfpSend(ph.conn, ph.task.data, CspOk)) && w'.sends == w.sends
            && w'.phase == A.Waiting(ph.task, ph.attempt, ph.conn)
  {
  }

  // ----- Whole sends -----

  lemma StartStep(w: A.World, t: S.Task, weather: P.Weather)
    requires A.Enabled(w, A.Start(t, weather))
    ensures P.Shaped(w.pool)
    ensures var w', (q, phase) := A.Apply(w, A.Start(t, weather)), S.Acquire(w.pool, t, 0, CspTimedOut, weather);
            if phase.Finished? then w'.sends == w.sends + 1 && Reports(w', (q, phase.code))
            else w'.sends == w.sends && Sending(w') && w'.pool == q && w'.phase == A.Ready(t, 0, phase.conn)
  {
    hide S.Acquire;
  }

  /**
   * Refinement: every send that starts with step `i` of a run and finishes with step `j - 1`
   * leaves the pool, and reports, what the retry loop of `cspcl_send_bundle` computes for some
   * answers of libcsp, whatever else happened in between.
   */
  lemma SendIsAttempts(maxAgeMs: uint32, ws: seq<A.World>, es: seq<A.Event>, i: nat, j: nat)
    returns (weathers: seq<P.Weather>, rs: seq<S.Reply>)
    requires A.IsRun(maxAgeMs, ws, es) && Spans(ws, i, j) && es[i].Start?
    ensures |weathers| == |rs| == 2 && P.Shaped(ws[i].pool)
    ensures Reports(ws[j], S.Attempts(ws[i].pool, es[i].task, 0, CspTimedOut, weathers, rs))
  {
    hide A.Enabled, A.Apply, S.GiveUp, S.Proceed, S.Attempts, S.Acquire, Reports;
    var w, t, weather := ws[i], es[i].task, es[i].weather;
    StartStep(w, t, weather);
    var (q, phase) := S.Acquire(w.pool, t, 0, CspTimedOut, weather);
    assert ws[i + 1] == A.Apply(w, es[i]);
    if phase.Finished? {
      weathers, rs := [weather, weather], [S.Reply(CspOk, true), S.Reply(CspOk, true)];
      FinishedProceeds(q, t, phase.code, weathers, rs);
    } else {
      var later, rs' := RestOfSend(maxAgeMs, ws, es, i + 1, j);
      weathers, rs := [weather, later], rs';
      SecondWeather(q, t, phase, [later, later], weathers, rs);
    }
    S.LoopIsPhases(w.pool, t, 0, CspTimedOut, weathers, rs);
  }

  lemma SecondWeather(p: P.Pool, t: S.Task, phase: S.Phase, ws: seq<P.Weather>, ws': seq<P.Weather>, rs: seq<S.Reply>)
    requires P.Shaped(p) && |ws| == |ws'| == |rs| == 2 && phase.Exchanging? && phase.attempt == 0 && ws[1] == ws'[1]
    ensures S.Proceed(p, t, phase, ws, rs) == S.Proceed(p, t, phase, ws', rs)
  {
    hide S.GiveUp;
    var (q, ret) := S.Confirm(p, phase.conn, t.data, rs[0]);
    if ret != CspOk {
      var (q', phase') := S.GiveUp(q, t, 0, ret, ws[1]);
      LastAttempt(q', t, phase', ws, rs, ws', rs);
    }
  }

  // ----- Their contract -----

  /** The retry contract holds for every send of every run, of any length and at any tick. */
  lemma EverySendKeepsTheContract(maxAgeMs: uint32, ws: seq<A.World>, es: seq<A.Event>, i: nat, j: nat)
    requires A.IsRun(maxAgeMs, ws, es) && Spans(ws, i, j) && es[i].Start?
    ensures |ws[j].log| > 0 && R.Contract(ws[i].pool, ws[j].pool, es[i].task, ws[j].log[|ws[j].log| - 1].code)
  {
    hide A.Apply, A.Enabled, R.Contract, S.Attempts;
    A.RunInv(maxAgeMs, ws, es, i);
    var weathers, rs := SendIsAttempts(maxAgeMs, ws, es, i, j);
    R.RetryContract(ws[i].pool, es[i].task, weathers, rs);
  }

  // ----- Recency -----

  /** The step looks a connection up, which is what advances the tick. */
  ghost predicate LooksUp(w: A.World, e: A.Event) {
    e.Start? || ((e.SfpFails? || e.AckTimesOut?) && !w.phase.Idle? && w.phase.attempt == 0)
  }

  /** How many lookups the first `i` steps made. */
  ghost function Lookups(ws: seq<A.World>, es: seq<A.Event>, i: nat): nat
    requires i <= |es| <= |ws|
  {
    if i == 0 then 0 else Lookups(ws, es, i - 1) + if LooksUp(ws[i - 1], es[i - 1]) then 1 else 0
  }

  /** No wrap so far: the tick counts the lookups, no stamp is later, and one slot at most is stamped now. */
  ghost predicate Steady(p: P.Pool, lookups: nat) {
    P.Shaped(p) && R.Stamped(p) && R.OneNow(p) && p.tick == lookups
  }

  lemma CalledSteady(p: P.Pool, c: Call, n: nat)
    requires Steady(p, n)
    ensures Steady(S.Called(p, c), n)
  {
    hide R.Stamped, R.OneNow;
    R.SameStamps(p, S.Called(p, c));
  }

  lemma AcquireSteady(p: P.Pool, t: S.Task, attempt: nat, ret: CspResult, w: P.Weather)
    requires P.Shaped(p) && R.Stamped(p) && p.tick < 0xFFFF_FFFF
    ensures Steady(S.Acquire(p, t, attempt, ret, w).0, p.tick + 1)
  {
    hide P.Obtain, R.Stamped, R.OneNow;
    R.ObtainStamps(p, t.dest, w);
  }

  lemma GiveUpSteady(p: P.Pool, t: S.Task, attempt: nat, ret: CspResult, w: P.Weather)
    requires Steady(p, p.tick) && (attempt == 0 ==> p.tick < 0xFFFF_FFFF)
    ensures Steady(S.GiveUp(p, t, attempt, ret, w).0, if attempt == 0 then p.tick + 1 else p.tick)
  {
    hide P.Invalidate, S.Acquire, R.Stamped, R.OneNow;
    R.InvalidateStamps(p, t.dest);
    if attempt == 0 {
      AcquireSteady(P.Invalidate(p, t.dest), t, 1, ret, w);
    }
  }

  lemma StepSteady(w: A.World, e: A.Event)
    requires Steady(w.pool, w.pool.tick) && A.Enabled(w, e) && (LooksUp(w, e) ==> w.pool.tick < 0xFFFF_FFFF)
    ensures Steady(A.Apply(w, e).pool, if LooksUp(w, e) then w.pool.tick + 1 else w.pool.tick)
  {
    hide R.Stamped, R.OneNow, S.Acquire, S.GiveUp;
    match e
    case Start(t, weather) => AcquireSteady(w.pool, t, 0, CspTimedOut, weather);
    case SfpSent => CalledSteady(w.pool, SfpSend(w.phase.conn, w.phase.task.data, CspOk), w.pool.tick);
    case SfpFails(ret, _, weather) =>
      var call := SfpSend(w.phase.conn, w.phase.task.data, ret);
      CalledSteady(w.pool, call, w.pool.tick);
      GiveUpSteady(S.Called(w.pool, call), w.phase.task, w.phase.attempt, ret, weather);
    case AckRead => CalledSteady(w.pool, ReadAck(w.phase.conn, CspOk), w.pool.tick);
    case AckTimesOut(weather) =>
      var call := ReadAck(w.phase.conn, CspTimedOut);
      CalledSteady(w.pool, call, w.pool.tick);
      GiveUpSteady(S.Called(w.pool, call), w.phase.task, w.phase.attempt, CspTimedOut, weather);
    case Receive(_, _) =>
    case Lose(_, _) =>
    case LoseAck(_) =>
  }

  lemma InitSteady(maxAgeMs: uint32)
    ensures Steady(P.Init(maxAgeMs), 0)
  {
    assert forall i :: !R.StampedNow(P.Init(maxAgeMs), i);
  }

  lemma {:induction false} RunSteady(maxAgeMs: uint32, ws: seq<A.World>, es: seq<A.Event>, i: nat)
    requires A.IsRun(maxAgeMs, ws, es) && i < |ws| && Lookups(ws, es, i) <= 0xFFFF_FFFF
    ensures Steady(ws[i].pool, Lookups(ws, es, i))
  {
    hide A.Apply, A.Enabled, LooksUp, R.Stamped, R.OneNow;
    if i == 0 {
      InitSteady(maxAgeMs);
    } else {
      RunSteady(maxAgeMs, ws, es, i - 1);
      StepSteady(ws[i - 1], es[i - 1]);
    }
  }

  /**
   * In every run whose lookups so far do not exceed the tick's range, whatever else happened, an
   * OK leaves the one entry of its destination as the most recently used one.
   */
  lemma EveryOkIsMostRecent(maxAgeMs: uint32, ws: seq<A.World>, es: seq<A.Event>, i: nat, j: nat)
    returns (k: nat, conn: Option<Handle>)
    requires A.IsRun(maxAgeMs, ws, es) && Spans(ws, i, j) && es[i].Start? && Lookups(ws, es, j) <= 0xFFFF_FFFF
    requires |ws[j].log| > 0 && ws[j].log[|ws[j].log| - 1].code == OK
    ensures R.OnlyEntry(ws[j].pool, es[i].task.dest, k, conn) && R.MostRecent(ws[j].pool, k)
  {
    hide A.Apply, A.Enabled, R.Stamped, R.OneNow, R.TwoSends;
    EverySendKeepsTheContract(maxAgeMs, ws, es, i, j);
    RunSteady(maxAgeMs, ws, es, j);
    k, conn :| R.Delivered(ws[j].pool, es[i].task.dest, k, conn);
    R.LastStampIsMostRecent(ws[j].pool, es[i].task.dest, k, conn);
  }
}
