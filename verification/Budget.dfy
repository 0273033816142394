/**
 * The size of libcsp's connection table is enough for one instance: at every moment of every
 * run, outbound and inbound connections together leave two entries free
 * (src/cspcl.c:285-286, rust-bindings/cspcl/src/inbound.rs:42-48).
 */
module Budget {
  import opened Base
  import opened P = Pool
  import L = PoolLedger
  import S = Send
  import A = AckProtocol
  import R = Receiver
  import B = ReceiverBounds

  /** The pool's handles are accounted for, and it never had more than 16 connections open. */
  ghost predicate Within(p: Pool) {
    L.Sound(p) && L.AlwaysWithin(p.calls, POOL_SIZE)
  }

  /** Sending and reading open and close nothing. */
  lemma CalledWithin(p: Pool, c: Call)
    requires Within(p) && (c.SfpSend? || c.ReadAck?)
    ensures Within(S.Called(p, c))
  {
    hide L.Sound, L.AlwaysWithin;
    L.FailedSound(p, c);
    L.SoundCount(p.(calls := p.calls + [c]));
    L.OneMoreCall(p.calls, c, POOL_SIZE);
  }

  lemma AcquireWithin(p: Pool, t: S.Task, attempt: nat, ret: CspResult, w: Weather)
    requires Within(p)
    ensures Within(S.Acquire(p, t, attempt, ret, w).0)
  {
    hide L.Sound, L.AlwaysWithin, Obtain;
    L.ObtainSound(p, t.dest, w);
    L.ObtainWithin(p, t.dest, w);
    SoundIsShaped(p);
  }

  lemma SoundIsShaped(p: Pool)
    requires L.Sound(p)
    ensures Shaped(p)
  {
  }

  lemma GiveUpWithin(p: Pool, t: S.Task, attempt: nat, ret: CspResult, w: Weather)
    requires Within(p)
    ensures Within(S.GiveUp(p, t, attempt, ret, w).0)
  {
    hide L.Sound, L.AlwaysWithin, Obtain, Invalidate, S.Acquire;
    L.InvalidateSound(p, t.dest);
    L.InvalidateWithin(p, t.dest);
    SoundIsShaped(p);
    SoundIsShaped(Invalidate(p, t.dest));
    if attempt == 0 {
      AcquireWithin(Invalidate(p, t.dest), t, 1, ret, w);
    }
  }

  lemma StepWithin(w: A.World, e: A.Event)
    requires Within(w.pool) && A.Enabled(w, e)
    ensures Within(A.Apply(w, e).pool)
  {
    hide Within, S.Acquire, S.GiveUp;
    match e
    case Start(t, weather) => AcquireWithin(w.pool, t, 0, CspTimedOut, weather);
    case SfpSent => CalledWithin(w.pool, SfpSend(w.phase.conn, w.phase.task.data, CspOk));
    case SfpFails(ret, _, weather) =>
      var call := SfpSend(w.phase.conn, w.phase.task.data, ret);
      CalledWithin(w.pool, call);
      GiveUpWithin(S.Called(w.pool, call), w.phase.task, w.phase.attempt, ret, weather);
    case AckRead => CalledWithin(w.pool, ReadAck(w.phase.conn, CspOk));
    case AckTimesOut(weather) =>
      var call := ReadAck(w.phase.conn, CspTimedOut);
      CalledWithin(w.pool, call);
      GiveUpWithin(S.Called(w.pool, call), w.phase.task, w.phase.attempt, CspTimedOut, weather);
    case Receive(_, _) =>
    case Lose(_, _) =>
    case LoseAck(_) =>
  }

  lemma InitWithin(maxAgeMs: uint32)
    ensures Within(P.Init(maxAgeMs))
  {
    L.InitSound(maxAgeMs);
    L.SoundCount(P.Init(maxAgeMs));
    assert forall n :: 0 <= n <= |P.Init(maxAgeMs).calls| ==> P.Init(maxAgeMs).calls[..n] == P.Init(maxAgeMs).calls;
  }

  lemma {:induction false} RunWithin(maxAgeMs: uint32, ws: seq<A.World>, es: seq<A.Event>, i: nat)
    requires A.IsRun(maxAgeMs, ws, es) && i < |ws|
    ensures Within(ws[i].pool)
  {
    hide Within, A.Apply, A.Enabled;
    if i == 0 {
      InitWithin(maxAgeMs);
    } else {
      RunWithin(maxAgeMs, ws, es, i - 1);
      StepWithin(ws[i - 1], es[i - 1]);
    }
  }

  /**
   * The budget: whatever the sender has done (any state of any run, also in the middle of an
   * operation, after its first `n` calls to libcsp) and whatever the receiver has done, the
   * connections open on the instance are at most `conn_max` - 2.
   */
  lemma ConnectionBudget(maxAgeMs: uint32, ws: seq<A.World>, wes: seq<A.Event>, i: nat, n: nat,
                         ss: seq<R.State>, ses: seq<R.Event>, j: nat)
    requires A.IsRun(maxAgeMs, ws, wes) && i < |ws| && n <= |ws[i].pool.calls|
    requires R.IsRun(ss, ses) && j < |ss|
    ensures L.OpenNow(ws[i].pool.calls[..n]) + |B.OpenConns(ss[j])| + |B.Unregistered(ss[j])| <= 26 == CONN_MAX - 2
  {
    RunWithin(maxAgeMs, ws, wes, i);
    B.InboundBounds(ss, ses, j);
  }
}
