/** Connections keep the order of bundles: what the receiver takes comes in the order it was sent. */
module WireOrder {
  import opened Base
  import P = Pool
  import S = Send
  import opened AckProtocol

  /** Where a copy stands in the order of all sends and attempts. */
  function Turn(m: Copy): nat {
    2 * m.send + m.attempt
  }

  ghost predicate InTurn(ms: seq<Copy>) {
    forall a, b :: 0 <= a < b < |ms| ==> Turn(ms[a]) < Turn(ms[b])
  }

  /** Sent in turn, and what was received and what is on its way are in turn too. */
  ghost predicate Wired(c: Conn) {
    InTurn(c.sent) && InTurn(c.received + c.fwd)
  }

  ghost predicate WiresOk(conns: map<Handle, Conn>) {
    forall h :: h in conns ==> Wired(conns[h])
  }

  lemma Append(ms: seq<Copy>, m: Copy)
    requires InTurn(ms) && forall x :: x in ms ==> Turn(x) < Turn(m)
    ensures InTurn(ms + [m])
  {
    forall a | 0 <= a < |ms|
      ensures Turn(ms[a]) < Turn(m)
    {
      assert ms[a] in ms;
    }
  }

  lemma SentFirst(c: Conn, x: Copy)
    requires Honest(c) && x in c.received + c.fwd
    ensures x in c.sent
  {
    assert multiset(c.received + c.fwd) == multiset(c.received) + multiset(c.fwd);
    assert x in multiset(c.received + c.fwd);
    assert x in multiset(c.sent);
  }

  /** Everything on a connection comes before the copy that the current attempt will send. */
  lemma AllBefore(w: World, h: Handle, x: Copy)
    requires Inv(w) && w.phase.Ready? && h in w.conns
    requires x in w.conns[h].sent || x in w.conns[h].received + w.conns[h].fwd
    ensures Turn(x) < Turn(Current(w))
  {
    hide PoolOk, QuietOk, LogOk;
    var c := w.conns[h];
    if x in c.received + c.fwd {
      SentFirst(c, x);
    }
    assert Carried(w.conns, h, x);
    assert Used(x, w.sends, NextAttempt(w));
  }

  lemma PutWired(w: World, h: Handle)
    requires Inv(w) && w.phase.Ready? && h in w.conns && Wired(w.conns[h])
    ensures Wired(Put(w.conns[h], Current(w)))
  {
    hide Inv;
    var c, m := w.conns[h], Current(w);
    forall x | x in c.sent || x in c.received + c.fwd
      ensures Turn(x) < Turn(m)
    {
      AllBefore(w, h, x);
    }
    Append(c.sent, m);
    Append(c.received + c.fwd, m);
    assert c.received + (c.fwd + [m]) == (c.received + c.fwd) + [m];
  }

  lemma Shorter(ms: seq<Copy>, k: nat)
    requires InTurn(ms) && k < |ms|
    ensures InTurn(ms[..k] + ms[k + 1..])
  {
    var rest := ms[..k] + ms[k + 1..];
    assert forall a :: 0 <= a < |rest| ==> rest[a] == ms[if a < k then a else a + 1];
  }

  lemma NetWired(c: Conn, e: Event)
    requires e.Receive? || e.Lose? || e.LoseAck?
    requires CanHappen(c, e) && Wired(c)
    ensures Wired(NetStep(c, e))
  {
    hide InTurn;
    var all := c.received + c.fwd;
    match e
    case Receive(_, _) =>
      assert (c.received + [c.fwd[0]]) + c.fwd[1..] == all;
    case Lose(_, i) =>
      Shorter(all, |c.received| + i);
      assert c.received + (c.fwd[..i] + c.fwd[i + 1..]) == all[..|c.received| + i] + all[|c.received| + i + 1..];
    case LoseAck(_) =>
  }

  lemma Joined(conns: map<Handle, Conn>, w: World, t: S.Task, r: (P.Pool, S.Phase))
    requires WiresOk(conns)
    ensures WiresOk(Settle(w.(conns := conns), t, r).conns)
  {
  }

  lemma StepWired(w: World, e: Event)
    requires Inv(w) && Enabled(w, e) && WiresOk(w.conns)
    ensures WiresOk(Apply(w, e).conns)
  {
    hide Inv, S.Acquire, S.GiveUp, Settle, Put, Wired;
    match e
    case Start(t, weather) => Joined(w.conns, w, t, S.Acquire(w.pool, t, 0, CspTimedOut, weather));
    case SfpSent => PutWired(w, w.phase.conn);
    case SfpFails(ret, leaked, weather) =>
      var ph := w.phase;
      PutWired(w, ph.conn);
      var conns := if leaked then w.conns[ph.conn := Put(w.conns[ph.conn], Current(w))] else w.conns;
      var pool := S.Called(w.pool, SfpSend(ph.conn, ph.task.data, ret));
      Joined(conns, w, ph.task, S.GiveUp(pool, ph.task, ph.attempt, ret, weather));
    case AckRead =>
      var c := w.conns[w.phase.conn];
      SameWire(c, c.(bwd := c.bwd - 1, acksRead := c.acksRead + 1));
    case AckTimesOut(weather) =>
      var ph := w.phase;
      var pool := S.Called(w.pool, ReadAck(ph.conn, CspTimedOut));
      Joined(w.conns, w, ph.task, S.GiveUp(pool, ph.task, ph.attempt, CspTimedOut, weather));
    case Receive(h, _) =>
      NetApply(w, e);
      NetWired(w.conns[h], e);
    case Lose(h, _) =>
      NetApply(w, e);
      NetWired(w.conns[h], e);
    case LoseAck(h) =>
      NetApply(w, e);
      NetWired(w.conns[h], e);
  }

  lemma SameWire(c: Conn, c': Conn)
    requires Wired(c) && c'.sent == c.sent && c'.received == c.received && c'.fwd == c.fwd
    ensures Wired(c')
  {
  }

  /** In every run, each connection's bundles are received in the order they were sent on it. */
  lemma {:induction false} ReceivedInOrder(maxAgeMs: uint32, ws: seq<World>, es: seq<Event>, i: nat)
    requires IsRun(maxAgeMs, ws, es) && i < |ws|
    ensures WiresOk(ws[i].conns)
    ensures forall h :: h in ws[i].conns ==> InTurn(ws[i].conns[h].sent) && InTurn(ws[i].conns[h].received)
  {
    hide Apply, Enabled, Inv;
    if i > 0 {
      ReceivedInOrder(maxAgeMs, ws, es, i - 1);
      RunInv(maxAgeMs, ws, es, i - 1);
      StepWired(ws[i - 1], es[i - 1]);
    }
    forall h | h in ws[i].conns
      ensures InTurn(ws[i].conns[h].sent) && InTurn(ws[i].conns[h].received)
    {
      ReceivedPart(ws[i].conns[h]);
    }
  }

  lemma ReceivedPart(c: Conn)
    requires Wired(c)
    ensures InTurn(c.sent) && InTurn(c.received)
  {
    forall a, b | 0 <= a < b < |c.received|
      ensures Turn(c.received[a]) < Turn(c.received[b])
    {
      assert (c.received + c.fwd)[a] == c.received[a] && (c.received + c.fwd)[b] == c.received[b];
    }
  }
}
