/**
 * A sender and a Rust receiver together: what becomes, on the receiving side, of each bundle
 * whose send returned OK.
 *
 * The two state machines run side by side. They meet where a listener receives a bundle: the
 * copy leaves the connection, is acknowledged, and is in the listener's hand, in one call of
 * `cspcl_recv_from_conn_timeout`. The sender may talk to other nodes and the receiver hear
 * from other senders meanwhile.
 */
module EndToEnd {
  import opened Base
  import H = Hub
  import A = AckProtocol
  import R = Receiver
  import C = ReceiverCoupling
  import B = ReceiverBounds
  import V = ReceiverConservation

  /** `here` is the address and port the receiver listens on. */
  datatype System = System(here: Dest, world: A.World, rx: R.State)

  datatype Event =
    | Sending(send: A.Event)              // the sender, the network, or another receiver
    | Receiving(receive: R.Event)         // the receiver, but for a bundle of this sender
    | Transfer(l: nat, acked: bool)       // listener `l` receives a bundle of this sender

  /** The connection `h` leads here. */
  ghost predicate Local(s: System, h: Handle) {
    h in s.world.conns && s.world.conns[h].dest == s.here
  }

  ghost predicate TakesOurs(e: R.Event) {
    e.OnListener? && e.listener.Receive? && e.listener.outcome.Bundle? && !e.listener.outcome.bundle.Foreign?
  }

  ghost predicate Enabled(s: System, e: Event) {
    match e
    case Sending(we) => A.Enabled(s.world, we) && !(we.Receive? && Local(s, we.at))
    case Receiving(re) => R.Enabled(s.rx, re) && !TakesOurs(re)
    case Transfer(l, acked) =>
      && l < |s.rx.threads| && Local(s, s.rx.threads[l].conn)
      && A.Enabled(s.world, A.Receive(s.rx.threads[l].conn, acked))
      && R.Enabled(s.rx, Taking(s, l))
  }

  /** Listener `l` receives the next bundle of its connection. */
  ghost function Taking(s: System, l: nat): R.Event
    requires l < |s.rx.threads| && Local(s, s.rx.threads[l].conn) && s.world.conns[s.rx.threads[l].conn].fwd != []
  {
    R.OnListener(l, R.Receive(R.Bundle(s.world.conns[s.rx.threads[l].conn].fwd[0])))
  }

  ghost function Apply(s: System, e: Event): System
    requires Enabled(s, e)
  {
    match e
    case Sending(we) => s.(world := A.Apply(s.world, we))
    case Receiving(re) => s.(rx := R.Apply(s.rx, re))
    case Transfer(l, acked) =>
      s.(world := A.Apply(s.world, A.Receive(s.rx.threads[l].conn, acked)), rx := R.Apply(s.rx, Taking(s, l)))
  }

  ghost predicate IsRun(maxAgeMs: uint32, ss: seq<System>, es: seq<Event>) {
    && |ss| == |es| + 1
    && ss[0] == System(ss[0].here, A.Init(maxAgeMs), R.Init(ss[0].rx.now))
    && (forall i :: 0 <= i < |es| ==> Enabled(ss[i], es[i]) && ss[i + 1] == Apply(ss[i], es[i]))
  }

  // ----- What joins the two sides -----

  /** The receiver here accepted copy `m`. */
  ghost predicate AcceptedHere(s: System, m: Copy) {
    exists h :: Local(s, h) && A.Accepted(s.world, h, m)
  }

  /** Each copy of this sender was acknowledged once if it was accepted here, and otherwise not at all. */
  ghost predicate Joint(s: System) {
    forall m: Copy :: m.Copy? ==> s.rx.acked[m] == if AcceptedHere(s, m) then 1 else 0
  }

  ghost predicate RxOk(rx: R.State) {
    C.Coupled(rx) && B.TableOk(rx) && V.Conserved(rx)
  }

  ghost predicate Inv(s: System) {
    A.Inv(s.world) && RxOk(s.rx) && Joint(s)
  }

  lemma RxStep(rx: R.State, e: R.Event)
    requires RxOk(rx) && R.Enabled(rx, e)
    ensures RxOk(R.Apply(rx, e))
  {
    hide C.Coupled, B.TableOk, V.Conserved, R.Apply, R.Enabled;
    C.StepCoupled(rx, e);
    B.StepTable(rx, e);
    V.StepConserved(rx, e);
  }

  lemma InitInv(here: Dest, maxAgeMs: uint32, now: H.Time)
    ensures Inv(System(here, A.Init(maxAgeMs), R.Init(now)))
  {
    A.InitInv(maxAgeMs);
    C.InitCoupled(now);
    B.InitTable(now);
    assert V.Conserved(R.Init(now));
  }

  // ----- Steps of one side alone -----

  /** Only a receive changes what was received on a connection, and none changes where one leads. */
  ghost predicate SameReceived(w: A.World, w': A.World) {
    && (forall h :: h in w.conns ==>
          h in w'.conns && w'.conns[h].dest == w.conns[h].dest && w'.conns[h].received == w.conns[h].received)
    && (forall h :: h in w'.conns && h !in w.conns ==> w'.conns[h].received == [])
  }

  lemma SettleReceived(w: A.World, t: A.S.Task, r: (A.P.Pool, A.S.Phase))
    ensures SameReceived(w, A.Settle(w, t, r))
  {
  }

  lemma PutReceived(w: A.World, w': A.World, h: Handle, m: Copy)
    requires h in w.conns && w'.conns == w.conns[h := A.Put(w.conns[h], m)]
    ensures SameReceived(w, w')
  {
  }

  lemma ReceivedTwice(w: A.World, w': A.World, w'': A.World)
    requires SameReceived(w, w') && SameReceived(w', w'')
    ensures SameReceived(w, w'')
  {
  }

  lemma SenderReceived(w: A.World, e: A.Event)
    requires A.Enabled(w, e) && !e.Receive?
    ensures SameReceived(w, A.Apply(w, e))
  {
    hide A.P.Obtain, A.P.Invalidate, A.S.Acquire, A.S.GiveUp, A.Settle, A.Put, SameReceived;
    match e
    case Start(t, weather) => SettleReceived(w, t, A.S.Acquire(w.pool, t, 0, CspTimedOut, weather));
    case SfpSent => PutReceived(w, A.Apply(w, e), w.phase.conn, A.Current(w));
    case SfpFails(ret, leaked, weather) =>
      var ph := w.phase;
      var w' := if leaked then w.(conns := w.conns[ph.conn := A.Put(w.conns[ph.conn], A.Current(w))]) else w;
      if leaked {
        PutReceived(w, w', ph.conn, A.Current(w));
      } else {
        NothingReceived(w, w');
      }
      var pool := A.S.Called(w.pool, SfpSend(ph.conn, ph.task.data, ret));
      SettleReceived(w', ph.task, A.S.GiveUp(pool, ph.task, ph.attempt, ret, weather));
      ReceivedTwice(w, w', A.Apply(w, e));
    case AckRead => NothingReceived(w, A.Apply(w, e));
    case AckTimesOut(weather) =>
      var ph := w.phase;
      var pool := A.S.Called(w.pool, ReadAck(ph.conn, CspTimedOut));
      SettleReceived(w, ph.task, A.S.GiveUp(pool, ph.task, ph.attempt, CspTimedOut, weather));
    case Lose(_, _) => NothingReceived(w, A.Apply(w, e));
    case LoseAck(_) => NothingReceived(w, A.Apply(w, e));
  }

  lemma NothingReceived(w: A.World, w': A.World)
    requires w'.conns.Keys == w.conns.Keys
    requires forall h :: h in w.conns ==>
          w'.conns[h].dest == w.conns[h].dest && w'.conns[h].received == w.conns[h].received
    ensures SameReceived(w, w')
  {
    assert forall h :: h in w'.conns ==> h in w'.conns.Keys;
  }

  lemma SendingStep(s: System, we: A.Event)
    requires Inv(s) && Enabled(s, Sending(we))
    ensures Inv(Apply(s, Sending(we)))
  {
    hide A.Inv, RxOk, A.Apply, A.Enabled;
    A.StepInv(s.world, we);
    var s' := Apply(s, Sending(we));
    if we.Receive? {
      ElsewhereReceived(s, we);
    } else {
      SenderReceived(s.world, we);
      SameHere(s, s');
    }
    SameJoint(s, s');
  }

  lemma SameHere(s: System, s': System)
    requires s'.here == s.here && SameReceived(s.world, s'.world)
    ensures forall m :: AcceptedHere(s', m) <==> AcceptedHere(s, m)
  {
    forall m
      ensures AcceptedHere(s', m) <==> AcceptedHere(s, m)
    {
      if h :| Local(s, h) && A.Accepted(s.world, h, m) {
        assert Local(s', h) && A.Accepted(s'.world, h, m);
      }
      if h :| Local(s', h) && A.Accepted(s'.world, h, m) {
        assert Local(s, h) && A.Accepted(s.world, h, m);
      }
    }
  }

  lemma ElsewhereReceived(s: System, we: A.Event)
    requires A.Enabled(s.world, we) && we.Receive? && !Local(s, we.at)
    ensures forall m :: AcceptedHere(s.(world := A.Apply(s.world, we)), m) <==> AcceptedHere(s, m)
  {
    var s' := s.(world := A.Apply(s.world, we));
    forall h
      ensures Local(s', h) <==> Local(s, h)
      ensures Local(s, h) ==> s'.world.conns[h] == s.world.conns[h]
    {
    }
    forall m
      ensures AcceptedHere(s', m) <==> AcceptedHere(s, m)
    {
      if h :| Local(s, h) && A.Accepted(s.world, h, m) {
        assert Local(s', h) && A.Accepted(s'.world, h, m);
      }
      if h :| Local(s', h) && A.Accepted(s'.world, h, m) {
        assert Local(s, h) && A.Accepted(s.world, h, m);
      }
    }
  }

  lemma SameJoint(s: System, s': System)
    requires Joint(s) && (forall m :: AcceptedHere(s', m) <==> AcceptedHere(s, m))
    requires forall m: Copy :: m.Copy? ==> s'.rx.acked[m] == s.rx.acked[m]
    ensures Joint(s')
  {
    hide AcceptedHere;
  }

  /** Only a receive acknowledges. */
  lemma AckedFrame(rx: R.State, e: R.Event)
    requires R.Enabled(rx, e)
    ensures R.Apply(rx, e).acked == rx.acked +
              if e.OnListener? && e.listener.Receive? && e.listener.outcome.Bundle?
              then multiset{e.listener.outcome.bundle} else multiset{}
  {
    hide H.Subscribe, H.AcceptFailed, H.Push, H.Read, H.Unsubscribe, H.Deliver, H.BeginClose, H.EndClose, R.ApplyAccept;
    if e.OnAccept? {
      C.AcceptFrame(rx, e.t, e.accept);
    }
  }

  lemma ReceivingStep(s: System, re: R.Event)
    requires Inv(s) && Enabled(s, Receiving(re))
    ensures Inv(Apply(s, Receiving(re)))
  {
    hide A.Inv, RxOk, R.Apply, R.Enabled;
    RxStep(s.rx, re);
    AckedFrame(s.rx, re);
    var s' := Apply(s, Receiving(re));
    SameHere(s, s');
    SameJoint(s, s');
  }

  // ----- The step they make together -----

  /** A copy on its way was not accepted before, anywhere. */
  lemma NotYetAccepted(w: A.World, h: Handle, h': Handle)
    requires A.Inv(w) && h in w.conns && w.conns[h].fwd != []
    ensures w.conns[h].fwd[0].Copy? && !A.Accepted(w, h', w.conns[h].fwd[0])
  {
    var c, m := w.conns[h], w.conns[h].fwd[0];
    assert m in multiset(c.fwd);
    assert m in multiset(c.sent);
    assert A.Carried(w.conns, h, m);
    A.OnceOnly(c.sent, m);
    if A.Accepted(w, h', m) {
      A.SentBefore(w, h', m);
    }
  }

  /** Receiving on `h` adds the copy to what was accepted here, and nothing else. */
  lemma TransferHere(s: System, h: Handle, acked: bool, m: Copy)
    requires Local(s, h) && A.Enabled(s.world, A.Receive(h, acked))
    ensures var s' := s.(world := A.Apply(s.world, A.Receive(h, acked)));
            AcceptedHere(s', m) <==> AcceptedHere(s, m) || m == s.world.conns[h].fwd[0]
  {
    var s' := s.(world := A.Apply(s.world, A.Receive(h, acked)));
    var head := s.world.conns[h].fwd[0];
    assert s'.world.conns[h].received == s.world.conns[h].received + [head];
    assert Local(s', h) && A.Accepted(s'.world, h, head);
    if g :| Local(s, g) && A.Accepted(s.world, g, m) {
      assert Local(s', g) && A.Accepted(s'.world, g, m);
    }
    if g :| Local(s', g) && A.Accepted(s'.world, g, m) {
      if !(g == h && m == head) {
        assert Local(s, g) && A.Accepted(s.world, g, m);
      }
    }
  }

  lemma TransferStep(s: System, l: nat, acked: bool)
    requires Inv(s) && Enabled(s, Transfer(l, acked))
    ensures Inv(Apply(s, Transfer(l, acked)))
  {
    hide A.Inv, RxOk, Apply, Enabled, Joint;
    TransferSides(s, l, acked);
    TransferJoint(s, l, acked);
  }

  lemma TransferSides(s: System, l: nat, acked: bool)
    requires Inv(s) && Enabled(s, Transfer(l, acked))
    ensures A.Inv(Apply(s, Transfer(l, acked)).world) && RxOk(Apply(s, Transfer(l, acked)).rx)
  {
    hide A.Inv, RxOk, R.Apply, A.Apply, Joint;
    A.StepInv(s.world, A.Receive(s.rx.threads[l].conn, acked));
    RxStep(s.rx, Taking(s, l));
  }

  lemma TransferJoint(s: System, l: nat, acked: bool)
    requires Inv(s) && Enabled(s, Transfer(l, acked))
    ensures Joint(Apply(s, Transfer(l, acked)))
  {
    hide A.Inv, RxOk, R.Apply, R.Enabled, A.Apply, A.Accepted;
    var h := s.rx.threads[l].conn;
    var s', head := Apply(s, Transfer(l, acked)), s.world.conns[h].fwd[0];
    AckedFrame(s.rx, Taking(s, l));
    assert s'.rx.acked == s.rx.acked + multiset{head};
    assert !AcceptedHere(s, head) by {
      forall g | Local(s, g)
        ensures !A.Accepted(s.world, g, head)
      {
        NotYetAccepted(s.world, h, g);
      }
    }
    forall m: Copy | m.Copy?
      ensures s'.rx.acked[m] == if AcceptedHere(s', m) then 1 else 0
    {
      TransferHere(s, h, acked, m);
      WorldOnly(s', s.(world := s'.world), m);
    }
  }

  lemma WorldOnly(s: System, s': System, m: Copy)
    requires s'.world == s.world && s'.here == s.here
    ensures AcceptedHere(s, m) <==> AcceptedHere(s', m)
  {
    assert forall h :: Local(s, h) <==> Local(s', h);
  }

  lemma StepInv(s: System, e: Event)
    requires Inv(s) && Enabled(s, e)
    ensures Inv(Apply(s, e))
  {
    hide Inv, Apply;
    match e
    case Sending(we) => SendingStep(s, we);
    case Receiving(re) => ReceivingStep(s, re);
    case Transfer(l, acked) => TransferStep(s, l, acked);
  }

  lemma {:induction false} RunInv(maxAgeMs: uint32, ss: seq<System>, es: seq<Event>, i: nat)
    requires IsRun(maxAgeMs, ss, es) && i < |ss|
    ensures Inv(ss[i]) && ss[i].here == ss[0].here
  {
    hide Inv, Enabled, A.Apply, R.Apply;
    if i == 0 {
      InitInv(ss[0].here, maxAgeMs, ss[0].rx.now);
    } else {
      RunInv(maxAgeMs, ss, es, i - 1);
      StepInv(ss[i - 1], es[i - 1]);
    }
  }

  // ----- Where a copy is -----

  /** In how many places of the receiver copy `m` is: in hands, in queues, kept, or read. */
  ghost function Places(rx: R.State, m: Copy): nat {
    V.InHands(rx.threads)[m] + V.Queued(rx.hub.channels)[m] + multiset(rx.hub.pending)[m] + rx.read[m]
  }

  lemma PlacesAreAcked(rx: R.State, m: Copy)
    requires V.Conserved(rx)
    ensures Places(rx, m) == rx.acked[m]
  {
    assert rx.acked[m] == (V.InHands(rx.threads) + V.Stored(rx.hub) + rx.read)[m];
  }

  /**
   * Each copy of the sender's that the receiver accepted is in exactly one place, in every
   * state of every run, and a copy it did not accept is in none.
   */
  lemma EachCopyInOnePlace(maxAgeMs: uint32, ss: seq<System>, es: seq<Event>, i: nat, m: Copy)
    requires IsRun(maxAgeMs, ss, es) && i < |ss| && m.Copy?
    ensures Places(ss[i].rx, m) == if AcceptedHere(ss[i], m) then 1 else 0
  {
    hide A.Inv, C.Coupled, B.TableOk, V.Conserved, Places, IsRun;
    RunInv(maxAgeMs, ss, es, i);
    PlacesAreAcked(ss[i].rx, m);
  }

  /**
   * End to end: for every send to this receiver that returned OK, the acknowledged copy of
   * the bundle is in exactly one place from then on.
   */
  lemma AcknowledgedIsInOnePlace(maxAgeMs: uint32, ss: seq<System>, es: seq<Event>, i: nat, k: nat)
    requires IsRun(maxAgeMs, ss, es) && i < |ss| && k < |ss[i].world.log|
    requires var r := ss[i].world.log[k]; r.code == OK && r.task.dest == ss[i].here
    ensures var r := ss[i].world.log[k];
            r.receipt.Some? && Places(ss[i].rx, Copy(k, r.receipt.value.attempt, r.task.data)) == 1
  {
    hide Places, IsRun, RxOk;
    var s, r := ss[i], ss[i].world.log[k];
    RunInv(maxAgeMs, ss, es, i);
    assert A.Backed(s.world.conns, r);
    var m, h := Copy(k, r.receipt.value.attempt, r.task.data), r.receipt.value.conn;
    assert Local(s, h) && A.Accepted(s.world, h, m);
    EachCopyInOnePlace(maxAgeMs, ss, es, i, m);
  }

  /** Whatever a send returned, only its two copies can be anywhere at the receiver, each in one place. */
  lemma NoThirdCopy(maxAgeMs: uint32, ss: seq<System>, es: seq<Event>, i: nat, m: Copy)
    requires IsRun(maxAgeMs, ss, es) && i < |ss| && m.Copy? && Places(ss[i].rx, m) > 0
    ensures m.attempt <= 1 && Places(ss[i].rx, m) == 1
  {
    hide Places, IsRun, RxOk, Joint;
    EachCopyInOnePlace(maxAgeMs, ss, es, i, m);
    RunInv(maxAgeMs, ss, es, i);
    var w := ss[i].world;
    var h :| Local(ss[i], h) && A.Accepted(w, h, m);
    A.SentBefore(w, h, m);
    assert A.Used(m, w.sends, A.NextAttempt(w));
  }
}
