/** What still happens while receiving is off: few deliveries, and no hasty closing of connections. */
module ReceiverStop {
  import opened Base
  import opened Counting
  import H = Hub
  import T = ListenerTable
  import opened Receiver
  import C = ReceiverCoupling
  import B = ReceiverBounds
  import X = ReceiverClose

  // ----- At most one more bundle per listener -----

  /** Past the gate, with at most one bundle ahead before the next look at the gate. */
  ghost predicate Committed(pc: ListenerPc) {
    pc == PastGate || pc == Reading || pc.InHand?
  }

  ghost function Busy(s: State): set<nat> {
    set l: nat | l < |s.threads| && Committed(s.threads[l].pc)
  }

  ghost predicate Delivers(e: Event, l: nat) {
    e == OnListener(l, Deliver)
  }

  /** While receiving is off nobody gets past the gate, and each delivery uses one listener up. */
  lemma OffStep(s: State, e: Event)
    requires Enabled(s, e) && !H.IsReceiving(s.hub)
    requires B.TableOk(s)
    ensures Busy(Apply(s, e)) <= Busy(s)
    ensures forall l :: Delivers(e, l) ==> l in Busy(s) && l !in Busy(Apply(s, e))
  {
    match e
    case OnStream(se) => B.StreamPlace(s, se);
    case OnClose(c, ce) => B.ClosePlace(s, c, ce);
    case OnAccept(t, ae) => AcceptBusy(s, t, ae);
    case OnListener(l, le) => ListenerBusy(s, l, le);
    case Tick(_) =>
  }

  /** The accept thread touches the listener threads only to add and to start one. */
  lemma AcceptThreads(s: State, t: nat, e: AcceptEvent)
    requires AcceptEnabled(s, t, e) && !e.Register? && !e.SpawnListener?
    ensures ApplyAccept(s, t, e).threads == s.threads
  {
    hide T.Supersede, T.MayAccept, H.Deliver, H.AcceptPanicked;
  }

  lemma AcceptBusy(s: State, t: nat, e: AcceptEvent)
    requires AcceptEnabled(s, t, e) && B.TableOk(s)
    ensures Busy(ApplyAccept(s, t, e)) <= Busy(s)
  {
    hide ApplyAccept, B.TableOk;
    if e.Register? {
      RegisterBusy(s, t);
    } else if e.SpawnListener? {
      SpawnBusy(s, t, e.ok);
    } else {
      AcceptThreads(s, t, e);
    }
  }

  lemma RegisterBusy(s: State, t: nat)
    requires AcceptEnabled(s, t, Register)
    ensures Busy(ApplyAccept(s, t, Register)) <= Busy(s)
  {
  }

  lemma SpawnBusy(s: State, t: nat, ok: bool)
    requires AcceptEnabled(s, t, SpawnListener(ok)) && B.TableOk(s)
    ensures Busy(ApplyAccept(s, t, SpawnListener(ok))) <= Busy(s)
  {
    hide T.Running, T.Bounded, T.BoundedBut;
    assert B.WindowOk(s, s.acceptors[t]);
  }

  lemma ListenerBusy(s: State, l: nat, e: ListenerEvent)
    requires ListenerEnabled(s, l, e) && !H.IsReceiving(s.hub)
    ensures Busy(ApplyListener(s, l, e)) <= Busy(s)
    ensures e.Deliver? ==> l in Busy(s) && l !in Busy(ApplyListener(s, l, e))
  {
    hide H.Deliver;
    var s' := ApplyListener(s, l, e);
    assert forall i :: 0 <= i < |s.threads| && i != l ==> s'.threads[i] == s.threads[i];
  }

  /** How many bundles were delivered in steps `i` to `j`. */
  ghost function Deliveries(es: seq<Event>, i: nat, j: nat): nat
    requires i <= j <= |es|
    decreases j
  {
    if i == j then 0
    else Deliveries(es, i, j - 1) + if es[j - 1].OnListener? && es[j - 1].listener.Deliver? then 1 else 0
  }

  ghost predicate OffThroughout(ss: seq<State>, i: nat, j: nat) {
    i <= j < |ss| && forall k :: i <= k <= j ==> !H.IsReceiving(ss[k].hub)
  }

  lemma {:induction false} OffDeliveries(ss: seq<State>, es: seq<Event>, i: nat, j: nat)
    requires IsRun(ss, es) && OffThroughout(ss, i, j)
    ensures Busy(ss[j]) <= Busy(ss[i])
    ensures Deliveries(es, i, j) + |Busy(ss[j])| <= |Busy(ss[i])|
    decreases j
  {
    hide Apply, Enabled, B.TableOk, Busy;
    if i < j {
      OffDeliveries(ss, es, i, j - 1);
      B.RunTable(ss, es, j - 1);
      OffStep(ss[j - 1], es[j - 1]);
      var before, after := Busy(ss[j - 1]), Busy(ss[j]);
      SubsetCount(after, before);
      if es[j - 1].OnListener? && es[j - 1].listener.Deliver? {
        assert Delivers(es[j - 1], es[j - 1].l);
        assert after != before;
      }
    }
  }

  /** During any period with receiving off, at most ten more bundles are delivered in total. */
  lemma AtMostTenMore(ss: seq<State>, es: seq<Event>, i: nat, j: nat)
    requires IsRun(ss, es) && OffThroughout(ss, i, j)
    ensures Deliveries(es, i, j) <= 10
  {
    OffDeliveries(ss, es, i, j);
    B.RunTable(ss, es, i);
    assert Busy(ss[i]) <= T.Running(ss[i].table);
    SubsetCount(Busy(ss[i]), T.Running(ss[i].table));
  }

  /** And at most one by each listener. */
  lemma AtMostOneMoreEach(ss: seq<State>, es: seq<Event>, i: nat, j: nat, l: nat, a: nat, b: nat)
    requires IsRun(ss, es) && OffThroughout(ss, i, j)
    requires i <= a < j && i <= b < j && Delivers(es[a], l) && Delivers(es[b], l)
    ensures a == b
  {
    if a != b {
      var x, y := if a < b then a else b, if a < b then b else a;
      B.RunTable(ss, es, x);
      B.RunTable(ss, es, y);
      OffStep(ss[x], es[x]);
      OffStep(ss[y], es[y]);
      OffDeliveries(ss, es, x + 1, y);
    }
  }

  // ----- Connections are kept for the whole grace -----

  /** Receiving goes off at the current time, and stays marked with it. */
  lemma StopStamp(s: State, e: Event)
    requires Enabled(s, e) && H.IsReceiving(s.hub) && !H.IsReceiving(Apply(s, e).hub)
    ensures Apply(s, e).hub.stoppedAt == Some(s.now) && Apply(s, e).now == s.now
  {
    hide ApplyAccept, ApplyListener, ApplyStream;
    match e
    case OnStream(se) => StreamStamp(s, se);
    case OnClose(c, ce) =>
    case OnAccept(t, ae) => AcceptStamp(s, t, ae);
    case OnListener(l, le) => C.ListenerFrame(s, l, le);
    case Tick(_) =>
  }

  lemma StreamStamp(s: State, e: StreamEvent)
    requires StreamEnabled(s, e) && H.IsReceiving(s.hub) && !H.IsReceiving(ApplyStream(s, e).hub)
    ensures ApplyStream(s, e).hub.stoppedAt == Some(s.now) && ApplyStream(s, e).now == s.now
  {
    if e.SpawnAcceptFails? {
      H.FailKeeps(s.hub, s.hub.subscribers, e.id);
    }
  }

  lemma AcceptStamp(s: State, t: nat, e: AcceptEvent)
    requires AcceptEnabled(s, t, e) && H.IsReceiving(s.hub) && !H.IsReceiving(ApplyAccept(s, t, e).hub)
    ensures ApplyAccept(s, t, e).hub.stoppedAt == Some(s.now) && ApplyAccept(s, t, e).now == s.now
  {
    hide ApplyAccept;
    C.AcceptFrame(s, t, e);
  }

  /** Receiving has been off, without a break, since the time its stop is marked with. */
  lemma {:induction false} OffSince(ss: seq<State>, es: seq<Event>, k: nat) returns (i: nat)
    requires IsRun(ss, es) && k < |ss| && ss[k].hub.stoppedAt.Some?
    ensures OffThroughout(ss, i, k) && ss[i].now == ss[k].hub.stoppedAt.value
  {
    hide Apply, Enabled;
    if k == 0 {
      i := 0;
    } else if H.IsReceiving(ss[k - 1].hub) {
      StopStamp(ss[k - 1], es[k - 1]);
      i := k;
    } else {
      var subscribes := es[k - 1].OnStream? && es[k - 1].stream.Subscribe?;
      if subscribes {
        SubscribeTurnsOn(ss[k - 1]);
        assert false;
      }
      X.OnlySubscribeResumes(ss[k - 1], es[k - 1]);
      i := OffSince(ss, es, k - 1);
    }
  }

  lemma SubscribeTurnsOn(s: State)
    requires Enabled(s, OnStream(Subscribe))
    ensures H.IsReceiving(Apply(s, OnStream(Subscribe)).hub)
  {
  }

  /**
   * A listener gives its connection up because of the stop only after receiving has been off
   * for the full grace, without a break, however often it was stopped again meanwhile.
   */
  lemma GraceIsKept(ss: seq<State>, es: seq<Event>, k: nat) returns (i: nat)
    requires IsRun(ss, es) && k < |es| && es[k].OnListener? && es[k].listener.GiveUp?
    ensures OffThroughout(ss, i, k) && ss[k].now >= ss[i].now + 1000
  {
    i := OffSince(ss, es, k);
  }
}
