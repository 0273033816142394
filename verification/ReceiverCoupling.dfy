/**
 * What holds between the streams, the accept thread and the closes in every reachable state of
 * the receiver.
 */
module ReceiverCoupling {
  import opened Base
  import opened Counting
  import H = Hub
  import T = ListenerTable
  import opened Receiver

  // ----- The locked state -----

  /** Every subscriber can still be sent to, and is subscribed once. */
  ghost predicate Reachable(h: H.Hub) {
    && Distinct(h.subscribers)
    && (forall k :: 0 <= k < |h.subscribers| ==> H.Accepts(h, h.subscribers[k]))
  }

  ghost predicate HubOk(h: H.Hub) {
    && Reachable(h)
    && (h.subscribers != [] <==> H.IsReceiving(h))
    && (H.IsReceiving(h) ==> h.acceptRunning)
    && (h.pending != [] ==> h.subscribers == [])
    && (h.closing > 0 ==> h.subscribers == [])
  }

  /** `h'` opened and closed no channel and subscribed nobody. */
  ghost predicate SameStreams(h: H.Hub, h': H.Hub) {
    && |h'.channels| == |h.channels|
    && (forall i :: 0 <= i < |h.channels| ==> h'.channels[i].open == h.channels[i].open)
  }

  lemma SubscribeOk(h: H.Hub)
    requires HubOk(h) && h.closing == 0
    ensures HubOk(H.Subscribe(h))
    ensures forall id :: H.Accepts(h, id) ==> H.Accepts(H.Subscribe(h), id)
  {
    assert forall k :: 0 <= k < |h.subscribers| ==> h.subscribers[k] < |h.channels|;
  }

  lemma PushOk(h: H.Hub, id: nat, items: seq<H.Item>)
    requires HubOk(h)
    ensures HubOk(H.Push(h, id, items)) && SameStreams(h, H.Push(h, id, items))
  {
  }

  lemma PushFields(h: H.Hub, id: nat)
    ensures H.Push(h, id, [H.Failed]) == h.(channels := H.Push(h, id, [H.Failed]).channels)
  {
  }

  /** The fallback for a send that fails is never taken: with a stream open, delivery reaches the newest one. */
  lemma DeliverReachesNewest(h: H.Hub, item: H.Item)
    requires HubOk(h)
    ensures h.subscribers != [] ==> H.Deliver(h, item) == H.Push(h, H.Newest(h), [item]) && H.Accepts(h, H.Newest(h))
    ensures HubOk(H.Deliver(h, item)) && SameStreams(h, H.Deliver(h, item))
    ensures H.Deliver(h, item).subscribers == h.subscribers && H.Deliver(h, item).acceptRunning == h.acceptRunning
    ensures H.Deliver(h, item).stoppedAt == h.stoppedAt && H.Deliver(h, item).closing == h.closing
  {
  }

  lemma AcceptFailedOk(h: H.Hub, id: nat, now: H.Time)
    requires HubOk(h) && id < |h.channels|
    ensures HubOk(H.AcceptFailed(h, id, now)) && SameStreams(h, H.AcceptFailed(h, id, now))
  {
    H.FailKeeps(h, h.subscribers, id);
  }

  lemma {:induction false} WithoutIdDistinct(subs: seq<nat>, id: nat)
    requires Distinct(subs)
    ensures Distinct(H.WithoutId(subs, id))
  {
    if subs != [] {
      var k := |subs| - 1;
      WithoutIdDistinct(subs[..k], id);
      assert subs[k] !in subs[..k];
      assert subs[k] !in H.WithoutId(subs[..k], id);
    }
  }

  /** Dropping a stream leaves the others reachable. */
  lemma UnsubscribeOk(h: H.Hub, id: nat, now: H.Time)
    requires HubOk(h) && H.Accepts(h, id)
    ensures HubOk(H.Unsubscribe(h, id, now))
    ensures H.Unsubscribe(h, id, now).acceptRunning == h.acceptRunning && H.Unsubscribe(h, id, now).closing == h.closing
    ensures forall i :: i != id && H.Accepts(h, i) ==> H.Accepts(H.Unsubscribe(h, id, now), i)
  {
    WithoutIdDistinct(h.subscribers, id);
    var gone := H.Emptied(h, id, false).(subscribers := H.WithoutId(h.subscribers, id));
    forall k | 0 <= k < |gone.subscribers|
      ensures H.Accepts(gone, gone.subscribers[k])
    {
      assert gone.subscribers[k] in h.subscribers;
    }
    assert h.subscribers == [] ==> gone.subscribers == [];
  }

  lemma CloseOk(h: H.Hub, now: H.Time)
    requires HubOk(h)
    ensures HubOk(H.BeginClose(h, now)) && SameStreams(h, H.BeginClose(h, now))
    ensures HubOk(H.AcceptPanicked(h, now)) && SameStreams(h, H.AcceptPanicked(h, now))
    ensures !H.IsReceiving(h) ==> HubOk(H.AcceptStops(h)) && SameStreams(h, H.AcceptStops(h))
    ensures h.closing > 0 ==> HubOk(H.EndClose(h)) && SameStreams(h, H.EndClose(h))
  {
  }

  // ----- The accept thread -----

  /** At most one accept thread is claimed or live, and one is exactly if `accept_running` says so. */
  ghost predicate OneAccepter(s: State) {
    && (forall t, t' :: t in s.acceptors && t' in s.acceptors ==> t == t')
    && (forall i, i' :: i in s.claimed && i' in s.claimed ==> i == i')
    && (s.claimed == {} || s.acceptors.Keys == {})
    && (s.hub.acceptRunning <==> s.claimed != {} || s.acceptors.Keys != {})
  }

  /** Streams still inside `subscribe` have an open channel. */
  ghost predicate OpeningOk(s: State) {
    forall id :: id in s.claimed || id in s.failing ==> H.Accepts(s.hub, id)
  }

  ghost predicate HoldsLock(s: State, t: nat) {
    t in s.acceptors && (s.acceptors[t] == Checking || s.acceptors[t] == Accepting)
  }

  ghost predicate ClosesUnderLock(s: State, c: nat) {
    c in s.closers && (s.closers[c] == Holding || s.closers[c] == Cleared)
  }

  /** The accept lock is held by whoever is in its critical section. */
  ghost predicate LockOk(s: State) {
    && (forall t :: HoldsLock(s, t) <==> s.lock == Some(Acceptor(t)))
    && (forall c :: ClosesUnderLock(s, c) <==> s.lock == Some(Closer(c)))
  }

  ghost predicate Coupled(s: State) {
    && HubOk(s.hub) && OneAccepter(s) && OpeningOk(s) && LockOk(s)
    && s.hub.closing == |s.closers|
  }

  lemma InitCoupled(now: H.Time)
    ensures Coupled(Init(now))
  {
  }

  /** A step that leaves the threads, the lock and the closes alone. */
  lemma Recouple(s: State, s': State)
    requires Coupled(s) && s'.acceptors == s.acceptors && s'.closers == s.closers && s'.lock == s.lock
    requires HubOk(s'.hub) && s'.hub.closing == s.hub.closing && OneAccepter(s') && OpeningOk(s')
    ensures Coupled(s')
  {
    hide HubOk, OneAccepter, OpeningOk;
    SameLock(s, s');
  }

  lemma SameAccepter(s: State, s': State)
    requires OneAccepter(s) && s'.acceptors == s.acceptors && s'.claimed == s.claimed
    requires s'.hub.acceptRunning == s.hub.acceptRunning
    ensures OneAccepter(s')
  {
  }

  /** The same streams are being opened, over the same channels. */
  lemma KeepOpening(s: State, s': State)
    requires OpeningOk(s) && SameStreams(s.hub, s'.hub) && s'.claimed + s'.failing <= s.claimed + s.failing
    ensures OpeningOk(s')
  {
    assert forall id :: id in s'.claimed || id in s'.failing ==> id in s.claimed + s.failing;
  }

  lemma StreamCoupled(s: State, e: StreamEvent)
    requires Coupled(s) && StreamEnabled(s, e)
    ensures Coupled(ApplyStream(s, e))
  {
    match e
    case Subscribe => SubscribeCoupled(s);
    case SpawnAccept(id, t) => SpawnedCoupled(s, id, t);
    case SpawnAcceptFails(id) => SpawnFailsCoupled(s, id);
    case ReportSpawn(id) => ReportCoupled(s, id);
    case ReadItem(id) => ReadCoupled(s, id);
    case DropStream(id) => DropCoupled(s, id);
  }

  lemma SubscribeCoupled(s: State)
    requires Coupled(s) && s.hub.closing == 0
    ensures Coupled(ApplyStream(s, Subscribe))
  {
    hide HubOk, LockOk;
    var s' := ApplyStream(s, Subscribe);
    SubscribeOk(s.hub);
    assert s.hub.acceptRunning ==> s'.claimed == s.claimed;
    assert !s.hub.acceptRunning ==> s'.claimed == {|s.hub.channels|};
    assert H.Accepts(s'.hub, |s.hub.channels|);
    Recouple(s, s');
  }

  lemma SpawnFailsCoupled(s: State, id: nat)
    requires Coupled(s) && StreamEnabled(s, SpawnAcceptFails(id))
    ensures Coupled(ApplyStream(s, SpawnAcceptFails(id)))
  {
    hide HubOk, LockOk, H.AcceptFailed;
    var s' := ApplyStream(s, SpawnAcceptFails(id));
    AcceptFailedOk(s.hub, id, s.now);
    FailedFields(s.hub, id, s.now);
    assert s'.claimed == {};
    KeepOpening(s, s');
    Recouple(s, s');
  }

  lemma ReportCoupled(s: State, id: nat)
    requires Coupled(s) && StreamEnabled(s, ReportSpawn(id))
    ensures Coupled(ApplyStream(s, ReportSpawn(id)))
  {
    hide HubOk, LockOk, SameStreams, OneAccepter, H.Push;
    var s' := ApplyStream(s, ReportSpawn(id));
    PushFields(s.hub, id);
    SameAccepter(s, s');
    PushOk(s.hub, id, [H.Failed]);
    KeepOpening(s, s');
    Recouple(s, s');
  }

  lemma ReadCoupled(s: State, id: nat)
    requires Coupled(s) && StreamEnabled(s, ReadItem(id))
    ensures Coupled(ApplyStream(s, ReadItem(id)))
  {
    hide HubOk, LockOk, OneAccepter;
    var s' := ApplyStream(s, ReadItem(id));
    SameAccepter(s, s');
    ReadOk(s.hub, id);
    KeepOpening(s, s');
    Recouple(s, s');
  }

  lemma DropCoupled(s: State, id: nat)
    requires Coupled(s) && StreamEnabled(s, DropStream(id))
    ensures Coupled(ApplyStream(s, DropStream(id)))
  {
    hide HubOk, LockOk, OneAccepter, H.Unsubscribe;
    var s' := ApplyStream(s, DropStream(id));
    UnsubscribeOk(s.hub, id, s.now);
    SameAccepter(s, s');
    Recouple(s, s');
  }

  lemma FailedFields(h: H.Hub, id: nat, now: H.Time)
    requires id < |h.channels|
    ensures !H.AcceptFailed(h, id, now).acceptRunning && H.AcceptFailed(h, id, now).closing == h.closing
  {
    H.FailKeeps(h, h.subscribers, id);
  }

  lemma ReadOk(h: H.Hub, id: nat)
    requires HubOk(h) && id < |h.channels| && h.channels[id].queue != []
    ensures HubOk(H.Read(h, id)) && SameStreams(h, H.Read(h, id))
  {
  }

  lemma SpawnedCoupled(s: State, id: nat, t: nat)
    requires Coupled(s) && StreamEnabled(s, SpawnAccept(id, t))
    ensures Coupled(ApplyStream(s, SpawnAccept(id, t)))
  {
    var s' := ApplyStream(s, SpawnAccept(id, t));
    assert s.claimed == {id};
    assert s'.claimed == {};
    assert s.acceptors.Keys == {};
    assert s'.acceptors.Keys == {t};
    assert forall t' :: HoldsLock(s', t') <==> HoldsLock(s, t');
  }

  /** The lock does not depend on the streams. */
  lemma SameLock(s: State, s': State)
    requires LockOk(s) && s'.acceptors == s.acceptors && s'.closers == s.closers && s'.lock == s.lock
    ensures LockOk(s')
  {
    assert forall t :: HoldsLock(s', t) <==> HoldsLock(s, t);
    assert forall c :: ClosesUnderLock(s', c) <==> ClosesUnderLock(s, c);
  }

  // ----- Closes -----

  lemma MapSizes<K, V>(m: map<K, V>, k: K, v: V)
    ensures k !in m ==> |m[k := v]| == |m| + 1
    ensures k in m ==> |m[k := v]| == |m| && |m - {k}| == |m| - 1
  {
    if k in m {
      assert m[k := v].Keys == m.Keys;
      assert (m - {k}).Keys == m.Keys - {k};
    } else {
      assert m[k := v].Keys == m.Keys + {k};
    }
  }

  lemma CloseLock(s: State, c: nat, e: CloseEvent)
    requires LockOk(s) && CloseEnabled(s, c, e)
    ensures LockOk(ApplyClose(s, c, e))
  {
    hide H.BeginClose, H.EndClose;
    var s' := ApplyClose(s, c, e);
    assert forall t :: HoldsLock(s', t) <==> HoldsLock(s, t);
    assert forall d :: d != c ==> (ClosesUnderLock(s', d) <==> ClosesUnderLock(s, d));
    OwnLock(s, c, e);
    forall d
      ensures ClosesUnderLock(s', d) <==> s'.lock == Some(Closer(d))
    {
      assert ClosesUnderLock(s, d) <==> s.lock == Some(Closer(d));
    }
    forall t
      ensures HoldsLock(s', t) <==> s'.lock == Some(Acceptor(t))
    {
      assert HoldsLock(s, t) <==> s.lock == Some(Acceptor(t));
    }
  }

  /** A close takes the lock when it is free and gives back its own. */
  lemma OwnLock(s: State, c: nat, e: CloseEvent)
    requires LockOk(s) && CloseEnabled(s, c, e)
    ensures var s' := ApplyClose(s, c, e);
            && (ClosesUnderLock(s', c) <==> s'.lock == Some(Closer(c)))
            && (|| s'.lock == s.lock
                || (s.lock.None? && s'.lock == Some(Closer(c)))
                || (s.lock == Some(Closer(c)) && s'.lock.None?))
  {
    hide H.BeginClose, H.EndClose;
    assert ClosesUnderLock(s, c) <==> s.lock == Some(Closer(c));
  }

  lemma CloseCount(s: State, c: nat, e: CloseEvent)
    requires s.hub.closing == |s.closers| && CloseEnabled(s, c, e)
    ensures ApplyClose(s, c, e).hub.closing == |ApplyClose(s, c, e).closers|
  {
    match e
    case BeginClose => MapSizes(s.closers, c, Begun);
    case LockClose => MapSizes(s.closers, c, Holding);
    case ClearSocket => MapSizes(s.closers, c, Cleared);
    case UnlockClose => MapSizes(s.closers, c, Released);
    case EndClose => MapSizes(s.closers, c, Released);
  }

  lemma CloseHub(s: State, c: nat, e: CloseEvent)
    requires HubOk(s.hub) && CloseEnabled(s, c, e)
    ensures var s' := ApplyClose(s, c, e);
            && HubOk(s'.hub) && SameStreams(s.hub, s'.hub) && s'.hub.acceptRunning == s.hub.acceptRunning
            && s'.claimed == s.claimed && s'.failing == s.failing && s'.acceptors == s.acceptors
  {
    hide HubOk;
    CloseOk(s.hub, s.now);
  }

  lemma CloseCoupled(s: State, c: nat, e: CloseEvent)
    requires Coupled(s) && CloseEnabled(s, c, e)
    ensures Coupled(ApplyClose(s, c, e))
  {
    hide HubOk, LockOk, ApplyClose, SameStreams;
    CloseHub(s, c, e);
    CloseLock(s, c, e);
    CloseCount(s, c, e);
    KeepOpening(s, ApplyClose(s, c, e));
  }

  // ----- The accept thread -----

  /** The events around the accept lock. */
  ghost predicate AtLock(e: AcceptEvent) {
    e.LockAccept? || e.CheckReceiving? || e.AcceptReturns? || e.Panic?
  }

  /** The accept thread ends: it saw that receiving is off, or panicked. */
  ghost predicate AcceptLeaves(s: State, e: AcceptEvent) {
    e.Unwound? || (e.LoopHead? && !H.IsReceiving(s.hub))
  }

  lemma AcceptStaysAtLock(s: State, t: nat, e: AcceptEvent)
    requires AcceptEnabled(s, t, e) && AtLock(e)
    ensures var acceptors' := ApplyAccept(s, t, e).acceptors;
            t in acceptors' && acceptors' == s.acceptors[t := acceptors'[t]]
  {
  }

  lemma AcceptStaysAtWork(s: State, t: nat, e: AcceptEvent)
    requires AcceptEnabled(s, t, e) && !AtLock(e) && !AcceptLeaves(s, e)
    ensures var acceptors' := ApplyAccept(s, t, e).acceptors;
            t in acceptors' && acceptors' == s.acceptors[t := acceptors'[t]]
  {
    hide T.Supersede, T.MayAccept, T.Register, H.Deliver;
  }

  lemma AcceptGoes(s: State, t: nat, e: AcceptEvent)
    requires AcceptEnabled(s, t, e) && AcceptLeaves(s, e)
    ensures ApplyAccept(s, t, e).acceptors == s.acceptors - {t}
  {
  }

  /** The accept thread moves itself only. */
  lemma AcceptMoves(s: State, t: nat, e: AcceptEvent)
    requires AcceptEnabled(s, t, e)
    ensures var acceptors' := ApplyAccept(s, t, e).acceptors;
            if AcceptLeaves(s, e) then acceptors' == s.acceptors - {t}
            else t in acceptors' && acceptors' == s.acceptors[t := acceptors'[t]]
  {
    hide ApplyAccept;
    if AcceptLeaves(s, e) {
      AcceptGoes(s, t, e);
    } else if AtLock(e) {
      AcceptStaysAtLock(s, t, e);
    } else {
      AcceptStaysAtWork(s, t, e);
    }
  }

  /** Away from the lock, the accept thread neither holds nor moves it. */
  lemma AwayFromLock(s: State, t: nat, e: AcceptEvent)
    requires AcceptEnabled(s, t, e) && !AtLock(e)
    ensures var s' := ApplyAccept(s, t, e);
            s'.lock == s.lock && !HoldsLock(s, t) && !HoldsLock(s', t)
  {
    hide T.Supersede, T.MayAccept, T.Register, H.Deliver, H.AcceptPanicked;
  }

  lemma AroundLock(s: State, t: nat, e: AcceptEvent)
    requires LockOk(s) && AcceptEnabled(s, t, e) && AtLock(e)
    ensures var s' := ApplyAccept(s, t, e);
            forall t' :: HoldsLock(s', t') <==> s'.lock == Some(Acceptor(t'))
    ensures forall c :: ApplyAccept(s, t, e).lock == Some(Closer(c)) <==> s.lock == Some(Closer(c))
  {
    var s' := ApplyAccept(s, t, e);
    assert HoldsLock(s, t) <==> s.lock == Some(Acceptor(t));
    forall t'
      ensures HoldsLock(s', t') <==> s'.lock == Some(Acceptor(t'))
    {
      if t' != t {
        assert HoldsLock(s', t') <==> HoldsLock(s, t');
      }
    }
  }

  lemma AcceptLock(s: State, t: nat, e: AcceptEvent)
    requires LockOk(s) && AcceptEnabled(s, t, e)
    ensures LockOk(ApplyAccept(s, t, e))
  {
    hide ApplyAccept;
    AcceptFrame(s, t, e);
    var s' := ApplyAccept(s, t, e);
    assert forall c :: ClosesUnderLock(s', c) <==> ClosesUnderLock(s, c);
    if AtLock(e) {
      AroundLock(s, t, e);
    } else {
      AcceptMoves(s, t, e);
      AwayFromLock(s, t, e);
      forall t' | t' != t
        ensures HoldsLock(s', t') == HoldsLock(s, t')
      {
      }
    }
  }

  /** The locked state after a step of the accept thread. */
  ghost function AcceptHubAfter(s: State, e: AcceptEvent): H.Hub {
    match e
    case LoopHead => if H.IsReceiving(s.hub) then s.hub else H.AcceptStops(s.hub)
    case ReportError => H.Deliver(s.hub, H.Failed)
    case Unwound => H.AcceptPanicked(s.hub, s.now)
    case _ => s.hub
  }

  /** The accept thread leaves streams being opened, closes, the clock and the records alone. */
  lemma AcceptFrame(s: State, t: nat, e: AcceptEvent)
    requires AcceptEnabled(s, t, e)
    ensures var s' := ApplyAccept(s, t, e);
            && s'.hub == AcceptHubAfter(s, e)
            && s'.claimed == s.claimed && s'.failing == s.failing && s'.closers == s.closers
            && s'.now == s.now && s'.acked == s.acked && s'.read == s.read
  {
    hide AcceptHubAfter;
    if AtLock(e) {
      LockFrame(s, t, e);
    } else {
      WorkFrame(s, t, e);
    }
  }

  lemma LockFrame(s: State, t: nat, e: AcceptEvent)
    requires AcceptEnabled(s, t, e) && AtLock(e)
    ensures var s' := ApplyAccept(s, t, e);
            && s' == s.(acceptors := s'.acceptors, lock := s'.lock, socketOpen := s'.socketOpen)
            && s'.hub == AcceptHubAfter(s, e)
  {
  }

  lemma WorkFrame(s: State, t: nat, e: AcceptEvent)
    requires AcceptEnabled(s, t, e) && !AtLock(e)
    ensures var s' := ApplyAccept(s, t, e);
            && s' == s.(hub := s'.hub, acceptors := s'.acceptors, table := s'.table, threads := s'.threads)
            && s'.hub == AcceptHubAfter(s, e)
  {
    hide T.Supersede, T.MayAccept, T.Register, H.Deliver, H.AcceptPanicked;
  }

  lemma AcceptOne(s: State, t: nat, e: AcceptEvent)
    requires OneAccepter(s) && AcceptEnabled(s, t, e)
    ensures OneAccepter(ApplyAccept(s, t, e))
  {
    hide ApplyAccept;
    AcceptFrame(s, t, e);
    AcceptMoves(s, t, e);
    var s' := ApplyAccept(s, t, e);
    assert s.acceptors.Keys == {t};
    assert s'.acceptors.Keys == if AcceptLeaves(s, e) then {} else {t};
    assert forall t' :: t' in s'.acceptors <==> t' in s'.acceptors.Keys;
  }

  lemma AcceptHub(s: State, t: nat, e: AcceptEvent)
    requires HubOk(s.hub) && AcceptEnabled(s, t, e)
    ensures HubOk(ApplyAccept(s, t, e).hub) && SameStreams(s.hub, ApplyAccept(s, t, e).hub)
    ensures ApplyAccept(s, t, e).hub.closing == s.hub.closing
  {
    hide ApplyAccept, HubOk, H.Deliver;
    AcceptFrame(s, t, e);
    DeliverReachesNewest(s.hub, H.Failed);
    CloseOk(s.hub, s.now);
  }

  lemma AcceptCoupled(s: State, t: nat, e: AcceptEvent)
    requires Coupled(s) && AcceptEnabled(s, t, e)
    ensures Coupled(ApplyAccept(s, t, e))
  {
    hide HubOk, LockOk, OneAccepter, ApplyAccept;
    AcceptFrame(s, t, e);
    AcceptLock(s, t, e);
    AcceptOne(s, t, e);
    AcceptHub(s, t, e);
    KeepOpening(s, ApplyAccept(s, t, e));
  }

  // ----- Listeners -----

  /** A listener touches its own entry and thread, and the hub only by delivering. */
  lemma ListenerFrame(s: State, l: nat, e: ListenerEvent)
    requires ListenerEnabled(s, l, e)
    ensures var s' := ApplyListener(s, l, e);
            && s' == s.(hub := s'.hub, table := s'.table, threads := s'.threads, acked := s'.acked)
            && s'.hub == (match e
                          case Deliver => H.Deliver(s.hub, H.Got(s.threads[l].pc.bundle))
                          case DeliverError => H.Deliver(s.hub, H.Failed)
                          case _ => s.hub)
  {
    hide H.Deliver;
  }

  lemma ListenerCoupled(s: State, l: nat, e: ListenerEvent)
    requires Coupled(s) && ListenerEnabled(s, l, e)
    ensures Coupled(ApplyListener(s, l, e))
  {
    hide HubOk, LockOk, H.Deliver, ApplyListener;
    ListenerFrame(s, l, e);
    var s' := ApplyListener(s, l, e);
    if e.Deliver? {
      DeliverReachesNewest(s.hub, H.Got(s.threads[l].pc.bundle));
    }
    DeliverReachesNewest(s.hub, H.Failed);
    KeepOpening(s, s');
    Recouple(s, s');
  }

  // ----- Every run -----

  lemma StepCoupled(s: State, e: Event)
    requires Coupled(s) && Enabled(s, e)
    ensures Coupled(Apply(s, e))
  {
    hide Coupled, ApplyStream, ApplyClose, ApplyAccept, ApplyListener;
    match e
    case OnStream(se) => StreamCoupled(s, se);
    case OnClose(c, ce) => CloseCoupled(s, c, ce);
    case OnAccept(t, ae) => AcceptCoupled(s, t, ae);
    case OnListener(l, le) => ListenerCoupled(s, l, le);
    case Tick(ms) => TickCoupled(s, ms);
  }

  lemma TickCoupled(s: State, ms: nat)
    requires Coupled(s)
    ensures Coupled(s.(now := s.now + ms))
  {
    hide HubOk, LockOk;
    Recouple(s, s.(now := s.now + ms));
  }

  lemma {:induction false} RunCoupled(ss: seq<State>, es: seq<Event>, i: nat)
    requires IsRun(ss, es) && i < |ss|
    ensures Coupled(ss[i])
  {
    hide Coupled, Apply;
    if i == 0 {
      InitCoupled(ss[0].now);
    } else {
      RunCoupled(ss, es, i - 1);
      StepCoupled(ss[i - 1], es[i - 1]);
    }
  }

  /**
   * The coupling invariant, in every state of every run: streams are subscribed exactly while
   * receiving is on; then an accept thread is running or about to; there is never more than
   * one; bundles are kept only while no stream is open; and no stream is open during a close.
   */
  lemma ReceiverIsCoupled(ss: seq<State>, es: seq<Event>, i: nat)
    requires IsRun(ss, es) && i < |ss|
    ensures var s := ss[i];
            && (s.hub.subscribers != [] <==> H.IsReceiving(s.hub))
            && (H.IsReceiving(s.hub) ==> |s.claimed| + |s.acceptors| == 1)
            && (s.hub.acceptRunning <==> |s.claimed| + |s.acceptors| == 1)
            && |s.claimed| + |s.acceptors| <= 1
            && (s.hub.pending != [] ==> s.hub.subscribers == [])
            && (s.closers != map[] ==> s.hub.subscribers == [])
            && (forall id :: id in s.hub.subscribers ==> H.Accepts(s.hub, id))
  {
    RunCoupled(ss, es, i);
    var s := ss[i];
    if s.claimed != {} {
      var id :| id in s.claimed;
      assert s.claimed == {id};
      assert |s.acceptors.Keys| == 0;
    } else if s.acceptors.Keys != {} {
      var t :| t in s.acceptors;
      assert s.acceptors.Keys == {t};
    }
    assert |s.acceptors| == |s.acceptors.Keys|;
    if s.closers != map[] {
      var c :| c in s.closers;
      MapSizes(s.closers, c, s.closers[c]);
    }
  }
}
