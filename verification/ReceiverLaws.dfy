/** Who gets what, in every run of the receiver: which stream a bundle or an error goes to. */
module ReceiverLaws {
  import opened Counting
  import H = Hub
  import T = ListenerTable
  import opened Receiver
  import C = ReceiverCoupling
  import B = ReceiverBounds
  import V = ReceiverConservation
  import Z = ReceiverStop

  // ----- Streams are subscribed in the order they were opened -----

  /** Strictly increasing numbers of existing streams. */
  ghost predicate Rising(h: H.Hub) {
    Ascending(h.subscribers) && forall sub :: sub in h.subscribers ==> sub < |h.channels|
  }

  lemma {:induction false} WithoutRises(subs: seq<nat>, id: nat)
    requires Ascending(subs)
    ensures Ascending(H.WithoutId(subs, id))
  {
    if subs != [] {
      var k := |subs| - 1;
      assert Ascending(subs[..k]);
      WithoutRises(subs[..k], id);
      var rest := H.WithoutId(subs[..k], id);
      assert forall x :: x in rest ==> x in subs[..k];
      Snoc(rest, subs[k]);
    }
  }

  lemma DropRises(h: H.Hub, id: nat, now: H.Time)
    requires Rising(h) && id < |h.channels|
    ensures Rising(H.Unsubscribe(h, id, now))
  {
    WithoutRises(h.subscribers, id);
  }

  lemma StreamRises(s: State, e: StreamEvent)
    requires Rising(s.hub) && StreamEnabled(s, e)
    ensures Rising(ApplyStream(s, e).hub)
  {
    hide H.Unsubscribe, H.WithoutId, H.Bundles;
    if e.Subscribe? {
      Snoc(s.hub.subscribers, |s.hub.channels|);
    } else if e.DropStream? {
      DropRises(s.hub, e.id, s.now);
    } else if e.SpawnAcceptFails? {
      H.FailKeeps(s.hub, s.hub.subscribers, e.id);
    }
  }

  lemma DeliverRises(h: H.Hub, item: H.Item)
    requires Rising(h)
    ensures Rising(H.Deliver(h, item))
  {
  }

  lemma StepRises(s: State, e: Event)
    requires Rising(s.hub) && Enabled(s, e)
    ensures Rising(Apply(s, e).hub)
  {
    hide ApplyStream, ApplyAccept, ApplyListener, H.Deliver;
    DeliverRises(s.hub, H.Failed);
    match e
    case OnStream(se) => StreamRises(s, se);
    case OnClose(c, ce) =>
    case OnAccept(t, ae) => C.AcceptFrame(s, t, ae);
    case OnListener(l, le) =>
      C.ListenerFrame(s, l, le);
      if le.Deliver? {
        DeliverRises(s.hub, H.Got(s.threads[l].pc.bundle));
      }
    case Tick(_) =>
  }

  lemma {:induction false} RunRises(ss: seq<State>, es: seq<Event>, i: nat)
    requires IsRun(ss, es) && i < |ss|
    ensures Rising(ss[i].hub)
  {
    hide Apply, Enabled;
    if i > 0 {
      RunRises(ss, es, i - 1);
      StepRises(ss[i - 1], es[i - 1]);
    }
  }

  // ----- Delivery -----

  /** Stream `id` is subscribed, and none opened after it. */
  ghost predicate IsNewest(subs: seq<nat>, id: nat) {
    id in subs && forall sub :: sub in subs ==> sub <= id
  }

  /** What delivering `item` does: it joins the queue of the newest stream, if any, and nothing else changes. */
  ghost predicate Delivers(h: H.Hub, item: H.Item, h': H.Hub) {
    && h' == h.(channels := h'.channels, pending := h'.pending) && |h'.channels| == |h.channels|
    && (forall id :: 0 <= id < |h.channels| ==>
          h'.channels[id] == if IsNewest(h.subscribers, id)
                             then h.channels[id].(queue := h.channels[id].queue + [item]) else h.channels[id])
    && h'.pending == if h.subscribers == [] && item.Got? then h.pending + [item.bundle] else h.pending
  }

  lemma NewestIsLast(h: H.Hub, id: nat)
    requires Rising(h) && h.subscribers != []
    ensures IsNewest(h.subscribers, id) <==> id == h.subscribers[|h.subscribers| - 1]
  {
    var last := h.subscribers[|h.subscribers| - 1];
    assert last in h.subscribers;
    forall sub | sub in h.subscribers
      ensures sub <= last
    {
      var a :| 0 <= a < |h.subscribers| && h.subscribers[a] == sub;
    }
  }

  lemma DeliverLaw(h: H.Hub, item: H.Item)
    requires C.HubOk(h) && Rising(h)
    ensures Delivers(h, item, H.Deliver(h, item))
  {
    if h.subscribers != [] {
      forall id | 0 <= id < |h.channels|
        ensures IsNewest(h.subscribers, id) <==> id == H.Newest(h)
      {
        NewestIsLast(h, id);
      }
    }
  }

  /** In every run, whatever is delivered, bundles and errors alike, goes to the newest stream alone. */
  lemma DeliveryGoesToNewest(ss: seq<State>, es: seq<Event>, i: nat)
    requires IsRun(ss, es) && i < |es|
    ensures es[i].OnListener? && es[i].listener.Deliver? ==>
              Delivers(ss[i].hub, H.Got(ss[i].threads[es[i].l].pc.bundle), ss[i + 1].hub)
    ensures es[i].OnListener? && es[i].listener.DeliverError? ==> Delivers(ss[i].hub, H.Failed, ss[i + 1].hub)
    ensures es[i].OnAccept? && es[i].accept.ReportError? ==> Delivers(ss[i].hub, H.Failed, ss[i + 1].hub)
  {
    hide C.HubOk, C.OneAccepter, C.LockOk, C.OpeningOk, Delivers, Rising, ApplyAccept, ApplyListener, H.Deliver;
    RunRises(ss, es, i);
    C.RunCoupled(ss, es, i);
    var h := ss[i].hub;
    DeliverLaw(h, H.Failed);
    if es[i].OnListener? {
      C.ListenerFrame(ss[i], es[i].l, es[i].listener);
      if es[i].listener.Deliver? {
        DeliverLaw(h, H.Got(ss[i].threads[es[i].l].pc.bundle));
      }
    } else if es[i].OnAccept? {
      C.AcceptFrame(ss[i], es[i].t, es[i].accept);
    }
  }

  // ----- Dropping a stream -----

  /** The newest of the streams subscribed besides `id`. */
  ghost predicate NewestBut(subs: seq<nat>, id: nat, c: nat) {
    c in subs && c != id && forall sub :: sub in subs && sub != id ==> sub <= c
  }

  ghost predicate Alone(subs: seq<nat>, id: nat) {
    forall sub :: sub in subs ==> sub == id
  }

  /**
   * What dropping stream `id` does: its unread bundles join, in order, the queue of the newest
   * other stream, or those kept if there is none; its channel is closed and empty; and nothing
   * else changes in any queue.
   */
  ghost predicate PassesOn(h: H.Hub, id: nat, h': H.Hub)
    requires id < |h.channels|
  {
    var unread := H.Bundles(h.channels[id].queue);
    && |h'.channels| == |h.channels| && h'.channels[id] == H.Channel([], false)
    && (forall c :: 0 <= c < |h.channels| && c != id ==>
          h'.channels[c] == if NewestBut(h.subscribers, id, c)
                            then h.channels[c].(queue := h.channels[c].queue + H.Items(unread)) else h.channels[c])
    && h'.pending == (if Alone(h.subscribers, id) then h.pending + unread else h.pending)
    && (forall sub :: sub in h'.subscribers <==> sub in h.subscribers && sub != id)
  }

  lemma NewestAfter(h: H.Hub, id: nat, c: nat)
    requires Rising(h) && id < |h.channels| && H.WithoutId(h.subscribers, id) != []
    ensures var others := H.WithoutId(h.subscribers, id);
            NewestBut(h.subscribers, id, c) <==> c == others[|others| - 1]
  {
    WithoutRises(h.subscribers, id);
    var gone := h.(subscribers := H.WithoutId(h.subscribers, id));
    NewestIsLast(gone, c);
    assert NewestBut(h.subscribers, id, c) <==> IsNewest(gone.subscribers, c);
  }

  lemma AloneLeavesNone(subs: seq<nat>, id: nat)
    ensures Alone(subs, id) <==> H.WithoutId(subs, id) == []
  {
    var r := H.WithoutId(subs, id);
    if r != [] {
      assert r[0] in r;
    }
  }

  lemma DropLaw(h: H.Hub, id: nat, now: H.Time)
    requires C.HubOk(h) && Rising(h) && id < |h.channels|
    ensures PassesOn(h, id, H.Unsubscribe(h, id, now))
  {
    hide H.WithoutId, H.Bundles, H.Items, NewestBut, Alone;
    var others := H.WithoutId(h.subscribers, id);
    AloneLeavesNone(h.subscribers, id);
    if others != [] {
      forall c | 0 <= c < |h.channels|
        ensures NewestBut(h.subscribers, id, c) <==> c == others[|others| - 1]
      {
        NewestAfter(h, id, c);
      }
      assert others[|others| - 1] in others;
    } else {
      forall c | 0 <= c < |h.channels|
        ensures !NewestBut(h.subscribers, id, c)
      {
        NoneBut(h.subscribers, id, c);
      }
    }
  }

  lemma NoneBut(subs: seq<nat>, id: nat, c: nat)
    requires H.WithoutId(subs, id) == []
    ensures !NewestBut(subs, id, c)
  {
    assert c !in H.WithoutId(subs, id);
  }

  /** In every run, a dropped stream passes its unread bundles to the newest other stream alone. */
  lemma DropPassesOn(ss: seq<State>, es: seq<Event>, i: nat, id: nat)
    requires IsRun(ss, es) && i < |es| && es[i] == OnStream(DropStream(id))
    ensures id < |ss[i].hub.channels| && PassesOn(ss[i].hub, id, ss[i + 1].hub)
  {
    hide C.HubOk, C.OneAccepter, C.LockOk, C.OpeningOk, PassesOn, Rising, H.Unsubscribe;
    RunRises(ss, es, i);
    C.RunCoupled(ss, es, i);
    DropLaw(ss[i].hub, id, ss[i].now);
  }

  // ----- A failed start of the accept thread -----

  /** Every subscriber but `id` got the error, and no other stream anything. */
  ghost predicate Told(h: H.Hub, subs: seq<nat>, id: nat, h': H.Hub) {
    && |h'.channels| == |h.channels|
    && (forall c :: 0 <= c < |h.channels| ==>
          h'.channels[c] == if c in subs && c != id
                            then h.channels[c].(queue := h.channels[c].queue + [H.Failed]) else h.channels[c])
  }

  lemma {:induction false} FailOthersLaw(h: H.Hub, subs: seq<nat>, id: nat)
    requires Ascending(subs) && forall sub :: sub in subs ==> H.Accepts(h, sub)
    ensures Told(h, subs, id, H.FailOthers(h, subs, id))
  {
    if subs != [] {
      var k := |subs| - 1;
      assert Ascending(subs[..k]) && subs[k] !in subs[..k];
      assert subs == subs[..k] + [subs[k]];
      FailOthersLaw(h, subs[..k], id);
      assert subs[k] in subs;
    }
  }

  /**
   * In every run, when the accept thread that a stream claimed cannot start, every other
   * subscriber gets the error at the end of its queue, all are unsubscribed, and the bundles of
   * the stream itself are kept, in order.
   */
  lemma FailureIsTold(ss: seq<State>, es: seq<Event>, i: nat, id: nat)
    requires IsRun(ss, es) && i < |es| && es[i] == OnStream(SpawnAcceptFails(id))
    ensures var h, h' := ss[i].hub, ss[i + 1].hub;
            && id < |h.channels| == |h'.channels| && h'.subscribers == [] && !h'.acceptRunning
            && (forall c :: 0 <= c < |h.channels| && c != id ==>
                  h'.channels[c] == if c in h.subscribers
                                    then h.channels[c].(queue := h.channels[c].queue + [H.Failed]) else h.channels[c])
            && h'.channels[id] == h.channels[id].(queue := [])
            && h'.pending == h.pending + H.Bundles(h.channels[id].queue)
  {
    hide C.OneAccepter, C.LockOk, C.OpeningOk, H.FailOthers, H.Bundles;
    RunRises(ss, es, i);
    C.RunCoupled(ss, es, i);
    var h := ss[i].hub;
    H.FailKeeps(h, h.subscribers, id);
    FailOthersLaw(h, h.subscribers, id);
  }

  // ----- The stream whose accept thread could not start -----

  /** Stream `id` is not subscribed, and holds nothing. */
  ghost predicate Hollow(h: H.Hub, id: nat) {
    id < |h.channels| && id !in h.subscribers && h.channels[id].queue == []
  }

  ghost predicate FailingHollow(s: State) {
    forall id :: id in s.failing ==> Hollow(s.hub, id)
  }

  lemma DeliverHollow(h: H.Hub, item: H.Item, id: nat)
    requires C.HubOk(h) && Rising(h) && Hollow(h, id)
    ensures Hollow(H.Deliver(h, item), id)
  {
    hide H.Deliver;
    DeliverLaw(h, item);
  }

  lemma DropHollow(h: H.Hub, gone: nat, now: H.Time, id: nat)
    requires C.HubOk(h) && Rising(h) && gone < |h.channels| && Hollow(h, id)
    ensures Hollow(H.Unsubscribe(h, gone, now), id)
  {
    hide H.Unsubscribe, C.HubOk, H.Bundles, H.Items;
    DropLaw(h, gone, now);
  }

  lemma FailHollow(h: H.Hub, failed: nat, now: H.Time, id: nat)
    requires C.HubOk(h) && Rising(h) && failed < |h.channels| && (id == failed || Hollow(h, id))
    ensures Hollow(H.AcceptFailed(h, failed, now), id)
  {
    hide H.FailOthers, H.Bundles;
    H.FailKeeps(h, h.subscribers, failed);
    FailOthersLaw(h, h.subscribers, failed);
  }

  lemma StreamHollow(s: State, e: StreamEvent, id: nat)
    requires C.Coupled(s) && Rising(s.hub) && FailingHollow(s) && StreamEnabled(s, e)
    requires id in ApplyStream(s, e).failing
    ensures Hollow(ApplyStream(s, e).hub, id)
  {
    hide C.HubOk, C.OneAccepter, C.LockOk, Rising, H.AcceptFailed, H.Unsubscribe, H.Bundles;
    if e.DropStream? {
      DropHollow(s.hub, e.id, s.now, id);
    } else if e.SpawnAcceptFails? {
      FailHollow(s.hub, e.id, s.now, id);
    }
  }

  lemma StepHollow(s: State, e: Event)
    requires C.Coupled(s) && Rising(s.hub) && FailingHollow(s) && Enabled(s, e)
    ensures FailingHollow(Apply(s, e))
  {
    hide C.HubOk, C.OneAccepter, C.LockOk, C.OpeningOk, Rising, ApplyStream, ApplyClose, ApplyAccept,
      ApplyListener, H.Deliver;
    forall id | id in Apply(s, e).failing
      ensures Hollow(Apply(s, e).hub, id)
    {
      if !e.OnStream? {
        SameFailing(s, e);
        DeliverHollow(s.hub, H.Failed, id);
      }
      match e
      case OnStream(se) => StreamHollow(s, se, id);
      case OnClose(c, ce) => CloseHollow(s, c, ce, id);
      case OnAccept(t, ae) => C.AcceptFrame(s, t, ae);
      case OnListener(l, le) =>
        C.ListenerFrame(s, l, le);
        if le.Deliver? {
          DeliverHollow(s.hub, H.Got(s.threads[l].pc.bundle), id);
        }
      case Tick(_) =>
    }
  }

  lemma CloseHollow(s: State, c: nat, e: CloseEvent, id: nat)
    requires CloseEnabled(s, c, e) && Hollow(s.hub, id)
    ensures Hollow(ApplyClose(s, c, e).hub, id)
  {
  }

  lemma SameFailing(s: State, e: Event)
    requires Enabled(s, e) && !e.OnStream?
    ensures Apply(s, e).failing == s.failing
  {
    hide ApplyAccept, ApplyListener;
    if e.OnAccept? {
      C.AcceptFrame(s, e.t, e.accept);
    } else if e.OnListener? {
      C.ListenerFrame(s, e.l, e.listener);
    }
  }

  lemma {:induction false} RunHollow(ss: seq<State>, es: seq<Event>, i: nat)
    requires IsRun(ss, es) && i < |ss|
    ensures FailingHollow(ss[i])
  {
    hide Apply, Enabled, C.Coupled, Rising;
    if i > 0 {
      RunHollow(ss, es, i - 1);
      RunRises(ss, es, i - 1);
      C.RunCoupled(ss, es, i - 1);
      StepHollow(ss[i - 1], es[i - 1]);
    }
  }

  /** In every run, a stream whose accept thread could not start yields that error, and nothing else. */
  lemma FailedStreamYieldsTheError(ss: seq<State>, es: seq<Event>, i: nat, id: nat)
    requires IsRun(ss, es) && i < |es| && es[i] == OnStream(ReportSpawn(id))
    ensures var h := ss[i + 1].hub;
            id < |h.channels| && h.channels[id].queue == [H.Failed] && id !in h.subscribers
  {
    hide C.HubOk, C.OneAccepter, C.LockOk;
    RunHollow(ss, es, i);
    C.RunCoupled(ss, es, i);
  }

  // ----- Accepting -----

  /** Listeners that have not finished. */
  ghost function Unfinished(s: State): set<nat> {
    set l: nat | l < |s.threads| && s.threads[l].pc != Done
  }

  /** In every run, the accept thread goes on to accept exactly if fewer than ten listeners are unfinished. */
  lemma AcceptsBelowTen(ss: seq<State>, es: seq<Event>, i: nat, t: nat)
    requires IsRun(ss, es) && i < |es| && es[i] == OnAccept(t, WaitSlot)
    ensures ss[i + 1].acceptors[t] == if |Unfinished(ss[i])| < 10 then WantLock else Head
  {
    hide B.WindowOk, T.Bounded;
    B.RunTable(ss, es, i);
    assert T.Running(ss[i].table) == Unfinished(ss[i]);
  }

  /** In every run, the accept thread ends at its loop head exactly if receiving is off; else only by a panic. */
  lemma AcceptThreadEnds(ss: seq<State>, es: seq<Event>, i: nat, t: nat)
    requires IsRun(ss, es) && i < |es| && t in ss[i].acceptors
    ensures es[i] == OnAccept(t, LoopHead) ==>
              (t in ss[i + 1].acceptors <==> H.IsReceiving(ss[i].hub))
              && (!H.IsReceiving(ss[i].hub) ==> !ss[i + 1].hub.acceptRunning)
    ensures t !in ss[i + 1].acceptors ==>
              es[i] == OnAccept(t, Unwound) || (es[i] == OnAccept(t, LoopHead) && !H.IsReceiving(ss[i].hub))
  {
    hide ApplyStream, ApplyClose, ApplyAccept, ApplyListener;
    match es[i]
    case OnStream(se) => B.StreamPlace(ss[i], se);
    case OnClose(c, ce) => B.ClosePlace(ss[i], c, ce);
    case OnAccept(t', ae) =>
      C.AcceptMoves(ss[i], t', ae);
      C.AcceptFrame(ss[i], t', ae);
    case OnListener(l, le) => C.ListenerFrame(ss[i], l, le);
    case Tick(_) =>
  }

  // ----- A connection is kept -----

  /** The listener is in its loop. */
  ghost predicate Serving(s: State, l: nat) {
    l < |s.threads| && (var pc := s.threads[l].pc; pc == AtGate || pc == PastGate || pc == Reading || pc.InHand?)
  }

  /** The reasons to leave the loop: the grace is over, the read was hopeless or failed. */
  ghost predicate Loses(e: Event, l: nat) {
    && e.OnListener? && e.l == l
    && (e.listener.GiveUp? || e.listener == Receive(Hopeless) || e.listener == Receive(Error))
  }

  lemma ListenerStays(s: State, k: nat, e: ListenerEvent, l: nat)
    requires ListenerEnabled(s, k, e) && l < |s.table| && !s.table[l].evicted && Serving(s, l)
    requires !Loses(OnListener(k, e), l)
    ensures Serving(ApplyListener(s, k, e), l)
  {
    hide H.Deliver;
  }

  lemma AcceptKeepsServing(s: State, t: nat, e: AcceptEvent, l: nat)
    requires AcceptEnabled(s, t, e) && B.TableOk(s) && Serving(s, l)
    ensures Serving(ApplyAccept(s, t, e), l)
  {
    hide ApplyAccept, B.TableOk;
    if e.Register? {
      RegisterServing(s, t, l);
    } else if e.SpawnListener? {
      SpawnServing(s, t, e.ok, l);
    } else {
      Z.AcceptThreads(s, t, e);
    }
  }

  lemma RegisterServing(s: State, t: nat, l: nat)
    requires AcceptEnabled(s, t, Register) && Serving(s, l)
    ensures Serving(ApplyAccept(s, t, Register), l)
  {
  }

  lemma SpawnServing(s: State, t: nat, ok: bool, l: nat)
    requires AcceptEnabled(s, t, SpawnListener(ok)) && B.TableOk(s) && Serving(s, l)
    ensures Serving(ApplyAccept(s, t, SpawnListener(ok)), l)
  {
    hide B.TableOk;
    V.NotStartedYet(s, t);
  }

  lemma StepServing(s: State, e: Event, l: nat)
    requires Enabled(s, e) && B.TableOk(s) && Serving(s, l) && l < |s.table| && !s.table[l].evicted && !Loses(e, l)
    ensures Serving(Apply(s, e), l)
  {
    hide ApplyStream, ApplyClose, ApplyAccept, ApplyListener, B.TableOk;
    match e
    case OnStream(se) => B.StreamPlace(s, se);
    case OnClose(c, ce) => B.ClosePlace(s, c, ce);
    case OnAccept(t, ae) => AcceptKeepsServing(s, t, ae, l);
    case OnListener(k, le) => ListenerStays(s, k, le, l);
    case Tick(_) =>
  }

  /**
   * A connection is kept, in every run, however many bundles it carries, as long as it is not
   * asked to close, receiving was not off for the whole grace, and no read fails or is hopeless.
   */
  lemma {:induction false} ConnectionIsKept(ss: seq<State>, es: seq<Event>, i: nat, j: nat, l: nat)
    requires IsRun(ss, es) && i <= j < |ss| && Serving(ss[i], l)
    requires forall k :: i <= k < j ==> !Loses(es[k], l) && l < |ss[k].table| && !ss[k].table[l].evicted
    ensures Serving(ss[j], l)
    decreases j
  {
    hide Apply, Enabled, B.TableOk, Serving, Loses;
    if i < j {
      ConnectionIsKept(ss, es, i, j - 1, l);
      B.RunTable(ss, es, j - 1);
      StepServing(ss[j - 1], es[j - 1], l);
    }
  }
}
