/**
 * The order of bundles: with one stream at a time, what the streams yield is what the listeners
 * delivered, in the same order, across any number of streams.
 */
module ReceiverOrder {
  import opened Base
  import opened Counting
  import H = Hub
  import opened Receiver
  import C = ReceiverCoupling
  import V = ReceiverConservation

  /** A channel that holds no bundle and can get none. */
  ghost predicate Spent(c: H.Channel) {
    !c.open && H.Bundles(c.queue) == []
  }

  /** All streams but the newest are gone, and a dropped stream left nothing behind. */
  ghost predicate OneByOne(h: H.Hub) {
    forall i :: 0 <= i < |h.channels| && (i < |h.channels| - 1 || !h.channels[i].open) ==> Spent(h.channels[i])
  }

  /** The unread bundles of the newest stream. */
  ghost function Unread(h: H.Hub): seq<Copy> {
    if h.channels == [] then [] else H.Bundles(h.channels[|h.channels| - 1].queue)
  }

  /** What the next reads will yield, in order: the open queue, then what is kept. */
  ghost function InStore(h: H.Hub): seq<Copy> {
    Unread(h) + h.pending
  }

  ghost predicate NoneOpen(h: H.Hub) {
    forall i :: 0 <= i < |h.channels| ==> !h.channels[i].open
  }

  // ----- The locked state -----

  lemma OpenIsLast(h: H.Hub, id: nat)
    requires OneByOne(h) && H.Accepts(h, id)
    ensures id == |h.channels| - 1
  {
  }

  lemma SubscribeOrder(h: H.Hub)
    requires OneByOne(h) && NoneOpen(h)
    ensures OneByOne(H.Subscribe(h)) && InStore(H.Subscribe(h)) == InStore(h)
  {
    hide H.Bundles, H.Items;
    V.BundlesOfItems(h.pending);
    if h.channels != [] {
      assert Spent(h.channels[|h.channels| - 1]);
    }
    assert [] + h.pending == h.pending;
  }

  lemma PushOrder(h: H.Hub, id: nat, items: seq<H.Item>)
    requires OneByOne(h) && H.Accepts(h, id)
    ensures OneByOne(H.Push(h, id, items)) && Unread(H.Push(h, id, items)) == Unread(h) + H.Bundles(items)
  {
    OpenIsLast(h, id);
    H.BundlesConcat(h.channels[id].queue, items);
  }

  lemma OneBundle(item: H.Item)
    ensures H.Bundles([item]) == H.BundleOf(item)
  {
    assert [item][..0] == [];
    assert H.Bundles([]) == [];
  }

  lemma DeliverOrder(h: H.Hub, item: H.Item)
    requires C.HubOk(h) && OneByOne(h)
    ensures OneByOne(H.Deliver(h, item)) && InStore(H.Deliver(h, item)) == InStore(h) + H.BundleOf(item)
  {
    hide H.Bundles, C.Reachable;
    C.DeliverReachesNewest(h, item);
    OneBundle(item);
    if h.subscribers != [] {
      PushOrder(h, H.Newest(h), [item]);
    } else {
      Regroup(Unread(h), h.pending, H.BundleOf(item));
    }
  }

  lemma HeadFirst(q: seq<H.Item>)
    requires q != []
    ensures H.Bundles(q) == H.BundleOf(q[0]) + H.Bundles(q[1..])
  {
    OneBundle(q[0]);
    H.BundlesConcat([q[0]], q[1..]);
    assert [q[0]] + q[1..] == q;
  }

  lemma ReadOrder(h: H.Hub, id: nat)
    requires OneByOne(h) && H.Accepts(h, id) && h.channels[id].queue != []
    ensures OneByOne(H.Read(h, id)) && H.BundleOf(h.channels[id].queue[0]) + Unread(H.Read(h, id)) == Unread(h)
    ensures H.BundleOf(h.channels[id].queue[0]) + InStore(H.Read(h, id)) == InStore(h)
  {
    hide H.Bundles, H.BundleOf;
    OpenIsLast(h, id);
    HeadFirst(h.channels[id].queue);
    Regroup(H.BundleOf(h.channels[id].queue[0]), Unread(H.Read(h, id)), h.pending);
  }

  lemma Regroup(a: seq<Copy>, b: seq<Copy>, c: seq<Copy>)
    ensures a + (b + c) == (a + b) + c
  {
  }

  /**
   * The unread bundles of a stream that goes away follow those already kept. They were
   * delivered before them, so the order survives if one of the two is missing.
   */
  ghost predicate Orderly(h: H.Hub, id: nat) {
    id < |h.channels| && (h.pending == [] || H.Bundles(h.channels[id].queue) == [])
  }

  lemma UnsubscribeOrder(h: H.Hub, id: nat, now: H.Time)
    requires C.HubOk(h) && OneByOne(h) && H.Accepts(h, id) && Orderly(h, id)
    ensures OneByOne(H.Unsubscribe(h, id, now)) && Unread(H.Unsubscribe(h, id, now)) == []
    ensures InStore(H.Unsubscribe(h, id, now)) == InStore(h)
  {
    UnreadIsKept(h, id, now);
  }

  /** For different bundles the order survives exactly if the stream leaves in order. */
  lemma DropKeepsOrderIffOrderly(h: H.Hub, id: nat, now: H.Time)
    requires C.HubOk(h) && OneByOne(h) && H.Accepts(h, id) && Distinct(InStore(h))
    ensures InStore(H.Unsubscribe(h, id, now)) == InStore(h) <==> Orderly(h, id)
  {
    if Orderly(h, id) {
      UnsubscribeOrder(h, id, now);
    } else {
      hide H.Bundles, H.WithoutId;
      UnreadIsKept(h, id, now);
      assert InStore(h)[0] != InStore(h)[|Unread(h)|];
    }
  }

  /** What a dropped stream leaves goes behind what was kept. */
  lemma UnreadIsKept(h: H.Hub, id: nat, now: H.Time)
    requires C.HubOk(h) && OneByOne(h) && H.Accepts(h, id)
    ensures id == |h.channels| - 1
    ensures H.Unsubscribe(h, id, now).channels == h.channels[id := H.Channel([], false)]
    ensures H.Unsubscribe(h, id, now).pending == h.pending + Unread(h)
    ensures Unread(H.Unsubscribe(h, id, now)) == []
  {
    OpenIsLast(h, id);
    var others := H.WithoutId(h.subscribers, id);
    if others != [] {
      assert others[0] in h.subscribers;
      OpenIsLast(h, others[0]);
    }
    assert H.Bundles([]) == [];
  }

  /** A failed start of the accept thread puts the bundles of its stream behind those kept, too. */
  lemma FailedIsKept(h: H.Hub, id: nat, now: H.Time)
    requires OneByOne(h) && H.Accepts(h, id)
    ensures id == |h.channels| - 1
    ensures OneByOne(H.AcceptFailed(h, id, now)) && Unread(H.AcceptFailed(h, id, now)) == []
    ensures H.AcceptFailed(h, id, now).pending == h.pending + Unread(h)
  {
    OpenIsLast(h, id);
    H.FailKeeps(h, h.subscribers, id);
    assert H.Bundles([]) == [];
  }

  lemma AcceptFailedOrder(h: H.Hub, id: nat, now: H.Time)
    requires OneByOne(h) && H.Accepts(h, id) && Orderly(h, id)
    ensures OneByOne(H.AcceptFailed(h, id, now)) && Unread(H.AcceptFailed(h, id, now)) == []
    ensures InStore(H.AcceptFailed(h, id, now)) == InStore(h)
  {
    hide OneByOne, H.AcceptFailed, H.Bundles;
    FailedIsKept(h, id, now);
  }

  /** The order of different bundles survives it under exactly the same condition. */
  lemma FailKeepsOrderIffOrderly(h: H.Hub, id: nat, now: H.Time)
    requires OneByOne(h) && H.Accepts(h, id) && Distinct(InStore(h))
    ensures InStore(H.AcceptFailed(h, id, now)) == InStore(h) <==> Orderly(h, id)
  {
    hide OneByOne, H.AcceptFailed, H.Bundles;
    if Orderly(h, id) {
      AcceptFailedOrder(h, id, now);
    } else {
      FailedIsKept(h, id, now);
      assert InStore(h)[0] != InStore(h)[|Unread(h)|];
    }
  }

  lemma SameChannels(h: H.Hub, h': H.Hub)
    requires OneByOne(h) && h'.channels == h.channels && h'.pending == h.pending
    ensures OneByOne(h') && InStore(h') == InStore(h)
  {
  }

  // ----- Every step -----

  /** The bundle a step hands to the locked state. */
  ghost function Handed(s: State, e: Event): seq<Copy>
    requires Enabled(s, e)
  {
    if e.OnListener? && e.listener.Deliver? then [s.threads[e.l].pc.bundle] else []
  }

  /** The bundle a step yields to a reader. */
  ghost function Yielded(s: State, e: Event): seq<Copy>
    requires Enabled(s, e)
  {
    if e.OnStream? && e.stream.ReadItem? then H.BundleOf(s.hub.channels[e.stream.id].queue[0]) else []
  }

  /** A stream is opened only after all others were dropped. */
  ghost predicate Sequential(s: State, e: Event) {
    e == OnStream(Subscribe) ==> NoneOpen(s.hub)
  }

  /** A stream goes away having been read to its end, or with nothing delivered since it ended. */
  ghost predicate LeavesInOrder(s: State, e: Event) {
    e.OnStream? && (e.stream.DropStream? || e.stream.SpawnAcceptFails?) ==> Orderly(s.hub, e.stream.id)
  }

  lemma StreamOrder(s: State, e: StreamEvent)
    requires C.Coupled(s) && OneByOne(s.hub) && StreamEnabled(s, e)
    requires Sequential(s, OnStream(e)) && LeavesInOrder(s, OnStream(e))
    ensures OneByOne(ApplyStream(s, e).hub)
    ensures Yielded(s, OnStream(e)) + InStore(ApplyStream(s, e).hub) == InStore(s.hub)
  {
    hide OneByOne, InStore, C.HubOk, C.OneAccepter, C.LockOk, H.Subscribe, H.AcceptFailed, H.Push, H.Read,
        H.Unsubscribe;
    match e
    case Subscribe => SubscribeOrder(s.hub);
    case SpawnAccept(_, _) =>
    case SpawnAcceptFails(id) => AcceptFailedOrder(s.hub, id, s.now);
    case ReportSpawn(id) => ReportOrder(s.hub, id);
    case ReadItem(id) => ReadOrder(s.hub, id);
    case DropStream(id) => UnsubscribeOrder(s.hub, id, s.now);
  }

  lemma ReportOrder(h: H.Hub, id: nat)
    requires OneByOne(h) && H.Accepts(h, id)
    ensures OneByOne(H.Push(h, id, [H.Failed])) && InStore(H.Push(h, id, [H.Failed])) == InStore(h)
  {
    PushOrder(h, id, [H.Failed]);
    OneBundle(H.Failed);
  }

  lemma CloseOrder(s: State, c: nat, e: CloseEvent)
    requires OneByOne(s.hub) && CloseEnabled(s, c, e)
    ensures OneByOne(ApplyClose(s, c, e).hub) && InStore(ApplyClose(s, c, e).hub) == InStore(s.hub)
  {
    hide OneByOne, InStore;
    SameChannels(s.hub, ApplyClose(s, c, e).hub);
  }

  lemma AcceptOrder(s: State, t: nat, e: AcceptEvent)
    requires C.HubOk(s.hub) && OneByOne(s.hub) && AcceptEnabled(s, t, e)
    ensures OneByOne(ApplyAccept(s, t, e).hub) && InStore(ApplyAccept(s, t, e).hub) == InStore(s.hub)
  {
    hide OneByOne, InStore, C.HubOk, H.Deliver, ApplyAccept;
    C.AcceptFrame(s, t, e);
    if e.ReportError? {
      DeliverOrder(s.hub, H.Failed);
    } else {
      SameChannels(s.hub, ApplyAccept(s, t, e).hub);
    }
  }

  lemma ListenerOrder(s: State, l: nat, e: ListenerEvent)
    requires C.HubOk(s.hub) && OneByOne(s.hub) && ListenerEnabled(s, l, e)
    ensures OneByOne(ApplyListener(s, l, e).hub)
    ensures InStore(ApplyListener(s, l, e).hub) == InStore(s.hub) + Handed(s, OnListener(l, e))
  {
    hide OneByOne, InStore, C.HubOk, H.Deliver, ApplyListener;
    C.ListenerFrame(s, l, e);
    DeliverOrder(s.hub, H.Failed);
    if e.Deliver? {
      DeliverOrder(s.hub, H.Got(s.threads[l].pc.bundle));
    }
  }

  /** Each step appends what it delivers and takes what it yields off the front. */
  lemma StepOrder(s: State, e: Event)
    requires C.Coupled(s) && OneByOne(s.hub) && Enabled(s, e) && Sequential(s, e) && LeavesInOrder(s, e)
    ensures OneByOne(Apply(s, e).hub)
    ensures Yielded(s, e) + InStore(Apply(s, e).hub) == InStore(s.hub) + Handed(s, e)
  {
    hide OneByOne, InStore, C.HubOk, C.OneAccepter, C.LockOk, ApplyStream, ApplyClose, ApplyAccept, ApplyListener;
    match e
    case OnStream(se) => StreamOrder(s, se);
    case OnClose(c, ce) => CloseOrder(s, c, ce);
    case OnAccept(t, ae) => AcceptOrder(s, t, ae);
    case OnListener(l, le) => ListenerOrder(s, l, le);
    case Tick(_) => SameChannels(s.hub, Apply(s, e).hub);
  }

  // ----- Every run -----

  /** All bundles delivered in the first `i` steps, in order. */
  ghost function Delivered(ss: seq<State>, es: seq<Event>, i: nat): seq<Copy>
    requires IsRun(ss, es) && i < |ss|
  {
    if i == 0 then [] else Delivered(ss, es, i - 1) + Handed(ss[i - 1], es[i - 1])
  }

  /** All bundles read in the first `i` steps, from whichever stream, in order. */
  ghost function ReadSoFar(ss: seq<State>, es: seq<Event>, i: nat): seq<Copy>
    requires IsRun(ss, es) && i < |ss|
  {
    if i == 0 then [] else ReadSoFar(ss, es, i - 1) + Yielded(ss[i - 1], es[i - 1])
  }

  ghost predicate SequentialRun(ss: seq<State>, es: seq<Event>, i: nat) {
    IsRun(ss, es) && i < |ss| && forall k :: 0 <= k < i ==> Sequential(ss[k], es[k])
  }

  lemma Shift(read: seq<Copy>, y: seq<Copy>, store: seq<Copy>, store': seq<Copy>, d: seq<Copy>)
    requires y + store' == store + d
    ensures (read + y) + store' == (read + store) + d
  {
    assert (read + y) + store' == read + (y + store');
    assert (read + store) + d == read + (store + d);
  }

  /**
   * Order, whatever the closes and threads do: with one stream at a time, each leaving in
   * order, the bundles read, then the open queue, then those kept are the bundles delivered.
   */
  lemma {:induction false} OrderIsKept(ss: seq<State>, es: seq<Event>, i: nat)
    requires SequentialRun(ss, es, i) && forall k :: 0 <= k < i ==> LeavesInOrder(ss[k], es[k])
    ensures OneByOne(ss[i].hub)
    ensures ReadSoFar(ss, es, i) + InStore(ss[i].hub) == Delivered(ss, es, i)
    decreases i
  {
    hide Apply, C.Coupled, OneByOne, InStore, LeavesInOrder, Sequential, Handed, Yielded;
    if i == 0 {
      InitOrder(ss[0].now);
    } else {
      OrderIsKept(ss, es, i - 1);
      C.RunCoupled(ss, es, i - 1);
      StepOrder(ss[i - 1], es[i - 1]);
      Shift(ReadSoFar(ss, es, i - 1), Yielded(ss[i - 1], es[i - 1]), InStore(ss[i - 1].hub), InStore(ss[i].hub),
            Handed(ss[i - 1], es[i - 1]));
    }
  }

  lemma InitOrder(now: H.Time)
    ensures OneByOne(Init(now).hub) && InStore(Init(now).hub) == []
  {
  }

  // ----- Without closes and panics every stream leaves in order -----

  ghost predicate EndsStreams(e: Event) {
    (e.OnClose? && e.close.BeginClose?) || (e.OnAccept? && e.accept.Unwound?)
  }

  /** Unread bundles belong to a stream that is still subscribed. */
  ghost predicate Settled(h: H.Hub) {
    Unread(h) != [] ==> h.subscribers != []
  }

  lemma SettledLeaves(s: State, e: Event)
    requires C.Coupled(s) && OneByOne(s.hub) && Settled(s.hub) && Enabled(s, e)
    ensures LeavesInOrder(s, e)
  {
    hide C.OneAccepter, C.LockOk;
    if e.OnStream? && (e.stream.DropStream? || e.stream.SpawnAcceptFails?) {
      OpenIsLast(s.hub, e.stream.id);
    }
  }

  lemma StreamSettled(s: State, e: StreamEvent)
    requires C.Coupled(s) && OneByOne(s.hub) && Settled(s.hub) && StreamEnabled(s, e)
    ensures Settled(ApplyStream(s, e).hub)
  {
    hide C.OneAccepter, C.LockOk, C.HubOk, OneByOne, Unread, H.AcceptFailed, H.Unsubscribe;
    SettledLeaves(s, OnStream(e));
    match e
    case Subscribe =>
    case SpawnAccept(_, _) =>
    case SpawnAcceptFails(id) => AcceptFailedOrder(s.hub, id, s.now);
    case ReportSpawn(id) =>
      PushOrder(s.hub, id, [H.Failed]);
      OneBundle(H.Failed);
    case ReadItem(id) => ReadOrder(s.hub, id);
    case DropStream(id) => UnsubscribeOrder(s.hub, id, s.now);
  }

  lemma DeliverSettled(h: H.Hub, item: H.Item)
    requires C.HubOk(h) && Settled(h)
    ensures Settled(H.Deliver(h, item))
  {
    C.DeliverReachesNewest(h, item);
  }

  lemma StepSettled(s: State, e: Event)
    requires C.Coupled(s) && OneByOne(s.hub) && Settled(s.hub) && Enabled(s, e) && !EndsStreams(e)
    ensures Settled(Apply(s, e).hub)
  {
    hide C.OneAccepter, C.LockOk, C.HubOk, C.OpeningOk, OneByOne, Settled, H.Deliver,
      ApplyStream, ApplyClose, ApplyListener, ApplyAccept;
    DeliverSettled(s.hub, H.Failed);
    match e
    case OnStream(se) => StreamSettled(s, se);
    case OnClose(c, ce) => CloseSettled(s, c, ce);
    case OnAccept(t, ae) =>
      C.AcceptFrame(s, t, ae);
      StopSettled(s.hub);
    case OnListener(l, le) =>
      C.ListenerFrame(s, l, le);
      if le.Deliver? {
        DeliverSettled(s.hub, H.Got(s.threads[l].pc.bundle));
      }
    case Tick(_) =>
  }

  lemma CloseSettled(s: State, c: nat, e: CloseEvent)
    requires CloseEnabled(s, c, e) && !e.BeginClose? && Settled(s.hub)
    ensures Settled(ApplyClose(s, c, e).hub)
  {
    hide H.Bundles;
  }

  lemma StopSettled(h: H.Hub)
    requires Settled(h)
    ensures Settled(H.AcceptStops(h))
  {
    hide H.Bundles;
  }

  /**
   * Order: in every run without a close or a panic, failed spawns included, where each stream
   * is dropped before the next is opened, the bundles read across all streams, then the open
   * queue, then those kept form exactly the delivery sequence.
   */
  lemma {:induction false} StreamsOneAfterAnother(ss: seq<State>, es: seq<Event>, i: nat)
    requires SequentialRun(ss, es, i) && forall k :: 0 <= k < i ==> !EndsStreams(es[k])
    ensures ReadSoFar(ss, es, i) + Unread(ss[i].hub) + ss[i].hub.pending == Delivered(ss, es, i)
    ensures Settled(ss[i].hub) && forall k :: 0 <= k < i ==> LeavesInOrder(ss[k], es[k])
    decreases i
  {
    hide Apply, C.Coupled, OneByOne, LeavesInOrder, Sequential, Settled, Unread, EndsStreams;
    if i == 0 {
      InitSettled(ss[0].now);
    } else {
      StreamsOneAfterAnother(ss, es, i - 1);
      OrderIsKept(ss, es, i - 1);
      C.RunCoupled(ss, es, i - 1);
      SettledLeaves(ss[i - 1], es[i - 1]);
      StepSettled(ss[i - 1], es[i - 1]);
    }
    OrderIsKept(ss, es, i);
    Regroup(ReadSoFar(ss, es, i), Unread(ss[i].hub), ss[i].hub.pending);
  }

  lemma InitSettled(now: H.Time)
    ensures Settled(Init(now).hub)
  {
  }

  /**
   * A close that ends a stream with a bundle unread, a delivery after it and then the drop of
   * the stream put the two bundles in the wrong order for the next one.
   */
  lemma CloseMayReorder(first: Copy, second: Copy, now: H.Time)
    ensures var open := H.Deliver(H.Subscribe(H.Init(now)), H.Got(first));
            var closed := H.Deliver(H.BeginClose(open, now), H.Got(second));
            H.Accepts(closed, 0) && InStore(closed) == [first, second] && !Orderly(closed, 0)
            && H.Unsubscribe(closed, 0, now).pending == [second, first]
  {
    var open := H.Deliver(H.Subscribe(H.Init(now)), H.Got(first));
    OneBundle(H.Got(first));
    assert open.channels[0].queue == [H.Got(first)];
    var closed := H.Deliver(H.BeginClose(open, now), H.Got(second));
    assert closed.channels == open.channels && closed.pending == [second];
    assert H.WithoutId(closed.subscribers, 0) == [];
  }
}
