/**
 * No acknowledged bundle is lost or duplicated, whatever the streams, the closes and the
 * threads do: in every reachable state each is in a listener's hand, in a stream's queue, kept
 * for the next stream, or was read.
 */
module ReceiverConservation {
  import opened Base
  import opened Bags
  import H = Hub
  import opened Receiver
  import C = ReceiverCoupling
  import B = ReceiverBounds

  ghost function HandBag(t: Thread): multiset<Copy> {
    if t.pc.InHand? then multiset{t.pc.bundle} else multiset{}
  }

  ghost function QueueBag(c: H.Channel): multiset<Copy> {
    multiset(H.Bundles(c.queue))
  }

  ghost function InHands(threads: seq<Thread>): multiset<Copy> {
    Total(threads, HandBag)
  }

  ghost function Queued(channels: seq<H.Channel>): multiset<Copy> {
    Total(channels, QueueBag)
  }

  /** What the locked state holds. */
  ghost function Stored(h: H.Hub): multiset<Copy> {
    Queued(h.channels) + multiset(h.pending)
  }

  ghost predicate Conserved(s: State) {
    s.acked == InHands(s.threads) + Stored(s.hub) + s.read
  }

  // ----- Items and bundles -----

  lemma {:induction false} BundlesOfItems(bs: seq<Copy>)
    ensures H.Bundles(H.Items(bs)) == bs
  {
    if bs != [] {
      var k := |bs| - 1;
      BundlesOfItems(bs[..k]);
      assert H.Items(bs)[..k] == H.Items(bs[..k]);
      assert bs == bs[..k] + [bs[k]];
    }
  }

  lemma OneItem(item: H.Item)
    ensures multiset(H.Bundles([item])) == ReadBag(item)
  {
    assert [item][..0] == [];
    assert H.Bundles([]) == [];
  }

  // ----- The locked state -----

  lemma UpdateQueue(h: H.Hub, id: nat, c: H.Channel)
    requires id < |h.channels|
    ensures Queued(h.channels[id := c]) + QueueBag(h.channels[id]) == Queued(h.channels) + QueueBag(c)
  {
    TotalUpdate(h.channels, id, c, QueueBag);
  }

  lemma Regroup(q: multiset<Copy>, q': multiset<Copy>, old': multiset<Copy>, new': multiset<Copy>, more: multiset<Copy>)
    requires q' + old' == q + new' && new' == old' + more
    ensures q' == q + more
  {
    assert q' == (q' + old') - old';
    assert (q + more) + old' == q + new';
    assert q + more == ((q + more) + old') - old';
  }

  lemma PushStored(h: H.Hub, id: nat, items: seq<H.Item>)
    requires H.Accepts(h, id)
    ensures Stored(H.Push(h, id, items)) == Stored(h) + multiset(H.Bundles(items))
  {
    hide Queued;
    var c := h.channels[id];
    var c' := c.(queue := c.queue + items);
    H.BundlesConcat(c.queue, items);
    UpdateQueue(h, id, c');
    Regroup(Queued(h.channels), Queued(h.channels[id := c']), QueueBag(c), QueueBag(c'), multiset(H.Bundles(items)));
  }

  lemma SubscribeStored(h: H.Hub)
    ensures Stored(H.Subscribe(h)) == Stored(h)
  {
    hide Queued;
    BundlesOfItems(h.pending);
    NewQueue(h.channels, H.Channel(H.Items(h.pending), true));
  }

  lemma NewQueue(channels: seq<H.Channel>, c: H.Channel)
    ensures Queued(channels + [c]) == Queued(channels) + QueueBag(c)
  {
    TotalAppend(channels, c, QueueBag);
  }

  lemma DeliverStored(h: H.Hub, item: H.Item)
    ensures Stored(H.Deliver(h, item)) == Stored(h) + ReadBag(item)
  {
    hide Queued;
    OneItem(item);
    if h.subscribers != [] && H.Accepts(h, H.Newest(h)) {
      PushStored(h, H.Newest(h), [item]);
    }
  }

  lemma EmptiedStored(h: H.Hub, id: nat, open: bool)
    requires id < |h.channels|
    ensures Stored(H.Emptied(h, id, open)) + QueueBag(h.channels[id]) == Stored(h)
  {
    hide Queued;
    UpdateQueue(h, id, H.Channel([], open));
    var q, q' := Queued(h.channels), Queued(H.Emptied(h, id, open).channels);
    var gone, kept := QueueBag(h.channels[id]), multiset(h.pending);
    assert (q' + kept) + gone == (q' + gone) + kept;
  }

  lemma DeliverAllStored(h: H.Hub, bs: seq<Copy>)
    ensures Stored(H.DeliverAll(h, bs)) == Stored(h) + multiset(bs)
  {
    hide Queued;
    BundlesOfItems(bs);
    if h.subscribers != [] && H.Accepts(h, H.Newest(h)) {
      PushStored(h, H.Newest(h), H.Items(bs));
    }
  }

  lemma UnsubscribeStored(h: H.Hub, id: nat, now: H.Time)
    requires id < |h.channels|
    ensures Stored(H.Unsubscribe(h, id, now)) == Stored(h)
  {
    hide Queued, H.DeliverAll;
    var gone := H.Emptied(h, id, false).(subscribers := H.WithoutId(h.subscribers, id));
    EmptiedStored(h, id, false);
    DeliverAllStored(gone, H.Bundles(h.channels[id].queue));
  }

  lemma {:induction false} SameQueues(a: seq<H.Channel>, b: seq<H.Channel>)
    requires |a| == |b| && forall i :: 0 <= i < |a| ==> QueueBag(a[i]) == QueueBag(b[i])
    ensures Queued(a) == Queued(b)
  {
    if a != [] {
      SameQueues(a[..|a| - 1], b[..|b| - 1]);
    }
  }

  lemma AcceptFailedStored(h: H.Hub, id: nat, now: H.Time)
    requires id < |h.channels|
    ensures Stored(H.AcceptFailed(h, id, now)) == Stored(h)
  {
    hide Queued, H.FailOthers;
    H.FailKeeps(h, h.subscribers, id);
    var told := H.FailOthers(h, h.subscribers, id);
    SameQueues(told.channels, h.channels);
    EmptiedStored(told, id, told.channels[id].open);
    var emptied, kept := Stored(H.Emptied(told, id, told.channels[id].open)), H.Bundles(told.channels[id].queue);
    assert Stored(H.AcceptFailed(h, id, now)) == emptied + multiset(kept);
  }

  lemma ReadStored(h: H.Hub, id: nat)
    requires id < |h.channels| && h.channels[id].queue != []
    ensures Stored(H.Read(h, id)) + ReadBag(h.channels[id].queue[0]) == Stored(h)
  {
    hide Queued;
    var c := h.channels[id];
    var rest := c.(queue := c.queue[1..]);
    OneItem(c.queue[0]);
    H.BundlesConcat([c.queue[0]], c.queue[1..]);
    assert [c.queue[0]] + c.queue[1..] == c.queue;
    UpdateQueue(h, id, rest);
    var q, q', item := Queued(h.channels), Queued(h.channels[id := rest]), ReadBag(c.queue[0]);
    assert QueueBag(c) == QueueBag(rest) + item;
    Regroup(q', q, QueueBag(rest), QueueBag(c), item);
  }

  // ----- Every step -----

  lemma UpdateHands(threads: seq<Thread>, l: nat, t: Thread)
    requires l < |threads|
    ensures InHands(threads[l := t]) + HandBag(threads[l]) == InHands(threads) + HandBag(t)
  {
    TotalUpdate(threads, l, t, HandBag);
  }

  lemma StreamConserved(s: State, e: StreamEvent)
    requires Conserved(s) && StreamEnabled(s, e) && C.Coupled(s)
    ensures Conserved(ApplyStream(s, e))
  {
    hide InHands, Stored, C.Coupled, H.Subscribe, H.AcceptFailed, H.Push, H.Unsubscribe, H.Read;
    match e
    case Subscribe => SubscribeStored(s.hub);
    case SpawnAccept(_, _) =>
    case SpawnAcceptFails(id) => AcceptFailedStored(s.hub, id, s.now);
    case ReportSpawn(id) =>
      StillOpening(s, id);
      PushStored(s.hub, id, [H.Failed]);
      OneItem(H.Failed);
    case ReadItem(id) => ReadStored(s.hub, id);
    case DropStream(id) => UnsubscribeStored(s.hub, id, s.now);
  }

  lemma StillOpening(s: State, id: nat)
    requires C.Coupled(s) && id in s.failing
    ensures H.Accepts(s.hub, id)
  {
  }

  lemma NewThread(threads: seq<Thread>, t: Thread)
    requires !t.pc.InHand?
    ensures InHands(threads + [t]) == InHands(threads)
  {
    TotalAppend(threads, t, HandBag);
  }

  lemma NoHands(threads: seq<Thread>, l: nat, pc: ListenerPc)
    requires l < |threads| && !threads[l].pc.InHand? && !pc.InHand?
    ensures InHands(threads[l := threads[l].(pc := pc)]) == InHands(threads)
  {
    hide InHands;
    UpdateHands(threads, l, threads[l].(pc := pc));
    var before, after := InHands(threads), InHands(threads[l := threads[l].(pc := pc)]);
    assert after == after + multiset{} && before == before + multiset{};
  }

  lemma AcceptConserved(s: State, t: nat, e: AcceptEvent)
    requires Conserved(s) && AcceptEnabled(s, t, e) && B.TableOk(s)
    ensures Conserved(ApplyAccept(s, t, e))
  {
    hide InHands, Stored, H.Deliver, H.AcceptPanicked, B.TableOk;
    if e.Register? {
      NewThread(s.threads, Thread(s.acceptors[t].conn, NotStarted));
    } else if e.SpawnListener? {
      var l := s.acceptors[t].l;
      NotStartedYet(s, t);
      NoHands(s.threads, l, AtGate);
      NoHands(s.threads, l, Leaving);
    } else if e.ReportError? {
      DeliverStored(s.hub, H.Failed);
    } else if e.Unwound? {
      PanicStored(s.hub, s.now);
    } else if e.LoopHead? {
      StopStored(s.hub);
    }
  }

  lemma NotStartedYet(s: State, t: nat)
    requires B.TableOk(s) && t in s.acceptors && s.acceptors[t].Registered?
    ensures s.acceptors[t].l < |s.threads| && s.threads[s.acceptors[t].l].pc == NotStarted
  {
    assert B.WindowOk(s, s.acceptors[t]);
  }

  lemma PanicStored(h: H.Hub, now: H.Time)
    ensures Stored(H.AcceptPanicked(h, now)) == Stored(h)
  {
  }

  lemma StopStored(h: H.Hub)
    ensures Stored(H.AcceptStops(h)) == Stored(h)
  {
  }

  lemma CloseConserved(s: State, c: nat, e: CloseEvent)
    requires Conserved(s) && CloseEnabled(s, c, e)
    ensures Conserved(ApplyClose(s, c, e))
  {
    assert Stored(ApplyClose(s, c, e).hub) == Stored(s.hub);
  }

  /** Delivering moves the bundle from the hand to the locked state. */
  lemma Handover(hands: multiset<Copy>, hands': multiset<Copy>, b: Copy, stored: multiset<Copy>, read: multiset<Copy>)
    requires hands' + multiset{b} == hands
    ensures hands' + (stored + multiset{b}) + read == hands + stored + read
  {
  }

  /** Receiving puts the bundle, acknowledged by now, in the hand. */
  lemma Pickup(hands: multiset<Copy>, hands': multiset<Copy>, b: Copy, stored: multiset<Copy>, read: multiset<Copy>)
    requires hands' + multiset{} == hands + multiset{b}
    ensures hands' + stored + read == (hands + stored + read) + multiset{b}
  {
    assert hands' == hands + multiset{b};
  }

  lemma DeliverConserved(s: State, l: nat)
    requires Conserved(s) && ListenerEnabled(s, l, Deliver)
    ensures Conserved(ApplyListener(s, l, Deliver))
  {
    hide InHands, Stored, H.Deliver;
    var b := s.threads[l].pc.bundle;
    UpdateHands(s.threads, l, s.threads[l].(pc := AtGate));
    DeliverStored(s.hub, H.Got(b));
    Handover(InHands(s.threads), InHands(s.threads[l := s.threads[l].(pc := AtGate)]), b, Stored(s.hub), s.read);
  }

  lemma ReceiveConserved(s: State, l: nat, outcome: Outcome)
    requires Conserved(s) && ListenerEnabled(s, l, Receive(outcome))
    ensures Conserved(ApplyListener(s, l, Receive(outcome)))
  {
    hide InHands, Stored;
    if outcome.Bundle? {
      var t := s.threads[l].(pc := InHand(outcome.bundle));
      UpdateHands(s.threads, l, t);
      Pickup(InHands(s.threads), InHands(s.threads[l := t]), outcome.bundle, Stored(s.hub), s.read);
    } else {
      NoHands(s.threads, l, ApplyListener(s, l, Receive(outcome)).threads[l].pc);
    }
  }

  lemma ListenerConserved(s: State, l: nat, e: ListenerEvent)
    requires Conserved(s) && ListenerEnabled(s, l, e)
    ensures Conserved(ApplyListener(s, l, e))
  {
    hide InHands, Stored, H.Deliver;
    if e.Deliver? {
      DeliverConserved(s, l);
    } else if e.Receive? {
      ReceiveConserved(s, l, e.outcome);
    } else {
      DeliverStored(s.hub, H.Failed);
      NoHands(s.threads, l, ApplyListener(s, l, e).threads[l].pc);
    }
  }

  lemma StepConserved(s: State, e: Event)
    requires Conserved(s) && C.Coupled(s) && B.TableOk(s) && Enabled(s, e)
    ensures Conserved(Apply(s, e))
  {
    hide Conserved, C.Coupled, B.TableOk, ApplyStream, ApplyClose, ApplyAccept, ApplyListener;
    match e
    case OnStream(se) => StreamConserved(s, se);
    case OnClose(c, ce) => CloseConserved(s, c, ce);
    case OnAccept(t, ae) => AcceptConserved(s, t, ae);
    case OnListener(l, le) => ListenerConserved(s, l, le);
    case Tick(ms) => TickConserved(s, ms);
  }

  lemma TickConserved(s: State, ms: nat)
    requires Conserved(s)
    ensures Conserved(s.(now := s.now + ms))
  {
  }

  /** Conservation, in every state of every run. */
  lemma {:induction false} NothingLostOrDuplicated(ss: seq<State>, es: seq<Event>, i: nat)
    requires IsRun(ss, es) && i < |ss|
    ensures ss[i].acked ==
              InHands(ss[i].threads) + Queued(ss[i].hub.channels) + multiset(ss[i].hub.pending) + ss[i].read
  {
    RunConserved(ss, es, i);
    var s := ss[i];
    assert InHands(s.threads) + Stored(s.hub) + s.read
        == InHands(s.threads) + Queued(s.hub.channels) + multiset(s.hub.pending) + s.read;
  }

  lemma {:induction false} RunConserved(ss: seq<State>, es: seq<Event>, i: nat)
    requires IsRun(ss, es) && i < |ss|
    ensures Conserved(ss[i])
  {
    hide Apply, C.Coupled, B.TableOk;
    if i > 0 {
      RunConserved(ss, es, i - 1);
      C.RunCoupled(ss, es, i - 1);
      B.RunTable(ss, es, i - 1);
      StepConserved(ss[i - 1], es[i - 1]);
    }
  }
}
