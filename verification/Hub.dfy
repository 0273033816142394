/**
 * The state behind the receiver's lock (rust-bindings/cspcl/src/inbound.rs:115-184) and the
 * critical sections that change it, on values: who is subscribed, what each stream still holds,
 * what is kept for the next stream, and whether an accept thread runs.
 */
module Hub {
  import opened Base

  type StreamId = nat
  type Time = nat

  /** After receiving stops, listeners keep their connection this long, in milliseconds. */
  const STOP_GRACE: nat := 1000

  /** What a stream yields: a received bundle, or an error. */
  datatype Item = Got(bundle: Copy) | Failed

  /** The channel of a stream: unread items, and whether its receiving end still exists. */
  datatype Channel = Channel(queue: seq<Item>, open: bool)

  /** Streams are numbered in the order they were opened: channel `i` belongs to stream `i`. */
  datatype Hub = Hub(channels: seq<Channel>, subscribers: seq<StreamId>, pending: seq<Copy>,
                     acceptRunning: bool, stoppedAt: Option<Time>, closing: nat)

  function Init(now: Time): Hub {
    Hub([], [], [], false, Some(now), 0)
  }

  predicate IsReceiving(h: Hub) {
    h.stoppedAt.None?
  }

  /** The grace starts when receiving goes off, and not again while it stays off. */
  function SetReceiving(h: Hub, on: bool, now: Time): Hub {
    if on then h.(stoppedAt := None)
    else if h.stoppedAt.None? then h.(stoppedAt := Some(now))
    else h
  }

  /** What is left of the grace, `None` once it is over; a clock behind `stoppedAt` counts as no time. */
  function GraceLeft(stoppedAt: Time, now: Time): (left: Option<nat>)
    ensures left.None? <==> now >= stoppedAt + 1000
    ensures left.Some? && now >= stoppedAt ==> now + left.value == stoppedAt + 1000
    ensures now < stoppedAt ==> left == Some(1000)
  {
    var elapsed := if now >= stoppedAt then now - stoppedAt else 0;
    if elapsed >= STOP_GRACE then None else Some(STOP_GRACE - elapsed)
  }

  /** Whether `wait_while_stopped` gives the connection up at `now`. */
  predicate GraceOver(h: Hub, now: Time) {
    h.stoppedAt.Some? && GraceLeft(h.stoppedAt.value, now).None?
  }

  function Items(bundles: seq<Copy>): (items: seq<Item>)
    ensures |items| == |bundles|
    ensures forall i :: 0 <= i < |items| ==> items[i] == Got(bundles[i])
  {
    seq(|bundles|, i requires 0 <= i < |bundles| => Got(bundles[i]))
  }

  /** The bundles among some items, in order; errors are dropped. */
  function Bundles(items: seq<Item>): seq<Copy> {
    if items == [] then [] else Bundles(items[..|items| - 1]) + BundleOf(items[|items| - 1])
  }

  function BundleOf(item: Item): seq<Copy> {
    match item case Got(b) => [b] case Failed => []
  }

  lemma NoBundles()
    ensures Bundles([]) == []
  {
  }

  lemma BundlesSnoc(items: seq<Item>, item: Item)
    ensures Bundles(items + [item]) == Bundles(items) + BundleOf(item)
  {
    assert (items + [item])[..|items|] == items;
  }

  lemma {:induction false} BundlesConcat(a: seq<Item>, b: seq<Item>)
    ensures Bundles(a + b) == Bundles(a) + Bundles(b)
  {
    hide Bundles;
    if b == [] {
      assert a + b == a;
      NoBundles();
    } else {
      var k := |b| - 1;
      BundlesConcat(a, b[..k]);
      BundlesSnoc(a + b[..k], b[k]);
      BundlesSnoc(b[..k], b[k]);
      assert a + b == (a + b[..k]) + [b[k]] && b == b[..k] + [b[k]];
      var most, last := Bundles(b[..k]), BundleOf(b[k]);
      assert Bundles(a) + (most + last) == (Bundles(a) + most) + last;
    }
  }

  lemma NextBundle(items: seq<Item>, i: nat)
    requires i < |items|
    ensures Bundles(items[..i + 1]) == Bundles(items[..i]) + BundleOf(items[i])
  {
    assert items[..i + 1] == items[..i] + [items[i]];
    BundlesSnoc(items[..i], items[i]);
  }

  predicate Accepts(h: Hub, id: StreamId) {
    id < |h.channels| && h.channels[id].open
  }

  /** Push items into a stream's channel, if its receiving end still exists. */
  function Push(h: Hub, id: StreamId, items: seq<Item>): Hub {
    if Accepts(h, id) then h.(channels := h.channels[id := h.channels[id].(queue := h.channels[id].queue + items)])
    else h
  }

  function Newest(h: Hub): StreamId
    requires h.subscribers != []
  {
    h.subscribers[|h.subscribers| - 1]
  }

  /** Hand an item to the newest stream; without one, a bundle is kept and an error dropped. */
  function Deliver(h: Hub, item: Item): Hub {
    if h.subscribers != [] && Accepts(h, Newest(h)) then Push(h, Newest(h), [item])
    else match item
      case Got(b) => h.(pending := h.pending + [b])
      case Failed => h
  }

  /** Several bundles at once: all to the newest stream, or all kept. */
  function DeliverAll(h: Hub, bundles: seq<Copy>): Hub {
    if h.subscribers != [] && Accepts(h, Newest(h)) then Push(h, Newest(h), Items(bundles))
    else h.(pending := h.pending + bundles)
  }

  /** Open a stream: it gets what was kept, and claims the accept thread if none runs. */
  function Subscribe(h: Hub): Hub {
    h.(channels := h.channels + [Channel(Items(h.pending), true)],
       subscribers := h.subscribers + [|h.channels|],
       pending := [], acceptRunning := true, stoppedAt := None)
  }

  /** Tell every subscriber but `id` that nothing receives. */
  function FailOthers(h: Hub, subscribers: seq<StreamId>, id: StreamId): Hub {
    if subscribers == [] then h
    else
      var h' := FailOthers(h, subscribers[..|subscribers| - 1], id);
      var sub := subscribers[|subscribers| - 1];
      if sub == id then h' else Push(h', sub, [Failed])
  }

  /** Take everything out of a stream's channel. */
  function Emptied(h: Hub, id: StreamId, open: bool): Hub
    requires id < |h.channels|
  {
    h.(channels := h.channels[id := Channel([], open)])
  }

  /** The accept thread that stream `id` claimed could not start: end all streams, keep its bundles. */
  function AcceptFailed(h: Hub, id: StreamId, now: Time): Hub
    requires id < |h.channels|
  {
    var told := FailOthers(h, h.subscribers, id);
    FailKeeps(h, h.subscribers, id);
    var off := SetReceiving(told.(acceptRunning := false, subscribers := []), false, now);
    Emptied(off, id, told.channels[id].open).(pending := off.pending + Bundles(told.channels[id].queue))
  }

  lemma {:induction false} FailKeeps(h: Hub, subscribers: seq<StreamId>, id: StreamId)
    ensures var told := FailOthers(h, subscribers, id);
            && |told.channels| == |h.channels|
            && told == h.(channels := told.channels)
            && (id < |h.channels| ==> told.channels[id] == h.channels[id])
            && (forall i :: 0 <= i < |h.channels| ==>
                  && told.channels[i].open == h.channels[i].open
                  && Bundles(told.channels[i].queue) == Bundles(h.channels[i].queue))
  {
    if subscribers != [] {
      var k := |subscribers| - 1;
      FailKeeps(h, subscribers[..k], id);
      var before := FailOthers(h, subscribers[..k], id);
      var sub := subscribers[k];
      if sub != id && Accepts(before, sub) {
        var q := before.channels[sub].queue;
        assert (q + [Failed])[..|q|] == q;
      }
    }
  }

  function WithoutId(subscribers: seq<StreamId>, id: StreamId): (r: seq<StreamId>)
    ensures forall s :: s in r <==> s in subscribers && s != id
  {
    if subscribers == [] then []
    else
      var k := |subscribers| - 1;
      var rest := WithoutId(subscribers[..k], id);
      assert subscribers == subscribers[..k] + [subscribers[k]];
      if subscribers[k] == id then rest else rest + [subscribers[k]]
  }

  /** Drop stream `id`: its unread bundles go to the newest other stream, or are kept. */
  function Unsubscribe(h: Hub, id: StreamId, now: Time): Hub
    requires id < |h.channels|
  {
    var gone := Emptied(h, id, false).(subscribers := WithoutId(h.subscribers, id));
    var passed := DeliverAll(gone, Bundles(h.channels[id].queue));
    if passed.subscribers == [] && IsReceiving(passed) then SetReceiving(passed, false, now) else passed
  }

  /** Stop receiving and end all streams; new ones wait until the close ended. */
  function BeginClose(h: Hub, now: Time): Hub {
    SetReceiving(h, false, now).(subscribers := [], closing := h.closing + 1)
  }

  function EndClose(h: Hub): Hub
    requires h.closing > 0
  {
    h.(closing := h.closing - 1)
  }

  /** The accept thread saw that receiving is off. */
  function AcceptStops(h: Hub): Hub {
    h.(acceptRunning := false)
  }

  /** The accept thread panicked: end all streams. */
  function AcceptPanicked(h: Hub, now: Time): Hub {
    SetReceiving(h.(acceptRunning := false, subscribers := []), false, now)
  }

  /** A reader takes the next item of stream `id`. */
  function Read(h: Hub, id: StreamId): Hub
    requires id < |h.channels| && h.channels[id].queue != []
  {
    h.(channels := h.channels[id := h.channels[id].(queue := h.channels[id].queue[1..])])
  }

  lemma DeliverNone(h: Hub)
    ensures DeliverAll(h, []) == h
  {
    if h.subscribers != [] && Accepts(h, Newest(h)) {
      var c := h.channels[Newest(h)];
      assert c.(queue := c.queue + Items([])) == c;
      assert h.channels[Newest(h) := c] == h.channels;
    } else {
      assert h.pending + [] == h.pending;
    }
  }

  /** Delivering one bundle after others is delivering them all. */
  lemma DeliverOneMore(h: Hub, bundles: seq<Copy>, b: Copy)
    ensures Deliver(DeliverAll(h, bundles), Got(b)) == DeliverAll(h, bundles + [b])
  {
    assert Items(bundles) + [Got(b)] == Items(bundles + [b]);
    if h.subscribers != [] && Accepts(h, Newest(h)) {
      var q := h.channels[Newest(h)].queue;
      assert (q + Items(bundles)) + [Got(b)] == q + Items(bundles + [b]);
    } else {
      assert (h.pending + bundles) + [b] == h.pending + (bundles + [b]);
    }
  }
}
