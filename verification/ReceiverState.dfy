/**
 * The receiver's locked state as the Rust code runs it: fields changed in place, queues drained
 * one item at a time (rust-bindings/cspcl/src/inbound.rs:115-372). Each method is proved to
 * compute the critical section of module `Hub` with the same name.
 */
module ReceiverState {
  import opened Base
  import H = Hub

  class ReceiverState {
    var channels: seq<H.Channel>
    var subscribers: seq<H.StreamId>
    var pending: seq<Copy>
    var acceptRunning: bool
    var stoppedAt: Option<H.Time>
    var closing: nat

    function Value(): H.Hub
      reads this
    {
      H.Hub(channels, subscribers, pending, acceptRunning, stoppedAt, closing)
    }

    constructor (now: H.Time)
      ensures Value() == H.Init(now)
    {
      channels, subscribers, pending := [], [], [];
      acceptRunning, stoppedAt, closing := false, Some(now), 0;
    }

    method SetReceiving(on: bool, now: H.Time)
      modifies this`stoppedAt
      ensures Value() == H.SetReceiving(old(Value()), on, now)
    {
      if on {
        stoppedAt := None;
      } else if stoppedAt == None {
        stoppedAt := Some(now);
      }
    }

    /** `unbounded_send`; fails once the receiving end is gone. */
    method Send(id: H.StreamId, item: H.Item) returns (ok: bool)
      modifies this`channels
      ensures ok == H.Accepts(old(Value()), id)
      ensures Value() == H.Push(old(Value()), id, [item])
    {
      ok := id < |channels| && channels[id].open;
      if ok {
        channels := channels[id := channels[id].(queue := channels[id].queue + [item])];
      }
    }

    /** Hand an item to the newest stream; the fallback also covers a send that fails. */
    method Deliver(item: H.Item)
      modifies this`channels, this`pending
      ensures Value() == H.Deliver(old(Value()), item)
    {
      if subscribers != [] {
        var ok := Send(subscribers[|subscribers| - 1], item);
        if ok { return; }
      }
      match item
      case Got(b) => pending := pending + [b];
      case Failed =>
    }

    /** The part of `subscribe` under the lock, once no close is in progress. */
    method Subscribe() returns (id: H.StreamId, startAccept: bool)
      modifies this
      ensures id == |old(channels)| && startAccept == !old(acceptRunning)
      ensures Value() == H.Subscribe(old(Value()))
    {
      ghost var h := Value();
      id := |channels|;
      startAccept := !acceptRunning;
      acceptRunning := true;
      channels := channels + [H.Channel([], true)];
      while pending != []
        invariant |pending| <= |h.pending| && pending == h.pending[|h.pending| - |pending|..]
        invariant channels == h.channels + [H.Channel(H.Items(h.pending[..|h.pending| - |pending|]), true)]
        invariant Value() == h.(channels := channels, pending := pending, acceptRunning := true)
        decreases |pending|
      {
        ghost var k := |h.pending| - |pending|;
        var ok := Send(id, H.Got(pending[0]));
        pending := pending[1..];
        assert H.Items(h.pending[..k]) + [H.Got(h.pending[k])] == H.Items(h.pending[..k + 1]);
      }
      assert h.pending[..|h.pending|] == h.pending;
      subscribers := subscribers + [id];
      if stoppedAt != None {
        SetReceiving(true, 0);
      }
    }

    /** The first loop of `accept_failed`: the other streams learn that nothing receives. */
    method FailOthers(id: H.StreamId)
      requires id < |channels|
      modifies this`channels
      ensures Value() == H.FailOthers(old(Value()), subscribers, id)
    {
      ghost var h := Value();
      for i := 0 to |subscribers|
        invariant Value() == H.FailOthers(h, subscribers[..i], id)
      {
        assert subscribers[..i + 1][..i] == subscribers[..i];
        H.FailKeeps(h, subscribers[..i], id);
        if subscribers[i] != id {
          var ok := Send(subscribers[i], H.Failed);
        }
      }
      assert subscribers[..|subscribers|] == subscribers;
    }

    /** The second loop of `accept_failed`: keep the bundles of stream `id` for a later one. */
    method KeepBundles(id: H.StreamId)
      requires id < |channels|
      modifies this`channels, this`pending
      ensures var h := old(Value());
              Value() == H.Emptied(h, id, h.channels[id].open).(pending := h.pending + H.Bundles(h.channels[id].queue))
    {
      hide H.Bundles;
      ghost var h := Value();
      var queue := channels[id].queue;
      H.NoBundles();
      for i := 0 to |queue|
        invariant Value() == h.(pending := h.pending + H.Bundles(queue[..i]))
      {
        H.NextBundle(queue, i);
        match queue[i]
        case Got(b) => pending := pending + [b];
        case Failed =>
      }
      assert queue[..|queue|] == queue;
      channels := channels[id := H.Channel([], channels[id].open)];
    }

    /** `accept_failed`. */
    method AcceptFailed(id: H.StreamId, now: H.Time)
      requires id < |channels|
      modifies this
      ensures Value() == H.AcceptFailed(old(Value()), id, now)
    {
      H.FailKeeps(Value(), subscribers, id);
      FailOthers(id);
      acceptRunning := false;
      subscribers := [];
      SetReceiving(false, now);
      KeepBundles(id);
    }

    /** `unsubscribe`: the channel is closed first, so nothing is delivered into it meanwhile. */
    method Unsubscribe(id: H.StreamId, now: H.Time)
      requires id < |channels|
      modifies this
      ensures Value() == H.Unsubscribe(old(Value()), id, now)
    {
      hide H.Bundles, H.DeliverAll, H.Deliver;
      ghost var h := Value();
      var queue := channels[id].queue;
      H.NoBundles();
      channels := channels[id := H.Channel([], false)];
      subscribers := H.WithoutId(subscribers, id);
      ghost var gone := Value();
      H.DeliverNone(gone);
      for i := 0 to |queue|
        invariant Value() == H.DeliverAll(gone, H.Bundles(queue[..i]))
      {
        H.NextBundle(queue, i);
        match queue[i]
        case Got(b) =>
          H.DeliverOneMore(gone, H.Bundles(queue[..i]), b);
          Deliver(H.Got(b));
        case Failed =>
          assert H.Bundles(queue[..i]) + [] == H.Bundles(queue[..i]);
      }
      assert queue[..|queue|] == queue;
      if subscribers == [] && stoppedAt == None {
        SetReceiving(false, now);
      }
    }

    method BeginClose(now: H.Time)
      modifies this
      ensures Value() == H.BeginClose(old(Value()), now)
    {
      SetReceiving(false, now);
      subscribers := [];
      closing := closing + 1;
    }

    /** Dropping a `CloseGuard`. */
    method EndClose()
      requires closing > 0
      modifies this`closing
      ensures Value() == H.EndClose(old(Value()))
    {
      closing := closing - 1;
    }

    /** The loop head of the accept thread; returns whether it goes on. */
    method AcceptLoopHead() returns (go: bool)
      modifies this`acceptRunning
      ensures go == H.IsReceiving(old(Value()))
      ensures Value() == if go then old(Value()) else H.AcceptStops(old(Value()))
    {
      go := stoppedAt == None;
      if !go {
        acceptRunning := false;
      }
    }

    /** Dropping an armed `AcceptGuard`. */
    method AcceptPanicked(now: H.Time)
      modifies this
      ensures Value() == H.AcceptPanicked(old(Value()), now)
    {
      acceptRunning := false;
      subscribers := [];
      SetReceiving(false, now);
    }
  }
}
