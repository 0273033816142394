/** Particular runs of the receiver: how a connection comes to be served, and how a close reorders bundles. */
module ReceiverRuns {
  import opened Base
  import H = Hub
  import T = ListenerTable
  import opened Receiver
  import O = ReceiverOrder

  ghost predicate Takes(e: Event) {
    e.OnListener? && e.listener.Receive? && e.listener.outcome.Bundle?
  }

  /** A run to `s`, one stream at a time, that delivers these bundles; `silent` if it receives none. */
  ghost predicate RunTo(ss: seq<State>, es: seq<Event>, s: State, delivered: seq<Copy>, silent: bool) {
    && |ss| > 0 && O.SequentialRun(ss, es, |ss| - 1) && ss[|ss| - 1] == s
    && O.Delivered(ss, es, |ss| - 1) == delivered
    && (silent ==> forall k :: 0 <= k < |es| ==> !Takes(es[k]))
  }

  ghost predicate Reached(s: State, delivered: seq<Copy>, silent: bool) {
    exists ss, es :: RunTo(ss, es, s, delivered, silent)
  }

  lemma Begins(now: H.Time)
    ensures Reached(Init(now), [], true)
  {
    assert RunTo([Init(now)], [], Init(now), [], true);
  }

  lemma {:induction false} DeliveredPrefix(ss: seq<State>, es: seq<Event>, ss': seq<State>, es': seq<Event>, i: nat)
    requires IsRun(ss, es) && IsRun(ss', es') && ss <= ss' && es <= es' && i < |ss|
    ensures O.Delivered(ss', es', i) == O.Delivered(ss, es, i)
  {
    hide Apply, Enabled;
    if i > 0 {
      DeliveredPrefix(ss, es, ss', es', i - 1);
    }
  }

  lemma OneMore(ss: seq<State>, es: seq<Event>, e: Event)
    requires IsRun(ss, es) && Enabled(ss[|ss| - 1], e)
    ensures IsRun(ss + [Apply(ss[|ss| - 1], e)], es + [e])
  {
    hide Apply, Enabled;
    var ss', es' := ss + [Apply(ss[|ss| - 1], e)], es + [e];
    forall i | 0 <= i < |es'|
      ensures Enabled(ss'[i], es'[i]) && ss'[i + 1] == Apply(ss'[i], es'[i])
    {
      assert ss'[i] == ss[i];
      if i < |es| {
        assert ss'[i + 1] == ss[i + 1] && es'[i] == es[i];
      }
    }
  }

  lemma Goes(s: State, e: Event, delivered: seq<Copy>, silent: bool)
    requires Reached(s, delivered, silent) && Enabled(s, e) && O.Sequential(s, e) && (silent ==> !Takes(e))
    ensures Reached(Apply(s, e), delivered + O.Handed(s, e), silent)
  {
    hide Apply, Enabled, O.Sequential, O.Handed;
    var ss, es :| RunTo(ss, es, s, delivered, silent);
    var ss', es' := ss + [Apply(s, e)], es + [e];
    OneMore(ss, es, e);
    DeliveredPrefix(ss, es, ss', es', |ss| - 1);
    forall k | 0 <= k < |es'|
      ensures O.Sequential(ss'[k], es'[k]) && (silent ==> !Takes(es'[k]))
    {
      if k < |es| {
        assert ss'[k] == ss[k] && es'[k] == es[k];
      }
    }
    assert RunTo(ss', es', Apply(s, e), delivered + O.Handed(s, e), silent);
  }

  lemma AcceptStep(s: State, e: AcceptEvent, s': State, delivered: seq<Copy>, silent: bool)
    requires Reached(s, delivered, silent) && AcceptEnabled(s, 0, e) && ApplyAccept(s, 0, e) == s'
    ensures Reached(s', delivered, silent)
  {
    hide ApplyAccept, AcceptEnabled, Reached;
    Goes(s, OnAccept(0, e), delivered, silent);
    assert delivered + [] == delivered;
  }

  lemma ListenerStep(s: State, e: ListenerEvent, s': State, delivered: seq<Copy>, silent: bool)
    requires Reached(s, delivered, silent) && ListenerEnabled(s, 0, e) && ApplyListener(s, 0, e) == s'
    requires silent ==> !Takes(OnListener(0, e))
    ensures Reached(s', delivered + O.Handed(s, OnListener(0, e)), silent)
    ensures !e.Deliver? ==> Reached(s', delivered, silent)
  {
    hide ApplyListener, ListenerEnabled, Reached;
    Goes(s, OnListener(0, e), delivered, silent);
    assert delivered + [] == delivered;
  }

  // ----- A stream is opened and connection 0 accepted -----

  function Stream(queue: seq<H.Item>): H.Hub {
    H.Hub([H.Channel(queue, true)], [0], [], true, None, 0)
  }

  /** One stream is open; the accept thread is at `pc`. */
  function Open(pc: AcceptPc, lock: Option<Owner>, now: H.Time): State {
    State(Stream([]), {}, {}, map[0 := pc], [], [], lock, map[], true, now, multiset{}, multiset{})
  }

  lemma Opens(now: H.Time)
    ensures Reached(Open(Head, None, now), [], true)
  {
    Begins(now);
    var s := Init(now);
    Goes(s, OnStream(Subscribe), [], true);
    var s1 := Apply(s, OnStream(Subscribe));
    assert s1.hub == Stream([]) && s1.claimed == {0};
    Goes(s1, OnStream(SpawnAccept(0, 0)), [], true);
    assert {0} - {0} == {};
    assert Apply(s1, OnStream(SpawnAccept(0, 0))) == Open(Head, None, now);
  }

  lemma Accepts(now: H.Time)
    ensures Reached(Open(Accepting, Some(Acceptor(0)), now), [], true)
  {
    hide Reached;
    Opens(now);
    AcceptStep(Open(Head, None, now), LoopHead, Open(WantSlot, None, now), [], true);
    assert T.Running([]) == {};
    AcceptStep(Open(WantSlot, None, now), WaitSlot, Open(WantLock, None, now), [], true);
    AcceptStep(Open(WantLock, None, now), LockAccept, Open(Checking, Some(Acceptor(0)), now), [], true);
    AcceptStep(Open(Checking, Some(Acceptor(0)), now), CheckReceiving(true), Open(Accepting, Some(Acceptor(0)), now),
               [], true);
  }

  /** Connection 0 from `key` has a listener at `pc`; the accept thread is at `at`. */
  function Served(at: AcceptPc, key: Dest, pc: ListenerPc, queue: seq<H.Item>, acked: multiset<Copy>,
                  read: multiset<Copy>, now: H.Time): State {
    State(Stream(queue), {}, {}, map[0 := at], [T.State(key, true, false, now)], [Thread(0, pc)], None, map[], true,
          now, acked, read)
  }

  /** Its listener, and nobody has received anything yet. */
  function Fresh(at: AcceptPc, key: Dest, pc: ListenerPc, now: H.Time): State {
    Served(at, key, pc, [], multiset{}, multiset{}, now)
  }

  lemma Registers(key: Dest, now: H.Time)
    ensures Reached(Fresh(Registered(0), key, NotStarted, now), [], true)
  {
    hide Reached;
    Accepts(now);
    AcceptStep(Open(Accepting, Some(Acceptor(0)), now), AcceptReturns(Arrives(key, 0)),
               Open(Accepted(key, 0), None, now), [], true);
    AcceptStep(Open(Accepted(key, 0), None, now), Register, Fresh(Registered(0), key, NotStarted, now), [], true);
  }

  lemma Spawns(key: Dest, now: H.Time)
    ensures Reached(Fresh(Head, key, AtGate, now), [], true)
  {
    hide Reached;
    Registers(key, now);
    AcceptStep(Fresh(Registered(0), key, NotStarted, now), SpawnListener(true), Fresh(Spawned(0), key, AtGate, now),
               [], true);
    Supersedes(key, now);
    AcceptStep(Fresh(Spawned(0), key, AtGate, now), Supersede, Fresh(Head, key, AtGate, now), [], true);
  }

  /** The only connection supersedes nothing. */
  lemma Supersedes(key: Dest, now: H.Time)
    ensures var ls := [T.State(key, true, false, now)]; T.Supersede(ls, 0) == ls
  {
    var ls := [T.State(key, true, false, now)];
    assert T.EvictStale(ls, 0) == ls;
    assert T.Kept(ls) == {0};
  }

  lemma Rereads(key: Dest, queue: seq<H.Item>, acked: multiset<Copy>, now: H.Time, delivered: seq<Copy>, silent: bool)
    requires Reached(Served(Head, key, AtGate, queue, acked, multiset{}, now), delivered, silent)
    ensures Reached(Served(Head, key, Reading, queue, acked, multiset{}, now), delivered, silent)
  {
    hide Reached;
    var s1 := Served(Head, key, AtGate, queue, acked, multiset{}, now);
    var s2 := Served(Head, key, PastGate, queue, acked, multiset{}, now);
    ListenerStep(s1, PassGate, s2, delivered, silent);
    ListenerStep(s2, CheckEvicted, Served(Head, key, Reading, queue, acked, multiset{}, now), delivered, silent);
  }

  /** A connection comes to be read. */
  lemma Serves(key: Dest, now: H.Time)
    ensures Reached(Fresh(Head, key, Reading, now), [], true)
  {
    hide Reached;
    Spawns(key, now);
    Rereads(key, [], multiset{}, now, [], true);
  }

  // ----- A close between two bundles, and the drop of the stream -----

  lemma Silence(s: State, delivered: seq<Copy>)
    requires Reached(s, delivered, true)
    ensures Reached(s, delivered, false)
  {
    var ss, es :| RunTo(ss, es, s, delivered, true);
    assert RunTo(ss, es, s, delivered, false);
  }

  lemma FirstArrives(first: Copy, key: Dest, now: H.Time)
    ensures Reached(Served(Head, key, AtGate, [H.Got(first)], multiset{first}, multiset{}, now), [first], false)
  {
    hide Reached;
    Serves(key, now);
    var s := Fresh(Head, key, Reading, now);
    Silence(s, []);
    var inHand := Served(Head, key, InHand(first), [], multiset{first}, multiset{}, now);
    ListenerStep(s, Receive(Bundle(first)), inHand, [], false);
    assert [] + [H.Got(first)] == [H.Got(first)] && [] + [first] == [first];
    ListenerStep(inHand, Deliver, Served(Head, key, AtGate, [H.Got(first)], multiset{first}, multiset{}, now), [],
                 false);
  }

  /** The second bundle is in hand, the first unread. */
  function BothIn(first: Copy, second: Copy, key: Dest, now: H.Time): State {
    Served(Head, key, InHand(second), [H.Got(first)], multiset{first, second}, multiset{}, now)
  }

  lemma SecondArrives(first: Copy, second: Copy, key: Dest, now: H.Time)
    ensures Reached(BothIn(first, second, key, now), [first], false)
  {
    hide Reached;
    FirstArrives(first, key, now);
    Rereads(key, [H.Got(first)], multiset{first}, now, [first], false);
    var s := Served(Head, key, Reading, [H.Got(first)], multiset{first}, multiset{}, now);
    assert multiset{first} + multiset{second} == multiset{first, second};
    ListenerStep(s, Receive(Bundle(second)), BothIn(first, second, key, now), [first], false);
  }

  /** After the close began, with `pc` and these bundles kept. */
  function Closed(s: State, pc: ListenerPc, pending: seq<Copy>): State {
    s.(hub := H.Hub(s.hub.channels, [], pending, true, Some(s.now), 1), closers := map[0 := Begun],
       threads := [Thread(0, pc)])
  }

  lemma Closes(first: Copy, second: Copy, key: Dest, now: H.Time)
    ensures Reached(Closed(BothIn(first, second, key, now), AtGate, [second]), [first, second], false)
  {
    hide Reached;
    SecondArrives(first, second, key, now);
    var s := BothIn(first, second, key, now);
    Goes(s, OnClose(0, BeginClose), [first], false);
    assert [first] + [] == [first];
    assert Apply(s, OnClose(0, BeginClose)) == Closed(s, InHand(second), []);
    assert [] + [second] == [second] && [first] + [second] == [first, second];
    ListenerStep(Closed(s, InHand(second), []), Deliver, Closed(s, AtGate, [second]), [first], false);
  }

  /**
   * A run in which streams are opened one at a time and yet the order is lost: a close ends the
   * stream with a bundle unread, another is delivered, and the drop of the stream puts the first
   * behind the second for the next stream.
   */
  lemma CloseReordersInARun(first: Copy, second: Copy, key: Dest, now: H.Time) returns (ss: seq<State>, es: seq<Event>)
    ensures |ss| > 0 && O.SequentialRun(ss, es, |ss| - 1) && O.Delivered(ss, es, |ss| - 1) == [first, second]
    ensures var last := ss[|ss| - 1];
            last.read == multiset{} && O.Unread(last.hub) == [] && last.hub.pending == [second, first]
  {
    Closes(first, second, key, now);
    var s := Closed(BothIn(first, second, key, now), AtGate, [second]);
    Goes(s, OnStream(DropStream(0)), [first, second], false);
    Drops(first, second, now);
    assert [first, second] + [] == [first, second];
    ss, es :| RunTo(ss, es, Apply(s, OnStream(DropStream(0))), [first, second], false);
  }

  lemma Drops(first: Copy, second: Copy, now: H.Time)
    ensures var h := H.Unsubscribe(H.Hub([H.Channel([H.Got(first)], true)], [], [second], true, Some(now), 1), 0, now);
            h.pending == [second, first] && O.Unread(h) == []
  {
    O.OneBundle(H.Got(first));
    assert H.Bundles([]) == [];
  }
}
