/** Closing the receive socket, with any number of closes overlapping. */
module ReceiverClose {
  import opened Base
  import H = Hub
  import T = ListenerTable
  import opened Receiver
  import C = ReceiverCoupling
  import B = ReceiverBounds

  ghost predicate SomeoneAccepts(s: State) {
    exists t :: t in s.acceptors && s.acceptors[t] == Accepting
  }

  /** The socket is open while the C accept runs. */
  ghost predicate SocketOk(s: State) {
    SomeoneAccepts(s) ==> s.socketOpen
  }

  /** While a closer is about to clear the socket, nobody is in the C accept and no stream is open. */
  lemma ClosersAlone(s: State, c: nat)
    requires C.Coupled(s) && c in s.closers
    ensures s.hub.subscribers == [] && !H.IsReceiving(s.hub)
    ensures s.closers[c] == Holding || s.closers[c] == Cleared ==> !SomeoneAccepts(s)
  {
    C.MapSizes(s.closers, c, s.closers[c]);
    if s.closers[c] == Holding || s.closers[c] == Cleared {
      assert C.ClosesUnderLock(s, c);
      forall t | t in s.acceptors
        ensures s.acceptors[t] != Accepting
      {
        assert C.HoldsLock(s, t) <==> s.lock == Some(Acceptor(t));
      }
    }
  }

  lemma AcceptSocket(s: State, t: nat, e: AcceptEvent)
    requires C.OneAccepter(s) && SocketOk(s) && AcceptEnabled(s, t, e)
    ensures SocketOk(ApplyAccept(s, t, e))
    ensures !H.IsReceiving(s.hub) && !s.socketOpen ==> !ApplyAccept(s, t, e).socketOpen
  {
    hide T.Supersede, T.MayAccept, H.Deliver;
    var s' := ApplyAccept(s, t, e);
    forall t' | t' in s'.acceptors && s'.acceptors[t'] == Accepting
      ensures s'.socketOpen
    {
      assert t' == t;
    }
  }

  /** A step that moves neither the accept thread nor the socket. */
  lemma SameSocket(s: State, s': State)
    requires SocketOk(s) && s'.socketOpen == s.socketOpen
    requires forall t :: t in s'.acceptors && s'.acceptors[t] == Accepting ==>
          t in s.acceptors && s.acceptors[t] == Accepting
    ensures SocketOk(s')
  {
    if t :| t in s'.acceptors && s'.acceptors[t] == Accepting {
      assert SomeoneAccepts(s);
    }
  }

  lemma StreamSocket(s: State, e: StreamEvent)
    requires StreamEnabled(s, e)
    ensures ApplyStream(s, e).socketOpen == s.socketOpen
  {
    hide H.Subscribe, H.AcceptFailed, H.Push, H.Read, H.Unsubscribe;
  }

  lemma CloseSocket(s: State, c: nat, e: CloseEvent)
    requires C.Coupled(s) && SocketOk(s) && CloseEnabled(s, c, e)
    ensures SocketOk(ApplyClose(s, c, e))
    ensures !s.socketOpen ==> !ApplyClose(s, c, e).socketOpen
  {
    hide C.Coupled, H.BeginClose, H.EndClose;
    if e.ClearSocket? {
      ClosersAlone(s, c);
    }
    SameAccepts(s, ApplyClose(s, c, e));
  }

  lemma SameAccepts(s: State, s': State)
    requires s'.acceptors == s.acceptors
    ensures SomeoneAccepts(s') == SomeoneAccepts(s)
  {
  }

  lemma StepSocket(s: State, e: Event)
    requires C.Coupled(s) && SocketOk(s) && Enabled(s, e)
    ensures SocketOk(Apply(s, e))
  {
    hide C.HubOk, C.LockOk, C.OpeningOk, ApplyAccept, ApplyListener, ApplyStream, ApplyClose, SocketOk;
    match e
    case OnAccept(t, ae) => AcceptSocket(s, t, ae);
    case OnClose(c, ce) => CloseSocket(s, c, ce);
    case OnListener(l, le) =>
      C.ListenerFrame(s, l, le);
      SameSocket(s, Apply(s, e));
    case OnStream(se) =>
      StreamSocket(s, se);
      B.StreamPlace(s, se);
      SameSocket(s, Apply(s, e));
    case Tick(_) => SameSocket(s, Apply(s, e));
  }

  lemma {:induction false} RunSocket(ss: seq<State>, es: seq<Event>, i: nat)
    requires IsRun(ss, es) && i < |ss|
    ensures SocketOk(ss[i])
  {
    hide Apply, C.Coupled;
    if i > 0 {
      RunSocket(ss, es, i - 1);
      C.RunCoupled(ss, es, i - 1);
      StepSocket(ss[i - 1], es[i - 1]);
    }
  }

  /**
   * Close safety: no stream is subscribed while a close is in progress, and when one clears
   * the socket nobody is in the C accept; while the C accept runs, the socket is open.
   */
  lemma ClosesAreSafe(ss: seq<State>, es: seq<Event>, i: nat)
    requires IsRun(ss, es) && i < |ss|
    ensures ss[i].closers != map[] ==> ss[i].hub.subscribers == []
    ensures SomeoneAccepts(ss[i]) ==> ss[i].socketOpen
    ensures i < |es| && es[i].OnClose? && es[i].close.ClearSocket? ==>
              ss[i].hub.subscribers == [] && !SomeoneAccepts(ss[i]) && !ss[i + 1].socketOpen
  {
    RunSocket(ss, es, i);
    C.RunCoupled(ss, es, i);
    if ss[i].closers != map[] {
      var c :| c in ss[i].closers;
      ClosersAlone(ss[i], c);
    }
    if i < |es| && es[i].OnClose? && es[i].close.ClearSocket? {
      ClosersAlone(ss[i], es[i].c);
    }
  }

  // ----- Once cleared, the socket stays closed until a stream is opened -----

  /** Only opening a stream turns receiving on. */
  lemma OnlySubscribeResumes(s: State, e: Event)
    requires Enabled(s, e) && !H.IsReceiving(s.hub) && !(e.OnStream? && e.stream.Subscribe?)
    ensures !H.IsReceiving(Apply(s, e).hub)
    ensures Apply(s, e).hub.stoppedAt == s.hub.stoppedAt
  {
    hide ApplyAccept, ApplyListener, ApplyStream;
    match e
    case OnStream(se) => StreamStaysOff(s, se);
    case OnClose(c, ce) =>
    case OnAccept(t, ae) => AcceptHub(s, t, ae);
    case OnListener(l, le) => C.ListenerFrame(s, l, le);
    case Tick(_) =>
  }

  lemma StreamStaysOff(s: State, e: StreamEvent)
    requires StreamEnabled(s, e) && !H.IsReceiving(s.hub) && !e.Subscribe?
    ensures ApplyStream(s, e).hub.stoppedAt == s.hub.stoppedAt
  {
    if e.SpawnAcceptFails? {
      H.FailKeeps(s.hub, s.hub.subscribers, e.id);
    }
  }

  lemma AcceptHub(s: State, t: nat, e: AcceptEvent)
    requires AcceptEnabled(s, t, e) && !H.IsReceiving(s.hub)
    ensures ApplyAccept(s, t, e).hub.stoppedAt == s.hub.stoppedAt
  {
    hide ApplyAccept;
    C.AcceptFrame(s, t, e);
  }

  lemma StaysClosed(s: State, e: Event)
    requires C.Coupled(s) && SocketOk(s) && Enabled(s, e) && !(e.OnStream? && e.stream.Subscribe?)
    requires !s.socketOpen && !H.IsReceiving(s.hub)
    ensures !Apply(s, e).socketOpen
  {
    hide C.HubOk, C.LockOk, C.OpeningOk, SocketOk, ApplyAccept, ApplyListener, ApplyStream, ApplyClose;
    match e
    case OnStream(se) => StreamSocket(s, se);
    case OnClose(c, ce) => CloseSocket(s, c, ce);
    case OnAccept(t, ae) => AcceptSocket(s, t, ae);
    case OnListener(l, le) => C.ListenerFrame(s, l, le);
    case Tick(_) =>
  }

  lemma Clears(s: State, c: nat)
    requires C.Coupled(s) && Enabled(s, OnClose(c, ClearSocket))
    ensures !Apply(s, OnClose(c, ClearSocket)).socketOpen && !H.IsReceiving(Apply(s, OnClose(c, ClearSocket)).hub)
  {
    ClosersAlone(s, c);
  }

  /** A cleared socket is not reopened before a later `subscribe`. */
  lemma {:induction false} ClearedUntilSubscribe(ss: seq<State>, es: seq<Event>, i: nat, j: nat)
    requires IsRun(ss, es) && i < j < |ss| && es[i].OnClose? && es[i].close.ClearSocket?
    requires forall k :: i < k < j ==> !(es[k].OnStream? && es[k].stream.Subscribe?)
    ensures !ss[j].socketOpen && !H.IsReceiving(ss[j].hub)
    decreases j
  {
    hide C.Coupled, SocketOk, Apply, Enabled;
    if j == i + 1 {
      C.RunCoupled(ss, es, i);
      Clears(ss[i], es[i].c);
    } else {
      ClearedUntilSubscribe(ss, es, i, j - 1);
      C.RunCoupled(ss, es, j - 1);
      RunSocket(ss, es, j - 1);
      OnlySubscribeResumes(ss[j - 1], es[j - 1]);
      StaysClosed(ss[j - 1], es[j - 1]);
    }
  }
}
