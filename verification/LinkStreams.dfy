/** What the receive loops of a link see: why their streams end, and when they end themselves. */
module LinkStreams {
  import opened Base
  import H = Hub
  import R = Receiver
  import C = ReceiverCoupling
  import opened Link
  import opened LinkShutdown

  // ----- A loop ends only after a shutdown began -----

  lemma ClosedByShutdown(s: State, e: Event)
    requires Enabled(s, e)
    ensures Apply(s, e).closed <==> s.closed || (e.OnShutdown? && e.shut == Lock)
    ensures Apply(s, e).flag <==> s.flag || (e.OnShutdown? && e.shut == Flag)
  {
    hide R.Apply, R.Enabled, RxEvent, ApplyOpen, ApplyLoop, OpenEnabled, LoopEnabled;
    if !e.OnShutdown? {
      OthersDoNotShut(s, e);
    }
  }

  lemma {:induction false} ClosedSince(ss: seq<State>, es: seq<Event>, i: nat) returns (k: nat)
    requires IsRun(ss, es) && i < |ss| && ss[i].closed
    ensures k < i && es[k].OnShutdown? && es[k].shut == Lock
  {
    hide Apply, Enabled;
    ClosedByShutdown(ss[i - 1], es[i - 1]);
    if ss[i - 1].closed {
      k := ClosedSince(ss, es, i - 1);
    } else {
      k := i - 1;
    }
  }

  /** `incoming` yields its end only once some `shutdown` began. */
  lemma EndsOnlyAfterShutdown(ss: seq<State>, es: seq<Event>, i: nat, n: nat) returns (k: nat)
    requires IsRun(ss, es) && i < |ss| && n in ss[i].loops && ss[i].loops[n].pc == Over
    ensures k < i && es[k].OnShutdown? && es[k].shut == Lock
  {
    hide Apply, Enabled, IsRun;
    RunFlags(ss, es, i);
    assert LoopOk(ss[i], n);
    k := ClosedSince(ss, es, i);
  }

  lemma {:induction false} FlagStays(ss: seq<State>, es: seq<Event>, i: nat, j: nat)
    requires IsRun(ss, es) && i <= j < |ss| && ss[i].flag
    ensures ss[j].flag
    decreases j
  {
    hide Apply, Enabled;
    if i < j {
      FlagStays(ss, es, i, j - 1);
      ClosedByShutdown(ss[j - 1], es[j - 1]);
    }
  }

  // ----- Why a stream ends -----

  /** Channels are only added, by `subscribe`, and never opened again. */
  lemma ChannelLife(s: R.State, e: R.Event)
    requires R.Enabled(s, e)
    ensures var h, h' := s.hub, R.Apply(s, e).hub;
            && |h'.channels| == |h.channels| + (if e == R.OnStream(R.Subscribe) then 1 else 0)
            && (forall i :: 0 <= i < |h.channels| ==> h'.channels[i].open ==> h.channels[i].open)
            && (e == R.OnStream(R.Subscribe) ==> h'.subscribers == h.subscribers + [|h.channels|])
  {
    hide R.ApplyStream, R.ApplyAccept, R.ApplyListener;
    match e
    case OnStream(se) => StreamLife(s, se);
    case OnClose(c, ce) =>
    case OnAccept(t, ae) => AcceptHub(s, t, ae);
    case OnListener(l, le) => C.ListenerFrame(s, l, le);
    case Tick(_) =>
  }

  lemma StreamLife(s: R.State, e: R.StreamEvent)
    requires R.StreamEnabled(s, e)
    ensures var h, h' := s.hub, R.ApplyStream(s, e).hub;
            && |h'.channels| == |h.channels| + (if e == R.Subscribe then 1 else 0)
            && (forall i :: 0 <= i < |h.channels| ==> h'.channels[i].open ==> h.channels[i].open)
            && (e == R.Subscribe ==> h'.subscribers == h.subscribers + [|h.channels|])
  {
    hide H.FailOthers, H.Bundles, H.WithoutId;
    if e.SpawnAcceptFails? {
      H.FailKeeps(s.hub, s.hub.subscribers, e.id);
    }
  }

  lemma AcceptHub(s: R.State, t: nat, e: R.AcceptEvent)
    requires R.AcceptEnabled(s, t, e)
    ensures var h, h' := s.hub, R.ApplyAccept(s, t, e).hub;
            && |h'.channels| == |h.channels|
            && (forall i :: 0 <= i < |h.channels| ==> h'.channels[i].open == h.channels[i].open)
            && (h'.subscribers == h.subscribers || e.Unwound?)
            && (h.subscribers == [] ==> h'.channels == h.channels)
  {
    hide R.ApplyAccept;
    C.AcceptFrame(s, t, e);
  }

  /** The steps that end all streams. */
  ghost predicate IsFailure(e: R.Event) {
    (e.OnStream? && e.stream.SpawnAcceptFails?) || (e.OnAccept? && e.accept.Unwound?)
  }

  ghost predicate IsClose(e: R.Event) {
    e.OnClose? && e.close.BeginClose?
  }

  lemma DropLoses(h: H.Hub, gone: nat, now: H.Time, id: nat)
    requires gone < |h.channels| && id in h.subscribers && id !in H.Unsubscribe(h, gone, now).subscribers
    ensures id == gone
  {
  }

  lemma DropCloses(h: H.Hub, gone: nat, now: H.Time)
    requires gone < |h.channels|
    ensures !H.Accepts(H.Unsubscribe(h, gone, now), gone)
  {
  }

  lemma StreamLoses(s: R.State, e: R.StreamEvent, id: nat)
    requires R.StreamEnabled(s, e) && id in s.hub.subscribers && id !in R.ApplyStream(s, e).hub.subscribers
    requires H.Accepts(R.ApplyStream(s, e).hub, id)
    ensures e.SpawnAcceptFails?
  {
    hide H.AcceptFailed, H.Unsubscribe;
    if e.DropStream? {
      DropLoses(s.hub, e.id, s.now, id);
      DropCloses(s.hub, e.id, s.now);
    }
  }

  lemma LosesSubscription(s: R.State, e: R.Event, id: nat)
    requires R.Enabled(s, e) && id in s.hub.subscribers && id !in R.Apply(s, e).hub.subscribers
    requires H.Accepts(R.Apply(s, e).hub, id)
    ensures IsFailure(e) || IsClose(e)
  {
    hide R.ApplyStream, R.ApplyAccept, R.ApplyListener, H.BeginClose, H.EndClose, H.Accepts;
    match e
    case OnStream(se) => StreamLoses(s, se, id);
    case OnClose(c, ce) =>
      if !ce.BeginClose? {
        CloseKeepsSubs(s, c, ce);
      }
    case OnAccept(t, ae) => AcceptHub(s, t, ae);
    case OnListener(l, le) => ListenerKeepsSubs(s, l, le);
    case Tick(_) =>
  }

  lemma CloseKeepsSubs(s: R.State, c: nat, e: R.CloseEvent)
    requires R.CloseEnabled(s, c, e) && !e.BeginClose?
    ensures R.ApplyClose(s, c, e).hub.subscribers == s.hub.subscribers
  {
  }

  lemma ListenerKeepsSubs(s: R.State, l: nat, e: R.ListenerEvent)
    requires R.ListenerEnabled(s, l, e)
    ensures R.ApplyListener(s, l, e).hub.subscribers == s.hub.subscribers
  {
  }

  /** The step at which an ended stream lost its subscription. */
  lemma {:induction false} LostAt(ss: seq<State>, es: seq<Event>, k: nat, id: nat) returns (i: nat)
    requires IsRun(ss, es) && k < |ss| && H.Accepts(ss[k].rx.hub, id) && id !in ss[k].rx.hub.subscribers
    ensures i < k && RxEvent(ss[i], es[i]).Some?
    ensures IsFailure(RxEvent(ss[i], es[i]).value) || IsClose(RxEvent(ss[i], es[i]).value)
    ensures id in ss[i].rx.hub.subscribers && id !in ss[i + 1].rx.hub.subscribers
  {
    hide Apply, Enabled, RxEvent, R.Apply, R.Enabled, IsFailure, IsClose;
    var s, e := ss[k - 1], es[k - 1];
    RxStep(s, e);
    if RxEvent(s, e).Some? {
      ChannelLife(s.rx, RxEvent(s, e).value);
    }
    if id in s.rx.hub.subscribers {
      LosesSubscription(s.rx, RxEvent(s, e).value, id);
      i := k - 1;
    } else {
      i := LostAt(ss, es, k - 1, id);
    }
  }

  /**
   * A receive loop sees its stream end only because an accept thread could not start or
   * panicked, or because a shutdown closed the socket; and then the shutdown is flagged.
   */
  lemma EndHasACause(ss: seq<State>, es: seq<Event>, k: nat, n: nat) returns (i: nat)
    requires IsRun(ss, es) && k < |es| && es[k] == OnLoop(n, SeeEnd)
    ensures i < k && RxEvent(ss[i], es[i]).Some?
    ensures ss[k].loops[n].pc.id in ss[i].rx.hub.subscribers && ss[k].loops[n].pc.id !in ss[i + 1].rx.hub.subscribers
    ensures IsFailure(RxEvent(ss[i], es[i]).value) || (IsClose(RxEvent(ss[i], es[i]).value) && ss[k].flag)
  {
    i := LostAt(ss, es, k, ss[k].loops[n].pc.id);
    if IsClose(RxEvent(ss[i], es[i]).value) {
      CloseIsFlagged(ss, es, i);
      FlagStays(ss, es, i, k);
    }
  }

  lemma CloseIsFlagged(ss: seq<State>, es: seq<Event>, i: nat)
    requires IsRun(ss, es) && i < |es| && RxEvent(ss[i], es[i]).Some? && IsClose(RxEvent(ss[i], es[i]).value)
    ensures ss[i].flag
  {
    RunFlags(ss, es, i);
    HolderShuts(ss[i], es[i].c);
  }

  /**
   * A stream that a shutdown ended is not taken for a failure: a loop that sees the end of its
   * stream after a shutdown's close began ends, and does not pause and reopen.
   */
  lemma ShutdownIsNotAFailure(ss: seq<State>, es: seq<Event>, i: nat, j: nat, n: nat)
    requires IsRun(ss, es) && i < j < |es| && es[i].OnShutdown? && es[i].shut == CloseRx(R.BeginClose)
    requires es[j] == OnLoop(n, AskClosed)
    ensures ss[j + 1].loops[n].pc == Over
  {
    CloseIsFlagged(ss, es, i);
    FlagStays(ss, es, i, j);
  }

  // ----- Ended streams run dry -----

  /** What step `e` reads from stream `id`. */
  ghost function Taken(s: State, e: Event, id: nat): seq<H.Item>
    requires Enabled(s, e)
  {
    if RxEvent(s, e) == Some(R.OnStream(R.ReadItem(id))) then s.rx.hub.channels[id].queue[..1] else []
  }

  ghost function TakenSince(ss: seq<State>, es: seq<Event>, i: nat, j: nat, id: nat): seq<H.Item>
    requires IsRun(ss, es) && i <= j < |ss|
    decreases j
  {
    if i == j then [] else TakenSince(ss, es, i, j - 1, id) + Taken(ss[j - 1], es[j - 1], id)
  }

  lemma StreamDrains(s: R.State, e: R.StreamEvent, id: nat)
    requires R.StreamEnabled(s, e) && s.hub.subscribers == [] && s.claimed == {} && s.failing == {} && !e.Subscribe?
    requires H.Accepts(R.ApplyStream(s, e).hub, id)
    ensures H.Accepts(s.hub, id)
    ensures var q, q' := s.hub.channels[id].queue, R.ApplyStream(s, e).hub.channels[id].queue;
            q == (if e == R.ReadItem(id) then q[..1] else []) + q'
  {
    hide H.Unsubscribe;
    if e.DropStream? {
      DropCloses(s.hub, e.id, s.now);
      DropChannels(s.hub, e.id, s.now);
    }
  }

  lemma DropChannels(h: H.Hub, gone: nat, now: H.Time)
    requires gone < |h.channels| && h.subscribers == []
    ensures H.Unsubscribe(h, gone, now).channels == h.channels[gone := H.Channel([], false)]
  {
  }

  /** Without subscribers, nothing is put into a stream. */
  lemma DrainStep(s: R.State, e: R.Event, id: nat)
    requires R.Enabled(s, e) && s.hub.subscribers == [] && s.claimed == {} && s.failing == {}
    requires e != R.OnStream(R.Subscribe) && H.Accepts(R.Apply(s, e).hub, id)
    ensures H.Accepts(s.hub, id)
    ensures var q, q' := s.hub.channels[id].queue, R.Apply(s, e).hub.channels[id].queue;
            q == (if e == R.OnStream(R.ReadItem(id)) then q[..1] else []) + q'
  {
    hide R.ApplyStream, R.ApplyAccept, R.ApplyListener;
    match e
    case OnStream(se) => StreamDrains(s, se, id);
    case OnClose(c, ce) =>
    case OnAccept(t, ae) => AcceptHub(s, t, ae);
    case OnListener(l, le) => C.ListenerFrame(s, l, le);
    case Tick(_) =>
  }

  lemma EndingStep(s: State, e: Event, id: nat)
    requires Inv(s) && EndingOk(s) && Ending(s) && Enabled(s, e) && H.Accepts(Apply(s, e).rx.hub, id)
    ensures H.Accepts(s.rx.hub, id)
    ensures s.rx.hub.channels[id].queue == Taken(s, e, id) + Apply(s, e).rx.hub.channels[id].queue
  {
    hide Apply, RxEvent, R.Apply, R.Enabled, C.Coupled, FlagsOk, ClaimsOk, Ending;
    EndingIsClosed(s);
    NobodyOpens(s);
    NoSubscribe(s, e);
    RxStep(s, e);
    if RxEvent(s, e).Some? {
      DrainStep(s.rx, RxEvent(s, e).value, id);
    }
  }

  /**
   * Each stream open when a shutdown closes the socket yields what is queued in it, item by
   * item, and nothing else; and once that is read it is at its end for good.
   */
  lemma {:induction false} StreamsRunDry(ss: seq<State>, es: seq<Event>, i: nat, j: nat, id: nat)
    requires IsRun(ss, es) && i <= j < |ss| && Ending(ss[i]) && H.Accepts(ss[j].rx.hub, id)
    ensures H.Accepts(ss[i].rx.hub, id)
    ensures ss[i].rx.hub.channels[id].queue == TakenSince(ss, es, i, j, id) + ss[j].rx.hub.channels[id].queue
    ensures ss[j].rx.hub.channels[id].queue == [] ==> AtEnd(ss[j].rx.hub, id)
    decreases j
  {
    hide Apply, Enabled, Inv, Ending, Taken;
    DoneStays(ss, es, i, j);
    RunEnding(ss, es, j);
    if i < j {
      DoneStays(ss, es, i, j - 1);
      RunInv(ss, es, j - 1);
      RunEnding(ss, es, j - 1);
      EndingStep(ss[j - 1], es[j - 1], id);
      StreamsRunDry(ss, es, i, j - 1, id);
    }
  }
}
