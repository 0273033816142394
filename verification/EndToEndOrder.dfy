/**
 * Order from sender to reader: what a listener delivered, and what it holds, is what was received
 * on its connection; and with one stream at a time the bundles of a connection are read in the
 * order they were sent on it.
 */
module EndToEndOrder {
  import opened Base
  import H = Hub
  import A = AckProtocol
  import W = WireOrder
  import R = Receiver
  import C = ReceiverCoupling
  import B = ReceiverBounds
  import V = ReceiverConservation
  import Z = ReceiverStop
  import O = ReceiverOrder
  import opened EndToEnd

  /** The receiver's part of a step. */
  ghost function RxPart(s: System, e: Event): Option<R.Event>
    requires Enabled(s, e)
  {
    match e
    case Sending(_) => None
    case Receiving(re) => Some(re)
    case Transfer(l, _) => Some(Taking(s, l))
  }

  lemma RxApplies(s: System, e: Event)
    requires Enabled(s, e)
    ensures RxPart(s, e).None? ==> Apply(s, e).rx == s.rx
    ensures RxPart(s, e).Some? ==>
          R.Enabled(s.rx, RxPart(s, e).value) && Apply(s, e).rx == R.Apply(s.rx, RxPart(s, e).value)
  {
    hide R.Apply, R.Enabled, A.Apply, A.Enabled;
  }

  // ----- One listener -----

  ghost function Ours(m: Copy): seq<Copy> {
    if m.Copy? then [m] else []
  }

  /** The bundle of this sender in the hand of listener `l`. */
  ghost function Hand(rx: R.State, l: nat): seq<Copy> {
    if l < |rx.threads| && rx.threads[l].pc.InHand? then Ours(rx.threads[l].pc.bundle) else []
  }

  /** What listener `l` receives in a step, of this sender. */
  ghost function Takes(s: System, e: Event, l: nat): seq<Copy>
    requires Enabled(s, e)
  {
    if e.Transfer? && e.l == l then [s.world.conns[s.rx.threads[l].conn].fwd[0]] else []
  }

  /** What listener `l` delivers in a step, of this sender. */
  ghost function Gives(s: System, e: Event, l: nat): seq<Copy>
    requires Enabled(s, e)
  {
    if e == Receiving(R.OnListener(l, R.Deliver)) then Ours(s.rx.threads[l].pc.bundle) else []
  }

  ghost function Took(maxAgeMs: uint32, ss: seq<System>, es: seq<Event>, i: nat, l: nat): seq<Copy>
    requires IsRun(maxAgeMs, ss, es) && i < |ss|
  {
    if i == 0 then [] else Took(maxAgeMs, ss, es, i - 1, l) + Takes(ss[i - 1], es[i - 1], l)
  }

  ghost function Gave(maxAgeMs: uint32, ss: seq<System>, es: seq<Event>, i: nat, l: nat): seq<Copy>
    requires IsRun(maxAgeMs, ss, es) && i < |ss|
  {
    if i == 0 then [] else Gave(maxAgeMs, ss, es, i - 1, l) + Gives(ss[i - 1], es[i - 1], l)
  }

  /** Listener threads are only added, each with its connection; another's step leaves a hand alone. */
  lemma AcceptThreads(rx: R.State, t: nat, e: R.AcceptEvent, l: nat)
    requires R.AcceptEnabled(rx, t, e) && B.TableOk(rx)
    ensures var rx' := R.ApplyAccept(rx, t, e);
            && |rx.threads| <= |rx'.threads| && Hand(rx', l) == Hand(rx, l)
            && (l < |rx.threads| ==> rx'.threads[l].conn == rx.threads[l].conn)
  {
    hide R.ApplyAccept, B.TableOk;
    if e.Register? {
      RegisterThreads(rx, t, l);
    } else if e.SpawnListener? {
      SpawnThreads(rx, t, e.ok, l);
    } else {
      Z.AcceptThreads(rx, t, e);
    }
  }

  lemma RegisterThreads(rx: R.State, t: nat, l: nat)
    requires R.AcceptEnabled(rx, t, R.Register)
    ensures var rx' := R.ApplyAccept(rx, t, R.Register);
            && |rx.threads| <= |rx'.threads| && Hand(rx', l) == Hand(rx, l)
            && (l < |rx.threads| ==> rx'.threads[l].conn == rx.threads[l].conn)
  {
  }

  lemma SpawnThreads(rx: R.State, t: nat, ok: bool, l: nat)
    requires R.AcceptEnabled(rx, t, R.SpawnListener(ok)) && B.TableOk(rx)
    ensures var rx' := R.ApplyAccept(rx, t, R.SpawnListener(ok));
            && |rx.threads| <= |rx'.threads| && Hand(rx', l) == Hand(rx, l)
            && (l < |rx.threads| ==> rx'.threads[l].conn == rx.threads[l].conn)
  {
    hide B.TableOk;
    V.NotStartedYet(rx, t);
  }

  lemma OtherListener(rx: R.State, k: nat, e: R.ListenerEvent, l: nat)
    requires R.ListenerEnabled(rx, k, e)
    ensures var rx' := R.ApplyListener(rx, k, e);
            && |rx.threads| == |rx'.threads|
            && (l < |rx.threads| ==> rx'.threads[l].conn == rx.threads[l].conn)
            && (k != l ==> Hand(rx', l) == Hand(rx, l))
  {
    hide R.ApplyListener;
    var pc := B.ListenerPlace(rx, k, e);
  }

  lemma OwnListener(rx: R.State, l: nat, e: R.ListenerEvent)
    requires R.ListenerEnabled(rx, l, e)
    ensures var rx' := R.ApplyListener(rx, l, e);
            if e.Receive? then
              Hand(rx, l) == [] && Hand(rx', l) == (if e.outcome.Bundle? then Ours(e.outcome.bundle) else [])
            else
              Hand(rx', l) == [] && Hand(rx, l) == (if e.Deliver? then Ours(rx.threads[l].pc.bundle) else [])
  {
    hide H.Deliver;
  }

  lemma RxThreads(rx: R.State, e: R.Event, l: nat)
    requires R.Enabled(rx, e) && B.TableOk(rx)
    ensures var rx' := R.Apply(rx, e);
            && |rx.threads| <= |rx'.threads|
            && (l < |rx.threads| ==> rx'.threads[l].conn == rx.threads[l].conn)
            && (!(e.OnListener? && e.l == l) ==> Hand(rx', l) == Hand(rx, l))
  {
    hide R.ApplyStream, R.ApplyClose, R.ApplyAccept, R.ApplyListener, B.TableOk;
    match e
    case OnStream(se) => B.StreamPlace(rx, se);
    case OnClose(c, ce) => B.ClosePlace(rx, c, ce);
    case OnAccept(t, ae) => AcceptThreads(rx, t, ae, l);
    case OnListener(k, le) => OtherListener(rx, k, le, l);
    case Tick(_) =>
  }

  /** A step delivers from the hand, or takes into the empty hand. */
  lemma HandStep(s: System, e: Event, l: nat)
    requires Inv(s) && Enabled(s, e)
    ensures Hand(s.rx, l) + Takes(s, e, l) == Gives(s, e, l) + Hand(Apply(s, e).rx, l)
  {
    hide A.Inv, A.Apply, A.Enabled, R.Apply, R.Enabled, Hand, Joint, C.Coupled, B.TableOk, V.Conserved;
    RxApplies(s, e);
    if RxPart(s, e).Some? {
      var re := RxPart(s, e).value;
      RxThreads(s.rx, re, l);
      if re.OnListener? && re.l == l {
        OwnHand(s, e, l, re.listener);
      }
    }
  }

  lemma OwnHand(s: System, e: Event, l: nat, le: R.ListenerEvent)
    requires Inv(s) && Enabled(s, e) && RxPart(s, e) == Some(R.OnListener(l, le))
    ensures Hand(s.rx, l) + Takes(s, e, l) == Gives(s, e, l) + Hand(R.Apply(s.rx, R.OnListener(l, le)), l)
  {
    hide A.Inv, A.Apply, R.ApplyListener, Hand, Joint, C.Coupled, B.TableOk, V.Conserved;
    OwnListener(s.rx, l, le);
    if e.Transfer? {
      NotYetAccepted(s.world, s.rx.threads[l].conn, s.rx.threads[l].conn);
    }
  }

  /** What a listener delivered, then what it holds, is what it received, in order. */
  lemma {:induction false} ListenerKeepsOrder(maxAgeMs: uint32, ss: seq<System>, es: seq<Event>, i: nat, l: nat)
    requires IsRun(maxAgeMs, ss, es) && i < |ss|
    ensures Gave(maxAgeMs, ss, es, i, l) + Hand(ss[i].rx, l) == Took(maxAgeMs, ss, es, i, l)
  {
    hide Enabled, Apply, Inv, Takes, Gives, Hand;
    if i == 0 {
      EmptyHands(ss[0].rx.now, l);
    } else {
      ListenerKeepsOrder(maxAgeMs, ss, es, i - 1, l);
      RunInv(maxAgeMs, ss, es, i - 1);
      HandStep(ss[i - 1], es[i - 1], l);
      var gave, took := Gave(maxAgeMs, ss, es, i - 1, l), Took(maxAgeMs, ss, es, i - 1, l);
      var give, take := Gives(ss[i - 1], es[i - 1], l), Takes(ss[i - 1], es[i - 1], l);
      Regroup(gave, Hand(ss[i - 1].rx, l), took, give, take, Hand(ss[i].rx, l));
    }
  }

  lemma Regroup(gave: seq<Copy>, hand: seq<Copy>, took: seq<Copy>, give: seq<Copy>, take: seq<Copy>, hand': seq<Copy>)
    requires gave + hand == took && hand + take == give + hand'
    ensures (gave + give) + hand' == took + take
  {
    assert (gave + give) + hand' == gave + (give + hand');
    assert took + take == gave + (hand + take);
  }

  lemma EmptyHands(now: H.Time, l: nat)
    ensures Hand(R.Init(now), l) == []
  {
  }

  // ----- One connection -----

  ghost function ReceivedOn(w: A.World, h: Handle): seq<Copy> {
    if h in w.conns then w.conns[h].received else []
  }

  /** Listener `l` serves connection `h`, and no other does: libcsp accepts a connection once. */
  ghost predicate OnlyServes(rx: R.State, h: Handle, l: nat) {
    && l < |rx.threads| && rx.threads[l].conn == h
    && (forall k :: 0 <= k < |rx.threads| && rx.threads[k].conn == h ==> k == l)
  }

  lemma SenderStep(w: A.World, e: A.Event, h: Handle)
    requires A.Enabled(w, e)
    ensures h in w.conns ==> h in A.Apply(w, e).conns && A.Apply(w, e).conns[h].dest == w.conns[h].dest
    ensures ReceivedOn(A.Apply(w, e), h) ==
              ReceivedOn(w, h) + if e.Receive? && e.at == h then [w.conns[h].fwd[0]] else []
  {
    if e.Receive? {
      hide A.P.Obtain, A.P.Invalidate, A.S.Acquire, A.S.GiveUp;
      A.NetApply(w, e);
    } else {
      SenderReceived(w, e);
      hide A.Apply, A.Enabled;
    }
  }

  lemma ConnStep(s: System, e: Event, h: Handle)
    requires Enabled(s, e) && (h in s.world.conns ==> Local(s, h))
    ensures h in s.world.conns ==>
          h in Apply(s, e).world.conns && Apply(s, e).world.conns[h].dest == s.world.conns[h].dest
    ensures ReceivedOn(Apply(s, e).world, h) ==
              ReceivedOn(s.world, h) + if e.Transfer? && s.rx.threads[e.l].conn == h then Takes(s, e, e.l) else []
  {
    hide A.Apply, A.P.Shaped, R.Apply, R.Enabled;
    match e
    case Sending(we) => SenderStep(s.world, we, h);
    case Receiving(_) =>
    case Transfer(l, acked) => SenderStep(s.world, A.Receive(s.rx.threads[l].conn, acked), h);
  }

  lemma DestStep(s: System, e: Event, h: Handle)
    requires Enabled(s, e) && h in s.world.conns
    ensures h in Apply(s, e).world.conns && Apply(s, e).world.conns[h].dest == s.world.conns[h].dest
    ensures Apply(s, e).here == s.here
  {
    hide A.Apply, A.Enabled, R.Apply, R.Enabled;
    match e
    case Sending(we) => SenderStep(s.world, we, h);
    case Receiving(_) =>
    case Transfer(l, acked) => SenderStep(s.world, A.Receive(s.rx.threads[l].conn, acked), h);
  }

  /** Where a connection leads, and whose it is, never changes. */
  lemma {:induction false} Stays(maxAgeMs: uint32, ss: seq<System>, es: seq<Event>, i: nat, j: nat, h: Handle, l: nat)
    requires IsRun(maxAgeMs, ss, es) && i <= j < |ss|
    ensures h in ss[i].world.conns ==> h in ss[j].world.conns && ss[j].world.conns[h].dest == ss[i].world.conns[h].dest
    ensures l < |ss[i].rx.threads| ==> l < |ss[j].rx.threads| && ss[j].rx.threads[l].conn == ss[i].rx.threads[l].conn
    decreases j
  {
    hide Enabled, Apply, Inv;
    if i < j {
      Stays(maxAgeMs, ss, es, i, j - 1, h, l);
      var s, e := ss[j - 1], es[j - 1];
      RunInv(maxAgeMs, ss, es, j - 1);
      if h in s.world.conns {
        DestStep(s, e, h);
      }
      ThreadStep(s, e, l);
    }
  }

  lemma ThreadStep(s: System, e: Event, l: nat)
    requires Inv(s) && Enabled(s, e)
    ensures l < |s.rx.threads| ==>
              l < |Apply(s, e).rx.threads| && Apply(s, e).rx.threads[l].conn == s.rx.threads[l].conn
  {
    hide A.Inv, A.Apply, A.Enabled, R.Apply, R.Enabled, Joint, C.Coupled, B.TableOk, V.Conserved;
    RxApplies(s, e);
    if RxPart(s, e).Some? {
      RxThreads(s.rx, RxPart(s, e).value, l);
    }
  }

  /** What the only listener of a connection received is what was received on the connection. */
  lemma {:induction false} TookIsReceived(maxAgeMs: uint32, ss: seq<System>, es: seq<Event>, i: nat, j: nat,
                                          h: Handle, l: nat)
    requires IsRun(maxAgeMs, ss, es) && i <= j < |ss| && OnlyServes(ss[j].rx, h, l) && Local(ss[j], h)
    ensures Took(maxAgeMs, ss, es, i, l) == ReceivedOn(ss[i].world, h)
    decreases i
  {
    hide Enabled, Apply, Inv, Takes, ReceivedOn;
    if i == 0 {
      NothingReceivedYet(maxAgeMs, h);
    } else {
      TookIsReceived(maxAgeMs, ss, es, i - 1, j, h, l);
      var s, e := ss[i - 1], es[i - 1];
      Stays(maxAgeMs, ss, es, i - 1, j, h, l);
      SameHereAlways(maxAgeMs, ss, es, i - 1, j);
      ConnStep(s, e, h);
      if e.Transfer? {
        ThreadIsThere(s, e.l, e.acked);
        Stays(maxAgeMs, ss, es, i - 1, j, h, e.l);
      }
      TakesNothing(s, e, l);
    }
  }

  lemma ThreadIsThere(s: System, l: nat, acked: bool)
    requires Enabled(s, Transfer(l, acked))
    ensures l < |s.rx.threads|
  {
  }

  lemma TakesNothing(s: System, e: Event, l: nat)
    requires Enabled(s, e)
    ensures !(e.Transfer? && e.l == l) ==> Takes(s, e, l) == []
  {
  }

  lemma NothingReceivedYet(maxAgeMs: uint32, h: Handle)
    ensures ReceivedOn(A.Init(maxAgeMs), h) == []
  {
  }

  lemma SameHereAlways(maxAgeMs: uint32, ss: seq<System>, es: seq<Event>, i: nat, j: nat)
    requires IsRun(maxAgeMs, ss, es) && i < |ss| && j < |ss|
    ensures ss[i].here == ss[j].here
  {
    RunInv(maxAgeMs, ss, es, i);
    RunInv(maxAgeMs, ss, es, j);
  }

  /**
   * In every run: the bundles that the only listener of a connection delivered, then the one in
   * its hand, are exactly those received on the connection, in the order they were sent on it.
   */
  lemma ConnectionInOrder(maxAgeMs: uint32, ss: seq<System>, es: seq<Event>, i: nat, h: Handle, l: nat)
    requires IsRun(maxAgeMs, ss, es) && i < |ss| && OnlyServes(ss[i].rx, h, l) && Local(ss[i], h)
    ensures Gave(maxAgeMs, ss, es, i, l) + Hand(ss[i].rx, l) == ss[i].world.conns[h].received
    ensures W.InTurn(ss[i].world.conns[h].received) && W.InTurn(ss[i].world.conns[h].sent)
  {
    hide Enabled, Apply, Hand, OnlyServes;
    ListenerKeepsOrder(maxAgeMs, ss, es, i, l);
    TookIsReceived(maxAgeMs, ss, es, i, i, h, l);
    RunWired(maxAgeMs, ss, es, i);
    W.ReceivedPart(ss[i].world.conns[h]);
  }

  lemma StepWired(s: System, e: Event)
    requires A.Inv(s.world) && Enabled(s, e) && W.WiresOk(s.world.conns)
    ensures W.WiresOk(Apply(s, e).world.conns)
  {
    hide A.Inv, A.Apply, R.Apply, R.Enabled, W.WiresOk;
    match e
    case Sending(we) => W.StepWired(s.world, we);
    case Receiving(_) =>
    case Transfer(l, acked) => W.StepWired(s.world, A.Receive(s.rx.threads[l].conn, acked));
  }

  lemma {:induction false} RunWired(maxAgeMs: uint32, ss: seq<System>, es: seq<Event>, i: nat)
    requires IsRun(maxAgeMs, ss, es) && i < |ss|
    ensures W.WiresOk(ss[i].world.conns)
  {
    hide Enabled, Apply, A.Inv, RxOk, Joint;
    if i > 0 {
      RunWired(maxAgeMs, ss, es, i - 1);
      RunInv(maxAgeMs, ss, es, i - 1);
      StepWired(ss[i - 1], es[i - 1]);
    }
  }

  // ----- All listeners, and the reader -----

  ghost function GivenIn(s: System, e: Event): seq<Copy>
    requires Enabled(s, e)
  {
    RxApplies(s, e);
    if RxPart(s, e).Some? then O.Handed(s.rx, RxPart(s, e).value) else []
  }

  ghost function ReadIn(s: System, e: Event): seq<Copy>
    requires Enabled(s, e)
  {
    RxApplies(s, e);
    if RxPart(s, e).Some? then O.Yielded(s.rx, RxPart(s, e).value) else []
  }

  /** All bundles delivered so far, by whichever listener, of whichever sender. */
  ghost function AllGiven(maxAgeMs: uint32, ss: seq<System>, es: seq<Event>, i: nat): seq<Copy>
    requires IsRun(maxAgeMs, ss, es) && i < |ss|
  {
    if i == 0 then [] else AllGiven(maxAgeMs, ss, es, i - 1) + GivenIn(ss[i - 1], es[i - 1])
  }

  /** All bundles read so far, from whichever stream. */
  ghost function AllRead(maxAgeMs: uint32, ss: seq<System>, es: seq<Event>, i: nat): seq<Copy>
    requires IsRun(maxAgeMs, ss, es) && i < |ss|
  {
    if i == 0 then [] else AllRead(maxAgeMs, ss, es, i - 1) + ReadIn(ss[i - 1], es[i - 1])
  }

  /** Streams one after another, and no close or panic. */
  ghost predicate Calm(s: System, e: Event) {
    Enabled(s, e) && (RxPart(s, e).Some? ==>
      O.Sequential(s.rx, RxPart(s, e).value) && !O.EndsStreams(RxPart(s, e).value))
  }

  lemma ReadStep(s: System, e: Event)
    requires Inv(s) && Calm(s, e) && O.OneByOne(s.rx.hub) && O.Settled(s.rx.hub)
    ensures O.OneByOne(Apply(s, e).rx.hub) && O.Settled(Apply(s, e).rx.hub)
    ensures ReadIn(s, e) + O.InStore(Apply(s, e).rx.hub) == O.InStore(s.rx.hub) + GivenIn(s, e)
  {
    hide A.Inv, Enabled, Apply, R.Apply, R.Enabled, Joint, C.Coupled, B.TableOk, V.Conserved, O.OneByOne, O.Settled,
      O.InStore, O.Sequential, O.EndsStreams, O.LeavesInOrder, O.Handed, O.Yielded, RxPart;
    RxApplies(s, e);
    if RxPart(s, e).Some? {
      var re := RxPart(s, e).value;
      O.SettledLeaves(s.rx, re);
      O.StepOrder(s.rx, re);
      O.StepSettled(s.rx, re);
    }
  }

  lemma {:induction false} ReadsWhatIsGiven(maxAgeMs: uint32, ss: seq<System>, es: seq<Event>, i: nat)
    requires IsRun(maxAgeMs, ss, es) && i < |ss| && forall k :: 0 <= k < i ==> Calm(ss[k], es[k])
    ensures O.OneByOne(ss[i].rx.hub) && O.Settled(ss[i].rx.hub)
    ensures AllRead(maxAgeMs, ss, es, i) + O.InStore(ss[i].rx.hub) == AllGiven(maxAgeMs, ss, es, i)
  {
    hide Enabled, Apply, Inv, Calm, GivenIn, ReadIn, O.OneByOne, O.Settled, O.InStore;
    if i == 0 {
      O.InitOrder(ss[0].rx.now);
      O.InitSettled(ss[0].rx.now);
    } else {
      ReadsWhatIsGiven(maxAgeMs, ss, es, i - 1);
      RunInv(maxAgeMs, ss, es, i - 1);
      var s, e := ss[i - 1], es[i - 1];
      ReadStep(s, e);
      O.Shift(AllRead(maxAgeMs, ss, es, i - 1), ReadIn(s, e), O.InStore(s.rx.hub), O.InStore(ss[i].rx.hub),
              GivenIn(s, e));
    }
  }

  // ----- The bundles of one connection among them -----

  /** Those of some bundles that were sent on connection `h`, in order. */
  ghost function OfConn(conns: map<Handle, A.Conn>, h: Handle, ms: seq<Copy>): seq<Copy> {
    if ms == [] then []
    else OfConn(conns, h, ms[..|ms| - 1]) + if A.Carried(conns, h, ms[|ms| - 1]) then [ms[|ms| - 1]] else []
  }

  lemma OfConnSnoc(conns: map<Handle, A.Conn>, h: Handle, ms: seq<Copy>, m: Copy)
    ensures OfConn(conns, h, ms + [m]) == OfConn(conns, h, ms) + if A.Carried(conns, h, m) then [m] else []
  {
    assert (ms + [m])[..|ms|] == ms;
  }

  lemma {:induction false} OfConnConcat(conns: map<Handle, A.Conn>, h: Handle, a: seq<Copy>, b: seq<Copy>)
    ensures OfConn(conns, h, a + b) == OfConn(conns, h, a) + OfConn(conns, h, b)
  {
    if b == [] {
      assert a + b == a;
    } else {
      var k := |b| - 1;
      OfConnConcat(conns, h, a, b[..k]);
      assert a + b == (a + b[..k]) + [b[k]];
      OfConnSnoc(conns, h, a + b[..k], b[k]);
    }
  }

  lemma SentGrows(w: A.World, e: A.Event, h: Handle, m: Copy)
    requires A.Enabled(w, e) && A.Carried(w.conns, h, m)
    ensures A.Carried(A.Apply(w, e).conns, h, m)
  {
    hide A.P.Obtain, A.P.Invalidate, A.S.Acquire, A.S.GiveUp;
  }

  lemma CarriedStep(s: System, e: Event, h: Handle, m: Copy)
    requires Enabled(s, e) && A.Carried(s.world.conns, h, m)
    ensures A.Carried(Apply(s, e).world.conns, h, m)
  {
    hide A.Apply, A.Carried, R.Apply, R.Enabled;
    match e
    case Sending(we) => SentGrows(s.world, we, h, m);
    case Receiving(_) =>
    case Transfer(l, acked) => SentGrows(s.world, A.Receive(s.rx.threads[l].conn, acked), h, m);
  }

  lemma {:induction false} CarriedStays(maxAgeMs: uint32, ss: seq<System>, es: seq<Event>, i: nat, j: nat, h: Handle,
                                        m: Copy)
    requires IsRun(maxAgeMs, ss, es) && i <= j < |ss| && A.Carried(ss[i].world.conns, h, m)
    ensures A.Carried(ss[j].world.conns, h, m)
    decreases j
  {
    hide Enabled, Apply, A.Carried;
    if i < j {
      CarriedStays(maxAgeMs, ss, es, i, j - 1, h, m);
      CarriedStep(ss[j - 1], es[j - 1], h, m);
    }
  }

  lemma TransferCarries(s: System, l: nat, acked: bool)
    requires A.Inv(s.world) && Enabled(s, Transfer(l, acked))
    ensures l < |s.rx.threads| && A.Carried(s.world.conns, s.rx.threads[l].conn, Takes(s, Transfer(l, acked), l)[0])
  {
    hide R.Enabled, A.PoolOk, A.QuietOk, A.CopiesOk, A.LogOk;
    var h := s.rx.threads[l].conn;
    var c := s.world.conns[h];
    assert c.fwd[0] in c.received + c.fwd;
    W.SentFirst(c, c.fwd[0]);
  }

  /** What a listener received was sent on its connection. */
  lemma {:induction false} TookCarried(maxAgeMs: uint32, ss: seq<System>, es: seq<Event>, i: nat, l: nat, m: Copy)
    requires IsRun(maxAgeMs, ss, es) && i < |ss| && m in Took(maxAgeMs, ss, es, i, l)
    ensures l < |ss[i].rx.threads| && A.Carried(ss[i].world.conns, ss[i].rx.threads[l].conn, m)
  {
    hide Enabled, Apply, A.Inv, A.Carried, Takes, RxOk, Joint;
    var s, e := ss[i - 1], es[i - 1];
    RunInv(maxAgeMs, ss, es, i - 1);
    TakesNothing(s, e, l);
    if m in Took(maxAgeMs, ss, es, i - 1, l) {
      TookCarried(maxAgeMs, ss, es, i - 1, l, m);
    } else {
      OneTaken(s, e, l);
      TransferCarries(s, l, e.acked);
    }
    Stays(maxAgeMs, ss, es, i - 1, i, s.rx.threads[l].conn, l);
    CarriedStep(s, e, s.rx.threads[l].conn, m);
  }

  lemma OneTaken(s: System, e: Event, l: nat)
    requires Enabled(s, e) && Takes(s, e, l) != []
    ensures e.Transfer? && e.l == l && |Takes(s, e, l)| == 1
  {
  }

  ghost predicate IsDeliver(e: Event) {
    e.Receiving? && e.receive.OnListener? && e.receive.listener.Deliver?
  }

  lemma NothingGiven(s: System, e: Event, l: nat)
    requires Enabled(s, e) && !IsDeliver(e)
    ensures GivenIn(s, e) == [] && Gives(s, e, l) == []
  {
    hide A.Enabled, R.Enabled;
  }

  lemma OneGiven(s: System, e: Event, l: nat) returns (k: nat, m: Copy)
    requires Enabled(s, e) && IsDeliver(e)
    ensures GivenIn(s, e) == [m] && Gives(s, e, l) == (if k == l then Ours(m) else []) && Hand(s.rx, k) == Ours(m)
    ensures k < |s.rx.threads|
  {
    k := e.receive.l;
    m := s.rx.threads[k].pc.bundle;
  }

  /** A bundle in a listener's hand counts for connection `h` exactly if the listener serves it. */
  lemma CountsForItsConn(maxAgeMs: uint32, ss: seq<System>, es: seq<Event>, i: nat, j: nat, h: Handle, l: nat,
                         k: nat, m: Copy)
    requires IsRun(maxAgeMs, ss, es) && i < j < |ss| && OnlyServes(ss[j].rx, h, l)
    requires k < |ss[i].rx.threads| && Hand(ss[i].rx, k) == Ours(m)
    ensures A.Carried(ss[j].world.conns, h, m) <==> m.Copy? && k == l
  {
    hide IsRun, A.Inv, A.Carried, Hand, RxOk, Joint;
    RunInv(maxAgeMs, ss, es, j);
    if m.Copy? {
      InHandCarried(maxAgeMs, ss, es, i, k, m);
      CarriedStays(maxAgeMs, ss, es, i, j, ss[i].rx.threads[k].conn, m);
      Stays(maxAgeMs, ss, es, i, j, h, k);
      OneCarrier(ss[j].world, h, ss[i].rx.threads[k].conn, m);
    } else {
      ForeignIsNotCarried(ss[j].world, h, m);
    }
  }

  lemma GivenStep(maxAgeMs: uint32, ss: seq<System>, es: seq<Event>, i: nat, j: nat, h: Handle, l: nat)
    requires IsRun(maxAgeMs, ss, es) && i < j < |ss| && OnlyServes(ss[j].rx, h, l)
    ensures OfConn(ss[j].world.conns, h, GivenIn(ss[i], es[i])) == Gives(ss[i], es[i], l)
  {
    hide Enabled, Apply, GivenIn, Gives, Hand, OnlyServes, A.Carried;
    if IsDeliver(es[i]) {
      var k, m := OneGiven(ss[i], es[i], l);
      CountsForItsConn(maxAgeMs, ss, es, i, j, h, l, k, m);
      assert [m] == [] + [m];
      OfConnSnoc(ss[j].world.conns, h, [], m);
    } else {
      NothingGiven(ss[i], es[i], l);
    }
  }

  lemma InHandCarried(maxAgeMs: uint32, ss: seq<System>, es: seq<Event>, i: nat, k: nat, m: Copy)
    requires IsRun(maxAgeMs, ss, es) && i < |ss| && Hand(ss[i].rx, k) == [m]
    ensures k < |ss[i].rx.threads| && A.Carried(ss[i].world.conns, ss[i].rx.threads[k].conn, m)
  {
    hide Enabled, Apply, Hand;
    ListenerKeepsOrder(maxAgeMs, ss, es, i, k);
    var gave := Gave(maxAgeMs, ss, es, i, k);
    assert (gave + [m])[|gave|] == m;
    TookCarried(maxAgeMs, ss, es, i, k, m);
  }

  lemma OneCarrier(w: A.World, h: Handle, h': Handle, m: Copy)
    requires A.Inv(w) && A.Carried(w.conns, h', m)
    ensures A.Carried(w.conns, h, m) <==> h == h'
  {
  }

  lemma ForeignIsNotCarried(w: A.World, h: Handle, m: Copy)
    requires A.Inv(w) && m.Foreign?
    ensures !A.Carried(w.conns, h, m)
  {
    assert A.Carried(w.conns, h, m) ==> A.Used(m, w.sends, A.NextAttempt(w));
  }

  /** Of all bundles delivered, those of a connection are the ones its listener delivered. */
  lemma {:induction false} GivenOfConn(maxAgeMs: uint32, ss: seq<System>, es: seq<Event>, i: nat, j: nat, h: Handle,
                                       l: nat)
    requires IsRun(maxAgeMs, ss, es) && i <= j < |ss| && OnlyServes(ss[j].rx, h, l)
    ensures OfConn(ss[j].world.conns, h, AllGiven(maxAgeMs, ss, es, i)) == Gave(maxAgeMs, ss, es, i, l)
    decreases i
  {
    hide Enabled, Apply, GivenIn, Gives, OnlyServes;
    if i > 0 {
      GivenOfConn(maxAgeMs, ss, es, i - 1, j, h, l);
      GivenStep(maxAgeMs, ss, es, i - 1, j, h, l);
      OfConnConcat(ss[j].world.conns, h, AllGiven(maxAgeMs, ss, es, i - 1), GivenIn(ss[i - 1], es[i - 1]));
    }
  }

  /**
   * Order from sender to reader: with streams one after another and no close or panic, the
   * bundles of a connection that were read, among those of all connections, are the first ones
   * received on it, in the order they were sent.
   */
  lemma ReadInSendOrder(maxAgeMs: uint32, ss: seq<System>, es: seq<Event>, i: nat, h: Handle, l: nat)
    requires IsRun(maxAgeMs, ss, es) && i < |ss| && forall k :: 0 <= k < i ==> Calm(ss[k], es[k])
    requires OnlyServes(ss[i].rx, h, l) && Local(ss[i], h)
    ensures var read := OfConn(ss[i].world.conns, h, AllRead(maxAgeMs, ss, es, i));
            read <= ss[i].world.conns[h].received && W.InTurn(read)
  {
    hide IsRun, Calm, Hand, OnlyServes, O.InStore, OfConn, W.InTurn, AllRead, AllGiven, Gave;
    var conns, read, store := ss[i].world.conns, AllRead(maxAgeMs, ss, es, i), O.InStore(ss[i].rx.hub);
    ReadsWhatIsGiven(maxAgeMs, ss, es, i);
    GivenOfConn(maxAgeMs, ss, es, i, i, h, l);
    ConnectionInOrder(maxAgeMs, ss, es, i, h, l);
    OfConnConcat(conns, h, read, store);
    FirstOnes(OfConn(conns, h, read), OfConn(conns, h, store), Hand(ss[i].rx, l), conns[h].received);
  }

  lemma FirstOnes(read: seq<Copy>, store: seq<Copy>, hand: seq<Copy>, received: seq<Copy>)
    requires (read + store) + hand == received && W.InTurn(received)
    ensures read <= received && W.InTurn(read)
  {
    assert forall a :: 0 <= a < |read| ==> read[a] == received[a];
  }
}
