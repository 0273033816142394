/** Shutting the link down is final, and is never taken for a failure. */
module LinkShutdown {
  import opened Base
  import H = Hub
  import R = Receiver
  import C = ReceiverCoupling
  import X = ReceiverClose
  import opened Link

  // ----- The lock and the flags -----

  ghost predicate MayOpen(pc: OpenPc) {
    pc.Inside? || pc.Subscribed?
  }

  ghost predicate ShutdownOk(s: State, c: nat) {
    c in s.shutdowns ==>
      && s.closed && (s.shutdowns[c] != Locked ==> s.flag)
      && (s.shutdowns[c] != Returned ==> s.holder == Some(ByShutdown(c)))
  }

  /** A stream is opened under the lock, while the link is not closed. */
  ghost predicate OpenerOk(s: State, o: nat) {
    o in s.openers ==>
      && (MayOpen(s.openers[o]) ==> s.holder == Some(ByOpener(o)) && !s.closed)
      && (s.openers[o] == Refused ==> s.closed)
  }

  ghost predicate LoopOk(s: State, n: nat) {
    n in s.loops && s.loops[n].pc == Over ==> s.closed
  }

  ghost predicate FlagsOk(s: State) {
    && (s.flag ==> s.closed)
    && (s.holder.Some? && s.holder.value.ByOpener? ==> s.holder.value.o in s.openers)
    && (forall c :: ShutdownOk(s, c))
    && (forall o :: OpenerOk(s, o))
    && (forall n :: LoopOk(s, n))
  }

  lemma ShutFlags(s: State, c: nat, e: ShutEvent)
    requires FlagsOk(s) && ShutEnabled(s, c, e)
    ensures FlagsOk(ApplyShut(s, c, e))
  {
    var s' := ApplyShut(s, c, e);
    assert ShutdownOk(s, c);
    forall d
      ensures ShutdownOk(s', d)
    {
      assert ShutdownOk(s, d);
    }
    forall o
      ensures OpenerOk(s', o)
    {
      assert OpenerOk(s, o);
    }
    forall n
      ensures LoopOk(s', n)
    {
      assert LoopOk(s, n);
    }
  }

  lemma OpenFlags(s: State, o: nat, e: OpenEvent)
    requires FlagsOk(s) && OpenEnabled(s, o, e)
    ensures FlagsOk(ApplyOpen(s, o, e))
  {
    var s' := ApplyOpen(s, o, e);
    assert OpenerOk(s, o);
    forall d
      ensures ShutdownOk(s', d)
    {
      assert ShutdownOk(s, d);
    }
    forall p
      ensures OpenerOk(s', p)
    {
      assert OpenerOk(s, p);
    }
    forall n
      ensures LoopOk(s', n)
    {
      assert LoopOk(s, n);
    }
  }

  lemma LoopFlags(s: State, n: nat, e: LoopEvent)
    requires FlagsOk(s) && LoopEnabled(s, n, e)
    ensures FlagsOk(ApplyLoop(s, n, e))
  {
    var s' := ApplyLoop(s, n, e);
    forall d
      ensures ShutdownOk(s', d)
    {
      assert ShutdownOk(s, d);
    }
    forall p
      ensures OpenerOk(s', p)
    {
      assert OpenerOk(s, p);
    }
    forall m
      ensures LoopOk(s', m)
    {
      assert LoopOk(s, m);
      if e.TakeRefusal? {
        assert OpenerOk(s, s.loops[n].pc.o);
      }
    }
  }

  lemma StepFlags(s: State, e: Event)
    requires FlagsOk(s) && Enabled(s, e)
    ensures FlagsOk(Apply(s, e))
  {
    hide FlagsOk, ApplyShut, ApplyOpen, ApplyLoop, R.Apply, R.Enabled;
    match e {
      case OnShutdown(c, se) => ShutFlags(s, c, se);
      case OnOpener(o, oe) => OpenFlags(s, o, oe);
      case OnLoop(n, le) => LoopFlags(s, n, le);
      case Inbound(_) =>
    }
    RxIrrelevant(ApplyOwn(s, e), RxAfter(s, e));
  }

  lemma RxIrrelevant(s: State, rx: R.State)
    requires FlagsOk(s)
    ensures FlagsOk(s.(rx := rx))
  {
    var s' := s.(rx := rx);
    forall c
      ensures ShutdownOk(s', c)
    {
      assert ShutdownOk(s, c);
    }
    forall o
      ensures OpenerOk(s', o)
    {
      assert OpenerOk(s, o);
    }
    forall n
      ensures LoopOk(s', n)
    {
      assert LoopOk(s, n);
    }
  }

  lemma {:induction false} RunFlags(ss: seq<State>, es: seq<Event>, i: nat)
    requires IsRun(ss, es) && i < |ss|
    ensures FlagsOk(ss[i])
  {
    hide Apply, Enabled;
    if i > 0 {
      RunFlags(ss, es, i - 1);
      StepFlags(ss[i - 1], es[i - 1]);
    }
  }

  // ----- What the receiver's steps leave alone -----

  /** The receiver's own threads open no stream and take part in no close. */
  lemma OwnFrame(s: R.State, e: R.Event)
    requires R.Enabled(s, e) && Own(e)
    ensures var s' := R.Apply(s, e);
            s'.claimed == s.claimed && s'.failing == s.failing && s'.closers == s.closers
  {
    hide R.ApplyAccept, R.ApplyListener;
    match e
    case OnAccept(t, ae) => C.AcceptFrame(s, t, ae);
    case OnListener(l, le) => C.ListenerFrame(s, l, le);
    case Tick(_) =>
  }

  lemma StreamFrame(s: R.State, e: R.StreamEvent)
    requires R.StreamEnabled(s, e)
    ensures var s' := R.ApplyStream(s, e);
            && s'.closers == s.closers
            && s'.claimed <= s.claimed + (if e.Subscribe? then {|s.hub.channels|} else {})
            && s'.failing <= s.failing + (if e.SpawnAcceptFails? then {e.id} else {})
            && (e.SpawnAcceptFails? ==> e.id in s.claimed)
  {
    hide H.Subscribe, H.AcceptFailed, H.Push, H.Read, H.Unsubscribe;
  }

  /** Only `subscribe` adds a subscriber to none. */
  lemma StaysUnsubscribed(s: R.State, e: R.Event)
    requires C.Coupled(s) && R.Enabled(s, e) && e != R.OnStream(R.Subscribe) && s.hub.subscribers == []
    ensures R.Apply(s, e).hub.subscribers == []
  {
    hide R.Apply;
    X.OnlySubscribeResumes(s, e);
    C.StepCoupled(s, e);
  }

  // ----- Streams being opened, and closes in progress -----

  /** The lock holder is opening stream `id`. */
  ghost predicate OpenedUnderLock(s: State, id: nat) {
    && s.holder.Some? && s.holder.value.ByOpener?
    && s.holder.value.o in s.openers && s.openers[s.holder.value.o] == Subscribed(id)
  }

  ghost predicate ClaimsOk(s: State) {
    forall id :: id in s.rx.claimed || id in s.rx.failing ==> OpenedUnderLock(s, id)
  }

  ghost predicate ClosersOk(s: State) {
    forall c :: c in s.rx.closers ==> c in s.shutdowns && s.shutdowns[c] == Closing
  }

  /** A shutdown has begun to close the socket. */
  ghost predicate Ending(s: State) {
    exists c :: c in s.shutdowns && (s.shutdowns[c] == Closing || s.shutdowns[c] == Returned)
  }

  /** It has closed it. */
  ghost predicate Done(s: State) {
    exists c :: c in s.shutdowns && s.shutdowns[c] == Returned
  }

  lemma ClosedToOpeners(s: State)
    requires FlagsOk(s) && s.closed
    ensures forall o :: o in s.openers ==> !MayOpen(s.openers[o])
  {
    forall o | o in s.openers
      ensures !MayOpen(s.openers[o])
    {
      assert OpenerOk(s, o);
    }
  }

  lemma NobodyOpens(s: State)
    requires FlagsOk(s) && ClaimsOk(s) && s.closed
    ensures s.rx.claimed == {} && s.rx.failing == {}
  {
    ClosedToOpeners(s);
  }

  lemma SameClaims(s: State, s': State)
    requires ClaimsOk(s) && s'.rx.claimed <= s.rx.claimed && s'.rx.failing <= s.rx.failing
    requires forall id :: OpenedUnderLock(s, id) ==> OpenedUnderLock(s', id)
    ensures ClaimsOk(s')
  {
  }

  /** An opener in `subscribe` holds the lock; one that finishes it has nothing left to claim. */
  lemma OpenClaims(s: State, o: nat, e: OpenEvent)
    requires FlagsOk(s) && ClaimsOk(s) && Enabled(s, OnOpener(o, e))
    ensures ClaimsOk(Apply(s, OnOpener(o, e)))
  {
    hide R.ApplyStream, R.StreamEnabled, FlagsOk;
    var s', re := Apply(s, OnOpener(o, e)), RxOpener(s.openers[o], e);
    HolderOpens(s, o);
    if re.Some? {
      StreamFrame(s.rx, re.value);
    }
    forall id | id in s'.rx.claimed || id in s'.rx.failing
      ensures OpenedUnderLock(s', id)
    {
      if id in s.rx.claimed || id in s.rx.failing {
        assert OpenedUnderLock(s, id);
      }
    }
  }

  lemma HolderOpens(s: State, o: nat)
    requires FlagsOk(s) && o in s.openers
    ensures MayOpen(s.openers[o]) ==> s.holder == Some(ByOpener(o))
  {
    assert OpenerOk(s, o);
  }

  lemma ShutClaims(s: State, c: nat, e: ShutEvent)
    requires FlagsOk(s) && ClaimsOk(s) && Enabled(s, OnShutdown(c, e))
    ensures ClaimsOk(Apply(s, OnShutdown(c, e)))
  {
    hide FlagsOk, H.BeginClose, H.EndClose;
    var s' := Apply(s, OnShutdown(c, e));
    if e.Return? {
      HolderShuts(s, c);
    }
    SameClaims(s, s');
  }

  lemma HolderShuts(s: State, c: nat)
    requires FlagsOk(s) && c in s.shutdowns
    ensures s.shutdowns[c] != Returned ==> s.holder == Some(ByShutdown(c))
    ensures s.closed && (s.shutdowns[c] != Locked ==> s.flag)
  {
    assert ShutdownOk(s, c);
  }

  lemma LoopClaims(s: State, n: nat, e: LoopEvent)
    requires FlagsOk(s) && ClaimsOk(s) && Enabled(s, OnLoop(n, e))
    ensures ClaimsOk(Apply(s, OnLoop(n, e)))
  {
    hide FlagsOk, R.ApplyStream, R.StreamEnabled;
    var s' := Apply(s, OnLoop(n, e));
    if n in s.loops && RxLoop(s.loops[n].pc, e).Some? {
      StreamFrame(s.rx, RxLoop(s.loops[n].pc, e).value);
    }
    SameClaims(s, s');
  }

  lemma StepClaims(s: State, e: Event)
    requires FlagsOk(s) && ClaimsOk(s) && Enabled(s, e)
    ensures ClaimsOk(Apply(s, e))
  {
    hide FlagsOk, Apply, R.Apply, R.Enabled;
    match e
    case OnShutdown(c, se) => ShutClaims(s, c, se);
    case OnOpener(o, oe) => OpenClaims(s, o, oe);
    case OnLoop(n, le) => LoopClaims(s, n, le);
    case Inbound(re) => InboundClaims(s, re);
  }

  lemma InboundClaims(s: State, re: R.Event)
    requires ClaimsOk(s) && Enabled(s, Inbound(re))
    ensures ClaimsOk(Apply(s, Inbound(re)))
  {
    hide R.Apply, R.Enabled;
    OwnFrame(s.rx, re);
    SameClaims(s, Apply(s, Inbound(re)));
  }

  /** Only shutdowns close, and only they set the flags. */
  lemma OthersDoNotShut(s: State, e: Event)
    requires Enabled(s, e) && !e.OnShutdown?
    ensures Apply(s, e).shutdowns == s.shutdowns && Apply(s, e).closed == s.closed && Apply(s, e).flag == s.flag
  {
    hide R.Apply, R.Enabled, RxEvent, ApplyOpen, ApplyLoop, OpenEnabled, LoopEnabled;
    match e
    case OnOpener(o, oe) => OpenerFrame(s, o, oe);
    case OnLoop(n, le) => LoopFrame(s, n, le);
    case Inbound(_) =>
  }

  lemma OpenerFrame(s: State, o: nat, e: OpenEvent)
    requires OpenEnabled(s, o, e)
    ensures var s' := ApplyOpen(s, o, e); s' == s.(holder := s'.holder, openers := s'.openers)
  {
  }

  lemma LoopFrame(s: State, n: nat, e: LoopEvent)
    requires LoopEnabled(s, n, e)
    ensures var s' := ApplyLoop(s, n, e); s' == s.(openers := s'.openers, loops := s'.loops)
  {
  }

  function ShutAfter(e: ShutEvent): ShutPc {
    match e
    case Lock => Locked
    case Flag => Flagged
    case CloseRx(_) => Closing
    case Return => Returned
  }

  /** A shutdown moves itself only. */
  lemma ShutMoves(s: State, c: nat, e: ShutEvent)
    requires Enabled(s, OnShutdown(c, e))
    ensures var s' := Apply(s, OnShutdown(c, e));
            && c in s'.shutdowns && s'.shutdowns == s.shutdowns[c := s'.shutdowns[c]]
            && s'.shutdowns[c] == ShutAfter(e)
            && (e.Lock? ==> c !in s.shutdowns) && (e.Flag? ==> c in s.shutdowns && s.shutdowns[c] == Locked)
            && (e.CloseRx? ==> c in s.shutdowns && s.shutdowns[c] == if e.close.BeginClose? then Flagged else Closing)
            && (e.Return? ==> c in s.shutdowns && s.shutdowns[c] == Closing && c !in s.rx.closers)
            && s'.rx.closers == (if e.CloseRx? then R.ApplyClose(s.rx, c, e.close) else s.rx).closers
            && (e.CloseRx? ==> R.CloseEnabled(s.rx, c, e.close))
  {
    hide R.ApplyClose, R.CloseEnabled;
  }

  lemma OthersDoNotClose(s: State, e: Event)
    requires Enabled(s, e) && !e.OnShutdown?
    ensures Apply(s, e).rx.closers == s.rx.closers
  {
    hide ApplyOwn, R.ApplyStream, R.ApplyAccept, R.ApplyListener, R.StreamEnabled, R.AcceptEnabled, R.ListenerEnabled;
    match e
    case OnOpener(o, oe) =>
      if RxOpener(s.openers[o], oe).Some? {
        StreamFrame(s.rx, RxOpener(s.openers[o], oe).value);
      }
    case OnLoop(n, le) =>
      if n in s.loops && RxLoop(s.loops[n].pc, le).Some? {
        StreamFrame(s.rx, RxLoop(s.loops[n].pc, le).value);
      }
    case Inbound(re) => OwnFrame(s.rx, re);
  }

  lemma StepClosers(s: State, e: Event)
    requires ClosersOk(s) && Enabled(s, e)
    ensures ClosersOk(Apply(s, e))
  {
    hide Apply, Enabled, H.BeginClose, H.EndClose;
    if e.OnShutdown? {
      ShutMoves(s, e.c, e.shut);
    } else {
      OthersDoNotClose(s, e);
      OthersDoNotShut(s, e);
    }
  }

  // ----- Shutdown is final -----

  /** Everything known about a reachable state of the link. */
  ghost predicate Inv(s: State) {
    FlagsOk(s) && ClaimsOk(s) && ClosersOk(s) && C.Coupled(s.rx) && X.SocketOk(s.rx)
  }

  lemma {:induction false} RunInv(ss: seq<State>, es: seq<Event>, i: nat)
    requires IsRun(ss, es) && i < |ss|
    ensures Inv(ss[i])
  {
    hide Apply, Enabled, FlagsOk, C.Coupled, X.SocketOk, R.IsRun;
    RunFlags(ss, es, i);
    var rs, res := LinkRunsReceiver(ss, es, i);
    RunSizes(rs, res);
    C.RunCoupled(rs, res, |rs| - 1);
    X.RunSocket(rs, res, |rs| - 1);
    if i > 0 {
      RunInv(ss, es, i - 1);
      StepClaims(ss[i - 1], es[i - 1]);
      StepClosers(ss[i - 1], es[i - 1]);
    }
  }

  lemma RunSizes(rs: seq<R.State>, res: seq<R.Event>)
    requires R.IsRun(rs, res)
    ensures |rs| > 0
  {
  }

  /** Once the link is closed, no step opens a stream. */
  lemma NoSubscribe(s: State, e: Event)
    requires FlagsOk(s) && s.closed && Enabled(s, e)
    ensures RxEvent(s, e) != Some(R.OnStream(R.Subscribe))
  {
    ClosedToOpeners(s);
  }

  lemma EndingIsClosed(s: State)
    requires FlagsOk(s) && Ending(s)
    ensures s.closed && s.flag
  {
    var c :| c in s.shutdowns && (s.shutdowns[c] == Closing || s.shutdowns[c] == Returned);
    HolderShuts(s, c);
  }

  ghost predicate EndingOk(s: State) {
    Ending(s) ==> s.rx.hub.subscribers == []
  }

  lemma BecomesEnding(s: State, e: Event)
    requires Enabled(s, e) && !Ending(s) && Ending(Apply(s, e))
    ensures e.OnShutdown? && e.shut == CloseRx(R.BeginClose)
  {
    hide Apply, Enabled, R.ApplyClose, R.CloseEnabled;
    if e.OnShutdown? {
      ShutMoves(s, e.c, e.shut);
    } else {
      OthersDoNotShut(s, e);
    }
  }

  lemma StepEnding(s: State, e: Event)
    requires Inv(s) && EndingOk(s) && Enabled(s, e)
    ensures EndingOk(Apply(s, e))
  {
    hide FlagsOk, ClaimsOk, ClosersOk, C.Coupled, R.Apply, R.Enabled, ApplyOwn, Enabled;
    if Ending(s) {
      EndingIsClosed(s);
      NoSubscribe(s, e);
      RxStep(s, e);
      if RxEvent(s, e).Some? {
        StaysUnsubscribed(s.rx, RxEvent(s, e).value);
      }
    } else if Ending(Apply(s, e)) {
      BecomesEnding(s, e);
      CloseUnsubscribes(s, e.c);
    }
  }

  lemma CloseUnsubscribes(s: State, c: nat)
    requires Enabled(s, OnShutdown(c, CloseRx(R.BeginClose)))
    ensures Apply(s, OnShutdown(c, CloseRx(R.BeginClose))).rx.hub.subscribers == []
  {
  }

  /** Shutdown `c` has cleared the socket. */
  ghost predicate HasCleared(s: State, c: nat) {
    && c in s.shutdowns
    && (s.shutdowns[c] == Returned
        || (s.shutdowns[c] == Closing && (c in s.rx.closers ==> s.rx.closers[c] in {R.Cleared, R.Released})))
  }

  ghost predicate SocketGone(s: State) {
    (exists c :: HasCleared(s, c)) ==> !s.rx.socketOpen
  }

  /** A shutdown has cleared the socket from its own step on. */
  lemma BecomesCleared(s: State, e: Event, c: nat)
    requires ClosersOk(s) && Enabled(s, e) && !HasCleared(s, c) && HasCleared(Apply(s, e), c)
    ensures RxEvent(s, e) == Some(R.OnClose(c, R.ClearSocket))
  {
    hide Apply, Enabled, H.BeginClose, H.EndClose;
    if e.OnShutdown? {
      ShutMoves(s, e.c, e.shut);
    } else {
      OthersDoNotShut(s, e);
      OthersDoNotClose(s, e);
    }
  }

  lemma StepSocketGone(s: State, e: Event)
    requires Inv(s) && EndingOk(s) && SocketGone(s) && Enabled(s, e)
    ensures SocketGone(Apply(s, e))
  {
    hide FlagsOk, ClaimsOk, ClosersOk, C.Coupled, R.Apply, R.Enabled, ApplyOwn, HasCleared, X.SocketOk, Enabled;
    RxStep(s, e);
    if c :| HasCleared(Apply(s, e), c) {
      if HasCleared(s, c) {
        ClearedIsEnding(s, c);
        EndingIsClosed(s);
        NoSubscribe(s, e);
        NotReceiving(s.rx);
        if RxEvent(s, e).Some? {
          X.StaysClosed(s.rx, RxEvent(s, e).value);
        }
      } else {
        BecomesCleared(s, e, c);
        ClearCloses(s.rx, c);
      }
    }
  }

  lemma ClearedIsEnding(s: State, c: nat)
    requires HasCleared(s, c)
    ensures Ending(s)
  {
  }

  lemma NotReceiving(rx: R.State)
    requires C.Coupled(rx)
    ensures rx.hub.subscribers == [] <==> !H.IsReceiving(rx.hub)
  {
  }

  lemma ClearCloses(rx: R.State, c: nat)
    requires R.Enabled(rx, R.OnClose(c, R.ClearSocket))
    ensures !R.Apply(rx, R.OnClose(c, R.ClearSocket)).socketOpen
  {
  }

  lemma {:induction false} RunEnding(ss: seq<State>, es: seq<Event>, i: nat)
    requires IsRun(ss, es) && i < |ss|
    ensures EndingOk(ss[i]) && SocketGone(ss[i])
  {
    hide Apply, Enabled, Inv, EndingOk;
    if i == 0 {
      InitEnding(ss[0].rx.now);
    } else {
      RunEnding(ss, es, i - 1);
      RunInv(ss, es, i - 1);
      StepEnding(ss[i - 1], es[i - 1]);
      StepSocketGone(ss[i - 1], es[i - 1]);
    }
  }

  lemma InitEnding(now: H.Time)
    ensures EndingOk(Init(now))
  {
  }

  lemma StepDone(s: State, e: Event)
    requires Enabled(s, e)
    ensures Ending(s) ==> Ending(Apply(s, e))
    ensures Done(s) ==> Done(Apply(s, e))
  {
    hide Apply, Enabled, R.ApplyClose, R.CloseEnabled;
    var s' := Apply(s, e);
    if e.OnShutdown? {
      ShutMoves(s, e.c, e.shut);
    } else {
      OthersDoNotShut(s, e);
    }
    forall c | c in s.shutdowns
      ensures c in s'.shutdowns
      ensures s.shutdowns[c] == Returned ==> s'.shutdowns[c] == Returned
      ensures s.shutdowns[c] == Closing ==> s'.shutdowns[c] == Closing || s'.shutdowns[c] == Returned
    {
    }
  }

  lemma {:induction false} DoneStays(ss: seq<State>, es: seq<Event>, i: nat, j: nat)
    requires IsRun(ss, es) && i <= j < |ss|
    ensures Ending(ss[i]) ==> Ending(ss[j])
    ensures Done(ss[i]) ==> Done(ss[j])
    decreases j
  {
    hide Apply, Enabled, Ending, Done;
    if i < j {
      DoneStays(ss, es, i, j - 1);
      StepDone(ss[j - 1], es[j - 1]);
    }
  }

  /**
   * Shutdown is final: after `shutdown` returned there is never a subscriber again, nor a
   * stream being opened, the receive socket stays closed, and no thread is in the C accept.
   */
  lemma ShutdownIsFinal(ss: seq<State>, es: seq<Event>, i: nat, j: nat)
    requires IsRun(ss, es) && i <= j < |ss| && Done(ss[i])
    ensures var rx := ss[j].rx;
            && rx.hub.subscribers == [] && rx.claimed == {} && rx.failing == {}
            && !rx.socketOpen && !X.SomeoneAccepts(rx)
  {
    hide Apply, Enabled, IsRun, FlagsOk, ClaimsOk, ClosersOk, C.Coupled;
    DoneStays(ss, es, i, j);
    RunInv(ss, es, j);
    RunEnding(ss, es, j);
    var c :| c in ss[j].shutdowns && ss[j].shutdowns[c] == Returned;
    assert HasCleared(ss[j], c);
    EndingIsClosed(ss[j]);
    NobodyOpens(ss[j]);
  }
}
