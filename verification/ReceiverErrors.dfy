/** Errors are reported, each once; and a listener whose thread could not start reads nothing. */
module ReceiverErrors {
  import H = Hub
  import T = ListenerTable
  import opened Receiver
  import C = ReceiverCoupling
  import B = ReceiverBounds
  import V = ReceiverConservation
  import Z = ReceiverStop

  // ----- The accept thread -----

  /** The accept failed, could not open the socket, or its connection's listener did not start. */
  ghost predicate Fault(s: State, e: Event) {
    && e.OnAccept?
    && match e.accept
       case AcceptReturns(arrival) => arrival == ArrivalError
       case SeeSpawnFailure => true
       case CheckReceiving(opens) => H.IsReceiving(s.hub) && !s.socketOpen && !opens
       case _ => false
  }

  ghost predicate Reports(e: Event) {
    e.OnAccept? && e.accept.ReportError?
  }

  /** A fault is waiting to be reported. */
  ghost predicate Faulty(s: State) {
    exists t :: t in s.acceptors && s.acceptors[t] == Erring
  }

  ghost function Faults(ss: seq<State>, es: seq<Event>, i: nat): nat
    requires i <= |es| <= |ss|
  {
    if i == 0 then 0 else Faults(ss, es, i - 1) + if Fault(ss[i - 1], es[i - 1]) then 1 else 0
  }

  ghost function Reported(es: seq<Event>, i: nat): nat
    requires i <= |es|
  {
    if i == 0 then 0 else Reported(es, i - 1) + if Reports(es[i - 1]) then 1 else 0
  }

  lemma AcceptErrs(s: State, t: nat, e: AcceptEvent)
    requires AcceptEnabled(s, t, e)
    ensures var s' := ApplyAccept(s, t, e);
            && (t in s'.acceptors && s'.acceptors[t] == Erring <==> Fault(s, OnAccept(t, e)))
            && (s.acceptors[t] == Erring <==> e.ReportError?)
  {
    hide T.Supersede, T.MayAccept, T.Register, H.Deliver, H.AcceptPanicked;
  }

  lemma AcceptFaulty(s: State, t: nat, e: AcceptEvent)
    requires C.OneAccepter(s) && AcceptEnabled(s, t, e)
    ensures Faulty(ApplyAccept(s, t, e)) <==> Fault(s, OnAccept(t, e))
    ensures Faulty(s) <==> e.ReportError?
  {
    hide ApplyAccept, Fault;
    AcceptErrs(s, t, e);
    C.AcceptMoves(s, t, e);
  }

  lemma StepFaulty(s: State, e: Event)
    requires C.OneAccepter(s) && Enabled(s, e)
    ensures e.OnAccept? ==> (Faulty(Apply(s, e)) <==> Fault(s, e)) && (Faulty(s) <==> Reports(e))
    ensures !e.OnAccept? ==> (Faulty(Apply(s, e)) <==> Faulty(s))
  {
    hide ApplyStream, ApplyClose, ApplyAccept, ApplyListener, Fault;
    match e
    case OnStream(se) => StreamFaulty(s, se);
    case OnClose(c, ce) => B.ClosePlace(s, c, ce);
    case OnAccept(t, ae) => AcceptFaulty(s, t, ae);
    case OnListener(l, le) => C.ListenerFrame(s, l, le);
    case Tick(_) =>
  }

  lemma StreamFaulty(s: State, e: StreamEvent)
    requires StreamEnabled(s, e)
    ensures Faulty(ApplyStream(s, e)) <==> Faulty(s)
  {
    hide ApplyStream;
    B.StreamPlace(s, e);
    if t :| t in s.acceptors && s.acceptors[t] == Erring {
      assert t in ApplyStream(s, e).acceptors && ApplyStream(s, e).acceptors[t] == Erring;
    }
  }

  /** In every run, the accept thread reports each fault once, before it does anything else. */
  lemma {:induction false} FaultsAreReported(ss: seq<State>, es: seq<Event>, i: nat)
    requires IsRun(ss, es) && i < |ss|
    ensures Faults(ss, es, i) == Reported(es, i) + if Faulty(ss[i]) then 1 else 0
  {
    hide Apply, Enabled, Fault, Faulty, C.OneAccepter, C.HubOk, C.LockOk, C.OpeningOk;
    if i == 0 {
      NoFault(ss[0].now);
    } else {
      FaultsAreReported(ss, es, i - 1);
      C.RunCoupled(ss, es, i - 1);
      StepFaulty(ss[i - 1], es[i - 1]);
      OnlyAccept(ss[i - 1], es[i - 1]);
    }
  }

  lemma OnlyAccept(s: State, e: Event)
    ensures !e.OnAccept? ==> !Fault(s, e)
  {
  }

  lemma NoFault(now: H.Time)
    ensures !Faulty(Init(now))
  {
  }

  // ----- Listeners -----

  ghost function ReadErrors(es: seq<Event>, i: nat, l: nat): nat
    requires i <= |es|
  {
    if i == 0 then 0 else ReadErrors(es, i - 1, l) + if es[i - 1] == OnListener(l, Receive(Error)) then 1 else 0
  }

  ghost function ErrorReports(es: seq<Event>, i: nat, l: nat): nat
    requires i <= |es|
  {
    if i == 0 then 0 else ErrorReports(es, i - 1, l) + if es[i - 1] == OnListener(l, DeliverError) then 1 else 0
  }

  ghost predicate Failing(s: State, l: nat) {
    l < |s.threads| && s.threads[l].pc == HasError
  }

  lemma ListenerFailing(s: State, k: nat, e: ListenerEvent, l: nat)
    requires ListenerEnabled(s, k, e)
    ensures k == l ==> (Failing(ApplyListener(s, k, e), l) <==> e == Receive(Error))
    ensures k == l ==> (Failing(s, l) <==> e.DeliverError?)
    ensures k != l ==> (Failing(ApplyListener(s, k, e), l) <==> Failing(s, l))
  {
    hide H.Deliver;
  }

  lemma AcceptFailing(s: State, t: nat, e: AcceptEvent, l: nat)
    requires AcceptEnabled(s, t, e) && B.TableOk(s)
    ensures Failing(ApplyAccept(s, t, e), l) <==> Failing(s, l)
  {
    hide ApplyAccept, B.TableOk;
    if e.Register? {
      RegisterFailing(s, t, l);
    } else if e.SpawnListener? {
      SpawnFailing(s, t, e.ok, l);
    } else {
      Z.AcceptThreads(s, t, e);
    }
  }

  lemma RegisterFailing(s: State, t: nat, l: nat)
    requires AcceptEnabled(s, t, Register)
    ensures Failing(ApplyAccept(s, t, Register), l) <==> Failing(s, l)
  {
  }

  lemma SpawnFailing(s: State, t: nat, ok: bool, l: nat)
    requires AcceptEnabled(s, t, SpawnListener(ok)) && B.TableOk(s)
    ensures Failing(ApplyAccept(s, t, SpawnListener(ok)), l) <==> Failing(s, l)
  {
    hide B.TableOk;
    V.NotStartedYet(s, t);
  }

  lemma StepFailing(s: State, e: Event, l: nat)
    requires B.TableOk(s) && Enabled(s, e)
    ensures (if Failing(Apply(s, e), l) then 1 else 0) + (if e == OnListener(l, DeliverError) then 1 else 0)
            == (if Failing(s, l) then 1 else 0) + (if e == OnListener(l, Receive(Error)) then 1 else 0)
  {
    hide ApplyStream, ApplyClose, ApplyAccept, ApplyListener, B.TableOk;
    match e
    case OnStream(se) => B.StreamPlace(s, se);
    case OnClose(c, ce) => B.ClosePlace(s, c, ce);
    case OnAccept(t, ae) => AcceptFailing(s, t, ae, l);
    case OnListener(k, le) => ListenerFailing(s, k, le, l);
    case Tick(_) =>
  }

  /** In every run, a listener reports each failed read once. */
  lemma {:induction false} ReadErrorsAreReported(ss: seq<State>, es: seq<Event>, i: nat, l: nat)
    requires IsRun(ss, es) && i < |ss|
    ensures ReadErrors(es, i, l) == ErrorReports(es, i, l) + if Failing(ss[i], l) then 1 else 0
  {
    hide Apply, Enabled, B.TableOk;
    if i > 0 {
      ReadErrorsAreReported(ss, es, i - 1, l);
      B.RunTable(ss, es, i - 1);
      StepFailing(ss[i - 1], es[i - 1], l);
    }
  }

  // ----- A listener that did not start -----

  /** Out of its loop for good. */
  ghost predicate Gone(s: State, l: nat) {
    l < |s.threads| && s.threads[l].pc in {Leaving, ConnClosed, Done}
  }

  lemma ListenerGone(s: State, k: nat, e: ListenerEvent, l: nat)
    requires ListenerEnabled(s, k, e) && Gone(s, l)
    ensures Gone(ApplyListener(s, k, e), l)
    ensures k == l ==> e.CloseConn? || e.MarkDone?
  {
    hide H.Deliver;
  }

  lemma AcceptGone(s: State, t: nat, e: AcceptEvent, l: nat)
    requires AcceptEnabled(s, t, e) && B.TableOk(s) && Gone(s, l)
    ensures Gone(ApplyAccept(s, t, e), l)
  {
    hide ApplyAccept, B.TableOk;
    if e.Register? {
      RegisterGone(s, t, l);
    } else if e.SpawnListener? {
      SpawnGone(s, t, e.ok, l);
    } else {
      Z.AcceptThreads(s, t, e);
    }
  }

  lemma RegisterGone(s: State, t: nat, l: nat)
    requires AcceptEnabled(s, t, Register) && Gone(s, l)
    ensures Gone(ApplyAccept(s, t, Register), l)
  {
  }

  lemma SpawnGone(s: State, t: nat, ok: bool, l: nat)
    requires AcceptEnabled(s, t, SpawnListener(ok)) && B.TableOk(s) && Gone(s, l)
    ensures Gone(ApplyAccept(s, t, SpawnListener(ok)), l)
  {
    hide B.TableOk;
    V.NotStartedYet(s, t);
  }

  lemma StepGone(s: State, e: Event, l: nat)
    requires B.TableOk(s) && Enabled(s, e) && Gone(s, l)
    ensures Gone(Apply(s, e), l)
    ensures e.OnListener? && e.l == l ==> e.listener.CloseConn? || e.listener.MarkDone?
  {
    hide ApplyStream, ApplyClose, ApplyAccept, ApplyListener, B.TableOk;
    match e
    case OnStream(se) => B.StreamPlace(s, se);
    case OnClose(c, ce) => B.ClosePlace(s, c, ce);
    case OnAccept(t, ae) => AcceptGone(s, t, ae, l);
    case OnListener(k, le) => ListenerGone(s, k, le, l);
    case Tick(_) =>
  }

  lemma {:induction false} GoneForGood(ss: seq<State>, es: seq<Event>, i: nat, j: nat, l: nat)
    requires IsRun(ss, es) && i <= j < |ss| && Gone(ss[i], l)
    ensures Gone(ss[j], l)
    decreases j
  {
    hide Apply, Enabled, B.TableOk, Gone;
    if i < j {
      GoneForGood(ss, es, i, j - 1, l);
      B.RunTable(ss, es, j - 1);
      StepGone(ss[j - 1], es[j - 1], l);
    }
  }

  /**
   * In every run, a connection whose listener could not start is only closed and marked
   * finished: nothing is ever read from it.
   */
  lemma UnstartedReadsNothing(ss: seq<State>, es: seq<Event>, i: nat, t: nat, j: nat)
    requires IsRun(ss, es) && i < j < |es| && es[i] == OnAccept(t, SpawnListener(false))
    ensures var l := ss[i].acceptors[t].l;
            es[j].OnListener? && es[j].l == l ==> es[j].listener.CloseConn? || es[j].listener.MarkDone?
  {
    hide B.TableOk;
    var l := ss[i].acceptors[t].l;
    assert Gone(ss[i + 1], l);
    GoneForGood(ss, es, i + 1, j, l);
    B.RunTable(ss, es, j);
    StepGone(ss[j], es[j], l);
  }
}
