/**
 * How many inbound connections exist: never more than ten with the one being accepted, and
 * outside the moment between registering a connection and superseding others at most eight
 * that are not asked to close, all from different peers.
 */
module ReceiverBounds {
  import opened Base
  import opened Counting
  import H = Hub
  import T = ListenerTable
  import opened Receiver
  import C = ReceiverCoupling

  /** The table agrees with the threads. */
  ghost predicate Shape(s: State) {
    && |s.table| == |s.threads|
    && (forall i :: 0 <= i < |s.table| ==> (s.table[i].running <==> s.threads[i].pc != Done))
  }

  /** The listener a new connection was given, until it superseded others. */
  ghost predicate InWindow(pc: AcceptPc) {
    pc.Registered? || pc.Spawned? || pc.SpawnFailed?
  }

  ghost predicate WindowOk(s: State, pc: AcceptPc) {
    InWindow(pc) ==>
      && pc.l < |s.table| == |s.threads| && !s.table[pc.l].evicted
      && T.BoundedBut(s.table, pc.l)
      && (pc.Registered? <==> s.threads[pc.l].pc == NotStarted)
      && (pc.SpawnFailed? ==> s.threads[pc.l].pc in {Leaving, ConnClosed, Done})
  }

  /** A slot was found free and is not taken yet. */
  ghost predicate SlotReserved(pc: AcceptPc) {
    pc == WantLock || pc == Checking || pc == Accepting || pc.Accepted?
  }

  ghost predicate TableOk(s: State) {
    && Shape(s)
    && |T.Running(s.table)| <= T.MAX_OPEN
    && (forall t :: t in s.acceptors ==>
          && WindowOk(s, s.acceptors[t])
          && (SlotReserved(s.acceptors[t]) ==> |T.Running(s.table)| < T.MAX_OPEN))
    && ((forall t :: t in s.acceptors ==> !InWindow(s.acceptors[t])) ==> T.Bounded(s.table))
  }

  lemma InitTable(now: H.Time)
    ensures TableOk(Init(now))
  {
    assert T.Running([]) == {} && T.Kept([]) == {};
  }

  // ----- What the table's operations do to the counts -----

  /** `ls'` has the same connections in the same order, and none came back. */
  ghost predicate Fewer(ls: seq<T.State>, ls': seq<T.State>) {
    && |ls'| == |ls|
    && (forall i :: 0 <= i < |ls| ==>
          && ls'[i].key == ls[i].key
          && (ls'[i].running ==> ls[i].running)
          && (ls[i].evicted ==> ls'[i].evicted))
  }

  lemma FewerBounds(ls: seq<T.State>, ls': seq<T.State>)
    requires Fewer(ls, ls')
    ensures |T.Running(ls')| <= |T.Running(ls)|
    ensures T.Bounded(ls) ==> T.Bounded(ls')
    ensures forall k :: T.BoundedBut(ls, k) ==> T.BoundedBut(ls', k)
  {
    assert T.Running(ls') <= T.Running(ls);
    assert T.Kept(ls') <= T.Kept(ls);
    SubsetCount(T.Running(ls'), T.Running(ls));
    SubsetCount(T.Kept(ls'), T.Kept(ls));
    forall k | T.BoundedBut(ls, k)
      ensures T.BoundedBut(ls', k)
    {
      SubsetCount(T.Kept(ls') - {k}, T.Kept(ls) - {k});
    }
  }

  lemma RegisterBounds(ls: seq<T.State>, key: Dest, now: nat)
    requires T.Bounded(ls)
    ensures var ls', k := T.Register(ls, key, now), |ls|;
            T.BoundedBut(ls', k) && |T.Running(ls')| == |T.Running(ls)| + 1
  {
    var ls', k := T.Register(ls, key, now), |ls|;
    assert T.Running(ls') == T.Running(ls) + {k};
    assert T.Kept(ls') - {k} == T.Kept(ls);
  }

  lemma SupersedeFewer(ls: seq<T.State>, k: nat)
    requires k < |ls|
    ensures Fewer(ls, T.Supersede(ls, k)) && T.Running(T.Supersede(ls, k)) == T.Running(ls)
    ensures forall i :: 0 <= i < |ls| ==> T.Supersede(ls, k)[i].running == ls[i].running
  {
    hide T.LeastRecent, T.Kept;
  }

  // ----- Every step -----

  /** Only `table` and `threads` matter, if the accept thread did not move. */
  lemma Unmoved(s: State, s': State)
    requires TableOk(s) && s'.acceptors == s.acceptors && Shape(s') && Fewer(s.table, s'.table)
    requires forall t :: t in s.acceptors ==> WindowOk(s', s.acceptors[t])
    ensures TableOk(s')
  {
    hide T.Running, T.Bounded, WindowOk, Fewer;
    FewerBounds(s.table, s'.table);
  }

  lemma SamePlace(s: State, s': State)
    requires TableOk(s) && s'.acceptors == s.acceptors && s'.table == s.table && s'.threads == s.threads
    ensures TableOk(s')
  {
  }

  /** A listener's step changes its own program counter, and no other. */
  lemma ListenerPlace(s: State, l: nat, e: ListenerEvent) returns (pc: ListenerPc)
    requires ListenerEnabled(s, l, e)
    ensures var s' := ApplyListener(s, l, e);
            s'.threads == s.threads[l := s.threads[l].(pc := pc)] && s'.acceptors == s.acceptors
    ensures s.threads[l].pc != Done && s.threads[l].pc != NotStarted && pc != NotStarted
    ensures pc == Done <==> e.MarkDone?
    ensures s.threads[l].pc in {Leaving, ConnClosed} ==> pc in {ConnClosed, Done}
  {
    hide H.Deliver;
    pc := ApplyListener(s, l, e).threads[l].pc;
  }

  /** And its own entry in the table. */
  lemma ListenerEntry(s: State, l: nat, e: ListenerEvent) returns (st: T.State)
    requires ListenerEnabled(s, l, e)
    ensures ApplyListener(s, l, e).table == s.table[l := st]
    ensures st.key == s.table[l].key && st.evicted == s.table[l].evicted
    ensures st.running == (s.table[l].running && !e.MarkDone?)
  {
    hide H.Deliver;
    st := ApplyListener(s, l, e).table[l];
  }

  lemma ListenerShape(s: State, l: nat, e: ListenerEvent)
    requires Shape(s) && ListenerEnabled(s, l, e)
    ensures var s' := ApplyListener(s, l, e);
            && Shape(s') && Fewer(s.table, s'.table) && s'.acceptors == s.acceptors
            && |s'.threads| == |s.threads|
            && (forall i :: 0 <= i < |s.table| ==> s'.table[i].evicted == s.table[i].evicted)
            && (forall i :: 0 <= i < |s.table| && i != l ==> s'.threads[i] == s.threads[i])
            && s.threads[l].pc != NotStarted && s'.threads[l].pc != NotStarted
            && (s.threads[l].pc in {Leaving, ConnClosed, Done} ==> s'.threads[l].pc in {Leaving, ConnClosed, Done})
  {
    hide ApplyListener;
    var pc := ListenerPlace(s, l, e);
    var st := ListenerEntry(s, l, e);
  }

  lemma ListenerWindow(s: State, s': State, l: nat, pc: AcceptPc)
    requires |s.table| == |s.threads| == |s'.threads| && l < |s.table| && Fewer(s.table, s'.table) && WindowOk(s, pc)
    requires forall i :: 0 <= i < |s.table| ==> s'.table[i].evicted == s.table[i].evicted
    requires forall i :: 0 <= i < |s.table| && i != l ==> s'.threads[i] == s.threads[i]
    requires s.threads[l].pc != NotStarted && s'.threads[l].pc != NotStarted
    requires s.threads[l].pc in {Leaving, ConnClosed, Done} ==> s'.threads[l].pc in {Leaving, ConnClosed, Done}
    ensures WindowOk(s', pc)
  {
    hide T.BoundedBut;
    FewerBounds(s.table, s'.table);
  }

  lemma ListenerTable(s: State, l: nat, e: ListenerEvent)
    requires TableOk(s) && ListenerEnabled(s, l, e)
    ensures TableOk(ApplyListener(s, l, e))
  {
    hide ApplyListener, T.Bounded, T.Running, WindowOk, Fewer, Shape;
    ShapeSizes(s);
    ListenerShape(s, l, e);
    var s' := ApplyListener(s, l, e);
    ShapeSizes(s');
    forall t | t in s.acceptors
      ensures WindowOk(s', s.acceptors[t])
    {
      ListenerWindow(s, s', l, s.acceptors[t]);
    }
    Unmoved(s, s');
  }

  lemma ShapeSizes(s: State)
    requires Shape(s)
    ensures |s.table| == |s.threads|
  {
  }

  /** An accept thread that moves without touching the table. */
  lemma Moved(s: State, t: nat, pc: AcceptPc, s': State)
    requires TableOk(s) && s'.table == s.table && s'.threads == s.threads && s'.acceptors == s.acceptors[t := pc]
    requires t in s.acceptors && (forall t' :: t' in s.acceptors ==> t' == t)
    requires !InWindow(pc) && T.Bounded(s.table)
    requires SlotReserved(pc) ==> |T.Running(s.table)| < T.MAX_OPEN
    ensures TableOk(s')
  {
  }

  /** The steps that touch neither the table nor the threads. */
  ghost predicate Plain(e: AcceptEvent) {
    !e.Register? && !e.SpawnListener? && !e.Supersede? && !e.SeeSpawnFailure?
  }

  lemma PlainPlace(s: State, t: nat, e: AcceptEvent)
    requires AcceptEnabled(s, t, e) && Plain(e)
    ensures ApplyAccept(s, t, e).table == s.table && ApplyAccept(s, t, e).threads == s.threads
    ensures !InWindow(s.acceptors[t])
  {
    hide T.MayAccept, H.Deliver, H.AcceptPanicked;
  }

  /** They do not lead into the window, and reserve a slot only if one is free. */
  lemma PlainPc(s: State, t: nat, e: AcceptEvent)
    requires AcceptEnabled(s, t, e) && Plain(e) && t in ApplyAccept(s, t, e).acceptors
    ensures var pc := ApplyAccept(s, t, e).acceptors[t];
            !InWindow(pc) && (SlotReserved(pc) ==> SlotReserved(s.acceptors[t]) || T.MayAccept(s.table))
  {
    hide T.MayAccept, H.Deliver, H.AcceptPanicked;
  }

  lemma AcceptTable(s: State, t: nat, e: AcceptEvent)
    requires TableOk(s) && C.OneAccepter(s) && AcceptEnabled(s, t, e)
    ensures TableOk(ApplyAccept(s, t, e))
  {
    hide ApplyAccept, TableOk;
    if e.Register? {
      RegisterTable(s, t);
    } else if e.SpawnListener? {
      SpawnTable(s, t, e.ok);
    } else if e.Supersede? {
      SupersedeTable(s, t);
    } else if e.SeeSpawnFailure? {
      SpawnFailureTable(s, t);
    } else {
      PlainTable(s, t, e);
    }
  }

  lemma PlainTable(s: State, t: nat, e: AcceptEvent)
    requires TableOk(s) && C.OneAccepter(s) && AcceptEnabled(s, t, e) && Plain(e)
    ensures TableOk(ApplyAccept(s, t, e))
  {
    hide ApplyAccept, T.Running, T.Bounded, WindowOk, Shape;
    var s' := ApplyAccept(s, t, e);
    C.AcceptMoves(s, t, e);
    PlainPlace(s, t, e);
    if C.AcceptLeaves(s, e) {
      Left(s, t, s');
    } else {
      PlainPc(s, t, e);
      Moved(s, t, s'.acceptors[t], s');
    }
  }

  /** The accept thread ends outside the window. */
  lemma Left(s: State, t: nat, s': State)
    requires TableOk(s) && s'.table == s.table && s'.threads == s.threads && s'.acceptors == s.acceptors - {t}
    requires t in s.acceptors && (forall t' :: t' in s.acceptors ==> t' == t) && !InWindow(s.acceptors[t])
    ensures TableOk(s')
  {
  }

  lemma RegisterTable(s: State, t: nat)
    requires TableOk(s) && C.OneAccepter(s) && AcceptEnabled(s, t, Register)
    ensures TableOk(ApplyAccept(s, t, Register))
  {
    hide T.Running, T.Bounded, T.BoundedBut;
    var pc, s' := s.acceptors[t], ApplyAccept(s, t, Register);
    RegisterBounds(s.table, pc.key, s.now);
    assert WindowOk(s', s'.acceptors[t]);
  }

  lemma SpawnTable(s: State, t: nat, ok: bool)
    requires TableOk(s) && C.OneAccepter(s) && AcceptEnabled(s, t, SpawnListener(ok))
    ensures TableOk(ApplyAccept(s, t, SpawnListener(ok)))
  {
    hide T.Running, T.Bounded, T.BoundedBut;
    var s' := ApplyAccept(s, t, SpawnListener(ok));
    assert WindowOk(s, s.acceptors[t]);
    assert WindowOk(s', s'.acceptors[t]);
  }

  lemma SupersedeTable(s: State, t: nat)
    requires TableOk(s) && C.OneAccepter(s) && AcceptEnabled(s, t, Supersede)
    ensures TableOk(ApplyAccept(s, t, Supersede))
  {
    hide T.Running, T.Bounded, T.BoundedBut, T.Supersede;
    var l, s' := s.acceptors[t].l, ApplyAccept(s, t, Supersede);
    assert WindowOk(s, s.acceptors[t]);
    SupersedeFewer(s.table, l);
    T.SupersedeBounded(s.table, l);
  }

  lemma FinishedNewcomer(ls: seq<T.State>, k: nat)
    requires T.BoundedBut(ls, k) && k < |ls| && !ls[k].running
    ensures T.Bounded(ls)
  {
    T.NotKept(ls, k);
  }

  lemma SpawnFailureTable(s: State, t: nat)
    requires TableOk(s) && C.OneAccepter(s) && AcceptEnabled(s, t, SeeSpawnFailure)
    ensures TableOk(ApplyAccept(s, t, SeeSpawnFailure))
  {
    hide T.Running, T.Bounded, T.BoundedBut;
    assert WindowOk(s, s.acceptors[t]);
    FinishedNewcomer(s.table, s.acceptors[t].l);
    Moved(s, t, Erring, ApplyAccept(s, t, SeeSpawnFailure));
  }

  /** A new accept thread starts at the loop head. */
  lemma Joined(s: State, t: nat, s': State)
    requires TableOk(s) && s.acceptors.Keys == {} && s'.acceptors == s.acceptors[t := Head]
    requires s'.table == s.table && s'.threads == s.threads
    ensures TableOk(s')
  {
  }

  lemma StreamPlace(s: State, e: StreamEvent)
    requires StreamEnabled(s, e)
    ensures var s' := ApplyStream(s, e);
            && s'.table == s.table && s'.threads == s.threads
            && s'.acceptors == if e.SpawnAccept? then s.acceptors[e.t := Head] else s.acceptors
  {
    hide H.Subscribe, H.AcceptFailed, H.Push, H.Read, H.Unsubscribe;
  }

  lemma ClosePlace(s: State, c: nat, e: CloseEvent)
    requires CloseEnabled(s, c, e)
    ensures var s' := ApplyClose(s, c, e);
            s'.table == s.table && s'.threads == s.threads && s'.acceptors == s.acceptors
  {
    hide H.BeginClose, H.EndClose;
  }

  lemma StepTable(s: State, e: Event)
    requires TableOk(s) && C.Coupled(s) && Enabled(s, e)
    ensures TableOk(Apply(s, e))
  {
    hide TableOk, ApplyStream, ApplyClose, ApplyAccept, ApplyListener, C.HubOk, C.LockOk, C.OpeningOk;
    match e
    case OnStream(se) =>
      StreamPlace(s, se);
      if se.SpawnAccept? {
        Joined(s, se.t, Apply(s, e));
      } else {
        SamePlace(s, Apply(s, e));
      }
    case OnClose(c, ce) =>
      ClosePlace(s, c, ce);
      SamePlace(s, Apply(s, e));
    case OnAccept(t, ae) => AcceptTable(s, t, ae);
    case OnListener(l, le) => ListenerTable(s, l, le);
    case Tick(ms) => SamePlace(s, Apply(s, e));
  }

  lemma {:induction false} RunTable(ss: seq<State>, es: seq<Event>, i: nat)
    requires IsRun(ss, es) && i < |ss|
    ensures TableOk(ss[i])
  {
    hide TableOk, Apply, C.Coupled;
    if i == 0 {
      InitTable(ss[0].now);
    } else {
      RunTable(ss, es, i - 1);
      C.RunCoupled(ss, es, i - 1);
      StepTable(ss[i - 1], es[i - 1]);
    }
  }

  // ----- What is open -----

  /** A connection accepted and not registered yet. */
  ghost function Unregistered(s: State): set<nat> {
    set t | t in s.acceptors && s.acceptors[t].Accepted?
  }

  /** Listeners whose connection is open: it is closed before the listener is marked finished. */
  ghost function OpenConns(s: State): set<nat> {
    set l: nat | l < |s.threads| && s.threads[l].pc != ConnClosed && s.threads[l].pc != Done
  }

  /**
   * Table bounds, in every state of every run: running listeners and a connection being
   * accepted are at most ten together; and unless a new connection is between its
   * registration and superseding others, at most eight listeners are kept, from different
   * peers.
   */
  lemma InboundBounds(ss: seq<State>, es: seq<Event>, i: nat)
    requires IsRun(ss, es) && i < |ss|
    ensures var s := ss[i];
            && |T.Running(s.table)| + |Unregistered(s)| <= 10
            && |OpenConns(s)| + |Unregistered(s)| <= 10
            && ((forall t :: t in s.acceptors ==> !InWindow(s.acceptors[t])) ==>
                  |T.Kept(s.table)| <= 8 && T.DistinctKeys(s.table, T.Kept(s.table)))
  {
    RunTable(ss, es, i);
    C.RunCoupled(ss, es, i);
    var s := ss[i];
    assert OpenConns(s) <= T.Running(s.table);
    SubsetCount(OpenConns(s), T.Running(s.table));
    if t :| t in Unregistered(s) {
      assert Unregistered(s) == {t};
    } else {
      assert Unregistered(s) == {};
    }
  }
}
