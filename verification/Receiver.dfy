/**
 * The inbound side of the Rust binding as a transition system: the accept thread, the listener
 * threads, the streams and the closes of the socket, interleaved in any order
 * (rust-bindings/cspcl/src/inbound.rs:185-692, rust-bindings/cspcl/src/instance.rs:79-128).
 *
 * Each step is one critical section, one call into C, or one atomic access; what the
 * environment decides (who connects, what a read yields, whether a thread starts, whether the
 * accept thread panics) is in the event.
 */
module Receiver {
  import opened Base
  import H = Hub
  import T = ListenerTable

  /** Where a listener thread is. Its connection is open up to `Leaving`. */
  datatype ListenerPc =
    | NotStarted
    | AtGate                  // at the loop head, before `wait_while_stopped`
    | PastGate                // receiving was on; `evicted` not looked at yet
    | Reading                 // in the C receive
    | InHand(bundle: Copy)    // acknowledged to its sender, not delivered yet
    | HasError
    | Leaving                 // left the loop
    | ConnClosed              // connection closed, not marked finished yet
    | Done

  datatype Thread = Thread(conn: Handle, pc: ListenerPc)

  /** Where the accept thread is. */
  datatype AcceptPc =
    | Head
    | WantSlot
    | WantLock                        // a slot is free
    | Checking                        // holds the accept lock
    | Accepting                       // in the C accept
    | Accepted(key: Dest, conn: Handle)
    | Registered(l: nat)
    | Spawned(l: nat)                 // its listener runs, others not superseded yet
    | SpawnFailed(l: nat)
    | Erring
    | Pausing
    | Unwinding                       // panicked; `AcceptGuard` not dropped yet

  datatype ClosePc = Begun | Holding | Cleared | Released

  datatype Owner = Acceptor(t: nat) | Closer(c: nat)

  /**
   * `claimed`: streams whose `subscribe` is about to spawn the accept thread; `failing`: those
   * whose spawn failed and that still have to be told. Both are not handed to their reader yet.
   * `acked` and `read` record which copies were acknowledged to their sender, and yielded.
   */
  datatype State = State(
    hub: H.Hub, claimed: set<nat>, failing: set<nat>, acceptors: map<nat, AcceptPc>,
    table: seq<T.State>, threads: seq<Thread>,
    lock: Option<Owner>, closers: map<nat, ClosePc>, socketOpen: bool,
    now: H.Time, acked: multiset<Copy>, read: multiset<Copy>)

  datatype StreamEvent =
    | Subscribe
    | SpawnAccept(id: nat, t: nat)
    | SpawnAcceptFails(id: nat)
    | ReportSpawn(id: nat)
    | ReadItem(id: nat)
    | DropStream(id: nat)

  datatype CloseEvent = BeginClose | LockClose | ClearSocket | UnlockClose | EndClose

  datatype Arrival = Arrives(key: Dest, conn: Handle) | NoArrival | ArrivalError

  datatype AcceptEvent =
    | LoopHead
    | WaitSlot
    | LockAccept
    | CheckReceiving(opens: bool)
    | AcceptReturns(arrival: Arrival)
    | Register
    | SpawnListener(ok: bool)
    | SeeSpawnFailure
    | Supersede
    | ReportError
    | PauseOver
    | Panic
    | Unwound

  datatype Outcome = Bundle(bundle: Copy) | Nothing | Hopeless | Error

  datatype ListenerEvent =
    | PassGate
    | GiveUp
    | CheckEvicted
    | Receive(outcome: Outcome)
    | Deliver
    | DeliverError
    | CloseConn
    | MarkDone

  datatype Event =
    | OnStream(stream: StreamEvent)
    | OnClose(c: nat, close: CloseEvent)
    | OnAccept(t: nat, accept: AcceptEvent)
    | OnListener(l: nat, listener: ListenerEvent)
    | Tick(ms: nat)

  function Init(now: H.Time): State {
    State(H.Init(now), {}, {}, map[], [], [], None, map[], true, now, multiset{}, multiset{})
  }

  // ----- Streams -----

  /** A stream handed to its reader and not dropped. */
  predicate InUse(s: State, id: nat) {
    H.Accepts(s.hub, id) && id !in s.claimed && id !in s.failing
  }

  predicate StreamEnabled(s: State, e: StreamEvent) {
    match e
    case Subscribe => s.hub.closing == 0
    case SpawnAccept(id, t) => id in s.claimed && t !in s.acceptors
    case SpawnAcceptFails(id) => id in s.claimed && id < |s.hub.channels|
    case ReportSpawn(id) => id in s.failing
    case ReadItem(id) => InUse(s, id) && s.hub.channels[id].queue != []
    case DropStream(id) => InUse(s, id)
  }

  function ReadBag(item: H.Item): multiset<Copy> {
    match item case Got(b) => multiset{b} case Failed => multiset{}
  }

  function ApplyStream(s: State, e: StreamEvent): State
    requires StreamEnabled(s, e)
  {
    match e
    case Subscribe =>
      s.(hub := H.Subscribe(s.hub),
         claimed := if s.hub.acceptRunning then s.claimed else s.claimed + {|s.hub.channels|})
    case SpawnAccept(id, t) => s.(claimed := s.claimed - {id}, acceptors := s.acceptors[t := Head])
    case SpawnAcceptFails(id) =>
      s.(hub := H.AcceptFailed(s.hub, id, s.now), claimed := s.claimed - {id}, failing := s.failing + {id})
    case ReportSpawn(id) => s.(hub := H.Push(s.hub, id, [H.Failed]), failing := s.failing - {id})
    case ReadItem(id) => s.(hub := H.Read(s.hub, id), read := s.read + ReadBag(s.hub.channels[id].queue[0]))
    case DropStream(id) => s.(hub := H.Unsubscribe(s.hub, id, s.now))
  }

  // ----- Closes of the receive socket -----

  predicate CloseEnabled(s: State, c: nat, e: CloseEvent) {
    match e
    case BeginClose => c !in s.closers
    case LockClose => c in s.closers && s.closers[c] == Begun && s.lock.None?
    case ClearSocket => c in s.closers && s.closers[c] == Holding
    case UnlockClose => c in s.closers && s.closers[c] == Cleared
    case EndClose => c in s.closers && s.closers[c] == Released && s.hub.closing > 0
  }

  function ApplyClose(s: State, c: nat, e: CloseEvent): State
    requires CloseEnabled(s, c, e)
  {
    match e
    case BeginClose => s.(hub := H.BeginClose(s.hub, s.now), closers := s.closers[c := Begun])
    case LockClose => s.(lock := Some(Closer(c)), closers := s.closers[c := Holding])
    case ClearSocket => s.(socketOpen := false, closers := s.closers[c := Cleared])
    case UnlockClose => s.(lock := None, closers := s.closers[c := Released])
    case EndClose => s.(hub := H.EndClose(s.hub), closers := s.closers - {c})
  }

  // ----- The accept thread -----

  predicate AcceptEnabled(s: State, t: nat, e: AcceptEvent) {
    t in s.acceptors &&
    var pc := s.acceptors[t];
    match e
    case LoopHead => pc == Head
    case WaitSlot => pc == WantSlot
    case LockAccept => pc == WantLock && s.lock.None?
    case CheckReceiving(_) => pc == Checking
    case AcceptReturns(_) => pc == Accepting
    case Register => pc.Accepted?
    case SpawnListener(_) => pc.Registered? && pc.l < |s.threads|
    case SeeSpawnFailure => pc.SpawnFailed? && pc.l < |s.threads| && s.threads[pc.l].pc == Done
    case Supersede => pc.Spawned? && pc.l < |s.table|
    case ReportError => pc == Erring
    case PauseOver => pc == Pausing
    case Panic => pc in {Head, WantSlot, WantLock, Checking, Accepting}
    case Unwound => pc == Unwinding
  }

  function At(s: State, t: nat, pc: AcceptPc): State {
    s.(acceptors := s.acceptors[t := pc])
  }

  function SetPc(s: State, l: nat, pc: ListenerPc): State
    requires l < |s.threads|
  {
    s.(threads := s.threads[l := s.threads[l].(pc := pc)])
  }

  function ApplyAccept(s: State, t: nat, e: AcceptEvent): State
    requires AcceptEnabled(s, t, e)
  {
    var pc := s.acceptors[t];
    match e
    case LoopHead =>
      if H.IsReceiving(s.hub) then At(s, t, WantSlot)
      else s.(hub := H.AcceptStops(s.hub), acceptors := s.acceptors - {t})
    case WaitSlot => At(s, t, if T.MayAccept(s.table) then WantLock else Head)
    case LockAccept => At(s.(lock := Some(Acceptor(t))), t, Checking)
    case CheckReceiving(opens) =>
      // The C accept reopens a closed socket, or fails to.
      if !H.IsReceiving(s.hub) then At(s.(lock := None), t, Head)
      else if s.socketOpen || opens then At(s.(socketOpen := true), t, Accepting)
      else At(s.(lock := None), t, Erring)
    case AcceptReturns(arrival) =>
      At(s.(lock := None), t,
         match arrival
         case Arrives(key, conn) => Accepted(key, conn)
         case NoArrival => Head
         case ArrivalError => Erring)
    case Register =>
      At(s.(table := T.Register(s.table, pc.key, s.now), threads := s.threads + [Thread(pc.conn, NotStarted)]),
         t, Registered(|s.threads|))
    case SpawnListener(ok) =>
      if ok then At(SetPc(s, pc.l, AtGate), t, Spawned(pc.l)) else At(SetPc(s, pc.l, Leaving), t, SpawnFailed(pc.l))
    case SeeSpawnFailure => At(s, t, Erring)
    case Supersede => At(s.(table := T.Supersede(s.table, pc.l)), t, Head)
    case ReportError => At(s.(hub := H.Deliver(s.hub, H.Failed)), t, Pausing)
    case PauseOver => At(s, t, Head)
    case Panic => At(s.(lock := if s.lock == Some(Acceptor(t)) then None else s.lock), t, Unwinding)
    case Unwound => s.(hub := H.AcceptPanicked(s.hub, s.now), acceptors := s.acceptors - {t})
  }

  // ----- Listener threads -----

  predicate ListenerEnabled(s: State, l: nat, e: ListenerEvent) {
    l < |s.threads| && l < |s.table| &&
    var pc := s.threads[l].pc;
    match e
    case PassGate => pc == AtGate && H.IsReceiving(s.hub)
    case GiveUp => pc == AtGate && H.GraceOver(s.hub, s.now)
    case CheckEvicted => pc == PastGate
    case Receive(_) => pc == Reading
    case Deliver => pc.InHand?
    case DeliverError => pc == HasError
    case CloseConn => pc == Leaving
    case MarkDone => pc == ConnClosed
  }

  function ApplyListener(s: State, l: nat, e: ListenerEvent): State
    requires ListenerEnabled(s, l, e)
  {
    match e
    case PassGate => SetPc(s, l, PastGate)
    case GiveUp => SetPc(s, l, Leaving)
    case CheckEvicted => SetPc(s, l, if s.table[l].evicted then Leaving else Reading)
    case Receive(outcome) =>
      (match outcome
       case Bundle(b) =>
         SetPc(s.(table := s.table[l := s.table[l].(lastActive := s.now)], acked := s.acked + multiset{b}), l,
               InHand(b))
       case Nothing => SetPc(s, l, AtGate)
       case Hopeless => SetPc(s, l, Leaving)
       case Error => SetPc(s, l, HasError))
    case Deliver => SetPc(s.(hub := H.Deliver(s.hub, H.Got(s.threads[l].pc.bundle))), l, AtGate)
    case DeliverError => SetPc(s.(hub := H.Deliver(s.hub, H.Failed)), l, Leaving)
    case CloseConn => SetPc(s, l, ConnClosed)
    case MarkDone => SetPc(s.(table := s.table[l := s.table[l].(running := false)]), l, Done)
  }

  // ----- Steps and runs -----

  predicate Enabled(s: State, e: Event) {
    match e
    case OnStream(se) => StreamEnabled(s, se)
    case OnClose(c, ce) => CloseEnabled(s, c, ce)
    case OnAccept(t, ae) => AcceptEnabled(s, t, ae)
    case OnListener(l, le) => ListenerEnabled(s, l, le)
    case Tick(_) => true
  }

  function Apply(s: State, e: Event): State
    requires Enabled(s, e)
  {
    match e
    case OnStream(se) => ApplyStream(s, se)
    case OnClose(c, ce) => ApplyClose(s, c, ce)
    case OnAccept(t, ae) => ApplyAccept(s, t, ae)
    case OnListener(l, le) => ApplyListener(s, l, le)
    case Tick(ms) => s.(now := s.now + ms)
  }

  /** Consecutive steps, from any state. */
  ghost predicate Path(ss: seq<State>, es: seq<Event>) {
    && |ss| == |es| + 1
    && (forall i :: 0 <= i < |es| ==> Enabled(ss[i], es[i]) && ss[i + 1] == Apply(ss[i], es[i]))
  }

  /** A run of the receiver, from its creation. */
  ghost predicate IsRun(ss: seq<State>, es: seq<Event>) {
    Path(ss, es) && ss[0] == Init(ss[0].now)
  }
}
