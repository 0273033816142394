/**
 * The link of one process on top of the receiver: shutdowns, the threads that open streams, and
 * the receive loops that read and reopen them, interleaved in any order
 * (rust-bindings/picod3tn-cspcl/src/link.rs:143-189, rust-bindings/picod3tn-cspcl/src/rx.rs:82-144).
 * The link is the only user of its receiver.
 */
module Link {
  import opened Base
  import H = Hub
  import R = Receiver
  import L = ReceiveLoop

  /** Who holds the `closed` lock. */
  datatype Holder = ByShutdown(c: nat) | ByOpener(o: nat)

  datatype ShutPc = Locked | Flagged | Closing | Returned

  datatype OpenPc =
    | Started
    | Inside              // holds the lock, and the link is not closed
    | Subscribed(id: nat) // in `inbound`, or back from it
    | Opened(id: nat)     // sent the stream
    | Refused             // sent that the link is closed
    | Panicked
    | Finished

  datatype LoopPc =
    | NeedOpen
    | Opening(o: nat)
    | Streaming(id: nat)
    | SawEnd(id: nat)     // the stream ended; `is_closed` not asked yet
    | Waiting(until: H.Time) // in the backoff
    | Over

  /** A receive loop: where it is, its backoff, and what it waited and yielded so far. */
  datatype Looping = Looping(pc: LoopPc, openedAt: H.Time, delay: nat, pauses: seq<L.Pause>, yielded: seq<Copy>)

  datatype State = State(rx: R.State, closed: bool, holder: Option<Holder>, flag: bool,
                         shutdowns: map<nat, ShutPc>, openers: map<nat, OpenPc>, loops: map<nat, Looping>)

  datatype ShutEvent = Lock | Flag | CloseRx(close: R.CloseEvent) | Return

  datatype OpenEvent =
    | LockOpen
    | Subscribe
    | Spawn(t: nat)
    | SpawnFails
    | ReportSpawn
    | Send
    | Discard
    | Unlock
    | PanicOpen

  datatype LoopEvent =
    | NewLoop
    | StartOpener(o: nat)
    | StartFails
    | TakeStream
    | TakeRefusal
    | TakePanic
    | NextItem
    | SeeEnd
    | AskClosed
    | WaitOver
    | WaitShut
    | DropLoop

  datatype Event =
    | OnShutdown(c: nat, shut: ShutEvent)
    | OnOpener(o: nat, open: OpenEvent)
    | OnLoop(n: nat, loop: LoopEvent)
    | Inbound(rx: R.Event)            // the accept thread, a listener, or time

  function Init(now: H.Time): State {
    State(R.Init(now), false, None, false, map[], map[], map[])
  }

  // ----- Which step of the receiver a step of the link is -----

  function StreamOf(pc: LoopPc): Option<nat> {
    match pc case Streaming(id) => Some(id) case _ => None
  }

  function OpenedBy(pc: OpenPc): Option<nat> {
    match pc case Subscribed(id) => Some(id) case Opened(id) => Some(id) case _ => None
  }

  function RxOpener(pc: OpenPc, e: OpenEvent): Option<R.StreamEvent> {
    match e
    case Subscribe => Some(R.Subscribe)
    case Spawn(t) => if pc.Subscribed? then Some(R.SpawnAccept(pc.id, t)) else None
    case SpawnFails => if pc.Subscribed? then Some(R.SpawnAcceptFails(pc.id)) else None
    case ReportSpawn => if pc.Subscribed? then Some(R.ReportSpawn(pc.id)) else None
    case Discard => if OpenedBy(pc).Some? then Some(R.DropStream(OpenedBy(pc).value)) else None
    case _ => None
  }

  function RxLoop(pc: LoopPc, e: LoopEvent): Option<R.StreamEvent> {
    match StreamOf(pc)
    case None => None
    case Some(id) =>
      if e == NextItem then Some(R.ReadItem(id))
      else if e == SeeEnd || e == DropLoop then Some(R.DropStream(id))
      else None
  }

  function RxEvent(s: State, e: Event): Option<R.Event> {
    match e
    case OnShutdown(c, CloseRx(ce)) => Some(R.OnClose(c, ce))
    case OnShutdown(_, _) => None
    case OnOpener(o, oe) =>
      if o in s.openers && RxOpener(s.openers[o], oe).Some?
      then Some(R.OnStream(RxOpener(s.openers[o], oe).value)) else None
    case OnLoop(n, le) =>
      if n in s.loops && RxLoop(s.loops[n].pc, le).Some?
      then Some(R.OnStream(RxLoop(s.loops[n].pc, le).value)) else None
    case Inbound(re) => Some(re)
  }

  // ----- Steps -----

  predicate ShutEnabled(s: State, c: nat, e: ShutEvent) {
    match e
    case Lock => c !in s.shutdowns && s.holder.None?
    case Flag => c in s.shutdowns && s.shutdowns[c] == Locked
    case CloseRx(ce) => c in s.shutdowns && s.shutdowns[c] == if ce.BeginClose? then Flagged else Closing
    case Return => c in s.shutdowns && s.shutdowns[c] == Closing && c !in s.rx.closers
  }

  /** No loop waits for what opener `o` sends. */
  predicate Orphaned(s: State, o: nat) {
    forall n :: n in s.loops ==> s.loops[n].pc != Opening(o)
  }

  /** Back from `inbound`: its accept thread runs, or it knows that it could not start. */
  predicate Ready(s: State, id: nat) {
    id !in s.rx.claimed && id !in s.rx.failing
  }

  predicate OpenEnabled(s: State, o: nat, e: OpenEvent) {
    o in s.openers &&
    var pc := s.openers[o];
    match e
    case LockOpen => pc == Started && s.holder.None?
    case Subscribe => pc == Inside
    case Spawn(_) => pc.Subscribed?
    case SpawnFails => pc.Subscribed?
    case ReportSpawn => pc.Subscribed?
    case Send => pc.Subscribed? && Ready(s, pc.id)
    case Discard => OpenedBy(pc).Some? && Ready(s, OpenedBy(pc).value) && Orphaned(s, o)
    case Unlock => s.holder == Some(ByOpener(o)) && !pc.Inside? && !pc.Subscribed?
    case PanicOpen => pc == Started || pc == Inside
  }

  predicate LoopEnabled(s: State, n: nat, e: LoopEvent) {
    if e == NewLoop then n !in s.loops
    else
      n in s.loops &&
      var pc := s.loops[n].pc;
      match e
      case NewLoop => false
      case StartOpener(o) => pc == NeedOpen && o !in s.openers
      case StartFails => pc == NeedOpen
      case TakeStream => pc.Opening? && pc.o in s.openers && s.openers[pc.o].Opened?
      case TakeRefusal => pc.Opening? && pc.o in s.openers && s.openers[pc.o] == Refused
      case TakePanic => pc.Opening? && pc.o in s.openers && s.openers[pc.o] == Panicked
      case NextItem => pc.Streaming?
      case SeeEnd => pc.Streaming? && pc.id < |s.rx.hub.channels| && AtEnd(s.rx.hub, pc.id)
      case AskClosed => pc.SawEnd?
      case WaitOver => pc.Waiting? && pc.until <= s.rx.now && !s.flag
      case WaitShut => pc.Waiting? && s.flag
      case DropLoop => true
  }

  /** A stream ends once its sender is gone and its queue is empty. */
  predicate AtEnd(h: H.Hub, id: nat)
    requires id < |h.channels|
  {
    id !in h.subscribers && h.channels[id].queue == []
  }

  predicate Own(re: R.Event) {
    re.OnAccept? || re.OnListener? || re.Tick?
  }

  predicate Enabled(s: State, e: Event) {
    && (match e
        case OnShutdown(c, se) => ShutEnabled(s, c, se)
        case OnOpener(o, oe) => OpenEnabled(s, o, oe)
        case OnLoop(n, le) => LoopEnabled(s, n, le)
        case Inbound(re) => Own(re))
    && (RxEvent(s, e).Some? ==> R.Enabled(s.rx, RxEvent(s, e).value))
  }

  function ApplyShut(s: State, c: nat, e: ShutEvent): State
    requires ShutEnabled(s, c, e)
  {
    match e
    case Lock => s.(closed := true, holder := Some(ByShutdown(c)), shutdowns := s.shutdowns[c := Locked])
    case Flag => s.(flag := true, shutdowns := s.shutdowns[c := Flagged])
    case CloseRx(_) => s.(shutdowns := s.shutdowns[c := Closing])
    case Return => s.(holder := None, shutdowns := s.shutdowns[c := Returned])
  }

  function ApplyOpen(s: State, o: nat, e: OpenEvent): State
    requires OpenEnabled(s, o, e)
  {
    var pc := s.openers[o];
    match e
    case LockOpen => s.(holder := Some(ByOpener(o)), openers := s.openers[o := if s.closed then Refused else Inside])
    case Subscribe => s.(openers := s.openers[o := Subscribed(|s.rx.hub.channels|)])
    case Spawn(_) => s
    case SpawnFails => s
    case ReportSpawn => s
    case Send => s.(openers := s.openers[o := Opened(pc.id)])
    case Discard => s.(openers := s.openers[o := Finished])
    case Unlock => s.(holder := None)
    case PanicOpen => s.(openers := s.openers[o := Panicked])
  }

  function With(s: State, n: nat, l: Looping): State {
    s.(loops := s.loops[n := l])
  }

  function At(s: State, n: nat, pc: LoopPc): State
    requires n in s.loops
  {
    With(s, n, s.loops[n].(pc := pc))
  }

  function NewLooping(now: H.Time): Looping {
    Looping(NeedOpen, now, L.REOPEN_DELAY, [], [])
  }

  /** Begin to wait `delay` after a failure, and double it for the next one. */
  function Pausing(l: Looping, lifetime: nat, delay: nat, now: H.Time): Looping {
    l.(pc := Waiting(now + delay), delay := L.Doubled(delay), pauses := l.pauses + [L.Pause(lifetime, delay)])
  }

  function Lifetime(l: Looping, now: H.Time): nat {
    if now >= l.openedAt then now - l.openedAt else 0
  }

  /** The stream ended without a shutdown; one that outlived the delay starts the backoff over. */
  function EndedEarly(l: Looping, now: H.Time): Looping {
    var lifetime := Lifetime(l, now);
    Pausing(l, lifetime, if lifetime > l.delay then L.REOPEN_DELAY else l.delay, now)
  }

  /** What the loop yields when it reads from its stream. */
  function NextYield(s: State, pc: LoopPc): seq<Copy> {
    if pc.Streaming? && pc.id < |s.rx.hub.channels| && s.rx.hub.channels[pc.id].queue != []
    then H.BundleOf(s.rx.hub.channels[pc.id].queue[0]) else []
  }

  function ApplyLoop(s: State, n: nat, e: LoopEvent): State
    requires LoopEnabled(s, n, e)
  {
    match e
    case NewLoop => With(s, n, NewLooping(s.rx.now))
    case StartOpener(o) => At(s.(openers := s.openers[o := Started]), n, Opening(o))
    case StartFails => With(s, n, Pausing(s.loops[n], 0, s.loops[n].delay, s.rx.now))
    case TakeStream =>
      var o := s.loops[n].pc.o;
      With(s.(openers := s.openers[o := Finished]), n,
           s.loops[n].(pc := Streaming(s.openers[o].id), openedAt := s.rx.now))
    case TakeRefusal => At(s, n, Over)
    case TakePanic => With(s, n, Pausing(s.loops[n], 0, s.loops[n].delay, s.rx.now))
    case NextItem => With(s, n, s.loops[n].(yielded := s.loops[n].yielded + NextYield(s, s.loops[n].pc)))
    case SeeEnd => At(s, n, SawEnd(s.loops[n].pc.id))
    case AskClosed => if s.flag then At(s, n, Over) else With(s, n, EndedEarly(s.loops[n], s.rx.now))
    case WaitOver => At(s, n, NeedOpen)
    case WaitShut => At(s, n, Over)
    case DropLoop => s.(loops := s.loops - {n})
  }

  /** What a step does besides its step of the receiver. */
  function ApplyOwn(s: State, e: Event): State
    requires Enabled(s, e)
  {
    match e
    case OnShutdown(c, se) => ApplyShut(s, c, se)
    case OnOpener(o, oe) => ApplyOpen(s, o, oe)
    case OnLoop(n, le) => ApplyLoop(s, n, le)
    case Inbound(_) => s
  }

  function RxAfter(s: State, e: Event): R.State
    requires Enabled(s, e)
  {
    if RxEvent(s, e).Some? then R.Apply(s.rx, RxEvent(s, e).value) else s.rx
  }

  function Apply(s: State, e: Event): State
    requires Enabled(s, e)
  {
    ApplyOwn(s, e).(rx := RxAfter(s, e))
  }

  ghost predicate IsRun(ss: seq<State>, es: seq<Event>) {
    && |ss| == |es| + 1 && ss[0] == Init(ss[0].rx.now)
    && forall i :: 0 <= i < |es| ==> Enabled(ss[i], es[i]) && ss[i + 1] == Apply(ss[i], es[i])
  }

  /** Every state of the link holds a reachable state of the receiver: all its invariants hold here too. */
  lemma {:induction false} LinkRunsReceiver(ss: seq<State>, es: seq<Event>, i: nat)
    returns (rs: seq<R.State>, res: seq<R.Event>)
    requires IsRun(ss, es) && i < |ss|
    ensures R.IsRun(rs, res) && rs[|rs| - 1] == ss[i].rx
  {
    hide R.Apply, R.Enabled;
    if i == 0 {
      rs, res := [ss[0].rx], [];
    } else {
      rs, res := LinkRunsReceiver(ss, es, i - 1);
      var e := RxEvent(ss[i - 1], es[i - 1]);
      RxStep(ss[i - 1], es[i - 1]);
      if e.Some? {
        OneMore(rs, res, e.value);
        rs, res := rs + [R.Apply(rs[|rs| - 1], e.value)], res + [e.value];
      }
    }
  }

  lemma RxStep(s: State, e: Event)
    requires Enabled(s, e)
    ensures Apply(s, e).rx == RxAfter(s, e)
    ensures RxEvent(s, e).Some? ==> R.Enabled(s.rx, RxEvent(s, e).value)
  {
    hide ApplyShut, ApplyOpen, ApplyLoop, R.Apply, R.Enabled;
  }

  lemma OneMore(rs: seq<R.State>, res: seq<R.Event>, e: R.Event)
    requires R.IsRun(rs, res) && R.Enabled(rs[|rs| - 1], e)
    ensures R.IsRun(rs + [R.Apply(rs[|rs| - 1], e)], res + [e])
  {
    hide R.Apply, R.Enabled;
    var rs', res' := rs + [R.Apply(rs[|rs| - 1], e)], res + [e];
    forall i | 0 <= i < |res'|
      ensures R.Enabled(rs'[i], res'[i]) && rs'[i + 1] == R.Apply(rs'[i], res'[i])
    {
      assert rs'[i] == rs[i];
      if i < |res| {
        assert rs'[i + 1] == rs[i + 1] && res'[i] == res[i];
      }
    }
  }
}
