/**
 * The receive loops of a link are runs of `ReceiveLoop`: what such a loop waits and yields in a
 * run of the link, whatever other threads do, is what the loop makes of some script. The closed
 * form of the backoff therefore holds in every run of the link.
 */
module LinkBackoff {
  import opened Base
  import H = Hub
  import R = Receiver
  import L = ReceiveLoop
  import opened Link
  import D = LinkShutdown
  import C = ReceiverCoupling

  /** Some script brings the loop to `l`. */
  ghost predicate Scripted(l: L.Loop) {
    exists script, k: nat :: Makes(script, k, l)
  }

  ghost predicate Makes(script: seq<L.Opened>, k: nat, l: L.Loop) {
    L.Turns(L.Start(script), k) == l
  }

  lemma OneTurn(l: L.Loop)
    requires Scripted(l)
    ensures Scripted(L.Turn(l))
  {
    var script, k: nat :| Makes(script, k, l);
    assert Makes(script, k + 1, L.Turn(l));
  }

  /** The loop `x` of the link, with `rest` of the script and `stream` before it. */
  function Seen(x: Looping, rest: seq<L.Opened>, stream: Option<L.Opened>, over: bool): L.Loop {
    L.Loop(rest, stream, x.delay, over, x.pauses, x.yielded)
  }

  /** Whatever its future, a script with that future brings the loop to where it is. */
  ghost predicate Traced(x: Looping) {
    match x.pc
    case NeedOpen => ToOpen(x)
    case Opening(_) => ToOpen(x)
    case Streaming(_) => WithStream(x)
    case SawEnd(_) => WithStream(x)
    case Waiting(_) => forall shut, rest :: Scripted(Seen(x, rest, None, shut))
    case Over => forall rest :: Scripted(Seen(x, rest, None, true))
  }

  ghost predicate ToOpen(x: Looping) {
    forall rest :: Scripted(Seen(x, rest, None, false))
  }

  ghost predicate WithStream(x: Looping) {
    forall st: L.Opened, rest :: st.Stream? ==> Scripted(Seen(x, rest, Some(st), false))
  }

  // ----- Each step of a loop is a turn -----

  lemma NewTraced(now: H.Time)
    ensures Traced(NewLooping(now))
  {
    forall rest
      ensures Scripted(Seen(NewLooping(now), rest, None, false))
    {
      assert Makes(rest, 0, Seen(NewLooping(now), rest, None, false));
    }
  }

  lemma OpenFails(x: Looping, now: H.Time)
    requires ToOpen(x)
    ensures Traced(Pausing(x, 0, x.delay, now))
  {
    var y := Pausing(x, 0, x.delay, now);
    forall shut, rest
      ensures Scripted(Seen(y, rest, None, shut))
    {
      var before := Seen(x, [L.FailsToOpen(shut)] + rest, None, false);
      OneTurn(before);
      assert L.Turn(before) == Seen(y, rest, None, shut);
    }
  }

  lemma Opens(x: Looping, id: nat, now: H.Time)
    requires ToOpen(x)
    ensures Traced(x.(pc := Streaming(id), openedAt := now))
  {
    var y := x.(pc := Streaming(id), openedAt := now);
    forall st: L.Opened, rest | st.Stream?
      ensures Scripted(Seen(y, rest, Some(st), false))
    {
      var before := Seen(x, [st] + rest, None, false);
      OneTurn(before);
      assert L.Turn(before) == Seen(y, rest, Some(st), false);
    }
  }

  lemma IsRefused(x: Looping)
    requires ToOpen(x)
    ensures Traced(x.(pc := Over))
  {
    forall rest
      ensures Scripted(Seen(x.(pc := Over), rest, None, true))
    {
      var before := Seen(x, [L.Refused] + rest, None, false);
      OneTurn(before);
      assert L.Turn(before) == Seen(x.(pc := Over), rest, None, true);
    }
  }

  lemma Yields(x: Looping, item: H.Item)
    requires WithStream(x)
    ensures WithStream(x.(yielded := x.yielded + H.BundleOf(item)))
  {
    var y := x.(yielded := x.yielded + H.BundleOf(item));
    forall st: L.Opened, rest | st.Stream?
      ensures Scripted(Seen(y, rest, Some(st), false))
    {
      var items := [item] + st.items;
      var before := Seen(x, rest, Some(st.(items := items)), false);
      OneTurn(before);
      L.FirstBundle(items);
      assert items[1..] == st.items;
      assert L.Turn(before) == Seen(y, rest, Some(st), false);
    }
  }

  lemma EndsShut(x: Looping)
    requires WithStream(x)
    ensures Traced(x.(pc := Over))
  {
    forall rest
      ensures Scripted(Seen(x.(pc := Over), rest, None, true))
    {
      var before := Seen(x, rest, Some(L.Stream([], true, 0, false)), false);
      OneTurn(before);
      assert L.Turn(before) == Seen(x.(pc := Over), rest, None, true);
    }
  }

  lemma EndsEarly(x: Looping, now: H.Time)
    requires WithStream(x)
    ensures Traced(EndedEarly(x, now))
  {
    var y := EndedEarly(x, now);
    forall shut, rest
      ensures Scripted(Seen(y, rest, None, shut))
    {
      var before := Seen(x, rest, Some(L.Stream([], false, Lifetime(x, now), shut)), false);
      OneTurn(before);
      assert L.Turn(before) == Seen(y, rest, None, shut);
    }
  }

  lemma WaitEnds(x: Looping)
    requires Traced(x) && x.pc.Waiting?
    ensures Traced(x.(pc := NeedOpen)) && Traced(x.(pc := Over))
  {
    forall rest
      ensures Scripted(Seen(x.(pc := NeedOpen), rest, None, false)) && Scripted(Seen(x.(pc := Over), rest, None, true))
    {
      assert Scripted(Seen(x, rest, None, false)) && Scripted(Seen(x, rest, None, true));
    }
  }

  /** Moving on without an answer of the source. */
  lemma Moves(x: Looping, pc: LoopPc)
    requires Traced(x) && ((x.pc.NeedOpen? && pc.Opening?) || (x.pc.Streaming? && pc.SawEnd?))
    ensures Traced(x.(pc := pc))
  {
    if x.pc.NeedOpen? {
      forall rest
        ensures Scripted(Seen(x.(pc := pc), rest, None, false))
      {
        assert Scripted(Seen(x, rest, None, false));
      }
    } else {
      forall st: L.Opened, rest | st.Stream?
        ensures Scripted(Seen(x.(pc := pc), rest, Some(st), false))
      {
        assert Scripted(Seen(x, rest, Some(st), false));
      }
    }
  }

  lemma LoopTraced(s: State, n: nat, e: LoopEvent)
    requires LoopEnabled(s, n, e) && (n in s.loops ==> Traced(s.loops[n]))
    requires e.NextItem? ==> s.loops[n].pc.id < |s.rx.hub.channels| && s.rx.hub.channels[s.loops[n].pc.id].queue != []
    ensures n in ApplyLoop(s, n, e).loops ==> Traced(ApplyLoop(s, n, e).loops[n])
  {
    hide ToOpen, WithStream, L.Doubled, EndedEarly, Pausing;
    match e
    case NewLoop => NewTraced(s.rx.now);
    case StartOpener(o) => Moves(s.loops[n], Opening(o));
    case StartFails => OpenFails(s.loops[n], s.rx.now);
    case TakeStream => Opens(s.loops[n], s.openers[s.loops[n].pc.o].id, s.rx.now);
    case TakeRefusal => IsRefused(s.loops[n]);
    case TakePanic => OpenFails(s.loops[n], s.rx.now);
    case NextItem => Yields(s.loops[n], s.rx.hub.channels[s.loops[n].pc.id].queue[0]);
    case SeeEnd => Moves(s.loops[n], SawEnd(s.loops[n].pc.id));
    case AskClosed =>
      EndsShut(s.loops[n]);
      EndsEarly(s.loops[n], s.rx.now);
    case WaitOver => WaitEnds(s.loops[n]);
    case WaitShut => WaitEnds(s.loops[n]);
    case DropLoop =>
  }

  // ----- Every run -----

  lemma OtherLoops(s: State, e: Event, n: nat)
    requires Enabled(s, e) && !(e.OnLoop? && e.n == n)
    ensures n in Apply(s, e).loops <==> n in s.loops
    ensures n in s.loops ==> Apply(s, e).loops[n] == s.loops[n]
  {
    hide R.Apply, R.Enabled, RxEvent, ApplyShut, ApplyOpen, ApplyLoop, ShutEnabled, OpenEnabled, LoopEnabled;
    match e
    case OnShutdown(c, se) => ShutLoops(s, c, se);
    case OnOpener(o, oe) => D.OpenerFrame(s, o, oe);
    case OnLoop(m, le) => LoopElsewhere(s, m, le, n);
    case Inbound(_) =>
  }

  lemma ShutLoops(s: State, c: nat, e: ShutEvent)
    requires ShutEnabled(s, c, e)
    ensures ApplyShut(s, c, e).loops == s.loops
  {
  }

  lemma LoopElsewhere(s: State, m: nat, e: LoopEvent, n: nat)
    requires LoopEnabled(s, m, e) && m != n
    ensures n in ApplyLoop(s, m, e).loops <==> n in s.loops
    ensures n in s.loops ==> ApplyLoop(s, m, e).loops[n] == s.loops[n]
  {
    hide Pausing, EndedEarly, NextYield;
  }

  lemma OwnLoop(s: State, n: nat, e: LoopEvent)
    requires Enabled(s, OnLoop(n, e))
    ensures Apply(s, OnLoop(n, e)).loops == ApplyLoop(s, n, e).loops && LoopEnabled(s, n, e)
    ensures e.NextItem? ==> s.loops[n].pc.id < |s.rx.hub.channels| && s.rx.hub.channels[s.loops[n].pc.id].queue != []
  {
    hide R.Apply, ApplyLoop;
  }

  lemma StepTraced(s: State, e: Event, n: nat)
    requires Enabled(s, e) && (n in s.loops ==> Traced(s.loops[n]))
    ensures n in Apply(s, e).loops ==> Traced(Apply(s, e).loops[n])
  {
    hide Apply, Enabled, Traced;
    if e.OnLoop? && e.n == n {
      OwnLoop(s, n, e.loop);
      LoopTraced(s, n, e.loop);
    } else {
      OtherLoops(s, e, n);
    }
  }

  lemma {:induction false} RunTraced(ss: seq<State>, es: seq<Event>, i: nat, n: nat)
    requires IsRun(ss, es) && i < |ss| && n in ss[i].loops
    ensures Traced(ss[i].loops[n])
  {
    hide Apply, Enabled, Traced;
    if i > 0 {
      if n in ss[i - 1].loops {
        RunTraced(ss, es, i - 1, n);
      }
      StepTraced(ss[i - 1], es[i - 1], n);
    }
  }

  /**
   * Refinement: in every run of the link, each receive loop has waited, yielded and ended as the
   * loop of `ReceiveLoop` does on some script.
   */
  lemma LoopsAreScripted(ss: seq<State>, es: seq<Event>, i: nat, n: nat) returns (script: seq<L.Opened>, k: nat)
    requires IsRun(ss, es) && i < |ss| && n in ss[i].loops
    ensures var x, l := ss[i].loops[n], L.Turns(L.Start(script), k);
            && l.pauses == x.pauses && l.yielded == x.yielded && l.delay == x.delay && l.over == x.pc.Over?
            && l.stream.Some? == (x.pc.Streaming? || x.pc.SawEnd?)
  {
    RunTraced(ss, es, i, n);
    var x := ss[i].loops[n];
    var stream := if x.pc.Streaming? || x.pc.SawEnd? then Some(L.Stream([], false, 0, false)) else None;
    assert Scripted(Seen(x, [], stream, x.pc.Over?));
    script, k :| Makes(script, k, Seen(x, [], stream, x.pc.Over?));
  }

  /** The closed form of the backoff, in every run of the link. */
  lemma BackoffInLinkRuns(ss: seq<State>, es: seq<Event>, i: nat, n: nat, j: nat)
    requires IsRun(ss, es) && i < |ss| && n in ss[i].loops && j < |ss[i].loops[n].pauses|
    ensures ss[i].loops[n].pauses[j].wait == L.Delay(L.Row(ss[i].loops[n].pauses, j))
  {
    var script, k := LoopsAreScripted(ss, es, i, n);
    L.BackoffClosedForm(script, k);
  }

  // ----- A pause lasts -----

  /** The pause that the loop is in began with step `j` and takes its full length. */
  ghost predicate PausedSince(ss: seq<State>, j: nat, x: Looping) {
    j < |ss| && x.pauses != [] && x.pc == Waiting(ss[j].rx.now + x.pauses[|x.pauses| - 1].wait)
  }

  lemma PauseBegins(s: State, n: nat, e: LoopEvent)
    requires LoopEnabled(s, n, e) && n in ApplyLoop(s, n, e).loops && ApplyLoop(s, n, e).loops[n].pc.Waiting?
    ensures var x := ApplyLoop(s, n, e).loops[n];
            x.pauses != [] && x.pc == Waiting(s.rx.now + x.pauses[|x.pauses| - 1].wait)
  {
    hide L.Doubled;
  }

  lemma {:induction false} WaitingSince(ss: seq<State>, es: seq<Event>, i: nat, n: nat) returns (j: nat)
    requires IsRun(ss, es) && i < |ss| && n in ss[i].loops && ss[i].loops[n].pc.Waiting?
    ensures j < i && PausedSince(ss, j, ss[i].loops[n])
  {
    hide Apply, Enabled, ApplyLoop;
    var s, e := ss[i - 1], es[i - 1];
    if e.OnLoop? && e.n == n {
      OwnLoop(s, n, e.loop);
      PauseBegins(s, n, e.loop);
      j := i - 1;
    } else {
      OtherLoops(s, e, n);
      j := WaitingSince(ss, es, i - 1, n);
    }
  }

  /** A loop reopens only after the whole pause, and only while no shutdown is flagged. */
  lemma ReopensAfterThePause(ss: seq<State>, es: seq<Event>, i: nat, n: nat) returns (j: nat)
    requires IsRun(ss, es) && i < |es| && es[i] == OnLoop(n, WaitOver)
    ensures j < i && ss[i].loops[n].pauses != [] && !ss[i].flag
    ensures ss[i].rx.now >= ss[j].rx.now + ss[i].loops[n].pauses[|ss[i].loops[n].pauses| - 1].wait
  {
    j := WaitingSince(ss, es, i, n);
  }

  // ----- How long a stream lived -----

  lemma ClockStep(s: R.State, e: R.Event)
    requires R.Enabled(s, e)
    ensures R.Apply(s, e).now >= s.now
  {
    hide R.ApplyAccept, R.ApplyListener, H.Subscribe, H.AcceptFailed, H.Push, H.Read, H.Unsubscribe;
    match e
    case OnStream(se) =>
    case OnClose(c, ce) =>
    case OnAccept(t, ae) => C.AcceptFrame(s, t, ae);
    case OnListener(l, le) => C.ListenerFrame(s, l, le);
    case Tick(_) =>
  }

  lemma {:induction false} ClockRuns(ss: seq<State>, es: seq<Event>, i: nat, j: nat)
    requires IsRun(ss, es) && i <= j < |ss|
    ensures ss[i].rx.now <= ss[j].rx.now
    decreases j
  {
    hide Apply, Enabled, RxEvent, R.Apply, R.Enabled;
    if i < j {
      ClockRuns(ss, es, i, j - 1);
      RxStep(ss[j - 1], es[j - 1]);
      if RxEvent(ss[j - 1], es[j - 1]).Some? {
        ClockStep(ss[j - 1].rx, RxEvent(ss[j - 1], es[j - 1]).value);
      }
    }
  }

  ghost predicate HasStream(x: Looping) {
    x.pc.Streaming? || x.pc.SawEnd?
  }

  lemma StreamSteps(s: State, n: nat, e: LoopEvent)
    requires LoopEnabled(s, n, e) && n in ApplyLoop(s, n, e).loops && HasStream(ApplyLoop(s, n, e).loops[n])
    ensures var x := ApplyLoop(s, n, e).loops[n];
            if e.TakeStream? then x.openedAt == s.rx.now
            else n in s.loops && HasStream(s.loops[n]) && x.openedAt == s.loops[n].openedAt
  {
    hide L.Doubled, Lifetime, NextYield;
  }

  /** The stream that a loop has was opened with step `k`, and none since. */
  lemma {:induction false} OpenedWith(ss: seq<State>, es: seq<Event>, i: nat, n: nat) returns (k: nat)
    requires IsRun(ss, es) && i < |ss| && n in ss[i].loops && HasStream(ss[i].loops[n])
    ensures k < i && es[k] == OnLoop(n, TakeStream) && ss[i].loops[n].openedAt == ss[k].rx.now
    ensures forall m :: k < m < i ==> es[m] != OnLoop(n, TakeStream)
  {
    hide Apply, Enabled, ApplyLoop, HasStream;
    var s, e := ss[i - 1], es[i - 1];
    if e.OnLoop? && e.n == n {
      OwnLoop(s, n, e.loop);
      StreamSteps(s, n, e.loop);
      if e.loop.TakeStream? {
        k := i - 1;
      } else {
        k := OpenedWith(ss, es, i - 1, n);
      }
    } else {
      OtherLoops(s, e, n);
      k := OpenedWith(ss, es, i - 1, n);
    }
  }

  /**
   * In every run, the lifetime by which a stream that ended without a shutdown is judged is the
   * time since it was opened, and the pause that follows starts over at 500 ms exactly if that is
   * longer than the delay in force.
   */
  lemma JudgedByItsLifetime(ss: seq<State>, es: seq<Event>, i: nat, n: nat) returns (k: nat)
    requires IsRun(ss, es) && i < |es| && es[i] == OnLoop(n, AskClosed) && !ss[i].flag
    ensures k < i && es[k] == OnLoop(n, TakeStream) && forall m :: k < m < i ==> es[m] != OnLoop(n, TakeStream)
    ensures var x, x' := ss[i].loops[n], ss[i + 1].loops[n];
            var lifetime := ss[i].rx.now - ss[k].rx.now;
            lifetime >= 0 && x'.pauses == x.pauses + [L.Pause(lifetime, if lifetime > x.delay then 500 else x.delay)]
  {
    hide H.Bundles;
    k := OpenedWith(ss, es, i, n);
    ClockRuns(ss, es, k, i);
    OwnLoop(ss[i], n, AskClosed);
  }
}
