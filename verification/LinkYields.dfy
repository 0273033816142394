/** What the receive loops of a link yield: exactly what they read from the heads of their streams. */
module LinkYields {
  import opened Base
  import H = Hub
  import R = Receiver
  import O = ReceiverOrder
  import opened Link
  import C = ReceiverCoupling
  import K = LinkBackoff

  // ----- One loop -----

  /** The item at the head of the queue of loop `n`'s stream. */
  ghost function Head(s: State, n: nat): seq<H.Item> {
    if n in s.loops && s.loops[n].pc.Streaming? && s.loops[n].pc.id < |s.rx.hub.channels|
    then s.rx.hub.channels[s.loops[n].pc.id].queue[..if s.rx.hub.channels[s.loops[n].pc.id].queue == [] then 0 else 1]
    else []
  }

  /** All items that loop `n` read since it was started, in order. */
  ghost function Took(ss: seq<State>, es: seq<Event>, i: nat, n: nat): seq<H.Item>
    requires IsRun(ss, es) && i < |ss|
  {
    if i == 0 || es[i - 1] == OnLoop(n, NewLoop) then []
    else Took(ss, es, i - 1, n) + if es[i - 1] == OnLoop(n, NextItem) then Head(ss[i - 1], n) else []
  }

  lemma LoopYields(s: State, n: nat, e: LoopEvent)
    requires LoopEnabled(s, n, e) && n in ApplyLoop(s, n, e).loops
    ensures var yielded := ApplyLoop(s, n, e).loops[n].yielded;
            if e.NewLoop? then yielded == []
            else n in s.loops && yielded == s.loops[n].yielded + if e.NextItem? then NextYield(s, s.loops[n].pc) else []
  {
    hide NextYield;
  }

  lemma NextIsHead(s: State, n: nat)
    requires Enabled(s, OnLoop(n, NextItem))
    ensures NextYield(s, s.loops[n].pc) == H.Bundles(Head(s, n)) && |Head(s, n)| == 1
    ensures RxEvent(s, OnLoop(n, NextItem)) == Some(R.OnStream(R.ReadItem(s.loops[n].pc.id)))
    ensures s.loops[n].pc.id < |s.rx.hub.channels| && s.rx.hub.channels[s.loops[n].pc.id].queue != []
    ensures Head(s, n)[0] == s.rx.hub.channels[s.loops[n].pc.id].queue[0]
  {
    hide H.Bundles;
    var q := s.rx.hub.channels[s.loops[n].pc.id].queue;
    assert q[..1] == [q[0]];
    O.OneBundle(q[0]);
  }

  /** In every run, a loop has yielded exactly the bundles among the items it read, in order. */
  lemma {:induction false} YieldsWhatItReads(ss: seq<State>, es: seq<Event>, i: nat, n: nat)
    requires IsRun(ss, es) && i < |ss| && n in ss[i].loops
    ensures ss[i].loops[n].yielded == H.Bundles(Took(ss, es, i, n))
  {
    hide Apply, Enabled, H.Bundles, Head, NextYield, ApplyLoop;
    H.NoBundles();
    if i > 0 {
      var s, e := ss[i - 1], es[i - 1];
      if e.OnLoop? && e.n == n {
        K.OwnLoop(s, n, e.loop);
        LoopYields(s, n, e.loop);
        if !e.loop.NewLoop? {
          YieldsWhatItReads(ss, es, i - 1, n);
          if e.loop.NextItem? {
            NextIsHead(s, n);
            H.BundlesConcat(Took(ss, es, i - 1, n), Head(s, n));
          } else {
            assert Took(ss, es, i - 1, n) + [] == Took(ss, es, i - 1, n);
          }
        }
      } else {
        K.OtherLoops(s, e, n);
        YieldsWhatItReads(ss, es, i - 1, n);
        assert Took(ss, es, i - 1, n) + [] == Took(ss, es, i - 1, n);
      }
    }
  }

  // ----- All loops, dropped ones included -----

  /** What a step adds to what its loop has yielded. */
  ghost function Added(s: State, e: Event, s': State): seq<Copy> {
    if e.OnLoop? && e.n in s.loops && e.n in s'.loops && |s.loops[e.n].yielded| <= |s'.loops[e.n].yielded|
    then s'.loops[e.n].yielded[|s.loops[e.n].yielded|..] else []
  }

  /** All bundles yielded by whichever loop. */
  ghost function AllYielded(ss: seq<State>, es: seq<Event>, i: nat): seq<Copy>
    requires IsRun(ss, es) && i < |ss|
  {
    if i == 0 then [] else AllYielded(ss, es, i - 1) + Added(ss[i - 1], es[i - 1], ss[i])
  }

  lemma StreamReads(rx: R.State, e: R.StreamEvent)
    requires R.StreamEnabled(rx, e)
    ensures R.ApplyStream(rx, e).read ==
              rx.read + if e.ReadItem? then multiset(H.BundleOf(rx.hub.channels[e.id].queue[0])) else multiset{}
  {
    hide H.Subscribe, H.AcceptFailed, H.Push, H.Read, H.Unsubscribe;
  }

  /** Only reading from a stream counts as read. */
  lemma RxReads(rx: R.State, e: R.Event)
    requires R.Enabled(rx, e)
    ensures R.Apply(rx, e).read == rx.read +
              if e.OnStream? && e.stream.ReadItem? then multiset(H.BundleOf(rx.hub.channels[e.stream.id].queue[0]))
              else multiset{}
  {
    hide R.ApplyStream, R.ApplyAccept, R.ApplyListener, H.BundleOf;
    match e
    case OnStream(se) => StreamReads(rx, se);
    case OnClose(c, ce) =>
    case OnAccept(t, ae) => C.AcceptFrame(rx, t, ae);
    case OnListener(l, le) => C.ListenerFrame(rx, l, le);
    case Tick(_) =>
  }

  lemma OnlyLoopsRead(s: State, e: Event)
    requires Enabled(s, e) && !(e.OnLoop? && e.loop.NextItem?)
    ensures RxEvent(s, e).Some? ==> !(RxEvent(s, e).value.OnStream? && RxEvent(s, e).value.stream.ReadItem?)
  {
    hide R.Enabled;
  }

  lemma StepYields(s: State, e: Event)
    requires Enabled(s, e)
    ensures Apply(s, e).rx.read == s.rx.read + multiset(Added(s, e, Apply(s, e)))
  {
    hide Apply, Enabled, RxEvent, R.Apply, R.Enabled, ApplyLoop, NextYield, H.Bundles;
    RxStep(s, e);
    if e.OnLoop? && e.loop.NextItem? {
      K.OwnLoop(s, e.n, NextItem);
      StillThere(s, e.n);
      LoopYields(s, e.n, NextItem);
      NextIsHead(s, e.n);
      O.OneBundle(Head(s, e.n)[0]);
      assert Head(s, e.n) == [Head(s, e.n)[0]];
      RxReads(s.rx, RxEvent(s, e).value);
    } else {
      OnlyLoopsRead(s, e);
      if RxEvent(s, e).Some? {
        RxReads(s.rx, RxEvent(s, e).value);
      }
      NothingAdded(s, e);
    }
  }

  lemma StillThere(s: State, n: nat)
    requires LoopEnabled(s, n, NextItem)
    ensures n in s.loops && n in ApplyLoop(s, n, NextItem).loops
  {
  }

  lemma NothingAdded(s: State, e: Event)
    requires Enabled(s, e) && !(e.OnLoop? && e.loop.NextItem?)
    ensures Added(s, e, Apply(s, e)) == []
  {
    hide Apply, Enabled, ApplyLoop, NextYield;
    if e.OnLoop? && e.n in Apply(s, e).loops {
      K.OwnLoop(s, e.n, e.loop);
      LoopYields(s, e.n, e.loop);
    }
  }

  /** In every run, what was read from the receiver is what the loops yielded, dropped ones included. */
  lemma {:induction false} LoopsYieldAllThatIsRead(ss: seq<State>, es: seq<Event>, i: nat)
    requires IsRun(ss, es) && i < |ss|
    ensures ss[i].rx.read == multiset(AllYielded(ss, es, i))
  {
    hide Apply, Enabled, Added;
    if i > 0 {
      LoopsYieldAllThatIsRead(ss, es, i - 1);
      StepYields(ss[i - 1], es[i - 1]);
    }
  }
}
