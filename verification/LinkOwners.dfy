/**
 * Every stream of a link has exactly one owner: the thread that opens it until a receive loop
 * takes it, and then that loop. No bundle is delivered to a stream that nobody reads.
 */
module LinkOwners {
  import opened Base
  import H = Hub
  import R = Receiver
  import L = ReceiveLoop
  import C = ReceiverCoupling
  import opened Link
  import S = LinkStreams

  datatype Owner = Opener(o: nat) | Loop(n: nat)

  ghost predicate Owns(s: State, w: Owner, id: nat) {
    match w
    case Opener(o) => o in s.openers && OpenedBy(s.openers[o]) == Some(id)
    case Loop(n) => n in s.loops && s.loops[n].pc == Streaming(id)
  }

  ghost predicate HasOwner(s: State, id: nat) {
    exists w :: Owns(s, w, id)
  }

  /** Each open stream has an owner, each owned stream is open, and no two own the same one. */
  ghost predicate Owned(s: State) {
    && (forall id: nat :: H.Accepts(s.rx.hub, id) ==> HasOwner(s, id))
    && (forall w, id: nat :: Owns(s, w, id) ==> H.Accepts(s.rx.hub, id))
    && (forall w, w', id: nat :: Owns(s, w, id) && Owns(s, w', id) ==> w == w')
  }

  // ----- Which streams are open -----

  lemma StreamOpens(s: R.State, e: R.StreamEvent, id: nat)
    requires R.StreamEnabled(s, e)
    ensures H.Accepts(R.ApplyStream(s, e).hub, id) <==>
              (H.Accepts(s.hub, id) && e != R.DropStream(id)) || (e == R.Subscribe && id == |s.hub.channels|)
  {
    hide H.FailOthers, H.Bundles, H.WithoutId, H.AcceptFailed;
    if e.SpawnAcceptFails? {
      FailOpens(s.hub, e.id, s.now, id);
    }
  }

  lemma FailOpens(h: H.Hub, failed: nat, now: H.Time, id: nat)
    requires failed < |h.channels|
    ensures H.Accepts(H.AcceptFailed(h, failed, now), id) <==> H.Accepts(h, id)
  {
    hide H.FailOthers, H.Bundles;
    H.FailKeeps(h, h.subscribers, failed);
  }

  lemma OthersOpen(s: R.State, e: R.Event, id: nat)
    requires R.Enabled(s, e) && !e.OnStream?
    ensures H.Accepts(R.Apply(s, e).hub, id) <==> H.Accepts(s.hub, id)
  {
    hide R.ApplyAccept, R.ApplyListener;
    match e
    case OnClose(c, ce) =>
    case OnAccept(t, ae) => S.AcceptHub(s, t, ae);
    case OnListener(l, le) => C.ListenerFrame(s, l, le);
    case Tick(_) =>
  }

  /** The stream that a step drops. */
  ghost function Dropped(s: State, e: Event): Option<nat> {
    match RxEvent(s, e)
    case Some(OnStream(DropStream(id))) => Some(id)
    case _ => None
  }

  ghost predicate Opens(s: State, e: Event) {
    RxEvent(s, e) == Some(R.OnStream(R.Subscribe))
  }

  lemma StepOpens(s: State, e: Event, id: nat)
    requires Enabled(s, e)
    ensures H.Accepts(Apply(s, e).rx.hub, id) <==>
              (H.Accepts(s.rx.hub, id) && Dropped(s, e) != Some(id)) || (Opens(s, e) && id == |s.rx.hub.channels|)
  {
    hide Apply, Enabled, RxEvent, R.Apply, R.Enabled, H.Accepts;
    RxStep(s, e);
    if RxEvent(s, e).Some? {
      var re := RxEvent(s, e).value;
      if re.OnStream? {
        StreamEvent(s.rx, re, id);
      } else {
        OthersOpen(s.rx, re, id);
      }
    }
  }

  lemma StreamEvent(s: R.State, re: R.Event, id: nat)
    requires R.Enabled(s, re) && re.OnStream?
    ensures H.Accepts(R.Apply(s, re).hub, id) <==>
              (H.Accepts(s.hub, id) && re != R.OnStream(R.DropStream(id)))
              || (re == R.OnStream(R.Subscribe) && id == |s.hub.channels|)
  {
    hide R.ApplyStream, H.Accepts;
    StreamOpens(s, re.stream, id);
  }

  // ----- Who owns what after a step -----

  /** Only these change hands: what is opened, dropped, or taken over from the opener. */
  lemma OpenerOwns(s: State, o: nat, e: OpenEvent, w: Owner, id: nat)
    requires OpenEnabled(s, o, e)
    ensures var s' := ApplyOpen(s, o, e);
            Owns(s', w, id) <==>
              (Owns(s, w, id) && !(e.Discard? && w == Opener(o)))
              || (e.Subscribe? && w == Opener(o) && id == |s.rx.hub.channels|)
  {
  }

  lemma LoopOwns(s: State, n: nat, e: LoopEvent, w: Owner, id: nat)
    requires LoopEnabled(s, n, e)
    ensures var s' := ApplyLoop(s, n, e);
            Owns(s', w, id) <==>
              if e.TakeStream? && (w == Loop(n) || w == Opener(s.loops[n].pc.o)) then
                w == Loop(n) && Owns(s, Opener(s.loops[n].pc.o), id)
              else Owns(s, w, id) && !((e.SeeEnd? || e.DropLoop?) && w == Loop(n))
  {
    hide L.Doubled, Lifetime, NextYield;
  }

  lemma OthersOwn(s: State, e: Event, w: Owner, id: nat)
    requires Enabled(s, e) && !e.OnOpener? && !e.OnLoop?
    ensures Owns(Apply(s, e), w, id) <==> Owns(s, w, id)
  {
    hide R.Apply, R.Enabled, RxEvent, ApplyShut, ApplyOpen, ApplyLoop, OpenEnabled, LoopEnabled;
    if e.OnShutdown? {
      ShutKeeps(s, e.c, e.shut);
    }
  }

  lemma ShutKeeps(s: State, c: nat, e: ShutEvent)
    requires ShutEnabled(s, c, e)
    ensures ApplyShut(s, c, e).loops == s.loops && ApplyShut(s, c, e).openers == s.openers
  {
  }

  lemma OwnsAfter(s: State, e: Event, w: Owner, id: nat)
    requires Enabled(s, e)
    ensures e.OnOpener? ==> (Owns(Apply(s, e), w, id) <==> Owns(ApplyOpen(s, e.o, e.open), w, id))
    ensures e.OnLoop? ==> (Owns(Apply(s, e), w, id) <==> Owns(ApplyLoop(s, e.n, e.loop), w, id))
  {
    hide R.Apply, R.Enabled, RxEvent, ApplyOpen, ApplyLoop, OpenEnabled, LoopEnabled;
  }

  /** What an opener's step drops or opens is its own. */
  lemma OpenerDrops(s: State, o: nat, e: OpenEvent)
    requires Enabled(s, OnOpener(o, e))
    ensures OpenEnabled(s, o, e)
    ensures Dropped(s, OnOpener(o, e)) == if e.Discard? then OpenedBy(s.openers[o]) else None
    ensures Opens(s, OnOpener(o, e)) <==> e.Subscribe?
    ensures e.Discard? ==> OpenedBy(s.openers[o]).Some?
  {
    hide R.Enabled;
  }

  /** Loop `n` lets its stream go. */
  ghost predicate LetsGo(s: State, n: nat, e: LoopEvent) {
    n in s.loops && s.loops[n].pc.Streaming? && (e.SeeEnd? || e.DropLoop?)
  }

  lemma LoopDrops(s: State, n: nat, e: LoopEvent)
    requires Enabled(s, OnLoop(n, e))
    ensures LoopEnabled(s, n, e) && !Opens(s, OnLoop(n, e))
    ensures Dropped(s, OnLoop(n, e)) ==
              if LetsGo(s, n, e) then Some(s.loops[n].pc.id) else None
  {
    hide R.Enabled;
  }

  // ----- Every step -----

  /** A step gives each owner what it had, but for one that is dropped with its stream or opened. */
  ghost predicate Moves(s: State, s': State, gone: Option<nat>, fresh': Option<nat>) {
    && (forall id: nat ::
          H.Accepts(s'.rx.hub, id) <==> (H.Accepts(s.rx.hub, id) && gone != Some(id)) || fresh' == Some(id))
    && (forall id: nat :: gone != Some(id) && HasOwner(s, id) ==> HasOwner(s', id))
    && (forall w, id: nat :: Owns(s', w, id) ==> gone != Some(id) && (fresh' == Some(id) || HasOwner(s, id)))
    && (forall w, v, id: nat :: Owns(s', w, id) && Owns(s', v, id) ==> w == v)
    && (fresh'.Some? ==> HasOwner(s', fresh'.value))
  }

  lemma MovesOwned(s: State, s': State, gone: Option<nat>, fresh': Option<nat>)
    requires Owned(s) && Moves(s, s', gone, fresh')
    ensures Owned(s')
  {
    hide Owns, H.Accepts;
  }

  lemma OpenerStep(s: State, o: nat, e: OpenEvent)
    requires Owned(s) && Enabled(s, OnOpener(o, e))
    ensures Owned(Apply(s, OnOpener(o, e)))
  {
    hide Apply, Enabled, ApplyOpen, OpenEnabled, Owns, H.Accepts, RxEvent;
    var ev := OnOpener(o, e);
    var s' := Apply(s, ev);
    OpenerDrops(s, o, e);
    forall w, id: nat
      ensures Owns(s', w, id) <==>
                (Owns(s, w, id) && !(e.Discard? && w == Opener(o)))
                || (e.Subscribe? && w == Opener(o) && id == |s.rx.hub.channels|)
    {
      OwnsAfter(s, ev, w, id);
      OpenerOwns(s, o, e, w, id);
    }
    var gone := Dropped(s, ev);
    var fresh' := if e.Subscribe? then Some(|s.rx.hub.channels|) else None;
    forall id: nat
      ensures H.Accepts(s'.rx.hub, id) <==> (H.Accepts(s.rx.hub, id) && gone != Some(id)) || fresh' == Some(id)
    {
      StepOpens(s, ev, id);
    }
    OpenerHas(s, o, e);
    forall id: nat | gone != Some(id) && HasOwner(s, id)
      ensures HasOwner(s', id)
    {
      var w :| Owns(s, w, id);
      assert Owns(s', w, id);
    }
    forall w, id: nat | Owns(s', w, id)
      ensures gone != Some(id) && (fresh' == Some(id) || HasOwner(s, id))
    {
      assert gone == Some(id) ==> Owns(s, Opener(o), id);
    }
    assert e.Subscribe? ==> Owns(s', Opener(o), |s.rx.hub.channels|);
    MovesOwned(s, s', gone, fresh');
  }

  /** An opener owns what it discards, and nothing before it subscribes; a new stream is nobody's. */
  lemma OpenerHas(s: State, o: nat, e: OpenEvent)
    requires Owned(s) && OpenEnabled(s, o, e)
    ensures e.Discard? ==> OpenedBy(s.openers[o]).Some?
    ensures forall id: nat :: Owns(s, Opener(o), id) <==> OpenedBy(s.openers[o]) == Some(id)
    ensures e.Subscribe? ==> forall id: nat :: !Owns(s, Opener(o), id)
    ensures forall w :: !Owns(s, w, |s.rx.hub.channels|)
  {
  }

  lemma LoopStep(s: State, n: nat, e: LoopEvent)
    requires Owned(s) && Enabled(s, OnLoop(n, e))
    ensures Owned(Apply(s, OnLoop(n, e)))
  {
    hide Apply, Enabled, ApplyLoop, LoopEnabled, H.Accepts, RxEvent, Owns;
    var ev := OnLoop(n, e);
    var s' := Apply(s, ev);
    LoopDrops(s, n, e);
    forall w, id: nat
      ensures Owns(s', w, id) <==> Owns(ApplyLoop(s, n, e), w, id)
    {
      OwnsAfter(s, ev, w, id);
    }
    var gone := Dropped(s, ev);
    forall id: nat
      ensures H.Accepts(s'.rx.hub, id) <==> H.Accepts(s.rx.hub, id) && gone != Some(id)
    {
      StepOpens(s, ev, id);
    }
    LoopMoves(s, n, e, s', gone);
    MovesOwned(s, s', gone, None);
  }

  lemma LoopMoves(s: State, n: nat, e: LoopEvent, s': State, gone: Option<nat>)
    requires Owned(s) && LoopEnabled(s, n, e)
    requires gone == if LetsGo(s, n, e) then Some(s.loops[n].pc.id) else None
    requires forall w, id: nat :: Owns(s', w, id) <==> Owns(ApplyLoop(s, n, e), w, id)
    requires forall id: nat :: H.Accepts(s'.rx.hub, id) <==> H.Accepts(s.rx.hub, id) && gone != Some(id)
    ensures Moves(s, s', gone, None)
  {
    hide ApplyLoop, H.Accepts;
    if e.TakeStream? {
      TakeMoves(s, n, s');
    } else {
      forall w, id: nat
        ensures Owns(s', w, id) <==> Owns(s, w, id) && !((e.SeeEnd? || e.DropLoop?) && w == Loop(n))
      {
        LoopOwns(s, n, e, w, id);
      }
      forall id: nat | gone != Some(id) && HasOwner(s, id)
        ensures HasOwner(s', id)
      {
        var w :| Owns(s, w, id);
        assert Owns(s', w, id);
      }
      forall w, id: nat | Owns(s', w, id)
        ensures gone != Some(id) && HasOwner(s, id)
      {
        assert Owns(s, w, id) && (gone == Some(id) ==> Owns(s, Loop(n), id));
      }
    }
  }

  lemma TakeMoves(s: State, n: nat, s': State)
    requires Owned(s) && LoopEnabled(s, n, TakeStream)
    requires forall w, id: nat :: Owns(s', w, id) <==> Owns(ApplyLoop(s, n, TakeStream), w, id)
    requires forall id: nat :: H.Accepts(s'.rx.hub, id) <==> H.Accepts(s.rx.hub, id)
    ensures Moves(s, s', None, None)
  {
    hide ApplyLoop, H.Accepts, Owns;
    var from := Opener(s.loops[n].pc.o);
    forall w, id: nat
      ensures Owns(s', w, id) <==>
                if w == Loop(n) || w == from then w == Loop(n) && Owns(s, from, id) else Owns(s, w, id)
    {
      LoopOwns(s, n, TakeStream, w, id);
    }
    NotStreaming(s, n);
    forall id: nat | HasOwner(s, id)
      ensures HasOwner(s', id)
    {
      var w :| Owns(s, w, id);
      assert Owns(s', if w == from then Loop(n) else w, id);
    }
  }

  lemma NotStreaming(s: State, n: nat)
    requires LoopEnabled(s, n, TakeStream)
    ensures forall id: nat :: !Owns(s, Loop(n), id)
  {
  }

  lemma OtherStep(s: State, e: Event)
    requires Owned(s) && Enabled(s, e) && !e.OnOpener? && !e.OnLoop?
    ensures Owned(Apply(s, e))
  {
    hide Apply, Enabled, Owns, H.Accepts, RxEvent;
    var s' := Apply(s, e);
    forall w, id: nat
      ensures Owns(s', w, id) <==> Owns(s, w, id)
    {
      OthersOwn(s, e, w, id);
    }
    NotAStream(s, e);
    forall id: nat
      ensures H.Accepts(s'.rx.hub, id) <==> H.Accepts(s.rx.hub, id)
    {
      StepOpens(s, e, id);
    }
    assert Owned(s') by {
      forall id: nat | H.Accepts(s'.rx.hub, id)
        ensures HasOwner(s', id)
      {
        var w :| Owns(s, w, id);
        assert Owns(s', w, id);
      }
    }
  }

  lemma NotAStream(s: State, e: Event)
    requires Enabled(s, e) && !e.OnOpener? && !e.OnLoop?
    ensures Dropped(s, e) == None && !Opens(s, e)
  {
    hide R.Enabled;
  }

  lemma StepOwned(s: State, e: Event)
    requires Owned(s) && Enabled(s, e)
    ensures Owned(Apply(s, e))
  {
    hide Owned, Apply, Enabled;
    if e.OnOpener? {
      OpenerStep(s, e.o, e.open);
    } else if e.OnLoop? {
      LoopStep(s, e.n, e.loop);
    } else {
      OtherStep(s, e);
    }
  }

  /** In every run of the link, each open stream has exactly one owner, and only open streams have one. */
  lemma {:induction false} EveryStreamHasOneOwner(ss: seq<State>, es: seq<Event>, i: nat)
    requires IsRun(ss, es) && i < |ss|
    ensures Owned(ss[i])
  {
    hide Apply, Enabled, Owned;
    if i == 0 {
      InitOwned(ss[0].rx.now);
    } else {
      EveryStreamHasOneOwner(ss, es, i - 1);
      StepOwned(ss[i - 1], es[i - 1]);
    }
  }

  lemma InitOwned(now: H.Time)
    ensures Owned(Init(now))
  {
  }
}
