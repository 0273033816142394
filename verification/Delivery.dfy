/**
 * The theorems are not about runs that do not exist: for every bundle there is a run in which it
 * is sent, received, acknowledged and read, with the stream, the accept thread and the listener
 * doing their part.
 */
module Delivery {
  import opened Base
  import P = Pool
  import S = Send
  import H = Hub
  import R = Receiver
  import A = AckProtocol
  import X = ReceiverRuns
  import opened EndToEnd

  /** Some run leads to `s`. */
  ghost predicate Reached(s: System) {
    exists ss, es :: RunTo(ss, es, s)
  }

  ghost predicate RunTo(ss: seq<System>, es: seq<Event>, s: System) {
    IsRun(0, ss, es) && ss[|ss| - 1] == s
  }

  lemma Begins(s: System)
    requires s == System(s.here, A.Init(0), R.Init(s.rx.now))
    ensures Reached(s)
  {
    assert RunTo([s], [], s);
  }

  lemma Goes(s: System, e: Event)
    requires Reached(s) && Enabled(s, e)
    ensures Reached(Apply(s, e))
  {
    hide Enabled, Apply, A.Init, R.Init;
    var ss, es :| RunTo(ss, es, s);
    var ss', es' := ss + [Apply(s, e)], es + [e];
    forall i | 0 <= i < |es'|
      ensures Enabled(ss'[i], es'[i]) && ss'[i + 1] == Apply(ss'[i], es'[i])
    {
      assert ss'[i] == ss[i];
      if i < |es| {
        assert ss'[i + 1] == ss[i + 1] && es'[i] == es[i];
      }
    }
    assert RunTo(ss', es', Apply(s, e));
  }

  // ----- The receiver alone -----

  /** A run of the receiver that receives no bundle goes on beside any sender. */
  lemma {:induction false} Beside(here: Dest, world: A.World, rs: seq<R.State>, res: seq<R.Event>, k: nat)
    requires R.IsRun(rs, res) && k < |rs| && (forall i :: 0 <= i < |res| ==> !X.Takes(res[i]))
    requires Reached(System(here, world, rs[0]))
    ensures Reached(System(here, world, rs[k]))
  {
    hide Reached, R.Apply, R.Enabled;
    if k > 0 {
      Beside(here, world, rs, res, k - 1);
      Goes(System(here, world, rs[k - 1]), Receiving(res[k - 1]));
    }
  }

  lemma Serves(here: Dest, world: A.World, key: Dest, now: H.Time)
    requires forall t :: Reached(System(here, world, R.Init(t)))
    ensures Reached(System(here, world, X.Fresh(R.Head, key, R.Reading, now)))
  {
    hide Reached, R.Apply, R.Enabled;
    X.Serves(key, now);
    var rs, res :| X.RunTo(rs, res, X.Fresh(R.Head, key, R.Reading, now), [], true);
    Beside(here, world, rs, res, |rs| - 1);
  }

  // ----- The sender -----

  /** Connection 0 to `dest`, with `sent` put on it. */
  function Wire(dest: Dest, sent: seq<Copy>, fwd: seq<Copy>, received: seq<Copy>, acks: nat): A.Conn {
    A.Conn(dest, sent, fwd, received, acks, acks, 0)
  }

  /** The first send, to `t.dest`, talks on connection 0, which looks like `c`. */
  ghost predicate Talks(w: A.World, t: S.Task, phase: A.Phase, c: A.Conn) {
    P.Shaped(w.pool) && w.phase == phase && w.conns == map[0 := c] && w.sends == 0 && w.log == []
  }

  lemma Connects(t: S.Task) returns (w: A.World)
    ensures var e := A.Start(t, P.Weather(0, Some(0), 0));
            A.Enabled(A.Init(0), e) && w == A.Apply(A.Init(0), e)
    ensures Talks(w, t, A.Ready(t, 0, 0), Wire(t.dest, [], [], [], 0))
  {
    var e, p := A.Start(t, P.Weather(0, Some(0), 0)), P.Ticked(P.Init(0));
    w := A.Apply(A.Init(0), e);
    assert forall i :: 0 <= i < POOL_SIZE ==> !P.CachedFor(t.dest)(p.entries[i]);
    assert !P.Usable(p, t.dest, 0);
  }

  lemma Sends(w: A.World, t: S.Task)
    requires Talks(w, t, A.Ready(t, 0, 0), Wire(t.dest, [], [], [], 0))
    ensures A.Enabled(w, A.SfpSent)
    ensures var m := Copy(0, 0, t.data);
            Talks(A.Apply(w, A.SfpSent), t, A.Waiting(t, 0, 0), Wire(t.dest, [m], [m], [], 0))
  {
    var m := Copy(0, 0, t.data);
    assert A.Current(w) == m && [] + [m] == [m];
    assert A.Put(Wire(t.dest, [], [], [], 0), m) == Wire(t.dest, [m], [m], [], 0);
  }

  lemma Reads(w: A.World, t: S.Task, c: A.Conn)
    requires Talks(w, t, A.Waiting(t, 0, 0), c) && c.bwd == 1
    ensures A.Enabled(w, A.AckRead)
    ensures A.Apply(w, A.AckRead).log == [A.Report(0, t, OK, Some(A.Receipt(0, 0, c.acksRead)))]
  {
  }

  lemma Transfers(s: System, t: S.Task, m: Copy, key: Dest)
    requires Reached(s) && s.here == t.dest && m == Copy(0, 0, t.data)
    requires Talks(s.world, t, A.Waiting(t, 0, 0), Wire(t.dest, [m], [m], [], 0))
    requires s.rx == X.Served(R.Head, key, R.Reading, [], multiset{}, multiset{}, s.rx.now)
    ensures Enabled(s, Transfer(0, true))
    ensures var s' := Apply(s, Transfer(0, true));
            && Reached(s') && Talks(s'.world, t, A.Waiting(t, 0, 0), Wire(t.dest, [m], [], [m], 1))
            && s'.rx == X.Served(R.Head, key, R.InHand(m), [], multiset{m}, multiset{}, s.rx.now)
  {
    hide Reached;
    assert Local(s, 0);
    WireTransfers(s.world, t, m);
    HandTakes(s.rx, m, key);
    Goes(s, Transfer(0, true));
  }

  lemma WireTransfers(w: A.World, t: S.Task, m: Copy)
    requires Talks(w, t, A.Waiting(t, 0, 0), Wire(t.dest, [m], [m], [], 0))
    ensures A.Enabled(w, A.Receive(0, true))
    ensures Talks(A.Apply(w, A.Receive(0, true)), t, A.Waiting(t, 0, 0), Wire(t.dest, [m], [], [m], 1))
  {
    A.NetApply(w, A.Receive(0, true));
    assert [m][1..] == [] && [] + [m] == [m];
  }

  lemma HandTakes(rx: R.State, m: Copy, key: Dest)
    requires rx == X.Fresh(R.Head, key, R.Reading, rx.now)
    ensures var e := R.OnListener(0, R.Receive(R.Bundle(m)));
            && R.Enabled(rx, e)
            && R.Apply(rx, e) == X.Served(R.Head, key, R.InHand(m), [], multiset{m}, multiset{}, rx.now)
  {
    assert multiset{} + multiset{m} == multiset{m};
  }

  /** The sender has put the bundle on connection 0, at any time of the receiver. */
  lemma Sent(t: S.Task) returns (w: A.World)
    ensures var m := Copy(0, 0, t.data); Talks(w, t, A.Waiting(t, 0, 0), Wire(t.dest, [m], [m], [], 0))
    ensures forall now :: Reached(System(t.dest, w, R.Init(now)))
  {
    hide A.Enabled, A.Apply, R.Init, Reached, Talks;
    var w0 := Connects(t);
    Sends(w0, t);
    w := A.Apply(w0, A.SfpSent);
    forall now
      ensures Reached(System(t.dest, w, R.Init(now)))
    {
      var s := System(t.dest, A.Init(0), R.Init(now));
      InitNow(now);
      Begins(s);
      Goes(s, Sending(A.Start(t, P.Weather(0, Some(0), 0))));
      Goes(s.(world := w0), Sending(A.SfpSent));
    }
  }

  lemma InitNow(now: H.Time)
    ensures R.Init(now).now == now
  {
  }

  /** Every bundle can be sent, acknowledged and read. */
  lemma EveryBundleCanArrive(t: S.Task, key: Dest, now: H.Time) returns (s: System)
    ensures Reached(s) && s.here == t.dest && s.rx.read == multiset{Copy(0, 0, t.data)}
    ensures |s.world.log| == 1 && s.world.log[0].task == t && s.world.log[0].code == OK
  {
    hide A.Enabled, A.Apply, R.Apply, R.Enabled, Talks, Reached;
    var m := Copy(0, 0, t.data);
    var w := Sent(t);
    Serves(t.dest, w, key, now);
    s := System(t.dest, w, X.Fresh(R.Head, key, R.Reading, now));
    Transfers(s, t, m, key);
    s := Apply(s, Transfer(0, true));
    Reads(s.world, t, Wire(t.dest, [m], [], [m], 1));
    Goes(s, Sending(A.AckRead));
    s := Apply(s, Sending(A.AckRead));
    s := Finishes(s, m, key, now);
  }

  lemma HandGives(m: Copy, key: Dest, now: H.Time)
    ensures var rx := X.Served(R.Head, key, R.InHand(m), [], multiset{m}, multiset{}, now);
            var e := R.OnListener(0, R.Deliver);
            && R.Enabled(rx, e)
            && R.Apply(rx, e) == X.Served(R.Head, key, R.AtGate, [H.Got(m)], multiset{m}, multiset{}, now)
  {
    assert [] + [H.Got(m)] == [H.Got(m)];
  }

  lemma StreamYields(m: Copy, key: Dest, now: H.Time)
    ensures var rx := X.Served(R.Head, key, R.AtGate, [H.Got(m)], multiset{m}, multiset{}, now);
            var e := R.OnStream(R.ReadItem(0));
            R.Enabled(rx, e) && R.Apply(rx, e).read == multiset{m}
  {
  }

  lemma Finishes(s: System, m: Copy, key: Dest, now: H.Time) returns (s': System)
    requires Reached(s) && s.rx == X.Served(R.Head, key, R.InHand(m), [], multiset{m}, multiset{}, now)
    ensures Reached(s') && s' == s.(rx := s'.rx) && s'.rx.read == multiset{m}
  {
    hide Reached, R.Apply, R.Enabled, X.Served;
    HandGives(m, key, now);
    Goes(s, Receiving(R.OnListener(0, R.Deliver)));
    s' := s.(rx := X.Served(R.Head, key, R.AtGate, [H.Got(m)], multiset{m}, multiset{}, now));
    StreamYields(m, key, now);
    Goes(s', Receiving(R.OnStream(R.ReadItem(0))));
    s' := Apply(s', Receiving(R.OnStream(R.ReadItem(0))));
  }
}
