/**
 * Forgetting finished listeners makes no difference, over whole runs of the receiver.
 *
 * The receiver's machine keeps every listener ever registered; the code's vector drops finished
 * ones whenever it is used. Here the vector runs beside the machine, its operations being those
 * that the methods of `ListenerVec.Table` are proved to perform on its contents, and every
 * decision taken from it is the machine's.
 */
module ListenerRuns {
  import opened Base
  import opened Counting
  import H = Hub
  import T = ListenerTable
  import opened Receiver
  import B = ReceiverBounds
  import E = ReceiverEviction

  /** The states shared with all listeners ever registered, and which of them the vector holds. */
  datatype Vec = Vec(states: seq<T.State>, ids: seq<nat>)

  ghost predicate InRange(v: Vec) {
    forall i :: 0 <= i < |v.ids| ==> v.ids[i] < |v.states|
  }

  /** The vector's contents. */
  ghost function View(v: Vec): (ls: seq<T.State>)
    requires InRange(v)
    ensures |ls| == |v.ids|
    ensures forall i :: 0 <= i < |ls| ==> ls[i] == v.states[v.ids[i]]
  {
    seq(|v.ids|, i requires 0 <= i < |v.ids| => v.states[v.ids[i]])
  }

  /** In order of registration, with every running listener. */
  ghost predicate Covers(v: Vec) {
    && InRange(v) && Ascending(v.ids)
    && (forall l :: 0 <= l < |v.states| && v.states[l].running ==> l in v.ids)
  }

  /** The same but for the `evicted` flag of a finished listener, which nobody reads. */
  ghost predicate SameState(a: T.State, b: T.State) {
    a.key == b.key && a.running == b.running && a.lastActive == b.lastActive && (a.running ==> a.evicted == b.evicted)
  }

  ghost predicate Agrees(ls: seq<T.State>, v: Vec) {
    Covers(v) && |v.states| == |ls| && forall l :: 0 <= l < |ls| ==> SameState(ls[l], v.states[l])
  }

  // ----- Counting in the vector -----

  ghost function Image(ids: seq<nat>, s: set<nat>): set<nat>
    requires forall i :: i in s ==> i < |ids|
  {
    set i | i in s :: ids[i]
  }

  lemma {:induction false} ImageCount(ids: seq<nat>, s: set<nat>)
    requires (forall i :: i in s ==> i < |ids|) && Distinct(ids)
    ensures |Image(ids, s)| == |s|
    decreases |s|
  {
    if s != {} {
      var i :| i in s;
      ImageCount(ids, s - {i});
      assert Image(ids, s) == Image(ids, s - {i}) + {ids[i]};
    }
  }

  /** `part` holds some of the listeners of `all`, named by `ids`, and all that run. */
  ghost predicate Through(all: seq<T.State>, ids: seq<nat>, part: seq<T.State>) {
    && |part| == |ids| && Ascending(ids)
    && (forall i :: 0 <= i < |ids| ==> ids[i] < |all| && SameState(all[ids[i]], part[i]))
    && (forall l :: 0 <= l < |all| && all[l].running ==> l in ids)
  }

  lemma Place(all: seq<T.State>, ids: seq<nat>, part: seq<T.State>, l: nat) returns (i: nat)
    requires Through(all, ids, part) && l < |all| && all[l].running
    ensures i < |ids| && ids[i] == l
  {
    assert l in ids;
    i :| 0 <= i < |ids| && ids[i] == l;
  }

  /** As many connections are open, and as many kept, in the part as in the whole. */
  lemma SameCounts(all: seq<T.State>, ids: seq<nat>, part: seq<T.State>)
    requires Through(all, ids, part)
    ensures |T.Running(part)| == |T.Running(all)| && |T.Kept(part)| == |T.Kept(all)|
    ensures T.MayAccept(part) == T.MayAccept(all)
  {
    var running, kept := T.Running(part), T.Kept(part);
    forall l | l in T.Running(all)
      ensures l in Image(ids, running) && (l in T.Kept(all) ==> l in Image(ids, kept))
    {
      var i := Place(all, ids, part, l);
      assert i in running;
    }
    assert T.Kept(all) <= T.Running(all);
    assert Image(ids, running) == T.Running(all);
    assert Image(ids, kept) == T.Kept(all);
    ImageCount(ids, running);
    ImageCount(ids, kept);
  }

  // ----- The vector's operations -----

  /** The listeners of a vector that have not finished, in order. */
  ghost function Unfinished(states: seq<T.State>, ids: seq<nat>): (r: seq<nat>)
    requires forall i :: 0 <= i < |ids| ==> ids[i] < |states|
    ensures forall l :: l in r <==> l in ids && states[l].running
  {
    if ids == [] then []
    else
      var k := |ids| - 1;
      var rest := Unfinished(states, ids[..k]);
      assert ids == ids[..k] + [ids[k]];
      if states[ids[k]].running then rest + [ids[k]] else rest
  }

  lemma {:induction false} UnfinishedAscends(states: seq<T.State>, ids: seq<nat>)
    requires (forall i :: 0 <= i < |ids| ==> ids[i] < |states|) && Ascending(ids)
    ensures Ascending(Unfinished(states, ids))
  {
    if ids != [] {
      var k := |ids| - 1;
      assert Ascending(ids[..k]);
      UnfinishedAscends(states, ids[..k]);
      var rest := Unfinished(states, ids[..k]);
      assert forall x :: x in rest ==> x in ids[..k];
      Snoc(rest, ids[k]);
    }
  }

  /** `open`: forget the finished ones. */
  ghost function Pruned(v: Vec): Vec
    requires InRange(v)
  {
    v.(ids := Unfinished(v.states, v.ids))
  }

  ghost function Registered(v: Vec, key: Dest, now: nat): Vec {
    Vec(T.Register(v.states, key, now), v.ids + [|v.states|])
  }

  ghost function IndexOf(ids: seq<nat>, l: nat): (i: nat)
    requires l in ids
    ensures i < |ids| && ids[i] == l
  {
    var i :| 0 <= i < |ids| && ids[i] == l;
    i
  }

  /** The shared states after the vector's contents became `ls`. */
  ghost function Written(v: Vec, ls: seq<T.State>): (states: seq<T.State>)
    requires |ls| == |v.ids|
    ensures |states| == |v.states|
    ensures forall l :: 0 <= l < |states| ==> states[l] == if l in v.ids then ls[IndexOf(v.ids, l)] else v.states[l]
  {
    seq(|v.states|, l requires 0 <= l < |v.states| => if l in v.ids then ls[IndexOf(v.ids, l)] else v.states[l])
  }

  /** `supersede`: a finished listener replaces nothing; another marks others and forgets finished ones. */
  ghost function Superseded(v: Vec, k: nat): Vec
    requires Covers(v) && k < |v.states|
  {
    if !v.states[k].running then v
    else
      var marked := v.(states := Written(v, T.Supersede(View(v), IndexOf(v.ids, k))));
      Pruned(marked)
  }

  ghost function WithState(v: Vec, l: nat, st: T.State): Vec
    requires l < |v.states|
  {
    v.(states := v.states[l := st])
  }

  // ----- Each keeps the agreement -----

  lemma PrunedAgrees(ls: seq<T.State>, v: Vec)
    requires Agrees(ls, v)
    ensures Agrees(ls, Pruned(v))
  {
    UnfinishedAscends(v.states, v.ids);
    var ids := Unfinished(v.states, v.ids);
    forall i | 0 <= i < |ids|
      ensures ids[i] < |v.states|
    {
      assert ids[i] in v.ids;
    }
    forall l | 0 <= l < |v.states| && v.states[l].running
      ensures l in ids
    {
      assert l in v.ids;
    }
  }

  lemma RegisteredAgrees(ls: seq<T.State>, v: Vec, key: Dest, now: nat)
    requires Agrees(ls, v)
    ensures Agrees(T.Register(ls, key, now), Registered(v, key, now))
  {
    var v' := Registered(v, key, now);
    forall l | 0 <= l < |v'.states| && v'.states[l].running
      ensures l in v'.ids
    {
      if l < |v.states| {
        assert l in v.ids;
      }
    }
  }

  lemma WithStateAgrees(ls: seq<T.State>, v: Vec, l: nat, a: T.State, b: T.State)
    requires Agrees(ls, v) && l < |ls| && SameState(a, b) && (a.running ==> ls[l].running)
    ensures Agrees(ls[l := a], WithState(v, l, b))
  {
  }

  // ----- Superseding -----

  /** Marking the stale connections. */
  lemma MarkedThrough(all: seq<T.State>, ids: seq<nat>, part: seq<T.State>, k: nat, p: nat)
    requires Through(all, ids, part) && p < |ids| && ids[p] == k
    ensures Through(T.EvictStale(all, k), ids, T.EvictStale(part, p))
  {
    forall i | 0 <= i < |ids|
      ensures SameState(T.EvictStale(all, k)[ids[i]], T.EvictStale(part, p)[i])
    {
      assert SameState(all[ids[i]], part[i]) && SameState(all[k], part[p]);
      assert ids[i] == k <==> i == p;
    }
  }

  /** The same listener is least recently active among the candidates. */
  lemma SameVictim(all: seq<T.State>, ids: seq<nat>, part: seq<T.State>, k: nat, p: nat)
    requires Through(all, ids, part) && p < |ids| && ids[p] == k
    ensures var m, n := T.LeastRecent(all, k, |all|), T.LeastRecent(part, p, |part|);
            (m < |all| <==> n < |part|) && (n < |part| ==> m == ids[n])
  {
    hide T.LeastRecent;
    var m, n := T.LeastRecent(all, k, |all|), T.LeastRecent(part, p, |part|);
    if n < |part| {
      assert T.Candidate(all, k, ids[n]);
      T.LeastRecentIsLeast(all, k, |all|, ids[n]);
    }
    if m < |all| {
      assert m in ids;
      var q :| 0 <= q < |ids| && ids[q] == m;
      assert T.Candidate(part, p, q);
      T.LeastRecentIsLeast(part, p, |part|, q);
    }
  }

  lemma EvictedThrough(all: seq<T.State>, ids: seq<nat>, part: seq<T.State>, n: nat)
    requires Through(all, ids, part) && n < |ids|
    ensures Through(T.Evicted(all, ids[n]), ids, T.Evicted(part, n))
  {
    forall i | 0 <= i < |ids|
      ensures SameState(T.Evicted(all, ids[n])[ids[i]], T.Evicted(part, n)[i])
    {
      assert ids[i] == ids[n] <==> i == n;
    }
  }

  /** Superseding among some listeners, all running ones included, is superseding among all. */
  lemma SupersedeThrough(all: seq<T.State>, ids: seq<nat>, part: seq<T.State>, k: nat, p: nat)
    requires Through(all, ids, part) && p < |ids| && ids[p] == k
    ensures Through(T.Supersede(all, k), ids, T.Supersede(part, p))
  {
    hide T.Kept, T.LeastRecent, T.EvictStale, Through;
    PlaceIsThere(all, ids, part, p);
    if all[k].running {
      var marked, markedPart := T.EvictStale(all, k), T.EvictStale(part, p);
      MarkedThrough(all, ids, part, k, p);
      SameCounts(marked, ids, markedPart);
      SameVictim(marked, ids, markedPart, k, p);
      var n := T.LeastRecent(markedPart, p, |markedPart|);
      if n < |markedPart| {
        EvictedThrough(marked, ids, markedPart, n);
      }
    }
  }

  lemma PlaceIsThere(all: seq<T.State>, ids: seq<nat>, part: seq<T.State>, p: nat)
    requires Through(all, ids, part) && p < |ids|
    ensures |part| == |ids| && ids[p] < |all| && part[p].running == all[ids[p]].running
  {
  }

  lemma AgreesThrough(ls: seq<T.State>, v: Vec)
    requires Agrees(ls, v)
    ensures Through(ls, v.ids, View(v))
  {
    forall l | 0 <= l < |ls| && ls[l].running
      ensures l in v.ids
    {
      assert SameState(ls[l], v.states[l]);
    }
  }

  lemma SupersededAgrees(ls: seq<T.State>, v: Vec, k: nat)
    requires Agrees(ls, v) && k < |ls|
    ensures Agrees(T.Supersede(ls, k), Superseded(v, k))
  {
    assert SameState(ls[k], v.states[k]);
    if ls[k].running {
      hide T.Kept, T.LeastRecent, T.EvictStale;
      AgreesThrough(ls, v);
      var p := IndexOf(v.ids, k);
      SupersedeThrough(ls, v.ids, View(v), k, p);
      var after, part := T.Supersede(ls, k), T.Supersede(View(v), p);
      var marked := v.(states := Written(v, part));
      WrittenAgrees(ls, v, k, part);
      PrunedAgrees(after, marked);
    }
  }

  lemma WrittenAgrees(ls: seq<T.State>, v: Vec, k: nat, part: seq<T.State>)
    requires Agrees(ls, v) && k < |ls| && Through(T.Supersede(ls, k), v.ids, part)
    ensures Agrees(T.Supersede(ls, k), v.(states := Written(v, part)))
  {
    hide T.Supersede;
    var after, states := T.Supersede(ls, k), Written(v, part);
    B.SupersedeFewer(ls, k);
    forall l | 0 <= l < |after|
      ensures SameState(after[l], states[l])
    {
      E.SupersedeKeepsActivity(ls, k, l);
      assert SameState(ls[l], v.states[l]);
      if l in v.ids {
        assert SameState(after[v.ids[IndexOf(v.ids, l)]], part[IndexOf(v.ids, l)]);
      }
    }
    forall l | 0 <= l < |states| && states[l].running
      ensures l in v.ids
    {
      assert SameState(after[l], states[l]) && after[l].running;
    }
  }

  // ----- Whole runs -----

  /** What a step of the receiver does to the vector and the shared states. */
  ghost function Step(v: Vec, s: State, e: Event): Vec
    requires Enabled(s, e) && Covers(v) && |v.states| == |s.table|
  {
    match e
    case OnAccept(t, WaitSlot) => Pruned(v)
    case OnAccept(t, Register) => Registered(v, s.acceptors[t].key, s.now)
    case OnAccept(t, Supersede) => Superseded(v, s.acceptors[t].l)
    case OnListener(l, Receive(Bundle(_))) => WithState(v, l, v.states[l].(lastActive := s.now))
    case OnListener(l, MarkDone) => WithState(v, l, v.states[l].(running := false))
    case _ => v
  }

  lemma AcceptAgrees(s: State, t: nat, e: AcceptEvent, v: Vec)
    requires AcceptEnabled(s, t, e) && Agrees(s.table, v)
    ensures Agrees(ApplyAccept(s, t, e).table, Step(v, s, OnAccept(t, e)))
  {
    hide Agrees, T.Supersede, T.MayAccept, H.Deliver, H.AcceptPanicked, Pruned, Superseded;
    AgreesSizes(s.table, v);
    if e.WaitSlot? {
      PrunedAgrees(s.table, v);
    } else if e.Register? {
      RegisteredAgrees(s.table, v, s.acceptors[t].key, s.now);
    } else if e.Supersede? {
      SupersededAgrees(s.table, v, s.acceptors[t].l);
    }
  }

  lemma AgreesSizes(ls: seq<T.State>, v: Vec)
    requires Agrees(ls, v)
    ensures Covers(v) && |v.states| == |ls|
  {
  }

  lemma ListenerAgrees(s: State, l: nat, e: ListenerEvent, v: Vec)
    requires ListenerEnabled(s, l, e) && Agrees(s.table, v)
    ensures Agrees(ApplyListener(s, l, e).table, Step(v, s, OnListener(l, e)))
  {
    hide Agrees, H.Deliver;
    AgreesSizes(s.table, v);
    SameHere(s.table, v, l);
    var st := s.table[l];
    if e.Receive? && e.outcome.Bundle? {
      WithStateAgrees(s.table, v, l, st.(lastActive := s.now), v.states[l].(lastActive := s.now));
    } else if e.MarkDone? {
      WithStateAgrees(s.table, v, l, st.(running := false), v.states[l].(running := false));
    }
  }

  lemma SameHere(ls: seq<T.State>, v: Vec, l: nat)
    requires Agrees(ls, v) && l < |ls|
    ensures |v.states| == |ls| && SameState(ls[l], v.states[l])
  {
  }

  lemma StepAgrees(s: State, e: Event, v: Vec)
    requires Enabled(s, e) && Agrees(s.table, v)
    ensures Agrees(Apply(s, e).table, Step(v, s, e))
  {
    hide Agrees, ApplyStream, ApplyClose, ApplyAccept, ApplyListener, Pruned, Superseded, WithState, Registered;
    AgreesSizes(s.table, v);
    match e
    case OnStream(se) => B.StreamPlace(s, se);
    case OnClose(c, ce) => B.ClosePlace(s, c, ce);
    case OnAccept(t, ae) => AcceptAgrees(s, t, ae, v);
    case OnListener(l, le) => ListenerAgrees(s, l, le, v);
    case Tick(_) =>
  }

  /** The vector run beside the receiver's. */
  ghost predicate VectorRun(ss: seq<State>, es: seq<Event>, vs: seq<Vec>) {
    && IsRun(ss, es) && |vs| == |ss| && vs[0] == Vec([], [])
    && (forall i :: 0 <= i < |es| ==>
          Covers(vs[i]) && |vs[i].states| == |ss[i].table| && vs[i + 1] == Step(vs[i], ss[i], es[i]))
  }

  lemma {:induction false} RunAgrees(ss: seq<State>, es: seq<Event>, vs: seq<Vec>, i: nat)
    requires VectorRun(ss, es, vs) && i < |ss|
    ensures Agrees(ss[i].table, vs[i])
  {
    hide Apply, Enabled, Step;
    if i > 0 {
      RunAgrees(ss, es, vs, i - 1);
      StepAgrees(ss[i - 1], es[i - 1], vs[i - 1]);
    }
  }

  /** Every run of the receiver has a run of the vector beside it. */
  lemma {:induction false} VectorRunsAlong(ss: seq<State>, es: seq<Event>) returns (vs: seq<Vec>)
    requires IsRun(ss, es)
    ensures VectorRun(ss, es, vs)
    decreases |es|
  {
    hide Apply, Enabled, Step, Covers;
    if es == [] {
      vs := [Vec([], [])];
    } else {
      var n := |es| - 1;
      var ss', es' := ss[..n + 1], es[..n];
      vs := VectorRunsAlong(ss', es');
      RunAgrees(ss', es', vs, n);
      AgreesSizes(ss[n].table, vs[n]);
      vs := vs + [Step(vs[n], ss[n], es[n])];
    }
  }

  /**
   * In every state of every run, forgetting finished listeners is no difference: the vector may
   * accept another connection exactly if the full table may, and every running listener has the
   * same `evicted` flag.
   */
  lemma ForgettingIsNoDifference(ss: seq<State>, es: seq<Event>, vs: seq<Vec>, i: nat)
    requires VectorRun(ss, es, vs) && i < |ss|
    ensures InRange(vs[i]) && T.MayAccept(View(vs[i])) == T.MayAccept(ss[i].table) && |vs[i].states| == |ss[i].table|
    ensures forall l :: 0 <= l < |ss[i].table| && ss[i].table[l].running ==>
              l in vs[i].ids && vs[i].states[l] == ss[i].table[l]
  {
    hide T.MayAccept, IsRun;
    RunAgrees(ss, es, vs, i);
    AgreesThrough(ss[i].table, vs[i]);
    SameCounts(ss[i].table, vs[i].ids, View(vs[i]));
    forall l | 0 <= l < |ss[i].table| && ss[i].table[l].running
      ensures l in vs[i].ids && vs[i].states[l] == ss[i].table[l]
    {
      assert SameState(ss[i].table[l], vs[i].states[l]);
    }
  }
}
