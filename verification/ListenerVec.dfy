/**
 * The connection table as the Rust code keeps it: a vector of listener states shared with their
 * threads, from which finished listeners are dropped as it is used
 * (rust-bindings/cspcl/src/inbound.rs:374-521). Its methods are proved to act on the shared
 * states as module `ListenerTable` says.
 */
module ListenerVec {
  import opened Base
  import opened Counting
  import T = ListenerTable

  /** `ListenerState`: shared between a listener thread and the table. */
  class Listener {
    const key: Dest
    var running: bool
    var evicted: bool
    var lastActive: nat

    constructor (key: Dest, now: nat)
      ensures View() == T.State(key, true, false, now)
    {
      this.key, running, evicted, lastActive := key, true, false, now;
    }

    function View(): T.State
      reads this
    {
      T.State(key, running, evicted, lastActive)
    }
  }

  ghost function Views(v: seq<Listener>): (r: seq<T.State>)
    reads v
    ensures |r| == |v|
    ensures forall i :: 0 <= i < |v| ==> r[i] == v[i].View()
  {
    if v == [] then [] else Views(v[..|v| - 1]) + [v[|v| - 1].View()]
  }

  /** The listeners that have not finished, in order. */
  ghost function Unfinished(v: seq<Listener>): (r: seq<Listener>)
    reads v
    ensures forall l :: l in r ==> l in v && l.running
    ensures forall l :: l in v && l.running ==> l in r
  {
    if v == [] then []
    else
      var rest, l := Unfinished(v[..|v| - 1]), v[|v| - 1];
      assert v == v[..|v| - 1] + [l];
      if l.running then rest + [l] else rest
  }

  ghost function CountKept(v: seq<Listener>): nat
    reads v
  {
    if v == [] then 0
    else CountKept(v[..|v| - 1]) + if v[|v| - 1].running && !v[|v| - 1].evicted then 1 else 0
  }

  /** The first least recently active listener other than `keep` that may be asked to close. */
  ghost function Least(v: seq<Listener>, keep: Listener): (m: Option<Listener>)
    reads v
    ensures m.Some? ==> m.value in v
  {
    if v == [] then None
    else
      var m, l := Least(v[..|v| - 1], keep), v[|v| - 1];
      if l != keep && l.running && !l.evicted && (m.None? || l.lastActive < m.value.lastActive) then Some(l) else m
  }

  lemma NoneUnfinished()
    ensures Unfinished([]) == []
  {
  }

  /** The next listener joins those unfinished if it runs, and was not among them. */
  lemma NextUnfinished(v: seq<Listener>, i: nat)
    requires i < |v| && Distinct(v)
    ensures Unfinished(v[..i + 1]) == if v[i].running then Unfinished(v[..i]) + [v[i]] else Unfinished(v[..i])
    ensures v[i] !in Unfinished(v[..i])
  {
    assert v[..i + 1][..i] == v[..i];
    assert v[i] !in v[..i];
  }

  lemma NoneAtAll()
    ensures Views([]) == [] && T.Running([]) == {} && T.Kept([]) == {}
  {
  }

  lemma {:induction false} RunningCount(v: seq<Listener>)
    ensures |Unfinished(v)| == |T.Running(Views(v))|
  {
    hide Views, T.Running;
    if v == [] {
      NoneAtAll();
    } else {
      var k := |v| - 1;
      RunningCount(v[..k]);
      assert Views(v) == Views(v[..k]) + [v[k].View()];
      T.JoinCounts(Views(v[..k]), v[k].View());
    }
  }

  lemma {:induction false} KeptCount(v: seq<Listener>)
    ensures CountKept(v) == |T.Kept(Views(v))|
  {
    hide Views, T.Kept;
    if v == [] {
      NoneAtAll();
    } else {
      var k := |v| - 1;
      KeptCount(v[..k]);
      assert Views(v) == Views(v[..k]) + [v[k].View()];
      T.JoinCounts(Views(v[..k]), v[k].View());
    }
  }

  /** Finished listeners count for nothing and are never chosen. */
  lemma {:induction false} FinishedAreNoDifference(v: seq<Listener>, keep: Listener)
    ensures CountKept(Unfinished(v)) == CountKept(v)
    ensures Least(Unfinished(v), keep) == Least(v, keep)
  {
    if v != [] {
      var k := |v| - 1;
      FinishedAreNoDifference(v[..k], keep);
      if v[k].running {
        assert Unfinished(v)[..|Unfinished(v)| - 1] == Unfinished(v[..k]);
      }
    }
  }

  lemma {:induction false} LeastIsLeastRecent(v: seq<Listener>, k: nat, n: nat)
    requires k < |v| && n <= |v| && (forall i :: 0 <= i < |v| && v[i] == v[k] ==> i == k)
    ensures var m := T.LeastRecent(Views(v), k, n);
            Least(v[..n], v[k]) == if m < |v| then Some(v[m]) else None
  {
    hide Views;
    if n > 0 {
      LeastIsLeastRecent(v, k, n - 1);
      assert v[..n][..n - 1] == v[..n - 1];
      var l, m := v[n - 1], T.LeastRecent(Views(v), k, n - 1);
      assert l == v[k] <==> n - 1 == k;
      assert T.Candidate(Views(v), k, n - 1) <==> l != v[k] && l.running && !l.evicted;
      assert m < |v| ==> Views(v)[m].lastActive == v[m].lastActive;
    }
  }

  /** The listener to evict, seen from the vector with and without its finished listeners. */
  lemma Choice(v: seq<Listener>, l: Listener, k: nat) returns (m: nat)
    requires Distinct(v) && k < |v| && v[k] == l
    ensures m == T.LeastRecent(Views(v), k, |v|)
    ensures m <= |v| && (forall j :: 0 <= j < |v| && m < |v| && v[j] == v[m] ==> j == m)
    ensures Least(Unfinished(v), l) == if m < |v| then Some(v[m]) else None
    ensures CountEvictable(Unfinished(v)) == |T.Kept(Views(v))|
  {
    m := T.LeastRecent(Views(v), k, |v|);
    LeastIsLeastRecent(v, k, |v|);
    assert v[..|v|] == v;
    FinishedAreNoDifference(v, l);
    AllRunning(Unfinished(v));
    KeptCount(v);
  }

  class Table {
    var listeners: seq<Listener>

    ghost predicate Valid()
      reads this
    {
      Distinct(listeners)
    }

    constructor ()
      ensures Valid() && listeners == []
    {
      listeners := [];
    }

    /** Forget finished listeners; the number of open connections. */
    method Open() returns (n: nat)
      requires Valid()
      modifies this
      ensures Valid() && listeners == Unfinished(old(listeners))
      ensures n == |listeners| == |T.Running(Views(old(listeners)))|
    {
      hide Unfinished, Views;
      var v, kept := listeners, [];
      NoneUnfinished();
      for i := 0 to |v|
        invariant kept == Unfinished(v[..i])
        invariant Distinct(kept)
      {
        NextUnfinished(v, i);
        if v[i].running {
          kept := kept + [v[i]];
        }
      }
      assert v[..|v|] == v;
      RunningCount(v);
      listeners := kept;
      n := |listeners|;
    }

    /** Open connections that are not being closed, in a vector without finished listeners. */
    method Kept() returns (n: nat)
      ensures n == CountEvictable(listeners)
    {
      n := 0;
      for i := 0 to |listeners|
        invariant n == CountEvictable(listeners[..i])
      {
        assert listeners[..i + 1][..i] == listeners[..i];
        if !listeners[i].evicted {
          n := n + 1;
        }
      }
      assert listeners[..|listeners|] == listeners;
    }

    method MayAccept() returns (may: bool)
      requires Valid()
      modifies this
      ensures Valid() && listeners == Unfinished(old(listeners))
      ensures may == T.MayAccept(Views(old(listeners)))
    {
      var n := Open();
      may := n < T.MAX_OPEN;
    }

    method Register(l: Listener)
      requires Valid() && l !in listeners
      modifies this
      ensures Valid() && listeners == old(listeners) + [l]
    {
      listeners := listeners + [l];
    }

    /** The choice of `evict_least_recent_except`, in a vector without finished listeners. */
    method LeastRecentExcept(keep: Listener) returns (candidate: Option<Listener>)
      requires forall l :: l in listeners ==> l.running
      ensures candidate == Least(listeners, keep)
    {
      candidate := None;
      for i := 0 to |listeners|
        invariant candidate == Least(listeners[..i], keep)
      {
        assert listeners[..i + 1][..i] == listeners[..i];
        var l := listeners[i];
        if l != keep && !l.evicted && (candidate == None || l.lastActive < candidate.value.lastActive) {
          candidate := Some(l);
        }
      }
      assert listeners[..|listeners|] == listeners;
    }

    /** Ask the other listeners with the key of `l`, the `k`-th of the vector, to close. */
    method EvictStale(l: Listener, ghost k: nat)
      requires Valid() && k < |listeners| && listeners[k] == l
      modifies listeners`evicted
      ensures Views(listeners) == T.EvictStale(old(Views(listeners)), k)
    {
      var v := listeners;
      ghost var before := Views(v);
      for i := 0 to |v|
        invariant forall j :: 0 <= j < |v| ==>
                    v[j].View() == if j < i && j != k && before[j].key == before[k].key
                                   then before[j].(evicted := true) else before[j]
      {
        if v[i].key == l.key && v[i] != l {
          v[i].evicted := true;
        }
      }
    }

    /** Forget finished listeners, then choose the one to ask to close if too many are kept. */
    method Choose(l: Listener, ghost k: nat) returns (victim: Option<Listener>)
      requires Valid() && k < |listeners| && listeners[k] == l
      modifies this
      ensures Valid() && listeners == Unfinished(old(listeners))
      ensures var v, ls := old(listeners), old(Views(listeners));
              var m := T.LeastRecent(ls, k, |ls|);
              victim == if |T.Kept(ls)| > T.MAX_INBOUND && m < |ls| then Some(v[m]) else None
    {
      hide T.Kept, T.LeastRecent, Least, CountKept, CountEvictable, Distinct, Unfinished;
      ghost var m := Choice(listeners, l, k);
      ghost var u := Unfinished(listeners);
      ghost var count, least := CountEvictable(u), Least(u, l);
      var open := Open();
      assert listeners == u && CountEvictable(u) == count && Least(u, l) == least;
      var kept := Kept();
      victim := None;
      if kept > T.MAX_INBOUND {
        victim := LeastRecentExcept(l);
      }
    }

    /**
     * Close what listener `l` replaces: the `k`-th of the vector, unless it finished, and may
     * have been forgotten.
     */
    method Supersede(l: Listener, ghost k: nat)
      requires Valid() && (l.running ==> k < |listeners| && listeners[k] == l)
      modifies this, listeners`evicted
      ensures Valid() && listeners == if l.running then Unfinished(old(listeners)) else old(listeners)
      ensures Views(old(listeners)) ==
                if l.running then T.Supersede(old(Views(listeners)), k) else old(Views(listeners))
    {
      hide T.Kept, T.LeastRecent, T.EvictStale, Unfinished;
      if !l.running { return; }
      EvictStale(l, k);
      ghost var v, marked := listeners, Views(listeners);
      var victim := Choose(l, k);
      assert Views(v) == marked;
      if victim != None {
        Ask(victim.value, v, T.LeastRecent(marked, k, |v|));
      }
    }

    /** Set a listener's `evicted` flag. */
    method Ask(victim: Listener, ghost v: seq<Listener>, ghost m: nat)
      requires Distinct(v) && m < |v| && v[m] == victim
      modifies victim`evicted
      ensures Views(v) == T.Evicted(old(Views(v)), m)
      ensures Unfinished(v) == old(Unfinished(v))
    {
      victim.evicted := true;
      SameUnfinished(v);
    }
  }

  /** Which listeners have finished does not depend on evictions. */
  twostate lemma {:induction false} SameUnfinished(v: seq<Listener>)
    requires forall l :: l in v ==> l.running == old(l.running)
    ensures Unfinished(v) == old(Unfinished(v))
  {
    if v != [] {
      SameUnfinished(v[..|v| - 1]);
      assert v[|v| - 1] in v;
    }
  }

  ghost function CountEvictable(v: seq<Listener>): nat
    reads v
  {
    if v == [] then 0 else CountEvictable(v[..|v| - 1]) + if v[|v| - 1].evicted then 0 else 1
  }

  /** Among running listeners, those not evicted are the kept ones. */
  lemma {:induction false} AllRunning(v: seq<Listener>)
    requires forall l :: l in v ==> l.running
    ensures CountEvictable(v) == CountKept(v)
  {
    if v != [] {
      AllRunning(v[..|v| - 1]);
      assert v[|v| - 1] in v;
    }
  }
}
