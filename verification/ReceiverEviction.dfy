/** Which inbound connections are closed for a new one, and what they still do. */
module ReceiverEviction {
  import H = Hub
  import T = ListenerTable
  import opened Receiver
  import B = ReceiverBounds

  // ----- An evicted connection is read once more at most -----

  ghost predicate IsEvicted(s: State, l: nat) {
    l < |s.table| && s.table[l].evicted
  }

  ghost predicate IsReading(s: State, l: nat) {
    l < |s.threads| && s.threads[l].pc == Reading
  }

  ghost predicate Reads(e: Event, l: nat) {
    e.OnListener? && e.l == l && e.listener.Receive?
  }

  lemma ListenerEvicted(s: State, l: nat, le: ListenerEvent, k: nat)
    requires ListenerEnabled(s, l, le) && IsEvicted(s, k)
    ensures IsEvicted(ApplyListener(s, l, le), k)
    ensures IsReading(ApplyListener(s, l, le), k) ==> IsReading(s, k) && !(l == k && le.Receive?)
  {
    hide H.Deliver;
  }

  lemma AcceptEvicted(s: State, t: nat, e: AcceptEvent, k: nat)
    requires AcceptEnabled(s, t, e) && IsEvicted(s, k)
    ensures IsEvicted(ApplyAccept(s, t, e), k)
    ensures IsReading(ApplyAccept(s, t, e), k) ==> IsReading(s, k)
  {
    if e.Supersede? {
      B.SupersedeFewer(s.table, s.acceptors[t].l);
    }
    hide T.Supersede, T.MayAccept, H.Deliver, H.AcceptPanicked;
  }

  /** An evicted listener stays so, and starts no read; a read under way ends with its step. */
  lemma EvictedStep(s: State, e: Event, l: nat)
    requires Enabled(s, e) && IsEvicted(s, l)
    ensures IsEvicted(Apply(s, e), l)
    ensures IsReading(Apply(s, e), l) ==> IsReading(s, l) && !Reads(e, l)
    ensures Reads(e, l) ==> IsReading(s, l)
  {
    hide ApplyAccept, ApplyListener, ApplyStream, ApplyClose;
    match e
    case OnStream(se) => B.StreamPlace(s, se);
    case OnClose(c, ce) => B.ClosePlace(s, c, ce);
    case OnAccept(t, ae) => AcceptEvicted(s, t, ae, l);
    case OnListener(k, le) => ListenerEvicted(s, k, le, l);
    case Tick(_) =>
  }

  lemma {:induction false} EvictedThroughout(ss: seq<State>, es: seq<Event>, i: nat, j: nat, l: nat)
    requires IsRun(ss, es) && i <= j < |ss| && IsEvicted(ss[i], l)
    ensures IsEvicted(ss[j], l) && (IsReading(ss[j], l) ==> IsReading(ss[i], l))
    decreases j
  {
    hide Apply, Enabled, IsEvicted, IsReading;
    if i < j {
      EvictedThroughout(ss, es, i, j - 1, l);
      EvictedStep(ss[j - 1], es[j - 1], l);
    }
  }

  /** Once asked to close, a listener reads at most once more, and then only the read it was in. */
  lemma EvictedReadsOnceMore(ss: seq<State>, es: seq<Event>, i: nat, l: nat, a: nat, b: nat)
    requires IsRun(ss, es) && i <= a < |es| && i <= b < |es|
    requires IsEvicted(ss[i], l) && Reads(es[a], l) && Reads(es[b], l)
    ensures a == b && IsReading(ss[i], l)
  {
    hide Apply, Enabled, IsEvicted, IsReading, Reads;
    var x, y := if a < b then a else b, if a < b then b else a;
    EvictedThroughout(ss, es, i, x, l);
    EvictedStep(ss[x], es[x], l);
    EvictedThroughout(ss, es, i, y, l);
    EvictedStep(ss[y], es[y], l);
    if x < y {
      EvictedThroughout(ss, es, x + 1, y, l);
    }
  }

  // ----- The victim is the connection that has been silent longest -----

  ghost predicate ReadsBundle(e: Event, l: nat) {
    Reads(e, l) && e.listener.outcome.Bundle?
  }

  lemma SupersedeKeepsActivity(ls: seq<T.State>, k: nat, i: nat)
    requires k < |ls| && i < |ls|
    ensures T.Supersede(ls, k)[i].lastActive == ls[i].lastActive
  {
    hide T.Kept, T.LeastRecent;
  }

  lemma AcceptActivity(s: State, t: nat, e: AcceptEvent, l: nat)
    requires AcceptEnabled(s, t, e) && l < |ApplyAccept(s, t, e).table|
    ensures ApplyAccept(s, t, e).table[l].lastActive == if l < |s.table| then s.table[l].lastActive else s.now
  {
    hide T.Supersede, T.MayAccept, H.Deliver, H.AcceptPanicked;
    if e.Supersede? {
      SupersedeKeepsActivity(s.table, s.acceptors[t].l, l);
    }
  }

  lemma ListenerActivity(s: State, l: nat, e: ListenerEvent, k: nat)
    requires ListenerEnabled(s, l, e)
    ensures var s' := ApplyListener(s, l, e);
            && |s'.table| == |s.table|
            && (k < |s.table| ==>
                  s'.table[k].lastActive ==
                    (if l == k && e.Receive? && e.outcome.Bundle? then s.now else s.table[k].lastActive))
  {
    hide H.Deliver;
  }

  /** A step stamps the connection it receives a bundle on, or registers, with the current time. */
  lemma ActivityStep(s: State, e: Event, l: nat)
    requires Enabled(s, e) && l < |Apply(s, e).table|
    ensures Apply(s, e).table[l].lastActive ==
              if ReadsBundle(e, l) || l >= |s.table| then s.now else s.table[l].lastActive
  {
    hide ApplyAccept, ApplyListener, ApplyStream, ApplyClose;
    match e
    case OnStream(se) => B.StreamPlace(s, se);
    case OnClose(c, ce) => B.ClosePlace(s, c, ce);
    case OnAccept(t, ae) => AcceptActivity(s, t, ae, l);
    case OnListener(k, le) => ListenerActivity(s, k, le, l);
    case Tick(_) =>
  }

  /** When listener `l` last received a bundle, or was registered, up to step `i`. */
  ghost function LastBusy(ss: seq<State>, es: seq<Event>, i: nat, l: nat): H.Time
    requires IsRun(ss, es) && i < |ss|
  {
    if i == 0 then ss[0].now
    else if ReadsBundle(es[i - 1], l) || l >= |ss[i - 1].table| then ss[i - 1].now
    else LastBusy(ss, es, i - 1, l)
  }

  lemma {:induction false} ActivityIsRecorded(ss: seq<State>, es: seq<Event>, i: nat, l: nat)
    requires IsRun(ss, es) && i < |ss| && l < |ss[i].table|
    ensures ss[i].table[l].lastActive == LastBusy(ss, es, i, l)
  {
    hide Apply, Enabled, ReadsBundle;
    if i > 0 {
      ActivityStep(ss[i - 1], es[i - 1], l);
      if l < |ss[i - 1].table| {
        ActivityIsRecorded(ss, es, i - 1, l);
      }
    }
  }

  lemma VictimIsLeastActive(ls: seq<T.State>, k: nat, v: nat, j: nat)
    requires k < |ls| && v in T.Kept(ls) && v !in T.Kept(T.Supersede(ls, k)) && ls[v].key != ls[k].key
    requires j in T.Kept(T.Supersede(ls, k)) && j != k
    ensures ls[v].lastActive <= ls[j].lastActive
  {
    var marked := T.EvictStale(ls, k);
    assert v in T.Kept(marked);
    assert T.Candidate(marked, k, j);
    T.LeastRecentIsLeast(marked, k, |marked|, j);
  }

  /**
   * When a new connection makes one from another peer close, that one received its last bundle
   * (or was accepted) no later than any other that stays.
   */
  lemma VictimIsLongestSilent(ss: seq<State>, es: seq<Event>, i: nat, t: nat, v: nat, j: nat)
    requires IsRun(ss, es) && i < |es| && es[i] == OnAccept(t, Supersede)
    requires v in T.Kept(ss[i].table) && v !in T.Kept(ss[i + 1].table)
    requires ss[i].table[v].key != ss[i].table[ss[i].acceptors[t].l].key
    requires j in T.Kept(ss[i + 1].table) && j != ss[i].acceptors[t].l
    ensures LastBusy(ss, es, i, v) <= LastBusy(ss, es, i, j)
  {
    hide T.Supersede, T.Kept;
    var k := ss[i].acceptors[t].l;
    KeptIsThere(ss[i].table, v);
    KeptIsThere(ss[i + 1].table, j);
    ActivityIsRecorded(ss, es, i, v);
    ActivityIsRecorded(ss, es, i, j);
    VictimIsLeastActive(ss[i].table, k, v, j);
  }

  lemma KeptIsThere(ls: seq<T.State>, i: nat)
    requires i in T.Kept(ls)
    ensures i < |ls|
  {
  }

  // ----- What a new connection closes, in runs -----

  /** A listener about to supersede others is not evicted itself, and the others are within the bound. */
  lemma Superseding(ss: seq<State>, es: seq<Event>, i: nat, t: nat)
    requires IsRun(ss, es) && i < |es| && es[i] == OnAccept(t, Supersede)
    ensures var ls, k := ss[i].table, ss[i].acceptors[t].l;
            && k < |ls| && !ls[k].evicted && T.BoundedBut(ls, k) && ss[i + 1].table == T.Supersede(ls, k)
  {
    hide T.Supersede, T.Bounded, T.BoundedBut, T.Running;
    B.RunTable(ss, es, i);
    assert B.WindowOk(ss[i], ss[i].acceptors[t]);
  }

  /** In every run, a connection from a key already held closes that connection and no other. */
  lemma ReconnectInRuns(ss: seq<State>, es: seq<Event>, i: nat, t: nat, stale: nat)
    requires IsRun(ss, es) && i < |es| && es[i] == OnAccept(t, Supersede)
    requires var ls, k := ss[i].table, ss[i].acceptors[t].l;
             ls[k].running && stale in T.Kept(ls) && stale != k && ls[stale].key == ls[k].key
    ensures T.Kept(ss[i + 1].table) == T.Kept(ss[i].table) - {stale}
  {
    hide T.Supersede, T.BoundedBut;
    Superseding(ss, es, i, t);
    T.ReconnectClosesOnlyTheStaleOne(ss[i].table, ss[i].acceptors[t].l, stale);
  }

  /** In every run, one from a new key closes none, or exactly one of a full table; and itself stays. */
  lemma NewcomerInRuns(ss: seq<State>, es: seq<Event>, i: nat, t: nat)
    requires IsRun(ss, es) && i < |es| && es[i] == OnAccept(t, Supersede)
    requires var ls, k := ss[i].table, ss[i].acceptors[t].l;
             ls[k].running && forall j :: j in T.Kept(ls) && j != k ==> ls[j].key != ls[k].key
    ensures var before, after := T.Kept(ss[i].table), T.Kept(ss[i + 1].table);
            && after <= before && ss[i].acceptors[t].l in after
            && |before - after| == if |before| > 8 then 1 else 0
  {
    hide T.Supersede, T.BoundedBut, T.Kept, T.LeastRecent, T.EvictStale;
    Superseding(ss, es, i, t);
    var ls, k := ss[i].table, ss[i].acceptors[t].l;
    T.NewcomerClosesAtMostOne(ls, k);
    T.SupersedeBounded(ls, k);
  }

  /** A listener that finished before it could supersede others closes none. */
  lemma FinishedInRuns(ss: seq<State>, es: seq<Event>, i: nat, t: nat)
    requires IsRun(ss, es) && i < |es| && es[i] == OnAccept(t, Supersede)
    requires !ss[i].table[ss[i].acceptors[t].l].running
    ensures ss[i + 1].table == ss[i].table
  {
    hide T.Kept, T.EvictStale, T.EvictLeastRecentExcept;
  }
}
