/**
 * The table of inbound connections of the Rust receiver
 * (rust-bindings/cspcl/src/inbound.rs:374-521), on values.
 *
 * A listener is named by its place in the order of registration. Finished listeners stay in
 * the sequence; the code's vector (module `ListenerVec`) forgets them, which module
 * `ListenerRuns` shows to be no difference in any run.
 */
module ListenerTable {
  import opened Base
  import opened Counting

  /** What a listener thread shares with the table. */
  datatype State = State(key: Dest, running: bool, evicted: bool, lastActive: nat)

  const MAX_INBOUND: nat := RX_TABLE_SIZE
  const MAX_OPEN: nat := RX_TABLE_SIZE + EXTRA_INBOUND

  /** Connections not yet closed. */
  function Running(ls: seq<State>): set<nat> {
    set i: nat | i < |ls| && ls[i].running
  }

  /** Connections that are not asked to close either. */
  function Kept(ls: seq<State>): set<nat> {
    set i: nat | i < |ls| && ls[i].running && !ls[i].evicted
  }

  /** A listener that joins counts for itself. */
  lemma JoinCounts(ls: seq<State>, l: State)
    ensures |Running(ls + [l])| == |Running(ls)| + if l.running then 1 else 0
    ensures |Kept(ls + [l])| == |Kept(ls)| + if l.running && !l.evicted then 1 else 0
  {
    hide Running, Kept;
    JoinRunning(ls, l);
    JoinKept(ls, l);
  }

  lemma JoinRunning(ls: seq<State>, l: State)
    ensures Running(ls + [l]) == (if l.running then Running(ls) + {|ls|} else Running(ls)) && |ls| !in Running(ls)
  {
  }

  lemma JoinKept(ls: seq<State>, l: State)
    ensures Kept(ls + [l]) == (if l.running && !l.evicted then Kept(ls) + {|ls|} else Kept(ls)) && |ls| !in Kept(ls)
  {
  }

  predicate MayAccept(ls: seq<State>) {
    |Running(ls)| < MAX_OPEN
  }

  function Register(ls: seq<State>, key: Dest, now: nat): seq<State> {
    ls + [State(key, true, false, now)]
  }

  function Evicted(ls: seq<State>, i: nat): (r: seq<State>)
    requires i < |ls|
  {
    ls[i := ls[i].(evicted := true)]
  }

  /** Ask every other connection with the key of `k` to close: the peer reopened it. */
  function EvictStale(ls: seq<State>, k: nat): (r: seq<State>)
    requires k < |ls|
    ensures |r| == |ls|
    ensures forall i :: 0 <= i < |ls| ==>
              r[i] == if i != k && ls[i].key == ls[k].key then ls[i].(evicted := true) else ls[i]
  {
    seq(|ls|, i requires 0 <= i < |ls| =>
      if i != k && ls[i].key == ls[k].key then ls[i].(evicted := true) else ls[i])
  }

  predicate Candidate(ls: seq<State>, k: nat, i: int) {
    0 <= i < |ls| && i != k && ls[i].running && !ls[i].evicted
  }

  /** The first least recently active candidate among the first `n`, or `|ls|` if there is none. */
  function LeastRecent(ls: seq<State>, k: nat, n: nat): (m: nat)
    requires n <= |ls|
    ensures m == |ls| || (m < n && Candidate(ls, k, m))
  {
    if n == 0 then |ls|
    else
      var m := LeastRecent(ls, k, n - 1);
      if Candidate(ls, k, n - 1) && (m == |ls| || ls[n - 1].lastActive < ls[m].lastActive) then n - 1 else m
  }

  lemma {:induction false} LeastRecentIsLeast(ls: seq<State>, k: nat, n: nat, j: nat)
    requires j < n <= |ls| && Candidate(ls, k, j)
    ensures var m := LeastRecent(ls, k, n);
            m < |ls| && (ls[m].lastActive < ls[j].lastActive || (ls[m].lastActive == ls[j].lastActive && m <= j))
  {
    if j < n - 1 {
      LeastRecentIsLeast(ls, k, n - 1, j);
    }
  }

  function EvictLeastRecentExcept(ls: seq<State>, k: nat): (r: seq<State>)
    ensures |r| == |ls|
  {
    var m := LeastRecent(ls, k, |ls|);
    if m < |ls| then Evicted(ls, m) else ls
  }

  /** Close what the connection of `k` replaces; a listener that already finished replaces nothing. */
  function Supersede(ls: seq<State>, k: nat): (r: seq<State>)
    requires k < |ls|
    ensures |r| == |ls|
  {
    if !ls[k].running then ls
    else
      var marked := EvictStale(ls, k);
      if |Kept(marked)| > MAX_INBOUND then EvictLeastRecentExcept(marked, k) else marked
  }

  // ----- What superseding keeps -----

  /** No two of the connections in `s` come from the same peer port. */
  ghost predicate DistinctKeys(ls: seq<State>, s: set<nat>)
    requires forall i :: i in s ==> i < |ls|
  {
    forall i, j :: i in s && j in s && ls[i].key == ls[j].key ==> i == j
  }

  /** The table's bound, not counting `k`, which may still be waiting to supersede others. */
  ghost predicate BoundedBut(ls: seq<State>, k: nat) {
    |Kept(ls) - {k}| <= MAX_INBOUND && DistinctKeys(ls, Kept(ls) - {k})
  }

  ghost predicate Bounded(ls: seq<State>) {
    |Kept(ls)| <= MAX_INBOUND && DistinctKeys(ls, Kept(ls))
  }

  lemma StaleOnly(ls: seq<State>, k: nat)
    requires k < |ls| && ls[k].running && !ls[k].evicted
    ensures Kept(EvictStale(ls, k)) == set i | i in Kept(ls) && (i == k || ls[i].key != ls[k].key)
  {
  }

  lemma StaleKeys(ls: seq<State>, k: nat)
    requires k < |ls| && DistinctKeys(ls, Kept(ls) - {k}) && ls[k].running && !ls[k].evicted
    ensures DistinctKeys(EvictStale(ls, k), Kept(EvictStale(ls, k)))
  {
    hide Kept;
    StaleOnly(ls, k);
    KeptInRange(ls);
    KeptInRange(EvictStale(ls, k));
  }

  lemma KeptInRange(ls: seq<State>)
    ensures forall i :: i in Kept(ls) ==> i < |ls|
  {
  }

  /** Evicting the stale ones leaves the newcomer and at most the bound of others, all from different peers. */
  lemma MarkBounded(ls: seq<State>, k: nat)
    requires k < |ls| && BoundedBut(ls, k) && ls[k].running && !ls[k].evicted
    ensures var marked := EvictStale(ls, k);
            k in Kept(marked) && |Kept(marked)| <= MAX_INBOUND + 1 && DistinctKeys(marked, Kept(marked))
  {
    hide DistinctKeys;
    var marked := EvictStale(ls, k);
    StaleOnly(ls, k);
    StaleKeys(ls, k);
    OneMore(Kept(marked), Kept(ls), k);
  }

  lemma OneMore(marked: set<nat>, kept: set<nat>, k: nat)
    requires marked <= kept && k in marked
    ensures |marked| <= |kept - {k}| + 1
  {
    SubsetCount(marked - {k}, kept - {k});
    assert marked == (marked - {k}) + {k};
  }

  /** Superseding restores the bound, and keeps the newcomer. */
  lemma SupersedeBounded(ls: seq<State>, k: nat)
    requires k < |ls| && BoundedBut(ls, k) && !ls[k].evicted
    ensures Bounded(Supersede(ls, k))
    ensures ls[k].running ==> k in Kept(Supersede(ls, k))
  {
    hide Kept, EvictStale, LeastRecent, EvictLeastRecentExcept, DistinctKeys;
    if ls[k].running {
      MarkBounded(ls, k);
      var marked := EvictStale(ls, k);
      if |Kept(marked)| > MAX_INBOUND {
        EvictOne(marked, k);
      }
    } else {
      NotKept(ls, k);
    }
  }

  lemma NotKept(ls: seq<State>, k: nat)
    requires k < |ls| && !ls[k].running
    ensures Kept(ls) - {k} == Kept(ls)
  {
  }

  lemma EvictOne(ls: seq<State>, k: nat)
    requires k in Kept(ls) && |Kept(ls)| == MAX_INBOUND + 1 && DistinctKeys(ls, Kept(ls))
    ensures var m := LeastRecent(ls, k, |ls|);
            && m in Kept(ls) && m != k
            && Kept(EvictLeastRecentExcept(ls, k)) == Kept(ls) - {m}
            && |Kept(ls) - {m}| == MAX_INBOUND
            && DistinctKeys(EvictLeastRecentExcept(ls, k), Kept(EvictLeastRecentExcept(ls, k)))
  {
    assert |Kept(ls) - {k}| == MAX_INBOUND;
    var i :| i in Kept(ls) - {k};
    LeastRecentIsLeast(ls, k, |ls|, i);
    var m := LeastRecent(ls, k, |ls|);
    assert Kept(EvictLeastRecentExcept(ls, k)) == Kept(ls) - {m};
  }

  /** A reconnect from a held key closes the stale connection and no other. */
  lemma ReconnectClosesOnlyTheStaleOne(ls: seq<State>, k: nat, stale: nat)
    requires k < |ls| && BoundedBut(ls, k) && ls[k].running && !ls[k].evicted
    requires stale in Kept(ls) && stale != k && ls[stale].key == ls[k].key
    ensures Kept(Supersede(ls, k)) == Kept(ls) - {stale}
  {
    StaleOnly(ls, k);
    var marked, others := EvictStale(ls, k), Kept(ls) - {k};
    assert Kept(marked) == Kept(ls) - {stale};
    assert Kept(marked) == (others - {stale}) + {k};
  }

  lemma NewcomerMarks(ls: seq<State>, k: nat)
    requires k < |ls| && BoundedBut(ls, k) && ls[k].running && !ls[k].evicted
    requires forall i :: i in Kept(ls) && i != k ==> ls[i].key != ls[k].key
    ensures Kept(EvictStale(ls, k)) == Kept(ls) && k in Kept(ls) && |Kept(ls)| <= MAX_INBOUND + 1
    ensures DistinctKeys(EvictStale(ls, k), Kept(ls))
  {
    StaleOnly(ls, k);
    assert Kept(EvictStale(ls, k)) == Kept(ls);
    assert Kept(ls) == (Kept(ls) - {k}) + {k};
  }

  /** A connection from a new peer closes at most one other, and only of a full table. */
  lemma NewcomerClosesAtMostOne(ls: seq<State>, k: nat)
    requires k < |ls| && BoundedBut(ls, k) && ls[k].running && !ls[k].evicted
    requires forall i :: i in Kept(ls) && i != k ==> ls[i].key != ls[k].key
    ensures Kept(Supersede(ls, k)) ==
              if |Kept(ls)| <= MAX_INBOUND then Kept(ls) else Kept(ls) - {LeastRecent(EvictStale(ls, k), k, |ls|)}
    ensures |Kept(ls)| > MAX_INBOUND ==> |Kept(ls) - Kept(Supersede(ls, k))| == 1
  {
    hide Kept, EvictStale, LeastRecent, EvictLeastRecentExcept, DistinctKeys;
    NewcomerMarks(ls, k);
    if |Kept(ls)| > MAX_INBOUND {
      EvictOne(EvictStale(ls, k), k);
      OneLess(Kept(ls), Kept(Supersede(ls, k)), LeastRecent(EvictStale(ls, k), k, |ls|));
    }
  }

  lemma OneLess(before: set<nat>, after: set<nat>, m: nat)
    requires m in before && after == before - {m}
    ensures |before - after| == 1
  {
    assert before - after == {m};
  }
}
