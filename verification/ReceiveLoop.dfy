/**
 * The receive loop of the link and the pauses between its attempts to reopen the inbound stream
 * (rust-bindings/picod3tn-cspcl/src/rx.rs:82-174). What the source of the streams does, and how
 * long a stream stayed open, is a script.
 */
module ReceiveLoop {
  import opened Base
  import H = Hub

  /** Milliseconds. */
  const REOPEN_DELAY: nat := 500
  const MAX_REOPEN_DELAY: nat := 30000

  /**
   * What one `open` of the source gives. A stream yields its items and then ends, `lifetime`
   * after it was opened, with the link `closed` or not; `shut` tells whether the link is shut
   * down during the pause that follows a failure.
   */
  datatype Opened =
    | Refused
    | FailsToOpen(shut: bool)
    | Stream(items: seq<H.Item>, closed: bool, lifetime: nat, shut: bool)

  /** One pause: how long the stream before it lived (0 if it could not be opened), and its length. */
  datatype Pause = Pause(lifetime: nat, wait: nat)

  datatype Loop = Loop(script: seq<Opened>, stream: Option<Opened>, delay: nat, over: bool,
                       pauses: seq<Pause>, yielded: seq<Copy>)

  function Start(script: seq<Opened>): Loop {
    Loop(script, None, REOPEN_DELAY, false, [], [])
  }

  function Doubled(delay: nat): nat {
    if delay * 2 < MAX_REOPEN_DELAY then delay * 2 else MAX_REOPEN_DELAY
  }

  /** Waiting the delay, then doubling it. */
  function Paused(l: Loop, lifetime: nat, delay: nat, shut: bool): Loop {
    l.(delay := Doubled(delay), over := shut, pauses := l.pauses + [Pause(lifetime, delay)])
  }

  /** The loop waits for an answer the script does not hold. */
  predicate Blocked(l: Loop) {
    l.stream.None? && l.script == []
  }

  /** One answer of the source. */
  function Turn(l: Loop): Loop {
    if l.over || Blocked(l) then l
    else match l.stream
      case None =>
        var rest := l.(script := l.script[1..]);
        (match l.script[0]
         case Refused => rest.(over := true)
         case FailsToOpen(shut) => Paused(rest, 0, l.delay, shut)
         case Stream(_, _, _, _) => rest.(stream := Some(l.script[0])))
      case Some(s) =>
        if !s.Stream? then l
        else if s.items != [] then
          l.(stream := Some(s.(items := s.items[1..])), yielded := l.yielded + H.Bundles(s.items[..1]))
        else if s.closed then l.(stream := None, over := true)
        else Paused(l.(stream := None), s.lifetime, if s.lifetime > l.delay then REOPEN_DELAY else l.delay, s.shut)
  }

  function Turns(l: Loop, n: nat): Loop {
    if n == 0 then l else Turn(Turns(l, n - 1))
  }

  // ----- In place -----

  class Backoff {
    var delay: nat

    constructor ()
      ensures delay == REOPEN_DELAY
    {
      delay := REOPEN_DELAY;
    }

    /** One pause, cut short by a shutdown (`goOn` is false then); the next one is twice as long, up to the maximum. */
    method Wait(shut: bool) returns (goOn: bool, waited: nat)
      modifies this
      ensures goOn == !shut && waited == old(delay) && delay == Doubled(old(delay))
    {
      waited := delay;
      delay := delay * 2;
      if delay > MAX_REOPEN_DELAY {
        delay := MAX_REOPEN_DELAY;
      }
      goOn := !shut;
    }
  }

  class Receiving {
    var script: seq<Opened>
    var stream: Option<Opened>
    var backoff: Backoff
    var over: bool
    ghost var pauses: seq<Pause>
    ghost var yielded: seq<Copy>

    ghost predicate Valid()
      reads this
    {
      stream.Some? ==> stream.value.Stream?
    }

    ghost function Value(): Loop
      reads this, backoff
    {
      Loop(script, stream, backoff.delay, over, pauses, yielded)
    }

    constructor (opens: seq<Opened>)
      ensures Valid() && fresh(backoff) && Value() == Start(opens)
    {
      script, stream, over, pauses, yielded := opens, None, false, [], [];
      backoff := new Backoff();
    }

    /** Pause after a failure, or end if shut down meanwhile. */
    method Fail(lifetime: nat, shut: bool)
      requires Valid()
      modifies this, backoff
      ensures Valid() && backoff == old(backoff)
      ensures Value() == Paused(old(Value()), lifetime, old(backoff.delay), shut)
    {
      var goOn, waited := backoff.Wait(shut);
      pauses := pauses + [Pause(lifetime, waited)];
      over := !goOn;
    }

    /** Without a stream: open one, or pause, or end. */
    method OpenStream()
      requires Valid() && !over && stream.None? && script != []
      modifies this, backoff
      ensures Valid() && backoff == old(backoff)
      ensures Value() == Turn(old(Value())) && yielded == old(yielded) && |script| == |old(script)| - 1
    {
      var found := script[0];
      script := script[1..];
      match found {
        case Refused =>
          over := true;
        case FailsToOpen(shut) =>
          Fail(0, shut);
        case Stream(_, _, _, _) =>
          stream := Some(found);
      }
    }

    /** The stream ended: end too if the link is closed, else pause before the next one. */
    method EndStream()
      requires Valid() && !over && stream.Some? && stream.value.items == []
      modifies this, backoff
      ensures Valid() && (backoff == old(backoff) || fresh(backoff))
      ensures Value() == Turn(old(Value())) && yielded == old(yielded) && script == old(script) && stream.None?
    {
      var s := stream.value;
      stream := None;
      if s.closed {
        over := true;
      } else {
        if s.lifetime > backoff.delay {
          backoff := new Backoff();
        }
        Fail(s.lifetime, s.shut);
      }
    }

    /** Take the next item of the stream; an error is skipped. */
    method ReadItem() returns (r: Option<Copy>)
      requires Valid() && !over && stream.Some? && stream.value.items != []
      modifies this
      ensures Valid() && !over && script == old(script) && backoff == old(backoff) && Value() == Turn(old(Value()))
      ensures stream.Some? && |stream.value.items| == |old(stream.value.items)| - 1
      ensures yielded == old(yielded) + if r.Some? then [r.value] else []
    {
      var s := stream.value;
      stream := Some(s.(items := s.items[1..]));
      FirstBundle(s.items);
      r := match s.items[0] case Got(b) => Some(b) case Failed => None;
      yielded := yielded + H.BundleOf(s.items[0]);
    }

    /**
     * The next bundle, or `None` at the end: the loop makes `turns` turns. `None` without
     * being over means that it is still waiting for its source.
     */
    method Next() returns (r: Option<Copy>, ghost turns: nat)
      requires Valid() && !over
      modifies this, backoff
      ensures Valid()
      ensures Value() == Turns(old(Value()), turns)
      ensures r.Some? ==> !over && yielded == old(yielded) + [r.value]
      ensures r.None? ==> (over || Blocked(Value())) && yielded == old(yielded)
    {
      hide Turn;
      turns := 0;
      r := None;
      ghost var first := Value();
      while !over && (stream.Some? || script != [])
        invariant Valid() && Value() == Turns(first, turns) && yielded == first.yielded && r == None
        invariant backoff == old(backoff) || fresh(backoff)
        decreases |script|, stream.Some?, if stream.Some? && stream.value.Stream? then |stream.value.items| else 0
      {
        turns := turns + 1;
        if stream.None? {
          OpenStream();
        } else if stream.value.items == [] {
          EndStream();
        } else {
          r := ReadItem();
          if r.Some? {
            return;
          }
        }
      }
    }
  }

  lemma FirstBundle(items: seq<H.Item>)
    requires items != []
    ensures H.Bundles(items[..1]) == H.BundleOf(items[0])
  {
    assert items[..1][..0] == [];
    assert H.Bundles([]) == [];
  }

  // ----- The pauses in closed form -----

  function Pow2(k: nat): nat {
    if k == 0 then 1 else 2 * Pow2(k - 1)
  }

  /** The pause after the `k`-th quick failure in a row, from 0. */
  function Delay(k: nat): nat {
    if 500 * Pow2(k) < 30000 then 500 * Pow2(k) else 30000
  }

  /**
   * How many quick failures in a row failure `j` is, from 0: a failure is quick if its stream
   * did not outlive the delay in force, and one that is not quick starts a new row.
   */
  function Row(pauses: seq<Pause>, j: nat): nat
    requires j < |pauses|
  {
    if j == 0 || pauses[j].lifetime > Delay(Row(pauses, j - 1) + 1) then 0 else Row(pauses, j - 1) + 1
  }

  /** The delay in force after some pauses. */
  function Upcoming(pauses: seq<Pause>): nat {
    if pauses == [] then 500 else Delay(Row(pauses, |pauses| - 1) + 1)
  }

  ghost predicate InForm(l: Loop) {
    && l.delay == Upcoming(l.pauses)
    && forall j :: 0 <= j < |l.pauses| ==> l.pauses[j].wait == Delay(Row(l.pauses, j))
  }

  lemma {:induction false} RowPrefix(pauses: seq<Pause>, more: seq<Pause>, j: nat)
    requires j < |pauses|
    ensures Row(pauses + more, j) == Row(pauses, j)
  {
    if j > 0 {
      RowPrefix(pauses, more, j - 1);
    }
  }

  lemma PausedInForm(l: Loop, lifetime: nat, shut: bool)
    requires InForm(l)
    ensures InForm(Paused(l, lifetime, if lifetime > l.delay then REOPEN_DELAY else l.delay, shut))
  {
    var wait := if lifetime > l.delay then REOPEN_DELAY else l.delay;
    var p := [Pause(lifetime, wait)];
    forall j | 0 <= j < |l.pauses|
      ensures Row(l.pauses + p, j) == Row(l.pauses, j)
    {
      RowPrefix(l.pauses, p, j);
    }
    var k := Row(l.pauses + p, |l.pauses|);
    assert Pow2(0) == 1;
    assert wait == Delay(k);
    assert Doubled(Delay(k)) == Delay(k + 1);
  }

  lemma TurnInForm(l: Loop)
    requires InForm(l)
    ensures InForm(Turn(l))
  {
    if !l.over && !Blocked(l) {
      if l.stream.None? && l.script[0].FailsToOpen? {
        PausedInForm(l.(script := l.script[1..]), 0, l.script[0].shut);
      } else if l.stream.Some? && l.stream.value.Stream? && l.stream.value.items == [] && !l.stream.value.closed {
        PausedInForm(l.(stream := None), l.stream.value.lifetime, l.stream.value.shut);
      }
    }
  }

  /**
   * Backoff in closed form, for scripts of any length: every failure that is the `k`-th quick
   * one in a row, failed opens and short-lived streams alike, waits min(500 * 2^k, 30000) ms.
   */
  lemma {:induction false} BackoffClosedForm(script: seq<Opened>, n: nat)
    ensures InForm(Turns(Start(script), n))
  {
    if n > 0 {
      BackoffClosedForm(script, n - 1);
      TurnInForm(Turns(Start(script), n - 1));
    }
  }

  /** A stream that outlived the delay in force starts over at 500 ms, and `k` quick failures later it is 500 * 2^k. */
  lemma {:induction false} RowFromRestart(script: seq<Opened>, n: nat, i: nat, k: nat)
    requires var p := Turns(Start(script), n).pauses;
             && i + k < |p| && (i == 0 || p[i].lifetime > Doubled(p[i - 1].wait))
             && forall j :: i < j <= i + k ==> p[j].lifetime <= Doubled(p[j - 1].wait)
    ensures Turns(Start(script), n).pauses[i + k].wait == Delay(k)
  {
    var l := Turns(Start(script), n);
    BackoffClosedForm(script, n);
    RowIs(l, i, k);
  }

  lemma {:induction false} RowIs(l: Loop, i: nat, k: nat)
    requires InForm(l) && i + k < |l.pauses| && (i == 0 || l.pauses[i].lifetime > Doubled(l.pauses[i - 1].wait))
    requires forall j :: i < j <= i + k ==> l.pauses[j].lifetime <= Doubled(l.pauses[j - 1].wait)
    ensures Row(l.pauses, i + k) == k
  {
    if k > 0 {
      RowIs(l, i, k - 1);
      assert Doubled(Delay(k - 1)) == Delay(k);
    } else if i > 0 {
      assert Doubled(Delay(Row(l.pauses, i - 1))) == Delay(Row(l.pauses, i - 1) + 1);
    }
  }

  // ----- What the loop yields -----

  /** The bundles of all streams among these, in order. */
  ghost function AllBundles(found: seq<Opened>): seq<Copy> {
    if found == [] then []
    else
      var last := found[|found| - 1];
      AllBundles(found[..|found| - 1]) + if last.Stream? then H.Bundles(last.items) else []
  }

  /** What is left of the open stream. */
  ghost function Remaining(l: Loop): seq<Copy> {
    if l.stream.Some? && l.stream.value.Stream? then H.Bundles(l.stream.value.items) else []
  }

  /** The loop has opened some of the script, in order, and yielded what it does not hold of it. */
  ghost predicate Faithful(l: Loop, script: seq<Opened>) {
    && |l.script| <= |script| && l.script == script[|script| - |l.script|..]
    && (l.stream.Some? ==> l.stream.value.Stream?)
    && l.yielded + Remaining(l) == AllBundles(script[..|script| - |l.script|])
  }

  lemma OpenFaithful(l: Loop, script: seq<Opened>)
    requires Faithful(l, script) && !l.over && l.stream.None? && l.script != []
    ensures Faithful(Turn(l), script)
  {
    hide H.Bundles;
    var c := |script| - |l.script|;
    assert l.script[0] == script[c] && l.script[1..] == script[c + 1..];
    assert script[..c + 1][..c] == script[..c];
    assert l.yielded + [] == l.yielded;
  }

  lemma ReadFaithful(l: Loop, script: seq<Opened>)
    requires Faithful(l, script) && !l.over && l.stream.Some? && l.stream.value.items != []
    ensures Faithful(Turn(l), script)
  {
    hide H.Bundles, AllBundles;
    var items := l.stream.value.items;
    HeadAndTail(items);
    assert l.yielded + H.Bundles(items) == (l.yielded + H.Bundles(items[..1])) + H.Bundles(items[1..]);
  }

  lemma HeadAndTail(items: seq<H.Item>)
    requires items != []
    ensures H.Bundles(items) == H.Bundles(items[..1]) + H.Bundles(items[1..])
  {
    H.BundlesConcat(items[..1], items[1..]);
    assert items[..1] + items[1..] == items;
  }

  lemma EndFaithful(l: Loop, script: seq<Opened>)
    requires Faithful(l, script) && !l.over && l.stream.Some? && l.stream.value.items == []
    ensures Faithful(Turn(l), script)
  {
    H.NoBundles();
  }

  /**
   * What the loop yields, for every script and at every turn: the bundles of the streams opened
   * so far, in order, but for those still in the open one; none skipped, none twice.
   */
  lemma {:induction false} YieldsInOrder(script: seq<Opened>, n: nat)
    ensures Faithful(Turns(Start(script), n), script)
  {
    hide Turn;
    if n == 0 {
      assert script[..0] == [] && script[0..] == script;
    } else {
      YieldsInOrder(script, n - 1);
      var l := Turns(Start(script), n - 1);
      if l.over || Blocked(l) {
        NoTurn(l);
      } else if l.stream.None? {
        OpenFaithful(l, script);
      } else if l.stream.value.items != [] {
        ReadFaithful(l, script);
      } else {
        EndFaithful(l, script);
      }
    }
  }

  lemma NoTurn(l: Loop)
    requires l.over || Blocked(l)
    ensures Turn(l) == l
  {
  }

  // ----- When the loop ends, and what it pauses for -----

  /** How much of the script was opened and is over: all of it, but for an open stream. */
  ghost function Past(l: Loop, script: seq<Opened>): seq<Opened>
    requires Faithful(l, script)
  {
    var n := |script| - |l.script|;
    script[..if l.stream.Some? && n > 0 then n - 1 else n]
  }

  /** After this the loop ends: the link refused, or was closed when the stream ended, or is shut down in the pause. */
  predicate Stops(o: Opened) {
    match o
    case Refused => true
    case FailsToOpen(shut) => shut
    case Stream(_, closed, _, shut) => closed || shut
  }

  /** The lifetimes of the failures among these: streams that could not be opened, or ended with the link open. */
  ghost function Failures(past: seq<Opened>): seq<nat> {
    if past == [] then []
    else
      var last := past[|past| - 1];
      Failures(past[..|past| - 1]) +
        match last
        case Refused => []
        case FailsToOpen(_) => [0]
        case Stream(_, closed, lifetime, _) => if closed then [] else [lifetime]
  }

  /** The stream that is open is the last one of the script, partly read. */
  ghost predicate HoldsLast(l: Loop, script: seq<Opened>)
    requires Faithful(l, script)
  {
    l.stream.Some? ==>
      var n := |script| - |l.script|;
      n > 0 && script[n - 1].Stream? && l.stream.value == script[n - 1].(items := l.stream.value.items)
  }

  ghost predicate Lifetimes(pauses: seq<Pause>, lifetimes: seq<nat>) {
    |pauses| == |lifetimes| && forall j :: 0 <= j < |pauses| ==> pauses[j].lifetime == lifetimes[j]
  }

  ghost predicate Told(l: Loop, script: seq<Opened>)
    requires Faithful(l, script)
  {
    var past := Past(l, script);
    && HoldsLast(l, script)
    && Lifetimes(l.pauses, Failures(past))
    && (forall j :: 0 <= j < |past| - 1 ==> !Stops(past[j]))
    && (l.over <==> past != [] && Stops(past[|past| - 1]))
    && (l.stream.Some? ==> !l.over)
  }

  lemma FailuresSnoc(past: seq<Opened>, o: Opened)
    ensures Failures(past + [o]) == Failures(past) +
              match o
              case Refused => []
              case FailsToOpen(_) => [0]
              case Stream(_, closed, lifetime, _) => if closed then [] else [lifetime]
  {
    assert (past + [o])[..|past|] == past;
  }

  lemma OpenTold(l: Loop, script: seq<Opened>)
    requires Faithful(l, script) && Told(l, script) && !l.over && l.stream.None? && l.script != []
    requires Faithful(Turn(l), script)
    ensures Told(Turn(l), script)
  {
    hide H.Bundles, AllBundles, Failures;
    var n := |script| - |l.script|;
    assert l.script[0] == script[n];
    assert script[..n + 1] == script[..n] + [script[n]];
    FailuresSnoc(script[..n], script[n]);
  }

  lemma ReadTold(l: Loop, script: seq<Opened>)
    requires Faithful(l, script) && Told(l, script) && !l.over && l.stream.Some? && l.stream.value.items != []
    requires Faithful(Turn(l), script)
    ensures Told(Turn(l), script)
  {
    hide H.Bundles, AllBundles, Failures;
  }

  lemma EndTold(l: Loop, script: seq<Opened>)
    requires Faithful(l, script) && Told(l, script) && !l.over && l.stream.Some? && l.stream.value.items == []
    requires Faithful(Turn(l), script)
    ensures Told(Turn(l), script)
  {
    hide H.Bundles, AllBundles, Failures;
    var n := |script| - |l.script|;
    assert script[..n] == script[..n - 1] + [script[n - 1]];
    FailuresSnoc(script[..n - 1], script[n - 1]);
  }

  /**
   * When the loop ends and what it pauses for, for every script and at every turn: it is over
   * exactly if the last thing that passed stops it, and nothing before did; and its pauses are,
   * in order, for the streams that could not be opened or ended with the link open, each judged
   * by its lifetime.
   */
  lemma {:induction false} EndsWhenTold(script: seq<Opened>, n: nat)
    ensures Faithful(Turns(Start(script), n), script) && Told(Turns(Start(script), n), script)
  {
    hide Turn, H.Bundles, AllBundles;
    YieldsInOrder(script, n);
    if n == 0 {
      assert script[..0] == [];
    } else {
      EndsWhenTold(script, n - 1);
      var l := Turns(Start(script), n - 1);
      if l.over || Blocked(l) {
        NoTurn(l);
      } else if l.stream.None? {
        OpenTold(l, script);
      } else if l.stream.value.items != [] {
        ReadTold(l, script);
      } else {
        EndTold(l, script);
      }
    }
  }
}
