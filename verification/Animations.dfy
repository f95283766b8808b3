// src/modules/awaitAnimations.ts: how long to wait for an element, and when the wait is over.
module Animations {
  import opened Wrappers

  // ---- calculateTimeout ----

  lemma TimesOne(n: int, d: int)
    requires n > 0
    ensures d >= 1 ==> n * d >= n
    ensures d <= -1 ==> n * d <= -n
  {}

  lemma OneRound(i: nat, n: nat)
    requires n > 0
    ensures (i + n) % n == i % n
  {
    var q, r := i / n, i % n;
    var q', r' := (i + n) / n, (i + n) % n;
    assert i == n * q + r && i + n == n * q' + r';
    var d := q' - q - 1;
    assert n * d == n * q' - n * q - n;
    TimesOne(n, d);
  }

  lemma {:induction false} Rounds(i: nat, k: nat, n: nat)
    requires n > 0
    ensures (i + k * n) % n == i % n
    decreases k
  {
    if k > 0 {
      assert k * n == (k - 1) * n + n;
      Rounds(i, k - 1, n);
      OneRound(i + (k - 1) * n, n);
    }
  }

  /** `repeated` goes round and round in `delays`. */
  ghost predicate Cycles(repeated: seq<real>, delays: seq<real>)
    requires delays != []
  {
    forall i | 0 <= i < |repeated| :: repeated[i] == delays[i % |delays|]
  }

  lemma DoublingCycles(repeated: seq<real>, delays: seq<real>, k: nat)
    requires delays != [] && Cycles(repeated, delays) && |repeated| == k * |delays|
    ensures Cycles(repeated + repeated, delays)
  {
    forall i | |repeated| <= i < 2 * |repeated|
      ensures (repeated + repeated)[i] == delays[i % |delays|]
    {
      Rounds(i - |repeated|, k, |delays|);
      assert (repeated + repeated)[i] == repeated[i - |repeated|];
    }
  }

  /** `repeated` is `delays` again and again, `k` times. */
  ghost predicate Repeats(repeated: seq<real>, delays: seq<real>, k: nat)
    requires delays != []
  {
    |repeated| == k * |delays| && |repeated| > 0 && Cycles(repeated, delays)
  }

  lemma RepeatsOnce(delays: seq<real>)
    requires delays != []
    ensures Repeats(delays, delays, 1)
  {}

  lemma RepeatedIsCyclic(repeated: seq<real>, delays: seq<real>, k: nat)
    requires delays != [] && Repeats(repeated, delays, k)
    ensures forall i | 0 <= i < |repeated| :: repeated[i] == delays[i % |delays|]
  {}

  lemma RepeatsTwice(repeated: seq<real>, delays: seq<real>, k: nat)
    requires delays != [] && Repeats(repeated, delays, k)
    ensures Repeats(repeated + repeated, delays, k + k)
  {
    DoublingCycles(repeated, delays, k);
    assert |repeated| + |repeated| == (k + k) * |delays|;
  }

  /**
   * The longest time from the start to the end of a transition, in milliseconds; `None` stands for
   * minus infinity. A shorter list of delays is repeated, as section 2.1 of CSS Transitions Level 1
   * demands.
   */
  method CalculateTimeout(delays: seq<real>, durations: seq<real>) returns (timeout: Option<real>)
    requires durations != [] ==> delays != []
    ensures timeout.None? <==> durations == []
    ensures timeout.Some? ==>
      && (forall i | 0 <= i < |durations| :: durations[i] + delays[i % |delays|] <= timeout.value)
      && (exists i | 0 <= i < |durations| :: durations[i] + delays[i % |delays|] == timeout.value)
  {
    hide Repeats;
    var repeated := delays;
    ghost var k: nat := 1;
    if durations != [] {
      RepeatsOnce(delays);
    }
    while |repeated| < |durations|
      invariant durations != [] ==> repeated != [] && Repeats(repeated, delays, k)
      decreases |durations| - |repeated|
    {
      RepeatsTwice(repeated, delays, k);
      repeated := repeated + repeated;
      k := k + k;
    }
    timeout := Longest(repeated, durations);
    if durations != [] {
      RepeatedIsCyclic(repeated, delays, k);
      var i :| 0 <= i < |durations| && durations[i] + repeated[i] == timeout.value;
      assert durations[i] + delays[i % |delays|] == timeout.value;
    }
  }

  /** `Math.max` over the sums. */
  method Longest(delays: seq<real>, durations: seq<real>) returns (longest: Option<real>)
    requires |delays| >= |durations|
    ensures longest.None? <==> durations == []
    ensures longest.Some? ==>
      && (forall i | 0 <= i < |durations| :: durations[i] + delays[i] <= longest.value)
      && (exists i | 0 <= i < |durations| :: durations[i] + delays[i] == longest.value)
  {
    longest := None;
    for i := 0 to |durations|
      invariant longest.None? <==> i == 0
      invariant longest.Some? ==>
        && (forall j | 0 <= j < i :: durations[j] + delays[j] <= longest.value)
        && (exists j | 0 <= j < i :: durations[j] + delays[j] == longest.value)
    {
      var total := durations[i] + delays[i];
      if longest.None? || longest.value < total {
        longest := Some(total);
      }
    }
  }

  // ---- awaitAnimationsOnElement ----

  /** What reaches a waiting element: an end event with its own clock and ours, or the one timer. */
  datatype Signal = EndEvent(onElement: bool, sinceStart: real, elapsed: real) | Timer

  /** `ends` counts the calls of `end`. */
  datatype Wait = Wait(propCount: nat, transitioned: nat, listening: bool, ends: nat)

  /** The end of an animation of the element itself, and one that began after we began to listen. */
  predicate Accepted(s: Signal) {
    s.EndEvent? && s.onElement && s.elapsed <= s.sinceStart
  }

  function AcceptedCount(ss: seq<Signal>): nat {
    if ss == [] then 0
    else AcceptedCount(ss[..|ss| - 1]) + (if Accepted(ss[|ss| - 1]) then 1 else 0)
  }

  function Waiting(propCount: nat): Wait {
    Wait(propCount, 0, true, 0)
  }

  function Ended(w: Wait): Wait {
    w.(listening := false, ends := w.ends + 1)
  }

  function Signalled(w: Wait, s: Signal): Wait {
    if s.Timer? then (if w.transitioned < w.propCount then Ended(w) else w)
    else if !w.listening || !s.onElement || s.sinceStart < s.elapsed then w
    else
      var counted := w.(transitioned := w.transitioned + 1);
      if counted.transitioned >= w.propCount then Ended(counted) else counted
  }

  function AfterSignals(w: Wait, ss: seq<Signal>): Wait {
    if ss == [] then w else Signalled(AfterSignals(w, ss[..|ss| - 1]), ss[|ss| - 1])
  }

  /** The timer is set once. */
  ghost predicate OneTimer(ss: seq<Signal>) {
    forall i, j | 0 <= i < j < |ss| :: !(ss[i].Timer? && ss[j].Timer?)
  }

  /**
   * After any signals, `end` has run once if the timer has fired or enough events were accepted, and
   * not at all otherwise; the listener is attached just as long. So it runs at whichever is first.
   */
  lemma {:induction false} EndsOnce(propCount: nat, ss: seq<Signal>)
    requires propCount > 0 && OneTimer(ss)
    ensures var w := AfterSignals(Waiting(propCount), ss);
      var over := Timer in ss || AcceptedCount(ss) >= propCount;
      && w.propCount == propCount
      && w.ends == (if over then 1 else 0)
      && w.listening == !over
      && (!over ==> w.transitioned == AcceptedCount(ss))
      && (Timer !in ss && over ==> w.transitioned >= propCount)
  {
    if ss != [] {
      var n := |ss| - 1;
      EndsOnce(propCount, ss[..n]);
      assert ss == ss[..n] + [ss[n]];
      if ss[n].Timer? {
        assert forall i | 0 <= i < n :: !ss[..n][i].Timer?;
      }
    }
  }

  class AnimationWait {
    const propCount: nat
    var transitioned: nat
    var listening: bool
    var ends: nat

    function State(): Wait
      reads this
    {
      Wait(propCount, transitioned, listening, ends)
    }

    /** The listener is added and the timer is set. */
    constructor (propCount: nat)
      ensures State() == Waiting(propCount)
    {
      this.propCount := propCount;
      transitioned := 0;
      listening := true;
      ends := 0;
    }

    method End()
      modifies this
      ensures State() == Ended(old(State()))
    {
      listening := false;
      ends := ends + 1;
    }

    /** The browser calls the listener only while it is attached. */
    method OnEvent(onElement: bool, sinceStart: real, elapsed: real)
      modifies this
      ensures State() == Signalled(old(State()), EndEvent(onElement, sinceStart, elapsed))
      ensures !old(listening) || !onElement || elapsed > sinceStart ==> State() == old(State())
      ensures old(listening) && onElement && elapsed <= sinceStart ==>
        && transitioned == old(transitioned) + 1
        && listening == (transitioned < propCount)
        && ends == old(ends) + (if transitioned < propCount then 0 else 1)
    {
      if !listening || !onElement || sinceStart < elapsed {
        return;
      }
      transitioned := transitioned + 1;
      if transitioned >= propCount {
        End();
      }
    }

    method OnTimer()
      modifies this
      ensures State() == Signalled(old(State()), Timer)
      ensures old(transitioned) < propCount ==> !listening && ends == old(ends) + 1
      ensures old(transitioned) >= propCount ==> State() == old(State())
    {
      if transitioned < propCount {
        End();
      }
    }
  }
}
