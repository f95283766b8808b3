// Every visit gets on: a measure of the work left, and when everything comes to rest.
module Progress {
  import opened Wrappers
  import opened Visits
  import opened ClassNames
  import opened Protocol
  import opened Exclusivity
  import opened Runs
  import opened Outcomes

  function PcRank(pc: Pc): nat {
    match pc
    case Queued => 21
    case Aborting => 20
    case Starting => 19
    case AwaitingPage => 18
    case Transition => 17
    case Skipping => 14
    case OutStart => 16
    case OutAwait => 15
    case OutEnd => 14
    case NeedPage => 13
    case Replacing => 12
    case Scrolling => 11
    case Viewing => 10
    case InAwait => 9
    case InStart => 8
    case InEnd => 7
    case Transited => 3
    case Ending => 2
    case Closing => 1
    case Idle => 0
    case Finished => 0
    case Exited => 0
  }

  function Rank(v: Visit): nat {
    2 * PcRank(v.pc) + (if v.load.Pending? then 1 else 0)
  }

  /** How much is left to do for all visits, superseded ones included. */
  function Work(visits: seq<Visit>): nat {
    if visits == [] then 0 else Work(visits[..|visits| - 1]) + Rank(visits[|visits| - 1])
  }

  lemma {:induction false} WorkPut(visits: seq<Visit>, i: nat, v: Visit)
    requires i < |visits|
    ensures Work(visits[i := v]) == Work(visits) - Rank(visits[i]) + Rank(v)
  {
    var n := |visits| - 1;
    if i == n {
      assert visits[i := v][..n] == visits[..n];
    } else {
      assert visits[i := v][..n] == visits[..n][i := v];
      WorkPut(visits[..n], i, v);
    }
  }

  /** Events of the visits themselves; each of them brings the work down. */
  predicate Inside(e: Event) {
    e.Resume? || e.Start? || e.Arrive? || e.Drop? || e.Step? || e.Fail?
  }

  lemma WalkFalls(v: Visit)
    requires Walks(v.pc)
    ensures Rank(Walked(v)) < Rank(v)
  {}

  lemma PutFalls(s: World, r: World, i: nat)
    requires i < |s.visits| && |r.visits| == |s.visits| && r.visits == s.visits[i := r.visits[i]]
    requires Rank(r.visits[i]) < Rank(s.visits[i])
    ensures Work(r.visits) < Work(s.visits)
  {
    WorkPut(s.visits, i, r.visits[i]);
  }

  /** Two visits change: one gets further, the other at least not back. */
  lemma PutTwoFalls(s: World, r: World, i: nat, j: nat)
    requires i < |s.visits| && j < |s.visits| && i != j && |r.visits| == |s.visits|
    requires r.visits == s.visits[i := r.visits[i]][j := r.visits[j]]
    requires Rank(r.visits[i]) <= Rank(s.visits[i]) && Rank(r.visits[j]) < Rank(s.visits[j])
    ensures Work(r.visits) < Work(s.visits)
  {
    WorkPut(s.visits, i, r.visits[i]);
    WorkPut(s.visits[i := r.visits[i]], j, r.visits[j]);
  }

  lemma ClosedFalls(s: World, i: nat)
    requires Inv(s) && i < |s.visits| && s.visits[i].pc.Closing?
    ensures Work(Closed(s, i).visits) < Work(s.visits)
  {
    var r := Closed(s, i);
    if s.queue.Some? {
      PutTwoFalls(s, r, i, s.queue.value);
    } else {
      PutFalls(s, r, i);
    }
  }

  lemma StepFalls(cfg: Settings, s: World, i: nat)
    requires Inv(s) && i < |s.visits| && CanStep(s.visits[i])
    ensures Work(Stepped(cfg, s, i).visits) < Work(s.visits)
  {
    var r, v := Stepped(cfg, s, i), s.visits[i];
    if v.pc.Closing? {
      ClosedFalls(s, i);
    } else {
      if v.pc.NeedPage? {
        EnterProceeds(cfg, s, i);
      } else if Walks(v.pc) {
        WalkFalls(v);
      }
      PutFalls(s, r, i);
    }
  }

  /** The measure falls at every event of a visit, current or superseded. */
  lemma NextFalls(cfg: Settings, s: World, e: Event)
    requires Inv(s) && Enabled(s, e) && Inside(e) && LoadOk(s.visits[e.i])
    ensures Work(Next(cfg, s, e).visits) < Work(s.visits)
  {
    if e.Step? {
      StepFalls(cfg, s, e.i);
    } else if e.Resume? {
      PutTwoFalls(s, Next(cfg, s, e), s.current, e.i);
    } else {
      PutFalls(s, Next(cfg, s, e), e.i);
    }
  }

  lemma RunFalls(cfg: Settings, s: World, es: seq<Event>)
    requires Inv(s) && Sound(s) && IsRun(cfg, CalmRuns, s, es) && (forall e | e in es :: Inside(e))
    ensures |es| + Work(Final(cfg, CalmRuns, s, es).visits) <= Work(s.visits)
    decreases |es|
  {
    if es != [] {
      assert es[0] in es;
      NextFalls(cfg, s, es[0]);
      NextInv(cfg, s, es[0]);
      NextSound(cfg, s, es[0]);
      RunFalls(cfg, Next(cfg, s, es[0]), es[1..]);
    }
  }

  /** Between two requests, visits take at most as many steps as there is work left. */
  lemma StepsAreBounded(cfg: Settings, s: World, es: seq<Event>)
    requires Reachable(cfg, CalmRuns, s)
    requires s.WellFormed() && IsRun(cfg, CalmRuns, s, es) && (forall e | e in es :: Inside(e))
    ensures |es| <= Work(s.visits)
  {
    ReachableSound(cfg, CalmRuns, s);
    RunFalls(cfg, s, es);
  }

  /** No visit has anything left to do: every load has settled and every step is taken. */
  ghost predicate Quiet(cfg: Settings, s: World)
    requires s.WellFormed()
  {
    forall e | Inside(e) && !e.Fail? :: !Allowed(cfg, CalmRuns, s, e)
  }

  /** The current visit is done although it has not come to 'visit:end', and no request is about to take over. */
  predicate Stuck(s: World)
    requires s.WellFormed()
  {
    var v := s.Current();
    !AbortWindow(s) && v.Done() && (v.pc.Exited? || (InTry(v.pc) && !v.pc.Ending? && !v.pc.Closing?))
  }

  lemma NextStuck(cfg: Settings, s: World, e: Event)
    requires Inv(s) && Stuck(s) && Enabled(s, e) && Calm(cfg, s, e)
    ensures Stuck(Next(cfg, s, e)) && Next(cfg, s, e).current == s.current
  {
    if Outside(e) {
      ReactKeeps(cfg, s, e);
      PerformStuck(React(cfg, s, e));
    } else if e.Step? {
      StepStuck(cfg, s, e.i);
    }
  }

  lemma PerformStuck(r: Reaction)
    requires r.world.WellFormed() && r.world.navigating && Stuck(r.world)
    ensures Stuck(Handled(r)) && Handled(r).current == r.world.current
  {}

  lemma StepStuck(cfg: Settings, s: World, i: nat)
    requires Inv(s) && Stuck(s) && i < |s.visits| && CanStep(s.visits[i])
    ensures Stuck(Stepped(cfg, s, i)) && Stepped(cfg, s, i).current == s.current
  {
    if s.visits[i].pc.Closing? {
      ClosedInv(s, i);
    }
  }

  /** A stuck instance stays stuck: later requests are queued one over the other for good. */
  lemma StuckForever(cfg: Settings, a: Assumption, s: World, es: seq<Event>)
    requires Inv(s) && Stuck(s) && AtLeastCalm(a) && IsRun(cfg, a, s, es)
    ensures var r := Final(cfg, a, s, es); Stuck(r) && r.current == s.current && r.navigating
    decreases |es|
  {
    if es != [] {
      NextInv(cfg, s, es[0]);
      NextStuck(cfg, s, es[0]);
      StuckForever(cfg, a, Next(cfg, s, es[0]), es[1..]);
    }
  }

  /** A handler aborts the current visit, or it fails, before 'visit:end' and with no request to take over. */
  predicate Stops(s: World, e: Event)
    requires s.WellFormed()
  {
    var pc := s.Current().pc;
    && !AbortWindow(s) && (e.Abort? || e.Fail?) && e.i == s.current
    && InTry(pc) && (e.Fail? || (!pc.Ending? && !pc.Closing?))
  }

  lemma StepStopsNothing(cfg: Settings, s: World, i: nat)
    requires Inv(s) && Sound(s) && !Stuck(s) && i < |s.visits| && CanStep(s.visits[i])
    ensures !Stuck(Stepped(cfg, s, i))
  {
    if s.visits[i].pc.Closing? {
      ClosedInv(s, i);
    }
  }

  lemma OutsideStopsNothing(cfg: Settings, s: World, e: Event)
    requires Inv(s) && !Stuck(s) && Enabled(s, e) && Outside(e) && Calm(cfg, s, e)
    ensures !Stuck(Next(cfg, s, e))
  {
    ReactKeeps(cfg, s, e);
  }

  /** These events, and no others, make an instance stuck. */
  lemma NextStuckIff(cfg: Settings, s: World, e: Event)
    requires Inv(s) && Sound(s) && !Stuck(s) && Enabled(s, e) && Calm(cfg, s, e)
    ensures Stuck(Next(cfg, s, e)) <==> Stops(s, e)
  {
    if Outside(e) {
      OutsideStopsNothing(cfg, s, e);
    } else if e.Step? {
      StepStopsNothing(cfg, s, e.i);
    }
  }

  /** Somewhere in the run the current visit is stopped. */
  predicate StopsIn(cfg: Settings, s: World, es: seq<Event>)
    requires s.WellFormed() && IsRun(cfg, CalmRuns, s, es)
    decreases |es|
  {
    es != [] && (Stops(s, es[0]) || StopsIn(cfg, Next(cfg, s, es[0]), es[1..]))
  }

  lemma RunStuckIff(cfg: Settings, s: World, es: seq<Event>)
    requires Inv(s) && Sound(s) && !Stuck(s) && IsRun(cfg, CalmRuns, s, es)
    ensures Stuck(Final(cfg, CalmRuns, s, es)) <==> StopsIn(cfg, s, es)
    decreases |es|
  {
    if es != [] {
      var t := Next(cfg, s, es[0]);
      NextInv(cfg, s, es[0]);
      NextSound(cfg, s, es[0]);
      NextStuckIff(cfg, s, es[0]);
      if Stuck(t) {
        StuckForever(cfg, CalmRuns, t, es[1..]);
      } else {
        RunStuckIff(cfg, t, es[1..]);
      }
    }
  }

  lemma SomethingToDo(cfg: Settings, s: World)
    requires Inv(s) && Sound(s) && !s.Crashed() && s.navigating && !Stuck(s)
    ensures !Quiet(cfg, s)
  {
    var c, v := s.current, s.Current();
    if AbortWindow(s) {
      assert Allowed(cfg, CalmRuns, s, Resume(s.Last()));
    } else if v.pc.Starting? {
      assert Allowed(cfg, CalmRuns, s, Start(c));
    } else if v.load.Pending? {
      assert Allowed(cfg, CalmRuns, s, Arrive(c, Page("", "")));
    } else {
      assert Allowed(cfg, CalmRuns, s, Step(c));
    }
  }

  /** The visits alone come to rest with nothing navigating and nothing queued. */
  ghost predicate Drains(cfg: Settings, s: World, es: seq<Event>)
    requires s.WellFormed()
  {
    && IsRun(cfg, NoErrors, s, es) && (forall e | e in es :: Inside(e))
    && !Final(cfg, NoErrors, s, es).navigating && Final(cfg, NoErrors, s, es).queue.None?
  }

  lemma NextKeepsGoing(cfg: Settings, s: World, e: Event)
    requires Inv(s) && Sound(s) && !Stuck(s) && Allowed(cfg, NoErrors, s, e)
    ensures !Stuck(Next(cfg, s, e)) && !Next(cfg, s, e).Crashed()
  {
    NextStuckIff(cfg, s, e);
    if Outside(e) {
      ReactKeeps(cfg, s, e);
    } else if e.Step? {
      StepSound(cfg, s, e.i);
    }
  }

  lemma RunKeepsGoing(cfg: Settings, s: World, es: seq<Event>)
    requires Inv(s) && Sound(s) && !s.Crashed() && !Stuck(s) && IsRun(cfg, NoErrors, s, es)
    ensures var r := Final(cfg, NoErrors, s, es); Inv(r) && Sound(r) && !r.Crashed() && !Stuck(r)
    decreases |es|
  {
    if es != [] {
      NextInv(cfg, s, es[0]);
      NextSound(cfg, s, es[0]);
      NextKeepsGoing(cfg, s, es[0]);
      RunKeepsGoing(cfg, Next(cfg, s, es[0]), es[1..]);
    }
  }

  /** From a state that is not stuck, every way of coming to rest drains everything. */
  lemma RestMeansDrained(cfg: Settings, s: World, es: seq<Event>)
    requires Inv(s) && Sound(s) && !s.Crashed() && !Stuck(s) && IsRun(cfg, NoErrors, s, es)
    requires Quiet(cfg, Final(cfg, NoErrors, s, es))
    ensures !Final(cfg, NoErrors, s, es).navigating && Final(cfg, NoErrors, s, es).queue.None?
  {
    RunKeepsGoing(cfg, s, es);
    var r := Final(cfg, NoErrors, s, es);
    if r.navigating {
      SomethingToDo(cfg, r);
    }
  }

  /** The visits can bring everything to rest from a state exactly if it is not stuck. */
  lemma DrainsUnlessStuck(cfg: Settings, s: World)
    requires Inv(s) && Sound(s) && !s.Crashed()
    ensures (exists es :: Drains(cfg, s, es)) <==> !Stuck(s)
  {
    if Stuck(s) {
      forall es | IsRun(cfg, NoErrors, s, es) ensures Final(cfg, NoErrors, s, es).navigating {
        StuckForever(cfg, NoErrors, s, es);
      }
    } else {
      var es := RunToQuiet(cfg, s);
      RestMeansDrained(cfg, s, es);
      assert Drains(cfg, s, es);
    }
  }

  /**
   * Progress with aborts and errors. After any calm run short of a hard reload, everything can still be
   * brought to rest exactly if the current visit was never stopped on its way; and if so, no visit can
   * come to rest otherwise.
   */
  lemma DrainsUnlessStopped(cfg: Settings, s0: World, es: seq<Event>, s: World)
    requires Reaches(cfg, CalmRuns, s0, es, s) && !s.Crashed()
    ensures s.WellFormed()
    ensures (exists fs :: Drains(cfg, s, fs)) <==> !StopsIn(cfg, s0, es)
    ensures !StopsIn(cfg, s0, es) ==>
      forall fs | IsRun(cfg, NoErrors, s, fs) && Quiet(cfg, Final(cfg, NoErrors, s, fs)) ::
        !Final(cfg, NoErrors, s, fs).navigating && Final(cfg, NoErrors, s, fs).queue.None?
  {
    InitialInv(s0);
    RunSound(cfg, CalmRuns, s0, es);
    RunStuckIff(cfg, s0, es);
    DrainsUnlessStuck(cfg, s);
    if !Stuck(s) {
      forall fs | IsRun(cfg, NoErrors, s, fs) && Quiet(cfg, Final(cfg, NoErrors, s, fs))
        ensures !Final(cfg, NoErrors, s, fs).navigating && Final(cfg, NoErrors, s, fs).queue.None?
      {
        RestMeansDrained(cfg, s, fs);
      }
    }
  }

  /**
   * Progress. Without aborts and errors, once the visits have nothing left to do, nothing navigates
   * and nothing is queued: the last request has completed, its html is shown, its classes are gone.
   */
  lemma QuietMeansDone(cfg: Settings, s: World)
    requires Reachable(cfg, NoErrors, s) && Quiet(cfg, s)
    ensures !s.navigating && s.queue.None? && Unmarked(s.classes)
    ensures |s.visits| > 1 ==>
      && s.current == s.Last() && s.Current().state == COMPLETED && s.Current().load.Loaded?
      && s.displayed == Some(s.Current().load.page.html)
  {
    ReachableHealthy(cfg, s);
    if s.navigating {
      SomethingToDo(cfg, s);
    }
  }

  /** A queued visit stays queued until it starts, unless a later request takes its place. */
  lemma QueuedVisitIsKept(cfg: Settings, s: World, e: Event)
    requires Inv(s) && Enabled(s, e) && Calm(cfg, s, e) && s.queue.Some?
    ensures var r, q := Next(cfg, s, e), s.queue.value;
      || r.queue == Some(q)
      || (Requests(cfg, s, e) && r.queue == Some(q + 1))
      || (e == Step(s.current) && r.current == q && r.navigating && r.visits[q].pc.Starting?)
  {}

  /** Whatever is under way can be run to the end, within the steps that are left. */
  lemma RunToQuiet(cfg: Settings, s: World) returns (es: seq<Event>)
    requires Inv(s) && Sound(s)
    ensures IsRun(cfg, NoErrors, s, es) && (forall e | e in es :: Inside(e))
    ensures Quiet(cfg, Final(cfg, NoErrors, s, es))
    decreases Work(s.visits)
  {
    if Quiet(cfg, s) {
      es := [];
    } else {
      var e :| Inside(e) && !e.Fail? && Allowed(cfg, CalmRuns, s, e);
      NextInv(cfg, s, e);
      NextSound(cfg, s, e);
      NextFalls(cfg, s, e);
      var rest := RunToQuiet(cfg, Next(cfg, s, e));
      es := [e] + rest;
      assert es[1..] == rest;
    }
  }

  /** From every state of every clean run, the last request so far can still be carried through. */
  lemma LastRequestCanFinish(cfg: Settings, s: World) returns (es: seq<Event>)
    requires Reachable(cfg, NoErrors, s)
    ensures s.WellFormed() && IsRun(cfg, NoErrors, s, es) && (forall e | e in es :: Inside(e))
    ensures var r := Final(cfg, NoErrors, s, es);
      && !r.navigating && r.queue.None? && Unmarked(r.classes)
      && (|s.visits| > 1 ==>
            && |r.visits| == |s.visits| && r.current == r.Last() && r.Current().state == COMPLETED
            && r.Current().load.Loaded? && r.displayed == Some(r.Current().load.page.html))
  {
    ReachableHealthy(cfg, s);
    es := RunToQuiet(cfg, s);
    RunHealthy(cfg, s, es);
    InsideRunKeepsCount(cfg, s, es);
    var r := Final(cfg, NoErrors, s, es);
    if r.navigating {
      SomethingToDo(cfg, r);
    }
  }

  lemma InsideKeepsCount(cfg: Settings, s: World, e: Event)
    requires s.WellFormed() && Enabled(s, e) && Inside(e)
    ensures |Next(cfg, s, e).visits| == |s.visits|
  {}

  lemma InsideRunKeepsCount(cfg: Settings, s: World, es: seq<Event>)
    requires s.WellFormed() && IsRun(cfg, NoErrors, s, es) && (forall e | e in es :: Inside(e))
    ensures |Final(cfg, NoErrors, s, es).visits| == |s.visits|
    decreases |es|
  {
    hide Next;
    if es != [] {
      assert es[0] in es;
      InsideKeepsCount(cfg, s, es[0]);
      InsideRunKeepsCount(cfg, Next(cfg, s, es[0]), es[1..]);
    }
  }
}
