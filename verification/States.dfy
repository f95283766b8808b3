// src/modules/Visit.ts: which events move the state of a visit backwards.
module States {
  import opened Wrappers
  import opened Visits
  import opened Protocol
  import opened Exclusivity
  import opened Runs
  import opened Tidiness
  import opened Outcomes

  /** The events that set a state without asking whether the visit is already further. */
  predicate SetsBack(s: World, e: Event)
    requires s.WellFormed() && Enabled(s, e)
  {
    || (e.Start? && s.visits[e.i].state > STARTED)
    || (e.Step? && s.visits[e.i].pc.Closing? && s.visits[e.i].state > COMPLETED)
    || (e.Resume? && s.Current().state > ABORTED)
    || (e.Abort? && s.visits[e.i].state > ABORTED)
    || (e.Fail? && !e.hard && s.visits[e.i].state > ABORTED)
  }

  ghost predicate StatesAdvance(s: World, r: World) {
    |r.visits| >= |s.visits| && forall k | 0 <= k < |s.visits| :: r.visits[k].state >= s.visits[k].state
  }

  lemma StepAdvances(cfg: Settings, s: World, i: nat)
    requires s.WellFormed() && i < |s.visits| && CanStep(s.visits[i]) && !s.visits[i].pc.Closing?
    ensures StatesAdvance(s, Stepped(cfg, s, i))
  {}

  lemma CloseAdvances(s: World, i: nat)
    requires s.WellFormed() && i < |s.visits| && s.queue != Some(i)
    ensures StatesAdvance(s, Closed(s, i)) <==> s.visits[i].state <= COMPLETED
  {}

  lemma PerformAdvances(s: World, trip: Trip)
    requires s.WellFormed()
    ensures StatesAdvance(s, PerformNavigation(s, trip))
  {}

  lemma OutsideAdvances(cfg: Settings, s: World, e: Event)
    requires s.WellFormed() && Enabled(s, e) && Outside(e)
    ensures StatesAdvance(s, Next(cfg, s, e))
  {
    ReactKeeps(cfg, s, e);
    var r := React(cfg, s, e);
    if r.trip.Some? {
      PerformAdvances(r.world, r.trip.value);
    }
  }

  lemma SingleAdvances(cfg: Settings, s: World, e: Event)
    requires s.WellFormed() && Enabled(s, e) && !Outside(e) && !e.Step? && !e.Resume?
    ensures StatesAdvance(s, Next(cfg, s, e)) <==> !SetsBack(s, e)
  {}

  /** No event moves any visit backwards, apart from the assignments that do not ask. */
  lemma StatesAdvanceIff(cfg: Settings, s: World, e: Event)
    requires Inv(s) && Enabled(s, e)
    ensures StatesAdvance(s, Next(cfg, s, e)) <==> !SetsBack(s, e)
  {
    hide Next, StatesAdvance;
    if Outside(e) {
      OutsideAdvances(cfg, s, e);
    } else if e.Step? {
      StepAdvancesIff(cfg, s, e.i);
    } else if e.Resume? {
      ResumeAdvancesIff(cfg, s, e.i);
    } else {
      SingleAdvances(cfg, s, e);
    }
  }

  lemma StepAdvancesIff(cfg: Settings, s: World, i: nat)
    requires Inv(s) && Enabled(s, Step(i))
    ensures StatesAdvance(s, Next(cfg, s, Step(i))) <==> !SetsBack(s, Step(i))
  {
    if s.visits[i].pc.Closing? {
      CloseAdvances(s, i);
    } else {
      StepAdvances(cfg, s, i);
    }
  }

  lemma ResumeAdvancesIff(cfg: Settings, s: World, i: nat)
    requires Inv(s) && Enabled(s, Resume(i))
    ensures StatesAdvance(s, Next(cfg, s, Resume(i))) <==> !SetsBack(s, Resume(i))
  {}

  /** A visit that has not started is in a state below STARTED, and none has failed. */
  predicate Fresh(v: Visit) {
    && (v.pc.Queued? || v.pc.Aborting? || v.pc.Starting? ==> v.state < STARTED)
    && v.state != FAILED
  }

  predicate AllFresh(s: World) {
    forall i | 0 <= i < |s.visits| :: Fresh(s.visits[i])
  }

  lemma PutFresh(s: World, r: World, i: nat)
    requires AllFresh(s) && i < |s.visits| && |r.visits| == |s.visits|
    requires Fresh(r.visits[i]) && r.visits == s.visits[i := r.visits[i]]
    ensures AllFresh(r)
  {}

  lemma PerformFresh(s: World, trip: Trip)
    requires s.WellFormed() && AllFresh(s)
    ensures AllFresh(PerformNavigation(s, trip))
  {}

  lemma ClosedFresh(s: World, i: nat)
    requires Inv(s) && AllFresh(s) && i < |s.visits| && s.visits[i].pc.Closing?
    ensures AllFresh(Closed(s, i))
  {}

  lemma ResumeFresh(s: World, i: nat)
    requires Inv(s) && AllFresh(s) && i < |s.visits| && s.visits[i].pc.Aborting?
    requires !s.Current().pc.Starting?
    ensures AllFresh(Resumed(s, i))
  {}

  lemma StepFresh(cfg: Settings, s: World, i: nat)
    requires Inv(s) && AllFresh(s) && i < |s.visits| && CanStep(s.visits[i])
    requires !Stepped(cfg, s, i).Crashed()
    ensures AllFresh(Stepped(cfg, s, i))
  {
    if s.visits[i].pc.Closing? {
      ClosedFresh(s, i);
    } else {
      PutFresh(s, Stepped(cfg, s, i), i);
    }
  }

  lemma NextFresh(cfg: Settings, s: World, e: Event)
    requires Inv(s) && Sound(s) && AllFresh(s) && Allowed(cfg, NoAborts, s, e)
    requires !Next(cfg, s, e).Crashed()
    ensures AllFresh(Next(cfg, s, e))
  {
    if Outside(e) {
      ReactKeeps(cfg, s, e);
      var r := React(cfg, s, e);
      if r.trip.Some? {
        PerformFresh(r.world, r.trip.value);
      }
    } else if e.Step? {
      StepFresh(cfg, s, e.i);
    } else if e.Resume? {
      ResumeFresh(s, e.i);
    } else {
      PutFresh(s, Next(cfg, s, e), e.i);
    }
  }

  lemma RunFresh(cfg: Settings, s: World, es: seq<Event>)
    requires Inv(s) && Live(s) && Sound(s) && (s.Crashed() || AllFresh(s)) && IsRun(cfg, NoAborts, s, es)
    ensures var r := Final(cfg, NoAborts, s, es); Inv(r) && Live(r) && (r.Crashed() || AllFresh(r))
    decreases |es|
  {
    if es != [] {
      NextInv(cfg, s, es[0]);
      NextLive(cfg, NoAborts, s, es[0]);
      NextSound(cfg, s, es[0]);
      if !Next(cfg, s, es[0]).Crashed() {
        NextFresh(cfg, s, es[0]);
      }
      RunFresh(cfg, Next(cfg, s, es[0]), es[1..]);
    }
  }

  lemma ReachableFresh(cfg: Settings, s: World)
    requires Reachable(cfg, NoAborts, s)
    ensures Inv(s) && Live(s) && (s.Crashed() || AllFresh(s))
  {
    var s0, es :| Reaches(cfg, NoAborts, s0, es, s);
    InitialInv(s0);
    RunFresh(cfg, s0, es);
  }

  lemma FreshAdvances(cfg: Settings, s: World, e: Event)
    requires Inv(s) && Live(s) && AllFresh(s) && Allowed(cfg, NoAborts, s, e)
    ensures !SetsBack(s, e)
  {}

  /**
   * Where no handler aborts visits the unconditional assignments never set a visit back, whatever fails:
   * states only move forwards.
   */
  lemma StatesOnlyAdvance(cfg: Settings, s: World, e: Event)
    requires Reachable(cfg, NoAborts, s) && s.WellFormed() && Allowed(cfg, NoAborts, s, e)
    ensures StatesAdvance(s, Next(cfg, s, e))
  {
    ReachableFresh(cfg, s);
    FreshAdvances(cfg, s, e);
    StatesAdvanceIff(cfg, s, e);
  }
}
