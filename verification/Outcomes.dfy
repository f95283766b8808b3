// What a run achieves: every request but the last gives way, and the last one is shown.
module Outcomes {
  import opened Wrappers
  import opened Visits
  import opened Protocol
  import opened Exclusivity
  import opened Runs
  import opened Tidiness

  /** A page is requested when the visit starts, and passed over only for a visit that is done. */
  predicate LoadOk(v: Visit) {
    && (v.pc.Queued? || v.pc.Aborting? || v.pc.Starting? ==> v.load.Unrequested?)
    && (InTry(v.pc) ==> !v.load.Unrequested?)
    && (v.load.Skipped? ==> v.Done())
  }

  /** A live visit holds the document of its page from the moment it is loaded, and enters only then. */
  predicate Kept(v: Visit) {
    && LoadOk(v)
    && (InTry(v.pc) && v.load.Loaded? && !v.Done() ==> v.document == Some(v.load.page.html))
    && (Entered(v.pc) && !v.Done() ==> v.load.Loaded?)
  }

  /** The content was replaced by a visit that was not stopped before 'visit:end'. */
  predicate Showing(v: Visit) {
    || (PastReplacing(v.pc) && !v.pc.Exited? && !v.Done())
    || v.pc.Ending? || v.pc.Closing? || v.pc.Finished?
  }

  predicate Shown(s: World)
    requires s.WellFormed()
  {
    Showing(s.Current()) ==>
      && s.Current().load.Loaded? && s.displayed == Some(s.Current().load.page.html)
      && s.rendered != [] && s.rendered[|s.rendered| - 1] == s.current
  }

  /** Whatever is aborted or fails, what a live visit shows is its own page. */
  predicate Sound(s: World)
    requires s.WellFormed()
  {
    (forall i | 0 <= i < |s.visits| :: Kept(s.visits[i])) && Shown(s)
  }

  lemma PutSound(s: World, r: World, i: nat)
    requires s.WellFormed() && Sound(s) && i < |s.visits| && Touches(s, r, i) && r.displayed == s.displayed
    requires Kept(r.visits[i])
    requires i == s.current && Showing(r.visits[i]) ==>
               Showing(s.visits[i]) && r.visits[i].load == s.visits[i].load
    ensures Sound(r)
  {}

  lemma WalkKept(v: Visit)
    requires Walks(v.pc) && CanStep(v) && Kept(v)
    ensures Kept(Walked(v)) && Walked(v).load == v.load && (Showing(Walked(v)) ==> Showing(v))
  {}

  lemma ReplaceSound(s: World, i: nat)
    requires Inv(s) && Sound(s) && i < |s.visits| && s.visits[i].pc.Replacing?
    ensures Sound(ReplaceContent(s, i)) && ReplaceContent(s, i).reload == s.reload
  {
    var v, r := s.visits[i], ReplaceContent(s, i);
    if v.Done() {
      PutSound(s, r, i);
    } else {
      assert i == s.current && v.document.Some?;
      assert forall k | 0 <= k < |s.visits| && k != i :: r.visits[k] == s.visits[k];
    }
  }

  lemma ClosedSound(s: World, i: nat)
    requires Inv(s) && Sound(s) && i == s.current && s.Current().pc.Closing?
    ensures Sound(Closed(s, i))
  {
    var r := Closed(s, i);
    assert forall k | 0 <= k < |s.visits| && k != i && s.queue != Some(k) :: r.visits[k] == s.visits[k];
  }

  lemma StepSound(cfg: Settings, s: World, i: nat)
    requires Inv(s) && Sound(s) && i < |s.visits| && CanStep(s.visits[i])
    ensures Sound(Stepped(cfg, s, i)) && Stepped(cfg, s, i).reload == s.reload
  {
    var r, v := Stepped(cfg, s, i), s.visits[i];
    if v.pc.Closing? {
      ClosedInv(s, i);
      ClosedSound(s, i);
    } else if v.pc.Replacing? {
      ReplaceSound(s, i);
    } else {
      if v.pc.NeedPage? {
        EnterProceeds(cfg, s, i);
      } else {
        WalkKept(v);
      }
      PutSound(s, r, i);
    }
  }

  lemma ResumeSound(s: World, i: nat)
    requires Inv(s) && Sound(s) && i < |s.visits| && s.visits[i].pc.Aborting?
    ensures Sound(Resumed(s, i))
  {
    var r := Resumed(s, i);
    assert forall k | 0 <= k < |s.visits| && k != i && k != s.current :: r.visits[k] == s.visits[k];
  }

  lemma PerformSound(s: World, trip: Trip)
    requires Inv(s) && Sound(s)
    ensures Sound(PerformNavigation(s, trip))
  {
    var r := PerformNavigation(s, trip);
    assert forall k | 0 <= k < |s.visits| :: r.visits[k] == s.visits[k];
  }

  lemma OutsideSound(cfg: Settings, s: World, e: Event)
    requires Inv(s) && Sound(s) && Enabled(s, e) && Outside(e)
    ensures Sound(Next(cfg, s, e))
  {
    ReactKeeps(cfg, s, e);
    var r := React(cfg, s, e);
    SessionInv(s, r.world.session);
    if r.trip.Some? {
      PerformSound(r.world, r.trip.value);
    }
  }

  /** The events that change one visit in place. */
  lemma SingleSound(cfg: Settings, s: World, e: Event)
    requires Inv(s) && Sound(s) && Enabled(s, e) && !Outside(e) && !e.Step? && !e.Resume?
    ensures Sound(Next(cfg, s, e))
  {
    PutSound(s, Next(cfg, s, e), e.i);
  }

  lemma NextSound(cfg: Settings, s: World, e: Event)
    requires Inv(s) && Sound(s) && Enabled(s, e) && Calm(cfg, s, e)
    ensures Sound(Next(cfg, s, e))
  {
    hide Sound;
    if Outside(e) {
      OutsideSound(cfg, s, e);
    } else if e.Step? {
      StepSound(cfg, s, e.i);
    } else if e.Resume? {
      ResumeSound(s, e.i);
    } else {
      SingleSound(cfg, s, e);
    }
  }

  lemma RunSound(cfg: Settings, a: Assumption, s: World, es: seq<Event>)
    requires Inv(s) && Sound(s) && AtLeastCalm(a) && IsRun(cfg, a, s, es)
    ensures Inv(Final(cfg, a, s, es)) && Sound(Final(cfg, a, s, es))
    decreases |es|
  {
    if es != [] {
      NextInv(cfg, s, es[0]);
      NextSound(cfg, s, es[0]);
      RunSound(cfg, a, Next(cfg, s, es[0]), es[1..]);
    }
  }

  lemma ReachableSound(cfg: Settings, a: Assumption, s: World)
    requires AtLeastCalm(a) && Reachable(cfg, a, s)
    ensures Inv(s) && Sound(s)
  {
    var s0, es :| Reaches(cfg, a, s0, es, s);
    InitialInv(s0);
    RunSound(cfg, a, s0, es);
  }

  /**
   * Last request wins, with any aborts and errors: whenever nothing navigates after at least one request,
   * the visit requested last has run to its end and its html is what the page shows, put there last. A
   * hard reload after that takes the browser away from the page.
   */
  lemma LastRequestWins(cfg: Settings, s: World)
    requires Reachable(cfg, CalmRuns, s) && !s.navigating && |s.visits| > 1
    ensures s.current == s.Last() && s.Current().pc.Finished?
    ensures s.Current().load.Loaded? && s.displayed == Some(s.Current().load.page.html)
    ensures s.rendered != [] && s.rendered[|s.rendered| - 1] == s.Last()
  {
    ReachableSound(cfg, CalmRuns, s);
  }

  /** Where no handler aborts visits it has the state of a completed visit as well. */
  lemma LastRequestCompletes(cfg: Settings, s: World)
    requires Reachable(cfg, NoAborts, s) && !s.navigating && |s.visits| > 1
    ensures s.current == s.Last() && s.Current().state == COMPLETED
  {
    ReachableLive(cfg, NoAborts, s);
  }

  /** 'content:replace' always finds the document of the visit's own page. */
  lemma DocumentPresent(cfg: Settings, s: World, i: nat)
    requires Reachable(cfg, CalmRuns, s) && i < |s.visits| && s.visits[i].pc.Replacing?
    requires !s.visits[i].Done()
    ensures s.visits[i].load.Loaded? && s.visits[i].document == Some(s.visits[i].load.page.html)
  {
    ReachableSound(cfg, CalmRuns, s);
  }

  // ---- Clean runs ----

  predicate Healthy(s: World)
    requires s.WellFormed()
  {
    Sound(s) && !s.Crashed() && !s.Current().pc.Exited?
  }

  lemma StepHealthy(cfg: Settings, s: World, i: nat)
    requires Inv(s) && Live(s) && Healthy(s) && i < |s.visits| && CanStep(s.visits[i])
    ensures Healthy(Stepped(cfg, s, i))
  {
    StepSound(cfg, s, i);
    if s.visits[i].pc.Closing? {
      ClosedInv(s, i);
    }
  }

  lemma NextHealthy(cfg: Settings, s: World, e: Event)
    requires Inv(s) && Live(s) && Healthy(s) && Allowed(cfg, NoErrors, s, e)
    ensures Healthy(Next(cfg, s, e))
  {
    NextSound(cfg, s, e);
    if e.Step? {
      StepHealthy(cfg, s, e.i);
    } else if Outside(e) {
      ReactKeeps(cfg, s, e);
    }
  }

  lemma RunHealthy(cfg: Settings, s: World, es: seq<Event>)
    requires Inv(s) && Live(s) && Swept(s) && Healthy(s) && IsRun(cfg, NoErrors, s, es)
    ensures var r := Final(cfg, NoErrors, s, es); Inv(r) && Live(r) && Swept(r) && Healthy(r)
    decreases |es|
  {
    if es != [] {
      NextInv(cfg, s, es[0]);
      NextLive(cfg, NoErrors, s, es[0]);
      NextSwept(cfg, NoErrors, s, es[0]);
      NextHealthy(cfg, s, es[0]);
      RunHealthy(cfg, Next(cfg, s, es[0]), es[1..]);
    }
  }

  lemma ReachableHealthy(cfg: Settings, s: World)
    requires Reachable(cfg, NoErrors, s)
    ensures Inv(s) && Live(s) && Swept(s) && Healthy(s)
  {
    var s0, es :| Reaches(cfg, NoErrors, s0, es, s);
    InitialInv(s0);
    RunHealthy(cfg, s0, es);
  }
}
