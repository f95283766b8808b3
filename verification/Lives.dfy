// The life of one visit: how it can change whatever goes on around it, and what holds of it all its life.
module Lives {
  import opened Wrappers
  import opened Visits
  import opened Protocol
  import opened Exclusivity
  import opened Runs
  import opened Outcomes

  /** A visit as it reaches `performNavigation`. */
  predicate NewlyMade(v: Visit) {
    && v.to == v.trip.to && v.load.Unrequested? && v.document.None?
    && ((v.pc.Queued? && v.state == QUEUED) || ((v.pc.Aborting? || v.pc.Starting?) && v.state == CREATED))
  }

  /** One step of its own, which may be up to the page that it has loaded. */
  predicate StepsTo(v: Visit, w: Visit) {
    && CanStep(v)
    && if v.pc.NeedPage? then
         w == if v.Done() then v.(pc := Transited)
              else v.(state := Advanced(v.state, ENTERING), pc := Replacing, to := w.to)
       else if v.pc.Replacing? then w == v.(pc := Scrolling)
       else if v.pc.Closing? then w == v.(state := COMPLETED, pc := Finished, document := None)
       else w == Walked(v)
  }

  /** Everything that can happen to a visit. */
  predicate Moves(v: Visit, w: Visit) {
    || w == v
    || ((v.pc.Queued? || v.pc.Aborting?) && w == v.(pc := Starting))
    || (v.pc.Starting? && w == v.(state := STARTED, load := Pending,
                                  pc := if v.trip.options.wait then AwaitingPage else Transition))
    || (v.load.Pending? && w.load.Loaded?
          && w == v.(load := w.load, document := Some(w.load.page.html), state := Advanced(v.state, LOADED)))
    || (v.load.Pending? && v.Done() && w == v.(load := Skipped))
    || w == v.(state := ABORTED)
    || w == v.(state := ABORTED, document := None)
    || (InTry(v.pc) && w.Done() && w == v.(state := w.state, pc := Exited, document := None))
    || StepsTo(v, w)
  }

  lemma StepMoves(cfg: Settings, s: World, i: nat, k: nat)
    requires Inv(s) && i < |s.visits| && k < |s.visits| && CanStep(s.visits[i])
    ensures |Stepped(cfg, s, i).visits| == |s.visits| && Moves(s.visits[k], Stepped(cfg, s, i).visits[k])
  {
    if s.visits[i].pc.Closing? {
      ClosedMoves(s, i, k);
    }
  }

  lemma ClosedMoves(s: World, i: nat, k: nat)
    requires Inv(s) && i < |s.visits| && k < |s.visits| && s.visits[i].pc.Closing?
    ensures |Closed(s, i).visits| == |s.visits| && Moves(s.visits[k], Closed(s, i).visits[k])
  {}

  lemma PerformMoves(s: World, trip: Trip)
    requires s.WellFormed()
    ensures var r := PerformNavigation(s, trip);
      && |r.visits| == |s.visits| + 1 && NewlyMade(r.visits[|s.visits|])
      && forall k | 0 <= k < |s.visits| :: r.visits[k] == s.visits[k]
  {}

  lemma OutsideMoves(cfg: Settings, s: World, e: Event)
    requires s.WellFormed() && Enabled(s, e) && Outside(e)
    ensures var r := Next(cfg, s, e);
      && |s.visits| <= |r.visits| <= |s.visits| + 1
      && (forall k | 0 <= k < |s.visits| :: r.visits[k] == s.visits[k])
      && (|r.visits| > |s.visits| ==> NewlyMade(r.visits[|s.visits|]))
  {
    ReactKeeps(cfg, s, e);
    var r := React(cfg, s, e);
    if r.trip.Some? {
      PerformMoves(r.world, r.trip.value);
    }
  }

  lemma SingleMoves(cfg: Settings, s: World, e: Event, k: nat)
    requires Inv(s) && Enabled(s, e) && !Outside(e) && !e.Step? && k < |s.visits|
    ensures |Next(cfg, s, e).visits| == |s.visits| && Moves(s.visits[k], Next(cfg, s, e).visits[k])
  {}

  /** No event does anything else to a visit. */
  lemma NextMoves(cfg: Settings, s: World, e: Event)
    requires Inv(s) && Enabled(s, e)
    ensures var r := Next(cfg, s, e);
      && |s.visits| <= |r.visits| <= |s.visits| + 1
      && (forall k | 0 <= k < |s.visits| :: Moves(s.visits[k], r.visits[k]))
      && (|r.visits| > |s.visits| ==> NewlyMade(r.visits[|s.visits|]))
  {
    if Outside(e) {
      OutsideMoves(cfg, s, e);
    } else if e.Step? {
      forall k | 0 <= k < |s.visits|
        ensures |Next(cfg, s, e).visits| == |s.visits| && Moves(s.visits[k], Next(cfg, s, e).visits[k])
      {
        StepMoves(cfg, s, e.i, k);
      }
    } else {
      forall k | 0 <= k < |s.visits|
        ensures |Next(cfg, s, e).visits| == |s.visits| && Moves(s.visits[k], Next(cfg, s, e).visits[k])
      {
        SingleMoves(cfg, s, e, k);
      }
    }
  }

  /** Holds of every visit that is made, and whatever happens to it. */
  ghost predicate Lasts(p: Visit -> bool) {
    && (forall v: Visit | NewlyMade(v) :: p(v))
    && (forall v: Visit | v.pc.Idle? && v.load.Unrequested? && v.document.None? :: p(v))
    && (forall v: Visit, w: Visit | p(v) && Moves(v, w) :: p(w))
  }

  ghost predicate Every(s: World, p: Visit -> bool) {
    forall k | 0 <= k < |s.visits| :: p(s.visits[k])
  }

  lemma RunKeepsEvery(cfg: Settings, s: World, es: seq<Event>, p: Visit -> bool)
    requires Inv(s) && Lasts(p) && Every(s, p) && IsRun(cfg, CalmRuns, s, es)
    ensures Every(Final(cfg, CalmRuns, s, es), p)
    decreases |es|
  {
    if es != [] {
      hide Next;
      NextInv(cfg, s, es[0]);
      NextMoves(cfg, s, es[0]);
      EveryNext(s, Next(cfg, s, es[0]), p);
      RunKeepsEvery(cfg, Next(cfg, s, es[0]), es[1..], p);
    }
  }

  lemma EveryNext(s: World, r: World, p: Visit -> bool)
    requires Lasts(p) && Every(s, p)
    requires |s.visits| <= |r.visits| <= |s.visits| + 1
    requires forall k | 0 <= k < |s.visits| :: Moves(s.visits[k], r.visits[k])
    requires |r.visits| > |s.visits| ==> NewlyMade(r.visits[|s.visits|])
    ensures Every(r, p)
  {
    forall k | 0 <= k < |r.visits| ensures p(r.visits[k]) {
      if k < |s.visits| {
        assert p(s.visits[k]) && Moves(s.visits[k], r.visits[k]);
      }
    }
  }

  /** So it holds of every visit in every state of every calm run. */
  lemma LastsForAll(cfg: Settings, s: World, p: Visit -> bool)
    requires Lasts(p) && Reachable(cfg, CalmRuns, s)
    ensures Every(s, p)
  {
    var s0, es :| Reaches(cfg, CalmRuns, s0, es, s);
    InitialInv(s0);
    RunKeepsEvery(cfg, s0, es, p);
  }

  // ---- Where a visit goes ----

  /** Before a visit enters, its target is the one it was asked for. */
  predicate OnCourse(v: Visit) {
    Entered(v.pc) || v.pc.Finished? || v.pc.Exited? || v.pc.Idle? || v.to == v.trip.to
  }

  lemma OnCourseLasts()
    ensures Lasts(OnCourse)
  {}

  // ---- The script of a visit ----

  function Transit(animate: bool): seq<Pc> {
    if animate then
      [Transition, OutStart, OutAwait, OutEnd, NeedPage, Replacing, Scrolling, Viewing, InAwait, InStart, InEnd,
       Transited, Ending, Closing, Finished]
    else
      [Transition, Skipping, NeedPage, Replacing, Scrolling, Viewing, Transited, Ending, Closing, Finished]
  }

  /** Where a visit goes, one await after the other, when nothing stops it. */
  function Script(o: Options): seq<Pc> {
    (if o.wait then [AwaitingPage] else []) + Transit(o.animate)
  }

  lemma TransitIsFollowed(v: Visit, w: Visit, k: nat)
    requires StepsTo(v, w) && !v.Done()
    requires var t := Transit(v.trip.options.animate); k < |t| && v.pc == t[k]
    ensures var t := Transit(v.trip.options.animate); k + 1 < |t| && w.pc == t[k + 1]
  {
    hide Advanced;
  }

  /** A live visit never leaves out, repeats or swaps anything. */
  lemma ScriptIsFollowed(v: Visit, w: Visit, k: nat)
    requires StepsTo(v, w) && !v.Done()
    requires var t := Script(v.trip.options); k < |t| && v.pc == t[k]
    ensures var t := Script(v.trip.options); k + 1 < |t| && w.pc == t[k + 1]
  {
    hide Transit;
    var o, t := v.trip.options, Script(v.trip.options);
    if !o.wait {
      assert t == Transit(o.animate);
      TransitIsFollowed(v, w, k);
    } else if k > 0 {
      assert t[k] == Transit(o.animate)[k - 1];
      TransitIsFollowed(v, w, k - 1);
      assert t[k + 1] == Transit(o.animate)[k];
    } else {
      TransitStarts(o.animate);
      assert t[1] == Transit(o.animate)[0];
    }
  }

  lemma TransitStarts(animate: bool)
    ensures |Transit(animate)| > 1 && Transit(animate)[0] == Transition
  {}

  predicate InScript(v: Visit) {
    InTry(v.pc) && !v.Done() ==>
      && (v.pc.AwaitingPage? ==> v.trip.options.wait)
      && (v.pc.Skipping? ==> !v.trip.options.animate)
      && (v.pc.OutStart? || v.pc.OutAwait? || v.pc.OutEnd? || v.pc.InAwait? || v.pc.InStart? || v.pc.InEnd? ==>
            v.trip.options.animate)
  }

  lemma InScriptLasts()
    ensures Lasts(InScript)
  {}

  lemma PlaceInTransit(pc: Pc, animate: bool)
    requires InTry(pc) && !pc.AwaitingPage? && (pc.Skipping? ==> !animate)
    requires pc.OutStart? || pc.OutAwait? || pc.OutEnd? || pc.InAwait? || pc.InStart? || pc.InEnd? ==> animate
    ensures pc in Transit(animate)
  {
    var t := Transit(animate);
    assert t[0] == Transition;
    if animate {
      assert t[1] == OutStart && t[2] == OutAwait && t[3] == OutEnd && t[4] == NeedPage && t[5] == Replacing;
      assert t[6] == Scrolling && t[7] == Viewing && t[8] == InAwait && t[9] == InStart && t[10] == InEnd;
      assert t[11] == Transited && t[12] == Ending && t[13] == Closing;
    } else {
      assert t[1] == Skipping && t[2] == NeedPage && t[3] == Replacing && t[4] == Scrolling && t[5] == Viewing;
      assert t[6] == Transited && t[7] == Ending && t[8] == Closing;
    }
  }

  /** In every calm run every live visit is somewhere in its script, and its steps follow the script. */
  lemma LiveVisitsAreInScript(cfg: Settings, s: World, i: nat)
    requires Reachable(cfg, CalmRuns, s) && i < |s.visits| && InTry(s.visits[i].pc) && !s.visits[i].Done()
    ensures s.visits[i].pc in Script(s.visits[i].trip.options)
  {
    InScriptLasts();
    LastsForAll(cfg, s, InScript);
    var v := s.visits[i];
    assert InScript(v);
    if !v.pc.AwaitingPage? {
      PlaceInTransit(v.pc, v.trip.options.animate);
    } else {
      assert Script(v.trip.options)[0] == AwaitingPage;
    }
  }

  // ---- What the state of a visit tells ----

  /** How far a live visit is, by its state. */
  predicate StateTells(v: Visit) {
    && LoadFits(v)
    && (InTry(v.pc) && !v.Done() ==>
          && v.state >= STARTED
          && (v.load.Loaded? ==> v.state >= LOADED)
          && (v.trip.options.animate && !v.pc.AwaitingPage? && !v.pc.Transition? ==> v.state >= LEAVING)
          && (Entered(v.pc) <==> v.state == ENTERING))
  }

  /** A page is requested when the visit starts, and passed over only for a visit that is done. */
  predicate LoadFits(v: Visit) {
    && (v.pc.Queued? || v.pc.Aborting? || v.pc.Starting? ==> v.load.Unrequested?)
    && (v.pc.Queued? || v.pc.Aborting? || v.pc.Starting? ==> v.document.None?)
    && (v.load.Skipped? ==> v.Done())
  }

  /** A visit that is to wait for its page does not animate the old page out before it is there. */
  predicate WaitsForPage(v: Visit) {
    && LoadFits(v)
    && (v.trip.options.wait && InTry(v.pc) && !v.Done() && !v.pc.AwaitingPage? ==> v.load.Loaded?)
  }

  lemma StepStillTells(v: Visit, w: Visit)
    requires StateTells(v) && StepsTo(v, w)
    ensures StateTells(w)
  {}

  lemma StateTellsLasts()
    ensures Lasts(StateTells)
  {
    forall v: Visit, w: Visit | StateTells(v) && Moves(v, w) ensures StateTells(w) {
      if StepsTo(v, w) {
        StepStillTells(v, w);
      }
    }
  }

  lemma WaitsForPageLasts()
    ensures Lasts(WaitsForPage)
  {}

  /**
   * In every calm run: a live visit that is to wait has its page before anything is animated out, and the
   * state of every live visit says how far it has come, in whatever order it left and was loaded.
   */
  lemma StatesTellHowFar(cfg: Settings, s: World, i: nat)
    requires Reachable(cfg, CalmRuns, s) && i < |s.visits| && InTry(s.visits[i].pc) && !s.visits[i].Done()
    ensures var v := s.visits[i];
      && v.state >= STARTED && (v.load.Loaded? ==> v.state >= LOADED)
      && (v.trip.options.animate && !v.pc.AwaitingPage? && !v.pc.Transition? ==> v.state >= LEAVING)
      && (Entered(v.pc) <==> v.state == ENTERING)
      && (v.trip.options.wait && !v.pc.AwaitingPage? ==> v.load.Loaded?)
  {
    StateTellsLasts();
    WaitsForPageLasts();
    LastsForAll(cfg, s, StateTells);
    LastsForAll(cfg, s, WaitsForPage);
    assert StateTells(s.visits[i]) && WaitsForPage(s.visits[i]);
  }

  lemma StepIsTaken(cfg: Settings, s: World, i: nat)
    requires Inv(s) && i < |s.visits| && CanStep(s.visits[i]) && !s.visits[i].Done()
    requires s.visits[i].pc.Replacing? ==> s.visits[i].document.Some?
    ensures i == s.current && StepsTo(s.visits[i], Stepped(cfg, s, i).visits[i])
  {}

  /** In every calm run, a live visit goes from each place in its script to the next one. */
  lemma LiveStepFollowsScript(cfg: Settings, s: World, i: nat, k: nat)
    requires Reachable(cfg, CalmRuns, s) && s.WellFormed() && Enabled(s, Step(i)) && !s.visits[i].Done()
    requires var t := Script(s.visits[i].trip.options); k < |t| && s.visits[i].pc == t[k]
    ensures var t := Script(s.visits[i].trip.options);
      k + 1 < |t| && Next(cfg, s, Step(i)).visits[i].pc == t[k + 1]
  {
    ReachableSound(cfg, CalmRuns, s);
    var r := Next(cfg, s, Step(i));
    StepIsTaken(cfg, s, i);
    ScriptIsFollowed(s.visits[i], r.visits[i], k);
  }

  /** A visit starts at the beginning of its script. */
  lemma StartBeginsScript(cfg: Settings, s: World, i: nat)
    requires s.WellFormed() && Enabled(s, Start(i))
    ensures var v := Next(cfg, s, Start(i)).visits[i];
      v.state == STARTED && v.load.Pending? && v.pc == Script(v.trip.options)[0]
  {
    TransitStarts(s.visits[i].trip.options.animate);
  }
}
