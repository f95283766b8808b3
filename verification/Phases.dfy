// The animation classes on the html element at every point of an animated visit.
module Phases {
  import opened ClassNames
  import opened Protocol
  import opened Wrappers
  import opened Exclusivity
  import opened Runs
  import opened Outcomes

  /** From the out animation until right before the content is replaced. */
  predicate IsLeaving(pc: Pc) {
    pc.OutAwait? || pc.OutEnd? || pc.NeedPage? || pc.Replacing?
  }

  /** From the replaced content until 'visit:end' sweeps the classes. */
  predicate IsRendering(pc: Pc) {
    Entered(pc) && !pc.Replacing? && !pc.Closing?
  }

  /** The in animation has started. */
  predicate IsSettled(pc: Pc) {
    pc.InEnd? || pc.Transited? || pc.Ending?
  }

  /** What the classes of an animated visit say at a given point. */
  predicate InPhase(v: Visit, classes: set<string>) {
    && !v.pc.Skipping?
    && (IsLeaving(v.pc) ==> "is-leaving" in classes)
    && (IsRendering(v.pc) ==> "is-rendering" in classes && "is-leaving" !in classes)
    && (IsLeaving(v.pc) || IsRendering(v.pc) ==> "is-changing" in classes)
    && (IsLeaving(v.pc) || (IsRendering(v.pc) && !IsSettled(v.pc)) ==> "is-animating" in classes)
    && (IsSettled(v.pc) ==> "is-animating" !in classes)
    && (v.trip.popstate && InTry(v.pc) && !v.pc.Closing? ==> "is-popstate" in classes)
    && (InTry(v.pc) && !v.pc.Closing? ==> NameClass(v) <= classes)
  }

  /** The classes follow the current visit while it is alive, and nothing is marked as rendering before. */
  predicate Phased(s: World)
    requires s.WellFormed()
  {
    var v := s.Current();
    && (v.trip.options.animate && InTry(v.pc) && !v.Done() ==> InPhase(v, s.classes))
    && (v.pc.Starting? || (InTry(v.pc) && !PastReplacing(v.pc)) ==> "is-rendering" !in s.classes)
  }

  predicate PhaseOk(s: World)
    requires s.WellFormed()
  {
    var v := s.Current();
    && Phased(s)
    && (!s.navigating || v.pc.Closing? ==> "is-rendering" !in s.classes)
    && (AbortWindow(s) && s.visits[s.Last()].trip.options.animate ==>
          "is-rendering" !in s.classes && !(v.pc.Replacing? && !v.Done() && v.trip.options.animate))
  }

  predicate Spoils(s: World, e: Event)
    requires s.WellFormed()
  {
    EntersLate(s, e) || EndsRendering(s, e)
  }

  lemma NamesDiffer(v: Visit)
    ensures "is-leaving" != "is-rendering" && "is-leaving" != "is-animating" && "is-leaving" != "is-changing"
    ensures "is-animating" != "is-rendering" && "is-animating" != "is-changing" && "is-leaving" != "is-popstate"
    ensures "is-animating" != "is-popstate" && "is-rendering" != "is-popstate" && "is-changing" != "is-rendering"
    ensures forall c | c in NameClass(v) :: c[..3] == "to-"
    ensures NameClass(v) !! {"is-leaving", "is-animating", "is-rendering", "is-changing", "is-popstate"}
  {
    assert "is-animating"[3] != "is-rendering"[3] && "is-leaving"[3] != "is-popstate"[3];
    assert "is-animating"[3] != "is-popstate"[3] && "is-changing"[3] != "is-popstate"[3];
    assert "is-changing"[3] != "is-animating"[3];
    forall c | c in NameClass(v) ensures c[0] == 't' && c[..3] == "to-" {}
  }

  lemma RenderingIsSwup()
    ensures IsSwupClass("is-rendering")
  {
    PrefixIsSwup(2);
  }

  lemma WalkPhase(v: Visit, classes: set<string>)
    requires Walks(v.pc) && !v.Done() && v.trip.options.animate && InPhase(v, classes)
    ensures InPhase(Walked(v), Marked(v, classes))
  {
    NamesDiffer(v);
  }

  lemma WalkRendering(v: Visit, classes: set<string>)
    requires Walks(v.pc) && "is-rendering" !in classes
    ensures "is-rendering" !in Marked(v, classes)
  {}

  lemma ReplacePhase(v: Visit, classes: set<string>)
    requires v.pc.Replacing? && v.trip.options.animate && InPhase(v, classes)
    ensures InPhase(v.(pc := Scrolling), Remarked(v, Readied(v, classes)))
  {
    NamesDiffer(v);
  }

  lemma OthersStep(cfg: Settings, s: World, i: nat)
    requires Inv(s) && PhaseOk(s) && i < |s.visits| && i != s.current && CanStep(s.visits[i])
    ensures PhaseOk(Stepped(cfg, s, i))
  {}

  lemma CloseStep(s: World, i: nat)
    requires Inv(s) && PhaseOk(s) && i == s.current && s.Current().pc.Closing?
    ensures PhaseOk(Closed(s, i))
  {
    ClosedInv(s, i);
  }

  lemma ReplaceStep(s: World, i: nat)
    requires Inv(s) && Sound(s) && PhaseOk(s) && i == s.current && s.Current().pc.Replacing?
    ensures PhaseOk(ReplaceContent(s, i))
  {
    var v := s.Current();
    ReplaceSound(s, i);
    NamesDiffer(v);
    if v.trip.options.animate && !v.Done() {
      ReplacePhase(v, s.classes);
    }
  }

  lemma EnterStep(cfg: Settings, s: World, i: nat)
    requires Inv(s) && PhaseOk(s) && i == s.current && s.Current().pc.NeedPage? && CanStep(s.Current())
    ensures PhaseOk(EnterPage(cfg, s, i)) <==> !EntersLate(s, Step(i))
  {
    EnterProceeds(cfg, s, i);
  }

  lemma WalkStep(cfg: Settings, s: World, i: nat)
    requires Inv(s) && PhaseOk(s) && i == s.current && Walks(s.Current().pc) && CanStep(s.Current())
    ensures PhaseOk(Stepped(cfg, s, i)) <==> !EndsRendering(s, Step(i))
  {
    var v := s.Current();
    RenderingIsSwup();
    if v.trip.options.animate && !v.Done() {
      WalkPhase(v, s.classes);
    }
    if "is-rendering" !in s.classes {
      WalkRendering(v, s.classes);
    }
  }

  lemma StepPhaseIff(cfg: Settings, s: World, i: nat)
    requires Inv(s) && Sound(s) && PhaseOk(s) && i < |s.visits| && CanStep(s.visits[i])
    ensures PhaseOk(Stepped(cfg, s, i)) <==> !Spoils(s, Step(i))
  {
    hide PhaseOk;
    var v := s.visits[i];
    if i != s.current {
      OthersStep(cfg, s, i);
    } else if v.pc.Closing? {
      CloseStep(s, i);
    } else if v.pc.Replacing? {
      ReplaceStep(s, i);
    } else if v.pc.NeedPage? {
      EnterStep(cfg, s, i);
    } else {
      WalkStep(cfg, s, i);
    }
  }

  lemma StartPhase(s: World, i: nat)
    requires Inv(s) && PhaseOk(s) && i < |s.visits| && s.visits[i].pc.Starting?
    ensures PhaseOk(Started(s, i))
  {
    StartInv(s, i);
    NamesDiffer(s.visits[i]);
    assert "is-rendering" !in TransitionClasses(s.visits[i]);
  }

  lemma PerformPhase(s: World, w: World, trip: Trip)
    requires Inv(s) && PhaseOk(s) && !WindowOpen(s)
    requires w.WellFormed() && w == s.(session := w.session)
    ensures PhaseOk(PerformNavigation(w, trip))
  {
    RenderingIsSwup();
  }

  lemma ResumePhase(s: World, i: nat)
    requires Inv(s) && PhaseOk(s) && i < |s.visits| && s.visits[i].pc.Aborting?
    ensures PhaseOk(Resumed(s, i))
  {
    RenderingIsSwup();
  }

  lemma OutsidePhase(cfg: Settings, s: World, e: Event)
    requires Inv(s) && PhaseOk(s) && Enabled(s, e) && Outside(e) && Calm(cfg, s, e)
    ensures PhaseOk(Next(cfg, s, e))
  {
    ReactKeeps(cfg, s, e);
    var r := React(cfg, s, e);
    if r.trip.Some? {
      PerformPhase(s, r.world, r.trip.value);
    }
  }

  /** Aborts, errors and loads touch no classes. */
  lemma SettledPhase(cfg: Settings, s: World, e: Event)
    requires Inv(s) && PhaseOk(s) && Enabled(s, e)
    requires !Outside(e) && !e.Step? && !e.Start? && !e.Resume?
    ensures PhaseOk(Next(cfg, s, e))
  {}

  lemma NextPhaseIff(cfg: Settings, s: World, e: Event)
    requires Inv(s) && Sound(s) && PhaseOk(s) && Enabled(s, e) && Calm(cfg, s, e)
    ensures PhaseOk(Next(cfg, s, e)) <==> !Spoils(s, e)
  {
    hide PhaseOk;
    if Outside(e) {
      OutsidePhase(cfg, s, e);
    } else if e.Step? {
      StepPhaseIff(cfg, s, e.i);
    } else if e.Start? {
      StartPhase(s, e.i);
    } else if e.Resume? {
      ResumePhase(s, e.i);
    } else {
      SettledPhase(cfg, s, e);
    }
  }

  lemma RunPhase(cfg: Settings, s: World, es: seq<Event>)
    requires Inv(s) && Sound(s) && PhaseOk(s) && IsRun(cfg, PhasedRuns, s, es)
    ensures var r := Final(cfg, PhasedRuns, s, es); Inv(r) && Sound(r) && PhaseOk(r)
    decreases |es|
  {
    if es != [] {
      NextInv(cfg, s, es[0]);
      NextSound(cfg, s, es[0]);
      NextPhaseIff(cfg, s, es[0]);
      RunPhase(cfg, Next(cfg, s, es[0]), es[1..]);
    }
  }

  lemma InitialPhase(s: World)
    requires Initial(s)
    ensures Inv(s) && Sound(s) && PhaseOk(s)
  {
    InitialInv(s);
    RenderingIsSwup();
  }

  /**
   * Whatever was aborted or failed before: while the current visit is alive and animated, `is-leaving`
   * stays until right before its content is replaced, `is-rendering` comes with the content and not
   * earlier, `is-animating` goes when the in animation starts.
   */
  lemma ClassesFollowTheVisit(cfg: Settings, s: World)
    requires Reachable(cfg, PhasedRuns, s)
    ensures s.WellFormed() && Phased(s)
  {
    var s0, es :| Reaches(cfg, PhasedRuns, s0, es, s);
    InitialPhase(s0);
    RunPhase(cfg, s0, es);
  }

  // ---- The two events are what spoils it ----

  /** From `s`, events without aborts and errors lead to a state in which the classes are wrong. */
  ghost predicate LeadsOutOfPhase(cfg: Settings, s: World, es: seq<Event>)
    requires s.WellFormed()
  {
    IsRun(cfg, NoErrors, s, es) && !Phased(Final(cfg, NoErrors, s, es))
  }

  /** An animated visit is about to replace its content, and an animated one to abort it. */
  predicate AboutToMark(s: World)
    requires s.WellFormed()
  {
    var v := s.Current();
    && !s.Crashed() && AbortWindow(s) && s.visits[s.Last()].trip.options.animate
    && v.pc.Replacing? && !v.Done() && v.document.Some? && v.trip.options.animate
  }

  lemma EntersMarked(cfg: Settings, s: World)
    requires Inv(s) && Sound(s) && Enabled(s, Step(s.current)) && EntersLate(s, Step(s.current))
    ensures AboutToMark(Next(cfg, s, Step(s.current))) && Next(cfg, s, Step(s.current)).current == s.current
    ensures |Next(cfg, s, Step(s.current)).visits| == |s.visits|
  {}

  lemma RendersMarked(cfg: Settings, s: World)
    requires s.WellFormed() && AboutToMark(s)
    ensures var e := Step(s.current);
      && Allowed(cfg, NoErrors, s, e)
      && var r := Next(cfg, s, e);
      && "is-rendering" in r.classes && !r.Crashed() && |r.visits| == |s.visits|
      && AbortWindow(r) && r.visits[r.Last()].trip.options.animate
  {}

  lemma LateEntrySpoils(cfg: Settings, s: World, e: Event) returns (es: seq<Event>)
    requires Inv(s) && Sound(s) && Enabled(s, e) && EntersLate(s, e)
    ensures LeadsOutOfPhase(cfg, Next(cfg, s, e), es)
  {
    var render, resume := Step(s.current), Resume(s.Last());
    var t := Next(cfg, s, e);
    EntersMarked(cfg, s);
    var u := Next(cfg, t, render);
    RendersMarked(cfg, t);
    var r := Next(cfg, u, resume);
    assert r.Current().pc.Starting? && "is-rendering" in r.classes;
    RunCons(cfg, NoErrors, u, resume, []);
    RunCons(cfg, NoErrors, t, render, [resume]);
    es := [render] + [resume];
  }

  lemma LateEndSpoils(cfg: Settings, s: World, e: Event) returns (es: seq<Event>)
    requires Inv(s) && Enabled(s, e) && EndsRendering(s, e)
    ensures LeadsOutOfPhase(cfg, Next(cfg, s, e), es)
  {
    var request, close := Navigate(s.location, Options(true, false, false, None)), Step(s.current);
    var t := Next(cfg, s, e);
    assert t.Current().pc.Closing? && "is-rendering" in t.classes && !WindowOpen(t);
    var u := Next(cfg, t, request);
    assert u.queue == Some(|t.visits|) && u.Current() == t.Current();
    var r := Next(cfg, u, close);
    assert r.Current().pc.Starting? && "is-rendering" in r.classes;
    RunCons(cfg, NoErrors, u, close, []);
    RunCons(cfg, NoErrors, t, request, [close]);
    es := [request] + [close];
  }

  /** Any other calm event keeps the classes in phase; after these two they can come to be wrong. */
  lemma PhaseIsExact(cfg: Settings, s: World, e: Event)
    requires Inv(s) && Sound(s) && PhaseOk(s) && Enabled(s, e) && Calm(cfg, s, e)
    ensures !Spoils(s, e) ==> Inv(Next(cfg, s, e)) && Sound(Next(cfg, s, e)) && PhaseOk(Next(cfg, s, e))
    ensures Spoils(s, e) ==> exists es :: LeadsOutOfPhase(cfg, Next(cfg, s, e), es)
  {
    NextInv(cfg, s, e);
    NextSound(cfg, s, e);
    NextPhaseIff(cfg, s, e);
    if EntersLate(s, e) {
      var es := LateEntrySpoils(cfg, s, e);
    } else if EndsRendering(s, e) {
      var es := LateEndSpoils(cfg, s, e);
    }
  }
}
