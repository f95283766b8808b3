// Class hygiene: what visits leave on the html element.
module Tidiness {
  import opened Visits
  import opened ClassNames
  import opened Protocol
  import opened Exclusivity
  import opened Runs

  lemma ForeignUnion(names: set<string>, added: set<string>)
    requires AllSwup(added)
    ensures Foreign(names + added) == Foreign(names)
    ensures Foreign(names - added) == Foreign(names)
  {}

  lemma NameClassIsSwup(v: Visit)
    ensures AllSwup(NameClass(v)) && AllSwup(TransitionClasses(v))
  {
    StaticNamesAreSwup();
    if v.trip.options.name.Some? {
      assert SWUP_PREFIXES[0] == "to-";
      PrefixedIsSwup("to-", Slug.Classify(v.trip.options.name.value, ""));
    }
  }

  lemma MarkedForeign(v: Visit, classes: set<string>)
    ensures Foreign(Marked(v, classes)) == Foreign(classes)
  {
    StaticNamesAreSwup();
    ForeignUnion(classes, {"is-changing", "is-animating", "is-leaving"});
    ForeignUnion(classes, {"is-animating"});
  }

  lemma ReadiedForeign(v: Visit, classes: set<string>)
    ensures Foreign(Readied(v, classes)) == Foreign(classes)
  {
    StaticNamesAreSwup();
    ForeignUnion(classes, {"is-leaving"});
    ForeignUnion(classes - {"is-leaving"}, {"is-rendering"});
  }

  lemma RemarkedForeign(v: Visit, classes: set<string>)
    ensures Foreign(Remarked(v, classes)) == Foreign(classes)
  {
    StaticNamesAreSwup();
    NameClassIsSwup(v);
    var added := {"is-changing", "is-animating", "is-rendering"} + NameClass(v);
    ForeignUnion(classes, added);
    assert classes + added == classes + {"is-changing", "is-animating", "is-rendering"} + NameClass(v);
  }

  lemma StepForeign(cfg: Settings, s: World, i: nat)
    requires s.WellFormed() && i < |s.visits| && CanStep(s.visits[i])
    ensures Foreign(Stepped(cfg, s, i).classes) == Foreign(s.classes)
  {
    hide Marked, Readied, Remarked;
    var v := s.visits[i];
    MarkedForeign(v, s.classes);
    ReadiedForeign(v, s.classes);
    RemarkedForeign(v, Readied(v, s.classes));
  }

  /** No event of any kind adds or removes a class that swup does not own. */
  lemma NextForeign(cfg: Settings, s: World, e: Event)
    requires s.WellFormed() && Enabled(s, e)
    ensures Foreign(Next(cfg, s, e).classes) == Foreign(s.classes)
  {
    if Outside(e) {
      ReactKeeps(cfg, s, e);
    } else if e.Start? {
      NameClassIsSwup(s.visits[e.i]);
      ForeignUnion(s.classes, TransitionClasses(s.visits[e.i]));
    } else if e.Step? {
      StepForeign(cfg, s, e.i);
    }
  }

  lemma RunForeign(cfg: Settings, a: Assumption, s: World, es: seq<Event>)
    requires s.WellFormed() && IsRun(cfg, a, s, es)
    ensures Foreign(Final(cfg, a, s, es).classes) == Foreign(s.classes)
    decreases |es|
  {
    if es != [] {
      NextForeign(cfg, s, es[0]);
      RunForeign(cfg, a, Next(cfg, s, es[0]), es[1..]);
    }
  }

  /** While nothing calls `visit.abort()`, the current visit is alive until it leaves by itself. */
  predicate Live(s: World)
    requires s.WellFormed()
  {
    var v := s.Current();
    && (InTry(v.pc) ==> !v.Done())
    && (v.pc.Finished? ==> v.state == COMPLETED)
  }

  /** Classes are gone once 'visit:end' has run its default handler. */
  predicate Swept(s: World)
    requires s.WellFormed()
  {
    (s.navigating && !s.Current().pc.Closing?) || Unmarked(s.classes)
  }

  lemma StepLive(cfg: Settings, s: World, i: nat)
    requires Inv(s) && Live(s) && i < |s.visits| && CanStep(s.visits[i])
    ensures Live(Stepped(cfg, s, i))
  {
    var v := s.visits[i];
    if v.pc.Closing? {
      ClosedInv(s, i);
    }
  }

  lemma PerformLive(s: World, trip: Trip)
    requires s.WellFormed() && Live(s)
    ensures Live(PerformNavigation(s, trip))
  {}

  lemma NextLive(cfg: Settings, a: Assumption, s: World, e: Event)
    requires Inv(s) && Live(s) && NoAbortsAtLeast(a) && Allowed(cfg, a, s, e)
    ensures Live(Next(cfg, s, e))
  {
    if Outside(e) {
      ReactKeeps(cfg, s, e);
      var r := React(cfg, s, e);
      if r.trip.Some? {
        PerformLive(r.world, r.trip.value);
      }
    } else if e.Step? {
      StepLive(cfg, s, e.i);
    } else if e.Start? {
      StartInv(s, e.i);
    }
  }

  lemma StepSweptIff(cfg: Settings, s: World, i: nat)
    requires Inv(s) && Swept(s) && i < |s.visits| && CanStep(s.visits[i])
    ensures Swept(Stepped(cfg, s, i)) <==> !EndsMarked(s, Step(i))
  {}

  /** The one event that keeps classes past 'visit:end'. */
  lemma NextSweptIff(cfg: Settings, s: World, e: Event)
    requires Inv(s) && Swept(s) && Enabled(s, e) && Calm(cfg, s, e)
    ensures Swept(Next(cfg, s, e)) <==> !EndsMarked(s, e)
  {
    if Outside(e) {
      ReactKeeps(cfg, s, e);
    } else if e.Step? {
      StepSweptIff(cfg, s, e.i);
    }
  }

  /** Classes are gone or there is still a visit to come that sweeps them. */
  predicate Tidy(s: World)
    requires s.WellFormed()
  {
    Swept(s) || s.queue.Some?
  }

  lemma NextTidyIff(cfg: Settings, s: World, e: Event)
    requires Inv(s) && Tidy(s) && Enabled(s, e) && Calm(cfg, s, e)
    ensures Tidy(Next(cfg, s, e)) <==> !LeavesClasses(s, e)
  {
    if Swept(s) {
      NextSweptIff(cfg, s, e);
    }
  }

  /** Without aborts the current visit is alive at 'visit:end', so it sweeps. */
  lemma NextSwept(cfg: Settings, a: Assumption, s: World, e: Event)
    requires Inv(s) && Live(s) && Swept(s) && NoAbortsAtLeast(a) && Allowed(cfg, a, s, e)
    ensures Swept(Next(cfg, s, e))
  {
    NextSweptIff(cfg, s, e);
  }

  lemma RunTidy(cfg: Settings, s: World, es: seq<Event>)
    requires Inv(s) && Tidy(s) && IsRun(cfg, TidyRuns, s, es)
    ensures var r := Final(cfg, TidyRuns, s, es); Inv(r) && Tidy(r)
    decreases |es|
  {
    if es != [] {
      NextInv(cfg, s, es[0]);
      NextTidyIff(cfg, s, es[0]);
      RunTidy(cfg, Next(cfg, s, es[0]), es[1..]);
    }
  }

  lemma RunLive(cfg: Settings, a: Assumption, s: World, es: seq<Event>)
    requires Inv(s) && Live(s) && NoAbortsAtLeast(a) && IsRun(cfg, a, s, es)
    ensures Inv(Final(cfg, a, s, es)) && Live(Final(cfg, a, s, es))
    decreases |es|
  {
    if es != [] {
      NextInv(cfg, s, es[0]);
      NextLive(cfg, a, s, es[0]);
      RunLive(cfg, a, Next(cfg, s, es[0]), es[1..]);
    }
  }

  lemma ReachableLive(cfg: Settings, a: Assumption, s: World)
    requires NoAbortsAtLeast(a) && Reachable(cfg, a, s)
    ensures Inv(s) && Live(s)
  {
    var s0, es :| Reaches(cfg, a, s0, es, s);
    InitialInv(s0);
    RunLive(cfg, a, s0, es);
  }

  /**
   * Whenever nothing navigates, the html element carries no swup class, whatever was aborted or failed
   * and by whom, as long as no visit that is done ends a marked page with nothing queued.
   */
  lemma UnmarkedWhenIdle(cfg: Settings, s: World)
    requires Reachable(cfg, TidyRuns, s) && !s.navigating
    ensures Unmarked(s.classes)
  {
    var s0, es :| Reaches(cfg, TidyRuns, s0, es, s);
    InitialInv(s0);
    RunTidy(cfg, s0, es);
  }

  lemma RunWithoutAborts(cfg: Settings, s: World, es: seq<Event>)
    requires Inv(s) && Live(s) && IsRun(cfg, NoAborts, s, es)
    ensures IsRun(cfg, TidyRuns, s, es) && Final(cfg, TidyRuns, s, es) == Final(cfg, NoAborts, s, es)
    decreases |es|
  {
    if es != [] {
      NextInv(cfg, s, es[0]);
      NextLive(cfg, NoAborts, s, es[0]);
      RunWithoutAborts(cfg, Next(cfg, s, es[0]), es[1..]);
    }
  }

  /** Where no handler aborts visits, that never happens. */
  lemma UnmarkedWithoutAborts(cfg: Settings, s: World)
    requires Reachable(cfg, NoAborts, s) && !s.navigating
    ensures Unmarked(s.classes)
  {
    var s0, es :| Reaches(cfg, NoAborts, s0, es, s);
    InitialInv(s0);
    RunWithoutAborts(cfg, s0, es);
    assert Reaches(cfg, TidyRuns, s0, es, s);
    UnmarkedWhenIdle(cfg, s);
  }

  /** Nothing a run does, whatever interferes with it, changes the classes of others. */
  lemma ForeignClassesStay(cfg: Settings, s0: World, es: seq<Event>, s: World)
    requires Reaches(cfg, Anything, s0, es, s)
    ensures Foreign(s.classes) == Foreign(s0.classes)
  {
    RunForeign(cfg, Anything, s0, es);
  }

  /**
   * What an abort at 'visit:end' comes to: the visit completes all the same, but its classes stay
   * exactly if it was done by then. Without a queue that is final; a queued visit takes them over,
   * unless it is not animated and clears them when it begins.
   */
  lemma EndingSweepsUnlessDone(cfg: Settings, s: World)
    requires Inv(s) && !s.Crashed() && s.Current().pc.Ending?
    ensures var e, t := Step(s.current), Next(cfg, s, Step(s.current));
      && Enabled(s, e) && Enabled(t, e)
      && var r := Next(cfg, t, e);
      && r.visits[s.current].state == COMPLETED
      && match s.queue
         case None => !r.navigating && (Unmarked(r.classes) <==> !EndsMarked(s, e))
         case Some(q) =>
           && r.navigating && r.current == q
           && (Unmarked(r.classes) <==> !EndsMarked(s, e) || !s.visits[q].trip.options.animate)
  {}

  /**
   * That event is exactly what spoils class hygiene: any other calm event keeps it, and after this one
   * the very next step of the visit leaves nothing navigating and classes on the page.
   */
  lemma TidyIsExact(cfg: Settings, s: World, e: Event)
    requires Inv(s) && Tidy(s) && Enabled(s, e) && Calm(cfg, s, e)
    ensures !LeavesClasses(s, e) ==> Inv(Next(cfg, s, e)) && Tidy(Next(cfg, s, e))
    ensures LeavesClasses(s, e) ==>
      && var t := Next(cfg, s, e);
      && Allowed(cfg, NoErrors, t, e)
      && var r := Next(cfg, t, e);
      && Inv(r) && !r.navigating && !Unmarked(r.classes)
  {
    NextInv(cfg, s, e);
    NextTidyIff(cfg, s, e);
    if LeavesClasses(s, e) {
      EndingSweepsUnlessDone(cfg, s);
      NextInv(cfg, Next(cfg, s, e), e);
    }
  }
}
