// What the address bar, the history records and the displayed page have to do with each other.
module Addresses {
  import opened Wrappers
  import opened Urls
  import opened Visits
  import opened Histories
  import opened Protocol
  import opened Exclusivity
  import opened Runs
  import opened Outcomes
  import opened Intents

  // ---- The history index ----

  lemma NextInStep(cfg: Settings, s: World, e: Event)
    requires s.WellFormed() && Enabled(s, e) && InStep(s.session)
    requires e.Traverse? && e.delta != 0 ==> !Skips(cfg, s, e)
    ensures InStep(Next(cfg, s, e).session)
  {
    if e.Traverse? {
      TraversalInStep(s.session, e.delta);
    } else if e.Click? {
      UpdateInStep(s.session, e.to);
    } else if e.Start? {
      PushInStep(s.session, s.visits[e.i].to);
      UpdateInStep(s.session, s.visits[e.i].to);
    } else if e.Step? && s.visits[e.i].pc.NeedPage? && !s.visits[e.i].Done() {
      UpdateInStep(s.session, Location(s.visits[e.i].load.page.url, ""));
    }
  }

  lemma RunInStep(cfg: Settings, s: World, es: seq<Event>)
    requires s.WellFormed() && InStep(s.session) && IsRun(cfg, NoSkips, s, es)
    ensures InStep(Final(cfg, NoSkips, s, es).session)
    decreases |es|
  {
    if es != [] {
      NextInStep(cfg, s, es[0]);
      RunInStep(cfg, Next(cfg, s, es[0]), es[1..]);
    }
  }

  /**
   * Under every interleaving, the index stays in step as long as no traversal is skipped; so the
   * next traversal that is not skipped creates a visit with the true direction of travel.
   */
  lemma TraversalDirection(cfg: Settings, s0: World, es: seq<Event>, s: World, delta: int, wait: bool)
    requires Reaches(cfg, NoSkips, s0, es, s) && InStep(s0.session)
    requires s.WellFormed() && Enabled(s, Traverse(delta, wait)) && !SkipsTraversal(cfg, s, delta)
    ensures InStep(s.session)
    ensures var r := Next(cfg, s, Traverse(delta, wait));
      && r.session.index - s.session.index == delta
      && var v := r.visits[|r.visits| - 1];
      && v.trip.popstate
      && (v.trip.direction == Some(Forwards) <==> delta > 0)
      && (v.trip.direction == Some(Backwards) <==> delta < 0)
  {
    RunInStep(cfg, s0, es);
    TraversalInStep(s.session, delta);
  }

  // ---- Address and content ----

  predicate Same(cfg: Settings, a: string, b: string) {
    SameResolvedUrl(cfg.resolver, a, b)
  }

  /** A visit that has entered and was not stopped before 'visit:end'. */
  predicate Placed(v: Visit) {
    Showing(v) || (v.pc.Replacing? && !v.Done())
  }

  /** What the address bar, `swup.location` and the page of the current visit have to do with each other. */
  predicate Located(cfg: Settings, s: World)
    requires s.WellFormed()
  {
    var v, newest := s.Current(), s.visits[s.Last()];
    && (InTry(v.pc) ==> s.location == v.to)
    && (InTry(v.pc) && v.state == ENTERING ==> Entered(v.pc))
    && (s.queue.None? && !newest.pc.Starting? && !PendingPopstate(s) ==>
          Same(cfg, s.session.Address().url, s.location.url))
    && (Placed(v) && !AbortWindow(s) ==> v.load.Loaded? && Same(cfg, v.load.page.url, s.location.url))
  }

  /** The address bar has left the target of a history visit that has yet to start. */
  predicate Diverted(cfg: Settings, s: World)
    requires s.WellFormed()
  {
    PendingPopstate(s) && !Same(cfg, s.session.Address().url, s.visits[s.Last()].to.url)
  }

  predicate Coherent(cfg: Settings, s: World)
    requires s.WellFormed()
  {
    Located(cfg, s) && !Diverted(cfg, s)
  }

  lemma StartLocated(cfg: Settings, s: World, i: nat)
    requires Inv(s) && Coherent(cfg, s) && i < |s.visits| && s.visits[i].pc.Starting?
    ensures Located(cfg, Started(s, i))
  {}

  lemma EnterLocated(cfg: Settings, s: World, i: nat)
    requires Inv(s) && Sound(s) && Coherent(cfg, s)
    requires i < |s.visits| && s.visits[i].pc.NeedPage? && CanStep(s.visits[i])
    ensures Located(cfg, EnterPage(cfg, s, i))
  {}

  /** Only the program counter and state of visit `i` move on. */
  lemma PutLocated(cfg: Settings, s: World, r: World, i: nat)
    requires Inv(s) && Located(cfg, s) && i < |s.visits| && Touches(s, r, i)
    requires r.session == s.session && r.location == s.location
    requires var v, w := s.visits[i], r.visits[i];
      && i == s.current && InTry(v.pc)
      && w.to == v.to && w.load == v.load
      && (InTry(w.pc) && w.state == ENTERING ==> v.state == ENTERING && (Entered(v.pc) ==> Entered(w.pc)))
      && (Placed(w) ==> Placed(v))
    ensures Located(cfg, r)
  {
    assert forall k | 0 <= k < |s.visits| && k != i :: r.visits[k] == s.visits[k];
  }

  lemma WalkStays(v: Visit)
    requires Walks(v.pc)
    ensures var w := Walked(v);
      && w.to == v.to && w.load == v.load && (w.state == ENTERING ==> v.state == ENTERING)
      && (InTry(w.pc) && Entered(v.pc) ==> Entered(w.pc))
      && (Placed(w) ==> Placed(v))
  {}

  lemma CloseLocated(cfg: Settings, s: World, i: nat)
    requires Inv(s) && Sound(s) && Located(cfg, s) && i == s.current && s.Current().pc.Closing?
    ensures Located(cfg, Closed(s, i))
  {}

  lemma ReplaceLocated(cfg: Settings, s: World, i: nat)
    requires Inv(s) && Located(cfg, s) && i == s.current && s.Current().pc.Replacing?
    requires !s.Current().Done() ==> s.Current().document.Some?
    ensures Located(cfg, ReplaceContent(s, i))
  {}

  lemma OthersLocated(cfg: Settings, s: World, i: nat)
    requires Inv(s) && Located(cfg, s) && i < |s.visits| && i != s.current && CanStep(s.visits[i])
    ensures Located(cfg, Stepped(cfg, s, i))
  {}

  lemma StepLocated(cfg: Settings, s: World, i: nat)
    requires Inv(s) && Sound(s) && Coherent(cfg, s)
    requires i < |s.visits| && CanStep(s.visits[i])
    ensures Located(cfg, Stepped(cfg, s, i))
  {
    var r, v := Stepped(cfg, s, i), s.visits[i];
    hide Located;
    if v.pc.NeedPage? {
      EnterLocated(cfg, s, i);
    } else if v.pc.Closing? {
      ClosedInv(s, i);
      CloseLocated(cfg, s, i);
    } else if i != s.current {
      OthersLocated(cfg, s, i);
    } else if Walks(v.pc) {
      WalkStays(v);
      PutLocated(cfg, s, r, i);
    } else {
      ReplaceLocated(cfg, s, i);
    }
  }

  lemma PerformCoherent(cfg: Settings, s: World, w: World, trip: Trip)
    requires Inv(s) && Coherent(cfg, s) && !WindowOpen(s)
    requires w.session.WellFormed() && w == s.(session := w.session)
    requires if trip.popstate then w.session.Address() == trip.to else w.session == s.session
    ensures Coherent(cfg, PerformNavigation(w, trip))
  {}

  lemma RequestCoherent(cfg: Settings, s: World, e: Event)
    requires Inv(s) && Coherent(cfg, s) && Enabled(s, e) && Requests(cfg, s, e) && !WindowOpen(s)
    ensures Coherent(cfg, Next(cfg, s, e))
  {
    ReactKeeps(cfg, s, e);
    var r := React(cfg, s, e);
    PerformCoherent(cfg, s, r.world, r.trip.value);
  }

  /** A skipped traversal, a link to an anchor, or nothing at all. */
  lemma HandledLocated(cfg: Settings, s: World, e: Event)
    requires Inv(s) && Coherent(cfg, s) && Outside(e) && Enabled(s, e) && !Requests(cfg, s, e)
    ensures Located(cfg, Next(cfg, s, e))
  {
    ReactKeeps(cfg, s, e);
  }

  /** A visit is aborted, fails or gets its page. */
  lemma SettlesLocated(cfg: Settings, s: World, r: World, i: nat)
    requires Inv(s) && Located(cfg, s) && i < |s.visits| && Touches(s, r, i)
    requires r.session == s.session && r.location == s.location
    requires var v, w := s.visits[i], r.visits[i];
      && w.to == v.to && w.trip == v.trip && (w.pc == v.pc || (InTry(v.pc) && w.pc.Exited?))
      && (w.state == ENTERING ==> v.state == ENTERING)
      && (i == s.current && Placed(w) ==> Placed(v) && w.load == v.load)
    ensures Located(cfg, r)
  {
    assert forall k | 0 <= k < |s.visits| && k != i :: r.visits[k] == s.visits[k];
  }

  /** Aborts, errors and loads. */
  lemma SettledLocated(cfg: Settings, s: World, e: Event)
    requires Inv(s) && Sound(s) && Located(cfg, s) && Enabled(s, e)
    requires !Outside(e) && !e.Start? && !e.Step? && !e.Resume?
    ensures Located(cfg, Next(cfg, s, e))
  {
    hide Located;
    SettlesLocated(cfg, s, Next(cfg, s, e), e.i);
  }

  lemma ResumeLocated(cfg: Settings, s: World, i: nat)
    requires Inv(s) && Located(cfg, s) && i < |s.visits| && s.visits[i].pc.Aborting?
    ensures Located(cfg, Resumed(s, i))
  {}

  lemma NextLocated(cfg: Settings, s: World, e: Event)
    requires Inv(s) && Sound(s) && Coherent(cfg, s) && Enabled(s, e) && Calm(cfg, s, e)
    ensures Located(cfg, Next(cfg, s, e))
  {
    hide Located;
    if Requests(cfg, s, e) {
      RequestCoherent(cfg, s, e);
    } else if Outside(e) {
      HandledLocated(cfg, s, e);
    } else if e.Start? {
      StartLocated(cfg, s, e.i);
    } else if e.Step? {
      StepLocated(cfg, s, e.i);
    } else if e.Resume? {
      ResumeLocated(cfg, s, e.i);
    } else {
      SettledLocated(cfg, s, e);
    }
  }

  lemma StepStaysPending(cfg: Settings, s: World, i: nat)
    requires Inv(s) && i < |s.visits| && CanStep(s.visits[i]) && PendingPopstate(Stepped(cfg, s, i))
    ensures PendingPopstate(s) && |Stepped(cfg, s, i).visits| == |s.visits|
    ensures Stepped(cfg, s, i).visits[s.Last()].to == s.visits[s.Last()].to
  {
    if s.visits[i].pc.Closing? {
      ClosedInv(s, i);
    } else if s.visits[i].pc.NeedPage? {
      EnterProceeds(cfg, s, i);
    } else if Walks(s.visits[i].pc) {
      WalkProceeds(s.visits[i]);
    }
  }

  /** Without a newer request, a history visit that is pending afterwards has been pending before. */
  lemma StaysPending(cfg: Settings, s: World, e: Event)
    requires Inv(s) && Enabled(s, e) && !Requests(cfg, s, e) && PendingPopstate(Next(cfg, s, e))
    ensures PendingPopstate(s) && |Next(cfg, s, e).visits| == |s.visits|
    ensures Next(cfg, s, e).visits[s.Last()].to == s.visits[s.Last()].to
    ensures !e.Start?
  {
    if e.Start? {
      StartInv(s, e.i);
    } else if Outside(e) {
      ReactKeeps(cfg, s, e);
    } else if e.Step? {
      StepStaysPending(cfg, s, e.i);
    }
  }

  lemma StepKeepsPending(cfg: Settings, s: World, i: nat)
    requires Inv(s) && i < |s.visits| && CanStep(s.visits[i]) && PendingPopstate(s)
    ensures PendingPopstate(Stepped(cfg, s, i))
  {
    if s.visits[i].pc.Closing? {
      ClosedInv(s, i);
    }
  }

  /** A history visit that is no longer pending has just started. */
  lemma EndsPending(cfg: Settings, s: World, e: Event)
    requires Inv(s) && Enabled(s, e) && !Requests(cfg, s, e)
    requires PendingPopstate(s) && !PendingPopstate(Next(cfg, s, e))
    ensures e.Start?
  {
    if e.Step? {
      StepKeepsPending(cfg, s, e.i);
    }
  }

  lemma StepMovesAddress(cfg: Settings, s: World, i: nat)
    requires s.WellFormed() && i < |s.visits| && CanStep(s.visits[i])
    ensures Stepped(cfg, s, i).session.Address().url
         == if TakesRedirect(cfg, s, i) then s.visits[i].load.page.url else s.session.Address().url
  {}

  lemma OutsideMovesAddress(cfg: Settings, s: World, e: Event)
    requires s.WellFormed() && Enabled(s, e) && Outside(e) && !Requests(cfg, s, e)
    ensures Next(cfg, s, e).session.Address().url ==
      if e.Traverse? then Moved(s.session, e.delta).Address().url
      else if e.Click? && WritesAnchor(cfg, s, e.to) then e.to.url
      else s.session.Address().url
    ensures e.Traverse? ==> SkipsTraversal(cfg, s, e.delta)
  {}

  /** The three ways of diverting are all the ways in which the address bar leaves the target. */
  lemma DivertsIff(cfg: Settings, s: World, e: Event)
    requires Inv(s) && Enabled(s, e) && !Requests(cfg, s, e)
    requires PendingPopstate(s) && !Diverted(cfg, s) && !e.Start?
    ensures Diverts(cfg, s, e) <==> LeavesTarget(cfg, s, Next(cfg, s, e).session.Address().url)
  {
    if Outside(e) {
      OutsideMovesAddress(cfg, s, e);
    } else if e.Step? {
      StepMovesAddress(cfg, s, e.i);
    }
  }

  lemma RequestsDivertNothing(cfg: Settings, s: World, e: Event)
    requires s.WellFormed() && Enabled(s, e) && Requests(cfg, s, e)
    ensures !Diverts(cfg, s, e)
  {}

  /** Coherence is lost exactly when the target of a pending history visit leaves the address bar. */
  lemma NextCoherentIff(cfg: Settings, s: World, e: Event)
    requires Inv(s) && Sound(s) && Coherent(cfg, s) && Enabled(s, e) && Calm(cfg, s, e)
    ensures Coherent(cfg, Next(cfg, s, e)) <==> !Diverts(cfg, s, e)
    ensures Diverts(cfg, s, e) ==> Located(cfg, Next(cfg, s, e)) && Diverted(cfg, Next(cfg, s, e))
  {
    hide Next, Located, Sound;
    NextLocated(cfg, s, e);
    if Requests(cfg, s, e) {
      RequestCoherent(cfg, s, e);
      RequestsDivertNothing(cfg, s, e);
    } else if PendingPopstate(Next(cfg, s, e)) {
      StaysPending(cfg, s, e);
      DivertsIff(cfg, s, e);
    } else if PendingPopstate(s) {
      EndsPending(cfg, s, e);
    }
  }

  lemma RunCoherent(cfg: Settings, s: World, es: seq<Event>)
    requires Inv(s) && Sound(s) && Coherent(cfg, s) && IsRun(cfg, NoDiversions, s, es)
    ensures var r := Final(cfg, NoDiversions, s, es); Inv(r) && Sound(r) && Coherent(cfg, r)
    decreases |es|
  {
    if es != [] {
      NextInv(cfg, s, es[0]);
      NextSound(cfg, s, es[0]);
      NextCoherentIff(cfg, s, es[0]);
      RunCoherent(cfg, Next(cfg, s, es[0]), es[1..]);
    }
  }

  lemma InitialCoherent(cfg: Settings, s: World)
    requires Initial(s)
    ensures Inv(s) && Sound(s) && Coherent(cfg, s)
  {
    InitialInv(s);
  }

  lemma ReachableCoherent(cfg: Settings, s: World)
    requires Reachable(cfg, NoDiversions, s)
    ensures Inv(s) && Sound(s) && Coherent(cfg, s)
  {
    var s0, es :| Reaches(cfg, NoDiversions, s0, es, s);
    InitialCoherent(cfg, s0);
    RunCoherent(cfg, s0, es);
  }

  /** The last visit requested shows its page, and address bar and `swup.location` belong to that page. */
  predicate AtItsPage(cfg: Settings, s: World)
    requires s.WellFormed()
  {
    var v := s.visits[s.Last()];
    && s.current == s.Last() && v.pc.Finished? && v.load.Loaded? && s.displayed == Some(v.load.page.html)
    && Same(cfg, s.session.Address().url, v.load.page.url)
    && Same(cfg, s.session.Address().url, s.location.url)
  }

  /**
   * End to end, with any aborts and errors: whenever nothing navigates after at least one request, the
   * last visit requested has run to its end, the page shows the html loaded for it, and the address bar,
   * `swup.location` and the url of that page resolve to the same url.
   */
  lemma EndToEnd(cfg: Settings, s: World)
    requires Reachable(cfg, NoDiversions, s) && !s.navigating && |s.visits| > 1
    ensures s.WellFormed() && AtItsPage(cfg, s)
  {
    ReachableCoherent(cfg, s);
  }

  // ---- Runs of links and `navigate` calls ----

  ghost predicate NoHistoryVisits(s: World) {
    forall k | 0 <= k < |s.visits| :: !s.visits[k].trip.popstate
  }

  lemma NextNoHistoryVisits(cfg: Settings, s: World, e: Event)
    requires NoHistoryVisits(s) && s.WellFormed() && Enabled(s, e) && !e.Traverse?
    ensures NoHistoryVisits(Next(cfg, s, e))
  {
    TripsAreKept(cfg, s, e);
    if e.Navigate? {
      NavigateIsHeard(cfg, s, e.to, e.options);
    } else if e.Click? {
      ClickIsHeardIff(cfg, s, e.to, e.options);
    } else {
      SameCount(cfg, s, e);
    }
  }

  lemma SameCount(cfg: Settings, s: World, e: Event)
    requires s.WellFormed() && Enabled(s, e) && !Outside(e)
    ensures |Next(cfg, s, e).visits| == |s.visits|
  {}

  lemma LinksDivertNothing(cfg: Settings, s: World, es: seq<Event>)
    requires NoHistoryVisits(s) && s.WellFormed() && IsRun(cfg, CalmRuns, s, es)
    requires forall e | e in es :: !e.Traverse?
    ensures IsRun(cfg, NoDiversions, s, es) && Final(cfg, NoDiversions, s, es) == Final(cfg, CalmRuns, s, es)
    decreases |es|
  {
    if es != [] {
      assert es[0] in es;
      NextNoHistoryVisits(cfg, s, es[0]);
      LinksDivertNothing(cfg, Next(cfg, s, es[0]), es[1..]);
    }
  }

  /** Without traversals, calm runs are all that is asked for. */
  lemma LinksEndToEnd(cfg: Settings, s0: World, es: seq<Event>, s: World)
    requires Reaches(cfg, CalmRuns, s0, es, s) && (forall e | e in es :: !e.Traverse?)
    requires !s.navigating && |s.visits| > 1
    ensures s.WellFormed() && AtItsPage(cfg, s)
  {
    LinksDivertNothing(cfg, s0, es);
    assert Reaches(cfg, NoDiversions, s0, es, s);
    EndToEnd(cfg, s);
  }
}
