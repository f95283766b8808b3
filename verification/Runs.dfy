// Runs of the protocol, and what holds in every state of a run.
module Runs {
  import opened Urls
  import opened Histories
  import opened ClassNames
  import opened Protocol
  import opened Exclusivity

  /** What a run takes for granted, from nothing to everything. */
  datatype Assumption =
    | Anything      // every interleaving of every event
    | NoSkips       // every interleaving, but no traversal away is skipped as same-URL
    | CalmRuns      // `Exclusivity.Calm`
    | TidyRuns      // and no marked page passes 'visit:end' with a visit done by then and nothing queued
    | NoAborts      // calm, and no handler calls `visit.abort()`
    | NoErrors      // and nothing fails
    | PhasedRuns    // calm, and no page is marked as rendering when the next animated visit starts
    | NoDiversions  // calm, and nothing diverts a history visit that has yet to start

  predicate Skips(cfg: Settings, s: World, e: Event)
    requires s.WellFormed() && Enabled(s, e)
  {
    e.Traverse? && SkipsTraversal(cfg, s, e.delta)
  }

  /** The newest visit was triggered by a traversal and has not started yet. */
  predicate PendingPopstate(s: World)
    requires s.WellFormed()
  {
    var v := s.visits[s.Last()];
    v.trip.popstate && (v.pc.Queued? || v.pc.Aborting? || v.pc.Starting?)
  }

  /**
   * The address bar is taken away from the target of a history visit that has yet to start: by a
   * traversal that is skipped, by a link to an anchor, or by the redirect fix-up of the visit about to
   * be aborted.
   */
  predicate Diverts(cfg: Settings, s: World, e: Event)
    requires s.WellFormed() && Enabled(s, e)
  {
    && PendingPopstate(s)
    && match e
       case Traverse(delta, _) =>
         SkipsTraversal(cfg, s, delta) && LeavesTarget(cfg, s, Moved(s.session, delta).Address().url)
       case Click(to, _) => WritesAnchor(cfg, s, to) && LeavesTarget(cfg, s, to.url)
       case Step(i) => TakesRedirect(cfg, s, i) && LeavesTarget(cfg, s, s.visits[i].load.page.url)
       case _ => false
  }

  predicate LeavesTarget(cfg: Settings, s: World, url: string)
    requires s.WellFormed()
  {
    !SameResolvedUrl(cfg.resolver, url, s.visits[s.Last()].to.url)
  }

  /** A link to the page itself that is not navigated to. */
  predicate WritesAnchor(cfg: Settings, s: World, to: Location)
    requires s.WellFormed()
  {
    && !(s.navigating && to.url == s.Current().to.url)
    && to.url == s.location.url && !(to.hash == "" && cfg.navigateToSelf)
  }

  /** A live visit finds the address bar at another url than its page. */
  predicate TakesRedirect(cfg: Settings, s: World, i: nat)
    requires s.WellFormed()
  {
    && i < |s.visits| && s.visits[i].pc.NeedPage? && !s.visits[i].Done() && s.visits[i].load.Loaded?
    && !SameResolvedUrl(cfg.resolver, s.session.Address().url, s.visits[i].load.page.url)
  }

  /** The page would be marked for good: the visit that ends is done, so nothing sweeps, and nothing is queued. */
  predicate LeavesClasses(s: World, e: Event)
    requires s.WellFormed()
  {
    EndsMarked(s, e) && s.queue.None?
  }

  /** The current visit takes the step at 'visit:end' when it is done already, and classes are there. */
  predicate EndsMarked(s: World, e: Event)
    requires s.WellFormed()
  {
    e.Step? && e.i == s.current && s.Current().pc.Ending? && s.Current().Done() && !Unmarked(s.classes)
  }

  /** An animated visit enters although an animated one is about to abort it. */
  predicate EntersLate(s: World, e: Event)
    requires s.WellFormed()
  {
    && e.Step? && e.i == s.current && s.Current().pc.NeedPage? && !s.Current().Done()
    && AbortWindow(s) && s.Current().trip.options.animate && s.visits[s.Last()].trip.options.animate
  }

  /** A visit that is done passes 'visit:end' on a page that is still marked as rendering. */
  predicate EndsRendering(s: World, e: Event)
    requires s.WellFormed()
  {
    && e.Step? && e.i == s.current && s.Current().pc.Ending? && s.Current().Done()
    && "is-rendering" in s.classes
  }

  predicate Allowed(cfg: Settings, a: Assumption, s: World, e: Event)
    requires s.WellFormed()
  {
    && Enabled(s, e)
    && (a.Anything? || a.NoSkips? || Calm(cfg, s, e))
    && (a.NoSkips? && e.Traverse? && e.delta != 0 ==> !Skips(cfg, s, e))
    && (a.TidyRuns? ==> !LeavesClasses(s, e))
    && (NoAbortsAtLeast(a) ==> !e.Abort?)
    && (a.NoErrors? ==> !e.Fail?)
    && (a.PhasedRuns? ==> !EntersLate(s, e) && !EndsRendering(s, e))
    && (a.NoDiversions? ==> !Diverts(cfg, s, e))
  }

  predicate NoAbortsAtLeast(a: Assumption) {
    a.NoAborts? || a.NoErrors?
  }

  predicate AtLeastCalm(a: Assumption) {
    !a.Anything? && !a.NoSkips?
  }

  predicate IsRun(cfg: Settings, a: Assumption, s: World, es: seq<Event>)
    requires s.WellFormed()
    decreases |es|
  {
    es == [] || (Allowed(cfg, a, s, es[0]) && IsRun(cfg, a, Next(cfg, s, es[0]), es[1..]))
  }

  function Final(cfg: Settings, a: Assumption, s: World, es: seq<Event>): (r: World)
    requires s.WellFormed() && IsRun(cfg, a, s, es)
    ensures r.WellFormed()
    decreases |es|
  {
    if es == [] then s else Final(cfg, a, Next(cfg, s, es[0]), es[1..])
  }

  /** `s` is reached from a fresh instance. */
  ghost predicate Reachable(cfg: Settings, a: Assumption, s: World) {
    exists s0, es :: Reaches(cfg, a, s0, es, s)
  }

  ghost predicate Reaches(cfg: Settings, a: Assumption, s0: World, es: seq<Event>, s: World) {
    Initial(s0) && IsRun(cfg, a, s0, es) && Final(cfg, a, s0, es) == s
  }

  lemma RunInv(cfg: Settings, a: Assumption, s: World, es: seq<Event>)
    requires Inv(s) && AtLeastCalm(a) && IsRun(cfg, a, s, es)
    ensures Inv(Final(cfg, a, s, es))
    decreases |es|
  {
    if es != [] {
      NextInv(cfg, s, es[0]);
      RunInv(cfg, a, Next(cfg, s, es[0]), es[1..]);
    }
  }

  lemma ReachableInv(cfg: Settings, a: Assumption, s: World)
    requires AtLeastCalm(a) && Reachable(cfg, a, s)
    ensures Inv(s)
  {
    var s0, es :| Reaches(cfg, a, s0, es, s);
    InitialInv(s0);
    RunInv(cfg, a, s0, es);
  }

  /** The visit has been handed to the page: it is at 'visit:start' or past it. */
  predicate Begun(v: Visit) {
    v.pc.Starting? || InTry(v.pc) || v.pc.Finished? || v.pc.Exited?
  }

  /**
   * Exclusivity. In every state of every calm run all begun visits but the current one are done,
   * only the current one can be on the way to clear `navigating`, and content was replaced by each
   * visit at most once, in the order of the requests.
   */
  lemma ExclusiveVisits(cfg: Settings, s: World)
    requires Reachable(cfg, CalmRuns, s)
    ensures forall i | 0 <= i < |s.visits| && i != s.current && Begun(s.visits[i]) :: s.visits[i].Done()
    ensures forall i | 0 <= i < |s.visits| && (s.visits[i].pc.Ending? || s.visits[i].pc.Closing?) :: i == s.current
    ensures forall j, k | 0 <= j < k < |s.rendered| :: s.rendered[j] < s.rendered[k]
    ensures s.navigating || !InTry(s.Current().pc)
  {
    ReachableInv(cfg, CalmRuns, s);
  }

  /** The newest request is the queued one, or else current, or about to take over. */
  lemma NewestRequestLeads(cfg: Settings, s: World)
    requires Reachable(cfg, CalmRuns, s)
    ensures s.queue.Some? ==> s.queue.value == s.Last() && s.visits[s.Last()].pc.Queued?
    ensures s.queue.None? ==> s.current == s.Last() || s.visits[s.Last()].pc.Aborting?
    ensures !s.navigating ==> s.queue.None? && s.current == s.Last()
  {
    ReachableInv(cfg, CalmRuns, s);
  }

  lemma RunCons(cfg: Settings, a: Assumption, s: World, e: Event, es: seq<Event>)
    requires s.WellFormed() && Allowed(cfg, a, s, e) && IsRun(cfg, a, Next(cfg, s, e), es)
    ensures IsRun(cfg, a, s, [e] + es)
    ensures Final(cfg, a, s, [e] + es) == Final(cfg, a, Next(cfg, s, e), es)
  {}

  lemma {:induction false} RunConcat(cfg: Settings, a: Assumption, s: World, es: seq<Event>, fs: seq<Event>)
    requires s.WellFormed() && IsRun(cfg, a, s, es) && IsRun(cfg, a, Final(cfg, a, s, es), fs)
    ensures IsRun(cfg, a, s, es + fs)
    ensures Final(cfg, a, s, es + fs) == Final(cfg, a, Final(cfg, a, s, es), fs)
    decreases |es|
  {
    hide Next;
    if es == [] {
      assert es + fs == fs;
    } else {
      assert (es + fs)[1..] == es[1..] + fs;
      RunConcat(cfg, a, Next(cfg, s, es[0]), es[1..], fs);
    }
  }
}
