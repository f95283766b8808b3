// What is asked of swup, and that it is kept: requests, links and traversals, in terms of what the next
// state holds.
module Intents {
  import opened Wrappers
  import opened Urls
  import opened Visits
  import opened Histories
  import opened ClassNames
  import opened Protocol
  import opened Lives
  import opened Runs

  /** One visit has come to those there were, for this target and with these options. */
  predicate Adds(s: World, r: World, to: Location, options: Options, popstate: bool, direction: Option<Direction>) {
    && |r.visits| == |s.visits| + 1 && r.visits[..|s.visits|] == s.visits
    && var v := r.visits[|s.visits|];
    && v.trip.to == to && v.to == to && v.trip.options == options
    && v.trip.popstate == popstate && v.trip.direction == direction
    && v.load.Unrequested? && v.document.None?
  }

  /** It begins at once, waits behind a visit that is entering, or asks for the abort of one that is not. */
  ghost predicate TakesPlace(s: World, r: World)
    requires s.WellFormed() && |r.visits| == |s.visits| + 1
  {
    var n, v := |s.visits|, r.visits[|s.visits|];
    if !s.navigating then
      && v.pc.Starting? && v.state == CREATED && r.navigating && r.current == n && r.queue == s.queue
      && (forall c :: c in r.classes <==> c in s.classes && (v.trip.options.animate || !IsSwupClass(c)))
    else
      && r.navigating && r.current == s.current && r.classes == s.classes
      && if s.visits[s.current].state >= ENTERING
         then v.pc.Queued? && v.state == QUEUED && r.queue == Some(n)
         else v.pc.Aborting? && v.state == CREATED && r.queue == s.queue
  }

  /** What is shown, where swup believes to be, and what was rendered. */
  predicate SamePage(s: World, r: World) {
    r.location == s.location && r.displayed == s.displayed && r.rendered == s.rendered && r.reload == s.reload
  }

  /** `swup.navigate` always makes a visit, to the given target and with the given options. */
  lemma NavigateIsHeard(cfg: Settings, s: World, to: Location, options: Options)
    requires s.WellFormed() && Enabled(s, Navigate(to, options))
    ensures var r := Next(cfg, s, Navigate(to, options));
      && Adds(s, r, to, options, false, None) && TakesPlace(s, r)
      && SamePage(s, r) && r.session == s.session
  {}

  /** A link to somewhere else, or to the page itself where that is to be loaded again. */
  predicate LeadsOn(cfg: Settings, s: World, to: Location)
    requires s.WellFormed()
  {
    && (s.navigating ==> to.url != s.visits[s.current].to.url)
    && if to.url == s.location.url then to.hash == "" && cfg.navigateToSelf
       else ResolveUrl(cfg.resolver, to.url) != ResolveUrl(cfg.resolver, s.location.url)
  }

  /**
   * A click makes a visit exactly if the link leads on. Otherwise it changes no visit: a link to an anchor
   * or to the page itself is written to the address bar, unless the current visit is heading there, and
   * any other link does nothing.
   */
  lemma ClickIsHeardIff(cfg: Settings, s: World, to: Location, options: Options)
    requires s.WellFormed() && Enabled(s, Click(to, options))
    ensures var r := Next(cfg, s, Click(to, options));
      var heading := s.navigating && to.url == s.visits[s.current].to.url;
      && (|r.visits| == |s.visits| + 1 <==> LeadsOn(cfg, s, to))
      && (LeadsOn(cfg, s, to) ==>
            Adds(s, r, to, options, false, None) && TakesPlace(s, r) && SamePage(s, r) && r.session == s.session)
      && (!LeadsOn(cfg, s, to) && (to.url != s.location.url || heading) ==> r == s)
      && (!LeadsOn(cfg, s, to) && to.url == s.location.url && !heading ==>
            && r == s.(session := r.session) && r.session.Address() == to
            && |r.session.entries| == |s.session.entries| && r.session.cursor == s.session.cursor)
  {}

  /** The direction that a record gives: from its index, if it has one, and swup's own. */
  function DirectionTo(entry: Entry, index: int): Option<Direction> {
    if entry.index.None? || entry.index == Some(0) || entry.index == Some(index) then None
    else if entry.index.value > index then Some(Forwards) else Some(Backwards)
  }

  /**
   * A traversal makes a visit exactly if the record it comes to resolves to another url: a history visit to
   * that record, animated only if history visits are. Swup's index follows then, if the record has one.
   */
  lemma TraversalIsHeardIff(cfg: Settings, s: World, delta: int, wait: bool)
    requires s.WellFormed() && Enabled(s, Traverse(delta, wait))
    ensures var r := Next(cfg, s, Traverse(delta, wait));
      var entry := s.session.entries[s.session.cursor + delta];
      var heard := ResolveUrl(cfg.resolver, entry.address.url) != ResolveUrl(cfg.resolver, s.location.url);
      && r.session.entries == s.session.entries && r.session.cursor == s.session.cursor + delta
      && SamePage(s, r)
      && (heard ==>
            && Adds(s, r, entry.address, Options(cfg.animateHistory, wait, false, None), true,
                    DirectionTo(entry, s.session.index))
            && TakesPlace(s, r)
            && r.session.index == (if entry.index.None? || entry.index == Some(0) then s.session.index
                                   else entry.index.value))
      && (!heard ==> r == s.(session := s.session.(cursor := s.session.cursor + delta)))
  {}

  // ---- It is kept ----

  lemma StepKeepsTrips(cfg: Settings, s: World, i: nat)
    requires s.WellFormed() && i < |s.visits| && CanStep(s.visits[i])
    ensures |Stepped(cfg, s, i).visits| == |s.visits|
    ensures forall k | 0 <= k < |s.visits| :: Stepped(cfg, s, i).visits[k].trip == s.visits[k].trip
  {}

  /** No event changes what a visit was asked to do. */
  lemma TripsAreKept(cfg: Settings, s: World, e: Event)
    requires s.WellFormed() && Enabled(s, e)
    ensures |Next(cfg, s, e).visits| >= |s.visits|
    ensures forall k | 0 <= k < |s.visits| :: Next(cfg, s, e).visits[k].trip == s.visits[k].trip
  {
    if e.Navigate? {
      NavigateIsHeard(cfg, s, e.to, e.options);
    } else if e.Click? {
      ClickIsHeardIff(cfg, s, e.to, e.options);
    } else if e.Traverse? {
      TraversalIsHeardIff(cfg, s, e.delta, e.wait);
    } else if e.Step? {
      StepKeepsTrips(cfg, s, e.i);
    }
  }

  lemma RunKeepsTrips(cfg: Settings, a: Assumption, s: World, es: seq<Event>)
    requires s.WellFormed() && IsRun(cfg, a, s, es)
    ensures |Final(cfg, a, s, es).visits| >= |s.visits|
    ensures forall k | 0 <= k < |s.visits| :: Final(cfg, a, s, es).visits[k].trip == s.visits[k].trip
    decreases |es|
  {
    if es != [] {
      TripsAreKept(cfg, s, es[0]);
      RunKeepsTrips(cfg, a, Next(cfg, s, es[0]), es[1..]);
    }
  }

  /**
   * Whatever happens after a request, queued, aborted or begun, its visit goes where it was told and has the
   * options that it was given.
   */
  lemma RequestIsKept(cfg: Settings, a: Assumption, s: World, to: Location, options: Options, es: seq<Event>)
    requires s.WellFormed() && Enabled(s, Navigate(to, options))
    requires IsRun(cfg, a, Next(cfg, s, Navigate(to, options)), es)
    ensures var r, n := Final(cfg, a, Next(cfg, s, Navigate(to, options)), es), |s.visits|;
      && |r.visits| > n && r.visits[n].trip.to == to && r.visits[n].trip.options == options
      && !r.visits[n].trip.popstate
  {
    NavigateIsHeard(cfg, s, to, options);
    RunKeepsTrips(cfg, a, Next(cfg, s, Navigate(to, options)), es);
  }

  /** When a visit starts, swup believes to be where the visit was asked to go. */
  lemma StartGoesToTarget(cfg: Settings, s: World, i: nat)
    requires Reachable(cfg, CalmRuns, s) && s.WellFormed() && Enabled(s, Start(i))
    ensures var r := Next(cfg, s, Start(i));
      r.location == r.visits[i].trip.to && r.visits[i].trip == s.visits[i].trip
  {
    OnCourseLasts();
    LastsForAll(cfg, s, OnCourse);
    assert OnCourse(s.visits[i]);
  }
}
