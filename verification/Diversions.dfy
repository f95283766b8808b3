// Why a history visit must not be diverted: the address bar and `swup.location` can come apart for good.
module Diversions {
  import opened Wrappers
  import opened Urls
  import opened Protocol
  import opened Exclusivity
  import opened Runs
  import opened Outcomes
  import opened Progress
  import opened Addresses

  /** The visits can still bring everything to rest. */
  ghost predicate Going(s: World) {
    Inv(s) && Sound(s) && !s.Crashed() && !Stuck(s)
  }

  lemma NextGoing(cfg: Settings, s: World, e: Event)
    requires Going(s) && Allowed(cfg, NoErrors, s, e)
    ensures Going(Next(cfg, s, e))
  {
    NextInv(cfg, s, e);
    NextSound(cfg, s, e);
    NextKeepsGoing(cfg, s, e);
  }

  /** The current visit has its page and can go on to its end without touching history or location. */
  predicate Rolling(cfg: Settings, s: World)
    requires s.WellFormed()
  {
    var v := s.Current();
    && InTry(v.pc) && v.load.Loaded? && !AbortWindow(s)
    && (Entered(v.pc) || Same(cfg, s.session.Address().url, v.load.page.url))
  }

  /** `s` up to the current visit's own progress, what it shows and how it looks. */
  predicate Along(s: World, r: World)
    requires s.WellFormed()
  {
    && r.session == s.session && r.location == s.location && |r.visits| == |s.visits|
    && r.visits[s.current].load == s.Current().load
    && forall k | 0 <= k < |s.visits| && k != s.current && s.queue != Some(k) :: r.visits[k] == s.visits[k]
  }

  /** The current visit is over; whoever was queued has begun. */
  predicate Over(s: World, r: World)
    requires s.WellFormed() && r.WellFormed()
  {
    && Along(s, r) && r.queue.None?
    && match s.queue
       case None => !r.navigating
       case Some(q) =>
         q < |r.visits| && r.current == q && r.visits[q] == s.visits[q].(pc := Starting)
  }

  /** One step of the current visit towards its end. */
  predicate Rolled(cfg: Settings, s: World, r: World)
    requires s.WellFormed() && r.WellFormed()
  {
    && r.current == s.current && r.queue == s.queue && Along(s, r)
    && Rank(r.Current()) < Rank(s.Current())
    && (s.queue.Some? ==> r.visits[s.queue.value] == s.visits[s.queue.value])
    && Rolling(cfg, r)
  }

  lemma WalkRolls(cfg: Settings, s: World)
    requires Going(s) && Rolling(cfg, s) && Walks(s.Current().pc)
    ensures Rolled(cfg, s, Stepped(cfg, s, s.current))
  {
    WalkFalls(s.Current());
  }

  lemma StepRolls(cfg: Settings, s: World)
    requires Going(s) && Rolling(cfg, s) && !s.Current().pc.Closing?
    ensures var e, r := Step(s.current), Stepped(cfg, s, s.current);
      Allowed(cfg, NoErrors, s, e) && Next(cfg, s, e) == r && Rolled(cfg, s, r)
  {
    hide Rolled;
    if Walks(s.Current().pc) {
      WalkRolls(cfg, s);
    } else if s.Current().pc.NeedPage? {
      EnterRolls(cfg, s);
    } else {
      ReplaceRolls(cfg, s);
    }
  }

  lemma EnterRolls(cfg: Settings, s: World)
    requires Going(s) && Rolling(cfg, s) && s.Current().pc.NeedPage?
    ensures Rolled(cfg, s, EnterPage(cfg, s, s.current))
  {}

  lemma ReplaceRolls(cfg: Settings, s: World)
    requires Going(s) && Rolling(cfg, s) && s.Current().pc.Replacing?
    ensures Rolled(cfg, s, ReplaceContent(s, s.current))
  {}

  lemma CloseRolls(cfg: Settings, s: World)
    requires Going(s) && Rolling(cfg, s) && s.Current().pc.Closing?
    ensures var e := Step(s.current);
      Allowed(cfg, NoErrors, s, e) && Next(cfg, s, e) == Closed(s, s.current) && Over(s, Closed(s, s.current))
  {}

  /** Step by step, it goes to its end. */
  lemma RollsOn(cfg: Settings, s: World) returns (es: seq<Event>)
    requires Going(s) && Rolling(cfg, s)
    ensures IsRun(cfg, NoErrors, s, es) && (forall e | e in es :: Inside(e))
    ensures Over(s, Final(cfg, NoErrors, s, es))
    ensures Going(Final(cfg, NoErrors, s, es))
    decreases Rank(s.Current())
  {
    var e := Step(s.current);
    if s.Current().pc.Closing? {
      CloseRolls(cfg, s);
      NextGoing(cfg, s, e);
      RunCons(cfg, NoErrors, s, e, []);
      es := [e];
    } else {
      StepRolls(cfg, s);
      NextGoing(cfg, s, e);
      var rest := RollsOn(cfg, Next(cfg, s, e));
      RunCons(cfg, NoErrors, s, e, rest);
      es := [e] + rest;
    }
  }

  /** Address bar and location do not belong together although nothing navigates. */
  predicate Apart(cfg: Settings, s: World)
    requires s.WellFormed()
  {
    !s.navigating && |s.visits| > 1 && !Same(cfg, s.session.Address().url, s.location.url)
  }

  /** From `s`, the visits alone get there without any abort or error. */
  ghost predicate LeadsApart(cfg: Settings, s: World, es: seq<Event>)
    requires s.WellFormed()
  {
    && IsRun(cfg, NoErrors, s, es) && (forall e | e in es :: Inside(e))
    && Apart(cfg, Final(cfg, NoErrors, s, es))
  }

  lemma LeadsBack(cfg: Settings, s: World, e: Event, es: seq<Event>)
    requires s.WellFormed() && Allowed(cfg, NoErrors, s, e) && Inside(e)
    requires LeadsApart(cfg, Next(cfg, s, e), es)
    ensures LeadsApart(cfg, s, [e] + es)
  {
    RunCons(cfg, NoErrors, s, e, es);
  }

  /** Its page is redirected to what the address bar shows: nobody notices. */
  lemma StartsApart(cfg: Settings, s: World) returns (es: seq<Event>)
    requires Going(s) && Diverted(cfg, s) && s.visits[s.Last()].pc.Starting?
    ensures LeadsApart(cfg, s, es)
  {
    var b := s.Last();
    assert b == s.current by { StartInv(s, b); }
    var start, arrive := Start(b), Arrive(b, Page(s.session.Address().url, ""));
    var t := Next(cfg, s, start);
    NextGoing(cfg, s, start);
    var u := Next(cfg, t, arrive);
    NextGoing(cfg, t, arrive);
    assert Rolling(cfg, u);
    es := RollsOn(cfg, u);
    LeadsBack(cfg, t, arrive, es);
    es := [arrive] + es;
    LeadsBack(cfg, s, start, es);
    es := [start] + es;
  }

  lemma AbortsApart(cfg: Settings, s: World) returns (es: seq<Event>)
    requires Going(s) && Diverted(cfg, s) && s.visits[s.Last()].pc.Aborting?
    ensures LeadsApart(cfg, s, es)
  {
    var resume := Resume(s.Last());
    NextGoing(cfg, s, resume);
    es := StartsApart(cfg, Next(cfg, s, resume));
    LeadsBack(cfg, s, resume, es);
    es := [resume] + es;
  }

  /** The current visit, which has entered, ends first. */
  lemma WaitsApart(cfg: Settings, s: World) returns (es: seq<Event>)
    requires Going(s) && Located(cfg, s) && Diverted(cfg, s) && s.visits[s.Last()].pc.Queued?
    ensures LeadsApart(cfg, s, es)
  {
    assert Rolling(cfg, s);
    var first := RollsOn(cfg, s);
    var second := StartsApart(cfg, Final(cfg, NoErrors, s, first));
    RunConcat(cfg, NoErrors, s, first, second);
    es := first + second;
  }

  lemma DivertedLeadsApart(cfg: Settings, s: World) returns (es: seq<Event>)
    requires Going(s) && Located(cfg, s) && Diverted(cfg, s)
    ensures LeadsApart(cfg, s, es)
  {
    if s.visits[s.Last()].pc.Queued? {
      es := WaitsApart(cfg, s);
    } else if s.visits[s.Last()].pc.Aborting? {
      es := AbortsApart(cfg, s);
    } else {
      es := StartsApart(cfg, s);
    }
  }

  /** A stuck instance never comes to rest, so nothing can come apart for good. */
  lemma StuckStaysTogether(cfg: Settings, s: World)
    requires Inv(s) && Stuck(s)
    ensures !exists es :: LeadsApart(cfg, s, es)
  {
    forall es | IsRun(cfg, NoErrors, s, es) ensures !LeadsApart(cfg, s, es) {
      StuckForever(cfg, NoErrors, s, es);
    }
  }

  lemma DivertingKeepsStuck(cfg: Settings, s: World, e: Event)
    requires Inv(s) && Sound(s) && Enabled(s, e) && Calm(cfg, s, e) && Diverts(cfg, s, e)
    ensures Stuck(Next(cfg, s, e)) <==> Stuck(s)
    ensures !Next(cfg, s, e).Crashed()
  {
    if Stuck(s) {
      NextStuck(cfg, s, e);
    } else {
      NextStuckIff(cfg, s, e);
    }
    if e.Step? {
      StepSound(cfg, s, e.i);
    } else {
      ReactKeeps(cfg, s, e);
    }
  }

  /**
   * Not diverting is exactly what is needed, with any aborts and errors: a calm event keeps address bar,
   * location and page coherent, or else it diverts; and then, unless the instance is stuck anyway, the
   * visits can bring it about on their own that nothing navigates and the address bar belongs to another
   * page than `swup.location`.
   */
  lemma NotDivertingIsExact(cfg: Settings, s: World, e: Event)
    requires Inv(s) && Sound(s) && Coherent(cfg, s) && Enabled(s, e) && Calm(cfg, s, e)
    ensures var t := Next(cfg, s, e);
      && Inv(t) && Sound(t)
      && (Coherent(cfg, t) <==> !Diverts(cfg, s, e))
      && (Diverts(cfg, s, e) ==> ((exists es :: LeadsApart(cfg, t, es)) <==> !Stuck(s)))
  {
    NextInv(cfg, s, e);
    NextSound(cfg, s, e);
    NextCoherentIff(cfg, s, e);
    if Diverts(cfg, s, e) {
      var t := Next(cfg, s, e);
      DivertingKeepsStuck(cfg, s, e);
      if Stuck(s) {
        StuckStaysTogether(cfg, t);
      } else {
        var es := DivertedLeadsApart(cfg, t);
      }
    }
  }

  /** The page left behind is still shown, and the history visit to another page is about to start. */
  predicate GoingBack(cfg: Settings, s: World)
    requires s.WellFormed()
  {
    && !s.Crashed() && s.navigating && s.Current().pc.Starting? && s.current == s.Last() && PendingPopstate(s)
    && s.Current().to == s.session.Address() && !Same(cfg, s.session.Address().url, s.location.url)
  }

  lemma BackGoesBack(cfg: Settings, s0: World, wait: bool)
    requires Initial(s0) && s0.session.cursor > 0
    requires !Same(cfg, s0.session.entries[s0.session.cursor - 1].address.url, s0.location.url)
    ensures var e, s := Traverse(-1, wait), Next(cfg, s0, Traverse(-1, wait));
      && Allowed(cfg, NoErrors, s0, e) && GoingBack(cfg, s) && s.location == s0.location
      && Going(s) && Coherent(cfg, s)
  {
    InitialCoherent(cfg, s0);
    NextGoing(cfg, s0, Traverse(-1, wait));
    NextCoherentIff(cfg, s0, Traverse(-1, wait));
  }

  lemma AnchorDiverts(cfg: Settings, s: World, here: Location, options: Options)
    requires Inv(s) && GoingBack(cfg, s) && here.url == s.location.url && here.hash != ""
    ensures Allowed(cfg, NoErrors, s, Click(here, options)) && Diverts(cfg, s, Click(here, options))
  {}

  /**
   * It happens: back to another page, and while its 'visit:start' handlers are running a click on an
   * anchor of the page that is still shown.
   */
  lemma AnchorDivertsHistoryVisit(cfg: Settings, s0: World, here: Location, wait: bool, options: Options)
    requires Initial(s0) && s0.session.cursor > 0 && here.url == s0.location.url && here.hash != ""
    requires !Same(cfg, s0.session.entries[s0.session.cursor - 1].address.url, here.url)
    ensures exists es ::
      && IsRun(cfg, NoErrors, s0, [Traverse(-1, wait), Click(here, options)] + es)
      && Apart(cfg, Final(cfg, NoErrors, s0, [Traverse(-1, wait), Click(here, options)] + es))
  {
    hide Next, Going, Coherent, Diverts, Apart;
    var back, click := Traverse(-1, wait), Click(here, options);
    BackGoesBack(cfg, s0, wait);
    var s := Next(cfg, s0, back);
    AnchorDiverts(cfg, s, here, options);
    NotDivertingIsExact(cfg, s, click);
    var es :| LeadsApart(cfg, Next(cfg, s, click), es);
    RunCons(cfg, NoErrors, s, click, es);
    RunCons(cfg, NoErrors, s0, back, [click] + es);
    assert [back, click] + es == [back] + ([click] + es);
  }
}
