// Calm runs in which a handler's `visit.abort()` goes wrong.
module Mishaps {
  import opened Urls
  import opened Visits
  import opened ClassNames
  import opened Protocol
  import opened Exclusivity
  import opened Runs
  import opened Tidiness
  import opened Progress
  import opened States
  import opened Addresses
  import opened Diversions

  lemma CleanRunsAreCalm(cfg: Settings, s: World, es: seq<Event>)
    requires s.WellFormed() && IsRun(cfg, NoErrors, s, es)
    ensures IsRun(cfg, CalmRuns, s, es) && Final(cfg, CalmRuns, s, es) == Final(cfg, NoErrors, s, es)
    decreases |es|
  {
    hide Next;
    if es != [] {
      CleanRunsAreCalm(cfg, Next(cfg, s, es[0]), es[1..]);
    }
  }

  /** The first visit of a fresh instance, when its 'visit:start' has returned. */
  lemma FirstStarts(cfg: Settings, s0: World, to: Location, options: Options)
    requires Initial(s0)
    ensures var es := [Navigate(to, options), Start(1)];
      && IsRun(cfg, NoErrors, s0, es)
      && var s := Final(cfg, NoErrors, s0, es);
      && Going(s) && s.current == 1 == s.Last() && s.queue.None?
      && InTry(s.Current().pc) && !s.Current().pc.Ending? && !s.Current().pc.Closing?
      && s.Current().load.Pending? && !Entered(s.Current().pc)
      && s.session.Address() == to && NameClass(s.Current()) <= s.classes
      && s.Current().trip.options == options && s.Current().to == to && s.Current().state == STARTED
      && (options.wait ==> s.Current().pc.AwaitingPage?)
  {
    InitialCoherent(cfg, s0);
    var navigate, start := Navigate(to, options), Start(1);
    var s1 := Next(cfg, s0, navigate);
    NextGoing(cfg, s0, navigate);
    assert s1.visits[1].pc.Starting? && s1.current == 1;
    var s2 := Next(cfg, s1, start);
    NextGoing(cfg, s1, start);
    RunCons(cfg, NoErrors, s1, start, []);
    RunCons(cfg, NoErrors, s0, navigate, [start]);
    assert [navigate] + [start] == [navigate, start];
  }

  /**
   * A handler that aborts the visit after it has started leaves an instance that never navigates again:
   * it is stuck, whatever is requested afterwards.
   */
  lemma AbortSticks(cfg: Settings, s0: World, to: Location, options: Options)
    requires Initial(s0)
    ensures var es := [Navigate(to, options), Start(1), Abort(1)];
      && IsRun(cfg, CalmRuns, s0, es)
      && var s := Final(cfg, CalmRuns, s0, es);
      && Stuck(s) && forall fs | IsRun(cfg, CalmRuns, s, fs) :: Final(cfg, CalmRuns, s, fs).navigating
  {
    FirstStarts(cfg, s0, to, options);
    var es := [Navigate(to, options), Start(1)];
    CleanRunsAreCalm(cfg, s0, es);
    var s := Final(cfg, CalmRuns, s0, es);
    RunCons(cfg, CalmRuns, s, Abort(1), []);
    RunConcat(cfg, CalmRuns, s0, es, [Abort(1)]);
    assert es + [Abort(1)] == [Navigate(to, options), Start(1), Abort(1)];
    NextInv(cfg, s, Abort(1));
    var t := Next(cfg, s, Abort(1));
    forall fs | IsRun(cfg, CalmRuns, t, fs) ensures Final(cfg, CalmRuns, t, fs).navigating {
      StuckForever(cfg, CalmRuns, t, fs);
    }
  }

  /** A handler of 'visit:start' that aborts its visit aborts nothing: the visit is set back to STARTED. */
  lemma AbortDuringStartIsUndone(cfg: Settings, s0: World, to: Location, options: Options)
    requires Initial(s0)
    ensures var es := [Navigate(to, options), Abort(1)];
      && IsRun(cfg, CalmRuns, s0, es)
      && var s := Final(cfg, CalmRuns, s0, es);
      && Allowed(cfg, CalmRuns, s, Start(1)) && SetsBack(s, Start(1))
      && var r := Next(cfg, s, Start(1));
      && s.visits[1].state == ABORTED && r.visits[1].state == STARTED && !StatesAdvance(s, r)
  {
    var navigate, abort := Navigate(to, options), Abort(1);
    var s1 := Next(cfg, s0, navigate);
    assert s1.visits[1].pc.Starting?;
    var s2 := Next(cfg, s1, abort);
    RunCons(cfg, CalmRuns, s1, abort, []);
    RunCons(cfg, CalmRuns, s0, navigate, [abort]);
    assert [navigate] + [abort] == [navigate, abort];
    var r := Next(cfg, s2, Start(1));
    assert r.visits[1].state < s2.visits[1].state;
  }

  // ---- Classes left behind ----

  lemma StepKeepsClass(cfg: Settings, s: World, i: nat, c: string)
    requires s.WellFormed() && i < |s.visits| && CanStep(s.visits[i])
    requires !s.visits[i].pc.Ending? && !s.visits[i].pc.Closing?
    requires c in s.classes && c != "is-leaving" && c != "is-animating"
    ensures c in Stepped(cfg, s, i).classes
  {}

  /** The current visit goes to 'visit:end'; a class that it does not remove itself is still there. */
  lemma RollsToEnding(cfg: Settings, s: World, c: string) returns (es: seq<Event>)
    requires Going(s) && Rolling(cfg, s) && !s.Current().pc.Closing?
    requires c in s.classes && c != "is-leaving" && c != "is-animating"
    ensures IsRun(cfg, NoErrors, s, es)
    ensures var r := Final(cfg, NoErrors, s, es);
      Going(r) && r.current == s.current && r.queue == s.queue && r.Current().pc.Ending? && c in r.classes
    decreases Rank(s.Current())
  {
    if s.Current().pc.Ending? {
      es := [];
    } else {
      var e := Step(s.current);
      StepRolls(cfg, s);
      NextGoing(cfg, s, e);
      StepKeepsClass(cfg, s, s.current, c);
      NotYetClosing(cfg, s);
      var rest := RollsToEnding(cfg, Next(cfg, s, e), c);
      RunCons(cfg, NoErrors, s, e, rest);
      es := [e] + rest;
    }
  }

  lemma NotYetClosing(cfg: Settings, s: World)
    requires Going(s) && Rolling(cfg, s) && !s.Current().pc.Ending? && !s.Current().pc.Closing?
    ensures !Stepped(cfg, s, s.current).Current().pc.Closing?
  {}

  /** At 'visit:end' of a marked page, with nothing queued: the abort, and the last two steps. */
  lemma AbortAtEndLeavesClass(cfg: Settings, s: World, c: string)
    requires Going(s) && s.Current().pc.Ending? && s.queue.None? && c in s.classes && IsSwupClass(c)
    ensures var es := [Abort(s.current), Step(s.current), Step(s.current)];
      && IsRun(cfg, CalmRuns, s, es)
      && var r := Final(cfg, CalmRuns, s, es);
      && !r.navigating && !Unmarked(r.classes)
  {
    var abort, e := Abort(s.current), Step(s.current);
    var t := Next(cfg, s, abort);
    NextInv(cfg, s, abort);
    assert !Unmarked(t.classes) by { assert c in t.classes; }
    assert EndsMarked(t, e);
    EndingSweepsUnlessDone(cfg, t);
    var u := Next(cfg, t, e);
    RunCons(cfg, CalmRuns, u, e, []);
    RunCons(cfg, CalmRuns, t, e, [e]);
    RunCons(cfg, CalmRuns, s, abort, [e] + [e]);
    assert [abort] + ([e] + [e]) == [abort, e, e];
  }

  /**
   * On every page, a visit with a named animation that a handler of 'visit:end' aborts leaves classes
   * behind, although it completes and nothing navigates any more.
   */
  lemma AbortLeavesClasses(cfg: Settings, s0: World, to: Location, options: Options, html: string)
    returns (es: seq<Event>)
    requires Initial(s0) && options.name.Some?
    ensures IsRun(cfg, CalmRuns, s0, es)
    ensures var r := Final(cfg, CalmRuns, s0, es); !r.navigating && !Unmarked(r.classes)
  {
    var begin, arrive := [Navigate(to, options), Start(1)], Arrive(1, Page(to.url, html));
    FirstStarts(cfg, s0, to, options);
    var s := Final(cfg, NoErrors, s0, begin);
    var t := Next(cfg, s, arrive);
    NextGoing(cfg, s, arrive);
    var c := "to-" + Slug.Classify(options.name.value, "");
    NameClassIsSwup(s.Current());
    assert c in NameClass(s.Current()) && c[0] == 't';
    assert Rolling(cfg, t);
    var rest := RollsToEnding(cfg, t, c);
    RunCons(cfg, NoErrors, s, arrive, rest);
    RunConcat(cfg, NoErrors, s0, begin, [arrive] + rest);
    var up := begin + ([arrive] + rest);
    CleanRunsAreCalm(cfg, s0, up);
    var u := Final(cfg, CalmRuns, s0, up);
    AbortAtEndLeavesClass(cfg, u, c);
    var last := [Abort(u.current), Step(u.current), Step(u.current)];
    RunConcat(cfg, CalmRuns, s0, up, last);
    es := up + last;
  }
}
