// What goes wrong when a request arrives while 'visit:start' handlers are still running.
module Revival {
  import opened Wrappers
  import opened Urls
  import opened Visits
  import opened Protocol
  import opened Runs

  /** A visit that has loaded its page and has nothing to animate. */
  predicate ReadyToShow(s: World, i: nat)
    requires s.WellFormed()
  {
    && !s.Crashed() && s.queue.None? && i < |s.visits|
    && var v := s.visits[i];
    && v.pc.Transition? && !v.Done() && !v.trip.options.animate
    && v.load.Loaded? && v.document == Some(v.load.page.html)
  }

  /** `r` differs from `s` at most in visit `i` and what a visit does to the page. */
  ghost predicate OnlyVisit(s: World, r: World, i: nat) {
    && |r.visits| == |s.visits| && !r.Crashed() && r.queue.None?
    && forall k | 0 <= k < |s.visits| && k != i :: r.visits[k] == s.visits[k]
  }

  /** Such a visit runs to its end, whether it is the current one or not. */
  lemma ShowsItsPage(cfg: Settings, s: World, i: nat) returns (es: seq<Event>, r: World)
    requires s.WellFormed() && ReadyToShow(s, i)
    ensures IsRun(cfg, Anything, s, es) && r == Final(cfg, Anything, s, es)
    ensures OnlyVisit(s, r, i) && r.visits[i].state == COMPLETED && r.visits[i].pc.Finished?
    ensures r.visits[i].trip == s.visits[i].trip
    ensures r.displayed == Some(s.visits[i].load.page.html) && !r.navigating
  {
    var first, t := EntersPage(cfg, s, i);
    var second;
    second, r := ShowsFromReplacing(cfg, t, i);
    RunConcat(cfg, Anything, s, first, second);
    es := first + second;
  }

  lemma EntersPage(cfg: Settings, s: World, i: nat) returns (es: seq<Event>, r: World)
    requires s.WellFormed() && ReadyToShow(s, i)
    ensures IsRun(cfg, Anything, s, es) && r == Final(cfg, Anything, s, es)
    ensures OnlyVisit(s, r, i) && r.visits[i].pc.Replacing? && !r.visits[i].Done()
    ensures r.visits[i].trip == s.visits[i].trip && r.visits[i].document == s.visits[i].document
  {
    var e := Step(i);
    var s1 := Next(cfg, s, e);
    var s2 := Next(cfg, s1, e);
    r := Next(cfg, s2, e);
    RunCons(cfg, Anything, s2, e, []);
    RunCons(cfg, Anything, s1, e, [e]);
    RunCons(cfg, Anything, s, e, [e] + [e]);
    es := [e] + ([e] + [e]);
  }

  lemma ShowsFromReplacing(cfg: Settings, s: World, i: nat) returns (es: seq<Event>, r: World)
    requires s.WellFormed() && !s.Crashed() && s.queue.None? && i < |s.visits|
    requires s.visits[i].pc.Replacing? && !s.visits[i].Done() && !s.visits[i].trip.options.animate
    requires s.visits[i].document.Some?
    ensures IsRun(cfg, Anything, s, es) && r == Final(cfg, Anything, s, es)
    ensures OnlyVisit(s, r, i) && r.visits[i].state == COMPLETED && r.visits[i].pc.Finished?
    ensures r.visits[i].trip == s.visits[i].trip && r.displayed == s.visits[i].document && !r.navigating
  {
    var first, t := Replaces(cfg, s, i);
    var second;
    second, r := CompletesFromTransited(cfg, t, i);
    RunConcat(cfg, Anything, s, first, second);
    es := first + second;
  }

  lemma Replaces(cfg: Settings, s: World, i: nat) returns (es: seq<Event>, r: World)
    requires s.WellFormed() && !s.Crashed() && s.queue.None? && i < |s.visits|
    requires s.visits[i].pc.Replacing? && !s.visits[i].Done() && !s.visits[i].trip.options.animate
    requires s.visits[i].document.Some?
    ensures IsRun(cfg, Anything, s, es) && r == Final(cfg, Anything, s, es)
    ensures OnlyVisit(s, r, i) && r.visits[i].pc.Transited? && !r.visits[i].Done()
    ensures r.visits[i].trip == s.visits[i].trip && r.displayed == s.visits[i].document
  {
    var e := Step(i);
    var t := Next(cfg, s, e);
    var rest;
    rest, r := ScrollsAndViews(cfg, t, i);
    RunCons(cfg, Anything, s, e, rest);
    es := [e] + rest;
  }

  lemma ScrollsAndViews(cfg: Settings, s: World, i: nat) returns (es: seq<Event>, r: World)
    requires s.WellFormed() && !s.Crashed() && s.queue.None? && i < |s.visits|
    requires s.visits[i].pc.Scrolling? && !s.visits[i].Done() && !s.visits[i].trip.options.animate
    ensures IsRun(cfg, Anything, s, es) && r == Final(cfg, Anything, s, es)
    ensures OnlyVisit(s, r, i) && r.visits[i] == s.visits[i].(pc := Transited) && r.displayed == s.displayed
  {
    var e := Step(i);
    var t := Next(cfg, s, e);
    r := Next(cfg, t, e);
    RunCons(cfg, Anything, t, e, []);
    RunCons(cfg, Anything, s, e, [e]);
    es := [e] + [e];
  }

  lemma CompletesFromTransited(cfg: Settings, s: World, i: nat) returns (es: seq<Event>, r: World)
    requires s.WellFormed() && !s.Crashed() && s.queue.None? && i < |s.visits|
    requires s.visits[i].pc.Transited? && !s.visits[i].Done()
    ensures IsRun(cfg, Anything, s, es) && r == Final(cfg, Anything, s, es)
    ensures OnlyVisit(s, r, i) && r.visits[i].state == COMPLETED && r.visits[i].pc.Finished?
    ensures r.visits[i].trip == s.visits[i].trip && r.displayed == s.displayed && !r.navigating
  {
    var e := Step(i);
    var s1 := Next(cfg, s, e);
    var s2 := Next(cfg, s1, e);
    r := Next(cfg, s2, e);
    RunCons(cfg, Anything, s2, e, []);
    RunCons(cfg, Anything, s1, e, [e]);
    RunCons(cfg, Anything, s, e, [e] + [e]);
    es := [e] + ([e] + [e]);
  }

  const PLAIN := Options(false, false, false, None)

  /** Two requests, the second during 'visit:start' of the first: both visits come to run. */
  lemma BothRun(cfg: Settings, s0: World, one: Location, two: Location, p1: Page, p2: Page)
    returns (es: seq<Event>, r: World)
    requires Initial(s0)
    ensures IsRun(cfg, Anything, s0, es) && r == Final(cfg, Anything, s0, es)
    ensures |r.visits| == 3 && r.visits[1].trip.to == one && r.visits[2].trip.to == two
    ensures ReadyToShow(r, 1) && ReadyToShow(r, 2)
    ensures r.visits[1].load.page == p1 && r.visits[2].load.page == p2
  {
    var a := Next(cfg, s0, Navigate(one, PLAIN));
    assert a.visits[1].pc.Starting? && a.navigating && a.current == 1;
    var b := Next(cfg, a, Navigate(two, PLAIN));
    assert b.visits[2].pc.Aborting? && b.visits[1].pc.Starting?;
    var c := Next(cfg, b, Resume(2));
    assert c.visits[2].pc.Starting? && c.visits[1].pc.Starting?;
    var fs;
    fs, r := BothStart(cfg, c, p1, p2);
    RunCons(cfg, Anything, b, Resume(2), fs);
    RunCons(cfg, Anything, a, Navigate(two, PLAIN), [Resume(2)] + fs);
    RunCons(cfg, Anything, s0, Navigate(one, PLAIN), [Navigate(two, PLAIN)] + ([Resume(2)] + fs));
    es := [Navigate(one, PLAIN)] + ([Navigate(two, PLAIN)] + ([Resume(2)] + fs));
  }

  lemma BothStart(cfg: Settings, c: World, p1: Page, p2: Page) returns (es: seq<Event>, r: World)
    requires c.WellFormed() && |c.visits| == 3 && !c.Crashed() && c.queue.None?
    requires c.visits[1].pc.Starting? && c.visits[2].pc.Starting?
    requires c.visits[1].trip.options == PLAIN && c.visits[2].trip.options == PLAIN
    ensures IsRun(cfg, Anything, c, es) && r == Final(cfg, Anything, c, es)
    ensures |r.visits| == 3 && ReadyToShow(r, 1) && ReadyToShow(r, 2)
    ensures r.visits[1].trip == c.visits[1].trip && r.visits[2].trip == c.visits[2].trip
    ensures r.visits[1].load.page == p1 && r.visits[2].load.page == p2
  {
    var d := Next(cfg, c, Start(1));
    var e := Next(cfg, d, Start(2));
    var f := Next(cfg, e, Arrive(1, p1));
    r := Next(cfg, f, Arrive(2, p2));
    RunCons(cfg, Anything, f, Arrive(2, p2), []);
    RunCons(cfg, Anything, e, Arrive(1, p1), [Arrive(2, p2)]);
    RunCons(cfg, Anything, d, Start(2), [Arrive(1, p1)] + [Arrive(2, p2)]);
    RunCons(cfg, Anything, c, Start(1), [Start(2)] + ([Arrive(1, p1)] + [Arrive(2, p2)]));
    es := [Start(1)] + ([Start(2)] + ([Arrive(1, p1)] + [Arrive(2, p2)]));
  }

  /** Two visits that are ready show their pages one after the other. */
  lemma ShowInTurn(cfg: Settings, s: World, i: nat, j: nat) returns (es: seq<Event>, r: World)
    requires s.WellFormed() && i != j && ReadyToShow(s, i) && ReadyToShow(s, j)
    ensures IsRun(cfg, Anything, s, es) && r == Final(cfg, Anything, s, es)
    ensures |r.visits| == |s.visits| && !r.navigating && r.queue.None?
    ensures r.visits[i].state == COMPLETED && r.visits[j].state == COMPLETED
    ensures r.visits[i].trip == s.visits[i].trip && r.visits[j].trip == s.visits[j].trip
    ensures r.displayed == Some(s.visits[j].load.page.html)
  {
    var first, t := ShowsItsPage(cfg, s, i);
    assert t.visits[j] == s.visits[j];
    var second, u := ShowsItsPage(cfg, t, j);
    RunConcat(cfg, Anything, s, first, second);
    es, r := first + second, u;
  }

  /**
   * Without calm runs the last request need not win: the superseded visit is revived when its
   * 'visit:start' returns, and the page can end up showing the page requested first.
   */
  lemma RevivedVisitOverwrites(cfg: Settings, s0: World, one: Location, two: Location, p1: Page, p2: Page)
    returns (es: seq<Event>)
    requires Initial(s0)
    ensures IsRun(cfg, Anything, s0, es)
    ensures var r := Final(cfg, Anything, s0, es);
      && !r.navigating && r.queue.None? && |r.visits| == 3
      && r.visits[1].trip.to == one && r.visits[2].trip.to == two
      && r.visits[1].state == COMPLETED && r.visits[2].state == COMPLETED
      && r.displayed == Some(p1.html)
  {
    var both, s := BothRun(cfg, s0, one, two, p1, p2);
    var shown, r := ShowInTurn(cfg, s, 2, 1);
    RunConcat(cfg, Anything, s0, both, shown);
    es := both + shown;
  }
}
