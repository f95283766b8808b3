// Superseded visits: they keep running and have no effect, short of a real error.
module Superseded {
  import opened Wrappers
  import opened Urls
  import opened Visits
  import opened Protocol
  import opened Exclusivity
  import opened Runs
  import opened Outcomes
  import opened Diversions
  import opened Mishaps

  /** Something happens to a single visit that is not the current one. */
  predicate Aside(s: World, e: Event)
    requires s.WellFormed()
  {
    (e.Abort? || e.Arrive? || e.Drop? || e.Step? || e.Fail?) && e.i != s.current
  }

  /** Nothing changes but that visit itself: not what is shown, nor where we are, nor who navigates. */
  predicate NoEffect(s: World, r: World, i: nat) {
    i < |s.visits| && |r.visits| == |s.visits| && r == s.(visits := s.visits[i := r.visits[i]])
  }

  /** Visits other than the current one have no effect, exactly unless they fail with a real error. */
  lemma AsideHasNoEffectIff(cfg: Settings, s: World, e: Event)
    requires Inv(s) && Enabled(s, e) && Aside(s, e)
    ensures NoEffect(s, Next(cfg, s, e), e.i) <==> !(e.Fail? && e.hard)
    ensures e.Fail? && e.hard ==> Next(cfg, s, e).reload == Some(s.visits[e.i].to)
  {}

  // ---- Erasing superseded visits ----

  /** The visit waits for its turn: it can still become the current one. */
  predicate Waits(v: Visit) {
    v.pc.Queued? || v.pc.Aborting?
  }

  /** An event of a visit that is superseded. */
  predicate Zombie(s: World, e: Event)
    requires s.WellFormed()
  {
    Aside(s, e) && e.i < |s.visits| && !Waits(s.visits[e.i])
  }

  /** The run without the events of superseded visits. */
  function Erased(cfg: Settings, s: World, es: seq<Event>): seq<Event>
    requires s.WellFormed() && IsRun(cfg, CalmRuns, s, es)
    decreases |es|
  {
    if es == [] then []
    else (if Zombie(s, es[0]) then [] else [es[0]]) + Erased(cfg, Next(cfg, s, es[0]), es[1..])
  }

  /** No superseded visit fails with a real error. */
  predicate Harmless(cfg: Settings, s: World, es: seq<Event>)
    requires s.WellFormed() && IsRun(cfg, CalmRuns, s, es)
    decreases |es|
  {
    es == [] || (!(Zombie(s, es[0]) && es[0].Fail? && es[0].hard) && Harmless(cfg, Next(cfg, s, es[0]), es[1..]))
  }

  /** The two states agree on everything but the superseded visits. */
  predicate Alike(s: World, t: World) {
    && s.WellFormed() && t.WellFormed() && |t.visits| == |s.visits|
    && t == s.(visits := t.visits)
    && t.Current() == s.Current()
    && (forall i | 0 <= i < |s.visits| && Waits(s.visits[i]) :: t.visits[i] == s.visits[i])
    && (forall i | 0 <= i < |s.visits| :: Waits(t.visits[i]) ==> Waits(s.visits[i]))
  }

  lemma ZombieIsAlike(cfg: Settings, s: World, t: World, e: Event)
    requires Inv(s) && Alike(s, t) && Enabled(s, e) && Zombie(s, e) && !(e.Fail? && e.hard)
    ensures Alike(Next(cfg, s, e), t)
  {
    AsideHasNoEffectIff(cfg, s, e);
    ZombieStays(cfg, s, e);
  }

  lemma ZombieStays(cfg: Settings, s: World, e: Event)
    requires Inv(s) && Enabled(s, e) && Zombie(s, e)
    ensures !Waits(Next(cfg, s, e).visits[e.i])
  {}

  lemma NewestAlike(s: World, t: World)
    requires Inv(s) && Inv(t) && Alike(s, t)
    ensures t.visits[t.Last()] == s.visits[s.Last()]
  {}

  /** Everything else can happen in the one state as in the other. */
  lemma EnabledAlike(cfg: Settings, s: World, t: World, e: Event)
    requires Inv(s) && Inv(t) && Alike(s, t) && Enabled(s, e) && Calm(cfg, s, e) && !Zombie(s, e)
    ensures Enabled(t, e) && Calm(cfg, t, e)
  {
    NewestAlike(s, t);
  }

  lemma PerformAlike(s: World, t: World, trip: Trip)
    requires Alike(s, t)
    ensures Alike(PerformNavigation(s, trip), PerformNavigation(t, trip))
  {}

  lemma ReactAlike(cfg: Settings, s: World, t: World, e: Event)
    requires Alike(s, t) && Outside(e) && Enabled(s, e) && Enabled(t, e)
    ensures React(cfg, s, e).trip == React(cfg, t, e).trip
    ensures Alike(React(cfg, s, e).world, React(cfg, t, e).world)
  {
    ReactKeeps(cfg, s, e);
    ReactKeeps(cfg, t, e);
  }

  lemma OutsideAlike(cfg: Settings, s: World, t: World, e: Event)
    requires s.WellFormed() && t.WellFormed()
    requires Alike(s, t) && Outside(e) && Enabled(s, e) && Enabled(t, e)
    ensures Alike(Next(cfg, s, e), Next(cfg, t, e))
  {
    hide Alike;
    ReactAlike(cfg, s, t, e);
    var r := React(cfg, s, e);
    if r.trip.Some? {
      PerformAlike(r.world, React(cfg, t, e).world, r.trip.value);
    }
  }

  /** The same visit becomes the same in both. */
  lemma PutAlike(s: World, t: World, r: World, u: World, i: nat)
    requires Alike(s, t) && i < |s.visits| && r.WellFormed() && |r.visits| == |s.visits|
    requires r.current == s.current && r.visits == s.visits[i := r.visits[i]]
    requires u == r.(visits := t.visits[i := r.visits[i]])
    ensures Alike(r, u)
  {}

  lemma StepAlike(cfg: Settings, s: World, t: World, i: nat)
    requires Inv(s) && Inv(t) && Alike(s, t) && i == s.current && CanStep(s.Current())
    ensures Alike(Stepped(cfg, s, i), Stepped(cfg, t, i))
  {
    if s.Current().pc.Closing? {
      ClosedAlike(s, t, i);
    } else {
      PutAlike(s, t, Stepped(cfg, s, i), Stepped(cfg, t, i), i);
    }
  }

  lemma ClosedAlike(s: World, t: World, i: nat)
    requires Inv(s) && Inv(t) && Alike(s, t) && i == s.current && s.Current().pc.Closing?
    ensures Alike(Closed(s, i), Closed(t, i))
  {}

  lemma ResumeAlike(s: World, t: World, i: nat)
    requires Inv(s) && Inv(t) && Alike(s, t) && i < |s.visits| && s.visits[i].pc.Aborting?
    ensures Alike(Resumed(s, i), Resumed(t, i))
  {}

  lemma SingleAlike(cfg: Settings, s: World, t: World, e: Event)
    requires Inv(s) && Alike(s, t) && Enabled(s, e) && Enabled(t, e) && !Zombie(s, e)
    requires !Outside(e) && !e.Step? && !e.Resume?
    ensures Alike(Next(cfg, s, e), Next(cfg, t, e))
  {
    assert t.visits[e.i] == s.visits[e.i];
    PutAlike(s, t, Next(cfg, s, e), Next(cfg, t, e), e.i);
  }

  lemma NextAlike(cfg: Settings, s: World, t: World, e: Event)
    requires Inv(s) && Inv(t) && Alike(s, t) && Enabled(s, e) && Enabled(t, e) && !Zombie(s, e)
    ensures Alike(Next(cfg, s, e), Next(cfg, t, e))
  {
    hide Alike;
    if Outside(e) {
      OutsideAlike(cfg, s, t, e);
    } else if e.Step? {
      StepAside(s, e);
      StepAlike(cfg, s, t, e.i);
    } else if e.Resume? {
      ResumeAlike(s, t, e.i);
    } else {
      SingleAlike(cfg, s, t, e);
    }
  }

  lemma StepAside(s: World, e: Event)
    requires s.WellFormed() && Enabled(s, e) && e.Step? && !Zombie(s, e)
    ensures e.i == s.current
  {}

  lemma {:induction false} ErasedAlike(cfg: Settings, s: World, t: World, es: seq<Event>)
    requires Inv(s) && Inv(t) && Alike(s, t) && IsRun(cfg, CalmRuns, s, es) && Harmless(cfg, s, es)
    ensures IsRun(cfg, CalmRuns, t, Erased(cfg, s, es))
    ensures Alike(Final(cfg, CalmRuns, s, es), Final(cfg, CalmRuns, t, Erased(cfg, s, es)))
    decreases |es|
  {
    if es != [] {
      var e, r := es[0], Next(cfg, s, es[0]);
      NextInv(cfg, s, e);
      if Zombie(s, e) {
        ZombieIsAlike(cfg, s, t, e);
        ErasedAlike(cfg, r, t, es[1..]);
        assert Erased(cfg, s, es) == Erased(cfg, r, es[1..]);
      } else {
        EnabledAlike(cfg, s, t, e);
        NextAlike(cfg, s, t, e);
        NextInv(cfg, t, e);
        ErasedAlike(cfg, r, Next(cfg, t, e), es[1..]);
        RunCons(cfg, CalmRuns, t, e, Erased(cfg, r, es[1..]));
        assert Erased(cfg, s, es) == [e] + Erased(cfg, r, es[1..]);
      }
    }
  }

  /**
   * Superseded visits have no effect: a calm run in which none of them fails with a real error is still
   * a calm run without all that they do, and it ends with the same current visit, queue, page, classes,
   * location and history.
   */
  lemma SupersededHaveNoEffect(cfg: Settings, s0: World, es: seq<Event>, s: World)
    requires Reaches(cfg, CalmRuns, s0, es, s) && Harmless(cfg, s0, es)
    ensures var fs := Erased(cfg, s0, es);
      && IsRun(cfg, CalmRuns, s0, fs)
      && var t := Final(cfg, CalmRuns, s0, fs);
      && |t.visits| == |s.visits| && t == s.(visits := t.visits)
      && t.Current() == s.Current() && (s.queue.Some? ==> t.visits[s.queue.value] == s.visits[s.queue.value])
  {
    InitialInv(s0);
    ErasedAlike(cfg, s0, s0, es);
    RunInv(cfg, CalmRuns, s0, es);
  }

  // ---- The one effect ----

  /** The first visit waits for its page before it animates. */
  ghost predicate FirstAwaits(s: World, one: Location) {
    && Going(s) && s.current == 1 == s.Last() && s.queue.None? && s.Current().state == STARTED
    && s.Current().pc.AwaitingPage? && s.Current().load.Pending? && s.Current().to == one
  }

  /** The second visit is in its 'visit:abort' hook. */
  ghost predicate SecondWaits(s: World, one: Location, two: Location) {
    && Going(s) && s.current == 1 && s.Last() == 2 && s.queue.None?
    && s.visits[2].pc.Aborting? && s.visits[2].to == two && !s.visits[2].trip.popstate
    && s.visits[1].pc.AwaitingPage? && s.visits[1].load.Pending? && s.visits[1].to == one
  }

  /** The second visit is about to start, and the first one still waits. */
  ghost predicate SecondStarts(s: World, one: Location, two: Location) {
    && Going(s) && s.current == 2 == s.Last() && s.queue.None?
    && s.Current().pc.Starting? && s.Current().to == two && !s.Current().trip.popstate
    && s.visits[1].pc.AwaitingPage? && s.visits[1].load.Pending? && s.visits[1].to == one
  }

  /** The second visit runs, and the first one still waits. */
  ghost predicate SecondRuns(s: World, one: Location, two: Location) {
    && Going(s) && s.current == 2 == s.Last() && s.queue.None? && InTry(s.Current().pc)
    && s.Current().load.Pending? && s.session.Address() == two
    && s.visits[1].pc.AwaitingPage? && s.visits[1].load.Pending? && s.visits[1].to == one
  }

  lemma SecondTakesOver(cfg: Settings, s: World, one: Location, two: Location, options: Options)
    requires s.WellFormed() && FirstAwaits(s, one)
    ensures var es := [Navigate(two, options), Resume(2), Start(2)];
      IsRun(cfg, NoErrors, s, es) && SecondRuns(Final(cfg, NoErrors, s, es), one, two)
  {
    hide FirstAwaits, SecondWaits, SecondStarts, SecondRuns;
    var navigate, resume, start := Navigate(two, options), Resume(2), Start(2);
    SecondIsRequested(cfg, s, one, two, options);
    var t := Next(cfg, s, navigate);
    ResumeStarts(cfg, t, one, two);
    var u := Next(cfg, t, resume);
    StartRuns(cfg, u, one, two);
    RunCons(cfg, NoErrors, u, start, []);
    RunCons(cfg, NoErrors, t, resume, [start]);
    RunCons(cfg, NoErrors, s, navigate, [resume] + [start]);
    assert [navigate] + ([resume] + [start]) == [navigate, resume, start];
  }

  lemma SecondIsRequested(cfg: Settings, s: World, one: Location, two: Location, options: Options)
    requires FirstAwaits(s, one)
    ensures s.WellFormed() && Allowed(cfg, NoErrors, s, Navigate(two, options))
    ensures SecondWaits(Next(cfg, s, Navigate(two, options)), one, two)
  {
    NextGoing(cfg, s, Navigate(two, options));
  }

  lemma ResumeStarts(cfg: Settings, s: World, one: Location, two: Location)
    requires SecondWaits(s, one, two)
    ensures s.WellFormed() && Allowed(cfg, NoErrors, s, Resume(2)) && SecondStarts(Next(cfg, s, Resume(2)), one, two)
  {
    NextGoing(cfg, s, Resume(2));
  }

  lemma StartRuns(cfg: Settings, s: World, one: Location, two: Location)
    requires SecondStarts(s, one, two)
    ensures s.WellFormed() && Allowed(cfg, NoErrors, s, Start(2)) && SecondRuns(Next(cfg, s, Start(2)), one, two)
  {
    NextGoing(cfg, s, Start(2));
  }

  /** Its page arrives, and it runs to its end. */
  lemma SecondEnds(cfg: Settings, s: World, one: Location, two: Location, html: string) returns (es: seq<Event>)
    requires SecondRuns(s, one, two)
    ensures IsRun(cfg, NoErrors, s, es)
    ensures var r := Final(cfg, NoErrors, s, es);
      && Going(r) && !r.navigating && |r.visits| == 3 && r.visits[1] == s.visits[1]
      && r.visits[2].load == Loaded(Page(two.url, html))
  {
    var arrive := Arrive(2, Page(two.url, html));
    var t := Next(cfg, s, arrive);
    NextGoing(cfg, s, arrive);
    assert Rolling(cfg, t);
    var rest := RollsOn(cfg, t);
    RunCons(cfg, NoErrors, s, arrive, rest);
    es := [arrive] + rest;
  }

  /**
   * It does have an effect when the load of a superseded visit fails with a real error: the second request
   * is complete and shown, nothing navigates, and yet the browser is taken to the url of the first.
   */
  lemma FailureOfSupersededTakesOver(cfg: Settings, s0: World, one: Location, two: Location,
                                     first: Options, second: Options, html: string)
    returns (es: seq<Event>)
    requires Initial(s0) && first.wait
    ensures IsRun(cfg, CalmRuns, s0, es)
    ensures var s := Final(cfg, CalmRuns, s0, es);
      && !s.navigating && !s.Crashed() && s.current == 2 && s.displayed == Some(html)
      && s.visits[1].pc.AwaitingPage? && s.visits[1].load.Pending?
      && Allowed(cfg, CalmRuns, s, Fail(1, true)) && Zombie(s, Fail(1, true))
      && Next(cfg, s, Fail(1, true)).reload == Some(one)
  {
    hide SecondRuns;
    var begin, middle := [Navigate(one, first), Start(1)], [Navigate(two, second), Resume(2), Start(2)];
    FirstStarts(cfg, s0, one, first);
    var s := Final(cfg, NoErrors, s0, begin);
    SecondTakesOver(cfg, s, one, two, second);
    var t := Final(cfg, NoErrors, s, middle);
    var end := SecondEnds(cfg, t, one, two, html);
    RunConcat(cfg, NoErrors, s, middle, end);
    RunConcat(cfg, NoErrors, s0, begin, middle + end);
    es := begin + (middle + end);
    CleanRunsAreCalm(cfg, s0, es);
    var r := Final(cfg, CalmRuns, s0, es);
    assert r == Final(cfg, NoErrors, t, end);
    WaitingMayFail(cfg, s0, es, t, r, one, two, html);
  }

  lemma WaitingMayFail(cfg: Settings, s0: World, es: seq<Event>, t: World, r: World,
                       one: Location, two: Location, html: string)
    requires Reaches(cfg, CalmRuns, s0, es, r) && SecondRuns(t, one, two)
    requires Going(r) && !r.navigating && |r.visits| == 3 && r.visits[1] == t.visits[1]
    requires r.visits[2].load == Loaded(Page(two.url, html))
    ensures !r.Crashed() && r.current == 2 && r.displayed == Some(html)
    ensures r.visits[1].pc.AwaitingPage? && r.visits[1].load.Pending?
    ensures Allowed(cfg, CalmRuns, r, Fail(1, true)) && Zombie(r, Fail(1, true))
    ensures Next(cfg, r, Fail(1, true)).reload == Some(one)
  {
    LastRequestWins(cfg, r);
  }
}
