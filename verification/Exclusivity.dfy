// One visit at a time: what every calm run of the protocol keeps, and why calm cannot be weakened.
module Exclusivity {
  import opened Visits
  import opened Histories
  import opened Protocol

  /** The newest request is still inside its 'visit:abort' or 'visit:start' hook. */
  predicate AbortWindow(s: World)
    requires s.WellFormed()
  {
    s.visits[s.Last()].pc.Aborting?
  }

  predicate WindowOpen(s: World)
    requires s.WellFormed()
  {
    s.visits[s.Last()].pc.Aborting? || s.visits[s.Last()].pc.Starting?
  }

  /** The event makes a visit reach `performNavigation`. */
  predicate Requests(cfg: Settings, s: World, e: Event)
    requires s.WellFormed() && Enabled(s, e)
  {
    Outside(e) && React(cfg, s, e).trip.Some?
  }

  /** The current visit passes its last done check and goes on to 'visit:end'. */
  predicate PassesLastCheck(s: World, e: Event)
    requires s.WellFormed()
  {
    e.Step? && e.i == s.current && s.Current().pc.Transited? && !s.Current().Done()
  }

  /**
   * No request arrives while 'visit:abort' or 'visit:start' handlers of the newest one are running,
   * and a visit about to be aborted does not slip past its last check meanwhile. Handlers of these two
   * hooks that do not suspend and request nothing themselves make every run calm.
   */
  predicate Calm(cfg: Settings, s: World, e: Event)
    requires s.WellFormed() && Enabled(s, e)
  {
    && (Requests(cfg, s, e) ==> !WindowOpen(s))
    && (PassesLastCheck(s, e) ==> !AbortWindow(s))
  }

  /** A superseded visit: waiting, over, or done and short of 'visit:end'. */
  predicate Superseded(v: Visit) {
    || v.pc.Queued?
    || v.pc.Aborting?
    || (v.Done() && (v.pc.Finished? || v.pc.Exited? || (InTry(v.pc) && !v.pc.Ending? && !v.pc.Closing?)))
  }

  predicate CurrentOk(s: World)
    requires s.WellFormed()
  {
    var v := s.Current();
    && (s.current == 0 <==> v.pc.Idle?)
    && !v.pc.Queued? && !v.pc.Aborting?
    && (v.pc.Idle? || v.pc.Finished? ==> !s.navigating && s.queue.None?)
    && (v.pc.Starting? || InTry(v.pc) || v.pc.Exited? ==> s.navigating)
    && (v.pc.Finished? || v.pc.Exited? ==> v.Done())
    && (Entered(v.pc) ==> v.state >= ENTERING)
    && (v.pc.Starting? ==> s.current == s.Last())
    && (AbortWindow(s) ==> s.navigating && !v.pc.Ending? && !v.pc.Closing?)
  }

  /** The newest request is queued, current, or about to become current. */
  predicate NewestOk(s: World)
    requires s.WellFormed()
  {
    match s.queue
    case Some(q) =>
      && q == s.Last() && s.visits[q].pc.Queued?
      && s.navigating && s.Current().state >= ENTERING && !s.Current().pc.Starting?
    case None => s.current == s.Last() || AbortWindow(s)
  }

  ghost predicate RenderedOk(s: World)
    requires s.WellFormed()
  {
    && (forall j, k | 0 <= j < k < |s.rendered| :: s.rendered[j] < s.rendered[k])
    && (forall j | 0 <= j < |s.rendered| :: 1 <= s.rendered[j] <= s.current)
    && (s.current in s.rendered ==>
          var pc := s.Current().pc;
          (Entered(pc) && !pc.Replacing?) || pc.Finished? || pc.Exited?)
  }

  ghost predicate Inv(s: World) {
    && s.WellFormed()
    && s.visits[0].pc.Idle?
    && CurrentOk(s)
    && NewestOk(s)
    && RenderedOk(s)
    && (forall i | 0 < i < |s.visits| && i != s.current :: Superseded(s.visits[i]))
    && (forall i | 0 <= i < s.Last() :: !s.visits[i].pc.Aborting?)
  }

  lemma InitialInv(s: World)
    requires Initial(s)
    ensures Inv(s)
  {}

  /** A new current visit is fine once every other visit is superseded. */
  lemma BeginInv(s: World, i: nat)
    requires s.WellFormed() && i == s.Last() && s.current < i && s.queue.None?
    requires s.visits[0].pc.Idle? && RenderedOk(s)
    requires forall k | 0 < k < i :: Superseded(s.visits[k]) && !s.visits[k].pc.Aborting?
    ensures Inv(Begin(s, i))
  {}

  lemma PerformInv(s: World, trip: Trip)
    requires Inv(s) && !WindowOpen(s)
    ensures Inv(PerformNavigation(s, trip))
  {
    var r := PerformNavigation(s, trip);
    assert forall k | 0 <= k < |s.visits| :: r.visits[k] == s.visits[k];
    if !s.navigating {
      var n := NewVisit(trip, CREATED, Starting);
      var t := s.(visits := s.visits + [n]);
      assert forall k | 0 <= k < |s.visits| :: t.visits[k] == s.visits[k];
      BeginInv(t, |s.visits|);
    }
  }

  lemma ResumeInv(s: World, i: nat)
    requires Inv(s) && i < |s.visits| && s.visits[i].pc.Aborting?
    ensures Inv(Resumed(s, i))
  {}

  /** Only visit `i` changes, and none of the shared control state. */
  predicate Touches(s: World, r: World, i: nat)
    requires s.WellFormed() && i < |s.visits|
  {
    && r.WellFormed()
    && |r.visits| == |s.visits| && r.visits == s.visits[i := r.visits[i]]
    && r.navigating == s.navigating && r.current == s.current
    && r.queue == s.queue && r.rendered == s.rendered
  }

  /** Its content may have been put on the page. */
  predicate PastReplacing(pc: Pc) {
    (Entered(pc) && !pc.Replacing?) || pc.Finished? || pc.Exited?
  }

  /** What a step inside the `try` block does to its visit. */
  predicate Proceeds(v: Visit, w: Visit) {
    && (InTry(w.pc) || w.pc.Exited?)
    && (v.Done() ==> w.Done())
    && (v.state >= ENTERING ==> w.state >= ENTERING)
    && (w.pc.Exited? ==> w.Done())
    && (Entered(w.pc) ==> w.state >= ENTERING || (Entered(v.pc) && w.state == v.state))
    && (w.pc.Ending? || w.pc.Closing? ==> (v.pc.Transited? && !v.Done()) || v.pc.Ending? || v.pc.Closing?)
    && (PastReplacing(v.pc) ==> PastReplacing(w.pc))
  }

  lemma ProceedsInv(s: World, r: World, i: nat)
    requires Inv(s) && i < |s.visits| && Touches(s, r, i)
    requires InTry(s.visits[i].pc)
    requires Proceeds(s.visits[i], r.visits[i])
    requires i == s.current && s.visits[i].pc.Transited? && !s.visits[i].Done() ==> !AbortWindow(s)
    ensures Inv(r)
  {}

  /** Changing only the state of a visit, or what it loaded. */
  lemma SamePcInv(s: World, r: World, i: nat)
    requires Inv(s) && i < |s.visits| && Touches(s, r, i)
    requires r.visits[i].pc == s.visits[i].pc
    requires s.visits[i].Done() ==> r.visits[i].Done()
    requires s.visits[i].state >= ENTERING ==> r.visits[i].state >= ENTERING
    ensures Inv(r)
  {}

  lemma StartInv(s: World, i: nat)
    requires Inv(s) && i < |s.visits| && s.visits[i].pc.Starting?
    ensures i == s.current && Inv(Started(s, i))
  {}

  lemma SessionInv(s: World, session: Session)
    requires Inv(s) && session.WellFormed()
    ensures Inv(s.(session := session))
  {}

  /** Outside events change only the session before they request anything. */
  lemma ReactKeeps(cfg: Settings, s: World, e: Event)
    requires s.WellFormed() && Enabled(s, e) && Outside(e)
    ensures var w := React(cfg, s, e).world; w == s.(session := w.session)
  {}

  lemma FailInv(s: World, i: nat, hard: bool)
    requires Inv(s) && i < |s.visits| && InTry(s.visits[i].pc)
    ensures Inv(Failed(s, i, hard))
  {}

  lemma ClassesInv(s: World, classes: set<string>)
    requires Inv(s)
    ensures Inv(s.(classes := classes))
  {}

  lemma RenderInv(s: World, i: nat)
    requires Inv(s) && i < |s.visits| && s.visits[i].pc.Replacing? && !s.visits[i].Done()
    requires s.visits[i].document.Some?
    ensures Inv(ReplaceContent(s, i))
  {
    var r := ReplaceContent(s, i);
    assert i == s.current;
    assert forall j | 0 <= j < |s.rendered| :: s.rendered[j] in s.rendered && s.rendered[j] < i;
    var bare := r.(rendered := s.rendered);
    ProceedsInv(s, bare, i);
  }

  lemma ReplaceInv(s: World, i: nat)
    requires Inv(s) && i < |s.visits| && s.visits[i].pc.Replacing?
    ensures Inv(ReplaceContent(s, i))
  {
    var v := s.visits[i];
    if v.Done() {
      ProceedsInv(s, ReplaceContent(s, i), i);
    } else if v.document.None? {
      var readied := Readied(v, s.classes);
      ClassesInv(s, readied);
      FailInv(s.(classes := readied), i, true);
    } else {
      RenderInv(s, i);
    }
  }

  /** Only the current visit closes. */
  lemma ClosedInv(s: World, i: nat)
    requires Inv(s) && i < |s.visits| && s.visits[i].pc.Closing?
    ensures i == s.current && Inv(Closed(s, i))
  {}

  lemma WalkProceeds(v: Visit)
    requires Walks(v.pc)
    ensures Proceeds(v, Walked(v))
  {}

  lemma EnterProceeds(cfg: Settings, s: World, i: nat)
    requires s.WellFormed() && i < |s.visits| && s.visits[i].pc.NeedPage? && CanStep(s.visits[i])
    ensures Touches(s, EnterPage(cfg, s, i), i)
    ensures Proceeds(s.visits[i], EnterPage(cfg, s, i).visits[i])
  {}

  lemma StepInv(cfg: Settings, s: World, i: nat)
    requires Inv(s) && i < |s.visits| && CanStep(s.visits[i])
    requires PassesLastCheck(s, Step(i)) ==> !AbortWindow(s)
    ensures Inv(Stepped(cfg, s, i))
  {
    var v := s.visits[i];
    var r := Stepped(cfg, s, i);
    if v.pc.Closing? {
      ClosedInv(s, i);
    } else if v.pc.Replacing? {
      ReplaceInv(s, i);
    } else {
      if v.pc.NeedPage? {
        EnterProceeds(cfg, s, i);
      } else {
        WalkProceeds(v);
      }
      ProceedsInv(s, r, i);
    }
  }

  /** Every calm event keeps the invariant. */
  lemma NextInv(cfg: Settings, s: World, e: Event)
    requires Inv(s) && Enabled(s, e) && Calm(cfg, s, e)
    ensures Inv(Next(cfg, s, e))
  {
    match e
    case Abort(i) => SamePcInv(s, Next(cfg, s, e), i);
    case Resume(i) => ResumeInv(s, i);
    case Start(i) => StartInv(s, i);
    case Arrive(i, page) => SamePcInv(s, Arrived(s, i, page), i);
    case Drop(i) => SamePcInv(s, Dropped(s, i), i);
    case Step(i) => StepInv(cfg, s, i);
    case Fail(i, hard) => FailInv(s, i, hard);
    case _ =>
      ReactKeeps(cfg, s, e);
      var r := React(cfg, s, e);
      SessionInv(s, r.world.session);
      if r.trip.Some? {
        PerformInv(r.world, r.trip.value);
      }
  }

  // ---- Calm is necessary ----

  /**
   * Two visits run at once, a queue waits behind a visit that can still be aborted, or a visit runs
   * while `navigating` is off.
   */
  ghost predicate Unsafe(s: World)
    requires s.WellFormed()
  {
    || (exists i :: 0 <= i < |s.visits| && i != s.current && InTry(s.visits[i].pc) && !s.visits[i].Done())
    || (s.queue.Some? && s.Current().state < ENTERING)
    || (!s.navigating && InTry(s.Current().pc))
  }

  /** From `s`, steps of the visits alone lead to an unsafe state. */
  ghost predicate LeadsToUnsafe(cfg: Settings, s: World, es: seq<Event>)
    requires s.WellFormed()
    decreases |es|
  {
    if es == [] then Unsafe(s)
    else
      && (es[0].Resume? || es[0].Start? || es[0].Step?)
      && Enabled(s, es[0]) && LeadsToUnsafe(cfg, Next(cfg, s, es[0]), es[1..])
  }

  /** The visit that starts next to another current one is revived: two visits run. */
  lemma StartRevives(cfg: Settings, s: World, i: nat)
    requires s.WellFormed() && !s.Crashed() && i < |s.visits| && s.visits[i].pc.Starting?
    requires i != s.current || s.queue.Some? || !s.navigating
    ensures LeadsToUnsafe(cfg, s, [Start(i)])
  {
    var r := Next(cfg, s, Start(i));
    assert r.visits[i].state == STARTED && InTry(r.visits[i].pc);
    assert Unsafe(r);
    assert [Start(i)][1..] == [];
  }

  lemma StepBack(cfg: Settings, s: World, e: Event, es: seq<Event>)
    requires s.WellFormed() && Enabled(s, e) && (e.Resume? || e.Start? || e.Step?)
    requires LeadsToUnsafe(cfg, Next(cfg, s, e), es)
    ensures LeadsToUnsafe(cfg, s, [e] + es)
  {}

  /** A request during 'visit:start' of the newest visit. */
  lemma RequestWhileStarting(cfg: Settings, s: World, trip: Trip) returns (es: seq<Event>)
    requires Inv(s) && !s.Crashed() && s.Current().pc.Starting?
    ensures LeadsToUnsafe(cfg, PerformNavigation(s, trip), es)
  {
    var b, r := s.current, PerformNavigation(s, trip);
    es := [Start(b)];
    if s.Current().state >= ENTERING {
      StartRevives(cfg, r, b);
    } else {
      var t := Next(cfg, r, Resume(b + 1));
      assert t.visits[b].pc.Starting?;
      StartRevives(cfg, t, b);
      StepBack(cfg, r, Resume(b + 1), es);
      es := [Resume(b + 1)] + es;
    }
  }

  /** A request during 'visit:abort' of the newest visit. */
  lemma RequestWhileAborting(cfg: Settings, s: World, trip: Trip) returns (es: seq<Event>)
    requires Inv(s) && !s.Crashed() && AbortWindow(s)
    ensures LeadsToUnsafe(cfg, PerformNavigation(s, trip), es)
  {
    var b, r := s.Last(), PerformNavigation(s, trip);
    var t := Next(cfg, r, Resume(b));
    assert t.visits[b].pc.Starting?;
    es := [Start(b)];
    if s.Current().state >= ENTERING {
      StartRevives(cfg, t, b);
    } else {
      assert t.visits[b + 1].pc.Aborting?;
      var u := Next(cfg, t, Resume(b + 1));
      assert u.visits[b].pc.Starting?;
      StartRevives(cfg, u, b);
      StepBack(cfg, t, Resume(b + 1), es);
      es := [Resume(b + 1)] + es;
    }
    StepBack(cfg, r, Resume(b), es);
    es := [Resume(b)] + es;
  }

  /** The visit being aborted reaches 'visit:end' first and later clears `navigating`. */
  lemma LastCheckWhileAborting(cfg: Settings, s: World) returns (es: seq<Event>)
    requires Inv(s) && !s.Crashed() && AbortWindow(s) && PassesLastCheck(s, Step(s.current))
    ensures LeadsToUnsafe(cfg, Stepped(cfg, s, s.current), es)
  {
    var a, b := s.current, s.Last();
    var r := Stepped(cfg, s, a);
    assert r.visits[b].pc.Aborting?;
    var t := Next(cfg, r, Resume(b));
    assert t.visits[a].pc.Ending? && t.visits[b].pc.Starting?;
    var u := Next(cfg, t, Step(a));
    assert u.visits[a].pc.Closing? && u.visits[b].pc.Starting?;
    var w := Next(cfg, u, Step(a));
    assert w.visits[b].pc.Starting? && !w.navigating;
    es := [Start(b)];
    StartRevives(cfg, w, b);
    StepBack(cfg, u, Step(a), es);
    es := [Step(a)] + es;
    StepBack(cfg, t, Step(a), es);
    es := [Step(a)] + es;
    StepBack(cfg, r, Resume(b), es);
    es := [Resume(b)] + es;
  }

  lemma DisturbanceLeadsToUnsafe(cfg: Settings, s: World, e: Event) returns (es: seq<Event>)
    requires Inv(s) && Enabled(s, e) && !Calm(cfg, s, e)
    ensures LeadsToUnsafe(cfg, Next(cfg, s, e), es)
  {
    if Requests(cfg, s, e) && WindowOpen(s) {
      ReactKeeps(cfg, s, e);
      var r := React(cfg, s, e);
      SessionInv(s, r.world.session);
      assert Next(cfg, s, e) == PerformNavigation(r.world, r.trip.value);
      if AbortWindow(s) {
        es := RequestWhileAborting(cfg, r.world, r.trip.value);
      } else {
        es := RequestWhileStarting(cfg, r.world, r.trip.value);
      }
    } else {
      es := LastCheckWhileAborting(cfg, s);
    }
  }

  /**
   * Calm is exactly what is needed: a calm event keeps the invariant, and after any other event the
   * visits can bring about an unsafe state on their own.
   */
  lemma CalmIsExact(cfg: Settings, s: World, e: Event)
    requires Inv(s) && Enabled(s, e)
    ensures Calm(cfg, s, e) ==> Inv(Next(cfg, s, e)) && !Unsafe(Next(cfg, s, e))
    ensures !Calm(cfg, s, e) ==> exists es :: LeadsToUnsafe(cfg, Next(cfg, s, e), es)
  {
    if Calm(cfg, s, e) {
      NextInv(cfg, s, e);
    } else {
      var es := DisturbanceLeadsToUnsafe(cfg, s, e);
    }
  }
}
