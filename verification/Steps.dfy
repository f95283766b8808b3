// What starting, loading, entering, rendering, ending and taking over come to, in terms of the next state.
module Steps {
  import opened Wrappers
  import opened Urls
  import opened Visits
  import opened Histories
  import opened ClassNames
  import opened Protocol
  import opened Exclusivity
  import opened Runs

  // ---- History records ----

  /** The records up to and including number `n` are as they were. */
  ghost predicate SameUpTo(s: Session, r: Session, n: nat) {
    n < |s.entries| && n < |r.entries| && forall k | 0 <= k <= n :: r.entries[k] == s.entries[k]
  }

  /** A new record with swup's next index follows the current one, and nothing follows it. */
  ghost predicate Pushes(s: Session, r: Session, to: Location) {
    && SameUpTo(s, r, s.cursor) && |r.entries| == s.cursor + 2 && r.cursor == s.cursor + 1
    && r.index == s.index + 1 && r.entries[r.cursor] == Entry(to, Some(r.index), true)
  }

  /** The current record gets the address; its index and all other records stay. */
  ghost predicate Rewrites(s: Session, r: Session, to: Location) {
    && s.cursor < |s.entries| == |r.entries| && r.cursor == s.cursor && r.index == s.index
    && (forall k | 0 <= k < |s.entries| && k != s.cursor :: r.entries[k] == s.entries[k])
    && r.entries[s.cursor] == Entry(to, s.entries[s.cursor].index, true)
  }

  /**
   * 'visit:start' returns: the page is requested, swup believes to be at the target, and its history record
   * is pushed, or written over the current one for a replacing visit or one to where swup is already. A
   * history visit finds its record in place.
   */
  lemma StartWritesHistory(cfg: Settings, s: World, i: nat)
    requires s.WellFormed() && Enabled(s, Start(i))
    ensures var v, r := s.visits[i], Next(cfg, s, Start(i));
      && r.location == v.to
      && (v.trip.popstate ==> r.session == s.session)
      && (!v.trip.popstate && (v.trip.options.replace || v.to.url == s.location.url) ==>
            Rewrites(s.session, r.session, v.to))
      && (!v.trip.popstate && !v.trip.options.replace && v.to.url != s.location.url ==>
            Pushes(s.session, r.session, v.to))
  {
    PushKeepsRecords(s.session, s.visits[i].to);
    UpdateKeepsRecords(s.session, s.visits[i].to);
  }

  /** The event pushes a record: the only one that drops others. */
  predicate PushesRecord(s: World, e: Event)
    requires s.WellFormed() && Enabled(s, e)
  {
    && e.Start? && var v := s.visits[e.i];
    && !v.trip.popstate && !v.trip.options.replace && v.to.url != s.location.url
  }

  /** The record with number `k` is neither dropped by the event nor current. */
  predicate SparesRecord(s: World, e: Event, k: nat)
    requires s.WellFormed() && Enabled(s, e)
  {
    if PushesRecord(s, e) then k <= s.session.cursor else k != s.session.cursor
  }

  lemma EnterKeepsRecords(cfg: Settings, s: World, i: nat, k: nat)
    requires s.WellFormed() && i < |s.visits| && CanStep(s.visits[i])
    requires k < |s.session.entries| && k != s.session.cursor
    ensures var r := Stepped(cfg, s, i).session; k < |r.entries| && r.entries[k] == s.session.entries[k]
  {}

  /** Such a record stays as it is, whatever the event. */
  lemma RecordsAreKept(cfg: Settings, s: World, e: Event, k: nat)
    requires s.WellFormed() && Enabled(s, e) && k < |s.session.entries| && SparesRecord(s, e, k)
    ensures var r := Next(cfg, s, e).session; k < |r.entries| && r.entries[k] == s.session.entries[k]
  {
    if e.Start? {
      StartWritesHistory(cfg, s, e.i);
    } else if e.Step? {
      EnterKeepsRecords(cfg, s, e.i, k);
    }
  }

  predicate SparesRecordAlong(cfg: Settings, a: Assumption, s: World, es: seq<Event>, k: nat)
    requires s.WellFormed() && IsRun(cfg, a, s, es)
    decreases |es|
  {
    es == [] || (SparesRecord(s, es[0], k) && SparesRecordAlong(cfg, a, Next(cfg, s, es[0]), es[1..], k))
  }

  /** In any run a record that is neither dropped nor ever current keeps its address and its index. */
  lemma RunKeepsRecords(cfg: Settings, a: Assumption, s: World, es: seq<Event>, k: nat)
    requires s.WellFormed() && IsRun(cfg, a, s, es)
    requires k < |s.session.entries| && SparesRecordAlong(cfg, a, s, es, k)
    ensures var r := Final(cfg, a, s, es).session; k < |r.entries| && r.entries[k] == s.session.entries[k]
    decreases |es|
  {
    if es != [] {
      hide Next;
      RecordsAreKept(cfg, s, es[0], k);
      RunKeepsRecords(cfg, a, Next(cfg, s, es[0]), es[1..], k);
    }
  }

  /** So back from the page that a visit has pushed is the page where it was requested. */
  lemma BackFromVisit(cfg: Settings, s: World, i: nat)
    requires s.WellFormed() && Enabled(s, Start(i)) && PushesRecord(s, Start(i))
    ensures var r := Next(cfg, s, Start(i)).session;
      0 <= r.cursor - 1 < |r.entries| && r.entries[r.cursor - 1].address == s.session.Address()
  {
    StartWritesHistory(cfg, s, i);
  }

  // ---- Classes ----

  /** The class of the visit's named animation: its words joined by dashes. */
  predicate IsNameClass(o: Options, c: string) {
    o.name.Some? && c == "to-" + Slug.Join(Slug.Words(o.name.value))
  }

  lemma NameClassIsWords(v: Visit, c: string)
    ensures c in NameClass(v) <==> IsNameClass(v.trip.options, c)
  {
    if v.trip.options.name.Some? {
      Slug.ClassifyFallsBackIff(v.trip.options.name.value, "");
    }
  }

  /** A visit that starts is marked as a history visit if it is one, and by its named animation. */
  lemma StartMarks(cfg: Settings, s: World, i: nat, c: string)
    requires s.WellFormed() && Enabled(s, Start(i))
    ensures var v, r := s.visits[i], Next(cfg, s, Start(i));
      c in r.classes <==>
        c in s.classes || (v.trip.popstate && c == "is-popstate") || IsNameClass(v.trip.options, c)
  {
    NameClassIsWords(s.visits[i], c);
  }

  /** Out and in animation and the end of a live visit: what they add and what they remove. */
  lemma StepMarks(cfg: Settings, s: World, i: nat, c: string)
    requires s.WellFormed() && Enabled(s, Step(i)) && !s.visits[i].Done()
    ensures var v, r := s.visits[i], Next(cfg, s, Step(i));
      && (v.pc.OutStart? ==>
            (c in r.classes <==> c in s.classes || c == "is-changing" || c == "is-animating" || c == "is-leaving"))
      && (v.pc.InStart? ==> (c in r.classes <==> c in s.classes && c != "is-animating"))
      && (v.pc.Ending? ==> (c in r.classes <==> c in s.classes && !IsSwupClass(c)))
      && (!v.pc.OutStart? && !v.pc.InStart? && !v.pc.Ending? && !v.pc.Replacing? && !v.pc.Closing? ==>
            r.classes == s.classes)
  {}

  /** The content of a live visit is replaced by its document, and the page is marked for an animated one. */
  lemma RenderShowsDocument(cfg: Settings, s: World, i: nat, c: string)
    requires s.WellFormed() && Enabled(s, Step(i)) && s.visits[i].pc.Replacing? && !s.visits[i].Done()
    requires s.visits[i].document.Some?
    ensures var v, r := s.visits[i], Next(cfg, s, Step(i));
      && r.displayed == v.document && r.rendered == s.rendered + [i]
      && r.session == s.session && r.location == s.location
      && (c in r.classes <==>
            || (c in s.classes && c != "is-leaving")
            || (v.trip.options.animate &&
                  (c == "is-rendering" || c == "is-changing" || c == "is-animating" || IsNameClass(v.trip.options, c))))
  {
    NameClassIsWords(s.visits[i], c);
  }

  /** A visit that is done shows and marks nothing any more. */
  lemma DoneVisitShowsNothing(cfg: Settings, s: World, i: nat)
    requires s.WellFormed() && Enabled(s, Step(i)) && s.visits[i].Done() && !s.visits[i].pc.Closing?
    ensures var r := Next(cfg, s, Step(i));
      r == s.(visits := s.visits[i := r.visits[i]]) && r.visits[i].Done()
  {}

  // ---- Loading and entering ----

  /** The page arrives: it is kept, with its document, and the visit is at least LOADED. */
  lemma ArrivalIsKept(cfg: Settings, s: World, i: nat, page: Page)
    requires s.WellFormed() && Enabled(s, Arrive(i, page))
    ensures var v, r := s.visits[i], Next(cfg, s, Arrive(i, page));
      && r == s.(visits := s.visits[i := r.visits[i]])
      && r.visits[i].load == Loaded(page) && r.visits[i].document == Some(page.html)
      && r.visits[i].pc == v.pc && r.visits[i].to == v.to
      && r.visits[i].state == (if v.state < LOADED then LOADED else v.state)
  {}

  /** LEAVING and LOADED may come in either order: leaving first or loading first makes no difference. */
  lemma LoadingCommutes(cfg: Settings, s: World, i: nat, page: Page)
    requires s.WellFormed() && Enabled(s, Step(i)) && Enabled(s, Arrive(i, page))
    requires !s.visits[i].Done() && !Entered(s.visits[i].pc)
    ensures Enabled(Next(cfg, s, Step(i)), Arrive(i, page)) && Enabled(Next(cfg, s, Arrive(i, page)), Step(i))
    ensures Next(cfg, Next(cfg, s, Step(i)), Arrive(i, page)) == Next(cfg, Next(cfg, s, Arrive(i, page)), Step(i))
  {
    var v := s.visits[i];
    var w := Next(cfg, s, Step(i)).visits[i];
    var x := Next(cfg, s, Arrive(i, page)).visits[i];
    assert Next(cfg, s, Step(i)).visits == s.visits[i := w];
    assert Next(cfg, s, Arrive(i, page)).visits == s.visits[i := x];
    assert s.visits[i := w][i := Walked(x)] == s.visits[i := x][i := Walked(x)];
  }

  /**
   * A live visit enters: if its page comes from another url than the address bar resolves to, the record,
   * swup's location and the target of the visit follow it; otherwise all three stay.
   */
  lemma EnterFollowsRedirectIff(cfg: Settings, s: World, i: nat)
    requires s.WellFormed() && Enabled(s, Step(i)) && s.visits[i].pc.NeedPage? && !s.visits[i].Done()
    ensures s.visits[i].load.Loaded?
    ensures var v, r := s.visits[i], Next(cfg, s, Step(i));
      var there, here := v.load.page.url, s.session.Address().url;
      && r.visits[i].pc.Replacing? && r.visits[i].state == (if v.state < ENTERING then ENTERING else v.state)
      && r.displayed == s.displayed && r.classes == s.classes
      && (ResolveUrl(cfg.resolver, there) == ResolveUrl(cfg.resolver, here) ==>
            r.session == s.session && r.location == s.location && r.visits[i].to == v.to)
      && (ResolveUrl(cfg.resolver, there) != ResolveUrl(cfg.resolver, here) ==>
            && Rewrites(s.session, r.session, Location(there, ""))
            && r.location == Location(there, "") && r.visits[i].to == Location(there, ""))
  {
    UpdateKeepsRecords(s.session, Location(s.visits[i].load.page.url, ""));
  }

  // ---- Ending and taking over ----

  /** The new current visit is at 'visit:start'; classes are cleared for one that is not animated. */
  ghost predicate TakesOver(classes: set<string>, r: World, i: nat, options: Options) {
    && i < |r.visits| && r.current == i && r.navigating && r.visits[i].pc.Starting?
    && forall c :: c in r.classes <==> c in classes && (options.animate || !IsSwupClass(c))
  }

  /** The end of a visit: it has completed and forgets its document; the queued visit takes over, if any. */
  lemma EndHandsOver(cfg: Settings, s: World, i: nat)
    requires Inv(s) && Enabled(s, Step(i)) && s.visits[i].pc.Closing?
    ensures var r := Next(cfg, s, Step(i));
      && r.visits[i].state == COMPLETED && r.visits[i].pc.Finished? && r.visits[i].document.None?
      && r.queue.None? && r.session == s.session && r.location == s.location && r.displayed == s.displayed
      && match s.queue
         case None => !r.navigating && r.classes == s.classes && r.current == i
         case Some(q) =>
           && TakesOver(s.classes, r, q, s.visits[q].trip.options)
           && r.visits[q].trip == s.visits[q].trip && r.visits[q].to == s.visits[q].to
  {}

  /** 'visit:abort' returns: the current visit is aborted and loses its document, the new one takes over. */
  lemma AbortHandsOver(cfg: Settings, s: World, i: nat)
    requires Inv(s) && Enabled(s, Resume(i))
    ensures var r := Next(cfg, s, Resume(i));
      && r.visits[s.current].state == ABORTED && r.visits[s.current].document.None?
      && r.visits[s.current].pc == s.visits[s.current].pc
      && TakesOver(s.classes, r, i, s.visits[i].trip.options)
      && r.queue == s.queue && r.session == s.session && r.location == s.location && r.displayed == s.displayed
  {}

  /** A failure ends the visit: aborted, or failed with its own url as the place to go. */
  lemma FailureEnds(cfg: Settings, s: World, i: nat, hard: bool)
    requires s.WellFormed() && Enabled(s, Fail(i, hard))
    ensures var v, r := s.visits[i], Next(cfg, s, Fail(i, hard));
      && r == s.(visits := s.visits[i := r.visits[i]], reload := r.reload)
      && r.visits[i].pc.Exited? && r.visits[i].document.None?
      && r.visits[i].state == (if hard then FAILED else ABORTED)
      && r.reload == (if hard then Some(v.to) else None)
  {}
}
