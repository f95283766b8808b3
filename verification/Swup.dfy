// The running instance: the objects of src/modules/Visit.ts and src/Swup.ts, updated in place by the
// code between two awaits. Every method is proved against the step of `Protocol` of the same name.
module Instance {
  import opened Wrappers
  import opened Urls
  import opened Visits
  import opened Histories
  import opened ClassNames
  import P = Protocol
  import Outcomes
  import Runs
  import Slug

  /** A visit object; `pc` stands for the continuation that the runtime keeps for it. */
  class Visit {
    const trip: P.Trip
    var to: Location
    var state: VisitState
    var pc: P.Pc
    var load: P.Load
    var document: Option<string>

    constructor (trip: P.Trip)
      ensures Value() == P.NewVisit(trip, CREATED, P.Starting)
    {
      this.trip := trip;
      to := trip.to;
      state := CREATED;
      pc := P.Starting;
      load := P.Unrequested;
      document := None;
    }

    function Value(): P.Visit
      reads this
    {
      P.Visit(trip, to, state, pc, load, document)
    }

    predicate Done()
      reads this
    {
      IsDone(state)
    }

    /** Never moves a visit backwards, and never brings one back that is done. */
    method Advance(target: VisitState)
      modifies this`state
      ensures state == Advanced(old(state), target)
      ensures state >= old(state) && state >= target
      ensures IsDone(old(state)) && !IsDone(target) ==> state == old(state)
    {
      if state < target {
        state := target;
      }
    }

    method Abort()
      modifies this`state
      ensures state == ABORTED && Done()
    {
      state := ABORTED;
    }

    /** Returns from `performNavigation`; `finally` deletes the document. */
    method Leave()
      modifies this`pc, this`document
      ensures Value() == P.Left(old(Value()))
    {
      pc := P.Exited;
      document := None;
    }

    /** From one await to the next inside the transition. */
    method Walk()
      requires P.Walks(pc)
      modifies this
      ensures Value() == P.Walked(old(Value()))
    {
      match pc
      case AwaitingPage => if Done() { Leave(); } else { pc := P.Transition; }
      case Transition =>
        if Done() {
          pc := P.Transited;
        } else if !trip.options.animate {
          pc := P.Skipping;
        } else {
          Advance(LEAVING);
          pc := P.OutStart;
        }
      case Skipping => pc := P.NeedPage;
      case OutStart => pc := P.OutAwait;
      case OutAwait => pc := P.OutEnd;
      case OutEnd => pc := P.NeedPage;
      case Scrolling => pc := P.Viewing;
      case Viewing => pc := if trip.options.animate && !Done() then P.InAwait else P.Transited;
      case InAwait => pc := P.InStart;
      case InStart => pc := P.InEnd;
      case InEnd => pc := P.Transited;
      case Transited => if Done() { Leave(); } else { pc := P.Ending; }
      case Ending => pc := P.Closing;
    }
  }

  /** How a link was clicked; `ignored` is the answer of `shouldIgnoreVisit`. */
  datatype Gesture = Gesture(ignored: bool, modified: bool, leftButton: bool) {
    predicate Plain() { !ignored && !modified && leftButton }
  }

  class Swup {
    const cfg: P.Settings
    const history: BrowserHistory
    const classes: Classes
    var navigating: bool
    var visit: Visit
    var onVisitEnd: Visit?
    var location: Location
    var currentHistoryIndex: int
    var displayed: Option<string>
    // Where the exchanged `skipPopStateHandling` sends the browser.
    var reload: Option<Location>
    // The runtime's side: every visit so far in the order of the requests, each with its continuation.
    var visits: seq<Visit>
    // Where the two fields point into it, and what happened to the page.
    ghost var current: nat
    ghost var queued: Option<nat>
    ghost var rendered: seq<nat>

    ghost predicate Valid()
      reads this, history
    {
      && history.Valid()
      && (forall i, j | 0 <= i < j < |visits| :: visits[i] != visits[j])
      && current < |visits| && visits[current] == visit
      && match queued
         case None => onVisitEnd == null
         case Some(q) => q < |visits| && visits[q] == onVisitEnd
    }

    ghost function Values(): (r: seq<P.Visit>)
      reads this, visits
      ensures |r| == |visits|
    {
      seq(|visits|, i requires 0 <= i < |visits| reads this, visits => visits[i].Value())
    }

    /** The state of the protocol that this instance is in. */
    ghost function World(): (r: P.World)
      requires Valid()
      reads this, history, classes, visits
      ensures r.WellFormed()
    {
      P.World(Values(), navigating, current, queued, location,
              Session(history.entries, history.cursor, currentHistoryIndex),
              classes.names, displayed, rendered, reload)
    }

    /** `v` is the visit with number `i`. */
    ghost predicate Is(v: Visit, i: nat)
      reads this
    {
      i < |visits| && visits[i] == v
    }

    /**
     * A new instance on a page: `visit` is a placeholder that is never performed. The index is restored
     * from the current record, or starts at 1 and is stored there.
     */
    constructor (cfg: P.Settings, history: BrowserHistory, html: Classes)
      requires history.Valid()
      modifies history
      ensures Valid() && fresh(visit) && this.cfg == cfg && this.history == history && classes == html
      ensures World().session == Rebooted(Session(old(history.entries), old(history.cursor), 0))
      ensures html.names == old(html.names)
      ensures Unmarked(html.names) ==> P.Initial(World())
    {
      this.cfg := cfg;
      this.history := history;
      this.classes := html;
      navigating := false;
      var trip := P.Trip(Location("", ""), false, None, P.Options(true, false, false, None));
      var placeholder := new Visit(trip);
      placeholder.pc := P.Idle;
      visit := placeholder;
      onVisitEnd := null;
      location := history.entries[history.cursor].address;
      currentHistoryIndex := history.entries[history.cursor].IndexOr(1);
      displayed := None;
      visits := [placeholder];
      current := 0;
      queued := None;
      rendered := [];
      reload := None;
      new;
      if !history.entries[history.cursor].ours {
        history.StoreIndex(currentHistoryIndex);
      }
      assert Values() == [visit.Value()];
    }

    // ---- performNavigation, from one await to the next ----

    /** From `navigating = true` to 'visit:start'. */
    method Begin(v: Visit, ghost i: nat)
      requires Valid() && Is(v, i)
      modifies this`navigating, this`visit, this`current, v`pc, classes
      ensures Valid() && visits == old(visits)
      ensures World() == P.Begin(old(World()), i)
    {
      navigating := true;
      visit := v;
      current := i;
      if !v.trip.options.animate {
        classes.Clear();
      }
      v.pc := P.Starting;
      assert Values() == old(Values())[i := v.Value()];
    }

    /** Appends a visit that waits in the given place. */
    method Admit(trip: P.Trip, state: VisitState, pc: P.Pc) returns (v: Visit)
      requires Valid()
      modifies this`visits
      ensures Valid() && fresh(v) && visits == old(visits) + [v]
      ensures World() == old(World()).(visits := old(Values()) + [P.NewVisit(trip, state, pc)])
      ensures classes.names == old(classes.names)
    {
      v := new Visit(trip);
      v.state := state;
      v.pc := pc;
      visits := visits + [v];
      assert Values() == old(Values()) + [v.Value()];
    }

    /** Queue the visit, abort the running one, or begin. */
    method PerformNavigation(trip: P.Trip) returns (v: Visit)
      requires Valid()
      modifies this, classes
      ensures Valid() && fresh(v) && visits == old(visits) + [v]
      ensures World() == P.PerformNavigation(old(World()), trip)
    {
      ghost var n := |visits|;
      if navigating {
        if visit.state >= ENTERING {
          v := Admit(trip, QUEUED, P.Queued);
          onVisitEnd := v;
          queued := Some(n);
        } else {
          v := Admit(trip, CREATED, P.Aborting);
        }
      } else {
        v := Admit(trip, CREATED, P.Starting);
        Begin(v, n);
      }
    }

    /** 'visit:abort' has returned. */
    method AfterAbortHook(v: Visit, ghost i: nat)
      requires Valid() && Is(v, i)
      modifies this`navigating, this`visit, this`current, visit`document, visit`state, v`pc, classes
      ensures Valid() && visits == old(visits)
      ensures World() == P.Resumed(old(World()), i)
    {
      visit.document := None;
      visit.Abort();
      assert Values() == old(Values())[current := visit.Value()];
      Begin(v, i);
    }

    /** Push or replace the history record, unless the browser has already moved. */
    method WriteRecord(v: Visit)
      requires Valid()
      modifies this`currentHistoryIndex, this`location, history
      ensures Valid() && World() == old(World()).(session := World().session, location := v.to)
      ensures World().session ==
        if v.trip.popstate then old(World()).session
        else if v.trip.options.replace || v.to.url == old(location).url then Update(old(World()).session, v.to)
        else Push(old(World()).session, v.to)
    {
      var newUrl := v.to;
      if !v.trip.popstate {
        if v.trip.options.replace || v.to.url == location.url {
          history.UpdateHistoryRecord(newUrl);
        } else {
          currentHistoryIndex := currentHistoryIndex + 1;
          history.CreateHistoryRecord(newUrl, currentHistoryIndex);
        }
      }
      location := newUrl;
      assert Values() == old(Values());
    }

    method AddNameClass(v: Visit)
      modifies classes
      ensures classes.names == old(classes.names) + P.NameClass(v.Value())
    {
      if v.trip.options.name.Some? {
        classes.Add(["to-" + Slug.Classify(v.trip.options.name.value, "")]);
      }
    }

    method MarkTransition(v: Visit)
      modifies classes
      ensures classes.names == old(classes.names) + P.TransitionClasses(v.Value())
    {
      if v.trip.popstate {
        classes.Add(["is-popstate"]);
      }
      AddNameClass(v);
    }

    /** 'visit:start' has returned. */
    method AfterStartHook(v: Visit, ghost i: nat)
      requires Valid() && Is(v, i)
      modifies this`currentHistoryIndex, this`location, v, history, classes
      ensures Valid() && visits == old(visits)
      ensures World() == P.Started(old(World()), i)
    {
      WriteRecord(v);
      MarkTransition(v);
      v.state := STARTED;
      v.load := P.Pending;
      v.pc := if v.trip.options.wait then P.AwaitingPage else P.Transition;
      assert Values() == old(Values())[i := v.Value()];
    }

    /** The callback of `page.then`. */
    method PageArrived(v: Visit, ghost i: nat, page: P.Page)
      requires Valid() && Is(v, i)
      modifies v
      ensures Valid() && visits == old(visits)
      ensures World() == P.Arrived(old(World()), i, page)
    {
      v.Advance(LOADED);
      v.load := P.Loaded(page);
      v.document := Some(page.html);
      assert Values() == old(Values())[i := v.Value()];
    }

    /** Run what is queued, then forget it. */
    method RunQueued()
      requires Valid() && onVisitEnd != null
      modifies this`navigating, this`visit, this`current, this`onVisitEnd, this`queued, onVisitEnd`pc, classes
      ensures Valid() && visits == old(visits)
      ensures World() == P.Begin(old(World()), old(queued).value).(queue := None)
    {
      Begin(onVisitEnd, queued.value);
      onVisitEnd := null;
      queued := None;
      assert Values() == P.Begin(old(World()), old(queued).value).visits;
    }

    /** 'visit:end' has returned. */
    method AfterEndHook(v: Visit, ghost i: nat)
      requires Valid() && Is(v, i)
      modifies this`navigating, this`visit, this`current, this`onVisitEnd, this`queued, v, onVisitEnd, classes
      ensures Valid() && visits == old(visits)
      ensures World() == P.Closed(old(World()), i)
    {
      v.state := COMPLETED;
      navigating := false;
      v.pc := P.Finished;
      v.document := None;
      assert Values() == old(Values())[i := v.Value()];
      if onVisitEnd != null {
        RunQueued();
      }
    }

    /** The `catch` and `finally` blocks. */
    method Fail(v: Visit, ghost i: nat, hard: bool)
      requires Valid() && Is(v, i)
      modifies this`reload, v
      ensures Valid() && visits == old(visits)
      ensures World() == P.Failed(old(World()), i, hard)
    {
      if hard {
        v.state := FAILED;
        reload := Some(v.to);
      } else {
        v.state := ABORTED;
      }
      v.pc := P.Exited;
      v.document := None;
      assert Values() == old(Values())[i := v.Value()];
    }

    // ---- renderPage ----

    method RenderPage(v: Visit, ghost i: nat)
      requires Valid() && Is(v, i) && (v.load.Loaded? || v.Done())
      modifies this`location, v, history
      ensures Valid() && visits == old(visits)
      ensures World() == P.EnterPage(cfg, old(World()), i)
    {
      if v.Done() {
        v.pc := P.Transited;
      } else {
        v.Advance(ENTERING);
        var url := v.load.page.url;
        if !SameResolvedUrl(cfg.resolver, history.Address().url, url) {
          history.UpdateHistoryRecord(Location(url, ""));
          location := Location(url, "");
          v.to := location;
        }
        v.pc := P.Replacing;
      }
      assert Values() == old(Values())[i := v.Value()];
    }

    method MarkBefore(v: Visit)
      modifies classes
      ensures classes.names == P.Readied(v.Value(), old(classes.names))
    {
      classes.Remove(["is-leaving"]);
      if v.trip.options.animate {
        classes.Add(["is-rendering"]);
      }
    }

    method MarkAfter(v: Visit)
      modifies classes
      ensures classes.names == P.Remarked(v.Value(), old(classes.names))
    {
      if v.trip.options.animate {
        classes.Add(["is-changing", "is-animating", "is-rendering"]);
        AddNameClass(v);
      }
    }

    /** 'content:replace' has come to its default handler. */
    method ReplaceContent(v: Visit, ghost i: nat)
      requires Valid() && Is(v, i)
      modifies this`displayed, this`rendered, this`reload, v, classes
      ensures Valid() && visits == old(visits)
      ensures World() == P.ReplaceContent(old(World()), i)
    {
      if v.Done() {
        v.pc := P.Scrolling;
      } else {
        MarkBefore(v);
        if v.document.None? {
          Fail(v, i, true);
          return;
        }
        displayed := v.document;
        rendered := rendered + [i];
        MarkAfter(v);
        v.pc := P.Scrolling;
      }
      assert Values() == old(Values())[i := v.Value()];
    }

    // ---- animatePageOut, animatePageIn and the rest of the transition ----

    method MarkStep(v: Visit)
      modifies classes
      ensures classes.names == P.Marked(v.Value(), old(classes.names))
    {
      if !v.Done() {
        match v.pc
        case OutStart => classes.Add(["is-changing", "is-animating", "is-leaving"]);
        case InStart => classes.Remove(["is-animating"]);
        case Ending => classes.Clear();
        case _ =>
      }
    }

    /** The steps of a visit that concern only itself and the class list. */
    method Walk(v: Visit, ghost i: nat)
      requires Valid() && Is(v, i) && P.Walks(v.pc) && P.CanStep(v.Value())
      modifies v, classes
      ensures Valid() && visits == old(visits)
      ensures World() == P.Stepped(cfg, old(World()), i)
    {
      MarkStep(v);
      v.Walk();
      assert Values() == old(Values())[i := v.Value()];
    }

    // ---- Event handlers of src/Swup.ts ----

    method HandleLinkClick(to: Location, options: P.Options, gesture: Gesture)
      requires Valid()
      modifies this, history, classes
      ensures Valid() && forall v | v in visits :: v in old(visits) || fresh(v)
      ensures World() ==
        if gesture.Plain() then P.Handled(P.OnClick(cfg, old(World()), to, options)) else old(World())
    {
      if gesture.ignored {
        return;
      }
      if navigating && to.url == visit.to.url {
        return;
      }
      if gesture.modified || !gesture.leftButton {
        return;
      }
      if to.url == location.url {
        if to.hash == "" && cfg.navigateToSelf {
          var _ := PerformNavigation(P.Trip(to, false, None, options));
        } else {
          history.UpdateHistoryRecord(to);
          assert Values() == old(Values());
        }
      } else if !SameResolvedUrl(cfg.resolver, to.url, location.url) {
        var _ := PerformNavigation(P.Trip(to, false, None, options));
      }
    }

    /** The browser has moved by `delta`; `skip` is the answer of `skipPopStateHandling`. */
    method HandlePopState(delta: int, wait: bool, skip: bool)
      requires Valid() && 0 <= history.cursor + delta < |history.entries|
      modifies this, history, classes
      ensures Valid() && forall v | v in visits :: v in old(visits) || fresh(v)
      ensures World() ==
        if skip then old(World()).(session := Moved(old(World()).session, delta))
        else P.Handled(P.OnTraverse(cfg, old(World()), delta, wait))
    {
      hide P.PerformNavigation;
      history.Go(delta);
      assert Values() == old(Values());
      assert World() == old(World()).(session := Moved(old(World()).session, delta));
      if skip {
        return;
      }
      if !SameResolvedUrl(cfg.resolver, history.Address().url, location.url) {
        var direction := FollowIndex();
        var options := P.Options(cfg.animateHistory, wait, false, None);
        var _ := PerformNavigation(P.Trip(history.Address(), true, direction, options));
      }
    }

    /** Compare the index in the record's state with the current one, and take it over. */
    method FollowIndex() returns (direction: Option<Direction>)
      requires Valid()
      modifies this`currentHistoryIndex
      ensures Valid() && direction == DirectionOf(old(World()).session)
      ensures World() == old(World()).(session := Followed(old(World()).session))
    {
      direction := None;
      var index := history.entries[history.cursor].IndexOr(0);
      if index != 0 && index != currentHistoryIndex {
        direction := Some(if index - currentHistoryIndex > 0 then Forwards else Backwards);
        currentHistoryIndex := index;
      }
      assert Values() == old(Values());
    }

    // ---- The event loop ----

    /** `page:load` has passed over its handlers for a visit that is done. */
    method PageDropped(v: Visit, ghost i: nat)
      requires Valid() && Is(v, i)
      modifies v
      ensures Valid() && visits == old(visits)
      ensures World() == P.Dropped(old(World()), i)
    {
      v.load := P.Skipped;
      assert Values() == old(Values())[i := v.Value()];
    }

    /** A handler calls `visit.abort()`. */
    method AbortVisit(v: Visit, ghost i: nat)
      requires Valid() && Is(v, i)
      modifies v
      ensures Valid() && visits == old(visits)
      ensures World() == old(World()).Put(i, old(World()).visits[i].(state := ABORTED))
    {
      v.Abort();
      assert Values() == old(Values())[i := v.Value()];
    }

    /** A visit resumes where it awaits something inside the `try` block. */
    method Step(v: Visit, ghost i: nat)
      requires Valid() && Is(v, i) && P.CanStep(v.Value())
      modifies this, history, classes, visits
      ensures Valid() && visits == old(visits)
      ensures World() == P.Stepped(cfg, old(World()), i)
    {
      if v.pc.NeedPage? {
        RenderPage(v, i);
      } else if v.pc.Replacing? {
        ReplaceContent(v, i);
      } else if v.pc.Closing? {
        AfterEndHook(v, i);
      } else {
        Walk(v, i);
      }
    }

    /** Whatever happens next: the instance goes from one state of the protocol to the next. */
    method Handle(e: P.Event)
      requires Valid() && P.Enabled(World(), e)
      modifies this, history, classes, set v | v in visits
      ensures Valid() && forall v | v in visits :: v in old(visits) || fresh(v)
      ensures World() == P.Next(cfg, old(World()), e)
    {
      match e
      case Navigate(to, options) => var _ := PerformNavigation(P.Trip(to, false, None, options));
      case Click(to, options) => HandleLinkClick(to, options, Gesture(false, false, true));
      case Traverse(delta, wait) => HandlePopState(delta, wait, false);
      case Abort(i) => AbortVisit(visits[i], i);
      case Resume(i) => AfterAbortHook(visits[i], i);
      case Start(i) => AfterStartHook(visits[i], i);
      case Arrive(i, page) => PageArrived(visits[i], i, page);
      case Drop(i) => PageDropped(visits[i], i);
      case Step(i) => Step(visits[i], i);
      case Fail(i, hard) => Fail(visits[i], i, hard);
    }

    /**
     * Any calm sequence of events. For a fresh instance the last request wins: whenever nothing navigates
     * after at least one request, the visit requested last is the current one and the page shows its html,
     * unless a failed visit then sends the browser elsewhere.
     */
    method Run(es: seq<P.Event>)
      requires Valid() && Runs.IsRun(cfg, Runs.CalmRuns, World(), es)
      modifies this, history, classes, set v | v in visits
      ensures Valid() && World() == Runs.Final(cfg, Runs.CalmRuns, old(World()), es)
      ensures P.Initial(old(World())) && !navigating && |visits| > 1 ==>
                && visit == visits[|visits| - 1] && visit.pc.Finished?
                && visit.load.Loaded? && displayed == Some(visit.load.page.html)
    {
      for k := 0 to |es|
        invariant Valid() && forall v | v in visits :: v in old(visits) || fresh(v)
        invariant Runs.IsRun(cfg, Runs.CalmRuns, World(), es[k..])
        invariant Runs.Final(cfg, Runs.CalmRuns, World(), es[k..])
               == Runs.Final(cfg, Runs.CalmRuns, old(World()), es)
      {
        assert es[k..][0] == es[k] && es[k..][1..] == es[k + 1..];
        Handle(es[k]);
      }
      assert es[|es|..] == [];
      if P.Initial(old(World())) && !navigating && |visits| > 1 {
        assert Runs.Reaches(cfg, Runs.CalmRuns, old(World()), es, World());
        Outcomes.LastRequestWins(cfg, World());
        assert World().visits[current] == visit.Value() && current == |visits| - 1;
      }
    }
  }
}
