// The navigation protocol: src/modules/navigate.ts, src/modules/renderPage.ts,
// src/modules/animatePageOut.ts, src/modules/animatePageIn.ts and the event handlers of src/Swup.ts,
// as a state machine. A visit is a process; each `await` ends one step.
module Protocol {
  import opened Wrappers
  import opened Urls
  import opened Visits
  import opened Histories
  import opened ClassNames
  import Slug

  datatype Page = Page(url: string, html: string)

  /** The promise returned by the `page:load` hook; `Skipped` resolves without a page. */
  datatype Load = Unrequested | Pending | Loaded(page: Page) | Skipped

  /** Where a visit waits. */
  datatype Pc =
    | Idle          // the placeholder visit of the constructor
    | Queued        // held by `onVisitEnd`
    | Aborting      // in `await hooks.call('visit:abort', this.visit)`
    | Starting      // in `await hooks.call('visit:start')`
    | AwaitingPage  // `animation.wait`: in `await page`
    | Transition    // 'visit:transition', before its default handler
    | Skipping      // 'animation:skip'
    | OutStart      // 'animation:out:start', before its default handler
    | OutAwait      // 'animation:out:await'
    | OutEnd        // 'animation:out:end'
    | NeedPage      // in `await page`, then `renderPage`
    | Replacing     // 'content:replace', before its default handler
    | Scrolling     // 'content:scroll'
    | Viewing       // 'page:view'
    | InAwait       // `nextTick` of `animatePageIn`
    | InStart       // 'animation:in:start', before its default handler
    | InEnd         // `await animation`, 'animation:in:end'
    | Transited     // 'visit:transition' returns
    | Ending        // 'visit:end', before its default handler
    | Closing       // 'visit:end' returns
    | Finished      // completed
    | Exited        // returned early or failed

  /** Options of one request. */
  datatype Options = Options(animate: bool, wait: bool, replace: bool, name: Option<string>)

  /** What a visit is asked to do; fixed when it is created. */
  datatype Trip = Trip(to: Location, popstate: bool, direction: Option<Direction>, options: Options)

  /** `to` follows redirects; `document` is the parsed html, deleted when the visit is over. */
  datatype Visit = Visit(trip: Trip, to: Location, state: VisitState, pc: Pc, load: Load,
                         document: Option<string>)
  {
    predicate Done() { IsDone(state) }
  }

  datatype Settings = Settings(resolver: Resolver, navigateToSelf: bool, animateHistory: bool)

  /**
   * Visits are kept in the order in which they reach `performNavigation`; number 0 is the
   * placeholder. `rendered` records whose content was put on the page, oldest first.
   */
  datatype World = World(
    visits: seq<Visit>,
    navigating: bool,
    current: nat,
    queue: Option<nat>,
    location: Location,
    session: Session,
    classes: set<string>,
    displayed: Option<string>,
    rendered: seq<nat>,
    reload: Option<Location>)
  {
    predicate WellFormed() {
      && current < |visits|
      && (queue.Some? ==> queue.value < |visits|)
      && session.WellFormed()
    }

    /** A visit has failed and the browser goes to its url by itself. */
    predicate Crashed() {
      reload.Some?
    }

    function Last(): nat
      requires WellFormed()
    {
      |visits| - 1
    }

    function Current(): Visit
      requires WellFormed()
    {
      visits[current]
    }

    function Put(i: nat, v: Visit): (r: World)
      requires WellFormed() && i < |visits|
      ensures r.WellFormed()
    {
      this.(visits := visits[i := v])
    }
  }

  /** Inside the `try` block of `performNavigation`, past 'visit:start'. */
  predicate InTry(pc: Pc) {
    !(pc.Idle? || pc.Queued? || pc.Aborting? || pc.Starting? || pc.Finished? || pc.Exited?)
  }

  /** `renderPage` has passed its done check. */
  predicate Entered(pc: Pc) {
    || pc.Replacing? || pc.Scrolling? || pc.Viewing? || pc.InAwait? || pc.InStart? || pc.InEnd?
    || pc.Transited? || pc.Ending? || pc.Closing?
  }

  /** The step from here concerns the visit and the class list alone. */
  predicate Walks(pc: Pc) {
    InTry(pc) && !pc.NeedPage? && !pc.Replacing? && !pc.Closing?
  }

  // ---- Requests ----

  /** The synchronous part of `performNavigation` from `navigating = true` to 'visit:start'. */
  function Begin(s: World, i: nat): (r: World)
    requires s.WellFormed() && i < |s.visits|
    ensures r.WellFormed()
  {
    var v := s.visits[i];
    s.Put(i, v.(pc := Starting)).(
      navigating := true,
      current := i,
      classes := if v.trip.options.animate then s.classes else Foreign(s.classes))
  }

  function NewVisit(trip: Trip, state: VisitState, pc: Pc): Visit {
    Visit(trip, trip.to, state, pc, Unrequested, None)
  }

  /** `performNavigation` up to its first `await`: queue, abort the running visit, or begin. */
  function PerformNavigation(s: World, trip: Trip): (r: World)
    requires s.WellFormed()
    ensures r.WellFormed()
  {
    var n := |s.visits|;
    if s.navigating then
      if s.Current().state >= ENTERING then
        s.(visits := s.visits + [NewVisit(trip, QUEUED, Queued)], queue := Some(n))
      else
        s.(visits := s.visits + [NewVisit(trip, CREATED, Aborting)])
    else
      Begin(s.(visits := s.visits + [NewVisit(trip, CREATED, Starting)]), n)
  }

  /** 'visit:abort' returns: whichever visit is current by now is aborted. */
  function Resumed(s: World, i: nat): (r: World)
    requires s.WellFormed() && i < |s.visits|
    ensures r.WellFormed()
  {
    var a := s.Current();
    Begin(s.Put(s.current, a.(document := None, state := ABORTED)), i)
  }

  // ---- Steps of one visit ----

  function TransitionClasses(v: Visit): set<string> {
    (if v.trip.popstate then {"is-popstate"} else {}) + NameClass(v)
  }

  function NameClass(v: Visit): set<string> {
    match v.trip.options.name
    case None => {}
    case Some(name) => {"to-" + Slug.Classify(name, "")}
  }

  /** 'visit:start' returns: begin loading, write the history record, mark the visit. */
  function Started(s: World, i: nat): (r: World)
    requires s.WellFormed() && i < |s.visits|
    ensures r.WellFormed()
  {
    var v := s.visits[i];
    var pc := if v.trip.options.wait then AwaitingPage else Transition;
    s.Put(i, v.(state := STARTED, load := Pending, pc := pc)).(
      session :=
        if v.trip.popstate then s.session
        else if v.trip.options.replace || v.to.url == s.location.url then Update(s.session, v.to)
        else Push(s.session, v.to),
      location := v.to,
      classes := s.classes + TransitionClasses(v))
  }

  /** The page is there: `page.then` runs before anything that awaits the page. */
  function Arrived(s: World, i: nat, page: Page): (r: World)
    requires s.WellFormed() && i < |s.visits|
    ensures r.WellFormed()
  {
    var v := s.visits[i];
    s.Put(i, v.(state := Advanced(v.state, LOADED), load := Loaded(page), document := Some(page.html)))
  }

  /** The `page:load` handlers were passed over because the visit is done. */
  function Dropped(s: World, i: nat): (r: World)
    requires s.WellFormed() && i < |s.visits|
    ensures r.WellFormed()
  {
    s.Put(i, s.visits[i].(load := Skipped))
  }

  /** Leaves the `try` block; `finally` deletes the document. */
  function Left(v: Visit): Visit {
    v.(pc := Exited, document := None)
  }

  /** The `catch` block. A real error ends in a hard page load: nothing runs after that. */
  function Failed(s: World, i: nat, hard: bool): (r: World)
    requires s.WellFormed() && i < |s.visits|
    ensures r.WellFormed()
  {
    var v := s.visits[i];
    var state: VisitState := if hard then FAILED else ABORTED;
    s.Put(i, v.(state := state, pc := Exited, document := None)).(reload := if hard then Some(v.to) else s.reload)
  }

  /** `renderPage` up to 'content:replace': done check, ENTERING, redirect fix-up. */
  function EnterPage(cfg: Settings, s: World, i: nat): (r: World)
    requires s.WellFormed() && i < |s.visits| && (s.visits[i].load.Loaded? || s.visits[i].Done())
    ensures r.WellFormed()
  {
    var v := s.visits[i];
    if v.Done() then s.Put(i, v.(pc := Transited))
    else
      var entering := v.(state := Advanced(v.state, ENTERING), pc := Replacing);
      var url := v.load.page.url;
      if SameResolvedUrl(cfg.resolver, s.session.Address().url, url) then s.Put(i, entering)
      else
        var final := Location(url, "");
        s.Put(i, entering.(to := final)).(session := Update(s.session, final), location := final)
  }

  /** The classes when the content is about to be replaced, and when it has been. */
  function Readied(v: Visit, classes: set<string>): set<string> {
    classes - {"is-leaving"} + (if v.trip.options.animate then {"is-rendering"} else {})
  }

  function Remarked(v: Visit, classes: set<string>): set<string> {
    if v.trip.options.animate
    then classes + {"is-changing", "is-animating", "is-rendering"} + NameClass(v)
    else classes
  }

  /** The default handler of 'content:replace', skipped for a visit that is done. */
  function ReplaceContent(s: World, i: nat): (r: World)
    requires s.WellFormed() && i < |s.visits|
    ensures r.WellFormed()
  {
    var v := s.visits[i];
    if v.Done() then s.Put(i, v.(pc := Scrolling))
    else
      var readied := s.(classes := Readied(v, s.classes));
      if v.document.None? then Failed(readied, i, true)
      else
        readied.Put(i, v.(pc := Scrolling)).(
          displayed := v.document,
          rendered := s.rendered + [i],
          classes := Remarked(v, readied.classes))
  }

  /** 'visit:end' returns: complete, stop navigating, run the queued request. */
  function Closed(s: World, i: nat): (r: World)
    requires s.WellFormed() && i < |s.visits|
    ensures r.WellFormed()
  {
    var v := s.visits[i];
    var t := s.Put(i, v.(state := COMPLETED, pc := Finished, document := None)).(navigating := false);
    match s.queue
    case None => t
    case Some(q) => Begin(t, q).(queue := None)
  }

  /** The steps that concern the visit alone: where it goes next. */
  function Walked(v: Visit): Visit
    requires Walks(v.pc)
  {
    match v.pc
    case AwaitingPage => if v.Done() then Left(v) else v.(pc := Transition)
    case Transition =>
      if v.Done() then v.(pc := Transited)
      else if !v.trip.options.animate then v.(pc := Skipping)
      else v.(state := Advanced(v.state, LEAVING), pc := OutStart)
    case Skipping => v.(pc := NeedPage)
    case OutStart => v.(pc := OutAwait)
    case OutAwait => v.(pc := OutEnd)
    case OutEnd => v.(pc := NeedPage)
    case Scrolling => v.(pc := Viewing)
    case Viewing => if v.trip.options.animate && !v.Done() then v.(pc := InAwait) else v.(pc := Transited)
    case InAwait => v.(pc := InStart)
    case InStart => v.(pc := InEnd)
    case InEnd => v.(pc := Transited)
    case Transited => if v.Done() then Left(v) else v.(pc := Ending)
    case Ending => v.(pc := Closing)
  }

  /** The default handlers that add, remove or clear classes; a visit that is done runs none. */
  function Marked(v: Visit, classes: set<string>): set<string> {
    if v.Done() then classes
    else if v.pc.OutStart? then classes + {"is-changing", "is-animating", "is-leaving"}
    else if v.pc.InStart? then classes - {"is-animating"}
    else if v.pc.Ending? then Foreign(classes)
    else classes
  }

  /** One step of a visit inside its `try` block. */
  function Stepped(cfg: Settings, s: World, i: nat): (r: World)
    requires s.WellFormed() && i < |s.visits| && CanStep(s.visits[i])
    ensures r.WellFormed()
  {
    var v := s.visits[i];
    if v.pc.NeedPage? then EnterPage(cfg, s, i)
    else if v.pc.Replacing? then ReplaceContent(s, i)
    else if v.pc.Closing? then Closed(s, i)
    else s.Put(i, Walked(v)).(classes := Marked(v, s.classes))
  }

  /** Inside `try`, and not waiting for a page that is still loading. */
  predicate CanStep(v: Visit) {
    && InTry(v.pc)
    && (v.pc.AwaitingPage? ==> v.load.Loaded? || v.load.Skipped?)
    && (v.pc.NeedPage? ==> v.load.Loaded? || (v.load.Skipped? && v.Done()))
  }

  // ---- Events ----

  datatype Event =
    | Navigate(to: Location, options: Options)    // `swup.navigate`
    | Click(to: Location, options: Options)       // a link
    | Traverse(delta: int, wait: bool)            // back, forward, `history.go`
    | Abort(i: nat)                               // `visit.abort()` called by a handler
    | Resume(i: nat)
    | Start(i: nat)
    | Arrive(i: nat, page: Page)
    | Drop(i: nat)
    | Step(i: nat)
    | Fail(i: nat, hard: bool)

  /** What an outside event does before it may reach `performNavigation` with a trip. */
  datatype Reaction = Reaction(world: World, trip: Option<Trip>)

  /**
   * `handleLinkClick` and its default handlers, for a plain left click. A parsed url is never empty,
   * so the `!url` case does not arise.
   */
  function OnClick(cfg: Settings, s: World, to: Location, options: Options): (r: Reaction)
    requires s.WellFormed()
    ensures r.world.WellFormed()
  {
    var go := Reaction(s, Some(Trip(to, false, None, options)));
    if s.navigating && to.url == s.Current().to.url then Reaction(s, None)
    else if to.url == s.location.url then
      if to.hash == "" && cfg.navigateToSelf then go
      else Reaction(s.(session := Update(s.session, to)), None)
    else if SameResolvedUrl(cfg.resolver, to.url, s.location.url) then Reaction(s, None)
    else go
  }

  /** `handlePopState` returns before it looks at the index. */
  predicate SkipsTraversal(cfg: Settings, s: World, delta: int)
    requires s.WellFormed() && 0 <= s.session.cursor + delta < |s.session.entries|
  {
    SameResolvedUrl(cfg.resolver, Moved(s.session, delta).Address().url, s.location.url)
  }

  function OnTraverse(cfg: Settings, s: World, delta: int, wait: bool): (r: Reaction)
    requires s.WellFormed() && 0 <= s.session.cursor + delta < |s.session.entries|
    ensures r.world.WellFormed()
  {
    var moved := Moved(s.session, delta);
    if SkipsTraversal(cfg, s, delta) then Reaction(s.(session := moved), None)
    else
      var options := Options(cfg.animateHistory, wait, false, None);
      Reaction(s.(session := Followed(moved)),
               Some(Trip(moved.Address(), true, DirectionOf(moved), options)))
  }

  /** The handler goes on to `performNavigation` if there is somewhere to go. */
  function Handled(r: Reaction): (w: World)
    requires r.world.WellFormed()
    ensures w.WellFormed()
  {
    if r.trip.None? then r.world else PerformNavigation(r.world, r.trip.value)
  }

  predicate Outside(e: Event) {
    e.Navigate? || e.Click? || e.Traverse?
  }

  function React(cfg: Settings, s: World, e: Event): (r: Reaction)
    requires s.WellFormed() && Outside(e) && Enabled(s, e)
    ensures r.world.WellFormed()
  {
    match e
    case Navigate(to, options) => Reaction(s, Some(Trip(to, false, None, options)))
    case Click(to, options) => OnClick(cfg, s, to, options)
    case Traverse(delta, wait) => OnTraverse(cfg, s, delta, wait)
  }

  predicate Enabled(s: World, e: Event)
    requires s.WellFormed()
  {
    && !s.Crashed()
    && match e
       case Navigate(_, _) => true
       case Click(_, _) => true
       case Traverse(delta, _) => 0 <= s.session.cursor + delta < |s.session.entries|
       case Abort(i) => i < |s.visits|
       case Resume(i) => i < |s.visits| && s.visits[i].pc.Aborting?
       case Start(i) => i < |s.visits| && s.visits[i].pc.Starting?
       case Arrive(i, _) => i < |s.visits| && s.visits[i].load.Pending?
       case Drop(i) => i < |s.visits| && s.visits[i].load.Pending? && s.visits[i].Done()
       case Step(i) => i < |s.visits| && CanStep(s.visits[i])
       case Fail(i, _) => i < |s.visits| && InTry(s.visits[i].pc)
  }

  function Next(cfg: Settings, s: World, e: Event): (r: World)
    requires s.WellFormed() && Enabled(s, e)
    ensures r.WellFormed()
  {
    match e
    case Abort(i) => s.Put(i, s.visits[i].(state := ABORTED))
    case Resume(i) => Resumed(s, i)
    case Start(i) => Started(s, i)
    case Arrive(i, page) => Arrived(s, i, page)
    case Drop(i) => Dropped(s, i)
    case Step(i) => Stepped(cfg, s, i)
    case Fail(i, hard) => Failed(s, i, hard)
    case _ => Handled(React(cfg, s, e))
  }

  /** A fresh instance on a page: the placeholder visit was never performed. */
  ghost predicate Initial(s: World) {
    && s.visits == [NewVisit(Trip(Location("", ""), false, None, Options(true, false, false, None)), CREATED, Idle)]
    && !s.navigating && s.current == 0 && s.queue.None? && s.rendered == [] && !s.Crashed()
    && s.session.WellFormed() && s.location == s.session.Address()
    && Unmarked(s.classes)
  }
}
