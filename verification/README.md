# swup, modelled and verified in Dafny

swup replaces full page loads by page transitions. A request for a page becomes a *visit*: an
asynchronous process that starts, loads its page, animates the old content out, puts the new content
on the page, animates it in and ends. Requests may arrive at any time; a new one aborts the running
visit, or waits behind it once new content is about to be shown. Aborted visits keep running and must
have no effect. This project models that protocol, the instance object that carries it out, and the
mechanisms it rests on: the hook dispatcher, the history index, the page cache, the class list, the
slug used in class names, and the wait for CSS animations.

`dafny verify dfyconfig.toml` checks everything.

## How the protocol is modelled

`Protocol` is a state machine. A visit has a program counter with one value per `await`
(src/modules/navigate.ts, src/modules/renderPage.ts, src/modules/animatePageOut.ts,
src/modules/animatePageIn.ts); the world has all visits in the order in which they reach
`performNavigation`, the shared fields of the instance, the browser's session history, the class list
of the html element and what the page shows. Events are the requests (`navigate`, link clicks,
traversals), the return of the 'visit:abort' and 'visit:start' hooks, a page that arrives, is passed
over or fails, one step of any visit, and `visit.abort()` called by a handler. They interleave freely.

`Instance` holds the same thing as objects in the heap that are updated in place. Each method is the code
between two awaits and is proved to take the instance from one protocol state to the next; what holds
in every run is then proved about the protocol.

What single events come to is stated in terms of the next state alone, apart from the functions that compute
it: `Intents` for what is asked of swup, `Steps` for what its visits then do, `Lives` for the course of one
visit.

`Runs.Assumption` names what a result takes for granted:

* `Anything`: every interleaving of every event.
* `NoSkips`: no traversal away from a record is skipped because its url resolves to the current
  location (src/Swup.ts:340-342 returns before looking at the index).
* `CalmRuns`: no request arrives while handlers of 'visit:abort' or 'visit:start' of the newest visit
  are running, and the visit about to be aborted does not pass its last done check meanwhile. The code
  re-reads `this.visit` after one of these hooks (src/modules/navigate.ts:78-80) and sets STARTED without
  asking after the other (src/modules/navigate.ts:127). Handlers of these hooks that do not suspend and
  request nothing themselves keep every run calm, so this asks for less than atomic hooks.
  `Exclusivity.CalmIsExact` shows that it cannot be weakened, and `Revival.RevivedVisitOverwrites` shows a
  whole run in which the older of two requests wins without it.
* `TidyRuns`: calm, and no visit that is done by then takes the step at 'visit:end' while classes are set
  and nothing is queued. `Tidiness.TidyIsExact` shows that this cannot be weakened.
* `NoAborts`: calm, and no handler calls `visit.abort()`. `NoErrors`: and nothing fails.
* `NoDiversions`: calm, and the address bar does not leave the target of a history visit that has yet to
  start. Three things can do that: a skipped traversal, a link to an anchor, and the redirect fix-up of the
  visit about to be aborted. `Diversions.NotDivertingIsExact` shows that this cannot be weakened. Runs of
  links and `navigate` calls alone never divert anything (`Addresses.LinksEndToEnd`).
* `PhasedRuns`: calm, no animated visit enters while an animated one is about to abort it, and no visit that
  is done by then takes the step at 'visit:end' while the page is marked as rendering.
  `Phases.PhaseIsExact` shows that this cannot be weakened.

The default handlers of 'visit:transition', 'content:replace' and 'visit:end' are taken not to be
replaced. A load that is rejected is a step of its own: for a real error the browser is sent to the url of
that visit (`reload`) and nothing follows, also when the visit was superseded long ago.

## What the code does that one might not expect

* Superseded visits have no effect (`Superseded.SupersededHaveNoEffect`), with one exception: `await page`
  comes before the done checks (src/modules/navigate.ts:174-193), so when the load of a superseded visit
  fails with a real error the browser is taken to its url, even when the last request is complete and shown
  (`Superseded.FailureOfSupersededTakesOver`).
* A visit that fails or is aborted by a handler returns before `navigating` is cleared
  (src/modules/navigate.ts:204, src/modules/navigate.ts:216-221). From then on every request is queued or
  ignored: `Mishaps.AbortSticks` and `Progress.StuckForever`. `Progress.DrainsUnlessStopped` says exactly
  after which runs everything can still come to rest.
* A visit aborted between its last check and the end of 'visit:end' is marked completed all the same
  (src/modules/navigate.ts:208), and its classes stay: `Mishaps.AbortLeavesClasses`, with the exact
  condition in `Tidiness.TidyIsExact`.
* `visit.abort()` called by a handler of 'visit:start' does not last: the visit is set back to STARTED
  (src/modules/navigate.ts:127): `Mishaps.AbortDuringStartIsUndone`.
* A click on an anchor while the 'visit:start' handlers of a history visit are running writes the old page
  into the record of the new one (src/Swup.ts:303-305); if the page is then redirected to that address, the
  redirect goes unnoticed and `swup.location` stays wrong: `Diversions.AnchorDivertsHistoryVisit`.
* `advance` never moves a visit backwards, but the assignments of STARTED, COMPLETED and ABORTED do not
  ask: `States.StatesAdvanceIff`.
* Handler ids are `size + 1`, so after a removal a later registration can run first, although the
  documentation of `getHandlers` speaks of registration order: `Ledgers.RemovalInvertsOrder`. The order is
  kept exactly if the ids of a priority are in order (`Ledgers.RunsInOrderIff`), and by a new registration
  exactly if no id of its priority exceeds `size + 1` (`Ledgers.OnKeepsOrderIff`); a repeated id does no
  harm (`Ledgers.RepeatedIdKeepsOrder`).
* `cache.update` and `cache.prune` resolve a key that is already resolved. They do what they say exactly
  if that changes nothing: `PageCache.UpdateBuildsOnRecordIff`, `PageCache.PruneIsExactIff`.
* `fetchPage` asks the visit that is current when it is called whether to write to the cache, not the
  visit that loads the page (src/modules/fetchPage.ts:53); `Request.write` stands for that answer.

## Model

| member | source | states |
|---|---|---|
| Intents.NavigateIsHeard | src/modules/navigate.ts:32-85 | `navigate` makes exactly one visit, with the given target and options, which begins, waits in the queue or asks for an abort |
| Intents.ClickIsHeardIff | src/Swup.ts:275-327 | a click makes a visit, with the link's target and options, if and only if the link does not lead where the current visit is heading, and either leads to another resolved url or is a link to the page itself that is to be loaded again; all other clicks change at most the current record |
| Intents.TraversalIsHeardIff | src/Swup.ts:331-373 | a traversal makes a visit if and only if its record resolves to another url: a history visit to that record, animated as history visits are, with the direction of the stored index |
| Intents.TripsAreKept | src/modules/navigate.ts:71-75 | no event changes the target, the options or the kind of any visit as it was requested |
| Intents.RequestIsKept | src/modules/navigate.ts:71-75 | after any run, the visit of a `navigate` call, queued or not, still has what was asked for |
| Intents.StartGoesToTarget | src/modules/navigate.ts:153-163 | in every calm run, a visit that starts makes the target that it was asked for swup's location |
| Lives.NextMoves | src/modules/navigate.ts:65-239 | a list of everything that any event can do to any visit |
| Lives.LastsForAll | src/modules/navigate.ts:65-239 | what holds of new visits and is kept by that list holds of every visit in every calm run |
| Lives.StartBeginsScript | src/modules/navigate.ts:125-176 | a visit starts as STARTED, with its page requested, at the beginning of its script |
| Lives.LiveVisitsAreInScript | src/modules/navigate.ts:173-209 | in every calm run a live visit is at a place of the script that its options give |
| Lives.LiveStepFollowsScript | src/modules/animatePageOut.ts:8-19 | in every calm run a live visit goes from each place to the next one and leaves out, repeats and swaps nothing |
| Lives.StatesTellHowFar | src/modules/Visit.ts:80-90 | in every calm run the state of a live visit tells how far it is, and one that is to wait has its page before anything animates out |
| Steps.StartWritesHistory | src/modules/navigate.ts:153-163 | what a starting visit does to the records: nothing, a new one behind all that stay, or a new address for the current one |
| Steps.RecordsAreKept | src/helpers/history.ts:14-37 | any event keeps every record that it neither drops nor finds current, and only a push drops records |
| Steps.RunKeepsRecords | src/helpers/history.ts:14-37 | so does any run |
| Steps.BackFromVisit | src/modules/navigate.ts:158-161 | behind the record of a visit is the address from which it was requested |
| Steps.StartMarks | src/modules/navigate.ts:165-171 | exactly which classes are there when a visit has started: `is-popstate` for history visits, the words of a named animation |
| Steps.StepMarks | src/modules/animatePageOut.ts:9-11 | exactly which classes the out animation adds, the in animation removes and the end clears |
| Steps.RenderShowsDocument | src/modules/renderPage.ts:26-43 | the document of the visit is shown, and exactly which classes are there then |
| Steps.DoneVisitShowsNothing | src/modules/Hooks.ts:441 | a step of a visit that is done changes nothing but that visit |
| Steps.ArrivalIsKept | src/modules/navigate.ts:147-151 | the page, its document, at least LOADED, and nothing else |
| Steps.LoadingCommutes | src/modules/Visit.ts:154-158 | a step of a live visit before it enters and the arrival of its page come to the same in either order |
| Steps.EnterFollowsRedirectIff | src/modules/renderPage.ts:13-23 | record, location and target follow the url of the page, without a hash, if and only if it resolves differently from the address bar |
| Steps.EndHandsOver | src/modules/navigate.ts:207-215 | the visit has completed and forgets its document; nothing navigates, or the queued visit begins with its target and options |
| Steps.AbortHandsOver | src/modules/navigate.ts:78-97 | the running visit is aborted and forgets its document, the new one begins |
| Steps.FailureEnds | src/modules/navigate.ts:216-238 | aborted, or failed with the own url as the place to go; the document is forgotten |
| Exclusivity.NextInv | src/modules/navigate.ts:70-215 | every calm event keeps: one visit at a time is live, only it can reach the end, the newest request is queued, current or about to be |
| Exclusivity.CalmIsExact | src/modules/navigate.ts:76-82 | a calm event keeps the invariant and never leads to two live visits, a queue behind an abortable visit or a visit running while nothing navigates; after any other event the visits alone can bring this about |
| Runs.ExclusiveVisits | src/modules/navigate.ts:203-209 | in every calm run, begun visits other than the current one are done, only the current one can clear `navigating`, content is replaced once per visit at most and in request order |
| Runs.NewestRequestLeads | src/modules/navigate.ts:70-85 | in every calm run the newest request is the queued one if there is a queue, and otherwise current or in its 'visit:abort' hook |
| Revival.RevivedVisitOverwrites | src/modules/navigate.ts:125-127 | for any two targets and pages there is a run in which the second request comes during 'visit:start' of the first, both complete, and the page shows the first |
| Outcomes.LastRequestWins | src/modules/navigate.ts:203-214 | `CalmRuns`, so with any aborts and errors, and up to a hard reload: whenever nothing navigates after a request, the visit requested last has run to its end and the page shows its html, put there last |
| Superseded.AsideHasNoEffectIff | src/modules/navigate.ts:178-238 | an event of a visit other than the current one changes nothing but that visit, if and only if it is not a real error; then the browser goes to the url of that visit |
| Superseded.SupersededHaveNoEffect | src/modules/navigate.ts:76-82 | a calm run in which no superseded visit fails with a real error is a calm run without all events of superseded visits, with the same page, classes, location, history, queue and current visit at the end |
| Superseded.FailureOfSupersededTakesOver | src/modules/navigate.ts:174-235 | for any two requests, the first waiting for its page, there is a calm run in which the second is complete and shown and then the failing load of the first takes the browser to the first url |
| Outcomes.LastRequestCompletes | src/modules/navigate.ts:207-209 | `NoAborts`: its state is COMPLETED as well |
| Outcomes.DocumentPresent | src/modules/navigate.ts:147-151 | `CalmRuns`: the document of the visit's own page is there when 'content:replace' of a live visit reaches its default handler, whenever LEAVING and LOADED came |
| Progress.NextFalls | src/modules/navigate.ts:124-238 | each event of a visit, superseded or not, brings down one natural number for the work left |
| Progress.StepsAreBounded | src/modules/navigate.ts:124-238 | from any state of a calm run, visits take no more steps than that number before the next request |
| Progress.QuietMeansDone | src/modules/navigate.ts:203-215 | `NoErrors`: when no visit can take a step nothing navigates, nothing is queued, the classes are gone and the last request is shown |
| Progress.NextStuckIff | src/modules/navigate.ts:203-221 | a calm event makes an instance stuck if and only if it aborts the current visit before 'visit:end', or fails it, with no request about to take over |
| Progress.DrainsUnlessStuck | src/modules/navigate.ts:203-215 | from any state some steps of the visits bring everything to rest, with nothing navigating and nothing queued, if and only if the state is not stuck |
| Progress.DrainsUnlessStopped | src/modules/navigate.ts:203-221 | after any calm run everything can be brought to rest if and only if no event of the run stopped the current visit; and then every way of coming to rest does so |
| Progress.StuckForever | src/modules/navigate.ts:204 | a stopped current visit stays current in every further calm run |
| Progress.QueuedVisitIsKept | src/modules/navigate.ts:71-75 | a queued visit stays queued, unless a later request takes its place, or the current visit ends and it begins |
| Progress.RunToQuiet | src/modules/navigate.ts:124-215 | from any state of a calm run some steps of the visits lead to one where nothing is left to do |
| Progress.LastRequestCanFinish | src/modules/navigate.ts:203-215 | from every state of every clean run, steps of the visits alone lead to a state where the last request has completed and is shown |
| States.StatesAdvanceIff | src/modules/Visit.ts:154-163 | an event moves no visit backwards if and only if it is not one of the unconditional assignments hitting a visit that is further |
| States.StatesOnlyAdvance | src/modules/Visit.ts:154-158 | `NoAborts`, so with any errors: no event ever moves any visit backwards |
| Addresses.NextInStep | src/modules/navigate.ts:153-163 | every event but a skipped traversal keeps the indices consecutive and the current record's index equal to `currentHistoryIndex` |
| Addresses.TraversalDirection | src/Swup.ts:351-357 | after every run without skipped traversals from a history in step, a traversal by d changes the index by d and creates a visit that goes forwards iff d > 0 and backwards iff d < 0 |
| Addresses.DivertsIff | src/Swup.ts:299-342 | while a history visit is pending, the address bar leaves its target if and only if a traversal is skipped, an anchor is written or a redirect is taken to a url that is not equivalent |
| Addresses.NextCoherentIff | src/modules/renderPage.ts:13-23 | a calm event, aborts and errors included, keeps address bar, location and page together if and only if it is none of these |
| Addresses.EndToEnd | src/modules/renderPage.ts:13-43 | `NoDiversions`, so with any aborts and errors, and up to a hard reload: whenever idle after a request the last visit has run to its end, its html is shown, and address bar, `swup.location` and the url of the page resolve to the same url |
| Addresses.LinksEndToEnd | src/modules/renderPage.ts:13-43 | the same after every calm run of links and `navigate` calls, with nothing else asked for |
| Diversions.RollsOn | src/modules/navigate.ts:182-215 | a current visit that has its page goes to its end by its own steps, without touching history or location, and the queued visit begins |
| Diversions.NotDivertingIsExact | src/modules/navigate.ts:153-163 | a calm event keeps everything coherent if and only if it does not divert a pending history visit; and after one that does, the visits alone can reach an idle state in which address bar and location do not belong together if and only if the instance is not stuck |
| Diversions.AnchorDivertsHistoryVisit | src/Swup.ts:303-305 | from every initial state with another page behind it, back followed by an anchor click can end like that |
| Tidiness.UnmarkedWhenIdle | src/modules/navigate.ts:207-209 | `TidyRuns`: whenever nothing navigates no class with a swup prefix is left, whatever was aborted or failed and by whom |
| Tidiness.UnmarkedWithoutAborts | src/modules/navigate.ts:207-209 | the same for every calm run in which no handler aborts visits, with errors |
| Tidiness.TidyIsExact | src/modules/navigate.ts:203-209 | any calm event but that one keeps class hygiene; after that one the next step of the visit leaves nothing navigating and classes on the page |
| Tidiness.ForeignClassesStay | src/modules/Classes.ts:44-53 | no run of any kind adds or removes a class without a swup prefix |
| Tidiness.EndingSweepsUnlessDone | src/modules/navigate.ts:203-215 | a visit at 'visit:end' completes; without a queue its classes stay if and only if it was done by then and there were some; a queued visit takes them over if and only if it is animated |
| Mishaps.AbortSticks | src/modules/navigate.ts:204 | for every initial state, target and options: a request whose visit is aborted once started leaves an instance that navigates for ever |
| Mishaps.AbortDuringStartIsUndone | src/modules/navigate.ts:125-127 | for every initial state, target and options: an abort during 'visit:start' is undone, and the visit goes back from ABORTED to STARTED |
| Mishaps.AbortLeavesClasses | src/modules/navigate.ts:203-209 | for every initial state, target, page and named animation there is a calm run with one abort that ends idle with a swup class on the page |
| Phases.ClassesFollowTheVisit | src/modules/renderPage.ts:26-43 | `PhasedRuns`, so with any aborts and errors: which of the animation classes are set at each point of a live animated visit, and that the page is not marked as rendering before its content is replaced |
| Phases.PhaseIsExact | src/modules/renderPage.ts:26-43 | any calm event but those two keeps this; after one of the two some calm events lead to a state where the classes are wrong |
| Histories.PushKeepsRecords | src/helpers/history.ts:14-23 | a push keeps every record up to the current one entry for entry, drops the others and adds its own |
| Histories.PushThenBack | src/helpers/history.ts:14-23 | a push followed by one step back shows the old address |
| Histories.UpdateKeepsRecords | src/helpers/history.ts:26-37 | an update keeps all other records, and the index of its own |
| Histories.SparedRecordsStay | src/helpers/history.ts:14-37 | after any sequence of changes, a record that was neither dropped nor replaced has its address |
| Histories.UnnumberedRecordHasNoDirection | src/Swup.ts:352-357 | a record without an index gives no direction and does not move swup's index |
| Histories.BootedIsFirst | src/Swup.ts:164-205 | the first record of a session gets the index 1 |
| Histories.PushInStep | src/helpers/history.ts:14-23 | a push with the next index keeps indices consecutive and in step |
| Histories.UpdateInStep | src/helpers/history.ts:26-37 | replacing a record keeps them so |
| Histories.TraversalInStep | src/Swup.ts:351-357 | a traversal by d is seen as d, with its direction, and ends in step |
| Histories.SkippedTraversalInStep | src/Swup.ts:339-342 | a skipped traversal stays in step if and only if nothing moved |
| Histories.ChangesInStep | src/helpers/history.ts:14-37 | any sequence of pushes, replacements, traversals and reloads stays in step |
| Histories.ReloadRestoresIndex | src/Swup.ts:164-205 | a new instance on an old record finds the index its predecessor had and changes nothing |
| Histories.BrowserHistory.StoreIndex | src/Swup.ts:203-205 | the current record keeps its address and gets the index |
| Histories.BrowserHistory.CreateHistoryRecord | src/helpers/history.ts:14-23 | keeps every record up to the current one, drops those ahead and adds one with the given index |
| Histories.BrowserHistory.UpdateHistoryRecord | src/helpers/history.ts:26-37 | changes the address of the current record, keeps its index and all other records |
| Instance.Visit.Advance | src/modules/Visit.ts:154-158 | the state becomes the later of the two, and a visit that is done stays as it is unless told to be done |
| Instance.Visit.Abort | src/modules/Visit.ts:161-163 | the visit is aborted and done |
| Instance.Visit.Walk | src/modules/navigate.ts:173-207 | where a visit goes from each await of the transition, with its done checks |
| Instance.Swup.constructor | src/Swup.ts:159-205 | a fresh instance is an initial state of the protocol; the index is the one in the current record or else 1, and is stored there unless swup wrote the record |
| Instance.Swup.Begin | src/modules/navigate.ts:84-97 | the visit becomes current, `navigating` is set, old classes go if it is not animated |
| Instance.Swup.PerformNavigation | src/modules/navigate.ts:70-85 | queue behind a visit that is entering, ask for the abort of one that is not, or begin |
| Instance.Swup.AfterAbortHook | src/modules/navigate.ts:78-85 | whichever visit is current by now is aborted and loses its document, then the new one begins |
| Instance.Swup.WriteRecord | src/modules/navigate.ts:153-163 | nothing, a replacement or a push with the next index, then the location follows |
| Instance.Swup.AfterStartHook | src/modules/navigate.ts:127-176 | STARTED, page requested, record written, type and name classes added |
| Instance.Swup.PageArrived | src/modules/navigate.ts:147-151 | the visit is at least LOADED and has the document of the page |
| Instance.Swup.RunQueued | src/modules/navigate.ts:211-215 | the queued visit begins and the queue is empty |
| Instance.Swup.AfterEndHook | src/modules/navigate.ts:208-215 | completed, not navigating, or the queued visit begun |
| Instance.Swup.Fail | src/modules/navigate.ts:216-238 | aborted or failed, document deleted, `navigating` untouched, and for a real error the url of the visit as the place to go |
| Instance.Swup.RenderPage | src/modules/renderPage.ts:9-23 | nothing for a visit that is done; otherwise ENTERING, and record, location and target follow a redirect |
| Instance.Swup.ReplaceContent | src/modules/renderPage.ts:26-43 | content and classes of a live visit, nothing for one that is done, a hard failure without a document |
| Instance.Swup.Walk | src/modules/animatePageOut.ts:8-19 | the steps that touch only the visit and the classes |
| Instance.Swup.MarkStep | src/modules/animatePageIn.ts:25-27 | a live visit adds, removes or clears its classes at the start of the out animation, of the in animation and at the end |
| Instance.Swup.HandleLinkClick | src/Swup.ts:266-329 | nothing for an ignored link, a modifier key or another button; otherwise a link to where the visit is heading, to an anchor, to the page itself, to the same resolved url, or a visit |
| Instance.Swup.FollowIndex | src/Swup.ts:352-357 | direction and index from the record the browser is on |
| Instance.Swup.HandlePopState | src/Swup.ts:331-373 | skipped without touching the index, or the index followed and a history visit made |
| Instance.Swup.Handle | src/modules/navigate.ts:65-239 | any event takes the object from one state of the protocol to the next |
| Instance.Swup.Run | src/modules/navigate.ts:65-239 | any calm sequence of events is a run of the protocol, and for a fresh object the last request wins, up to a hard reload |
| Ledgers.HandlersPartitionLedger | src/modules/Hooks.ts:504-519 | before, replacing and after handlers are sorted, disjoint and together a permutation of the ledger |
| Ledgers.SortStable | src/modules/Hooks.ts:553-560 | registrations equal in priority and id keep the order of insertion |
| Ledgers.OnsRunInOrder | src/modules/Hooks.ts:248-250 | after any number of `on` calls with different handlers each list runs by priority, then by registration order |
| Ledgers.RunsInOrderIff | src/modules/Hooks.ts:553-560 | for any ledger and any of the three lists, handlers of one priority run in registration order if and only if within a priority no later registration has a smaller id |
| Ledgers.OnKeepsOrderIff | src/modules/Hooks.ts:248-250 | a new handler keeps this order if and only if no registration of its list and priority has an id above the number of registrations plus one |
| Ledgers.OffKeepsOrder | src/modules/Hooks.ts:331-341 | a removal by itself changes nobody's turn |
| Ledgers.RepeatedIdKeepsOrder | src/modules/Hooks.ts:248-250 | a concrete ledger with two equal ids that still runs in order |
| Ledgers.RemovalInvertsOrder | src/modules/Hooks.ts:248-250 | a concrete ledger in which the fourth handler runs before the third, for every list that holds both |
| Ledgers.OnReplacesInPlace | src/modules/Hooks.ts:250 | registering a known handler again replaces its registration where it stands |
| Ledgers.SetIsMap | src/modules/Hooks.ts:250 | a handler has one registration per hook |
| Ledgers.OffUndoesOnIff | src/modules/Hooks.ts:248-252 | the function returned by `on` restores the ledger if and only if the handler was new |
| Dispatch.RunLaw | src/modules/Hooks.ts:433-455 | a list runs a prefix of its handlers, each on a visit not yet done, cut only by a done visit or a rethrown error |
| Dispatch.DispatchLaw | src/modules/Hooks.ts:357-400 | the executed handlers are a prefix of the snapshot's before, main and after handlers; cut exactly where the visit is done or the main handler throws; DOM events follow iff all ran and the visit is live |
| Dispatch.CallOrder | src/modules/Hooks.ts:357-371 | a complete call runs exactly the before registrations of the ledger, then the default or the last replacing handler, then the after registrations, each list by priority, id and registration; a call that is cut off runs a first part of that |
| Dispatch.SidesAreKept | src/modules/Hooks.ts:516-542 | a handler registered to run before the default runs ahead of it and of every after handler, one registered without it behind; replacing handlers run only where there is a default |
| Dispatch.UnknownHookRunsNothing | src/modules/Hooks.ts:505-508 | an unknown hook runs nothing, not even the default handler |
| Dispatch.MainIsFold | src/modules/Hooks.ts:526-541 | the main handler is the left fold of the sorted replacers over the default handler |
| Dispatch.ReplaceChain | src/modules/Hooks.ts:526-541 | with replacer i delegating d(i) times, replacer j runs the product of d(i) over i > j times, the default the product of all |
| Once.CallConsumes | src/modules/Hooks.ts:440-442 | a call takes exactly the executed once handlers off its ledger and no other, also when a handler ends the visit or the main handler throws |
| Once.CompleteCallConsumes | src/modules/Hooks.ts:525-541 | a call that ends with a live visit and no error takes off exactly the once before and after handlers and the outermost replacer if it is once; other hooks stay |
| Once.StackedOncePeelOff | src/modules/Hooks.ts:525-541 | n stacked once replacers run one per call from the outermost; from call n + 1 on the default runs |
| HookRegistry.Hooks.constructor | src/modules/Hooks.ts:179-181 | one empty ledger for each core hook |
| HookRegistry.Hooks.Create | src/modules/Hooks.ts:186-190 | a new hook gets a ledger, a known one keeps its own |
| HookRegistry.Hooks.Clear | src/modules/Hooks.ts:213-215 | every hook stays, without handlers |
| HookRegistry.Hooks.On | src/modules/Hooks.ts:237-253 | one handler is added or its registration replaced; an unknown hook changes nothing |
| HookRegistry.Hooks.Off | src/modules/Hooks.ts:331-341 | exactly that handler goes, and whether it was there |
| HookRegistry.Hooks.OffAll | src/modules/Hooks.ts:338-340 | all handlers of one hook go |
| HookRegistry.Hooks.RunTasks | src/modules/Hooks.ts:433-455 | the loop executes what `Dispatch.RunLaw` speaks of |
| HookRegistry.Hooks.Trigger | src/modules/Hooks.ts:357-371 | a whole call does what `Dispatch.DispatchLaw` and `Dispatch.CallOrder` speak of |
| PageCache.CacheIsMapOnClasses | src/modules/Cache.ts:36-65 | lookups after `set`, `delete` and `update` see equivalent urls as one key and leave all others alone |
| PageCache.CacheRefinesClasses | src/modules/Cache.ts:36-86 | after any sequence of `set`, `update`, `delete`, `clear` and `prune`, with an idempotent resolver, `get` gives exactly what happened to the class of equivalent urls, and each record's url is its key |
| PageCache.EditsKeyed | src/modules/Cache.ts:48-60 | after any such sequence, with any resolver, each record's url is its key |
| PageCache.EquivalentIff | src/modules/Cache.ts:83-86 | two urls share a record if and only if their normal forms resolve alike |
| PageCache.PayloadWins | src/modules/Cache.ts:56-60 | an update puts the payload over the old record key by key |
| PageCache.UpdateBuildsOnRecordIff | src/modules/Cache.ts:56-60 | `update` merges into the existing record in every cache if and only if the resolved url resolves to itself |
| PageCache.PruneIsExactIff | src/modules/Cache.ts:74-80 | `prune` removes exactly the matching records for every predicate if and only if every key resolves to itself |
| PageCache.IdempotentSettles | src/modules/Cache.ts:83-86 | with an idempotent resolver every key resolves to itself |
| PageCache.RecordsAreFaithful | src/modules/fetchPage.ts:92-111 | after any operations each record is the unredirected, non-empty answer to a GET for its url, and no server error |
| PageCache.ReplyDecides | src/modules/fetchPage.ts:71-111 | how each reply ends a request and what it leaves in the cache: status 500, an empty answer, a timeout, an abort, and any other answer |
| PageCache.StoredPageIsServed | src/modules/navigate.ts:132-137 | what was loaded and may be kept is served from the cache from then on, whatever the server says |
| PageCache.CacheIsTransparentIff | src/modules/navigate.ts:130-141 | every GET load after any operations ends as with the cache off, errors included, if and only if the server answers equivalent urls alike |
| PageCache.FetchPage | src/modules/fetchPage.ts:46-114 | by the reply: a server error, an empty answer and a timeout are rejected as not aborted and an abort as aborted, all without touching the cache; any other answer gives its html and is stored if it may be |
| PageCache.HandlePageLoad | src/modules/navigate.ts:130-141 | the cached page if reading is on and there is one, otherwise what `fetchPage` gives |
| PageCache.Cache.Get | src/modules/Cache.ts:41-45 | the record of the url's class, carrying the class's own url |
| PageCache.Cache.Has | src/modules/Cache.ts:36-38 | whether the class has a record |
| PageCache.Cache.Set | src/modules/Cache.ts:48-53 | one record is written under the resolved url and carries it |
| PageCache.Cache.Update | src/modules/Cache.ts:56-60 | the payload over the old record, under the resolved url |
| PageCache.Cache.Delete | src/modules/Cache.ts:63-65 | the record of the class goes |
| PageCache.Cache.Clear | src/modules/Cache.ts:68-71 | all records go |
| PageCache.Cache.Prune | src/modules/Cache.ts:74-80 | the deleting loop leaves exactly the records that do not match, if the keys resolve to themselves |
| Redirects.CachedPageIsNoRedirectIff | src/modules/renderPage.ts:17-23 | with the address bar at the target, rendering the page that the cache holds for it after any edits leaves history, location and target alone if and only if the resolver is idempotent there |
| Redirects.CachedPagesAreNoRedirects | src/modules/renderPage.ts:17-23 | so it is for every cached page with an idempotent resolver and normal urls |
| ClassNames.SwupClassIff | src/modules/Classes.ts:51-53 | exactly six prefixes make a class swup's own |
| Urls.ResolverStaysLocal | src/modules/resolveUrl.ts:8-23 | an empty or absolute answer of the resolver is ignored, any other one is taken |
| ClassNames.Classes.Add | src/modules/Classes.ts:36-38 | exactly the given classes are added |
| ClassNames.Classes.Remove | src/modules/Classes.ts:40-42 | exactly the given classes are removed |
| ClassNames.Classes.Clear | src/modules/Classes.ts:44-49 | all classes with a swup prefix go and no other |
| Slug.SlugifyJoinsWords | src/helpers/classify.ts:2-12 | the five replacements equal: lower-case, delete junk, split, drop the empty, join with dashes |
| Slug.SlugifyIsClean | src/helpers/classify.ts:2-12 | the result has slug characters only and no doubled, leading or trailing dash |
| Slug.CleanIsSlug | src/helpers/classify.ts:2-12 | a clean string is its own slug |
| Slug.ClassifyFallsBackIff | src/helpers/classify.ts:11 | a text without words gives the fallback, any other one its words joined by dashes |
| Slug.LowerKeepsPlace | src/helpers/classify.ts:4 | a capital becomes the small letter at the same place of the alphabet |
| Slug.ClassifyTwice | src/helpers/classify.ts:2-12 | idempotent |
| Slug.SlugifyConcat | src/helpers/classify.ts:2-12 | two texts with words and a space between them give the two slugs with a dash between |
| Animations.CalculateTimeout | src/modules/awaitAnimations.ts:138-144 | the doubling loop ends and the result is the maximum of duration i plus delay i mod n, as in section 2.1 of CSS Transitions Level 1 |
| Animations.EndsOnce | src/modules/awaitAnimations.ts:69-104 | for all end events and one timer: `end` has run once iff the timer fired or enough events were accepted, and the listener is attached iff it has not |
| Animations.AnimationWait.OnEvent | src/modules/awaitAnimations.ts:79-95 | an end event of the element itself that began after the wait counts, and the one that makes the count full ends it; events of children and earlier ones do nothing |
| Animations.AnimationWait.OnTimer | src/modules/awaitAnimations.ts:97-101 | the timer ends a wait that still counts |

## Left out

- Dispatch.DispatchLaw: for calls with an explicit visit; calls that leave the visit out look at `swup.visit` instead (src/modules/Hooks.ts:435), which a handler may exchange.
- Dispatch.ReplaceChain: for handlers that do not throw; what a throwing replacer cuts off is covered by `Dispatch.DispatchLaw` only.
- Once.CompleteCallConsumes: for calls that do not overlap on one hook; nested calls work on snapshots and can run a once handler twice. `once` on inner replacers is not honoured by the source.
- Once.CallConsumes: for handlers that leave the registrations of the hook itself alone; they may throw, end the visit and change other hooks. `Dispatch.DispatchLaw` holds for the others too.
- Addresses.TraversalDirection: skipped traversals are excluded; `Histories.SkippedTraversalInStep` says what they do.
- Slug.SlugifyJoinsWords: case folding and white space outside ASCII are not modelled.
- PageCache.CacheIsTransparentIff: GET loads only; a POST visit is answered from the cache as well when reading is on.
- PageCache.Cache.Set: the hook 'cache:set' and handlers that change the page object; pages are values.
- PageCache.Cache.Clear: the hook 'cache:clear'.
- PageCache.FetchPage: the hooks around a request, its timer and its options; the reply is what comes of them.
- HookRegistry.Hooks.On: the function it returns is a call of `Off`; what that undoes is `Ledgers.OffUndoesOnIff`.
- Animations.CalculateTimeout: times are numbers; empty CSS strings, which parse to NaN, are not.
- Instance.Swup.HandleLinkClick: handlers that replace the default handlers of 'link:click', 'link:anchor' and 'link:self'.
- Instance.Swup.HandlePopState: the protocol has no event for a traversal that `skipPopStateHandling` turns down; the records of the stack are those of swup and the one it was started on.
- Instance.Swup.Fail: the steps of the browser itself, `history.back()` and the traversal that then loads the url; nothing follows in the model.
- Instance.Swup.ReplaceContent: the DOM; replacing content is "displayed := the document of the visit". A container mismatch is a failing step, without the containers already replaced.
- Interleaving inside one hook call: what happens while handlers suspend is part of what the handlers do (`Dispatch.Behaviour`), and of the free interleaving of protocol events.
- The View Transitions path, plugins, scrolling, titles, focus, persisted elements and the DOM helpers.
- `parseName`, `parseCallArgs` and the shortcuts `before`, `replace` and `once`: lookups over `on` and `call`.
- `getTransitionInfo` and `awaitAnimations` over several elements: reading computed styles and `Promise.all`.
- Animation scopes other than html: the elements that carry classes then change between visits.
- Visit metadata, referrer, scroll options and the selection of history action and animation name from element attributes: they are options of a request here.
- `Location`: parsing a url is an idempotent normaliser; `delegateEvent` and `matchPath` are wrappers over libraries.
- Headers, bodies, timers and abort signals of `fetch`: an answer, a timeout or an abort is what comes back.
- `cache.size`, `cache.all` and copying on read.
