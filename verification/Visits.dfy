// src/modules/Visit.ts: the states of a visit.
module Visits {
  type VisitState = x: int | 1 <= x <= 9 witness 1

  const CREATED: VisitState := 1
  const QUEUED: VisitState := 2
  const STARTED: VisitState := 3
  const LEAVING: VisitState := 4
  const LOADED: VisitState := 5
  const ENTERING: VisitState := 6
  const COMPLETED: VisitState := 7
  const ABORTED: VisitState := 8
  const FAILED: VisitState := 9

  /** Completed, aborted or failed. */
  predicate IsDone(state: VisitState) {
    state >= COMPLETED
  }

  /** The state after `advance(target)`: visits never move backwards. */
  function Advanced(state: VisitState, target: VisitState): VisitState {
    if state < target then target else state
  }
}
