/**
 * Shared vocabulary of the database-setup workflow: the stage numbers, the
 * phase markers carried by progress events, the events themselves and the
 * abstract outcomes of the collaborators a stage calls.
 */
module Stages {

  // Stage numbers, in execution order.
  const STATE_INIT: int := 1
  const STATE_LOAD: int := 2
  const STATE_CREATE: int := 3
  const STATE_TEST: int := 4
  const STATE_DONE: int := 5

  // Phase markers carried by a progress event.
  const START: real := 0.0
  const FINISH: real := 99.0
  const DONE: real := 100.0

  /** A stage number that names one of the five stages. */
  predicate IsStage(s: int) {
    STATE_INIT <= s <= STATE_DONE
  }

  /** The reason a collaborator call failed (an exception's text). */
  type Cause = string

  /** What one call into a collaborator did: returned, or raised. */
  datatype Outcome = Ok | Fail(cause: Cause)

  /**
   * A registered module as the setup stages see it: the outcome of its
   * model-loading hook and of its test-data hook.
   */
  datatype Module = Module(load: Outcome, test: Outcome)

  /**
   * The collaborators of one stage run: the database connector's init,
   * clear and create calls, and the module registry (whose listing itself
   * may raise).
   */
  datatype Env = Env(
    init: Outcome,
    listing: Outcome,
    modules: seq<Module>,
    clear: Outcome,
    create: Outcome)

  /** A notification on the progress channel. */
  datatype Event =
    | Progress(state: int, value: real)
    | Error(state: int, cause: Cause)

  /** A call the stage executor made into a collaborator, in call order. */
  datatype Call =
    | InitDb
    | ListModules
    | LoadModels(index: nat)
    | TestModels(index: nat)
    | ClearDb
    | CreateDb
}
