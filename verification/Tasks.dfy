/** Durable tasks, when one is claimable, and the transitions a store applies to one task. */
module Tasks {
  import opened Wrappers
  import opened JsonValues

  /** Instants in microseconds; module Timestamps shows that comparing printed instants compares these. */
  type Instant = int

  /** Only Queued, Running and the three final states are ever written by the store; a file may hold any name. */
  datatype TaskState =
    | Submitted | Queued | Allocating | Starting | Warming | Running
    | Succeeded | Failed | Cancelled
    | Other(name: string)   // a state name found in a file
  {
    predicate Final() { Succeeded? || Failed? || Cancelled? }
  }

  datatype QueueTask = QueueTask(
    tenant: string, project: string, service: string, task: string, jobId: string,
    idempotencyKey: string, priority: string, model: string, endpoint: string,
    estimatedInputTokens: int, maxOutputTokens: int, requiredContextTokens: int,
    payload: Json, orchestration: Json, artifacts: Json, labels: Json)
  {
    function Key(): (string, string) { (tenant, idempotencyKey) }
  }

  datatype StoredTask = StoredTask(
    id: string, spec: QueueTask, state: TaskState,
    createdAt: Instant, updatedAt: Instant, attempts: nat,
    startedAt: Option<Instant>, finishedAt: Option<Instant>, nextAttemptAt: Option<Instant>,
    result: Option<Json>, error: Option<Json>)
  {
    /** The tuple that fairness is computed by. */
    function Group(): (g: seq<string>) {
      [spec.tenant, spec.project, spec.service, spec.task, spec.priority, spec.model]
    }

    predicate Claimable(now: Instant, model: Option<string>) {
      && state.Queued?
      && (model.Some? ==> spec.model == model.value)
      && (nextAttemptAt.Some? ==> nextAttemptAt.value <= now)
    }

    function Claimed(now: Instant): StoredTask {
      this.(state := Running, attempts := attempts + 1,
            startedAt := if startedAt.Some? then startedAt else Some(now),
            updatedAt := now, nextAttemptAt := None)
    }

    function Completed(value: Json, now: Instant): StoredTask {
      this.(state := Succeeded, result := Some(value), error := None, nextAttemptAt := None,
            finishedAt := Some(now), updatedAt := now)
    }

    function Errored(value: Json, now: Instant): StoredTask {
      this.(state := Failed, error := Some(value), nextAttemptAt := None,
            finishedAt := Some(now), updatedAt := now)
    }

    function Retried(value: Json, next: Instant, now: Instant): StoredTask {
      this.(state := Queued, error := Some(value), nextAttemptAt := Some(next), updatedAt := now)
    }

    function Withdrawn(now: Instant): StoredTask {
      if state.Final() then this
      else this.(state := Cancelled, nextAttemptAt := None, finishedAt := Some(now), updatedAt := now)
    }
  }

  /** Two records of one task: what no operation changes is the same. */
  predicate SameTask(t: StoredTask, u: StoredTask) { u.id == t.id && u.spec == t.spec && u.createdAt == t.createdAt }

  /** Rows of a store: a task is determined by its id. */
  ghost predicate IdsIdentify(tasks: seq<StoredTask>) {
    forall a, b | a in tasks && b in tasks && a.id == b.id :: a == b
  }

  function Candidates(tasks: seq<StoredTask>, now: Instant, model: Option<string>): (r: seq<StoredTask>)
    ensures forall t :: t in r <==> t in tasks && t.Claimable(now, model)
  {
    if tasks == [] then []
    else
      var rest := Candidates(tasks[..|tasks| - 1], now, model);
      assert tasks == tasks[..|tasks| - 1] + [tasks[|tasks| - 1]];
      if tasks[|tasks| - 1].Claimable(now, model) then rest + [tasks[|tasks| - 1]] else rest
  }
}
