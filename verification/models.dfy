/** The stored entities: tasks with their life cycle, and the settings the components read. */
module Models {
  import opened Util
  import opened Zset

  type TaskId = Member
  type Json = string
  type Priority = p: int | 0 <= p <= 255

  datatype Status = Pending | Scheduled | Running | Success | Failed | Dead | Cancelled

  /** The part of a task that its producer fixes and nothing ever changes. */
  datatype Spec = Spec(
    name: string,
    args: Json,
    kwargs: Json,
    priority: Priority,
    maxRetries: Option<nat>,
    timeout: Option<real>,
    createdAt: real,
    scheduleName: Option<Member>,
    backoffBase: Option<real>,
    backoffMax: Option<real>)

  datatype Task = Task(
    id: TaskId,
    spec: Spec,
    attempts: nat,
    status: Status,
    eta: Option<real>,
    enqueuedAt: Option<real>,
    startedAt: Option<real>,
    finishedAt: Option<real>,
    result: Option<Json>,
    error: Option<string>,
    traceback: Option<string>)

  /** A stored record; `ttl` is the expiry in seconds of the last SET, None when it never expires. */
  datatype Record = Record(task: Task, ttl: Option<int>)

  datatype Settings = Settings(
    visibilityTimeout: real,
    resultTtl: real,
    promoteBatch: int,
    reaperBatch: int,
    defaultMaxRetries: int,
    retryBackoffBase: real,
    retryBackoffFactor: real,
    retryBackoffMax: real,
    retryJitter: real,
    workerConcurrency: int,
    workerMinConcurrency: int,
    workerMaxConcurrency: int,
    autoscaleTasksPerWorker: int,
    autoscaleScaleStep: int,
    schedulerInterval: real)

  function Ids(tasks: seq<Task>): seq<TaskId> {
    seq(|tasks|, i requires 0 <= i < |tasks| => tasks[i].id)
  }

  /** Two snapshots of one task: whatever happened in between, the producer's part is the same. */
  predicate SameTask(a: Task, b: Task) {
    a.id == b.id && a.spec == b.spec
  }

  /** An eta of zero is falsy, so it counts as no eta. */
  predicate Deferred(task: Task, now: real) {
    task.eta.Some? && task.eta.value != 0.0 && task.eta.value > now
  }

  function Stamped(task: Task, now: real): (t: Task)
    ensures SameTask(t, task) && t.attempts == task.attempts && t.eta == task.eta
  {
    task.(enqueuedAt := Some(now), status := if Deferred(task, now) then Scheduled else Pending)
  }

  function Started(task: Task, now: real): (t: Task)
    ensures SameTask(t, task) && t.attempts > task.attempts && t.status == Running
  {
    task.(status := Running, startedAt := Some(now), attempts := task.attempts + 1)
  }

  function Succeeded(task: Task, result: Option<Json>, now: real): (t: Task)
    ensures SameTask(t, task) && t.attempts == task.attempts && t.status == Success
    ensures t.result == result && t.error.None? && t.traceback.None?
  {
    task.(status := Success, finishedAt := Some(now), result := result, error := None, traceback := None)
  }

  function Rescheduled(task: Task, error: string, tb: Option<string>, runAt: real): (t: Task)
    ensures SameTask(t, task) && t.attempts == task.attempts && t.status == Failed && t.eta == Some(runAt)
  {
    task.(status := Failed, error := Some(error), traceback := tb, eta := Some(runAt))
  }

  function Buried(task: Task, error: string, tb: Option<string>, now: real): (t: Task)
    ensures SameTask(t, task) && t.attempts == task.attempts && t.status == Dead
  {
    task.(status := Dead, error := Some(error), traceback := tb, finishedAt := Some(now))
  }

  function Withdrawn(task: Task, now: real): (t: Task)
    ensures SameTask(t, task) && t.attempts == task.attempts && t.status == Cancelled
  {
    task.(status := Cancelled, finishedAt := Some(now))
  }

  /** A dead task made ready for another life. */
  function Revived(task: Task, reset: bool): (t: Task)
    ensures SameTask(t, task) && t.eta == None && t.attempts == if reset then 0 else task.attempts
  {
    task.(attempts := if reset then 0 else task.attempts,
          status := Pending, error := None, traceback := None, eta := None)
  }
}
