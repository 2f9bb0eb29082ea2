/** How a worker settles an attempt: acknowledge it, retry it with a delay, or bury it. */
module Policy {
  import opened Util
  import opened Models
  import opened Store
  import opened Backoff

  datatype TaskDef = TaskDef(maxRetries: Option<int>)

  type Registry = map<string, TaskDef>

  function Lookup(registry: Registry, name: string): Option<TaskDef> {
    if name in registry then Some(registry[name]) else None
  }

  /** Per-task override, then handler default, then the global setting. */
  function ResolveMaxRetries(spec: Spec, definition: Option<TaskDef>, cfg: Settings): int {
    match spec.maxRetries
    case Some(n) => n
    case None =>
      match definition
      case Some(TaskDef(Some(n))) => n
      case _ => cfg.defaultMaxRetries
  }

  function Limit(cfg: Settings, registry: Registry, spec: Spec): int {
    ResolveMaxRetries(spec, Lookup(registry, spec.name), cfg)
  }

  /** The attempt that just failed is already counted in `attempts`. */
  predicate ShouldRetry(cfg: Settings, registry: Registry, task: Task, retryable: bool) {
    retryable && task.attempts - 1 < Limit(cfg, registry, task.spec)
  }

  /** Zero is falsy, so a zero override falls back to the setting. */
  function Override(own: Option<real>, setting: real): real {
    if own.Some? && own.value != 0.0 then own.value else setting
  }

  function RetryDelay(cfg: Settings, task: Task, draw: real): real {
    Delay(task.attempts,
          Override(task.spec.backoffBase, cfg.retryBackoffBase),
          cfg.retryBackoffFactor,
          Override(task.spec.backoffMax, cfg.retryBackoffMax),
          cfg.retryJitter, draw)
  }

  /** Settings and a draw for which the backoff laws hold. */
  predicate Sane(cfg: Settings, base: real, cap: real, draw: real) {
    && base > 0.0 && cap >= 0.0 && cfg.retryBackoffFactor >= 1.0
    && 0.0 <= cfg.retryJitter <= 1.0 && -1.0 <= draw <= 1.0
  }

  /** The delay that the task's own backoff, or else the configured one, promises: exponential in the
      attempt up to the cap, give or take the jitter fraction. */
  ghost predicate Promised(cfg: Settings, task: Task, draw: real, delay: real) {
    var base := if task.spec.backoffBase.Some? && task.spec.backoffBase.value != 0.0
                then task.spec.backoffBase.value else cfg.retryBackoffBase;
    var cap := if task.spec.backoffMax.Some? && task.spec.backoffMax.value != 0.0
               then task.spec.backoffMax.value else cfg.retryBackoffMax;
    Sane(cfg, base, cap, draw) ==>
      InBand(delay, MinReal(Exponential(base, cfg.retryBackoffFactor, Max(1, task.attempts) - 1), cap), cfg.retryJitter)
  }

  /** The delay a worker uses keeps that promise. */
  lemma RetryDelayIsPromised(cfg: Settings, task: Task, draw: real)
    ensures Promised(cfg, task, draw, RetryDelay(cfg, task, draw))
  {
    var base := Override(task.spec.backoffBase, cfg.retryBackoffBase);
    var cap := Override(task.spec.backoffMax, cfg.retryBackoffMax);
    if Sane(cfg, base, cap, draw) {
      JitteredIsInBand(task.attempts, base, cfg.retryBackoffFactor, cap, cfg.retryJitter, draw);
    }
  }

  /** How an attempt ends: the handler's result, or a failure with the random draw for its delay. A task
      without a handler and a task whose handler raised or timed out differ in `retryable`. */
  datatype Outcome =
    | Returned(result: Option<Json>)
    | Failing(error: string, tb: Option<string>, retryable: bool, draw: real)

  /** How the handler itself ended. */
  datatype Ending = Finished(result: Option<Json>) | Raised(error: string, tb: Option<string>)

  /** What the worker makes of it: a task without a handler fails for good, an exception or a timeout is
      worth a retry. */
  function Report(registry: Registry, task: Task, ending: Ending, draw: real): Outcome {
    if task.spec.name !in registry then
      Failing("No handler registered for task '" + task.spec.name + "'", None, false, draw)
    else
      match ending
      case Finished(result) => Returned(result)
      case Raised(error, tb) => Failing(error, tb, true, draw)
  }

  function Settle(cfg: Settings, registry: Registry, r: Redis, task: Task, outcome: Outcome, now: real): Redis {
    match outcome
    case Returned(result) => Ack(r, Succeeded(task, result, now), ResultTtl(cfg))
    case Failing(error, tb, retryable, draw) =>
      if ShouldRetry(cfg, registry, task, retryable) then
        var runAt := now + RetryDelay(cfg, task, draw);
        Retry(r, Rescheduled(task, error, tb, runAt), runAt)
      else
        DeadLetter(r, Buried(task, error, tb, now), DeadTtl(cfg))
  }
}
