/** Concurrency control of a worker process: the autoscaler as a bounded controller, and the dispatcher
    that looks at the target before it awaits a dequeue and adds an execution after it. */
module Pools {
  import opened Util
  import opened Models

  /** math.ceil(backlog / per) for a positive `per`. */
  function CeilDiv(a: int, per: int): int
    requires per > 0
  {
    -((-a) / per)
  }

  function Desired(cfg: Settings, backlog: int): int {
    var per := Max(1, cfg.autoscaleTasksPerWorker);
    Min(cfg.workerMaxConcurrency, Max(cfg.workerMinConcurrency, CeilDiv(backlog, per)))
  }

  /** The fewest workers, at least the minimum, that have room for the backlog; cut at the maximum. */
  predicate IsGoal(cfg: Settings, backlog: int, d: int) {
    var per := Max(1, cfg.autoscaleTasksPerWorker);
    && d <= cfg.workerMaxConcurrency
    && (d == cfg.workerMaxConcurrency || (cfg.workerMinConcurrency <= d && backlog <= d * per))
    && (d <= cfg.workerMinConcurrency || (d - 1) * per < backlog)
  }

  /** One tick moves the target towards that goal, by at most a step. */
  ghost predicate StepsTowardsGoal(cfg: Settings, backlog: int, was: int, now: int) {
    exists goal :: IsGoal(cfg, backlog, goal) &&
      now == (if goal > was then Min(goal, was + cfg.autoscaleScaleStep)
              else if goal < was then Max(goal, was - cfg.autoscaleScaleStep)
              else was)
  }

  lemma DesiredIsGoal(cfg: Settings, backlog: int)
    ensures IsGoal(cfg, backlog, Desired(cfg, backlog))
  {
    var per := Max(1, cfg.autoscaleTasksPerWorker);
    var c, d := CeilDiv(backlog, per), Desired(cfg, backlog);
    CeilDivIsCeiling(backlog, per);
    if d < cfg.workerMaxConcurrency {
      assert c * per <= d * per;
    }
    if d > cfg.workerMinConcurrency {
      assert (d - 1) * per <= (c - 1) * per;
    }
  }

  /** One tick of the autoscaler. */
  function Tick(target: int, desired: int, step: int): int {
    if desired > target then Min(desired, target + step)
    else if desired < target then Max(desired, target - step)
    else target
  }

  lemma CeilDivIsCeiling(a: int, per: int)
    requires per > 0
    ensures (CeilDiv(a, per) - 1) * per < a <= CeilDiv(a, per) * per
  {
    var q := (-a) / per;
    assert q * per <= -a < (q + 1) * per;
  }

  function Ticks(target: int, desired: int, step: int, n: nat): int {
    if n == 0 then target else Tick(Ticks(target, desired, step, n - 1), desired, step)
  }

  function Distance(a: int, b: int): nat {
    if a < b then b - a else a - b
  }

  /** After `n` ticks under a constant backlog the target has come `n` steps nearer, and never crossed. */
  lemma {:induction false} TicksApproach(target: int, desired: int, step: int, n: nat)
    requires step >= 1
    ensures var now := Ticks(target, desired, step, n);
            && Distance(now, desired) == Max(0, Distance(target, desired) - n * step)
            && (target <= desired ==> target <= now <= desired)
            && (desired <= target ==> desired <= now <= target)
    decreases n
  {
    if n > 0 {
      TicksApproach(target, desired, step, n - 1);
      assert n * step == (n - 1) * step + step;
    }
  }

  lemma StepsToCover(d: nat, step: int, n: nat)
    requires step >= 1
    ensures d <= n * step <==> CeilDiv(d, step) <= n
  {
    CeilDivIsCeiling(d, step);
    var c := CeilDiv(d, step);
    if c <= n {
      assert c * step <= n * step;
    } else {
      assert n * step <= (c - 1) * step;
    }
  }

  /** Under a constant backlog the target is the desired one exactly from tick ceil(distance / step) on. */
  lemma TargetIsReachedOnTime(target: int, desired: int, step: int, n: nat)
    requires step >= 1
    ensures Ticks(target, desired, step, n) == desired <==> CeilDiv(Distance(target, desired), step) <= n
  {
    TicksApproach(target, desired, step, n);
    StepsToCover(Distance(target, desired), step, n);
  }

  /** The target after one tick for each backlog. */
  function Follow(cfg: Settings, target: int, backlogs: seq<int>): int
    decreases |backlogs|
  {
    if backlogs == [] then target
    else Follow(cfg, Tick(target, Desired(cfg, backlogs[0]), cfg.autoscaleScaleStep), backlogs[1..])
  }

  /** Whatever the backlog does from tick to tick, a target within its bounds stays within them. */
  lemma {:induction false} TargetStaysInside(cfg: Settings, target: int, backlogs: seq<int>)
    requires cfg.autoscaleScaleStep >= 1
    requires cfg.workerMinConcurrency <= target <= cfg.workerMaxConcurrency
    ensures cfg.workerMinConcurrency <= Follow(cfg, target, backlogs) <= cfg.workerMaxConcurrency
    decreases |backlogs|
  {
    if backlogs != [] {
      TargetStaysInside(cfg, Tick(target, Desired(cfg, backlogs[0]), cfg.autoscaleScaleStep), backlogs[1..]);
    }
  }

  // ---------------------------------------------------------------- dispatcher, completions, autoscaler

  /** `awaiting`: the dispatcher has seen room and awaits the answer to its dequeue. */
  datatype Pool = Pool(target: int, executing: set<nat>, awaiting: bool)

  datatype Event =
    | LookForWork
    | GotTask(execution: nat)
    | GotNothing
    | Completed(execution: nat)
    | Scaled(ready: nat)

  function Initial(cfg: Settings): Pool {
    Pool(cfg.workerConcurrency, {}, false)
  }

  function React(cfg: Settings, p: Pool, e: Event): Pool {
    match e
    case LookForWork => if !p.awaiting && |p.executing| < p.target then p.(awaiting := true) else p
    case GotTask(x) => if p.awaiting then p.(executing := p.executing + {x}, awaiting := false) else p
    case GotNothing => p.(awaiting := false)
    case Completed(x) => p.(executing := p.executing - {x})
    case Scaled(ready) =>
      p.(target := Tick(p.target, Desired(cfg, ready + |p.executing|), cfg.autoscaleScaleStep))
  }

  function ReactAll(cfg: Settings, p: Pool, events: seq<Event>): Pool
    decreases |events|
  {
    if events == [] then p else ReactAll(cfg, React(cfg, p, events[0]), events[1..])
  }

  function Cap(cfg: Settings): int {
    Max(cfg.workerConcurrency, cfg.workerMaxConcurrency)
  }

  /** A slot that is about to be filled counts as filled. */
  ghost predicate WithinCap(cfg: Settings, p: Pool) {
    && p.target <= Cap(cfg)
    && (p.executing == {} || |p.executing| <= Cap(cfg))
    && (p.awaiting ==> |p.executing| < Cap(cfg))
  }

  lemma ReactKeepsCap(cfg: Settings, p: Pool, e: Event)
    requires WithinCap(cfg, p) && cfg.autoscaleScaleStep >= 1
    ensures WithinCap(cfg, React(cfg, p, e))
  {
    match e
    case GotTask(x) => assert |p.executing + {x}| <= |p.executing| + 1;
    case Completed(x) =>
      assert p.executing == (p.executing - {x}) + (p.executing * {x});
      assert |p.executing - {x}| <= |p.executing|;
    case _ =>
  }

  lemma {:induction false} ReactAllKeepsCap(cfg: Settings, p: Pool, events: seq<Event>)
    requires WithinCap(cfg, p) && cfg.autoscaleScaleStep >= 1
    ensures WithinCap(cfg, ReactAll(cfg, p, events))
    decreases |events|
  {
    if events != [] {
      ReactKeepsCap(cfg, p, events[0]);
      ReactAllKeepsCap(cfg, React(cfg, p, events[0]), events[1..]);
    }
  }

  /** In every interleaving of the dispatcher with completions and the autoscaler, the running executions
      never exceed the larger of the initial and the maximal concurrency. */
  lemma ExecutionsNeverExceedCap(cfg: Settings, events: seq<Event>)
    requires cfg.autoscaleScaleStep >= 1
    ensures var p := ReactAll(cfg, Initial(cfg), events);
            p.executing != {} ==> |p.executing| <= Max(cfg.workerConcurrency, cfg.workerMaxConcurrency)
  {
    ReactAllKeepsCap(cfg, Initial(cfg), events);
  }
}
