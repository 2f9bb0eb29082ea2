/** Dead-lettering for want of retries: whoever handles the task afterwards, and however often it is
    requeued without a reset, every copy of it keeps the attempts it was buried with. */
module Exhaustion {
  import opened Util
  import opened Models
  import opened Store
  import opened Protocol
  import opened Policy
  import B = RetryBudget
  import C = CrashStopRuns

  /** A later copy of a buried task: the same producer's part, and no attempt forgotten. */
  predicate Carries(copy: Task, buried: Task) {
    SameTask(copy, buried) && copy.attempts >= buried.attempts
  }

  /** The stored record and what a requeue has read of it carry the attempts of the burial. */
  ghost predicate Remembered(w: World, buried: Task) {
    && C.Inv(w) && buried.id in w.used
    && (buried.id in w.redis.tasks ==> Carries(w.redis.tasks[buried.id].task, buried))
    && (forall c | c in w.requeues && w.requeues[c].read.Some? && w.requeues[c].read.value.id == buried.id ::
          Carries(w.requeues[c].read.value, buried))
  }

  /** A requeue that resets the attempts of task `id`. */
  predicate Resets(w: World, step: Step, id: TaskId) {
    step.RequeueEnqueue? && step.reset && EnqueuedId(w, step) == Some(id)
  }

  lemma BurialRemembers(cfg: Settings, w: World, step: Step)
    requires C.Inv(w) && C.MayStep(w, step) && step.Bury?
    ensures Remembered(Apply(cfg, w, step), w.executions[step.worker].task)
  {
    C.StepKeepsInv(cfg, w, step);
    var id := w.executions[step.worker].task.id;
    assert C.IdOk(w, id);
    forall c | c in w.requeues ensures w.requeues[c].id != id {
      assert w.requeues[c].id in RequeuedIds(w);
    }
  }

  lemma WorkerRemembers(cfg: Settings, w: World, step: Step, buried: Task)
    requires Remembered(w, buried) && C.MayStep(w, step) && Actor(step).Some?
    ensures Remembered(Apply(cfg, w, step), buried)
  {
    C.StepKeepsInv(cfg, w, step);
  }

  lemma EnqueueRemembers(cfg: Settings, w: World, step: Step, buried: Task)
    requires Remembered(w, buried) && C.MayStep(w, step) && !Resets(w, step, buried.id)
    requires step.Submit? || step.RequeueEnqueue?
    ensures Remembered(Apply(cfg, w, step), buried)
  {
    C.StepKeepsInv(cfg, w, step);
  }

  lemma CancelRemembers(cfg: Settings, w: World, step: Step, buried: Task)
    requires Remembered(w, buried) && C.MayStep(w, step)
    requires step.CancelRemove? || step.CancelRead? || step.CancelWrite?
    ensures Remembered(Apply(cfg, w, step), buried)
  {
    C.StepKeepsInv(cfg, w, step);
    assert step.CancelWrite? ==> C.IdOk(w, w.cancels[step.call].id);
  }

  lemma RequeueRemembers(cfg: Settings, w: World, step: Step, buried: Task)
    requires Remembered(w, buried) && C.MayStep(w, step)
    requires step.RequeueRemove? || step.RequeueRead? || step.ExpireRecord?
    ensures Remembered(Apply(cfg, w, step), buried)
  {
    C.StepKeepsInv(cfg, w, step);
    assert step.RequeueRead? ==> C.IdOk(w, w.requeues[step.call].id);
  }

  lemma StepRemembers(cfg: Settings, w: World, step: Step, buried: Task)
    requires Remembered(w, buried) && C.MayStep(w, step) && !Resets(w, step, buried.id)
    ensures Remembered(Apply(cfg, w, step), buried)
  {
    if Actor(step).Some? {
      WorkerRemembers(cfg, w, step, buried);
    } else if step.Submit? || step.RequeueEnqueue? {
      EnqueueRemembers(cfg, w, step, buried);
    } else if step.ClaimNext? || step.RenewLeases? || step.PromoteDue? || step.ReapExpired? {
      C.StepKeepsInv(cfg, w, step);
    } else if step.CancelRemove? || step.CancelRead? || step.CancelWrite? {
      CancelRemembers(cfg, w, step, buried);
    } else {
      RequeueRemembers(cfg, w, step, buried);
    }
  }

  /** No step of the run resets the attempts of task `id`. */
  ghost predicate NeverReset(cfg: Settings, registry: Registry, s: B.Audited, steps: seq<Step>, id: TaskId)
    requires B.Legal(cfg, registry, s, steps)
    decreases |steps|
  {
    steps == [] || (!Resets(s.world, steps[0], id)
                    && NeverReset(cfg, registry, B.Next(cfg, registry, s, steps[0]), steps[1..], id))
  }

  lemma {:induction false} RunRemembers(cfg: Settings, registry: Registry, s: B.Audited, steps: seq<Step>, buried: Task)
    requires B.Legal(cfg, registry, s, steps) && NeverReset(cfg, registry, s, steps, buried.id)
    requires Remembered(s.world, buried)
    ensures Remembered(B.Run(cfg, registry, s, steps).world, buried)
    decreases |steps|
  {
    if steps != [] {
      StepRemembers(cfg, s.world, steps[0], buried);
      RunRemembers(cfg, registry, B.Next(cfg, registry, s, steps[0]), steps[1..], buried);
    }
  }

  /** Whoever runs the task will not retry it, and a requeue opens an account with no retry in it, or
      with the whole budget on reset. */
  ghost predicate BudgetIsSpent(cfg: Settings, registry: Registry, s: B.Audited, buried: Task) {
    && (forall e | e in s.world.executions && !s.world.executions[e].stale
        && s.world.executions[e].task.id == buried.id ::
          !ShouldRetry(cfg, registry, s.world.executions[e].task, true))
    && (forall call, reset, now |
          Enabled(s.world, RequeueEnqueue(call, reset, now)) && s.world.requeues[call].read.value.id == buried.id ::
          var a := B.Next(cfg, registry, s, RequeueEnqueue(call, reset, now)).accounts[buried.id];
          && a.limit == Limit(cfg, registry, buried.spec)
          && (if reset then a == B.Account(a.limit, 0, 0, 0) else a.start > a.limit))
  }

  lemma RememberedMeansSpent(cfg: Settings, registry: Registry, s: B.Audited, buried: Task)
    requires Remembered(s.world, buried) && !ShouldRetry(cfg, registry, buried, true)
    ensures BudgetIsSpent(cfg, registry, s, buried)
  {
    forall call, reset, now |
      Enabled(s.world, RequeueEnqueue(call, reset, now)) && s.world.requeues[call].read.value.id == buried.id
      ensures var a := B.Next(cfg, registry, s, RequeueEnqueue(call, reset, now)).accounts[buried.id];
              && a.limit == Limit(cfg, registry, buried.spec)
              && (if reset then a == B.Account(a.limit, 0, 0, 0) else a.start > a.limit)
    {
      assert Carries(s.world.requeues[call].read.value, buried);
    }
  }

  /** A task was buried with its budget exhausted. Until a requeue resets it, and whatever else happens,
      requeues without reset included, there is no retry left for it. */
  lemma ExhaustionLastsUntilReset(cfg: Settings, registry: Registry, before: seq<Step>, bury: Step, during: seq<Step>)
    requires B.Legal(cfg, registry, B.BEGIN, before)
    requires var s := B.Run(cfg, registry, B.BEGIN, before);
             && bury.Bury? && B.MayStep(cfg, registry, s, bury)
             && !ShouldRetry(cfg, registry, s.world.executions[bury.worker].task, true)
    requires var s := B.Run(cfg, registry, B.BEGIN, before);
             var s1 := B.Next(cfg, registry, s, bury);
             && B.Legal(cfg, registry, s1, during)
             && NeverReset(cfg, registry, s1, during, s.world.executions[bury.worker].task.id)
    ensures var s := B.Run(cfg, registry, B.BEGIN, before);
            BudgetIsSpent(cfg, registry, B.Run(cfg, registry, B.Next(cfg, registry, s, bury), during),
                          s.world.executions[bury.worker].task)
  {
    var s := B.Run(cfg, registry, B.BEGIN, before);
    var s1 := B.Next(cfg, registry, s, bury);
    var buried := s.world.executions[bury.worker].task;
    B.RunFromStart(cfg, registry, before);
    BurialRemembers(cfg, s.world, bury);
    RunRemembers(cfg, registry, s1, during, buried);
    RememberedMeansSpent(cfg, registry, B.Run(cfg, registry, s1, during), buried);
  }
}
