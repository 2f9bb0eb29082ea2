/** The retry budget, crashes included: in crash-stop runs whose workers follow the failure policy, a
    task is retried at most as often as its limit allows, whatever happens to the workers. */
module RetryBudget {
  import opened Util
  import opened Zset
  import opened Models
  import opened Store
  import opened Protocol
  import opened Policy
  import C = CrashStopRuns

  /** Since the last enqueue of a task: its limit, the attempts it then carried, the retries called
      since, and the attempts the latest of them carried. */
  datatype Account = Account(limit: int, start: nat, retries: nat, last: nat)

  datatype Audited = Audited(world: World, accounts: map<TaskId, Account>)

  predicate MayStep(cfg: Settings, registry: Registry, s: Audited, step: Step) {
    && C.MayStep(s.world, step)
    && (step.RetryLater? ==> ShouldRetry(cfg, registry, s.world.executions[step.worker].task, true))
  }

  function Opened(cfg: Settings, registry: Registry, task: Task): Account {
    Account(Limit(cfg, registry, task.spec), task.attempts, 0, task.attempts)
  }

  function Next(cfg: Settings, registry: Registry, s: Audited, step: Step): Audited
    requires Enabled(s.world, step)
  {
    var w' := Apply(cfg, s.world, step);
    match step
    case Submit(task, _) => Audited(w', s.accounts[task.id := Opened(cfg, registry, task)])
    case RequeueEnqueue(call, reset, _) =>
      var task := Revived(s.world.requeues[call].read.value, reset);
      Audited(w', s.accounts[task.id := Opened(cfg, registry, task)])
    case RetryLater(worker, _, _, _, _) =>
      var task := s.world.executions[worker].task;
      if task.id in s.accounts then
        var a := s.accounts[task.id];
        Audited(w', s.accounts[task.id := a.(retries := a.retries + 1, last := task.attempts)])
      else Audited(w', s.accounts)
    case _ => Audited(w', s.accounts)
  }

  ghost predicate Legal(cfg: Settings, registry: Registry, s: Audited, steps: seq<Step>)
    decreases |steps|
  {
    steps == [] || (MayStep(cfg, registry, s, steps[0])
                    && Legal(cfg, registry, Next(cfg, registry, s, steps[0]), steps[1..]))
  }

  ghost function Run(cfg: Settings, registry: Registry, s: Audited, steps: seq<Step>): Audited
    requires Legal(cfg, registry, s, steps)
    decreases |steps|
  {
    if steps == [] then s else Run(cfg, registry, Next(cfg, registry, s, steps[0]), steps[1..])
  }

  predicate Queued(r: Redis, id: TaskId) {
    id in r.ready || id in r.delayed || id in r.inflight
  }

  /** The stored task has at least the attempts its account explains. */
  predicate Explained(cfg: Settings, registry: Registry, s: Audited, id: TaskId) {
    var r := s.world.redis;
    Queued(r, id) ==>
      && id in s.accounts && id in r.tasks
      && s.accounts[id].limit == Limit(cfg, registry, r.tasks[id].task.spec)
      && r.tasks[id].task.attempts >= s.accounts[id].start + s.accounts[id].retries
      && r.tasks[id].task.attempts >= s.accounts[id].last
  }

  /** A live running attempt is one more than that. */
  predicate RunningExplained(s: Audited, e: nat) {
    e in s.world.executions && !s.world.executions[e].stale && s.world.executions[e].phase == Executing ==>
      var task := s.world.executions[e].task;
      && task.id in s.accounts
      && task.attempts > s.accounts[task.id].start + s.accounts[task.id].retries
      && task.attempts > s.accounts[task.id].last
  }

  predicate WithinBudget(a: Account) {
    a.retries <= Max(0, a.limit - a.start)
  }

  ghost predicate Inv(cfg: Settings, registry: Registry, s: Audited) {
    && C.Inv(s.world)
    && (forall id :: Explained(cfg, registry, s, id))
    && (forall e :: RunningExplained(s, e))
    && (forall id | id in s.accounts :: WithinBudget(s.accounts[id]))
  }

  lemma StartExplained(cfg: Settings, registry: Registry, s: Audited, step: Step)
    requires Inv(cfg, registry, s) && MayStep(cfg, registry, s, step) && step.Start?
    ensures Inv(cfg, registry, Next(cfg, registry, s, step))
  {
    C.StepKeepsInv(cfg, s.world, step);
    var s' := Next(cfg, registry, s, step);
    assert Explained(cfg, registry, s, s.world.executions[step.worker].task.id);
    forall id ensures Explained(cfg, registry, s', id) {
      assert Explained(cfg, registry, s, id);
    }
    forall e ensures RunningExplained(s', e) {
      assert RunningExplained(s, e);
    }
  }

  lemma SettleExplained(cfg: Settings, registry: Registry, s: Audited, step: Step)
    requires Inv(cfg, registry, s) && MayStep(cfg, registry, s, step)
    requires step.RetryLater? || step.Acknowledge? || step.Bury?
    ensures Inv(cfg, registry, Next(cfg, registry, s, step))
  {
    C.StepKeepsInv(cfg, s.world, step);
    var s' := Next(cfg, registry, s, step);
    var task := s.world.executions[step.worker].task;
    assert Explained(cfg, registry, s, task.id);
    assert RunningExplained(s, step.worker);
    forall id ensures Explained(cfg, registry, s', id) {
      assert Explained(cfg, registry, s, id);
    }
    forall e ensures RunningExplained(s', e) {
      assert RunningExplained(s, e);
    }
  }

  lemma SubmitExplained(cfg: Settings, registry: Registry, s: Audited, step: Step)
    requires Inv(cfg, registry, s) && MayStep(cfg, registry, s, step) && step.Submit?
    ensures Inv(cfg, registry, Next(cfg, registry, s, step))
  {
    C.StepKeepsInv(cfg, s.world, step);
    var s' := Next(cfg, registry, s, step);
    assert C.IdOk(s.world, step.task.id);
    forall id ensures Explained(cfg, registry, s', id) {
      assert Explained(cfg, registry, s, id);
    }
    forall e ensures RunningExplained(s', e) {
      assert RunningExplained(s, e);
    }
  }

  lemma RequeueExplained(cfg: Settings, registry: Registry, s: Audited, step: Step)
    requires Inv(cfg, registry, s) && MayStep(cfg, registry, s, step) && step.RequeueEnqueue?
    ensures Inv(cfg, registry, Next(cfg, registry, s, step))
  {
    C.StepKeepsInv(cfg, s.world, step);
    var s' := Next(cfg, registry, s, step);
    var target := s.world.requeues[step.call].id;
    assert target in RequeuedIds(s.world);
    assert C.IdOk(s.world, target);
    forall id ensures Explained(cfg, registry, s', id) {
      assert Explained(cfg, registry, s, id);
    }
    forall e ensures RunningExplained(s', e) {
      assert RunningExplained(s, e);
    }
  }

  lemma PromoteExplained(cfg: Settings, registry: Registry, s: Audited, step: Step)
    requires Inv(cfg, registry, s) && MayStep(cfg, registry, s, step) && step.PromoteDue?
    ensures Inv(cfg, registry, Next(cfg, registry, s, step))
  {
    C.StepKeepsInv(cfg, s.world, step);
    var s' := Next(cfg, registry, s, step);
    var r := s.world.redis;
    MoveAllKeys(Transfer(r.delayed, r.ready, r.sequence), r.tasks, RangeByScore(r.delayed, Ms(step.now), step.limit));
    forall id ensures Explained(cfg, registry, s', id) {
      assert Explained(cfg, registry, s, id);
    }
    forall e ensures RunningExplained(s', e) {
      assert RunningExplained(s, e);
    }
  }

  lemma ReapExplained(cfg: Settings, registry: Registry, s: Audited, step: Step)
    requires Inv(cfg, registry, s) && MayStep(cfg, registry, s, step) && step.ReapExpired?
    ensures Inv(cfg, registry, Next(cfg, registry, s, step))
  {
    C.StepKeepsInv(cfg, s.world, step);
    var s' := Next(cfg, registry, s, step);
    var r := s.world.redis;
    MoveAllKeys(Transfer(r.inflight, r.ready, r.sequence), r.tasks, RangeByScore(r.inflight, Ms(step.now), step.limit));
    forall id ensures Explained(cfg, registry, s', id) {
      assert Explained(cfg, registry, s, id);
    }
    forall e ensures RunningExplained(s', e) {
      assert RunningExplained(s, e);
    }
  }

  lemma ClaimQueuesNothing(r: Redis, deadline: int)
    ensures var r' := Claim(r, deadline).0;
            r'.tasks == r.tasks && forall id | Queued(r', id) :: Queued(r, id)
  {
  }

  lemma ClaimExplained(cfg: Settings, registry: Registry, s: Audited, step: Step)
    requires Inv(cfg, registry, s) && MayStep(cfg, registry, s, step) && step.ClaimNext?
    ensures Inv(cfg, registry, Next(cfg, registry, s, step))
  {
    C.StepKeepsInv(cfg, s.world, step);
    var r, s' := s.world.redis, Next(cfg, registry, s, step);
    ClaimQueuesNothing(r, Lease(cfg, step.base));
    forall id ensures Explained(cfg, registry, s', id) {
      assert Explained(cfg, registry, s, id);
    }
    forall e ensures RunningExplained(s', e) {
      assert RunningExplained(s, e);
    }
  }

  /** The remaining steps add nothing to a queue and leave the records of queued ids alone. */
  lemma QuietExplained(cfg: Settings, registry: Registry, s: Audited, step: Step)
    requires Inv(cfg, registry, s) && MayStep(cfg, registry, s, step)
    requires var r, r' := s.world.redis, Apply(cfg, s.world, step).redis;
             forall id | Queued(r', id) ::
                   Queued(r, id) && (id in r.tasks ==> id in r'.tasks && r'.tasks[id] == r.tasks[id])
    requires Apply(cfg, s.world, step).executions == s.world.executions
    requires Next(cfg, registry, s, step).accounts == s.accounts
    ensures Inv(cfg, registry, Next(cfg, registry, s, step))
  {
    C.StepKeepsInv(cfg, s.world, step);
    var s' := Next(cfg, registry, s, step);
    forall id ensures Explained(cfg, registry, s', id) {
      assert Explained(cfg, registry, s, id);
    }
    forall e ensures RunningExplained(s', e) {
      assert RunningExplained(s, e);
    }
  }

  lemma CallOrExpiryIsQuiet(cfg: Settings, w: World, step: Step)
    requires C.Inv(w) && C.MayStep(w, step)
    requires step.RenewLeases? || step.ExpireRecord? || step.CancelRemove? || step.CancelRead? || step.CancelWrite?
          || step.RequeueRemove? || step.RequeueRead?
    ensures var r, r' := w.redis, Apply(cfg, w, step).redis;
            forall id | Queued(r', id) ::
                  Queued(r, id) && (id in r.tasks ==> id in r'.tasks && r'.tasks[id] == r.tasks[id])
    ensures Apply(cfg, w, step).executions == w.executions
  {
    if step.CancelWrite? {
      assert w.cancels[step.call].id in CancelledIds(w);
      assert C.IdOk(w, w.cancels[step.call].id);
    }
    if step.ExpireRecord? {
      assert C.IdOk(w, step.id);
    }
  }

  lemma StepKeepsInv(cfg: Settings, registry: Registry, s: Audited, step: Step)
    requires Inv(cfg, registry, s) && MayStep(cfg, registry, s, step)
    ensures Inv(cfg, registry, Next(cfg, registry, s, step))
  {
    if step.Start? {
      StartExplained(cfg, registry, s, step);
    } else if Actor(step).Some? {
      SettleExplained(cfg, registry, s, step);
    } else if step.Submit? {
      SubmitExplained(cfg, registry, s, step);
    } else if step.RequeueEnqueue? {
      RequeueExplained(cfg, registry, s, step);
    } else if step.ClaimNext? {
      ClaimExplained(cfg, registry, s, step);
    } else if step.PromoteDue? {
      PromoteExplained(cfg, registry, s, step);
    } else if step.ReapExpired? {
      ReapExplained(cfg, registry, s, step);
    } else {
      CallOrExpiryIsQuiet(cfg, s.world, step);
      QuietExplained(cfg, registry, s, step);
    }
  }

  lemma {:induction false} RunKeepsInv(cfg: Settings, registry: Registry, s: Audited, steps: seq<Step>)
    requires Inv(cfg, registry, s) && Legal(cfg, registry, s, steps)
    ensures Inv(cfg, registry, Run(cfg, registry, s, steps))
    decreases |steps|
  {
    if steps != [] {
      StepKeepsInv(cfg, registry, s, steps[0]);
      RunKeepsInv(cfg, registry, Next(cfg, registry, s, steps[0]), steps[1..]);
    }
  }

  const BEGIN: Audited := Audited(INITIAL, map[])

  lemma RunFromStart(cfg: Settings, registry: Registry, steps: seq<Step>)
    requires Legal(cfg, registry, BEGIN, steps)
    ensures Inv(cfg, registry, Run(cfg, registry, BEGIN, steps))
  {
    assert C.Inv(INITIAL);
    RunKeepsInv(cfg, registry, BEGIN, steps);
  }

  /** Between an enqueue and the next, no task is retried more often than its limit leaves room for:
      an enqueue at zero attempts allows `limit` retries, one past the limit allows none. */
  lemma RetriesStayWithinBudget(cfg: Settings, registry: Registry, steps: seq<Step>, id: TaskId)
    requires Legal(cfg, registry, BEGIN, steps)
    requires id in Run(cfg, registry, BEGIN, steps).accounts
    ensures var a := Run(cfg, registry, BEGIN, steps).accounts[id];
            a.retries <= Max(0, a.limit - a.start)
  {
    RunFromStart(cfg, registry, steps);
    assert WithinBudget(Run(cfg, registry, BEGIN, steps).accounts[id]);
  }

  /** Successive retries of a task carry strictly increasing attempts: a live execution about to retry
      carries more than the retry before it did. */
  lemma RetriesCarryMoreAttempts(cfg: Settings, registry: Registry, steps: seq<Step>, step: Step)
    requires Legal(cfg, registry, BEGIN, steps)
    requires var s := Run(cfg, registry, BEGIN, steps); MayStep(cfg, registry, s, step) && step.RetryLater?
    ensures var s := Run(cfg, registry, BEGIN, steps);
            var task := s.world.executions[step.worker].task;
            task.id in s.accounts && s.accounts[task.id].last < task.attempts
            && Next(cfg, registry, s, step).accounts[task.id].last == task.attempts
  {
    RunFromStart(cfg, registry, steps);
    assert RunningExplained(Run(cfg, registry, BEGIN, steps), step.worker);
  }

  /** A task enqueued with its budget already used up, as a requeue without reset after exhaustion
      does, is buried by the next failure that a worker reports. */
  lemma NoBudgetMeansBurial(cfg: Settings, registry: Registry, steps: seq<Step>, worker: nat)
    requires Legal(cfg, registry, BEGIN, steps)
    requires var s := Run(cfg, registry, BEGIN, steps);
             && Holds(s.world, worker, Executing) && !s.world.executions[worker].stale
             && s.world.executions[worker].task.id in s.accounts
             && s.accounts[s.world.executions[worker].task.id].start
                >= s.accounts[s.world.executions[worker].task.id].limit
    ensures var task := Run(cfg, registry, BEGIN, steps).world.executions[worker].task;
            !ShouldRetry(cfg, registry, task, true)
  {
    RunFromStart(cfg, registry, steps);
    var s := Run(cfg, registry, BEGIN, steps);
    assert RunningExplained(s, worker);
    assert Explained(cfg, registry, s, s.world.executions[worker].task.id);
  }
}
