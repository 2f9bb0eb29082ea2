/** Why the crash-stop discipline is needed: reachable states in which a worker acts after its lease was
    reaped, one for each result that assumes it does not. */
module StaleRuns {
  import opened Util
  import opened Zset
  import opened Models
  import opened Store
  import opened Protocol
  import opened Policy
  import opened AtLeastOnce
  import B = RetryBudget
  import C = CrashStopRuns

  /** A reading after the reap. */
  function Later(cfg: Settings): real {
    2.0 + cfg.visibilityTimeout
  }

  /** A reaped task is ready while its record still says RUNNING. */
  lemma RunningMayBeReady(cfg: Settings, task: Task)
    requires task.eta.None?
    ensures exists t ::
              && Reachable(cfg, t) && task.id in t.world.redis.ready && task.id !in t.world.redis.inflight
              && task.id in t.world.redis.tasks && t.world.redis.tasks[task.id].task.status == Status.Running
  {
    var t := AReapedTask(cfg, task);
    assert task.id in t.world.redis.ready;
  }

  /** One place per task: a late retry delays a task that is ready again. */
  lemma LateRetryPutsATaskInTwoPlaces(cfg: Settings, task: Task)
    requires task.eta.None?
    ensures exists t :: Reachable(cfg, t) && task.id in t.world.redis.ready && task.id in t.world.redis.delayed
  {
    var s := AReapedTask(cfg, task);
    var t := Extend(cfg, s, RetryLater(1, "", None, 1.0, Later(cfg)));
    assert task.id in t.world.redis.ready && task.id in t.world.redis.delayed;
  }

  /** The status table: a late ack marks a task SUCCESS that is ready again. */
  lemma LateAckBreaksTheStatusTable(cfg: Settings, task: Task)
    requires task.eta.None?
    ensures exists t ::
              && Reachable(cfg, t) && !C.StatusTells(t.world.redis, task.id)
              && task.id !in CancelledIds(t.world) && task.id !in RequeuedIds(t.world)
  {
    var s := AReapedTask(cfg, task);
    var t := Extend(cfg, s, Acknowledge(1, None, Later(cfg)));
    assert t.world.redis.tasks[task.id].task.status == Success;
    assert !C.StatusTells(t.world.redis, task.id);
  }

  /** Conservation: a late retry adds a member and counts as nothing. */
  lemma LateRetryBreaksConservation(cfg: Settings, task: Task, tally: C.Tally)
    requires task.eta.None?
    ensures exists t, step ::
              && Reachable(cfg, t) && Enabled(t.world, step) && C.Count(tally, t.world, step) == tally
              && C.Population(Apply(cfg, t.world, step)) == C.Population(t.world) + 1
  {
    var s := AReapedTask(cfg, task);
    RetryAddsOne(cfg, s, task.id, Later(cfg), tally);
  }

  lemma RetryAddsOne(cfg: Settings, s: Tracked, id: TaskId, now: real, tally: C.Tally)
    requires ReapedOnly(s, id)
    ensures var step := RetryLater(1, "", None, 1.0, now);
            && Enabled(s.world, step) && C.Count(tally, s.world, step) == tally
            && C.Population(Apply(cfg, s.world, step)) == C.Population(s.world) + 1
  {
    var r, r' := s.world.redis, Apply(cfg, s.world, RetryLater(1, "", None, 1.0, now)).redis;
    C.AddedCount(r.delayed, id, Ms(now + 1.0));
    assert r'.delayed == r.delayed[id := Ms(now + 1.0)];
    assert r'.ready == r.ready && r'.inflight == map[] && r.inflight == map[] && r'.dlq == r.dlq;
  }

  /** Never early: a task retried by a stale worker with a long delay is leased at once. */
  lemma LateRetryStartsEarly(cfg: Settings, task: Task, delay: real, now: real)
    requires task.eta.None?
    ensures exists t ::
              && Reachable(cfg, t) && Enabled(t.world, RetryLater(1, "", None, delay, now))
              && t.world.executions[1].task.id == task.id
              && var r := Apply(cfg, t.world, RetryLater(1, "", None, delay, now)).redis;
                 var got := Claim(r, Lease(cfg, now)).1;
                 got.Some? && got.value.id == task.id
  {
    var t := AReapedTask(cfg, task);
    var r := Apply(cfg, t.world, RetryLater(1, "", None, delay, now)).redis;
    FirstIsUnique(r.ready, task.id);
  }

  // ---------------------------------------------------------------- the retry budget

  /** What the failure policy allows a worker that may be stale. */
  predicate Follows(cfg: Settings, registry: Registry, s: B.Audited, step: Step) {
    && Enabled(s.world, step)
    && (step.RetryLater? ==> ShouldRetry(cfg, registry, s.world.executions[step.worker].task, true))
  }

  ghost predicate Leads(cfg: Settings, registry: Registry, s: B.Audited, steps: seq<Step>, t: B.Audited)
    decreases |steps|
  {
    if steps == [] then s == t
    else Follows(cfg, registry, s, steps[0]) && Leads(cfg, registry, B.Next(cfg, registry, s, steps[0]), steps[1..], t)
  }

  lemma {:induction false} OneMore(cfg: Settings, registry: Registry, s: B.Audited, steps: seq<Step>, t: B.Audited,
      step: Step)
    requires Leads(cfg, registry, s, steps, t) && Follows(cfg, registry, t, step)
    ensures Leads(cfg, registry, s, steps + [step], B.Next(cfg, registry, t, step))
    decreases |steps|
  {
    if steps == [] {
      assert ([] + [step])[1..] == [];
    } else {
      assert (steps + [step])[1..] == steps[1..] + [step];
      OneMore(cfg, registry, B.Next(cfg, registry, s, steps[0]), steps[1..], t, step);
    }
  }

  ghost predicate Audits(cfg: Settings, registry: Registry, t: B.Audited) {
    exists steps :: Leads(cfg, registry, B.BEGIN, steps, t)
  }

  lemma Proceed(cfg: Settings, registry: Registry, t: B.Audited, step: Step) returns (u: B.Audited)
    requires Audits(cfg, registry, t) && Follows(cfg, registry, t, step)
    ensures u == B.Next(cfg, registry, t, step) && Audits(cfg, registry, u)
  {
    u := B.Next(cfg, registry, t, step);
    var steps :| Leads(cfg, registry, B.BEGIN, steps, t);
    OneMore(cfg, registry, B.BEGIN, steps, t, step);
  }

  predicate Attempt(w: World, worker: nat, phase: Phase, task: Task, attempts: nat) {
    && Holds(w, worker, phase) && SameTask(w.executions[worker].task, task)
    && w.executions[worker].task.attempts == attempts
  }

  /** Only this task exists; nobody has retried it and its record has no attempt yet. */
  ghost predicate Untried(cfg: Settings, registry: Registry, s: B.Audited, task: Task) {
    && s.accounts == map[task.id := B.Opened(cfg, registry, task)]
    && task.id in s.world.redis.tasks && SameTask(s.world.redis.tasks[task.id].task, task)
    && s.world.redis.tasks[task.id].task.attempts == 0
  }

  lemma SubmittedOnly(cfg: Settings, registry: Registry, task: Task) returns (t: B.Audited)
    requires task.eta.None? && task.attempts == 0
    ensures Audits(cfg, registry, t) && Untried(cfg, registry, t, task) && t.world.executions == map[]
    ensures t.world.redis.ready.Keys == {task.id} && t.world.redis.inflight == map[]
  {
    assert Leads(cfg, registry, B.BEGIN, [], B.BEGIN);
    t := Proceed(cfg, registry, B.BEGIN, Submit(task, 1.0));
  }

  lemma ClaimedOnly(cfg: Settings, registry: Registry, task: Task) returns (t: B.Audited)
    requires task.eta.None? && task.attempts == 0
    ensures Audits(cfg, registry, t) && Untried(cfg, registry, t, task)
    ensures t.world.redis.ready == map[] && t.world.redis.inflight == map[task.id := Lease(cfg, 1.0)]
    ensures t.world.executions.Keys == {1} && Attempt(t.world, 1, Claimed, task, 0)
  {
    t := SubmittedOnly(cfg, registry, task);
    FirstIsUnique(t.world.redis.ready, task.id);
    t := Proceed(cfg, registry, t, ClaimNext(1, 1.0, 1.0));
  }

  /** Worker 1 has claimed the task and not started it; its lease is reaped. */
  lemma ReapedBeforeItsStart(cfg: Settings, registry: Registry, task: Task) returns (t: B.Audited)
    requires task.eta.None? && task.attempts == 0
    ensures Audits(cfg, registry, t) && Untried(cfg, registry, t, task) && t.world.redis.ready.Keys == {task.id}
    ensures t.world.executions.Keys == {1} && Attempt(t.world, 1, Claimed, task, 0)
  {
    t := ClaimedOnly(cfg, registry, task);
    ReapOnlyLease(t.world.redis, task.id, Ms(1.0 + cfg.visibilityTimeout));
    t := Proceed(cfg, registry, t, ReapExpired(-1, 1.0 + cfg.visibilityTimeout));
  }

  lemma ClaimedByTheNext(cfg: Settings, registry: Registry, s: B.Audited, task: Task, now: real)
      returns (t: B.Audited)
    requires Audits(cfg, registry, s) && Untried(cfg, registry, s, task) && s.world.redis.ready.Keys == {task.id}
    requires s.world.executions.Keys == {1} && Attempt(s.world, 1, Claimed, task, 0)
    ensures Audits(cfg, registry, t) && Untried(cfg, registry, t, task)
    ensures Attempt(t.world, 1, Claimed, task, 0) && Attempt(t.world, 2, Claimed, task, 0)
  {
    FirstIsUnique(s.world.redis.ready, task.id);
    t := Proceed(cfg, registry, s, ClaimNext(2, now, now));
  }

  lemma StartedByTheNext(cfg: Settings, registry: Registry, s: B.Audited, task: Task, now: real)
      returns (t: B.Audited)
    requires Audits(cfg, registry, s) && s.accounts == map[task.id := B.Opened(cfg, registry, task)]
    requires Attempt(s.world, 1, Claimed, task, 0) && Attempt(s.world, 2, Claimed, task, 0)
    ensures Audits(cfg, registry, t) && t.accounts == s.accounts
    ensures Attempt(t.world, 1, Claimed, task, 0) && Attempt(t.world, 2, Executing, task, 1)
  {
    t := Proceed(cfg, registry, s, Start(2, now));
  }

  lemma RetriedOnce(cfg: Settings, registry: Registry, s: B.Audited, task: Task, now: real)
      returns (t: B.Audited)
    requires Audits(cfg, registry, s) && s.accounts == map[task.id := B.Opened(cfg, registry, task)]
    requires Attempt(s.world, 1, Claimed, task, 0) && Attempt(s.world, 2, Executing, task, 1)
    requires Limit(cfg, registry, task.spec) >= 1
    ensures Audits(cfg, registry, t) && task.id in t.accounts && Attempt(t.world, 1, Claimed, task, 0)
    ensures t.accounts[task.id] == B.Opened(cfg, registry, task).(retries := 1, last := 1)
  {
    t := Proceed(cfg, registry, s, RetryLater(2, "", None, 1.0, now));
  }

  /** Worker 2 takes it, starts it and retries it. */
  lemma RetriedByTheNext(cfg: Settings, registry: Registry, s: B.Audited, task: Task, now: real)
      returns (t: B.Audited)
    requires Audits(cfg, registry, s) && Untried(cfg, registry, s, task) && s.world.redis.ready.Keys == {task.id}
    requires s.world.executions.Keys == {1} && Attempt(s.world, 1, Claimed, task, 0)
    requires Limit(cfg, registry, task.spec) >= 1
    ensures Audits(cfg, registry, t) && task.id in t.accounts && Attempt(t.world, 1, Claimed, task, 0)
    ensures t.accounts[task.id] == B.Opened(cfg, registry, task).(retries := 1, last := 1)
  {
    var s1 := ClaimedByTheNext(cfg, registry, s, task, now);
    var s2 := StartedByTheNext(cfg, registry, s1, task, now);
    t := RetriedOnce(cfg, registry, s2, task, now);
  }

  /** Worker 1, whose lease was reaped, starts all the same. */
  lemma StartedLate(cfg: Settings, registry: Registry, s: B.Audited, task: Task, now: real)
      returns (t: B.Audited)
    requires Audits(cfg, registry, s) && Attempt(s.world, 1, Claimed, task, 0)
    ensures Audits(cfg, registry, t) && t.accounts == s.accounts && Attempt(t.world, 1, Executing, task, 1)
  {
    t := Proceed(cfg, registry, s, Start(1, now));
  }

  /** The retry budget: with a limit of one, the late start and retry of a worker whose lease was reaped
      make a second retry. */
  lemma LateStartBreaksTheBudget(cfg: Settings, registry: Registry, task: Task)
    requires task.eta.None? && task.attempts == 0 && Limit(cfg, registry, task.spec) == 1
    ensures exists t :: Audits(cfg, registry, t) && task.id in t.accounts && !B.WithinBudget(t.accounts[task.id])
  {
    var now := Later(cfg);
    var s := ReapedBeforeItsStart(cfg, registry, task);
    var s1 := RetriedByTheNext(cfg, registry, s, task, now);
    var s2 := StartedLate(cfg, registry, s1, task, now);
    var t := Proceed(cfg, registry, s2, RetryLater(1, "", None, 1.0, now));
    assert t.accounts[task.id].retries == 2;
  }
}
