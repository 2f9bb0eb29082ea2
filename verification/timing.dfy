/** Clocks: delayed tasks never start early, and renewed leases are never reaped. Both hold in
    crash-stop runs; all readings come from synchronised clocks, so no command acts on a reading later
    than the moment it takes effect. */
module Timing {
  import opened Util
  import opened Zset
  import opened Models
  import opened Store
  import opened Protocol
  import C = CrashStopRuns

  // ---------------------------------------------------------------- never early

  /** The moment the last step took effect, and the earliest start each task was last given. */
  datatype Timed = Timed(world: World, clock: real, notBefore: map<TaskId, real>)

  /** A step and the moment it takes effect; its clock reading may be older. */
  datatype Effect = Effect(step: Step, at: real)

  const BEGIN: Timed := Timed(INITIAL, 0.0, map[])

  predicate MayStep(s: Timed, e: Effect) {
    C.MayStep(s.world, e.step) && s.clock <= e.at && 0.0 <= e.step.now <= e.at
  }

  /** The earliest start that a step assigns: the eta of a deferred task, the run time of a retry. */
  function Assigned(w: World, step: Step): Option<(TaskId, real)>
    requires Enabled(w, step)
  {
    match step
    case Submit(task, now) =>
      var deferred := task.eta.Some? && task.eta.value != 0.0 && now < task.eta.value;
      Some((task.id, if deferred then task.eta.value else now))
    case RequeueEnqueue(call, _, now) => Some((w.requeues[call].read.value.id, now))
    case RetryLater(worker, _, _, delay, now) => Some((w.executions[worker].task.id, now + delay))
    case _ => None
  }

  function Next(cfg: Settings, s: Timed, e: Effect): Timed
    requires Enabled(s.world, e.step)
  {
    var w' := Apply(cfg, s.world, e.step);
    match Assigned(s.world, e.step)
    case None => Timed(w', e.at, s.notBefore)
    case Some((id, start)) => Timed(w', e.at, s.notBefore[id := start])
  }

  ghost predicate Legal(cfg: Settings, s: Timed, steps: seq<Effect>)
    decreases |steps|
  {
    steps == [] || (MayStep(s, steps[0]) && Legal(cfg, Next(cfg, s, steps[0]), steps[1..]))
  }

  ghost function Run(cfg: Settings, s: Timed, steps: seq<Effect>): Timed
    requires Legal(cfg, s, steps)
    decreases |steps|
  {
    if steps == [] then s else Run(cfg, Next(cfg, s, steps[0]), steps[1..])
  }

  predicate OnTime(s: Timed, id: TaskId) {
    var r := s.world.redis;
    && (id in r.delayed ==> id in s.notBefore && r.delayed[id] == Ms(s.notBefore[id]))
    && (id in r.ready || id in r.inflight ==> id in s.notBefore && s.notBefore[id] - 0.001 < s.clock)
  }

  ghost predicate Inv(s: Timed) {
    C.Inv(s.world) && forall id :: OnTime(s, id)
  }

  lemma PromoteOnTime(cfg: Settings, s: Timed, e: Effect)
    requires Inv(s) && MayStep(s, e) && e.step.PromoteDue?
    ensures Inv(Next(cfg, s, e))
  {
    C.StepKeepsInv(cfg, s.world, e.step);
    var r, s' := s.world.redis, Next(cfg, s, e);
    var batch := RangeByScore(r.delayed, Ms(e.step.now), e.step.limit);
    MoveAllKeys(Transfer(r.delayed, r.ready, r.sequence), r.tasks, batch);
    forall id ensures OnTime(s', id) {
      assert OnTime(s, id);
      if id in batch {
        DueIsAtMostOneMsEarly(s.notBefore[id], e.step.now);
      }
    }
  }

  lemma ReapOnTime(cfg: Settings, s: Timed, e: Effect)
    requires Inv(s) && MayStep(s, e) && e.step.ReapExpired?
    ensures Inv(Next(cfg, s, e))
  {
    C.StepKeepsInv(cfg, s.world, e.step);
    var r, s' := s.world.redis, Next(cfg, s, e);
    MoveAllKeys(Transfer(r.inflight, r.ready, r.sequence), r.tasks,
                RangeByScore(r.inflight, Ms(e.step.now), e.step.limit));
    forall id ensures OnTime(s', id) {
      assert OnTime(s, id);
    }
  }

  lemma EnqueueOnTime(cfg: Settings, s: Timed, e: Effect)
    requires Inv(s) && MayStep(s, e) && (e.step.Submit? || e.step.RequeueEnqueue? || e.step.RetryLater?)
    ensures Inv(Next(cfg, s, e))
  {
    C.StepKeepsInv(cfg, s.world, e.step);
    var s' := Next(cfg, s, e);
    var target := Assigned(s.world, e.step).value.0;
    assert C.IdOk(s.world, target);
    if e.step.RequeueEnqueue? {
      assert target in RequeuedIds(s.world);
    }
    forall id ensures OnTime(s', id) {
      assert OnTime(s, id);
    }
  }

  /** The remaining steps add nothing to the delayed set, and what they make ready or lease was so before. */
  lemma OtherMovesNothingIn(cfg: Settings, w: World, step: Step)
    requires Enabled(w, step)
    requires !step.PromoteDue? && !step.ReapExpired? && !step.Submit? && !step.RequeueEnqueue? && !step.RetryLater?
    ensures var r, r' := w.redis, Apply(cfg, w, step).redis;
            && (forall id | id in r'.delayed :: id in r.delayed && r'.delayed[id] == r.delayed[id])
            && (forall id | id in r'.ready || id in r'.inflight :: id in r.ready || id in r.inflight)
  {
  }

  lemma OtherOnTime(cfg: Settings, s: Timed, e: Effect)
    requires Inv(s) && MayStep(s, e)
    requires !e.step.PromoteDue? && !e.step.ReapExpired? && !e.step.Submit? && !e.step.RequeueEnqueue?
    requires !e.step.RetryLater?
    ensures Inv(Next(cfg, s, e))
  {
    C.StepKeepsInv(cfg, s.world, e.step);
    OtherMovesNothingIn(cfg, s.world, e.step);
    var s' := Next(cfg, s, e);
    assert s'.notBefore == s.notBefore && s'.clock == e.at;
    forall id ensures OnTime(s', id) {
      assert OnTime(s, id);
    }
  }

  lemma {:induction false} RunKeepsInv(cfg: Settings, s: Timed, steps: seq<Effect>)
    requires Inv(s) && Legal(cfg, s, steps)
    ensures Inv(Run(cfg, s, steps))
    decreases |steps|
  {
    if steps != [] {
      var e := steps[0];
      if e.step.PromoteDue? {
        PromoteOnTime(cfg, s, e);
      } else if e.step.ReapExpired? {
        ReapOnTime(cfg, s, e);
      } else if e.step.Submit? || e.step.RequeueEnqueue? || e.step.RetryLater? {
        EnqueueOnTime(cfg, s, e);
      } else {
        OtherOnTime(cfg, s, e);
      }
      RunKeepsInv(cfg, Next(cfg, s, e), steps[1..]);
    }
  }

  /** Never early: whatever else interleaves, a dequeue leases a task no earlier than one millisecond
      before the eta it was deferred to, or the time its last retry was delayed to. */
  lemma NeverEarly(cfg: Settings, steps: seq<Effect>, claim: Effect)
    requires Legal(cfg, BEGIN, steps) && claim.step.ClaimNext? && MayStep(Run(cfg, BEGIN, steps), claim)
    ensures var s := Run(cfg, BEGIN, steps);
            var got := Claim(s.world.redis, Lease(cfg, claim.step.base)).1;
            got.Some? ==> got.value.id in s.notBefore && s.notBefore[got.value.id] - 0.001 < claim.at
  {
    RunKeepsInv(cfg, BEGIN, steps);
    var s := Run(cfg, BEGIN, steps);
    if s.world.redis.ready != map[] {
      var id := First(s.world.redis.ready);
      assert OnTime(s, id);
      assert C.IdOk(s.world, id);
    }
  }

  /** The first step of a worker after its lease was reaped lets its task start early if and only if it
      retries the task while it is ready and before the retry's time. */
  lemma LateStepIsOnTime(cfg: Settings, s: Timed, e: Effect)
    requires Inv(s) && Enabled(s.world, e.step) && Actor(e.step).Some? && s.clock <= e.at
    requires s.world.executions[e.step.worker].stale
    ensures var id := s.world.executions[e.step.worker].task.id;
            OnTime(Next(cfg, s, e), id) <==>
              !(e.step.RetryLater? && id in s.world.redis.ready && e.at <= e.step.now + e.step.delay - 0.001)
  {
    var id := s.world.executions[e.step.worker].task.id;
    assert OnTime(s, id);
    assert C.IdOk(s.world, id);
  }

  // ---------------------------------------------------------------- leases

  /** A live lease whose deadline was computed from the clock reading `base`. */
  ghost predicate Held(cfg: Settings, w: World, worker: nat, base: real) {
    && C.Inv(w)
    && worker in w.executions && !w.executions[worker].stale
    && w.executions[worker].task.id in w.redis.inflight
    && w.redis.inflight[w.executions[worker].task.id] == Lease(cfg, base)
  }

  /** The reading behind the deadline after a step: a renewal that names the task brings its own. */
  function NextBase(w: World, worker: nat, base: real, step: Step): real
    requires worker in w.executions
  {
    if step.RenewLeases? && w.executions[worker].task.id in step.ids then step.base else base
  }

  predicate Settles(step: Step, worker: nat) {
    (step.Acknowledge? || step.RetryLater? || step.Bury?) && step.worker == worker
  }

  /** Every step, the next renewal included, takes effect within the lease less a millisecond. */
  ghost predicate Timely(cfg: Settings, w: World, worker: nat, base: real, steps: seq<Step>)
    decreases |steps|
  {
    steps == [] ||
    (&& C.MayStep(w, steps[0]) && !Settles(steps[0], worker) && worker in w.executions
     && 0.0 <= steps[0].now <= base + cfg.visibilityTimeout - 0.001
     && Timely(cfg, Apply(cfg, w, steps[0]), worker, NextBase(w, worker, base, steps[0]), steps[1..]))
  }

  ghost function LastBase(cfg: Settings, w: World, worker: nat, base: real, steps: seq<Step>): real
    requires Timely(cfg, w, worker, base, steps)
    decreases |steps|
  {
    if steps == [] then base
    else LastBase(cfg, Apply(cfg, w, steps[0]), worker, NextBase(w, worker, base, steps[0]), steps[1..])
  }

  /** Before the deadline less a millisecond the reaper passes a lease by. */
  lemma NotReaped(cfg: Settings, w: World, worker: nat, base: real, now: real, limit: int)
    requires Held(cfg, w, worker, base) && 0.0 <= now <= base + cfg.visibilityTimeout - 0.001
    ensures w.executions[worker].task.id !in RangeByScore(w.redis.inflight, Ms(now), limit)
  {
    OneMsApart(now, base + cfg.visibilityTimeout);
  }

  lemma ReapKeepsLease(cfg: Settings, w: World, worker: nat, base: real, step: Step)
    requires Held(cfg, w, worker, base) && C.MayStep(w, step) && step.ReapExpired?
    requires 0.0 <= step.now <= base + cfg.visibilityTimeout - 0.001
    ensures Held(cfg, Apply(cfg, w, step), worker, base)
  {
    C.StepKeepsInv(cfg, w, step);
    NotReaped(cfg, w, worker, base, step.now, step.limit);
    var r := w.redis;
    MoveAllKeys(Transfer(r.inflight, r.ready, r.sequence), r.tasks,
                RangeByScore(r.inflight, Ms(step.now), step.limit));
  }

  lemma SettleKeepsOtherLease(cfg: Settings, w: World, worker: nat, base: real, step: Step)
    requires Held(cfg, w, worker, base) && C.MayStep(w, step) && Actor(step).Some? && !Settles(step, worker)
    ensures Held(cfg, Apply(cfg, w, step), worker, base)
  {
    C.StepKeepsInv(cfg, w, step);
  }

  lemma ClaimKeepsLease(cfg: Settings, w: World, worker: nat, base: real, step: Step)
    requires Held(cfg, w, worker, base) && C.MayStep(w, step) && step.ClaimNext?
    ensures Held(cfg, Apply(cfg, w, step), worker, base)
  {
    C.StepKeepsInv(cfg, w, step);
    assert C.IdOk(w, w.executions[worker].task.id);
  }

  lemma OtherKeepsLease(cfg: Settings, w: World, worker: nat, base: real, step: Step)
    requires Held(cfg, w, worker, base) && C.MayStep(w, step)
    requires Actor(step).None? && !step.ReapExpired? && !step.ClaimNext?
    ensures Held(cfg, Apply(cfg, w, step), worker, NextBase(w, worker, base, step))
  {
    C.StepKeepsInv(cfg, w, step);
  }

  lemma StepKeepsLease(cfg: Settings, w: World, worker: nat, base: real, step: Step)
    requires Held(cfg, w, worker, base) && C.MayStep(w, step) && !Settles(step, worker)
    requires step.ReapExpired? ==> 0.0 <= step.now <= base + cfg.visibilityTimeout - 0.001
    ensures Held(cfg, Apply(cfg, w, step), worker, NextBase(w, worker, base, step))
  {
    if step.ReapExpired? {
      ReapKeepsLease(cfg, w, worker, base, step);
    } else if step.ClaimNext? {
      ClaimKeepsLease(cfg, w, worker, base, step);
    } else if Actor(step).Some? {
      SettleKeepsOtherLease(cfg, w, worker, base, step);
    } else {
      OtherKeepsLease(cfg, w, worker, base, step);
    }
  }

  /** Renewal keeps live work: while each renewal takes effect within the visibility timeout of the
      reading before it, less a millisecond, the lease is never reaped, whoever else acts. */
  lemma {:induction false} RenewedLeaseIsNeverReaped(cfg: Settings, w: World, worker: nat, base: real, steps: seq<Step>)
    requires Held(cfg, w, worker, base) && Timely(cfg, w, worker, base, steps)
    ensures C.Legal(cfg, w, steps)
    ensures Held(cfg, C.Run(cfg, w, steps), worker, LastBase(cfg, w, worker, base, steps))
    decreases |steps|
  {
    if steps != [] {
      StepKeepsLease(cfg, w, worker, base, steps[0]);
      RenewedLeaseIsNeverReaped(cfg, Apply(cfg, w, steps[0]), worker, NextBase(w, worker, base, steps[0]), steps[1..]);
    }
  }

  /** An unlimited reap takes a live lease if and only if its deadline has come; the task is then ready
      again, so a crashed worker's task is redelivered. */
  lemma ReapedExactlyWhenExpired(cfg: Settings, w: World, worker: nat, base: real, step: Step)
    requires Held(cfg, w, worker, base) && step.ReapExpired? && step.limit < 0
    ensures var w' := Apply(cfg, w, step);
            && (w'.executions[worker].stale <==> Lease(cfg, base) <= Ms(step.now))
            && (w.executions[worker].task.id in w'.redis.ready <==> Lease(cfg, base) <= Ms(step.now))
  {
    var id := w.executions[worker].task.id;
    var r := w.redis;
    var batch := RangeByScore(r.inflight, Ms(step.now), step.limit);
    assert C.IdOk(w, id);
    UnlimitedRange(r.inflight, Ms(step.now), step.limit);
    assert id in batch <==> Lease(cfg, base) <= Ms(step.now);
    MoveAllKeys(Transfer(r.inflight, r.ready, r.sequence), r.tasks, batch);
    assert id in Elements(batch) <==> id in batch;
  }
}
