/** At-least-once delivery in any run, stale workers included: a task that nobody acknowledged, buried
    or cancelled since it was last enqueued is in a queue or leased, and its record cannot expire. */
module AtLeastOnce {
  import opened Util
  import opened Zset
  import opened Models
  import opened Store
  import opened Protocol
  import C = CrashStopRuns

  /** The id that a step settles: an ack, a burial, or a cancel whose script removed something. */
  function SettledId(w: World, step: Step): Option<TaskId> {
    match step
    case Acknowledge(worker, _, _) =>
      if worker in w.executions then Some(w.executions[worker].task.id) else None
    case Bury(worker, _, _, _) =>
      if worker in w.executions then Some(w.executions[worker].task.id) else None
    case CancelRemove(_, id, _) => if RemovedBy(w.redis, id) > 0 then Some(id) else None
    case _ => None
  }

  datatype Tracked = Tracked(world: World, unsettled: set<TaskId>)

  predicate MayStep(s: Tracked, step: Step) {
    Enabled(s.world, step) && OutsideCancelGaps(s.world, step)
  }

  function Next(cfg: Settings, s: Tracked, step: Step): Tracked
    requires Enabled(s.world, step)
  {
    var w' := Apply(cfg, s.world, step);
    match (EnqueuedId(s.world, step), SettledId(s.world, step))
    case (Some(id), _) => Tracked(w', s.unsettled + {id})
    case (None, Some(id)) => Tracked(w', s.unsettled - {id})
    case (None, None) => Tracked(w', s.unsettled)
  }

  ghost predicate Legal(cfg: Settings, s: Tracked, steps: seq<Step>)
    decreases |steps|
  {
    steps == [] || (MayStep(s, steps[0]) && Legal(cfg, Next(cfg, s, steps[0]), steps[1..]))
  }

  ghost function Run(cfg: Settings, s: Tracked, steps: seq<Step>): Tracked
    requires Legal(cfg, s, steps)
    decreases |steps|
  {
    if steps == [] then s else Run(cfg, Next(cfg, s, steps[0]), steps[1..])
  }

  ghost predicate Kept(r: Redis, id: TaskId) {
    && (id in r.ready || id in r.delayed || id in r.inflight)
    && id in r.tasks && r.tasks[id].ttl.None?
  }

  ghost predicate Keyed(w: World) {
    && (forall id | id in w.redis.tasks :: w.redis.tasks[id].task.id == id)
    && (forall c | c in w.cancels && w.cancels[c].read.Some? :: w.cancels[c].read.value.id == w.cancels[c].id)
    && (forall c | c in w.requeues && w.requeues[c].read.Some? :: w.requeues[c].read.value.id == w.requeues[c].id)
  }

  ghost predicate NothingLost(s: Tracked) {
    Keyed(s.world) && forall id | id in s.unsettled :: Kept(s.world.redis, id)
  }

  ghost predicate Inv(s: Tracked) {
    && NothingLost(s)
    && (forall c | c in s.world.cancels :: s.world.cancels[c].id !in s.unsettled)
  }

  lemma SweepKeeps(q: Transfer, tasks: map<TaskId, Record>, now: int, limit: int)
    ensures var p := Sweep(q, tasks, now, limit);
            forall id | id in tasks && (id in q.source || id in q.ready) :: id in p.source || id in p.ready
  {
    MoveAllKeys(q, tasks, RangeByScore(q.source, now, limit));
  }

  lemma PromoteKeeps(r: Redis, now: int, limit: int, id: TaskId)
    requires Kept(r, id)
    ensures Kept(Promote(r, now, limit), id)
  {
    SweepKeeps(Transfer(r.delayed, r.ready, r.sequence), r.tasks, now, limit);
  }

  lemma ReapKeeps(r: Redis, now: int, limit: int, id: TaskId)
    requires Kept(r, id)
    ensures Kept(Reap(r, now, limit), id)
  {
    SweepKeeps(Transfer(r.inflight, r.ready, r.sequence), r.tasks, now, limit);
  }

  lemma WorkerKeepsKeys(cfg: Settings, w: World, step: Step)
    requires Keyed(w) && Enabled(w, step) && (step.ClaimNext? || Actor(step).Some? || step.Submit?)
    ensures Keyed(Apply(cfg, w, step))
  {
  }

  lemma StepKeepsKeys(cfg: Settings, w: World, step: Step)
    requires Keyed(w) && Enabled(w, step)
    ensures Keyed(Apply(cfg, w, step))
  {
    if step.ClaimNext? || Actor(step).Some? || step.Submit? {
      WorkerKeepsKeys(cfg, w, step);
    }
  }

  /** The one step that can hurt an unsettled task: the record write of a cancel that it overtook. */
  predicate LateCancelWrite(s: Tracked, step: Step) {
    && step.CancelWrite? && step.call in s.world.cancels
    && s.world.cancels[step.call].id in s.unsettled
  }

  lemma EnqueueKeepsTask(cfg: Settings, s: Tracked, step: Step, id: TaskId)
    requires NothingLost(s) && Enabled(s.world, step) && !LateCancelWrite(s, step)
    requires id in s.unsettled && SettledId(s.world, step) != Some(id)
    requires step.Submit? || step.RequeueEnqueue?
    ensures Kept(Apply(cfg, s.world, step).redis, id)
  {
    assert Kept(s.world.redis, id);
  }

  lemma WorkerKeepsTask(cfg: Settings, s: Tracked, step: Step, id: TaskId)
    requires NothingLost(s) && Enabled(s.world, step) && !LateCancelWrite(s, step)
    requires id in s.unsettled && SettledId(s.world, step) != Some(id)
    requires step.ClaimNext? || Actor(step).Some?
    ensures Kept(Apply(cfg, s.world, step).redis, id)
  {
    assert Kept(s.world.redis, id);
  }

  lemma CallKeepsTask(cfg: Settings, s: Tracked, step: Step, id: TaskId)
    requires NothingLost(s) && Enabled(s.world, step) && !LateCancelWrite(s, step)
    requires id in s.unsettled && SettledId(s.world, step) != Some(id)
    requires step.CancelRemove? || step.CancelRead? || step.CancelWrite? || step.RequeueRemove? || step.RequeueRead?
    ensures Kept(Apply(cfg, s.world, step).redis, id)
  {
    assert Kept(s.world.redis, id);
  }

  lemma StepKeepsTask(cfg: Settings, s: Tracked, step: Step, id: TaskId)
    requires NothingLost(s) && Enabled(s.world, step) && !LateCancelWrite(s, step)
    requires id in s.unsettled && SettledId(s.world, step) != Some(id)
    ensures Kept(Apply(cfg, s.world, step).redis, id)
  {
    assert Kept(s.world.redis, id);
    if step.Submit? || step.RequeueEnqueue? {
      EnqueueKeepsTask(cfg, s, step, id);
    } else if step.ClaimNext? || Actor(step).Some? {
      WorkerKeepsTask(cfg, s, step, id);
    } else if step.PromoteDue? {
      PromoteKeeps(s.world.redis, Ms(step.now), step.limit, id);
    } else if step.ReapExpired? {
      ReapKeeps(s.world.redis, Ms(step.now), step.limit, id);
    } else if !step.RenewLeases? && !step.ExpireRecord? {
      CallKeepsTask(cfg, s, step, id);
    }
  }

  /** A step keeps every unsettled task safe if and only if it is not a late cancel write. */
  lemma LossIsExactlyALateCancelWrite(cfg: Settings, s: Tracked, step: Step)
    requires NothingLost(s) && Enabled(s.world, step)
    ensures NothingLost(Next(cfg, s, step)) <==> !LateCancelWrite(s, step)
  {
    StepKeepsKeys(cfg, s.world, step);
    var s' := Next(cfg, s, step);
    if LateCancelWrite(s, step) {
      assert !Kept(s'.world.redis, s.world.cancels[step.call].id);
    } else {
      forall id | id in s'.unsettled ensures Kept(s'.world.redis, id) {
        if id in s.unsettled && SettledId(s.world, step) != Some(id) {
          StepKeepsTask(cfg, s, step, id);
        }
      }
    }
  }

  /** A run without any discipline. */
  ghost predicate Possible(cfg: Settings, s: Tracked, steps: seq<Step>)
    decreases |steps|
  {
    steps == [] || (Enabled(s.world, steps[0]) && Possible(cfg, Next(cfg, s, steps[0]), steps[1..]))
  }

  /** Nothing is lost in any state of the run. */
  ghost predicate NeverLoses(cfg: Settings, s: Tracked, steps: seq<Step>)
    requires Possible(cfg, s, steps)
    decreases |steps|
  {
    NothingLost(s) && (steps == [] || NeverLoses(cfg, Next(cfg, s, steps[0]), steps[1..]))
  }

  ghost predicate NoLateCancelWrite(cfg: Settings, s: Tracked, steps: seq<Step>)
    requires Possible(cfg, s, steps)
    decreases |steps|
  {
    steps == [] || (!LateCancelWrite(s, steps[0]) && NoLateCancelWrite(cfg, Next(cfg, s, steps[0]), steps[1..]))
  }

  lemma {:induction false} LossNeedsALateCancelWrite(cfg: Settings, s: Tracked, steps: seq<Step>)
    requires Possible(cfg, s, steps) && NothingLost(s)
    ensures NeverLoses(cfg, s, steps) <==> NoLateCancelWrite(cfg, s, steps)
    decreases |steps|
  {
    if steps != [] {
      LossIsExactlyALateCancelWrite(cfg, s, steps[0]);
      if !LateCancelWrite(s, steps[0]) {
        LossNeedsALateCancelWrite(cfg, Next(cfg, s, steps[0]), steps[1..]);
      }
    }
  }

  /** The exact condition over whole runs with no discipline at all: no state of the run has lost an
      unsettled task if and only if no step of it is a late cancel write. */
  lemma RunsLoseOnlyByLateCancelWrites(cfg: Settings, steps: seq<Step>)
    requires Possible(cfg, Tracked(INITIAL, {}), steps)
    ensures NeverLoses(cfg, Tracked(INITIAL, {}), steps) <==> NoLateCancelWrite(cfg, Tracked(INITIAL, {}), steps)
  {
    LossNeedsALateCancelWrite(cfg, Tracked(INITIAL, {}), steps);
  }

  /** Outside cancel gaps an id under cancellation does not become unsettled. */
  lemma CancelledStaySettled(cfg: Settings, s: Tracked, step: Step)
    requires Inv(s) && MayStep(s, step)
    ensures var s' := Next(cfg, s, step); forall c | c in s'.world.cancels :: s'.world.cancels[c].id !in s'.unsettled
  {
  }

  lemma StepKeepsInv(cfg: Settings, s: Tracked, step: Step)
    requires Inv(s) && MayStep(s, step)
    ensures Inv(Next(cfg, s, step))
  {
    CancelledStaySettled(cfg, s, step);
    LossIsExactlyALateCancelWrite(cfg, s, step);
  }

  lemma {:induction false} RunKeepsInv(cfg: Settings, s: Tracked, steps: seq<Step>)
    requires Inv(s) && Legal(cfg, s, steps)
    ensures Inv(Run(cfg, s, steps))
    decreases |steps|
  {
    if steps != [] {
      StepKeepsInv(cfg, s, steps[0]);
      RunKeepsInv(cfg, Next(cfg, s, steps[0]), steps[1..]);
    }
  }

  /** The delivery guarantee. In every run whose cancels are not overtaken by a requeue of the same id,
      each unsettled task is ready, delayed or leased, and its record exists without a TTL. */
  lemma UnsettledTasksAreNeverLost(cfg: Settings, steps: seq<Step>)
    requires Legal(cfg, Tracked(INITIAL, {}), steps)
    ensures var s := Run(cfg, Tracked(INITIAL, {}), steps);
            forall id | id in s.unsettled :: Kept(s.world.redis, id)
  {
    RunKeepsInv(cfg, Tracked(INITIAL, {}), steps);
  }

  // ---------------------------------------------------------------- crash-stop runs

  lemma {:induction false} CrashStopIsLegal(cfg: Settings, s: Tracked, steps: seq<Step>)
    requires C.Inv(s.world) && C.Legal(cfg, s.world, steps)
    ensures Legal(cfg, s, steps) && Run(cfg, s, steps).world == C.Run(cfg, s.world, steps)
    decreases |steps|
  {
    if steps != [] {
      C.CancelGapsTakeCareOfThemselves(s.world, steps[0]);
      C.StepKeepsInv(cfg, s.world, steps[0]);
      CrashStopIsLegal(cfg, Next(cfg, s, steps[0]), steps[1..]);
    }
  }

  /** In crash-stop runs the guarantee holds with no assumption on cancels and requeues. */
  lemma CrashStopNeverLosesTasks(cfg: Settings, steps: seq<Step>)
    requires C.Legal(cfg, INITIAL, steps)
    ensures Legal(cfg, Tracked(INITIAL, {}), steps)
    ensures forall id | id in Run(cfg, Tracked(INITIAL, {}), steps).unsettled ::
          Kept(C.Run(cfg, INITIAL, steps).redis, id)
  {
    assert C.Inv(INITIAL);
    CrashStopIsLegal(cfg, Tracked(INITIAL, {}), steps);
    UnsettledTasksAreNeverLost(cfg, steps);
  }

  // ---------------------------------------------------------------- the gap is real

  /** `steps` leads from `s` to `t`, with no discipline on who may act when. */
  ghost predicate Leads(cfg: Settings, s: Tracked, steps: seq<Step>, t: Tracked)
    decreases |steps|
  {
    if steps == [] then s == t
    else Enabled(s.world, steps[0]) && Leads(cfg, Next(cfg, s, steps[0]), steps[1..], t)
  }

  lemma {:induction false} OneMore(cfg: Settings, s: Tracked, steps: seq<Step>, t: Tracked, step: Step)
    requires Leads(cfg, s, steps, t) && Enabled(t.world, step)
    ensures Leads(cfg, s, steps + [step], Next(cfg, t, step))
    decreases |steps|
  {
    if steps == [] {
      assert ([] + [step])[1..] == [];
    } else {
      assert (steps + [step])[1..] == steps[1..] + [step];
      OneMore(cfg, Next(cfg, s, steps[0]), steps[1..], t, step);
    }
  }

  ghost predicate Reachable(cfg: Settings, t: Tracked) {
    exists steps :: Leads(cfg, Tracked(INITIAL, {}), steps, t)
  }

  lemma Extend(cfg: Settings, t: Tracked, step: Step) returns (t': Tracked)
    requires Reachable(cfg, t) && Enabled(t.world, step)
    ensures t' == Next(cfg, t, step) && Reachable(cfg, t')
  {
    t' := Next(cfg, t, step);
    var steps :| Leads(cfg, Tracked(INITIAL, {}), steps, t);
    OneMore(cfg, Tracked(INITIAL, {}), steps, t, step);
  }

  ghost predicate Gone(s: Tracked, id: TaskId) {
    && id in s.unsettled && id !in s.world.redis.tasks
    && id !in s.world.redis.ready && id !in s.world.redis.delayed && id !in s.world.redis.inflight
  }

  /** Only `id` exists: it is ready, and worker 1 still believes to hold it. */
  ghost predicate ReapedOnly(s: Tracked, id: TaskId) {
    var r := s.world.redis;
    && r.ready.Keys == {id} && r.delayed == map[] && r.inflight == map[] && r.dlq == []
    && id in r.tasks && r.tasks[id].task.id == id && r.tasks[id].task.status == Status.Running
    && s.world.executions.Keys == {1} && s.world.executions[1].phase == Executing
    && s.world.executions[1].task.id == id && s.world.executions[1].stale
    && s.world.cancels == map[] && s.world.requeues == map[]
  }

  lemma ARunningTask(cfg: Settings, task: Task) returns (t: Tracked)
    requires task.eta.None?
    ensures Reachable(cfg, t) && t.world.executions.Keys == {1}
    ensures t.world.executions[1].phase == Executing && t.world.executions[1].task.id == task.id
    ensures t.world.cancels == map[] && t.world.requeues == map[]
    ensures var r := t.world.redis;
            && r.ready == map[] && r.delayed == map[] && r.dlq == []
            && r.inflight == map[task.id := Lease(cfg, 1.0)]
            && task.id in r.tasks && r.tasks[task.id].task.id == task.id
            && r.tasks[task.id].task.status == Status.Running
  {
    assert Leads(cfg, Tracked(INITIAL, {}), [], Tracked(INITIAL, {}));
    t := Extend(cfg, Tracked(INITIAL, {}), Submit(task, 1.0));
    FirstIsUnique(t.world.redis.ready, task.id);
    t := Extend(cfg, t, ClaimNext(1, 1.0, 1.0));
    t := Extend(cfg, t, Start(1, 1.0));
  }

  lemma ReapOnlyLease(r: Redis, id: TaskId, now: int)
    requires r.inflight == map[id := now] && r.ready == map[] && id in r.tasks
    ensures id in RangeByScore(r.inflight, now, -1)
    ensures Reap(r, now, -1).ready.Keys == {id} && Reap(r, now, -1).inflight == map[]
  {
    assert Due(r.inflight, now) == r.inflight;
    SortedElements(r.inflight);
    var batch := RangeByScore(r.inflight, now, -1);
    assert Elements(batch) == {id};
    MoveAllKeys(Transfer(r.inflight, r.ready, r.sequence), r.tasks, batch);
  }

  lemma AReapedTask(cfg: Settings, task: Task) returns (t: Tracked)
    requires task.eta.None?
    ensures Reachable(cfg, t) && ReapedOnly(t, task.id)
  {
    var late := 1.0 + cfg.visibilityTimeout;
    var s := ARunningTask(cfg, task);
    ReapOnlyLease(s.world.redis, task.id, Ms(late));
    t := Extend(cfg, s, ReapExpired(-1, late));
  }

  lemma CancelledOnly(cfg: Settings, s: Tracked, id: TaskId, now: real) returns (t: Tracked)
    requires Reachable(cfg, s) && ReapedOnly(s, id)
    ensures Reachable(cfg, t) && 0 in t.world.cancels && t.world.requeues == map[]
    ensures t.world.cancels[0].read.Some? && t.world.cancels[0].read.value.id == id
    ensures t.world.redis == Withdraw(s.world.redis, id) && t.world.executions == s.world.executions
  {
    t := Extend(cfg, s, CancelRemove(0, id, now));
    t := Extend(cfg, t, CancelRead(0, now));
  }

  lemma CancelledAndBuried(cfg: Settings, s: Tracked, id: TaskId, now: real) returns (t: Tracked)
    requires Reachable(cfg, s) && ReapedOnly(s, id)
    ensures Reachable(cfg, t) && 0 in t.world.cancels && t.world.requeues == map[]
    ensures t.world.cancels[0].read.Some? && t.world.cancels[0].read.value.id == id
    ensures var r := t.world.redis; r.ready == map[] && r.delayed == map[] && r.inflight == map[] && r.dlq == [id]
    ensures id in t.world.redis.tasks && t.world.redis.tasks[id].task.id == id && t.world.executions == map[]
  {
    t := CancelledOnly(cfg, s, id, now);
    t := Extend(cfg, t, Bury(1, "", None, now));
  }

  lemma UnburiedAndRead(cfg: Settings, s: Tracked, id: TaskId, now: real) returns (t: Tracked)
    requires Reachable(cfg, s) && s.world.requeues == map[] && s.world.executions == map[]
    requires id in s.world.redis.tasks && s.world.redis.tasks[id].task.id == id && s.world.redis.dlq == [id]
    ensures Reachable(cfg, t) && t.world.cancels == s.world.cancels && t.world.executions == map[]
    ensures 0 in t.world.requeues && t.world.requeues[0].read.Some? && t.world.requeues[0].read.value.id == id
    ensures t.world.redis == s.world.redis.(dlq := t.world.redis.dlq)
  {
    t := Extend(cfg, s, RequeueRemove(0, id, now));
    t := Extend(cfg, t, RequeueRead(0, now));
  }

  lemma RequeuedMeanwhile(cfg: Settings, s: Tracked, id: TaskId, now: real) returns (t: Tracked)
    requires Reachable(cfg, s) && s.world.requeues == map[] && s.world.executions == map[]
    requires id in s.world.redis.tasks && s.world.redis.tasks[id].task.id == id
    requires var r := s.world.redis; r.ready == map[] && r.delayed == map[] && r.inflight == map[] && r.dlq == [id]
    ensures Reachable(cfg, t) && t.world.cancels == s.world.cancels && t.world.executions == map[]
    ensures var r := t.world.redis; r.ready.Keys == {id} && r.delayed == map[] && r.inflight == map[]
    ensures id in t.unsettled
  {
    t := UnburiedAndRead(cfg, s, id, now);
    t := Extend(cfg, t, RequeueEnqueue(0, true, now));
  }

  lemma WrittenExpiredDropped(cfg: Settings, s: Tracked, id: TaskId, now: real) returns (t: Tracked)
    requires Reachable(cfg, s) && 0 in s.world.cancels && s.world.executions == map[]
    requires s.world.cancels[0].read.Some? && s.world.cancels[0].read.value.id == id
    requires var r := s.world.redis; r.ready.Keys == {id} && r.delayed == map[] && r.inflight == map[]
    requires id in s.unsettled
    ensures Reachable(cfg, t) && Gone(t, id)
  {
    t := Extend(cfg, s, CancelWrite(0, now));
    t := Extend(cfg, t, ExpireRecord(id, now));
    FirstIsUnique(t.world.redis.ready, id);
    t := Extend(cfg, t, ClaimNext(2, now, now));
  }

  /** A reaped task is cancelled, then buried by its old holder and requeued before the cancel writes
      its record: the requeued task's record gets a TTL, expires, and the task disappears. */
  lemma OvertakenCancelLosesATask(cfg: Settings, task: Task)
    requires task.eta.None?
    ensures exists t :: Reachable(cfg, t) && Gone(t, task.id)
  {
    var now := 2.0 + cfg.visibilityTimeout;
    var t := AReapedTask(cfg, task);
    t := CancelledAndBuried(cfg, t, task.id, now);
    t := RequeuedMeanwhile(cfg, t, task.id, now);
    t := WrittenExpiredDropped(cfg, t, task.id, now);
  }
}
