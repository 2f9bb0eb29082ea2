/** Ready scores over whole protocol runs: they stay exact and distinct, they carry the producer's
    priority, and the ready set is the 256 lists in every run, whoever interleaves. */
module ReadyScores {
  import opened Util
  import opened Zset
  import opened Models
  import opened Store
  import opened Protocol
  import opened Lanes

  // ---------------------------------------------------------------- protocol steps as queue operations

  function Puts(tasks: map<TaskId, Record>, ids: seq<TaskId>): seq<QueueOp>
    decreases |ids|
  {
    if ids == [] then []
    else (if ids[0] in tasks then [Put(ids[0], tasks[ids[0]].task.spec.priority)] else [])
         + Puts(tasks, ids[1..])
  }

  /** What a step does to the ready set, in terms of the simple form. */
  function QueueOps(w: World, step: Step): seq<QueueOp>
    requires Enabled(w, step)
  {
    var r := w.redis;
    match step
    case Submit(task, now) =>
      if task.eta.Some? && task.eta.value != 0.0 && now < task.eta.value then [] else [Put(task.id, task.spec.priority)]
    case ClaimNext(_, _, _) => [Take]
    case PromoteDue(limit, now) => Puts(r.tasks, RangeByScore(r.delayed, Ms(now), limit))
    case ReapExpired(limit, now) => Puts(r.tasks, RangeByScore(r.inflight, Ms(now), limit))
    case CancelRemove(_, id, _) => [Delete(id)]
    case RequeueEnqueue(call, _, _) =>
      var task := w.requeues[call].read.value;
      [Put(task.id, task.spec.priority)]
    case _ => []
  }

  function Queue(w: World): Ready {
    Ready(w.redis.ready, w.redis.sequence)
  }

  lemma RunOne(q: Ready, op: QueueOp)
    ensures ReadyRun(q, [op]).0 == ReadyStep(q, op).0
  {
    var q1 := ReadyStep(q, op).0;
    assert [op][1..] == [];
    assert ReadyRun(q1, []).0 == q1;
  }

  lemma {:induction false} ReadyRunConcat(q: Ready, a: seq<QueueOp>, b: seq<QueueOp>)
    ensures ReadyRun(q, a + b).0 == ReadyRun(ReadyRun(q, a).0, b).0
    decreases |a|
  {
    if a == [] {
      assert a + b == b;
    } else {
      assert (a + b)[1..] == a[1..] + b;
      ReadyRunConcat(ReadyStep(q, a[0]).0, a[1..], b);
    }
  }

  lemma {:induction false} MoveAllIsPuts(q: Transfer, tasks: map<TaskId, Record>, ids: seq<TaskId>)
    ensures var p := MoveAll(q, tasks, ids);
            ReadyRun(Ready(q.ready, q.sequence), Puts(tasks, ids)).0 == Ready(p.ready, p.sequence)
    decreases |ids|
  {
    if ids != [] {
      var q1 := MoveOne(q, tasks, ids[0]);
      MoveAllIsPuts(q1, tasks, ids[1..]);
      var first := if ids[0] in tasks then [Put(ids[0], tasks[ids[0]].task.spec.priority)] else [];
      assert Puts(tasks, ids) == first + Puts(tasks, ids[1..]);
      ReadyRunConcat(Ready(q.ready, q.sequence), first, Puts(tasks, ids[1..]));
      if ids[0] in tasks {
        RunOne(Ready(q.ready, q.sequence), first[0]);
      }
    }
  }

  lemma EnqueueIsPut(r: Redis, task: Task, now: real)
    ensures var r' := Enqueue(r, task, now);
            ReadyRun(Ready(r.ready, r.sequence),
                     if task.eta.Some? && task.eta.value != 0.0 && now < task.eta.value then []
                     else [Put(task.id, task.spec.priority)]).0
            == Ready(r'.ready, r'.sequence)
  {
    RunOne(Ready(r.ready, r.sequence), Put(task.id, task.spec.priority));
  }

  lemma ClaimIsTake(r: Redis, deadline: int)
    ensures var r' := Claim(r, deadline).0;
            ReadyRun(Ready(r.ready, r.sequence), [Take]).0 == Ready(r'.ready, r'.sequence)
  {
    RunOne(Ready(r.ready, r.sequence), Take);
  }

  lemma StepIsQueueOps(cfg: Settings, w: World, step: Step)
    requires Enabled(w, step)
    ensures ReadyRun(Queue(w), QueueOps(w, step)).0 == Queue(Apply(cfg, w, step))
  {
    var r := w.redis;
    match step
    case Submit(task, now) => EnqueueIsPut(r, task, now);
    case ClaimNext(_, base, _) => ClaimIsTake(r, Lease(cfg, base));
    case PromoteDue(limit, now) =>
      MoveAllIsPuts(Transfer(r.delayed, r.ready, r.sequence), r.tasks, RangeByScore(r.delayed, Ms(now), limit));
    case ReapExpired(limit, now) =>
      MoveAllIsPuts(Transfer(r.inflight, r.ready, r.sequence), r.tasks, RangeByScore(r.inflight, Ms(now), limit));
    case CancelRemove(_, id, _) =>
      RunOne(Queue(w), Delete(id));
      assert id !in r.ready ==> r.ready - {id} == r.ready;
    case RequeueEnqueue(call, reset, now) => EnqueueIsPut(r, Revived(w.requeues[call].read.value, reset), now);
    case _ =>
  }

  // ---------------------------------------------------------------- whole runs

  ghost function AllOps(cfg: Settings, w: World, steps: seq<Step>): seq<QueueOp>
    requires Legal(cfg, w, steps)
    decreases |steps|
  {
    if steps == [] then [] else QueueOps(w, steps[0]) + AllOps(cfg, Apply(cfg, w, steps[0]), steps[1..])
  }

  lemma {:induction false} RunIsQueueOps(cfg: Settings, w: World, steps: seq<Step>)
    requires Legal(cfg, w, steps)
    ensures ReadyRun(Queue(w), AllOps(cfg, w, steps)).0 == Queue(Run(cfg, w, steps))
    decreases |steps|
  {
    if steps != [] {
      var w1 := Apply(cfg, w, steps[0]);
      StepIsQueueOps(cfg, w, steps[0]);
      RunIsQueueOps(cfg, w1, steps[1..]);
      ReadyRunConcat(Queue(w), QueueOps(w, steps[0]), AllOps(cfg, w1, steps[1..]));
    }
  }

  /** Every run of the whole protocol, with no discipline at all: while the counter is below 10^13 the
      ready set is well scored, and it holds exactly what the 256 lists hold after the same enqueues,
      promotions, reaps, dequeues and cancels. */
  lemma ReadySetIsTheLists(cfg: Settings, steps: seq<Step>)
    requires Legal(cfg, INITIAL, steps) && Run(cfg, INITIAL, steps).redis.sequence < PRIORITY_MULTIPLIER
    ensures var r := Run(cfg, INITIAL, steps).redis;
            && WellScored(r.ready, r.sequence)
            && Abstract(r.ready) == ListRun(NO_LISTS, AllOps(cfg, INITIAL, steps)).0
  {
    RunIsQueueOps(cfg, INITIAL, steps);
    RunRefines(Queue(INITIAL), AllOps(cfg, INITIAL, steps));
    var empty: Zset := map[];
    forall p | 0 <= p < LANES ensures Abstract(empty)[p] == [] {
      assert Lane(empty, p) == empty;
    }
    assert Abstract(empty) == NO_LISTS;
  }

  /** Hence all ready scores are pairwise distinct, exact as doubles, and decode to a priority and to a
      sequence number that was handed out. */
  lemma ReadyScoresAreExact(cfg: Settings, steps: seq<Step>)
    requires Legal(cfg, INITIAL, steps) && Run(cfg, INITIAL, steps).redis.sequence < PRIORITY_MULTIPLIER
    ensures var r := Run(cfg, INITIAL, steps).redis;
            && (forall a, b | a in r.ready && b in r.ready && a != b :: r.ready[a] != r.ready[b])
            && (forall id | id in r.ready ::
                  && 0 < r.ready[id] < EXACT_LIMIT
                  && r.ready[id] == ReadyScore(PriorityOf(r.ready[id]), SequenceOf(r.ready[id]))
                  && 0 <= PriorityOf(r.ready[id]) < LANES && 1 <= SequenceOf(r.ready[id]) <= r.sequence)
  {
    ReadySetIsTheLists(cfg, steps);
    var r := Run(cfg, INITIAL, steps).redis;
    WellScoredIsExact(r.ready, r.sequence);
  }

  /** What a dequeue takes in such a run: the head of the lowest-numbered non-empty list. */
  lemma DequeueTakesTheLowestList(cfg: Settings, steps: seq<Step>, deadline: int)
    requires Legal(cfg, INITIAL, steps) && Run(cfg, INITIAL, steps).redis.sequence < PRIORITY_MULTIPLIER
    requires Run(cfg, INITIAL, steps).redis.ready != map[]
    ensures var r := Run(cfg, INITIAL, steps).redis;
            var lists := ListRun(NO_LISTS, AllOps(cfg, INITIAL, steps)).0;
            var l := Lowest(lists, 0);
            && l < LANES
            && Claim(r, deadline).0.ready == r.ready - {lists[l][0]}
            && (lists[l][0] in r.tasks ==> Claim(r, deadline).1 == Some(r.tasks[lists[l][0]].task))
  {
    ReadySetIsTheLists(cfg, steps);
    var r := Run(cfg, INITIAL, steps).redis;
    LowestIsFirst(r.ready);
  }

  // ---------------------------------------------------------------- the decoded priority

  /** The producer's part of every task ever submitted. */
  datatype Tagged = Tagged(world: World, specs: map<TaskId, Spec>)

  function NextTagged(cfg: Settings, s: Tagged, step: Step): Tagged
    requires Enabled(s.world, step)
  {
    Tagged(Apply(cfg, s.world, step), if step.Submit? then s.specs[step.task.id := step.task.spec] else s.specs)
  }

  ghost predicate FreshLegal(cfg: Settings, s: Tagged, steps: seq<Step>)
    decreases |steps|
  {
    steps == [] || (Enabled(s.world, steps[0]) && FreshIds(s.world, steps[0])
                    && FreshLegal(cfg, NextTagged(cfg, s, steps[0]), steps[1..]))
  }

  ghost function FreshRun(cfg: Settings, s: Tagged, steps: seq<Step>): Tagged
    requires FreshLegal(cfg, s, steps)
    decreases |steps|
  {
    if steps == [] then s else FreshRun(cfg, NextTagged(cfg, s, steps[0]), steps[1..])
  }

  predicate Tag(specs: map<TaskId, Spec>, task: Task) {
    task.id in specs && specs[task.id] == task.spec
  }

  ghost predicate Stored(tasks: map<TaskId, Record>, specs: map<TaskId, Spec>) {
    forall id | id in tasks :: tasks[id].task.id == id && Tag(specs, tasks[id].task)
  }

  ghost predicate Scored(ready: Zset, specs: map<TaskId, Spec>) {
    forall id | id in ready :: id in specs && PriorityOf(ready[id]) == specs[id].priority
  }

  ghost predicate TagInv(s: Tagged) {
    var w := s.world;
    && s.specs.Keys == w.used
    && Stored(w.redis.tasks, s.specs)
    && Scored(w.redis.ready, s.specs)
    && (forall e | e in w.executions :: Tag(s.specs, w.executions[e].task))
    && (forall c | c in w.cancels && w.cancels[c].read.Some? :: Tag(s.specs, w.cancels[c].read.value))
    && (forall c | c in w.requeues && w.requeues[c].read.Some? :: Tag(s.specs, w.requeues[c].read.value))
  }

  lemma {:induction false} SweepScored(q: Transfer, tasks: map<TaskId, Record>, ids: seq<TaskId>,
      specs: map<TaskId, Spec>)
    requires Stored(tasks, specs) && Scored(q.ready, specs)
    requires MoveAll(q, tasks, ids).sequence < PRIORITY_MULTIPLIER
    ensures Scored(MoveAll(q, tasks, ids).ready, specs)
    ensures q.sequence <= MoveAll(q, tasks, ids).sequence
    decreases |ids|
  {
    MoveAllIsPuts(q, tasks, ids);
    RunCountsUp(Ready(q.ready, q.sequence), Puts(tasks, ids));
    if ids != [] {
      var q1 := MoveOne(q, tasks, ids[0]);
      MoveAllIsPuts(q1, tasks, ids[1..]);
      RunCountsUp(Ready(q1.ready, q1.sequence), Puts(tasks, ids[1..]));
      if ids[0] in tasks {
        ScoreDecodes(tasks[ids[0]].task.spec.priority, q.sequence + 1);
      }
      SweepScored(q1, tasks, ids[1..], specs);
    }
  }

  lemma EnqueueKeepsTags(r: Redis, task: Task, now: real, specs: map<TaskId, Spec>)
    requires Stored(r.tasks, specs) && Scored(r.ready, specs) && Tag(specs, task)
    requires Enqueue(r, task, now).sequence < PRIORITY_MULTIPLIER
    ensures Stored(Enqueue(r, task, now).tasks, specs) && Scored(Enqueue(r, task, now).ready, specs)
  {
    if !Deferred(task, now) {
      ScoreDecodes(task.spec.priority, r.sequence + 1);
    }
  }

  lemma SubmitKeepsTags(cfg: Settings, s: Tagged, step: Step)
    requires TagInv(s) && Enabled(s.world, step) && FreshIds(s.world, step) && step.Submit?
    requires Apply(cfg, s.world, step).redis.sequence < PRIORITY_MULTIPLIER
    ensures TagInv(NextTagged(cfg, s, step))
  {
    EnqueueKeepsTags(s.world.redis, step.task, step.now, s.specs[step.task.id := step.task.spec]);
  }

  lemma ClaimKeepsTags(s: Tagged, worker: nat, deadline: int)
    requires TagInv(s)
    ensures TagInv(s.(world := ClaimStep(s.world, worker, deadline)))
  {
  }

  lemma WorkerKeepsTags(cfg: Settings, s: Tagged, step: Step)
    requires TagInv(s) && Enabled(s.world, step) && Actor(step).Some?
    ensures TagInv(NextTagged(cfg, s, step))
  {
  }

  lemma MaintenanceKeepsTags(cfg: Settings, s: Tagged, step: Step)
    requires TagInv(s) && Enabled(s.world, step)
    requires step.PromoteDue? || step.ReapExpired? || step.RenewLeases? || step.ExpireRecord?
    requires Apply(cfg, s.world, step).redis.sequence < PRIORITY_MULTIPLIER
    ensures TagInv(NextTagged(cfg, s, step))
  {
    var r := s.world.redis;
    match step
    case PromoteDue(limit, now) =>
      SweepScored(Transfer(r.delayed, r.ready, r.sequence), r.tasks, RangeByScore(r.delayed, Ms(now), limit), s.specs);
    case ReapExpired(limit, now) =>
      SweepScored(Transfer(r.inflight, r.ready, r.sequence), r.tasks, RangeByScore(r.inflight, Ms(now), limit),
          s.specs);
    case _ =>
  }

  lemma CancelKeepsTags(cfg: Settings, s: Tagged, step: Step)
    requires TagInv(s) && Enabled(s.world, step) && (step.CancelRemove? || step.CancelRead? || step.CancelWrite?)
    ensures TagInv(NextTagged(cfg, s, step))
  {
  }

  lemma UnburyKeepsTags(cfg: Settings, s: Tagged, step: Step)
    requires TagInv(s) && Enabled(s.world, step) && (step.RequeueRemove? || step.RequeueRead?)
    ensures TagInv(NextTagged(cfg, s, step))
  {
  }

  lemma RequeueKeepsTags(cfg: Settings, s: Tagged, step: Step)
    requires TagInv(s) && Enabled(s.world, step) && step.RequeueEnqueue?
    requires Apply(cfg, s.world, step).redis.sequence < PRIORITY_MULTIPLIER
    ensures TagInv(NextTagged(cfg, s, step))
  {
    EnqueueKeepsTags(s.world.redis, Revived(s.world.requeues[step.call].read.value, step.reset), step.now, s.specs);
  }

  lemma StepKeepsTags(cfg: Settings, s: Tagged, step: Step)
    requires TagInv(s) && Enabled(s.world, step) && FreshIds(s.world, step)
    requires Apply(cfg, s.world, step).redis.sequence < PRIORITY_MULTIPLIER
    ensures TagInv(NextTagged(cfg, s, step))
  {
    if step.Submit? {
      SubmitKeepsTags(cfg, s, step);
    } else if step.ClaimNext? {
      ClaimKeepsTags(s, step.worker, Lease(cfg, step.base));
    } else if Actor(step).Some? {
      WorkerKeepsTags(cfg, s, step);
    } else if step.RequeueEnqueue? {
      RequeueKeepsTags(cfg, s, step);
    } else if step.PromoteDue? || step.ReapExpired? || step.RenewLeases? || step.ExpireRecord? {
      MaintenanceKeepsTags(cfg, s, step);
    } else if step.RequeueRemove? || step.RequeueRead? {
      UnburyKeepsTags(cfg, s, step);
    } else {
      CancelKeepsTags(cfg, s, step);
    }
  }

  lemma {:induction false} FreshRunKeepsTags(cfg: Settings, s: Tagged, steps: seq<Step>)
    requires TagInv(s) && FreshLegal(cfg, s, steps)
    requires FreshRun(cfg, s, steps).world.redis.sequence < PRIORITY_MULTIPLIER
    ensures TagInv(FreshRun(cfg, s, steps))
    ensures s.world.redis.sequence <= FreshRun(cfg, s, steps).world.redis.sequence
    decreases |steps|
  {
    if steps != [] {
      var s1 := NextTagged(cfg, s, steps[0]);
      FreshRunCountsUp(cfg, s1, steps[1..]);
      FreshRunCountsUp(cfg, s, steps);
      StepKeepsTags(cfg, s, steps[0]);
      FreshRunKeepsTags(cfg, s1, steps[1..]);
    }
  }

  lemma {:induction false} FreshRunCountsUp(cfg: Settings, s: Tagged, steps: seq<Step>)
    requires FreshLegal(cfg, s, steps)
    ensures s.world.redis.sequence <= FreshRun(cfg, s, steps).world.redis.sequence
    decreases |steps|
  {
    if steps != [] {
      StepIsQueueOps(cfg, s.world, steps[0]);
      RunCountsUp(Queue(s.world), QueueOps(s.world, steps[0]));
      FreshRunCountsUp(cfg, NextTagged(cfg, s, steps[0]), steps[1..]);
    }
  }

  /** In any run with fresh ids, stale workers included, a ready score decodes to the priority its
      producer gave, and so does the record where it still exists. */
  lemma ReadyScoresCarryThePriority(cfg: Settings, steps: seq<Step>)
    requires FreshLegal(cfg, Tagged(INITIAL, map[]), steps)
    requires FreshRun(cfg, Tagged(INITIAL, map[]), steps).world.redis.sequence < PRIORITY_MULTIPLIER
    ensures var s := FreshRun(cfg, Tagged(INITIAL, map[]), steps);
            var r := s.world.redis;
            forall id | id in r.ready ::
              && id in s.specs && PriorityOf(r.ready[id]) == s.specs[id].priority
              && (id in r.tasks ==> PriorityOf(r.ready[id]) == r.tasks[id].task.spec.priority)
  {
    FreshRunKeepsTags(cfg, Tagged(INITIAL, map[]), steps);
  }
}
