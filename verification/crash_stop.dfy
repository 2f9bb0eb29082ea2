/** Crash-stop runs: once a lease is reaped its holder takes no more steps, and only `requeue_dlq`
    enqueues an id twice. In such runs every task is in at most one place, its stored status says
    which, and tasks are conserved. */
module CrashStopRuns {
  import opened Util
  import opened Zset
  import opened Models
  import opened Store
  import opened Protocol

  predicate MayStep(w: World, step: Step) {
    Enabled(w, step) && FreshIds(w, step) && CrashStop(w, step)
  }

  ghost predicate Legal(cfg: Settings, w: World, steps: seq<Step>)
    decreases |steps|
  {
    steps == [] || (MayStep(w, steps[0]) && Legal(cfg, Apply(cfg, w, steps[0]), steps[1..]))
  }

  ghost function Run(cfg: Settings, w: World, steps: seq<Step>): World
    requires Legal(cfg, w, steps)
    decreases |steps|
  {
    if steps == [] then w else Run(cfg, Apply(cfg, w, steps[0]), steps[1..])
  }

  // ---------------------------------------------------------------- the invariant

  const LIVE: set<Status> := {Pending, Scheduled, Running, Failed}

  function Places(w: World, id: TaskId): int {
    var r := w.redis;
    (if id in r.ready then 1 else 0) + (if id in r.delayed then 1 else 0) +
    (if id in r.inflight then 1 else 0) + (if id in r.dlq then 1 else 0) +
    (if id in CancelledIds(w) then 1 else 0) + (if id in RequeuedIds(w) then 1 else 0)
  }

  predicate Active(w: World, id: TaskId) {
    id in w.redis.ready || id in w.redis.delayed || id in w.redis.inflight || id in CancelledIds(w)
  }

  /** Where an id is, and what its record then says. */
  predicate IdOk(w: World, id: TaskId) {
    var r := w.redis;
    && Places(w, id) <= 1
    && (Places(w, id) == 1 || id in r.tasks ==> id in w.used)
    && (Active(w, id) ==> id in r.tasks)
    && (id in r.tasks ==>
          var record := r.tasks[id];
          && record.task.id == id
          && (if Active(w, id) then
                record.ttl.None? && record.task.status in (if id in r.delayed then {Scheduled, Failed} else LIVE)
              else if Places(w, id) == 1 then
                record.ttl.Some? && record.task.status == Dead
              else
                record.ttl.Some? && record.task.status in {Success, Cancelled}))
  }

  ghost predicate IdsOk(w: World) {
    forall id :: IdOk(w, id)
  }

  /** A live execution holds a lease, alone, and its copy of the task is the stored one. */
  ghost predicate ExecutionsOk(w: World) {
    && (forall e | e in w.executions && !w.executions[e].stale ::
          var task := w.executions[e].task;
          task.id in w.redis.inflight && task.id in w.redis.tasks && w.redis.tasks[task.id].task == task)
    && (forall e, f | e in w.executions && f in w.executions && e != f
                      && !w.executions[e].stale && !w.executions[f].stale ::
          w.executions[e].task.id != w.executions[f].task.id)
  }

  ghost predicate DistinctCalls(calls: map<nat, Call>) {
    forall c, d | c in calls && d in calls && c != d :: calls[c].id != calls[d].id
  }

  ghost predicate CallsOk(w: World) {
    && DistinctCalls(w.cancels) && DistinctCalls(w.requeues)
    && (forall c | c in w.cancels && w.cancels[c].read.Some? ::
          w.cancels[c].id in w.redis.tasks && w.redis.tasks[w.cancels[c].id].task == w.cancels[c].read.value)
    && (forall c | c in w.requeues && w.requeues[c].read.Some? ::
          var task := w.requeues[c].read.value;
          && task.id == w.requeues[c].id
          && (task.id in w.redis.tasks ==> w.redis.tasks[task.id].task == task))
  }

  ghost predicate Inv(w: World) {
    IdsOk(w) && ExecutionsOk(w) && CallsOk(w) && NoDuplicates(w.redis.dlq)
  }

  // ---------------------------------------------------------------- one lemma per kind of step

  lemma SubmitKeeps(cfg: Settings, w: World, step: Step)
    requires Inv(w) && MayStep(w, step) && step.Submit?
    ensures Inv(Apply(cfg, w, step))
  {
    var w' := Apply(cfg, w, step);
    forall id ensures IdOk(w', id) {
      assert IdOk(w, id);
    }
    assert IdOk(w, step.task.id);
  }

  lemma ClaimKeeps(cfg: Settings, w: World, step: Step)
    requires Inv(w) && MayStep(w, step) && step.ClaimNext?
    ensures Inv(Apply(cfg, w, step))
  {
    var w' := Apply(cfg, w, step);
    if w.redis.ready != map[] {
      assert IdOk(w, First(w.redis.ready));
    }
    forall id ensures IdOk(w', id) {
      assert IdOk(w, id);
    }
  }

  lemma StartKeeps(cfg: Settings, w: World, step: Step)
    requires Inv(w) && MayStep(w, step) && step.Start?
    ensures Inv(Apply(cfg, w, step))
  {
    var w' := Apply(cfg, w, step);
    assert IdOk(w, w.executions[step.worker].task.id);
    forall id ensures IdOk(w', id) {
      assert IdOk(w, id);
    }
  }

  lemma SettleKeepsIds(cfg: Settings, w: World, step: Step)
    requires Inv(w) && MayStep(w, step) && (step.Acknowledge? || step.RetryLater? || step.Bury?)
    ensures IdsOk(Apply(cfg, w, step))
  {
    var w' := Apply(cfg, w, step);
    assert IdOk(w, w.executions[step.worker].task.id);
    forall id ensures IdOk(w', id) {
      assert IdOk(w, id);
    }
  }

  lemma SettleKeeps(cfg: Settings, w: World, step: Step)
    requires Inv(w) && MayStep(w, step) && (step.Acknowledge? || step.RetryLater? || step.Bury?)
    ensures Inv(Apply(cfg, w, step))
  {
    SettleKeepsIds(cfg, w, step);
    var id := w.executions[step.worker].task.id;
    assert IdOk(w, id);
    assert id !in CancelledIds(w) && id !in RequeuedIds(w);
  }

  lemma RenewKeeps(cfg: Settings, w: World, step: Step)
    requires Inv(w) && MayStep(w, step) && step.RenewLeases?
    ensures Inv(Apply(cfg, w, step))
  {
    var w' := Apply(cfg, w, step);
    forall id ensures IdOk(w', id) {
      assert IdOk(w, id);
    }
  }

  lemma SweepMoves(w: World, q: Transfer, batch: seq<TaskId>)
    requires forall id | id in batch :: id in w.redis.tasks
    ensures var p := MoveAll(q, w.redis.tasks, batch);
            p.source == q.source - Elements(batch) && p.ready.Keys == q.ready.Keys + Elements(batch)
  {
    MoveAllKeys(q, w.redis.tasks, batch);
    assert Elements(batch) * w.redis.tasks.Keys == Elements(batch);
  }

  lemma PromoteKeeps(cfg: Settings, w: World, step: Step)
    requires Inv(w) && MayStep(w, step) && step.PromoteDue?
    ensures Inv(Apply(cfg, w, step))
  {
    var w' := Apply(cfg, w, step);
    var batch := RangeByScore(w.redis.delayed, Ms(step.now), step.limit);
    forall id | id in batch ensures id in w.redis.tasks {
      assert IdOk(w, id);
    }
    SweepMoves(w, Transfer(w.redis.delayed, w.redis.ready, w.redis.sequence), batch);
    forall id ensures IdOk(w', id) {
      assert IdOk(w, id);
    }
  }

  lemma ReapKeeps(cfg: Settings, w: World, step: Step)
    requires Inv(w) && MayStep(w, step) && step.ReapExpired?
    ensures Inv(Apply(cfg, w, step))
  {
    var w' := Apply(cfg, w, step);
    var batch := RangeByScore(w.redis.inflight, Ms(step.now), step.limit);
    forall id | id in batch ensures id in w.redis.tasks {
      assert IdOk(w, id);
    }
    SweepMoves(w, Transfer(w.redis.inflight, w.redis.ready, w.redis.sequence), batch);
    forall id ensures IdOk(w', id) {
      assert IdOk(w, id);
    }
  }

  lemma CallAdded(calls: map<nat, Call>, c: nat, call: Call)
    requires c in calls ==> calls[c].id == call.id
    ensures CallIds(calls[c := call]) == CallIds(calls) + {call.id}
  {
    var after := calls[c := call];
    assert c in after && after[c].id == call.id;
    forall id | id in CallIds(calls) ensures id in CallIds(after) {
      var d :| d in calls && calls[d].id == id;
      assert d in after && after[d].id == id;
    }
  }

  lemma CallRemoved(calls: map<nat, Call>, c: nat)
    requires DistinctCalls(calls) && c in calls
    ensures CallIds(calls - {c}) == CallIds(calls) - {calls[c].id}
  {
    var after := calls - {c};
    forall id | id in CallIds(calls) - {calls[c].id} ensures id in CallIds(after) {
      var d :| d in calls && calls[d].id == id;
      assert d in after && after[d].id == id;
    }
  }

  lemma CancelRemoveKeepsIds(cfg: Settings, w: World, step: Step)
    requires Inv(w) && MayStep(w, step) && step.CancelRemove?
    ensures IdsOk(Apply(cfg, w, step))
  {
    var w' := Apply(cfg, w, step);
    assert IdOk(w, step.id);
    CallAdded(w.cancels, step.call, Call(step.id, None));
    forall id ensures IdOk(w', id) {
      assert IdOk(w, id);
    }
  }

  lemma CancelRemoveKeeps(cfg: Settings, w: World, step: Step)
    requires Inv(w) && MayStep(w, step) && step.CancelRemove?
    ensures Inv(Apply(cfg, w, step))
  {
    CancelRemoveKeepsIds(cfg, w, step);
    assert IdOk(w, step.id);
    forall c | c in w.cancels ensures w.cancels[c].id in CancelledIds(w) {
    }
  }

  lemma CancelReadKeeps(cfg: Settings, w: World, step: Step)
    requires Inv(w) && MayStep(w, step) && step.CancelRead?
    ensures Inv(Apply(cfg, w, step))
  {
    var w' := Apply(cfg, w, step);
    var c := w.cancels[step.call];
    assert c.id in CancelledIds(w);
    assert IdOk(w, c.id);
    CallAdded(w.cancels, step.call, c.(read := Some(w.redis.tasks[c.id].task)));
    assert CancelledIds(w') == CancelledIds(w);
    forall id ensures IdOk(w', id) {
      assert IdOk(w, id);
    }
  }

  lemma CancelWriteKeeps(cfg: Settings, w: World, step: Step)
    requires Inv(w) && MayStep(w, step) && step.CancelWrite?
    ensures Inv(Apply(cfg, w, step))
  {
    var w' := Apply(cfg, w, step);
    var c := w.cancels[step.call];
    assert c.id in CancelledIds(w);
    assert IdOk(w, c.id);
    CallRemoved(w.cancels, step.call);
    forall id ensures IdOk(w', id) {
      assert IdOk(w, id);
    }
  }

  lemma {:induction false} WithoutFirstElements(s: seq<TaskId>, id: TaskId)
    requires NoDuplicates(s)
    ensures NoDuplicates(WithoutFirst(s, id))
    ensures Elements(WithoutFirst(s, id)) == Elements(s) - {id}
    ensures |WithoutFirst(s, id)| == |s| - (if id in s then 1 else 0)
  {
    if s != [] {
      WithoutFirstElements(s[1..], id);
      assert s == [s[0]] + s[1..];
      assert Elements(s) == {s[0]} + Elements(s[1..]);
      assert s[0] !in Elements(s[1..]);
      if s[0] != id {
        var rest := WithoutFirst(s[1..], id);
        assert Elements([s[0]] + rest) == {s[0]} + Elements(rest);
        assert s[0] !in Elements(rest);
      }
    }
  }

  lemma RequeueRemoveKeeps(cfg: Settings, w: World, step: Step)
    requires Inv(w) && MayStep(w, step) && step.RequeueRemove?
    ensures Inv(Apply(cfg, w, step))
  {
    var w' := Apply(cfg, w, step);
    assert IdOk(w, step.id);
    WithoutFirstElements(w.redis.dlq, step.id);
    CallAdded(w.requeues, step.call, Call(step.id, None));
    forall id ensures IdOk(w', id) {
      assert IdOk(w, id);
      assert id in w'.redis.dlq <==> id in Elements(w'.redis.dlq);
    }
  }

  lemma RequeueReadKeepsIds(cfg: Settings, w: World, step: Step)
    requires Inv(w) && MayStep(w, step) && step.RequeueRead?
    ensures IdsOk(Apply(cfg, w, step))
  {
    var w' := Apply(cfg, w, step);
    var c := w.requeues[step.call];
    assert c.id in RequeuedIds(w);
    assert IdOk(w, c.id);
    CallRemoved(w.requeues, step.call);
    CallAdded(w.requeues, step.call, c.(read := Fetch(w.redis, c.id)));
    forall id ensures IdOk(w', id) {
      assert IdOk(w, id);
    }
  }

  lemma RequeueReadKeeps(cfg: Settings, w: World, step: Step)
    requires Inv(w) && MayStep(w, step) && step.RequeueRead?
    ensures Inv(Apply(cfg, w, step))
  {
    RequeueReadKeepsIds(cfg, w, step);
    assert IdOk(w, w.requeues[step.call].id);
  }

  lemma RequeueEnqueueKeeps(cfg: Settings, w: World, step: Step)
    requires Inv(w) && MayStep(w, step) && step.RequeueEnqueue?
    ensures Inv(Apply(cfg, w, step))
  {
    var w' := Apply(cfg, w, step);
    var c := w.requeues[step.call];
    assert c.id in RequeuedIds(w);
    assert IdOk(w, c.id);
    CallRemoved(w.requeues, step.call);
    forall id ensures IdOk(w', id) {
      assert IdOk(w, id);
    }
  }

  lemma ExpireKeeps(cfg: Settings, w: World, step: Step)
    requires Inv(w) && MayStep(w, step) && step.ExpireRecord?
    ensures Inv(Apply(cfg, w, step))
  {
    var w' := Apply(cfg, w, step);
    assert IdOk(w, step.id);
    forall id ensures IdOk(w', id) {
      assert IdOk(w, id);
    }
  }

  lemma StepKeepsInv(cfg: Settings, w: World, step: Step)
    requires Inv(w) && MayStep(w, step)
    ensures Inv(Apply(cfg, w, step))
  {
    match step
    case Submit(_, _) => SubmitKeeps(cfg, w, step);
    case ClaimNext(_, _, _) => ClaimKeeps(cfg, w, step);
    case Start(_, _) => StartKeeps(cfg, w, step);
    case Acknowledge(_, _, _) => SettleKeeps(cfg, w, step);
    case RetryLater(_, _, _, _, _) => SettleKeeps(cfg, w, step);
    case Bury(_, _, _, _) => SettleKeeps(cfg, w, step);
    case RenewLeases(_, _, _) => RenewKeeps(cfg, w, step);
    case PromoteDue(_, _) => PromoteKeeps(cfg, w, step);
    case ReapExpired(_, _) => ReapKeeps(cfg, w, step);
    case CancelRemove(_, _, _) => CancelRemoveKeeps(cfg, w, step);
    case CancelRead(_, _) => CancelReadKeeps(cfg, w, step);
    case CancelWrite(_, _) => CancelWriteKeeps(cfg, w, step);
    case RequeueRemove(_, _, _) => RequeueRemoveKeeps(cfg, w, step);
    case RequeueRead(_, _) => RequeueReadKeeps(cfg, w, step);
    case RequeueEnqueue(_, _, _) => RequeueEnqueueKeeps(cfg, w, step);
    case ExpireRecord(_, _) => ExpireKeeps(cfg, w, step);
  }

  lemma {:induction false} RunKeepsInv(cfg: Settings, w: World, steps: seq<Step>)
    requires Inv(w) && Legal(cfg, w, steps)
    ensures Inv(Run(cfg, w, steps))
    decreases |steps|
  {
    if steps != [] {
      StepKeepsInv(cfg, w, steps[0]);
      RunKeepsInv(cfg, Apply(cfg, w, steps[0]), steps[1..]);
    }
  }

  lemma RunFromStart(cfg: Settings, steps: seq<Step>)
    requires Legal(cfg, INITIAL, steps)
    ensures Inv(Run(cfg, INITIAL, steps))
  {
    RunKeepsInv(cfg, INITIAL, steps);
  }

  // ---------------------------------------------------------------- what the invariant means

  /** One place per task: the three sorted sets and the dead-letter list share no id, and the list
      holds no id twice. */
  lemma OnePlacePerTask(cfg: Settings, steps: seq<Step>)
    requires Legal(cfg, INITIAL, steps)
    ensures var r := Run(cfg, INITIAL, steps).redis;
            && r.ready.Keys !! r.delayed.Keys !! r.inflight.Keys !! Elements(r.dlq)
            && NoDuplicates(r.dlq)
  {
    RunFromStart(cfg, steps);
    var w := Run(cfg, INITIAL, steps);
    forall id ensures Places(w, id) <= 1 {
      assert IdOk(w, id);
    }
    assert forall id | id in Elements(w.redis.dlq) :: Places(w, id) <= 1;
    assert forall id | id in w.redis.ready :: Places(w, id) <= 1;
    assert forall id | id in w.redis.delayed :: Places(w, id) <= 1;
    assert forall id | id in w.redis.inflight :: Places(w, id) <= 1;
  }

  /** What a stored status says about an id that no cancel and no requeue is working on. */
  predicate StatusTells(r: Redis, id: TaskId) {
    id in r.tasks ==>
      match r.tasks[id].task.status
      case Success => id !in r.ready && id !in r.delayed && id !in r.inflight && id !in r.dlq
      case Cancelled => id !in r.ready && id !in r.delayed && id !in r.inflight && id !in r.dlq
      case Dead => id in r.dlq
      case Pending => id in r.ready || id in r.inflight
      case Running => id in r.inflight || id in r.ready
      case Scheduled => id in r.delayed || id in r.ready || id in r.inflight
      case Failed => id in r.delayed || id in r.ready || id in r.inflight
  }

  /** The status table for one id, with the converse for dead letters: an unexpired record is DEAD exactly
      when its id is on the dead-letter list; queued and leased ids have a record that cannot expire. */
  predicate TableHolds(r: Redis, id: TaskId) {
    && StatusTells(r, id)
    && (id in r.tasks ==> (r.tasks[id].task.status == Dead <==> id in r.dlq))
    && (id in r.ready || id in r.delayed || id in r.inflight ==>
          id in r.tasks && r.tasks[id].ttl.None? && r.tasks[id].task.status in LIVE)
  }

  /** The status table, with the converse for dead letters: an unexpired record is DEAD exactly when
      its id is on the dead-letter list; queued and leased ids have a record that cannot expire. */
  lemma StatusTable(cfg: Settings, steps: seq<Step>, id: TaskId)
    requires Legal(cfg, INITIAL, steps)
    requires id !in CancelledIds(Run(cfg, INITIAL, steps)) && id !in RequeuedIds(Run(cfg, INITIAL, steps))
    ensures TableHolds(Run(cfg, INITIAL, steps).redis, id)
  {
    RunFromStart(cfg, steps);
    assert IdOk(Run(cfg, INITIAL, steps), id);
  }

  /** A running status alone does not say that the task is leased: outside gaps, it is so exactly when the
      task is not ready again. */
  lemma RunningIsLeasedUnlessReady(cfg: Settings, steps: seq<Step>, id: TaskId)
    requires Legal(cfg, INITIAL, steps)
    requires id !in CancelledIds(Run(cfg, INITIAL, steps)) && id !in RequeuedIds(Run(cfg, INITIAL, steps))
    requires id in Run(cfg, INITIAL, steps).redis.tasks
    requires Run(cfg, INITIAL, steps).redis.tasks[id].task.status == Status.Running
    ensures var r := Run(cfg, INITIAL, steps).redis; id in r.inflight <==> id !in r.ready
  {
    RunFromStart(cfg, steps);
    assert IdOk(Run(cfg, INITIAL, steps), id);
  }

  /** So a dequeue finds nothing only when nothing is ready. */
  lemma DequeueIsEmptyOnlyWhenReadyIs(cfg: Settings, steps: seq<Step>, deadline: int)
    requires Legal(cfg, INITIAL, steps)
    ensures var r := Run(cfg, INITIAL, steps).redis;
            Claim(r, deadline).1.None? <==> r.ready == map[]
  {
    RunFromStart(cfg, steps);
    var w := Run(cfg, INITIAL, steps);
    if w.redis.ready != map[] {
      assert IdOk(w, First(w.redis.ready));
    }
  }

  /** In crash-stop runs no requeue can overtake a cancel, so the delivery guarantee needs no further
      assumption there. */
  lemma CancelGapsTakeCareOfThemselves(w: World, step: Step)
    requires Inv(w) && MayStep(w, step)
    ensures OutsideCancelGaps(w, step)
  {
    match EnqueuedId(w, step)
    case None =>
    case Some(id) =>
      assert IdOk(w, id);
      if step.RequeueEnqueue? {
        assert w.requeues[step.call].id in RequeuedIds(w);
      }
  }

  /** The crash-stop discipline is needed: the first settlement that breaks it leaves its task in at most
      one place, and the dead-letter list without duplicates, exactly in these cases. A late ack always
      does; a late retry unless the task is ready, dead or being requeued or cancelled; a late burial
      only if the task is leased again or settled. */
  lemma LateSettlement(cfg: Settings, w: World, step: Step)
    requires Inv(w) && Enabled(w, step) && Actor(step).Some? && !step.Start?
    requires w.executions[step.worker].stale
    ensures var id := w.executions[step.worker].task.id;
            var w' := Apply(cfg, w, step);
            (Places(w', id) <= 1 && NoDuplicates(w'.redis.dlq)) <==>
              (|| step.Acknowledge?
               || id in w.redis.inflight || Places(w, id) == 0
               || (step.RetryLater? && id in w.redis.delayed))
  {
    var id := w.executions[step.worker].task.id;
    var w' := Apply(cfg, w, step);
    assert IdOk(w, id);
    if step.Bury? && id in w.redis.dlq {
      var k :| 0 <= k < |w.redis.dlq| && w.redis.dlq[k] == id;
      assert w'.redis.dlq[0] == w'.redis.dlq[k + 1];
    }
  }

  /** The first step of a worker after its lease was reaped keeps the status table, outside gaps, exactly
      in these cases: a start while the task is ready or leased, an ack or a burial while it is neither
      ready nor delayed, and an ack or a retry while it is not dead. */
  lemma LateStepKeepsTable(cfg: Settings, w: World, step: Step)
    requires Inv(w) && Enabled(w, step) && Actor(step).Some? && w.executions[step.worker].stale
    requires var id := w.executions[step.worker].task.id; id !in CancelledIds(w) && id !in RequeuedIds(w)
    ensures var id := w.executions[step.worker].task.id;
            var r := w.redis;
            TableHolds(Apply(cfg, w, step).redis, id) <==>
              && (step.Start? ==> id in r.ready || id in r.inflight)
              && (step.Acknowledge? || step.Bury? ==> id !in r.ready && id !in r.delayed)
              && (step.Acknowledge? || step.RetryLater? ==> id !in r.dlq)
  {
    assert IdOk(w, w.executions[step.worker].task.id);
  }

  // ---------------------------------------------------------------- conservation

  function Population(w: World): int {
    |w.redis.ready| + |w.redis.delayed| + |w.redis.inflight| + |w.redis.dlq| + |w.requeues|
  }

  datatype Tally = Tally(enqueued: nat, acked: nat, cancelled: nat, expired: nat)

  function Count(t: Tally, w: World, step: Step): Tally {
    match step
    case Submit(_, _) => t.(enqueued := t.enqueued + 1)
    case Acknowledge(_, _, _) => t.(acked := t.acked + 1)
    case CancelRemove(_, id, _) => if RemovedBy(w.redis, id) > 0 then t.(cancelled := t.cancelled + 1) else t
    case RequeueRead(call, _) =>
      if call in w.requeues && w.requeues[call].id !in w.redis.tasks then t.(expired := t.expired + 1) else t
    case _ => t
  }

  ghost function TallyOf(cfg: Settings, t: Tally, w: World, steps: seq<Step>): Tally
    requires Legal(cfg, w, steps)
    decreases |steps|
  {
    if steps == [] then t
    else TallyOf(cfg, Count(t, w, steps[0]), Apply(cfg, w, steps[0]), steps[1..])
  }

  function Balance(t: Tally): int {
    t.enqueued - t.acked - t.cancelled - t.expired
  }

  lemma AddedCount<K, V>(m: map<K, V>, k: K, v: V)
    ensures |m[k := v]| == |m| + (if k in m then 0 else 1)
  {
    assert m[k := v].Keys == m.Keys + {k};
    assert |m| == |m.Keys| && |m[k := v]| == |m[k := v].Keys|;
  }

  lemma RemovedCount<K, V>(m: map<K, V>, k: K)
    ensures |m - {k}| == |m| - (if k in m then 1 else 0)
  {
    assert (m - {k}).Keys == m.Keys - {k};
    assert |m| == |m.Keys| && |m - {k}| == |(m - {k}).Keys|;
  }

  /** A sweep whose ids all have records and are not ready yet moves them one for one. */
  lemma SweepCount(w: World, q: Transfer, batch: seq<TaskId>)
    requires forall id | id in batch :: id in w.redis.tasks && id in q.source && id !in q.ready
    ensures var p := MoveAll(q, w.redis.tasks, batch);
            |p.source| + |p.ready| == |q.source| + |q.ready|
  {
    SweepMoves(w, q, batch);
    var p := MoveAll(q, w.redis.tasks, batch);
    RemoveCount(q.source, Elements(batch));
    assert q.ready.Keys !! Elements(batch);
    assert |p.ready| == |p.ready.Keys| && |q.ready| == |q.ready.Keys|;
  }

  lemma PromoteConserves(w: World, now: int, limit: int)
    requires Inv(w)
    ensures var r := Promote(w.redis, now, limit);
            |r.ready| + |r.delayed| == |w.redis.ready| + |w.redis.delayed|
  {
    var batch := RangeByScore(w.redis.delayed, now, limit);
    forall id | id in batch ensures id in w.redis.tasks && id in w.redis.delayed && id !in w.redis.ready {
      assert IdOk(w, id);
    }
    SweepCount(w, Transfer(w.redis.delayed, w.redis.ready, w.redis.sequence), batch);
  }

  lemma ReapConserves(w: World, now: int, limit: int)
    requires Inv(w)
    ensures var r := Reap(w.redis, now, limit);
            |r.ready| + |r.inflight| == |w.redis.ready| + |w.redis.inflight|
  {
    var batch := RangeByScore(w.redis.inflight, now, limit);
    forall id | id in batch ensures id in w.redis.tasks && id in w.redis.inflight && id !in w.redis.ready {
      assert IdOk(w, id);
    }
    SweepCount(w, Transfer(w.redis.inflight, w.redis.ready, w.redis.sequence), batch);
  }

  lemma EnqueueConserves(r: Redis, task: Task, now: real)
    requires task.id !in r.ready && task.id !in r.delayed
    ensures var r' := Enqueue(r, task, now);
            && |r'.ready| + |r'.delayed| == |r.ready| + |r.delayed| + 1
            && r'.inflight == r.inflight && r'.dlq == r.dlq
  {
    AddedCount(r.ready, task.id, ReadyScore(task.spec.priority, r.sequence + 1));
    AddedCount(r.delayed, task.id, Ms(task.eta.GetOr(0.0)));
  }

  lemma ClaimConserves(w: World, deadline: int)
    requires Inv(w)
    ensures var r' := Claim(w.redis, deadline).0;
            |r'.ready| + |r'.inflight| == |w.redis.ready| + |w.redis.inflight|
            && r'.delayed == w.redis.delayed && r'.dlq == w.redis.dlq
  {
    if w.redis.ready != map[] {
      var id := First(w.redis.ready);
      assert IdOk(w, id);
      RemovedCount(w.redis.ready, id);
      AddedCount(w.redis.inflight, id, deadline);
    }
  }

  lemma RetryConserves(w: World, task: Task, runAt: real)
    requires Inv(w) && task.id in w.redis.inflight
    ensures var r' := Retry(w.redis, task, runAt);
            |r'.delayed| + |r'.inflight| == |w.redis.delayed| + |w.redis.inflight|
  {
    assert IdOk(w, task.id);
    RemovedCount(w.redis.inflight, task.id);
    AddedCount(w.redis.delayed, task.id, Ms(runAt));
  }

  lemma ClaimStepConserves(w: World, worker: nat, deadline: int)
    requires Inv(w)
    ensures Population(ClaimStep(w, worker, deadline)) == Population(w)
  {
    ClaimConserves(w, deadline);
  }

  lemma SettleConserves(cfg: Settings, w: World, step: Step, t: Tally)
    requires Inv(w) && MayStep(w, step) && (step.Acknowledge? || step.Bury?)
    ensures Population(Apply(cfg, w, step)) - Population(w) == Balance(Count(t, w, step)) - Balance(t)
  {
    RemovedCount(w.redis.inflight, w.executions[step.worker].task.id);
  }

  lemma RetryStepConserves(cfg: Settings, w: World, step: Step)
    requires Inv(w) && MayStep(w, step) && step.RetryLater?
    ensures Population(Apply(cfg, w, step)) == Population(w)
  {
    var runAt := step.now + step.delay;
    RetryConserves(w, Rescheduled(w.executions[step.worker].task, step.error, step.tb, runAt), runAt);
  }

  lemma RenewConserves(r: Redis, ids: seq<TaskId>, deadline: int)
    ensures |Renew(r, ids, deadline).inflight| == |r.inflight|
  {
    var r' := Renew(r, ids, deadline);
    assert r'.inflight.Keys == r.inflight.Keys;
    assert |r'.inflight| == |r'.inflight.Keys| && |r.inflight| == |r.inflight.Keys|;
  }

  lemma MaintenanceConserves(cfg: Settings, w: World, step: Step, t: Tally)
    requires Inv(w) && MayStep(w, step)
    requires step.RenewLeases? || step.PromoteDue? || step.ReapExpired? || step.ExpireRecord?
    ensures Population(Apply(cfg, w, step)) - Population(w) == Balance(Count(t, w, step)) - Balance(t)
  {
    match step
    case RenewLeases(ids, base, _) => RenewConserves(w.redis, ids, Lease(cfg, base));
    case PromoteDue(limit, now) => PromoteConserves(w, Ms(now), limit);
    case ReapExpired(limit, now) => ReapConserves(w, Ms(now), limit);
    case ExpireRecord(_, _) =>
  }

  lemma WithdrawConserves(r: Redis, id: TaskId)
    ensures var r' := Withdraw(r, id);
            |r'.ready| + |r'.delayed| == |r.ready| + |r.delayed| - RemovedBy(r, id)
  {
    RemovedCount(r.ready, id);
    RemovedCount(r.delayed, id);
  }

  lemma CancelRemoveConserves(cfg: Settings, w: World, step: Step, t: Tally)
    requires Inv(w) && MayStep(w, step) && step.CancelRemove?
    ensures Population(Apply(cfg, w, step)) - Population(w) == Balance(Count(t, w, step)) - Balance(t)
  {
    WithdrawConserves(w.redis, step.id);
    assert IdOk(w, step.id);
    assert RemovedBy(w.redis, step.id) <= 1;
  }

  lemma CancelRestConserves(cfg: Settings, w: World, step: Step)
    requires Enabled(w, step) && (step.CancelRead? || step.CancelWrite?)
    ensures Population(Apply(cfg, w, step)) == Population(w)
  {
  }

  lemma RequeueRemoveConserves(cfg: Settings, w: World, step: Step)
    requires Inv(w) && MayStep(w, step) && step.RequeueRemove?
    ensures Population(Apply(cfg, w, step)) == Population(w)
  {
    WithoutFirstElements(w.redis.dlq, step.id);
    AddedCount(w.requeues, step.call, Call(step.id, None));
  }

  lemma CallsAfterRead(calls: map<nat, Call>, call: nat, read: Option<Task>)
    requires call in calls
    ensures |calls - {call}| == |calls| - 1
    ensures |calls[call := calls[call].(read := read)]| == |calls|
  {
    RemovedCount(calls, call);
    AddedCount(calls, call, calls[call].(read := read));
  }

  lemma RequeueReadConserves(cfg: Settings, w: World, step: Step, t: Tally)
    requires Inv(w) && MayStep(w, step) && step.RequeueRead?
    ensures Population(Apply(cfg, w, step)) - Population(w) == Balance(Count(t, w, step)) - Balance(t)
  {
    var w' := RequeueReadStep(w, step.call);
    assert w'.redis == w.redis;
    CallsAfterRead(w.requeues, step.call, Fetch(w.redis, w.requeues[step.call].id));
  }

  lemma RequeueEnqueueConserves(cfg: Settings, w: World, step: Step)
    requires Inv(w) && MayStep(w, step) && step.RequeueEnqueue?
    ensures Population(Apply(cfg, w, step)) == Population(w)
  {
    var c := w.requeues[step.call];
    assert c.id in RequeuedIds(w);
    assert IdOk(w, c.id);
    RemovedCount(w.requeues, step.call);
    EnqueueConserves(w.redis, Revived(c.read.value, step.reset), step.now);
  }

  lemma StepConserves(cfg: Settings, w: World, step: Step, t: Tally)
    requires Inv(w) && MayStep(w, step)
    ensures Population(Apply(cfg, w, step)) - Population(w) == Balance(Count(t, w, step)) - Balance(t)
  {
    match step
    case Submit(task, now) =>
      assert IdOk(w, task.id);
      EnqueueConserves(w.redis, task, now);
    case ClaimNext(worker, base, _) => ClaimStepConserves(w, worker, Lease(cfg, base));
    case Start(_, _) =>
    case Acknowledge(_, _, _) => SettleConserves(cfg, w, step, t);
    case Bury(_, _, _, _) => SettleConserves(cfg, w, step, t);
    case RetryLater(_, _, _, _, _) => RetryStepConserves(cfg, w, step);
    case CancelRemove(_, _, _) => CancelRemoveConserves(cfg, w, step, t);
    case CancelRead(_, _) => CancelRestConserves(cfg, w, step);
    case CancelWrite(_, _) => CancelRestConserves(cfg, w, step);
    case RequeueRemove(_, _, _) => RequeueRemoveConserves(cfg, w, step);
    case RequeueRead(_, _) => RequeueReadConserves(cfg, w, step, t);
    case RequeueEnqueue(_, _, _) => RequeueEnqueueConserves(cfg, w, step);
    case _ => MaintenanceConserves(cfg, w, step, t);
  }

  lemma {:induction false} RunConserves(cfg: Settings, w: World, steps: seq<Step>, t: Tally)
    requires Inv(w) && Legal(cfg, w, steps) && Population(w) == Balance(t)
    ensures Population(Run(cfg, w, steps)) == Balance(TallyOf(cfg, t, w, steps))
    decreases |steps|
  {
    if steps != [] {
      StepConserves(cfg, w, steps[0], t);
      StepKeepsInv(cfg, w, steps[0]);
      RunConserves(cfg, Apply(cfg, w, steps[0]), steps[1..], Count(t, w, steps[0]));
    }
  }

  /** Conservation: ready, delayed, leased and dead tasks, and those a requeue holds in its hands, are
      the fresh enqueues minus the acks, the successful cancels and the requeues of expired records. */
  lemma TasksAreConserved(cfg: Settings, steps: seq<Step>)
    requires Legal(cfg, INITIAL, steps)
    ensures Population(Run(cfg, INITIAL, steps)) == Balance(TallyOf(cfg, Tally(0, 0, 0, 0), INITIAL, steps))
  {
    RunConserves(cfg, INITIAL, steps, Tally(0, 0, 0, 0));
  }

  /** The first settlement by a worker whose lease was reaped keeps the balance if and only if its task
      is leased again, or is retried while delayed. */
  lemma LateSettlementConserves(cfg: Settings, w: World, step: Step, t: Tally)
    requires Inv(w) && Enabled(w, step) && Actor(step).Some? && !step.Start?
    requires w.executions[step.worker].stale
    ensures var id := w.executions[step.worker].task.id;
            Population(Apply(cfg, w, step)) - Population(w) == Balance(Count(t, w, step)) - Balance(t) <==>
              id in w.redis.inflight || (step.RetryLater? && id in w.redis.delayed)
  {
    var id := w.executions[step.worker].task.id;
    assert IdOk(w, id);
    RemovedCount(w.redis.inflight, id);
    if step.RetryLater? {
      AddedCount(w.redis.delayed, id, Ms(step.now + step.delay));
    }
  }
}
