/** The broker, its producers, its workers and its control plane as one state machine. Every Lua
    script, every MULTI/EXEC pipeline and every single command is one atomic step; `dequeue`, `cancel`
    and `requeue_dlq` take several. Any number of clients interleave, and a client that crashes simply
    takes no further step. */
module Protocol {
  import opened Util
  import opened Zset
  import opened Models
  import opened Store

  datatype Phase = Claimed | Executing

  /** A worker coroutine holding a task. `stale` records that its lease was reaped meanwhile. */
  datatype Execution = Execution(task: Task, phase: Phase, stale: bool)

  /** A cancel whose script, or a requeue whose LREM, removed the id and that is not finished; `read`
      holds the record once it was fetched. */
  datatype Call = Call(id: TaskId, read: Option<Task>)

  datatype World = World(
    redis: Redis,
    executions: map<nat, Execution>,
    cancels: map<nat, Call>,
    requeues: map<nat, Call>,
    used: set<TaskId>)

  const INITIAL: World := World(EMPTY, map[], map[], map[], {})

  /** `now` is the acting client's clock reading; `base` is a reading taken before the command is sent. */
  datatype Step =
    | Submit(task: Task, now: real)
    | ClaimNext(worker: nat, base: real, now: real)
    | Start(worker: nat, now: real)
    | Acknowledge(worker: nat, result: Option<Json>, now: real)
    | RetryLater(worker: nat, error: string, tb: Option<string>, delay: real, now: real)
    | Bury(worker: nat, error: string, tb: Option<string>, now: real)
    | RenewLeases(ids: seq<TaskId>, base: real, now: real)
    | PromoteDue(limit: int, now: real)
    | ReapExpired(limit: int, now: real)
    | CancelRemove(call: nat, id: TaskId, now: real)
    | CancelRead(call: nat, now: real)
    | CancelWrite(call: nat, now: real)
    | RequeueRemove(call: nat, id: TaskId, now: real)
    | RequeueRead(call: nat, now: real)
    | RequeueEnqueue(call: nat, reset: bool, now: real)
    | ExpireRecord(id: TaskId, now: real)

  predicate Holds(w: World, worker: nat, phase: Phase) {
    worker in w.executions && w.executions[worker].phase == phase
  }

  predicate Enabled(w: World, step: Step) {
    match step
    case Submit(_, _) => true
    case ClaimNext(worker, _, _) => worker !in w.executions
    case Start(worker, _) => Holds(w, worker, Claimed)
    case Acknowledge(worker, _, _) => Holds(w, worker, Executing)
    case RetryLater(worker, _, _, _, _) => Holds(w, worker, Executing)
    case Bury(worker, _, _, _) => Holds(w, worker, Executing)
    case RenewLeases(_, _, _) => true
    case PromoteDue(_, _) => true
    case ReapExpired(_, _) => true
    case CancelRemove(call, _, _) => call !in w.cancels
    case CancelRead(call, _) => call in w.cancels && w.cancels[call].read.None?
    case CancelWrite(call, _) => call in w.cancels && w.cancels[call].read.Some?
    case RequeueRemove(call, _, _) => call !in w.requeues
    case RequeueRead(call, _) => call in w.requeues && w.requeues[call].read.None?
    case RequeueEnqueue(call, _, _) => call in w.requeues && w.requeues[call].read.Some?
    case ExpireRecord(id, _) => id in w.redis.tasks && w.redis.tasks[id].ttl.Some?
  }

  function Fetch(r: Redis, id: TaskId): Option<Task> {
    if id in r.tasks then Some(r.tasks[id].task) else None
  }

  function ClaimStep(w: World, worker: nat, deadline: int): World {
    var (redis, got) := Claim(w.redis, deadline);
    match got
    case None => w.(redis := redis)
    case Some(task) => w.(redis := redis, executions := w.executions[worker := Execution(task, Claimed, false)])
  }

  function StartStep(w: World, worker: nat, now: real): World
    requires worker in w.executions
  {
    var e := w.executions[worker];
    var task := Started(e.task, now);
    w.(redis := Save(w.redis, task, None), executions := w.executions[worker := e.(task := task, phase := Executing)])
  }

  function Finish(w: World, worker: nat, redis: Redis): World {
    w.(redis := redis, executions := w.executions - {worker})
  }

  /** Reaping returns the leases in the batch; whoever held them is stale from now on. */
  function ReapStep(w: World, now: int, limit: int): World {
    var batch := RangeByScore(w.redis.inflight, now, limit);
    w.(redis := Reap(w.redis, now, limit),
       executions := map e | e in w.executions ::
         if w.executions[e].task.id in batch then w.executions[e].(stale := true) else w.executions[e])
  }

  function CancelReadStep(w: World, call: nat): World
    requires call in w.cancels
  {
    match Fetch(w.redis, w.cancels[call].id)
    case None => w.(cancels := w.cancels - {call})
    case Some(task) => w.(cancels := w.cancels[call := w.cancels[call].(read := Some(task))])
  }

  function RequeueReadStep(w: World, call: nat): World
    requires call in w.requeues
  {
    match Fetch(w.redis, w.requeues[call].id)
    case None => w.(requeues := w.requeues - {call})
    case Some(task) => w.(requeues := w.requeues[call := w.requeues[call].(read := Some(task))])
  }

  function Apply(cfg: Settings, w: World, step: Step): World
    requires Enabled(w, step)
  {
    match step
    case Submit(task, now) => w.(redis := Enqueue(w.redis, task, now), used := w.used + {task.id})
    case ClaimNext(worker, base, _) => ClaimStep(w, worker, Lease(cfg, base))
    case Start(worker, now) => StartStep(w, worker, now)
    case Acknowledge(worker, result, now) =>
      Finish(w, worker, Ack(w.redis, Succeeded(w.executions[worker].task, result, now), ResultTtl(cfg)))
    case RetryLater(worker, error, tb, delay, now) =>
      Finish(w, worker, Retry(w.redis, Rescheduled(w.executions[worker].task, error, tb, now + delay), now + delay))
    case Bury(worker, error, tb, now) =>
      Finish(w, worker, DeadLetter(w.redis, Buried(w.executions[worker].task, error, tb, now), DeadTtl(cfg)))
    case RenewLeases(ids, base, _) => w.(redis := Renew(w.redis, ids, Lease(cfg, base)))
    case PromoteDue(limit, now) => w.(redis := Promote(w.redis, Ms(now), limit))
    case ReapExpired(limit, now) => ReapStep(w, Ms(now), limit)
    case CancelRemove(call, id, _) =>
      if RemovedBy(w.redis, id) == 0 then w
      else w.(redis := Withdraw(w.redis, id), cancels := w.cancels[call := Call(id, None)])
    case CancelRead(call, _) => CancelReadStep(w, call)
    case CancelWrite(call, now) =>
      w.(redis := Save(w.redis, Withdrawn(w.cancels[call].read.value, now), Some(ResultTtl(cfg))),
         cancels := w.cancels - {call})
    case RequeueRemove(call, id, _) =>
      if id !in w.redis.dlq then w
      else w.(redis := Unbury(w.redis, id), requeues := w.requeues[call := Call(id, None)])
    case RequeueRead(call, _) => RequeueReadStep(w, call)
    case RequeueEnqueue(call, reset, now) =>
      var c := w.requeues[call];
      w.(redis := Enqueue(w.redis, Revived(c.read.value, reset), now), requeues := w.requeues - {call})
    case ExpireRecord(id, _) => w.(redis := Expire(w.redis, id))
  }

  // ---------------------------------------------------------------- runs

  /** Every step is possible when it is taken; no discipline on who takes it. */
  ghost predicate Legal(cfg: Settings, w: World, steps: seq<Step>)
    decreases |steps|
  {
    steps == [] || (Enabled(w, steps[0]) && Legal(cfg, Apply(cfg, w, steps[0]), steps[1..]))
  }

  ghost function Run(cfg: Settings, w: World, steps: seq<Step>): World
    requires Legal(cfg, w, steps)
    decreases |steps|
  {
    if steps == [] then w else Run(cfg, Apply(cfg, w, steps[0]), steps[1..])
  }

  // ---------------------------------------------------------------- who acts, and run disciplines

  function Actor(step: Step): Option<nat> {
    match step
    case Start(worker, _) => Some(worker)
    case Acknowledge(worker, _, _) => Some(worker)
    case RetryLater(worker, _, _, _, _) => Some(worker)
    case Bury(worker, _, _, _) => Some(worker)
    case _ => None
  }

  /** New tasks get new ids; only `requeue_dlq` enqueues an old one. */
  predicate FreshIds(w: World, step: Step) {
    step.Submit? ==> step.task.id !in w.used
  }

  /** Crash-stop: once a lease is reaped, its holder takes no more steps. */
  predicate CrashStop(w: World, step: Step) {
    match Actor(step)
    case None => true
    case Some(worker) => worker in w.executions ==> !w.executions[worker].stale
  }

  function CallIds(calls: map<nat, Call>): set<TaskId> {
    set c | c in calls :: calls[c].id
  }

  /** Ids between the script and the record write of a cancel. */
  function CancelledIds(w: World): set<TaskId> {
    CallIds(w.cancels)
  }

  /** Ids between the LREM and the enqueue of a requeue. */
  function RequeuedIds(w: World): set<TaskId> {
    CallIds(w.requeues)
  }

  /** The id that a step (re-)enqueues. */
  function EnqueuedId(w: World, step: Step): Option<TaskId> {
    match step
    case Submit(task, _) => Some(task.id)
    case RequeueEnqueue(call, _, _) =>
      if call in w.requeues && w.requeues[call].read.Some? then Some(w.requeues[call].read.value.id) else None
    case _ => None
  }

  /** No id is enqueued while a cancel of it is between its script and its record write. */
  predicate OutsideCancelGaps(w: World, step: Step) {
    match EnqueuedId(w, step)
    case None => true
    case Some(id) => id !in CancelledIds(w)
  }

  // ---------------------------------------------------------------- the several steps without interruption

  /** A dequeue that nobody interrupts: the first ready task is leased, and its record says RUNNING with
      one attempt more. */
  lemma DequeueInOneGo(cfg: Settings, w: World, worker: nat, base: real, now: real, id: TaskId)
    requires worker !in w.executions && IsFirst(w.redis.ready, id)
    requires id in w.redis.tasks && w.redis.tasks[id].task.id == id
    ensures var w1 := Apply(cfg, w, ClaimNext(worker, base, now));
            && Enabled(w1, Start(worker, now))
            && var t := w.redis.tasks[id].task;
               var running := t.(status := Running, startedAt := Some(now), attempts := t.attempts + 1);
               var w2 := Apply(cfg, w1, Start(worker, now));
               w2.redis == w.redis.(ready := w.redis.ready - {id},
                                    inflight := w.redis.inflight[id := Ms(base + cfg.visibilityTimeout)],
                                    tasks := w.redis.tasks[id := Record(running, None)])
               && worker in w2.executions && w2.executions[worker] == Execution(running, Executing, false)
  {
    FirstIsUnique(w.redis.ready, id);
  }

  /** A cancel of a ready or delayed task that nobody interrupts. */
  lemma CancelInOneGo(cfg: Settings, w: World, call: nat, id: TaskId, now: real)
    requires call !in w.cancels && (id in w.redis.ready || id in w.redis.delayed)
    requires id in w.redis.tasks && w.redis.tasks[id].task.id == id
    ensures var w1 := Apply(cfg, w, CancelRemove(call, id, now));
            && Enabled(w1, CancelRead(call, now))
            && var w2 := Apply(cfg, w1, CancelRead(call, now));
               Enabled(w2, CancelWrite(call, now))
               && var t := w.redis.tasks[id].task.(status := Cancelled, finishedAt := Some(now));
                  Apply(cfg, w2, CancelWrite(call, now)).redis
                  == w.redis.(ready := w.redis.ready - {id}, delayed := w.redis.delayed - {id},
                              tasks := w.redis.tasks[id := Record(t, Some(Truncate(cfg.resultTtl)))])
  {
  }

  /** A requeue of a dead task that nobody interrupts. */
  lemma RequeueInOneGo(cfg: Settings, w: World, call: nat, id: TaskId, reset: bool, now: real)
    requires call !in w.requeues && id in w.redis.dlq && id in w.redis.tasks && w.redis.tasks[id].task.id == id
    ensures var w1 := Apply(cfg, w, RequeueRemove(call, id, now));
            && Enabled(w1, RequeueRead(call, now))
            && var w2 := Apply(cfg, w1, RequeueRead(call, now));
               Enabled(w2, RequeueEnqueue(call, reset, now))
               && var t := w.redis.tasks[id].task;
                  var t' := t.(attempts := if reset then 0 else t.attempts, status := Pending,
                               error := None, traceback := None, eta := None, enqueuedAt := Some(now));
                  var r' := Apply(cfg, w2, RequeueEnqueue(call, reset, now)).redis;
                  && r'.tasks == w.redis.tasks[id := Record(t', None)] && r'.dlq == WithoutFirst(w.redis.dlq, id)
                  && r'.sequence == w.redis.sequence + 1 && r'.delayed == w.redis.delayed
                  && r'.ready == w.redis.ready[id := t.spec.priority * 10_000_000_000_000 + r'.sequence]
  {
  }
}
