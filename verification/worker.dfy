/** The worker pool: an object with its target, its running executions and the leases it renews. */
module Workers {
  import opened Util
  import opened Zset
  import opened Models
  import S = Store
  import P = Pools
  import L = LeaseLoops
  import opened Policy
  import opened Brokers

  /** Every ready task has its record, filed under its own id. */
  ghost predicate Filed(r: S.Redis) {
    forall id | id in r.ready :: id in r.tasks && r.tasks[id].task.id == id
  }

  /** From `r0` to `r` exactly the tasks of `claimed` went from the front of the ready set to the leases. */
  ghost predicate ClaimedInOrder(r0: S.Redis, r: S.Redis, claimed: seq<TaskId>) {
    && Sorted(r0.ready) == claimed + Sorted(r.ready)
    && r.inflight.Keys == r0.inflight.Keys + Elements(claimed)
    && r.delayed == r0.delayed && r.dlq == r0.dlq
  }

  lemma OrderOneMore(order: seq<TaskId>, ready: Zset, claimed: seq<TaskId>)
    requires order == claimed + Sorted(ready) && ready != map[]
    ensures order == claimed + [First(ready)] + Sorted(ready - {First(ready)})
  {
    SortedStep(ready);
  }

  lemma ClaimedOneMore(r0: S.Redis, r1: S.Redis, r2: S.Redis, claimed: seq<TaskId>, id: TaskId)
    requires ClaimedInOrder(r0, r1, claimed) && r1.ready != map[] && id == First(r1.ready)
    requires r2.ready == r1.ready - {id} && r2.inflight.Keys == r1.inflight.Keys + {id}
    requires r2.delayed == r1.delayed && r2.dlq == r1.dlq
    ensures ClaimedInOrder(r0, r2, claimed + [id])
  {
    OrderOneMore(Sorted(r0.ready), r1.ready, claimed);
    ElementsOfSnoc(claimed, id);
  }

  lemma ElementsOfSnoc(ids: seq<TaskId>, id: TaskId)
    ensures Elements(ids + [id]) == Elements(ids) + {id}
  {
  }

  lemma IdsOfSnoc(tasks: seq<Task>, t: Task)
    ensures Ids(tasks + [t]) == Ids(tasks) + [t.id]
  {
  }

  /** What one dequeue of the dispatcher does to the queue. */
  ghost predicate TakesFirst(r0: S.Redis, r: S.Redis, task: Option<Task>, deadline: int) {
    && (r0.ready == map[] ==> task.None? && r == r0)
    && (r0.ready != map[] && Filed(r0) ==>
          && task.Some? && task.value.id == First(r0.ready) && Filed(r)
          && r.ready == r0.ready - {task.value.id} && r.inflight == r0.inflight[task.value.id := deadline]
          && r.delayed == r0.delayed && r.dlq == r0.dlq)
  }

  ghost predicate Progress(r0: S.Redis, r: S.Redis, claimed: seq<Task>) {
    Filed(r0) ==> Filed(r) && ClaimedInOrder(r0, r, Ids(claimed))
  }

  /** With a record for every ready task at the start, nothing is ready any more. */
  ghost predicate Emptied(r0: S.Redis, r: S.Redis) {
    Filed(r0) ==> r.ready == map[]
  }

  /** The names of the executions are below `n`. */
  predicate Below(executions: set<nat>, n: nat) {
    forall x | x in executions :: x < n
  }

  lemma ProgressStep(r0: S.Redis, r1: S.Redis, r2: S.Redis, claimed: seq<Task>, task: Option<Task>, deadline: int)
    requires Progress(r0, r1, claimed) && TakesFirst(r1, r2, task, deadline)
    ensures task.None? ==> Progress(r0, r2, claimed) && Emptied(r0, r2)
    ensures task.Some? ==> Progress(r0, r2, claimed + [task.value])
  {
    if task.Some? && Filed(r0) {
      ClaimedOneMore(r0, r1, r2, Ids(claimed), task.value.id);
      IdsOfSnoc(claimed, task.value);
    }
  }

  // ---------------------------------------------------------------- what a failed attempt leaves behind

  /** The task is dead: off the leases, on the head of the dead-letter list, kept for 24 result TTLs. */
  ghost predicate BuriedIn(cfg: Settings, r: S.Redis, r': S.Redis, task: Task, error: string, tb: Option<string>,
      now: real) {
    && r'.inflight == r.inflight - {task.id} && r'.dlq == [task.id] + r.dlq
    && r'.ready == r.ready && r'.delayed == r.delayed
    && r'.tasks == r.tasks[task.id := Record(
         task.(status := Dead, error := Some(error), traceback := tb, finishedAt := Some(now)),
         Some(Truncate(cfg.resultTtl * 24.0)))]
  }

  /** The task is off the leases and delayed by `delay`, with the attempts it has. */
  ghost predicate PutOffIn(r: S.Redis, r': S.Redis, task: Task, error: string, tb: Option<string>,
                           now: real, delay: real) {
    var runAt := now + delay;
    && r'.inflight == r.inflight - {task.id} && r'.delayed == r.delayed[task.id := Ms(runAt)]
    && r'.ready == r.ready && r'.dlq == r.dlq
    && r'.tasks == r.tasks[task.id := Record(
         task.(status := Failed, error := Some(error), traceback := tb, eta := Some(runAt)), None)]
  }

  /** A failed attempt: within the limit, the task's own or its handler's or the default one, a retryable
      failure is put off by the capped exponential of its attempts, give or take the jitter fraction;
      any other failure buries the task. */
  ghost predicate FailureIn(cfg: Settings, registry: Registry, r: S.Redis, r': S.Redis, task: Task,
                            error: string, tb: Option<string>, retryable: bool, draw: real, now: real) {
    var limit := if task.spec.maxRetries.Some? then task.spec.maxRetries.value
                 else if task.spec.name in registry && registry[task.spec.name].maxRetries.Some?
                 then registry[task.spec.name].maxRetries.value
                 else cfg.defaultMaxRetries;
    if retryable && task.attempts <= limit then
      exists x :: Promised(cfg, task, draw, x) && PutOffIn(r, r', task, error, tb, now, x)
    else
      BuriedIn(cfg, r, r', task, error, tb, now)
  }

  class WorkerPool {
    const cfg: Settings
    const registry: Registry
    const broker: Broker

    var target: int
    var executing: set<nat>
    var awaiting: bool
    var leases: set<TaskId>

    constructor (broker: Broker, registry: Registry)
      ensures this.broker == broker && this.registry == registry && cfg == broker.cfg
      ensures Pool() == P.Initial(cfg) && leases == {}
      ensures target == cfg.workerConcurrency && executing == {} && !awaiting
    {
      this.broker, this.registry, this.cfg := broker, registry, broker.cfg;
      target, executing, awaiting, leases := broker.cfg.workerConcurrency, {}, false, {};
    }

    function Pool(): P.Pool
      reads this
    {
      P.Pool(target, executing, awaiting)
    }

    // -------------------------------------------------------------- dispatcher

    /** The loop guard of the dispatcher; with room it goes on to await a dequeue. */
    method LookForWork() returns (go: bool)
      requires !awaiting
      modifies `awaiting
      ensures Pool() == P.React(cfg, old(Pool()), P.LookForWork)
      ensures go == awaiting == (|executing| < target)
    {
      go := |executing| < target;
      awaiting := go;
    }

    /** The dispatcher resumes with the answer to its dequeue. */
    method Resume(task: Option<Task>, execution: nat)
      requires awaiting
      modifies `executing, `awaiting
      ensures Pool() == P.React(cfg, old(Pool()), if task.Some? then P.GotTask(execution) else P.GotNothing)
      ensures !awaiting && executing == old(executing) + (if task.Some? then {execution} else {})
    {
      awaiting := false;
      if task.Some? {
        executing := executing + {execution};
      }
    }

    /** What the other coroutines of the process do while the dispatcher awaits. */
    method Meanwhile(done: set<nat>, newTarget: int)
      modifies `executing, `target
      ensures executing == old(executing) - done && |executing| <= |old(executing)| && target == newTarget
    {
      assert executing == (executing - done) + (executing * done);
      executing, target := executing - done, newTarget;
    }

    /** Creating the asyncio task of an execution. */
    method Start(execution: nat)
      requires execution !in executing
      modifies `executing
      ensures executing == old(executing) + {execution} && |executing| == |old(executing)| + 1
    {
      executing := executing + {execution};
    }

    /** The dequeue of the dispatcher. */
    method AwaitTask(base: real, now: real) returns (task: Option<Task>)
      requires cfg == broker.cfg
      modifies broker`ready, broker`inflight, broker`tasks
      ensures TakesFirst(old(broker.Store()), broker.Store(), task, S.Lease(cfg, base))
      ensures task.Some? ==> |broker.ready| < |old(broker.ready)|
    {
      ghost var r0 := broker.Store();
      task := broker.Dequeue(base, now);
      if r0.ready != map[] {
        assert IsFirst(r0.ready, First(r0.ready));
        SmallerWithoutFirst(r0.ready);
      }
    }

    /** One turn of the dispatcher's inner loop: the dequeue, what happens while it is awaited, and the new
        execution. */
    method FillSlot(execution: nat, base: real, now: real, done: set<nat>, newTarget: int) returns (task: Option<Task>)
      requires cfg == broker.cfg && execution !in executing
      modifies `executing, `target, broker`ready, broker`inflight, broker`tasks
      ensures TakesFirst(old(broker.Store()), broker.Store(), task, S.Lease(cfg, base)) && target == newTarget
      ensures task.Some? ==> |broker.ready| < |old(broker.ready)|
      ensures executing == old(executing) - done + (if task.Some? then {execution} else {})
      ensures |executing| <= |old(executing)| + (if task.Some? then 1 else 0)
    {
      task := AwaitTask(base, now);
      ghost var r := broker.Store();
      Meanwhile(done, newTarget);
      if task.Some? {
        Start(execution);
      }
      assert broker.Store() == r;
    }

    /** The same turn after `claimed` have been taken since the queue was `r0`. */
    method FillNext(ghost r0: S.Redis, claimed: seq<Task>, execution: nat, base: real, now: real, done: set<nat>,
        newTarget: int)
        returns (more: bool, all: seq<Task>)
      requires cfg == broker.cfg && execution !in executing && Progress(r0, broker.Store(), claimed)
      modifies `executing, `target, broker`ready, broker`inflight, broker`tasks
      ensures Progress(r0, broker.Store(), all) && target == newTarget
      ensures !more ==> all == claimed && Emptied(r0, broker.Store())
      ensures more ==> |all| == |claimed| + 1 && |broker.ready| < |old(broker.ready)|
      ensures executing <= old(executing) + (if more then {execution} else {})
      ensures |executing| <= |old(executing)| + (if more then 1 else 0)
    {
      ghost var r1 := broker.Store();
      var task := FillSlot(execution, base, now, done, newTarget);
      ProgressStep(r0, r1, broker.Store(), claimed, task, S.Lease(cfg, base));
      ghost var r2 := broker.Store();
      assert broker.ready == r2.ready;
      more, all := task.Some?, if task.Some? then claimed + [task.value] else claimed;
    }

    /** The dispatcher's inner loop: dequeue and start executions, named from `first` on, until the target
        is reached or nothing is ready. The dequeue after k claims reads the clock as `base(k)` and
        `now(k)`; while it is awaited the executions in `done(k)` complete and the autoscaler leaves the
        target at `targets(k)`. */
    method FillSlots(first: nat, base: nat -> real, now: nat -> real, done: nat -> set<nat>, targets: nat -> int,
        ghost cap: int)
        returns (claimed: seq<Task>)
      requires cfg == broker.cfg && Below(executing, first)
      requires target <= cap && forall k :: targets(k) <= cap
      modifies `executing, `target, broker`ready, broker`inflight, broker`tasks
      ensures Below(executing, first + |claimed|)
      ensures |executing| <= Max(|old(executing)|, cap)
      ensures Progress(old(broker.Store()), broker.Store(), claimed)
      ensures |executing| >= target || Emptied(old(broker.Store()), broker.Store())
    {
      claimed := [];
      ghost var r0 := broker.Store();
      var more := true;
      while more && |executing| < target
        invariant target <= cap && |executing| <= Max(|old(executing)|, cap)
        invariant Below(executing, first + |claimed|)
        invariant Progress(r0, broker.Store(), claimed)
        invariant !more ==> Emptied(r0, broker.Store())
        decreases more, |broker.ready|
      {
        var k := |claimed|;
        more, claimed := FillNext(r0, claimed, first + k, base(k), now(k), done(k), targets(k));
      }
    }

    /** The done callback of an execution. */
    method Completed(execution: nat)
      modifies `executing
      ensures Pool() == P.React(cfg, old(Pool()), P.Completed(execution))
      ensures executing == old(executing) - {execution}
    {
      executing := executing - {execution};
    }

    // -------------------------------------------------------------- execution

    /** The coroutine of an execution starts: its task is on the list of leases from here on. */
    method Begin(task: Task)
      modifies `leases
      ensures leases == old(leases) + {task.id}
    {
      leases := leases + {task.id};
    }

    /** The handler is through, or there is none; the list stays as it is until the command is answered. */
    method Conclude(task: Task, ending: Ending, draw: real, now: real)
      requires cfg == broker.cfg
      modifies broker`inflight, broker`delayed, broker`dlq, broker`tasks
      ensures broker.Store()
          == Settle(cfg, registry, old(broker.Store()), task, Report(registry, task, ending, draw), now)
      ensures task.spec.name !in registry ==>
                BuriedIn(cfg, old(broker.Store()), broker.Store(), task,
                         "No handler registered for task '" + task.spec.name + "'", None, now)
      ensures task.spec.name in registry && ending.Finished? ==>
                && broker.inflight == old(broker.inflight) - {task.id}
                && broker.delayed == old(broker.delayed) && broker.dlq == old(broker.dlq)
                && broker.tasks == old(broker.tasks)[task.id := Record(
                     task.(status := Success, finishedAt := Some(now), result := ending.result,
                           error := None, traceback := None), Some(Truncate(cfg.resultTtl)))]
      ensures task.spec.name in registry && ending.Raised? ==>
                FailureIn(cfg, registry, old(broker.Store()), broker.Store(), task, ending.error, ending.tb, true,
                    draw, now)
    {
      if task.spec.name !in registry {
        HandleFailure(task, "No handler registered for task '" + task.spec.name + "'", None, false, draw, now);
      } else {
        match ending
        case Finished(result) =>
          var _ := broker.Ack(task, result, now);
        case Raised(error, tb) =>
          HandleFailure(task, error, tb, true, draw, now);
      }
    }

    /** The coroutine ends. */
    method Leave(task: Task)
      modifies `leases
      ensures leases == old(leases) - {task.id}
    {
      leases := leases - {task.id};
    }

    method HandleFailure(task: Task, error: string, tb: Option<string>, retryable: bool, draw: real, now: real)
      requires cfg == broker.cfg
      modifies broker`inflight, broker`delayed, broker`dlq, broker`tasks
      ensures broker.Store()
           == Settle(cfg, registry, old(broker.Store()), task, Failing(error, tb, retryable, draw), now)
      ensures FailureIn(cfg, registry, old(broker.Store()), broker.Store(), task, error, tb, retryable, draw, now)
    {
      RetryDelayIsPromised(cfg, task, draw);
      var maxRetries := ResolveMaxRetries(task.spec, Lookup(registry, task.spec.name), cfg);
      var retriesUsed := task.attempts - 1;
      if retryable && retriesUsed < maxRetries {
        var _ := broker.Retry(task, error, tb, RetryDelay(cfg, task, draw), now);
        assert PutOffIn(old(broker.Store()), broker.Store(), task, error, tb, now, RetryDelay(cfg, task, draw));
      } else {
        var _ := broker.DeadLetter(task, error, tb, now);
      }
    }

    // -------------------------------------------------------------- background loops

    /** list(self._leases), in whatever order. */
    method LeaseList() returns (ids: seq<TaskId>)
      ensures Elements(ids) == leases && NoDuplicates(ids)
    {
      ids := [];
      var rest := leases;
      while rest != {}
        invariant rest <= leases && Elements(ids) == leases - rest && NoDuplicates(ids)
        decreases |rest|
      {
        var id :| id in rest;
        assert id !in Elements(ids);
        rest := rest - {id};
        assert Elements(ids + [id]) == Elements(ids) + {id};
        ids := ids + [id];
      }
    }

    /** The lease loop wakes up: with a lease on the list it prepares a renewal of exactly the listed ids. */
    method WakeUp(reading: real) returns (round: Option<L.Round>)
      ensures round.None? <==> leases == {}
      ensures round.Some? ==> round.value.reading == reading && Elements(round.value.ids) == leases
    {
      if leases == {} {
        return None;
      }
      var ids := LeaseList();
      return Some(L.Round(reading, ids));
    }

    /** The renewal takes effect, whatever the list is by now. */
    method Renew(round: L.Round)
      modifies broker`inflight
      ensures broker.inflight == map m | m in old(broker.inflight) ::
                if m in round.ids then Ms(round.reading + cfg.visibilityTimeout) else old(broker.inflight)[m]
    {
      broker.RenewLeases(round.ids, Ms(round.reading + cfg.visibilityTimeout));
      assert broker.inflight == broker.Store().inflight;
    }

    /** One round of the autoscaler after `stats` reported `ready`. */
    method AutoscaleTick(ready: nat)
      modifies `target
      ensures Pool() == P.React(cfg, old(Pool()), P.Scaled(ready))
      ensures P.StepsTowardsGoal(cfg, ready + |executing|, old(target), target)
    {
      P.DesiredIsGoal(cfg, ready + |executing|);
      var backlog := ready + |executing|;
      var per := Max(1, cfg.autoscaleTasksPerWorker);
      var desired := Max(cfg.workerMinConcurrency, P.CeilDiv(backlog, per));
      desired := Min(cfg.workerMaxConcurrency, desired);
      var step := cfg.autoscaleScaleStep;
      if desired > target {
        target := Min(desired, target + step);
      } else if desired < target {
        target := Max(desired, target - step);
      }
    }
  }
}
