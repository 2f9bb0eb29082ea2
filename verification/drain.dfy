/** Draining terminates: promoting everything that is due, dequeuing and settling, with whatever
    outcomes the handlers produce, empties the queues within a bound that the retry budgets fix. */
module Drain {
  import opened Util
  import opened Zset
  import opened Models
  import opened Store
  import opened Policy
  import P = Protocol
  import C = CrashStopRuns

  datatype Turn = Turn(now: real, outcome: Outcome)

  /** One round: promote all due tasks, dequeue one, run it, settle it. */
  function Round(cfg: Settings, registry: Registry, r: Redis, turn: Turn): Redis {
    var (claimed, got) := Claim(Promote(r, Ms(turn.now), -1), Lease(cfg, turn.now));
    match got
    case None => claimed
    case Some(task) =>
      var running := Started(task, turn.now);
      Settle(cfg, registry, Save(claimed, running, None), running, turn.outcome, turn.now)
  }

  function Rounds(cfg: Settings, registry: Registry, r: Redis, turns: seq<Turn>): Redis
    decreases |turns|
  {
    if turns == [] then r else Rounds(cfg, registry, Round(cfg, registry, r, turns[0]), turns[1..])
  }

  /** Each round starts late enough for every delayed task to be due. */
  predicate Patient(cfg: Settings, registry: Registry, r: Redis, turns: seq<Turn>)
    decreases |turns|
  {
    turns == [] ||
    (&& (forall id | id in r.delayed :: r.delayed[id] <= Ms(turns[0].now))
     && Patient(cfg, registry, Round(cfg, registry, r, turns[0]), turns[1..]))
  }

  /** Nothing leased; each queued id is in one queue and has a permanent record. */
  predicate Calm(r: Redis) {
    && r.inflight == map[]
    && r.ready.Keys !! r.delayed.Keys
    && (forall id | id in Queued(r) :: id in r.tasks && r.tasks[id].task.id == id && r.tasks[id].ttl.None?)
  }

  function Queued(r: Redis): set<TaskId> {
    r.ready.Keys + r.delayed.Keys
  }

  /** Acknowledged, or dead and on the dead-letter list. */
  predicate Settled(r: Redis, id: TaskId) {
    && id in r.tasks && id !in Queued(r)
    && (r.tasks[id].task.status == Success || (r.tasks[id].task.status == Dead && id in r.dlq))
  }

  /** How often a task may still be executed. */
  function Weight(cfg: Settings, registry: Registry, task: Task): nat {
    Max(1, Limit(cfg, registry, task.spec) + 1 - task.attempts)
  }

  function WeightOf(cfg: Settings, registry: Registry, tasks: map<TaskId, Record>, id: TaskId): nat {
    if id in tasks then Weight(cfg, registry, tasks[id].task) else 0
  }

  ghost function Total(cfg: Settings, registry: Registry, tasks: map<TaskId, Record>, ids: set<TaskId>): nat
    decreases |ids|
  {
    if ids == {} then 0
    else
      var id :| id in ids;
      WeightOf(cfg, registry, tasks, id) + Total(cfg, registry, tasks, ids - {id})
  }

  ghost function Work(cfg: Settings, registry: Registry, r: Redis): nat {
    Total(cfg, registry, r.tasks, Queued(r))
  }

  lemma {:induction false} TotalSplit(cfg: Settings, registry: Registry, tasks: map<TaskId, Record>, ids: set<TaskId>,
      id: TaskId)
    requires id in ids
    ensures Total(cfg, registry, tasks, ids)
         == WeightOf(cfg, registry, tasks, id) + Total(cfg, registry, tasks, ids - {id})
    decreases |ids|
  {
    var first :| first in ids && Total(cfg, registry, tasks, ids)
              == WeightOf(cfg, registry, tasks, first) + Total(cfg, registry, tasks, ids - {first});
    if first != id {
      TotalSplit(cfg, registry, tasks, ids - {first}, id);
      TotalSplit(cfg, registry, tasks, ids - {id}, first);
      assert ids - {first} - {id} == ids - {id} - {first};
    }
  }

  lemma {:induction false} TotalFrame(cfg: Settings, registry: Registry, a: map<TaskId, Record>,
      b: map<TaskId, Record>, ids: set<TaskId>)
    requires forall id | id in ids :: id in a && id in b && a[id] == b[id]
    ensures Total(cfg, registry, a, ids) == Total(cfg, registry, b, ids)
    decreases |ids|
  {
    if id :| id in ids {
      TotalSplit(cfg, registry, a, ids, id);
      TotalSplit(cfg, registry, b, ids, id);
      TotalFrame(cfg, registry, a, b, ids - {id});
    }
  }

  /** Promoting everything leaves all queued ids ready. */
  lemma PromoteAll(r: Redis, now: int)
    requires Calm(r) && forall id | id in r.delayed :: r.delayed[id] <= now
    ensures var p := Promote(r, now, -1);
            p.delayed == map[] && p.ready.Keys == Queued(r)
                && p == r.(ready := p.ready, delayed := map[], sequence := p.sequence)
  {
    assert Due(r.delayed, now) == r.delayed;
    SortedElements(r.delayed);
    var batch := RangeByScore(r.delayed, now, -1);
    assert Elements(batch) == r.delayed.Keys;
    MoveAllKeys(Transfer(r.delayed, r.ready, r.sequence), r.tasks, batch);
    assert Elements(batch) * r.tasks.Keys == r.delayed.Keys;
  }

  /** Settling the only leased task: it is settled, or delayed with one execution less to go. */
  ghost predicate SettledOrBack(cfg: Settings, registry: Registry, s: Redis, s': Redis, task: Task) {
    && s'.inflight == map[] && s'.ready == s.ready
    && (forall other | other in s.tasks && other != task.id :: other in s'.tasks && s'.tasks[other] == s.tasks[other])
    && (forall other | other in s.dlq :: other in s'.dlq)
    && task.id in s'.tasks
    && if task.id in s'.delayed
       then s'.delayed.Keys == {task.id} && s'.tasks[task.id].ttl.None? && s'.tasks[task.id].task.id == task.id
            && Weight(cfg, registry, s'.tasks[task.id].task) < Weight(cfg, registry, task)
       else s'.delayed == map[] && Settled(s', task.id)
  }

  lemma SettleProgress(cfg: Settings, registry: Registry, s: Redis, task: Task, turn: Turn, lease: int)
    requires s.inflight == map[task.id := lease] && s.delayed == map[] && task.id !in s.ready
    ensures var running := Started(task, turn.now);
            SettledOrBack(cfg, registry, s,
                          Settle(cfg, registry, Save(s, running, None), running, turn.outcome, turn.now), task)
  {
  }

  /** The state right after the dequeue of a round, with the dequeued id. */
  lemma RoundClaims(cfg: Settings, registry: Registry, r: Redis, turn: Turn) returns (id: TaskId, s: Redis)
    requires Calm(r) && Queued(r) != {} && forall i | i in r.delayed :: r.delayed[i] <= Ms(turn.now)
    ensures id in Queued(r) && s.ready.Keys == Queued(r) - {id} && s.delayed == map[]
    ensures s.inflight == map[id := Lease(cfg, turn.now)] && s.tasks == r.tasks && s.dlq == r.dlq
    ensures var running := Started(r.tasks[id].task, turn.now);
            Round(cfg, registry, r, turn)
            == Settle(cfg, registry, Save(s, running, None), running, turn.outcome, turn.now)
  {
    PromoteAll(r, Ms(turn.now));
    var p := Promote(r, Ms(turn.now), -1);
    id := First(p.ready);
    assert id in Queued(r);
    s := p.(ready := p.ready - {id}, inflight := p.inflight[id := Lease(cfg, turn.now)]);
    assert Claim(p, Lease(cfg, turn.now)) == (s, Some(r.tasks[id].task));
  }

  lemma BackIsCalm(cfg: Settings, registry: Registry, r: Redis, s: Redis, s': Redis, task: Task)
    requires Calm(r) && task.id in Queued(r) && s.ready.Keys == Queued(r) - {task.id} && s.tasks == r.tasks
    requires SettledOrBack(cfg, registry, s, s', task)
    ensures Calm(s')
    ensures Queued(s') == if task.id in s'.delayed then Queued(r) else Queued(r) - {task.id}
  {
  }

  /** What a round does: one queued task is executed; it is settled, or goes back with one execution less. */
  lemma RoundMakesProgress(cfg: Settings, registry: Registry, r: Redis, turn: Turn) returns (id: TaskId)
    requires Calm(r) && Queued(r) != {} && forall i | i in r.delayed :: r.delayed[i] <= Ms(turn.now)
    ensures var r' := Round(cfg, registry, r, turn);
            && id in Queued(r) && Calm(r')
            && (forall other | other in r.tasks && other != id ::
                  other in r'.tasks && r'.tasks[other] == r.tasks[other])
            && (forall other | other in r.dlq :: other in r'.dlq)
            && if id in Queued(r')
               then Queued(r') == Queued(r)
                    && Weight(cfg, registry, r'.tasks[id].task) < Weight(cfg, registry, r.tasks[id].task)
               else Queued(r') == Queued(r) - {id} && Settled(r', id)
  {
    var s;
    id, s := RoundClaims(cfg, registry, r, turn);
    var task := r.tasks[id].task;
    SettleProgress(cfg, registry, s, task, turn, Lease(cfg, turn.now));
    BackIsCalm(cfg, registry, r, s, Round(cfg, registry, r, turn), task);
  }

  lemma RoundShrinksWork(cfg: Settings, registry: Registry, r: Redis, turn: Turn)
    requires Calm(r) && Queued(r) != {} && forall i | i in r.delayed :: r.delayed[i] <= Ms(turn.now)
    ensures Calm(Round(cfg, registry, r, turn))
    ensures Work(cfg, registry, Round(cfg, registry, r, turn)) < Work(cfg, registry, r)
  {
    var id := RoundMakesProgress(cfg, registry, r, turn);
    var r' := Round(cfg, registry, r, turn);
    TotalSplit(cfg, registry, r.tasks, Queued(r), id);
    TotalFrame(cfg, registry, r.tasks, r'.tasks, Queued(r) - {id});
    if id in Queued(r') {
      TotalSplit(cfg, registry, r'.tasks, Queued(r'), id);
    }
  }

  lemma RoundForgetsNobody(cfg: Settings, registry: Registry, r: Redis, turn: Turn, i: TaskId)
    requires Calm(r) && Queued(r) != {} && forall i | i in r.delayed :: r.delayed[i] <= Ms(turn.now)
    requires i in Queued(r) || Settled(r, i)
    ensures i in Queued(Round(cfg, registry, r, turn)) || Settled(Round(cfg, registry, r, turn), i)
  {
    var id := RoundMakesProgress(cfg, registry, r, turn);
  }

  lemma EmptyRound(cfg: Settings, registry: Registry, r: Redis, turn: Turn)
    requires Calm(r) && Queued(r) == {}
    ensures Round(cfg, registry, r, turn) == r
  {
    assert r.ready == map[] && r.delayed == map[];
    PromoteAll(r, Ms(turn.now));
  }

  lemma {:induction false} DrainKeeps(cfg: Settings, registry: Registry, r: Redis, turns: seq<Turn>)
    requires Calm(r) && Patient(cfg, registry, r, turns) && |turns| >= Work(cfg, registry, r)
    ensures Calm(Rounds(cfg, registry, r, turns)) && Queued(Rounds(cfg, registry, r, turns)) == {}
    ensures forall id | id in Queued(r) || Settled(r, id) :: Settled(Rounds(cfg, registry, r, turns), id)
    decreases |turns|
  {
    if Queued(r) == {} {
      if turns != [] {
        EmptyRound(cfg, registry, r, turns[0]);
        DrainKeeps(cfg, registry, r, turns[1..]);
      }
    } else {
      var id :| id in Queued(r);
      TotalSplit(cfg, registry, r.tasks, Queued(r), id);
      RoundShrinksWork(cfg, registry, r, turns[0]);
      forall i | i in Queued(r) || Settled(r, i)
        ensures i in Queued(Round(cfg, registry, r, turns[0])) || Settled(Round(cfg, registry, r, turns[0]), i)
      {
        RoundForgetsNobody(cfg, registry, r, turns[0], i);
      }
      DrainKeeps(cfg, registry, Round(cfg, registry, r, turns[0]), turns[1..]);
    }
  }

  /** Reaping past the last deadline makes every leased task ready. */
  lemma ReapAllIsCalm(w: P.World, now: int)
    requires C.Inv(w) && forall id | id in w.redis.inflight :: w.redis.inflight[id] <= now
    ensures var r := Reap(w.redis, now, -1);
            && Calm(r) && r.tasks == w.redis.tasks && r.dlq == w.redis.dlq
            && Queued(r) == Queued(w.redis) + w.redis.inflight.Keys
  {
    var r := w.redis;
    UnlimitedRange(r.inflight, now, -1);
    var batch := RangeByScore(r.inflight, now, -1);
    assert Elements(batch) == r.inflight.Keys;
    forall id | id in r.inflight ensures id in r.tasks {
      assert C.IdOk(w, id);
    }
    MoveAllKeys(Transfer(r.inflight, r.ready, r.sequence), r.tasks, batch);
    assert Elements(batch) * r.tasks.Keys == r.inflight.Keys;
    forall id | id in r.ready || id in r.delayed || id in r.inflight ensures C.IdOk(w, id) {
    }
  }

  /** From every crash-stop state: once the leases are reaped past their last deadline, the sum of
      max(1, limit + 1 - attempts) over all queued and leased tasks is enough executions. After them
      nothing is ready, delayed or leased, and each of those tasks is acknowledged or dead-lettered. */
  lemma DrainingTerminates(cfg: Settings, registry: Registry, steps: seq<P.Step>, now: int, turns: seq<Turn>)
    requires C.Legal(cfg, P.INITIAL, steps)
    requires var r := C.Run(cfg, P.INITIAL, steps).redis;
             && (forall id | id in r.inflight :: r.inflight[id] <= now)
             && Patient(cfg, registry, Reap(r, now, -1), turns)
             && |turns| >= Total(cfg, registry, r.tasks, Queued(r) + r.inflight.Keys)
    ensures var before := C.Run(cfg, P.INITIAL, steps).redis;
            var after := Rounds(cfg, registry, Reap(before, now, -1), turns);
            && after.ready == map[] && after.delayed == map[] && after.inflight == map[]
            && forall id | id in Queued(before) || id in before.inflight :: Settled(after, id)
  {
    C.RunFromStart(cfg, steps);
    var w := C.Run(cfg, P.INITIAL, steps);
    ReapAllIsCalm(w, now);
    DrainKeeps(cfg, registry, Reap(w.redis, now, -1), turns);
    var after := Rounds(cfg, registry, Reap(w.redis, now, -1), turns);
    assert Queued(after) == {};
    assert after.ready.Keys == {} && after.delayed.Keys == {};
  }

  // ---------------------------------------------------------------- a round is a protocol run

  /** The protocol step with which a worker settles. */
  function SettleStep(cfg: Settings, registry: Registry, worker: nat, task: Task, turn: Turn): P.Step {
    match turn.outcome
    case Returned(result) => P.Acknowledge(worker, result, turn.now)
    case Failing(error, tb, retryable, draw) =>
      if ShouldRetry(cfg, registry, task, retryable) then
        P.RetryLater(worker, error, tb, RetryDelay(cfg, task, draw), turn.now)
      else
        P.Bury(worker, error, tb, turn.now)
  }

  lemma SettleIsOneStep(cfg: Settings, registry: Registry, w: P.World, worker: nat, turn: Turn)
    requires P.Holds(w, worker, P.Executing)
    ensures var task := w.executions[worker].task;
            var step := SettleStep(cfg, registry, worker, task, turn);
            P.Enabled(w, step)
            && P.Apply(cfg, w, step).redis == Settle(cfg, registry, w.redis, task, turn.outcome, turn.now)
  {
  }

  ghost predicate Reaches(cfg: Settings, w: P.World, r: Redis) {
    exists steps :: P.Legal(cfg, w, steps) && P.Run(cfg, w, steps).redis == r
  }

  lemma ReachesItself(cfg: Settings, w: P.World)
    ensures Reaches(cfg, w, w.redis)
  {
    assert P.Legal(cfg, w, []) && P.Run(cfg, w, []).redis == w.redis;
  }

  lemma ReachesAfter(cfg: Settings, w: P.World, step: P.Step, r: Redis)
    requires P.Enabled(w, step) && Reaches(cfg, P.Apply(cfg, w, step), r)
    ensures Reaches(cfg, w, r)
  {
    var steps :| P.Legal(cfg, P.Apply(cfg, w, step), steps) && P.Run(cfg, P.Apply(cfg, w, step), steps).redis == r;
    assert ([step] + steps)[1..] == steps;
    assert P.Legal(cfg, w, [step] + steps) && P.Run(cfg, w, [step] + steps).redis == r;
  }

  lemma ClaimStartSettle(cfg: Settings, registry: Registry, w: P.World, worker: nat, turn: Turn, w3: P.World)
    requires worker !in w.executions
    requires var (claimed, got) := Claim(w.redis, Lease(cfg, turn.now));
             got.Some? && w3 == P.StartStep(P.ClaimStep(w, worker, Lease(cfg, turn.now)), worker, turn.now)
    ensures P.Holds(w3, worker, P.Executing)
    ensures var (claimed, got) := Claim(w.redis, Lease(cfg, turn.now));
            w3.executions[worker].task == Started(got.value, turn.now)
            && w3.redis == Save(claimed, Started(got.value, turn.now), None)
  {
  }

  /** A round by a worker that nobody interrupts is a run of the protocol: promote, claim, start, settle. */
  lemma RoundIsAProtocolRun(cfg: Settings, registry: Registry, w: P.World, worker: nat, turn: Turn)
    requires worker !in w.executions
    ensures Reaches(cfg, w, Round(cfg, registry, w.redis, turn))
  {
    var promote, claim := P.PromoteDue(-1, turn.now), P.ClaimNext(worker, turn.now, turn.now);
    var w1 := P.Apply(cfg, w, promote);
    var w2 := P.Apply(cfg, w1, claim);
    if Claim(w1.redis, Lease(cfg, turn.now)).1.None? {
      ReachesItself(cfg, w2);
    } else {
      var start := P.Start(worker, turn.now);
      var w3 := P.Apply(cfg, w2, start);
      ClaimStartSettle(cfg, registry, w1, worker, turn, w3);
      SettleIsOneStep(cfg, registry, w3, worker, turn);
      var settle := SettleStep(cfg, registry, worker, w3.executions[worker].task, turn);
      ReachesItself(cfg, P.Apply(cfg, w3, settle));
      ReachesAfter(cfg, w3, settle, Round(cfg, registry, w.redis, turn));
      ReachesAfter(cfg, w2, start, Round(cfg, registry, w.redis, turn));
    }
    ReachesAfter(cfg, w1, claim, Round(cfg, registry, w.redis, turn));
    ReachesAfter(cfg, w, promote, Round(cfg, registry, w.redis, turn));
  }
}
