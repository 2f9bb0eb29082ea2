/** The queue's Redis keys as one value, and every atomic step on them: the Lua scripts and the
    MULTI/EXEC pipelines. Each step is a function of the whole key space. */
module Store {
  import opened Util
  import opened Zset
  import opened Models

  datatype Redis = Redis(
    ready: Zset,
    delayed: Zset,
    inflight: Zset,
    dlq: seq<TaskId>,
    recent: seq<TaskId>,
    sequence: nat,
    tasks: map<TaskId, Record>)

  const EMPTY: Redis := Redis(map[], map[], map[], [], [], 0, map[])

  const PRIORITY_MULTIPLIER: int := 10_000_000_000_000
  const RECENT_CAP: nat := 1000

  function ReadyScore(priority: int, sequence: int): int {
    priority * PRIORITY_MULTIPLIER + sequence
  }

  /** LPUSH then LTRIM 0 999. */
  function PushRecent(recent: seq<TaskId>, id: TaskId): seq<TaskId> {
    var pushed := [id] + recent;
    if |pushed| > RECENT_CAP then pushed[..RECENT_CAP] else pushed
  }

  // ---------------------------------------------------------------- deadlines and expiries

  function Lease(cfg: Settings, base: real): int {
    Ms(base + cfg.visibilityTimeout)
  }

  /** int(result_ttl) and int(result_ttl * 24). */
  function ResultTtl(cfg: Settings): int {
    Truncate(cfg.resultTtl)
  }

  function DeadTtl(cfg: Settings): int {
    Truncate(cfg.resultTtl * 24.0)
  }

  lemma FloorOfMultiple(x: real)
    requires 0.0 <= x
    ensures 24 * x.Floor <= (x * 24.0).Floor
  {
    assert x.Floor as real <= x;
    assert (24 * x.Floor) as real <= x * 24.0;
  }

  /** Dead tasks are kept at least 24 times as long as results. */
  lemma DeadOutlivesResults(cfg: Settings)
    requires 0.0 <= cfg.resultTtl
    ensures 24 * ResultTtl(cfg) <= DeadTtl(cfg)
  {
    FloorOfMultiple(cfg.resultTtl);
  }

  // ---------------------------------------------------------------- producing

  function Enqueue(r: Redis, task: Task, now: real): Redis {
    var t := Stamped(task, now);
    var stored := r.(tasks := r.tasks[t.id := Record(t, None)], recent := PushRecent(r.recent, t.id));
    if Deferred(task, now) then
      stored.(delayed := r.delayed[t.id := Ms(task.eta.value)])
    else
      stored.(sequence := r.sequence + 1,
              ready := r.ready[t.id := ReadyScore(t.spec.priority, r.sequence + 1)])
  }

  // ---------------------------------------------------------------- consuming

  /** The DEQUEUE script: pop the first ready id and lease it; an id without a record is dropped. */
  function Claim(r: Redis, deadline: int): (Redis, Option<Task>) {
    if r.ready == map[] then (r, None)
    else
      var id := First(r.ready);
      var popped := r.(ready := r.ready - {id});
      if id in r.tasks then
        (popped.(inflight := r.inflight[id := deadline]), Some(r.tasks[id].task))
      else
        (popped, None)
  }

  function Save(r: Redis, task: Task, ttl: Option<int>): Redis {
    r.(tasks := r.tasks[task.id := Record(task, ttl)])
  }

  function Ack(r: Redis, task: Task, ttl: int): Redis {
    Save(r, task, Some(ttl)).(inflight := r.inflight - {task.id})
  }

  function Retry(r: Redis, task: Task, runAt: real): Redis {
    Save(r, task, None).(inflight := r.inflight - {task.id}, delayed := r.delayed[task.id := Ms(runAt)])
  }

  function DeadLetter(r: Redis, task: Task, ttl: int): Redis {
    Save(r, task, Some(ttl)).(inflight := r.inflight - {task.id}, dlq := [task.id] + r.dlq)
  }

  /** ZADD XX for every id: only existing leases move. */
  function Renew(r: Redis, ids: seq<TaskId>, deadline: int): Redis {
    r.(inflight := map m | m in r.inflight :: if m in ids then deadline else r.inflight[m])
  }

  // ---------------------------------------------------------------- maintenance

  /** The keys that PROMOTE and REAP change: the set they empty, the ready set and the counter. */
  datatype Transfer = Transfer(source: Zset, ready: Zset, sequence: nat)

  function MoveOne(q: Transfer, tasks: map<TaskId, Record>, id: TaskId): Transfer {
    if id in tasks then
      Transfer(q.source - {id},
               q.ready[id := ReadyScore(tasks[id].task.spec.priority, q.sequence + 1)],
               q.sequence + 1)
    else
      q.(source := q.source - {id})
  }

  function MoveAll(q: Transfer, tasks: map<TaskId, Record>, ids: seq<TaskId>): Transfer
    decreases |ids|
  {
    if ids == [] then q else MoveAll(MoveOne(q, tasks, ids[0]), tasks, ids[1..])
  }

  function Sweep(q: Transfer, tasks: map<TaskId, Record>, now: int, limit: int): Transfer {
    MoveAll(q, tasks, RangeByScore(q.source, now, limit))
  }

  function Promote(r: Redis, now: int, limit: int): Redis {
    var q := Sweep(Transfer(r.delayed, r.ready, r.sequence), r.tasks, now, limit);
    r.(delayed := q.source, ready := q.ready, sequence := q.sequence)
  }

  function Reap(r: Redis, now: int, limit: int): Redis {
    var q := Sweep(Transfer(r.inflight, r.ready, r.sequence), r.tasks, now, limit);
    r.(inflight := q.source, ready := q.ready, sequence := q.sequence)
  }

  // ---------------------------------------------------------------- cancelling, dead letters, expiry

  function Withdraw(r: Redis, id: TaskId): Redis {
    r.(ready := r.ready - {id}, delayed := r.delayed - {id})
  }

  function RemovedBy(r: Redis, id: TaskId): int {
    (if id in r.ready then 1 else 0) + (if id in r.delayed then 1 else 0)
  }

  /** LREM key 1 id: the first occurrence goes. */
  function WithoutFirst(s: seq<TaskId>, id: TaskId): seq<TaskId> {
    if s == [] then [] else if s[0] == id then s[1..] else [s[0]] + WithoutFirst(s[1..], id)
  }

  /** The position of the occurrence that goes. */
  lemma {:induction false} WithoutFirstAt(s: seq<TaskId>, id: TaskId) returns (k: nat)
    requires id in s
    ensures k < |s| && s[k] == id && id !in s[..k] && WithoutFirst(s, id) == s[..k] + s[k + 1..]
    decreases |s|
  {
    if s[0] == id {
      k := 0;
    } else {
      k := WithoutFirstAt(s[1..], id);
      k := k + 1;
      assert s[..k] == [s[0]] + s[1..][..k - 1];
    }
  }

  function Unbury(r: Redis, id: TaskId): Redis {
    r.(dlq := WithoutFirst(r.dlq, id))
  }

  /** A record with a TTL may vanish at any moment. */
  function Expire(r: Redis, id: TaskId): Redis {
    r.(tasks := r.tasks - {id})
  }

  // ---------------------------------------------------------------- what a sweep does to the keys

  lemma {:induction false} MoveAllKeys(q: Transfer, tasks: map<TaskId, Record>, ids: seq<TaskId>)
    ensures var p := MoveAll(q, tasks, ids);
            && p.source == q.source - Elements(ids)
            && p.ready.Keys == q.ready.Keys + Elements(ids) * tasks.Keys
    decreases |ids|
  {
    if ids == [] {
      assert q.source - Elements(ids) == q.source;
    } else {
      MoveAllKeys(MoveOne(q, tasks, ids[0]), tasks, ids[1..]);
      assert ids == [ids[0]] + ids[1..];
      assert Elements(ids) == {ids[0]} + Elements(ids[1..]);
    }
  }

  /** Ids that do not move keep their ready score. */
  lemma {:induction false} MoveAllFrame(q: Transfer, tasks: map<TaskId, Record>, ids: seq<TaskId>, other: TaskId)
    requires other !in ids && other in q.ready
    ensures other in MoveAll(q, tasks, ids).ready && MoveAll(q, tasks, ids).ready[other] == q.ready[other]
    decreases |ids|
  {
    if ids != [] {
      MoveAllFrame(MoveOne(q, tasks, ids[0]), tasks, ids[1..], other);
    }
  }
}
