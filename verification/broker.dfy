/** The broker: an object over the Redis keys. Each method is proved against the function that says
    what it does to the whole key space. Clock readings are parameters. */
module Brokers {
  import opened Util
  import opened Zset
  import opened Models
  import S = Store
  import R = Recent
  import L = Leader
  import B = Schedules

  class Broker {
    const cfg: Settings

    var ready: Zset
    var delayed: Zset
    var inflight: Zset
    var dlq: seq<TaskId>
    var recent: seq<TaskId>
    var sequence: nat
    var tasks: map<TaskId, Record>
    var schedules: map<B.Name, B.Schedule>
    var scheduleDue: Zset
    var lock: Option<L.Lock>

    /** A broker attaches to whatever the key space holds. */
    constructor (cfg: Settings, store: S.Redis, book: B.Book, lock: Option<L.Lock>)
      ensures this.cfg == cfg && Store() == store && Timetable() == book && this.lock == lock
    {
      this.cfg := cfg;
      ready, delayed, inflight, dlq := store.ready, store.delayed, store.inflight, store.dlq;
      recent, sequence, tasks := store.recent, store.sequence, store.tasks;
      schedules, scheduleDue, this.lock := book.schedules, book.due, lock;
    }

    /** The queue's keys as one value. */
    function Store(): S.Redis
      reads this
    {
      S.Redis(ready, delayed, inflight, dlq, recent, sequence, tasks)
    }

    /** The schedules and their due index as one value. */
    function Timetable(): B.Book
      reads this
    {
      B.Book(schedules, scheduleDue)
    }

    // -------------------------------------------------------------- producing

    method Enqueue(task: Task, now: real) returns (stamped: Task)
      modifies `ready, `delayed, `recent, `sequence, `tasks
      ensures Store() == S.Enqueue(old(Store()), task, now)
      ensures task.eta.Some? && task.eta.value != 0.0 && now < task.eta.value ==>
                && stamped == task.(enqueuedAt := Some(now), status := Scheduled)
                && delayed == old(delayed)[task.id := Ms(task.eta.value)]
                && ready == old(ready) && sequence == old(sequence)
      ensures task.eta.None? || task.eta.value == 0.0 || task.eta.value <= now ==>
                && stamped == task.(enqueuedAt := Some(now), status := Pending)
                && delayed == old(delayed) && sequence == old(sequence) + 1
                && ready == old(ready)[task.id := task.spec.priority * 10_000_000_000_000 + sequence]
      ensures tasks == old(tasks)[task.id := Record(stamped, None)]
      ensures recent == ([task.id] + old(recent))[..Min(1000, |old(recent)| + 1)]
    {
      stamped := task.(enqueuedAt := Some(now));
      if stamped.eta.Some? && stamped.eta.value != 0.0 && stamped.eta.value > now {
        stamped := stamped.(status := Scheduled);
        tasks := tasks[stamped.id := Record(stamped, None)];
        delayed := delayed[stamped.id := Ms(stamped.eta.value)];
      } else {
        stamped := stamped.(status := Pending);
        sequence := sequence + 1;
        tasks := tasks[stamped.id := Record(stamped, None)];
        ready := ready[stamped.id := S.ReadyScore(stamped.spec.priority, sequence)];
      }
      recent := [stamped.id] + recent;
      if |recent| > S.RECENT_CAP {
        recent := recent[..S.RECENT_CAP];
      }
    }

    // -------------------------------------------------------------- consuming

    /** The DEQUEUE script. */
    method ClaimNext(deadline: int) returns (payload: Option<Task>)
      modifies `ready, `inflight
      ensures (Store(), payload) == S.Claim(old(Store()), deadline)
      ensures old(ready) == map[] ==> payload.None? && ready == map[] && inflight == old(inflight)
      ensures forall id | IsFirst(old(ready), id) ::
                && ready == old(ready) - {id}
                && payload == (if id in tasks then Some(tasks[id].task) else None)
                && inflight == (if id in tasks then old(inflight)[id := deadline] else old(inflight))
    {
      if ready == map[] {
        return None;
      }
      var id := First(ready);
      ready := ready - {id};
      if id !in tasks {
        return None;
      }
      inflight := inflight[id := deadline];
      return Some(tasks[id].task);
    }

    /** `base` is the reading for the lease, `now` the one for the start. */
    method Dequeue(base: real, now: real) returns (task: Option<Task>)
      modifies `ready, `inflight, `tasks
      ensures var (claimed, payload) := S.Claim(old(Store()), S.Lease(cfg, base));
              match payload
              case None => task == None && Store() == claimed
              case Some(t) => task == Some(Started(t, now)) && Store() == S.Save(claimed, Started(t, now), None)
      ensures old(ready) == map[] ==> task.None? && Store() == old(Store())
      ensures forall id | IsFirst(old(ready), id) ::
                && ready == old(ready) - {id}
                && (id !in old(tasks) ==> task.None? && inflight == old(inflight) && tasks == old(tasks))
                && (id in old(tasks) ==>
                      var t := old(tasks)[id].task;
                      && inflight == old(inflight)[id := Ms(base + cfg.visibilityTimeout)]
                      && task == Some(t.(status := Running, startedAt := Some(now), attempts := t.attempts + 1))
                      && tasks == old(tasks)[t.id := Record(task.value, None)])
    {
      var payload := ClaimNext(Ms(base + cfg.visibilityTimeout));
      if payload.None? {
        return None;
      }
      var t := payload.value;
      t := t.(status := Running, startedAt := Some(now));
      t := t.(attempts := t.attempts + 1);
      tasks := tasks[t.id := Record(t, None)];
      return Some(t);
    }

    method Ack(task: Task, result: Option<Json>, now: real) returns (done: Task)
      modifies `inflight, `tasks
      ensures done == Succeeded(task, result, now)
      ensures Store() == S.Ack(old(Store()), done, S.ResultTtl(cfg))
      ensures done == task.(status := Success, finishedAt := Some(now), result := result, error := None,
          traceback := None)
      ensures inflight == old(inflight) - {task.id}
      ensures tasks == old(tasks)[task.id := Record(done, Some(Truncate(cfg.resultTtl)))]
    {
      done := task.(status := Success, finishedAt := Some(now), result := result);
      done := done.(error := None, traceback := None);
      inflight := inflight - {done.id};
      tasks := tasks[done.id := Record(done, Some(Truncate(cfg.resultTtl)))];
    }

    method Retry(task: Task, error: string, tb: Option<string>, delay: real, now: real) returns (failed: Task)
      modifies `inflight, `delayed, `tasks
      ensures failed == Rescheduled(task, error, tb, now + delay)
      ensures Store() == S.Retry(old(Store()), failed, now + delay)
      ensures failed == task.(status := Failed, error := Some(error), traceback := tb, eta := Some(now + delay))
      ensures inflight == old(inflight) - {task.id} && delayed == old(delayed)[task.id := Ms(now + delay)]
      ensures tasks == old(tasks)[task.id := Record(failed, None)]
    {
      var runAt := now + delay;
      failed := task.(status := Failed, error := Some(error), traceback := tb, eta := Some(runAt));
      inflight := inflight - {failed.id};
      tasks := tasks[failed.id := Record(failed, None)];
      delayed := delayed[failed.id := Ms(runAt)];
    }

    method DeadLetter(task: Task, error: string, tb: Option<string>, now: real) returns (dead: Task)
      modifies `inflight, `dlq, `tasks
      ensures dead == Buried(task, error, tb, now)
      ensures Store() == S.DeadLetter(old(Store()), dead, S.DeadTtl(cfg))
      ensures dead == task.(status := Dead, error := Some(error), traceback := tb, finishedAt := Some(now))
      ensures inflight == old(inflight) - {task.id} && dlq == [task.id] + old(dlq)
      ensures tasks == old(tasks)[task.id := Record(dead, Some(Truncate(cfg.resultTtl * 24.0)))]
    {
      dead := task.(status := Dead, error := Some(error), traceback := tb, finishedAt := Some(now));
      inflight := inflight - {dead.id};
      tasks := tasks[dead.id := Record(dead, Some(Truncate(cfg.resultTtl * 24.0)))];
      dlq := [dead.id] + dlq;
    }

    method RenewLeases(ids: seq<TaskId>, deadline: int)
      modifies `inflight
      ensures Store() == S.Renew(old(Store()), ids, deadline)
      ensures inflight.Keys == old(inflight.Keys)
      ensures forall id | id in inflight :: inflight[id] == if id in ids then deadline else old(inflight)[id]
    {
      for i := 0 to |ids|
        invariant inflight == S.Renew(old(Store()), ids[..i], deadline).inflight
      {
        if ids[i] in inflight {
          inflight := inflight[ids[i] := deadline];
        }
        assert ids[..i + 1] == ids[..i] + [ids[i]];
      }
      assert ids[..|ids|] == ids;
      assert inflight == S.Renew(old(Store()), ids, deadline).inflight;
    }

    // -------------------------------------------------------------- maintenance

    /** The PROMOTE script. */
    method PromoteDue(now: real, limit: int) returns (moved: nat)
      modifies `delayed, `ready, `sequence
      ensures Store() == S.Promote(old(Store()), Ms(now), limit)
      ensures moved == |RangeByScore(old(delayed), Ms(now), limit)|
    {
      var due := RangeByScore(delayed, Ms(now), limit);
      ghost var start := S.Transfer(delayed, ready, sequence);
      moved := 0;
      for i := 0 to |due|
        invariant moved == i
        invariant S.MoveAll(S.Transfer(delayed, ready, sequence), tasks, due[i..]) == S.MoveAll(start, tasks, due)
      {
        var id := due[i];
        assert due[i..][0] == id && due[i..][1..] == due[i + 1..];
        if id in tasks {
          sequence := sequence + 1;
          ready := ready[id := S.ReadyScore(tasks[id].task.spec.priority, sequence)];
        }
        delayed := delayed - {id};
        moved := moved + 1;
      }
      assert due[|due|..] == [];
    }

    /** The REAP script. */
    method ReapExpired(now: real, limit: int) returns (reaped: nat)
      modifies `inflight, `ready, `sequence
      ensures Store() == S.Reap(old(Store()), Ms(now), limit)
      ensures reaped == |RangeByScore(old(inflight), Ms(now), limit)|
    {
      var expired := RangeByScore(inflight, Ms(now), limit);
      ghost var start := S.Transfer(inflight, ready, sequence);
      reaped := 0;
      for i := 0 to |expired|
        invariant reaped == i
        invariant S.MoveAll(S.Transfer(inflight, ready, sequence), tasks, expired[i..])
            == S.MoveAll(start, tasks, expired)
      {
        var id := expired[i];
        assert expired[i..][0] == id && expired[i..][1..] == expired[i + 1..];
        if id in tasks {
          sequence := sequence + 1;
          ready := ready[id := S.ReadyScore(tasks[id].task.spec.priority, sequence)];
        }
        inflight := inflight - {id};
        reaped := reaped + 1;
      }
      assert expired[|expired|..] == [];
    }

    // -------------------------------------------------------------- introspection

    /** [tid for tid in ids if not (tid in seen or seen.add(tid))]. */
    static method Deduplicate(ids: seq<TaskId>) returns (ordered: seq<TaskId>)
      ensures ordered == R.FirstOccurrences(ids, {})
    {
      var seen: set<TaskId> := {};
      ordered := [];
      for i := 0 to |ids|
        invariant ordered + R.FirstOccurrences(ids[i..], seen) == R.FirstOccurrences(ids, {})
      {
        assert ids[i..][0] == ids[i] && ids[i..][1..] == ids[i + 1..];
        if ids[i] !in seen {
          seen := seen + {ids[i]};
          ordered := ordered + [ids[i]];
        }
      }
      assert ids[|ids|..] == [] && ordered + [] == ordered;
    }

    /** The stored tasks of `ordered` until there are `limit` of them. */
    method FirstStored(ordered: seq<TaskId>, limit: int) returns (out: seq<Task>)
      ensures out == R.Collect(tasks, ordered, limit, [])
    {
      assert ordered[0..] == ordered;
      out := [];
      var k := 0;
      while k < |ordered|
        invariant 0 <= k <= |ordered|
        invariant R.Collect(tasks, ordered[k..], limit, out) == R.Collect(tasks, ordered, limit, [])
        decreases |ordered| - k
      {
        assert ordered[k..][0] == ordered[k] && ordered[k..][1..] == ordered[k + 1..];
        if ordered[k] in tasks {
          out := out + [tasks[ordered[k]].task];
        }
        if |out| >= limit {
          return;
        }
        k := k + 1;
      }
      assert ordered[k..] == [];
    }

    method RecentTasks(limit: int) returns (out: seq<Task>)
      ensures out == R.Feed(Store(), limit)
      ensures limit >= 1 && R.Keyed(tasks) ==> R.NewestStored(recent, tasks, limit, out)
    {
      var ordered := Deduplicate(R.Window(recent, limit));
      out := FirstStored(ordered, limit);
      if limit >= 1 && R.Keyed(tasks) {
        R.FeedIsTheNewest(Store(), limit);
      }
    }

    // -------------------------------------------------------------- cancelling and dead letters

    method Cancel(id: TaskId, now: real) returns (cancelled: bool)
      modifies `ready, `delayed, `tasks
      ensures cancelled <==> id in old(ready) || id in old(delayed)
      ensures ready == old(ready) - {id} && delayed == old(delayed) - {id}
      ensures !cancelled || id !in old(tasks) ==> tasks == old(tasks)
      ensures cancelled && id in old(tasks) ==>
                var t := old(tasks)[id].task;
                tasks == old(tasks)[t.id := Record(t.(status := Cancelled, finishedAt := Some(now)),
                                                   Some(Truncate(cfg.resultTtl)))]
    {
      var removed := (if id in ready then 1 else 0) + (if id in delayed then 1 else 0);
      ready := ready - {id};
      delayed := delayed - {id};
      if removed == 0 {
        assert ready == old(ready) && delayed == old(delayed);
        return false;
      }
      if id in tasks {
        var task := tasks[id].task;
        task := task.(status := Cancelled, finishedAt := Some(now));
        tasks := tasks[task.id := Record(task, Some(Truncate(cfg.resultTtl)))];
      }
      return true;
    }

    method RequeueDlq(id: TaskId, reset: bool, now: real) returns (requeued: bool)
      modifies `dlq, `ready, `delayed, `recent, `sequence, `tasks
      ensures requeued <==> id in old(dlq) && id in old(tasks)
      ensures id !in old(dlq) ==> Store() == old(Store())
      ensures id in old(dlq) ==>
                exists k :: 0 <= k < |old(dlq)| && old(dlq)[k] == id && id !in old(dlq)[..k]
                            && dlq == old(dlq)[..k] + old(dlq)[k + 1..]
      ensures !requeued ==> ready == old(ready) && delayed == old(delayed) && recent == old(recent)
      ensures !requeued ==> sequence == old(sequence) && tasks == old(tasks)
      ensures requeued ==>
                var t := old(tasks)[id].task;
                && delayed == old(delayed) && sequence == old(sequence) + 1
                && ready == old(ready)[t.id := t.spec.priority * 10_000_000_000_000 + sequence]
                && tasks == old(tasks)[t.id := Record(
                     t.(attempts := if reset then 0 else t.attempts, status := Pending,
                        error := None, traceback := None, eta := None, enqueuedAt := Some(now)), None)]
                && recent == ([t.id] + old(recent))[..Min(1000, |old(recent)| + 1)]
    {
      if id !in dlq {
        return false;
      }
      var _ := S.WithoutFirstAt(dlq, id);
      dlq := S.WithoutFirst(dlq, id);
      if id !in tasks {
        return false;
      }
      var task := tasks[id].task;
      if reset {
        task := task.(attempts := 0);
      }
      task := task.(status := Pending, error := None, traceback := None, eta := None);
      var _ := Enqueue(task, now);
      return true;
    }

    // -------------------------------------------------------------- schedules

    method PutSchedule(s: B.Schedule)
      modifies `schedules, `scheduleDue
      ensures Timetable() == B.PutSchedule(old(Timetable()), s)
      ensures schedules == old(schedules)[s.name := s]
      ensures s.enabled && s.nextRun.Some? && s.nextRun.value != 0.0 ==>
                scheduleDue == old(scheduleDue)[s.name := Ms(s.nextRun.value)]
      ensures !s.enabled || s.nextRun.None? || s.nextRun.value == 0.0 ==> scheduleDue == old(scheduleDue) - {s.name}
    {
      schedules := schedules[s.name := s];
      if s.enabled && s.nextRun.Some? && s.nextRun.value != 0.0 {
        scheduleDue := scheduleDue[s.name := Ms(s.nextRun.value)];
      } else {
        scheduleDue := scheduleDue - {s.name};
      }
    }

    method DeleteSchedule(name: B.Name) returns (existed: bool)
      modifies `schedules, `scheduleDue
      ensures existed <==> name in old(schedules)
      ensures Timetable() == B.DeleteSchedule(old(Timetable()), name)
      ensures schedules == old(schedules) - {name} && scheduleDue == old(scheduleDue) - {name}
    {
      existed := name in schedules;
      schedules := schedules - {name};
      scheduleDue := scheduleDue - {name};
    }

    method DropDue(name: B.Name)
      modifies `scheduleDue
      ensures Timetable() == B.DropDue(old(Timetable()), name)
      ensures scheduleDue == old(scheduleDue) - {name}
    {
      scheduleDue := scheduleDue - {name};
    }

    // -------------------------------------------------------------- leader lock

    /** SET NX PX at Redis time `at`. */
    method AcquireLock(token: L.Token, ttl: int, at: int) returns (taken: bool)
      modifies `lock
      ensures (lock, taken) == L.AcquireLock(old(lock), token, ttl, at)
      ensures taken <==> old(lock).None? || old(lock).value.expiresAt <= at
      ensures lock == if taken then Some(L.Lock(token, at + ttl)) else old(lock)
    {
      taken := lock.None? || lock.value.expiresAt <= at;
      if taken {
        lock := Some(L.Lock(token, at + ttl));
      }
    }

    /** The REFRESH_LOCK script at Redis time `at`. */
    method RefreshLock(token: L.Token, ttl: int, at: int) returns (extended: bool)
      modifies `lock
      ensures (lock, extended) == L.RefreshLock(old(lock), token, ttl, at)
      ensures extended <==> old(lock).Some? && at < old(lock).value.expiresAt && old(lock).value.token == token
      ensures lock == if extended then Some(L.Lock(token, at + ttl)) else old(lock)
    {
      extended := lock.Some? && at < lock.value.expiresAt && lock.value.token == token;
      if extended {
        lock := Some(L.Lock(token, at + ttl));
      }
    }
  }
}
