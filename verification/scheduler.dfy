/** The scheduler: the promote and reaper loops between two sleeps, the leader check, and the firing
    pass. */
module Schedulers {
  import opened Util
  import opened Zset
  import opened Models
  import S = Store
  import A = Batches
  import L = Leader
  import B = Schedules
  import F = Firing
  import opened Brokers

  /** The readings up to `n` never go back by a millisecond. */
  ghost predicate Forward(now: nat -> real, n: nat) {
    forall i: nat, j: nat | i <= j <= n :: Ms(now(i)) <= Ms(now(j))
  }

  /** The first `n` calls with these readings. */
  ghost function Calls(now: nat -> real, n: nat, limit: int): seq<A.Call> {
    if n == 0 then [] else Calls(now, n - 1, limit) + [A.Call(Ms(now(n - 1)), limit)]
  }

  lemma {:induction false} CallsAre(now: nat -> real, n: nat, limit: int)
    ensures |Calls(now, n, limit)| == n
    ensures forall k | 0 <= k < n :: Calls(now, n, limit)[k] == A.Call(Ms(now(k)), limit)
    decreases n
  {
    if n > 0 {
      CallsAre(now, n - 1, limit);
    }
  }

  /** Calls with forward readings, the last of them short, leave what one unlimited call would. */
  lemma ForwardCallsDrain(q: S.Transfer, tasks: map<TaskId, Record>, now: nat -> real, n: nat, limit: int)
    requires Forward(now, n)
    requires A.Moved(A.Sweeps(q, tasks, Calls(now, n, limit)), A.Call(Ms(now(n)), limit)) < limit
    ensures S.Sweep(A.Sweeps(q, tasks, Calls(now, n, limit)), tasks, Ms(now(n)), limit)
         == S.Sweep(q, tasks, Ms(now(n)), -1)
  {
    CallsAre(now, n + 1, limit);
    var calls := Calls(now, n + 1, limit);
    assert calls[..n] == Calls(now, n, limit);
    A.SweepsOneMore(q, tasks, Calls(now, n, limit), A.Call(Ms(now(n)), limit));
    A.ShortLastCallDrains(q, tasks, calls);
    A.DrainIsOneSweep(q, tasks, calls);
  }

  class Scheduler {
    const broker: Broker
    const token: L.Token
    const lockTtlMs: int

    constructor (broker: Broker, token: L.Token)
      ensures this.broker == broker && this.token == token
      ensures lockTtlMs == L.LockTtl(broker.cfg.schedulerInterval)
      ensures broker.cfg.schedulerInterval * 6000.0 < 2001.0 ==> lockTtlMs == 2000
      ensures broker.cfg.schedulerInterval * 6000.0 >= 2000.0 ==>
                lockTtlMs as real <= broker.cfg.schedulerInterval * 6000.0 < lockTtlMs as real + 1.0
    {
      this.broker, this.token := broker, token;
      lockTtlMs := Max(2000, Truncate(broker.cfg.schedulerInterval * 1000.0 * 6.0));
    }

    /** The promote loop from one sleep to the next: full batches go on without sleeping, call k at reading
        `now(k)`. It terminates with nothing due at its last reading, and if its clock never goes back, in
        the state of one unlimited promotion at that reading. */
    method PromoteUntilSleep(now: nat -> real) returns (last: nat)
      requires broker.cfg.promoteBatch >= 1
      modifies broker`delayed, broker`ready, broker`sequence
      ensures Due(broker.delayed, Ms(now(last))) == map[]
      ensures Forward(now, last) ==> broker.Store() == S.Promote(old(broker.Store()), Ms(now(last)), -1)
    {
      ghost var q0 := S.Transfer(broker.delayed, broker.ready, broker.sequence);
      var limit := broker.cfg.promoteBatch;
      var moved := limit;
      ghost var q := q0;
      var calls := 0;
      last := 0;
      while moved >= limit
        invariant broker.Store() == old(broker.Store()).(delayed := q.source, ready := q.ready, sequence := q.sequence)
        invariant q == A.Sweeps(q0, broker.tasks, Calls(now, calls, limit))
        invariant moved < limit ==> Due(q.source, Ms(now(last))) == map[]
        invariant moved < limit && Forward(now, last) ==> q == S.Sweep(q0, broker.tasks, Ms(now(last)), -1)
        decreases |broker.delayed| + (if moved >= limit then 1 else 0)
      {
        last := calls;
        ghost var call := A.Call(Ms(now(last)), limit);
        A.SweepsOneMore(q0, broker.tasks, Calls(now, calls, limit), call);
        A.SweepShrinks(q, broker.tasks, call);
        if A.Moved(q, call) < limit {
          A.NothingDueIsLeft(q, broker.tasks, call);
          if Forward(now, last) {
            ForwardCallsDrain(q0, broker.tasks, now, last, limit);
          }
        }
        moved := broker.PromoteDue(now(last), limit);
        q := S.Sweep(q, broker.tasks, Ms(now(last)), limit);
        calls := calls + 1;
      }
    }

    /** The reaper loop from one sleep to the next. */
    method ReapUntilSleep(now: nat -> real) returns (last: nat)
      requires broker.cfg.reaperBatch >= 1
      modifies broker`inflight, broker`ready, broker`sequence
      ensures Due(broker.inflight, Ms(now(last))) == map[]
      ensures Forward(now, last) ==> broker.Store() == S.Reap(old(broker.Store()), Ms(now(last)), -1)
    {
      ghost var q0 := S.Transfer(broker.inflight, broker.ready, broker.sequence);
      var limit := broker.cfg.reaperBatch;
      var reaped := limit;
      ghost var q := q0;
      var calls := 0;
      last := 0;
      while reaped >= limit
        invariant broker.Store() == old(broker.Store()).(inflight := q.source, ready := q.ready, sequence := q.sequence)
        invariant q == A.Sweeps(q0, broker.tasks, Calls(now, calls, limit))
        invariant reaped < limit ==> Due(q.source, Ms(now(last))) == map[]
        invariant reaped < limit && Forward(now, last) ==> q == S.Sweep(q0, broker.tasks, Ms(now(last)), -1)
        decreases |broker.inflight| + (if reaped >= limit then 1 else 0)
      {
        last := calls;
        ghost var call := A.Call(Ms(now(last)), limit);
        A.SweepsOneMore(q0, broker.tasks, Calls(now, calls, limit), call);
        A.SweepShrinks(q, broker.tasks, call);
        if A.Moved(q, call) < limit {
          A.NothingDueIsLeft(q, broker.tasks, call);
          if Forward(now, last) {
            ForwardCallsDrain(q0, broker.tasks, now, last, limit);
          }
        }
        reaped := broker.ReapExpired(now(last), limit);
        q := S.Sweep(q, broker.tasks, Ms(now(last)), limit);
        calls := calls + 1;
      }
    }

    /** Two commands, at Redis times `first` and `second`. */
    method IsLeader(first: int, second: int) returns (leader: bool)
      modifies broker`lock
      ensures var (lock1, refreshed) := L.RefreshLock(old(broker.lock), token, lockTtlMs, first);
              if refreshed then leader && broker.lock == lock1
              else (broker.lock, leader) == L.AcquireLock(lock1, token, lockTtlMs, second)
      ensures var was := old(broker.lock);
              if was.Some? && first < was.value.expiresAt && was.value.token == token then
                leader && broker.lock == Some(L.Lock(token, first + lockTtlMs))
              else if was.None? || was.value.expiresAt <= second then
                leader && broker.lock == Some(L.Lock(token, second + lockTtlMs))
              else
                !leader && broker.lock == was
    {
      leader := broker.RefreshLock(token, lockTtlMs, first);
      if !leader {
        leader := broker.AcquireLock(token, lockTtlMs, second);
      }
    }

    /** The firing pass at clock reading `t`; `newId` and `clock` give each new task's id and time. */
    method FireDueSchedules(t: real, cronNext: B.Cron, newId: B.Name -> TaskId, clock: B.Name -> real)
      modifies broker
      ensures broker.Timetable() == F.Pass(cronNext, old(broker.Timetable()), t, newId)
      ensures broker.Store()
           == F.SendAll(cronNext, old(broker.Store()), old(broker.Timetable()),
                        B.DueSchedules(old(broker.Timetable()), Ms(t)), t, newId, clock)
      ensures broker.lock == old(broker.lock)
    {
      var names := RangeByScore(broker.scheduleDue, Ms(t), -1);
      for i := 0 to |names|
        invariant broker.lock == old(broker.lock)
        invariant F.FireAll(cronNext, broker.Timetable(), names[i..], t, newId)
               == F.FireAll(cronNext, old(broker.Timetable()), names, t, newId)
        invariant F.SendAll(cronNext, broker.Store(), broker.Timetable(), names[i..], t, newId, clock)
               == F.SendAll(cronNext, old(broker.Store()), old(broker.Timetable()), names, t, newId, clock)
      {
        var name := names[i];
        assert names[i..][0] == name && names[i..][1..] == names[i + 1..];
        if name !in broker.schedules || !broker.schedules[name].enabled {
          broker.DropDue(name);
        } else {
          var sched := broker.schedules[name];
          var task := F.TaskOf(sched, newId(name), clock(name));
          var _ := broker.Enqueue(task, clock(name));
          sched := sched.(lastRun := Some(t), lastTaskId := Some(task.id));
          var next := B.NextRunTime(cronNext, sched.cron, sched.interval, t);
          if next.None? {
            sched := sched.(enabled := false);
          } else {
            sched := sched.(nextRun := Some(next.value));
          }
          broker.PutSchedule(sched);
        }
      }
      assert names[|names|..] == [];
    }
  }
}
