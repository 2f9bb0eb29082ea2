/** One firing pass over the due index, and the rhythm that repeated passes give a fixed interval. */
module Firing {
  import opened Util
  import opened Models
  import opened Schedules
  import S = Store

  /** Present and enabled: firing enqueues a task. Otherwise the name is only dropped from the index. */
  predicate Fires(b: Book, name: Name) {
    name in b.schedules && b.schedules[name].enabled
  }

  /** The book after the pass at `t` has dealt with one name; `taskId` is the new task's id. */
  function FireOne(cronNext: Cron, b: Book, name: Name, t: real, taskId: TaskId): Book {
    if Fires(b, name) then PutSchedule(b, Fired(cronNext, b.schedules[name], t, taskId)) else DropDue(b, name)
  }

  function FireAll(cronNext: Cron, b: Book, names: seq<Name>, t: real, newId: Name -> TaskId): Book
    decreases |names|
  {
    if names == [] then b
    else FireAll(cronNext, FireOne(cronNext, b, names[0], t, newId(names[0])), names[1..], t, newId)
  }

  function Pass(cronNext: Cron, b: Book, t: real, newId: Name -> TaskId): Book {
    FireAll(cronNext, b, DueSchedules(b, Ms(t)), t, newId)
  }

  lemma FireOneKeepsAgreement(cronNext: Cron, b: Book, name: Name, t: real, taskId: TaskId)
    requires Agrees(b)
    ensures Agrees(FireOne(cronNext, b, name, t, taskId))
  {
    if Fires(b, name) {
      PutKeepsAgreement(b, Fired(cronNext, b.schedules[name], t, taskId));
    } else {
      DropIsIdle(b, name);
    }
  }

  /** What a pass does to the schedule called `n`. */
  predicate DealtWith(cronNext: Cron, b: Book, b': Book, n: Name, t: real, taskId: TaskId) {
    if Fires(b, n) then n in b'.schedules && b'.schedules[n] == Fired(cronNext, b.schedules[n], t, taskId)
    else (n in b'.schedules <==> n in b.schedules) && (n in b.schedules ==> b'.schedules[n] == b.schedules[n])
  }

  lemma {:induction false} FireAllEffect(cronNext: Cron, b: Book, names: seq<Name>, t: real, newId: Name -> TaskId)
    requires Agrees(b) && NoDuplicates(names)
    ensures Agrees(FireAll(cronNext, b, names, t, newId))
    ensures forall n | n !in names ::
              var b' := FireAll(cronNext, b, names, t, newId);
              (n in b'.schedules <==> n in b.schedules) && (n in b.schedules ==> b'.schedules[n] == b.schedules[n])
    ensures forall n | n in names :: DealtWith(cronNext, b, FireAll(cronNext, b, names, t, newId), n, t, newId(n))
    decreases |names|
  {
    if names != [] {
      var b1 := FireOne(cronNext, b, names[0], t, newId(names[0]));
      FireOneKeepsAgreement(cronNext, b, names[0], t, newId(names[0]));
      FireAllEffect(cronNext, b1, names[1..], t, newId);
      var b' := FireAll(cronNext, b, names, t, newId);
      assert names[0] !in names[1..];
      forall n | n in names ensures DealtWith(cronNext, b, b', n, t, newId(n)) {
        if n != names[0] {
          assert n in names[1..];
          assert DealtWith(cronNext, b1, b', n, t, newId(n));
        }
      }
    }
  }

  /** A pass keeps the index in agreement, fires each due schedule once, however many ticks it missed,
      and leaves every other schedule alone. */
  lemma PassEffect(cronNext: Cron, b: Book, t: real, newId: Name -> TaskId)
    requires Agrees(b)
    ensures var b' := Pass(cronNext, b, t, newId);
            && Agrees(b') && b'.schedules.Keys == b.schedules.Keys
            && forall n | n in b.schedules ::
                 b'.schedules[n] == if n in NaiveDue(b, Ms(t)) then Fired(cronNext, b.schedules[n], t, newId(n))
                                    else b.schedules[n]
  {
    var names := DueSchedules(b, Ms(t));
    DueQueryIsTheFilter(b, Ms(t));
    FireAllEffect(cronNext, b, names, t, newId);
    var b' := Pass(cronNext, b, t, newId);
    forall n | n in names ensures n in NaiveDue(b, Ms(t)) && DealtWith(cronNext, b, b', n, t, newId(n)) {
      assert n in Elements(names);
    }
    forall n ensures n in b'.schedules <==> n in b.schedules {
      assert n in names ==> DealtWith(cronNext, b, b', n, t, newId(n));
    }
    forall n | n in NaiveDue(b, Ms(t)) ensures n in names {
      assert n in Elements(names);
    }
  }

  // ---------------------------------------------------------------- fixed intervals

  /** An enabled schedule with a fixed interval of at least a millisecond. */
  predicate Periodic(s: Schedule, interval: real) {
    && (s.cron == None || s.cron == Some("")) && s.interval == Some(interval) && interval >= 0.001
    && Indexed(s)
  }

  predicate Ticks(b: Book, n: Name, interval: real) {
    n in b.schedules && Periodic(b.schedules[n], interval)
  }

  lemma FiredMovesOn(cronNext: Cron, s: Schedule, t: real, taskId: TaskId, interval: real)
    requires Periodic(s, interval) && 0.0 <= t
    ensures Periodic(Fired(cronNext, s, t, taskId), interval)
    ensures Fired(cronNext, s, t, taskId).nextRun == Some(t + interval)
  {
  }

  lemma NotDueAgain(b: Book, b': Book, n: Name, t: real, interval: real)
    requires Agrees(b') && Ticks(b', n, interval) && n in b.schedules && 0.0 <= t
    requires b'.schedules[n].nextRun == Some(t + interval)
          || (b'.schedules[n] == b.schedules[n] && Indexed(b.schedules[n]) && n !in NaiveDue(b, Ms(t)))
    ensures n !in DueSchedules(b', Ms(t))
  {
    OneMsApart(t, t + interval);
    assert Ms(t) < b'.due[n];
  }

  /** A pass at `t` that fires an interval schedule moves it to `t + interval`, and it is not due any
      more at `t`. */
  lemma FiringMovesOn(cronNext: Cron, b: Book, t: real, newId: Name -> TaskId, n: Name, interval: real)
    requires Agrees(b) && Ticks(b, n, interval) && 0.0 <= t
    ensures var b' := Pass(cronNext, b, t, newId);
            && Ticks(b', n, interval)
            && b'.schedules[n].nextRun ==
               (if n in NaiveDue(b, Ms(t)) then Some(t + interval) else b.schedules[n].nextRun)
            && n !in DueSchedules(b', Ms(t))
  {
    PassEffect(cronNext, b, t, newId);
    FiredMovesOn(cronNext, b.schedules[n], t, newId(n), interval);
    NotDueAgain(b, Pass(cronNext, b, t, newId), n, t, interval);
  }

  /** When the passes at the given times fire schedule `n`. */
  function FireTimes(cronNext: Cron, b: Book, passes: seq<real>, newId: Name -> TaskId, n: Name): seq<real>
    decreases |passes|
  {
    if passes == [] then []
    else (if n in NaiveDue(b, Ms(passes[0])) then [passes[0]] else [])
         + FireTimes(cronNext, Pass(cronNext, b, passes[0], newId), passes[1..], newId, n)
  }

  /** Each fire after the first is later than the one before by more than the interval less 1 ms. */
  ghost predicate Spaced(times: seq<real>, interval: real) {
    forall k | 0 < k < |times| :: times[k - 1] + interval - 0.001 < times[k]
  }

  lemma {:induction false} FiresAreSpaced(cronNext: Cron, b: Book, passes: seq<real>, newId: Name -> TaskId, n: Name,
      interval: real)
    requires Agrees(b) && Ticks(b, n, interval)
    requires forall t | t in passes :: 0.0 <= t
    ensures var times := FireTimes(cronNext, b, passes, newId, n);
            Spaced(times, interval) && (times != [] ==> b.schedules[n].nextRun.value - 0.001 < times[0])
    decreases |passes|
  {
    if passes != [] {
      var t := passes[0];
      assert t in passes;
      FiringMovesOn(cronNext, b, t, newId, n, interval);
      PassEffect(cronNext, b, t, newId);
      assert forall u | u in passes[1..] :: u in passes;
      var b1 := Pass(cronNext, b, t, newId);
      FiresAreSpaced(cronNext, b1, passes[1..], newId, n, interval);
      var rest := FireTimes(cronNext, b1, passes[1..], newId, n);
      if n in NaiveDue(b, Ms(t)) {
        DueIsAtMostOneMsEarly(b.schedules[n].nextRun.value, t);
        var times := [t] + rest;
        forall k | 0 < k < |times| ensures times[k - 1] + interval - 0.001 < times[k] {
          assert times[k] == rest[k - 1];
          if k > 1 { assert times[k - 1] == rest[k - 2]; }
        }
      }
    }
  }

  /** `k` fires span at least `k - 1` times the interval less 1 ms. */
  predicate Spans(times: seq<real>, interval: real) {
    times != [] ==> (|times| - 1) as real * (interval - 0.001) <= times[|times| - 1] - times[0]
  }

  lemma OneMoreFire(k: int, step: real, span: real, last: real)
    requires (k - 1) as real * step <= span && step <= last
    ensures k as real * step <= span + last
  {
    assert k as real == (k - 1) as real + 1.0;
  }

  lemma {:induction false} SpacedSpan(times: seq<real>, interval: real)
    requires Spaced(times, interval)
    ensures Spans(times, interval)
    decreases |times|
  {
    if |times| > 1 {
      var front := times[..|times| - 1];
      SpacedSpan(front, interval);
      OneMoreFire(|front|, interval - 0.001, front[|front| - 1] - front[0], times[|times| - 1] - front[|front| - 1]);
    }
  }

  /** The number of fires in any stretch of passes is bounded by its length. */
  lemma FireCountIsBounded(cronNext: Cron, b: Book, passes: seq<real>, newId: Name -> TaskId, n: Name, interval: real)
    requires Agrees(b) && Ticks(b, n, interval)
    requires forall t | t in passes :: 0.0 <= t
    ensures Spans(FireTimes(cronNext, b, passes, newId, n), interval)
  {
    FiresAreSpaced(cronNext, b, passes, newId, n, interval);
    SpacedSpan(FireTimes(cronNext, b, passes, newId, n), interval);
  }

  // ---------------------------------------------------------------- what a pass enqueues

  /** The task that firing a schedule creates. */
  function TaskOf(s: Schedule, id: TaskId, createdAt: real): Task {
    Task(id,
         Spec(s.task, s.args, s.kwargs, s.priority, s.maxRetries, s.timeout, createdAt, Some(s.name), None, None),
         0, Pending, None, None, None, None, None, None, None)
  }

  /** The queue after a pass: one enqueue for each name that fires, at the reading `clock` gives it. */
  function SendAll(cronNext: Cron, r: S.Redis, b: Book, names: seq<Name>, t: real, newId: Name -> TaskId,
      clock: Name -> real): S.Redis
    decreases |names|
  {
    if names == [] then r
    else
      var n := names[0];
      var sent := if Fires(b, n) then S.Enqueue(r, TaskOf(b.schedules[n], newId(n), clock(n)), clock(n)) else r;
      SendAll(cronNext, sent, FireOne(cronNext, b, n, t, newId(n)), names[1..], t, newId, clock)
  }

  ghost predicate Distinct(newId: Name -> TaskId) {
    forall a, b | a != b :: newId(a) != newId(b)
  }

  /** The stored task of schedule `n` is ready, with the schedule's priority. */
  predicate SentFor(r: S.Redis, s: Schedule, id: TaskId, at: real) {
    && id in r.ready
    && id in r.tasks && r.tasks[id].ttl.None?
    && var t := r.tasks[id].task;
       && t.id == id && t.status == Pending && t.attempts == 0 && t.eta.None? && t.enqueuedAt == Some(at)
       && t.startedAt.None? && t.finishedAt.None? && t.result.None? && t.error.None? && t.traceback.None?
       && t.spec.name == s.task && t.spec.args == s.args && t.spec.kwargs == s.kwargs
       && t.spec.priority == s.priority && t.spec.maxRetries == s.maxRetries && t.spec.timeout == s.timeout
       && t.spec.createdAt == at && t.spec.scheduleName == Some(s.name)
       && t.spec.backoffBase.None? && t.spec.backoffMax.None?
  }

  lemma {:induction false} SendAllFrame(cronNext: Cron, r: S.Redis, b: Book, names: seq<Name>, t: real,
      newId: Name -> TaskId, clock: Name -> real, id: TaskId)
    requires forall n | n in names :: newId(n) != id
    ensures var r' := SendAll(cronNext, r, b, names, t, newId, clock);
            && (id in r'.tasks <==> id in r.tasks) && (id in r.tasks ==> r'.tasks[id] == r.tasks[id])
            && (id in r'.ready <==> id in r.ready) && (id in r.ready ==> r'.ready[id] == r.ready[id])
            && r'.delayed == r.delayed && r'.inflight == r.inflight && r'.dlq == r.dlq
    decreases |names|
  {
    if names != [] {
      var n := names[0];
      var sent := if Fires(b, n) then S.Enqueue(r, TaskOf(b.schedules[n], newId(n), clock(n)), clock(n)) else r;
      assert n in names && forall k | k in names[1..] :: k in names;
      SendAllFrame(cronNext, sent, FireOne(cronNext, b, n, t, newId(n)), names[1..], t, newId, clock, id);
    }
  }

  lemma FireOneSparesOthers(cronNext: Cron, b: Book, n: Name, t: real, taskId: TaskId, m: Name)
    requires Agrees(b) && m != n
    ensures var b1 := FireOne(cronNext, b, n, t, taskId);
            Fires(b1, m) == Fires(b, m) && (Fires(b, m) ==> b1.schedules[m] == b.schedules[m])
  {
  }

  lemma {:induction false} SendAllSends(cronNext: Cron, r: S.Redis, b: Book, names: seq<Name>, t: real,
      newId: Name -> TaskId, clock: Name -> real, m: Name)
    requires Agrees(b) && NoDuplicates(names) && Distinct(newId) && m in names && Fires(b, m)
    ensures SentFor(SendAll(cronNext, r, b, names, t, newId, clock), b.schedules[m], newId(m), clock(m))
    decreases |names|
  {
    var n := names[0];
    var b1 := FireOne(cronNext, b, n, t, newId(n));
    var sent := if Fires(b, n) then S.Enqueue(r, TaskOf(b.schedules[n], newId(n), clock(n)), clock(n)) else r;
    FireOneKeepsAgreement(cronNext, b, n, t, newId(n));
    if m == n {
      forall k | k in names[1..] ensures newId(k) != newId(n) {
        assert k != n;
      }
      assert SentFor(sent, b.schedules[m], newId(m), clock(m));
      SendAllFrame(cronNext, sent, b1, names[1..], t, newId, clock, newId(m));
    } else {
      FireOneSparesOthers(cronNext, b, n, t, newId(n), m);
      assert m in names[1..];
      SendAllSends(cronNext, sent, b1, names[1..], t, newId, clock, m);
    }
  }

  /** The ids of the tasks that a pass at `t` creates. */
  ghost function NewIds(b: Book, t: real, newId: Name -> TaskId): set<TaskId> {
    set n | n in NaiveDue(b, Ms(t)) :: newId(n)
  }

  lemma PassSparesOthers(cronNext: Cron, r: S.Redis, b: Book, t: real, newId: Name -> TaskId, clock: Name -> real,
      id: TaskId)
    requires Agrees(b) && id !in NewIds(b, t, newId)
    ensures var r' := SendAll(cronNext, r, b, DueSchedules(b, Ms(t)), t, newId, clock);
            && (id in r'.tasks <==> id in r.tasks) && (id in r.tasks ==> r'.tasks[id] == r.tasks[id])
            && (id in r'.ready <==> id in r.ready) && (id in r.ready ==> r'.ready[id] == r.ready[id])
  {
    var names := DueSchedules(b, Ms(t));
    DueQueryIsTheFilter(b, Ms(t));
    forall n | n in names ensures newId(n) != id {
      assert n in Elements(names);
    }
    SendAllFrame(cronNext, r, b, names, t, newId, clock, id);
  }

  lemma PassSends(cronNext: Cron, r: S.Redis, b: Book, t: real, newId: Name -> TaskId, clock: Name -> real, n: Name)
    requires Agrees(b) && Distinct(newId) && n in NaiveDue(b, Ms(t))
    ensures SentFor(SendAll(cronNext, r, b, DueSchedules(b, Ms(t)), t, newId, clock),
                    b.schedules[n], newId(n), clock(n))
  {
    var names := DueSchedules(b, Ms(t));
    DueQueryIsTheFilter(b, Ms(t));
    assert n in Elements(names);
    SendAllSends(cronNext, r, b, names, t, newId, clock, n);
  }

  /** Membership of one id before and after a pass. */
  predicate Joins(r: S.Redis, r': S.Redis, id: TaskId, isNew: bool) {
    && (id in r'.tasks <==> id in r.tasks || isNew) && (id in r'.ready <==> id in r.ready || isNew)
    && (!isNew && id in r.tasks ==> r'.tasks[id] == r.tasks[id])
    && (!isNew && id in r.ready ==> r'.ready[id] == r.ready[id])
  }

  lemma PassJoins(cronNext: Cron, r: S.Redis, b: Book, t: real, newId: Name -> TaskId, clock: Name -> real, id: TaskId)
    requires Agrees(b) && Distinct(newId)
    ensures Joins(r, SendAll(cronNext, r, b, DueSchedules(b, Ms(t)), t, newId, clock), id, id in NewIds(b, t, newId))
  {
    if id in NewIds(b, t, newId) {
      var n :| n in NaiveDue(b, Ms(t)) && newId(n) == id;
      PassSends(cronNext, r, b, t, newId, clock, n);
    } else {
      PassSparesOthers(cronNext, r, b, t, newId, clock, id);
    }
  }

  /** Old records and ready scores stay, the keys grow by exactly the new ids. */
  ghost predicate OnlyAdds(r: S.Redis, r': S.Redis, added: set<TaskId>) {
    && r'.tasks.Keys == r.tasks.Keys + added && (forall id | id in r.tasks :: r'.tasks[id] == r.tasks[id])
    && r'.ready.Keys == r.ready.Keys + added && (forall id | id in r.ready :: r'.ready[id] == r.ready[id])
    && r'.delayed == r.delayed && r'.inflight == r.inflight && r'.dlq == r.dlq
  }

  lemma JoinedOnlyAdds(r: S.Redis, r': S.Redis, added: set<TaskId>)
    requires added !! r.tasks.Keys && added !! r.ready.Keys
    requires forall id :: Joins(r, r', id, id in added)
    requires r'.delayed == r.delayed && r'.inflight == r.inflight && r'.dlq == r.dlq
    ensures OnlyAdds(r, r', added)
  {
    forall id ensures id in r'.tasks.Keys <==> id in r.tasks.Keys + added {
      assert Joins(r, r', id, id in added);
    }
    forall id ensures id in r'.ready.Keys <==> id in r.ready.Keys + added {
      assert Joins(r, r', id, id in added);
    }
    forall id | id in r.tasks ensures r'.tasks[id] == r.tasks[id] {
      assert Joins(r, r', id, id in added);
    }
    forall id | id in r.ready ensures r'.ready[id] == r.ready[id] {
      assert Joins(r, r', id, id in added);
    }
  }

  /** A listed name whose schedule is missing or disabled is dropped from the index and nothing is sent;
      any other is sent once and rewritten. */
  lemma OneNameFires(cronNext: Cron, r: S.Redis, b: Book, n: Name, t: real, newId: Name -> TaskId, clock: Name -> real)
    ensures var b' := FireAll(cronNext, b, [n], t, newId);
            var r' := SendAll(cronNext, r, b, [n], t, newId, clock);
            if n in b.schedules && b.schedules[n].enabled then
              && r' == S.Enqueue(r, TaskOf(b.schedules[n], newId(n), clock(n)), clock(n))
              && b' == PutSchedule(b, Fired(cronNext, b.schedules[n], t, newId(n)))
            else
              r' == r && b'.schedules == b.schedules && b'.due == b.due - {n}
  {
    assert [n][1..] == [];
  }

  /** With fresh task ids, a pass puts exactly one ready task per due enabled schedule into the queue and
      touches nothing else there. */
  lemma PassEnqueuesOnePerDueSchedule(cronNext: Cron, r: S.Redis, b: Book, t: real, newId: Name -> TaskId,
      clock: Name -> real)
    requires Agrees(b) && Distinct(newId)
    requires NewIds(b, t, newId) !! r.tasks.Keys && NewIds(b, t, newId) !! r.ready.Keys
    ensures var r' := SendAll(cronNext, r, b, DueSchedules(b, Ms(t)), t, newId, clock);
            && (forall n | n in NaiveDue(b, Ms(t)) :: SentFor(r', b.schedules[n], newId(n), clock(n)))
            && OnlyAdds(r, r', NewIds(b, t, newId))
  {
    var names := DueSchedules(b, Ms(t));
    var r' := SendAll(cronNext, r, b, names, t, newId, clock);
    forall n | n in NaiveDue(b, Ms(t)) ensures SentFor(r', b.schedules[n], newId(n), clock(n)) {
      PassSends(cronNext, r, b, t, newId, clock, n);
    }
    forall id ensures Joins(r, r', id, id in NewIds(b, t, newId)) {
      PassJoins(cronNext, r, b, t, newId, clock, id);
    }
    var other := UnusedId(names, newId);
    SendAllFrame(cronNext, r, b, names, t, newId, clock, other);
    JoinedOnlyAdds(r, r', NewIds(b, t, newId));
  }

  lemma {:induction false} UnusedId(names: seq<Name>, newId: Name -> TaskId) returns (id: TaskId)
    ensures forall n | n in names :: newId(n) < id
    decreases |names|
  {
    if names == [] {
      id := 0;
    } else {
      id := UnusedId(names[1..], newId);
      id := Max(id, newId(names[0]) + 1);
      assert forall n | n in names :: n == names[0] || n in names[1..];
    }
  }
}
