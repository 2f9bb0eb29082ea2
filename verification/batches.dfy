/** PROMOTE and REAP work in batches and may run on every scheduler replica. The result of a
    drained sweep does not depend on how the work was cut into batches or who did it. */
module Batches {
  import opened Util
  import opened Zset
  import opened Models
  import opened Store

  /** One PROMOTE or REAP invocation: its clock argument and its batch limit. */
  datatype Call = Call(now: int, limit: int)

  function Moved(q: Transfer, call: Call): nat {
    |RangeByScore(q.source, call.now, call.limit)|
  }

  function Sweeps(q: Transfer, tasks: map<TaskId, Record>, calls: seq<Call>): Transfer
    decreases |calls|
  {
    if calls == [] then q
    else Sweeps(Sweep(q, tasks, calls[0].now, calls[0].limit), tasks, calls[1..])
  }

  /** The clock never goes back, and the last call came back with less than a full batch. */
  ghost predicate Drained(q: Transfer, tasks: map<TaskId, Record>, calls: seq<Call>)
    decreases |calls|
  {
    && calls != []
    && if |calls| == 1 then calls[0].limit < 0 || Moved(q, calls[0]) < calls[0].limit
       else calls[0].now <= calls[1].now
            && Drained(Sweep(q, tasks, calls[0].now, calls[0].limit), tasks, calls[1..])
  }

  lemma {:induction false} MoveAllConcat(q: Transfer, tasks: map<TaskId, Record>, a: seq<TaskId>, b: seq<TaskId>)
    ensures MoveAll(q, tasks, a + b) == MoveAll(MoveAll(q, tasks, a), tasks, b)
    decreases |a|
  {
    if a == [] {
      assert a + b == b;
    } else {
      assert (a + b)[1..] == a[1..] + b;
      MoveAllConcat(MoveOne(q, tasks, a[0]), tasks, a[1..], b);
    }
  }

  lemma RangeIsPrefixOfDue(z: Zset, now: int, limit: int, later: int)
    requires now <= later
    ensures RangeByScore(z, now, limit) <= Sorted(Due(z, later))
  {
    EarlierDueIsPrefix(z, now, later);
  }

  lemma DueMinus(z: Zset, now: int, s: set<Member>)
    ensures Due(z - s, now) == Due(z, now) - s
  {
  }

  /** A batch followed by an unlimited call at the same or a later time is that unlimited call. */
  lemma SweepThenAll(q: Transfer, tasks: map<TaskId, Record>, call: Call, later: int)
    requires call.now <= later
    ensures Sweep(Sweep(q, tasks, call.now, call.limit), tasks, later, -1) == Sweep(q, tasks, later, -1)
  {
    var batch := RangeByScore(q.source, call.now, call.limit);
    var all := Sorted(Due(q.source, later));
    RangeIsPrefixOfDue(q.source, call.now, call.limit, later);
    assert batch == all[..|batch|];
    var p := MoveAll(q, tasks, batch);
    MoveAllKeys(q, tasks, batch);
    DueMinus(q.source, later, Elements(batch));
    SortedDrop(Due(q.source, later), |batch|);
    assert RangeByScore(p.source, later, -1) == all[|batch|..];
    assert all == batch + all[|batch|..];
    MoveAllConcat(q, tasks, batch, all[|batch|..]);
  }

  /** Batch and replica independence: any drained sequence of calls, by whichever replicas and with
      whichever limits, leaves the source set, the ready scores and the counter exactly as one
      unlimited call at the last clock value would have. */
  lemma {:induction false} DrainIsOneSweep(q: Transfer, tasks: map<TaskId, Record>, calls: seq<Call>)
    requires Drained(q, tasks, calls)
    ensures Sweeps(q, tasks, calls) == Sweep(q, tasks, calls[|calls| - 1].now, -1)
    decreases |calls|
  {
    if |calls| == 1 {
      assert calls[1..] == [];
      assert RangeByScore(q.source, calls[0].now, calls[0].limit) == RangeByScore(q.source, calls[0].now, -1);
    } else {
      var p := Sweep(q, tasks, calls[0].now, calls[0].limit);
      DrainIsOneSweep(p, tasks, calls[1..]);
      CallsAreOrdered(p, tasks, calls[1..]);
      SweepThenAll(q, tasks, calls[0], calls[|calls| - 1].now);
    }
  }

  lemma {:induction false} CallsAreOrdered(q: Transfer, tasks: map<TaskId, Record>, calls: seq<Call>)
    requires Drained(q, tasks, calls)
    ensures calls[0].now <= calls[|calls| - 1].now
    decreases |calls|
  {
    if |calls| > 1 {
      CallsAreOrdered(Sweep(q, tasks, calls[0].now, calls[0].limit), tasks, calls[1..]);
    }
  }

  lemma {:induction false} SweepsOneMore(q: Transfer, tasks: map<TaskId, Record>, calls: seq<Call>, last: Call)
    ensures Sweeps(q, tasks, calls + [last]) == Sweep(Sweeps(q, tasks, calls), tasks, last.now, last.limit)
    decreases |calls|
  {
    if calls == [] {
      assert ([] + [last])[1..] == [];
    } else {
      assert (calls + [last])[1..] == calls[1..] + [last];
      SweepsOneMore(Sweep(q, tasks, calls[0].now, calls[0].limit), tasks, calls[1..], last);
    }
  }

  /** Calls at growing clock values whose last one fell short of its batch have drained the source. */
  lemma {:induction false} ShortLastCallDrains(q: Transfer, tasks: map<TaskId, Record>, calls: seq<Call>)
    requires calls != [] && forall i, j | 0 <= i <= j < |calls| :: calls[i].now <= calls[j].now
    requires var n := |calls| - 1; Moved(Sweeps(q, tasks, calls[..n]), calls[n]) < calls[n].limit
    ensures Drained(q, tasks, calls)
    decreases |calls|
  {
    if |calls| > 1 {
      var n := |calls| - 1;
      assert calls[..n][1..] == calls[1..][..n - 1];
      ShortLastCallDrains(Sweep(q, tasks, calls[0].now, calls[0].limit), tasks, calls[1..]);
    }
  }

  /** Draining at one time and then at a later time is draining at the later time. */
  lemma TwoDrains(q: Transfer, tasks: map<TaskId, Record>, first: seq<Call>, second: seq<Call>)
    requires Drained(q, tasks, first)
    requires Drained(Sweeps(q, tasks, first), tasks, second)
    requires first[|first| - 1].now <= second[|second| - 1].now
    ensures Sweeps(Sweeps(q, tasks, first), tasks, second) == Sweep(q, tasks, second[|second| - 1].now, -1)
  {
    DrainIsOneSweep(q, tasks, first);
    DrainIsOneSweep(Sweeps(q, tasks, first), tasks, second);
    SweepThenAll(q, tasks, Call(first[|first| - 1].now, -1), second[|second| - 1].now);
  }

  /** A call below its limit leaves nothing due, and everything that was not due is untouched. */
  lemma NothingDueIsLeft(q: Transfer, tasks: map<TaskId, Record>, call: Call)
    requires call.limit < 0 || Moved(q, call) < call.limit
    ensures var p := Sweep(q, tasks, call.now, call.limit);
            && Due(p.source, call.now) == map[]
            && p.source == map m | m in q.source && q.source[m] > call.now :: q.source[m]
  {
    var batch := RangeByScore(q.source, call.now, call.limit);
    assert batch == Sorted(Due(q.source, call.now));
    SortedElements(Due(q.source, call.now));
    MoveAllKeys(q, tasks, batch);
    assert Elements(batch) == Due(q.source, call.now).Keys;
  }

  lemma PrefixComesFirst(z: Zset, n: nat, a: Member, b: Member)
    requires n <= |Sorted(z)| && a in Sorted(z)[..n] && b in z && b !in Sorted(z)[..n]
    ensures a in z && Before(z, a, b)
  {
    SortedIsOrdered(z);
    SortedElements(z);
    var s := Sorted(z);
    var i :| 0 <= i < n && s[i] == a;
    var j :| 0 <= j < |s| && s[j] == b;
    assert Before(z, s[i], s[j]);
  }

  /** The batch is the due members in order, cut at the limit. */
  lemma BatchIsPrefix(z: Zset, now: int, limit: int)
    ensures var due, batch := Due(z, now), RangeByScore(z, now, limit);
            && |batch| == (if 0 <= limit < |due| then limit else |due|)
            && |Sorted(due)| == |due| && batch == Sorted(due)[..|batch|]
  {
    SortedHasNoDuplicates(Due(z, now));
  }

  /** A call moves the members that are due, earliest first, as many as its limit allows, and no others. */
  lemma BatchTakesTheEarliest(q: Transfer, tasks: map<TaskId, Record>, call: Call)
    ensures var p := Sweep(q, tasks, call.now, call.limit);
            && (forall m | m in p.source :: m in q.source && p.source[m] == q.source[m])
            && (forall m | m in q.source && m !in p.source :: q.source[m] <= call.now)
            && (forall a, b | a in q.source && a !in p.source && b in p.source && q.source[b] <= call.now ::
                  q.source[a] < q.source[b] || (q.source[a] == q.source[b] && a < b))
            && Moved(q, call) == (if 0 <= call.limit < |Due(q.source, call.now)| then call.limit
                                  else |Due(q.source, call.now)|)
  {
    var p := Sweep(q, tasks, call.now, call.limit);
    var batch := RangeByScore(q.source, call.now, call.limit);
    BatchIsPrefix(q.source, call.now, call.limit);
    MoveAllKeys(q, tasks, batch);
    assert forall m | m in q.source :: m !in p.source <==> m in batch;
    forall a, b | a in q.source && a !in p.source && b in p.source && q.source[b] <= call.now
      ensures q.source[a] < q.source[b] || (q.source[a] == q.source[b] && a < b)
    {
      PrefixComesFirst(Due(q.source, call.now), |batch|, a, b);
    }
  }

  /** A moved member with a record is ready, at its record's priority and a number that was not handed out
      before; other ready members keep their scores. */
  lemma MovedGetNewScores(q: Transfer, tasks: map<TaskId, Record>, call: Call)
    ensures var p := Sweep(q, tasks, call.now, call.limit);
            && (forall m | m in q.source && m !in p.source && m in tasks ::
                  m in p.ready && exists n ::
                        IsNumbered(p.ready[m], tasks[m].task.spec.priority, n, q.sequence, p.sequence))
            && (forall m | m in q.ready && (m in p.source || m !in q.source) ::
                  m in p.ready && p.ready[m] == q.ready[m])
  {
    var batch := RangeByScore(q.source, call.now, call.limit);
    MoveAllKeys(q, tasks, batch);
    var p := MoveAll(q, tasks, batch);
    forall m | m in q.source && m !in p.source && m in tasks
      ensures m in p.ready && exists n :: IsNumbered(p.ready[m], tasks[m].task.spec.priority, n, q.sequence, p.sequence)
    {
      MovedIsNumbered(q, tasks, batch, m);
    }
    forall m | m in q.ready && (m in p.source || m !in q.source) ensures m in p.ready && p.ready[m] == q.ready[m] {
      MoveAllFrame(q, tasks, batch, m);
    }
  }

  /** The score of a priority and a sequence number from after `low` up to `high`. */
  predicate IsNumbered(score: int, priority: int, n: int, low: int, high: int) {
    low < n <= high && score == priority * 10_000_000_000_000 + n
  }

  lemma {:induction false} MovedIsNumbered(q: Transfer, tasks: map<TaskId, Record>, ids: seq<TaskId>, m: TaskId)
    requires m in ids && m in tasks
    ensures var p := MoveAll(q, tasks, ids);
            && q.sequence <= p.sequence && m in p.ready
            && exists n :: IsNumbered(p.ready[m], tasks[m].task.spec.priority, n, q.sequence, p.sequence)
    decreases |ids|
  {
    var q1 := MoveOne(q, tasks, ids[0]);
    var p := MoveAll(q1, tasks, ids[1..]);
    SequenceGrows(q1, tasks, ids[1..]);
    if m in ids[1..] {
      MovedIsNumbered(q1, tasks, ids[1..], m);
      var n :| IsNumbered(p.ready[m], tasks[m].task.spec.priority, n, q1.sequence, p.sequence);
      assert IsNumbered(p.ready[m], tasks[m].task.spec.priority, n, q.sequence, p.sequence);
    } else {
      MoveAllFrame(q1, tasks, ids[1..], m);
      assert IsNumbered(p.ready[m], tasks[m].task.spec.priority, q1.sequence, q.sequence, p.sequence);
    }
  }

  lemma {:induction false} SequenceGrows(q: Transfer, tasks: map<TaskId, Record>, ids: seq<TaskId>)
    ensures q.sequence <= MoveAll(q, tasks, ids).sequence
    decreases |ids|
  {
    if ids != [] {
      SequenceGrows(MoveOne(q, tasks, ids[0]), tasks, ids[1..]);
    }
  }

  /** A call that fills its batch removes that many members, so full batches cannot go on for ever. */
  lemma SweepShrinks(q: Transfer, tasks: map<TaskId, Record>, call: Call)
    ensures |Sweep(q, tasks, call.now, call.limit).source| == |q.source| - Moved(q, call)
  {
    var batch := RangeByScore(q.source, call.now, call.limit);
    MoveAllKeys(q, tasks, batch);
    RangeHasNoDuplicates(q.source, call.now, call.limit);
    RemoveCount(q.source, Elements(batch));
  }
}
