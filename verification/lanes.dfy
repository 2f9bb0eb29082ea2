/** The ready sorted set packs a priority and a sequence number into one score. While the counter is
    below 10^13 it behaves exactly as 256 first-in first-out lists, one per priority. */
module Lanes {
  import opened Util
  import opened Zset
  import opened Models
  import opened Store

  const LANES: nat := 256
  const EXACT_LIMIT: int := 9_007_199_254_740_992  // 2^53

  function PriorityOf(score: int): int {
    score / PRIORITY_MULTIPLIER
  }

  function SequenceOf(score: int): int {
    score % PRIORITY_MULTIPLIER
  }

  ghost predicate WellScored(z: Zset, sequence: nat) {
    && sequence < PRIORITY_MULTIPLIER
    && (forall m | m in z :: 0 <= PriorityOf(z[m]) < LANES && 1 <= SequenceOf(z[m]) <= sequence)
    && (forall a, b | a in z && b in z && a != b :: SequenceOf(z[a]) != SequenceOf(z[b]))
  }

  /** Packing loses nothing, and the packed score is an exact double (section 3.3 of IEEE 754-2008). */
  lemma ScoreDecodes(priority: Priority, sequence: int)
    requires 1 <= sequence < PRIORITY_MULTIPLIER
    ensures PriorityOf(ReadyScore(priority, sequence)) == priority
    ensures SequenceOf(ReadyScore(priority, sequence)) == sequence
    ensures 0 < ReadyScore(priority, sequence) < EXACT_LIMIT
  {
  }

  /** Scores of a well-scored set are exact in binary64, pairwise distinct, and decode uniquely. */
  lemma WellScoredIsExact(z: Zset, sequence: nat)
    requires WellScored(z, sequence)
    ensures forall m | m in z :: 0 < z[m] < EXACT_LIMIT
    ensures forall m | m in z :: z[m] == ReadyScore(PriorityOf(z[m]), SequenceOf(z[m]))
    ensures forall a, b | a in z && b in z && a != b :: z[a] != z[b]
  {
  }

  // ---------------------------------------------------------------- the simple form: 256 lists

  type Lists = s: seq<seq<TaskId>> | |s| == LANES witness seq(LANES, _ => [])

  const NO_LISTS: Lists := seq(LANES, _ => [])

  datatype QueueOp = Put(id: TaskId, priority: Priority) | Take | Delete(id: TaskId)

  function DeleteFrom(lists: Lists, id: TaskId): Lists {
    seq(LANES, p requires 0 <= p < LANES => WithoutFirst(lists[p], id))
  }

  function Append(lists: Lists, id: TaskId, priority: Priority): Lists {
    lists[priority := lists[priority] + [id]]
  }

  /** The lowest-numbered non-empty list from `p` on, or LANES. */
  function Lowest(lists: Lists, p: nat): (l: nat)
    requires p <= LANES
    ensures p <= l <= LANES
    ensures l < LANES ==> lists[l] != []
    ensures forall k | p <= k < l :: lists[k] == []
    decreases LANES - p
  {
    if p == LANES || lists[p] != [] then p else Lowest(lists, p + 1)
  }

  function ListStep(lists: Lists, op: QueueOp): (Lists, Option<TaskId>) {
    match op
    case Put(id, priority) => (Append(DeleteFrom(lists, id), id, priority), None)
    case Delete(id) => (DeleteFrom(lists, id), None)
    case Take =>
      var l := Lowest(lists, 0);
      if l == LANES then (lists, None) else (lists[l := lists[l][1..]], Some(lists[l][0]))
  }

  // ---------------------------------------------------------------- the fast form: one sorted set

  datatype Ready = Ready(zset: Zset, sequence: nat)

  function ReadyStep(q: Ready, op: QueueOp): (Ready, Option<TaskId>) {
    match op
    case Put(id, priority) =>
      (Ready(q.zset[id := ReadyScore(priority, q.sequence + 1)], q.sequence + 1), None)
    case Delete(id) => (q.(zset := q.zset - {id}), None)
    case Take =>
      if q.zset == map[] then (q, None)
      else (q.(zset := q.zset - {First(q.zset)}), Some(First(q.zset)))
  }

  // ---------------------------------------------------------------- abstraction

  function Lane(z: Zset, p: int): Zset {
    map m | m in z && PriorityOf(z[m]) == p :: z[m]
  }

  function Abstract(z: Zset): Lists {
    seq(LANES, p requires 0 <= p < LANES => Sorted(Lane(z, p)))
  }

  lemma FirstAfterRemove(z: Zset, id: TaskId)
    requires z != map[] && First(z) != id
    ensures z - {id} != map[] && First(z - {id}) == First(z)
    ensures (z - {id}) - {First(z)} == (z - {First(z)}) - {id}
  {
    var m, y := First(z), z - {id};
    forall x | x in y && x != m ensures Before(y, m, x) {
      assert Before(z, m, x);
    }
    FirstIsUnique(y, m);
  }

  lemma {:induction false} SortedRemove(z: Zset, id: TaskId)
    ensures Sorted(z - {id}) == WithoutFirst(Sorted(z), id)
    decreases |z|
  {
    if z == map[] {
      assert z - {id} == z;
    } else {
      SortedStep(z);
      if First(z) != id {
        FirstAfterRemove(z, id);
        SortedStep(z - {id});
        SortedRemove(z - {First(z)}, id);
      }
    }
  }

  lemma FirstAfterAppend(z: Zset, id: TaskId, score: int)
    requires z != map[] && id !in z && forall m | m in z :: z[m] < score
    ensures First(z[id := score]) == First(z)
    ensures z[id := score] - {First(z)} == (z - {First(z)})[id := score]
  {
    var m, y := First(z), z[id := score];
    forall x | x in y && x != m ensures Before(y, m, x) {
      assert x in z ==> Before(z, m, x);
    }
    FirstIsUnique(y, m);
  }

  lemma {:induction false} SortedAppend(z: Zset, id: TaskId, score: int)
    requires id !in z && forall m | m in z :: z[m] < score
    ensures Sorted(z[id := score]) == Sorted(z) + [id]
    decreases |z|
  {
    SortedStep(z[id := score]);
    if z == map[] {
      assert z[id := score] - {id} == z;
      assert First(z[id := score]) == id;
    } else {
      SortedStep(z);
      FirstAfterAppend(z, id, score);
      SortedAppend(z - {First(z)}, id, score);
    }
  }

  lemma DeleteRefines(z: Zset, id: TaskId)
    ensures Abstract(z - {id}) == DeleteFrom(Abstract(z), id)
  {
    forall p | 0 <= p < LANES ensures Abstract(z - {id})[p] == DeleteFrom(Abstract(z), id)[p] {
      assert Lane(z - {id}, p) == Lane(z, p) - {id};
      SortedRemove(Lane(z, p), id);
    }
  }

  lemma LaneAfterPut(z: Zset, id: TaskId, score: int, p: int)
    ensures Lane(z[id := score], p)
         == if p == PriorityOf(score) then (Lane(z, p) - {id})[id := score] else Lane(z, p) - {id}
  {
  }

  lemma PutInLane(q: Ready, id: TaskId, priority: Priority, p: int)
    requires WellScored(q.zset, q.sequence) && q.sequence + 1 < PRIORITY_MULTIPLIER
    ensures Sorted(Lane(q.zset[id := ReadyScore(priority, q.sequence + 1)], p))
         == WithoutFirst(Sorted(Lane(q.zset, p)), id) + (if p == priority then [id] else [])
  {
    var score := ReadyScore(priority, q.sequence + 1);
    ScoreDecodes(priority, q.sequence + 1);
    LaneAfterPut(q.zset, id, score, p);
    SortedRemove(Lane(q.zset, p), id);
    if p == priority {
      SortedAppend(Lane(q.zset, p) - {id}, id, score);
    }
  }

  lemma PutKeepsScores(q: Ready, id: TaskId, priority: Priority)
    requires WellScored(q.zset, q.sequence) && q.sequence + 1 < PRIORITY_MULTIPLIER
    ensures WellScored(q.zset[id := ReadyScore(priority, q.sequence + 1)], q.sequence + 1)
  {
    ScoreDecodes(priority, q.sequence + 1);
  }

  lemma DeleteKeepsScores(q: Ready, id: TaskId)
    requires WellScored(q.zset, q.sequence)
    ensures WellScored(q.zset - {id}, q.sequence)
  {
  }

  lemma PutRefines(q: Ready, id: TaskId, priority: Priority)
    requires WellScored(q.zset, q.sequence) && q.sequence + 1 < PRIORITY_MULTIPLIER
    ensures Abstract(q.zset[id := ReadyScore(priority, q.sequence + 1)])
         == Append(DeleteFrom(Abstract(q.zset), id), id, priority)
  {
    var before, after := Abstract(q.zset), Abstract(q.zset[id := ReadyScore(priority, q.sequence + 1)]);
    var deleted := DeleteFrom(before, id);
    forall p | 0 <= p < LANES
      ensures after[p] == if p == priority then deleted[p] + [id] else deleted[p]
    {
      PutInLane(q, id, priority, p);
    }
    assert after == Append(deleted, id, priority);
  }

  lemma FirstOfLane(z: Zset)
    requires z != map[]
    ensures var p := PriorityOf(z[First(z)]); Lane(z, p) != map[] && First(Lane(z, p)) == First(z)
  {
    var m := First(z);
    var lane := Lane(z, PriorityOf(z[m]));
    forall x | x in lane && x != m ensures Before(lane, m, x) {
      assert Before(z, m, x);
    }
    FirstIsUnique(lane, m);
  }

  lemma LowerLanesAreEmpty(z: Zset, k: int)
    requires z != map[] && k < PriorityOf(z[First(z)])
    ensures Lane(z, k) == map[]
  {
    var m := First(z);
    forall x | x in z ensures PriorityOf(z[x]) != k {
      assert x != m ==> Before(z, m, x);
    }
  }

  lemma TakeFromEmpty(z: Zset)
    requires z == map[]
    ensures ListStep(Abstract(z), Take) == (Abstract(z), None)
  {
    forall p | 0 <= p < LANES ensures Abstract(z)[p] == [] {
      assert Lane(z, p) == map[];
    }
  }

  lemma LowestIs(lists: Lists, p: nat)
    requires p < LANES && lists[p] != [] && forall k | 0 <= k < p :: lists[k] == []
    ensures Lowest(lists, 0) == p
  {
  }

  lemma LowestIsFirst(z: Zset)
    requires z != map[] && 0 <= PriorityOf(z[First(z)]) < LANES
    ensures Lowest(Abstract(z), 0) == PriorityOf(z[First(z)])
    ensures Abstract(z)[PriorityOf(z[First(z)])] == [First(z)] + Sorted(Lane(z, PriorityOf(z[First(z)])) - {First(z)})
  {
    var p := PriorityOf(z[First(z)]);
    FirstOfLane(z);
    SortedStep(Lane(z, p));
    var lists := Abstract(z);
    forall k | 0 <= k < p ensures lists[k] == [] {
      LowerLanesAreEmpty(z, k);
      assert Sorted(Lane(z, k)) == [];
    }
    assert lists[p] == Sorted(Lane(z, p));
    LowestIs(lists, p);
  }

  lemma RemoveFromLanes(z: Zset, m: Member, k: int)
    requires m in z
    ensures Lane(z - {m}, k) == if k == PriorityOf(z[m]) then Lane(z, k) - {m} else Lane(z, k)
  {
  }

  lemma TakeRefines(z: Zset)
    requires z != map[] && 0 <= PriorityOf(z[First(z)]) < LANES
    ensures ListStep(Abstract(z), Take) == (Abstract(z - {First(z)}), Some(First(z)))
  {
    var p := PriorityOf(z[First(z)]);
    LowestIsFirst(z);
    var lists, after := Abstract(z), Abstract(z - {First(z)});
    forall k | 0 <= k < LANES ensures after[k] == if k == p then lists[p][1..] else lists[k] {
      RemoveFromLanes(z, First(z), k);
    }
    assert after == lists[p := lists[p][1..]];
  }

  /** One operation: the sorted set moves to what represents the new lists, and answers the same. */
  lemma StepRefines(q: Ready, op: QueueOp)
    requires WellScored(q.zset, q.sequence) && ReadyStep(q, op).0.sequence < PRIORITY_MULTIPLIER
    ensures var (q', out) := ReadyStep(q, op);
            WellScored(q'.zset, q'.sequence) && (Abstract(q'.zset), out) == ListStep(Abstract(q.zset), op)
  {
    match op
    case Put(id, priority) =>
      PutRefines(q, id, priority);
      PutKeepsScores(q, id, priority);
    case Delete(id) =>
      DeleteRefines(q.zset, id);
      DeleteKeepsScores(q, id);
    case Take =>
      if q.zset == map[] {
        TakeFromEmpty(q.zset);
      } else {
        TakeRefines(q.zset);
        DeleteKeepsScores(q, First(q.zset));
      }
  }

  function ReadyRun(q: Ready, ops: seq<QueueOp>): (Ready, seq<Option<TaskId>>)
    decreases |ops|
  {
    if ops == [] then (q, [])
    else
      var (q1, out) := ReadyStep(q, ops[0]);
      var (q2, outs) := ReadyRun(q1, ops[1..]);
      (q2, [out] + outs)
  }

  function ListRun(lists: Lists, ops: seq<QueueOp>): (Lists, seq<Option<TaskId>>)
    decreases |ops|
  {
    if ops == [] then (lists, [])
    else
      var (l1, out) := ListStep(lists, ops[0]);
      var (l2, outs) := ListRun(l1, ops[1..]);
      (l2, [out] + outs)
  }

  lemma {:induction false} RunCountsUp(q: Ready, ops: seq<QueueOp>)
    ensures q.sequence <= ReadyRun(q, ops).0.sequence
    decreases |ops|
  {
    if ops != [] {
      RunCountsUp(ReadyStep(q, ops[0]).0, ops[1..]);
    }
  }

  /** Every sequence of operations gets the same answers from both forms, as long as the counter has
      not reached 10^13. */
  lemma {:induction false} RunRefines(q: Ready, ops: seq<QueueOp>)
    requires WellScored(q.zset, q.sequence) && ReadyRun(q, ops).0.sequence < PRIORITY_MULTIPLIER
    ensures var (q', outs) := ReadyRun(q, ops);
            WellScored(q'.zset, q'.sequence) && (Abstract(q'.zset), outs) == ListRun(Abstract(q.zset), ops)
    decreases |ops|
  {
    if ops != [] {
      RunCountsUp(ReadyStep(q, ops[0]).0, ops[1..]);
      StepRefines(q, ops[0]);
      RunRefines(ReadyStep(q, ops[0]).0, ops[1..]);
    }
  }
}
