/** The activity feed: the newest enqueued tasks, without duplicates and without expired records. */
module Recent {
  import opened Util
  import opened Models
  import opened Store

  /** LRANGE 0 max(0, limit * 2 - 1), both ends included. */
  function Window(recent: seq<TaskId>, limit: int): seq<TaskId> {
    var count := Max(0, limit * 2 - 1) + 1;
    if count < |recent| then recent[..count] else recent
  }

  /** The ids not in `seen`, each at its first occurrence. */
  function FirstOccurrences(ids: seq<TaskId>, seen: set<TaskId>): seq<TaskId>
    decreases |ids|
  {
    if ids == [] then []
    else if ids[0] in seen then FirstOccurrences(ids[1..], seen)
    else [ids[0]] + FirstOccurrences(ids[1..], seen + {ids[0]})
  }

  /** The stored tasks of `ids` in order, stopping as soon as `out` has `limit` of them; the length is
      looked at after each id, so a limit below one still lets the first id through. */
  function Collect(tasks: map<TaskId, Record>, ids: seq<TaskId>, limit: int, out: seq<Task>): seq<Task>
    decreases |ids|
  {
    if ids == [] then out
    else
      var more := if ids[0] in tasks then out + [tasks[ids[0]].task] else out;
      if |more| >= limit then more else Collect(tasks, ids[1..], limit, more)
  }

  function Feed(r: Redis, limit: int): seq<Task> {
    Collect(r.tasks, FirstOccurrences(Window(r.recent, limit), {}), limit, [])
  }

  /** The position of the newest occurrence of an id, or the length if there is none. */
  function Newest(ids: seq<TaskId>, id: TaskId): nat {
    if ids == [] || ids[0] == id then 0 else 1 + Newest(ids[1..], id)
  }

  ghost predicate Keyed(tasks: map<TaskId, Record>) {
    forall id | id in tasks :: tasks[id].task.id == id
  }

  // ---------------------------------------------------------------- deduplication

  lemma {:induction false} FirstOccurrencesElements(ids: seq<TaskId>, seen: set<TaskId>)
    ensures Elements(FirstOccurrences(ids, seen)) == Elements(ids) - seen
    decreases |ids|
  {
    if ids != [] {
      assert ids == [ids[0]] + ids[1..];
      assert Elements(ids) == {ids[0]} + Elements(ids[1..]);
      if ids[0] in seen {
        FirstOccurrencesElements(ids[1..], seen);
      } else {
        FirstOccurrencesElements(ids[1..], seen + {ids[0]});
        var rest := FirstOccurrences(ids[1..], seen + {ids[0]});
        assert Elements([ids[0]] + rest) == {ids[0]} + Elements(rest);
      }
    }
  }

  /** Positions of first occurrences go up along the deduplicated list. */
  ghost predicate NewestFirst(ids: seq<TaskId>, picked: seq<TaskId>) {
    forall i, j | 0 <= i < j < |picked| :: Newest(ids, picked[i]) < Newest(ids, picked[j])
  }

  lemma {:induction false} FirstOccurrencesInOrder(ids: seq<TaskId>, seen: set<TaskId>)
    ensures NewestFirst(ids, FirstOccurrences(ids, seen))
    decreases |ids|
  {
    if ids != [] {
      var seen1 := seen + {ids[0]};
      var picked := FirstOccurrences(ids[1..], seen1);
      FirstOccurrencesInOrder(ids[1..], seen1);
      FirstOccurrencesElements(ids[1..], seen1);
      assert ids[0] in seen ==> seen1 == seen;
      forall k | 0 <= k < |picked| ensures picked[k] != ids[0] {
        assert picked[k] in Elements(picked);
      }
    }
  }

  lemma {:induction false} WindowPositions(recent: seq<TaskId>, n: nat, id: TaskId)
    requires n <= |recent| && id in recent[..n]
    ensures Newest(recent[..n], id) == Newest(recent, id)
    decreases n
  {
    if recent[0] != id {
      assert recent[..n][1..] == recent[1..][..n - 1];
      assert id in recent[1..][..n - 1];
      WindowPositions(recent[1..], n - 1, id);
    }
  }

  // ---------------------------------------------------------------- collecting

  /** What is collected: stored tasks of a prefix of `ids`, in its order. */
  lemma {:induction false} CollectKeepsOrder(tasks: map<TaskId, Record>, ids: seq<TaskId>, limit: int, out: seq<Task>,
      order: seq<TaskId>)
    requires Keyed(tasks) && NewestFirst(order, Ids(out) + ids)
    ensures NewestFirst(order, Ids(Collect(tasks, ids, limit, out)))
    decreases |ids|
  {
    if ids == [] {
      assert Ids(out) + ids == Ids(out);
    } else {
      var more := if ids[0] in tasks then out + [tasks[ids[0]].task] else out;
      assert Ids(out) + ids == Ids(out) + [ids[0]] + ids[1..];
      if ids[0] in tasks {
        assert Ids(more) == Ids(out) + [ids[0]];
      } else {
        SkipOne(order, Ids(out), ids[0], ids[1..]);
      }
      PrefixInOrder(order, Ids(more), ids[1..]);
      CollectKeepsOrder(tasks, ids[1..], limit, more, order);
    }
  }

  lemma SkipOne(order: seq<TaskId>, a: seq<TaskId>, id: TaskId, b: seq<TaskId>)
    requires NewestFirst(order, a + [id] + b)
    ensures NewestFirst(order, a + b)
  {
    var long, short := a + [id] + b, a + b;
    forall i, j | 0 <= i < j < |short| ensures Newest(order, short[i]) < Newest(order, short[j]) {
      var i', j' := if i < |a| then i else i + 1, if j < |a| then j else j + 1;
      assert short[i] == long[i'] && short[j] == long[j'];
    }
  }

  lemma PrefixInOrder(order: seq<TaskId>, a: seq<TaskId>, b: seq<TaskId>)
    requires NewestFirst(order, a + b)
    ensures NewestFirst(order, a)
  {
    forall i, j | 0 <= i < j < |a| ensures Newest(order, a[i]) < Newest(order, a[j]) {
      assert (a + b)[i] == a[i] && (a + b)[j] == a[j];
    }
  }

  lemma {:induction false} CollectStops(tasks: map<TaskId, Record>, ids: seq<TaskId>, limit: int, out: seq<Task>)
    requires |out| < limit
    ensures |Collect(tasks, ids, limit, out)| <= limit
    ensures (forall id | id in ids :: id in tasks) && |out| + |ids| >= limit ==>
              |Collect(tasks, ids, limit, out)| == limit
    decreases |ids|
  {
    if ids != [] {
      var more := if ids[0] in tasks then out + [tasks[ids[0]].task] else out;
      if |more| < limit {
        CollectStops(tasks, ids[1..], limit, more);
        assert forall id | id in ids[1..] :: id in ids;
      }
      assert ids[0] in ids;
    }
  }

  lemma {:induction false} CollectStored(tasks: map<TaskId, Record>, ids: seq<TaskId>, limit: int, out: seq<Task>,
      all: seq<TaskId>)
    requires forall id | id in ids :: id in all
    requires forall t | t in out :: t.id in all && t.id in tasks && tasks[t.id].task == t
    requires Keyed(tasks)
    ensures forall t | t in Collect(tasks, ids, limit, out) :: t.id in all && t.id in tasks && tasks[t.id].task == t
    decreases |ids|
  {
    if ids != [] {
      var more := if ids[0] in tasks then out + [tasks[ids[0]].task] else out;
      assert ids[0] in ids;
      assert forall id | id in ids[1..] :: id in ids;
      CollectStored(tasks, ids[1..], limit, more, all);
    }
  }

  /** Whether collecting went on or stopped, an id left out comes after every task collected. */
  ghost predicate LeavesOnlyLater(order: seq<TaskId>, picked: seq<Task>, limit: int, id: TaskId) {
    id in Ids(picked) || (|picked| >= limit && forall t | t in picked :: Newest(order, t.id) < Newest(order, id))
  }

  lemma {:induction false} CollectExtends(tasks: map<TaskId, Record>, ids: seq<TaskId>, limit: int, out: seq<Task>)
    ensures out <= Collect(tasks, ids, limit, out)
    decreases |ids|
  {
    if ids != [] {
      var more := if ids[0] in tasks then out + [tasks[ids[0]].task] else out;
      assert out <= more;
      if |more| < limit {
        CollectExtends(tasks, ids[1..], limit, more);
      }
    }
  }

  lemma {:induction false} CollectTakesTheFirst(tasks: map<TaskId, Record>, ids: seq<TaskId>, limit: int,
      out: seq<Task>,
      order: seq<TaskId>)
    requires Keyed(tasks) && NewestFirst(order, Ids(out) + ids) && |out| < limit
    ensures forall id | id in ids && id in tasks :: LeavesOnlyLater(order, Collect(tasks, ids, limit, out), limit, id)
    decreases |ids|
  {
    if ids != [] {
      var more := if ids[0] in tasks then out + [tasks[ids[0]].task] else out;
      var all := Collect(tasks, ids, limit, out);
      NextInOrder(tasks, ids, out, order);
      if |more| < limit {
        CollectTakesTheFirst(tasks, ids[1..], limit, more, order);
        CollectExtends(tasks, ids[1..], limit, more);
      }
      if ids[0] in tasks {
        assert all[|out|] == tasks[ids[0]].task && Ids(all)[|out|] == ids[0];
      }
      forall id | id in ids && id in tasks ensures LeavesOnlyLater(order, all, limit, id) {
        if id != ids[0] && |more| >= limit {
          LaterInOrder(order, more, ids[1..], id);
        }
      }
    }
  }

  lemma NextInOrder(tasks: map<TaskId, Record>, ids: seq<TaskId>, out: seq<Task>, order: seq<TaskId>)
    requires ids != [] && Keyed(tasks) && NewestFirst(order, Ids(out) + ids)
    ensures var more := if ids[0] in tasks then out + [tasks[ids[0]].task] else out;
            NewestFirst(order, Ids(more) + ids[1..])
  {
    assert Ids(out) + ids == Ids(out) + [ids[0]] + ids[1..];
    if ids[0] in tasks {
      assert Ids(out + [tasks[ids[0]].task]) == Ids(out) + [ids[0]];
    } else {
      SkipOne(order, Ids(out), ids[0], ids[1..]);
    }
  }

  lemma LaterInOrder(order: seq<TaskId>, picked: seq<Task>, rest: seq<TaskId>, id: TaskId)
    requires NewestFirst(order, Ids(picked) + rest) && id in rest
    ensures forall t | t in picked :: Newest(order, t.id) < Newest(order, id)
  {
    var j :| 0 <= j < |rest| && rest[j] == id;
    forall t | t in picked ensures Newest(order, t.id) < Newest(order, id) {
      var i :| 0 <= i < |picked| && picked[i] == t;
      assert (Ids(picked) + rest)[i] == t.id && (Ids(picked) + rest)[|picked| + j] == id;
    }
  }

  // ---------------------------------------------------------------- the feed

  lemma WindowKeepsPositions(recent: seq<TaskId>, limit: int, id: TaskId)
    requires id in Window(recent, limit)
    ensures id in recent && Newest(Window(recent, limit), id) == Newest(recent, id)
  {
    var n := |Window(recent, limit)|;
    assert Window(recent, limit) == recent[..n];
    WindowPositions(recent, n, id);
  }

  lemma PickedAreInOrder(recent: seq<TaskId>, limit: int)
    ensures NewestFirst(recent, FirstOccurrences(Window(recent, limit), {}))
    ensures forall id | id in FirstOccurrences(Window(recent, limit), {}) :: id in recent
  {
    var window := Window(recent, limit);
    var picked := FirstOccurrences(window, {});
    FirstOccurrencesInOrder(window, {});
    FirstOccurrencesElements(window, {});
    forall id | id in picked ensures id in recent && Newest(window, id) == Newest(recent, id) {
      assert id in Elements(picked);
      WindowKeepsPositions(recent, limit, id);
    }
    forall i, j | 0 <= i < j < |picked| ensures Newest(recent, picked[i]) < Newest(recent, picked[j]) {
      assert Newest(window, picked[i]) < Newest(window, picked[j]);
    }
  }

  /** The feed lists stored tasks in the order of their newest occurrence, hence each once ... */
  lemma FeedIsOrderedAndDistinct(r: Redis, limit: int)
    requires Keyed(r.tasks)
    ensures NewestFirst(r.recent, Ids(Feed(r, limit))) && NoDuplicates(Ids(Feed(r, limit)))
  {
    PickedAreInOrder(r.recent, limit);
    var picked := FirstOccurrences(Window(r.recent, limit), {});
    assert Ids([]) + picked == picked;
    CollectKeepsOrder(r.tasks, picked, limit, [], r.recent);
    OrderedIsDistinct(r.recent, Ids(Feed(r, limit)));
  }

  /** ... each as it is stored, and at most `limit` of them. */
  lemma FeedIsStoredAndLimited(r: Redis, limit: int)
    requires Keyed(r.tasks)
    ensures limit >= 1 ==> |Feed(r, limit)| <= limit
    ensures forall t | t in Feed(r, limit) :: t.id in r.recent && t.id in r.tasks && r.tasks[t.id].task == t
  {
    PickedAreInOrder(r.recent, limit);
    var picked := FirstOccurrences(Window(r.recent, limit), {});
    CollectStored(r.tasks, picked, limit, [], r.recent);
    if limit >= 1 {
      CollectStops(r.tasks, picked, limit, []);
    }
  }

  /** The newest `limit` stored tasks of the first `2 * limit` entries: distinct and newest first, as they
      are stored; and what is left out of those entries either is not stored, or comes after all of them
      when there are `limit` already. */
  ghost predicate NewestStored(recent: seq<TaskId>, tasks: map<TaskId, Record>, limit: nat, out: seq<Task>) {
    var entries := recent[..Min(2 * limit, |recent|)];
    && |out| <= limit
    && (forall i, j | 0 <= i < j < |out| :: Newest(recent, out[i].id) < Newest(recent, out[j].id))
    && (forall t | t in out :: t.id in entries && t.id in tasks && tasks[t.id].task == t)
    && (forall id | id in entries && id in tasks ::
          id in Ids(out) || (|out| == limit && forall t | t in out :: Newest(recent, t.id) < Newest(recent, id)))
  }

  lemma EntriesArePicked(recent: seq<TaskId>, limit: nat)
    requires limit >= 1
    ensures var entries := recent[..Min(2 * limit, |recent|)];
            Window(recent, limit) == entries
            && forall id :: id in FirstOccurrences(entries, {}) <==> id in entries
  {
    var entries := recent[..Min(2 * limit, |recent|)];
    FirstOccurrencesElements(entries, {});
    assert forall id :: id in FirstOccurrences(entries, {}) <==> id in Elements(FirstOccurrences(entries, {}));
  }

  /** The feed is exactly that. */
  lemma FeedIsTheNewest(r: Redis, limit: nat)
    requires Keyed(r.tasks) && limit >= 1
    ensures NewestStored(r.recent, r.tasks, limit, Feed(r, limit))
  {
    var entries := r.recent[..Min(2 * limit, |r.recent|)];
    var picked := FirstOccurrences(entries, {});
    var out := Feed(r, limit);
    EntriesArePicked(r.recent, limit);
    PickedAreInOrder(r.recent, limit);
    FeedIsOrderedAndDistinct(r, limit);
    CollectStored(r.tasks, picked, limit, [], picked);
    CollectStops(r.tasks, picked, limit, []);
    assert Ids([]) + picked == picked;
    CollectTakesTheFirst(r.tasks, picked, limit, [], r.recent);
    forall i, j | 0 <= i < j < |out| ensures Newest(r.recent, out[i].id) < Newest(r.recent, out[j].id) {
      assert Ids(out)[i] == out[i].id && Ids(out)[j] == out[j].id;
    }
    forall id | id in entries && id in r.tasks
      ensures id in Ids(out) || (|out| == limit && forall t | t in out :: Newest(r.recent, t.id) < Newest(r.recent, id))
    {
      assert LeavesOnlyLater(r.recent, out, limit, id);
    }
  }

  /** The length is looked at only after each id: a limit below one lets the newest entry through, if its
      record is stored, and nothing else. */
  lemma FeedBelowOne(r: Redis, limit: int)
    requires limit < 1
    ensures Feed(r, limit) ==
              if r.recent != [] && r.recent[0] in r.tasks then [r.tasks[r.recent[0]].task] else []
  {
    if r.recent != [] {
      assert Window(r.recent, limit) == [r.recent[0]];
      assert FirstOccurrences([r.recent[0]], {}) == [r.recent[0]] by {
        assert [r.recent[0]][1..] == [];
      }
    }
  }

  lemma OrderedIsDistinct(order: seq<TaskId>, picked: seq<TaskId>)
    requires NewestFirst(order, picked)
    ensures NoDuplicates(picked)
  {
    forall i, j | 0 <= i < j < |picked| ensures picked[i] != picked[j] {
      assert Newest(order, picked[i]) < Newest(order, picked[j]);
    }
  }

  /** The pigeonhole: when nothing occurs more than twice, half of the length is different. */
  lemma {:induction false} AtMostTwice(m: multiset<TaskId>, s: set<TaskId>)
    requires forall x | x in m :: x in s && m[x] <= 2
    ensures |m| <= 2 * |s|
    decreases |s|
  {
    if x :| x in s {
      AtMostTwice(m[x := 0], s - {x});
    } else {
      assert m == multiset{};
    }
  }

  /** A full feed: with `2 * limit` entries, none of them three times among those and none expired, the
      feed has exactly `limit` tasks. */
  lemma FeedIsFull(r: Redis, limit: int)
    requires limit >= 1 && |r.recent| >= 2 * limit
    requires forall id | id in r.recent[..2 * limit] ::
               id in r.tasks && multiset(r.recent[..2 * limit])[id] <= 2
    ensures |Feed(r, limit)| == limit
  {
    var window := Window(r.recent, limit);
    assert window == r.recent[..2 * limit];
    var picked := FirstOccurrences(window, {});
    FirstOccurrencesElements(window, {});
    FirstOccurrencesInOrder(window, {});
    OrderedIsDistinct(window, picked);
    NoDuplicatesCardinality(picked);
    AtMostTwice(multiset(window), Elements(window));
    forall id | id in picked ensures id in r.tasks {
      assert id in Elements(picked);
    }
    CollectStops(r.tasks, picked, limit, []);
  }

  /** Pushing an id puts it first and keeps the order of the rest, up to the cap of 1000. */
  lemma PushedIsNewest(recent: seq<TaskId>, id: TaskId)
    requires |recent| <= RECENT_CAP
    ensures |PushRecent(recent, id)| <= RECENT_CAP
    ensures Newest(PushRecent(recent, id), id) == 0
    ensures forall k | 0 <= k < |recent| && k + 1 < RECENT_CAP ::
              k + 1 < |PushRecent(recent, id)| && PushRecent(recent, id)[k + 1] == recent[k]
  {
  }
}
