/** Scheduler replicas without the premises on edits and on the lock: what still holds, exactly when, and
    the runs in which the rest fails. */
module ReplicaGaps {
  import opened Util
  import opened Models
  import opened Leader
  import opened Schedules
  import opened Firing
  import opened Replicas

  // ---------------------------------------------------------------- the due index in any run

  /** A run of possible commands, with no discipline. */
  ghost predicate Possible(ttl: Token -> int, cronNext: Cron, s: Cluster, cs: seq<Command>)
    decreases |cs|
  {
    cs == [] || (Enabled(s, cs[0]) && Possible(ttl, cronNext, Do(ttl, cronNext, s, cs[0]), cs[1..]))
  }

  /** Index and table agree in every state of the run. */
  ghost predicate AlwaysAgrees(ttl: Token -> int, cronNext: Cron, s: Cluster, cs: seq<Command>)
    requires Possible(ttl, cronNext, s, cs)
    decreases |cs|
  {
    Agrees(s.book) && (cs == [] || AlwaysAgrees(ttl, cronNext, Do(ttl, cronNext, s, cs[0]), cs[1..]))
  }

  /** The ZREM of a pass that found a schedule missing or disabled, when it is there and due by now. */
  predicate DropsIndexed(s: Cluster, c: Command) {
    && c.Unlist? && c.token in s.active && s.active[c.token].stage.Absent?
    && s.active[c.token].stage.name in s.book.schedules
    && var sched := s.book.schedules[s.active[c.token].stage.name];
       sched.enabled && sched.nextRun.Some? && sched.nextRun.value != 0.0
  }

  ghost predicate NeverDropsIndexed(ttl: Token -> int, cronNext: Cron, s: Cluster, cs: seq<Command>)
    requires Possible(ttl, cronNext, s, cs)
    decreases |cs|
  {
    cs == [] || (!DropsIndexed(s, cs[0]) && NeverDropsIndexed(ttl, cronNext, Do(ttl, cronNext, s, cs[0]), cs[1..]))
  }

  lemma CommandKeepsAgreement(ttl: Token -> int, cronNext: Cron, s: Cluster, c: Command)
    requires Agrees(s.book) && Enabled(s, c)
    ensures Agrees(Do(ttl, cronNext, s, c).book) <==> !DropsIndexed(s, c)
  {
    match c
    case WriteBack(token, _) =>
      var st := s.active[token].stage;
      PutKeepsAgreement(s.book, Fired(cronNext, st.sched, st.t, st.taskId));
    case EditPut(sched, _) => PutKeepsAgreement(s.book, sched);
    case EditDelete(name, _) => DeleteKeepsAgreement(s.book, name);
    case Unlist(token, _) =>
      var name := s.active[token].stage.name;
      if DropsIndexed(s, c) {
        assert name !in DropDue(s.book, name).due;
      } else {
        assert DropDue(s.book, name) == s.book;
      }
    case _ =>
  }

  lemma {:induction false} RunKeepsAgreement(ttl: Token -> int, cronNext: Cron, s: Cluster, cs: seq<Command>)
    requires Agrees(s.book) && Possible(ttl, cronNext, s, cs)
    ensures AlwaysAgrees(ttl, cronNext, s, cs) <==> NeverDropsIndexed(ttl, cronNext, s, cs)
    decreases |cs|
  {
    if cs != [] {
      CommandKeepsAgreement(ttl, cronNext, s, cs[0]);
      if !DropsIndexed(s, cs[0]) {
        RunKeepsAgreement(ttl, cronNext, Do(ttl, cronNext, s, cs[0]), cs[1..]);
      }
    }
  }

  /** Over all runs, whoever edits what and however long passes take: the due index agrees with the table
      in every state if and only if no pass drops a name that is indexed by then. */
  lemma IndexFailsOnlyByLateDrops(ttl: Token -> int, cronNext: Cron, cs: seq<Command>)
    requires Possible(ttl, cronNext, QUIET, cs)
    ensures AlwaysAgrees(ttl, cronNext, QUIET, cs) <==> NeverDropsIndexed(ttl, cronNext, QUIET, cs)
  {
    RunKeepsAgreement(ttl, cronNext, QUIET, cs);
  }

  // ---------------------------------------------------------------- runs in which a premise is missing

  ghost predicate Leads(ttl: Token -> int, cronNext: Cron, s: Cluster, cs: seq<Command>, t: Cluster)
    decreases |cs|
  {
    if cs == [] then s == t
    else Enabled(s, cs[0]) && Leads(ttl, cronNext, Do(ttl, cronNext, s, cs[0]), cs[1..], t)
  }

  lemma {:induction false} OneMore(ttl: Token -> int, cronNext: Cron, s: Cluster, cs: seq<Command>, t: Cluster,
      c: Command)
    requires Leads(ttl, cronNext, s, cs, t) && Enabled(t, c)
    ensures Leads(ttl, cronNext, s, cs + [c], Do(ttl, cronNext, t, c))
    decreases |cs|
  {
    if cs == [] {
      assert ([] + [c])[1..] == [];
    } else {
      assert (cs + [c])[1..] == cs[1..] + [c];
      OneMore(ttl, cronNext, Do(ttl, cronNext, s, cs[0]), cs[1..], t, c);
    }
  }

  ghost predicate Reachable(ttl: Token -> int, cronNext: Cron, t: Cluster) {
    exists cs :: Leads(ttl, cronNext, QUIET, cs, t)
  }

  lemma Extend(ttl: Token -> int, cronNext: Cron, s: Cluster, c: Command) returns (t: Cluster)
    requires Reachable(ttl, cronNext, s) && Enabled(s, c)
    ensures t == Do(ttl, cronNext, s, c) && Reachable(ttl, cronNext, t)
  {
    t := Do(ttl, cronNext, s, c);
    var cs :| Leads(ttl, cronNext, QUIET, cs, s);
    OneMore(ttl, cronNext, QUIET, cs, s, c);
  }

  /** Schedule `sched` alone, due at `t`. */
  ghost predicate DueAt(sched: Schedule, t: real) {
    sched.enabled && sched.nextRun.Some? && sched.nextRun.value != 0.0 && Ms(sched.nextRun.value) <= Ms(t)
  }

  ghost predicate Alone(b: Book, sched: Schedule) {
    b.schedules == map[sched.name := sched] && b.due == map[sched.name := Ms(sched.nextRun.GetOr(0.0))]
  }

  lemma OneIsListed(b: Book, sched: Schedule, t: real)
    requires Alone(b, sched) && DueAt(sched, t)
    ensures DueSchedules(b, Ms(t)) == [sched.name]
  {
    DueQueryIsTheFilter(b, Ms(t));
    var names := DueSchedules(b, Ms(t));
    assert NaiveDue(b, Ms(t)) == {sched.name};
    NoDuplicatesCardinality(names);
    assert names[0] in Elements(names);
  }

  /** Replica 1 is elected at Redis time 0 and lists the only schedule. */
  ghost predicate Listed(s: Cluster, sched: Schedule, t: real) {
    && s.active.Keys == {1} && s.active[1].since == 0 && s.active[1].stage == Working(t, [sched.name])
    && Alone(s.book, sched) && s.clock == 0 && s.enqueued == multiset{}
  }

  lemma OneListed(ttl: Token -> int, cronNext: Cron, sched: Schedule, t: real) returns (s: Cluster)
    requires DueAt(sched, t)
    ensures Reachable(ttl, cronNext, s) && Listed(s, sched, t) && s.lock == Some(Lock(1, ttl(1)))
  {
    assert Leads(ttl, cronNext, QUIET, [], QUIET);
    s := Extend(ttl, cronNext, QUIET, EditPut(sched, 0));
    s := Extend(ttl, cronNext, s, Election(Acquire(1, 0)));
    OneIsListed(s.book, sched, t);
    s := Extend(ttl, cronNext, s, ListDue(1, t, 0));
  }

  /** A schedule is disabled after the listing and enabled again between `get_schedule` and ZREM: it is
      due and not in the index any more. */
  lemma LateDropLosesASchedule(ttl: Token -> int, cronNext: Cron, sched: Schedule, t: real)
    requires DueAt(sched, t)
    ensures exists s: Cluster ::
          Reachable(ttl, cronNext, s) && sched.name in NaiveDue(s.book, Ms(t)) && s.book.due == map[]
  {
    var s := OneListed(ttl, cronNext, sched, t);
    s := Extend(ttl, cronNext, s, EditPut(sched.(enabled := false), 0));
    s := Extend(ttl, cronNext, s, Load(1, 0));
    s := Extend(ttl, cronNext, s, EditPut(sched, 0));
    s := Extend(ttl, cronNext, s, Unlist(1, 0));
    assert sched.name in NaiveDue(s.book, Ms(t)) && s.book.due == map[];
  }

  lemma BothLoaded(ttl: Token -> int, cronNext: Cron, sched: Schedule, t: real) returns (s: Cluster)
    requires DueAt(sched, t) && ttl(1) > 0
    ensures Reachable(ttl, cronNext, s) && s.active.Keys == {1, 2} && s.enqueued == multiset{}
    ensures s.active[1].stage == Loaded(t, sched.name, [], sched) && s.active[2].stage == s.active[1].stage
  {
    s := OneListed(ttl, cronNext, sched, t);
    s := Extend(ttl, cronNext, s, Load(1, 0));
    s := Extend(ttl, cronNext, s, Election(Acquire(2, ttl(1))));
    OneIsListed(s.book, sched, t);
    s := Extend(ttl, cronNext, s, ListDue(2, t, ttl(1)));
    s := Extend(ttl, cronNext, s, Load(2, ttl(1)));
  }

  /** A pass that outlasts its lock: a second replica is elected and fires the same entry again. */
  lemma SlowPassFiresTwice(ttl: Token -> int, cronNext: Cron, sched: Schedule, t: real)
    requires DueAt(sched, t) && ttl(1) > 0
    ensures exists s: Cluster, e: Entry :: Reachable(ttl, cronNext, s) && s.enqueued[e] == 2
  {
    var s := BothLoaded(ttl, cronNext, sched, t);
    var e := Entry(sched.name, Version(s, sched.name));
    s := Extend(ttl, cronNext, s, SendTask(1, 0, ttl(1)));
    s := Extend(ttl, cronNext, s, SendTask(2, 1, ttl(1)));
    assert s.enqueued[e] == 2;
  }

  // ---------------------------------------------------------------- within the premises

  lemma {:induction false} LegalOneMore(ttl: Token -> int, cronNext: Cron, s: Cluster, cs: seq<Command>, c: Command)
    requires Legal(ttl, cronNext, s, cs) && MayDo(ttl, Run(ttl, cronNext, s, cs), c)
    ensures Legal(ttl, cronNext, s, cs + [c])
    ensures Run(ttl, cronNext, s, cs + [c]) == Do(ttl, cronNext, Run(ttl, cronNext, s, cs), c)
    decreases |cs|
  {
    if cs == [] {
      assert ([] + [c])[1..] == [];
    } else {
      assert (cs + [c])[1..] == cs[1..] + [c];
      LegalOneMore(ttl, cronNext, Do(ttl, cronNext, s, cs[0]), cs[1..], c);
    }
  }

  ghost predicate LegallyReached(ttl: Token -> int, cronNext: Cron, t: Cluster) {
    exists cs :: Legal(ttl, cronNext, QUIET, cs) && Run(ttl, cronNext, QUIET, cs) == t
  }

  lemma LegalExtend(ttl: Token -> int, cronNext: Cron, s: Cluster, c: Command) returns (t: Cluster)
    requires LegallyReached(ttl, cronNext, s) && MayDo(ttl, s, c)
    ensures t == Do(ttl, cronNext, s, c) && LegallyReached(ttl, cronNext, t)
  {
    t := Do(ttl, cronNext, s, c);
    var cs :| Legal(ttl, cronNext, QUIET, cs) && Run(ttl, cronNext, QUIET, cs) == s;
    LegalOneMore(ttl, cronNext, QUIET, cs, c);
  }

  lemma OneListedLegally(ttl: Token -> int, cronNext: Cron, sched: Schedule, t: real) returns (s: Cluster)
    requires DueAt(sched, t) && ttl(1) > 0
    ensures LegallyReached(ttl, cronNext, s) && Listed(s, sched, t)
  {
    assert Legal(ttl, cronNext, QUIET, []);
    assert LegallyReached(ttl, cronNext, QUIET);
    s := LegalExtend(ttl, cronNext, QUIET, EditPut(sched, 0));
    s := LegalExtend(ttl, cronNext, s, Election(Acquire(1, 0)));
    OneIsListed(s.book, sched, t);
    s := LegalExtend(ttl, cronNext, s, ListDue(1, t, 0));
  }

  lemma PutOffAndLoaded(ttl: Token -> int, cronNext: Cron, s: Cluster, sched: Schedule, t: real, later: real)
      returns (u: Cluster)
    requires LegallyReached(ttl, cronNext, s) && Listed(s, sched, t) && DueAt(sched, t) && ttl(1) > 0
    ensures LegallyReached(ttl, cronNext, u) && u.clock == 0 && u.active.Keys == {1} && u.active[1].since == 0
    ensures u.active[1].stage == Loaded(t, sched.name, [], sched.(nextRun := Some(later)))
    ensures u.book.schedules == map[sched.name := sched.(nextRun := Some(later))]
  {
    u := LegalExtend(ttl, cronNext, s, EditPut(sched.(nextRun := Some(later)), 0));
    u := LegalExtend(ttl, cronNext, u, Load(1, 0));
  }

  /** A schedule that is put off between the listing and `get_schedule` is fired all the same, early. */
  lemma PutOffScheduleFiresEarly(ttl: Token -> int, cronNext: Cron, sched: Schedule, t: real, later: real)
    requires DueAt(sched, t) && ttl(1) > 0 && Ms(t) < Ms(later)
    ensures exists s: Cluster, send: Command ::
              && LegallyReached(ttl, cronNext, s) && send.SendTask? && MayDo(ttl, s, send)
              && s.active[send.token].stage.sched == sched.(nextRun := Some(later))
              && s.active[send.token].stage.name !in NaiveDue(s.book, Ms(s.active[send.token].stage.t))
  {
    var s := OneListedLegally(ttl, cronNext, sched, t);
    s := PutOffAndLoaded(ttl, cronNext, s, sched, t, later);
    assert MayDo(ttl, s, SendTask(1, 0, 0));
  }
}
