/** Several scheduler replicas with their leader lock, the due index and the control plane, command by
    command. Passes finish within the time to live of their election, and nobody edits a schedule that a
    pass has in hand, from reading it to writing it back. Any other edit may come at any time. */
module Replicas {
  import opened Util
  import opened Models
  import opened Leader
  import opened Schedules
  import opened Firing

  /** How far a replica's firing pass has come; `name` is being dealt with, `rest` is still to do. */
  datatype Stage =
    | Starting
    | Working(t: real, todo: seq<Name>)
    | Absent(t: real, name: Name, rest: seq<Name>)
    | Loaded(t: real, name: Name, rest: seq<Name>, sched: Schedule)
    | Sent(t: real, name: Name, rest: seq<Name>, sched: Schedule, taskId: TaskId)

  /** One state of one name's due entry: every write to a name's entry starts a new one. */
  datatype Entry = Entry(name: Name, version: nat)

  /** A pass, the Redis time of the election it belongs to, and the entries that its query listed. */
  datatype Activity = Activity(since: int, stage: Stage, listed: set<Entry>)

  datatype Cluster = Cluster(
    lock: Option<Lock>,
    book: Book,
    active: map<Token, Activity>,
    clock: int,
    versions: map<Name, nat>,
    enqueued: multiset<Entry>,
    consumed: set<Entry>)

  const QUIET: Cluster := Cluster(None, EMPTY_BOOK, map[], 0, map[], multiset{}, {})

  datatype Command =
    | Election(attempt: Attempt)
    | ListDue(token: Token, t: real, at: int)
    | Load(token: Token, at: int)
    | Unlist(token: Token, at: int)
    | SendTask(token: Token, taskId: TaskId, at: int)
    | WriteBack(token: Token, at: int)
    | Finish(token: Token, at: int)
    | EditPut(sched: Schedule, at: int)
    | EditDelete(name: Name, at: int)

  function Time(c: Command): int {
    match c
    case Election(attempt) => attempt.at
    case _ => c.at
  }

  predicate Enabled(s: Cluster, c: Command) {
    match c
    case Election(attempt) => attempt.token !in s.active
    case ListDue(token, _, _) => token in s.active && s.active[token].stage.Starting?
    case Load(token, _) =>
      token in s.active && s.active[token].stage.Working? && s.active[token].stage.todo != []
    case Unlist(token, _) => token in s.active && s.active[token].stage.Absent?
    case SendTask(token, _, _) => token in s.active && s.active[token].stage.Loaded?
    case WriteBack(token, _) => token in s.active && s.active[token].stage.Sent?
    case Finish(token, _) =>
      token in s.active && s.active[token].stage.Working? && s.active[token].stage.todo == []
    case EditPut(_, _) => true
    case EditDelete(_, _) => true
  }

  function Version(s: Cluster, n: Name): nat {
    if n in s.versions then s.versions[n] else 0
  }

  /** The present entries of `names`. */
  function Current(s: Cluster, names: set<Name>): set<Entry> {
    set n | n in names :: Entry(n, Version(s, n))
  }

  function Bump(s: Cluster, n: Name): map<Name, nat> {
    s.versions[n := Version(s, n) + 1]
  }

  function Advance(s: Cluster, token: Token, stage: Stage): map<Token, Activity>
    requires token in s.active
  {
    s.active[token := s.active[token].(stage := stage)]
  }

  function Do(ttl: Token -> int, cronNext: Cron, s: Cluster, c: Command): Cluster
    requires Enabled(s, c)
  {
    var now := s.(clock := Time(c));
    match c
    case Election(attempt) =>
      var (lock, won) := Try(s.lock, ttl, attempt);
      now.(lock := lock,
           active := if won then s.active[attempt.token := Activity(attempt.at, Starting, {})] else s.active)
    case ListDue(token, t, _) =>
      var names := DueSchedules(s.book, Ms(t));
      var pass := s.active[token].(stage := Working(t, names), listed := Current(s, Elements(names)));
      now.(active := s.active[token := pass])
    case Load(token, _) =>
      var st := s.active[token].stage;
      var name := st.todo[0];
      now.(active := Advance(s, token,
             if Fires(s.book, name) then Loaded(st.t, name, st.todo[1..], s.book.schedules[name])
             else Absent(st.t, name, st.todo[1..])))
    case Unlist(token, _) =>
      var st := s.active[token].stage;
      now.(book := DropDue(s.book, st.name), versions := Bump(s, st.name),
           active := Advance(s, token, Working(st.t, st.rest)))
    case SendTask(token, taskId, _) =>
      var st := s.active[token].stage;
      now.(enqueued := s.enqueued + multiset{Entry(st.name, Version(s, st.name))},
           active := Advance(s, token, Sent(st.t, st.name, st.rest, st.sched, taskId)))
    case WriteBack(token, _) =>
      var st := s.active[token].stage;
      now.(book := PutSchedule(s.book, Fired(cronNext, st.sched, st.t, st.taskId)),
           consumed := s.consumed + {Entry(st.name, Version(s, st.name))},
           versions := Bump(s, st.name),
           active := Advance(s, token, Working(st.t, st.rest)))
    case Finish(token, _) => now.(active := s.active - {token})
    case EditPut(sched, _) => now.(book := PutSchedule(s.book, sched), versions := Bump(s, sched.name))
    case EditDelete(name, _) => now.(book := DeleteSchedule(s.book, name), versions := Bump(s, name))
  }

  /** The names that a pass has listed and not yet written back. */
  function Names(stage: Stage): seq<Name> {
    match stage
    case Starting => []
    case Working(_, todo) => todo
    case Absent(_, name, rest) => [name] + rest
    case Loaded(_, name, rest, _) => [name] + rest
    case Sent(_, name, rest, _, _) => [name] + rest
  }

  /** The name that a pass has read and is dealing with. */
  function InHand(stage: Stage): Option<Name> {
    match stage
    case Starting => None
    case Working(_, _) => None
    case Absent(_, name, _) => Some(name)
    case Loaded(_, name, _, _) => Some(name)
    case Sent(_, name, _, _, _) => Some(name)
  }

  function EditedName(c: Command): Option<Name> {
    match c
    case EditPut(sched, _) => Some(sched.name)
    case EditDelete(name, _) => Some(name)
    case _ => None
  }

  predicate MayDo(ttl: Token -> int, s: Cluster, c: Command) {
    && Enabled(s, c) && s.clock <= Time(c)
    && (forall a | a in s.active :: Time(c) < s.active[a].since + ttl(a))
    && (forall a | a in s.active && EditedName(c).Some? :: EditedName(c) != InHand(s.active[a].stage))
  }

  ghost predicate Legal(ttl: Token -> int, cronNext: Cron, s: Cluster, cs: seq<Command>)
    decreases |cs|
  {
    cs == [] || (MayDo(ttl, s, cs[0]) && Legal(ttl, cronNext, Do(ttl, cronNext, s, cs[0]), cs[1..]))
  }

  ghost function Run(ttl: Token -> int, cronNext: Cron, s: Cluster, cs: seq<Command>): Cluster
    requires Legal(ttl, cronNext, s, cs)
    decreases |cs|
  {
    if cs == [] then s else Run(ttl, cronNext, Do(ttl, cronNext, s, cs[0]), cs[1..])
  }

  // ---------------------------------------------------------------- invariant

  /** One pass at a time, under a lock that outlasts it. */
  ghost predicate Exclusive(ttl: Token -> int, s: Cluster) {
    && (forall a, b | a in s.active && b in s.active :: a == b)
    && (forall a | a in s.active ::
          s.active[a].since <= s.clock && Reserved(s.lock, a, s.active[a].since + ttl(a)))
  }

  /** A pass lists each name once, and what it knows about the name in hand is current. */
  ghost predicate StageOk(b: Book, stage: Stage) {
    && NoDuplicates(Names(stage))
    && (stage.Absent? ==> stage.name !in b.schedules || !b.schedules[stage.name].enabled)
    && (stage.Loaded? || stage.Sent? ==>
          stage.name in b.schedules && stage.sched == b.schedules[stage.name] && stage.sched.enabled)
  }

  predicate InFlight(s: Cluster, e: Entry) {
    exists a | a in s.active ::
      s.active[a].stage.Sent? && s.active[a].stage.name == e.name && e.version == Version(s, e.name)
  }

  /** An entry was enqueued once if a pass consumed it or is between its enqueue and its write-back,
      and never otherwise. */
  predicate EntryOk(s: Cluster, e: Entry) {
    && s.enqueued[e] == (if e in s.consumed || InFlight(s, e) then 1 else 0)
    && (e in s.consumed ==> e.version < Version(s, e.name))
  }

  /** What a pass has listed and nobody has touched since is still before it, and due. */
  ghost predicate ListedOk(s: Cluster, a: Token)
    requires a in s.active
  {
    var stage := s.active[a].stage;
    && (stage.Starting? ==> s.active[a].listed == {})
    && (forall e | e in s.active[a].listed ::
          && e.version <= Version(s, e.name)
          && (e.version == Version(s, e.name) ==>
                !stage.Starting? && e.name in Names(stage) && e.name in NaiveDue(s.book, Ms(stage.t))))
  }

  ghost predicate Inv(ttl: Token -> int, s: Cluster) {
    && Exclusive(ttl, s)
    && Agrees(s.book)
    && (forall a | a in s.active :: StageOk(s.book, s.active[a].stage) && ListedOk(s, a))
    && (forall e :: EntryOk(s, e))
  }

  lemma ElectionKeeps(ttl: Token -> int, cronNext: Cron, s: Cluster, c: Command)
    requires Inv(ttl, s) && MayDo(ttl, s, c) && c.Election?
    ensures Inv(ttl, Do(ttl, cronNext, s, c))
  {
    var s' := Do(ttl, cronNext, s, c);
    if a :| a in s.active {
      AttemptKeepsReservation(s.lock, ttl, c.attempt, a, s.active[a].since);
    }
    forall a | a in s'.active ensures StageOk(s'.book, s'.active[a].stage) && ListedOk(s', a) {
      assert a in s.active ==> ListedOk(s, a);
    }
    forall e ensures EntryOk(s', e) {
      assert EntryOk(s, e);
    }
  }

  lemma ListKeeps(ttl: Token -> int, cronNext: Cron, s: Cluster, c: Command)
    requires Inv(ttl, s) && MayDo(ttl, s, c) && c.ListDue?
    ensures Inv(ttl, Do(ttl, cronNext, s, c))
  {
    var s' := Do(ttl, cronNext, s, c);
    DueQueryIsTheFilter(s.book, Ms(c.t));
    var todo := DueSchedules(s.book, Ms(c.t));
    assert forall n :: n in todo <==> n in Elements(todo);
    assert StageOk(s.book, Working(c.t, todo));
    assert ListedOk(s', c.token);
    forall e ensures EntryOk(s', e) {
      assert EntryOk(s, e);
    }
  }

  lemma LoadKeeps(ttl: Token -> int, cronNext: Cron, s: Cluster, c: Command)
    requires Inv(ttl, s) && MayDo(ttl, s, c) && c.Load?
    ensures Inv(ttl, Do(ttl, cronNext, s, c))
  {
    var s' := Do(ttl, cronNext, s, c);
    var st := s.active[c.token].stage;
    assert Names(s'.active[c.token].stage) == st.todo;
    assert StageOk(s.book, s'.active[c.token].stage);
    assert ListedOk(s, c.token);
    forall e ensures EntryOk(s', e) {
      assert EntryOk(s, e);
    }
  }

  lemma FinishKeeps(ttl: Token -> int, cronNext: Cron, s: Cluster, c: Command)
    requires Inv(ttl, s) && MayDo(ttl, s, c) && c.Finish?
    ensures Inv(ttl, Do(ttl, cronNext, s, c))
  {
    var s' := Do(ttl, cronNext, s, c);
    forall e ensures EntryOk(s', e) {
      assert EntryOk(s, e);
    }
  }

  lemma SendKeeps(ttl: Token -> int, cronNext: Cron, s: Cluster, c: Command)
    requires Inv(ttl, s) && MayDo(ttl, s, c) && c.SendTask?
    ensures Inv(ttl, Do(ttl, cronNext, s, c))
  {
    var s' := Do(ttl, cronNext, s, c);
    var st := s.active[c.token].stage;
    assert ListedOk(s, c.token);
    forall e ensures EntryOk(s', e) {
      assert EntryOk(s, e);
      if e == Entry(st.name, Version(s, st.name)) {
        assert s'.active[c.token].stage.Sent?;
      }
    }
  }

  /** The names after the one in hand do not contain it. */
  lemma RestIsOther(stage: Stage, n: Name)
    requires InHand(stage).Some? && NoDuplicates(Names(stage))
    ensures n in stage.rest <==> n in Names(stage) && n != stage.name
    ensures NoDuplicates(stage.rest)
  {
    var names := Names(stage);
    assert names[0] == stage.name && names[1..] == stage.rest;
    if n in stage.rest {
      var k :| 0 <= k < |stage.rest| && stage.rest[k] == n;
      assert names[k + 1] == n;
    }
    forall i, j | 0 <= i < j < |stage.rest| ensures stage.rest[i] != stage.rest[j] {
      assert names[i + 1] != names[j + 1];
    }
  }

  /** A pass is through with the name in hand: that entry is over, the others are as they were. */
  lemma DoneWithName(s: Cluster, s': Cluster, a: Token)
    requires a in s.active && a in s'.active && StageOk(s.book, s.active[a].stage) && ListedOk(s, a)
    requires var st := s.active[a].stage;
             && InHand(st).Some? && s'.active[a] == s.active[a].(stage := Working(st.t, st.rest))
             && s'.versions == Bump(s, st.name)
             && (forall n | n != st.name && n in s.book.schedules ::
                   n in s'.book.schedules && s'.book.schedules[n] == s.book.schedules[n])
    ensures StageOk(s'.book, s'.active[a].stage) && ListedOk(s', a)
  {
    var st := s.active[a].stage;
    RestIsOther(st, st.name);
    forall e | e in s.active[a].listed
      ensures e.version <= Version(s', e.name)
      ensures e.version == Version(s', e.name) ==> e.name in st.rest && e.name in NaiveDue(s'.book, Ms(st.t))
    {
      RestIsOther(st, e.name);
    }
  }

  lemma WriteBackEntries(ttl: Token -> int, cronNext: Cron, s: Cluster, c: Command, e: Entry)
    requires Exclusive(ttl, s) && Enabled(s, c) && c.WriteBack? && EntryOk(s, e)
    ensures EntryOk(Do(ttl, cronNext, s, c), e)
  {
    var st := s.active[c.token].stage;
    if e == Entry(st.name, Version(s, st.name)) {
      assert InFlight(s, e);
    }
  }

  lemma WriteBackKeeps(ttl: Token -> int, cronNext: Cron, s: Cluster, c: Command)
    requires Inv(ttl, s) && MayDo(ttl, s, c) && c.WriteBack?
    ensures Inv(ttl, Do(ttl, cronNext, s, c))
  {
    var s' := Do(ttl, cronNext, s, c);
    var st := s.active[c.token].stage;
    PutKeepsAgreement(s.book, Fired(cronNext, st.sched, st.t, st.taskId));
    DoneWithName(s, s', c.token);
    forall e ensures EntryOk(s', e) {
      assert EntryOk(s, e);
      WriteBackEntries(ttl, cronNext, s, c, e);
    }
  }

  lemma UnlistKeeps(ttl: Token -> int, cronNext: Cron, s: Cluster, c: Command)
    requires Inv(ttl, s) && MayDo(ttl, s, c) && c.Unlist?
    ensures Inv(ttl, Do(ttl, cronNext, s, c))
  {
    var s' := Do(ttl, cronNext, s, c);
    DropIsIdle(s.book, s.active[c.token].stage.name);
    DoneWithName(s, s', c.token);
    forall e ensures EntryOk(s', e) {
      assert EntryOk(s, e);
    }
  }

  lemma EditEntries(ttl: Token -> int, cronNext: Cron, s: Cluster, c: Command, e: Entry)
    requires Inv(ttl, s) && MayDo(ttl, s, c) && (c.EditPut? || c.EditDelete?)
    ensures EntryOk(Do(ttl, cronNext, s, c), e)
  {
    assert EntryOk(s, e);
    if InFlight(s, e) {
      var a :| a in s.active && s.active[a].stage.Sent? && s.active[a].stage.name == e.name;
      assert InHand(s.active[a].stage) == Some(e.name);
    }
  }

  /** Editing one schedule does not disturb a pass that has another one in hand. */
  lemma EditSparesPass(s: Cluster, s': Cluster, a: Token, edited: Name)
    requires a in s.active && StageOk(s.book, s.active[a].stage) && ListedOk(s, a)
    requires s'.active == s.active && InHand(s.active[a].stage) != Some(edited) && s'.versions == Bump(s, edited)
    requires forall n | n != edited ::
               && (n in s'.book.schedules <==> n in s.book.schedules)
               && (n in s.book.schedules ==> s'.book.schedules[n] == s.book.schedules[n])
    ensures StageOk(s'.book, s'.active[a].stage) && ListedOk(s', a)
  {
  }

  lemma EditKeeps(ttl: Token -> int, cronNext: Cron, s: Cluster, c: Command)
    requires Inv(ttl, s) && MayDo(ttl, s, c) && (c.EditPut? || c.EditDelete?)
    ensures Inv(ttl, Do(ttl, cronNext, s, c))
  {
    var s' := Do(ttl, cronNext, s, c);
    if c.EditPut? {
      PutKeepsAgreement(s.book, c.sched);
    } else {
      DeleteKeepsAgreement(s.book, c.name);
    }
    forall a | a in s'.active ensures StageOk(s'.book, s'.active[a].stage) && ListedOk(s', a) {
      EditSparesPass(s, s', a, EditedName(c).value);
    }
    forall e ensures EntryOk(s', e) {
      EditEntries(ttl, cronNext, s, c, e);
    }
  }

  lemma CommandKeepsInv(ttl: Token -> int, cronNext: Cron, s: Cluster, c: Command)
    requires Inv(ttl, s) && MayDo(ttl, s, c)
    ensures Inv(ttl, Do(ttl, cronNext, s, c))
  {
    match c
    case Election(_) => ElectionKeeps(ttl, cronNext, s, c);
    case ListDue(_, _, _) => ListKeeps(ttl, cronNext, s, c);
    case Load(_, _) => LoadKeeps(ttl, cronNext, s, c);
    case Finish(_, _) => FinishKeeps(ttl, cronNext, s, c);
    case Unlist(_, _) => UnlistKeeps(ttl, cronNext, s, c);
    case SendTask(_, _, _) => SendKeeps(ttl, cronNext, s, c);
    case WriteBack(_, _) => WriteBackKeeps(ttl, cronNext, s, c);
    case EditPut(_, _) => EditKeeps(ttl, cronNext, s, c);
    case EditDelete(_, _) => EditKeeps(ttl, cronNext, s, c);
  }

  lemma {:induction false} RunKeepsInv(ttl: Token -> int, cronNext: Cron, s: Cluster, cs: seq<Command>)
    requires Inv(ttl, s) && Legal(ttl, cronNext, s, cs)
    ensures Inv(ttl, Run(ttl, cronNext, s, cs))
    decreases |cs|
  {
    if cs != [] {
      CommandKeepsInv(ttl, cronNext, s, cs[0]);
      RunKeepsInv(ttl, cronNext, Do(ttl, cronNext, s, cs[0]), cs[1..]);
    }
  }

  // ---------------------------------------------------------------- what it means

  lemma RunFromStart(ttl: Token -> int, cronNext: Cron, cs: seq<Command>)
    requires Legal(ttl, cronNext, QUIET, cs)
    ensures Inv(ttl, Run(ttl, cronNext, QUIET, cs))
  {
    RunKeepsInv(ttl, cronNext, QUIET, cs);
  }

  /** Passes of different replicas never overlap. */
  lemma PassesNeverOverlap(ttl: Token -> int, cronNext: Cron, cs: seq<Command>, a: Token, b: Token)
    requires Legal(ttl, cronNext, QUIET, cs)
    requires a in Run(ttl, cronNext, QUIET, cs).active && b in Run(ttl, cronNext, QUIET, cs).active
    ensures a == b
  {
    RunFromStart(ttl, cronNext, cs);
  }

  /** No entry is ever enqueued twice, and between passes exactly the consumed ones have been enqueued. */
  lemma NoEntryFiresTwice(ttl: Token -> int, cronNext: Cron, cs: seq<Command>, e: Entry)
    requires Legal(ttl, cronNext, QUIET, cs)
    ensures var s := Run(ttl, cronNext, QUIET, cs);
            && s.enqueued[e] <= 1
            && (e in s.consumed ==> s.enqueued[e] == 1)
            && (s.active == map[] ==> (s.enqueued[e] == 1 <==> e in s.consumed))
  {
    RunFromStart(ttl, cronNext, cs);
    assert EntryOk(Run(ttl, cronNext, QUIET, cs), e);
  }

  /** The entry is dealt with, or untouched and before the pass of `token`. */
  predicate Pursued(s: Cluster, token: Token, e: Entry) {
    || e in s.consumed
    || (e.version == Version(s, e.name) && token in s.active && e in s.active[token].listed)
  }

  /** The entry is over without having been dealt with. */
  predicate Overwritten(s: Cluster, e: Entry) {
    e !in s.consumed && e.version < Version(s, e.name)
  }

  /** An edit of the entry's schedule that comes before a pass has dealt with it. */
  predicate Overtakes(s: Cluster, c: Command, e: Entry) {
    EditedName(c) == Some(e.name) && e !in s.consumed
  }

  lemma CommandPursues(ttl: Token -> int, cronNext: Cron, s: Cluster, c: Command, token: Token, e: Entry)
    requires Inv(ttl, s) && MayDo(ttl, s, c) && Pursued(s, token, e)
    ensures var s' := Do(ttl, cronNext, s, c);
            if Overtakes(s, c, e) then Overwritten(s', e) else Pursued(s', token, e)
    ensures c.Finish? && c.token == token ==> e in s.consumed
  {
    assert token in s.active ==> ListedOk(s, token);
  }

  lemma OverwrittenForGood(ttl: Token -> int, cronNext: Cron, s: Cluster, c: Command, e: Entry)
    requires Enabled(s, c) && Overwritten(s, e)
    ensures Overwritten(Do(ttl, cronNext, s, c), e)
  {
  }

  /** Some edit in the run overtakes the entry. */
  ghost predicate Overtaken(ttl: Token -> int, cronNext: Cron, s: Cluster, cs: seq<Command>, e: Entry)
    requires Legal(ttl, cronNext, s, cs)
    decreases |cs|
  {
    cs != [] && (Overtakes(s, cs[0], e) || Overtaken(ttl, cronNext, Do(ttl, cronNext, s, cs[0]), cs[1..], e))
  }

  lemma {:induction false} RunOverwritten(ttl: Token -> int, cronNext: Cron, s: Cluster, cs: seq<Command>, e: Entry)
    requires Legal(ttl, cronNext, s, cs) && Overwritten(s, e)
    ensures Overwritten(Run(ttl, cronNext, s, cs), e)
    decreases |cs|
  {
    if cs != [] {
      OverwrittenForGood(ttl, cronNext, s, cs[0], e);
      RunOverwritten(ttl, cronNext, Do(ttl, cronNext, s, cs[0]), cs[1..], e);
    }
  }

  lemma {:induction false} RunPursues(ttl: Token -> int, cronNext: Cron, s: Cluster, cs: seq<Command>,
                                      token: Token, e: Entry)
    requires Inv(ttl, s) && Legal(ttl, cronNext, s, cs) && Pursued(s, token, e)
    ensures var s' := Run(ttl, cronNext, s, cs);
            if Overtaken(ttl, cronNext, s, cs, e) then Overwritten(s', e) else Pursued(s', token, e)
    decreases |cs|
  {
    if cs != [] {
      var s1 := Do(ttl, cronNext, s, cs[0]);
      CommandPursues(ttl, cronNext, s, cs[0], token, e);
      CommandKeepsInv(ttl, cronNext, s, cs[0]);
      if Overtakes(s, cs[0], e) {
        RunOverwritten(ttl, cronNext, s1, cs[1..], e);
      } else {
        RunPursues(ttl, cronNext, s1, cs[1..], token, e);
      }
    }
  }

  /** Exactly once: after any run, a pass lists what is due at its reading. By the end of that pass each
      schedule that was due then has had that entry enqueued exactly once, if and only if no edit of it
      came before the pass had dealt with it; otherwise that entry is never enqueued. */
  lemma EachDueEntryFiresOnce(ttl: Token -> int, cronNext: Cron, before: seq<Command>, list: Command,
                              during: seq<Command>, finish: Command, n: Name)
    requires Legal(ttl, cronNext, QUIET, before)
    requires var s := Run(ttl, cronNext, QUIET, before);
             list.ListDue? && MayDo(ttl, s, list) && n in NaiveDue(s.book, Ms(list.t))
    requires var s1 := Do(ttl, cronNext, Run(ttl, cronNext, QUIET, before), list);
             && Legal(ttl, cronNext, s1, during)
             && finish.Finish? && finish.token == list.token && MayDo(ttl, Run(ttl, cronNext, s1, during), finish)
    ensures var s := Run(ttl, cronNext, QUIET, before);
            var s1 := Do(ttl, cronNext, s, list);
            var e := Entry(n, Version(s, n));
            Do(ttl, cronNext, Run(ttl, cronNext, s1, during), finish).enqueued[e]
            == if Overtaken(ttl, cronNext, s1, during, e) then 0 else 1
  {
    RunFromStart(ttl, cronNext, before);
    var s := Run(ttl, cronNext, QUIET, before);
    var s1 := Do(ttl, cronNext, s, list);
    var e := Entry(n, Version(s, n));
    DueQueryIsTheFilter(s.book, Ms(list.t));
    CommandKeepsInv(ttl, cronNext, s, list);
    RunPursues(ttl, cronNext, s1, during, list.token, e);
    RunKeepsInv(ttl, cronNext, s1, during);
    var s2 := Run(ttl, cronNext, s1, during);
    assert EntryOk(s2, e);
    if !Overtaken(ttl, cronNext, s1, during, e) {
      CommandPursues(ttl, cronNext, s2, finish, list.token, e);
    }
  }

  /** The due index agrees with the schedule table at every moment, mid-pass included. */
  lemma IndexAlwaysAgrees(ttl: Token -> int, cronNext: Cron, cs: seq<Command>, now: int)
    requires Legal(ttl, cronNext, QUIET, cs)
    ensures var b := Run(ttl, cronNext, QUIET, cs).book;
            Agrees(b) && Elements(DueSchedules(b, now)) == NaiveDue(b, now)
  {
    RunFromStart(ttl, cronNext, cs);
    DueQueryIsTheFilter(Run(ttl, cronNext, QUIET, cs).book, now);
  }

  // ---------------------------------------------------------------- what a pass sends

  /** The pass of `token` has the reading `t`, and `n`, while before it, is as it was listed. */
  predicate AsListed(s: Cluster, token: Token, n: Name, t: real) {
    && token in s.active && !s.active[token].stage.Starting? && s.active[token].stage.t == t
    && (n in Names(s.active[token].stage) ==> Entry(n, Version(s, n)) in s.active[token].listed)
  }

  lemma CommandKeepsListed(ttl: Token -> int, cronNext: Cron, s: Cluster, c: Command, token: Token, n: Name, t: real)
    requires Inv(ttl, s) && MayDo(ttl, s, c) && AsListed(s, token, n, t)
    requires EditedName(c) != Some(n) && !(c.Finish? && c.token == token)
    ensures AsListed(Do(ttl, cronNext, s, c), token, n, t)
  {
    var st := s.active[token].stage;
    if InHand(st).Some? {
      RestIsOther(st, n);
    }
  }

  lemma {:induction false} RunKeepsListed(ttl: Token -> int, cronNext: Cron, s: Cluster, cs: seq<Command>,
                                          token: Token, n: Name, t: real)
    requires Inv(ttl, s) && Legal(ttl, cronNext, s, cs) && AsListed(s, token, n, t)
    requires forall c | c in cs :: EditedName(c) != Some(n) && !(c.Finish? && c.token == token)
    ensures AsListed(Run(ttl, cronNext, s, cs), token, n, t)
    decreases |cs|
  {
    if cs != [] {
      assert cs[0] in cs && forall c | c in cs[1..] :: c in cs;
      CommandKeepsListed(ttl, cronNext, s, cs[0], token, n, t);
      CommandKeepsInv(ttl, cronNext, s, cs[0]);
      RunKeepsListed(ttl, cronNext, Do(ttl, cronNext, s, cs[0]), cs[1..], token, n, t);
    }
  }

  /** A pass sends a task from the current definition of its enabled schedule, and the schedule is due at the
      reading of the pass unless it was edited between the listing and `get_schedule`. */
  lemma OnlyEditedSchedulesFireEarly(ttl: Token -> int, cronNext: Cron, before: seq<Command>, list: Command,
                                     during: seq<Command>, send: Command)
    requires Legal(ttl, cronNext, QUIET, before)
    requires list.ListDue? && MayDo(ttl, Run(ttl, cronNext, QUIET, before), list)
    requires var s1 := Do(ttl, cronNext, Run(ttl, cronNext, QUIET, before), list);
             && Legal(ttl, cronNext, s1, during)
             && send.SendTask? && send.token == list.token && MayDo(ttl, Run(ttl, cronNext, s1, during), send)
    requires forall c | c in during :: !(c.Finish? && c.token == list.token)
    ensures var s := Run(ttl, cronNext, Do(ttl, cronNext, Run(ttl, cronNext, QUIET, before), list), during);
            var stage := s.active[send.token].stage;
            && stage.name in s.book.schedules && stage.sched == s.book.schedules[stage.name] && stage.sched.enabled
            && (|| stage.name in NaiveDue(s.book, Ms(list.t))
                || exists c :: c in during && EditedName(c) == Some(stage.name))
  {
    RunFromStart(ttl, cronNext, before);
    var s0 := Run(ttl, cronNext, QUIET, before);
    var s1 := Do(ttl, cronNext, s0, list);
    CommandKeepsInv(ttl, cronNext, s0, list);
    RunKeepsInv(ttl, cronNext, s1, during);
    var s := Run(ttl, cronNext, s1, during);
    var n := s.active[send.token].stage.name;
    assert n in Names(s.active[send.token].stage);
    if forall c | c in during :: EditedName(c) != Some(n) {
      assert forall m :: m in DueSchedules(s0.book, Ms(list.t)) ==> m in Elements(DueSchedules(s0.book, Ms(list.t)));
      assert AsListed(s1, list.token, n, list.t);
      RunKeepsListed(ttl, cronNext, s1, during, list.token, n, list.t);
      assert ListedOk(s, list.token);
    }
  }
}
