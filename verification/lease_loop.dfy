/** The lease loop of one worker process, among everybody else's steps: each round reads the clock, takes
    the list of the leases, renews them some time later, and sleeps. An id enters the list when its
    execution begins, which is after its dequeue, and leaves it after its settlement. */
module LeaseLoops {
  import opened Util
  import opened Zset
  import opened Models
  import opened Store
  import opened Protocol
  import C = CrashStopRuns
  import T = Timing

  function LeaseInterval(cfg: Settings): real {
    MaxReal(1.0, cfg.visibilityTimeout / 3.0)
  }

  /** What the loop's sleep leaves of the visibility timeout, less a millisecond. */
  function Slack(cfg: Settings): real {
    MinReal(cfg.visibilityTimeout - 1.001, 2.0 * cfg.visibilityTimeout / 3.0 - 0.001)
  }

  /** There is room for any delay at all if and only if the visibility timeout is at least 1.001 s. */
  lemma SlackNeeds1001Ms(cfg: Settings)
    ensures Slack(cfg) == cfg.visibilityTimeout - LeaseInterval(cfg) - 0.001
    ensures Slack(cfg) >= 0.0 <==> cfg.visibilityTimeout >= 1.001
  {
  }

  // ---------------------------------------------------------------- the process and its neighbours

  /** A renewal under way: the reading behind its deadline, and the ids it names. */
  datatype Round = Round(reading: real, ids: seq<TaskId>)

  /** An execution of this process: the reading of its dequeue, the reading behind the present deadline
      of its lease, and whether it has entered the list. */
  datatype Local = Local(claimed: real, behind: real, begun: bool)

  /** `mine` are the executions of this process that are not settled, `leaving` the ids whose settled
      execution has not left the list yet. The last finished round had the reading `last` and took effect
      at `rested`. `others` are renewals under way of other processes. */
  datatype Process = Process(
    world: World,
    clock: real,
    mine: map<nat, Local>,
    leases: set<TaskId>,
    leaving: set<TaskId>,
    last: real,
    rested: real,
    pending: Option<Round>,
    others: map<nat, Round>)

  /** The first round has found the list empty. */
  function Initial(start: real): Process {
    Process(INITIAL, start, map[], {}, {}, start, start, None, map[])
  }

  datatype Event =
    | Act(step: Step)
    | Dequeue(worker: nat, base: real, now: real)
    | Begin(worker: nat)
    | Leave(id: TaskId)
    | Wake(ids: seq<TaskId>)
    | Renew
    | OthersRead(process: nat, reading: real, ids: seq<TaskId>)
    | OthersRenew(process: nat)

  predicate SettlesMine(s: Process, step: Step) {
    (step.Acknowledge? || step.RetryLater? || step.Bury?) && step.worker in s.mine
  }

  /** What the code allows. */
  ghost predicate Possible(cfg: Settings, s: Process, e: Event, at: real) {
    match e
    case Act(step) =>
      && C.MayStep(s.world, step) && !step.RenewLeases? && 0.0 <= step.now <= at
      && (SettlesMine(s, step) ==> s.mine[step.worker].begun)
    case Dequeue(worker, base, now) => C.MayStep(s.world, ClaimNext(worker, base, now)) && base <= at
    case Begin(worker) => worker in s.mine && !s.mine[worker].begun && Holds(s.world, worker, Executing)
    case Leave(id) => id in s.leaving
    case Wake(ids) => s.pending.None? && s.rested + LeaseInterval(cfg) <= at && Elements(ids) == s.leases
    case Renew => s.pending.Some?
    case OthersRead(process, reading, _) => process !in s.others && reading <= at
    case OthersRenew(process) => process in s.others
  }

  /** Time goes on, but no execution takes longer than `latency` from the reading of its dequeue to the
      list, no round takes effect later than the interval and `extra` after the reading of the round
      before, and no renewal later than `extra` after its own reading. */
  ghost predicate InTime(cfg: Settings, latency: real, extra: real, s: Process, at: real) {
    && s.clock <= at <= s.last + LeaseInterval(cfg) + extra
    && (forall x | x in s.mine && !s.mine[x].begun :: at <= s.mine[x].claimed + latency)
    && (forall p | p in s.others :: at <= s.others[p].reading + extra)
  }

  /** In addition, an execution only begins when an earlier one of the same task has left the list. */
  ghost predicate MayDo(cfg: Settings, latency: real, extra: real, s: Process, e: Event, at: real) {
    && Possible(cfg, s, e, at) && InTime(cfg, latency, extra, s, at)
    && (e.Begin? ==> s.world.executions[e.worker].task.id !in s.leaving)
  }

  function Renewal(round: Round): Step {
    RenewLeases(round.ids, round.reading, round.reading)
  }

  /** The protocol step that an event takes. */
  function StepOf(s: Process, e: Event): Option<Step> {
    match e
    case Act(step) => Some(step)
    case Dequeue(worker, base, now) => Some(ClaimNext(worker, base, now))
    case Renew =>
      if s.pending.Some? then Some(Renewal(s.pending.value)) else None
    case OthersRenew(process) =>
      if process in s.others then Some(Renewal(s.others[process])) else None
    case _ => None
  }

  function Moved(cfg: Settings, s: Process, e: Event): World
    requires StepOf(s, e).Some? ==> Enabled(s.world, StepOf(s, e).value)
  {
    match StepOf(s, e)
    case None => s.world
    case Some(step) => Apply(cfg, s.world, step)
  }

  /** A renewal puts its own reading behind the deadlines of the ids it names. */
  function Rebased(s: Process, round: Round): map<nat, Local> {
    map x | x in s.mine ::
      if x in s.world.executions && s.world.executions[x].task.id in round.ids
      then s.mine[x].(behind := round.reading) else s.mine[x]
  }

  function Next(cfg: Settings, s: Process, e: Event, at: real): Process
    requires StepOf(s, e).Some? ==> Enabled(s.world, StepOf(s, e).value)
    requires e.Begin? ==> e.worker in s.mine && e.worker in s.world.executions
    requires e.Renew? ==> s.pending.Some?
    requires e.OthersRenew? ==> e.process in s.others
  {
    var s' := s.(world := Moved(cfg, s, e), clock := at);
    match e
    case Act(step) =>
      if SettlesMine(s, step) && step.worker in s.world.executions then
        s'.(mine := s.mine - {step.worker}, leaving := s.leaving + {s.world.executions[step.worker].task.id})
      else s'
    case Dequeue(worker, base, _) =>
      if worker in s'.world.executions then s'.(mine := s.mine[worker := Local(base, base, false)]) else s'
    case Begin(worker) =>
      s'.(mine := s.mine[worker := s.mine[worker].(begun := true)],
          leases := s.leases + {s.world.executions[worker].task.id})
    case Leave(id) => s'.(leases := s.leases - {id}, leaving := s.leaving - {id})
    case Wake(ids) =>
      if s.leases == {} then s'.(last := at, rested := at) else s'.(pending := Some(Round(at, ids)))
    case Renew =>
      s'.(mine := Rebased(s, s.pending.value), pending := None, last := s.pending.value.reading, rested := at)
    case OthersRead(process, reading, ids) => s'.(others := s.others[process := Round(reading, ids)])
    case OthersRenew(process) => s'.(mine := Rebased(s, s.others[process]), others := s.others - {process})
  }

  datatype Moment = Moment(event: Event, at: real)

  ghost predicate Legal(cfg: Settings, latency: real, extra: real, s: Process, ms: seq<Moment>)
    decreases |ms|
  {
    ms == [] || (MayDo(cfg, latency, extra, s, ms[0].event, ms[0].at)
                 && Legal(cfg, latency, extra, Next(cfg, s, ms[0].event, ms[0].at), ms[1..]))
  }

  ghost function Run(cfg: Settings, latency: real, extra: real, s: Process, ms: seq<Moment>): Process
    requires Legal(cfg, latency, extra, s, ms)
    decreases |ms|
  {
    if ms == [] then s else Run(cfg, latency, extra, Next(cfg, s, ms[0].event, ms[0].at), ms[1..])
  }

  // ---------------------------------------------------------------- no lease of the process is reaped

  /** The moment by which the loop renews this execution's lease. */
  function RenewedBy(cfg: Settings, latency: real, extra: real, s: Process, x: nat): real
    requires x in s.mine && x in s.world.executions
  {
    if !s.mine[x].begun then s.mine[x].claimed + latency + LeaseInterval(cfg) + extra
    else if s.pending.None? || s.world.executions[x].task.id in s.pending.value.ids then
      s.last + LeaseInterval(cfg) + extra
    else s.pending.value.reading + LeaseInterval(cfg) + extra
  }

  ghost predicate LocalOk(cfg: Settings, latency: real, extra: real, s: Process, x: nat)
    requires x in s.mine
  {
    var l := s.mine[x];
    && T.Held(cfg, s.world, x, l.behind) && l.claimed <= s.clock
    && RenewedBy(cfg, latency, extra, s, x) <= l.behind + cfg.visibilityTimeout - 0.001
    && (l.begun ==> s.world.executions[x].task.id in s.leases && s.world.executions[x].task.id !in s.leaving)
  }

  ghost predicate Inv(cfg: Settings, latency: real, extra: real, s: Process) {
    && C.Inv(s.world) && s.last <= s.rested <= s.clock
    && (s.pending.Some? ==> s.last + LeaseInterval(cfg) <= s.pending.value.reading <= s.clock)
    && (forall x | x in s.mine :: LocalOk(cfg, latency, extra, s, x))
  }

  predicate Roomy(cfg: Settings, latency: real, extra: real) {
    0.0 <= latency && 0.0 <= extra && latency + 2.0 * extra <= Slack(cfg)
  }

  lemma StepHolds(cfg: Settings, w: World, x: nat, behind: real, step: Step)
    requires T.Held(cfg, w, x, behind) && C.MayStep(w, step) && !T.Settles(step, x) && !step.RenewLeases?
    requires step.ReapExpired? ==> 0.0 <= step.now <= behind + cfg.visibilityTimeout - 0.001
    ensures T.Held(cfg, Apply(cfg, w, step), x, behind)
  {
    T.StepKeepsLease(cfg, w, x, behind, step);
  }

  lemma StepKeepsTaskId(cfg: Settings, w: World, x: nat, step: Step)
    requires Enabled(w, step) && x in w.executions && !T.Settles(step, x)
    ensures var w' := Apply(cfg, w, step);
            x in w'.executions && w'.executions[x].task.id == w.executions[x].task.id
  {
  }

  /** Settling one execution of the process takes no other one's id off the list. */
  lemma OtherMineKeepsId(w: World, x: nat, y: nat)
    requires C.Inv(w) && x in w.executions && y in w.executions && x != y
    requires !w.executions[x].stale && !w.executions[y].stale
    ensures w.executions[x].task.id != w.executions[y].task.id
  {
  }

  /** Time went on and the lease is still held; nothing else that matters to it changed. */
  lemma LocalLasts(cfg: Settings, latency: real, extra: real, s: Process, s': Process, x: nat)
    requires x in s.mine && LocalOk(cfg, latency, extra, s, x) && x in s'.mine && s'.mine[x] == s.mine[x]
    requires T.Held(cfg, s'.world, x, s.mine[x].behind)
    requires s'.world.executions[x].task.id == s.world.executions[x].task.id
    requires s.clock <= s'.clock && s'.pending == s.pending && s'.last == s.last && s'.leases == s.leases
    requires s.world.executions[x].task.id in s'.leaving ==> s.world.executions[x].task.id in s.leaving
    ensures LocalOk(cfg, latency, extra, s', x)
  {
  }

  /** What a step by anybody does to the process besides the world. */
  lemma ActLeaves(cfg: Settings, s: Process, step: Step, at: real)
    requires Enabled(s.world, step)
    ensures var s' := Next(cfg, s, Act(step), at);
            && s'.world == Apply(cfg, s.world, step) && s'.clock == at && s'.leases == s.leases
            && s'.last == s.last && s'.pending == s.pending
            && (forall x | x in s'.mine :: x in s.mine && s'.mine[x] == s.mine[x] && !T.Settles(step, x))
            && (forall id | id in s'.leaving && id !in s.leaving ::
                  SettlesMine(s, step) && step.worker in s.world.executions
                      && s.world.executions[step.worker].task.id == id)
  {
  }

  lemma ActSparesId(cfg: Settings, latency: real, extra: real, s: Process, step: Step, x: nat)
    requires Inv(cfg, latency, extra, s) && x in s.mine && !T.Settles(step, x) && SettlesMine(s, step)
    requires x in s.world.executions && step.worker in s.world.executions
    ensures s.world.executions[x].task.id != s.world.executions[step.worker].task.id
  {
    assert LocalOk(cfg, latency, extra, s, x);
    assert LocalOk(cfg, latency, extra, s, step.worker);
    OtherMineKeepsId(s.world, x, step.worker);
  }

  lemma ActKeeps(cfg: Settings, latency: real, extra: real, s: Process, step: Step, at: real, x: nat)
    requires Inv(cfg, latency, extra, s) && MayDo(cfg, latency, extra, s, Act(step), at) && Roomy(cfg, latency, extra)
    requires x in Next(cfg, s, Act(step), at).mine
    ensures LocalOk(cfg, latency, extra, Next(cfg, s, Act(step), at), x)
  {
    ActLeaves(cfg, s, step, at);
    assert LocalOk(cfg, latency, extra, s, x);
    StepHolds(cfg, s.world, x, s.mine[x].behind, step);
    StepKeepsTaskId(cfg, s.world, x, step);
    if SettlesMine(s, step) {
      ActSparesId(cfg, latency, extra, s, step, x);
    }
    LocalLasts(cfg, latency, extra, s, Next(cfg, s, Act(step), at), x);
  }

  lemma DequeueHolds(cfg: Settings, w: World, worker: nat, base: real, now: real)
    requires C.Inv(w) && C.MayStep(w, ClaimNext(worker, base, now))
    requires worker in Apply(cfg, w, ClaimNext(worker, base, now)).executions
    ensures T.Held(cfg, Apply(cfg, w, ClaimNext(worker, base, now)), worker, base)
  {
    C.StepKeepsInv(cfg, w, ClaimNext(worker, base, now));
    assert C.IdOk(w, First(w.redis.ready));
  }

  lemma DequeuedIsOk(cfg: Settings, latency: real, extra: real, s: Process, worker: nat, base: real, now: real,
      at: real)
    requires Inv(cfg, latency, extra, s) && MayDo(cfg, latency, extra, s, Dequeue(worker, base, now), at)
    requires Roomy(cfg, latency, extra) && worker in Next(cfg, s, Dequeue(worker, base, now), at).world.executions
    ensures LocalOk(cfg, latency, extra, Next(cfg, s, Dequeue(worker, base, now), at), worker)
  {
    DequeueHolds(cfg, s.world, worker, base, now);
    SlackNeeds1001Ms(cfg);
  }

  lemma DequeueKeeps(cfg: Settings, latency: real, extra: real, s: Process, worker: nat, base: real, now: real,
      at: real, x: nat)
    requires Inv(cfg, latency, extra, s) && MayDo(cfg, latency, extra, s, Dequeue(worker, base, now), at)
    requires Roomy(cfg, latency, extra) && x in s.mine
    ensures LocalOk(cfg, latency, extra, Next(cfg, s, Dequeue(worker, base, now), at), x)
  {
    var step := ClaimNext(worker, base, now);
    assert LocalOk(cfg, latency, extra, s, x);
    StepHolds(cfg, s.world, x, s.mine[x].behind, step);
    StepKeepsTaskId(cfg, s.world, x, step);
    LocalLasts(cfg, latency, extra, s, Next(cfg, s, Dequeue(worker, base, now), at), x);
  }

  /** A renewal with the given reading, seen from one execution. */
  lemma RenewalHolds(cfg: Settings, w: World, x: nat, behind: real, round: Round)
    requires T.Held(cfg, w, x, behind)
    ensures var w' := Apply(cfg, w, Renewal(round));
            && T.Held(cfg, w', x, if w.executions[x].task.id in round.ids then round.reading else behind)
            && w'.executions == w.executions
  {
    T.StepKeepsLease(cfg, w, x, behind, Renewal(round));
  }

  lemma RenewKeeps(cfg: Settings, latency: real, extra: real, s: Process, at: real, x: nat)
    requires Inv(cfg, latency, extra, s) && MayDo(cfg, latency, extra, s, Renew, at)
    requires Roomy(cfg, latency, extra) && x in s.mine
    ensures LocalOk(cfg, latency, extra, Next(cfg, s, Renew, at), x)
  {
    assert LocalOk(cfg, latency, extra, s, x);
    SlackNeeds1001Ms(cfg);
    RenewalHolds(cfg, s.world, x, s.mine[x].behind, s.pending.value);
  }

  lemma OthersRenewKeeps(cfg: Settings, latency: real, extra: real, s: Process, process: nat, at: real, x: nat)
    requires Inv(cfg, latency, extra, s) && MayDo(cfg, latency, extra, s, OthersRenew(process), at)
    requires Roomy(cfg, latency, extra) && x in s.mine
    ensures LocalOk(cfg, latency, extra, Next(cfg, s, OthersRenew(process), at), x)
  {
    assert LocalOk(cfg, latency, extra, s, x);
    SlackNeeds1001Ms(cfg);
    RenewalHolds(cfg, s.world, x, s.mine[x].behind, s.others[process]);
  }

  lemma BeginKeeps(cfg: Settings, latency: real, extra: real, s: Process, worker: nat, at: real, x: nat)
    requires Inv(cfg, latency, extra, s) && MayDo(cfg, latency, extra, s, Begin(worker), at)
    requires Roomy(cfg, latency, extra) && x in s.mine
    ensures LocalOk(cfg, latency, extra, Next(cfg, s, Begin(worker), at), x)
  {
    assert LocalOk(cfg, latency, extra, s, x);
  }

  lemma WakeKeeps(cfg: Settings, latency: real, extra: real, s: Process, ids: seq<TaskId>, at: real, x: nat)
    requires Inv(cfg, latency, extra, s) && MayDo(cfg, latency, extra, s, Wake(ids), at)
    requires Roomy(cfg, latency, extra) && x in s.mine
    ensures LocalOk(cfg, latency, extra, Next(cfg, s, Wake(ids), at), x)
  {
    assert LocalOk(cfg, latency, extra, s, x);
    assert forall id | id in s.leases :: id in Elements(ids);
  }

  lemma RestKeeps(cfg: Settings, latency: real, extra: real, s: Process, e: Event, at: real, x: nat)
    requires Inv(cfg, latency, extra, s) && MayDo(cfg, latency, extra, s, e, at) && Roomy(cfg, latency, extra)
    requires (e.Leave? || e.OthersRead?) && x in s.mine
    ensures LocalOk(cfg, latency, extra, Next(cfg, s, e, at), x)
  {
    assert LocalOk(cfg, latency, extra, s, x);
  }

  lemma EventKeepsLocal(cfg: Settings, latency: real, extra: real, s: Process, e: Event, at: real, x: nat)
    requires Inv(cfg, latency, extra, s) && MayDo(cfg, latency, extra, s, e, at) && Roomy(cfg, latency, extra)
    requires x in Next(cfg, s, e, at).mine
    ensures LocalOk(cfg, latency, extra, Next(cfg, s, e, at), x)
  {
    match e
    case Act(step) => ActKeeps(cfg, latency, extra, s, step, at, x);
    case Dequeue(worker, base, now) =>
      if x in s.mine {
        DequeueKeeps(cfg, latency, extra, s, worker, base, now, at, x);
      } else {
        DequeuedIsOk(cfg, latency, extra, s, worker, base, now, at);
      }
    case Begin(worker) => BeginKeeps(cfg, latency, extra, s, worker, at, x);
    case Wake(ids) => WakeKeeps(cfg, latency, extra, s, ids, at, x);
    case Renew => RenewKeeps(cfg, latency, extra, s, at, x);
    case OthersRenew(process) => OthersRenewKeeps(cfg, latency, extra, s, process, at, x);
    case _ => RestKeeps(cfg, latency, extra, s, e, at, x);
  }

  lemma EventKeepsClock(cfg: Settings, latency: real, extra: real, s: Process, e: Event, at: real)
    requires Inv(cfg, latency, extra, s) && MayDo(cfg, latency, extra, s, e, at)
    ensures var s' := Next(cfg, s, e, at);
            && s'.last <= s'.rested <= s'.clock
            && (s'.pending.Some? ==> s'.last + LeaseInterval(cfg) <= s'.pending.value.reading <= s'.clock)
  {
  }

  lemma EventKeepsInv(cfg: Settings, latency: real, extra: real, s: Process, e: Event, at: real)
    requires Inv(cfg, latency, extra, s) && MayDo(cfg, latency, extra, s, e, at) && Roomy(cfg, latency, extra)
    ensures Inv(cfg, latency, extra, Next(cfg, s, e, at))
  {
    var s' := Next(cfg, s, e, at);
    if StepOf(s, e).Some? {
      C.StepKeepsInv(cfg, s.world, StepOf(s, e).value);
    }
    EventKeepsClock(cfg, latency, extra, s, e, at);
    forall x | x in s'.mine ensures LocalOk(cfg, latency, extra, s', x) {
      EventKeepsLocal(cfg, latency, extra, s, e, at, x);
    }
  }

  lemma {:induction false} RunKeepsInv(cfg: Settings, latency: real, extra: real, s: Process, ms: seq<Moment>)
    requires Inv(cfg, latency, extra, s) && Legal(cfg, latency, extra, s, ms) && Roomy(cfg, latency, extra)
    ensures Inv(cfg, latency, extra, Run(cfg, latency, extra, s, ms))
    decreases |ms|
  {
    if ms != [] {
      EventKeepsInv(cfg, latency, extra, s, ms[0].event, ms[0].at);
      RunKeepsInv(cfg, latency, extra, Next(cfg, s, ms[0].event, ms[0].at), ms[1..]);
    }
  }

  /** Every unsettled execution of the process still has its lease. */
  predicate Safe(s: Process) {
    forall x | x in s.mine ::
      && x in s.world.executions && !s.world.executions[x].stale
      && s.world.executions[x].task.id in s.world.redis.inflight
  }

  /** While the latency before the list and twice the extra delay fit into the slack, no lease of the
      process is ever reaped, whoever else acts in whatever way. */
  lemma RoomyLoopKeepsLeases(cfg: Settings, latency: real, extra: real, start: real, ms: seq<Moment>)
    requires Roomy(cfg, latency, extra) && Legal(cfg, latency, extra, Initial(start), ms)
    ensures Safe(Run(cfg, latency, extra, Initial(start), ms))
  {
    assert C.Inv(INITIAL);
    RunKeepsInv(cfg, latency, extra, Initial(start), ms);
    var s := Run(cfg, latency, extra, Initial(start), ms);
    forall x | x in s.mine ensures LocalOk(cfg, latency, extra, s, x) {
    }
  }

  // ---------------------------------------------------------------- with less room a lease is lost

  ghost predicate Reached(cfg: Settings, latency: real, extra: real, start: real, t: Process) {
    exists ms :: Legal(cfg, latency, extra, Initial(start), ms) && Run(cfg, latency, extra, Initial(start), ms) == t
  }

  lemma {:induction false} OneMoment(cfg: Settings, latency: real, extra: real, s: Process, ms: seq<Moment>, e: Event,
      at: real)
    requires Legal(cfg, latency, extra, s, ms) && MayDo(cfg, latency, extra, Run(cfg, latency, extra, s, ms), e, at)
    ensures Legal(cfg, latency, extra, s, ms + [Moment(e, at)])
    ensures Run(cfg, latency, extra, s, ms + [Moment(e, at)]) == Next(cfg, Run(cfg, latency, extra, s, ms), e, at)
    decreases |ms|
  {
    if ms == [] {
      assert ([] + [Moment(e, at)])[1..] == [];
    } else {
      assert (ms + [Moment(e, at)])[1..] == ms[1..] + [Moment(e, at)];
      OneMoment(cfg, latency, extra, Next(cfg, s, ms[0].event, ms[0].at), ms[1..], e, at);
    }
  }

  lemma Extend(cfg: Settings, latency: real, extra: real, start: real, s: Process, e: Event, at: real)
      returns (t: Process)
    requires Reached(cfg, latency, extra, start, s) && MayDo(cfg, latency, extra, s, e, at)
    ensures t == Next(cfg, s, e, at) && Reached(cfg, latency, extra, start, t)
  {
    t := Next(cfg, s, e, at);
    var ms :| Legal(cfg, latency, extra, Initial(start), ms) && Run(cfg, latency, extra, Initial(start), ms) == s;
    OneMoment(cfg, latency, extra, Initial(start), ms, e, at);
  }

  /** No lease is ever reaped under these delays. */
  ghost predicate LeasesAreKept(cfg: Settings, latency: real, extra: real) {
    forall start, ms | Legal(cfg, latency, extra, Initial(start), ms) ::
      Safe(Run(cfg, latency, extra, Initial(start), ms))
  }

  lemma PromoteOnlyTask(r: Redis, id: TaskId, now: int)
    requires r.delayed == map[id := now] && r.ready == map[] && id in r.tasks
    ensures Promote(r, now, -1).ready.Keys == {id} && Promote(r, now, -1).delayed == map[]
  {
    UnlimitedRange(r.delayed, now, -1);
    var batch := RangeByScore(r.delayed, now, -1);
    assert id in batch && Elements(batch) == {id};
    MoveAllKeys(Transfer(r.delayed, r.ready, r.sequence), r.tasks, batch);
  }

  /** The process has done nothing since its first round at `start`; it is now `t`. */
  ghost predicate Unused(s: Process, start: real, t: real) {
    && s.mine == map[] && s.leases == {} && s.leaving == {} && s.pending.None?
    && s.clock == t && s.last == start && s.rested == start
  }

  ghost predicate OnlyReady(w: World, id: TaskId) {
    var r := w.redis;
    && r.ready.Keys == {id} && r.delayed == map[] && r.inflight == map[] && id in r.tasks && r.tasks[id].task.id == id
    && w.executions == map[]
  }

  ghost predicate OnlyRunning(w: World, id: TaskId, worker: nat) {
    var r := w.redis;
    && r.ready == map[] && r.delayed == map[] && r.inflight.Keys == {id} && id in r.tasks && r.tasks[id].task.id == id
    && w.executions.Keys == {worker} && !w.executions[worker].stale && w.executions[worker].phase == Executing
    && w.executions[worker].task.id == id
  }

  ghost predicate InTheWindow(cfg: Settings, extra: real, start: real, t: real) {
    0.0 <= extra && 0.0 <= start <= t <= start + LeaseInterval(cfg) + extra
  }

  lemma Submitted(cfg: Settings, latency: real, extra: real, start: real, t: real, task: Task) returns (s: Process)
    requires task.eta.None? && InTheWindow(cfg, extra, start, t)
    ensures Reached(cfg, latency, extra, start, s) && Unused(s, start, t) && s.others == map[]
    ensures OnlyReady(s.world, task.id)
  {
    assert Legal(cfg, latency, extra, Initial(start), []);
    assert Reached(cfg, latency, extra, start, Initial(start));
    s := Extend(cfg, latency, extra, start, Initial(start), Act(Submit(task, t)), t);
  }

  lemma StartsElsewhere(cfg: Settings, latency: real, extra: real, start: real, t: real, s: Process, id: TaskId)
      returns (u: Process)
    requires Reached(cfg, latency, extra, start, s) && Unused(s, start, t) && s.others == map[]
    requires OnlyReady(s.world, id)
    requires InTheWindow(cfg, extra, start, t)
    ensures Reached(cfg, latency, extra, start, u) && Unused(u, start, t) && u.others == map[]
    ensures OnlyRunning(u.world, id, 0)
  {
    FirstIsUnique(s.world.redis.ready, id);
    u := Extend(cfg, latency, extra, start, s, Act(ClaimNext(0, t, t)), t);
    u := Extend(cfg, latency, extra, start, u, Act(Start(0, t)), t);
  }

  lemma ListedElsewhere(cfg: Settings, latency: real, extra: real, start: real, t: real, s: Process, id: TaskId)
      returns (u: Process)
    requires Reached(cfg, latency, extra, start, s) && Unused(s, start, t) && s.others == map[]
    requires OnlyRunning(s.world, id, 0) && InTheWindow(cfg, extra, start, t)
    ensures Reached(cfg, latency, extra, start, u) && Unused(u, start, t) && u.world == s.world
    ensures u.others == map[0 := Round(t - extra, [id])]
  {
    u := Extend(cfg, latency, extra, start, s, OthersRead(0, t - extra, [id]), t);
  }

  ghost predicate OnlyDelayed(w: World, id: TaskId, due: int) {
    var r := w.redis;
    && r.ready == map[] && r.delayed == map[id := due] && r.inflight == map[] && id in r.tasks
    && r.tasks[id].task.id == id
    && w.executions == map[]
  }

  lemma RetryOnlyTask(cfg: Settings, w: World, id: TaskId, worker: nat, now: real)
    requires OnlyRunning(w, id, worker)
    ensures OnlyDelayed(Apply(cfg, w, RetryLater(worker, "", None, 0.0, now)), id, Ms(now))
  {
    assert now + 0.0 == now;
  }

  lemma PromotedOnlyTask(cfg: Settings, w: World, id: TaskId, now: real)
    requires OnlyDelayed(w, id, Ms(now))
    ensures OnlyReady(Apply(cfg, w, PromoteDue(-1, now)), id)
  {
    PromoteOnlyTask(w.redis, id, Ms(now));
  }

  lemma RetriedElsewhere(cfg: Settings, latency: real, extra: real, start: real, t: real, s: Process, id: TaskId)
      returns (u: Process)
    requires Reached(cfg, latency, extra, start, s) && Unused(s, start, t)
    requires s.others == map[0 := Round(t - extra, [id])]
    requires OnlyRunning(s.world, id, 0) && InTheWindow(cfg, extra, start, t)
    ensures Reached(cfg, latency, extra, start, u) && Unused(u, start, t) && u.others == s.others
    ensures OnlyDelayed(u.world, id, Ms(t))
  {
    RetryOnlyTask(cfg, s.world, id, 0, t);
    u := Extend(cfg, latency, extra, start, s, Act(RetryLater(0, "", None, 0.0, t)), t);
  }

  lemma PromotedElsewhere(cfg: Settings, latency: real, extra: real, start: real, t: real, s: Process, id: TaskId)
      returns (u: Process)
    requires Reached(cfg, latency, extra, start, s) && Unused(s, start, t)
    requires s.others == map[0 := Round(t - extra, [id])]
    requires OnlyDelayed(s.world, id, Ms(t)) && InTheWindow(cfg, extra, start, t)
    ensures Reached(cfg, latency, extra, start, u) && Unused(u, start, t) && u.others == s.others
    ensures OnlyReady(u.world, id)
  {
    PromotedOnlyTask(cfg, s.world, id, t);
    u := Extend(cfg, latency, extra, start, s, Act(PromoteDue(-1, t)), t);
  }

  /** Another process executes the task, lists it for renewal with a reading `extra` old, and hands it
      back before the renewal takes effect. */
  lemma HandedBack(cfg: Settings, latency: real, extra: real, start: real, t: real, task: Task) returns (s: Process)
    requires task.eta.None? && InTheWindow(cfg, extra, start, t)
    ensures Reached(cfg, latency, extra, start, s) && Unused(s, start, t) && OnlyReady(s.world, task.id)
    ensures s.others == map[0 := Round(t - extra, [task.id])]
  {
    s := Submitted(cfg, latency, extra, start, t, task);
    s := StartsElsewhere(cfg, latency, extra, start, t, s, task.id);
    s := ListedElsewhere(cfg, latency, extra, start, t, s, task.id);
    s := RetriedElsewhere(cfg, latency, extra, start, t, s, task.id);
    s := PromotedElsewhere(cfg, latency, extra, start, t, s, task.id);
  }

  /** Execution 1 of the process has its task since `t` and is not on the list yet; the deadline of its
      lease has the reading `behind`. The last round found the list empty at `last`. */
  ghost predicate Waiting(cfg: Settings, s: Process, id: TaskId, t: real, behind: real, last: real) {
    && s.mine.Keys == {1} && s.mine[1] == Local(t, behind, false) && s.leases == {} && s.leaving == {}
    && s.pending.None?
    && s.last == last && s.rested == last
    && OnlyRunning(s.world, id, 1) && s.world.redis.inflight[id] == Lease(cfg, behind)
  }

  /** The process has dequeued the task; the dequeue has not stored the running snapshot yet. */
  ghost predicate OnlyClaimed(cfg: Settings, s: Process, id: TaskId, t: real) {
    var r := s.world.redis;
    && s.mine.Keys == {1} && s.mine[1] == Local(t, t, false) && s.leases == {} && s.leaving == {} && s.pending.None?
    && r.ready == map[] && r.delayed == map[] && r.inflight == map[id := Lease(cfg, t)]
    && id in r.tasks && r.tasks[id].task.id == id
    && s.world.executions.Keys == {1} && s.world.executions[1].task.id == id
    && s.world.executions[1].phase == Claimed && !s.world.executions[1].stale
  }

  lemma Dequeued(cfg: Settings, latency: real, extra: real, start: real, t: real, s: Process, id: TaskId)
      returns (u: Process)
    requires Reached(cfg, latency, extra, start, s) && Unused(s, start, t)
    requires s.others == map[0 := Round(t - extra, [id])]
    requires OnlyReady(s.world, id) && InTheWindow(cfg, extra, start, t)
    ensures Reached(cfg, latency, extra, start, u) && u.others == s.others && u.clock == t
    ensures OnlyClaimed(cfg, u, id, t) && u.last == start && u.rested == start
  {
    FirstIsUnique(s.world.redis.ready, id);
    u := Extend(cfg, latency, extra, start, s, Dequeue(1, t, t), t);
  }

  lemma Running(cfg: Settings, latency: real, extra: real, start: real, t: real, s: Process, id: TaskId)
      returns (u: Process)
    requires Reached(cfg, latency, extra, start, s) && s.others == map[0 := Round(t - extra, [id])] && s.clock == t
    requires OnlyClaimed(cfg, s, id, t) && s.last == start && s.rested == start
    requires InTheWindow(cfg, extra, start, t) && 0.0 <= latency
    ensures Reached(cfg, latency, extra, start, u) && u.others == s.others && u.clock == t
    ensures Waiting(cfg, u, id, t, t, start)
  {
    u := Extend(cfg, latency, extra, start, s, Act(Start(1, t)), t);
  }

  lemma SetBackDeadline(cfg: Settings, s: Process, id: TaskId, t: real, behind: real, last: real, round: Round,
      at: real)
    requires s.others == map[0 := round] && Waiting(cfg, s, id, t, behind, last) && round.ids == [id]
    ensures Waiting(cfg, Next(cfg, s, OthersRenew(0), at), id, t, round.reading, last)
    ensures var u := Next(cfg, s, OthersRenew(0), at); u.clock == at && u.others == map[]
  {
    assert 1 in s.world.executions;
  }

  lemma MaySetBack(cfg: Settings, latency: real, extra: real, start: real, t: real, s: Process, id: TaskId)
    requires s.others == map[0 := Round(t - extra, [id])] && s.clock == t
    requires Waiting(cfg, s, id, t, t, start) && InTheWindow(cfg, extra, start, t) && 0.0 <= latency
    ensures MayDo(cfg, latency, extra, s, OthersRenew(0), t)
  {
  }

  /** The other process's renewal arrives and sets the deadline back to its older reading. */
  lemma SetBack(cfg: Settings, latency: real, extra: real, start: real, t: real, s: Process, id: TaskId)
      returns (u: Process)
    requires Reached(cfg, latency, extra, start, s) && s.others == map[0 := Round(t - extra, [id])] && s.clock == t
    requires Waiting(cfg, s, id, t, t, start) && InTheWindow(cfg, extra, start, t) && 0.0 <= latency
    ensures Reached(cfg, latency, extra, start, u) && u.clock == t && u.others == map[]
    ensures Waiting(cfg, u, id, t, t - extra, start)
  {
    MaySetBack(cfg, latency, extra, start, t, s, id);
    SetBackDeadline(cfg, s, id, t, t, start, Round(t - extra, [id]), t);
    u := Extend(cfg, latency, extra, start, s, OthersRenew(0), t);
  }

  /** All of that: the lease of a waiting execution has a deadline `extra` older than its dequeue. */
  lemma OldDeadline(cfg: Settings, latency: real, extra: real, task: Task, start: real, t: real) returns (s: Process)
    requires task.eta.None? && InTheWindow(cfg, extra, start, t) && 0.0 <= latency
    ensures Reached(cfg, latency, extra, start, s) && s.clock == t && s.others == map[]
    ensures Waiting(cfg, s, task.id, t, t - extra, start)
  {
    var s1 := HandedBack(cfg, latency, extra, start, t, task);
    var s2 := Dequeued(cfg, latency, extra, start, t, s1, task.id);
    var s3 := Running(cfg, latency, extra, start, t, s2, task.id);
    s := SetBack(cfg, latency, extra, start, t, s3, task.id);
  }

  function Times(n: nat, d: real): real {
    if n == 0 then 0.0 else Times(n - 1, d) + d
  }

  lemma {:induction false} IdleRounds(cfg: Settings, latency: real, extra: real, start: real, s: Process, id: TaskId,
      t: real, behind: real, last: real, n: nat)
      returns (u: Process)
    requires Reached(cfg, latency, extra, start, s) && Waiting(cfg, s, id, t, behind, last) && s.others == map[]
    requires 0.0 <= extra && s.clock <= last + LeaseInterval(cfg) && last + Times(n, LeaseInterval(cfg)) <= t + latency
    ensures Reached(cfg, latency, extra, start, u) && u.others == map[]
    ensures Waiting(cfg, u, id, t, behind, last + Times(n, LeaseInterval(cfg)))
    ensures u.clock == if n == 0 then s.clock else last + Times(n, LeaseInterval(cfg))
    decreases n
  {
    if n == 0 {
      u := s;
    } else {
      var d := LeaseInterval(cfg);
      u := IdleRounds(cfg, latency, extra, start, s, id, t, behind, last, n - 1);
      u := Extend(cfg, latency, extra, start, u, Wake([]), last + Times(n, d));
    }
  }

  /** The execution enters the list just after a round, and the reaper comes just before the next. */
  lemma BegunAndReaped(cfg: Settings, latency: real, extra: real, start: real, s: Process, id: TaskId, t: real,
      behind: real) returns (u: Process)
    requires Reached(cfg, latency, extra, start, s) && Waiting(cfg, s, id, t, behind, t + latency) && s.others == map[]
    requires 0.0 <= extra && 0.0 <= t && 0.0 <= latency && s.clock <= t + latency
    requires Lease(cfg, behind) <= Ms(t + latency + LeaseInterval(cfg) + extra)
    ensures Reached(cfg, latency, extra, start, u) && !Safe(u)
  {
    u := Extend(cfg, latency, extra, start, s, Begin(1), t + latency);
    var late := t + latency + LeaseInterval(cfg) + extra;
    UnlimitedRange(u.world.redis.inflight, Ms(late), -1);
    u := Extend(cfg, latency, extra, start, u, Act(ReapExpired(-1, late)), late);
    assert 1 in u.mine && u.world.executions[1].stale;
  }

  /** The fewest intervals that cover the latency. */
  lemma {:induction false} IntervalsToCover(latency: real, d: real) returns (n: nat)
    requires d >= 1.0
    ensures Times(n, d) >= latency && (n == 0 || Times(n, d) < latency + d) && (n == 0 ==> latency <= 0.0)
    decreases latency
  {
    if latency <= 0.0 {
      n := 0;
    } else {
      n := IntervalsToCover(latency - d, d);
      n := n + 1;
    }
  }

  /** A whole number of milliseconds, late enough. */
  lemma WholeMs(after: real) returns (late: real, ms: nat)
    ensures late >= after && late * 1000.0 == ms as real
  {
    ms := Max(0, (after * 1000.0).Floor + 1);
    late := ms as real / 1000.0;
  }

  lemma DueAtWholeMs(late: real, ms: nat, deadline: real)
    requires late * 1000.0 == ms as real && deadline < late + 0.001
    ensures Ms(deadline) <= Ms(late)
  {
    assert deadline * 1000.0 < ms as real + 1.0;
    assert Ms(late) == ms;
  }

  lemma Outrun(cfg: Settings, latency: real, extra: real, task: Task, start: real, t: real, n: nat) returns (s: Process)
    requires task.eta.None? && InTheWindow(cfg, extra, start, t) && 0.0 <= latency
    requires start + Times(n, LeaseInterval(cfg)) == t + latency && t <= start + LeaseInterval(cfg)
    requires Lease(cfg, t - extra) <= Ms(t + latency + LeaseInterval(cfg) + extra)
    ensures Reached(cfg, latency, extra, start, s) && !Safe(s)
  {
    var s1 := OldDeadline(cfg, latency, extra, task, start, t);
    var s2 := IdleRounds(cfg, latency, extra, start, s1, task.id, t, t - extra, start, n);
    s := BegunAndReaped(cfg, latency, extra, start, s2, task.id, t, t - extra);
  }

  /** Times that make the run fail when there is too little room. */
  lemma WorstTimes(vt: real, latency: real, extra: real, d: real) returns (start: real, t: real, n: nat)
    requires 0.0 <= latency && 0.0 <= extra && d >= 1.0 && latency + d + 2.0 * extra > vt - 0.001
    ensures 0.0 <= start <= t <= start + d && start + Times(n, d) == t + latency
    ensures Ms(t - extra + vt) <= Ms(t + latency + d + extra)
  {
    n := IntervalsToCover(latency, d);
    var cover := Times(n, d);
    var late, ms := WholeMs(d + extra + cover);
    t := late - latency - d - extra;
    start := t + latency - cover;
    DueAtWholeMs(late, ms, t - extra + vt);
    assert t + latency + d + extra == late;
  }

  /** Without that room there is a run in which a lease of the process is reaped. */
  lemma CrampedLoopLosesALease(cfg: Settings, latency: real, extra: real, task: Task)
    requires 0.0 <= latency && 0.0 <= extra && latency + 2.0 * extra > Slack(cfg) && task.eta.None?
    ensures !LeasesAreKept(cfg, latency, extra)
  {
    SlackNeeds1001Ms(cfg);
    var start, t, n := WorstTimes(cfg.visibilityTimeout, latency, extra, LeaseInterval(cfg));
    var s := Outrun(cfg, latency, extra, task, start, t, n);
    var ms :| Legal(cfg, latency, extra, Initial(start), ms) && Run(cfg, latency, extra, Initial(start), ms) == s;
  }

  const ANY_TASK: Task :=
    Task(0, Spec("", "", "", 0, None, None, 0.0, None, None, None),
         0, Pending, None, None, None, None, None, None, None)

  /** The exact bound. With a visibility timeout of vt, the loop keeps every lease of its process, in all
      runs with these delays, if and only if latency + 2 * extra fits into both vt - 1.001 and
      2 * vt / 3 - 0.001. The bare slack is not enough: the lease ages from the reading of the dequeue,
      and a late renewal by the task's former process may age it by another `extra`. */
  lemma LeaseLoopKeepsLeases(cfg: Settings, latency: real, extra: real)
    requires 0.0 <= latency && 0.0 <= extra
    ensures LeasesAreKept(cfg, latency, extra) <==>
              && latency + 2.0 * extra <= cfg.visibilityTimeout - 1.001
              && latency + 2.0 * extra <= 2.0 * cfg.visibilityTimeout / 3.0 - 0.001
  {
    if Roomy(cfg, latency, extra) {
      forall start, ms | Legal(cfg, latency, extra, Initial(start), ms)
        ensures Safe(Run(cfg, latency, extra, Initial(start), ms))
      {
        RoomyLoopKeepsLeases(cfg, latency, extra, start, ms);
      }
    } else {
      CrampedLoopLosesALease(cfg, latency, extra, ANY_TASK);
    }
  }

  // ---------------------------------------------------------------- beginning before an earlier execution has left

  /** All of the process but the world and its executions. */
  predicate SameList(s: Process, u: Process) {
    && u.clock == s.clock && u.leases == s.leases && u.leaving == s.leaving
    && u.last == s.last && u.rested == s.rested && u.pending == s.pending && u.others == s.others
  }

  ghost predicate AtStart(s: Process, start: real) {
    0.0 <= start && s.clock == start && s.last == start && s.others == map[]
  }

  lemma Takes(cfg: Settings, latency: real, extra: real, start: real, s: Process, id: TaskId, worker: nat)
      returns (u: Process)
    requires Reached(cfg, latency, extra, start, s) && AtStart(s, start) && 0.0 <= extra
    requires OnlyReady(s.world, id) && s.mine == map[]
    ensures Reached(cfg, latency, extra, start, u) && SameList(s, u)
    ensures u.mine.Keys == {worker} && u.mine[worker].claimed == start && !u.mine[worker].begun
    ensures OnlyTaken(u.world, id, worker)
  {
    FirstIsUnique(s.world.redis.ready, id);
    u := Extend(cfg, latency, extra, start, s, Dequeue(worker, start, start), start);
  }

  ghost predicate OnlyTaken(w: World, id: TaskId, worker: nat) {
    var r := w.redis;
    && r.ready == map[] && r.delayed == map[] && r.inflight.Keys == {id} && id in r.tasks && r.tasks[id].task.id == id
    && w.executions.Keys == {worker} && !w.executions[worker].stale && w.executions[worker].phase == Claimed
    && w.executions[worker].task.id == id
  }

  lemma Runs(cfg: Settings, latency: real, extra: real, start: real, s: Process, id: TaskId, worker: nat)
      returns (u: Process)
    requires Reached(cfg, latency, extra, start, s) && AtStart(s, start) && 0.0 <= latency && 0.0 <= extra
    requires OnlyTaken(s.world, id, worker)
    requires s.mine.Keys == {worker} && s.mine[worker].claimed == start && !s.mine[worker].begun
    ensures Reached(cfg, latency, extra, start, u) && SameList(s, u) && u.mine == s.mine
    ensures OnlyRunning(u.world, id, worker)
  {
    u := Extend(cfg, latency, extra, start, s, Act(Start(worker, start)), start);
  }

  lemma Begins(cfg: Settings, latency: real, extra: real, start: real, s: Process, id: TaskId, worker: nat)
      returns (u: Process)
    requires Reached(cfg, latency, extra, start, s) && AtStart(s, start) && 0.0 <= latency && 0.0 <= extra
    requires s.mine.Keys == {worker} && s.mine[worker].claimed == start && !s.mine[worker].begun
    requires OnlyRunning(s.world, id, worker) && s.leases == {} && s.leaving == {}
    ensures Reached(cfg, latency, extra, start, u) && AtStart(u, start) && u.world == s.world
    ensures u.mine.Keys == {worker} && u.mine[worker].begun && u.leases == {id} && u.leaving == {}
  {
    u := Extend(cfg, latency, extra, start, s, Begin(worker), start);
  }

  lemma RetriesMine(cfg: Settings, latency: real, extra: real, start: real, s: Process, id: TaskId, worker: nat)
      returns (u: Process)
    requires Reached(cfg, latency, extra, start, s) && AtStart(s, start) && 0.0 <= extra
    requires s.mine.Keys == {worker} && s.mine[worker].begun && s.leases == {id} && s.leaving == {}
    requires OnlyRunning(s.world, id, worker)
    ensures Reached(cfg, latency, extra, start, u) && AtStart(u, start)
    ensures u.mine == map[] && u.leases == {id} && u.leaving == {id} && OnlyDelayed(u.world, id, Ms(start))
  {
    RetryOnlyTask(cfg, s.world, id, worker, start);
    u := Extend(cfg, latency, extra, start, s, Act(RetryLater(worker, "", None, 0.0, start)), start);
  }

  lemma PromotesMine(cfg: Settings, latency: real, extra: real, start: real, s: Process, id: TaskId)
      returns (u: Process)
    requires Reached(cfg, latency, extra, start, s) && AtStart(s, start) && 0.0 <= extra
    requires s.mine == map[] && OnlyDelayed(s.world, id, Ms(start))
    ensures Reached(cfg, latency, extra, start, u) && SameList(s, u) && u.mine == map[] && OnlyReady(u.world, id)
  {
    PromotedOnlyTask(cfg, s.world, id, start);
    u := Extend(cfg, latency, extra, start, s, Act(PromoteDue(-1, start)), start);
  }

  /** Once `x` has begun, the earlier execution of its task may leave; then `x` goes on with a lease that
      no round will list. */
  ghost predicate Forgotten(cfg: Settings, latency: real, extra: real, s: Process, x: nat, id: TaskId) {
    && Possible(cfg, s, Leave(id), s.clock) && InTime(cfg, latency, extra, s, s.clock)
    && x in s.mine && s.mine[x].begun && x in s.world.executions && s.world.executions[x].task.id == id
    && id in s.world.redis.inflight && id !in Next(cfg, s, Leave(id), s.clock).leases
  }

  ghost predicate MayBeForgotten(cfg: Settings, latency: real, extra: real, s: Process, x: nat, id: TaskId) {
    && Possible(cfg, s, Begin(x), s.clock) && InTime(cfg, latency, extra, s, s.clock)
    && Forgotten(cfg, latency, extra, Next(cfg, s, Begin(x), s.clock), x, id)
  }

  lemma BeginsTooEarly(cfg: Settings, latency: real, extra: real, start: real, s: Process, id: TaskId, worker: nat)
    requires AtStart(s, start) && 0.0 <= latency && 0.0 <= extra && s.leaving == {id}
    requires OnlyRunning(s.world, id, worker)
    requires s.mine.Keys == {worker} && s.mine[worker].claimed == start && !s.mine[worker].begun
    ensures MayBeForgotten(cfg, latency, extra, s, worker, id)
  {
  }

  lemma RetriedAndPromoted(cfg: Settings, latency: real, extra: real, start: real, task: Task) returns (s: Process)
    requires 0.0 <= start && 0.0 <= latency && 0.0 <= extra && task.eta.None?
    ensures Reached(cfg, latency, extra, start, s) && AtStart(s, start) && s.leaving == {task.id} && s.mine == map[]
    ensures OnlyReady(s.world, task.id)
  {
    var s1 := Submitted(cfg, latency, extra, start, start, task);
    var s2 := Takes(cfg, latency, extra, start, s1, task.id, 0);
    var s3 := Runs(cfg, latency, extra, start, s2, task.id, 0);
    var s4 := Begins(cfg, latency, extra, start, s3, task.id, 0);
    var s5 := RetriesMine(cfg, latency, extra, start, s4, task.id, 0);
    s := PromotesMine(cfg, latency, extra, start, s5, task.id);
  }

  /** That an execution waits for an earlier one of its task to leave is needed, whatever the delays. */
  lemma OverlappingExecutionsForgetALease(cfg: Settings, latency: real, extra: real, task: Task)
    requires 0.0 <= latency && 0.0 <= extra && task.eta.None?
    ensures exists s :: Reached(cfg, latency, extra, 1.0, s) && MayBeForgotten(cfg, latency, extra, s, 1, task.id)
  {
    var s1 := RetriedAndPromoted(cfg, latency, extra, 1.0, task);
    var s2 := Takes(cfg, latency, extra, 1.0, s1, task.id, 1);
    var s3 := Runs(cfg, latency, extra, 1.0, s2, task.id, 1);
    BeginsTooEarly(cfg, latency, extra, 1.0, s3, task.id, 1);
  }
}
