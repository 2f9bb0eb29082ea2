/** Periodic schedules: the table, its due index, and what firing makes of a schedule. */
module Schedules {
  import opened Util
  import opened Zset
  import opened Models

  type Name = Member

  datatype Schedule = Schedule(
    name: Name,
    task: string,
    cron: Option<string>,
    interval: Option<real>,
    args: Json,
    kwargs: Json,
    priority: Priority,
    maxRetries: Option<nat>,
    timeout: Option<real>,
    enabled: bool,
    nextRun: Option<real>,
    lastRun: Option<real>,
    lastTaskId: Option<TaskId>)

  /** The schedules hash and the due sorted set. */
  datatype Book = Book(schedules: map<Name, Schedule>, due: Zset)

  const EMPTY_BOOK: Book := Book(map[], map[])

  /** A next run of zero is falsy and not indexed. */
  predicate Indexed(s: Schedule) {
    s.enabled && s.nextRun.Some? && s.nextRun.value != 0.0
  }

  function PutSchedule(b: Book, s: Schedule): Book {
    Book(b.schedules[s.name := s],
         if Indexed(s) then b.due[s.name := Ms(s.nextRun.value)] else b.due - {s.name})
  }

  function DeleteSchedule(b: Book, name: Name): Book {
    Book(b.schedules - {name}, b.due - {name})
  }

  function DropDue(b: Book, name: Name): Book {
    b.(due := b.due - {name})
  }

  function DueSchedules(b: Book, now: int): seq<Name> {
    RangeByScore(b.due, now, -1)
  }

  // ---------------------------------------------------------------- next run

  /** croniter as an abstract function: None where it rejects the expression. */
  type Cron = (string, real) -> Option<real>

  ghost predicate StrictlyAfter(cronNext: Cron) {
    forall expr: string, base: real :: cronNext(expr, base).Some? ==> base < cronNext(expr, base).value
  }

  /** None stands for the ValueError. */
  function NextRunTime(cronNext: Cron, cron: Option<string>, interval: Option<real>, base: real): Option<real> {
    if cron.Some? && cron.value != "" then cronNext(cron.value, base)
    else if interval.Some? && interval.value != 0.0 then
      if interval.value <= 0.0 then None else Some(base + interval.value)
    else None
  }

  /** A next run is always strictly later than its base. */
  lemma NextRunIsLater(cronNext: Cron, cron: Option<string>, interval: Option<real>, base: real)
    requires StrictlyAfter(cronNext)
    ensures var next := NextRunTime(cronNext, cron, interval, base); next.Some? ==> base < next.value
  {
    if cron.Some? {
      assert cronNext(cron.value, base).Some? ==> base < cronNext(cron.value, base).value;
    }
  }

  /** A schedule with its first next run computed; None where that raises. */
  function MakeSchedule(cronNext: Cron, s: Schedule, base: real): Option<Schedule> {
    if !s.enabled then Some(s.(nextRun := None, lastRun := None, lastTaskId := None))
    else
      match NextRunTime(cronNext, s.cron, s.interval, base)
      case None => None
      case Some(next) => Some(s.(nextRun := Some(next), lastRun := None, lastTaskId := None))
  }

  /** A new schedule first runs strictly after its base; a disabled one is not indexed at all. */
  lemma FirstRunIsLater(cronNext: Cron, s: Schedule, base: real)
    requires StrictlyAfter(cronNext)
    ensures var made := MakeSchedule(cronNext, s, base);
            made.Some? ==> (made.value.nextRun.Some? <==> s.enabled)
                           && (s.enabled ==> base < made.value.nextRun.value)
  {
    NextRunIsLater(cronNext, s.cron, s.interval, base);
  }

  /** The schedule after firing at `t`; a malformed one is disabled and keeps its next run. */
  function Fired(cronNext: Cron, s: Schedule, t: real, taskId: TaskId): Schedule {
    var ran := s.(lastRun := Some(t), lastTaskId := Some(taskId));
    match NextRunTime(cronNext, s.cron, s.interval, t)
    case None => ran.(enabled := false)
    case Some(next) => ran.(nextRun := Some(next))
  }

  /** Firing at `t` records the time and the task, and moves the next run: by cron where there is one, else
      by a positive interval. A schedule with neither is disabled and keeps its next run. Nothing else of
      its definition changes. */
  lemma FiringRewrites(cronNext: Cron, s: Schedule, t: real, taskId: TaskId)
    ensures var f := Fired(cronNext, s, t, taskId);
            var byCron := s.cron.Some? && s.cron.value != "";
            var next := if byCron then cronNext(s.cron.value, t)
                        else if s.interval.Some? && s.interval.value > 0.0 then Some(t + s.interval.value) else None;
            && f == s.(lastRun := Some(t), lastTaskId := Some(taskId), nextRun := f.nextRun, enabled := f.enabled)
            && (next.Some? ==> f.nextRun == next && f.enabled == s.enabled)
            && (next.None? ==> f.nextRun == s.nextRun && !f.enabled)
  {
  }

  /** A new schedule is its definition with the first next run; it is refused exactly when it is enabled
      and there is none. */
  lemma MakingComputesTheNextRun(cronNext: Cron, s: Schedule, base: real)
    ensures var made := MakeSchedule(cronNext, s, base);
            var byCron := s.cron.Some? && s.cron.value != "";
            var next := if byCron then cronNext(s.cron.value, base)
                        else if s.interval.Some? && s.interval.value > 0.0 then Some(base + s.interval.value) else None;
            && (made.None? <==> s.enabled && next.None?)
            && (made.Some? ==> made.value == s.(nextRun := if s.enabled then next
                else None, lastRun := None, lastTaskId := None))
  {
  }

  /** A schedule given both runs by its cron expression: next runs and failures do not depend on the
      interval, not even on one that would be rejected alone. */
  lemma CronWinsOverInterval(cronNext: Cron, s: Schedule, interval: Option<real>, t: real, taskId: TaskId)
    requires s.cron.Some? && s.cron.value != ""
    ensures Fired(cronNext, s.(interval := interval), t, taskId) == Fired(cronNext, s, t, taskId).(interval := interval)
    ensures var next := cronNext(s.cron.value, t);
            var fired := Fired(cronNext, s, t, taskId);
            if next.Some? then fired.nextRun == next && fired.enabled == s.enabled else !fired.enabled
    ensures s.enabled ==>
              var made := MakeSchedule(cronNext, s.(interval := interval), t);
              var next := cronNext(s.cron.value, t);
              if next.Some? then made.Some? && made.value.nextRun == next else made.None?
  {
  }

  // ---------------------------------------------------------------- the due index agrees with the table

  /** The index holds exactly the enabled schedules with a next run, scored with it. */
  ghost predicate Agrees(b: Book) {
    && (forall n | n in b.schedules :: b.schedules[n].name == n)
    && b.due == map n | n in b.schedules && b.schedules[n].enabled
                        && b.schedules[n].nextRun.Some? && b.schedules[n].nextRun.value != 0.0 ::
                  Ms(b.schedules[n].nextRun.value)
  }

  function NaiveDue(b: Book, now: int): set<Name> {
    set n | n in b.schedules && b.schedules[n].enabled
            && b.schedules[n].nextRun.Some? && b.schedules[n].nextRun.value != 0.0
            && Ms(b.schedules[n].nextRun.value) <= now
  }

  lemma PutKeepsAgreement(b: Book, s: Schedule)
    requires Agrees(b)
    ensures Agrees(PutSchedule(b, s))
  {
  }

  lemma DeleteKeepsAgreement(b: Book, name: Name)
    requires Agrees(b)
    ensures Agrees(DeleteSchedule(b, name))
  {
  }

  /** Where the index agrees, dropping a missing or disabled schedule from it changes nothing. */
  lemma DropIsIdle(b: Book, name: Name)
    requires Agrees(b) && (name !in b.schedules || !b.schedules[name].enabled)
    ensures DropDue(b, name) == b
  {
  }

  /** The indexed query is the filter over the whole table, each name once and earliest first. */
  lemma DueQueryIsTheFilter(b: Book, now: int)
    requires Agrees(b)
    ensures Elements(DueSchedules(b, now)) == NaiveDue(b, now)
    ensures NoDuplicates(DueSchedules(b, now)) && Ordered(b.due, DueSchedules(b, now))
  {
    RangeHasNoDuplicates(b.due, now, -1);
    SortedIsOrdered(Due(b.due, now));
    SortedElements(Due(b.due, now));
    var names := DueSchedules(b, now);
    assert Elements(names) == Due(b.due, now).Keys;
    forall i, j | 0 <= i < j < |names| ensures Before(b.due, names[i], names[j]) {
      assert Before(Due(b.due, now), names[i], names[j]);
    }
  }
}
