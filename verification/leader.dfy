/** The scheduler's leader lock: a token with a time to live, taken with SET NX PX and extended by the
    REFRESH_LOCK script. Times are Redis's own clock, in milliseconds. */
module Leader {
  import opened Util

  type Token = nat

  datatype Lock = Lock(token: Token, expiresAt: int)

  /** The stored token, unless its time to live is over. */
  function Owner(lock: Option<Lock>, at: int): Option<Token> {
    if lock.Some? && at < lock.value.expiresAt then Some(lock.value.token) else None
  }

  function RefreshLock(lock: Option<Lock>, token: Token, ttl: int, at: int): (Option<Lock>, bool) {
    if Owner(lock, at) == Some(token) then (Some(Lock(token, at + ttl)), true) else (lock, false)
  }

  function AcquireLock(lock: Option<Lock>, token: Token, ttl: int, at: int): (Option<Lock>, bool) {
    if Owner(lock, at) == None then (Some(Lock(token, at + ttl)), true) else (lock, false)
  }

  /** max(2000, int(scheduler_interval * 1000 * 6)). */
  function LockTtl(schedulerInterval: real): int {
    Max(2000, Truncate(schedulerInterval * 1000.0 * 6.0))
  }

  /** The two commands of `_is_leader`; commands of other replicas may come between them. */
  datatype Attempt = Refresh(token: Token, at: int) | Acquire(token: Token, at: int)

  function Try(lock: Option<Lock>, ttl: Token -> int, a: Attempt): (Option<Lock>, bool) {
    match a
    case Refresh(token, at) => RefreshLock(lock, token, ttl(token), at)
    case Acquire(token, at) => AcquireLock(lock, token, ttl(token), at)
  }

  function After(lock: Option<Lock>, ttl: Token -> int, attempts: seq<Attempt>): Option<Lock>
    decreases |attempts|
  {
    if attempts == [] then lock else After(Try(lock, ttl, attempts[0]).0, ttl, attempts[1..])
  }

  predicate InOrder(attempts: seq<Attempt>) {
    forall i, j | 0 <= i < j < |attempts| :: attempts[i].at <= attempts[j].at
  }

  /** The attempt at `i` found its replica to be the leader. */
  predicate Elected(ttl: Token -> int, attempts: seq<Attempt>, i: nat)
    requires i < |attempts|
  {
    Try(After(None, ttl, attempts[..i]), ttl, attempts[i]).1
  }

  /** `token` owns the lock at least until `until`. */
  predicate Reserved(lock: Option<Lock>, token: Token, until: int) {
    lock.Some? && lock.value.token == token && until <= lock.value.expiresAt
  }

  lemma AttemptKeepsReservation(lock: Option<Lock>, ttl: Token -> int, a: Attempt, token: Token, since: int)
    requires Reserved(lock, token, since + ttl(token)) && since <= a.at < since + ttl(token)
    ensures Reserved(Try(lock, ttl, a).0, token, since + ttl(token))
    ensures Try(lock, ttl, a).1 ==> a.token == token
  {
  }

  lemma {:induction false} ReservationLasts(lock: Option<Lock>, ttl: Token -> int, attempts: seq<Attempt>,
      token: Token, since: int)
    requires Reserved(lock, token, since + ttl(token))
    requires forall a | a in attempts :: since <= a.at < since + ttl(token)
    ensures Reserved(After(lock, ttl, attempts), token, since + ttl(token))
    decreases |attempts|
  {
    if attempts != [] {
      AttemptKeepsReservation(lock, ttl, attempts[0], token, since);
      ReservationLasts(Try(lock, ttl, attempts[0]).0, ttl, attempts[1..], token, since);
    }
  }

  lemma {:induction false} AfterConcat(lock: Option<Lock>, ttl: Token -> int, a: seq<Attempt>, b: seq<Attempt>)
    ensures After(lock, ttl, a + b) == After(After(lock, ttl, a), ttl, b)
    decreases |a|
  {
    if a == [] {
      assert a + b == b;
    } else {
      assert (a + b)[1..] == a[1..] + b;
      AfterConcat(Try(lock, ttl, a[0]).0, ttl, a[1..], b);
    }
  }

  /** Until its time to live is over, the lock of an elected replica is its own. */
  lemma HeldUntil(ttl: Token -> int, attempts: seq<Attempt>, i: nat, j: nat)
    requires InOrder(attempts) && i < j < |attempts| && Elected(ttl, attempts, i)
    requires attempts[j].at < attempts[i].at + ttl(attempts[i].token)
    ensures Reserved(After(None, ttl, attempts[..j]), attempts[i].token, attempts[i].at + ttl(attempts[i].token))
  {
    var a := attempts[i];
    var between := attempts[i + 1..j];
    assert attempts[..j] == attempts[..i] + ([a] + between);
    AfterConcat(None, ttl, attempts[..i], [a] + between);
    assert ([a] + between)[1..] == between;
    var held := Try(After(None, ttl, attempts[..i]), ttl, a).0;
    assert Reserved(held, a.token, a.at + ttl(a.token));
    forall b | b in between ensures a.at <= b.at < a.at + ttl(a.token) {
      var k :| i < k < j && attempts[k] == b;
    }
    ReservationLasts(held, ttl, between, a.token, a.at);
  }

  /** A leader that ticks in time stays leader: whatever others try in between, its refresh before its
      time to live is over succeeds, and sets the lock to expire a time to live later. */
  lemma PromptLeaderStays(ttl: Token -> int, attempts: seq<Attempt>, i: nat, j: nat)
    requires InOrder(attempts) && i < j < |attempts| && Elected(ttl, attempts, i)
    requires attempts[j] == Refresh(attempts[i].token, attempts[j].at)
    requires attempts[j].at < attempts[i].at + ttl(attempts[i].token)
    ensures Elected(ttl, attempts, j)
    ensures Try(After(None, ttl, attempts[..j]), ttl, attempts[j]).0
         == Some(Lock(attempts[i].token, attempts[j].at + ttl(attempts[i].token)))
  {
    HeldUntil(ttl, attempts, i, j);
  }

  /** Leader exclusion over all runs: when one replica was found to be the leader and later another is,
      the first one's time to live has passed in between. */
  lemma LeadersExclude(ttl: Token -> int, attempts: seq<Attempt>, i: nat, j: nat)
    requires InOrder(attempts) && i < j < |attempts|
    requires Elected(ttl, attempts, i) && Elected(ttl, attempts, j)
    requires attempts[i].token != attempts[j].token
    ensures attempts[i].at + ttl(attempts[i].token) <= attempts[j].at
  {
    var a := attempts[i];
    if attempts[j].at < a.at + ttl(a.token) {
      HeldUntil(ttl, attempts, i, j);
      AttemptKeepsReservation(After(None, ttl, attempts[..j]), ttl, attempts[j], a.token, a.at);
      assert false;
    }
  }
}
