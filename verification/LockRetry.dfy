/** Lock contention (src/lib/outbound/sqlite/retry.rs): every statement is retried while
    another connection holds the write lock. Other connections commit at any time; a
    statement that fails has committed nothing. Under that, a retried call is still one
    atomic step, which is what lets `Protocol` treat it as one. */
module LockRetry {
  import opened Wrappers
  import opened Backoff
  import opened Webhooks
  import opened Process
  import opened Routes
  import opened Statuses

  const SQLITE_BUSY: int := 5
  const SQLITE_LOCKED: int := 6

  datatype LockRetryPolicy = LockRetryPolicy(maxAttempts: nat, initialBackoff: real, maxBackoff: real, budget: real) {
    predicate Valid() {
      0.0 <= initialBackoff && 0.0 <= maxBackoff && 0.0 <= budget
    }
  }

  const DEFAULT_POLICY: LockRetryPolicy := LockRetryPolicy(5, 0.025, 0.4, 4.0)

  /** What a connection waits for at most: a pool slot, then the write lock. */
  datatype SqliteTuning = SqliteTuning(acquireTimeout: real, busyTimeout: real, retry: LockRetryPolicy)

  const DEFAULT_TUNING: SqliteTuning := SqliteTuning(3.0, 2.0, DEFAULT_POLICY)

  datatype SqlError = Database(code: Option<int>) | PoolTimedOut | Unrelated

  /** The primary code is the low byte; `&` and the Euclidean remainder agree on it. */
  predicate IsLockCode(extendedCode: int) {
    extendedCode % 0x100 in {SQLITE_BUSY, SQLITE_LOCKED}
  }

  predicate IsRetryableLock(error: SqlError) {
    error.Database? && error.code.Some? && IsLockCode(error.code.value)
  }

  predicate IsLockContention(error: SqlError) {
    IsRetryableLock(error) || error.PoolTimedOut?
  }

  function ToRepositoryError(error: SqlError): RepositoryError {
    if IsLockContention(error) then Busy else Other
  }

  /** A lock error, by its numbers: SQLite puts 5 (busy) or 6 (locked) in the low byte of the
      extended code. */
  predicate IsLocked(error: SqlError) {
    error.Database? && error.code.Some? && error.code.value % 256 in {5, 6}
  }

  /** Exactly the extended codes 256 * extension + 5 and + 6 are retried, such as 517. */
  lemma {:induction false} LockCodesAre(primary: int, extension: int)
    requires 0 <= primary < 256
    ensures IsRetryableLock(Database(Some(256 * extension + primary))) <==> primary == 5 || primary == 6
    ensures IsLocked(Database(Some(256 * extension + primary))) <==> primary == 5 || primary == 6
  {
    assert (256 * extension + primary) % 256 == primary;
  }

  lemma {:induction false} LockErrorsAre(error: SqlError)
    ensures IsRetryableLock(error) <==> IsLocked(error)
    ensures ToRepositoryError(error) == if IsLocked(error) || error == PoolTimedOut then Busy else Other
  {
    if error.Database? && error.code.Some? {
      LockCodesAre(error.code.value % 256, error.code.value / 256);
    }
  }

  // ---- the delays between attempts ----

  /** Doubles with every attempt, at most sixteen times. */
  function BaseDelay(policy: LockRetryPolicy, attempt: nat): real {
    Min(Scaled(policy.initialBackoff, Power(2.0, Clamp(attempt - 1, 0, 16))), policy.maxBackoff)
  }

  /** `nanos` is the sub-second part of the clock. */
  function Jitter(base: real, nanos: nat): real {
    Scaled(base, (nanos % 1000) as real / 2000.0)
  }

  function BackoffAfter(policy: LockRetryPolicy, attempt: nat, nanos: nat): real {
    var delay := BaseDelay(policy, attempt);
    delay + Jitter(delay, nanos)
  }

  lemma {:induction false} BaseDelayGrows(policy: LockRetryPolicy, attempt: nat)
    requires policy.Valid()
    ensures 0.0 <= BaseDelay(policy, attempt) <= BaseDelay(policy, attempt + 1) <= policy.maxBackoff
  {
    var low, high := Clamp(attempt - 1, 0, 16), Clamp(attempt, 0, 16);
    PowerGrows(2.0, low, high);
    Scale(policy.initialBackoff, Power(2.0, low), Power(2.0, high));
    Scale(policy.initialBackoff, 0.0, Power(2.0, low));
  }

  /** Every sleep lies between the exponential delay and half as much again, so it never
      exceeds one and a half times the cap; the nanoseconds move it evenly in between. */
  lemma {:induction false} BackoffBand(policy: LockRetryPolicy, attempt: nat, nanos: nat)
    requires policy.Valid()
    ensures 0.0 <= BaseDelay(policy, attempt) <= BackoffAfter(policy, attempt, nanos)
            <= 1.5 * BaseDelay(policy, attempt) <= 1.5 * policy.maxBackoff
    ensures 2000.0 * (BackoffAfter(policy, attempt, nanos) - BaseDelay(policy, attempt))
         == Scaled(BaseDelay(policy, attempt), (nanos % 1000) as real)
  {
    BaseDelayGrows(policy, attempt);
    var delay, share := BaseDelay(policy, attempt), (nanos % 1000) as real / 2000.0;
    assert 0.0 <= share <= 0.5;
    Scale(delay, 0.0, share);
    Scale(delay, share, 0.5);
  }

  /** The delay starts at the initial one and doubles up to the cap, for sixteen times. */
  lemma {:induction false} BaseDelayDoubles(policy: LockRetryPolicy, attempt: nat)
    requires policy.Valid()
    ensures attempt <= 1 ==> BaseDelay(policy, attempt) == Min(policy.initialBackoff, policy.maxBackoff)
    ensures 1 <= attempt <= 16 ==>
        BaseDelay(policy, attempt + 1) == Min(2.0 * BaseDelay(policy, attempt), policy.maxBackoff)
    ensures 16 < attempt ==> BaseDelay(policy, attempt + 1) == BaseDelay(policy, attempt)
  {
    if 1 <= attempt <= 16 {
      var n: nat := attempt - 1;
      PowerGrows(2.0, 0, n);
      GrowsByFactor(policy.initialBackoff, 2.0, Power(2.0, n), policy.maxBackoff);
      assert Power(2.0, n + 1) == 2.0 * Power(2.0, n);
    }
  }

  /** All the sleeps of a call that makes `attempts` attempts, at their longest. */
  function LongestSleep(policy: LockRetryPolicy, attempts: nat): real {
    if attempts <= 1 then 0.0
    else LongestSleep(policy, attempts - 1) + 1.5 * BaseDelay(policy, attempts - 1)
  }

  /** All its sleeps at their shortest. */
  function ShortestSleep(policy: LockRetryPolicy, attempts: nat): real {
    if attempts <= 1 then 0.0
    else ShortestSleep(policy, attempts - 1) + BaseDelay(policy, attempts - 1)
  }

  /** The default delays are 25, 50, 100 and 200 milliseconds, 400 at most. The default
      budget never cuts a call short by itself: all four sleeps together take little more than
      half a second of it. */
  lemma {:induction false} DefaultSleepsFitBudget()
    ensures BaseDelay(DEFAULT_POLICY, 1) == 0.025 && BaseDelay(DEFAULT_POLICY, 2) == 0.05
    ensures BaseDelay(DEFAULT_POLICY, 3) == 0.1 && BaseDelay(DEFAULT_POLICY, 4) == 0.2
    ensures BaseDelay(DEFAULT_POLICY, 5) == BaseDelay(DEFAULT_POLICY, 6) == 0.4
    ensures DEFAULT_POLICY.maxAttempts == 5
    ensures LongestSleep(DEFAULT_POLICY, 5) == 0.5625 < DEFAULT_POLICY.budget == 4.0
  {
    BaseDelayDoubles(DEFAULT_POLICY, 1);
    BaseDelayDoubles(DEFAULT_POLICY, 2);
    BaseDelayDoubles(DEFAULT_POLICY, 3);
    BaseDelayDoubles(DEFAULT_POLICY, 4);
    BaseDelayDoubles(DEFAULT_POLICY, 5);
    assert LongestSleep(DEFAULT_POLICY, 5) == LongestSleep(DEFAULT_POLICY, 4) + 1.5 * BaseDelay(DEFAULT_POLICY, 4);
    assert LongestSleep(DEFAULT_POLICY, 4) == LongestSleep(DEFAULT_POLICY, 3) + 1.5 * BaseDelay(DEFAULT_POLICY, 3);
    assert LongestSleep(DEFAULT_POLICY, 3) == LongestSleep(DEFAULT_POLICY, 2) + 1.5 * BaseDelay(DEFAULT_POLICY, 2);
    assert LongestSleep(DEFAULT_POLICY, 2) == LongestSleep(DEFAULT_POLICY, 1) + 1.5 * BaseDelay(DEFAULT_POLICY, 1);
  }

  // ---- the database, as one of its connections sees it ----

  /** A statement, with the choices SQLite makes for it (a new id, ties) already made. */
  type Statement<T> = Table -> (Table, T)

  datatype Commit = Commit(mine: bool, before: Table, after: Table)

  /** The commits lead from one table to the other. */
  ghost predicate Leads(from: Table, commits: seq<Commit>, to: Table)
    decreases |commits|
  {
    if commits == [] then from == to
    else commits[0].before == from && Leads(commits[0].after, commits[1..], to)
  }

  ghost predicate NoneMine(commits: seq<Commit>) {
    forall i :: 0 <= i < |commits| ==> !commits[i].mine
  }

  /** The call committed its statement exactly once if it succeeded and not at all if it
      failed, whatever others committed around it. */
  ghost predicate Atomic<T>(commits: seq<Commit>, statement: Statement<T>, r: Result<T, SqlError>) {
    match r
    case Failure(_) => NoneMine(commits)
    case Success(value) => exists i :: 0 <= i < |commits| && IsTheCommit(commits, i, statement, value)
  }

  ghost predicate IsTheCommit<T>(commits: seq<Commit>, i: nat, statement: Statement<T>, value: T)
    requires i < |commits|
  {
    && commits[i].mine && statement(commits[i].before) == (commits[i].after, value)
    && NoneMine(commits[..i]) && NoneMine(commits[i + 1..])
  }

  lemma {:induction false} LeadsAppend(from: Table, commits: seq<Commit>, middle: Table, more: seq<Commit>, to: Table)
    requires Leads(from, commits, middle) && Leads(middle, more, to)
    ensures Leads(from, commits + more, to)
    decreases |commits|
  {
    if commits == [] {
      assert commits + more == more;
    } else {
      LeadsAppend(commits[0].after, commits[1..], middle, more, to);
      assert (commits + more)[1..] == commits[1..] + more;
    }
  }

  lemma {:induction false} LeadsSplits(from: Table, commits: seq<Commit>, to: Table, i: nat) returns (middle: Table)
    requires Leads(from, commits, to) && i <= |commits|
    ensures Leads(from, commits[..i], middle) && Leads(middle, commits[i..], to)
    decreases |commits|
  {
    if i == 0 {
      middle := from;
      assert commits[..0] == [] && commits[0..] == commits;
    } else {
      middle := LeadsSplits(commits[0].after, commits[1..], to, i - 1);
      assert commits[..i][1..] == commits[1..][..i - 1];
      assert commits[i..] == commits[1..][i - 1..];
    }
  }

  /** A successful call is one step: the table others had led up to, the statement on it at
      once, then only others again. */
  lemma {:induction false} TakesEffectAtOnce<T>(from: Table, commits: seq<Commit>, to: Table,
                                                statement: Statement<T>, value: T)
    returns (earlier: seq<Commit>, at: Table, later: seq<Commit>)
    requires Leads(from, commits, to) && Atomic(commits, statement, Success(value))
    ensures NoneMine(earlier) && Leads(from, earlier, at)
    ensures statement(at).1 == value
    ensures NoneMine(later) && Leads(statement(at).0, later, to)
  {
    var i :| 0 <= i < |commits| && IsTheCommit(commits, i, statement, value);
    at := LeadsSplits(from, commits, to, i);
    earlier, later := commits[..i], commits[i + 1..];
    assert commits[i..][0] == commits[i] && commits[i..][1..] == later;
  }

  /** Others go on first: what they commit before an attempt changes nothing for it. */
  lemma {:induction false} AfterOthers<T>(others: seq<Commit>, commits: seq<Commit>,
                                          statement: Statement<T>, r: Result<T, SqlError>)
    requires NoneMine(others) && Atomic(commits, statement, r)
    ensures Atomic(others + commits, statement, r)
  {
    var all, n := others + commits, |others|;
    if r.Success? {
      var i :| 0 <= i < |commits| && IsTheCommit(commits, i, statement, r.value);
      assert all[n + i] == commits[i];
      assert all[..n + i] == others + commits[..i] && all[n + i + 1..] == commits[i + 1..];
      assert IsTheCommit(all, n + i, statement, r.value);
    }
  }

  class Database {
    var table: Table
    var clock: real
    /** Nobody waits longer than this for one attempt. */
    const attemptLimit: real

    constructor (table: Table, attemptLimit: real)
      requires 0.0 <= attemptLimit
      ensures this.table == table && this.attemptLimit == attemptLimit
    {
      this.table, this.attemptLimit, this.clock := table, attemptLimit, 0.0;
    }

    /** The other connections commit what they like. */
    method OthersCommit() returns (ghost commits: seq<Commit>)
      modifies this`table
      ensures NoneMine(commits) && Leads(old(table), commits, table)
    {
      commits := [];
      var theirs: Option<Table> := *;
      if theirs.Some? {
        commits := [Commit(false, table, theirs.value)];
        table := theirs.value;
      }
    }

    method Elapse(most: real) returns (seconds: real)
      requires 0.0 <= most
      modifies this`clock
      ensures 0.0 <= seconds <= most && clock == old(clock) + seconds
    {
      seconds := *;
      if !(0.0 <= seconds <= most) {
        seconds := most;
      }
      clock := clock + seconds;
    }

    /** One attempt at a statement: it commits, or fails and has committed nothing. */
    method Attempt<T>(statement: Statement<T>) returns (r: Result<T, SqlError>, ghost commits: seq<Commit>)
      requires 0.0 <= attemptLimit
      modifies this
      ensures Atomic(commits, statement, r) && Leads(old(table), commits, table)
      ensures old(clock) <= clock <= old(clock) + attemptLimit
    {
      var _ := Elapse(attemptLimit);
      commits := OthersCommit();
      var error: Option<SqlError> := *;
      if error.Some? {
        return Failure(error.value), commits;
      }
      ghost var before := table;
      var (after, value) := statement(table);
      table := after;
      assert IsTheCommit([Commit(true, before, after)], 0, statement, value);
      AfterOthers(commits, [Commit(true, before, after)], statement, Success(value));
      LeadsAppend(old(table), commits, before, [Commit(true, before, after)], table);
      return Success(value), commits + [Commit(true, before, after)];
    }

    method Sleep(seconds: real) returns (ghost commits: seq<Commit>)
      modifies this
      ensures NoneMine(commits) && Leads(old(table), commits, table)
      ensures clock == old(clock) + seconds
    {
      commits := OthersCommit();
      clock := clock + seconds;
    }
  }

  /** What one call of `retry_on_locked` did. */
  datatype Effort = Effort(attempts: nat, slept: real, errors: seq<SqlError>)

  /** Only lock errors are retried, every other error is the last. */
  ghost predicate RetriedOnlyLocks<T>(effort: Effort, r: Result<T, SqlError>) {
    && effort.attempts > 0
    && |effort.errors| == (if r.Success? then effort.attempts - 1 else effort.attempts)
    && (forall i :: 0 <= i < effort.attempts - 1 ==> IsLocked(effort.errors[i]))
    && (r.Failure? ==> effort.errors[effort.attempts - 1] == r.error)
  }

  /** A lock error is given back only once the attempts or the budget are used up. */
  ghost predicate GaveUpInTime<T>(policy: LockRetryPolicy, effort: Effort, elapsed: real, r: Result<T, SqlError>) {
    r.Failure? && IsLocked(r.error) ==>
      policy.maxAttempts <= effort.attempts || policy.budget <= elapsed + 1.5 * BaseDelay(policy, effort.attempts)
  }

  /** A call's latency: one attempt, and if it slept at all, less than the budget before
      the last attempt. */
  predicate WithinBudget(policy: LockRetryPolicy, effort: Effort, elapsed: real, attemptLimit: real) {
    && 0.0 <= effort.slept <= elapsed
    && if effort.attempts <= 1 then effort.slept == 0.0 && elapsed <= attemptLimit
       else effort.slept < policy.budget && elapsed < policy.budget + attemptLimit
  }

  /** `retry_on_locked`. */
  method RetryOnLocked<T>(policy: LockRetryPolicy, db: Database, statement: Statement<T>)
    returns (r: Result<T, SqlError>, ghost effort: Effort, ghost commits: seq<Commit>)
    requires policy.Valid() && 0.0 <= db.attemptLimit
    modifies db
    ensures Atomic(commits, statement, r) && Leads(old(db.table), commits, db.table)
    ensures effort.attempts <= policy.maxAttempts || effort.attempts == 1
    ensures RetriedOnlyLocks(effort, r)
    ensures GaveUpInTime(policy, effort, db.clock - old(db.clock), r)
    ensures WithinBudget(policy, effort, db.clock - old(db.clock), db.attemptLimit)
    ensures ShortestSleep(policy, effort.attempts) <= effort.slept <= LongestSleep(policy, effort.attempts)
  {
    var started := db.clock;
    var attemptNumber := 1;
    effort, commits := Effort(1, 0.0, []), [];
    while true
      invariant effort.attempts == attemptNumber && attemptNumber >= 1
      invariant attemptNumber == 1 || attemptNumber <= policy.maxAttempts
      invariant |effort.errors| == attemptNumber - 1
      invariant forall i :: 0 <= i < |effort.errors| ==> IsLocked(effort.errors[i])
      invariant NoneMine(commits) && Leads(old(db.table), commits, db.table)
      invariant 0.0 <= effort.slept <= db.clock - started
      invariant ShortestSleep(policy, attemptNumber) <= effort.slept <= LongestSleep(policy, attemptNumber)
      invariant if attemptNumber == 1 then db.clock == started && effort.slept == 0.0
                else effort.slept < policy.budget && db.clock - started < policy.budget
      decreases policy.maxAttempts - attemptNumber
    {
      ghost var sofar, table := commits, db.table;
      var outcome, made := db.Attempt(statement);
      AfterOthers(sofar, made, statement, outcome);
      LeadsAppend(old(db.table), sofar, table, made, db.table);
      commits := sofar + made;
      if outcome.Success? {
        return outcome, effort, commits;
      }
      LockErrorsAre(outcome.error);
      effort := effort.(errors := effort.errors + [outcome.error]);
      if !IsRetryableLock(outcome.error) {
        return outcome, effort, commits;
      }
      if attemptNumber >= policy.maxAttempts {
        return outcome, effort, commits;
      }
      var nanos: nat := *;
      var backoff := BackoffAfter(policy, attemptNumber, nanos);
      BackoffBand(policy, attemptNumber, nanos);
      if db.clock - started + backoff >= policy.budget {
        return outcome, effort, commits;
      }
      table := db.table;
      ghost var theirs := db.Sleep(backoff);
      LeadsAppend(old(db.table), commits, table, theirs, db.table);
      commits := commits + theirs;
      attemptNumber := attemptNumber + 1;
      effort := effort.(attempts := attemptNumber, slept := effort.slept + backoff);
    }
  }

  /** With the default settings a call that waits three seconds for a connection and two for
      the lock comes back within nine seconds, and so before the ten after which webhook
      senders give up. */
  lemma {:induction false} DefaultLatency(effort: Effort, elapsed: real)
    requires WithinBudget(DEFAULT_POLICY, effort, elapsed, DEFAULT_TUNING.acquireTimeout + DEFAULT_TUNING.busyTimeout)
    ensures DEFAULT_TUNING.acquireTimeout == 3.0 && DEFAULT_TUNING.busyTimeout == 2.0
    ensures elapsed < 9.0
  {
  }

  /** The ids a database hands out are new to it. */
  ghost predicate HandsOutNewIds(id: Table -> nat) {
    forall t: Table :: t.highWater < id(t)
  }

  function Inserting(id: Table -> nat, content: Content): Statement<()> {
    (t: Table) => (Insert(t, id(t), content), ())
  }

  /** `insert`: one row is added, exactly once, or the call failed and added none; the
      failure is busy exactly when the database or its pool was contended. */
  method InsertThroughRetry(policy: LockRetryPolicy, db: Database, content: Content, id: Table -> nat)
    returns (r: Result<(), RepositoryError>, ghost commits: seq<Commit>, ghost effort: Effort)
    requires policy.Valid() && 0.0 <= db.attemptLimit && HandsOutNewIds(id)
    modifies db
    ensures Leads(old(db.table), commits, db.table)
    ensures r.Success? ==> Atomic(commits, Inserting(id, content), Success(()))
    ensures r.Failure? ==> NoneMine(commits) && effort.errors != []
    ensures r.Failure? ==>
              var last := effort.errors[|effort.errors| - 1];
              r.error == if IsLocked(last) || last == PoolTimedOut then Busy else Other
    ensures WithinBudget(policy, effort, db.clock - old(db.clock), db.attemptLimit)
  {
    var result: Result<(), SqlError>;
    result, effort, commits := RetryOnLocked(policy, db, Inserting(id, content));
    if result.Failure? {
      LockErrorsAre(result.error);
    }
    r := match result case Success(_) => Success(()) case Failure(error) => Failure(ToRepositoryError(error));
  }

  /** Receiving through the retry loop is the one step `StoreWebhook` takes: between what
      others commit before and after it, one new row is added and 200 answered, or nothing
      changes and 503 or 500 is answered, within the budget of the call. */
  method StoreThroughRetry(policy: LockRetryPolicy, db: Database, content: Content, id: Table -> nat)
    returns (status: int, ghost earlier: seq<Commit>, ghost at: Table, ghost after: Table, ghost later: seq<Commit>,
             ghost effort: Effort)
    requires policy.Valid() && 0.0 <= db.attemptLimit && HandsOutNewIds(id)
    modifies db
    ensures NoneMine(earlier) && Leads(old(db.table), earlier, at)
    ensures Stores(at, after, status, id(at), content)
    ensures NoneMine(later) && Leads(after, later, db.table)
    ensures status != 200 ==> effort.errors != []
    ensures status != 200 ==>
              var last := effort.errors[|effort.errors| - 1];
              status == if IsLocked(last) || last == PoolTimedOut then 503 else 500
    ensures WithinBudget(policy, effort, db.clock - old(db.clock), db.attemptLimit)
  {
    var inserted;
    ghost var commits;
    inserted, commits, effort := InsertThroughRetry(policy, db, content, id);
    if inserted.Failure? {
      earlier, at, after, later := commits, db.table, db.table, [];
      return ErrorStatus(inserted.error), earlier, at, after, later, effort;
    }
    earlier, at, later := TakesEffectAtOnce(old(db.table), commits, db.table, Inserting(id, content), ());
    after := Insert(at, id(at), content);
    status := OK;
  }
}
