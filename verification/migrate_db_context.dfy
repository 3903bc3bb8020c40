/**
 * The guarded migrate-and-seed routine. Inside a dependency-injection scope
 * it logs that migration starts, runs "migrate, then seed" under a
 * wait-and-retry policy that retries only SqlException, logs the outcome
 * (success, or one error for an exhausted or non-retryable failure), swallows
 * the failure, disposes the scope and returns the host it was given.
 *
 * The migrator and the seeder are outcome oracles indexed by attempt number
 * (the first attempt is 1); logging, waiting, the calls into the migrator and
 * the seeder, and the scope's creation and disposal are recorded as a trace.
 */
module MigrateDbContextExtensions {
  import opened Hosting

  /** What a failing migrator or seeder throws: the retried kind, or any other. */
  datatype Exception = SqlException | OtherException

  /** What one call into the migrator or the seeder does. */
  datatype StepOutcome = Completed | Threw(exception: Exception)

  /** InitializeDatabase of the migrate-to-latest-version initializer, per attempt. */
  type Migrator = nat -> StepOutcome

  /** The caller's async seed delegate, per attempt, by what awaiting its task does. */
  type Seeder = nat -> StepOutcome

  /** What one call of a void delegate does: it returns, or it throws. */
  datatype SyncResult = Returns | Raises(exception: Exception)

  /** The caller's synchronous seed delegate, per attempt. */
  type SyncSeeder = nat -> SyncResult

  /**
   * A wait-and-retry policy that handles SqlException only: after the i-th
   * handled failure (i counted from 1) it sleeps sleepDurations[i - 1]
   * seconds and runs the body again; there is one retry per duration.
   */
  datatype RetryPolicy = WaitAndRetry(sleepDurations: seq<nat>)

  /** The policy the routine is given: three retries, after 3, 5 and 8 seconds. */
  const MigrationRetryPolicy := WaitAndRetry([3, 5, 8])

  datatype Event =
    | ScopeCreated(provider: ServiceProvider)
    | ScopeDisposed
    | LogMigrating(context: string)
    | LogMigrated(context: string)
    | LogError(context: string, exception: Exception)
    | MigratorRun(attempt: nat)
    | SeederRun(attempt: nat)
    | Sleep(seconds: nat)

  /**
   * How the routine ends: it returns the host, or the exception thrown while
   * resolving the logger or the context (outside the try) propagates.
   */
  datatype Completion = Returned(host: Host) | ResolutionFailed

  /** The seeder used when the caller gives none: an already completed task. */
  function NoSeeding(): (seeder: Seeder)
    ensures forall attempt :: seeder(attempt) == Completed
  {
    _ => Completed
  }

  // ---------------------------------------------------------------------
  // Specification of one run of the routine

  /** The calls one execution of the retried body makes: the migrator, then the seeder unless the migrator threw. */
  function AttemptEvents(attempt: nat, migrator: Migrator, seeder: Seeder): (events: seq<Event>)
    ensures |events| == (if migrator(attempt).Completed? then 2 else 1)
    ensures events[0] == MigratorRun(attempt)
    ensures |events| == 2 ==> events[1] == SeederRun(attempt)
  {
    if migrator(attempt).Completed? then [MigratorRun(attempt), SeederRun(attempt)]
    else [MigratorRun(attempt)]
  }

  /** How one execution of the retried body ends: the first failure of migrator or seeder, if any. */
  function AttemptOutcome(attempt: nat, migrator: Migrator, seeder: Seeder): (o: StepOutcome)
    ensures o.Completed? <==> migrator(attempt).Completed? && seeder(attempt).Completed?
    ensures migrator(attempt).Threw? ==> o == migrator(attempt)
    ensures migrator(attempt).Completed? ==> o == seeder(attempt)
  {
    if migrator(attempt).Threw? then migrator(attempt) else seeder(attempt)
  }

  /** The events of the retried part and the outcome that leaves the policy. */
  datatype RetryRun = RetryRun(events: seq<Event>, outcome: StepOutcome)

  /** The policy executing the body from attempt `attempt` on. */
  function Retry(policy: RetryPolicy, migrator: Migrator, seeder: Seeder, attempt: nat): (r: RetryRun)
    requires 1 <= attempt <= |policy.sleepDurations| + 1
    // every run of the policy starts by executing the body, migrator first
    ensures |r.events| >= 1 && r.events[0] == MigratorRun(attempt)
    decreases |policy.sleepDurations| + 1 - attempt
  {
    var body := AttemptEvents(attempt, migrator, seeder);
    var outcome := AttemptOutcome(attempt, migrator, seeder);
    if outcome == Threw(SqlException) && attempt <= |policy.sleepDurations| then
      var rest := Retry(policy, migrator, seeder, attempt + 1);
      RetryRun(body + [Sleep(policy.sleepDurations[attempt - 1])] + rest.events, rest.outcome)
    else
      RetryRun(body, outcome)
  }

  /** The log entry written after the retried part: "migrated" on success, one error otherwise. */
  function OutcomeLog(context: string, outcome: StepOutcome): (e: Event)
    ensures e.LogMigrated? <==> outcome.Completed?
    ensures outcome.Threw? ==> e == LogError(context, outcome.exception)
  {
    if outcome.Completed? then LogMigrated(context) else LogError(context, outcome.exception)
  }

  /** The whole trace of one call. */
  function MigrationTrace(host: Host, context: string, policy: RetryPolicy, servicesResolve: bool,
                          migrator: Migrator, seeder: Seeder): (trace: seq<Event>)
    // the scope is opened from the host's container first and released last
    ensures |trace| >= 2 && trace[0] == ScopeCreated(Services(host)) && trace[|trace| - 1] == ScopeDisposed
    // "migrating" is logged right after the scope opens, exactly when logger and context resolve
    ensures servicesResolve <==> trace[1] == LogMigrating(context)
  {
    if !servicesResolve then [ScopeCreated(Services(host)), ScopeDisposed]
    else
      var retried := Retry(policy, migrator, seeder, 1);
      [ScopeCreated(Services(host)), LogMigrating(context)] + retried.events
        + [OutcomeLog(context, retried.outcome), ScopeDisposed]
  }

  // ---------------------------------------------------------------------
  // Views of a trace

  predicate IsAttempt(e: Event) { e.MigratorRun? }
  predicate IsMigratedLog(e: Event) { e.LogMigrated? }
  predicate IsErrorLog(e: Event) { e.LogError? }
  predicate IsMigratingLog(e: Event) { e.LogMigrating? }
  predicate IsScopeCreation(e: Event) { e.ScopeCreated? }
  predicate IsScopeDisposal(e: Event) { e.ScopeDisposed? }

  /** Number of events in `trace` that satisfy `p`. */
  function CountIf(trace: seq<Event>, p: Event -> bool): nat
  {
    if trace == [] then 0 else (if p(trace[0]) then 1 else 0) + CountIf(trace[1..], p)
  }

  /** Number of attempts: calls into the migrator. */
  function Attempts(trace: seq<Event>): nat
  {
    CountIf(trace, IsAttempt)
  }

  /** The durations slept between attempts, in order. */
  function Sleeps(trace: seq<Event>): seq<nat>
  {
    if trace == [] then []
    else (if trace[0].Sleep? then [trace[0].seconds] else []) + Sleeps(trace[1..])
  }

  lemma {:induction false} CountIfAppend(a: seq<Event>, b: seq<Event>, p: Event -> bool)
    ensures CountIf(a + b, p) == CountIf(a, p) + CountIf(b, p)
  {
    if a == [] {
      assert a + b == b;
    } else {
      assert (a + b)[0] == a[0] && (a + b)[1..] == a[1..] + b;
      CountIfAppend(a[1..], b, p);
    }
  }

  lemma {:induction false} SleepsAppend(a: seq<Event>, b: seq<Event>)
    ensures Sleeps(a + b) == Sleeps(a) + Sleeps(b)
  {
    if a == [] {
      assert a + b == b;
    } else {
      assert (a + b)[0] == a[0] && (a + b)[1..] == a[1..] + b;
      SleepsAppend(a[1..], b);
    }
  }

  lemma CountIfSingle(e: Event, p: Event -> bool)
    ensures CountIf([e], p) == if p(e) then 1 else 0
  {
    assert [e][1..] == [];
  }

  lemma SleepsSingle(e: Event)
    ensures Sleeps([e]) == if e.Sleep? then [e.seconds] else []
  {
    assert [e][1..] == [];
  }

  // ---------------------------------------------------------------------
  // Properties of the specification

  /** One attempt's calls: one migrator call, no sleep, nothing else. */
  lemma AttemptCounts(attempt: nat, migrator: Migrator, seeder: Seeder)
    ensures var body := AttemptEvents(attempt, migrator, seeder);
            Attempts(body) == 1 && Sleeps(body) == []
  {
    var run := MigratorRun(attempt);
    CountIfSingle(run, IsAttempt);
    SleepsSingle(run);
    if migrator(attempt).Completed? {
      var seed := SeederRun(attempt);
      CountIfAppend([run], [seed], IsAttempt);
      CountIfSingle(seed, IsAttempt);
      SleepsAppend([run], [seed]);
      SleepsSingle(seed);
    }
  }

  /** A SqlException with a duration left: one attempt, one sleep of the next duration, then the rest. */
  lemma RetryStep(policy: RetryPolicy, migrator: Migrator, seeder: Seeder, attempt: nat)
    requires 1 <= attempt <= |policy.sleepDurations|
    requires AttemptOutcome(attempt, migrator, seeder) == Threw(SqlException)
    ensures var r := Retry(policy, migrator, seeder, attempt);
            var rest := Retry(policy, migrator, seeder, attempt + 1);
            r.outcome == rest.outcome
            && Attempts(r.events) == 1 + Attempts(rest.events)
            && Sleeps(r.events) == [policy.sleepDurations[attempt - 1]] + Sleeps(rest.events)
            && r.events[0] == MigratorRun(attempt)
  {
    var body := AttemptEvents(attempt, migrator, seeder);
    var sleep := Sleep(policy.sleepDurations[attempt - 1]);
    var rest := Retry(policy, migrator, seeder, attempt + 1);
    AttemptCounts(attempt, migrator, seeder);
    assert Retry(policy, migrator, seeder, attempt).events == body + [sleep] + rest.events;
    CountIfAppend(body + [sleep], rest.events, IsAttempt);
    CountIfAppend(body, [sleep], IsAttempt);
    CountIfSingle(sleep, IsAttempt);
    SleepsAppend(body + [sleep], rest.events);
    SleepsAppend(body, [sleep]);
    SleepsSingle(sleep);
  }

  /** Success, a non-retryable failure, or no duration left: this attempt is the last. */
  lemma RetryStop(policy: RetryPolicy, migrator: Migrator, seeder: Seeder, attempt: nat)
    requires 1 <= attempt <= |policy.sleepDurations| + 1
    requires AttemptOutcome(attempt, migrator, seeder) != Threw(SqlException) || attempt == |policy.sleepDurations| + 1
    ensures var r := Retry(policy, migrator, seeder, attempt);
            r == RetryRun(AttemptEvents(attempt, migrator, seeder), AttemptOutcome(attempt, migrator, seeder))
            && Attempts(r.events) == 1 && Sleeps(r.events) == []
  {
    AttemptCounts(attempt, migrator, seeder);
  }

  /** Events the retried part can produce: migrator and seeder calls, and sleeps. */
  predicate IsRetryEvent(e: Event) { e.MigratorRun? || e.SeederRun? || e.Sleep? }

  /** An attempt's calls hold no event that `p` picks out, when `p` picks out no retry event. */
  lemma AttemptEventsOnly(attempt: nat, migrator: Migrator, seeder: Seeder, p: Event -> bool)
    requires forall e :: p(e) ==> !IsRetryEvent(e)
    ensures CountIf(AttemptEvents(attempt, migrator, seeder), p) == 0
  {
    var run := MigratorRun(attempt);
    CountIfSingle(run, p);
    if migrator(attempt).Completed? {
      CountIfAppend([run], [SeederRun(attempt)], p);
      CountIfSingle(SeederRun(attempt), p);
    }
  }

  /** The retried part holds nothing but migrator and seeder calls and sleeps. */
  lemma {:induction false} RetryEventsOnly(policy: RetryPolicy, migrator: Migrator, seeder: Seeder,
                                           attempt: nat, p: Event -> bool)
    requires 1 <= attempt <= |policy.sleepDurations| + 1
    requires forall e :: p(e) ==> !IsRetryEvent(e)
    ensures CountIf(Retry(policy, migrator, seeder, attempt).events, p) == 0
    decreases |policy.sleepDurations| + 1 - attempt
  {
    var body := AttemptEvents(attempt, migrator, seeder);
    AttemptEventsOnly(attempt, migrator, seeder, p);
    if AttemptOutcome(attempt, migrator, seeder) == Threw(SqlException) && attempt <= |policy.sleepDurations| {
      var sleep := Sleep(policy.sleepDurations[attempt - 1]);
      var rest := Retry(policy, migrator, seeder, attempt + 1);
      RetryEventsOnly(policy, migrator, seeder, attempt + 1, p);
      CountIfAppend(body + [sleep], rest.events, p);
      CountIfAppend(body, [sleep], p);
      CountIfSingle(sleep, p);
    }
  }

  /**
   * The retried part from attempt `attempt` on makes between one and all the
   * remaining attempts, and lets a SqlException out only once every retry is
   * spent.
   */
  lemma {:induction false} RetryAttempts(policy: RetryPolicy, migrator: Migrator, seeder: Seeder, attempt: nat)
    requires 1 <= attempt <= |policy.sleepDurations| + 1
    ensures var r := Retry(policy, migrator, seeder, attempt);
            1 <= Attempts(r.events) <= |policy.sleepDurations| + 2 - attempt
            && (r.outcome == Threw(SqlException) ==> Attempts(r.events) == |policy.sleepDurations| + 2 - attempt)
    decreases |policy.sleepDurations| + 1 - attempt
  {
    if AttemptOutcome(attempt, migrator, seeder) == Threw(SqlException) && attempt <= |policy.sleepDurations| {
      RetryStep(policy, migrator, seeder, attempt);
      RetryAttempts(policy, migrator, seeder, attempt + 1);
    } else {
      RetryStop(policy, migrator, seeder, attempt);
    }
  }

  /**
   * Between the attempts from `attempt` on, the retried part sleeps the
   * policy's next durations, in order: one fewer sleep than attempts, each a
   * duration of the policy starting at the current one.
   */
  lemma {:induction false} RetrySleeps(policy: RetryPolicy, migrator: Migrator, seeder: Seeder, attempt: nat)
    requires 1 <= attempt <= |policy.sleepDurations| + 1
    ensures var r := Retry(policy, migrator, seeder, attempt);
            Sleeps(r.events) <= policy.sleepDurations[attempt - 1..]
            && |Sleeps(r.events)| + 1 == Attempts(r.events)
    decreases |policy.sleepDurations| + 1 - attempt
  {
    if AttemptOutcome(attempt, migrator, seeder) == Threw(SqlException) && attempt <= |policy.sleepDurations| {
      RetryStep(policy, migrator, seeder, attempt);
      RetrySleeps(policy, migrator, seeder, attempt + 1);
      PrefixStep(policy.sleepDurations, attempt, Sleeps(Retry(policy, migrator, seeder, attempt + 1).events));
    } else {
      RetryStop(policy, migrator, seeder, attempt);
    }
  }

  /** A prefix of `d[i..]` with `d[i - 1]` in front is a prefix of `d[i - 1..]`. */
  lemma PrefixStep(d: seq<nat>, i: nat, rest: seq<nat>)
    requires 1 <= i <= |d|
    requires rest <= d[i..]
    ensures [d[i - 1]] + rest <= d[i - 1..]
  {
    assert d[i - 1..] == [d[i - 1]] + d[i..];
    assert rest == d[i..][..|rest|];
    assert ([d[i - 1]] + rest) == d[i - 1..][..|rest| + 1];
  }

  /** The retried part depends on the migrator and the seeder only through their outcomes. */
  lemma {:induction false} RetryDependsOnOutcomes(policy: RetryPolicy, m1: Migrator, s1: Seeder,
                                                  m2: Migrator, s2: Seeder, attempt: nat)
    requires 1 <= attempt <= |policy.sleepDurations| + 1
    requires forall a :: m1(a) == m2(a) && s1(a) == s2(a)
    ensures Retry(policy, m1, s1, attempt) == Retry(policy, m2, s2, attempt)
    decreases |policy.sleepDurations| + 1 - attempt
  {
    if attempt <= |policy.sleepDurations| {
      RetryDependsOnOutcomes(policy, m1, s1, m2, s2, attempt + 1);
    }
  }

  /** A count over two events, a middle part and two more events splits into its parts. */
  lemma CountIfFrame(a: Event, b: Event, middle: seq<Event>, c: Event, d: Event, p: Event -> bool)
    ensures CountIf([a, b] + middle + [c, d], p)
              == CountIf([a], p) + CountIf([b], p) + CountIf(middle, p) + CountIf([c], p) + CountIf([d], p)
  {
    assert [a, b] + middle + [c, d] == [a] + [b] + middle + [c] + [d];
    CountIfAppend([a] + [b] + middle + [c], [d], p);
    CountIfAppend([a] + [b] + middle, [c], p);
    CountIfAppend([a] + [b], middle, p);
    CountIfAppend([a], [b], p);
  }

  /** The sleeps of two events, a middle part and two more events, none of the four a sleep, are the middle's. */
  lemma SleepsFrame(a: Event, b: Event, middle: seq<Event>, c: Event, d: Event)
    requires !a.Sleep? && !b.Sleep? && !c.Sleep? && !d.Sleep?
    ensures Sleeps([a, b] + middle + [c, d]) == Sleeps(middle)
  {
    assert [a, b] + middle + [c, d] == [a] + [b] + middle + [c] + [d];
    SleepsAppend([a] + [b] + middle + [c], [d]);
    SleepsAppend([a] + [b] + middle, [c]);
    SleepsAppend([a] + [b], middle);
    SleepsAppend([a], [b]);
    SleepsSingle(a);
    SleepsSingle(b);
    SleepsSingle(c);
    SleepsSingle(d);
  }

  /** How a count over a whole trace splits into its parts. */
  lemma TraceCount(host: Host, context: string, policy: RetryPolicy, servicesResolve: bool,
                   migrator: Migrator, seeder: Seeder, p: Event -> bool)
    ensures var t := MigrationTrace(host, context, policy, servicesResolve, migrator, seeder);
            var retried := Retry(policy, migrator, seeder, 1);
            var outer := (if p(ScopeCreated(Services(host))) then 1 else 0) + (if p(ScopeDisposed) then 1 else 0);
            if servicesResolve then
              CountIf(t, p) == outer + (if p(LogMigrating(context)) then 1 else 0) + CountIf(retried.events, p)
                                 + (if p(OutcomeLog(context, retried.outcome)) then 1 else 0)
            else CountIf(t, p) == outer
  {
    var created := ScopeCreated(Services(host));
    CountIfSingle(created, p);
    CountIfSingle(ScopeDisposed, p);
    if !servicesResolve {
      CountIfAppend([created], [ScopeDisposed], p);
      assert [created, ScopeDisposed] == [created] + [ScopeDisposed];
    } else {
      var retried := Retry(policy, migrator, seeder, 1);
      var log := OutcomeLog(context, retried.outcome);
      CountIfSingle(LogMigrating(context), p);
      CountIfSingle(log, p);
      CountIfFrame(created, LogMigrating(context), retried.events, log, ScopeDisposed, p);
    }
  }

  /** The sleeps of a whole trace are those of its retried part. */
  lemma TraceSleeps(host: Host, context: string, policy: RetryPolicy, servicesResolve: bool,
                    migrator: Migrator, seeder: Seeder)
    ensures var t := MigrationTrace(host, context, policy, servicesResolve, migrator, seeder);
            Sleeps(t) == if servicesResolve then Sleeps(Retry(policy, migrator, seeder, 1).events) else []
  {
    var created := ScopeCreated(Services(host));
    if !servicesResolve {
      assert [created, ScopeDisposed] == [created] + [ScopeDisposed];
      SleepsAppend([created], [ScopeDisposed]);
      SleepsSingle(created);
      SleepsSingle(ScopeDisposed);
    } else {
      var retried := Retry(policy, migrator, seeder, 1);
      SleepsFrame(created, LogMigrating(context), retried.events, OutcomeLog(context, retried.outcome), ScopeDisposed);
    }
  }

  /** On every path the scope is created first and disposed last, each exactly once. */
  lemma ScopeReleasedOnce(host: Host, context: string, policy: RetryPolicy, servicesResolve: bool,
                          migrator: Migrator, seeder: Seeder)
    ensures var t := MigrationTrace(host, context, policy, servicesResolve, migrator, seeder);
            t[0] == ScopeCreated(Services(host)) && t[|t| - 1] == ScopeDisposed
            && CountIf(t, IsScopeCreation) == 1 && CountIf(t, IsScopeDisposal) == 1
  {
    TraceCount(host, context, policy, servicesResolve, migrator, seeder, IsScopeCreation);
    TraceCount(host, context, policy, servicesResolve, migrator, seeder, IsScopeDisposal);
    if servicesResolve {
      RetryEventsOnly(policy, migrator, seeder, 1, IsScopeCreation);
      RetryEventsOnly(policy, migrator, seeder, 1, IsScopeDisposal);
    }
  }

  /**
   * When the logger and the context resolve, "migrating" is logged once,
   * and then exactly one outcome entry: "migrated" when the retried part
   * succeeded, the error otherwise. When they do not, nothing is logged.
   */
  lemma OneOutcomeLog(host: Host, context: string, policy: RetryPolicy, servicesResolve: bool,
                      migrator: Migrator, seeder: Seeder)
    ensures var t := MigrationTrace(host, context, policy, servicesResolve, migrator, seeder);
            var succeeded := Retry(policy, migrator, seeder, 1).outcome.Completed?;
            if servicesResolve then
              t[1] == LogMigrating(context) && CountIf(t, IsMigratingLog) == 1
              && CountIf(t, IsMigratedLog) == (if succeeded then 1 else 0)
              && CountIf(t, IsErrorLog) == (if succeeded then 0 else 1)
            else
              CountIf(t, IsMigratingLog) == 0 && CountIf(t, IsMigratedLog) == 0 && CountIf(t, IsErrorLog) == 0
  {
    TraceCount(host, context, policy, servicesResolve, migrator, seeder, IsMigratingLog);
    TraceCount(host, context, policy, servicesResolve, migrator, seeder, IsMigratedLog);
    TraceCount(host, context, policy, servicesResolve, migrator, seeder, IsErrorLog);
    if servicesResolve {
      RetryEventsOnly(policy, migrator, seeder, 1, IsMigratingLog);
      RetryEventsOnly(policy, migrator, seeder, 1, IsMigratedLog);
      RetryEventsOnly(policy, migrator, seeder, 1, IsErrorLog);
    }
  }

  /**
   * There is at most one attempt more than the policy has durations; when
   * the logger and the context resolve there is at least one, and the sleeps
   * between attempts are the policy's durations, in order.
   */
  lemma AttemptsBounded(host: Host, context: string, policy: RetryPolicy, servicesResolve: bool,
                        migrator: Migrator, seeder: Seeder)
    ensures var t := MigrationTrace(host, context, policy, servicesResolve, migrator, seeder);
            var retried := Retry(policy, migrator, seeder, 1);
            Attempts(t) <= |policy.sleepDurations| + 1
            && (servicesResolve ==>
                  Attempts(t) == Attempts(retried.events) >= 1
                  && Sleeps(t) == policy.sleepDurations[..Attempts(t) - 1]
                  && (retried.outcome == Threw(SqlException) ==> Attempts(t) == |policy.sleepDurations| + 1))
            && (!servicesResolve ==> Attempts(t) == 0 && Sleeps(t) == [])
  {
    TraceCount(host, context, policy, servicesResolve, migrator, seeder, IsAttempt);
    TraceSleeps(host, context, policy, servicesResolve, migrator, seeder);
    if servicesResolve {
      RetryAttempts(policy, migrator, seeder, 1);
      RetrySleeps(policy, migrator, seeder, 1);
    }
  }

  // ---------------------------------------------------------------------
  // The routine

  /** The retried body: migrate, then seed unless the migrator threw. */
  method RunAttempt(attempt: nat, migrator: Migrator, seeder: Seeder) returns (calls: seq<Event>, outcome: StepOutcome)
    ensures calls == AttemptEvents(attempt, migrator, seeder)
    ensures outcome == AttemptOutcome(attempt, migrator, seeder)
  {
    calls := [MigratorRun(attempt)];
    outcome := migrator(attempt);
    if outcome.Completed? {
      calls := calls + [SeederRun(attempt)];
      outcome := seeder(attempt);
    }
  }

  /**
   * Proof step for the loop of ExecuteWithRetry, not a model of any source
   * line: after a handled failure with a duration left, what remains to be
   * produced is the attempt's calls, the sleep, and then the rest of the policy.
   */
  lemma RetryStepEvents(policy: RetryPolicy, migrator: Migrator, seeder: Seeder, attempt: nat, retried: seq<Event>)
    requires 1 <= attempt <= |policy.sleepDurations|
    requires AttemptOutcome(attempt, migrator, seeder) == Threw(SqlException)
    ensures var rest := Retry(policy, migrator, seeder, attempt + 1);
            var r := Retry(policy, migrator, seeder, attempt);
            retried + r.events
              == (retried + AttemptEvents(attempt, migrator, seeder) + [Sleep(policy.sleepDurations[attempt - 1])]) + rest.events
            && r.outcome == rest.outcome
  {
    var body := AttemptEvents(attempt, migrator, seeder);
    var sleep := Sleep(policy.sleepDurations[attempt - 1]);
    var rest := Retry(policy, migrator, seeder, attempt + 1);
    assert Retry(policy, migrator, seeder, attempt).events == body + [sleep] + rest.events;
    assert retried + (body + [sleep] + rest.events) == (retried + body + [sleep]) + rest.events;
  }

  /** Proof step for the loop of ExecuteWithRetry, not a model of any source line: the last attempt's calls complete the retried part. */
  lemma RetryLastEvents(policy: RetryPolicy, migrator: Migrator, seeder: Seeder, attempt: nat, retried: seq<Event>)
    requires 1 <= attempt <= |policy.sleepDurations| + 1
    requires AttemptOutcome(attempt, migrator, seeder) != Threw(SqlException) || attempt == |policy.sleepDurations| + 1
    ensures var r := Retry(policy, migrator, seeder, attempt);
            retried + r.events == retried + AttemptEvents(attempt, migrator, seeder)
            && r.outcome == AttemptOutcome(attempt, migrator, seeder)
  {
  }

  /**
   * The policy executing the retried body: it runs the body, sleeps and tries
   * again after a SqlException while durations remain, and otherwise stops
   * with the outcome of the last attempt.
   */
  method ExecuteWithRetry(policy: RetryPolicy, migrator: Migrator, seeder: Seeder)
    returns (retried: seq<Event>, outcome: StepOutcome)
    ensures RetryRun(retried, outcome) == Retry(policy, migrator, seeder, 1)
  {
    var attempt := 1;
    retried := [];
    ghost var rest := Retry(policy, migrator, seeder, 1);
    while true
      invariant 1 <= attempt <= |policy.sleepDurations| + 1
      invariant rest == Retry(policy, migrator, seeder, attempt)
      invariant Retry(policy, migrator, seeder, 1) == RetryRun(retried + rest.events, rest.outcome)
      decreases |policy.sleepDurations| + 1 - attempt
    {
      var calls;
      calls, outcome := RunAttempt(attempt, migrator, seeder);
      if outcome == Threw(SqlException) && attempt <= |policy.sleepDurations| {
        RetryStepEvents(policy, migrator, seeder, attempt, retried);
        retried := retried + calls + [Sleep(policy.sleepDurations[attempt - 1])];
        attempt := attempt + 1;
        rest := Retry(policy, migrator, seeder, attempt);
      } else {
        RetryLastEvents(policy, migrator, seeder, attempt, retried);
        retried := retried + calls;
        return;
      }
    }
  }

  /**
   * The body of the routine, for any retry policy: the scope, the "migrating"
   * entry, the retried part, one outcome entry, the disposal, and the host.
   */
  method MigrateAndSeed(host: Host, context: string, policy: RetryPolicy, servicesResolve: bool,
                        migrator: Migrator, seeder: Seeder)
    returns (result: Completion, trace: seq<Event>)
    ensures trace == MigrationTrace(host, context, policy, servicesResolve, migrator, seeder)
    ensures result == if servicesResolve then Returned(host) else ResolutionFailed
  {
    if !servicesResolve {
      trace := [ScopeCreated(Services(host)), ScopeDisposed];
      result := ResolutionFailed;
      return;
    }
    var retried, outcome := ExecuteWithRetry(policy, migrator, seeder);
    trace := [ScopeCreated(Services(host)), LogMigrating(context)] + retried + [OutcomeLog(context, outcome), ScopeDisposed];
    result := Returned(host);
  }

  /**
   * MigrateDbContext with an async seeder: the routine under the 3 s, 5 s,
   * 8 s policy. At most four attempts; the sleeps are a prefix of 3, 5, 8;
   * one outcome entry; the scope released once; no failure of the retried
   * part escapes and the host comes back unchanged.
   */
  method MigrateDbContext(host: Host, context: string, servicesResolve: bool, migrator: Migrator, seeder: Seeder)
    returns (result: Completion, trace: seq<Event>)
    ensures trace == MigrationTrace(host, context, MigrationRetryPolicy, servicesResolve, migrator, seeder)
    ensures result == if servicesResolve then Returned(host) else ResolutionFailed
    ensures Attempts(trace) <= 4
    ensures servicesResolve ==> 1 <= Attempts(trace) && Sleeps(trace) == [3, 5, 8][..Attempts(trace) - 1]
    ensures servicesResolve ==> CountIf(trace, IsMigratedLog) + CountIf(trace, IsErrorLog) == 1
    ensures CountIf(trace, IsScopeCreation) == 1 && CountIf(trace, IsScopeDisposal) == 1
  {
    result, trace := MigrateAndSeed(host, context, MigrationRetryPolicy, servicesResolve, migrator, seeder);
    AttemptsBounded(host, context, MigrationRetryPolicy, servicesResolve, migrator, seeder);
    OneOutcomeLog(host, context, MigrationRetryPolicy, servicesResolve, migrator, seeder);
    ScopeReleasedOnce(host, context, MigrationRetryPolicy, servicesResolve, migrator, seeder);
  }

  /**
   * The async seeder the synchronous overload builds: it runs the caller's
   * seeder and then returns a completed task. When the seeder throws, the
   * exception leaves the local function before any task exists, so awaiting
   * it fails with that exception.
   */
  function AsAsyncSeeder(seeder: SyncSeeder): (asyncSeeder: Seeder)
    ensures forall attempt :: asyncSeeder(attempt).Completed? <==> seeder(attempt).Returns?
    ensures forall attempt :: seeder(attempt).Raises? ==> asyncSeeder(attempt) == Threw(seeder(attempt).exception)
  {
    (attempt: nat) => if seeder(attempt).Returns? then Completed else Threw(seeder(attempt).exception)
  }

  /**
   * A synchronous seeder behaves as any async seeder that completes when it
   * returns and fails with the exception it raises: the routine's trace is
   * the same.
   */
  lemma SyncSeederActsAsAsync(host: Host, context: string, servicesResolve: bool,
                              migrator: Migrator, seeder: SyncSeeder, asyncSeeder: Seeder)
    requires forall attempt :: (asyncSeeder(attempt).Completed? <==> seeder(attempt).Returns?)
    requires forall attempt :: seeder(attempt).Raises? ==> asyncSeeder(attempt) == Threw(seeder(attempt).exception)
    ensures MigrationTrace(host, context, MigrationRetryPolicy, servicesResolve, migrator, AsAsyncSeeder(seeder))
         == MigrationTrace(host, context, MigrationRetryPolicy, servicesResolve, migrator, asyncSeeder)
  {
    var converted := AsAsyncSeeder(seeder);
    forall attempt: nat
      ensures converted(attempt) == asyncSeeder(attempt)
    {
      if seeder(attempt).Returns? {
        assert converted(attempt) == Completed;
      }
    }
    RetryDependsOnOutcomes(MigrationRetryPolicy, migrator, converted, migrator, asyncSeeder, 1);
  }

  /**
   * MigrateDbContext with a synchronous seeder: the routine over the converted
   * seeder. A raised SqlException is retried like a failed seeding task: after
   * 3 s the whole body runs again.
   */
  method MigrateDbContextWithSyncSeeder(host: Host, context: string, servicesResolve: bool,
                                        migrator: Migrator, seeder: SyncSeeder)
    returns (result: Completion, trace: seq<Event>)
    ensures trace == MigrationTrace(host, context, MigrationRetryPolicy, servicesResolve, migrator, AsAsyncSeeder(seeder))
    ensures result == if servicesResolve then Returned(host) else ResolutionFailed
    ensures Attempts(trace) <= 4
    ensures servicesResolve && migrator(1).Completed? && seeder(1) == Raises(SqlException) ==>
              trace[..6] == [ScopeCreated(Services(host)), LogMigrating(context), MigratorRun(1), SeederRun(1),
                             Sleep(3), MigratorRun(2)]
  {
    result, trace := MigrateDbContext(host, context, servicesResolve, migrator, AsAsyncSeeder(seeder));
    if servicesResolve && migrator(1).Completed? && seeder(1) == Raises(SqlException) {
      SeederFailureRetriesWholeBody(host, context, migrator, AsAsyncSeeder(seeder));
    }
  }

  /**
   * MigrateDbContext without a seeder: seeding is a completed task, so the
   * outcome depends on the migrator alone.
   */
  method MigrateDbContextWithoutSeeder(host: Host, context: string, servicesResolve: bool, migrator: Migrator)
    returns (result: Completion, trace: seq<Event>)
    ensures trace == MigrationTrace(host, context, MigrationRetryPolicy, servicesResolve, migrator, NoSeeding())
    ensures result == if servicesResolve then Returned(host) else ResolutionFailed
    ensures servicesResolve && migrator(1).Completed? ==>
              trace == [ScopeCreated(Services(host)), LogMigrating(context), MigratorRun(1), SeederRun(1),
                        LogMigrated(context), ScopeDisposed]
  {
    result, trace := MigrateDbContext(host, context, servicesResolve, migrator, NoSeeding());
  }

  /**
   * The overloads whose receiver is an ElseExecuteHost: the wrapper itself is
   * migrated and returned (not unwrapped), and the scope comes from the
   * container of the host it wraps.
   */
  method MigrateDbContextOnWrapper(host: ElseExecuteHost, context: string, servicesResolve: bool,
                                   migrator: Migrator, seeder: Seeder)
    returns (result: Completion, trace: seq<Event>)
    ensures trace == MigrationTrace(Wrapper(host), context, MigrationRetryPolicy, servicesResolve, migrator, seeder)
    ensures servicesResolve ==> result == Returned(Wrapper(host)) && result != Returned(Unwrap(host))
    ensures trace[0] == ScopeCreated(Services(Unwrap(host)))
  {
    result, trace := MigrateDbContext(Wrapper(host), context, servicesResolve, migrator, seeder);
    UnwrapRemovesOneLayer(Unwrap(host), host.canElseExecute, false);
  }

  // ---------------------------------------------------------------------
  // Scenarios under the 3 s, 5 s, 8 s policy

  /** Two transient failures, then success: three attempts, sleeps of 3 s and 5 s, "migrated" logged. */
  lemma TransientTwiceThenSuccess(host: Host, context: string, migrator: Migrator, seeder: Seeder)
    requires migrator(1) == Threw(SqlException) && migrator(2) == Threw(SqlException)
    requires migrator(3) == Completed && seeder(3) == Completed
    ensures var t := MigrationTrace(host, context, MigrationRetryPolicy, true, migrator, seeder);
            Attempts(t) == 3 && Sleeps(t) == [3, 5]
            && CountIf(t, IsMigratedLog) == 1 && CountIf(t, IsErrorLog) == 0
  {
    var p := MigrationRetryPolicy;
    RetryStep(p, migrator, seeder, 1);
    RetryStep(p, migrator, seeder, 2);
    RetryStop(p, migrator, seeder, 3);
    AttemptsBounded(host, context, p, true, migrator, seeder);
    OneOutcomeLog(host, context, p, true, migrator, seeder);
  }

  /** Transient failures on every attempt: all four attempts, sleeps 3, 5, 8, one error entry. */
  lemma AlwaysTransient(host: Host, context: string, migrator: Migrator, seeder: Seeder)
    requires forall attempt :: migrator(attempt) == Threw(SqlException)
    ensures var t := MigrationTrace(host, context, MigrationRetryPolicy, true, migrator, seeder);
            Attempts(t) == 4 && Sleeps(t) == [3, 5, 8]
            && t[|t| - 2] == LogError(context, SqlException)
            && CountIf(t, IsMigratedLog) == 0 && CountIf(t, IsErrorLog) == 1
  {
    var p := MigrationRetryPolicy;
    RetryStep(p, migrator, seeder, 1);
    RetryStep(p, migrator, seeder, 2);
    RetryStep(p, migrator, seeder, 3);
    RetryStop(p, migrator, seeder, 4);
    AttemptsBounded(host, context, p, true, migrator, seeder);
    OneOutcomeLog(host, context, p, true, migrator, seeder);
  }

  /** A non-retryable failure on the first attempt: one attempt, no sleep, the error logged, the scope disposed. */
  lemma NonRetryableStopsAtOnce(host: Host, context: string, migrator: Migrator, seeder: Seeder)
    requires migrator(1) == Threw(OtherException)
    ensures MigrationTrace(host, context, MigrationRetryPolicy, true, migrator, seeder)
              == [ScopeCreated(Services(host)), LogMigrating(context), MigratorRun(1),
                  LogError(context, OtherException), ScopeDisposed]
  {
  }

  /** A seeder failure is retried like a migrator failure: the whole body runs again, migrator first. */
  lemma SeederFailureRetriesWholeBody(host: Host, context: string, migrator: Migrator, seeder: Seeder)
    requires migrator(1) == Completed && seeder(1) == Threw(SqlException)
    ensures var t := MigrationTrace(host, context, MigrationRetryPolicy, true, migrator, seeder);
            t[..6] == [ScopeCreated(Services(host)), LogMigrating(context), MigratorRun(1), SeederRun(1),
                       Sleep(3), MigratorRun(2)]
  {
    var p := MigrationRetryPolicy;
    var rest := Retry(p, migrator, seeder, 2);
    assert rest.events[0] == MigratorRun(2);
    assert Retry(p, migrator, seeder, 1).events == [MigratorRun(1), SeederRun(1), Sleep(3)] + rest.events;
  }
}
