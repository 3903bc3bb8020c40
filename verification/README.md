# Synercoding.HostExtensions in Dafny

This project models the two pieces of Synercoding.HostExtensions that hold
control flow:

- **The conditional chain** over a generic host: `ExecuteIf`, `ElseIf` and
  `Else`, with the `ElseExecuteHost` wrapper that carries the chain's one bit
  of state (`CanElseExecute`). At most one branch of a chain runs. Once a
  branch has run, no later predicate is evaluated. `Else` is the only way
  back to a plain host.
- **The guarded migrate-and-seed routine** of the Entity Framework package
  (`_migrateDbContext`). It opens a dependency-injection scope and logs that
  migration starts. It then runs "migrate, then seed" under a wait-and-retry
  policy that handles `SqlException` only and waits 3 s, 5 s and 8 s. It logs
  either success or exactly one error and swallows the failure. Finally it
  disposes the scope and returns the host it was given.

Modules, one per C# class:

- `Hosting` (hosting.dfy) models `ElseExecuteHost` and the host values it wraps. A host is a
  runtime host or a wrapper, and a wrapper forwards `Services`, `Dispose`,
  `StartAsync` and `StopAsync` to the host it wraps.
- `ExecuteIfExtensions`, `ExecuteElseIfExtensions` and `ExecuteElseExtensions`
  model the three extension classes. Each operation returns its value together
  with the calls it made into the caller's predicate and action, in order.
- `ConditionalChain` states what a whole chain guarantees.
- `MigrateDbContextExtensions` models the routine:
  - `ExecuteWithRetry` is a method with the retry loop, proved against the
    specification function `Retry`. `MigrateAndSeed` wraps it in the scope
    and the log entries and is proved against `MigrationTrace`. The
    properties of both specification functions are lemmas.
  - The migrator and the seeder are oracles that give the outcome of each
    attempt.
  - Logging, sleeping, the migrator and seeder calls, and the scope's lifetime
    are recorded as a trace of events.

Points where the code may surprise a reader:

- `ExecuteIf` returns a plain `IHost`, not a chain handle. No public member
  creates an `ElseExecuteHost`, because its constructor is internal. A chain
  here therefore starts from the constructor with the flag set
  (`ElseExecuteHost(h, true)`).
- `ElseIf` and `Else` pass the wrapper itself, as an `IHost`, to the predicate
  and the action, not the host it carries.
- When `ElseIf`'s predicate fails, it wraps the incoming wrapper once more, so
  wrappers nest.
- A closed `ElseIf` returns the same wrapper. A closed `Else` returns the
  wrapped host (`Unwrap`). An open `Else` returns whatever its action returns.

## Model

| member | source | states |
|---|---|---|
| Hosting.Unwrap | src/Synercoding.HostExtensions/ElseExecuteHost.cs:41-42 | Rebuilding a wrapper from the unwrapped host and its flag gives back the same wrapper: exactly one layer is removed |
| Hosting.Innermost | src/Synercoding.HostExtensions/ElseExecuteHost.cs:12-18 | Under any stack of wrappers there is a runtime host: a runtime host is its own innermost host, and a wrapper's is that of the host it wraps |
| Hosting.Services | src/Synercoding.HostExtensions/ElseExecuteHost.cs:26-27 | A wrapper's Services is the container of the runtime host beneath it |
| Hosting.Receivers | src/Synercoding.HostExtensions/ElseExecuteHost.cs:30-39 | Dispose, StartAsync and StopAsync pass through one host per layer, each wrapper handing on to the host it wraps, and end at the innermost runtime host |
| Hosting.WrappingIsTransparent | src/Synercoding.HostExtensions/ElseExecuteHost.cs:26-39 | Wrapping a host keeps its Services and its runtime host, and prepends the wrapper to the forwarding path |
| Hosting.UnwrapRemovesOneLayer | src/Synercoding.HostExtensions/ElseExecuteHost.cs:41-42 | Unwrapping a wrapper around a wrapper yields the inner wrapper, which differs from the host beneath it |
| ExecuteIfExtensions.ExecuteIf | src/Synercoding.HostExtensions/ExecuteIfExtensions.cs:57-62 | The predicate is evaluated once, first. The action runs once exactly when the predicate holds, and the result is the action's value; otherwise it is the host itself |
| ExecuteIfExtensions.ActionIrrelevantWhenFalse | src/Synercoding.HostExtensions/ExecuteIfExtensions.cs:57-62 | When the predicate fails, the action has no influence on the result or on the calls made |
| ExecuteIfExtensions.TwoExecuteIfsAreIndependent | src/Synercoding.HostExtensions/ExecuteIfExtensions.cs:57-90 | Two chained ExecuteIf calls are independent conditionals: both actions can run, the second on the first's result |
| ExecuteElseIfExtensions.ElseIf | src/Synercoding.HostExtensions/ExecuteElseIfExtensions.cs:57-65 | A closed wrapper is passed through with no call. An open one has its predicate evaluated once on the wrapper. Firing runs the action once and closes the chain around its result; not firing re-wraps and stays open. The flag never rises |
| ExecuteElseIfExtensions.OpenElseIfIsExecuteIf | src/Synercoding.HostExtensions/ExecuteElseIfExtensions.cs:57-65 | On an open wrapper, ElseIf equals ExecuteIf on the wrapper, re-wrapped with the flag "predicate failed" |
| ExecuteElseIfExtensions.ClosedElseIfIgnoresBranch | src/Synercoding.HostExtensions/ExecuteElseIfExtensions.cs:59-60 | On a closed wrapper the predicate and the action make no difference |
| ExecuteElseExtensions.Else | src/Synercoding.HostExtensions/ExecuteElseExtensions.cs:41-47 | Closed: the wrapped host comes back and nothing is called. Open: the action runs exactly once, on the wrapper, and its result comes back. No predicate is evaluated |
| ExecuteElseExtensions.OpenElseIsUnconditional | src/Synercoding.HostExtensions/ExecuteElseExtensions.cs:41-47 | An open Else returns what ExecuteIf with an always-true predicate returns |
| ExecuteElseExtensions.ClosedElseIgnoresAction | src/Synercoding.HostExtensions/ExecuteElseExtensions.cs:43-44 | A closed Else returns the same host whatever its action |
| ConditionalChain.ElseIfs | src/Synercoding.HostExtensions/ExecuteElseIfExtensions.cs:57-65 | A run of ElseIf links records one call list per link |
| ConditionalChain.Chain | src/Synercoding.HostExtensions/ExecuteElseExtensions.cs:41-47 | A chain closed by Else records one call list per link, the Else included |
| ConditionalChain.ClosedPassesThrough | src/Synercoding.HostExtensions/ExecuteElseIfExtensions.cs:59-60 | A closed wrapper passes through any number of ElseIf links unchanged, and every link makes no call |
| ConditionalChain.FlagFallsOnceAction | src/Synercoding.HostExtensions/ExecuteElseIfExtensions.cs:57-65 | Over any run of ElseIf links the flag only falls. Exactly one action runs if an open wrapper came out closed, and none otherwise, so at most one runs |
| ConditionalChain.ShortCircuit | src/Synercoding.HostExtensions/ExecuteElseIfExtensions.cs:57-65 | On an open chain, a link evaluates its predicate once exactly when no earlier link ran an action; after that, links make no call |
| ConditionalChain.NothingAfterFiring | src/Synercoding.HostExtensions/ExecuteElseIfExtensions.cs:59-60 | Once a link has run its action, every later link is silent |
| ConditionalChain.ExactlyOneAction | src/Synercoding.HostExtensions/ExecuteElseExtensions.cs:41-47 | A whole chain closed by Else runs exactly one action when it starts open and none when it starts closed; a closed chain returns the wrapped host |
| ConditionalChain.ElseIfsKeepRuntimeHost | src/Synercoding.HostExtensions/ExecuteElseIfExtensions.cs:62-64 | If every action keeps the runtime host, so does every run of ElseIf links |
| ConditionalChain.ChainKeepsRuntimeHost | src/Synercoding.HostExtensions/ExecuteElseExtensions.cs:41-47 | If every action keeps the runtime host, the chain's result sits over the same runtime host |
| ConditionalChain.SecondBranchFires | src/Synercoding.HostExtensions/ExecuteElseIfExtensions.cs:57-65 | First predicate false, second true: exactly the second action runs, the Else action does not, and each link sees its own wrapper |
| ConditionalChain.FirstBranchFires | src/Synercoding.HostExtensions/ExecuteElseIfExtensions.cs:59-60 | First predicate true: the second predicate is never evaluated and no other action runs |
| MigrateDbContextExtensions.AttemptEvents | src/Synercoding.HostExtensions.EntityFramework/MigrateDbContextExtensions.cs:239-245 | One execution of the retried body calls the migrator first, and then the seeder exactly when the migrator completed |
| MigrateDbContextExtensions.AttemptOutcome | src/Synercoding.HostExtensions.EntityFramework/MigrateDbContextExtensions.cs:239-245 | The body completes exactly when migrator and seeder both complete; otherwise it fails with the first failure |
| MigrateDbContextExtensions.OutcomeLog | src/Synercoding.HostExtensions.EntityFramework/MigrateDbContextExtensions.cs:249-254 | After the retried part, "migrated" is logged exactly on success; otherwise the error is logged with the exception that escaped |
| MigrateDbContextExtensions.Retry | src/Synercoding.HostExtensions.EntityFramework/MigrateDbContextExtensions.cs:211-246 | Defines the wait-and-retry execution of the body from a given attempt: after a handled SqlException with a duration left it sleeps that duration and runs the body again; otherwise it stops with the body's outcome. Every run starts with the migrator call of the current attempt |
| MigrateDbContextExtensions.MigrationTrace | src/Synercoding.HostExtensions.EntityFramework/MigrateDbContextExtensions.cs:222-258 | Defines the whole trace of `_migrateDbContext`: the scope opened from the host's Services first and disposed last; when logger and context resolve, "migrating" right after the scope, then the retried part and one outcome entry |
| MigrateDbContextExtensions.RetryStep | src/Synercoding.HostExtensions.EntityFramework/MigrateDbContextExtensions.cs:211-217 | A SqlException with a duration left costs one attempt and one sleep of the next duration, then the policy goes on with the next attempt |
| MigrateDbContextExtensions.RetryStop | src/Synercoding.HostExtensions.EntityFramework/MigrateDbContextExtensions.cs:211-217 | Success, any other exception, or no duration left ends the policy after this attempt, with no sleep |
| MigrateDbContextExtensions.RetryEventsOnly | src/Synercoding.HostExtensions.EntityFramework/MigrateDbContextExtensions.cs:238-246 | The retried part produces nothing but migrator and seeder calls and sleeps |
| MigrateDbContextExtensions.RetryAttempts | src/Synercoding.HostExtensions.EntityFramework/MigrateDbContextExtensions.cs:211-217 | The policy makes at least one attempt and at most one more than it has durations, and lets a SqlException out only after every retry is spent |
| MigrateDbContextExtensions.RetrySleeps | src/Synercoding.HostExtensions.EntityFramework/MigrateDbContextExtensions.cs:211-217 | The policy sleeps one time fewer than it attempts, and the sleeps are its durations in order, starting at the current one |
| MigrateDbContextExtensions.RetryDependsOnOutcomes | src/Synercoding.HostExtensions.EntityFramework/MigrateDbContextExtensions.cs:238-246 | The retried part depends on the migrator and seeder only through what they do on each attempt |
| MigrateDbContextExtensions.TraceCount | src/Synercoding.HostExtensions.EntityFramework/MigrateDbContextExtensions.cs:226-255 | Any count over a whole trace is the count over the scope events, plus, when logger and context resolve, the "migrating" entry, the retried part and the outcome entry |
| MigrateDbContextExtensions.TraceSleeps | src/Synercoding.HostExtensions.EntityFramework/MigrateDbContextExtensions.cs:226-255 | All the sleeping in a trace happens in the retried part, and none when logger or context does not resolve |
| MigrateDbContextExtensions.ScopeReleasedOnce | src/Synercoding.HostExtensions.EntityFramework/MigrateDbContextExtensions.cs:226-255 | On every path the scope is created first, from the host's Services, and disposed last, each exactly once |
| MigrateDbContextExtensions.OneOutcomeLog | src/Synercoding.HostExtensions.EntityFramework/MigrateDbContextExtensions.cs:230-254 | If logger and context resolve: "migrating" is logged once, then exactly one outcome entry ("migrated" on success, the error otherwise). If not, nothing is logged |
| MigrateDbContextExtensions.AttemptsBounded | src/Synercoding.HostExtensions.EntityFramework/MigrateDbContextExtensions.cs:238-246 | At most one attempt more than the policy has durations. If logger and context resolve: at least one attempt, sleeps equal to a prefix of the durations, and an escaping SqlException means every attempt was used |
| MigrateDbContextExtensions.RunAttempt | src/Synercoding.HostExtensions.EntityFramework/MigrateDbContextExtensions.cs:239-245 | The body method makes the calls, and ends with the outcome, that the body's specification gives |
| MigrateDbContextExtensions.ExecuteWithRetry | src/Synercoding.HostExtensions.EntityFramework/MigrateDbContextExtensions.cs:238-246 | The retry loop produces exactly the events and the escaping outcome that the policy's specification gives |
| MigrateDbContextExtensions.MigrateAndSeed | src/Synercoding.HostExtensions.EntityFramework/MigrateDbContextExtensions.cs:222-258 | The routine's loop produces exactly the specified trace. It returns the given host whenever logger and context resolve, whatever the migrator and seeder do |
| MigrateDbContextExtensions.MigrateDbContext | src/Synercoding.HostExtensions.EntityFramework/MigrateDbContextExtensions.cs:207-220 | Under the 3 s, 5 s, 8 s policy: at most four attempts and sleeps a prefix of 3, 5, 8; the host is returned; one outcome log; the scope is created and disposed once |
| MigrateDbContextExtensions.AsAsyncSeeder | src/Synercoding.HostExtensions.EntityFramework/MigrateDbContextExtensions.cs:191-195 | The converted seeder completes on an attempt exactly when the synchronous seeder returns, and a raised exception becomes a failure with that same exception |
| MigrateDbContextExtensions.SyncSeederActsAsAsync | src/Synercoding.HostExtensions.EntityFramework/MigrateDbContextExtensions.cs:187-197 | A synchronous seeder gives the same trace as any async seeder that completes when it returns and fails with the exception it raises |
| MigrateDbContextExtensions.MigrateDbContextWithSyncSeeder | src/Synercoding.HostExtensions.EntityFramework/MigrateDbContextExtensions.cs:187-197 | The routine over the converted seeder: at most four attempts, the host returned, and a raised SqlException retried like a failed seeding task (3 s sleep, then the migrator again) |
| MigrateDbContextExtensions.NoSeeding | src/Synercoding.HostExtensions.EntityFramework/MigrateDbContextExtensions.cs:176 | The seeder used when the caller gives none completes on every attempt |
| MigrateDbContextExtensions.MigrateDbContextWithoutSeeder | src/Synercoding.HostExtensions.EntityFramework/MigrateDbContextExtensions.cs:172-177 | Without a seeder, seeding always completes; when the first migration completes the trace is exactly scope, "migrating", one migration, one call of the no-op seeder, "migrated", dispose |
| MigrateDbContextExtensions.MigrateDbContextOnWrapper | src/Synercoding.HostExtensions.EntityFramework/MigrateDbContextExtensions.cs:79-116 | On a wrapper the wrapper itself is migrated and returned, not the host it carries, and the scope comes from the wrapped host's container |
| MigrateDbContextExtensions.TransientTwiceThenSuccess | src/Synercoding.HostExtensions.EntityFramework/MigrateDbContextExtensions.cs:211-249 | Two SqlExceptions then success: three attempts, sleeps of 3 s then 5 s, "migrated" logged and no error |
| MigrateDbContextExtensions.AlwaysTransient | src/Synercoding.HostExtensions.EntityFramework/MigrateDbContextExtensions.cs:211-254 | SqlException on every attempt: all four attempts, sleeps 3, 5, 8, exactly one error entry (the SqlException, just before dispose), no "migrated" |
| MigrateDbContextExtensions.NonRetryableStopsAtOnce | src/Synercoding.HostExtensions.EntityFramework/MigrateDbContextExtensions.cs:251-254 | Any other exception on the first attempt: one attempt, no sleep, the error logged, the scope disposed |
| MigrateDbContextExtensions.SeederFailureRetriesWholeBody | src/Synercoding.HostExtensions.EntityFramework/MigrateDbContextExtensions.cs:239-245 | A seeder SqlException retries the whole body: after a 3 s sleep, the migrator runs again before the seeder |

## Left out

- Sync and async overloads are one operation each. An awaited predicate, action, seeder or `Task` receiver is modelled by its awaited value. This covers the `Task<IHost>`, `Task<ElseExecuteHost>` and `Task<THost>` receivers and the `Func<IHost, Task<...>>` callbacks. A task that faults or is cancelled is not modelled.
- Predicates and actions are total functions: a predicate or action that throws, synchronously or through a faulted task, is not modelled. In the code such an exception leaves `ExecuteIf`, `ElseIf` or `Else` and no later link of the chain runs. The seeder's own exceptions are modelled (`SyncResult`, `StepOutcome`).
- `ExecuteOnDevelopment`, `ExecuteOnStaging` and `ExecuteOnProduction` are `ExecuteIf` with a predicate that reads the host environment. The environment lookup goes into the dependency-injection container, so these helpers are covered by `ExecuteIf` with an arbitrary predicate and are not modelled separately.
- `IHostExtensions.RunAsync` and the seed delegate types in `Delegates.cs` are not part of this model. The first is process I/O; the second holds type declarations only.
- Polly, Entity Framework, the dependency-injection container and the logger are outside the model. The migrator's and the seeder's effects are oracles that give each attempt's outcome. The log entries keep only the context type's name and the exception kind.
- Exceptions are reduced to two kinds, `SqlException` and any other, because the policy handles only `SqlException`.
- Sleeps are recorded as durations in seconds; no clock is modelled. Cancellation tokens are not modelled.
- `servicesResolve` stands for resolving the logger (`GetRequiredService`) and the context (`GetService`) succeeding. Both happen outside the try (lines 230-232 of MigrateDbContextExtensions.cs): an exception from either propagates and only the scope is disposed. A `CreateScope` failure is not modelled.
- `GetService<TContext>` may return null. The model folds that into the migrator's outcome, since the migrator then throws something other than `SqlException`.
- `StartAsync`, `StopAsync` and `Dispose` are modelled only as the path of hosts a call passes through (`Receivers`), not as effects.
- Hosts are never null: an action that returns null is not modelled. The code would pass it on unchecked: `ExecuteIf` returns it, `ElseIf` wraps it and `Else` hands it back through `Unwrap`, and `Services`, `Dispose`, `StartAsync` and `StopAsync` on such a wrapper throw `NullReferenceException`. `Innermost`, `Services` and `Receivers` rely on every wrapper carrying a host.
- ElseExecuteHost identity: C# compares wrappers by reference, while the model compares them as values. Two wrappers built from the same host and flag are equal here.
