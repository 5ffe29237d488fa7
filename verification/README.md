# Runnix: a verified model

Runnix takes code submissions over HTTP, stores each as a row in Postgres, sends a reference to it
through a JetStream queue, and runs it in a Docker sandbox from a pool of dispatcher workers. Nothing
coordinates the processes except guarded `UPDATE` statements and one error class: the sandbox says
whether the container had been started or not. This project models that protocol and proves what it
promises, over every interleaving and every pattern of failures; then the submit quotas that share
its table, the rotation of refresh tokens, the schema migrations that every replica runs at start-up,
and the slugs made from user names.

## How it is built

**The lifecycle** (`Executions`, `Sandbox`, `Lifecycle`). `Exec` is one atomic step of the whole
system; a run is any sequence of steps. Steps belong to gateways, the queue, handlers (one per
delivery), the Docker daemon and reapers. A process that dies takes no further step. A store call is
answered, or lands while its reply is lost, or fails now and may land at any later time, even more
than once for a result write. `LifecycleInv` holds the inductive invariant, `LifecycleTheorems`,
`StatusBudget`, `Recovery` and `QuotaInv` what follows from it for all runs, `Witnesses` and
`QuotaWitnesses` families of runs that meet a bound or refute a stronger promise.

**The code** (`Store`, `Runtime`, `Dispatcher`, `Reaper`, `Gateway`). The table is an object whose
methods are the SQL statements. `World` holds it together with the state and the trace of steps. Each
method of the dispatcher, the reaper and the gateway is proved to take only steps of the lifecycle, with
everybody else's steps (`Schedule`) between any two of its own, for every script of failing calls.
`TableSteps` proves that each step is at most one SQL statement on the table.

**The smaller protocols.** `Sessions` (all orders of token transactions) with `AuthHandlers` (the
endpoints); `Migrations` (replicas that interleave and crash) with `Migrate` (the code of one replica);
`Slug` (the rewriting loop and its one-pass reading).

## Assumptions

- Each SQL statement is atomic, also inside a quota transaction; a tenant's tier does not change. Each
  refresh, logout and log-out-everywhere transaction is one step.
- A `ContainerStart` that reports an error started nothing (internal/dispatcher/sandbox.go:216-218).
- The database clock never goes back. The gateway's clock, which quota checks and token expiry use, is
  arbitrary.
- One submit message is stored per publish, and it is handed out at most `maxDeliver` times.
- All dispatchers talk to one Docker daemon and agree on their settings, and so do all reapers.
- UUID parsing and printing, JSON decoding, token signatures and URL checks are outside; their results
  enter as parameters. Lengths of strings count bytes; characters stand for the runes of the Go code.
- Times are integers in nanoseconds. Counters are unbounded; the conversions to 32 bits are explicit
  (`Sandbox.Wrap32`).

## Where code and comments differ

The model follows the code.

- The worker's comment names two kinds of errors from `handle`; a claim statement that fails is a third
  (internal/dispatcher/dispatcher.go:149-153 and 183-188).
- The header of `Create` lists 202, 400, 403, 429 and 502; it also answers 401, 500 and 503
  (internal/http/handlers/executions.go:95-219).
- `slugify` promises a URL-safe slug; the cut at 40 comes after the trim, so a slug may end in a dash
  (internal/http/handlers/auth.go:401-407). `Slug.StableIff` says exactly when.
- The comments on reaper thresholds ask for lower bounds that the settings do not enforce
  (internal/dispatcher/reaper.go:21-26, internal/config/config.go:106-119). The theorems hold for every
  threshold and say what depends on it.

## Model

| member | source | states |
|---|---|---|
| `LifecycleTheorems.StartedAtMostOnce` | internal/dispatcher/dispatcher.go:163-245 | In every run, with duplicate deliveries, crashes, requeues, reapers and store calls whose outcome is unknown, an execution's container is started at most once |
| `LifecycleTheorems.SingleOwnership` | internal/dispatcher/dispatcher.go:180-203 | At most one delivery holds a claim that can still act on the row; a queued row has no such delivery and was never started |
| `LifecycleTheorems.RequeueUndoesOwnClaim` | internal/store/storedb/executions.sql.go:317-321 | A requeue, on time or late, that changes a row takes back the requeuer's own claim on a running, never started row; it never undoes another claim and never revives a finished row |
| `LifecycleTheorems.ReclaimedWasNeverStarted` | internal/dispatcher/sandbox.go:194-205 | A container that Run could remove by name was never started, and no start has happened for that execution at all |
| `LifecycleTheorems.FirstResultWins` | internal/store/storedb/executions.sql.go:93-97 | From any state whatever, a row that is succeeded, failed or timed out keeps every field through any continuation |
| `LifecycleTheorems.SubmissionIsForever` | internal/store/storedb/executions.sql.go:43-48 | Executions are never lost and their submitted columns never change |
| `LifecycleTheorems.AnnouncedResultIsStored` | internal/dispatcher/dispatcher.go:217-244 | What is announced is the verdict of that delivery; on the success path the row is then finished and holds exactly that result or the reaper's failure, and exactly that result if the write came within the stale threshold of the claim |
| `Witnesses.AnnouncedAfterReap` | internal/dispatcher/reaper.go:57-61 | For every threshold there is a run in which a success is announced whose write came one nanosecond after the threshold, and the row is the reaper's failure; so the condition above cannot be relaxed |
| `LifecycleTheorems.AnnouncementsAgree` | internal/dispatcher/dispatcher.go:204-244 | All announcements about an execution, on the result stream and by webhook, come from one delivery and carry the same status and exit code |
| `LifecycleTheorems.OutcomeDecides` | internal/dispatcher/dispatcher.go:204-243 | Whatever follows the end of a run, its row is still running, is the reaper's failure, or holds exactly what that outcome calls for, column by column, the last if the write was heard within the threshold; and every announcement says the same status and exit code |
| `Sandbox.VerdictSays` | internal/dispatcher/sandbox.go:333-344 | For each kind of outcome, the status, the two streams, and the exit code that is stored (as int32) and announced (as given): timeout, out of memory, success, failure, runner error |
| `LifecycleTheorems.RunnerErrorStaysFailed` | internal/dispatcher/dispatcher.go:204-214 | A webhook after a runner error says failed without exit code, and in every continuation that row is failed or still running, never anything else |
| `LifecycleTheorems.VerdictIsForever` | internal/dispatcher/dispatcher.go:206-230 | Once a run has ended, the result its delivery writes, retries and announces never changes |
| `LifecycleTheorems.AckedIsFinal` | internal/dispatcher/dispatcher.go:149-156 | An acknowledged message is never handed out again, in any continuation |
| `LifecycleTheorems.RunsWhatWasSubmitted` | internal/dispatcher/sandbox.go:219-226 | Whatever happens between the insert and the start, a container that can be started has exactly the inserted source, stdin, timeout and language; the timeout is 1 to 60 and the language has a command |
| `LifecycleTheorems.MessageMatchesRow` | internal/http/handlers/executions.go:206-210 | In every reachable state a stored message still names its row's tenant and language, and the language resolves to a command; that it is the message the gateway built is stated by `Gateway.Create` |
| `LifecycleTheorems.LanguageResolves` | internal/dispatcher/sandbox.go:64-82 | Every language the gateway accepts is a fixed point of the normalisation and has a sandbox command |
| `Sandbox.LanguageByName` | internal/dispatcher/sandbox.go:64-82 | A language is found by its name in any case and with any white space around it; `LanguageTable` lists each one's file and program |
| `LifecycleTheorems.RowShape` | internal/store/storedb/executions.sql.go:93-97 | In every reachable state unfinished rows have no output and no exit code, timeouts no exit code, succeeded rows exit code 0; any output or exit code is the claimant's own verdict; and if all exit statuses survive the narrowing, only succeeded rows have exit code 0 |
| `LifecycleTheorems.NarrowingExact` | internal/dispatcher/dispatcher.go:218-221 | Status succeeded and stored exit code 0 coincide exactly for the outcomes whose exit status does not wrap to 0 |
| `LifecycleTheorems.WrappedExitCodeLooksLikeSuccess` | internal/dispatcher/dispatcher.go:218-221 | Exit status 2^32 is stored as a failure with exit code 0 |
| `LifecycleTheorems.ReapIsPrecise` | internal/store/storedb/executions.sql.go:295-299 | In every reachable state the stale-running sweep changes a row if and only if it is running and stale when the statement lands, and then to the reaper's failure; a delivery that still holds the claim of such a row took it longer ago than the threshold |
| `LifecycleTheorems.SweepIsPrecise` | internal/dispatcher/reaper.go:72-96 | In every reachable state, an update of the stale-queued sweep changes a row if and only if it was listed and is queued, and then it is still stale, whatever claims and requeues came in between |
| `LifecycleInv.CellExecKeeps` | internal/dispatcher/dispatcher.go:163-269 | Every step of any party keeps the invariant of one execution: ownership, starts, row shape, announcements |
| `LifecycleInv.RunKeepsInv` | internal/dispatcher/dispatcher.go:149-269 | Every run keeps the invariant of the whole system |
| `LifecycleInv.CellRowMoves` | internal/store/storedb/executions.sql.go:93-339 | No step changes the submitted columns or created_at, or anything of a finished row |
| `StatusBudget.StatusChangesAreBounded` | internal/dispatcher/dispatcher.go:25-36 | Over any run an execution's status changes at most 2 * maxDeliver + 1 times |
| `Witnesses.StatusBoundIsMet` | internal/dispatcher/dispatcher.go:193-203 | For every maxDeliver some run makes exactly that many changes: each delivery claims and requeues, then the sweep fails the row |
| `Recovery.OnePassSettles` | internal/dispatcher/reaper.go:57-100 | From any reachable state, once more time than both thresholds has passed, one pass of both sweeps that nobody else interrupts leaves every execution in place and none queued or running |
| `Recovery.PassMoves` | internal/dispatcher/reaper.go:57-100 | With anybody's steps before, between and among its statements, a pass changes the status of every execution that is queued or running when it begins |
| `Recovery.EnoughPassesSettle` | internal/dispatcher/reaper.go:15-33 | From any reachable state 2 * maxDeliver + 1 passes settle an execution for good, whatever gateways, deliveries, late statements and other reapers do meanwhile |
| `TableSteps.StepIsSql` | internal/store/storedb/executions.sql.go:93-339 | Every step of the lifecycle changes the table exactly as one of the SQL statements, or not at all |
| `Runtime.OthersKeepCore` | internal/dispatcher/dispatcher.go:163-245 | No step of anybody else, nor a late statement, changes what a handler knows and where it stands |
| `Runtime.World.Claim` | internal/dispatcher/dispatcher.go:180-188 | The claim call is one step of the lifecycle; a row comes back exactly when it was queued and the reply arrived |
| `Runtime.World.Finish` | internal/dispatcher/dispatcher.go:255-257 | One result write is one step of the lifecycle, with the verdict of the run |
| `Dispatcher.CreateByName` | internal/dispatcher/sandbox.go:194-205 | Creating the container, with one removal by name in between and with creates that take effect although an error comes back, is a path of the lifecycle; the handler gets a container only if enough calls succeed, and always if the second round of calls does and nobody interferes |
| `Dispatcher.RunSandbox` | internal/dispatcher/sandbox.go:146-243 | Run is a path of the lifecycle that starts at most one container; not started means the row can be requeued, and an undisturbed run with healthy calls does start |
| `Dispatcher.FinishResult` | internal/dispatcher/dispatcher.go:251-269 | One to three identical writes, all but the last failed, with the fates the store gives them; between them it slept the backoff times 2^(n-1) - 1; it stops early only on success or cancellation |
| `Dispatcher.PersistAndTell` | internal/dispatcher/dispatcher.go:204-244 | After a run: the writes, then the result summary exactly for a clean stored run, the webhook exactly when it is due and handle returns nil |
| `Dispatcher.Handle` | internal/dispatcher/dispatcher.go:163-245 | For every message, failure pattern and interleaving: a message that is no JSON, has no id, no known language or no id that parses, or one that names no row, changes nothing, and only a failing claim call makes an error of it; otherwise the handler ends closed on the path its calls lead to, an error is returned exactly on the failing paths, its own steps in the trace count one claim and then nothing, or one requeue with an error, or one start and one to three writes; the webhook goes out exactly when webhooks are on, the row has a URL and no error is returned; the total backoff is at most 300 ms |
| `Dispatcher.ProcessMessage` | internal/dispatcher/dispatcher.go:149-156 | The same with delivery and settlement: Ack exactly when handle returned nil; a healthy undisturbed delivery of a queued row runs it, and if the first write lands the row ends with exactly what the outcome of the run calls for |
| `Reaper.MarkAll` | internal/dispatcher/reaper.go:85-96 | With anything interleaved the tally never exceeds the rows this sweep moved, and equals them when every call is answered; an update that fails does not stop the others: undisturbed, exactly the listed rows whose update reaches the table are failed |
| `Reaper.ReapStaleQueued` | internal/dispatcher/reaper.go:76-100 | The whole sweep: disabled by a non-positive threshold; otherwise the tally is at most the number of rows moved, and equal to it when every call is answered |
| `Reaper.ReapOnce` | internal/dispatcher/reaper.go:57-70 | An error of the first sweep ends the pass before the second marks anything; others may move before the listing and before every update; an undisturbed error-free pass leaves no stale running and no stale queued row |
| `Quotas.Decide` | internal/quotas/quota.go:84-99 | A submit is allowed if and only if both counts leave room; the hint is a fair share of the hour for an hourly denial and half a minute for an active one |
| `Quotas.TierNumbers` | internal/quotas/quota.go:34-79 | The limits by the name of the tier, in any case and with any white space around it: starter 600 and 5, professional 6000 and 20, enterprise none, anything else 60 and 2 |
| `QuotaInv.ExecKeepsLocks` | internal/quotas/quota.go:101-104 | At most one transaction of a tenant is past the advisory lock |
| `QuotaInv.RunKeepsQuota` | internal/quotas/quota.go:139-201 | Although the two counts are read at two moments, a checked transaction still has room among the admitted rows when it commits, over any interleaving of gateways, handlers and reapers |
| `QuotaInv.ActiveCap` | internal/quotas/quota.go:139-171 | In every run the admitted queued or running rows of a tenant never exceed its limit, and all its active rows never exceed the limit plus the active rows inserted without a check |
| `QuotaInv.TierCap` | internal/quotas/quota.go:36-79 | In every run a starter tenant has at most 5 admitted active rows, a professional one 20, and any other that is not enterprise 2 |
| `QuotaInv.WindowCap` | internal/quotas/quota.go:139-201 | If no check in a window ran more than a skew after its row's created_at, a window of an hour less the skew holds at most the hourly number of admitted rows |
| `QuotaWitnesses.WindowCapIsExact` | internal/quotas/quota.go:175-201 | For every hourly limit from 1, every active limit but zero and every skew up to an hour there is a run, punctual to within the skew, whose window one nanosecond longer holds one admitted row too many: the cap is exact |
| `QuotaWitnesses.HourlyCapFails` | internal/quotas/quota.go:36-79 | The same for every tenant off the enterprise tier: no tier's hourly number is a cap on the full hour |
| `QuotaWitnesses.AdmittedWithoutRoom` | internal/quotas/quota.go:184-200 | The two counts are read by two statements: a transaction can admit a row although the tenant had no room at any single moment |
| `Gateway.Validate` | internal/http/handlers/executions.go:101-173 | Which requests pass, and with which status each other one is refused, by cause; what passes is stored as asked: the trimmed lower-case language, source, stdin, the time limit or two seconds, the URL if there is one, the parsed tenant |
| `Gateway.CheckAndCreate` | internal/quotas/quota.go:139-201 | Among everybody else's steps: an error or a denial leaves nothing behind and an admission exactly the new row, except that a commit whose reply was lost is an error that leaves the row; the answer is decided by the hour's rows at one moment of the call and the active rows at a later one, and an error needs a failing call, a held lock or an unknown tenant |
| `Gateway.InsertOrDeny` | internal/http/handlers/executions.go:174-201 | Quota, fail-open and quota-off branches: no row after a denial, two only if the quota commit was left in doubt; without trouble 429 is answered if and only if the tenant's own rows of the hour, or its own active rows, each at its moment, reach their limit, with the hint of that limit |
| `Gateway.PublishOrFail` | internal/http/handlers/executions.go:204-219 | One publish, which may be stored although an error comes back; if it was not stored and the follow-up write lands, the row is failed, since nobody can have claimed it |
| `Gateway.Create` | internal/http/handlers/executions.go:96-226 | Among everybody else's steps and with writes in doubt, the submit's own steps in the trace are exactly these: on 202 one insert and one publish of that row, and a second insert only if the quota commit was in doubt; on 429 none; on 500 only inserts in doubt; on 502 the insert, no message unless the publish was in doubt, and the failing write; the row is what was requested; a stored message is the one built, names that row, its tenant and its language, and on 202 waits for its first delivery; undisturbed, nothing else in the system changes |
| `Gateway.FailedSubmitIsFinal` | internal/http/handlers/executions.go:211-218 | The row of a 502 whose message was not stored and whose follow-up write landed keeps every field, failed, in every continuation |
| `Sessions.RedeemedAtMostOnce` | internal/http/handlers/auth.go:211-270 | Along any run a jti is redeemed at most once, never after a revocation, and a redemption leaves it revoked with a successor |
| `Sessions.OneSuccessor` | internal/http/handlers/auth.go:174-179 | In every reachable state a token has at most one successor, and a token with one is revoked |
| `Sessions.RunKeepsInv` | internal/http/handlers/auth.go:182-318 | Every order of transactions keeps the lineage: successors unique, predecessors revoked, users equal |
| `Sessions.NeverAgain` | internal/http/handlers/auth.go:219-220 | A token that is revoked or expired is refused in every later state, whoever presents it |
| `Sessions.FreshTokenWorks` | internal/http/handlers/auth.go:219-265 | A token neither redeemed nor logged out since it was made can be redeemed by its user and nobody else until seven days later, and not after |
| `Sessions.NoLateChild` | internal/http/handlers/auth.go:174-179 | Nothing is minted from a token after it is revoked |
| `Sessions.OneLivePerSession` | internal/http/handlers/auth.go:182-278 | A session, a token and all that descends from it, never has two live tokens |
| `Sessions.LogoutEndsSession` | internal/http/handlers/auth.go:284-296 | Logging a live token out kills its whole session for ever, past and future descendants of its root included |
| `Sessions.LogoutAllEndsSessions` | internal/http/handlers/auth.go:302-318 | No token from before a LogoutAll, nor anything that ever descends from one, refreshes again |
| `Sessions.LiveBound` | internal/http/handlers/auth.go:302-318 | A user's live tokens never exceed the sessions opened since the last LogoutAll |
| `Sessions.LiveAlongRun` | internal/http/handlers/auth.go:182-387 | Live tokens grow by at most the sessions opened; without logouts by exactly that, so rotation neither mints nor loses a session |
| `AuthHandlers.TokenTable.Redeem` | internal/http/handlers/auth.go:219-220 | Revokes and returns the owner exactly when the token exists, belongs to the subject, is unrevoked and unexpired |
| `AuthHandlers.TokenTable.RevokeAllRefreshTokens` | internal/store/storedb/auth_tokens.sql.go:144-154 | Revokes every live token of the user, no other, and reports how many |
| `AuthHandlers.Refresh` | internal/http/handlers/auth.go:182-278 | 200 exactly when the whole rotation committed and was heard to; 401 exactly when the guard fails or the user is gone; the table changes exactly when the commit stood |
| `AuthHandlers.FreshTokenRefreshes` | internal/http/handlers/auth.go:182-278 | A Refresh with such a token goes through whenever every call does |
| `AuthHandlers.WriteSession` | internal/http/handlers/auth.go:343-387 | Opens one session, or nothing; a token is handed out only if its row is stored |
| `AuthHandlers.Logout` | internal/http/handlers/auth.go:284-296 | Always 200; revokes the presented jti if there is one and the statement lands |
| `AuthHandlers.LogoutAll` | internal/http/handlers/auth.go:302-318 | 200 only when none of the caller's tokens is left live |
| `Migrations.CommittedIsPrefix` | internal/store/migrate.go:14-45 | For any number of replicas that interleave, crash and leave commits in doubt, the committed scripts are a prefix of the sorted list, each once |
| `Migrations.ShippedIsSorted` | internal/store/migrate.go:30-31 | The embedded scripts are in lexical order of their names |
| `Migrations.NilMeansApplied` | internal/store/migrate.go:39-44 | A Migrate that returned nil has its whole list applied, then and ever after |
| `Migrations.OneAtATime` | internal/store/migrate.go:56-62 | At most one replica holds an uncommitted claim, and it is on the first pending version |
| `Migrations.RunKeepsInv` | internal/store/migrate.go:49-75 | Every run keeps: the table is the log, the log a prefix, each replica at most as far as the log |
| `Migrations.BlockedGoesOn` | internal/store/migrate.go:56-62 | Whichever way the transaction that a waiting INSERT waits for ends, by an abort or by a commit on time or late, the INSERT then goes on: it claims the version, or skips it if the commit landed |
| `Migrate.ApplyMigration` | internal/store/migrate.go:49-75 | Applies or skips one version as steps of the protocol, among others' steps; an error needs a failing call or a wait given up |
| `Migrate.Migrate` | internal/store/migrate.go:18-45 | Nil means the list is applied; an error has a cause in some call |
| `Migrate.Versions` | internal/store/migrate.go:26-37 | All files of the listing, nothing else, in strictly ascending order |
| `Slug.Slugify` | internal/http/handlers/auth.go:390-412 | Terminates on every input and equals the one-pass reading: maximal runs of letters and digits of the lowered name joined by single dashes, cut to 40, `tenant` if empty |
| `Slug.Collapse` | internal/http/handlers/auth.go:401-404 | The ReplaceAll loop ends, and with exactly the joined runs |
| `Slug.SlugShape` | internal/http/handlers/auth.go:390-412 | 1 to 40 characters of a-z, 0-9 and dash, no leading dash, no two dashes in a row |
| `Slug.NamesKept` | internal/http/handlers/auth.go:390-412 | A name of up to 40 letters and digits is its own slug, in lower case |
| `Slug.FallbackUsed` | internal/http/handlers/auth.go:408-410 | A name without an ASCII letter or digit gets the slug `tenant` |
| `Slug.StableIff` | internal/http/handlers/auth.go:401-407 | Taking the slug again changes nothing if and only if the cut does not fall on a dash |
| `Slug.StableAfterTwo` | internal/http/handlers/auth.go:401-407 | The slug of the slug is always a fixed point |
| `Slug.UnstableSlug` | internal/http/handlers/auth.go:401-407 | A 41-character name whose slug ends in a dash and changes when it is taken again |

## Left out

- Docker, NATS and Postgres clients: foreign code; their outcomes are arbitrary choices.
- `wait`, `readLogs`, `truncateOutput` and the tar of the work files: how the result of a run is put
  together; the outcome of a run is arbitrary.
- `Sweep`, `EnsureImage` and the boot sequence: housekeeping over the Docker daemon; removals by others
  are a step of the lifecycle.
- Webhook delivery over HTTP, its retries and its URL and DNS checks: network work.
- JWT, bcrypt, HMAC and random numbers: uninterpreted; fresh ids are parameters.
- Router, middleware, list and get handlers, API keys, sign-up and its slug retry: plumbing or
  single-branch checks.
- The columns submitted_by_user_id and submitted_by_api_key_id: written once and never read by the
  protocol.
- Postgres visibility inside overlapping token transactions: each transaction is one step.
- QuotaInv.WindowCap: no cap on the full hour, because created_at is the start of the transaction and the
  check reads a clock later; the cap holds for an hour less the largest lag, and for no longer window.
- Gateway.Create: a write in doubt has landed by the time of the answer or never does; in the lifecycle it
  may also land later, and the theorems about runs cover that.
- Gateway.LockTx: the wait for the advisory lock is one look after everybody else has moved.
- Reaper.MarkNext: an update that fails now and lands after a later statement of the same sweep does not
  occur in the method; in the lifecycle it may land at any time, and the theorems about runs cover that.
- Dispatcher.ProcessMessage: one message of the worker loop; the loop around it and the pause after a
  failed fetch are not modelled.
- Migrate.ClaimVersion: a blocked INSERT is given up after a number of moves of the others, which is
  arbitrary; the code waits until its context ends.
