# OCI panel: verified models

A Dafny model of the stateful core of the panel's backend: the queue that keeps trying to create a
cloud instance, the firewall rule lists, login and sessions, and two text formats. Each part is
modelled from the Go source; the imperative code is written as methods and classes, each proved equal
to a specification function, and the properties are proved about those functions and about runs of
them.

`dafny verify dfyconfig.toml` checks the project.

## What is modelled

**Queued creation** (`LaunchErrors`, `LaunchAttempt`, `TaskCreation`, `TaskWorker`, `WorkerBudgets`,
`TaskOutcomes`, `WorkerRotation`, `DailyCap`, `TaskLife`, `TaskLifeSafety`, `TaskLifeLimits`, `TaskHalts`,
`TaskRuns`, `TaskScheduler`, `AccountLease`). The cloud is the list of instances under the task's display name plus what each
retry token created. A launch call is up to three sends under one token; each may land or not, and be
answered or lost.
`TaskWorker` is the worker loop, one script entry per round; before each round the other handlers may have
changed the task. `TaskLife` is one task as a step system: CreateTask's attempts, worker rounds split at the
launch call, start, stop, lockdown, restart, health pause, panics, a cancellation whose row is still to be
written, and requests that land late, interleaved in any order. `TaskLifeSafety` holds what every such run
keeps, and `TaskLifeLimits` shows that the conditions there are exact. `TaskRuns` shows that every run of
the worker loop and of CreateTask's attempts is a run of steps, and `TaskScheduler` proves the registry code
against the step functions for all tasks at once.

**Firewall** (`Decimal`, `Dedup`, `FirewallRules`, `RuleMerging`, `SecurityBaseline`, `NsgBatches`).
Rules, the printed keys that identify them, and the packets they admit. The CIDR test is a parameter
`covers(source, address)`; a source is an opaque string.

**Authentication** (`SessionTokens`, `LoginLockout`, `AuthServer`, `AuthSafety`, `CodeAttempts`,
`SessionLife`). Tokens are their claims, Redis keys are values with an expiry second, one-time codes are a
function of user and 30-second step. Handlers are atomic steps over one server state.

**Text** (`OciConfig`, `ConfigComments`, `YamlScalar`). The parser of pasted OCI configs and the quoter for
cloud-init passwords, with a reader of double-quoted scalars after sections 5.7 and 7.3.1 of YAML 1.2.

Time is whole seconds. Clocks, random pauses, answers of OCI, of the database and of Redis are
parameters of the step they belong to.

### Where the code and its own documentation differ

- `RETRY_MAX_LAUNCHES_PER_DAY` is documented per task and day (backend/internal/config/config.go:33);
  the counter lives in the worker run, and CreateTask's synchronous attempts are not counted at all. What
  a task makes on a day is at most its synchronous attempts plus the cap for every run that launches, and
  that bound is reached (`DailyCap.BoundIsReached`), so the documented cap holds exactly for one launching
  run without synchronous attempts, or for at most as many synchronous attempts as the cap without any
  launching run (`DailyCap.CapPerTaskAndDayExactly`; a single restart: `WorkerBudgets.RestartStartsANewCount`).
- A second-step token is meant to be consumed by the fifth wrong code. The address limit is answered first,
  so a wrong code that is the fifteenth of its address leaves the token (exactly when:
  `AuthSafety.WrongCodeConsumesExactly`). The token then takes one more code for every address that is
  locked (`CodeAttempts.WrongCodesAreBounded`, reached for every number of them:
  `CodeAttempts.BoundIsReached`), and from
  an immune address, which is answered as locked but never banned, codes without end
  (`CodeAttempts.ImmuneAddressHasNoBound`).
- The 24-hour ban for 12 wrong passwords is never imposed by serial requests: the 30-minute ban after
  the sixth outlasts the counter (`LoginLockout.CountersStopAtTheBan`).
- A password change invalidates "all prior tokens", but the version is not checked for second-step
  tokens (`AuthSafety.BumpSparesSecondStepTokens`; session tokens do end: `AuthSafety.OldVersionsAreOut`).
- Logging out with a token more than an hour old still issues a fresh one first
  (`AuthSafety.LogoutExactly`).
- A rule key is meant to identify a rule by its effect, but shows no source ports. It does so exactly when
  rules under one key agree on their source ports wherever those matter (`FirewallRules.KeyIsEffectExactly`);
  otherwise an existing rule swallows a wanted one (`RuleMerging.SourcePortRuleSwallows`; exactly when
  nothing is lost: `RuleMerging.SwallowedExactly`). The group's key shows no source ports either
  (`NsgBatches.GroupHidesSourcePorts`; exactly: `NsgBatches.NsgKeyIncludesExactly`), and no statefulness
  (`NsgBatches.StatelessIsShadowed`; exactly what is kept: `NsgBatches.FormIsKeptExactly`).
- A config header followed by a comment is not a header, so its keys overwrite those of the section
  above (`OciConfig.CommentedHeaderBleeds`; exactly when keys stay apart: `OciConfig.SeparatesExactly`).
- A comment behind a value is cut off, but one behind an empty value is read as the value
  (`ConfigComments.CommentIsDroppedExactly`).
- Domains are meant to be tried in rotation. A round that the daily cap holds back takes its turn without an
  attempt, so its domain is passed over (`WorkerRotation.HeldRoundSkipsItsDomain`; exactly which domain every
  round aims at: `WorkerRotation.AimsGoRound`).

## Model

| member | source | states |
|---|---|---|
| `LaunchErrors.DecisionsAgree` | backend/internal/engine/worker.go:198-213 | the three decisions on an error fit: a resent or unknown-outcome error is never classified as capacity or rate limit, and a definite refusal is never resent unless it is 409 IncorrectState |
| `LaunchErrors.CapacityMessageExactly` | backend/internal/oci/instance.go:364-367 | a message speaks of capacity exactly when it has one of two phrases, however capitalised |
| `LaunchErrors.CategoriesExactly` | backend/internal/engine/classifier.go:32-75 | which errors are throttling, lack of capacity, passing, fatal and a cancellation, status by status: fatal exactly for a service answer outside 409, 429, 500, 502, 503, 504 and for an unknown kind of failure |
| `LaunchErrors.OpenOutcomeExactly` | backend/internal/engine/worker.go:198-213 | after which errors the instance may exist, and after which the call is sent again |
| `LaunchAttempt.FindExistingInstance` | backend/internal/engine/worker.go:177-196 | finds the first instance of the name that is not terminated; a failed lookup counts as not found |
| `LaunchAttempt.ConfirmLaunchedInstance` | backend/internal/engine/worker.go:218-229 | the confirmation loop stops at the first of at most three lookups that finds the instance |
| `LaunchAttempt.LookupFindsLive` | backend/internal/engine/worker.go:189-195 | a lookup answers exactly when a live instance of the name exists, and names a live one |
| `LaunchAttempt.ConfirmFinds` | backend/internal/engine/worker.go:215-229 | one answered lookup among the three decides the confirmation |
| `LaunchAttempt.LaunchSite.AttemptLaunch` | backend/internal/engine/worker.go:235-305 | the attempt's effect on task row, history and result for every sequence of sends, lookups and cancellations |
| `TaskOutcomes.FailureExactly` | backend/internal/engine/worker.go:253-303 | how a call that did not succeed is judged, by its error and whether its context is live |
| `TaskOutcomes.RecordExactly` | backend/internal/engine/worker.go:268-303 | an attempt is on record under its number, once, with its outcome, unless it was cancelled; the number is stored unless the context was gone; nothing else of row and history changes |
| `TaskOutcomes.ExistedExactly` | backend/internal/engine/worker.go:238-248 | an attempt reports an instance as found exactly when its first lookup named it, and then leaves row and history alone |
| `LaunchAttempt.SendsEffect` | backend/internal/oci/instance.go:315-360 | a call sends under one token, so it creates one instance or none whatever is lost or resent, and an OCID it returns is that instance's |
| `LaunchAttempt.SendsAtMostThree` | backend/internal/oci/instance.go:333-360 | a call sends three times at most |
| `LaunchAttempt.ThirdSendDecides` | backend/internal/oci/instance.go:333-360 | after two errors that may pass the third send is the answer |
| `LaunchAttempt.DefiniteFinalError` | backend/internal/engine/worker.go:198-213 | with honest tokens, a call that ends on a definite refusal created nothing |
| `LaunchAttempt.SuccessExactly` | backend/internal/engine/worker.go:231-305 | for every attempt, success and "a live instance exists" differ exactly when the attempt overlooks one: its first lookup found none, one was there or a send landed, and neither the answer nor a confirmation lookup named it; with accurate lookups that means a send landed and the call still ended on a definite refusal |
| `LaunchAttempt.LostAnswerIsNotFailure` | backend/internal/engine/worker.go:215-266 | with honest tokens an attempt succeeds exactly when a live instance of the name exists on return, even if the task was stopped before or during the call or the first lookup failed with no instance there |
| `LaunchAttempt.ThrottledResendHidesInstance` | backend/internal/oci/instance.go:333-360 | without that assumption it fails: a lost first send and a throttled resend report a rate limit beside a live instance |
| `LaunchAttempt.AttemptAddsAtMostOne` | backend/internal/engine/worker.go:235-305 | an attempt adds an instance exactly when its first lookup found none, the context was live and a send landed; never more than one |
| `TaskWorker.CapacityPollWait` | backend/internal/engine/worker.go:125-139 | the pause between checks lies between the corrected bounds, never under 30 seconds |
| `TaskWorker.Poll` | backend/internal/engine/worker.go:470-563 | a round up to the launch call: which exit, pause or attempt, in a domain of the report or the task's own list, and what is written to the row |
| `TaskWorker.TryLaunch` | backend/internal/engine/worker.go:565-608 | a round from the launch call on: final statuses, budgets, back-off and pause |
| `TaskOutcomes.LaunchesExactly` | backend/internal/engine/worker.go:470-566 | a round launches, once and under the next number, exactly when the task still waits and is not older than its days of 24 hours, no other account holds the lock, the report shows room or there is none, and the cap leaves room |
| `TaskOutcomes.QuietRoundExactly` | backend/internal/engine/worker.go:470-563 | a round without an attempt writes failed when the account is gone, stopped when the time is up, the round number when the report answered, and nothing else; and exactly when the loop goes on after it |
| `TaskOutcomes.LaunchRoundExactly` | backend/internal/engine/worker.go:565-608 | after an attempt the task is successful under the OCID found, failed when no retry can help, stopped when its budget is spent, and otherwise still running, in which case alone the loop goes on |
| `TaskOutcomes.RoundRecordsExactly` | backend/internal/engine/worker.go:268-303 | what a launching round puts on record, and exactly when its number is stored |
| `TaskOutcomes.ReportUseExactly` | backend/internal/engine/worker.go:513-522 | the report is asked until it says that the tenancy cannot use it, and never again in the run |
| `TaskOutcomes.RoundFailsExactly` | backend/internal/engine/classifier.go:32-75 | a failed attempt ends the task, or is worth another, exactly by the error its call came back with to a live context |
| `TaskOutcomes.RunEndsExactly` | backend/internal/engine/worker.go:416-610 | where a whole run leaves its task: failed, stopped or successful if and only if its last round saw the causes listed |
| `WorkerRotation.RoundAims` | backend/internal/engine/worker.go:511-563 | a round aims at the entry of the list in force that the count of earlier aims points at: the domains the report shows room in, or the task's own without a report; the cap only decides whether it is tried |
| `WorkerRotation.AimsGoRound` | backend/internal/engine/worker.go:545-553 | over a run aim number k goes to entry k modulo its length of the list in force, whatever lists the reports show |
| `WorkerRotation.AttemptsAreAims` | backend/internal/engine/worker.go:556-566 | the attempts of a run go to its aims that the cap let through, in order |
| `WorkerRotation.EveryDomainOnce` | backend/internal/engine/worker.go:545-553 | while a list of n distinct domains stays the same, n aims in a row visit each exactly once |
| `WorkerRotation.AttemptsGoRound` | backend/internal/engine/worker.go:545-553 | without a daily cap the attempts of a run themselves go round |
| `WorkerRotation.HeldRoundSkipsItsDomain` | backend/internal/engine/worker.go:550-563 | with a cap a round it holds back takes its turn: two days' attempts go to the same of two domains |
| `TaskWorker.RunTaskWorker` | backend/internal/engine/worker.go:416-610 | the worker's whole run, from the reads before its loop on, against a recursive specification of runs |
| `WorkerBudgets.DailyCapHolds` | backend/internal/engine/worker.go:506-509 | with days that never go back, no calendar day sees more attempts of one run than a positive cap |
| `WorkerBudgets.RestartStartsANewCount` | backend/internal/config/config.go:33-36 | whatever the cap, one included, a task restarted on the same day from where its first run left it launches twice |
| `DailyCap.DayTotalIsBounded` | backend/internal/engine/worker.go:506-509 | on any day a task makes at most its synchronous attempts of that day plus the cap for every run that launches on it, whatever else happens |
| `DailyCap.BoundIsReached` | backend/internal/config/config.go:33-36 | for every cap, number of starts and number of synchronous attempts, a task nobody else touches reaches that bound |
| `DailyCap.CapPerTaskAndDayExactly` | backend/internal/config/config.go:33-36 | of tasks with n launching runs and k synchronous attempts on a day all keep to the cap exactly when n is 1 and k is 0, or n is 0 and k is within the cap |
| `TaskCreation.CreateTask` | backend/internal/api/handlers_task.go:241-348 | the synchronous attempts, one per domain, in the order of the report or of the task's list, until one decides, and the final status written over whatever the row says |
| `TaskOutcomes.CreationEndsExactly` | backend/internal/api/handlers_task.go:241-348 | creation tries its candidates until one attempt is not worth another, and the task ends successful, failed or stopped exactly as that attempt says |
| `WorkerBudgets.OwnBudgetHolds` | backend/internal/engine/worker.go:597-602 | a run never makes more attempts than a positive MaxRetries, and reaching it on a retryable failure stops the task |
| `WorkerBudgets.BackoffIsCappedPower` | backend/internal/engine/worker.go:580-595 | after every attempt of every run the factor is min(8, 2^k), k counting rate-limited attempts since the last capacity or transient one |
| `WorkerBudgets.PausesAreBounded` | backend/internal/engine/worker.go:580-608 | every pause lies between the poll bounds, times the factor exactly after a rate limit |
| `TaskLife.RegistryAlwaysAgrees` | backend/internal/engine/scheduler.go:18-74 | over every interleaving a task has at most one live uncancelled worker, and is reported active exactly when it has one |
| `TaskLife.StepKeepsRegistry` | backend/internal/engine/scheduler.go:20-95 | every step keeps the registered handle equal to the one uncancelled worker |
| `TaskLife.OldWorkerLeavesNewRegistration` | backend/internal/engine/scheduler.go:56-71 | a dying older worker removes neither a newer registration nor its worker |
| `TaskHalts.StatusMovesExactly` | backend/internal/engine/scheduler.go:38-133 | what every step does to the status, step by step |
| `TaskHalts.WorkersMoveExactly` | backend/internal/engine/scheduler.go:20-133 | and to the workers and their registration |
| `TaskHalts.NewTaskExactly` | backend/internal/api/handlers_task.go:200-224 | a task starts as being created, with attempt number 1 to make |
| `TaskHalts.LockdownHalts` | backend/internal/engine/scheduler.go:76-133 | a lockdown, and a stop, leaves no worker registered or uncancelled and the task not running, whatever happened before |
| `TaskHalts.LockdownHolds` | backend/internal/engine/scheduler.go:117-133 | over every run from a lockdown to the next start that goes through, process restarts included, the task is not running, has no new worker, and no worker sends a request |
| `TaskHalts.StopHolds` | backend/internal/engine/scheduler.go:77-95 | the same from a stop |
| `TaskHalts.RestartExactly` | backend/internal/engine/scheduler.go:98-114 | a process restart gives exactly the running tasks whose row could be written one fresh worker; requests on their way stay |
| `TaskRuns.RoundIsRun` | backend/internal/engine/worker.go:470-610 | a round of the loop is a run of steps to the same world, with the worker back at the top exactly when the loop goes on and no request left on its way, whenever its context ends |
| `TaskRuns.WorkerRunIsRun` | backend/internal/engine/worker.go:416-610 | every run of the worker loop, with any steps of other handlers in its pauses and its context ending anywhere, is a run of the step system to the same world |
| `TaskRuns.CreationIsRun` | backend/internal/api/handlers_task.go:279-348 | the same for CreateTask's attempts and final write |
| `TaskLife.StepKeepsTokens` | backend/internal/oci/instance.go:315-360 | every step keeps all tokens in use older than the next one |
| `TaskLifeSafety.AtMostOneCreation` | backend/internal/engine/worker.go:176-305 | over every run from a new task, restarts, overlaps, crashes and late requests included, the cloud holds at most one instance of the name, if each lookup before a launch sees what was sent before and answers once an instance exists |
| `TaskLifeSafety.InstanceStep` | backend/internal/engine/worker.go:238-251 | every step keeps instances and requests on their way to one in all, if a lookup before a launch has settled |
| `TaskLifeSafety.SuccessIsFinal` | backend/internal/engine/worker.go:314-326 | from a new task on, no run of any steps leaves success or changes its OCID, whatever lookups and calls answer, if a start waits until no launch call is in flight and CreateTask has returned |
| `TaskLifeSafety.SuccessNamesTheInstance` | backend/internal/engine/worker.go:573-578 | with settled lookups a task marked success names the one live instance of the cloud, overlapping workers included, if an OCID the service returns is the one the token created |
| `TaskLifeSafety.SuccessNamesALiveInstance` | backend/internal/engine/worker.go:573-578 | on that last condition alone it names a live instance, whatever the lookups answer and even when a definite refusal hides a landed request |
| `TaskLifeSafety.StoppedTaskStillSucceeds` | backend/internal/engine/scheduler.go:76-95 | a launch in flight when the task is stopped still ends in success with a live instance's OCID, whatever steps came before and come in between (failed lookups and late requests included), if an instance exists when the call returns with its OCID or with an open outcome |
| `TaskLifeSafety.HistoryStrictlyIncreases` | backend/internal/engine/worker.go:268-303 | recorded attempt numbers strictly increase over CreateTask's attempts and all later runs and never pass the stored counter, whatever lookups and calls answer, if a start waits until no launch call is in flight and CreateTask has returned |
| `TaskLifeLimits.SettledExactly` | backend/internal/engine/worker.go:238-251 | that condition is exact per step: from one instance or request in all, no arrival of requests makes two after the step if and only if its lookup has settled |
| `TaskLifeLimits.SecondInstanceExactly` | backend/internal/engine/worker.go:238-251 | and over runs: of all runs from a new task those with settled lookups are the ones at no point of which the requests then on their way can make two |
| `TaskLifeLimits.UnsettledCreatesTwo` | backend/internal/engine/worker.go:238-251 | the two instances after any step whose lookup has not settled |
| `TaskLifeLimits.UnsettledLookupCreatesTwo` | backend/internal/engine/worker.go:238-251 | for instance from any stopped task with a request still on its way |
| `TaskLifeLimits.LateRequestCreatesTwo` | backend/internal/engine/worker.go:238-251 | and in a run from a new task |
| `TaskLifeLimits.StartMustWaitExactly` | backend/internal/engine/scheduler.go:37-54 | from every state such a run reaches, a start that goes through keeps every later success, and all later numbers in order, if and only if no launch call of the task is in flight and CreateTask has returned |
| `TaskLifeLimits.OverlapCostsSuccess` | backend/internal/engine/scheduler.go:37-54 | otherwise a continuation with honest replies overwrites success by stopped |
| `TaskLifeLimits.OverlapCostsOrder` | backend/internal/engine/scheduler.go:37-54 | and one records an attempt number out of order |
| `TaskLifeLimits.OverlapLosesSuccess` | backend/internal/engine/scheduler.go:37-54 | such a run in full from a new task: success is overwritten by stopped, and attempt number 1 is recorded twice |
| `TaskScheduler.CancelMoves` | backend/internal/engine/scheduler.go:21-29 | cancelling moves this task as the step system says and leaves every other task where it was |
| `TaskScheduler.StartMoves` | backend/internal/engine/scheduler.go:38-74 | the same for starting, whether or not the row could be written |
| `TaskScheduler.StopMoves` | backend/internal/engine/scheduler.go:77-95 | the same for stopping |
| `TaskScheduler.ExitMoves` | backend/internal/engine/scheduler.go:56-71 | the same for a worker's deferred clean-up |
| `TaskScheduler.StopAllViews` | backend/internal/engine/scheduler.go:127-132 | the bulk update by status stops exactly the tasks in that status |
| `TaskScheduler.EveryTaskAgrees` | backend/internal/engine/scheduler.go:18-35 | every task in memory has at most one live uncancelled worker, and is active exactly when it has one |
| `TaskScheduler.Scheduler.CancelWorker` | backend/internal/engine/scheduler.go:21-29 | cancels and unregisters the task's worker, if it has one |
| `TaskScheduler.Scheduler.IsTaskActive` | backend/internal/engine/scheduler.go:32-35 | true exactly when a live uncancelled worker of the task exists |
| `TaskScheduler.Scheduler.StartTask` | backend/internal/engine/scheduler.go:38-74 | refines the start step for the task and no other: earlier workers cancelled, one fresh one registered and the row running, or neither when the row could not be written |
| `TaskScheduler.Scheduler.StopTask` | backend/internal/engine/scheduler.go:77-95 | refines the stop step for the task and no other: its workers cancelled and unregistered, the row stopped if running or being created |
| `TaskScheduler.Scheduler.WorkerDone` | backend/internal/engine/scheduler.go:57-71 | refines the exit step: compare-and-delete of its own registration |
| `TaskScheduler.Scheduler.PanicLockdown` | backend/internal/engine/scheduler.go:117-133 | refines the lockdown step for every task: no worker registered, every worker cancelled, every running task stopped, no other status, OCID or counter changed |
| `TaskScheduler.Scheduler.ResumeAllRunningTasks` | backend/internal/engine/scheduler.go:98-114 | refines the restart step for every task, whether or not the tasks can be read and whichever status writes fail: exactly the running tasks read and written have a worker |
| `AccountLease.AccountLock.AcquireAccountLock` | backend/internal/cache/redis.go:70-102 | succeeds exactly when the lock is free or the caller's; otherwise changes nothing and names the holder a second read finds, if any |
| `AccountLease.AccountLock.ReleaseAccountLock` | backend/internal/cache/redis.go:80-108 | deletes only the caller's own lock |
| `AccountLease.GrantsNeverOverlap` | backend/internal/cache/redis.go:87-102 | over every interleaving of profiles and the clock no two grants share an instant, each running to its last refresh's end or its holder's release |
| `AccountLease.HeldExactlyByCoveringGrant` | backend/internal/cache/redis.go:87-102 | a profile holds the lock exactly when one of its grants covers the present |
| `AccountLease.LeaseLastsExactly` | backend/internal/cache/redis.go:70-108 | a lease lasts exactly its time from the last acquire or refresh, or until its holder lets go; then the lock is anybody's |
| `AccountLease.RefusedStepsAreIdle` | backend/internal/cache/redis.go:79-85 | refused acquires and foreign releases change nothing |
| `FirewallRules.PortTextInjective` | backend/internal/oci/network.go:664-672 | two port ranges print alike exactly when they admit the same ports |
| `FirewallRules.IcmpTextInjective` | backend/internal/oci/network.go:680-688 | the same for ICMP options |
| `FirewallRules.KeyIsShape` | backend/internal/oci/network.go:692-712 | for rules without a bar and with ICMP options alone, equal keys mean exactly equal protocol, source, ranges and statefulness |
| `FirewallRules.ShapeDecidesTraffic` | backend/internal/oci/network.go:692-712 | rules of one shape without source ports admit the same packets |
| `FirewallRules.KeyIncludesExactly` | backend/internal/oci/network.go:692-712 | under one key, what one rule admits the other admits exactly when its source ports lie within the other's |
| `FirewallRules.KeyIsEffectExactly` | backend/internal/oci/network.go:692-712 | two rules under one key admit the same packets exactly when their source ports agree wherever the rule applies |
| `FirewallRules.SourcePortsAreHidden` | backend/internal/oci/network.go:699-704 | two rules under one key, one of which admits a packet the other refuses |
| `FirewallRules.UnreadableKeys` | backend/internal/oci/network.go:693-712 | the model's conditions on bars and option blocks are needed |
| `FirewallRules.KeyAsShown` | backend/internal/oci/network.go:692-712 | the key as a client sees it, part by part |
| `FirewallRules.TextsAsShown` | backend/internal/oci/network.go:664-688 | ranges and ICMP options as a client sees them |
| `Decimal.PrintReadsBack` | backend/internal/oci/network.go:664-672 | printed integers read back as themselves |
| `Decimal.PrintIsCanonical` | backend/internal/oci/network.go:664-672 | without leading zeros, and a minus sign exactly for a negative number |
| `Dedup.MissingResumes` | backend/internal/oci/network.go:715-732 | after a prefix of the missing items exactly the rest is missing |
| `Dedup.KeepsExactly` | backend/internal/oci/network.go:715-732 | an item carries a key in the end exactly when it is an existing item of the key or, if there is none, the first wanted one |
| `RuleMerging.BuildIngressRule` | backend/internal/oci/network.go:114-172 | a rule is built exactly for a valid request, and admits exactly the packets the request asked for |
| `RuleMerging.PortsAskedExactly` | backend/internal/oci/network.go:114-172 | how two port bounds read: none, one, both, out of order or out of range |
| `RuleMerging.MergeIngressRules` | backend/internal/oci/network.go:715-732 | the map-and-append loop adds the wanted rules whose key is free, each key once, in order, and counts them |
| `RuleMerging.MergeIsIdempotent` | backend/internal/oci/network.go:714-732 | existing rules stay in front, and a second merge adds nothing |
| `RuleMerging.AddingMissingPreservesTraffic` | backend/internal/oci/network.go:714-732 | for any key, where some rule that carries the key in the end stands in for each wanted one, adding the missing rules lets in exactly what both lists let in |
| `RuleMerging.MergePreservesTraffic` | backend/internal/oci/network.go:692-732 | deduplication preserves meaning: the merged list lets in, tracked or untracked, exactly what the existing or the wanted rules let in |
| `RuleMerging.MergePreservesWhereSourcePortsFit` | backend/internal/oci/network.go:692-732 | the same for rules with source ports, where those of each wanted rule lie within those of a rule that carries its key in the end |
| `RuleMerging.SwallowedExactly` | backend/internal/oci/network.go:714-732 | an existing rule swallows a wanted one under its key, and nothing is lost exactly when the wanted source ports lie within the existing ones |
| `RuleMerging.SourcePortRuleSwallows` | backend/internal/oci/network.go:714-732 | a list with a source-port rule keeps the wanted wide rule, and its packet, out |
| `RuleMerging.RemoveByKey` | backend/internal/oci/network.go:195-203 | the deletion loop keeps the rules of other keys in order and counts the rest |
| `RuleMerging.DeletionTakesOneShape` | backend/internal/oci/network.go:185-216 | after deleting a rule's key the list lets in exactly what its rules of other shapes let in |
| `RuleMerging.DeleteUndoesAdd` | backend/internal/oci/network.go:175-216 | deleting the key of a rule just added restores the list |
| `RuleMerging.SecurityList.ApplyIngressRules` | backend/internal/oci/network.go:734-765 | all or nothing: merged on success, unchanged on any error, refused exactly when the limit of 200 would be passed by additions |
| `RuleMerging.SecurityList.DeleteSecurityRule` | backend/internal/oci/network.go:185-216 | removes every rule of the key; an unknown key is an error and changes nothing |
| `SecurityBaseline.IsMinimalSecurityList` | backend/internal/oci/network.go:612-646 | two flags and one pass accept exactly the lists whose ingress is, as a multiset, the baseline of the VCN, with open egress |
| `SecurityBaseline.ResetSecurityListToMinimal` | backend/internal/oci/nsg_bulk.go:130-173 | what reset writes is minimal for every VCN, with or without CIDR and IPv6, by its CIDR or else the first of its CIDRs |
| `SecurityBaseline.MinimalForOneVcn` | backend/internal/oci/network.go:603-609 | a minimal list is recognised with its own VCN's CIDR only |
| `SecurityBaseline.MinimalOpensNoPort` | backend/internal/oci/nsg_bulk.go:130-133 | a minimal list lets in, tracked, its two kinds of ICMP and nothing else |
| `NsgBatches.ListNSGIngressRules` | backend/internal/oci/nsg.go:130-159 | all pages in order; one unreadable page spoils the listing |
| `NsgBatches.ListedKeys` | backend/internal/oci/nsg.go:143-153 | the key recomputed from a listing is the key of the rules themselves |
| `NsgBatches.ProtocolsAsShown` | backend/internal/oci/network.go:648-663 | protocols as the listing names them |
| `NsgBatches.Batch` | backend/internal/oci/nsg_bulk.go:42-53 | the batch is exactly the missing rules in order |
| `NsgBatches.RequestsAreExact` | backend/internal/oci/nsg_bulk.go:54-64 | every request carries 1 to 25 rules, and the first n requests are the first 25 n rules |
| `NsgBatches.AddNSGRules` | backend/internal/oci/nsg_bulk.go:36-65 | when request j is refused the group holds the old rules and exactly the 25 j counted ones; otherwise all missing rules, sent in those requests |
| `NsgBatches.NextRunAddsTheRest` | backend/internal/oci/nsg_bulk.go:35-65 | the run after a partial failure adds exactly the rest, and the one after that nothing |
| `NsgBatches.AddNSGRule` | backend/internal/oci/nsg.go:162-203 | adds one rule exactly when its key is not listed |
| `NsgBatches.ClearNSGRules` | backend/internal/oci/nsg_bulk.go:100-128 | rules go 25 per request in listing order; when request j is refused exactly the first 25 j are gone |
| `NsgBatches.NsgKeyIsEffect` | backend/internal/oci/nsg_bulk.go:19-21 | for well-formed rules the group's key is exactly protocol, source and range |
| `NsgBatches.NsgKeyIncludesExactly` | backend/internal/oci/nsg_bulk.go:19-21 | under one key of the group, what one rule admits the other admits exactly when its source ports lie within the other's |
| `NsgBatches.GroupHidesSourcePorts` | backend/internal/oci/nsg_bulk.go:46-53 | a group with a source-port rule keeps the wanted wide rule, and its packet, out |
| `NsgBatches.PortsFitWithoutRanges` | backend/internal/oci/nsg_bulk.go:23-33 | rules without source-port ranges meet the two conditions below |
| `NsgBatches.GroupLetsInBoth` | backend/internal/oci/nsg_bulk.go:35-65 | tracking aside, a completed run lets in exactly what the group or the wanted rules let in, where the source ports of each wanted rule lie within those of a rule that carries its key in the end |
| `NsgBatches.GroupPreservesTracking` | backend/internal/oci/nsg_bulk.go:35-65 | with tracking too, where that rule has the wanted rule's form |
| `NsgBatches.FormIsKeptExactly` | backend/internal/oci/nsg_bulk.go:46-53 | a wanted rule is represented in its own form exactly when the group had that form, or had neither and the first wanted rule of the key has it |
| `NsgBatches.StatelessIsShadowed` | backend/internal/oci/nsg_bulk.go:19-21 | asking for the other form of a rule the group has adds nothing |
| `SessionTokens.IssueSessionToken` | backend/internal/auth/auth.go:56-89 | a token is issued exactly more than a minute before the cap, and expires within both caps |
| `SessionTokens.StartSurvivesRenewal` | backend/internal/auth/auth.go:91-114 | exactly when a renewal keeps the session start |
| `SessionTokens.SessionDiesAtCap` | backend/internal/auth/auth.go:38-39 | along any chain of renewals the start is unchanged and no token outlives start + 30 days |
| `SessionTokens.ActiveClientIsNeverLoggedOut` | backend/internal/auth/auth.go:40-42 | a client never idle longer than 7 days less an hour is accepted every time before start + 30 days - 60 s |
| `SessionTokens.BoundsAreTight` | backend/internal/auth/auth.go:33-43 | one second more on either bound is refused for some client |
| `LoginLockout.FailureCounters.RecordLoginFailure` | backend/internal/cache/redis.go:161-183 | counts in a sliding window, bans at 6 and 12, never bans an immune address |
| `LoginLockout.FailureCounters.IsIpBlacklisted` | backend/internal/cache/redis.go:113-122 | the gate closes exactly for a banned address that is not immune |
| `LoginLockout.CountersStopAtTheBan` | backend/internal/cache/redis.go:18-29 | over every serial run the password counter never passes 6, the code counter never 15, and no 24-hour login ban is imposed |
| `LoginLockout.AnswerRateIsBounded` | backend/internal/cache/redis.go:159-183 | any span D of such a run holds at most 6 (D / 30 min + 1) wrong-password answers, and 15 (D / 30 min + 1) wrong-code answers |
| `LoginLockout.SixthPasswordBans` | backend/internal/cache/redis.go:159-183 | up to five wrong passwords in a row, each within half an hour of the last, leave an address in; the sixth bans it for exactly 30 minutes |
| `LoginLockout.FifteenthCodeBans` | backend/internal/cache/redis.go:192-213 | up to fourteen wrong codes in a row leave it in; the fifteenth bans it for exactly an hour |
| `LoginLockout.CountersForget` | backend/internal/cache/redis.go:161-168 | a counter is gone exactly half an hour after its last failure |
| `LoginLockout.BanLengthsExactly` | backend/internal/cache/redis.go:169-183 | the ban for every count of either counter, immune addresses aside |
| `LoginLockout.ScannerIsBanned` | backend/internal/security/security.go:163-171 | in a run a scanner is banned for exactly a day |
| `AuthServer.VerifyCodeIsWindow` | backend/internal/auth/auth.go:191-200 | a code is accepted exactly when it belongs to a step within its 90 seconds |
| `AuthServer.AuthService.LoginStep1` | backend/internal/api/handlers_auth.go:103-140 | the gate, then a second-step token for the right password, or a counted failure |
| `SessionLife.PasswordOpensSecondStep` | backend/internal/api/handlers_auth.go:103-140 | the right password from an address that is let in gives one token, good for the second step from the same device for five minutes and no longer; anything else gives none |
| `AuthServer.AuthService.SpringTrap` | backend/internal/security/security.go:161-171 | a scanner or honeypot hit bans an address that is not immune for a day |
| `SessionLife.TrapBansForADay` | backend/internal/security/security.go:161-171 | exactly 24 hours, and nothing for an address that is immune or banned already |
| `SessionLife.BannedIsShutOut` | backend/internal/security/security.go:157-161 | until its ban is over a banned address is told only that it is blocked, whatever it and everybody else send, and the ban is neither shortened nor prolonged |
| `AuthServer.AuthService.CheckTempToken` | backend/internal/api/handlers_auth.go:153-173 | the refusals before the code check, in their order |
| `SessionLife.TempRefusalsExactly` | backend/internal/api/handlers_auth.go:153-173 | each refusal exactly |
| `AuthServer.AuthService.Verify2FAStep2` | backend/internal/api/handlers_auth.go:143-232 | the second step's whole effect, in its order of checks, counters, locks and revocations |
| `SessionLife.LoginOpensSession` | backend/internal/api/handlers_auth.go:196-214 | a right and unused code logs in and nothing else does: exactly one session of the user who gave the password, accepted at once from that device and good for seven days; both counters of the address are back at zero |
| `SessionLife.SessionEndsExactly` | backend/internal/auth/auth.go:203-264 | in every continuation that session is accepted until it expires, its user's version is bumped or it is logged out itself, and no longer |
| `SessionLife.BumpEndsSessions` | backend/internal/auth/auth.go:254-257 | a version bump ends the sessions of its user and no other |
| `AuthServer.AuthService.RecordTotpFailure` | backend/internal/cache/redis.go:192-213 | counts a wrong code per token and per address, and bans the address at 15 |
| `AuthServer.AuthService.CheckAndSetTotpUsed` | backend/internal/cache/redis.go:216-223 | takes the 90-second lock on a code, or reports it taken |
| `AuthServer.AuthService.RequireAuth` | backend/internal/auth/auth.go:203-264 | the session checks, then the renewal |
| `SessionLife.SessionRefusalsExactly` | backend/internal/auth/auth.go:225-257 | each refusal exactly |
| `SessionLife.RequestRenews` | backend/internal/auth/auth.go:91-114 | a request signs exactly one token when a renewal is due, of the same user, version, device and session start and accepted at once, and otherwise none; nothing else changes |
| `SessionLife.KeysLastExactly` | backend/internal/cache/redis.go:225-239 | a blacklist entry and a token's failure counter last exactly their time |
| `AuthServer.AuthService.Logout` | backend/internal/api/handlers_auth.go:235-245 | the request's own checks and renewal, then seven days on the blacklist |
| `AuthSafety.ServerStepKeeps` | backend/internal/api/handlers_auth.go:143-245 | every handler keeps token lifetimes, counters and revocations consistent |
| `AuthSafety.SecondStepTokenIsSingleUse` | backend/internal/api/handlers_auth.go:158-206 | in any run a second-step token logs in at most once, and a sixth wrong code on it means one of them was answered as the one too many for its address |
| `AuthSafety.WrongCodeConsumesExactly` | backend/internal/api/handlers_auth.go:183-194 | a wrong code consumes the token exactly when it is at least its fifth and its address stays below fifteen |
| `AuthSafety.SixthWrongCodeIsAnswered` | backend/internal/api/handlers_auth.go:182-194 | when the fifth wrong code is the fifteenth of its address, a sixth from another address is still answered |
| `CodeAttempts.WrongCodesAreBounded` | backend/internal/api/handlers_auth.go:182-194 | in any run at most five wrong codes are answered on a token, and one more for every address that is locked on it, immune addresses aside |
| `CodeAttempts.BoundIsReached` | backend/internal/api/handlers_auth.go:182-194 | for every number of addresses a run from a fresh start reaches the bound, with all of them locked |
| `CodeAttempts.SixWrongCodesOnOneToken` | backend/internal/api/handlers_auth.go:182-194 | in particular six wrong codes with one address locked |
| `CodeAttempts.ImmuneAddressGuessesOn` | backend/internal/cache/redis.go:192-213 | from an immune address with a full counter any number of wrong codes on one token is answered and the token stays good |
| `CodeAttempts.ImmuneAddressHasNoBound` | backend/internal/api/handlers_auth.go:182-194 | a run from a fresh start that gets there, with any number of wrong codes answered on one token |
| `AuthSafety.DeadIsRefused` | backend/internal/cache/redis.go:225-239 | a revoked token is expired or still on the blacklist at every instant |
| `AuthSafety.RevokedStaysRevoked` | backend/internal/api/handlers_auth.go:234-245 | a revoked token never gets through again in any continuation, although its entry expires |
| `AuthSafety.LogoutExactly` | backend/internal/auth/auth.go:101-114 | logout revokes for good, and leaves a fresh live token exactly when a renewal was due |
| `AuthSafety.OldVersionsAreOut` | backend/internal/auth/auth.go:254-257 | after a version bump no older session token gets through again |
| `AuthSafety.BumpSparesSecondStepTokens` | backend/internal/api/handlers_auth.go:269-272 | a bump leaves second-step tokens as they were |
| `AuthSafety.CodeAcceptedOncePerStep` | backend/internal/api/handlers_auth.go:199-203 | no run accepts the code of one step twice for a user while the step is good |
| `AuthSafety.ReplayNeedsALateLock` | backend/internal/api/handlers_auth.go:182-203 | a second handler with a locked code is let in exactly from 90 seconds after that lock on, so it must wait longer between check and lock than the first lock came after the step's start |
| `AuthSafety.LateLockReplays` | backend/internal/api/handlers_auth.go:182-203 | and one second of waiting is enough: both handlers are let in |
| `OciConfig.ParseOCIConfig` | backend/internal/api/handlers_profile.go:57-104 | one pass with a current profile equals cutting the text into sections and reading each by its last assignments |
| `OciConfig.SectionsDoNotBleed` | backend/internal/api/handlers_profile.go:55-56 | lines that start with a header are parsed on their own, whatever precedes them |
| `OciConfig.TextsDoNotBleed` | backend/internal/api/handlers_profile.go:68-69 | the same for texts |
| `OciConfig.SeparatesExactly` | backend/internal/api/handlers_profile.go:55-104 | lines are parsed on their own behind every text exactly when those before their first header assign none of the five keys |
| `OciConfig.NoiseChangesNothing` | backend/internal/api/handlers_profile.go:70-82 | a blank line, a comment or a line that is neither header nor assignment changes nothing anywhere |
| `OciConfig.BracketOpensSection` | backend/internal/api/handlers_profile.go:49 | a bracketed line opens a section exactly when its last character closes the bracket |
| `ConfigComments.AssignmentReads` | backend/internal/api/handlers_profile.go:78-88 | an assignment may be indented, its key capitalised and followed by blanks; what is behind its first equals sign is trimmed |
| `ConfigComments.HeaderReads` | backend/internal/api/handlers_profile.go:49 | a header may be indented, and its name is what stands between its brackets, trimmed |
| `ConfigComments.NoiseReads` | backend/internal/api/handlers_profile.go:70-73 | blank lines and lines that start with a hash or a semicolon, indented or not, say nothing |
| `ConfigComments.CutExactly` | backend/internal/api/handlers_profile.go:86-88 | a value ends before the first blank and hash, trimmed |
| `ConfigComments.CommentedReads` | backend/internal/api/handlers_profile.go:83-88 | a comment behind a value is dropped; behind no value it becomes the value |
| `ConfigComments.CommentIsDroppedExactly` | backend/internal/api/handlers_profile.go:86-88 | a plain value with a comment reads as itself exactly when it is not empty |
| `ConfigComments.CommentedSectionReadsBackExactly` | backend/internal/api/handlers_profile.go:91-102 | a written section whose assignments all carry comments reads back as its profile exactly when no value is empty |
| `OciConfig.CommentedHeaderBleeds` | backend/internal/api/handlers_profile.go:73-77 | a header followed by a comment hands its keys to the section above |
| `OciConfig.WrittenReadsBack` | backend/internal/api/handlers_profile.go:91-102 | a plainly written section reads back as its profile, field by field |
| `OciConfig.AllWrittenReadBack` | backend/internal/api/handlers_profile.go:57-104 | a config of any number of plainly written sections reads back as the same profiles |
| `YamlScalar.QuoteReadsBack` | backend/internal/oci/instance.go:234-237 | reading a quoted string gives it back and stops at its own end whatever follows, exactly for strings without control characters other than tab |
| `YamlScalar.QuoteInjective` | backend/internal/oci/instance.go:216 | two passwords are never written alike in whatever document |

## Left out

- Atomicity: each HTTP handler, scheduler call and Redis script is one step, except that a worker round is cut
  at its pauses and its launch call, and a stop or start also after its cancellation. Two interleaved
  StartTask calls for one task are not covered.
- TaskLifeSafety.AtMostOneCreation: assumes that the lookup before a launch answers once an instance exists,
  that earlier requests have landed or been dropped by then (both exactly what is needed:
  TaskLifeLimits.SecondInstanceExactly), and that nobody terminates the instance.
- LaunchAttempt.LostAnswerIsNotFailure: assumes one instance per retry token, resends answered with it or
  lost again, and one confirmation lookup that answers; LaunchAttempt.SuccessExactly assumes none of this.
- TaskWorker.RunTaskWorker: the lock release after the loop, log lines and messages are left out, and the
  database writes in it succeed.
- WorkerRotation.AimsGoRound: domains have names; the code takes an empty name in the report for no report.
- TaskCreation.CreateTask: request checks, quota checks, the account lock, the answer and the background
  address lookup are left out; its panic path is a step of TaskLife.
- CodeAttempts.WrongCodesAreBounded: no unban by the administrator; codes from immune addresses are not
  counted.
- LoginLockout.AnswerRateIsBounded: one address, serial requests, Redis answering, no reset or unban.
- AuthServer.AuthService.Verify2FAStep2: token identifiers are unique, the secret can be decrypted,
  Redis answers; a token without a not-before claim is not presented before it was issued.
- OciConfig.ParseOCIConfig: lower-casing is ASCII only, and lines stay below the scanner's size limit.
- YamlScalar.QuoteReadsBack: the reader is the one-line form; folding of line breaks is not modelled, so
  strings with line breaks count as unreadable.
- NsgBatches.ClearNSGRules: every rule of a group has an id.
- RuleMerging.BuildIngressRule: CIDR and IP text parsing is library code, so the normalised source comes in
  as a parameter; descriptions are left out.
- Redis errors, for which the worker goes on without the lease and the gate stays open.
- Cryptography, password hashing, token signing and device fingerprints.
- Capacity, quota, billing and metric queries; addresses and notifications after success.
- Presets, DNS labels, volume performance snapping, message texts: settled by one reading.
- HTTP routing, the database layer, the front end and deployment scripts.
