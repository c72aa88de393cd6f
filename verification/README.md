# Willy: models and proofs

Willy is a control plane that runs deployments, volumes, backups and routing on one Docker host. This project
models the parts of it whose correctness is not visible in any one function, and proves what they promise:

- the backup queue (one job at a time per key, a global limit, first come first served), the jobs that backups,
  schedules and restarts put on it, the retention of backups and the life of activity tasks;
- refresh-token rotation between the browser client and the server, and the failure window of the second factor;
- the cache of warm helper containers for volumes;
- the compilation of domains and port bindings into routes, groups and Traefik labels, and the two machines that
  feed it: primary domains and host ports inside a provisioned range;
- the parsers: server-sent events chunk by chunk, the cron builder and parser, the Docker log demultiplexer;
- the bounded log with its delayed file, and the scrubbing of secrets.

Each component has a file and a module (the helper cache, the log, the backup jobs and the scrubbing have two: the
machine or the code, and more of what is proved about it). Classes and loops of the source are classes, methods and
loops here, each proved against a function that says what the step does. What has to hold over whole runs is proved
about machines on values: a `State`, an `Event` for each step that can happen between two awaits, `Next`, and lemmas
that quantify over every run from the start (`Legal`, `Exec`). Methods of the classes state that they take exactly
these steps. In `BackupRuns`, `Sessions` and `Ports` the machine cuts operations at their awaits and database
statements and lets the pieces of concurrent operations interleave; there the methods state what their own part
computes.

Where the code does not keep its promise on every run, a predicate on steps (`Safe`, `Harmless`) says which steps are to
blame. Runs without such steps keep the promise. A step of another kind breaks the invariant from which it follows, and
not always the promise itself: a helper that two operations have found dead, or a logout in the middle of a refresh, can
still come to a good end. But it can always go on to break it, by steps that nothing rules out. So, from every state of
a good run, the promise outlives a step whatever of these steps follow, exactly when the step is safe
(`HelperSafety.PromisedIffSafe`, `Sessions.PromisedIffSafe`, `LogFile.PromisedIffHarmless`).

`Text.dfy` has the string functions that several parts share (decimal numbers, split, join, trim, unique decoding at
a separator), `Options.dfy` the optional value.

## Where the model follows the code and not its comments

- `reconcile.service.ts:32-40` fails the tasks of the previous process only when Docker answers the ping, so a
  restart leaves no task active exactly under that condition (`BackupRuns.RestartLeavesNoneActive`).
- `BACKUP_CONCURRENCY` is used unchecked; with 0 nothing ever runs (`BackupQueues.LiveIffSlots`).
- The reference counts of warm helpers stay exact, and callers share one creation, in every run in which a helper that
  is found dead has no other operation relying on it, and the reaper does not remove a helper while an acquire checks it
  (`HelperSafety.HeldHelpersAreSafe`). So a helper that dies while nobody uses it is recreated as promised. Any other
  reap or dead helper can go on to break the promise (`HelperSafety.UnsafeStepBreaks`): one that dies in use can give a
  count of -1, and two checks that both find it dead make two helpers (`HelperSafety.DeadHelperRun`,
  `HelperSafety.TwoCreationsRun`, `HelperSafety.ReapInsideCheckRun`).
- A logout in the middle of a refresh is undone by it, and no other is (`Sessions.LogoutLastsIff`).
- The key string of `groupRoutes` does not tell a missing service from an empty one (`Routes.KeyStringExact`); within
  one call it never has to.
- Two service names that `sanitize` maps to the same text share a router and the later group wins
  (`Labels.RouterNamesCollide`, `Labels.LastOfRouterTells`).
- Turning `webRoute` on does not make a domain primary; in a deployment without a primary that is the one operation
  after which web domains are without a primary (`Domains.ServingDoesNotPromote`, `Domains.KeepsWebPrimaryIff`).
- A weekday range with 7 at one end is not read as it is meant: "0-7" becomes Sunday (`Cron.SevenIsReadAsSunday`). The
  times are kept all the same exactly when the rest of the list makes up for it (`Cron.WeeklyKeptIff`).
- Frames that are all empty are not demultiplexed to the empty text but come back raw
  (`Demux.DemuxUndoesFraming`).
- A flush that fails is not tried again, the timer of an evicted buffer can write over the file of a newer one, and a
  restart loses what is not in the file yet. Exactly which timers, failures and restarts lose content is
  `LogFile.StepSettlesIff`; evictions and registrations by themselves lose none.
- The file is for the last buffer with content, not for the stream: what comes first after an eviction or a restart
  replaces it (`LogFile.NewBufferOverwrites`, `LogFile.WindowOfStreamIff`).
- A viewer who registers while nothing is in memory makes the history empty for the next, although the file has the
  lines (`LogFile.ListenerHidesFile`, `LogFile.HistoryIff`).
- Live listeners stay with the buffer they were attached to. After its eviction they get no line and no end of the
  stream any more (`LogStorage.ListenersGetLines`, `LogStorage.DoneIsCalledOnce`).
- A secret that starts or ends with a star, or has three in a row, can be in the scrubbed text
  (`Redact.SurvivesIff`).

## Assumptions

- Database statements are atomic and succeed. In `Domains` whole operations are atomic, although the source has several
  statements in some of them and no unique index on the primary (`backend/src/db/schema/tables.ts:119-143`):
  `Domains.OverlappingAddsIff` says when two overlapping additions leave two primaries, and
  `Domains.OverlappingMakePrimaryIff` the same of two changes of the primary. Ids and tokens are unused numbers when they
  are made. (Two refresh tokens signed within one second for the same user can in fact be equal.)
- Backups of one target have distinct creation times, and a restart runs `markInterrupted` before anything is
  enqueued.
- Two-factor verifications of one user come one at a time, and the counter store is up; its increment and the
  expiry of a new counter happen together.
- `Sessions.SessionNeverEnds` is about safe steps: no lost reply that carries a session, no revocation, no other login
  as the user, the user neither disabled nor deleted, and no expiry (7 days by default) of the refresh token that the
  client has or is about to get. `Sessions.EachAssumptionIsNeeded` shows that each matters.
- A run of `LogStorage` is benign when no flush fails, no buffer is evicted while its flush timer runs (500 ms against
  the 5 minutes after the end of the stream, unless lines are still appended to an ended stream), and the process
  restarts only when no flush is due. Benign runs are harmless.
- Flushes of one log stream make their directory and land in the order in which they began, each atomically.

## Model

| member | source | states |
|---|---|---|
| BackupQueues.EveryRunIsSafe | backend/src/backups/backup-queue.ts:17-55 | in every run of enqueues, grants, ends and failures over any keys: `active` is the number of slot holders and at most the limit; a waiting job means that the limit is reached; slots are handed out in the order asked for; of two jobs of a key the later has not left its chain before the earlier has settled; jobs of a key start in enqueue order |
| BackupQueues.StartsInEnqueueOrder | backend/src/backups/backup-queue.ts:17-21 | the started jobs of a key are a prefix of its enqueued jobs, in order |
| BackupQueues.NoDeadlock | backend/src/backups/backup-queue.ts:17-55 | with a positive limit, some step is possible as long as a job is not settled |
| BackupQueues.MoveDoesWork | backend/src/backups/backup-queue.ts:23-55 | every step but an enqueue makes the work left strictly smaller |
| BackupQueues.EveryRunDrains | backend/src/backups/backup-queue.ts:17-55 | a run without enqueues is no longer than the work it had at first, and where it cannot go on every job is settled |
| BackupQueues.QueueDrains | backend/src/backups/backup-queue.ts:17-55 | the same after any run, from an empty queue with a positive limit |
| BackupQueues.LiveIffSlots | backend/src/backups/backup-queue.ts:13-15 | the queue never gets stuck exactly when the configured limit is positive |
| BackupQueues.ThrowingFreesSlotAndKey | backend/src/backups/backup-queue.ts:23-31 | a task that throws leaves the queue as one that returns, but for its own result |
| BackupQueues.ChainOutlivesError | backend/src/backups/backup-queue.ts:17-21 | after either end of a job, the next job of its key can go on |
| BackupQueues.BackupQueue.Enqueue | backend/src/backups/backup-queue.ts:17-21 | takes the enqueue step: the job is chained to the tail of its key and becomes the tail |
| BackupQueues.BackupQueue.RunWithLimit | backend/src/backups/backup-queue.ts:23-24 | takes the step of a job whose predecessor has settled |
| BackupQueues.BackupQueue.Acquire | backend/src/backups/backup-queue.ts:33-46 | a slot at once below the limit, the end of the waiter list otherwise |
| BackupQueues.BackupQueue.StartTask | backend/src/backups/backup-queue.ts:26-27 | takes the step in which the task of a slot holder is called |
| BackupQueues.BackupQueue.EndTask | backend/src/backups/backup-queue.ts:26-30 | takes the step in which the task returned or threw, with its release |
| BackupQueues.BackupQueue.Release | backend/src/backups/backup-queue.ts:48-55 | the slot goes to the first waiter in the same step, or is free |
| BackupRuns.PruneLeavesNewest | backend/src/backups/backups.service.ts:297-309 | in any run, when a prune ends its target has at most `retention` SUCCESS backups, all among the newest that it read, and every row it removed is older than every one it kept |
| BackupRuns.PruneWaitsForBackup | backend/src/backups/schedules.service.ts:131-137 | in any run, while the prune of a tick runs, the backup enqueued before it on the same key has settled and its task has ended |
| BackupRuns.FinishedTaskTellsResult | backend/src/backups/backups.service.ts:131-143 | once a tracked job has settled, its task row, if not cleared, is SUCCESS exactly when the work returned |
| BackupStatuses.FinishedBackupTellsResult | backend/src/backups/backups.service.ts:238-280 | in any run, once the job of a volume tar has settled, the row of its backup, if not removed, is SUCCESS when the work returned and FAILED when it threw, as the row of its task is; target and creation time are as recorded |
| BackupStatuses.BackupsOnlyMoveForward | backend/src/backups/backups.service.ts:112-309 | after any run, a step adds a backup only as PENDING, moves one only from PENDING to RUNNING to SUCCESS or FAILED, and takes away exactly the row that a user removes or that a prune has come to past its first `keep` |
| BackupStatuses.PrunesReturn | backend/src/backups/backups.service.ts:297-309 | in any run the job of a prune settles as one that returned |
| BackupStatuses.TaskRowsStep | backend/src/tasks/tasks.service.ts:32-121 | which task rows a step adds, removes or changes, and to what |
| BackupStatuses.QueueStepped | backend/src/backups/backups.service.ts:131-143 | a new job has the key and the body asked for; a restart leaves an empty queue with the same limit |
| BackupRuns.TasksOnlyMoveForward | backend/src/tasks/tasks.service.ts:49-121 | after any run, no step but a restart removes an active task or moves a task anywhere but PENDING, RUNNING, then SUCCESS or FAILED |
| BackupRuns.RestartLeavesNoneActive | backend/src/reconcile/reconcile.service.ts:32-40 | a restart leaves no task active exactly when Docker is reachable or none was; finished rows stay |
| BackupRuns.EveryRunKeepsInv | backend/src/backups/backups.service.ts:98-148 | every run over queue, task rows, backup rows, clears and restarts keeps the joint invariant |
| BackupRuns.EndedPruneKeptNewest | backend/src/backups/backups.service.ts:297-309 | ordered rows that are deleted from `keep` on, with no SUCCESS row left out, leave the newest `keep` |
| BackupsServices.BackupsService.PruneTarget | backend/src/backups/backups.service.ts:297-309 | the loop deletes exactly the rows from `keep` on, and what is left is the newest |
| BackupsServices.BackupsService.RunVolumeTar | backend/src/backups/backups.service.ts:238-280 | the row, if there, ends SUCCESS or FAILED with its target and creation time as they were, no other row changes, and the error is thrown on |
| BackupsServices.BackupsService.RunTracked | backend/src/backups/backups.service.ts:131-143 | the task row ends as the backup row does, and the error is thrown on |
| Tasks.TasksService.Create | backend/src/tasks/tasks.service.ts:32-47 | a new PENDING row |
| Tasks.TasksService.Start | backend/src/tasks/tasks.service.ts:49-54 | the row, if there, is RUNNING |
| Tasks.TasksService.Succeed | backend/src/tasks/tasks.service.ts:63-68 | the row, if there, is SUCCESS |
| Tasks.TasksService.Fail | backend/src/tasks/tasks.service.ts:70-75 | the row, if there, is FAILED |
| Tasks.TasksService.MarkInterrupted | backend/src/tasks/tasks.service.ts:96-101 | active rows become FAILED, others stay |
| Tasks.TasksService.ClearRead | backend/src/tasks/tasks.service.ts:105-114 | refuses a missing row as missing and an active one as running, and nothing else |
| Tasks.TasksService.ClearDelete | backend/src/tasks/tasks.service.ts:116-117 | the row is gone |
| Tasks.TasksService.ClearFinished | backend/src/tasks/tasks.service.ts:119-121 | exactly the active rows are left |
| Sessions.OneRefreshAtATime | frontend/src/api/client.ts:64-96 | in every run, however many requests get a 401, at most one refresh is in flight and each request is sent at most twice |
| Sessions.OnlyRejectionEndsSession | frontend/src/api/client.ts:23-57 | the stored tokens are taken away only by a 401 or 403 answer to a refresh |
| Sessions.RequestsAreRetried | frontend/src/api/client.ts:64-96 | in every run a request that is done has the status of its last answer; it was sent a second time after a 401 to the first, and has that 401 as its result exactly when there was no refresh token or the refresh it waited for failed |
| Sessions.RequestStep | frontend/src/api/client.ts:64-96 | what one step does to a request: in particular one whose refresh succeeded is sent once more, with the access token then stored |
| Sessions.TokensStep | frontend/src/api/client.ts:27-57 | the tokens are stored as a reply has them, taken away by a rejection and left alone otherwise; expiry is announced exactly when a failed refresh left no token |
| Sessions.CallStep | frontend/src/api/client.ts:34-57 | what one step does to a refresh: it succeeds exactly when the reply is a session |
| Sessions.TokensAreOfOneSession | backend/src/auth/auth.service.ts:154-181 | in every run the stored tokens are both of one session, or neither is there |
| Sessions.SessionNeverEnds | backend/src/auth/auth.service.ts:135-181 | in every safe run: whenever no refresh is in flight the stored refresh token is the accepted one, no refresh is rejected, and the session never ends whatever transient failures occur |
| Sessions.StepKeepsInvIffSafe | backend/src/auth/auth.service.ts:135-181 | the invariant (the accepted token is the one that the client has or is about to get) outlives one more event exactly when it is safe: no revocation, other login, disabled or deleted user, no lost reply that carries a session, no expiry of the token the client has or is about to get |
| Sessions.UnsafeStepBreaks | backend/src/auth/auth.service.ts:135-181 | from any state of a safe run, each event that is not safe can be followed by transient failures alone to a state in which no refresh is in flight and the stored token is not the accepted one |
| Sessions.PromisedIffSafe | backend/src/auth/auth.service.ts:135-181 | from any state of a safe run, the promise of `SessionNeverEnds` outlives an event, whatever requests, refreshes and transient failures follow, exactly when the event is safe |
| Sessions.RunKeepsInvIffSafe | backend/src/auth/auth.service.ts:135-181 | that invariant holds throughout a run exactly when each event is safe |
| Sessions.BenignIsSafe | frontend/src/api/client.ts:23-96 | runs with nothing but requests, refreshes and transient failures are safe |
| Sessions.OutOfStepEnds | frontend/src/api/client.ts:27-57 | from a state whose stored token is not accepted, the next 401 ends the session |
| Sessions.EachAssumptionIsNeeded | frontend/src/api/client.ts:34-56 | after one lost reply, revocation, other login, disabling or deletion of the user, or expiry of the stored token, the stored token need not be the accepted one |
| Sessions.ApiClient.OnAnswer | frontend/src/api/client.ts:75-83 | a 401 with a stored refresh token joins the refresh in flight or starts the only one |
| Sessions.ApiClient.OnRefreshReply | frontend/src/api/client.ts:36-56 | tokens stored on success, cleared on rejection, kept on anything else |
| Sessions.ApiClient.OnResume | frontend/src/api/client.ts:85-95 | the one retry, or the first response; the session-expired event exactly when the refresh token is gone |
| Sessions.AuthService.Verify | backend/src/auth/auth.service.ts:135-145 | passes exactly the unexpired token whose hash is stored for a user who is there and not disabled |
| Sessions.AuthService.IssueSession | backend/src/auth/auth.service.ts:154-181 | fresh tokens, and only the new refresh token is accepted |
| Sessions.AuthService.Logout | backend/src/auth/auth.service.ts:150-152 | no token is accepted |
| Sessions.LogoutLastsIff | backend/src/auth/auth.service.ts:135-152 | after a logout no token is accepted until the next login, whatever happens, exactly when no refresh was between the check of its token and the rotation |
| Sessions.LogoutUndoneRun | backend/src/auth/auth.service.ts:135-181 | a run from a fresh login in which a refresh undoes a logout |
| Lockout.FewRejectionsPerInterval | backend/src/auth/two-factor-lockout.service.ts:23-41 | whatever came before, any stretch of T seconds without an accepted code has at most 5 * (ceil(T / 900) + 1) rejected codes |
| Lockout.LockedIff | backend/src/auth/two-factor-lockout.service.ts:23-41 | an account is locked exactly while a window of 900 s from a first failure is open in which five codes were rejected and none accepted |
| Lockout.CodesDecide | backend/src/auth/auth.service.ts:79-124 | in every run an attempt is refused exactly while the account is locked; otherwise a right code is accepted and a wrong one rejected |
| Lockout.LockoutEndsOnTime | backend/src/auth/two-factor-lockout.service.ts:23-41 | a locked account had a rejected code less than 900 s ago that opened the window of exactly five; attempts while locked do not count or extend it |
| Lockout.CounterHasOpener | backend/src/auth/two-factor-lockout.service.ts:29-41 | a stored counter expires 900 s after the failure that opened it, counts the rejections since, and nothing was accepted since |
| Lockout.TwoFactorLockoutService.Verify | backend/src/auth/auth.service.ts:79-96 | refused from five failures on, and then nothing changes; otherwise a right code is accepted and clears the counter, and a wrong one is rejected and counted; other accounts untouched |
| Lockout.TwoFactorLockoutService.RecordFailure | backend/src/auth/two-factor-lockout.service.ts:29-41 | one more failure, the expiry set only by the first; other accounts untouched |
| Lockout.TwoFactorLockoutService.Clear | backend/src/auth/two-factor-lockout.service.ts:43-49 | the counter of this account is gone, others untouched |
| Lockout.TwoFactorLockoutService.CurrentFailures | backend/src/auth/two-factor-lockout.service.ts:53-63 | the count of an unexpired counter, or 0 |
| HelperSafety.HeldHelpersAreSafe | backend/src/docker/volume-helper.service.ts:90-232 | in every safe run each entry's count is the number of operations that hold it, so never negative; a helper in use is the cached one and not removed; one creation at a time per key, which concurrent callers share; helpers that die with nobody relying on them included |
| HelperSafety.StepKeepsInvIffSafe | backend/src/docker/volume-helper.service.ts:192-232 | from any state of a safe run the next step keeps the invariant (what each operation relies on is cached under its key) exactly when it is safe: a helper found dead by a check has no other operation relying on it, and what the reaper removes is not being checked |
| HelperSafety.UnsafeStepBreaks | backend/src/docker/volume-helper.service.ts:192-232 | from any state of a safe run, each step that is not safe can be followed by checks that end well and callers that go on, to a state that breaks the promise of `HeldHelpersAreSafe` |
| HelperSafety.PromisedIffSafe | backend/src/docker/volume-helper.service.ts:192-232 | from any state of a safe run, that promise outlives a step, whatever checks end well and callers go on, exactly when the step is safe |
| HelperSafety.RunKeepsInvIffSafe | backend/src/docker/volume-helper.service.ts:90-232 | that invariant holds throughout a run exactly when each step is safe |
| HelperSafety.ReaperTakesIdle | backend/src/docker/volume-helper.service.ts:358-381 | in every safe run the reaper removes only unheld entries that were idle for longer than the limit |
| HelperSafety.ReaperTakesIff | backend/src/docker/volume-helper.service.ts:364-381 | a visit removes the entry and its container exactly when it is neither being made nor held and was not used for longer than the idle time |
| HelperSafety.FailedCreationsAreForgotten | backend/src/docker/volume-helper.service.ts:220-231 | in any run, what is cached as being made is being made by an operation of its key |
| HelperSafety.SharersAreServed | backend/src/docker/volume-helper.service.ts:196-198 | in any run, a caller that waits for the creation of another waits for one that is under way |
| HelperSafety.BeginStep | backend/src/docker/volume-helper.service.ts:192-218 | a new caller creates, joins the creation under way, or checks what is cached |
| HelperSafety.OperationStep | backend/src/docker/volume-helper.service.ts:90-232 | what one step does to an operation: with the end of a creation all who wait for it get its container, or the error |
| HelperSafety.ReaperWaitsForIdle | backend/src/docker/volume-helper.service.ts:97-122 | in any run, an entry that the reaper takes was not held, released, found alive or made within the idle limit before the sweep |
| HelperSafety.UseIsStamped | backend/src/docker/volume-helper.service.ts:97-122 | a hold, a release, a check that finds it alive and its creation set the time of last use of an entry, and nothing else does |
| HelperSafety.StreamReleasesOnce | backend/src/docker/volume-helper.service.ts:141-170 | whichever of end, close and error fire and in whatever order, the hold is given up once |
| HelperSafety.ReapInsideCheck | backend/src/docker/volume-helper.service.ts:200-205 | a reap inside the liveness check lets an operation run in a removed helper, uncounted |
| HelperSafety.ReapInsideCheckRun | backend/src/docker/volume-helper.service.ts:358-381 | a run from the start that gets there |
| HelperSafety.UncountedReleaseGoesNegative | backend/src/docker/volume-helper.service.ts:115-122 | the release of such an operation is charged to the next helper of the key |
| HelperSafety.UncountedReleaseRun | backend/src/docker/volume-helper.service.ts:358-381 | a run from the start that gets there |
| HelperSafety.DeadHelperGoesNegative | backend/src/docker/volume-helper.service.ts:200-218 | a helper that dies while held is recreated with count 0, and the old holder takes it to -1 |
| HelperSafety.DeadHelperRun | backend/src/docker/volume-helper.service.ts:200-218 | a run from the start that gets there |
| HelperSafety.TwoChecksMakeTwo | backend/src/docker/volume-helper.service.ts:200-218 | two callers whose checks both find the helper dead each create one, although nobody holds it |
| HelperSafety.TwoCreationsRun | backend/src/docker/volume-helper.service.ts:190-218 | a run from the start that gets there |
| HelperCache.VolumeHelperService.Acquire | backend/src/docker/volume-helper.service.ts:192-218 | joins the creation under way, starts the liveness check, or creates |
| HelperCache.VolumeHelperService.LivenessKnown | backend/src/docker/volume-helper.service.ts:200-218 | the cached container, or a new creation under the key |
| HelperCache.VolumeHelperService.CreationKnown | backend/src/docker/volume-helper.service.ts:220-231 | everybody who waits gets the container or the error; a failed entry is forgotten |
| HelperCache.VolumeHelperService.HoldHelper | backend/src/docker/volume-helper.service.ts:97-102 | the entry now under the key counts one more |
| HelperCache.VolumeHelperService.EndOperation | backend/src/docker/volume-helper.service.ts:115-122 | the entry now under the key counts one less |
| HelperCache.VolumeHelperService.ReleaseStream | backend/src/docker/volume-helper.service.ts:141-154 | counts one less at the first signal only |
| HelperCache.VolumeHelperService.VisitEntry | backend/src/docker/volume-helper.service.ts:368-377 | removes the entry exactly when it is neither being made nor held and was idle for too long |
| Routes.CompilationConserves | backend/src/deployments/domains.service.ts:33-82 | the groups serve, with multiplicity, exactly one (host, service, port, host port) for each web-serving domain and each binding of a listed domain: its own port or the default one, and no service without a default one, otherwise its own or the default one |
| Routes.PrimaryHostsFirst | backend/src/deployments/domains.service.ts:33-82 | from the rows: no two groups share a key, and for every key its group has exactly the hosts of the rows that ask for it, those of primary domains first, and otherwise in the order of the domains, each with its web route before its bindings |
| Routes.ResolveIsAsked | backend/src/traefik/label-generator.service.ts:92-96 | what a route resolves to, field by field |
| Routes.GroupsInOrder | backend/src/traefik/label-generator.service.ts:90-107 | the groups come in the order in which their keys are first asked for |
| Routes.KeyStringExact | backend/src/traefik/label-generator.service.ts:97 | two keys have the same string exactly when port and host port agree and the services do up to missing being empty, even with ':' in a service name |
| Routes.GroupsByKey | backend/src/traefik/label-generator.service.ts:86-108 | no two groups share a key, each has exactly the hosts that resolve to it in order, and every target has its group |
| Routes.HostPortHasOneGroup | backend/src/traefik/label-generator.service.ts:127-129 | with host ports bound once, a host port belongs to one group |
| Routes.ExpandDomainRoutes | backend/src/deployments/domains.service.ts:33-82 | the loop computes the stably sorted routes that the lemmas are about |
| Routes.CollectBindings | backend/src/deployments/domains.service.ts:49-55 | the map lists for each domain its bindings in order |
| Routes.GroupRoutes | backend/src/traefik/label-generator.service.ts:86-108 | the loop over a map with string keys computes the grouping by (service, port, host port) |
| Labels.DeploymentReadsBack | backend/src/traefik/label-generator.service.ts:118-160 | from rows to labels: with host ports bound once, services distinct once sanitized and hosts without a backtick, the labels of each group's router tell its hosts, entry point, target port and certificate resolver |
| Labels.LabelsReadBack | backend/src/traefik/label-generator.service.ts:118-160 | with distinct routers no label overwrites another: rule, entry point, TLS, middlewares, priority, service link, port and resolver of each group's router are there, and hosts, host port, port and the need of an own certificate are read back from them |
| Labels.LabelsAreInjective | backend/src/traefik/label-generator.service.ts:118-160 | with distinct routers and no backtick in a host, two inputs with the same labels have the same groups: for each group of one the other has one with the same router, hosts, host port, port and need of a certificate; and the same priority |
| Labels.LabelsAreSpelled | backend/src/traefik/label-generator.service.ts:126-157 | for the last group of each router the text of every label, the name of the router and the rule with " || " between its hosts included |
| Labels.ContainerLabelsAreSpelled | backend/src/traefik/label-generator.service.ts:120-124 | the three labels of the container |
| Labels.ContainerLabelsAreInjective | backend/src/traefik/label-generator.service.ts:118-125 | and the same network and deployment |
| Labels.NoOtherLabels | backend/src/traefik/label-generator.service.ts:118-160 | every label is one of the container or a field of the router of some group |
| Labels.BaseLabelsSurvive | backend/src/traefik/label-generator.service.ts:118-125 | no group overwrites a label of the container |
| Labels.ResolverIff | backend/src/traefik/label-generator.service.ts:143-148 | a router, shared by several groups or not, has a certificate resolver exactly when some group of it needs its own certificate |
| Labels.OwnResolverIff | backend/src/traefik/label-generator.service.ts:143-148 | with distinct routers, exactly when its group does |
| Labels.RouterNamesCollide | backend/src/traefik/label-generator.service.ts:127-130 | exactly when two keys get the same router: the port parts agree and the sanitized services do |
| Labels.RoutersAreDistinct | backend/src/traefik/label-generator.service.ts:127-130 | distinct keys, host ports bound once and services distinct once sanitized give distinct routers |
| Labels.LastOfRouterTells | backend/src/traefik/label-generator.service.ts:126-157 | when groups share a router, its labels are all those of the last one (but for the resolver, for which see `ResolverIff`) |
| Labels.LabelNameInjective | backend/src/traefik/label-generator.service.ts:133-156 | a label name tells its router and its field |
| Labels.RuleReadsBack | backend/src/traefik/label-generator.service.ts:131 | the host list can be read back from the rule |
| Labels.EntryPointReadsBack | backend/src/traefik/label-generator.service.ts:136-137 | the host port can be read back from the entry point |
| Labels.OwnCertificateMeaning | backend/src/traefik/label-generator.service.ts:143-148 | the resolver is set exactly when the base domain is neither "localhost" nor under it and some host is neither the base domain nor exactly one label under it |
| Labels.AcmeMeaning | backend/src/traefik/label-generator.service.ts:63-65 | there is a resolver exactly when the base domain is not "localhost" and does not end in ".localhost" |
| Labels.CoveredMeaning | backend/src/traefik/label-generator.service.ts:69-81 | covered is: the base domain, or exactly one label under it |
| Labels.LabelGroup | backend/src/traefik/label-generator.service.ts:126-157 | the assignments of one turn of the loop |
| Labels.ForWebRoutes | backend/src/traefik/label-generator.service.ts:118-160 | the loop computes the labels that the lemmas are about |
| Domains.AtMostOnePrimary | backend/src/deployments/domains.service.ts:141-154 | after any sequence of operations a deployment has at most one primary, and it serves the web |
| Domains.KeepsPrimaryIffWebRemains | backend/src/deployments/domains.service.ts:212-305 | an operation on a deployment with a primary leaves it one exactly when a web-serving domain remains |
| Domains.OthersUntouched | backend/src/deployments/domains.service.ts:191-305 | the rows of other deployments are the same before and after |
| Domains.OperationKeepsInv | backend/src/deployments/domains.service.ts:141-305 | each operation keeps: one primary per deployment, primaries serve, host names distinct |
| Domains.RefusedIff | backend/src/deployments/domains.service.ts:141-285 | which operations are refused, and why |
| Domains.RowAfter | backend/src/deployments/domains.service.ts:141-285 | which rows there are after an operation, and every field of each but whether it is primary |
| Domains.PrimaryAfter | backend/src/deployments/domains.service.ts:141-299 | which row of the deployment is primary after an operation |
| Domains.ServingDoesNotPromote | backend/src/deployments/domains.service.ts:214-240 | turning `webRoute` on does not make the domain primary |
| Domains.KeepsWebPrimaryIff | backend/src/deployments/domains.service.ts:191-305 | an operation leaves its deployment with web domains and no primary exactly when it turns `webRoute` on in a deployment without a primary |
| Domains.OperationKeepsPrimariesIff | backend/src/deployments/domains.service.ts:191-305 | the same of all deployments |
| Domains.PrimariesThroughoutIff | backend/src/deployments/domains.service.ts:141-305 | over a whole sequence of operations, every deployment with web domains has a primary all along exactly when no operation does that |
| Domains.OverlappingAddsIff | backend/src/deployments/domains.service.ts:191-210 | two additions that both look for a primary before either inserts leave two primaries exactly when both serve the web and there was none |
| Domains.OverlappingMakePrimaryIff | backend/src/deployments/domains.service.ts:254-261 | two calls that both clear the primary before either sets it leave two primaries exactly when their domains differ |
| Domains.MakePrimaryInTwo | backend/src/deployments/domains.service.ts:254-261 | one call on its own, in its two statements, is the atomic operation |
| Domains.DomainsService.AddDomain | backend/src/deployments/domains.service.ts:191-210 | the new row, primary exactly when it serves the web and there was no primary; a taken host name is refused |
| Domains.DomainsService.UpdateDomainTarget | backend/src/deployments/domains.service.ts:214-240 | the changed row; a primary that stops serving hands over |
| Domains.DomainsService.MakePrimaryDomain | backend/src/deployments/domains.service.ts:242-262 | refused for a missing or port-only domain, otherwise the only primary |
| Domains.DomainsService.RemoveDomain | backend/src/deployments/domains.service.ts:276-285 | the row is gone, and a removed primary is replaced |
| Domains.DomainsService.SetPrimaryDomain | backend/src/deployments/domains.service.ts:141-154 | the primary is renamed, or made |
| Domains.DomainsService.PromoteAnotherPrimary | backend/src/deployments/domains.service.ts:289-299 | some web-serving domain becomes primary, if there is one |
| Ports.BoundPortsAreProvisioned | backend/src/deployments/deployments.controller.ts:338-354 | from the configuration text, in every run of requests and settings changes, a change between range check and write included, bound host ports are distinct, inside the capacity and inside 1024..65535 |
| Ports.BoundPortsWereEnabled | backend/src/deployments/deployments.controller.ts:338-354 | in every run the setting in force is the last one written, and a port is bound only if, when its request was checked, a setting that had been written had binding on with the port in its range |
| Ports.RowsStep | backend/src/deployments/port-bindings.service.ts:49-95 | what one step does to the rows |
| Ports.SettingsMean | backend/src/admin/settings.service.ts:66-118 | binding is off over the whole capacity by default; a patch changes exactly the fields it has |
| Ports.SettingValidIff | backend/src/admin/settings.service.ts:66-118 | a setting is valid exactly when it is not reversed, inside the capacity, and off without one |
| Ports.ParseAccepts | backend/src/config/port-range.ts:17-42 | a text is accepted as a range exactly when it denotes it, in order and inside 1024..65535 |
| Ports.ParseRefuses | backend/src/config/port-range.ts:17-42 | no text or a blank one is no range, and whatever else denotes none is refused |
| Ports.ParseUndoesRender | backend/src/config/port-range.ts:17-42 | a printed range parses to itself |
| Ports.SomePortIsFree | backend/src/deployments/port-bindings.service.ts:37-47 | with fewer bindings than ports in the range some port is free |
| Ports.PortBindingsService.SuggestFreePort | backend/src/deployments/port-bindings.service.ts:37-47 | the least free port of the range; none exactly when all are bound |
| Ports.PortBindingsService.AddPortBinding | backend/src/deployments/port-bindings.service.ts:49-64 | refused exactly when the port is bound, otherwise one new row |
| Ports.PortBindingsService.UpdatePortBinding | backend/src/deployments/port-bindings.service.ts:66-89 | refused when another row has the port, then when the row is not of this domain; otherwise the row is changed |
| Ports.PortBindingsService.RemovePortBinding | backend/src/deployments/port-bindings.service.ts:91-95 | removes the row of this domain only |
| Ports.SettingsService.Update | backend/src/admin/settings.service.ts:66-118 | the patch over the effective setting, validated; nothing is written when it is refused |
| Sse.StreamSse | frontend/src/api/sse.ts:24-54 | for every split of the text into chunks, the emitted data and the remainder are those of one parse of the whole text; the carried buffer never has a blank line |
| Sse.ParseInTwo | frontend/src/api/sse.ts:45-53 | parsing a first part and carrying its remainder into the second gives the same frames and remainder |
| Sse.SplitExact | frontend/src/api/sse.ts:7-8 | frames and remainder are the one and only way to cut the text at blank lines |
| Sse.ParseSseBuffer | frontend/src/api/sse.ts:6-21 | the loops compute the data lines of the complete frames, and the remainder |
| Sse.DataInOrder | frontend/src/api/sse.ts:11-17 | what is emitted are the messages of exactly the data lines of the frames, each once and in order, less one space after the colon |
| Sse.EventsArrive | frontend/src/api/sse.ts:6-54 | events of non-empty lines, cut into chunks anywhere, arrive with each data line once and in order and leave nothing |
| Sse.MessagesArrive | frontend/src/api/sse.ts:10-16 | newline-free messages, each a data line after a line of another field, come back as they were: with the space after the colon, or without it when no message starts with one |
| Cron.ParseUndoesBuild | frontend/src/cron.ts:25-46 | for every in-range preset but custom, parsing what was built gives it back with unused fields defaulted and weekdays sorted, without duplicates, empty as Sunday |
| Cron.BuildUndoesParse | frontend/src/cron.ts:109-159 | for every accepted expression, building and parsing again gives the same preset, and the same times match unless a weekday range has 7 at one end |
| Cron.BuildKeepsMeaning | frontend/src/cron.ts:25-46 | the built expression matches exactly the times of the preset |
| Cron.ParseKeepsMeaning | frontend/src/cron.ts:109-159 | the preset matches exactly the times of the expression, with no 7 at one end of a range |
| Cron.WeeklyKeptIff | frontend/src/cron.ts:73-107 | for every accepted weekly expression, reading and building back keeps the times exactly when: with an element like "0-7", the list is read as all of Monday to Saturday; without one, each day read from an element like "7-3" is a day of an element without a 7 at one end |
| Cron.OthersAreKept | frontend/src/cron.ts:109-159 | for every other accepted expression it always keeps them |
| Cron.ReadAsMeantIff | frontend/src/cron.ts:58-107 | a list of accepted elements is read as what it means exactly under that condition |
| Cron.PartReadAsMeantIff | frontend/src/cron.ts:58-107 | an element of the weekday list is read as what it means exactly when it is no range with 7 at one end |
| Cron.SevenIsReadAsSunday | frontend/src/cron.ts:69-70 | "0-7" means every day and is read as Sunday |
| Cron.ParseWeekdays | frontend/src/cron.ts:73-107 | the loops compute the ascending days of the list, or fail when an element does |
| Cron.PartAcceptedIff | frontend/src/cron.ts:58-101 | an element is accepted exactly when it is a number up to 7, or two with a hyphen and in order as days from Sunday on; and it is read as that day or all between |
| Cron.FieldsExact | frontend/src/cron.ts:110 | the fields are what stands between white space of any kind and length |
| Cron.ParseExact | frontend/src/cron.ts:109-159 | an expression is read as a preset exactly when its five fields stand for it |
| Text.TrimExact | frontend/src/cron.ts:110 | trimming takes exactly the white space at both ends |
| Cron.PartsDaysExact | frontend/src/cron.ts:76-104 | the list is accepted exactly when each element is, and has exactly the days that some element has |
| Cron.SortSorts | frontend/src/cron.ts:35-36 | the built days are those of the preset in ascending order |
| Demux.DemuxUndoesFraming | backend/src/docker/docker-helpers.ts:100-112 | demultiplexing framed payloads gives their concatenation exactly when there is no frame or some payload is not empty |
| Demux.CutStream | backend/src/docker/docker-helpers.ts:104-109 | a stream cut anywhere gives the payloads before the cut and what arrived of the last one |
| Demux.ParseExact | backend/src/docker/docker-helpers.ts:104-109 | any bytes are in one way only complete frames and then an incomplete one |
| Demux.DemuxLogBuffer | backend/src/docker/docker-helpers.ts:100-112 | on any bytes, the text of that decomposition or the raw bytes; at most one turn of the loop for every 8 bytes |
| Demux.LengthReadsBack | backend/src/docker/docker-helpers.ts:105 | four bytes are the big-endian form of a length exactly when they are read as it |
| LogStorage.BufferIsWindow | backend/src/logs/log-storage.service.ts:38-48 | in every run each buffer holds exactly the last min(n, 2000) of the lines appended to it |
| LogFile.WindowOfStreamIff | backend/src/logs/log-storage.service.ts:38-48 | in every run, restarts included, the lines of the buffer in memory, and of the last one with content, are the last 2000 of the whole stream exactly when the buffer was made before the first line or has 2000 lines of its own |
| LogFile.NewBufferOverwrites | backend/src/logs/log-storage.service.ts:126-135 | from any state with nothing in memory or in progress, the next line replaces the file |
| LogFile.OverwrittenRun | backend/src/logs/log-storage.service.ts:126-135 | a benign run from a file that has a line, which ends with another line alone |
| LogStorage.ListenersGetLines | backend/src/logs/log-storage.service.ts:80-85 | in every run each listener got, once and in order, the lines of the stream from its registration to its removal or the eviction of its buffer; that is every line it was registered for exactly when none was appended between that eviction and its removal |
| LogStorage.DoneIsCalledOnce | backend/src/logs/log-storage.service.ts:88-100 | in every run a done listener is called at most once; unless removed, it is called exactly when the stream ended while its buffer was in memory, and it misses a later end exactly when its buffer was evicted unended and the stream ended after that |
| LogStorage.LostLineRun | backend/src/logs/log-storage.service.ts:52-85 | a run from the start in which a listener that is never removed misses a line |
| LogStorage.LostEndRun | backend/src/logs/log-storage.service.ts:52-100 | a run from the start in which a done listener misses an end: two ends evict twice |
| LogStorage.EndsEvictOnce | backend/src/logs/log-storage.service.ts:52-59 | in every run the evictions due are the ends since the last restart less the evictions that came |
| LogFile.UnsavedIsDue | backend/src/logs/log-storage.service.ts:114-135 | in every harmless run, whenever the file does not hold the lines of the last buffer with content, in memory, evicted or of an earlier process, a flush that saves them is pending or in progress |
| LogFile.SettledIsSaved | backend/src/logs/log-storage.service.ts:114-135 | once the pending timer has fired and the flushes in progress have landed, the file holds them |
| LogFile.StepSettlesIff | backend/src/logs/log-storage.service.ts:114-135 | from any state in which the file comes to hold the last buffer with content (its timer is pending, or what is in progress leaves the file with its lines), a step breaks that exactly when it is the timer of another buffer with another text, the failure of the flush that mattered, each with no timer to come, or a restart before the file has the lines |
| LogFile.RunSettlesIff | backend/src/logs/log-storage.service.ts:114-135 | it holds throughout a run exactly when each step is harmless |
| LogFile.HarmfulStepLoses | backend/src/logs/log-storage.service.ts:114-135 | after any harmful step, once the flushes in progress have landed, the lines are not in the file and nothing is due |
| LogFile.PromisedIffHarmless | backend/src/logs/log-storage.service.ts:114-135 | from any such state, the promise of `UnsavedIsDue` outlives a step while the flushes in progress land exactly when the step is harmless |
| LogFile.BenignIsHarmless | backend/src/logs/log-storage.service.ts:52-59 | a run without failed flushes, evictions of buffers whose timer runs, and restarts while a flush is due, is harmless |
| LogFile.HistoryIff | backend/src/logs/log-storage.service.ts:70-78 | once the flushes of a harmless run are over, the history is the lines of the last buffer with content exactly when that buffer is in memory, or nothing is and the lines are non-empty and newline-free, or an empty buffer is and there are no lines; without any content it is empty |
| LogFile.ListenerHidesFile | backend/src/logs/log-storage.service.ts:80-111 | from any state with nothing in memory, after a registration the history is empty, whatever the file holds |
| LogFile.HiddenFileRun | backend/src/logs/log-storage.service.ts:80-111 | a benign run of one registration from a file that has a line |
| LogFile.ReadsBackIff | backend/src/logs/log-storage.service.ts:137-145 | the window survives the file exactly when its lines are non-empty and newline-free |
| LogFile.FailedFlushIsLost | backend/src/logs/log-storage.service.ts:129-134 | a run from the start in which a flush fails and leaves a line unsaved with nothing due |
| LogFile.LateTimerOverwrites | backend/src/logs/log-storage.service.ts:52-59 | from any state with the timer of the buffer running and an eviction due: after eviction, a new line, its flush and then the late timer, the file has the text of the evicted buffer, the new line is unsaved and nothing is due |
| LogFile.LateTimerRun | backend/src/logs/log-storage.service.ts:114-124 | a run from the start that gets there |
| LogStorage.LogStream.Append | backend/src/logs/log-storage.service.ts:38-48 | takes the append step, with the loop over the listeners |
| LogStorage.LogStream.Finish | backend/src/logs/log-storage.service.ts:52-61 | takes the finish step: done listeners called and dropped, a flush begun, an eviction due |
| LogStorage.LogStream.OnLine | backend/src/logs/log-storage.service.ts:80-85 | takes the step of a registration for lines |
| LogStorage.LogStream.OnDone | backend/src/logs/log-storage.service.ts:88-100 | takes the step of a registration for the end, with the call at once when it has ended |
| LogStorage.LogStream.FlushTimer | backend/src/logs/log-storage.service.ts:119-122 | takes the step of the flush timer |
| LogStorage.LogStream.GetHistory | backend/src/logs/log-storage.service.ts:70-78 | the buffered lines, or what the file reads back as |
| Redact.NoSecretSurvives | backend/src/common/redact.ts:12-22 | for every text and list, no non-empty secret free of stars occurs in the output |
| Redact.SurvivesIff | backend/src/common/redact.ts:12-22 | some text and list let a secret through exactly when it is empty, starts or ends with a star or has three in a row, and holds no URL with a password |
| RedactCuts.ScrubExact | backend/src/common/redact.ts:12-22 | exactly what comes out: the text cut at each secret in turn and put together with stars, then every text between the passwords kept and these made stars |
| RedactCuts.ReplaceExact | backend/src/common/redact.ts:15-18 | a text is cut at a secret in one way only, at the leftmost occurrences that do not overlap, and the result is these pieces with "***" between them |
| RedactCuts.StripExact | backend/src/common/redact.ts:21 | the URL pass keeps every text between the passwords of the matches from the left, and makes stars of these |
| RedactCuts.UrlMeans | backend/src/common/redact.ts:7 | what the expression matches, part by part |
| Redact.NothingNewAndNoSecret | backend/src/common/redact.ts:12-22 | every part of the output that is not of that kind was in the text and is no secret |
| Redact.NoPasswordLeft | backend/src/common/redact.ts:8-10 | every URL with credentials in the output of the URL pass has the password "***" |
| Redact.UnchangedIffStripped | backend/src/common/redact.ts:21 | the URL pass leaves exactly the texts alone whose passwords are all "***" |
| Redact.StripIsIdempotent | backend/src/common/redact.ts:21 | a second URL pass changes nothing |
| Redact.CleanTextIsKept | backend/src/common/redact.ts:12-22 | text without secrets and passwords is left as it is |
| Redact.ScanExact | backend/src/common/redact.ts:10 | the scan from left to right finds exactly the matches of the expression |
| Redact.OneMatch | backend/src/common/redact.ts:10 | from one start the expression matches in one way at most |
| Redact.ScrubSecrets | backend/src/common/redact.ts:12-22 | the loop over the secrets and the URL pass compute the output that the lemmas are about |

## Left out

- Controllers, modules, guards, transfer objects and the generated API schema: no logic beyond the one range check
  that is modelled.
- React components, hooks and the router: user interface.
- Docker, git, DNS, tar and Redis calls: they succeed or fail in any way where a modelled step needs them.
- Cryptography: tokens are unused numbers and the check of a code is an oracle.
- Build orchestration, release cutover and the runtime log collector: nothing is claimed about deploys.
- Backup rows left RUNNING by a restart: nothing in the modelled files changes them later.
- The artifact of a queued restore or push: it is looked up at enqueue only, and a prune ahead of it may delete it.
- `setProgress`, `track` and `list` of tasks: they do not change a status otherwise.
- The name filter of Docker, which matches parts of names, when a stale helper is removed before a creation: for the
  helper that is removed by mistake this is one more way to die.
- Targets of port bindings in the port machine: only their host port matters there.
- File paths of log streams: two keys that are sanitized to one path are not modelled.
- Disk writes that overtake each other, and several browser tabs that share one token store.
- Decoding of bytes to text, in `TextDecoder` and in `toString`: text of the event stream is characters and text of the
  demultiplexer is bytes. Strings are sequences of characters, not of UTF-16 units.
- Numbers are unbounded: the rounding of JavaScript doubles above 2^53 is not modelled.
- The error messages of refusals: only their kind is.
- Lockout.FewRejectionsPerInterval: verifications of one user that overlap in time are not covered; the counter store
  being down lets every attempt through and is not modelled.
