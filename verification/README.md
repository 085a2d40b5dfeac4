# Zero-downtime pipeline: a verified model

A blue-green deployment pipeline for a small URL shortener, modelled in Dafny. The code that changes state in
place is modelled by classes whose methods are proved equal to pure specification functions
(`Release.Host`, `DataTier.Pair`, `Handlers.Service`) and by methods with loops
(`Gate.HealthCheck`, `Downtime.Measure`, `EnvFile.FilterEnv`, `EnvFile.LoadEnv`,
`ServerBlock.CommentServerBlock`); the theorems are then proved about those specifications, over every run,
every fault schedule and every interleaving.

`dafny verify dfyconfig.toml` checks everything.

## Parts

| file | what it covers |
|---|---|
| `Basics.dfy` | optional values, colours, blanks in text |
| `Ledger.dfy` | the bounded deployment history and the search for a rollback target |
| `Gate.dfy` | `/health` and the retry loop that gates a promotion |
| `NginxConf.dfy` | rendering the nginx site and reading the live colour back from it |
| `Release.dfy` | deploy.py and rollback.py with every remote script, one outcome per call |
| `ReleaseSafety.dfy` | invariants over whole sequences of runs |
| `ReleaseOutcomes.dfy`, `Rollbacks.dfy`, `Incidents.dfy` | exit codes and ledger of deploys and rollbacks, the staleness guard, repeated rollbacks; concrete runs that contradict the documentation |
| `Traffic.dfy`, `ZeroDowntime.dfy`, `GracePeriod.dfy` | user requests interleaved with the commands of those runs |
| `Mysql.dfy`, `Replication.dfy` | two servers and GTID replication between them |
| `Scripts.dfy`, `ReplicaSetup.dfy`, `Failover.dfy`, `Recovery.dfy`, `DataTier.dfy` | the four database scripts as functions, what they promise, and the same scripts in place |
| `Shortener.dfy`, `Handlers.dfy` | concurrent `shorten` and `follow` handlers over table and cache; the same handlers in place and what each request gets |
| `Downtime.dfy` | the downtime measurement |
| `EnvFile.dfy`, `EnvValues.dfy` | the `.env` filter against the remote parser; what a file sets, from the side of its author |
| `ServerBlock.dfy` | the program that comments the stock nginx server block out |

## How failures are modelled

Each SSH, S3, database or cache call is one atomic step with an outcome chosen freely: it works, it fails
without effect, it takes part of its effect, or it takes effect and its reply is lost. Clocks, draws of
random codes, dependency health and the order of steps of different processes are parameters or
nondeterministic choices. What MySQL, nginx and docker do in one step is taken as given: auto-position skips
executed GTIDs, `RESET REPLICA ALL` discards the relay log, `SET PERSIST` survives a restart, a reload moves
new requests only, `docker stop -t` waits for the grace period. `switch_traffic.sh` is assumed not to die
between installing the file and reloading nginx; `NotTorn` states it and `TornSwitchEndangersLive` says what
happens without it.

## Where the code does not do what it or its documentation says

- deploy/common.py:41-50: exit 1 is said to come only from the teardown path of deploy.py, with traffic unmoved, and
  exit 3 to mean that nothing failed after traffic moved. The history write after promotion (deploy/deploy.py:182) and
  both ledger writes of a rollback (deploy/rollback.py:180 and 183) are not guarded, so Python exits 1 with the new tag
  live; the drain (deploy/deploy.py:146) and a lost reply of the switch exit 3 with the new tag live.
  `ExitCodesThatHideALiveDeploy` and `ExitCodesThatHideALiveRollback` give the exact conditions,
  `ExitCodeWitnesses` concrete runs.
- scripts/start_container.sh:28-29 says that removing the slot's container cannot affect live traffic. After a
  switch torn between install and reload the next deploy removes the live container (`TornSwitchEndangersLive`,
  `TornSwitchHitsLiveSlot`).
- deploy/rollback.py:116-129 guards against a stale ledger only while `/health` answers 200. A live service whose
  primary is down answers 503, reports no version, and the guard is skipped (`StaleRollbackMovesIff`); after deploys of
  a, b and c, the last with exit 2, a default rollback then makes a live (`StaleRollbackGoesTooFar`).
- scripts/db/setup_replication.sh:6 and 9 call the script safe to re-run. A run that dies at either arming command
  leaves a replica that a plain re-run reports as fine and does not arm (`ExitZeroArmsIff`, `PlainRerunDoesNotArm`).
- scripts/db/promote_replica.sh:35-43: the failure of STOP REPLICA IO_THREAD is ignored, so a successful drain poll
  does not imply that everything received is applied (`FailoverLosesExactly`, `LateFetchIsLost`).
- deploy/sync_scripts.py:70-82 says what must not reach the instance. The remote parser never sees blanks and NULs
  inside a name and honours a trailing plus sign, the filter keeps them all, so such a spelling gets through
  (`StrippedKeyLeaksIff`, `InnerBlankLeaks`).
- deploy/measure_downtime.py:88 reports a switch for one answer without the `X-Served-By` header between two of
  the same server (`SwitchReportedIffUnsteady`, `HeaderGapLooksLikeSwitch`).
- infra/user_data.sh:73 counts braces in comments, which nginx does not read (`BalanceKeptIff`).
- app/db.py:20-27 names no collation. Under a case-insensitive default a code in another spelling finds the same
  row; the shortener is therefore proved for every collation, with codes compared up to it.

## Model

| member | source | states |
|---|---|---|
| Basics.Inactive | scripts/lib.sh:94-98 | the slot for the next release is never the live one |
| Ledger.PreviousGood | deploy/rollback.py:87-98 | the tag of the newest success that does not name the live tag; none exactly when there is no such entry |
| Ledger.StoredIsSuffix | deploy/common.py:298-309 | after any number of appends the store holds exactly the last min(200, n) entries of the unbounded log |
| Ledger.PreviousGoodRefinesUnbounded | deploy/rollback.py:87-98 | on the truncated history the search finds what it would on the unbounded log, or nothing, and nothing exactly when the newest candidate has left the window; never another tag |
| Ledger.SwapRoundTrip | deploy/rollback.py:137-194 | a recorded rollback makes the previous live tag the next rollback target, even when the append drops the oldest entry |
| Gate.Health | app/main.py:103-139 | 500 exactly for a drill, 503 when the primary is down, else 200; ok exactly when all three dependencies answer, degraded still answers 200 |
| Gate.HealthCheck | scripts/healthcheck.sh:25-68 | exits 0 exactly when some attempt within the budget sees 200, ok or degraded, and the expected version; stops at the first such attempt; exact probe and sleep counts, exact seconds and the bound on them |
| Gate.PassMeansServing | scripts/healthcheck.sh:25-68 | passing is equivalent to the slot holding a non-drill build of the expected version that could reach the primary at some attempt; a drill never passes, whatever the budget |
| NginxConf.ReplaceConcat | scripts/switch_traffic.sh:35-38 | `sed` substitution distributes over concatenation when no match straddles the seam |
| NginxConf.RenderSplits | scripts/switch_traffic.sh:35-38 | rendering puts the port where the placeholder was and rewrites the text around it separately |
| NginxConf.RenderRoundTrip | scripts/lib.sh:81-98 | `active_color` of the file rendered for a colour is that colour, so the next slot is the other one |
| NginxConf.FirstServerLineIsGood | deploy/nginx/app.conf.template:7-10 | a test on the template that suffices for the round trip |
| NginxConf.RenderFills | scripts/switch_traffic.sh:35-38 | for every template without two braces in a row outside its placeholders, rendering fills every port and every colour placeholder, the X-Served-By header's included, and changes nothing else |
| NginxConf.ActiveColorIff | scripts/lib.sh:81-92 | a file names a colour if and only if its leftmost "server", blanks, loopback address and digits has that colour's port; with a foreign port there none is live |
| Release.Host.StartContainer | scripts/start_container.sh:25-61 | the whole new state for every point at which the script can die: stale container removed, new one created, running |
| Release.Host.Gate | deploy/deploy.py:93-104 | certifies the container exactly when the gate passes and the reply arrives |
| Release.Host.SwitchTraffic | scripts/switch_traffic.sh:28-64 | file and loaded configuration after every point of death, including the restore of an invalid configuration |
| Release.Host.StopContainer | scripts/stop_container.sh:19-27 | the slot after `docker stop` and `docker rm`, either of which may fail with only a warning |
| Release.Host.RecordAttempt | deploy/common.py:298-309 | reads, appends, truncates and writes the history; says whether an exception escapes |
| Release.Host.RunSwing | deploy/deploy.py:78-149 | the remote calls in order, stopped wherever one fails |
| Release.Host.RunDeploy | deploy/deploy.py:78-200 | state and exit of a whole deploy for every fault schedule, the loop of three ledger attempts included |
| Release.Host.Choose | deploy/rollback.py:116-137 | the staleness guard and the choice of target |
| Release.Host.RunRollback | deploy/rollback.py:116-200 | state and exit of a whole rollback for every fault schedule |
| ReleaseSafety.SwingKeeps | deploy/deploy.py:78-149 | one swing from a safe state ends in a safe state; traffic moves only to a certified container of the tag, otherwise routing is unchanged |
| ReleaseSafety.DeployKeeps | deploy/deploy.py:78-200 | every deploy keeps the invariant, wherever it stops |
| ReleaseSafety.RollbackKeeps | deploy/rollback.py:116-194 | every rollback keeps it |
| ReleaseSafety.EveryRunIsSafe | deploy/deploy.py:78-200 | over any sequence of runs, each stopping anywhere: file and loaded configuration agree at run boundaries, the live slot holds a running container that passed the gate for its own tag, no start or stop ever named the routed slot, nginx was only pointed at a running container |
| ReleaseOutcomes.DeployOutcomes | deploy/deploy.py:84-200 | which fault schedules lead to which exit, both ways; traffic moved exactly when the reload was reached, and the tag is then live |
| ReleaseOutcomes.DeployExitCodes | deploy/common.py:41-58 | the exit status in numbers, each if and only if: 0 everything recorded, 2 last-good not recorded, 1 torn down or a history write that raised, 3 every other end |
| ReleaseOutcomes.SwingCommands | deploy/deploy.py:78-149 | for every fault schedule the exact list of starts, reloads and stops with their slots and grace |
| ReleaseOutcomes.RejectedLeavesNoTrace | deploy/deploy.py:105-137 | a version that fails the gate is stopped in its own slot with one second of grace, and nothing of it remains when docker obeys |
| ReleaseOutcomes.PromotedStandsAlone | deploy/deploy.py:139-149 | a promoted version is a new container in the spare slot; the old one is stopped after the reload with the grace of the release and then the new one is alone |
| ReleaseOutcomes.DeploysAlternate | scripts/lib.sh:94-98 | the first version ever goes live in blue, and after n deploys that go through the live slot follows the parity of n |
| ReleaseOutcomes.DrillsNeverSwitch | deploy/deploy.py:86-141 | a deploy with --break-health never reaches the switch, whatever the retry budget and the faults; routing and last-good stay |
| ReleaseOutcomes.DeployWrites | deploy/deploy.py:120-194 | for every fault schedule exactly what a deploy leaves in last-good and history |
| ReleaseOutcomes.DeployLedger | deploy/deploy.py:156-200 | return 0: live tag, last-good and newest entry agree; return 2: tag live, history as before, last-good too unless a put took effect; the return at line 137: routing as before and one failed entry |
| ReleaseOutcomes.ExitCodesThatHideALiveDeploy | deploy/common.py:41-58 | exactly when a deploy exits 1 or 3 although its tag is live |
| Rollbacks.ExitCodesThatHideALiveRollback | deploy/common.py:41-58 | the same for a rollback: 1 exactly when it got to the ledger and a write raised |
| ReleaseOutcomes.ExitCodeWitnesses | deploy/deploy.py:182-194 | two concrete runs that do so |
| ReleaseOutcomes.TornSwitchEndangersLive | scripts/switch_traffic.sh:39-59 | after a switch torn between install and reload the next deploy starts in the live slot exactly when something was live, and then its commands are no longer safe |
| Incidents.TornSwitchHitsLiveSlot | scripts/start_container.sh:28-33 | a run from an empty instance in which this happens |
| Rollbacks.RollbackOutcomes | deploy/rollback.py:116-200 | which fault schedules lead to which exit, both ways; traffic moved exactly when the reload was reached, and the target is then live |
| Rollbacks.RollbackHalts | deploy/rollback.py:116-137 | exactly when a rollback ends before it starts anything, and with which exit; otherwise it goes for `--tag` if given, else for the newest success that is not the recorded one |
| Rollbacks.NamedRollback | deploy/rollback.py:130-194 | `--tag` is obeyed, on a stale ledger too: that tag is live if the run gets through, and after exit 0 last-good and the newest entry name it; otherwise nothing moves |
| Rollbacks.RollbackExitCodes | deploy/common.py:41-58 | the exit status of a rollback in numbers, each if and only if |
| Rollbacks.RollbackLedger | deploy/rollback.py:155-194 | for every fault schedule exactly what a rollback leaves in last-good and history |
| Rollbacks.RollbackGuard | deploy/rollback.py:116-137 | in every reachable state, stale ledgers included, a default rollback of a service that reports its version stops with nothing touched or targets a recorded success that is not live |
| Rollbacks.StaleRollbackMovesIff | deploy/rollback.py:116-137 | on a stale ledger a default rollback moves traffic if and only if the service does not report a version, the history has a success other than the stale record, and the run reaches the reload; that older tag is then live |
| Incidents.StaleRollbackGoesTooFar | deploy/rollback.py:116-137 | deploys of a, b and c with exit 2 for c, then a default rollback: stopped if the version is reported, otherwise a is live instead of c |
| Rollbacks.RollbackSwaps | deploy/rollback.py:137-194 | one passing default rollback exchanges live tag and target, colour and last-good |
| Rollbacks.DeployMakesConsistent | deploy/deploy.py:156-200 | a deploy that returns 0 with a success of another tag in the history leaves the state from which rollbacks swap |
| Rollbacks.RollbackIsAnInvolution | deploy/rollback.py:137-194 | after n passing default rollbacks tag, colour and last-good are the original for even n and the same alternative for odd n, despite truncation |
| ReleaseOutcomes.RedeployReconciles | deploy/deploy.py:167-180 | deploying the live tag again repairs a stale ledger |
| Traffic.StepSound | scripts/stop_container.sh:24-27 | each arrival, tick, command and end of a drain keeps every unanswered request in a container that can still answer it |
| Traffic.PlayCovers | scripts/stop_container.sh:24-27 | a request that fits into the grace of a stop stays covered whatever follows |
| Traffic.NoRequestIsLost | scripts/stop_container.sh:24-27 | a request that finds the routed slot accepting is held there for the seconds it needs and has a fate after them, in every interleaving |
| ZeroDowntime.NothingIsRefused | deploy/deploy.py:78-149 | in every interleaving of clients with the commands of any runs no request is routed to a stopping or removed container |
| ZeroDowntime.GraceIsHonoured | scripts/stop_container.sh:24-27 | a request in flight at a stop whose remaining service fits into the grace is answered |
| ZeroDowntime.EveryRequestIsAnswered | deploy/deploy.py:139-149 | when each run that moves traffic retires the old container, every request is answered unless it needed more than a drain's grace |
| ZeroDowntime.UnfinishedDrainKills | scripts/stop_container.sh:25 | when a run moves traffic and its stop has no effect or never comes, the next run that starts a container kills every request the old one still holds |
| GracePeriod.SwingPatient | deploy/deploy.py:111-149 | the old container is stopped with the grace of the release, and the one-second stop only ever hits a slot without user requests |
| GracePeriod.ShortRequestsAreAnswered | scripts/stop_container.sh:4-7 | over any such runs whose grace is at least g, in every interleaving every request that needs at most g seconds is answered, whenever it arrives |
| Replication.SyncIsPrefix | scripts/db/setup_replication.sh:3-8 | in a synchronous pair the replica's data, and its data with its relay log, is a prefix of the primary's commits |
| Replication.NextFetch | scripts/db/setup_replication.sh:54-66 | auto-position gets exactly the commit after the last one received |
| Replication.RunsKeepSync | scripts/db/setup_replication.sh:33-66 | commits, fetches, applies, binlog expiry, lost connections, restarts and setup commands in any order never skip or repeat a transaction while clients write to the primary only |
| Replication.ArmedRunsKeepSync | scripts/db/setup_replication.sh:68-72 | an armed replica stays armed and in sync even if clients try to write to it |
| Replication.RunsApplyOnce | scripts/db/setup_replication.sh:54-66 | in sync or not, no server executes a transaction twice |
| Replication.DrainedIffEqual | scripts/db/setup_replication.sh:74-80 | while the primary has not expired what is missing, nothing left to fetch or apply is equivalent to equal data |
| Replication.CatchesUp | scripts/db/setup_replication.sh:74-80 | a streaming replica reaches the primary's data in at most two steps per missing commit |
| Replication.DivergencePersists | scripts/db/restore_db.sh:54-60 | two transactions under one GTID stay apart in every continuation without another restore |
| Scripts.RestartsKeepTheRole | scripts/db/promote_replica.sh:48-52 | a promoted server stays writable and an armed one read-only across restarts |
| Scripts.RestartOpensIff | scripts/db/setup_replication.sh:68-72 | after a restart a replica takes a client's write exactly when read_only was not persisted |
| ReplicaSetup.SetupArms | scripts/db/setup_replication.sh:33-85 | a setup that ends normally leaves an armed replica with a source; without --force it does nothing exactly when the IO thread is seen running |
| ReplicaSetup.SetupDoneIff | scripts/db/setup_replication.sh:33-101 | exit 0 with work done if and only if it was forced or saw no IO thread, no command was missed and the SQL thread runs |
| ReplicaSetup.QuietSetupSucceeds | scripts/db/setup_replication.sh:33-85 | left alone, a setup that is forced or sees no IO thread succeeds from every state |
| ReplicaSetup.SetupDiscardsRelay | scripts/db/setup_replication.sh:54-66 | between its reset and its start nothing undelivered is left over |
| ReplicaSetup.SetupKeepsSync | scripts/db/setup_replication.sh:33-80 | setup, complete or cut short and however interleaved, keeps the pair in sync |
| ReplicaSetup.ExitZeroArmsIff | scripts/db/setup_replication.sh:25-85 | under every interleaving a setup that exits 0 leaves an armed replica if and only if it was forced, or did not see the IO thread running, or the replica was armed when it looked |
| ReplicaSetup.PlainRerunDoesNotArm | scripts/db/setup_replication.sh:33-72 | for a death before each command: whether a plain re-run reports success, and how far the replica is armed then |
| ReplicaSetup.UnarmedAndReportedFine | scripts/db/setup_replication.sh:33-72 | a death at either arming command leaves an unprotected replica reported as fine |
| Failover.PromotionIsGuarded | scripts/db/promote_replica.sh:33-52 | after no step of a failover, of its polls or of whatever happens in between is the replica writable while a source is configured; at the end it is writable for good |
| Failover.PollSeesDrained | scripts/db/promote_replica.sh:37-43 | the poll succeeds exactly when at one of its looks the SQL thread runs on an empty relay log |
| Failover.PromotedData | scripts/db/promote_replica.sh:45-52 | the promoted data is what was applied when the relay log was discarded |
| Failover.RunReceives | scripts/db/promote_replica.sh:33-45 | while a failover is under way applied data and relay log together grow by exactly what is fetched |
| Failover.FailoverLosesExactly | scripts/db/promote_replica.sh:33-52 | whether or not the IO stop took effect, promoted data and what is left in the relay log are everything received, a prefix of the commits; nothing received is lost exactly when the relay log is empty at STOP REPLICA, which a drained poll guarantees if the IO stop took effect or nothing is fetched after it |
| Failover.LateFetchIsLost | scripts/db/promote_replica.sh:35-46 | from every state, a transaction fetched by the last step before STOP REPLICA is not in the promoted server |
| Failover.LevelPairLosesNextCommit | scripts/db/promote_replica.sh:35-46 | a level, streaming pair whose IO stop failed loses any commit fetched after the successful poll |
| Failover.DrainPollAloneCanLose | scripts/db/promote_replica.sh:35-46 | a pair to which this happens |
| Recovery.RestoreSyncs | scripts/db/restore_db.sh:47-73 | a completed restore of both servers puts them in sync on the dump from any state and under any commits, and leaves the replica without a source and writable until setup runs |
| Recovery.RestoreCompletesIff | scripts/db/restore_db.sh:47-73 | an uninterrupted restore completes if and only if nobody commits between the reset and the load of the primary |
| Recovery.RestoreCutDies | scripts/db/restore_db.sh:47-73 | one that is interrupted never reports success |
| Recovery.DeathBeforeLoadKeepsData | scripts/db/restore_db.sh:47-70 | a restore that dies before it loads a server, or never gets to the replica, has lost no data of that server |
| Recovery.PrimaryOnlyRestoreDiverges | scripts/db/restore_db.sh:47-73 | after the script restored only the primary, under every interleaving with it and every later run: once the primary issues a GTID that the replica holds beyond the dump, with another body, the pair has diverged for good |
| Recovery.PrimaryOnlyRestoreKeepsReplica | scripts/db/restore_db.sh:54-60 | what the replica held before such a restore it still holds in every later run |
| Recovery.BackupRestoreRoundTrip | scripts/db/backup_db.sh:39-48 | a backup of the replica is a commit prefix with exactly its GTIDs, and restoring it gives that snapshot back |
| Recovery.RestoreThenForcedSetup | scripts/db/restore_db.sh:47-86 | restore and then setup --force ends armed and in sync, and in every later run the replica is a prefix of the primary although GTIDs are issued again |
| DataTier.Pair.SetupReplication | scripts/db/setup_replication.sh:33-85 | state and exit of the script in place, stopped before any command |
| DataTier.Pair.DrainRelayLog | scripts/db/promote_replica.sh:37-43 | the polling loop and whether it saw the drained state |
| DataTier.Pair.PromoteReplica | scripts/db/promote_replica.sh:22-80 | state, exit and the application's database host after a failover that dies before it stops the IO thread, during the polls, before any command, between the last command and the `.env` edit, or after the edit |
| DataTier.Pair.RestoreDb | scripts/db/restore_db.sh:27-73 | without confirmation, backup or integrity nothing is touched; otherwise both servers and the exit, also when the script dies or a command is rejected |
| DataTier.Pair.BackupDb | scripts/db/backup_db.sh:34-66 | a file is uploaded exactly when the dump succeeded, it is not empty, gzip accepts it and it creates a table; the latest pointer moves last and always names such a file |
| Handlers.Service.InsertLink | app/db.py:87-92 | a row is created or the call raises, or both when the reply is lost; a duplicate key only raises |
| Handlers.Service.IncrementClicks | app/db.py:106-111 | one click on the row of the code, or none, or one and an exception |
| Handlers.Service.Shorten | app/main.py:46-71 | 400 exactly for an invalid URL; 201 with the first of the five draws that neither fails, loses its reply nor meets a taken code; else 503; rows and cache after each; and the whole is a run of the step machine |
| Handlers.Service.Follow | app/main.py:74-85 | 404 exactly when cache and table do not know the code, 302 with the URL that was found once its click is counted, 500 when the table is out of reach or the count fails; clicks and cache after each; and the whole is a run of the step machine |
| Shortener.RepliesFitRequests | app/main.py:46-85 | in every interleaving a 400 answers an invalid URL and an invalid URL gets nothing else, a 201 names the submitted URL, 302, 404 and 500 the requested code |
| Shortener.RowsComeFromValidUrls | app/main.py:50-60 | every insert that committed belongs to a request with a valid URL, namely the row's |
| Shortener.NextKeeps | app/main.py:46-85 | every single call of every handler, eviction and worker death keeps the invariant |
| Shortener.CacheAgreesWithTable | app/cache.py:33-45 | in every interleaving each cached URL equals the row of its code |
| Shortener.EvictionIsInvisible | app/main.py:76-82 | after Redis drops an entry a lookup goes to the table and finds the same URL |
| Shortener.RedirectsLeadHome | app/main.py:74-85 | every 302 goes to the URL of the one insert that created the row |
| Shortener.CreatedCodesAreDistinct | app/main.py:53-71 | no two 201s name the same row, and each names a row its own request inserted |
| Shortener.ClicksAreAccounted | app/main.py:84-85 | a row's clicks are its committed increments: its 302s, the 500s whose increment had committed, and the increments whose response died with the worker or is still to be sent |
| Shortener.ClicksCoverRedirects | app/db.py:106-111 | clicks are never fewer than 302s, and with no request under way equal exactly when no committed increment ended in a 500 or lost its worker |
| Shortener.DeathAfterCommit | app/main.py:84-85 | from every state with a request about to count, a death between commit and response leaves a click without a 302 |
| Shortener.NoNotFoundOnceCreated | app/main.py:77-80 | once a row exists, a request for its code is answered 404 only if it had read the table before |
| Shortener.OneAnswerEach | app/main.py:46-85 | no request is answered twice |
| Downtime.Measure | deploy/measure_downtime.py:65-108 | one pass computes, for the whole log, the total, failures, latencies, colour counts, the last switch, and the longest outage as the maximum over maximal blocks of failures |
| Downtime.CountsAddUp | deploy/measure_downtime.py:79-96 | successes and failures make up the total and colour counts sum to the successes |
| Downtime.SuccessIsListed | deploy/measure_downtime.py:78-84 | every success is listed in order with its latency and its server |
| Downtime.FailureIsListed | deploy/measure_downtime.py:93-97 | every failure is listed in order with its time |
| Downtime.OutageCoversEveryStretch | deploy/measure_downtime.py:85-108 | no stretch without a success lasts longer than the reported outage |
| Downtime.NoOutageIffNoFailure | deploy/measure_downtime.py:85-108 | the outage is zero exactly when no probe failed |
| Downtime.SwitchReportedIffUnsteady | deploy/measure_downtime.py:88-92 | no switch is reported exactly when one server answered throughout, then perhaps none that names itself |
| Downtime.HeaderGapLooksLikeSwitch | deploy/measure_downtime.py:88-92 | three successes of one server, the middle one without the header, are reported as a switch |
| Downtime.WindowPartitions | deploy/measure_downtime.py:122-127 | near and away partition the failures by the ten-second window |
| Downtime.SplitPartitions | deploy/measure_downtime.py:122-127 | so do the two lists of the report; without a switch every failure is away from one |
| Downtime.ZeroDowntimeClaim | deploy/measure_downtime.py:122-127 | the headline zero means that no failed probe lies within ten seconds of the last switch, and only that |
| Downtime.ReportAddsUp | deploy/measure_downtime.py:122-145 | near, away and successes add up to the total |
| Downtime.SortIsRight | deploy/measure_downtime.py:110 | the sorted latencies are an ordered permutation of the samples |
| Downtime.PercentileExact | deploy/measure_downtime.py:112-115 | `pct(p)` is the one sample with more than n*p samples at or below it and at most n*p below it |
| Downtime.PercentilesAreOrdered | deploy/measure_downtime.py:138-139 | percentiles are monotone in p and never exceed the maximum |
| EnvFile.FilterEnv | deploy/sync_scripts.py:85-98 | the loop's output text and the keys it reports |
| EnvFile.LoadEnv | scripts/lib.sh:21-40 | the environment after the loop, or that it aborts at a bad name |
| EnvValues.MeansWritten | scripts/lib.sh:29-38 | an assignment in any quotes, padding and line ending sets or appends to its name; the value arrives unchanged if and only if it holds no NUL and has nothing at its ends that reads as a quote or as the line's carriage return |
| EnvValues.LoadOne | scripts/lib.sh:21-40 | the line NAME=value, bare or in one layer of either quotes, sets NAME to the value, equals signs inside it included |
| EnvValues.LoadWritten | scripts/lib.sh:21-40 | a file of such assignments, comments and idle lines gives exactly the environment its author meant, in order |
| EnvValues.DroppedIffStripped | deploy/sync_scripts.py:83-90 | a padded assignment is dropped exactly when it names one of the six keys and does not append |
| EnvValues.ShippedWritten | deploy/sync_scripts.py:83-99 | filtered and loaded on the instance, such a file gives what its author meant less the plain assignments to the six keys |
| EnvValues.ValueStaysHome | deploy/sync_scripts.py:88-90 | what is shipped of a dropped line depends on its key alone |
| EnvValues.ReportedIff | deploy/sync_scripts.py:85-94 | the keys the filter reports are exactly the stripped keys that head a line |
| EnvFile.SameLines | scripts/lib.sh:25-29 | with LF or CRLF endings the parser and the filter see the same lines |
| EnvFile.ReadBack | deploy/sync_scripts.py:98-99 | the parser reads back exactly the lines the filter wrote |
| EnvFile.FilterThenLoad | deploy/sync_scripts.py:83-98 | filtering commutes with parsing on all keys that are not stripped, values and last-wins order included |
| EnvFile.FilterThenLoadStrictly | scripts/lib.sh:38 | the same where a bad name aborts the script |
| EnvFile.StrippedKeyLeaksIff | deploy/sync_scripts.py:86-90 | a stripped key reaches the instance exactly when a line spells it with blanks or NULs inside or a plus sign after it |
| EnvFile.InnerBlankLeaks | scripts/lib.sh:34 | a blank or NUL inside any of the six names does so |
| ServerBlock.CommentServerBlock | infra/user_data.sh:66-81 | every line is kept in order up to an added sign, and the commented ones are exactly the first server block |
| ServerBlock.OpensIff | infra/user_data.sh:69 | a line opens a block if and only if it is blanks, the word server, blanks and an opening brace, whatever follows |
| ServerBlock.Ending | infra/user_data.sh:72-77 | the block ends with the first later line that brings the nesting to zero or below, or with the file |
| ServerBlock.BalanceKeptIff | infra/user_data.sh:66-81 | what nginx reads of a balanced configuration stays balanced if and only if the opening line's extra braces plus the final depth equal the braces in the block's comments |
| ServerBlock.StockBlockIsSafe | infra/user_data.sh:66-81 | when the opening line holds one brace and the block closes at depth zero at a line's end, it stays balanced if and only if the braces in the block's comments cancel |
| ServerBlock.PlainBlockIsSafe | infra/user_data.sh:66-81 | in particular when no line of the block has braces in a comment |

## Left out

- SSH, scp, boto3, docker, nginx and MySQL internals: each call is an atomic step with the outcomes described above. A lost SSH connection is taken to leave no remote process running.
- Two operators at once: Jenkins serializes builds, so runs follow one another; an interleaving of two runs is not modelled.
- Containers that die on their own, a reboot of the instance, and gunicorn's own limit on graceful shutdown.
- scripts/db/promote_replica.sh:66-83: the failover recreates the live slot's container so that it sees the new host; that deliberate restart is outside the release invariant and only its success shows, and of the `.env` edits only the primary host is kept.
- scripts/db/setup_replication.sh:39-45 and 87-101: the replication account and the final check for the application account only read or grant; they do not change replication state. The refusal of MySQL to stream to a replica that has more GTIDs than the source is not modelled, so the model allows more behaviours.
- Mysql.Do: a connection that is lost and retried counts as a running IO thread that fetches nothing for a while, although the server then reports the thread as connecting and a plain setup would reconfigure it.
- DataTier.Pair.RestoreDb: loading a dump is one step, so a server left with half a dump is not covered.
- DataTier.Pair.BackupDb: the local file, its removal after a failed check and the pruning of older ones are left out; a file that passes the checks is taken to load as what was dumped.
- Release.Host.Gate: the gate probes the slot. deploy/deploy.py:94-99 probes the port of the operator's own configuration (deploy/common.py:266-267) while the container listens on the port of the instance's `.env`; that the two agree is assumed.
- NginxConf.RenderRoundTrip: stated for every template that meets the condition; that the shipped text meets it is not evaluated character by character.
- Handlers.Service.Shorten: JSON decoding, the URL check, the code alphabet and the S3 record are parameters or left out; `/stats` reads the replica and is left out.
- Shortener.Collation: the equality of codes is any function of the spelling; which one MySQL uses is not fixed.
- Downtime.Measure: the loop is given the probes it made, so the deadline, the pacing and the printing are outside; times are exact and rounding is left out. The library sort is modelled by a function that is proved to be an ordered permutation.
- EnvFile.LoadEnv: shell variables that `export` refuses to overwrite, and settings named like the function's own local variables, are not modelled; characters are compared as in the C locale.
- ServerBlock.CommentServerBlock: `nginx -t` and the restore of the backup are left out; quoting inside nginx configuration is ignored when braces are counted.
- infra/provision.py, infra/teardown.py, scripts/local_stack.sh, the Jenkinsfile, app/s3_store.py and deploy/healthcheck.py: sequences of library calls with no state worth an invariant.
