# Verified model of the mini-control runner service

The service gives every queued GitHub Actions job a VM of its own and must release that VM
again, through crashes, lost replies, capacity rejections, a state file that lags behind
memory, and other workers that act at the same time. These Dafny files model that behaviour and
prove its guarantees. `dafny verify dfyconfig.toml` checks all of them.

| file | what it models |
|---|---|
| `Records.dfy` | job keys, the ten states, idempotency keys, memory and disk image of the records |
| `Protocol.dfy` | the whole system as one step machine: workers, reconciler, poller, store, network, server, shutdown, crash |
| `Invariant.dfy`, `InvariantSteps.dfy` | the inductive invariant and its preservation by every action |
| `Safety.dfy`, `Fleet.dfy` | theorems over all runs |
| `Adoption.dfy`, `StaleAdoption.dfy`, `AdoptionProgress.dfy` | reading a record and spawning its worker later: what survives, and exactly when |
| `Boundaries.dfy` | where the guarantees end: restarts, stale adoptions, deletes that fail |
| `Environment.dfy`, `Job.dfy` | `runJob` and everything below it as a class whose every step is a protocol action |
| `Scaler.dfy` | `Submit`, `Resume`, `spawn` and the map of active workers |
| `Reconciler.dfy` | the orphan clock, the record walk, whole sweeps and their convergence |
| `Store.dfy` | the state file: sorted list, temporary file, sync, rename, power loss |
| `Server.dfy` | the server's idempotency table and VM IDs |
| `TokenBucket.dfy` | the create-side token bucket under concurrent callers |
| `Discovery.dfy` | paged discovery of queued jobs behind the `updated_at` gate |
| `Runners.dfy` | paged runner listing, busy check, runner names and clean-up |
| `Bootstrap.dfy`, `Text.dfy` | shell quoting, the in-VM status protocol, the string operations they need |

How the parts hang together: `Protocol.Sys` is the global state, `Apply` one atomic step,
`Valid` a run. A worker (`Job.JobWorker`) is ordinary imperative code; between two of its steps
the rest of the system performs an arbitrary script of protocol actions, and replies come from
an arbitrary oracle. Its invariant says that everything done so far is a run of the protocol from
the initial state, so what holds of all runs holds of the code. `Store.ViewCommutes`,
`Server.HandleIsServe`, `Scaler.VerdictIsStep` and `Scaler.OrphanIsStep` tie the store, the
server and the sweep to the same protocol.

In the protocol, `Spawn` and `Close` read a record and act on it in one step. The code reads it
first, in a listing (`internal/reconciler/reconciler.go:101-125`) or before `spawn`
(`internal/scaler/scaler.go:77-82`), and acts later. `Adoption.View` adds that gap: any version
read since the process began may be adopted, or its record finished, at any later time.
`Adoption.PromptRunsAreRuns` says that all theorems about runs hold while the version acted on
is still the current one. Beyond that they do not all hold; `StaleAdoption.TwoVmsIffNotHarmless`
and `AdoptionProgress.FallsBehindIffNotAhead` give the exact conditions for the bound of one VM
per try and for durable progress, and `Boundaries.StaleAdoptionMakesTwoVms` shows that the code
can break them.

Where comments in the repository say more than the code does, the model follows the code:

- `internal/scaler/job.go:536-538` says a record whose VM cannot be deleted stays in DELETING. The
  code marks it COMPLETE (`internal/scaler/job.go:158-164`); `Boundaries.CompleteWithLiveVm` is such
  a run, and `Safety.DroppedOnlyWhenGone` says that three failed deletes must come first.
- The repository's `README.md:39-41` says a record completes only when GitHub says so. It also completes when GitHub
  does not answer and the runner exited with code 0, and when a sibling runs the job
  (`internal/scaler/job.go:411-424`); `Job.DoneWithoutGithub` gives the exact condition.
- `internal/scaler/job.go:27-28` says deletion-only resumes skip the queue. They do not, and after a
  restart a queued job may overtake a resumed one: by `Boundaries.OneFleetIffNoRestart`
  MaxConcurrentVMs bounds the VMs held exactly as long as no process was restarted.
- `internal/state/store.go:124` calls the write atomic. It is, as `Store.NeverTorn` says, but the
  directory is never synced, so a power loss may bring an earlier file back: `Store.SettledIff`.

## Model

| member | source | states |
|---|---|---|
| `Safety.AtMostOneVmPerTry` | internal/scaler/job.go:78-94 | over every run with crashes, failed writes, 409s, 429s and lost replies the server creates at most one VM per try of a record, adoption reading the current version |
| `Safety.VmsPerRecord` | internal/scaler/job.go:42-61 | a record's whole life costs at most MaxRetriesPerJob + 1 VMs, adoption reading the current version |
| `Safety.KeyDurableBeforeSend` | internal/scaler/job.go:82-91 | when a create request leaves, the file already holds this record in CREATING with exactly the request's key |
| `Safety.SentKeyStaysCovered` | internal/scaler/job.go:202-208 | from then on no version of the record on disk would ask for another VM in the same try, adoption reading the current version |
| `Safety.DurableProgress` | internal/scaler/job.go:55-61 | (retry, rank) on disk never decreases over any run; only a higher retry lowers the rank; terminal records are final; adoption reading the current version |
| `Safety.RunKeepsFloor` | internal/state/store.go:164-170 | neither memory nor disk ever falls behind a version that was durable once, adoption reading the current version |
| `Safety.NoDurableVmLost` | internal/scaler/job.go:111-118 | a live VM whose ID ever reached the disk is held by a non-terminal record in memory and on disk, unless three deletes failed |
| `Safety.RecordNamesItsVm` | internal/scaler/job.go:100-102 | a record names a VM exactly from WAIT_READY to DELETING, and it is the VM created for this very try |
| `Safety.DroppedOnlyWhenGone` | internal/scaler/job.go:539-558 | a record stops answering for a VM only once it is gone or three deletes failed |
| `Safety.NoncesNeverRepeat` | internal/state/store.go:64-71 | no two create requests of a run show the same nonce |
| `Adoption.PromptRunsAreRuns` | internal/reconciler/reconciler.go:101-125 | a run in which every version adopted or finished is still the current one is a run of the protocol |
| `Adoption.AtMostOneVmWhileHarmless` | internal/scaler/scaler.go:77-82 | one VM per try survives any delay between reading a record and acting on it, as long as no adopted version can still ask in a try in which a request made a VM or may; a sweep may finish any version it read |
| `Adoption.VmsPerRecordWhileHarmless` | internal/scaler/job.go:42-61 | so does the bound of MaxRetriesPerJob + 1 VMs per record |
| `Adoption.SentKeyCoveredWhileHarmless` | internal/scaler/job.go:202-208 | and no version in memory or on disk would ask for another VM of such a try |
| `Adoption.PromptIsCautious` | internal/scaler/scaler.go:132-153 | the current version of a record is always harmless to adopt |
| `StaleAdoption.TwoVmsIffNotHarmless` | internal/reconciler/reconciler.go:120-124 | after any run with harmless adoptions, adopting a version read earlier makes two VMs of one try reachable if and only if that version is not behind some request that made a VM or may |
| `AdoptionProgress.RunHolds` | internal/scaler/scaler.go:132-153 | no stored version falls behind a bound while the versions adopted or finished store nothing behind it, over any run |
| `AdoptionProgress.FallsBehindIffNotAhead` | internal/reconciler/reconciler.go:120-124 | adopting a version read earlier lets the file fall behind what was stored before if and only if the first version its worker stores does |
| `InvariantSteps.RunKeepsInv` | internal/scaler/job.go:76-168 | every run keeps the invariant behind these theorems |
| `InvariantSteps.EnterKeeps` | internal/scaler/job.go:78-90 | entering CREATING keeps it: a persisted key is reused, a fresh try gets a new one |
| `InvariantSteps.FreshKeyKeeps` | internal/scaler/job.go:202-208 | replacing a key after a committed rejection keeps it |
| `InvariantSteps.MintKeeps` | internal/state/store.go:64-71 | a record may take a new key when no request that made or may make a VM bears this try |
| `InvariantSteps.PutKeeps` | internal/state/store.go:164-170 | a worker's write keeps it whether or not it reaches the disk |
| `InvariantSteps.PostKeeps` | internal/minicontrol/client.go:151-169 | sending a durable key, for the first time or again, keeps it |
| `InvariantSteps.RetryKeeps` | internal/scaler/job.go:55-61 | falling back to QUEUED forgets a VM only when it is gone |
| `InvariantSteps.DeleteKeeps` | internal/scaler/job.go:543-557 | each of the three delete tries keeps it, performed or not, answered or not |
| `InvariantSteps.CloseKeeps` | internal/reconciler/reconciler.go:107-119 | completing an unowned JOB_DONE or DELETING record from a listing of VMs taken earlier keeps it, check, DELETE and write being one step |
| `InvariantSteps.CrashKeeps` | internal/state/store.go:96-122 | losing memory and reopening the file keeps it |
| `Fleet.FleetBound` | internal/scaler/job.go:27-34 | slots never exceed MaxConcurrentVMs; held VMs never exceed MaxConcurrentVMs per process started so far |
| `Fleet.FirstProcessOwnsItsVms` | internal/scaler/scaler.go:132-153 | before any shutdown or restart every held VM belongs to one record, whose worker holds a slot |
| `Fleet.RunBounded` | internal/scaler/scaler.go:107-115 | the counting invariant behind both holds over every run, restarts included |
| `Boundaries.FleetBoundIsMet` | internal/scaler/job.go:29-34 | for every limit and every number of restarts some run holds exactly MaxConcurrentVMs VMs per process, while the slots stay within the limit |
| `Boundaries.OneFleetIffNoRestart` | internal/scaler/job.go:27-34 | MaxConcurrentVMs bounds the VMs held in every run with n restarts if and only if n is 0 |
| `Boundaries.StaleAdoptionMakesTwoVms` | internal/reconciler/reconciler.go:101-125 | a run that lists a queued job, lets its worker come and go, and can then adopt the listed version, from where two VMs of one try are reachable |
| `Boundaries.CompleteWithLiveVm` | internal/scaler/job.go:157-166 | a run that ends with a COMPLETE record whose VM lives and counts as an orphan |
| `Boundaries.CreateSucceeds` | internal/scaler/job.go:188-195 | any queued worker with a free slot can get and record a VM |
| `Environment.PlayedRun` | internal/scaler/scaler.go:132-153 | whatever others do between two steps of a worker is a run that leaves this worker alone |
| `Job.JobWorker.Request` | internal/minicontrol/client.go:155-160 | a request leaves unless the process stops or the transport fails |
| `Job.JobWorker.Ask` | internal/scaler/job.go:189-215 | one request: granted, refused, rate limited with the server's delay or five seconds, or unanswered |
| `Job.JobWorker.Rekey` | internal/scaler/job.go:202-208 | after a refusal a fresh key is persisted before it is used, or the attempt fails |
| `Job.JobWorker.Pause` | internal/scaler/job.go:216-227 | no wait ends past the deadline; behind every wait GitHub is asked, and the requests go on if and only if it does not call the job completed |
| `Job.JobWorker.TryOnce` | internal/scaler/job.go:189-215 | exactly one request: won, no room with a durable fresh key, slowed by the server's delay plus a second, or failed for a reason |
| `Job.JobWorker.AskAndWait` | internal/scaler/job.go:188-228 | one turn of the create loop: one request, a fresh key exactly if it was refused for capacity, and the sleep behind it, within the deadline |
| `Job.JobWorker.CreateRound` | internal/scaler/job.go:188-228 | its place in the loop: the sleeps so far fill the time, follow the backoff and alternate with the requests |
| `Job.JobWorker.CreateVm` | internal/scaler/job.go:185-229 | the sleeps of the call fill its time; the wait after the n-th refusal is the n-th backoff whatever 429s interleave; GitHub is asked behind every sleep and wanted the job until the end; requests are bounded by budget / least wait + 1; each way of ending has its cause |
| `Job.BackoffDoubles` | internal/scaler/job.go:200-201 | doubling and capping step by step gives min(2^n initial, max) from the second wait on |
| `Job.WaitsAreLong` | internal/minicontrol/client.go:225-234 | no wait is shorter than min(initial, max, 1 s) |
| `Job.JobWorker.AwaitReady` | internal/scaler/job.go:239-277 | ready means that a poll of this call showed the VM ready with credentials; failing means the VM is doomed, the time is over or the process stops |
| `Job.JobWorker.Register` | internal/scaler/job.go:288-311 | the record carries the runner ID GitHub issued in this call and the name made from VM, job and fresh nonce; the registration of an earlier try is dropped first |
| `Job.JobWorker.BootstrapRunner` | internal/scaler/job.go:281-327 | a launched VM is re-attached unchanged; otherwise success means registered, staged and launched |
| `Job.JobWorker.Busy` | internal/scaler/job.go:514-526 | not busy exactly when a complete listing shows the runner idle or gone |
| `Job.JobWorker.HandleEvents` | internal/scaler/job.go:381-391 | what a batch of events does to the record and to the knowledge that the job is over |
| `Job.JobWorker.ReadMarker` | internal/scaler/job.go:395-437 | the in-VM marker is read once and ends monitoring exactly when it is decisive, with the outcome that the exit code or GitHub, asked behind it, dictates |
| `Job.DoneWithoutGithub` | internal/scaler/job.go:410-435 | when a record counts as done although GitHub does not call its job completed: exactly for a sibling, or for exit code 0 without a usable answer |
| `Job.JobWorker.PollJob` | internal/scaler/job.go:456-477 | the job counts as running here exactly if GitHub names our runner, the ID before the name |
| `Job.JobWorker.CheckRelease` | internal/scaler/job.go:480-506 | release needs a listing that shows the runner idle, taken behind this tick's marker and behind the word that the job is over; an extended pickup deadline never moves the job deadline |
| `Job.JobWorker.Inspect` | internal/scaler/job.go:393-507 | the marker once, GitHub every third time, the release check; a completed job is noticed |
| `Job.JobWorker.TakeEvents` | internal/scaler/job.go:374-391 | the sleep of a tick: stopped exactly on shutdown, and the job known to be over exactly if it was or an event says so |
| `Job.JobWorker.Tick` | internal/scaler/job.go:393-507 | one tick reads the marker exactly once, or stops; it goes on within the budget or ends with a reason found in it |
| `Job.JobWorker.Monitor` | internal/scaler/job.go:364-509 | the marker is read once a tick, at increasing turns, and monitoring stops at the first decisive one; otherwise only for a listing, taken behind the last read, that shows the runner idle, for the budget or for a shutdown |
| `Job.JobWorker.DeleteOnce` | internal/scaler/job.go:543-557 | one DELETE, successful exactly if it acted and its reply came, and the pause behind a failed one |
| `Job.JobWorker.DeleteVm` | internal/scaler/job.go:539-559 | one to three tries, fewer than three only if the last one succeeded, at most six seconds, carried through on shutdown |
| `Job.JobWorker.FailCleanup` | internal/scaler/job.go:111-118 | a cancelled context never causes a failure-path delete: nothing but the worker's position changes |
| `Job.JobWorker.Drain` | internal/scaler/job.go:158-166 | JOB_DONE and DELETING records end COMPLETE; a registration is removed exactly if a listing taken behind the deletes shows it ours and reapable |
| `Job.JobWorker.RemoveRegistration` | internal/scaler/job.go:563-579 | the same for the leftover registration alone, from a complete listing only |
| `Job.JobWorker.WriteKeyAhead` | internal/scaler/job.go:78-90 | an interrupted create keeps its key; the key is on disk before the create loop starts |
| `Job.JobWorker.CreatingBlock` | internal/scaler/job.go:78-106 | ends with a recorded VM, a completed record that needs none, or an error, within the budget |
| `Job.JobWorker.PrepareBlock` | internal/scaler/job.go:121-137 | from WAIT_READY or BOOTSTRAPPING up to RUNNER_UP, or a failure with its cause |
| `Job.JobWorker.WorkBlock` | internal/scaler/job.go:121-155 | JOB_DONE only when no VM is needed any more; otherwise a cause or a shutdown |
| `Job.JobWorker.LiveBlock` | internal/scaler/job.go:108-167 | a live VM is given up for a cause, released when its work is over, or kept on shutdown |
| `Job.JobWorker.MachineBlock` | internal/scaler/job.go:108-167 | the same from any record with a VM: COMPLETE, a retryable error or a shutdown, in bounded time |
| `Job.JobWorker.StartBlock` | internal/scaler/job.go:76-106 | QUEUED and CREATING records create, all others are taken up where they stand |
| `Job.JobWorker.Attempt` | internal/scaler/job.go:76-168 | from any non-terminal state: every COMPLETE and every error has its reason, found at a turn of this attempt, in bounded time |
| `Job.JobWorker.AfterError` | internal/scaler/job.go:37-61 | FAILED exactly when retries are used up or pointless, else COMPLETE if GitHub, asked now, calls the job completed, and one more try if not |
| `Job.JobWorker.RunJob` | internal/scaler/job.go:24-70 | a worker with a slot ends with a terminal record or on shutdown, within LifeBound, every step being a protocol action |
| `Job.WholeLife` | internal/scaler/job.go:36-69 | LifeBound is (R+1)(2 maxJob + provision + poll + statusPoll + 6 s) + initial R(R+1)/2 |
| `Job.WorkerSafety` | internal/scaler/job.go:76-94 | the theorems over runs hold at every point of this code |
| `Scaler.Scaler.Submit` | internal/scaler/scaler.go:52-105 | an event is one protocol action or none; an active worker gets it unless its channel of eight is full |
| `Scaler.Scaler.Spawn` | internal/scaler/scaler.go:132-153 | a key never gets a second worker |
| `Scaler.Scaler.Resume` | internal/scaler/scaler.go:107-115 | after start-up exactly the unfinished records have a worker each, others are untouched |
| `Scaler.EffectOnce` | internal/scaler/scaler.go:64-97 | events are always possible, and a second copy of one makes no second record and no second worker |
| `Scaler.FinishedForGood` | internal/scaler/scaler.go:77-80 | once a record is terminal, then over any run until it is pruned or the process crashes no event of the job has an effect, the record stays as it is and no request leaves for it |
| `Scaler.VerdictIsStep` | internal/reconciler/reconciler.go:101-125 | each verdict of the walk, taken on the current record, is a protocol action with the same effect on records and VMs |
| `Scaler.OrphanIsStep` | internal/reconciler/reconciler.go:73-92 | so is each orphan deletion |
| `Scaler.YoungVmSpared` | internal/reconciler/reconciler.go:73-92 | at any state of any run, a live VM whose ID reached its record within the grace period of its creation is not due, unless three deletes of it failed |
| `Reconciler.ClockMeans` | internal/reconciler/reconciler.go:73-98 | an entry of the clock is the time since when every successful listing showed an orphan |
| `Reconciler.OrphanGrace` | internal/reconciler/reconciler.go:83-92 | a VM is collected only after an unbroken row of such listings at least OrphanGrace long |
| `Reconciler.YoungVmNotCollected` | internal/reconciler/reconciler.go:73-92 | a VM that is an orphan only within a window no longer than the grace period is never due |
| `Reconciler.Convergence` | internal/reconciler/reconciler.go:55-130 | with no work left, two error-free sweeps a grace period apart leave all records terminal or pruned and every VM deleting, whatever fails in between |
| `Reconciler.Sweeper.VisitVm` | internal/reconciler/reconciler.go:74-91 | one listed VM: its clock entry and whether it is deleted |
| `Reconciler.Sweeper.SweepOrphans` | internal/reconciler/reconciler.go:71-98 | the loop leaves exactly the clock of the specification and deletes exactly the due orphans |
| `Reconciler.Sweeper.VisitRecord` | internal/reconciler/reconciler.go:102-125 | one record: pruned, completed, adopted or kept, with its delete re-issued first |
| `Reconciler.Sweeper.Walk` | internal/reconciler/reconciler.go:100-126 | the walk visits every record once, in any order |
| `Reconciler.Sweeper.Sweep` | internal/reconciler/reconciler.go:55-130 | a sweep is one round of the world that Convergence speaks about, whatever HasVM answered VM by VM |
| `Store.RoundTrip` | internal/state/store.go:126-135 | reading the written list gives exactly the same map |
| `Store.FromListKeyed` | internal/state/store.go:118-121 | every entry read is filed under its own record's key |
| `Store.Canonical` | internal/state/store.go:131-136 | the file depends on the records alone, not on map iteration |
| `Store.CrashAtomic` | internal/state/store.go:124-161 | a power loss anywhere on a write's trail adds the new records, whole, to what could be found before and nothing else |
| `Store.NeverTorn` | internal/state/store.go:124-161 | over any sequence of writes, failed or cut short, and power losses Open finds the first records or those of one write |
| `Store.AcknowledgedStays` | internal/state/store.go:139-161 | and never older ones than the last acknowledged write unless a power loss brings an earlier file back |
| `Store.SettledIff` | internal/state/store.go:160 | what a power loss leaves is certain if and only if every file the unsynced directory may bring back has the same records |
| `Store.StateStore.SortedRecords` | internal/state/store.go:127-136 | the list is strictly sorted by key and holds exactly the records |
| `Store.StateStore.Persist` | internal/state/store.go:126-161 | succeeds exactly without fault, with the state file replaced; a failure leaves it alone; its trail is such a trail |
| `Store.StateStore.Upsert` | internal/state/store.go:164-170 | memory always, disk only on success; one write of such a sequence, wherever it is cut |
| `Store.StateStore.Delete` | internal/state/store.go:192-197 | the same for removal |
| `Store.StateStore.HasVm` | internal/state/store.go:211-220 | true exactly if a non-terminal record references the VM |
| `Store.Open` | internal/state/store.go:96-122 | a missing file, an unreadable one, a corrupt one moved aside, and an intact one read back; the store can be written whatever the file was |
| `Store.ViewCommutes` | internal/state/store.go:164-197 | these operations are the store steps of the protocol |
| `Server.KeyTextInjective` | internal/state/store.go:64-71 | keys of different job, attempt, retry or nonce are different texts |
| `Server.KeyFits` | internal/minicontrol/client.go:152-154 | every key is within 1 to 128 bytes |
| `Server.MiniControl.HandleCreate` | internal/minicontrol/fake/fake.go:236-330 | refines the specification of the create endpoint, errors included |
| `Server.MiniControl.HandleDelete` | internal/minicontrol/fake/fake.go:191-202 | after a DELETE the VM is gone, found or not |
| `Server.CommittedForEver` | internal/minicontrol/fake/fake.go:265-274 | a committed reply never changes |
| `Server.Replays` | internal/minicontrol/fake/fake.go:265-289 | a created or capacity-rejected reply is replayed to the same key and body after any history, changing nothing |
| `Server.OnlyCommitsCount` | internal/minicontrol/fake/fake.go:259-280 | 400s and 429s are not committed; only a first 201 creates a VM |
| `Server.OneVmPerKey` | internal/minicontrol/fake/fake.go:302-326 | over every history as many VMs were created as keys have a created reply, no key twice |
| `Server.PadRepeats` | internal/minicontrol/fake/fake.go:364-371 | two VMs share an ID exactly if their numbers agree modulo 1000 |
| `Server.TextsDiffer` | internal/state/store.go:64-71 | the keys of any two requests of a run are different texts as long as ShortNonce does not repeat itself |
| `Server.HandleIsServe` | internal/minicontrol/fake/fake.go:265-329 | in every run, handling a delivered request under its key's text is the protocol's Serve step or changes nothing the protocol sees |
| `TokenBucket.RateBound` | internal/minicontrol/client.go:48-58 | any concurrent callers are granted at most 5 + 2T tokens in a window of T seconds |
| `TokenBucket.Conservation` | internal/minicontrol/client.go:51-56 | tokens stay in [0, 5] and grants never exceed the refill |
| `TokenBucket.WaitSuffices` | internal/minicontrol/client.go:59-65 | after the computed wait the caller succeeds unless a competitor was granted a token |
| `TokenBucket.BurstIsFive` | internal/minicontrol/client.go:32-35 | a full bucket grants five at once and no sixth |
| `TokenBucket.Bucket.Take` | internal/minicontrol/client.go:50-60 | one critical section of the loop |
| `TokenBucket.Bucket.WaitCreateToken` | internal/minicontrol/client.go:48-67 | the loop among competitors: granted in time, or ended just when its context ends |
| `Discovery.GateLosesNothing` | internal/githubapp/client.go:328-401 | over any polls that GitHub answers the gated refs are in total exactly the ungated ones |
| `Discovery.KnownExact` | internal/githubapp/client.go:361-401 | a poll keeps the gate truthful if and only if everything its failing repositories had read before they failed is returned, then or earlier |
| `Discovery.HarmlessErrors` | internal/githubapp/client.go:340-348 | after any polls whose errors dropped nothing, an answered poll returns, with what was returned before, exactly what an ungated one would |
| `Discovery.GateWithinLive` | internal/githubapp/client.go:350-357 | after a poll the gate holds only runs on pages that poll asked for |
| `Discovery.ErrorHidesJob` | internal/githubapp/client.go:386-394 | with one failed listing a job is hidden although nothing fails any more |
| `Discovery.LabelsSatisfiable` | internal/githubapp/client.go:469-483 | true exactly if labels are demanded and each is offered, case aside |
| `Discovery.ListQueuedJobsInRun` | internal/githubapp/client.go:403-432 | the refs of at most three pages, in order, or an error |
| `Discovery.Discoverer.VisitRuns` | internal/githubapp/client.go:375-394 | one page of runs: gate, deduplication, entries written before a later error |
| `Discovery.Discoverer.ListQueuedJobsInRepo` | internal/githubapp/client.go:361-401 | both run statuses, at most five pages each |
| `Discovery.Discoverer.ListQueuedJobs` | internal/githubapp/client.go:336-359 | a broken repository is skipped, the gate pruned to live runs; on shutdown the first failure ends the poll with nothing found and the gate unpruned |
| `Runners.ListRunners` | internal/githubapp/client.go:281-298 | exactly the server's list in order when it is shorter than 2000 and every page arrives, else an error |
| `Runners.RunnerBusy` | internal/scaler/job.go:514-526 | unknown counts as busy, a missing registration as idle |
| `Runners.FirstBusyIff` | internal/scaler/job.go:520-525 | with unique IDs that verdict is the server's |
| `Runners.CleanRunners` | internal/reconciler/reconciler.go:141-170 | the registrations removed, in order |
| `Runners.OwnRunnerStale` | internal/reconciler/reconciler.go:146-164 | one of our registrations is removed exactly if reapable and no listed VM shares the cut part of its ID |
| `Runners.ListedVmKeepsRunner` | internal/scaler/job.go:301-305 | never that of a listed VM, for any prefix, ID (even with "-j" in it), job or nonce |
| `Runners.StaleOnesIff` | internal/reconciler/reconciler.go:142-168 | the loop removes all stale registrations and no other |
| `Bootstrap.QuotedIsOneWord` | internal/bootstrap/bootstrap.go:137-141 | for every string the shell reads the quoted text as one word with exactly that value |
| `Bootstrap.StagedVerbatim` | internal/bootstrap/bootstrap.go:58-67 | both blobs of the staging command reach printf verbatim |
| `Bootstrap.ParseStatus` | internal/bootstrap/bootstrap.go:98-118 | refines the meaning of a status reply |
| `Bootstrap.StatusRoundTrip` | internal/bootstrap/bootstrap.go:76-118 | phase, exit code and trimmed log are recovered from any printable status file and any log, even one containing the separator, unless the phase exceeds a scanner line, which hides both |
| `Bootstrap.ScriptIsUnderstood` | internal/bootstrap/scripts/bootstrap.sh.tmpl:8-35 | for every stage of the script, Launched, Failed, Done and the exit code read what it did |

## Left out

- Safety.AtMostOneVmPerTry: assumes that adoption acts on the current version (exact condition: `StaleAdoption.TwoVmsIffNotHarmless`), that nonces never repeat (they are a counter here), that the create body stays the same, and that the state file is not lost.
- Safety.VmsPerRecord: assumes that adoption acts on the current version; `Adoption.VmsPerRecordWhileHarmless` needs less.
- Safety.SentKeyStaysCovered: assumes that adoption acts on the current version; `Adoption.SentKeyCoveredWhileHarmless` needs less.
- Safety.DurableProgress: assumes that adoption acts on the current version (exact condition: `AdoptionProgress.FallsBehindIffNotAhead`).
- Safety.RunKeepsFloor: assumes the same, with the same exact condition.
- Safety.NoDurableVmLost: like all theorems about runs of the protocol, holds of the code while adoption acts on the current version, by `Adoption.PromptRunsAreRuns`.
- InvariantSteps.CloseKeeps: in the code the check for a worker, the DELETE and the write of a snapshot are three steps; `Adoption.Retire` is such a write at any later time, and one VM per try does not depend on it.
- Reconciler.Convergence: in a sweep each record visit is atomic and no other writer interleaves, as no worker is active; VMs may vanish at any time.
- Job.JobWorker.RunJob: calls take no time, only sleeps count; waiting for the slot comes before and is unbounded.
- Job.JobWorker.HandleEvents: a worker takes the events of one tick before the tick itself; Go's select may interleave them otherwise.
- Server.HandleIsServe: VM IDs are fresh only below a thousand VMs, as `Server.PadRepeats` says; the real server's IDs are taken to be fresh.
- TokenBucket.RateBound: over the reals; rounding and the truncation of waits to nanoseconds are not modelled.
- TokenBucket.Bucket.WaitCreateToken: of a timer and a cancellation that are due together the cancellation wins; Go picks either.
- Discovery.GateLosesNothing: the jobs of a run are taken to be settled by its ID and time stamp as long as they can be read.
- Store.StateStore.Persist: the rename is atomic; only the newest temporary file is tracked, and JSON encoding is taken to be invertible. A crash of the protocol restarts from the file as last renamed; a power loss that brings an earlier one back is not one of its steps.
- Reconciler.YoungVmNotCollected: speaks of one listing history; `Scaler.YoungVmSpared` ties it to the states of a run, whose steps carry no times of their own.
- Records carry the fields the state machine drives; labels, URLs, error texts and the ordering of `List` are left out.
- `life` in a record and its keys is history: it tells apart two records of the same job after the first was pruned.
- HTTP, JSON, headers, timeouts: each remote call is an oracle that may also act and lose its reply.
- Runner download resolution and its cache, script rendering, base64, randomness: library calls or plain selection.
- Heartbeats, log messages, worker-tag diagnostics, repository selection of the poller and runner scopes: no hard property.
- Configuration is constant; intervals are positive as `Job.Config.Positive` says.
- Case folding covers ASCII letters only.
