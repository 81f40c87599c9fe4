# A verified model of the sandbox compute drivers

The repository runs sandboxes as virtual machines. Two drivers, one over KubeVirt
and one over EC2, share a registry of sandbox records that admits, updates and
forgets sandboxes under a lock and tells watchers about every change. A
background poll reconciles the registry with what the provider lists. This
project models that lifecycle in Dafny and proves what it keeps.

**The registry.** `Store` has one pure function for each locked method and
proves, over every sequence of operations, that generations (leases) are never
reused and that reservations respect the capacity. `Registry` is the class the
drivers call: its methods are proved against those functions, and its fan-out of
events keeps a ghost history of what was broadcast and what each watcher got.
`Replay` relates the events to the records they are meant to describe.

**The KubeVirt driver, interleaved.** `Lifecycle` is a state machine in which
creates, deletes, stops, resolves and polls take one registry step or one
provider call at a time, in any order, with the provider and the clock as
adversaries. `LifecycleInvariant` is its inductive invariant;
`LifecycleSafety` holds the statements about whole runs, `LifecycleWrites` what each
step writes, `LifecyclePolls` what a poll bases its writes on, `LifecycleCalls` whom a
call acts on and what its reply means, and `LifecycleRuns` two runs that show what
does not hold.

**The polls, alone.** `Reconcile` describes what a complete poll of either driver
does to one sandbox; the drivers differ in the instance they keep, in the state
they take over and in whether an absent sandbox needs a confirmed cleanup.
`KubeWatcher` and `Ec2Watcher` are the polls themselves, with their loops,
in-place slices and calls on the registry; `Polling` and `Phases` put what the
loops did together. A `Moment` is what can be seen between calls: the records,
the broadcasts, who reads them, the calls of Terminate with their answers, and
the clock. `PollGuarantees` states what every poll and every run of polls
guarantees from one moment to another: convergence, stability, fail-closed expiry,
and that nothing listed is lost; `PollWrites` what a poll makes of every record,
field by field, and `PollOrder` that the order of a listing decides nothing. `KubeSupervisor` and `Ec2Supervisor` are the loops around the polls;
`Supervisor` holds what these share and, with `Watching`, the stream a client reads
while they run. `Transitions`, `Fleet`, `Ordering`, `Sorting`, `KubeWrites` and
`Ec2Writes` hold what the polls share.

**The Kubernetes adapter.** `ObjectStore` says what a request does to the objects
of a namespace; it may fail although it was applied. `LaunchSpec` gives the
launch transaction (create or verify a Secret and a VirtualMachine, make one own
the other, compensate) and the termination as functions of the objects and of
what will happen to each request; `KubeApi` is the adapter, request by request
over the `Cluster`, proved equal to them. `LaunchFacts` says what they guarantee,
`DroppedSecret`, `OwnedSecret` and `UnownedSecret` exactly when they do not. `KubeListing` is the paged, normalised listing.

**Supporting cores.** `Quantity` and `Selection` parse resource quantities and
select an instance type; `Identity` shows that the NUL-joined texts behind
request identities determine their fields; `Base64` and `SecurityBlock` print the
bootstrap files and read them back.

Modelling decisions. Time is a count of nanoseconds with Go's zero time at 0, and
durations saturate as `time.Time.Sub` does. Go strings are sequences of bytes,
each a char. A sort is any permutation in order; a map is iterated in any order.
A channel is a value with a bounded buffer, known by number. The provider, the
clock, jitter and API faults are nondeterministic. Instance names are
non-empty, the clock does not go backwards, update closures keep the sandbox id
and the lease, and records are added with lease 0, as the drivers do. Ghost
results of a poll (the choices and readings it made) are witnesses its own
contract ties to the log of Terminate calls and to the clock.

Findings. Some things the code or its comments suggest do not hold, and the
project says when:

- A rollback by id removes a reservation of a newer generation if and only if its
  own was retired and the id is reserved again, unbound.
- An EC2 commit follows the sandbox id: it lands in its own generation if and only
  if that was not retired, and in another one if and only if the id was taken again.
- EC2 forgets a sandbox whose oldest listed instance is terminated even if a
  younger one runs; a listed sandbox is tracked if and only if that oldest
  instance is not terminated.
- A launch deletes the Secret of a VM it did create if and only if it created the
  Secret, could not create or verify the VM although it is there, and the try that
  decided the outcome was not itself undecided: the retry loop forgets that an
  earlier try was.
- The cap on the KubeVirt watcher's backoff: the base delay after a failure reaches
  the interval if and only if that is at most a minute, and with jitter every wait
  after a failure is shorter than the interval if and only if that is at least 75
  seconds.
- A launch returns OK although its VM does not own its Secret if and only if the only
  request of the handover's last try was interrupted, none before it was applied and
  the Secret was not owned already: client-go's conflict retries report an interruption
  as the conflict before it, and as success if there was none.
- A stored launch that a delete has marked is a tombstone if and only if no poll's
  update has reached it. A poll that lists the VM as running undoes it, and the create
  may then commit although the delete was acknowledged.

## Model

| member | source | states |
|---|---|---|
| Store.LeaseNeverReturns | pkg/safeguards/safeguards.go:57-64 | over every sequence of registry operations, a generation whose record was once removed is never the lease of a stored record again |
| Store.RegistryRunSafe | pkg/safeguards/safeguards.go:113-206 | after every run the stored leases are distinct and between 1 and the last issued, live records that entered by reservation are at most the effective maximum although Add may exceed it, the record count is inserts minus removals, and no stored record holds a token |
| Store.EffectOf | pkg/safeguards/safeguards.go:120-206 | every operation does exactly one of four things to one id: nothing, insert a fresh generation, rewrite a generation in place, remove it; a reservation inserts only below capacity |
| Registry.Registry.ReserveWithLease | pkg/safeguards/safeguards.go:120-135 | known id first, then capacity, which defaults to 10, then a record of the next lease without the token; a refusal changes nothing |
| Registry.Registry.Add | pkg/safeguards/safeguards.go:137-152 | refuses a known id, issues a lease only to a record without one, ignores the capacity |
| Registry.Registry.Delete | pkg/safeguards/safeguards.go:161-167 | returns the record stored under the id and removes it and nothing else |
| Registry.Registry.Rollback | pkg/safeguards/safeguards.go:169-175 | removes only an unbound record of that id |
| Registry.Registry.UpdateIf | pkg/safeguards/safeguards.go:177-195 | applies the change exactly when the record exists and the predicate accepts a copy of it; returns what it stored |
| Registry.Registry.DeleteIf | pkg/safeguards/safeguards.go:197-206 | removes exactly the accepted record and returns it |
| Registry.Registry.All | pkg/safeguards/safeguards.go:208-216 | a snapshot with every stored record once, in some order |
| Registry.Registry.Expired | pkg/safeguards/safeguards.go:226-237 | exactly the records of known creation time past the age limit, by default eight hours, that are not terminated, each once |
| Registry.Registry.Subscribe | pkg/safeguards/safeguards.go:239-250 | registers a fresh empty channel and takes the snapshot in the same step, so no broadcast falls between them |
| Registry.Registry.RemoveWatcher | pkg/safeguards/safeguards.go:257-264 | closes a channel that is still registered and does nothing for one already disconnected, so no channel is closed twice |
| Registry.Registry.Broadcast | pkg/safeguards/safeguards.go:266-284 | a registered watcher with fewer than 64 events waiting gets the event; any other is closed, removed and counted; no send or second close on a closed channel |
| Registry.BroadcastKeepsFanOut | pkg/safeguards/safeguards.go:266-284 | one broadcast keeps, for every channel ever made, that received and buffered events are a gapless run of the broadcasts since its subscription |
| Registry.WatcherSeesEverything | pkg/safeguards/safeguards.go:239-284 | received plus buffered equals all broadcasts since subscription, in order and with at most 64 waiting, for a connected watcher; a prefix of them for a disconnected one |
| Replay.PollsExplained | pkg/safeguards/safeguards.go:66-71 | if the events of each of a sequence of polls explain its change, all of them replayed over the first registry view give the last one |
| Replay.DrainedWatcherAgrees | pkg/safeguards/safeguards.go:239-284 | for every state of the fan-out: if the broadcasts since a watcher subscribed explain the change of the registry since, then, connected and drained, it sees exactly the registry when it replays what it received over its snapshot |
| Replay.ProjectionShows | pkg/safeguards/safeguards.go:66-71 | the picture replayed to is the one that shows of every record its id, name, namespace, workspace, last status and spec without the token |
| Fleet.KeeperCharacterised | drivers/kubevirt/watcher.go:75-97 | what sorting, filtering and scanning keep is the oldest live instance that is not finished, or the oldest live one when all are, ids breaking ties |
| Fleet.KeeperUnique | drivers/kubevirt/watcher.go:75-97 | with distinct instance names there is only one such instance |
| Fleet.KeeperIsChosen | drivers/kubevirt/watcher.go:75-97 | the keeper in words: not deleted; unfinished before succeeded or failed; then the older; then the smaller name |
| Fleet.StringLePrecedes | drivers/kubevirt/watcher.go:75-80 | names compare byte by byte: by the first difference, otherwise the shorter first |
| Fleet.SortUnique | drivers/kubevirt/watcher.go:75-80 | with distinct names any two results of the unstable sort are the same sequence |
| Fleet.GroupPermutes | drivers/kubevirt/watcher.go:67-72 | permuting a listing only permutes each sandbox's group |
| Sorting.CompactLive | drivers/kubevirt/watcher.go:81-86 | the in-place compaction over the slice being read leaves exactly the live instances, in order, at its front |
| Sorting.ChooseKeeper | drivers/kubevirt/watcher.go:90-97 | the scan stops at the keeper of the live instances |
| Sorting.GroupBySandbox | drivers/kubevirt/watcher.go:67-72 | the map has an entry for exactly the named sandboxes of the listing, each holding its instances in listing order |
| LifecycleInvariant.RunKeeps | drivers/kubevirt/driver.go:124-363 | the inductive invariant of the interleaved driver holds in every world of every run |
| LifecycleInvariant.TerminalUnreachable | drivers/kubevirt/watcher.go:116-124 | in every world of every run no poll is about to delete a record because its keeper is terminal |
| LifecycleSafety.GenerationsAndCapacity | pkg/safeguards/safeguards.go:120-152 | in every run: distinct bounded leases, retired generations stay away, live reservations within capacity, count is inserts minus removals |
| LifecycleSafety.WritesOwnGeneration | drivers/kubevirt/watcher.go:144-202 | a commit, a tombstone and every poll write change only the record of the generation they were decided for and leave it in that generation |
| LifecycleSafety.ReleaseIsEarned | drivers/kubevirt/watcher.go:162-187 | a bound record leaves the registry only by poll's guarded delete, after three counted absences of that very generation and a cleanup of its instance that returned nil; an unbound one only by the rollback of a create for its id |
| LifecycleSafety.CleanupHappened | drivers/kubevirt/watcher.go:172-178 | behind every confirmed cleanup there is an earlier step of the run at which a poll's Terminate of that instance returned nil |
| LifecycleSafety.LaunchedVmIsAccountedFor | drivers/kubevirt/driver.go:195-213 | from its launch on, a named VM is being committed or compensated, or is committed, or this create itself called Terminate on it at a step since the launch |
| LifecycleSafety.CommitOrCompensate | drivers/kubevirt/driver.go:143-213 | a finished create whose launch returned a named VM either returned OK with that VM committed under its own lease, or failed after a step of this very create, since its launch, called Terminate on that VM for that lease |
| LifecycleSafety.CompensationHappened | drivers/kubevirt/driver.go:201-210 | behind every compensation on record there is an earlier step at which a create of that generation called Terminate on the VM it had launched |
| LifecycleSafety.CommitBindsOwnRecord | drivers/kubevirt/driver.go:195-210 | a commit step succeeds if and only if its own generation was not retired and no refusing state is recorded there, and then binds the VM in the record of its lease |
| LifecycleSafety.UntaintedCommits | drivers/kubevirt/driver.go:195-200 | in every run a create whose generation is still stored and untouched by deletes, stops, expiry or tombstones commits, whoever adopted the VM meanwhile |
| LifecycleSafety.AdoptionKeepsCommit | drivers/kubevirt/driver.go:347-358 | adopting a VM in a resolve or a poll retires no generation and taints none unless the provider reports a refusing state |
| LifecycleSafety.TombstoneHolds | drivers/kubevirt/driver.go:287-307 | once marked, a stored launch is an unbound tombstone if and only if no poll update has reached it; while none has, its create never returns OK, and when it has returned, that very create had called Terminate on the VM it launched and the generation is gone |
| LifecycleSafety.FailureIsOwn | drivers/kubevirt/driver.go:201-210 | a create that has failed after its launch had itself, at an earlier step of the run, called Terminate on that VM for its own lease |
| LifecycleSafety.PolledRecorded | drivers/kubevirt/watcher.go:144-152 | a generation counts as reached by a poll if and only if the write of a poll that decided on exactly that generation was accepted |
| LifecycleSafety.MarkedCommits | drivers/kubevirt/driver.go:195-200 | a marked create commits after all if and only if its generation is still stored, a poll update has reached it, and its state refuses no commit |
| LifecycleRuns.TombstoneUndone | drivers/kubevirt/driver.go:287-307 | a run from the empty registry: a launch is marked by a delete that returns OK, a poll sees its VM running and binds the record, and the create commits |
| LifecycleSafety.MarkRecorded | drivers/kubevirt/driver.go:287-307 | a generation counts as marked only through a successful mark of exactly that generation |
| LifecycleSafety.RollbackAcrossGenerations | drivers/kubevirt/driver.go:150-155 | in the interleaved driver a rollback removes another generation's record if and only if its own was retired and the id is reserved again, still unbound |
| LifecycleRuns.RollbackIsNotLeaseSafe | drivers/kubevirt/driver.go:150-155 | a run from the empty registry: an id reserved, adopted by a resolve, missed by three polls, released and reserved again loses its second, unbound record to the late rollback of the first create |
| LifecycleSafety.CallStepKeepsCounters | drivers/kubevirt/driver.go:124-363 | no step of a create, delete, stop or resolve moves a miss counter, except to start a record at 0 |
| LifecycleSafety.CallsAreARound | drivers/kubevirt/driver.go:124-363 | whatever creates and calls do between two polls of a run is one round of calls for the miss counters |
| LifecycleWrites.StepRewrites | drivers/kubevirt/driver.go:124-363 | the whole registry after a commit, a mark, an adoption, a stop or delete, a refresh, a miss or an expiry, field by field, for every run: rewritten exactly if the record meets the guard, and nothing else |
| LifecycleWrites.StepReserves | drivers/kubevirt/driver.go:133-150 | the record a create reserves, field by field, or the refusal |
| LifecycleWrites.StepLaunches | drivers/kubevirt/driver.go:174-195 | which VM a create commits, with which state and age, and when it rolls back instead |
| LifecycleWrites.StepDecides | drivers/kubevirt/watcher.go:116-143 | a poll refreshes exactly if instance, state or misses are not as listed, where a requested stop or delete is not undone by Running, and recovers exactly if there is no record |
| LifecycleWrites.StepRecovers | drivers/kubevirt/watcher.go:125-136 | the record of a recovered sandbox, field by field; an age of zero or more than five minutes ahead becomes just too old |
| LifecycleWrites.StepInserts | drivers/kubevirt/driver.go:337-346 | a resolved sandbox is added with the next lease unless its id has come up meanwhile |
| LifecycleWrites.GenerationKeepsIdentity | pkg/safeguards/safeguards.go:177-195 | over every run id, name, namespace, workspace and spec of a generation never change |
| LifecycleWrites.StepTerminates | drivers/kubevirt/watcher.go:99-198 | every Terminate a create or a poll makes, of which instance, and how each goes on from the answer |
| LifecycleWrites.StepRemoves | pkg/safeguards/safeguards.go:169-206 | what a rollback and a poll remove: an unbound record of the id; exactly the generation and instance cleaned up, at the third miss or later |
| LifecyclePolls.StepGoesOn | drivers/kubevirt/watcher.go:62-209 | a poll goes through every sandbox listed, then the absences, then what is overdue; it gives up only without a listing, at an instance it cannot terminate, or at a sandbox that has come up meanwhile |
| LifecyclePolls.StepVisits | drivers/kubevirt/watcher.go:74-98 | a sandbox all of whose instances are deleted is passed over, any other is dealt with |
| LifecyclePolls.WritesFollowListing | drivers/kubevirt/watcher.go:67-160 | over every run a poll refreshes or recovers a sandbox from the instance its own listing says to keep, after its Terminate of every other live one returned nil |
| LifecyclePolls.MissesAreAbsences | drivers/kubevirt/watcher.go:162-187 | over every run a poll counts a miss, asks for a cleanup and releases only if its own listing shows no live instance of the sandbox |
| LifecyclePolls.ScanTakesAbsent | drivers/kubevirt/watcher.go:162-170 | the absence loop takes exactly the bound records no live instance was listed for |
| LifecyclePolls.ExpiriesAreDue | drivers/kubevirt/watcher.go:189-207 | over every run a poll terminates and marks for age only what was overdue at its reading of the clock |
| LifecyclePolls.SelectTakesOverdue | drivers/kubevirt/watcher.go:189-192 | the expiry loop takes exactly what is overdue, bound and not already deleting |
| LifecycleCalls.MarkIsAsked | drivers/kubevirt/driver.go:287-307 | over every run a delete marks at most one launch, of the id or name it was asked for, changes nothing else, and is then done |
| LifecycleCalls.NobodyIsPassedOver | drivers/kubevirt/driver.go:287-307 | a delete that goes on to resolve had taken a snapshot and tried every unbound record in it with the id or name asked for, each no longer a launch of that generation when tried |
| LifecycleCalls.FindById | drivers/kubevirt/driver.go:309-317 | a request by id resolves to the record of that id if it is bound, and asks the provider otherwise |
| LifecycleCalls.FindByName | drivers/kubevirt/driver.go:318-330 | a request by name resolves to the only bound record of that name, fails if there are several, and asks the provider if there is none |
| LifecycleCalls.ListResolves | drivers/kubevirt/driver.go:331-346 | the provider resolves a request exactly with one live instance; none is not found, several are an error |
| LifecycleCalls.ResolveGoesOn | drivers/kubevirt/driver.go:346-363 | what was resolved is added, adopted by a launch under way, or gives way to a bound record; then a stop or delete acts on that very instance |
| LifecycleCalls.SuccessIsEarned | drivers/kubevirt/driver.go:226-285 | over every run a stop or delete that reports success marked a launch or had the provider succeed; a delete had called Terminate on what it resolved |
| Reconcile.PollTracksKept | drivers/ec2/watcher.go:61-119 | after one complete poll of either driver a listed sandbox is tracked if and only if the instance kept for it is not down, and then bound to it with no misses; for EC2 that is the oldest, for KubeVirt the keeper among the live ones |
| Reconcile.TerminatedElderWins | drivers/ec2/watcher.go:62-88 | an older terminated instance beside a running one leaves the sandbox untracked after any EC2 poll |
| Reconcile.PollUnlisted | drivers/kubevirt/watcher.go:162-187 | one complete poll adds one miss to an unlisted bound sandbox, keeps its instance, drops it only at the third miss or later with a confirmed cleanup and then always, and leaves in-flight reservations alone |
| Reconcile.SecondPollIsIdle | drivers/kubevirt/watcher.go:138-208 | for one listed sandbox a second poll of the same instances at the same time ends in the same record up to status times, for both drivers, although EC2 refreshes an expired sandbox and shuts it down again on the way |
| Reconcile.RoundCounts | drivers/kubevirt/watcher.go:63-66 | one round raises a miss counter by at most one and only if it was a complete listing without the sandbox; a failed or aborted round never does |
| Reconcile.MissesAreBounded | drivers/kubevirt/watcher.go:142-187 | over every history of polls and calls, from any registry whose counters are 0, a miss counter is at most the number of trailing complete listings without the sandbox |
| Reconcile.RemovalNeedsThreeMisses | drivers/kubevirt/watcher.go:14-14 | a poll of either driver removes a record it was not shown as down only if it is bound, after three complete listings without its sandbox, its own the last, and none with it since the first |
| Reconcile.KubeVirtKeepsNothingDown | drivers/kubevirt/watcher.go:81-97 | no KubeVirt poll is shown a sandbox as down, so the removal rule covers all its removals |
| Transitions.UntrustedAgeExpires | drivers/kubevirt/watcher.go:127-130 | a record recovered with a zero or far-future creation time is expired later in the same poll if and only if its state is not "terminated" |
| PollGuarantees.ListedAreAccountedFor | drivers/kubevirt/watcher.go:99-160 | after a complete poll every listed instance that is not down is bound in the registry or was passed, in this poll, to a Terminate that returned nil |
| PollGuarantees.ReleasedAfterCleanup | drivers/kubevirt/watcher.go:162-187 | a KubeVirt poll drops a record only if it is bound, not listed live, at its third miss or later, and a Terminate of its own instance returned nil in this poll |
| PollGuarantees.ExpiredAreHandled | drivers/kubevirt/watcher.go:189-207 | after a complete poll of either driver every bound record due for expiry has the final state, or a Terminate of its own instance failed in this poll and it is still tracked and due |
| PollGuarantees.UnknownAgeIsReaped | drivers/kubevirt/watcher.go:125-135 | a sandbox first seen with no creation time, or one in the far future, has the final state when that poll ends, or the Terminate of its instance failed in it |
| PollWrites.KnownIsRefreshed | drivers/kubevirt/watcher.go:138-159 | after a complete poll of either driver a known listed sandbox, field by field: bound to the instance kept, no misses, the listed state unless KubeVirt was asked to stop or delete and the listing still says Running, or leaving because too old and terminated; all else as before |
| PollWrites.UnknownIsDiscovered | drivers/kubevirt/watcher.go:125-136 | a listed sandbox without a record gets one, field by field, from the instance kept |
| PollWrites.UnlistedIsKept | drivers/kubevirt/watcher.go:162-207 | an unlisted record counts one miss and keeps all else, unless too old; it goes at the third miss, under KubeVirt exactly if its cleanup was confirmed |
| PollWrites.TooOldIsLeaving | drivers/kubevirt/watcher.go:189-207 | a record too old when a poll ends is leaving, or the Terminate of its own instance failed in that poll |
| PollGuarantees.ConvergesInThreePolls | drivers/kubevirt/watcher.go:62-209 | from any registry, three or more polls of one listing during which no Terminate failed leave bound exactly the sandboxes to track, each to the instance its driver keeps |
| PollGuarantees.StaysConverged | drivers/kubevirt/watcher.go:62-209 | from the third poll on, while the clock stands and no Terminate fails, a poll changes nothing but status times, for every sandbox |
| PollGuarantees.OrderIndependentWhileStanding | drivers/kubevirt/watcher.go:74-160 | two complete polls of permuted listings, visited in any order, with one Terminate answer per instance name and a standing clock, leave the same records up to fresh leases |
| PollOrder.OrderIndependent | drivers/kubevirt/watcher.go:74-207 | two complete polls of permuted listings, visited in any order and taking any time, with one Terminate answer per instance name, leave the same records up to fresh leases, status times and the creation times given to sandboxes of unknown age, as long as no creation time crosses the age limit or the allowed skew while they run |
| KubeWatcher.KubeVirtDriver.TerminateDuplicates | drivers/kubevirt/watcher.go:99-115 | success means every live instance but the keeper was passed to a Terminate that returned nil |
| KubeWatcher.KubeVirtDriver.ResolveDuplicates | drivers/kubevirt/watcher.go:75-115 | sort, in-place filter and choice yield the keeper of the group, and on success every other live instance was terminated |
| KubeWatcher.KubeVirtDriver.RefreshSandbox | drivers/kubevirt/watcher.go:138-159 | takes over keeper and observed state under the guard, and sends one event if and only if the state changes |
| KubeWatcher.KubeVirtDriver.ReconcileGroup | drivers/kubevirt/watcher.go:74-160 | one turn of the listing loop touches one sandbox as specified, or gives up before writing anything |
| KubeWatcher.KubeVirtDriver.ReconcileListing | drivers/kubevirt/watcher.go:67-160 | the listing loop handles every named sandbox of the listing once, in any order |
| KubeWatcher.KubeVirtDriver.CountMissing | drivers/kubevirt/watcher.go:169-186 | counts one miss and forgets the record only after a Terminate of its instance returned nil, with one deleted event if and only if it does |
| KubeWatcher.KubeVirtDriver.CountAbsent | drivers/kubevirt/watcher.go:162-187 | the absence loop counts each bound unseen sandbox once and releases one only after a Terminate of its own instance; where it failed, that very call is in the log |
| KubeWatcher.KubeVirtDriver.Poll | drivers/kubevirt/watcher.go:62-209 | a failed list moves nothing; an aborted poll leaves unreached sandboxes untouched; a complete one is the poll relation, and for every sandbox the answer it acted on is in the log for that sandbox's own instance; in every case, also after an error, the broadcasts replayed over the old view give the new one and every reader keeps its place in the stream or is cut off for overflowing |
| Phases.PollDone | drivers/kubevirt/watcher.go:74-207 | the three loops, at every sandbox, compose to one poll of it, with one log entry for each cleanup and expiry owed |
| Polling.Recover | drivers/kubevirt/watcher.go:126-136 | rebuilds a record from its instance, clamping an untrustworthy age, and announces it in one event |
| Polling.ExpireOne | drivers/kubevirt/watcher.go:190-205 | marks an expired record, and announces it in one event, if and only if its Terminate returned nil |
| Polling.ExpireOld | drivers/kubevirt/watcher.go:189-207 | every record due at one clock reading is handled, also after an earlier one failed: it is marked if and only if the Terminate of its own instance returned nil; all others are untouched |
| KubeSupervisor.StartWatcher | drivers/kubevirt/watcher.go:27-60 | the polls of a watcher form a history for the miss counters, all its broadcasts together explain all changes, and each wait is the interval after a success and the jittered backoff of the failures in a row after a failure |
| Supervisor.WatchSandboxes | drivers/kubevirt/driver.go:365-386 | for either driver, a client that subscribes, reads at any pace between polls and drains its channel sees exactly the ids of the registry, each with its id, name, namespace, workspace, last status and spec without the token, unless it was disconnected, which the overflow counter shows |
| KubeSupervisor.BackoffGrows | drivers/kubevirt/watcher.go:47-52 | more failures never shorten the base delay, which stays within a minute, and the product does not overflow for valid intervals |
| KubeSupervisor.BackoffDoubles | drivers/kubevirt/watcher.go:48-48 | the first failure doubles the interval, every further one up to the sixth doubles again, and a minute is the most |
| KubeSupervisor.DelayInWords | drivers/kubevirt/watcher.go:47-57 | the interval after a success, the base delay and less than a quarter more after a failure |
| KubeSupervisor.FailedInARowCounts | drivers/kubevirt/watcher.go:46-55 | the failures counted are those since the last poll that returned nil |
| KubeSupervisor.BackoffSlowsDown | drivers/kubevirt/watcher.go:48-48 | the base delay after a failure is at least the polling interval if and only if that interval is at most a minute |
| KubeSupervisor.FailuresSpeedUp | drivers/kubevirt/watcher.go:47-52 | with jitter, every wait after a failure is shorter than the polling interval if and only if that interval is at least 75 seconds |
| Ec2Writes.CommitLandsUnlessRetired | drivers/ec2/driver.go:179-182 | for a create that reserved its lease in any run of registry operations: its commit, given field by field, lands in its own generation if and only if that was not retired, and in another one if and only if it was and the id is stored again |
| Ec2Writes.CommitCrossesGenerations | drivers/ec2/driver.go:179-182 | a run in which the first create's commit binds its dead instance to the second create's record |
| Ec2Watcher.EC2Driver.ResolveDuplicates | drivers/ec2/watcher.go:62-81 | keeps the oldest, and on success every other instance that is not terminated was passed to Terminate |
| Ec2Watcher.EC2Driver.ReconcileGroup | drivers/ec2/watcher.go:61-119 | one turn of the listing loop touches one sandbox as specified, or gives up before writing anything |
| Ec2Watcher.EC2Driver.CountAbsent | drivers/ec2/watcher.go:121-134 | the absence loop counts each bound unlisted sandbox once and forgets it at the third miss |
| Ec2Watcher.EC2Driver.Poll | drivers/ec2/watcher.go:49-153 | a failed list moves nothing; a complete poll is the EC2 poll relation with every other instance that is not terminated passed to Terminate, and for every due record the answer it acted on is in the log for its own instance; in every case the broadcasts explain the change and every reader keeps its place or is cut off for overflowing |
| Ec2Supervisor.StartWatcher | drivers/ec2/watcher.go:21-47 | the polls of the EC2 watcher, whatever each returns, form a history for the miss counters, and all its broadcasts together explain all changes |
| KubeApi.KubeApiProvider.CreateOrVerifySecretOnce | drivers/kubevirt/kubeapi.go:243-273 | one try of the Secret, request by request, is the try of the specification |
| KubeApi.KubeApiProvider.CreateOrVerifyVmOnce | drivers/kubevirt/kubeapi.go:275-311 | one try of the VM, request by request, is the try of the specification |
| KubeApi.KubeApiProvider.OwnOnce | drivers/kubevirt/kubeapi.go:315-327 | the conflict retries of the handover, request by request, are the try of the specification: an interruption reports the conflict before it, or nil |
| KubeApi.KubeApiProvider.RetryWithBackoff | drivers/kubevirt/kubeapi.go:486-503 | the loop makes the tries of the specification: at most five, only after transient errors, an interruption reported as the error before it |
| KubeApi.KubeApiProvider.Terminate | drivers/kubevirt/kubeapi.go:402-423 | the three retried deletions in their order, whatever each returns, are the termination of the specification |
| KubeApi.KubeApiProvider.Launch | drivers/kubevirt/kubeapi.go:138-160 | nil means a VM named for the request with its digest and sandbox label, and under that name a Secret with its digest and cloud-init; the VM owns the Secret unless an interruption of the handover was swallowed, which is said exactly; objects and volumes of other requests and names are never changed or deleted; a refusal takes away nothing that was there; a failed handover with confirmed cleanup leaves none of the objects; at most 75 requests; and it is the launch of the specification |
| KubeApi.BuiltFrom | drivers/kubevirt/kubeapi.go:162-241 | a request is refused exactly for a short key, a digest of the wrong length or a bad disk size; otherwise both objects carry its digest, the VM its label, the Secret its cloud-init |
| KubeApi.NamesAgree | drivers/kubevirt/kubeapi.go:170-171 | two accepted requests get one VM name if and only if the first 32 characters of their keys agree up to letter case |
| LaunchFacts.PutSecretEffect | drivers/kubevirt/kubeapi.go:243-273 | whatever breaks in its tries, nil means the named Secret holds the digest and data of this request; a Secret that was there is unchanged; created only if it was not there |
| LaunchFacts.PutVmEffect | drivers/kubevirt/kubeapi.go:275-311 | nil means the named VM is there with the digest and sandbox label of this request and is the one returned; a VM that was there is unchanged |
| LaunchFacts.OwnEffect | drivers/kubevirt/kubeapi.go:313-329 | nothing but the owner of the Secret ever changes; nil comes without ownership if and only if the only request of the last try was interrupted, no request before was applied and the Secret was not owned already |
| LaunchFacts.TerminationRemoves | drivers/kubevirt/kubeapi.go:402-423 | nil means VM, volume and Secret of that name are all absent, so it may be repeated; nothing else is ever deleted |
| LaunchFacts.LaunchOwes | drivers/kubevirt/kubeapi.go:138-160 | under every weather and deadline a launch owes what the adapter promises, within 75 requests, and returns nil with an unowned Secret if and only if its handover was swallowed |
| UnownedSecret.UninterruptedLaunchOwns | drivers/kubevirt/kubeapi.go:138-160 | a launch that returns nil and none of whose requests was interrupted leaves both objects with the VM owning the Secret |
| UnownedSecret.InterruptedLaunchOwnsNothing | drivers/kubevirt/kubeapi.go:313-329 | in an empty namespace, a context that ends while the handover reads the Secret makes the launch return nil with a Secret nobody owns |
| LaunchFacts.FairLaunch | drivers/kubevirt/kubeapi.go:138-160 | without faults a launch is refused exactly for foreign objects and then leaves everything as it was, and repeating a launch that succeeded changes nothing |
| LaunchFacts.RemovesWithinFive | drivers/kubevirt/kubeapi.go:486-503 | up to four transient failures in a row are retried away |
| LaunchFacts.GivesUpAfterFive | drivers/kubevirt/kubeapi.go:486-503 | the fifth transient failure in a row is the outcome |
| LaunchFacts.CompensationOutlivesContext | drivers/kubevirt/kubeapi.go:147-156 | in fair weather a failed handover is cleaned up and a dropped Secret is gone, however early the context of the request ended |
| DroppedSecret.UncertainIfUndecided | drivers/kubevirt/kubeapi.go:486-503 | the outcome of the retry loop is uncertain if and only if the try that decides it could not tell: the last one, or the one before an interruption |
| DroppedSecret.DropsSecretOfItsVm | drivers/kubevirt/kubeapi.go:147-154 | a launch deletes its Secret while a VM of this request is there if and only if it created the Secret, could not create or verify the VM, that VM had been there or one of its own creates was applied, and the deciding try was not undecided |
| DroppedSecret.BlindLaunchDropsSecret | drivers/kubevirt/kubeapi.go:147-154 | in an empty namespace, a create applied but reported as failed and five lookups without an answer make the launch delete the Secret of a VM that is there |
| KubeListing.NormalizedIsIdentified | drivers/kubevirt/kubeapi.go:430-475 | whatever became of its labels and annotations, a VM is listed with its name, a sandbox id and a state |
| KubeListing.NormalizedInWords | drivers/kubevirt/kubeapi.go:430-475 | every field of a listed VM: which annotation, label, status, phase or run strategy it comes from |
| KubeListing.StrippedInWords | drivers/kubevirt/kubeapi.go:441-447 | a VM without the id annotation goes by its label hash, or without that by its own name |
| KubeListing.LastPhase | drivers/kubevirt/kubeapi.go:345-353 | a VM is joined with the last VMI of its name |
| KubeListing.StrippedStayApart | drivers/kubevirt/kubeapi.go:441-447 | two VMs without the id annotation share a sandbox id if and only if they share a label hash, or lack it and are the same VM |
| KubeListing.ListAll | drivers/kubevirt/kubeapi.go:363-384 | every page in order, or no listing at all |
| KubeListing.List | drivers/kubevirt/kubeapi.go:331-361 | both lists complete or no listing: the VMs in order, each joined with the last VMI of its name, that pass the name filter, each once |
| KubeListing.NothingIsSkipped | drivers/kubevirt/kubeapi.go:331-361 | every VM that passes the filter is in the listing; without a filter the listing is all of them in order; every listed one has a sandbox id and a state |
| KubeListing.ListedIsMatched | drivers/kubevirt/watcher.go:67-72 | every listed VM is in the group a reconciliation considers for its sandbox |
| Quantity.MultipliersAreUnits | pkg/quantity/quantity.go:94-116 | each suffix multiplies to its number of bytes, powers of 1024 or of 1000, in MiB |
| Quantity.SuffixIsUnique | pkg/quantity/quantity.go:118-146 | no text ends in two of the suffixes, so the order in which they are tried decides nothing |
| Quantity.CpuReads | pkg/quantity/quantity.go:40-66 | a CPU quantity is a number of cores, or of thousandths before an m, not negative |
| Quantity.MemoryReads | pkg/quantity/quantity.go:81-142 | a number before one of the 13 units is that many of its bytes, in MiB |
| Quantity.BytesRead | pkg/quantity/quantity.go:143-153 | without a unit it is a number of bytes |
| Quantity.ValidateRequirements | pkg/quantity/quantity.go:14-32 | no error exactly when every given quantity parses |
| Selection.FirstFit | drivers/kubevirt/instancetype.go:98-113 | copy, sort and scan return an entry covering the demand with the least (vCPU, memory) among all that do, or none exactly when none does |
| Selection.SelectsInWords | drivers/kubevirt/instancetype.go:46-114 | the default exactly if nothing is asked for, a parse error exactly if a quantity given is unreadable, no type exactly if none covers the demand, otherwise a best fit |
| Selection.BestFitInWords | drivers/kubevirt/instancetype.go:98-113 | a best fit has enough of both and, of all that have, the fewest vCPUs and then the least memory |
| Selection.SelectKubeVirtType | drivers/kubevirt/instancetype.go:46-114 | the default when nothing is asked for, an error without one, otherwise a best fit for the larger of request and limit in both dimensions |
| Selection.SelectEc2Type | drivers/ec2/instancetype.go:60-123 | the same over the EC2 catalogue, where an empty default is returned as it is |
| Selection.AcceptedNeverFailsToParse | pkg/quantity/quantity.go:14-32 | requirements accepted at validation never fail to parse at selection, for any catalogue |
| Selection.DemandCoversBoth | drivers/kubevirt/instancetype.go:67-96 | the demand is the larger of request and limit in each dimension, never negative, and zero if neither is given |
| Selection.MoreNeverSelectsLess | drivers/kubevirt/instancetype.go:98-113 | raising a requirement never selects a smaller capacity |
| Selection.FitsKubeVirt | drivers/kubevirt/instancetype.go:24-42 | some KubeVirt type fits if and only if at most 32 vCPUs and 128 GiB are asked for |
| Selection.FitsEc2 | drivers/ec2/instancetype.go:23-56 | some EC2 type fits if and only if at most 192 vCPUs and 1536 GiB are asked for |
| Selection.Ec2FitIsUnique | drivers/ec2/instancetype.go:105-118 | the unstable sort cannot change what EC2 selects |
| Selection.KubeVirtFitIsUniqueButForOneTie | drivers/kubevirt/instancetype.go:98-113 | the unstable sort can change what KubeVirt selects only between cx1.medium and d1.small |
| Selection.Ec2Named | drivers/ec2/instancetype.go:23-56 | the name of each EC2 type says its family and size |
| Selection.KubeVirtNamed | drivers/kubevirt/instancetype.go:24-42 | the name of each KubeVirt type says its family and size |
| Identity.JoinIsInjective | drivers/kubevirt/driver.go:168-172 | texts joined by NUL determine their parts when all but the last are free of NULs |
| Identity.EarlierFieldsMustBeNulFree | drivers/kubevirt/driver.go:168-172 | a NUL in any earlier field breaks that: another list of fields spells the same text |
| Identity.ClientTokenIsInjective | drivers/ec2/driver.go:165-165 | validated EC2 creates share a client token text if and only if gateway, sandbox id and token agree |
| Identity.ResourceKeyIsInjective | drivers/kubevirt/driver.go:173-173 | KubeVirt creates share a resource key text if and only if gateway and sandbox id agree |
| Identity.DigestIsInjective | drivers/kubevirt/driver.go:168-172 | validated KubeVirt creates share a digest text if and only if gateway, id, name, namespace, workspace, type, boot source and its namespace, preference, storage class, disk size and cloud-init all agree, the cloud-init being arbitrary |
| Identity.SelectedTypeIsNulFree | drivers/kubevirt/config.go:104-112 | whatever type is selected under a valid configuration meets the condition of the digest |
| Base64.DecodeEncode | pkg/bootstrap/transport.go:174-178 | decoding the encoding of any bytes gives them back, padding included (section 4 of RFC 4648) |
| Base64.DigitsAreStandard | pkg/bootstrap/transport.go:174-178 | the digits are those of the standard alphabet (section 4 of RFC 4648) |
| Base64.ShortVectors | pkg/bootstrap/transport.go:174-178 | padded test vectors of section 10 of RFC 4648 |
| Base64.LongVectors | pkg/bootstrap/transport.go:174-178 | test vectors of section 10 of RFC 4648 |
| SecurityBlock.ParsePrinted | pkg/bootstrap/transport.go:174-179 | parsing a printed write_files list gives back the list of paths, bytes and permissions, whatever the bytes |
| SecurityBlock.RenderSecurityBlock | pkg/bootstrap/transport.go:132-180 | a text is produced exactly for a valid configuration with sandbox id, token and lifetime given and no control character anywhere; a parser of it finds exactly the promised files, 2 when insecure and 5 otherwise, at their paths, with their bytes and permissions |
| SecurityBlock.OneLinePerVariable | pkg/bootstrap/transport.go:147-167 | the environment file reads back line by line as exactly 7 or 10 assignments, so no value can add a variable |
| Text.ValidTextInWords | drivers/kubevirt/driver.go:111-122 | a text is valid if and only if it is given when required, not too long, and holds no byte of a control character |
| Text.LineControlInWords | drivers/kubevirt/config.go:109-109 | a configured text is refused exactly for a NUL, a carriage return or a newline |
| SecurityBlock.EnvironmentInWords | pkg/bootstrap/transport.go:147-167 | which variable has which value |
| SecurityBlock.EntryInWords | pkg/bootstrap/transport.go:174-177 | how one file is printed |

## Left out

- Lifecycle: broadcasts are not part of the interleaved machine; a rollback and a resolve change the registry without an event, so replay agrees with the registry only for polls without calls in between.
- LifecycleCalls.ListResolves: the provider's filter by id is a label hash that the model does not check; its filter by name is assumed of the answer.
- Lifecycle: concurrent polls and duplicate calls are allowed although the server runs one poll at a time; the machine covers more runs than the program has.
- KubeWatcher.KubeVirtDriver.Poll: the delete of a terminal keeper is an assertion that the branch is dead; the interleaved machine has the branch and proves it unreachable.
- Supervisor.WatchSandboxes: the client reads only between polls, and the stream ends when the polls do; reads in the middle of a poll are covered by the invariant of the fan-out alone.
- PollGuarantees.StaysConverged: fixes the clock, as expiry is meant to change records when time passes.
- PollOrder.OrderIndependent: fixes the answer for each instance name, and does not cover creation times that cross a limit while a poll runs, since the two orders then read the clock on different sides of it.
- Ec2Writes: EC2 calls are not interleaved; the commit is studied over runs of registry operations.
- Polling.ExpireOld: stands for the expiry loops of both drivers, which differ in the guard of the update and in the state they set.
- Fleet: VMI phase and address of an instance are diagnostics that no decision reads.
- Transitions: a status carries the state it was derived from; the tables of condition texts are not modelled.
- Store: the lease counter and the overflow counter are unbounded; their wrap-around at 64 bits is not modelled.
- KubeApi.KubeApiProvider.Launch: a deletion is modelled as immediate, and no other client writes the objects meanwhile; it is claimed neither that a Secret is deleted only when no VM exists nor that OK always means an owned Secret: both are false, with their exact conditions in DroppedSecret and OwnedSecret.
- KubeApi.KubeApiProvider.OwnOnce: client-go is not part of the repository; its RetryOnConflict (version 0.36.3 is required) is modelled as at most four tries that retry conflicts, take an interrupted request for the end of the retries and pass every other error on.
- KubeApi: the stop of a VM and the readiness check are not modelled.
- KubeListing.List: the API server applies the label selector, so the pages are what it selected.
- KubeListing.ListAll: continue tokens are page numbers, so the server's pages are finite.
- Quantity: strconv.ParseFloat and strings.TrimSpace are parameters; arithmetic is over exact reals, so rounding and overflow are not modelled.
- Identity: SHA-256 and hex formatting are left out; the statements are about the texts that are hashed.
- Identity: a repeated create does not reproduce its digest, since the rendered cloud-init holds the expiry time; no such claim is made.
- SecurityBlock: strconv.Quote is a parameter, certificate checks are one boolean.
- gRPC serving, sockets, logging, flags, environment loading and the AWS SDK calls are not modelled.
- Provider error codes and their mapping to gRPC status are not modelled.
