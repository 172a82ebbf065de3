# InstaCloud OSS: verified models of the control plane

Dafny models of the single-node control plane's hardest code, and proofs about them. Each model has the
branches, edge cases and constants of the code it cites; docker, the file system and the clock are
adversaries that may fail, answer late, answer nothing, or crash the daemon between any two steps.

`dafny verify dfyconfig.toml` checks the whole project.

## What is modelled

**The operation lock** (`OpLock`, `LockSafety`, `LockProgress`). The lock has no queue: each key holds the
tail of a chain of promises. The model keeps the chains and the counts, and proves from them, for every
interleaving, exclusion, first-in-first-out grants and that deleting an entry at zero loses nobody; then,
with the engine-wide provision chain, that the wait-for graph is acyclic and every schedule drains, the
wakes of accepted operations and the sleeps their evictions ask for included. The
source takes keys in sorted order; the proof does not need that, because a chain is extended in one
synchronous step.

**What the lock is for.** `Intent` (wakes against recorded intent), `Lifecycle` and `LifecycleRuns` (projects,
branches, refs, bytes), and `Redrive` (key sets that are checked again once held) are state machines whose bodies are
acquisitions of that same lock. A synchronous segment between two awaits is one step; a rename, which takes
no lock, is a step of its own that may fall anywhere.

**What the passes decide from.** `Snapshot` is the dated container listing, proved against the history of
what docker really did. `Eviction` is the memory-pressure pass, over whatever it finds on each turn.
`TargetsCache` is the memoized target list with its in-place sleep marks and the index that shares its
objects.

**Operations with compensation.** `Teardown` (demolition by evidence, one shared counter, one slice per
branch), `Rename` (a multi-branch rename that undoes and resumes), `DataMigration` (stop, stage, verify,
promote, remove, re-create, record, stamp), `Ports` and `Boot` (reservations, and what a boot makes of the
ones an interrupted operation left).

**Names and grants.** `Secrets` proves that rows keyed by branch name behave as lists kept by branch id,
wherever renames fall. `ManagedDb` and `Naming` prove that the two places that know a credential's name
agree. `Govern` proves that grants are one-shot.

## What turned out false, and exactly when it holds

- Two container listings in flight do not commute. They do exactly when the older one has no name the newer
  one lacks (`Snapshot.ListingsCommuteIff`, `Snapshot.LateListingRevives`).
- Branch names are not quite unique in a project. A step keeps them so exactly when it is not a rename onto
  the name of a create in flight (`Lifecycle.NamesStayUniqueIff`, `Lifecycle.RenameThenCommitCollides`).
- Ports of the allocator stay apart over a deploy's row write, or its compensation, exactly when no other
  operation in flight was given the same port; a port the caller names can break that
  (`Ports.DeployKeepsGoodIff`, `Ports.NamedPortSetsAnotherFree`).
- A failed rename does not always put every container back: a docker rename that reports a failure after
  taking effect is left on the new name and is not named among the stuck ones, although the message says
  nothing was renamed. When every undo succeeds, the container names are as before if and only if the pass
  is not stopped by such a rename; which branch that is follows from what docker does and the containers
  there are (`Rename.Landing`, `Rename.Project.RenameService`, `Rename.LateFailureIsLeftStanding`). A later
  successful call finishes it (`Rename.Project.RenameAgain`).
- A managed rename does not carry over what the project records by service id, always-on and limits, although
  the compute rename says that leaving them behind resets them. The new id comes to have the old one's
  settings exactly when the two already agreed (`Rename.Project.RenameManagedService`,
  `Rename.SettingsAreLeftBehind`).
- The completeness check for PGDATA can be fooled by a partial directory that has its three entries. An
  uninterrupted pass keeps the bytes if and only if the target it finds is not such a directory; no run of
  this migration makes one (`DataMigration.BranchData.MigratePostgres`).
- A volume kept for the operator because neither copy is known to be newer is removed, uncopied, by the next
  pass over the branch, if another arm kept the branch from being stamped. Over two or more boots that docker
  answers throughout it is kept if and only if the postgres arm cannot settle (no pass then gets to the
  volumes) or the managed arm does: every service to be re-created has its password on record
  (`DataMigration.FineBoots`, `DataMigration.KeptVolumeIsLost`). The comment in the source says it is kept.
- An operation over several branches does not have their rows to itself: a service removal holds the key of
  that one service, not the branch's. A step of another operation changes a row a settled body is over exactly
  when it takes a service off it, and then the body is a rename's and the service another one
  (`Redrive.OthersStayOut`, `Redrive.RemovalSlipsIn`).
- Whether a database was running is asked of docker on every pass, so a pass that resumes after its own stop
  finds it down and leaves it down. An uninterrupted pass leaves it running exactly when it found it running
  or found no container (`DataMigration.BranchData.MigratePostgres`, `DataMigration.RestartLeavesItDown`).
- A secret set on a branch takes effect exactly when the branch has no second row of that name, or the last
  one says so already. A second row comes from the inheriting copy onto a half-built clone whose owner had
  already set a name its parent has (`Secrets.SetTakesEffectIff`, `Secrets.CopyKeepsRowsSingleIff`).

## Assumptions

- One daemon per data directory; a state write happens whole or not at all.
- Docker answers a listing with the box as it was at some instant between question and answer, and starts
  no container that was stopped by itself.
- A container that an operation records as running, after its readiness wait or a deploy, is running at that
  instant; one recorded as stopped or paused is not.
- A body ends only after the operations it started have ended, as every caller in the daemon awaits them.
- A minted id is new.
- For migration: crashes and failing calls are the only faults, nobody writes to a source after it is proved
  down, the copy helper reports a copy of a managed path or a volume that ended early, and a short copy of
  PGDATA lacks one of the entries the check asks for.
- For secrets, and for the project-wide demolition, branch names are unique in their project (the condition
  is above).
- A service add acts on the branch whose key it took. It resolves the branch by name before and again after
  it has the key, so a rename in between can break this; and an add whose target cannot be resolved takes no
  key and runs its body with no lock, which resolves the target again.
- A name no registration has is on no branch's row, and an operation makes finitely many wakes.
- Branches carry no legacy `dbUrl` or `bucket` fields where credentials are named, registrations have the ids
  their names spell, and stored bucket credentials have the catalog's keys.

## Model

| member | source | states |
|---|---|---|
| `OpLock.Lock.Needed` | src/scheduler.ts:264-266 | An acquisition asks for each requested key once, and not for those its context already owns. |
| `OpLock.Lock.Enqueue` | src/scheduler.ts:353-366 | Every named key gets a new tail that waits for the old one and for this acquisition's gate; the acquisition waits for all the old tails. |
| `OpLock.Lock.WithOp` | src/scheduler.ts:264-279 | A context that owns every key runs in place; otherwise exactly one acquisition is enqueued, at once. |
| `OpLock.Lock.TryWithOp` | src/scheduler.ts:283-288 | Granted if and only if no needed key is held or queued; a refusal changes nothing. |
| `OpLock.Lock.End` | src/scheduler.ts:274-277 | Success and failure alike open the gate and take one from each key's count, deleting an entry at zero. |
| `LockSafety.SettledIffGatesDone` | src/scheduler.ts:357-365 | A chain of promises has settled exactly when every acquisition whose gate it holds is done. |
| `LockSafety.ReadyIffPredecessorsDone` | src/scheduler.ts:353-373 | Although entries are deleted at zero, an acquisition may run exactly when every earlier acquisition of each of its keys is done. |
| `LockSafety.MutualExclusion` | src/scheduler.ts:264-279 | Two running bodies never share a key both acquired themselves. |
| `LockSafety.GrantedInOrder` | src/scheduler.ts:351-366 | On each key, whoever has begun has every earlier acquisition of that key behind it. |
| `LockSafety.CountIsHoldersPlusWaiters` | src/scheduler.ts:357-373 | The count of a key is the number of operations holding or waiting for it, so a deleted entry loses nobody. |
| `LockSafety.SharedKeyHasOneAcquirer` | src/scheduler.ts:264-279 | Two running bodies that own one key own it through one acquisition: re-entrancy is no second way in. |
| `LockSafety.GrantedTryIsReady` | src/scheduler.ts:281-288 | A granted non-blocking acquisition never waits. |
| `LockSafety.StepKeepsInv` | src/scheduler.ts:264-288 | Every step of every interleaving keeps the invariant the properties above rest on. |
| `LockSafety.LockIsExclusiveAndFair` | src/scheduler.ts:264-288 | Over every run: exclusion, and nobody runs ahead of an earlier acquisition of a common key. |
| `LockProgress.WaitGraphIsAcyclic` | src/scheduler.ts:789-815 | With one blocking acquisition per operation, nested ones owned or non-blocking, and the provision chain entered after keys, nobody ever waits, through any number of others, for itself. Key order is not needed. |
| `LockProgress.SomeoneCanGoOn` | src/scheduler.ts:264-288 | Whenever anything is live some operation can take a step. |
| `LockProgress.ScheduleIsBounded` | src/engine.ts:305-310 | Once no new operation arrives every schedule ends, although the bodies already accepted go on making non-blocking acquisitions of their own, each within its allotment. |
| `LockProgress.WakesEndWithin` | src/scheduler.ts:682-729 | Operations that make at most `w` wakes each, every wake trying at most the eviction ceiling of sleeps, are all through after four moves each and five per sleep. |
| `LockProgress.EveryScheduleDrains` | src/scheduler.ts:264-288 | ... and a schedule that can go no further has left every acquisition, nested ones included, done and the provision chain empty. |
| `Snapshot.Watcher.Absorb` | src/scheduler.ts:328-337 | The two loops compute the dated fold: newer facts stand, the listing decides every other name, absences included. |
| `Snapshot.Watcher.SetCached` | src/scheduler.ts:226-230 | A transition the caller has seen counts at once for every choice made from the snapshot, no listing asked for before it can take it back, and no other name moves. |
| `Snapshot.Watcher.ContainerPresence` | src/scheduler.ts:305-311 | `gone` exactly when docker answered without the name and nothing newer speaks for it; `unknown` exactly when docker did not answer. |
| `Snapshot.ListingsCommuteIff` | src/scheduler.ts:313-337 | Two listings in flight leave the same snapshot in either order if and only if the older has no name that the newer lacks (where nothing newer speaks). |
| `Snapshot.LateListingRevives` | src/scheduler.ts:330-334 | A container removed between two reads is known again when the older read answers last. |
| `Snapshot.StepKeepsSound` | src/scheduler.ts:328-344 | However listings, wakes and sleeps interleave, each fact was true of docker at some instant not before its date. |
| `Snapshot.ObservedWasRunning` | src/scheduler.ts:434-449 | A container the idle sweep or the eviction pass may act on was really running within the freshness bound. |
| `Snapshot.LateListingsLeaveIt` | src/scheduler.ts:313-337 | No listing asked for before a fact was learned undoes it, however late and in whatever order such listings return. |
| `Snapshot.DatesNeverGoBack` | src/scheduler.ts:328-337 | While a name stays known its date never moves backwards. |
| `Eviction.HeadGoesFirst` | src/scheduler.ts:724-728 | What a turn picks was active no later than anything else in the pool; of those as long idle it has the largest sample, and of those as heavy too it is listed first. |
| `Eviction.EvictForRoom` | src/scheduler.ts:669-739 | Every victim could be stopped, was untried and the least recently active of all such; each exit means what it says about both accounts of free memory and about every service; a floor of 0 stops nothing. |
| `Eviction.AttemptIsFair` | src/scheduler.ts:703-729 | In the step that picks it, nothing the ledger, the lock, the snapshot or the project says speaks against the victim, and every other service of which that is true was active no earlier, on a tie weighs no more, and on a full tie is listed no earlier. |
| `Eviction.EligibleIsStoppable` | src/scheduler.ts:741-751 | The tests of the pass let through exactly the services that nothing speaks against and that were not tried. |
| `Eviction.AttemptWasForced` | src/scheduler.ts:695-733 | A service is put to sleep only while what the runtime reports and what the pass has freed on its baseline are both short of the floor. |
| `Eviction.NeverTwice` | src/scheduler.ts:677-705 | No service is tried twice in a pass, whatever the box does meanwhile. |
| `Eviction.CeilingIsNeverTheReason` | src/scheduler.ts:682-739 | While fewer distinct services than the ceiling have been there to choose from, a pass ends for another reason. |
| `Eviction.NoMoreThanNeeded` | src/scheduler.ts:678-702 | Without its last victim the pass was still under the floor even by its own account of what it freed. |
| `Eviction.VictimIsReservedAtOnce` | src/scheduler.ts:741-751 | A victim's key is held and wanted by nobody, its non-blocking acquisition is granted in that step and its body can start, even inside a wake. |
| `Eviction.VictimWasRunning` | src/scheduler.ts:741-744 | A victim was really running within the freshness bound. |
| `Intent.Doors.Wake` | src/scheduler.ts:789-815 | A traffic request is refused by a recorded intent, joins the wake in flight, or queues exactly one. |
| `Intent.Doors.Recheck` | src/scheduler.ts:839-843 | Under the lock the intent is read again, and only a running one clears the wake. |
| `Intent.Doors.WriteIntent` | src/engine.ts:1657-1692 | A start records running, a stop or suspend what was asked, for that service alone; and nothing is put on record as stopped while its container is up. |
| `Intent.StepKeepsInv` | src/scheduler.ts:789-884 | Every step of requests, always-on wakes, lifecycle operations and others keeps: a wake that may start a container has a running intent recorded. |
| `Intent.WakesObeyIntent` | src/scheduler.ts:562-573 | Over every run: whenever a wake starts a compute container, on any door, the intent recorded at that moment is running, and that container alone comes up. |
| `Intent.JoinedWakeIsLive` | src/scheduler.ts:796-812 | A request that joins a wake joins one that is under way: none stays on the map once it has ended. |
| `Intent.NextRequestQueues` | src/scheduler.ts:799-812 | Once a wake made in place is off the map, the next request makes one of its own. |
| `Intent.OneWakePerKey` | src/scheduler.ts:806-815 | All requests that find a service asleep share one queued wake. |
| `Intent.InlineWakeJoinsNobody` | src/scheduler.ts:793-805 | A wake inside an operation that owns the key never awaits a wake of that key queued behind the same operation, and is not kept from ending by one. |
| `Intent.StoppedStaysStopped` | src/scheduler.ts:833-837 | A service that is down by recorded intent stays down until somebody orders it up; no request, sweep or wake under way does. |
| `Intent.StopTakesEffect` | src/engine.ts:1674-1692 | When a stop writes its intent the container is down, and stays down from there on. |
| `Lifecycle.Document.ReserveBranchRef` | src/engine.ts:3264-3279 | A ref is claimed if and only if no row of the project has the name, no row of the daemon answers to the ref and no other create holds it; a refusal writes nothing. |
| `Lifecycle.Document.ReleaseBranchRef` | src/engine.ts:3289-3291 | One's own claim goes and every other stands, so another branch may claim the ref afterwards exactly if it could before, or if only one's own claim was in its way. |
| `Lifecycle.ReleaseUndoesReserve` | src/engine.ts:3264-3291 | A reservation given back leaves the document as it was found. |
| `Lifecycle.Document.RenameBranchRow` | src/engine.ts:959-977 | The rename rule, and the row with its ref frozen under the new name. |
| `Lifecycle.Document.RenameProjectRow` | src/engine.ts:943-955 | The rename rule, and the row with its slug frozen under the new name. |
| `Lifecycle.RefNeverMoves` | src/engine.ts:313-321 | No step of any operation, rename of a branch or rename of its project changes the ref a branch answers to. |
| `Lifecycle.StepKeepsInv` | src/engine.ts:445-598 | Every step of create, delete and rename, with their failures and compensation, keeps: one owner per ref, no claim on a row's ref, every row's project exists, every ref's bytes are its owner's. |
| `Lifecycle.RowsAreSound` | src/engine.ts:607-640 | Over every run: every branch row names a project that exists, and no two rows answer to one ref. |
| `Lifecycle.RefIsForever` | src/engine.ts:943-977 | A branch keeps its ref for as long as its row is there. |
| `Lifecycle.OnlyOwnRootsGo` | src/engine.ts:494-508 | A rollback or teardown removes the data roots of its own ref and no others; no other branch answers to that ref and no other create has claimed it. |
| `Lifecycle.DataSurvives` | src/engine.ts:2757-2770 | What a branch has written stays under its ref until its own demolition, whatever else is created, rolled back, renamed or deleted. |
| `Lifecycle.NamesStayUniqueIff` | src/engine.ts:959-977 | Branch names stay unique over a step if and only if it is not a rename onto the name of a create in flight. |
| `Lifecycle.RenameThenCommitCollides` | src/engine.ts:592-598 | Such a rename, followed by that create's commit, does leave two branches of one project with one name. |
| `LifecycleRuns.NoClaimIsLeft` | src/engine.ts:3281-3291 | Over every run that starts with none, each claim on a ref has a running create behind it that has yet to commit it or give it back; so when no create runs there is none. |
| `LifecycleRuns.ProjectsStayApart` | src/engine.ts:616-629 | Names and slugs of projects stay unique, whatever is created and renamed at once. |
| `LifecycleRuns.DefaultGoesWithItsProject` | src/engine.ts:2816-2830 | Over every run a default branch's row goes only in the demolition of a project. |
| `LifecycleRuns.CommitAddsTheRow` | src/engine.ts:592-598 | A commit adds exactly the row asked for, under the claimed ref, the default one for a new project, and retires that claim alone. |
| `LifecycleRuns.DecisionFollows` | src/engine.ts:2843-2862 | The row goes exactly if the demolition was clean and is marked otherwise; no other row, claim or project moves. |
| `Redrive.Drive` | src/engine.ts:682-704 | One acquisition per round over the union, the body at most once and only over a set that covers what the live state calls for, and after three rounds nothing done. |
| `Redrive.RoundsGrow` | src/engine.ts:2832-2866 | Each abandoned round grows the set strictly and keeps what it had. |
| `Redrive.OthersLeaveScope` | src/engine.ts:2869-2925 | Another acquisition, a removal that holds one service's key included, can neither add to nor take from the keys a settled body's rows call for. |
| `Redrive.StepKeepsInv` | src/engine.ts:3795-3822 | Every step of branch creates, service adds, removals under their one key, rename row writes and demolitions keeps settled bodies covered. |
| `Redrive.SettledBodyIsPrivate` | src/engine.ts:709-723 | While a settled body runs it holds every key the live rows call for and no other running body has acquired any of them. |
| `Redrive.OthersStayOut` | src/engine.ts:2886-2925 | Another's step leaves a row a body is over with no service more and every service the body holds the key of; it changes the row exactly when it takes a service off it, and then the body is a rename's. |
| `Redrive.RowsStandStill` | src/engine.ts:3783-3810 | However long a settled body waits, its rows are as it left them under a create or demolition, and under a rename still carry what is renamed and nothing new. |
| `Redrive.RemovalSlipsIn` | src/engine.ts:2244-2249 | A run in which, under a rename's body, a removal takes another service off the branch. |
| `Secrets.WriteRefines` | src/engine.ts:801-814 | Each write to the name-keyed rows does what the same write does to a table kept by branch id, and leaves no orphaned list. |
| `Secrets.RunRefines` | src/engine.ts:857-939 | Any sequence of sets, creates, copies, renames, unwindings and deletes refines the same sequence on the table kept by id. |
| `Secrets.RenamesMakeNoDifference` | src/engine.ts:959-977 | Where renames land in a run makes no difference to anybody's secrets. |
| `Secrets.FailedCreateLeavesNoTrace` | src/engine.ts:864-939 | A create that fails after its copy, with anything done to other branches, anything set on the half-built clone and any renames in between, leaves everybody else as if there had been no copy, and the clone with nothing. |
| `Secrets.SetTakesEffectIff` | src/engine.ts:1203-1209 | A set takes effect if and only if the branch has at most one row of that name, or the last such row already has the value. |
| `Secrets.CopyKeepsRowsSingleIff` | src/engine.ts:801-814 | The inheriting copy makes a second row of a name exactly when the half-built clone and its parent both had one. |
| `Secrets.CloneInherits` | src/engine.ts:801-814 | After the copy a clone resolves what its parent resolves at that moment, under whatever names both go by, and what was set on it where the parent has nothing; nobody else's secrets move. |
| `Secrets.SecretStore.SetUserSecret` | src/engine.ts:1232-1257 | The first row of the name and scope is updated in place or one is added; an unknown branch is refused and nothing is written. |
| `Secrets.SecretStore.RenameBranch` | src/engine.ts:967-973 | The loop over the rows readdresses those of the renamed branch and no other, in order. |
| `Secrets.SecretStore.CopySecrets` | src/engine.ts:801-808 | The clone's rows are the parent's, in order, under both names as that write finds them. |
| `Secrets.SecretStore.UnwindBranch` | src/engine.ts:891-921 | Every name the clone answered to is swept, except one another branch holds now. |
| `Teardown.Daemon.ContainerPresence` | src/scheduler.ts:290-311 | `Gone` is evidence of absence; a failed probe or a newer record is not. |
| `Teardown.Daemon.RemoveContainer` | src/engine.ts:190-217 | Only a live probe after the removal makes it gone; a survivor counts one failure, a demolition counts only what was there. |
| `Teardown.Daemon.RemoveAll` | src/engine.ts:2711-2734 | A list of containers is proved gone one by one, and survives exactly when failures were counted. |
| `Teardown.Daemon.TeardownProviders` | src/engine.ts:2703-2771 | Only this branch's resources change; data roots go only when all its containers are gone; with no failure no container, bucket or network its row names is left, and no data root of its ref of any kind. |
| `Teardown.EveryKindIsWalked` | src/datadir.ts:70 | The directories walked are all the kinds a ref can have. |
| `Teardown.Daemon.TeardownBranch` | src/engine.ts:2703-2812 | Scheduler keys, domains and secrets go exactly when this branch's own slice of failures is empty. |
| `Teardown.Daemon.DestroyNext` | src/engine.ts:2897-2911 | The row goes exactly when the slice is clean, and is marked otherwise; the slice is what this branch added to the counter. |
| `Teardown.Daemon.DestroyBranch` | src/engine.ts:2816-2866 | One branch with a counter of its own: gone with all it had, every directory of its ref included, or kept with all it claimed. |
| `Teardown.Daemon.DestroyProject` | src/engine.ts:2869-2925 | Every branch is decided by its own slice of the shared counter, a clean one leaving nothing under its ref; the slices add up, and the project row goes exactly when no branch row is left; with nothing failing, everything goes. |
| `Teardown.MidwayStep` | src/engine.ts:2896-2911 | Demolishing one more branch decides it and leaves those done decided and those to come whole. |
| `Rename.Project.RenameNeeded` | src/engine.ts:3713-3720 | Decided on evidence: the old name present means rename, an unanswered probe means stop. |
| `Rename.Project.MoveAll` | src/engine.ts:1994-2010 | The forward pass moves, per branch, from the old name to the new, stops at the first it cannot move and says which it moved; the branch a late failure left on the new name is the one docker's behaviour determines. |
| `Rename.Project.UndoAll` | src/engine.ts:3738-3748 | Newest first, every container moved is moved back or named as stuck. |
| `Rename.Project.MoveContainers` | src/engine.ts:1994-2016 | When every undo succeeds, container names are exactly as before if and only if no docker rename failed after taking effect. |
| `Rename.LandingIsALateFailure` | src/engine.ts:1994-2016 | A container is left standing on the new name only if docker reports a failure after taking effect. |
| `Rename.Project.Carriers` | src/engine.ts:1970-1993 | Exactly the refs of the branches that carry the service. |
| `Rename.Project.ReserveHosts` | src/engine.ts:3224-3240 | All new hostnames are claimed, or none. |
| `Rename.Project.MoveRows` | src/engine.ts:2017-2036 | In one write every carrier's row has the service under the new name, on the hostname that spells it, and is otherwise as it was; settings move over, and of the claims only those on the old hostnames go. |
| `Rename.HostsStayApart` | src/engine.ts:3199-3240 | A rename gives no row a hostname that another row is on. |
| `Rename.Project.RenameService` | src/engine.ts:1954-2044 | Refused exactly when a name or hostname is taken. If a docker rename fails no row changes and every container is back except those named, all of them if and only if none failed late. Success, from any mixture of old and new names, ends with every container and row on the new name, each on a hostname no other row is on and nobody claims. |
| `Rename.LateFailureIsLeftStanding` | src/engine.ts:3749-3754 | One branch whose docker rename fails late: nothing is stuck, the records say the old name and the container is on the new one. |
| `Rename.Project.RenameAgain` | src/engine.ts:3707-3720 | A failed call followed by a successful one amounts to one rename of what was there before the first, containers, rows and hostnames. |
| `Rename.Project.RenameManagedService` | src/engine.ts:2281-2336 | The managed arm keeps the same promise over containers, rows, hostnames and claims; the new id has what was kept under the old one exactly when the two already agreed. |
| `DataMigration.BranchData.StopForCopy` | src/datadir-migrate.ts:204-214 | Proceeds only with the container proved down. |
| `DataMigration.BranchData.CopyIntoPlace` | src/datadir-migrate.ts:263-279 | The target is whole after it, or untouched as evidence: a crash anywhere leaves it incomplete to the check or whole. |
| `DataMigration.BranchData.MigratePostgres` | src/datadir-migrate.ts:111-187 | Under any crash one whole copy survives, the legacy container goes only once the target is whole, and no container is run nor row written over a directory that is not complete; with neither container nor such a directory nothing is done. Uninterrupted, the bytes are there if and only if the target found was not a partial PGDATA that passes the check. |
| `DataMigration.BranchData.EmptyLayer` | src/datadir-migrate.ts:354-374 | A managed container is removed only when every path it feeds is whole. |
| `DataMigration.BranchData.MigrateManagedService` | src/datadir-migrate.ts:333-386 | Under any crash the layer or every directory is whole; done means bound and whole; a bound service, and one with neither container nor directory, is not touched. |
| `DataMigration.BranchData.MigrateVolume` | src/datadir-migrate.ts:283-327 | A legacy volume goes only from under an app on the bind mount, and after a finished copy unless it was there all along; uninterrupted, it stays exactly when neither copy is known to be newer. |
| `DataMigration.FineBoots` | src/datadir-migrate.ts:309-327 | Over any number of boots that docker answers throughout: stamped after the first exactly if both other arms settle, and a volume kept as ambiguous is there after the second exactly if they do or the postgres arm does not. |
| `DataMigration.KeptVolumeIsLost` | src/datadir-migrate.ts:376-377 | A managed service without a stored password keeps the branch unstamped, and the second boot removes the kept volume with nothing copied out of it. |
| `DataMigration.RestartLeavesItDown` | src/datadir-migrate.ts:137-138 | A daemon killed once it has stopped a running database leaves it down: the boot that resumes finds it so. |
| `DataMigration.BranchData.MigrateBranch` | src/datadir-migrate.ts:71-82 | The stamp is written only after all three arms answered, with the bytes, those of legacy volumes included, on the bind mounts or never there; uninterrupted, exactly when the postgres and managed arms settle. |
| `DataMigration.MigrateLegacyData` | src/datadir-migrate.ts:49-88 | Whatever happens to one branch every branch stays safe, a stamped one is not touched, and a fault-free boot stamps exactly those whose arms settle. |
| `DataMigration.Boots` | src/datadir-migrate.ts:49-88 | Any number of boots, each crashing where it likes: the bytes of every branch, its legacy volumes included, are whole somewhere, no row names a container over less than all of them, and no stamp is early. |
| `Ports.PortBook.NextLanePort` | src/engine.ts:3111-3115 | The lowest port of the range that is neither taken nor busy, or none exactly when there is none. |
| `Ports.PortBook.TakenLanePorts` | src/engine.ts:3120-3131 | Exactly the ports rows and reservations name, less the app that is choosing. |
| `Ports.PortBook.AllocLanes` | src/engine.ts:3165-3180 | A new branch gets, per lane, the lowest port left, all different and all reserved in one write; or nothing, when the range runs out. |
| `Ports.PortBook.LaneFor` | src/engine.ts:3140-3153 | A recorded lane is answered; a missing one is the lowest free port, recorded at once. |
| `Ports.PortBook.LocalHostPort` | src/engine.ts:3377-3400 | A named or recorded port is honoured as it is; otherwise a free one is chosen and reserved in the same write. |
| `Ports.PortBook.CommitBranch` | src/engine.ts:592-598 | The row has exactly the lanes its create was given, no reservation in its name is left and every other stands, and no port of the allocator is shared. |
| `Ports.PortBook.ReleaseLanes` | src/engine.ts:3182-3190 | A failed create gives back all its own reservations and no others. |
| `Ports.PortBook.CommitDeploy` | src/engine.ts:1058-1096 | The row write of a deploy keeps allocator ports apart if and only if no other operation in flight was given its port. |
| `Ports.PortBook.ReleaseHostPort` | src/engine.ts:3404-3407 | So does giving a port back, since it does not ask whose the reservation is. |
| `Ports.DeployKeepsGoodIff` | src/engine.ts:1094-1095 | The exact condition, and that an allocated port always meets it. |
| `Ports.NamedPortSetsAnotherFree` | src/engine.ts:3388-3389 | A port a caller names can set another operation's reserved port free. |
| `Boot.Reclaim` | src/state.ts:261-297 | The three loops keep exactly the claims a live row backs, and report the rest. |
| `Boot.KeptIff` | src/state.ts:261-297 | A claim stays if and only if its branch has a row and, for a port or hostname, some row has it. |
| `Boot.OwnerReads` | src/state.ts:289-295 | The owner of a hostname claim says which branch it is for. |
| `Boot.ReclaimIsIdempotent` | src/state.ts:261-297 | Reclaiming twice is reclaiming once. |
| `Boot.OnlyRowsTakePorts` | src/state.ts:274-288 | Afterwards a port is taken exactly when a row has it. |
| `Boot.OnlyRowsClaimHosts` | src/state.ts:289-295 | Afterwards a label is claimed only where a row records its host. |
| `Boot.RetryMeetsOnlyRows` | src/state.ts:261-268 | After a crash at any point of any run, no branch claim is left and a retry is refused only by a committed row that has the name or the ref. |
| `Boot.NextRunMayStart` | src/state.ts:243-260 | What a crash and a reclaim leave is a state a run may start from, so the lifecycle results hold across boots. |
| `TargetsCache.MarkedProjects` | src/engine.ts:3978-3997 | Patching the cached entry of a key gives what projecting the marked document gives. |
| `TargetsCache.ProjectedKeysDiffer` | src/engine.ts:3917-3970 | No two targets of a projection have one key. |
| `TargetsCache.ProjectedIsScheduled` | src/engine.ts:3923-3969 | The projection has a view if and only if some branch of an existing project serves it: a registered database or managed service it has a row for, or a compute group it runs, with that row's data and mark. |
| `TargetsCache.MarkIsScheduled` | src/engine.ts:3978-3997 | A sleep mark, on whatever kind of service, changes that mark alone in what is scheduled. |
| `TargetsCache.Targets.ServiceTargets` | src/engine.ts:3916-3972 | Whatever is served, memo or fresh, lists exactly the services the document schedules now, each once and as it is. |
| `TargetsCache.Targets.MarkSlept` | src/engine.ts:3975-3997 | The sleep mark of that one service moves and nothing else that is scheduled; the shared cached object follows, the routing revision stays, and the cache stays valid. |
| `TargetsCache.Targets.RoutingWrite` | src/state.ts:118-146 | A routing write moves the revision, so a stale list is never served. |
| `TargetsCache.Targets.AuditWrite` | src/engine.ts:323-334 | An audit write leaves the list valid. |
| `TargetsCache.Targets.TargetOf` | src/scheduler.ts:237-244 | The answer for a key is its service as the document has it now, and null exactly if the document schedules none. |
| `ManagedDb.SuffixIsInjective` | src/manageddb.ts:90-91 | Distinct service names have distinct suffixes. |
| `ManagedDb.SuffixReads` | src/manageddb.ts:90-91 | A suffix is capitals, digits and underscores, one for each character of the name and each its own. |
| `ManagedDb.KeyIsReadable` | src/manageddb.ts:170-176 | A credential key, followed by nothing or by an underscore and anything, names that key only. |
| `ManagedDb.BundleKeys` | src/manageddb.ts:22-126 | The container bundle and the lane bundle have one key set, the catalog's. |
| `ManagedDb.BundlesAgree` | src/manageddb.ts:109-130 | On the container's own address without TLS the two bundles are the same to the letter. |
| `ManagedDb.LaneBundleReads` | src/manageddb.ts:109-130 | On any lane, host and port are the lane's, the URL says what the single credentials say and whether the lane speaks TLS, and everything else is the container's. |
| `ManagedDb.DecimalReads` | src/manageddb.ts:113 | A port's text reads back as that port. |
| `ManagedDb.ParseServiceId` | src/manageddb.ts:188-211 | Parsing is the exact inverse of spelling an id: it answers for well-formed ids, qualified or not, and for no others. |
| `Naming.Contribution` | src/manageddb.ts:93-97 | A service contributes each credential under its suffixed name, the alias holder also unsuffixed, and nothing else. |
| `Naming.NamesDoNotCollide` | src/manageddb.ts:90-97 | One name belongs to one credential of one carried service: nothing minted overwrites anything minted. |
| `Naming.OneTypeSecrets` | src/engine.ts:4387-4420 | Every carried service under its own names, the first also unsuffixed, and nothing else. |
| `Naming.AliasedManaged` | src/engine.ts:1529-1538 | Exactly the oldest carried service of each managed type. |
| `Naming.ManagedSecrets` | src/engine.ts:1183-1198 | Every carried managed service under its own names, the oldest of each type also unsuffixed. |
| `Naming.MintedSecrets` | src/engine.ts:1173-1177 | The merged environment holds every credential of every carried service with its own value, and nothing else. |
| `Naming.MintedNames` | src/engine.ts:4436-4462 | The inventory lists, by finding and comparing, the names the environment mints for that service. |
| `Naming.InventoryIsEnvironment` | src/engine.ts:4428-4462 | A name is in the environment exactly when it is listed under a carried service. |
| `Naming.ListedOnce` | src/engine.ts:4428-4462 | ... and under that one only. |
| `Naming.OneHolderPerType` | src/engine.ts:1522-1538 | Every type a branch carries has exactly one alias holder. |
| `Naming.MintedIsReserved` | src/engine.ts:1222-1230 | Every minted name is one the daemon refuses as a user secret. |
| `Naming.ReservedIff` | src/engine.ts:1225-1230 | What is refused as a user secret is what the catalog could mint, bare or suffixed, and all of `AWS_`; nothing else. |
| `Naming.UserSecretsHideNothing` | src/engine.ts:1164-1168 | User secrets laid over the minted ones hide none of them. |
| `Govern.Governor.Gate` | src/govern.ts:48-63 | A gate follows the policy, uses up the first matching grant in the write that finds it, or asks once. |
| `Govern.Governor.Decide` | src/govern.ts:69-78 | Only a pending approval of this project is decided, once; always-grants flip the policy. |
| `Govern.GateObeysPolicy` | src/govern.ts:36-63 | Allowed goes and denied stops, touching nothing; under approval an action goes exactly when a grant stands. |
| `Govern.UnsetIsAllowed` | src/govern.ts:38-41 | Where no policy was set an action is allowed. |
| `Govern.GateUsesOrAsks` | src/govern.ts:52-63 | Under approval a gate uses up one grant of its project and action, or asks for one new pending approval of them; nothing else moves. |
| `Govern.DecisionTakes` | src/govern.ts:70-77 | A verdict falls on that pending approval of that project alone, as said; only a grant that is to hold always moves a policy, its own, to allow. |
| `Govern.OneEventMovesOn` | src/govern.ts:48-77 | One event takes an approval from pending to granted or denied, or from granted to consumed, or leaves it. |
| `Govern.GrantsAreOneShot` | src/govern.ts:48-78 | Over any run, actions let through plus grants standing equal grants issued, per project and action, each on an approval of its own. |
| `Govern.StatusMovesOn` | src/govern.ts:48-78 | Approvals are never dropped, and their status only moves on. |

## Left out

- HTTP routes, status mapping, the dashboard, metrics, log and quantity parsing: wiring and formats.
- The docker, postgres and object-store adapters, TCP dialing, DNS and TLS: modelled as answers only.
- File contents and permissions: a directory is missing, partial or whole.
- The process lock and its stale takeover; sessions, passwords and signing.
- `forget` dropping the entry of a wake in flight: one wake per key is shown for runs that do not forget a waking key.
- The bound on a caller's wait for a wake: what ends at the deadline is the wait, not the work.
- The idle sweep's own loop and `sleep` itself: eviction takes its outcome as given.
- What is in a branch's data roots: removing one service takes its own directory there; `Lifecycle` follows the roots.
- Deploys, apart from the port and the intent they touch; template deployments; branch merge.
- Rename of a database or storage service, which has no compensation.
- Host-name clashes with the route table: a label is free here when no claim and no row has it.
- A deploy that fails before its compensation begins leaks its host reservation; no claim is made there.
- Wall-clock time in eviction and the snapshot is any non-decreasing number.
- `migrateLegacyContainers`, which can rename a container whose migration failed.
- DataMigration.BranchData.MigrateVolume: does not say the copied bytes are consistent, because the source app keeps running during the copy.
- Eviction.EvictForRoom: does not model the sort itself, only its head, and takes the answer of each sleep as given.
- Teardown.Daemon.DestroyProject: runs with the branches the state has once the keys are held; that no others appear is `Redrive`.
- LockProgress.EveryScheduleDrains: says nothing of how long a body runs.
