# Feishu agent platform: a Dafny model of its state machines

The platform hosts many chat agents in one process. Messages arrive for apps, are routed to one of an
app's bindings, wait in a queue per conversation, take a turn slot, and run in a worker that belongs to
a session. Around that path the host keeps leases on apps, reloads its configuration while running,
asks people for approval, hands out model capabilities and limits what a workspace may hold. This
project models those parts as state machines over synchronous steps and proves what holds in every run.

## How to read it

JavaScript runs to completion: one synchronous stretch between two awaits is one atomic step, and any
pending continuation may come next. Each stateful part has

* a value model: a datatype for the state, one function per step, an enabling condition, and runs;
* an invariant, kept by every step and so by every run, and the main results read off it;
* outcomes: for each kind of step, in every reachable state, exactly what it comes to, said of what was
  asked and configured and not of the functions that compute it;
* a class with the mutable fields of the program, whose methods are proved to carry out exactly the
  steps of the value model (`Snapshot() == Step(old(Snapshot()))`, or the same said of its fields).

Clocks, random tokens, the network and everything a worker does come in as parameters of the steps.

| files | part |
|---|---|
| `ResidencyModel`, `ResidencyInvariants`, `ResidencyTheorems`, `ResidencyEviction`, `ResidencyOutcomes`, `ResidencyProgress`, `ResidencyWakeUps`, `ResidencyMissedWakeUp`, `ResidencyHost` | sessions of many registries on one pool of resident-runtime leases |
| `Sorting`, `BindingRouter`, `RouteValidation`, `RoutingTheorems`, `RoutingMeaning`, `RuntimeSignature` | routing a message, the load-time check, the restart signature |
| `AppLease`, `AppOwnership` | the lease row for which processes compete; the hosts that run an app under it |
| `ConfigStore`, `PublishFlow`, `PublishOutcomes` | revisions and slots; publish, rollback and reload across the asynchronous gap |
| `HotReload`, `HotReloadHost`, `HotReloadRouting`, `HotReloadOutcomes` | apply, maintenance and reconciliation of running apps |
| `PublishedApps` | the publish flow and the host it drives, as one system |
| `WorkspaceTree`, `WorkspaceQuota` | the cumulative quota over a directory tree |
| `Approvals`, `ApprovalDecisions`, `ApprovalCoordinator` | one-time approvals and their durable rows |
| `ModelBroker` | model capabilities |
| `Semaphore`, `TurnAdmission`, `TurnOutcomes`, `KeyedQueue` | turn slots at two levels, queues per conversation |
| `Base64Url`, `ConversationKey` | the conversation key codec |
| `LoginRate` | failed administrator logins |
| `SetFacts`, `Wrappers` | shared facts and result types |

The parts meet. `HotReloadRouting` joins the load-time route check, the signature and hot reload: a
platform the check accepts may be applied, and the router an app kept across reloads answers like one
built from the bindings now in force. `PublishFlow`
drives `ConfigStore` and rests on what that proves of slots and history. `PublishedApps` runs the
publish flow against the host: what the queue hands over is what the host applies, so a drained host
runs what was published. It takes from loading that a loaded configuration has passed the route check.
`AppOwnership` puts several hosts on one lease row. `TurnAdmission` runs on `Semaphore`, its mutable
runtime on the mutable semaphore.

## What the code does not keep

* `routesCanTie` is exact on routes without command prefixes. With prefixes it refuses pairs that no
  message makes tie (`RoutingTheorems.SharedPrefixNeedNotTie`); `RoutingTheorems.TiesExactly` has the
  exact condition. The other checks refuse shared prefixes anyway, so acceptance as a whole is exact
  (`RoutingTheorems.AcceptanceIsExact`).
* A startup parked for want of capacity can miss its wake-up. When an eviction is refused because the
  runtime was just joined, and that caller is done before the refusal comes back, its notice finds
  nobody parked; the startup then parks without looking again, beside a runtime it could evict
  (`ResidencyMissedWakeUp.WakeUpMissed`). `ResidencyWakeUps.WakeUpsAreMissedExactly` has the steps that
  do this, and nothing else can stick a startup (`ResidencyWakeUps.OnlyMissedWakeUpsStick`).
* A normal return of a request that is no read does not always mean that somebody approved it: a
  request whose policy is `never`, which workspace writes have by default, returns without a record.
  Any such request shows it (`Approvals.ExemptCallIsNotApproved`), and there is no other exception
  (`Approvals.NormalReturnIsApprovalIff`).
* `pending` of a key is not the number of tasks accepted and not settled: a settled task counts until
  its cleanup callback has run, a moment later (`KeyedQueue.SettledTaskStillPending`). The two are equal
  exactly when no such task is there (`KeyedQueue.PendingCountsUnsettled`).
* `isAcquired` does not mean ownership, and two hosts can run one app: one whose lease expired before
  its timer could beat, and the one that took the row over (`AppOwnership.LapsedHostRunsOn`). The owner
  is the one whose renewal the row would accept (`AppOwnership.RunnerOwnsIff`), there is at most one
  (`AppOwnership.OneOwnerRuns`), and the other learns of it at its next heartbeat.
* A start that the model policy refuses leaves the bindings it had already pushed. Starting the same
  host object again would push onto them; `HotReload.RetriesAreCleanIff` says exactly when such a retry
  is clean. The program does not retry (`src/index.ts:110`), and runs here do not either.

## Model

| member | source | states |
|---|---|---|
| ResidencyTheorems.RuntimesOwnLeases | src/pi/session-registry.ts:366-404 | In every reachable state of any number of registries on one coordinator, each starting, discarded or live runtime, detached ones included, owns its own unreleased lease; every lease has such an owner; so there are never more than `capacity` runtimes |
| ResidencyTheorems.ReservationsCountHolders | src/pi/session-registry.ts:137-180 | A mapped entry counts exactly its outstanding holders, and no map is larger than its limit |
| ResidencyTheorems.DetachedRuntimesAreDisposed | src/pi/session-registry.ts:638-660 | A runtime that left its map has a disposal owed or under way; a mapped entry is never cancelled or being disposed; no cancelled startup stays parked among the waiters |
| ResidencyTheorems.ReclaimingSparesHolders | src/pi/session-registry.ts:267-297 | Capacity eviction, idle pruning and Host-wide eviction never take an entry that somebody holds |
| ResidencyTheorems.CapacityEvictsLeastRecentlyUsed | src/pi/session-registry.ts:474-506 | A new entry pushes another out only when its registry is full, and then an unheld idle one used no later than any other idle one |
| ResidencyTheorems.ReleaseTouchesOnlyItsEntry | src/pi/session-registry.ts:406-411 | A stale end of a turn changes no reservation, in particular not that of a newer entry under the same key; a timely one takes exactly one off its own entry |
| ResidencyTheorems.StepKeepsInv | src/pi/session-registry.ts:137-439 | Every synchronous stretch of every operation keeps the whole invariant of entries, leases, maps, tasks and waiters |
| ResidencyTheorems.RunKeepsInv | src/pi/session-registry.ts:137-660 | The same over every run, whatever the interleaving of startup, abort, failure, eviction and disposal |
| ResidencyInvariants.TryAcquireKeepsInv | src/pi/runtime-capacity.ts:109-123 | One turn of the coordinator's acquire loop, whether it leases, starts an eviction or parks, keeps the invariant |
| ResidencyInvariants.DetachKeysKeepsInv | src/pi/session-registry.ts:310-317 | Taking any keys out of one registry keeps the invariant, each entry taken out being owed its disposal |
| ResidencyEviction.MarksHaveOneEvictor | src/pi/runtime-capacity.ts:112-121 | In every reachable state an `evicting` mark has exactly one startup behind it that still evicts, so no resident is evicted twice at once and no mark outlives its eviction |
| ResidencyOutcomes.ResumedTurnOutcome | src/pi/session-registry.ts:156-175 | Once the startup has settled: on an available runtime the turn is active and its hold stays; on an unavailable one the caller holds nothing any more; after a failed startup it is over; nothing leaves a map |
| ResidencyOutcomes.UnavailableEntriesLeave | src/pi/session-registry.ts:171-180 | The caller that found its runtime unavailable takes the entry out of the map, if it is still there, and has it disposed of |
| ResidencyOutcomes.AbortOutcome | src/pi/session-registry.ts:216-244 | An abort takes out the entry it holds, if that is still mapped, once its runtime has come up, and goes on holding it |
| ResidencyOutcomes.JoiningHolds | src/pi/session-registry.ts:139-144 | Joining a mapped entry, to use or to abort it, adds one hold to that entry and changes no other |
| ResidencyOutcomes.CreatedEntry | src/pi/session-registry.ts:149-152 | A key without an entry gets a fresh one, mapped, held once, behind a gate that knows whom it replaces |
| ResidencyOutcomes.EndedHolds | src/pi/session-registry.ts:464-472 | A caller that is done holds nothing; a mapped entry counts one holder fewer; a turn notes its time |
| ResidencyOutcomes.EntriesLeaveExactly | src/pi/session-registry.ts:171-317 | In every reachable state and step exactly these leave their map: what makes room, what is evicted or pruned while unused, a failed startup, and what is removed by a caller or by name; all but the failed are owed their disposal |
| ResidencyOutcomes.AcquireOutcome | src/pi/runtime-capacity.ts:105-123 | A cancelled startup fails; with room it gets a fresh lease; in a full house it evicts a least recently used reclaimable runtime, or parks exactly when there is none |
| ResidencyOutcomes.EvictionOutcome | src/pi/session-registry.ts:421-437 | An eviction goes on exactly when its victim is still mapped and unused; given up or done, the mark is cleared |
| ResidencyOutcomes.GateOutcome | src/pi/session-registry.ts:332-340 | A startup waits for the disposal of the entry it replaces before it asks for a lease |
| ResidencyOutcomes.WorkerOutcome | src/pi/session-registry.ts:381-404 | A cancelled startup never becomes a live runtime and loses its lease; any other goes on and is evictable from the moment its worker runs |
| ResidencyOutcomes.SettlingOutcome | src/pi/session-registry.ts:343-357 | A startup that went through is published, one that failed is over |
| ResidencyOutcomes.DisposalOutcome | src/pi/session-registry.ts:638-660 | A disposal cancels the startup, parked ones included; after it the lease is gone |
| ResidencyOutcomes.WaitersWakeExactly | src/pi/runtime-capacity.ts:126-147 | A parked startup tries again after exactly those steps that free a lease, publish a runtime or end a hold on a mapped one |
| ResidencyProgress.StepKeepsVictims | src/pi/runtime-capacity.ts:105-123 | Each step keeps this: whoever a startup replaces or evicts is a live runtime, disposed of or about to be asked, and still the owner of the marked lease; a lease is active exactly while its runtime runs |
| ResidencyProgress.NothingIsStuck | src/pi/runtime-capacity.ts:105-147 | In every reachable state an unfinished startup means that some call, startup or disposal has its next step, or else it is parked and every lease belongs to a live, mapped runtime that nobody holds or evicts |
| ResidencyProgress.NoCallerIsStuck | src/pi/session-registry.ts:137-252 | A caller that cannot go on, while nothing else can, waits for a parked startup |
| ResidencyProgress.WaitsForTheStop | src/pi/session-registry.ts:330-340 | A startup that replaces or evicts another entry goes on exactly when that entry's runtime has stopped, and by then the lease it was evicted for is free |
| ResidencyProgress.AcquiringGoesOn | src/pi/runtime-capacity.ts:149-168 | The acquire loop has a next turn whatever the leases are: among idle ones there is a least recently used |
| ResidencyProgress.RoomIsMadeIff | src/pi/session-registry.ts:474-506 | A call for a key without an entry gets one exactly when its registry has room or a live runtime that nobody holds and that does nothing; otherwise it fails |
| ResidencyWakeUps.WakeUpsAreMissedExactly | src/pi/runtime-capacity.ts:105-147 | Exactly these steps leave a parked startup beside room or a runtime it could evict: an eviction given up when its chance is back, an unavailable runtime whose only caller has yet to remove it, a runtime that goes quiet by itself |
| ResidencyWakeUps.OnlyMissedWakeUpsStick | src/pi/runtime-capacity.ts:105-147 | When nothing is going on and no runtime does anything by itself, an unfinished startup is one that missed its wake-up |
| ResidencyMissedWakeUp.WakeUpMissed | src/pi/runtime-capacity.ts:112-122 | A run of sixteen steps after which no step is under way, the only runtime is free to be evicted, and a startup is parked for good |
| ResidencyHost.Host.AcquireForTurn | src/pi/session-registry.ts:137-152 | The mutation joins the mapped entry, or evicts for capacity and inserts a fresh one behind its gate: the new state is that of the specified step |
| ResidencyHost.Host.TakeIdleEntryForCapacity | src/pi/session-registry.ts:474-506 | The scan finds a least recently used idle entry, or reports that a full registry has none |
| ResidencyHost.Host.ResumeTurn | src/pi/session-registry.ts:155-172 | After the promise settled: the turn goes on, or gives its reservation back |
| ResidencyHost.Host.FinishTurn | src/pi/session-registry.ts:187-192 | Ending a turn is the specified step and keeps the invariant |
| ResidencyHost.Host.PruneIdle | src/pi/session-registry.ts:267-297 | The loop takes out exactly the idle or unavailable entries past their time to live, and counts them |
| ResidencyHost.Host.DisposeAllSessions | src/pi/session-registry.ts:310-317 | Clearing a registry leaves every entry it had owed its disposal |
| ResidencyHost.Host.LruIdleCandidate | src/pi/runtime-capacity.ts:149-168 | The argmin loop returns an idle, unmarked resident used no later than any other such, or none when there is none |
| ResidencyHost.Host.TryAcquireLease | src/pi/runtime-capacity.ts:109-123 | One turn of the acquire loop is the specified step |
| ResidencyHost.Host.Wake | src/pi/runtime-capacity.ts:193-195 | Notifying wakes every waiter and nobody else |
| ResidencyHost.Host.EvictIfIdle | src/pi/session-registry.ts:421-437 | The eviction callback removes the entry only if it is still mapped, unheld and quiet |
| ResidencyHost.Host.CompleteStart | src/pi/session-registry.ts:393-399 | A start that was cancelled meanwhile is discarded; any other becomes evictable through its lease |
| ResidencyHost.Host.CompleteDisposal | src/pi/session-registry.ts:644-658 | The lease goes back only once the runtime has stopped |
| RoutingTheorems.AcceptedListsResolve | src/runtime/binding-router.ts:34-52 | On an accepted list resolving never raises the ambiguity error and returns the unique lexicographic maximum of (priority, prefix length, specificity) among the matching bindings, or the default when none matches |
| RoutingTheorems.TiesExactly | src/config/load-platform.ts:945-966 | Two dynamic bindings tie on some message exactly under a condition on their routes; the load-time check misses no tie, and on routes without prefixes it reports nothing else |
| RoutingTheorems.TieWitness | src/config/load-platform.ts:945-966 | The message on which two routes tie, built from their overlapping selectors |
| RoutingTheorems.SharedPrefixNeedNotTie | src/config/load-platform.ts:947-949 | With prefixes the check is stricter than need be: a concrete pair it refuses although no message makes it tie |
| RoutingTheorems.AcceptanceIsExact | src/config/load-platform.ts:919-941 | Among lists with one default and no shared prefix, exactly those are accepted in which no message makes two dynamic bindings tie |
| RoutingTheorems.LongestPrefixIsLongest | src/runtime/binding-router.ts:98-107 | The chosen prefix matches and no matching prefix is longer; none is chosen only if none matches |
| RoutingMeaning.MessagesGoWhereTheyShould | src/runtime/binding-router.ts:34-52 | On an accepted list every message goes, in terms of lists, topic and command alone, to the one receiving binding that goes before all others by priority, longer command and restrictions, with its arguments; or unchanged to the default |
| RoutingMeaning.MatchesIffReceives | src/runtime/binding-router.ts:55-74 | A binding matches exactly the messages that pass its three lists, the topic being thread, else root, else main, and give one of its commands if it has any |
| RoutingMeaning.PrefixMatchesIff | src/runtime/binding-router.ts:98-105 | The prefix test holds exactly when the content is white space, the command in whatever case, and a rest that is empty or begins with white space |
| RoutingMeaning.RewriteMeans | src/runtime/binding-router.ts:75-88 | The binding reads the arguments without white space around them, or the fixed request when there are none |
| RoutingMeaning.AmbiguousIff | src/runtime/binding-router.ts:41-47 | Any list with one default, checked or not: the ambiguity error is raised exactly when two bindings receive the message level with each other and nothing goes before them |
| RoutingMeaning.AppAcceptedIff | src/config/load-platform.ts:890-943 | The check of an app accepts exactly the lists with one default, no prefix at two places, one `lark-cli` profile at most, and no message on which two dynamic bindings tie |
| RouteValidation.ValidateAppRoutes | src/config/load-platform.ts:890-943 | The nested loops accept exactly the configurations in which every app has one default, at most one `lark-cli` profile, no prefix twice and no pair of dynamic routes that can tie |
| RouteValidation.CheckPrefixes | src/config/load-platform.ts:919-930 | The map-filling loop accepts exactly the lists in which no prefix is listed twice |
| RouteValidation.CheckPairs | src/config/load-platform.ts:931-941 | The double loop accepts exactly the lists in which no pair can tie |
| RuntimeSignature.SameSignatureSameRouting | src/app/host.ts:606-621 | Two accepted lists with equal signatures, in whatever order, send every message to the same binding with the same rewritten content |
| RuntimeSignature.SignatureTells | src/app/host.ts:606-621 | Two signatures are equal exactly when the app definitions are and each binding has a counterpart in the other list with the same id, route, policy and agent |
| RuntimeSignature.RewriteDropsTheCommand | src/runtime/binding-router.ts:71-89 | Routing by a command cuts exactly the white space and the command off the content and hands on the trimmed rest, or a fixed request when nothing is left |
| Sorting.SortHead | src/runtime/binding-router.ts:39-41 | The head of a list sorted with a lawful comparator is before or level with every element |
| AppLease.OwnershipNeverOverlaps | src/storage/app-lease-store.ts:41-100 | Whatever any number of lease objects do under a clock that never goes back, ownership intervals from acquisition to last renewal plus time to live, cut at release, never overlap |
| AppLease.RowTellsTheOwner | src/storage/app-lease-store.ts:41-66 | An interval covers the present exactly when the row exists, has not expired and is its own |
| AppLease.AcquireSucceedsIffUnowned | src/storage/app-lease-store.ts:41-66 | A lease object that has not acquired succeeds exactly when nobody owns the key, and then owns it for its time to live |
| AppLease.HeartbeatConfirmsOwnership | src/storage/app-lease-store.ts:68-84 | A heartbeat that returns true: the object's latest acquisition is the latest of all, has not lapsed, and is prolonged without a gap |
| AppLease.ReleaseSparesOthers | src/storage/app-lease-store.ts:86-100 | A release leaves every other object's interval and row alone and ends all of the releaser's own |
| AppLease.LostUntilReleased | src/storage/app-lease-store.ts:41-118 | A lease that noticed its loss stays lost through every run of calls by anybody that does not release it, and meanwhile its own acquire and heartbeat answer false and leave the row alone |
| AppLease.CallsAreRemembered | src/storage/app-lease-store.ts:41-118 | What each call leaves of the object that makes it, in terms of who owns the key, and that it concerns no other object |
| AppLease.RunKeepsInv | src/storage/app-lease-store.ts:41-100 | The row is always the last interval, and without a row every interval is over |
| AppLease.AppRuntimeLease.Acquire | src/storage/app-lease-store.ts:41-66 | Fields and row change as the conditional upsert says; an object that believes it has acquired issues no statement |
| AppLease.AppRuntimeLease.Heartbeat | src/storage/app-lease-store.ts:68-84 | The row is renewed only under its own owner, token and unexpired time; otherwise the object is marked lost |
| AppLease.AppRuntimeLease.Release | src/storage/app-lease-store.ts:86-100 | Deletes at most its own row and resets both flags |
| AppOwnership.OneOwnerRuns | src/app/host.ts:463-521 | Several hosts on one lease row, however their attempts, starts, heartbeats and stops interleave: at most one of them runs the app under a lease that has not lapsed |
| AppOwnership.RunnerOwnsIff | src/app/host.ts:463-521 | Of the hosts that run the app the owner is exactly the one whose renewal the row would accept now |
| AppOwnership.HeartbeatTellsOwners | src/storage/app-lease-store.ts:68-84 | A host that runs the app and believes in its lease counts it as lost after its next heartbeat exactly when it is no owner any more |
| AppOwnership.LapsedHostRunsOn | src/storage/app-lease-store.ts:37-39 | Before that heartbeat two hosts can run one app, both believing in their leases: a run of four steps |
| AppOwnership.OperationsAreSteps | src/app/host.ts:120-521 | Seen through one app, every operation of a host leaves it alone, drops it, notices its lost lease or ends with it started |
| AppOwnership.HostsAreFreeToAct | src/app/host.ts:120-521 | In every reachable state what a host's operation does to the app is a step of the model, and the lease timer can beat exactly while the app runs or starts |
| AppOwnership.RunKeepsInv | src/app/host.ts:463-521 | A host runs the app exactly under a lease object of its own, no two hosts share one, and what the host sees of it is its state |
| AppOwnership.TryStartApp | src/app/host.ts:463-521 | One attempt on the mutable host with its mutable lease: the row decides between standby and a start, and the lease is kept exactly when the app runs |
| ConfigStore.HistoryOnlyGrows | src/storage/config-store.ts:60-185 | Over every run revisions keep their place, document and hash; ids are never reused; publication stamps never change once set; sources are older; active is published, never unset, and differs from draft |
| ConfigStore.NamedDraftWasHeldThroughout | src/storage/config-store.ts:86-154 | A save or publication that names draft `n` and succeeds finds it in the slot, which held it at every earlier moment at which revision `n` existed |
| ConfigStore.ActiveHeldSince | src/storage/config-store.ts:118-185 | A revision that was published once and is active now has been active ever since: a replaced one never returns |
| ConfigStore.SlotsDoNotReturn | src/storage/config-store.ts:257-270 | No operation brings a revision back into the draft slot, or a replaced one back into the active slot |
| ConfigStore.PublicationKeepsTheDocument | src/storage/config-store.ts:118-185 | A published draft becomes active with its document; a rollback makes a new active revision with the document of its target |
| ConfigStore.SaveStoresTheDraft | src/storage/config-store.ts:86-116 | A saved draft is stored whole, validated document, hash, author, time, source and note, and takes the draft slot; nothing else changes |
| ConfigStore.SaveSucceedsIff | src/storage/config-store.ts:86-116 | A save succeeds exactly when the document validates, the slot is as expected, the source exists and the actor has a name; the first that fails is the error |
| ConfigStore.PublishSucceedsIff | src/storage/config-store.ts:118-154 | A publication succeeds exactly when there is a draft, the expected one if any, and the actor has a name; it stamps the draft, makes it active and changes no other revision |
| ConfigStore.RollbackSucceedsIff | src/storage/config-store.ts:156-185 | A rollback succeeds exactly when its target exists and the actor has a name; it appends a published copy of the target |
| ConfigStore.ImportSucceedsIff | src/storage/config-store.ts:60-84 | A seed is imported exactly into an unused store, when it validates and the actor has a name |
| ConfigStore.SeedOnlyOnce | src/storage/config-store.ts:60-66 | A seed is imported at most once, and never into a store that was used before |
| ConfigStore.RunKeepsInv | src/storage/config-store.ts:231-255 | Every stored document is valid and has the hash stored with it |
| ConfigStore.ConfigDocumentStore.ImportSeed | src/storage/config-store.ts:60-84 | Succeeds or fails, and changes the tables, as the transaction specifies |
| ConfigStore.ConfigDocumentStore.SaveDraft | src/storage/config-store.ts:86-116 | The same, with the conflict, missing-source and actor errors in their order |
| ConfigStore.ConfigDocumentStore.PublishDraft | src/storage/config-store.ts:118-154 | The same |
| ConfigStore.ConfigDocumentStore.Rollback | src/storage/config-store.ts:156-185 | The same |
| ConfigStore.ConfigDocumentStore.InsertRevision | src/storage/config-store.ts:231-255 | Appends the revision under a fresh id, or refuses the actor and changes nothing |
| PublishFlow.QueueCarriesTheRightRevisions | src/admin/platform-backend.ts:290-379 | For every interleaving of publications, rollbacks, reloads and draft saves, each queued configuration was loaded from exactly the document of the revision it is queued under, and the last one queued names the active revision |
| PublishFlow.DrainedHostRunsTheActiveRevision | src/app/host.ts:204-211 | Once the queue has drained and the last configuration was not refused outright, the host's active revision is the store's active slot, loaded from its document |
| PublishFlow.PublicationCommitsWhatItValidated | src/admin/platform-backend.ts:290-335 | A publication that commits after the gap publishes the very draft, with the very document, that it had validated |
| PublishOutcomes.UntouchedDraftsArePublished | src/admin/platform-backend.ts:290-321 | A publication that began with the draft commits exactly when loading went well, the draft is still the same and the actor has a name, whatever happened in between |
| PublishOutcomes.PublicationOutcome | src/admin/platform-backend.ts:306-321 | A loaded publication of a draft commits exactly under these conditions; then it is active, the draft is gone and the queue has it with its document, once |
| PublishOutcomes.RollbackOutcome | src/admin/platform-backend.ts:337-362 | A loaded rollback commits exactly when the actor has a name; a new revision with the document of the target is active and queued |
| PublishOutcomes.ReloadOutcome | src/admin/platform-backend.ts:613-625 | A reload queues its revision exactly when that is still active, and leaves the store alone |
| PublishOutcomes.TasksBeginIff | src/admin/platform-backend.ts:290-346 | A task begins exactly when its revision is there, and remembers revision and document |
| PublishOutcomes.HostTakesTheOldest | src/app/host.ts:204-229 | The host takes the oldest queued configuration and runs it exactly when it accepts it |
| PublishFlow.RunKeepsInv | src/admin/platform-backend.ts:290-379 | Every waiting task has the document of the revision it speaks of, whatever happens while it waits |
| PublishFlow.LifecycleQueue.RunNext | src/app/host.ts:435-442 | The oldest queued configuration is taken, whether it is refused or sets the active revision |
| PublishFlow.PlatformAdminBackend.BeginPublish | src/admin/platform-backend.ts:290-306 | Starts loading the current draft, or reports that there is none or another one than expected |
| PublishFlow.PlatformAdminBackend.BeginRollback | src/admin/platform-backend.ts:337-346 | Starts loading the target, or reports that it does not exist |
| PublishFlow.PlatformAdminBackend.BeginReload | src/admin/platform-backend.ts:613-620 | Starts loading the active revision, if there is one |
| PublishFlow.PlatformAdminBackend.AfterLoading | src/admin/platform-backend.ts:306-321 | Commits and queues in one stretch, or changes neither store nor queue; the answer is the revision now in force, or the first of failed loading, changed draft, nameless actor and replaced revision |
| PublishedApps.RunningAppsArePublished | src/app/host.ts:204-300 | Publish flow and host as one system: once the queue has drained and the last configuration was not refused outright, every running app carries the signature that the document of the store's active revision prescribes, whatever was published, rolled back, reloaded, lost and restarted before |
| PublishedApps.RunningRoutersArePublished | src/app/host.ts:606-621 | And it routes every message as that document prescribes, never ambiguously |
| PublishedApps.RunKeepsInv | src/app/host.ts:204-211 | Queue, store and host agree on revision and configuration in every run |
| HotReload.RunningAppsAreCurrent | src/app/host.ts:213-308 | After any run of start, apply, maintenance, lease losses and stop: running apps, leases and assignments in state running have the same keys, inside desired = assignments; every running app carries the signature of its present configuration |
| HotReload.ApplyStopsOnlyChangedApps | src/app/host.ts:241-268 | An apply stops only apps that left or whose signature changed; a refused configuration changes nothing |
| HotReload.AcceptedConfigurationsAreInForce | src/app/host.ts:213-300 | A configuration is refused before anything changes, or is in force with its revision from then on, whatever fails to start; success means no changed app failed |
| HotReload.ChangedAppsAreRebuilt | src/app/host.ts:256-300 | A changed app runs its new build afterwards, or does not run |
| HotReloadOutcomes.DesiredExactly | src/app/host.ts:229-240 | The host desires exactly the configured apps of its shard, each as it was configured last |
| HotReloadOutcomes.StartOutcome | src/app/host.ts:141-168 | After a start exactly the configured apps of the shard are assigned, and run exactly when their start goes through, in the build that is configured |
| HotReloadOutcomes.ApplyOutcome | src/app/host.ts:241-300 | After an accepted configuration exactly the configured apps of the shard are assigned; an app runs on when it would be built alike, otherwise its new build runs exactly when its start goes through, and the assignment says why not |
| HotReloadOutcomes.ApplyTells | src/app/host.ts:217-308 | The caller is told of a host that does not run, a refusal, a broker that does not come up, or a changed app that failed to start, in this order |
| HotReloadOutcomes.MaintenanceOutcome | src/app/host.ts:409-433 | Maintenance keeps exactly the apps whose lease holds; any other desired app runs exactly when its start goes through |
| HotReloadOutcomes.LeaseLossOutcome | src/storage/app-lease-store.ts:115-118 | A lease that notices its loss makes its app count as lost and nothing else; the next maintenance stops the app unless it starts anew |
| HotReloadOutcomes.NothingIsLeft | src/app/host.ts:310-332 | A stop leaves nothing behind, nor does a start whose servers fail |
| HotReload.HotReloadRefinesRestart | src/app/host.ts:213-308 | Hot reload ends in a state equivalent to stopping the host and starting it with the new configuration, the kept apps starting again and the others faring as they did |
| HotReload.MaintenanceStopsLostApps | src/app/host.ts:409-433 | Maintenance stops exactly the apps whose lease is lost and touches no other running app |
| HotReload.RunKeepsInv | src/app/host.ts:456-537 | The invariant behind these, over every run |
| HotReloadRouting.RunningRoutersAreCurrent | src/app/host.ts:606-621 | After any run of configurations that passed the route check, every running app routes every message as a router built from its present bindings would, and never ambiguously |
| HotReloadRouting.ValidatedPlatformsAreLoadable | src/config/load-platform.ts:890-943 | A platform that the load-time check accepts is one the host may be given: what it groups for each app is what was checked |
| HotReloadRouting.GroupIsAssigned | src/app/host.ts:594-604 | The grouping gives each app exactly the bindings assigned to it, in their order |
| HotReloadHost.PlatformHost.ApplyPlatformConfig | src/app/host.ts:213-308 | State and error are those of the specified apply step |
| HotReloadHost.PlatformHost.ChangedApps | src/app/host.ts:241-254 | The loop collects exactly the apps that join, leave or have another signature |
| HotReloadHost.PlatformHost.ReconcileApps | src/app/host.ts:456-461 | Trying the candidates one by one in any order ends in the specified state, with nothing left marked as starting |
| HotReloadHost.PlatformHost.TryStartApp | src/app/host.ts:463-521 | One attempt with the outcome of its lease and start given: standby, failed, running, or nothing when the host is stopping |
| HotReloadHost.PlatformHost.RunMaintenance | src/app/host.ts:409-433 | State is that of the specified maintenance step |
| HotReloadHost.PlatformHost.OnLeaseLost | src/storage/app-lease-store.ts:115-118 | A lease object that notices its loss is the step that makes its app count as lost |
| HotReloadHost.PlatformHost.Start | src/app/host.ts:120-195 | A start that goes through ends in the specified state; one that fails leaves what the code leaves: only the last kind of failure cleans up |
| HotReloadHost.PlatformHost.PushBindings | src/app/host.ts:132-139 | The loop pushes the bindings in order, up to the one that the model policy refuses |
| HotReload.RetriesAreCleanIff | src/app/host.ts:132-139 | Starting again on the same host after a failed start gives every app its bindings exactly when the failure was no refusal of a later binding than the first |
| HotReloadHost.PlatformHost.Stop | src/app/host.ts:310-332 | Nothing runs, is leased or desired afterwards |
| WorkspaceQuota.QuotaHoldsForever | src/sandbox/workspace-guard.ts:167-219 | Over every run of writes, failing or not, total bytes stay at most max(quota, initial bytes) and the file count at most max(quota, initial count) |
| WorkspaceQuota.VisitIsExact | src/sandbox/workspace-guard.ts:328-357 | The early-exit recursive scan is cut short exactly when the full tree sums exceed a limit, and counts exactly otherwise |
| WorkspaceQuota.QuotaIsExact | src/sandbox/workspace-guard.ts:176-199 | A write is refused for its size exactly when it would leave the workspace over a limit without shrinking it |
| WorkspaceQuota.WrittenIff | src/sandbox/workspace-guard.ts:131-217 | A write is carried out exactly when it is never aborted, the workspace is writable and the content not too large, unless the host writes, its path leads to a regular file or nowhere, and the quota allows it |
| WorkspaceQuota.LetInOutcome | src/sandbox/workspace-guard.ts:167-217 | Of a write that is let in, the first thing wrong with path or quota is the error, and then nothing changes |
| WorkspaceQuota.QuotaErrorsAreExact | src/sandbox/workspace-guard.ts:178-199 | Which quota error is reported, in terms of the sums of the tree |
| WorkspaceQuota.PersistSums | src/sandbox/workspace-guard.ts:167-219 | A written file changes the sums by what is written less what it overwrites; anything else that happens leaves both sums alone |
| WorkspaceQuota.PersistReadsBack | src/sandbox/workspace-guard.ts:201-217 | A written path reads back, and every other path leads to what it led to before |
| WorkspaceTree.WriteSums | src/sandbox/workspace-guard.ts:201-217 | The tree sum after an overwrite is old minus previous plus new, at any depth |
| WorkspaceTree.MakeParentsSums | src/sandbox/workspace-guard.ts:256-280 | Making missing directories changes no sum |
| WorkspaceTree.WalkFindsTheNode | src/sandbox/workspace-guard.ts:282-326 | The walk answers by what the path leads to: the size of a regular file, an error for a symlink, a directory or a special file, nothing where it leads nowhere |
| WorkspaceTree.ParentsStopTheWalk | src/sandbox/workspace-guard.ts:311-322 | A parent that is there and is no directory stops the walk with its error |
| WorkspaceTree.OnlyParentsStopTheWalk | src/sandbox/workspace-guard.ts:301-326 | And nothing else does |
| WorkspaceQuota.LocalWorkspaceGuard.VisitDirectory | src/sandbox/workspace-guard.ts:331-353 | The recursive loop over the counters computes the specified scan |
| WorkspaceQuota.LocalWorkspaceGuard.ScanUsage | src/sandbox/workspace-guard.ts:328-357 | Truncated exactly when the tree exceeds a limit; exact otherwise |
| WorkspaceQuota.LocalWorkspaceGuard.ExistingFileBytesAt | src/sandbox/workspace-guard.ts:301-326 | The walk finds the size of the file, its absence, or the symlink, non-directory and target errors |
| WorkspaceQuota.LocalWorkspaceGuard.PersistFile | src/sandbox/workspace-guard.ts:167-219 | Effect and new tree are those specified, and within the bound |
| Approvals.NormalReturnMeansApproved | src/approvals/coordinator.ts:60-156 | A call that returns normally after asking has an approved row, resolved before it expired, naming an operator who was entitled to decide |
| Approvals.NormalReturnIsApprovalIff | src/approvals/coordinator.ts:60-156 | Of the requests that are no reads, those for which every normal return, at once or after asking, in every run, means an approved row, in time and by an entitled operator, are exactly those whose policy is not never |
| ApprovalDecisions.OperatorsWereEntitled | src/approvals/coordinator.ts:174-177 | In every run a grant by card on an administrators' request is one of an administrator, a grant on a requester's request is his own, and the console grants administrators' requests only |
| ApprovalDecisions.CardActionOutcome | src/approvals/coordinator.ts:158-187 | A card action on a pending case from its chat by an administrator, or else by the requester, decides it when in time; anybody else's changes nothing |
| ApprovalDecisions.ConsoleOutcome | src/approvals/coordinator.ts:189-197 | The console decides pending administrators' requests and nothing else |
| ApprovalDecisions.RequestIsFiledIff | src/approvals/coordinator.ts:60-117 | A request is filed exactly when it asks for approval, is no read, has an administrator if it needs one, is not aborted and the store takes it; then it is pending until its time is up |
| ApprovalDecisions.RefusalOutcome | src/approvals/coordinator.ts:92-152 | Timer, abort and failed send refuse a pending case whatever the store does, and a working store tells which it was |
| ApprovalDecisions.CallOutcome | src/approvals/coordinator.ts:131-156 | A delivered card makes the call wait; once its promise has settled it returns exactly when that was granted |
| ApprovalDecisions.RequestAnswers | src/approvals/coordinator.ts:60-66 | The error of a request that is not filed, and the silence of one that need not be |
| ApprovalDecisions.OthersAreOnlySwept | src/storage/approval-store.ts:68-107 | Exactly the sweeps expire the overdue pending rows of other cases, and no step changes anything else about them |
| Approvals.MemoryAndRowAgree | src/approvals/coordinator.ts:220-247 | The row is approved exactly when the promise was granted, and a case is pending in memory exactly as long as its promise is open |
| Approvals.DecisionsAreFinal | src/storage/approval-store.ts:68-107 | In whatever follows, a settlement stays, a case never becomes pending again and is settled in the step that takes it out, and a terminal row never changes |
| Approvals.ThrowingStoreLeavesDecisionOpen | src/approvals/coordinator.ts:220-231 | A throwing store decides nothing, and the same decision made again in time is carried out |
| Approvals.LateDecisionsAreRefused | src/storage/approval-store.ts:87-97 | A decision at or after the expiry is refused and recorded as expired |
| Approvals.RefusalsAreRecorded | src/approvals/coordinator.ts:92-128 | An abort in time is recorded as aborted, a due timer as expired, and both refuse the promise |
| Approvals.StepKeepsInv | src/approvals/coordinator.ts:91-152 | Every step keeps every case consistent and undoes nothing final in any of them |
| ApprovalCoordinator.ApprovalCoordinator.Request | src/approvals/coordinator.ts:60-117 | Files the case, or answers with the exemption, the missing administrator, the early abort or the store's failure |
| ApprovalCoordinator.ApprovalCoordinator.HandleCardAction | src/approvals/coordinator.ts:158-187 | Answer and state are those of the specified step, checks in their order |
| ApprovalCoordinator.ApprovalCoordinator.ResolveFromTrustedAdmin | src/approvals/coordinator.ts:189-197 | The same for the console |
| ApprovalCoordinator.ApprovalCoordinator.OnTimer | src/approvals/coordinator.ts:92-104 | The timer refuses the promise whatever the store does |
| ApprovalCoordinator.ApprovalCoordinator.OnAbort | src/approvals/coordinator.ts:115-128 | So does the abort signal |
| ApprovalCoordinator.ApprovalCoordinator.OnSettled | src/approvals/coordinator.ts:138-156 | The call returns exactly when its promise was granted, and then its row is approved in time |
| ApprovalCoordinator.ApprovalCoordinator.OnSendFailed | src/approvals/coordinator.ts:139-152 | A card that could not be sent: the call throws, and what is still pending is refused and recorded as aborted, store permitting |
| ApprovalCoordinator.ApprovalCoordinator.Stop | src/approvals/coordinator.ts:205-218 | Shutdown refuses everything pending, leaves no promise open and undoes nothing final |
| ApprovalCoordinator.ToolApprovalStore.Resolve | src/storage/approval-store.ts:68-97 | The sweep and the conditional update, with a throw before or after the sweep |
| ModelBroker.TableRefinesClosedForm | src/model/model-broker.ts:274-307 | A token is found active at a time exactly when it was issued, was not revoked, dropped or cleared, was last used less than the time to live ago, and is not past its lifetime cap; and then with the scope it was issued for |
| ModelBroker.ForwardedIffGoodAgain | src/model/model-broker.ts:190-229 | A request is forwarded exactly when its body is valid and its token is good again once the body has been read; that use then counts, and no other |
| ModelBroker.IssuedForItsScope | src/model/model-broker.ts:141-164 | A capability is issued exactly to a scope with a proper path and five names that are not blank, and for just that scope, cleaned |
| ModelBroker.LetInIff | src/model/model-broker.ts:190-204 | A request is let in exactly when its token was issued, has not ended, was used recently enough, is young enough, and the path is served |
| ModelBroker.GoesOnIff | src/model/model-broker.ts:217-229 | It goes on exactly when its body is valid and its token meets the same conditions still |
| ModelBroker.EndsExactlyBy | src/model/model-broker.ts:166-168 | Exactly a stop, the revocation and the disconnect of one of its requests end a token |
| ModelBroker.CapIsHardAndEndIsFinal | src/model/model-broker.ts:149-163 | No use takes a token past its cap, and nothing brings a revoked, dropped or cleared one back |
| ModelBroker.LivesMoveForward | src/model/model-broker.ts:166-168 | Only revocation, a disconnect or a stop ends a token, and only an accepted request moves its last use |
| ModelBroker.HostModelBroker.IssueCapability | src/model/model-broker.ts:141-164 | Tables the token with its cleaned scope and both expiries, or answers with the first error of the broker state and the scope and changes nothing |
| ModelBroker.HostModelBroker.StartBroker | src/model/model-broker.ts:88-127 | The step that lets capabilities be issued |
| ModelBroker.HostModelBroker.OnFinish | src/model/model-broker.ts:257-271 | A request that is over is the specified step |
| ModelBroker.HostModelBroker.ActiveCapability | src/model/model-broker.ts:274-285 | The lookup that drops what has expired |
| ModelBroker.HostModelBroker.RenewCapability | src/model/model-broker.ts:287-300 | Slides an active capability; the result is true exactly when it was active |
| ModelBroker.HostModelBroker.OnBodyRead | src/model/model-broker.ts:217-229 | The second check after the gap, in terms of the closed form |
| ModelBroker.HostModelBroker.OnDisconnect | src/model/model-broker.ts:206-211 | A client that goes away takes its token with it |
| ModelBroker.HostModelBroker.PruneExpiredCapabilities | src/model/model-broker.ts:302-307 | The sweep removes exactly the expired ones |
| ModelBroker.HostModelBroker.ActiveCapabilities | src/model/model-broker.ts:170-180 | The reported number is that of the tokens that are good |
| Semaphore.SemaphoreIsFair | src/core/semaphore.ts:24-70 | Whatever is acquired, aborted and released: slots in use are the unreleased handles, within the capacity; somebody waits only at full capacity; waiters are served in order of arrival |
| Semaphore.ReleaseIsIdempotent | src/core/semaphore.ts:54-69 | Calling a release function again changes nothing and grants nobody |
| Semaphore.AcquireGives | src/core/semaphore.ts:24-43 | Asking, in every run: an aborted caller is turned away; with a slot to spare the caller has a fresh release function at once; otherwise it is queued last |
| Semaphore.ReleaseGives | src/core/semaphore.ts:54-69 | Giving back: the longest waiting caller has a fresh release function, or a slot is free; a second time changes nothing |
| Semaphore.AbortGives | src/core/semaphore.ts:33-37 | Giving up: exactly that waiter leaves the queue |
| Semaphore.Semaphore.Acquire | src/core/semaphore.ts:24-43 | Grants, queues or rejects as specified |
| Semaphore.Semaphore.AbortWaiter | src/core/semaphore.ts:33-37 | Finds the waiter and splices it out |
| Semaphore.Semaphore.Release | src/core/semaphore.ts:54-69 | Hands the slot to the longest waiting, or frees it |
| TurnAdmission.SlotsAreConserved | src/runtime/binding-runtime.ts:336-354 | After any run the slots in use at distinct bindings sum to the turns that run there, at most the Host-wide slots in use, at most the Host-wide capacity |
| TurnAdmission.NothingLeaks | src/runtime/binding-runtime.ts:182-212 | Once every turn has finished, expired or failed, nothing is in use and nobody waits at any level |
| TurnAdmission.FailedTurnsReturnEverything | src/runtime/binding-runtime.ts:346-349 | A turn that expires while waiting for its binding gives the Host-wide slot back, to the longest waiting turn if there is one |
| TurnOutcomes.EveryTurnCanGoOn | src/runtime/binding-runtime.ts:336-354 | In every reachable state each turn can take exactly the step of its phase: nobody is stuck |
| TurnOutcomes.BeginOutcome | src/runtime/binding-runtime.ts:336-340 | A new turn has a Host-wide slot at once exactly when fewer turns than slots hold one; otherwise it waits last |
| TurnOutcomes.ContinueOutcome | src/runtime/binding-runtime.ts:340-345 | It runs exactly when fewer turns than its binding allows run there; otherwise it waits there last and keeps its slot |
| TurnOutcomes.RefundOutcome | src/runtime/binding-runtime.ts:346-349 | A turn that gives its Host-wide slot back is gone, and the longest waiting turn has it |
| TurnOutcomes.FinishOutcome | src/runtime/binding-runtime.ts:340-345 | A turn that finishes is gone; the longest waiting turn of its binding runs, that of the Host goes on, and every other turn stays as it is |
| TurnAdmission.StepKeepsInv | src/runtime/binding-runtime.ts:336-354 | At both levels the unreleased handles are exactly those the turns hold, and the queued tickets those the turns wait under |
| TurnAdmission.BindingRuntime.EnterBinding | src/runtime/binding-runtime.ts:340-349 | A rejected second acquisition gives the first slot back |
| TurnAdmission.BindingRuntime.ReleaseSlots | src/runtime/binding-runtime.ts:342-345 | Releases the binding's slot, then the Host-wide one; a second call changes nothing |
| KeyedQueue.QueuedTasksRunInOrder | src/core/keyed-queue.ts:25-51 | For every key and run the n-th task to start is the n-th accepted, at most one runs and nothing starts before all earlier ones are over, and pending is the number accepted and not yet cleaned up, never above the limit; through dropped and re-created states and failing tasks |
| KeyedQueue.AcceptedAndStartedIff | src/core/keyed-queue.ts:25-39 | In every run a task is accepted exactly while fewer than the limit are accepted and not cleaned up, and may start exactly when all accepted before it are over |
| KeyedQueue.StepsMoveOneTask | src/core/keyed-queue.ts:25-49 | Each step moves one task of its key and leaves all others as they are |
| KeyedQueue.PendingCountsUnsettled | src/core/keyed-queue.ts:42-55 | In every run `pending` is at least the number of tasks accepted and not settled, and equals it exactly while no settled task of the key awaits its cleanup callback |
| KeyedQueue.SettledTaskStillPending | src/core/keyed-queue.ts:42-49 | A run in which they differ |
| KeyedQueue.CleanupFindsItsState | src/core/keyed-queue.ts:42-47 | The identity test of the cleanup never fails in a run |
| KeyedQueue.StepKeepsInv | src/core/keyed-queue.ts:25-51 | Each step keeps the promise chain in acceptance order and the count exact |
| KeyedQueue.KeyedQueue.Enqueue | src/core/keyed-queue.ts:25-40 | Chains a task to the found or new state object, or refuses it exactly when the queue is full |
| KeyedQueue.KeyedQueue.OnStart | src/core/keyed-queue.ts:35-35 | A task begins when the tail it was chained to has settled; no field changes |
| KeyedQueue.KeyedQueue.OnSettled | src/core/keyed-queue.ts:36-39 | A task settles, well or not, ahead of its cleanup; no field changes |
| KeyedQueue.KeyedQueue.Cleanup | src/core/keyed-queue.ts:42-48 | Counts down and drops the state at zero |
| KeyedQueue.KeyedQueue.PendingTurns | src/core/keyed-queue.ts:53-55 | Reports the outstanding tasks, within the limit |
| KeyedQueue.KeyedQueue.IsIdle | src/core/keyed-queue.ts:61-68 | The condition that draining waits for: no state object is left exactly when no task is outstanding under any key |
| ConversationKey.ParseFormat | src/core/conversation.ts:42-52 | Parsing a built key gives back exactly the address when every part is readable, and fails otherwise |
| ConversationKey.FormatInjective | src/core/conversation.ts:21-40 | Two keys are equal exactly when their addresses are, empty parts included |
| ConversationKey.AcceptedKeysReencode | src/core/conversation.ts:84-97 | Every accepted string is the key of the address it parses to |
| ConversationKey.AcceptedLanguage | src/core/conversation.ts:42-52 | A string parses exactly when it is the key of some readable address |
| ConversationKey.BuiltKeysIdentifyConversations | src/core/conversation.ts:21-40 | The key of a message parses to its app, agent, tenant (or placeholder), chat and topic, and no other string parses to the same |
| ConversationKey.SameConversationIff | src/core/conversation.ts:21-40 | Two messages to one agent have the same key exactly when tenant and chat agree and, where conversations are per thread, the topic: thread, else root, else main |
| ConversationKey.BuiltKeyReads | src/core/conversation.ts:21-52 | What a message's key reads back as |
| ConversationKey.KeySegments | src/core/conversation.ts:30-39 | A key is six segments between colons, the version and the five parts in order |
| ConversationKey.BelongsToItsAddress | src/core/conversation.ts:54-70 | A key belongs to an app, agent and chat exactly when it is the key of such an address |
| ConversationKey.SegmentRoundTrip | src/core/conversation.ts:80-97 | One segment survives exactly when its text is not empty and well-formed |
| Base64Url.DecodeEncode | src/core/conversation.ts:80-82 | Decoding undoes encoding for every byte string (section 5 of RFC 4648) |
| Base64Url.TestVectors | src/core/conversation.ts:80-82 | The test vectors of section 10 of RFC 4648, unpadded |
| Base64Url.EncodesGroupByGroup | src/core/conversation.ts:80-82 | Each whole group of three bytes becomes four digits, whatever follows it |
| Base64Url.LeftoverBitsAreDropped | src/core/conversation.ts:88-92 | Two strings of digits decode alike exactly when they agree up to the leftover bits of the last digit of a short group, a lone last digit aside |
| Base64Url.TwoSpellings | src/core/conversation.ts:88-92 | So only re-encoding tells such strings apart: a concrete pair |
| LoginRate.FailuresPerWindow | src/admin/auth-service.ts:143-162 | In any stretch of a run no longer than the window, ends included, and without a successful login of the client, its token is compared and found wrong at most twice the limit |
| LoginRate.FailuresPerWindowIsTight | src/admin/auth-service.ts:305-313 | The bound cannot be lowered: a run that reaches it for every limit and window |
| LoginRate.BucketsStayBounded | src/admin/auth-service.ts:288-313 | No bucket ever counts above the limit |
| LoginRate.RetryAfterIsEnough | src/admin/auth-service.ts:288-303 | A client that waits as long as it was told is no longer limited, and still is one second earlier |
| LoginRate.LoginGives | src/admin/auth-service.ts:143-162 | A client is limited exactly while its live bucket is full; a success empties the bucket, a failure counts in the live or a new one, and no other client's bucket changes |
| LoginRate.PurgeChangesNoOutcome | src/admin/auth-service.ts:256-269 | The sweep removes every expired bucket and no later login can tell |
| LoginRate.AdminAuthService.LoginWithBootstrapToken | src/admin/auth-service.ts:143-162 | Outcome and buckets are those of the specified step |
| LoginRate.AdminAuthService.PurgeExpired | src/admin/auth-service.ts:256-269 | The sweep removes exactly the expired buckets |

## Left out

- HTTP servers, the web console, the chat channel, worker processes, the command-line tools and deployment: plumbing around the modelled parts.
- Cryptography, hashing and serialization: tokens and identifiers are fresh values, digests and JSON are functions taken to be injective; SQL statements are atomic table updates and transactions atomic steps.
- The order of the microtask queue: continuations that are ready resume in any order, so `ResidencyMissedWakeUp.WakeUpMissed` is a run that the program's own synchronization permits.
- One live runtime per conversation key: a detached runtime may still be stopping while a newer one starts under the same key; `ResidencyTheorems.DetachedRuntimesAreDisposed` has what holds of it.
- Registries are entries of one host object, told apart by a registry id, rather than one heap object each; entry identity is an id. Which of several equally old idle entries goes first (insertion order) is left open.
- Session files, the session index, model access revocation and logging inside the session registry.
- The worker start limiter: it is the modelled semaphore under another name; inside the residency protocol its waiting is part of a start's duration.
- BindingRouter: case mapping is per character and keeps the length, and white space and collation are parameters; full Unicode case mapping is not modelled.
- HotReload: runtimes whose stop throws are not modelled; maintenance calls into runtimes change nothing here.
- HotReloadHost.PlatformHost.TryStartApp: acquiring the app lease is an outcome here; `AppOwnership.TryStartApp` makes the same attempt with its lease object, and `AppOwnership.Step` takes it apart where others may come in between.
- AppOwnership: follows one app id, and a host that stops is the step that drops it.
- PublishFlow.LifecycleQueue.RunNext: the queue and the revision switch alone; the work on the apps is in `HotReloadHost`, and `PublishedApps` joins the two.
- PublishFlow: credential freshness is not claimed. A reload that began before another one may be queued after it and carry older credentials of the same revision.
- PublishFlow: a second process that publishes into the same database (`src/cli/platformctl.ts`) is not part of this model.
- ConfigStore.NamedDraftWasHeldThroughout: speaks of numeric expected ids only; an expected draft of `null` promises no such thing, since a draft may have come and gone.
- WorkspaceQuota: failing disk operations and writers other than the guard are not modelled; writes to one root are serialized by its lock and so are single steps. The nested tree is updated as a value.
- Path checks before a workspace write (absolute paths, parent traversal): independent string checks.
- Approvals: the text of the cards, and cards that are updated after a decision.
- ModelBroker: the check of a request's path, query and model against the capability's scope is the `valid` flag of a read body; the upstream call is left out.
- ConversationKey: text is its UTF-8 bytes, so strings with unpaired surrogates, which the runtime replaces before encoding, stand for their replacement.
- KeyedQueue: the loop of `onIdle` is left out; `KeyedQueue.KeyedQueue.IsIdle` has its exit condition.
- Administrator sessions, CSRF tokens and single sign-on in the authentication service.
- Fairness and termination: nothing is claimed about tasks that never settle or continuations that are never run.
