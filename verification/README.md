# rss2msg: a verified model of its coordination and delivery core

rss2msg is a fleet of feed pollers without a leader. Instances agree through leases in a shared
store, split the feeds among themselves by rendezvous hashing, and commit an item only after every
sink has taken it. This project models those parts in Dafny and proves what they promise.

| file | part of the system |
|---|---|
| `LeaseLedger.dfy`, `LeaseRegister.dfy` | the `held` bookkeeping shared by two coordinators; the abstract lease register both implement, whose claims exclude each other |
| `CosmosLease.dfy`, `DynamoLease.dfy`, `RedisLease.dfy` | the three lease protocols as state machines over all interleavings, and the calls as the program runs them |
| `Assign.dfy`, `OwnerProvider.dfy`, `Reconcile.dfy`, `Fleet.dfy` | ownership, heartbeat-driven rebalancing, the reconcile loop, and all of it composed over a fleet |
| `CompositeCycle.dfy`, `FanOut.dfy`, `Retry.dfy` | the configuration's cycle check, nested fan-out with retry and dead letters, backoff arithmetic |
| `Detector.dfy`, `Pipeline.dfy`, `Pollers.dfy` | change detection, the poll pipeline, and pollers that overlap |
| `FeedWindow.dfy` | the rolling window of the feed sink |
| `Membership.dfy`, `FeedSource.dfy` | heartbeat membership; the aggregated feed list |
| `Feeds.dfy`, `Sorting.dfy`, `Naturals.dfy` | values, insertion sort and unused names, used by several parts |

`dafny verify dfyconfig.toml` checks everything.

## How the world is modelled

- **Steps.** A protocol run is a sequence of states of any length, by any number of processes. Each
  `TryAcquire`, release and `Close` is split into its remote requests and its mutex sections. A clock
  reading is taken before the request that uses it, so it may lag, never lead. A request whose answer is
  an error stays in the network: it may be applied later, more than once, or never. A process that
  crashed is one that takes no more steps.
- **Objects.** Where the program updates fields, a class does, and its methods are proved against
  functions of the old state. Those methods run uninterrupted; interleavings are in the state machines.
- **Inputs.** Sink answers, store errors, HTTP replies, random draws and clock readings are parameters.
- **Assumptions.** One clock for the fleet. Tokens and ETags are fresh. Lock keys tell feed URLs apart.
  The rendezvous score is any function. Reads are strongly consistent: a lease read or a page of a membership
  scan shows the store as it is at that moment (the DynamoDB scan does not ask for that).
  A delete that was answered with success leaves no copy in the network; puts may, answered or not.
- **Crashes.** No safety result assumes that other processes go on: leases lapse, members expire and are reaped.

## What does not hold, and when it does

- A configuration whose sink dead-letters to a composite it belongs to is accepted, and with refusing
  sinks its publish calls itself for ever (`FanOut.AcceptedCanLoop`). Publishing terminates under every
  sink behaviour exactly when no cycle of children **and** dead letters is reachable (`FanOut.TerminatesIff`).
- A heartbeat answer is lost when its key is that of the last one although the members differ, and no reconcile
  is due anyway (`OwnerProvider.NoLostRebalanceIff`). A comma in a member ID can cause it
  (`OwnerProvider.CommaIsLost`); among well-named members only a first answer that names nobody can
  (`OwnerProvider.EmptyAnswerIsLost`, `OwnerProvider.NamedRebalanceIff`), and the next answer that names somebody
  makes up for it (`OwnerProvider.NoLostRebalance`). An error of the inner provider right after the signal was taken
  loses a rebalance too (`OwnerProvider.ErrorWastesTheSignal`); the aggregator never errs.
- The backoff ceiling can wrap to a small value (`Retry.CeilingCanWrap`); `Retry.CeilingExactIff` says when.
- An item ID that appears twice with different hashes is re-emitted for ever (`Detector.SteadyStateIff`).
- A dropped change is not retried while the server answers 304, because the validators were stored before
  delivery (`Pipeline.DroppedWaitsForABody`).
- The DynamoDB coordinator's documented rule, release before the next attempt, does not give exclusion: a delete
  that reported an error can land on the row of the process's next lease, and two unexpired holders result
  (`DynamoLease.FailedReleaseBreaksExclusion`). Exclusion is kept exactly as long as no delete hits so
  (`DynamoLease.ExclusionIff`, `DynamoLease.BackedIff`), and callers that stop polling a feed whose release failed
  are never hit (`DynamoLease.MutualExclusion`). The pipeline ignores the error of its release
  (`cmd/rss2msg/pipeline.go:80`), so it keeps the first rule only. Without any rule exclusion fails at once
  (`DynamoLease.RuleIsNeeded`).
- A member that refreshes after its expiry can have the fresh row deleted, by a peer that read the old one
  (`Membership.LateRefreshIsReaped`) or by an earlier reap that had reported an error (`Membership.LooseReapLands`).
  From every such moment that can happen (`Membership.LateRefreshIsLost`), `Membership.CanRobIff` says exactly when,
  and a member is out of reach throughout exactly when its refreshes are in time (`Membership.TimelyIff`).
- Sources that share a name share one memory; exactly unique names make last-known-good true
  (`FeedSource.LastKnownGoodIff`).
- Rewriting an item with an earlier timestamp can make pruned and unpruned windows differ
  (`FeedWindow.LoweringBreaksAgreement`): exactly when the item falls behind a change it was not behind before
  (`FeedWindow.AgreeIff`). Two feed URLs can share a memory key exactly when one continues the other after a
  newline (`FeedWindow.FeedsCollideIff`).
- The DynamoDB package comment lets a lease be stolen once now >= lease_expiry; the condition in the code is
  strict, lease_expiry < now. A comment in the Cosmos DB membership says the replace needs no ETag guard; the
  code sends one. The model follows the code.

## Model

| member | source | states |
|---|---|---|
| `CosmosLease.MutualExclusion` | internal/coord/cosmosdb/cosmosdb.go:251-340 | in every run, at every moment, of two recorded leases of one key at least one has expired |
| `CosmosLease.HolderOwnsTheDocument` | internal/coord/cosmosdb/cosmosdb.go:251-340 | the stored document of a key with an unexpired recorded lease is that lease's own: its owner, expiry and ETag |
| `CosmosLease.RunRefinesRegister` | internal/coord/cosmosdb/cosmosdb.go:251-386 | every run of the create/read/guarded-replace protocol is a run of the abstract lease register |
| `CosmosLease.Refines` | internal/coord/cosmosdb/cosmosdb.go:251-386 | each protocol step, late and lost writes included, keeps the invariant and is one register step |
| `CosmosLease.RunIsSafe` | internal/coord/cosmosdb/cosmosdb.go:251-386 | every state of every run satisfies the invariant, backs every unexpired claim by the store, and has exact delete counts |
| `CosmosLease.ReplaceIsFree` | internal/coord/cosmosdb/cosmosdb.go:275-307 | if the ETag still matches, the lease that was seen lapsed is still the stored one and is still lapsed |
| `CosmosLease.DeleteStep` | internal/coord/cosmosdb/cosmosdb.go:347-365 | an ETag-guarded delete of a disposed lease, however late, withdraws that lease only |
| `CosmosLease.ExactlyOnceDisposal` | internal/coord/cosmosdb/cosmosdb.go:311-386 | a won lease gets at most one conditional delete; once its coordinator is closed and quiet it has had exactly one, and unless that one failed the lease is out of the store |
| `CosmosLease.LapsedIsReclaimable` | internal/coord/cosmosdb/cosmosdb.go:275-340 | from any state, an open coordinator can take over a lapsed lease, and nothing else in the store changes |
| `CosmosLease.AbsentIsAcquirable` | internal/coord/cosmosdb/cosmosdb.go:251-340 | from any state an open coordinator can take a key without a document |
| `CosmosLease.ReclaimsIff` | internal/coord/cosmosdb/cosmosdb.go:275-293 | a read leads to a reclaim exactly when the lease has lapsed at the caller's reading of the clock |
| `CosmosLease.HeldIsReleasable` | internal/coord/cosmosdb/cosmosdb.go:321-365 | a holder can give its lease back, which removes its own document and no other |
| `CosmosLease.TakenAndGivenBack` | internal/coord/cosmosdb/cosmosdb.go:251-365 | a run from the start in which a process takes a free key and gives it back |
| `CosmosLease.Container.TryAcquire` | internal/coord/cosmosdb/cosmosdb.go:251-307 | wins exactly when the document is absent or has lapsed at `now`; otherwise the container is untouched |
| `CosmosLease.Container.CreateItem` | internal/coord/cosmosdb/cosmosdb.go:261-269 | 409 on an existing document, else a document with a fresh ETag |
| `CosmosLease.Container.ReplaceItem` | internal/coord/cosmosdb/cosmosdb.go:296-306 | 404 and 412 leave the container alone; a matching ETag replaces exactly that document |
| `DynamoLease.MutualExclusion` | internal/coord/dynamodb/dynamodb.go:159-258 | if callers release before they try again and make no further attempt for a feed whose release failed, then in every run, at every moment, of two recorded leases of one key at least one has expired |
| `DynamoLease.ExclusionUntilHit` | internal/coord/dynamodb/dynamodb.go:159-258 | under the documented rule alone (release before the next attempt) the same holds until a loose delete first lands on a claimed, unexpired row |
| `DynamoLease.BackedIff` | internal/coord/dynamodb/dynamodb.go:159-258 | under the documented rule every unexpired claim is backed by its row throughout a run if and only if no loose delete ever lands on a claimed, unexpired row |
| `DynamoLease.ExclusionIff` | internal/coord/dynamodb/dynamodb.go:159-258 | under the documented rule exclusion is kept at every moment of a run, however it goes on from there without a further hit, if and only if no loose delete hits |
| `DynamoLease.HitBreaksExclusion` | internal/coord/dynamodb/dynamodb.go:159-258 | after any hit the run can go on, within the rule and with the clock still, to two unexpired holders of the key |
| `DynamoLease.FailedReleaseBreaksExclusion` | internal/coord/dynamodb/dynamodb.go:227-258 | a run that keeps the documented rule and ends with two unexpired holders: a release fails, its delete lands on the process's next row |
| `DynamoLease.CarefulIsNotHit` | internal/coord/dynamodb/dynamodb.go:227-258 | careful callers are never hit: no loose delete lands on a claimed, unexpired row |
| `DynamoLease.RunRefinesRegister` | internal/coord/dynamodb/dynamodb.go:159-279 | every run under the documented rule in which no loose delete hits is a run of the same lease register |
| `DynamoLease.Refines` | internal/coord/dynamodb/dynamodb.go:159-279 | under the documented rule each step but a hit is one register step |
| `DynamoLease.SafeUntilHit` | internal/coord/dynamodb/dynamodb.go:159-279 | under the documented rule every unexpired claim is backed by its row until a loose delete hits |
| `DynamoLease.StepKeepsApart` | internal/coord/coord.go:5-7 | the documented rule keeps an open coordinator to one call or lease per key |
| `DynamoLease.ReleaseHitsNoClaim` | internal/coord/dynamodb/dynamodb.go:227-258 | under the documented rule the delete of a release, though guarded by the owner alone, never removes a lease its process still claims |
| `DynamoLease.RuleIsNeeded` | internal/coord/dynamodb/dynamodb.go:227-258 | a run that breaks the documented rule and ends with two unexpired holders of one key in two processes |
| `DynamoLease.ExactlyOnceDisposal` | internal/coord/dynamodb/dynamodb.go:190-279 | in every run, whatever callers do: at most one conditional delete per won lease; exactly one after a quiet Close, and then the row is gone unless that delete failed |
| `DynamoLease.WinsIff` | internal/coord/dynamodb/dynamodb.go:159-188 | a call can win exactly when the row is absent or expired strictly before the call read the clock |
| `DynamoLease.HeldIsReleasable` | internal/coord/dynamodb/dynamodb.go:202-258 | a holder can give its lease back within the rule, which removes its own row and no other |
| `DynamoLease.Table.TryAcquire` | internal/coord/dynamodb/dynamodb.go:159-221 | wins exactly when the row is absent or expired strictly before `now` |
| `DynamoLease.Table.ConditionalDelete` | internal/coord/dynamodb/dynamodb.go:227-258 | removes the row exactly when it carries this process's owner |
| `LeaseLedger.DisposedOnce` | internal/coord/cosmosdb/cosmosdb.go:311-386 | from the counts: at most one delete per lease, exactly one after a quiet Close |
| `LeaseLedger.RecordAgrees` | internal/coord/cosmosdb/cosmosdb.go:311-340 | recordHeld on one process's object moves its share of the fleet ledger and nobody else's |
| `LeaseLedger.ReleaseAgrees` | internal/coord/cosmosdb/cosmosdb.go:321-338 | the same for a release func, repeated or late |
| `LeaseLedger.CloseAgrees` | internal/coord/cosmosdb/cosmosdb.go:369-386 | the same for Close |
| `LeaseLedger.Coordinator.RecordHeld` | internal/coord/cosmosdb/cosmosdb.go:311-340 | an open coordinator keeps the lease; a closed one deletes it at once and reports not acquired |
| `LeaseLedger.Coordinator.Release` | internal/coord/cosmosdb/cosmosdb.go:321-338 | sends one delete for a held lease and nothing for any other |
| `LeaseLedger.Coordinator.Close` | internal/coord/cosmosdb/cosmosdb.go:369-386 | sends one delete per held lease, none twice; a second Close sends nothing |
| `RedisLease.OnlyItsOwnToken` | internal/coord/redis/redis.go:110-125 | a live key keeps its value and never loses time, except at the hands of the acquisition whose token it holds |
| `RedisLease.EntryIsOldOrNew` | internal/coord/redis/redis.go:266-318 | an entry left by a step was there before or was just written by a token minted for that key, for that token's LockTTL |
| `RedisLease.TakenUntilLapsedOrReleased` | internal/coord/redis/redis.go:266-357 | over any stretch of any run, a key taken by an acquisition stays its own until it lapses or that acquisition deletes it |
| `RedisLease.NobodyElseWins` | internal/coord/redis/redis.go:266-318 | while an acquisition's key is live no other acquisition of that key wins or becomes live |
| `RedisLease.FreeIsAcquirable` | internal/coord/redis/redis.go:266-298 | from any state an open coordinator can take a key that is not live, for a full LockTTL, with a renewer running |
| `RedisLease.HeldIsRenewable` | internal/coord/redis/redis.go:324-357 | a tick of the renewer gives a live key a full LockTTL again |
| `RedisLease.HeldIsReleasable` | internal/coord/redis/redis.go:299-317 | a release that runs to its end stops the renewer and frees the key |
| `RedisLease.RunKeepsInv` | internal/coord/redis/redis.go:241-379 | in every state a key holds a token minted for it, for at most LockTTL from now, and renewers run only for leases held or being stopped |
| `RedisLease.SettledForever` | internal/coord/redis/redis.go:241-264 | once Close has returned and the earlier calls have finished, that lasts |
| `RedisLease.OrphanOrigin` | internal/coord/redis/redis.go:241-379 | what such a process still has in the database it had when it settled, or one of its late SETs or renewals wrote it, for one LockTTL from its landing |
| `RedisLease.OrphansDie` | internal/coord/redis/redis.go:241-379 | after Close no renewer of the process runs, and a key of its that is live was left less than one LockTTL ago: at settling, or by a late request of its landing; failed deletes, renewals and lost SET answers included |
| `RedisLease.CalmForever` | internal/coord/redis/redis.go:241-264 | once no SET or renewal of a settled process is on its way, none ever lands again |
| `RedisLease.CalmOrphansDie` | internal/coord/redis/redis.go:241-379 | from then on its keys are never written or extended, and every orphan is dead one LockTTL later, whatever deletes of its are still loose |
| `RedisLease.WithoutOneMore` | internal/coord/redis/redis.go:241-264 | deleting leases one by one in any order leaves the database without exactly their live keys |
| `RedisLease.Server.SetNX` | internal/coord/redis/redis.go:270-276 | accepted exactly when the key is not live |
| `RedisLease.Server.RenewScript` | internal/coord/redis/redis.go:110-117 | extends exactly a live key whose value is the token |
| `RedisLease.Server.ReleaseScript` | internal/coord/redis/redis.go:119-125 | deletes exactly a live key whose value is the token |
| `RedisLease.Coordinator.TryAcquire` | internal/coord/redis/redis.go:266-318 | wins exactly when the key is free and the coordinator is not closing; a closed client leaves the server alone |
| `RedisLease.Coordinator.Release` | internal/coord/redis/redis.go:299-317 | takes the lease out and deletes its key if the key is still its own; a second release does nothing |
| `RedisLease.Coordinator.Close` | internal/coord/redis/redis.go:241-264 | no renewer and no lease is left, and of the live keys exactly this coordinator's are gone |
| `RedisLease.Coordinator.CasDelete` | internal/coord/redis/redis.go:362-379 | a closed client deletes nothing; an open one deletes the key only under its token |
| `Assign.Owner` | internal/assign/assign.go:23-34 | the member that outranks every other in the set, whatever the order and the duplicates of the list |
| `Assign.Owned` | internal/assign/assign.go:38-56 | exactly the feeds this member owns, in order; nothing for a non-member |
| `Assign.OwnerIsUnique` | internal/assign/assign.go:23-34 | a member set has at most one owner per feed |
| `Assign.OwnerExists` | internal/assign/assign.go:23-34 | a non-empty member set has an owner for every feed |
| `Assign.OwnerIff` | internal/assign/assign.go:10-34 | the owner is the member with the highest score, and among equal scores the lexically largest |
| `Assign.LessIff` | internal/assign/assign.go:28-28 | the lexical order: a proper prefix first, else the smaller character at the first difference |
| `Assign.OwnedInOrder` | internal/assign/assign.go:38-56 | the owned feeds keep the order and the repetitions of the list |
| `Assign.RemovalMovesOnlyItsFeeds` | internal/assign/assign.go:18-34 | removing a member leaves the owner of every feed it did not own unchanged |
| `Assign.AdditionMovesOnlyToNewcomer` | internal/assign/assign.go:18-34 | adding a member moves a feed to the newcomer or nowhere |
| `Assign.OwnedFeedsPartition` | internal/assign/assign.go:38-56 | every feed is in the owned list of exactly one member |
| `Assign.LessIsTotal` | internal/assign/assign.go:28-30 | the tie-break by ID is a strict total order |
| `OwnerProvider.NoLostRebalance` | internal/scheduler/ownerprovider.go:72-149 | if heartbeats name non-empty, comma-free IDs: whenever signal, driver and loop are at rest, the last Desired call read the current members, unless the inner provider erred in it or every answer so far has named nobody |
| `OwnerProvider.NoLostList` | internal/scheduler/ownerprovider.go:106-149 | whatever the IDs: at rest, with every change of the inner list forwarded, the last Desired call read the current list, unless the inner provider erred in it |
| `OwnerProvider.NoLostRebalanceIff` | internal/scheduler/ownerprovider.go:72-149 | whatever the member IDs are and whenever the inner provider errs, every state of a run is covered if and only if no answer with an unchanged key named other members than the loop had seen while nothing was due, and no error used up the signal of a change the loop had not seen |
| `OwnerProvider.NamedRebalanceIff` | internal/scheduler/ownerprovider.go:72-149 | over non-empty, comma-free IDs that is so if and only if no empty first answer came while nothing was due, and no error used up such a signal |
| `OwnerProvider.ErrorWastesTheSignal` | internal/scheduler/ownerprovider.go:132-136 | a run with well-named members in which an error of the inner provider, right after the signal was taken, leaves the loop with the old members |
| `OwnerProvider.MissedIsUnheard` | internal/scheduler/ownerprovider.go:77-89 | among well-named members only an empty first answer can be missed, and only an error waste a signal |
| `OwnerProvider.JoinIsInjective` | internal/scheduler/ownerprovider.go:77-79 | the comma-joined key tells apart all lists of non-empty, comma-free IDs |
| `OwnerProvider.KeyIgnoresOrder` | internal/scheduler/ownerprovider.go:77-79 | the same members in another order have the same key |
| `OwnerProvider.AscendingIsCanonical` | internal/scheduler/ownerprovider.go:77-78 | sorting leaves one list per multiset of IDs |
| `OwnerProvider.SmallestFirst` | internal/scheduler/ownerprovider.go:77-78 | in the sorted members no ID stands before a smaller one |
| `OwnerProvider.JoinAppends` | internal/scheduler/ownerprovider.go:79-79 | the key is the IDs in order with a comma between any two |
| `OwnerProvider.EmptyAnswerIsLost` | internal/scheduler/ownerprovider.go:77-89 | a run in which an empty first answer is never seen by the loop |
| `OwnerProvider.CommaIsLost` | internal/scheduler/ownerprovider.go:77-89 | a run in which a comma in an ID hides a change of members |
| `OwnerProvider.Provider.Heartbeat` | internal/scheduler/ownerprovider.go:72-96 | an error keeps the last-known set; an answer replaces it and leaves a signal pending if the key changed |
| `OwnerProvider.Provider.Signal` | internal/scheduler/ownerprovider.go:98-103 | a signal is pending afterwards, whether or not one was before |
| `OwnerProvider.Provider.Desired` | internal/scheduler/ownerprovider.go:132-149 | the inner list filtered to this member's feeds, in order; an inner error passes through |
| `OwnerProvider.OwnedConfigsAre` | internal/scheduler/ownerprovider.go:132-149 | a feed is in the filtered list exactly when it is listed and this member owns its URL |
| `OwnerProvider.OwnedConfigsInOrder` | internal/scheduler/ownerprovider.go:132-149 | the filtered list keeps the inner order |
| `Reconcile.Scheduler.Reconcile` | internal/scheduler/dynamic.go:61-121 | aborts exactly on a provider error or a pipeline that cannot be built, changing nothing; otherwise the running map is the desired map, unchanged feeds keep their handles, and the three counts are exact |
| `Reconcile.Scheduler.Prebuild` | internal/scheduler/dynamic.go:61-97 | succeeds exactly when every new or changed feed can be built, and returns those feeds |
| `Reconcile.Scheduler.StopRemoved` | internal/scheduler/dynamic.go:98-106 | stops exactly the feeds no longer desired, and counts them |
| `Reconcile.Scheduler.StartAll` | internal/scheduler/dynamic.go:107-117 | (re)starts exactly the given feeds, counting new and changed ones, never two loops of one URL at once |
| `Reconcile.Scheduler.Restart` | internal/scheduler/dynamic.go:108-116 | a running loop of the URL has ended before the new one starts |
| `Reconcile.FeedsConserved` | internal/scheduler/dynamic.go:61-121 | what runs afterwards is what ran before plus added minus removed |
| `Reconcile.LastEntryCounts` | internal/scheduler/dynamic.go:69-72 | a URL listed twice counts with its last entry |
| `Reconcile.RepeatIsIdle` | internal/scheduler/dynamic.go:61-121 | a repeat against the same list cannot abort, changes nothing and reports (0,0,0) |
| `Reconcile.RestartedIsReconciled` | internal/scheduler/dynamic.go:98-117 | stop, then start, amounts to the desired map, and the starts split into added and changed |
| `Reconcile.OrderlyAppend` | internal/scheduler/dynamic.go:107-117 | a start after the URL's old loop has ended keeps the history free of overlapping loops |
| `Fleet.FleetPartition` | internal/assign/assign.go:23-56 | when every member has reconciled against one member set and one list, every feed runs on exactly one instance, and nothing else runs |
| `Fleet.RestingFleetPartitions` | internal/scheduler/dynamic.go:61-130 | over whole runs of heartbeats, list changes, reads, errors and reconciles of all instances, with non-empty, comma-free IDs: whenever every instance is at rest after a Desired call without an error and with its list changes forwarded, the lists are equal and can be built, and the latest heartbeats name exactly the fleet, every feed runs on exactly one instance with its listed configuration |
| `Fleet.DepartureRestartsNothing` | internal/scheduler/dynamic.go:61-121 | when a member leaves, every loop of another instance keeps its handle |
| `Fleet.ArrivalStopsOnlyWhatMoves` | internal/scheduler/dynamic.go:61-121 | when a member joins, a loop stops exactly if the newcomer owns its feed; otherwise it keeps its handle |
| `Fleet.SettledRuns` | internal/scheduler/ownerprovider.go:132-149 | a reconciled instance runs exactly the listed feeds it owns, with their listed configuration |
| `Fleet.WaitingIsSettled` | internal/scheduler/dynamic.go:61-130 | whatever the lists and the IDs: while the loop waits after a Desired call without an error, and if the list it read can be built, the instance runs what it owns of that list among the members it read |
| `CompositeCycle.CompositeCycle` | internal/config/validate.go:1055-1082 | empty exactly when no cycle is reachable from start; otherwise the rendering of a walk from start that ends in a repeated node |
| `CompositeCycle.RenderAppends` | internal/config/validate.go:1078-1080 | the rendering is the names in order with an arrow between any two |
| `CompositeCycle.Search.Dfs` | internal/config/validate.go:1056-1077 | either extends the path to such a walk, or restores path and stack and proves every walk from the node clear of the stack; the measure is the composites not on the stack |
| `CompositeCycle.ChildrenClear` | internal/config/validate.go:1062-1075 | forgetting a node on backtrack is sound: clear children make a clear node |
| `CompositeCycle.ClearMeansNoCycle` | internal/config/validate.go:1055-1082 | a clear start has no reachable cycle |
| `CompositeCycle.CycleIffEndless` | internal/config/validate.go:1055-1082 | a cycle is reachable exactly when walks do not run out |
| `FanOut.TerminatesIff` | internal/sink/composite/composite.go:82-113 | publishing terminates for every sink behaviour if and only if no cycle of children and dead letters together is reachable |
| `FanOut.FanOutFlattens` | internal/sink/composite/composite.go:82-113 | for an accepted configuration with plain dead letters and a live context, publishing terminates, delivers once per root-to-leaf path, depth first, and succeeds exactly when no leaf delivery was dropped |
| `FanOut.FanOutCalls` | internal/sink/composite/composite.go:82-113 | the same in terms of sink calls alone: for every root-to-leaf path, in order, exactly the calls the tape and the retry limit dictate, then at most one call of the dead letter; success exactly when none of those deliveries was dropped |
| `FanOut.PathsInOrder` | internal/sink/composite/composite.go:82-113 | the paths are listed depth first: of two paths the first takes the earlier child where they part |
| `FanOut.LeafDelivery` | internal/sink/retrywrap.go:57-82 | a plain sink with a plain dead letter or none: called until a call is accepted, the limit is reached, the context is done or the error is not retryable; Success exactly if the last call was accepted, else Dlq exactly if the dead letter accepted the one marked envelope it was sent, else Dropped |
| `FanOut.LeafOutcomeIsUnique` | internal/sink/retrywrap.go:57-82 | that leaves one possible log, state and attempt count |
| `FanOut.LeafTries` | internal/sink/retrywrap.go:57-82 | the same calls whatever the dead letter is; a composite dead letter is published to, and decides between Dlq and Dropped |
| `FanOut.CompositeDelivery` | cmd/rss2msg/wire.go:187-211 | a composite is one attempt without a dead letter; a context that is done drops it without a call |
| `FanOut.EachChildInTurn` | internal/sink/composite/composite.go:82-113 | every child is delivered to, in order, whatever became of the ones before it, and the publish succeeds exactly when none was dropped |
| `FanOut.CheckSink` | internal/config/validate.go:486-512 | the loops of the validator pass a sink exactly when its references are declared, it refers to itself nowhere, its children are there, distinct and free of cycles |
| `FanOut.PublishFlattens` | internal/sink/composite/composite.go:82-113 | the log and the success of a nested publish are those of the leaf deliveries one after another |
| `FanOut.PathsAre` | internal/sink/composite/composite.go:82-113 | the paths enumerated are exactly the root-to-leaf paths within the bound |
| `FanOut.PathsOnce` | internal/config/validate.go:697-709 | distinct children make every path appear once |
| `FanOut.PathsFit` | internal/config/validate.go:693-712 | without call cycles no root-to-leaf path exceeds the bound |
| `FanOut.MoreBoundSameResult` | internal/sink/composite/composite.go:82-113 | a larger nesting bound does not change a result |
| `FanOut.AcceptedTerminates` | internal/config/validate.go:486-512 | with plain dead letters an accepted configuration has no call cycle |
| `FanOut.AcceptedCanLoop` | internal/config/validate.go:486-512 | an accepted configuration with a reachable call cycle through a dead letter |
| `FanOut.ShortWalksFinish` | internal/sink/composite/composite.go:82-113 | a bound longer than every walk suffices, whatever the sinks do |
| `FanOut.LongWalksExhaust` | internal/sink/retrywrap.go:57-82 | with refusing sinks, a walk as long as the bound exhausts it |
| `FanOut.PublishLands` | internal/sink/composite/composite.go:82-113 | a publish that reports success has landed: a plain sink accepted that very copy, a composite every child of it, and the log only grows |
| `FanOut.DeliverKeeps` | internal/sink/retrywrap.go:57-82 | a delivery that is not dropped was accepted by the sink itself, or its dead letter accepted the envelope marked with that sink |
| `FanOut.KeptForGood` | internal/sink/retrywrap.go:57-82 | what has been kept stays kept as the log grows |
| `FanOut.Delivery.PublishTo` | internal/sink/composite/composite.go:82-113 | the loop over branches computes the specified publish: every child once, in order, siblings' failures ignored |
| `FanOut.Delivery.DeliverTo` | internal/sink/retrywrap.go:57-82 | the delivery that LeafDelivery, LeafTries and CompositeDelivery determine: retry, then dead letter |
| `Retry.DelayFor` | internal/retry/retry.go:71-80 | the random draw modulo the ceiling: every delay below the ceiling is possible, none above MaxDelay or negative |
| `Retry.CeilingExactIff` | internal/retry/retry.go:71-80 | the int64 ceiling is min(Base*2^(n-1), Max) if and only if the product fits or the wrapped shift is not a positive value below MaxDelay |
| `Retry.CeilingIsExact` | internal/retry/retry.go:71-80 | Base*Max <= 2^63 makes it exact at every attempt, wrap-around included |
| `Retry.BackoffIsExact` | internal/retry/retry.go:27-36 | the same for a configuration as written, after the defaults are filled in |
| `Retry.WrappedIsMultiple` | internal/retry/retry.go:71-80 | a wrapped shift that is positive is at least the power of two it was shifted by |
| `Retry.CeilingCanWrap` | internal/retry/retry.go:71-80 | base 5 and max 2^62+1 give a ceiling below the capped exponential at attempt 63 |
| `Retry.Do` | internal/retry/retry.go:27-65 | runs fn exactly Attempts times; success exactly when the last call was accepted, otherwise max(1, MaxAttempts) calls were made, or the context is done, or the last error is not retryable; between two calls one delay, drawn below the ceiling of its attempt |
| `Retry.OutcomeIsUnique` | internal/retry/retry.go:27-65 | that leaves one possible answer |
| `Retry.DefaultsAre` | internal/retry/retry.go:28-36 | at least one attempt, 100 ms unless a base is given, ten times the base unless a maximum of at least the base is given |
| `Retry.AttemptsAre` | internal/retry/retry.go:27-65 | every call but the last was refused with a retryable error, and none was made after the context was done |
| `Detector.Detect` | internal/feed/detector.go:22-48 | fails exactly when some item's lookup fails; otherwise reports the unseen items of the stable sort, oldest publication first |
| `Detector.SortIsStable` | internal/feed/detector.go:31-35 | the sort ascends and keeps items of equal time in order |
| `Detector.OldestFirst` | internal/feed/detector.go:31-35 | no item stands before one published earlier |
| `Detector.UndatedFirst` | internal/feed/detector.go:31-35 | items without a date stand before every dated one |
| `Detector.ReportsTheItem` | internal/feed/detector.go:50-102 | a change carries the feed, the detection time, and an item's ID, hash and publication time; it is New exactly when the store does not know the ID |
| `Sorting.SortOrders` | internal/feed/detector.go:31-35 | insertion sort by any strict weak order leaves no element in front of one it goes behind |
| `Detector.StableSortIsUnique` | internal/feed/detector.go:31-35 | those two properties determine the result |
| `Detector.ChangesInOrder` | internal/feed/detector.go:37-47 | the output is a subsequence of the sorted items that leaves out no unseen one |
| `Detector.EmittedIff` | internal/feed/detector.go:50-102 | an item is reported exactly when the store does not hold its hash |
| `Detector.SteadyStateIff` | internal/feed/detector.go:71-82 | after committing everything, a second Detect is silent if and only if no ID carries two hashes |
| `Detector.CommittedHas` | cmd/rss2msg/pipeline.go:162-166 | committing touches exactly the IDs reported, with one of their reported hashes |
| `Detector.LastCommitStays` | cmd/rss2msg/pipeline.go:162-166 | of several changes of one ID the last one stays committed |
| `Pipeline.CommittedWasDelivered` | cmd/rss2msg/pipeline.go:130-167 | over every history of polls, failures and prunings, an item is committed with a hash only if every branch accepted its own copy of that ID and hash, or its dead letter accepted that branch's envelope of it |
| `Pollers.CommittedWasTaken` | cmd/rss2msg/pipeline.go:130-167 | over all interleavings of any number of pollers of the feed, with polls that end in mid-delivery and state writes that land late: at every moment, for what is committed, some poller's calls show that every branch accepted its own copy of that ID and hash, or its dead letter that branch's envelope |
| `Pollers.HandledAllIsRun` | cmd/rss2msg/pipeline.go:130-167 | the changes of a whole poll, handled one after the other, are a run of those steps, with the same store and the same calls |
| `Pipeline.UncommittedIsReemitted` | cmd/rss2msg/pipeline.go:113-128 | after any history, a poll with a body emits an item of it exactly when its hash is not committed |
| `Pipeline.CommitsOnlyDelivered` | cmd/rss2msg/pipeline.go:113-167 | a poll commits only a hash it emitted in a change that no sink dropped |
| `Pipeline.DroppedWaitsForABody` | cmd/rss2msg/pipeline.go:113-120 | for any body, a hash whose every delivery was dropped is uncommitted although the validators are stored, and any number of 304 polls emit nothing and change nothing |
| `Pipeline.SuccessIsSilentIff` | cmd/rss2msg/pipeline.go:130-167 | after a poll that delivered everything, the same body is silent if and only if no ID carries two hashes |
| `Pipeline.DeliveredIsCommitted` | cmd/rss2msg/pipeline.go:162-166 | if no sink dropped anything and the writes landed, exactly the changes are committed |
| `Pipeline.DeliveryFinishes` | cmd/rss2msg/pipeline.go:130-161 | if what the feed's sinks enter has no call cycle, delivering to them finishes whatever they answer |
| `Pipeline.Runner.RunOnce` | cmd/rss2msg/pipeline.go:56-169 | one poll takes store, validators and delivery log to the specified state; it fails exactly on an unreadable meta, a fetch error or a failed lookup; without the lease, a readable meta and a body it changes nothing and reports nothing |
| `Pipeline.IdlePoll` | cmd/rss2msg/pipeline.go:63-116 | a poll without the lease, with an unreadable meta, a fetch error or a 304 changes nothing and emits nothing |
| `Pipeline.BodyPoll` | cmd/rss2msg/pipeline.go:118-128 | a poll with a body stores its validators unless that write is lost; if a lookup then fails, nothing is delivered or committed |
| `Pipeline.EverySinkInTurn` | cmd/rss2msg/pipeline.go:134-161 | every sink is delivered to, in order, whatever became of the ones before it; the change is committed only if none dropped it |
| `Pipeline.EveryChangeInTurn` | cmd/rss2msg/pipeline.go:130-167 | every change is delivered, in order, whatever became of the ones before it |
| `Pipeline.CommitsExactly` | cmd/rss2msg/pipeline.go:130-167 | for every ID the store ends with the hash of its last change that no sink dropped and whose write was not lost, and is otherwise unchanged |
| `Pipeline.Runner.HandleChanges` | cmd/rss2msg/pipeline.go:130-167 | each change is delivered to all sinks, then committed if none dropped it |
| `Pipeline.Runner.DeliverToSinks` | cmd/rss2msg/pipeline.go:134-161 | every sink gets the change, and the flag is false exactly if one dropped it |
| `FeedWindow.WindowsAgree` | internal/sink/feed/store_sqlite.go:64-107 | however often two stores prune, writes that never cross give the same timestamps from Recent(n), n <= max, and the same changes when timestamps differ |
| `FeedWindow.AgreeIff` | internal/sink/feed/store_sqlite.go:64-107 | after every write, all stores, limits and pruning schedules agree on the timestamps of Recent(n), n <= max, if and only if no write made its item fall behind a change it was not behind before |
| `FeedWindow.NeverLoweredNeverCrosses` | internal/sink/feed/store_sqlite.go:64-78 | writes that never lower an item's timestamp never cross |
| `FeedWindow.CrossingDisagrees` | internal/sink/feed/store_sqlite.go:64-107 | after any history, a crossing write makes a store that pruned just before it disagree with one that did not |
| `FeedWindow.MemoryAgreesWithSql` | internal/sink/feed/store_memory.go:21-56 | the same between the memory store and any SQL store, for newline-free feed URLs and writes that never cross |
| `FeedWindow.StoredCovers` | internal/sink/feed/store_sqlite.go:64-86 | whatever a window lacks of the unpruned log is older than max changes it has |
| `FeedWindow.SameTimes` | internal/sink/feed/store_sqlite.go:87-107 | such a window answers Recent(n) like the unpruned log |
| `FeedWindow.PruneKeepsCover` | internal/sink/feed/store_sqlite.go:80-86 | pruning keeps that and leaves at most max |
| `FeedWindow.PutKeepsCover` | internal/sink/feed/store_sqlite.go:64-78 | a write that does not cross keeps that |
| `FeedWindow.RankIsCount` | internal/sink/feed/store_memory.go:44-56 | in any newest-first order, position i is at time t or later exactly when more than i changes are |
| `FeedWindow.KeyIsPair` | internal/sink/feed/store_memory.go:21-21 | for newline-free feed URLs two keys are equal exactly when feed and item are |
| `FeedWindow.FeedsCollideIff` | internal/sink/feed/store_memory.go:21-21 | two feeds can share a key if and only if one URL continues the other after a newline |
| `FeedWindow.LoweringBreaksAgreement` | internal/sink/feed/store_sqlite.go:64-107 | three writes after which a pruned and a full store disagree: the newer of two items rewritten with a time before the older one's |
| `FeedWindow.MemoryStore.Write` | internal/sink/feed/store_memory.go:23-42 | overwrites by key and prunes to the newest max; the window never exceeds max |
| `FeedWindow.MemoryStore.Recent` | internal/sink/feed/store_memory.go:44-56 | the first n of a newest-first order of the window |
| `FeedWindow.SqlStore.Write` | internal/sink/feed/store_sqlite.go:64-78 | upserts; after every pruneEvery-th write prunes to the newest max if the prune succeeds, and otherwise only upserts |
| `FeedWindow.SqlStaysBounded` | internal/sink/feed/store_sqlite.go:64-86 | with prunes that succeed the table never exceeds max plus the writes since the last prune, so never max + pruneEvery - 1 rows |
| `FeedWindow.SqlIsStored` | internal/sink/feed/store_sqlite.go:64-86 | such a store is one of those that agree on Recent |
| `FeedWindow.SqlStore.Prune` | internal/sink/feed/store_sqlite.go:80-86 | keeps the first max of a newest-first order |
| `FeedWindow.SqlStore.Recent` | internal/sink/feed/store_sqlite.go:87-107 | the first n of a newest-first order of the rows |
| `Membership.LiveIsNeverReaped` | internal/coord/dynamodb/membership.go:43-100 | a member whose own refreshes are timely keeps, while it lives, the row it last wrote, and no reap, at once or late, deletes it, whether or not the others crash, refresh late or are reaped |
| `Membership.TimelyIff` | internal/coord/dynamodb/membership.go:43-100 | in every run, late refreshes and late reaps included, a member's refreshes are in time throughout if and only if at no moment a reap could have hit it before the clock moved and before it refreshed or left |
| `Membership.CanRobIff` | internal/coord/dynamodb/membership.go:57-99 | at any moment a reap can hit a member before the clock moves and before it refreshes or leaves if and only if it lives and its row has expired, or some scan holds a reading of it that it takes for expired, or a delete of its row that reported an error is still loose |
| `Membership.LateRefreshIsLost` | internal/coord/dynamodb/membership.go:72-93 | every run that reaches a living member with an expired row, between two of its heartbeats, can go on, with the clock still, to a state in which its next refresh is unexpired and not in the table |
| `Membership.NobodyOmitted` | internal/coord/cosmosdb/membership.go:121-156 | a completed paged scan answers every timely member that lived while it ran, whatever the others did |
| `Membership.ScanAccounts` | internal/coord/dynamodb/membership.go:57-99 | at every moment of a scan a timely living member is counted, in hand, or still ahead |
| `Membership.LateRefreshIsReaped` | internal/coord/dynamodb/membership.go:72-93 | a run in which a late refresh is deleted by a peer that had read the old row |
| `Membership.LooseReapLands` | internal/coord/dynamodb/membership.go:84-92 | a run in which a reap reports an error, its heartbeat ends, the member refreshes, and the delete then lands on a fresh row that no scan has read |
| `Membership.Table.Heartbeat` | internal/coord/dynamodb/membership.go:43-100 | answers exactly the members live at `now`, itself refreshed, and leaves exactly their rows, for every page size |
| `Membership.Table.Deregister` | internal/coord/dynamodb/membership.go:103-111 | removes exactly this member's row |
| `Membership.Container.UpsertMember` | internal/coord/cosmosdb/membership.go:70-116 | with peers that may reap between its requests: lands unless the old document is reaped between its read and its replace, in which case none is left; touches no other document |
| `FeedSource.LastKnownGood` | internal/feedsource/aggregator.go:63-103 | after any history of calls, uniquely named sources answer the first-wins merge of every source's most recent successful list |
| `FeedSource.LastKnownGoodIff` | internal/feedsource/aggregator.go:63-103 | that holds of every history if and only if the names are unique |
| `FeedSource.EarlierSourceWins` | internal/feedsource/aggregator.go:85-102 | a URL is answered with the entry of the first source whose remembered list has it |
| `FeedSource.MostRecentIs` | internal/feedsource/aggregator.go:87-93 | the most recent success of a source is the one followed by errors only |
| `FeedSource.RememberedIsMostRecent` | internal/feedsource/aggregator.go:87-93 | the remembered list of a uniquely named source is its most recent success |
| `FeedSource.Aggregator.Desired` | internal/feedsource/aggregator.go:63-103 | one call merges this round's lists with the remembered ones, and under unique names answers the history's last-known-good merge |
| `FeedSource.Aggregator.Trigger` | internal/feedsource/aggregator.go:48-53 | a signal is pending afterwards |
| `FeedSource.FirstWinsKeepsFirsts` | internal/feedsource/aggregator.go:85-102 | the merge keeps exactly the first feed of every URL, in order |
| `FeedSource.MergeIsUrlUnique` | internal/feedsource/aggregator.go:85-102 | no URL twice, and none listed is missing |
| `FeedSource.Snapshot` | internal/feedsource/snapshot.go:19-36 | fails exactly when a source errors; otherwise the first-wins merge of the lists |
| `FeedSource.SuccessForgets` | internal/feedsource/snapshot.go:19-36 | when every source succeeds Desired answers what Snapshot does, whatever it remembers |
| `FeedSource.SharedNameForgets` | internal/feedsource/aggregator.go:87-93 | for any two sources of one name, a history after which the earlier one's list is lost |

## Left out

- Sink drivers (Kafka, SQS, AMQP, HTTP and the rest): a plain sink accepts or refuses each call.
- The rest of the configuration code: flat field checks. Of `validate.go`, the refusal of a feed sink as dead letter is left out too; it only narrows what is accepted.
- Fetching, XML parsing, encodings and hashes: a fetch is a body, a 304 or an error; hashes and IDs are given.
- Admin API, MCP tools, feed rendering, health probes and telemetry.
- The Postgres advisory-lock coordinator, and the Postgres feed store, which has the shape of the SQLite one.
- Clock skew between hosts, and Redis failover.
- The feed sources themselves (files, HTTP, SQL, Kubernetes): a source answers a list or an error.
- `onRebalance` and `OnReconcile` callbacks, PollNow, poll overrun and draining in the scheduler.
- Deadlines: the deliver timeout is not a clock; cancellation is part of the tape that drives retry.
- The error text and truncation in a dead-letter envelope.
- Fixed-width timestamp text in SQLite, which makes text order time order; and Recent with a negative n.
- TTL-based cleanup by the stores: an expired lease or member stays until somebody deletes or overwrites it.
- The payload of a change (title, authors, content): a change is its feed, item ID, hash, kind and time. Member rows that do not parse, which the scans skip.
- RedisLease.Coordinator.TryAcquire: states the call without interference; its races with Close and with other processes are in the run model.
- The concurrency of the fetches inside one Desired call of the aggregator: their replies are given in source order.
- A feed whose sinks enter a call cycle: a poll of it need not end, and the pipeline's results are about the others.
- DynamoLease.MutualExclusion: asks of callers more than `coord.go` does, because under that rule it is false; DynamoLease.ExclusionIff says exactly when it holds there.
