# Golem shard management, verified

A Dafny model of the parts of Golem that decide who owns what and in which order things happen, with proofs of what
they promise.

The core is the shard manager, in three layers:

- **The table** (`ShardModel.dfy`, `Persistence.dfy`, `ShardIdRanges.dfy`): the routing table, the rebalance plan and
  the edits made to both, the stored form and the compact display of shard sets.
- **The planner** (`Planner.dfy` with `Rebalancing.dfy`, `Levelling.dfy`, `DealingProperties.dfy`, `MoveRuns.dfy`,
  `PlanProperties.dfy`, `PlanThresholds.dfy`, `PlanExamples.dfy`): `Planner` runs the three loops as the source does,
  on shard sets it updates and on a plan it records step by step. `Rebalancing` says in closed form where shards
  without an owner go, `Levelling` says what the move phase does, and `FromRoutingTable` is proved to return exactly
  that plan. `DealingProperties`, `MoveRuns` and `PlanThresholds` say the same in terms of the table alone: where each
  shard is dealt, by rank; single moves whose runs can end nowhere else; and what the threshold asks. `PlanProperties`
  proves what the plan achieves: it is the simulation's difference, it balances, once all shards are dealt it moves
  the fewest and reaches the lowest peak those moves allow, and planning again does nothing. `PlanExamples` holds the
  tables on which it does less than one might expect.
- **The protocol** (`ShardManagement.dfy`, `Protocol.dfy`, `Recovery.dfy`, `LateCrashes.dfy`, `LateCrashRuns.dfy`,
  `LateCrashExample.dfy`, `CompleteRounds.dfy`): one round as the worker loop runs it, on classes with the source's
  fields; and a state machine of the manager, its callers and the executors, in which every interleaving of calls,
  wake-ups, replies, partial effects, lost shards and restarts is a run. Safety is proved over all its runs, and
  recovery over all runs after a crash at any moment. `LateCrashes` extends safety to whole runs with any number of
  crashes, `LateCrashRuns` proves the condition it needs exact by building the runs that fail, and `LateCrashExample`
  gives one on concrete tables. `CompleteRounds` shows that a round can be carried out from every table.

Beside it stand four self-contained pieces: the single-flight cache, as a state machine over its map accesses
(`Cache.dfy`) and as a class with its eviction (`LruCache.dfy`); the line buffering of worker output
(`ConnectOutput.dfy`); the ordering of tool dependencies (`Dependencies.dfy`); and backoff and the retry loop
(`Retries.dfy`). `Ordered.dfy` holds ordered iteration over sets of integers, sums, division and induction up to a bound,
`Wrappers.dfy` optional values and results.

## How to read it

Values (`Table`, `Plan`, `Changes`, `Session`) describe what the mutable classes hold; a class's `View()` gives its
value. Each method is proved against a function on values, and the main results are about those functions and about
runs of the state machines.

Pods are integers (only their order matters), shards are integers, and the threshold is a real number.

## Where the code and its description differ

Where a promise fails, the condition under which it holds is proved, for the most part as an equivalence over all inputs,
and with an input that fails.

- The description of the planner speaks of pods between 90 and 110 percent of the optimal count
  (`golem-shard-manager/src/rebalancing.rs:31-34`). The code enforces the lower end only; the upper threshold is written
  to the trace. With a threshold of zero or more, no pod ends above the upper end if and only if the shards above it,
  once all are dealt, are no more than the pods below the lower end lack (`PlanProperties.UpperBoundIsExact`). Pods with
  12, 9 and 9 shards and a threshold of 0.1 stay as they are (`PlanExamples.UpperBoundCanFail`).
- The lower end is always met with a threshold of zero or more (`PlanProperties.PlanBalances`), and otherwise exactly when
  there are shards enough (`PlanProperties.BalanceIsExact`); with a threshold of -1 three pods with one shard each are to
  have two (`PlanExamples.LowerBoundCanFail`).
- That a plan moves the fewest shards and that no as cheap assignment has a lower peak hold once all shards are dealt
  (`PlanProperties.PlanMovesFewest`, `PlanProperties.PlanPeakIsLowest`); dealing in turn does not look at sizes. Measured
  from the table, every assignment that brings all pods to the lower threshold takes from owners at least what pods lack
  beyond the unassigned shards (`PlanProperties.FewestTaken`), and with a threshold of zero or more the plan takes no more
  than that if and only if dealing alone fills every pod to the lower threshold, or leaves none it deals to above it
  (`PlanProperties.RevokesAreFewestIff`). Pods with 3 and 1 of 6 shards fail it (`PlanExamples.DealingCanWaste`); with 4
  and 1 of 8 the plan ends with a higher peak than dealing everything to the second pod (`PlanExamples.DealingCanPeak`).
- That printed lines do not depend on how output is cut into messages fails if and only if a message boundary separates a
  carriage return from its newline (`ConnectOutput.ChunkingMatters`): "a\r" and then "\n" prints the carriage return
  (`ConnectOutput.CutLineEnd`).
- Evictions compare ages in whole milliseconds. An eviction of a given number of entries drops none that was used
  after one it keeps, in whatever order the map is read, if and only if no two entries with different last uses tie at
  the cut (`LruCache.RecencyIffNoTie`). No entry dropped was used a millisecond or more after one that is kept
  (`LruCache.EvictedAreOlder`); any two used less than a millisecond apart can tie (`LruCache.SameMillisecond`).
- The cache's counter, once exact, stays exact through every call but the removal of a pending entry, and the eviction of
  old entries while one is pending; the contracts of `LruCache.Cache.Remove` and `LruCache.Cache.EvictOlderThan` say so in both directions.
- Delays without jitter never shrink if and only if the truncated multiplier is at least one, the shortest or the longest
  delay is zero in milliseconds, or there is at most one delay (`Retries.DelaysGrowIff`). With a jitter factor f they never
  shrink, whatever is drawn, if and only if after each delay x but the last, with m the truncated multiplier, the next one
  reaches the cap or x * (1 + f - m) is at most 1 (`Retries.JitteredDelaysGrowIff`). A multiplier of 0.5 fails the first,
  a multiplier of 1 with a factor of 0.5 the second (`Retries.DelaysCanShrink`).
- Two registered pods can hold one shard without any failed revoke: after a crash while assigns are out, or before their
  result is written, the next plan may keep a shard at its old owner although another pod has received it. With t stored
  and c the changes drained after the restart, and no revoke failing in the next round, no run ends like that if and only
  if each pod that stays is to keep whatever t or t's plan gives it, or is asked to give it up
  (`LateCrashRuns.LateCrashIsSafeIff`); in other words, if and only if no shard that t's plan was to bring to such a pod,
  and that is not asked back, is planned for another pod (`LateCrashes.AgreesIffApart`). The manager could compare the two plans before the round. It holds when
  the changes leave t as it is, as with all stored pods healthy and no call (`LateCrashes.SameTableAgrees`); one unhealthy
  pod of three can break it (`LateCrashExample.OverlapAfterLateCrash`).
- A call that has returned can be forgotten: what is pending is kept in memory only, and a crash before the round that
  drains it begins drops it (`Protocol.CallCanBeLost`). In every run the stored pods are those of the first stored table
  changed by exactly the rounds that have begun (`Protocol.RunStoresBegun`), and a restart starts from them alone
  (`Protocol.RestartForgetsCalls`).
- Flushing prints buffered standard error with the timestamp of standard output; `ConnectOutput.ConnectOutput.Flush`
  follows the code.

## Model

| member | source | states |
|---|---|---|
| Levelling.SourceAmong | golem-shard-manager/src/rebalancing.rs:128-135 | the source of a move is another pod above the threshold, the last among the largest of those; none is found exactly when no pod qualifies |
| Levelling.MoveFacts | golem-shard-manager/src/rebalancing.rs:137-153 | a move keeps the shards apart, loses and invents none, and changes the two sizes by one |
| Levelling.MoveKeepsReached | golem-shard-manager/src/rebalancing.rs:110-171 | every move keeps the invariant: no pod is both source and target, each move lowers the deficit by one, and the excess above every level from the threshold up is the old one less the moves made, or zero |
| Levelling.LevelReaches | golem-shard-manager/src/rebalancing.rs:110-171 | the whole move phase keeps that invariant, whatever the threshold |
| Levelling.LevelSettles | golem-shard-manager/src/rebalancing.rs:110-171 | it stops only when no pod is below the threshold or none is above it |
| Levelling.LevelOfSettled | golem-shard-manager/src/rebalancing.rs:120-168 | such a distribution is left as it is |
| Levelling.ChangedCountsMoved | golem-shard-manager/src/rebalancing.rs:137-153 | the sum of what pods gain is the number of shards whose owner changes |
| Levelling.DeficitIsNeeded | golem-shard-manager/src/rebalancing.rs:110-171 | any assignment with all pods at the threshold changes at least as many owners as pods lack shards |
| Levelling.ExcessDropsSlowly | golem-shard-manager/src/rebalancing.rs:110-171 | k changes of owner lower the excess above a level by at most k |
| Levelling.PeakIsOptimal | golem-shard-manager/src/rebalancing.rs:110-171 | no assignment with at most as many changes of owner has a lower peak, at or above the threshold, than the greedy one |
| Rebalancing.PlacedIsPartition | golem-shard-manager/src/rebalancing.rs:57-98 | dealing gives every shard exactly one owner and takes none away |
| DealingProperties.DealtByRank | golem-shard-manager/src/rebalancing.rs:57-98 | for every valid table, the unassigned shard of rank r goes to the empty pod of rank r mod k while the k empty pods have less than n / p each (or if n / p is zero), and from then on to each pod in turn; nothing else moves in the dealing |
| DealingProperties.EmptyPodsFillFirst | golem-shard-manager/src/rebalancing.rs:61-86 | if a pod that owned something is dealt a shard, every pod that was empty ends the dealing with at least n / p |
| DealingProperties.EmptyPodsEndEven | golem-shard-manager/src/rebalancing.rs:57-98 | pods that were empty end the dealing with sizes at most one apart |
| DealingProperties.OwnersAreDealtEvenly | golem-shard-manager/src/rebalancing.rs:88-98 | pods that owned something are dealt numbers at most one apart |
| Rebalancing.LevelledIsPartition | golem-shard-manager/src/rebalancing.rs:57-171 | so does the whole simulation, and the moves keep their invariant from the dealt table on |
| Rebalancing.PlanRecords | golem-shard-manager/src/rebalancing.rs:76-77 | for every pod the plan assigns what it ends with beyond its start and takes what it was dealt or had and does not keep |
| Rebalancing.PlanIsLegal | golem-shard-manager/src/model.rs:164-177 | applying the plan keeps a valid table valid with the same pods, no pod gains and gives up the same shard, no shard is taken twice, and none stays without an owner |
| Rebalancing.PlanIsSimulation | golem-shard-manager/src/rebalancing.rs:35-177 | applying the recorded plan gives exactly the simulated shard sets, for every threshold |
| MoveRuns.PlanIsMoveRun | golem-shard-manager/src/rebalancing.rs:110-171 | from the dealt table the result is reached by single moves, each of the least shard of the last fullest pod above the threshold to the first pod below it, and nothing can move at the end |
| MoveRuns.EveryMoveRunIsPlanned | golem-shard-manager/src/rebalancing.rs:110-171 | every run of such moves from the dealt table ends there, once nothing can move |
| MoveRuns.PodsGiveSmallest | golem-shard-manager/src/rebalancing.rs:137-153 | what a pod gives up is smaller than every shard it keeps |
| MoveRuns.EntriesAreNeeded | golem-shard-manager/src/rebalancing.rs:154-159 | a pod has an entry in the unassignments exactly if it gives up a shard, and in the assignments exactly if it gains or gives up one |
| Planner.DealToEmptyPods | golem-shard-manager/src/rebalancing.rs:61-86 | the first loop hands shards to the empty pods in turn until the share that fills them is used up, and records it |
| Planner.DealToAllPods | golem-shard-manager/src/rebalancing.rs:88-98 | the second loop hands the rest to all pods in turn and records it |
| Planner.HandIsDealt | golem-shard-manager/src/rebalancing.rs:57-98 | handing shards out one by one reaches the closed form, and the record is what pods gained |
| Planner.RecordGain | golem-shard-manager/src/rebalancing.rs:154-159 | assigning to the target and unassigning from the source keeps the record of gains equal to the difference of the simulated sets |
| Planner.RecordGiveUp | golem-shard-manager/src/rebalancing.rs:156-157 | and so for what pods give up |
| Planner.FillPod | golem-shard-manager/src/rebalancing.rs:123-169 | the inner loop fills one pod as the specification does, keeping invariant and record |
| Planner.MoveToNeedyPods | golem-shard-manager/src/rebalancing.rs:110-171 | the move loops compute the specified levelling and record it |
| Planner.Simulate | golem-shard-manager/src/rebalancing.rs:46-171 | the loops together record exactly the specified plan |
| Planner.FromRoutingTable | golem-shard-manager/src/rebalancing.rs:35-177 | the planner returns the specified plan for every valid table and threshold, the empty one without pods |
| PlanProperties.ThresholdIsAffordable | golem-shard-manager/src/rebalancing.rs:53-55 | with a threshold of zero or more the lower threshold is at most the optimal count, and there are shards enough for all pods |
| PlanThresholds.LowerThresholdIs | golem-shard-manager/src/rebalancing.rs:53-55 | the lower threshold is the least number above (n / p) * (1 - threshold) - 1 |
| PlanThresholds.UpperThresholdIs | golem-shard-manager/src/rebalancing.rs:53-54 | the traced upper threshold is the least number not below (n / p) * (1 + threshold) |
| PlanThresholds.PlanIsEnough | golem-shard-manager/src/rebalancing.rs:53-171 | with a threshold of zero or more every pod ends with more than (n / p) * (1 - threshold) - 1 shards |
| PlanThresholds.PlanIsEnoughIff | golem-shard-manager/src/rebalancing.rs:53-171 | for any threshold, all pods end with that many if and only if some such number is there for each of them |
| PlanThresholds.PlanIsEmptyIff | golem-shard-manager/src/rebalancing.rs:35-177 | for any threshold the plan is empty if and only if every shard has an owner and either every pod has that many or none could give one up and still have it |
| PlanProperties.PlanBalances | golem-shard-manager/src/rebalancing.rs:110-171 | with a threshold of zero or more every pod ends with at least the lower threshold and at most n - (p - 1) * lower shards |
| PlanProperties.BalanceIsExact | golem-shard-manager/src/rebalancing.rs:53-55 | for any threshold, all pods reach the lower bound if and only if there are shards enough for that |
| PlanProperties.UpperBoundIsExact | golem-shard-manager/src/rebalancing.rs:53-54 | with a threshold of zero or more, no pod ends above the traced upper threshold if and only if the shards above it once all are dealt are no more than what pods lack to the lower one |
| PlanExamples.UpperBoundCanFail | golem-shard-manager/src/rebalancing.rs:110-171 | a valid table on which a pod stays above the upper threshold |
| PlanExamples.LowerBoundCanFail | golem-shard-manager/src/rebalancing.rs:53-55 | a valid table that stays below the lower threshold of a negative setting |
| PlanProperties.SourceIsAlwaysFound | golem-shard-manager/src/rebalancing.rs:160-164 | with a threshold of zero or more the branch without a source is never taken, in any reachable state of the moves |
| PlanProperties.RevokedAreMoved | golem-shard-manager/src/rebalancing.rs:154-159 | the plan takes away exactly the shards the move phase gives another owner |
| PlanProperties.PlanMovesFewest | golem-shard-manager/src/rebalancing.rs:110-171 | once all shards are dealt, their number is what pods lack to the lower threshold, and no assignment that brings all pods there changes fewer owners from then on |
| PlanProperties.PlanPeakIsLowest | golem-shard-manager/src/rebalancing.rs:110-171 | once all shards are dealt, no assignment that changes at most as many owners from then on has a lower peak than the planned table |
| PlanProperties.FewestTaken | golem-shard-manager/src/rebalancing.rs:46-171 | measured from the table, any assignment with all pods at the lower threshold takes from owners at least what pods lack beyond the unassigned shards |
| PlanProperties.RevokesAreFewestIff | golem-shard-manager/src/rebalancing.rs:46-171 | with a threshold of zero or more the plan revokes exactly that many if and only if dealing fills every pod to the threshold, or no pod it deals to ends above it |
| PlanExamples.DealingCanWaste | golem-shard-manager/src/rebalancing.rs:88-98 | with 3 and 1 of 6 shards and threshold 0 the plan revokes one, although an assignment with 3 each takes none from an owner |
| PlanExamples.DealingCanPeak | golem-shard-manager/src/rebalancing.rs:88-98 | with 4 and 1 of 8 shards and threshold 0.25 a pod ends above 4, although an assignment with 4 each takes none from an owner |
| PlanProperties.PlanningTwiceIsIdle | golem-shard-manager/src/rebalancing.rs:35-177 | planning again on the planned table gives the empty plan, for any threshold |
| PlanProperties.FreshDestination | golem-shard-manager/src/rebalancing.rs:57-98 | on a table of empty pods shard j is dealt to the (j mod p)-th pod, across both loops |
| PlanProperties.ManyResidues | golem-shard-manager/src/rebalancing.rs:57-98 | dealing in turn gives each pod at least n / p shards |
| PlanProperties.FreshPlan | golem-shard-manager/src/rebalancing.rs:35-177 | on such a table the plan assigns to the i-th pod the shards s with s mod p = i and takes nothing away |
| ShardModel.Pods | golem-shard-manager/src/model.rs:152-158 | the pods in ascending order, each once |
| ShardModel.EntriesVec | golem-shard-manager/src/model.rs:152-158 | their shard sets in the same order |
| ShardModel.Assignments.Assign | golem-shard-manager/src/model.rs:295-297 | adds the shard to the pod's entry, which it creates if needed |
| ShardModel.Assignments.Unassign | golem-shard-manager/src/model.rs:299-301 | removes the shard from the pod's entry, which it creates if needed |
| ShardModel.Unassignments.Unassign | golem-shard-manager/src/model.rs:337-339 | adds the shard to the pod's entry, which it creates if needed |
| ShardModel.Rebalance.RemoveShards | golem-shard-manager/src/rebalancing.rs:218-225 | drops the shards from every entry and keeps the entries |
| ShardModel.Rebalance.AddAssignments | golem-shard-manager/src/rebalancing.rs:227-236 | adds the shards to the pod's entry except those the plan takes from it |
| ShardModel.Rebalance.IsEmpty | golem-shard-manager/src/rebalancing.rs:198-200 | holds exactly for the plan without any entry, the one planning twice gives |
| ShardModel.RetainOthers | golem-shard-manager/src/rebalancing.rs:219-221 | the loop over the entries of one map |
| ShardModel.RoutingTable.GetUnassignedShards | golem-shard-manager/src/model.rs:179-187 | the ids in range that no pod owns |
| ShardModel.RoutingTable.Rebalance | golem-shard-manager/src/model.rs:164-177 | every pod ends with what it had and was assigned, less what it gives up; no other entry changes |
| ShardModel.RoutingTable.AddPod | golem-shard-manager/src/model.rs:197-199 | the pod's entry becomes empty, the others stay |
| ShardModel.RoutingTable.RemovePod | golem-shard-manager/src/model.rs:201-203 | the pod's entry is gone, the others stay |
| ShardModel.AppliedWithoutShards | golem-shard-manager/src/rebalancing.rs:218-225 | without some shards a plan leaves those where they were and puts every other one where it did |
| ShardModel.DroppingKeepsLegal | golem-shard-manager/src/shard_management.rs:196-202 | dropping any shards from a plan that can be carried out leaves one that can, with a valid result |
| ShardModel.GainNeedsGiveUp | golem-shard-manager/src/shard_management.rs:196-214 | a shard owned by one pod is assigned to another only if the plan takes it from the owner |
| ShardManagement.LastCallDecides | golem-shard-manager/src/shard_management.rs:224-249 | after any calls a pod is pending as new (removed) exactly when its last call was register (unregister), never as both; without a call nothing changes |
| ShardManagement.ShardManagementChanges.AddNewPod | golem-shard-manager/src/shard_management.rs:232-235 | records a register call |
| ShardManagement.ShardManagementChanges.RemovePod | golem-shard-manager/src/shard_management.rs:237-240 | records an unregister call |
| ShardManagement.ShardManagementChanges.Reset | golem-shard-manager/src/shard_management.rs:242-248 | hands out what is pending and leaves nothing |
| ShardManagement.ShardManagement.constructor | golem-shard-manager/src/shard_management.rs:43-66 | starts from the stored table, with its healthy pods pending as new and the others as removed |
| ShardManagement.ShardManagement.RegisterPod | golem-shard-manager/src/shard_management.rs:98-102 | adds the call to what is pending |
| ShardManagement.ShardManagement.UnregisterPod | golem-shard-manager/src/shard_management.rs:105-109 | adds the call to what is pending |
| ShardManagement.ShardManagement.ChangePods | golem-shard-manager/src/shard_management.rs:142-158 | removed pods go, new ones come empty, pods already there keep their shards and are returned |
| ShardManagement.ShardManagement.SendFull | golem-shard-manager/src/shard_management.rs:162-165 | each returned pod is also assigned what it owns and is not to give up |
| ShardManagement.ShardManagement.BeginRound | golem-shard-manager/src/shard_management.rs:128-173 | drains the changes, leaves a valid changed table that is also stored, and returns the round's plan |
| ShardManagement.ShardManagement.ExecuteRebalance | golem-shard-manager/src/shard_management.rs:186-215 | the plan loses exactly the shards asked of pods whose revoke failed |
| ShardManagement.ShardManagement.FinishRound | golem-shard-manager/src/shard_management.rs:178-182 | table and stored table become the table with the plan applied |
| ShardManagement.ShardManagement.Round | golem-shard-manager/src/shard_management.rs:124-183 | a whole round leaves a valid table, stored, as the specified functions say |
| ShardManagement.ResendingIsHarmless | golem-shard-manager/src/shard_management.rs:162-165 | resending changes neither the table a plan leads to nor what it takes away |
| ShardManagement.ChangesAt | golem-shard-manager/src/shard_management.rs:142-158 | a pod that stays keeps its shards, also if it registers again; a pod that comes has none; a removed one is gone |
| ShardManagement.RoundSends | golem-shard-manager/src/shard_management.rs:159-165 | a pod that did not return is sent exactly what the planner gives it, nothing it owns, and has no further entry; a returned one is sent exactly what it is to have |
| ShardManagement.RoundMoves | golem-shard-manager/src/shard_management.rs:186-214 | a shard asked for in vain is sent to nobody and stays where it was, every other one goes where the planner wants it |
| ShardManagement.RoundPlanIsLegal | golem-shard-manager/src/shard_management.rs:159-165 | the plan of a round can be carried out and leads where the planner's does |
| ShardManagement.RoundKeepsTable | golem-shard-manager/src/shard_management.rs:139-204 | whatever revokes fail, a round with at least one pod keeps the pods, leaves a valid table, and leaves without an owner exactly the shards that had none and whose revoke failed |
| ShardManagement.RestartReturnsAll | golem-shard-manager/src/shard_management.rs:49-66 | after a restart with all stored pods healthy the table is the stored one and every pod is sent its full list |
| ShardManagement.RestartRepeatsRound | golem-shard-manager/src/shard_management.rs:147-182 | the round after such a restart takes the same shards away and leads to the same table as the stopped one, and also resends what pods own |
| Protocol.NothingLostStep | golem-shard-manager/src/shard_management.rs:98-128 | every step keeps: pending changes are the calls since the last drain, and a wake-up is stored, about to be sent, or being served |
| Protocol.TablesValidStep | golem-shard-manager/src/shard_management.rs:124-204 | every step keeps table and stored table valid and the plan in progress fit for the table |
| Protocol.BoundedStep | golem-shard-manager/src/shard_management.rs:116-216 | every step but a late crash keeps what each registered pod holds inside its entry, or inside what the plan leaves it while assigns are out |
| Protocol.BoundedIsExclusive | golem-shard-manager/src/shard_management.rs:116-216 | that bound means no two registered pods hold the same shard |
| Protocol.RunKeepsTables | golem-shard-manager/src/shard_management.rs:98-204 | in every run, with any failures and crashes, all tables are valid, and what is pending are the calls since the last drain or start, with someone to wake the worker |
| Protocol.RunStoresBegun | golem-shard-manager/src/shard_management.rs:124-182 | in every run, with any failures and crashes, the stored pods are those first stored, changed by exactly the rounds that have begun |
| Protocol.RestartForgetsCalls | golem-shard-manager/src/shard_management.rs:43-66 | after a restart exactly the stored pods are pending and the table is the stored one, whatever calls came before |
| Protocol.CallCanBeLost | golem-shard-manager/src/shard_management.rs:98-102 | a run in which a pod registers, the manager restarts, and the pod is neither pending nor in a table |
| Protocol.RunIsExclusive | golem-shard-manager/src/shard_management.rs:116-216 | in every run without a late crash no two registered pods ever hold the same shard |
| CompleteRounds.RoundCompletes | golem-shard-manager/src/shard_management.rs:124-216 | from every valid table some run without restart or failed revoke ends with the planned table in memory and stored, every executor holding exactly its entry |
| Recovery.RepeatedAt | golem-shard-manager/src/rebalancing.rs:227-236 | the repeated round assigns to every pod exactly what the planner wants it to have, and takes from it what it owns beyond that |
| Recovery.RestartStartsRecovery | golem-shard-manager/src/shard_management.rs:49-66 | a restart with all stored pods healthy, whenever the manager stopped, starts with exclusive ownership and pods between the stored and the planned table |
| Recovery.RecoveringStep | golem-shard-manager/src/shard_management.rs:124-216 | every step keeps recovery going and ownership exclusive, further such restarts and calls after the drain included, unless a revoke fails or a pod change reaches the round |
| Recovery.RecoveryRun | golem-shard-manager/src/shard_management.rs:49-182 | in every such run after a restart at any moment ownership is exclusive throughout, and the round applied reaches the full plan of the stored table |
| Recovery.CleanRecoveryRun | golem-shard-manager/src/shard_management.rs:210-214 | if assigns succeed too, and executors lose nothing, each ends holding exactly its entry |
| LateCrashes.SameTableAgrees | golem-shard-manager/src/shard_management.rs:49-66 | changes that leave the stored table as it is agree with what pods may hold after a late crash |
| LateCrashes.AgreesIffApart | golem-shard-manager/src/shard_management.rs:139-165 | pods that stay are to keep or give up all they may hold if and only if no shard the stored table's plan brings to one, and that is not asked back, is wanted for another in the changed table |
| LateCrashes.SafeStep | golem-shard-manager/src/shard_management.rs:49-216 | every step keeps the bound on what pods hold, before, during and after the doubt a late crash brings, if in doubt the round that begins agrees and a revoke that fails is of shards no pod may hold beyond its entry |
| LateCrashes.RunStaysExclusive | golem-shard-manager/src/shard_management.rs:49-216 | over whole runs, with any number of crashes and any pod changes, no two registered pods ever hold the same shard if after a late crash rounds agree with what pods may hold, and a revoke that fails is of shards no pod may hold beyond its entry, until one round's revokes are through |
| LateCrashRuns.LateCrashIsSafeIff | golem-shard-manager/src/shard_management.rs:49-216 | for every table, threshold and pod changes a restart and calls can leave: in all runs with one late crash and no failed revoke before the next round is through, no shard ends at two registered pods if and only if that round agrees with what pods may hold |
| LateCrashExample.OverlapAfterLateCrash | golem-shard-manager/src/shard_management.rs:49-66 | on a table of three pods and four shards, a run with one late crash, a restart that finds one pod unhealthy and no failed revoke in doubt, that ends with two registered pods holding a shard |
| Persistence.NewShardManagerState | golem-shard-manager/src/model.rs:376-388 | writes the entries in the order of the ordered set |
| Persistence.GetRoutingTable | golem-shard-manager/src/model.rs:390-399 | reads the list, later entries replacing earlier ones |
| Persistence.InsertAdds | golem-shard-manager/src/model.rs:270-277 | inserting an entry for a new pod keeps the order by size, then pod, and adds that entry only |
| Persistence.CollectHasAll | golem-shard-manager/src/model.rs:144-150 | the ordered set of entries is sorted and has exactly the table's entries, although its comparison ignores which shards they hold |
| Persistence.FromListReads | golem-shard-manager/src/model.rs:390-399 | reading a list that never contradicts a map gives the map on the pods it mentions |
| Persistence.RoundTrip | golem-shard-manager/src/model.rs:369-400 | writing any table and reading it back gives the table |
| Persistence.StoredOrder | golem-shard-manager/src/model.rs:270-277 | the list is written by size, then pod, and every shard list ascends |
| ShardIdRanges.ShardIdsToRanges | golem-shard-manager/src/model.rs:455-495 | the ranges of any set are proper, sorted, disjoint and not adjacent, and cover exactly the set |
| ShardIdRanges.RangesAreExact | golem-shard-manager/src/model.rs:455-495 | the same for the recursive form on ascending lists |
| ShardIdRanges.RangesAreCanonical | golem-shard-manager/src/model.rs:441-495 | two such lists that cover the same ids are equal |
| SingleFlight.SingleStep | golem-common/src/cache.rs:192-440 | every atomic step keeps: each pending entry is owned by one task for its key, which computes or whose computation failed |
| SingleFlight.GuardedStep | golem-common/src/cache.rs:227-337 | in a step a computation in flight loses its own pending entry only to a removal, or to a computation that had lost its own before |
| SingleFlight.RunIsGuarded | golem-common/src/cache.rs:192-337 | in every run each computation in flight owns its key's pending entry, unless the key was removed and a computation for it has been in flight ever since |
| SingleFlight.ComputationsOverlapOnlyAfterRemoval | golem-common/src/cache.rs:192-322 | in every run two computations for one key are in flight together only if some step removed the key and since then a computation for it was in flight without a gap |
| SingleFlight.RemovalAllowsOverlap | golem-common/src/cache.rs:331-337 | a removal while a computation is in flight does let a second one start |
| SingleFlight.RunIsTransparent | golem-common/src/cache.rs:192-322 | if the computations are functions of the key, in every run each cached value and each answer is the key's |
| SingleFlight.RunIsExplained | golem-common/src/cache.rs:192-322 | in every run, whatever the computations return, a waiting call has no answer, a done one has what it computed (a detached one the pending value its own first function returned), a finished one a value computed or a pending value made for its key or an error, and every cached value was computed for its key |
| SingleFlight.HitsDoNotCompute | golem-common/src/cache.rs:233-245 | a call that finds an entry changes nothing else: it has the cached value, or at once the pending one if detached, or waits for the owner |
| SingleFlight.SendReachesAll | golem-common/src/cache.rs:227-229 | sending hands the outcome to every subscribed task and touches no other |
| SingleFlight.EntriesChange | golem-common/src/cache.rs:192-440 | an entry comes only by a miss, as the caller's pending one, becomes cached only by its key's success, and goes only by a removal or, if cached, an eviction |
| SingleFlight.PendingStays | golem-common/src/cache.rs:212-235 | a pending entry stays, also after its computation failed, until a success for its key or a removal |
| SingleFlight.OneComputationServesBoth | golem-common/src/cache.rs:192-240 | a run in which a second call waits and both have what the first computed |
| LruCache.SortSorts | golem-common/src/cache.rs:388-390 | sorting by age gives the same entries, the youngest first |
| LruCache.CutEvicts | golem-common/src/cache.rs:388-396 | keeping the front of the sorted list drops exactly the rest, keeps every pending entry and no cached one that is older than one dropped, whatever order the map was read in |
| LruCache.RecencyIffNoTie | golem-common/src/cache.rs:374-396 | for each number of entries to drop, eviction respects the order of use for every reading of the map if and only if no two entries used at different instants have the age at the cut |
| LruCache.EvictedIsRead | golem-common/src/cache.rs:374-396 | every result the contract of eviction allows is what sorting and cutting some reading of the map leaves |
| LruCache.EvictedAreOlder | golem-common/src/cache.rs:374-396 | no entry that goes was used 1000000 nanoseconds or more after one that is kept |
| LruCache.SameMillisecond | golem-common/src/cache.rs:382-388 | for any two last uses less than 1000000 nanoseconds apart there is an instant at which, read in that order, the one used last goes |
| LruCache.CounterWraps | golem-common/src/cache.rs:219 | the counter is 64 bits wide: exact below that, and starting again at zero |
| LruCache.Cache.constructor | golem-common/src/cache.rs:92-122 | an empty cache |
| LruCache.Cache.GetOrInsert | golem-common/src/cache.rs:192-253 | a hit returns the cached value and only renews its last access; a pending entry makes the call wait; a failing first computation changes nothing and a failing second one leaves the pending entry; a success adds the value and evicts if the cache was full. An exact counter stays exact, and with eviction of at most capacity + 1 entries at most `capacity` remain |
| LruCache.Cache.Evict | golem-common/src/cache.rs:353-361 | evicts as configured, nothing in the mode without eviction |
| LruCache.Cache.EvictLeastRecentlyUsed | golem-common/src/cache.rs:374-399 | exactly the given number of cached entries is dropped, none younger than one kept, pending ones stay, and the count is right; with fewer cached entries nothing goes |
| LruCache.Cache.ReadAges | golem-common/src/cache.rs:375-387 | reads every cached entry once with its age |
| LruCache.Cache.Remove | golem-common/src/cache.rs:331-337 | drops the entry if there is one and then lowers the counter; an exact counter stays exact if and only if the entry was not pending |
| LruCache.Cache.EvictOlderThan | golem-common/src/cache.rs:401-409 | keeps exactly the pending entries and those used less than the given time ago; the counter ends exact if and only if nothing is pending |
| ConnectOutput.LinesAre | golem-cli/src/connect_output.rs:55 | the lines of a message are its complete lines without line ends, then the unfinished one |
| ConnectOutput.TextIsLines | golem-cli/src/connect_output.rs:55 | a text is its complete lines, each with its newline, then the unfinished one, and no line contains a newline |
| ConnectOutput.StripIs | golem-cli/src/connect_output.rs:55 | a line loses one carriage return at its end and nothing else |
| ConnectOutput.SplitMessage | golem-cli/src/connect_output.rs:55-73 | the loop prints the message's complete lines, the first joined to the buffer, and buffers the unfinished rest |
| ConnectOutput.ConnectOutput.EmitStdout | golem-cli/src/connect_output.rs:51-74 | buffers and prints one message, the other stream untouched |
| ConnectOutput.ConnectOutput.EmitStderr | golem-cli/src/connect_output.rs:76-99 | the same for standard error |
| ConnectOutput.ConnectOutput.Flush | golem-cli/src/connect_output.rs:127-137 | prints what is buffered, if anything, and empties the buffers |
| ConnectOutput.BufferIsTail | golem-cli/src/connect_output.rs:51-99 | however a stream is cut into messages, the buffer is its unfinished line |
| ConnectOutput.ChunkingMatters | golem-cli/src/connect_output.rs:51-99 | the printed lines are the complete lines of the whole stream if and only if no message boundary separates a carriage return from its newline; their number is right in any case |
| ConnectOutput.CutLineEnd | golem-cli/src/connect_output.rs:51-74 | a line end cut in two is printed with its carriage return |
| ConnectOutput.ChunkingDoesNotMatter | golem-cli/src/connect_output.rs:51-99 | for a stream without carriage returns, lines and buffer are those of the whole stream however it is cut |
| ConnectOutput.StreamsAreIndependent | golem-cli/src/connect_output.rs:51-99 | for any interleaving of the two streams each is printed and buffered as if it were alone |
| ConnectOutput.LinesAreStamped | golem-cli/src/connect_output.rs:51-99 | what a message prints comes after all that is printed, on its stream and with its timestamp |
| Dependencies.CollectDeps | golem-cli/src/diagnose.rs:565-578 | for any relation, visits the listed tools and nothing outside their closure, collects without duplicates and in order up to cycles; the recursion ends because the unvisited set shrinks |
| Dependencies.WithAllDependencies | golem-cli/src/diagnose.rs:556-563 | for any relation, the result has no duplicates, is exactly the closure of the list, and starts with exactly the closure of each beginning of the list |
| Dependencies.DependenciesFirstIffAcyclic | golem-cli/src/diagnose.rs:565-578 | every tool comes after all it depends on if and only if no listed tool depends on itself |
| Dependencies.HeightDrops | golem-cli/src/diagnose.rs:530-554 | the actual dependencies always lead to a tool of lower height |
| Dependencies.ClosureIs | golem-cli/src/diagnose.rs:530-554 | for each of the tools, the set of tools it comes to, listed |
| Dependencies.ToolsToCheck | golem-cli/src/diagnose.rs:530-578 | for the actual tools, the closure without duplicates, dependencies first, and otherwise in the order of the list |
| Retries.DelayIsIdeal | golem-common/src/retries.rs:30-56 | without jitter the saturating 64-bit delay is min(max_delay, min_delay * m^(attempts-1)) over unbounded integers |
| Retries.JitterBounds | golem-common/src/retries.rs:42-46 | with jitter the delay is between that and the maximum, and at most (1 + jitter) times the base delay |
| Retries.JitteredIdeal | golem-common/src/retries.rs:42-54 | with a factor j drawn it is min(max_delay, x + floor(x * j)), with x the uncapped exponential over unbounded integers |
| Retries.DelaysGrowIff | golem-common/src/retries.rs:37-54 | without jitter delays never shrink over the attempts of a loop if and only if the truncated multiplier is at least one, the shortest or longest delay is zero in milliseconds, or there is at most one delay |
| Retries.JitteredDelaysGrowIff | golem-common/src/retries.rs:42-54 | with a jitter factor f, over all draws, they never shrink if and only if after each delay x but the last the next one is capped or x * (1 + f - m) is at most 1 |
| Retries.MultiplierMakesRoom | golem-common/src/retries.rs:42-46 | a truncated multiplier of at least 1 + f is enough for that |
| Retries.DelaysCanShrink | golem-common/src/retries.rs:30-56 | a configuration of each kind whose second delay is the shorter one |
| Retries.TotalSleepIsBounded | golem-common/src/retries.rs:136-192 | the sleeps before the k-th attempt add up to at most (k - 1) * max_delay |
| Retries.TotalSleepIsSum | golem-common/src/retries.rs:136-192 | without jitter the sleeps before the k-th attempt are the first k - 1 capped exponentials, added up |
| Retries.TotalSleepIsGeometric | golem-common/src/retries.rs:30-56 | with a whole multiplier m and the cap out of reach, (m - 1) times their sum is min_delay * (m^(k-1) - 1) |
| Retries.TruncationIs | golem-common/src/retries.rs:37-41 | a multiplier counts as its whole part, a negative one as zero, and one beyond 64 bits as the largest number |
| Retries.WithRetries | golem-common/src/retries.rs:123-193 | stops on the first attempt that succeeds or cannot be retried, or the last allowed, with its outcome; makes at most max(1, max_attempts) calls and sleeps at most (calls - 1) * max_delay |
| Retries.StopIsUnique | golem-common/src/retries.rs:136-192 | that attempt is determined by the outcomes |
| Retries.RetryState.StartAttempt | golem-common/src/retries.rs:79-81 | counts the attempt |
| Retries.RetryState.FailedAttempt | golem-common/src/retries.rs:86-93 | says whether attempts are left and sleeps for the delay, at most the maximum |

## Left out

- Planner.FromRoutingTable: requires a valid table, because the planner's simulation is about shards with one owner; every table the manager reaches is proved valid.
- Protocol.RunIsExclusive: leaves out a crash while assigns are out or before their result is written; LateCrashes.RunStaysExclusive includes it.
- LateCrashes.RunStaysExclusive: claims nothing once a revoke fails, between a late crash and the end of the next round's revokes, of a shard that some pod may hold beyond its entry.
- LateCrashRuns.LateCrashIsSafeIff: is about runs with one late crash, and no crash or failed revoke during the next round's revokes; LateCrashes.RunStaysExclusive gives the safe direction for any number of crashes and for failed revokes.
- LruCache.Cache.GetOrInsert: is about calls one after the other, where ids do not wrap around; a call that finds a pending entry left by a failed computation is shown as waiting.
- LruCache.Cache.EvictLeastRecentlyUsed: follows a build whose subtraction wraps around when more entries are to go than are cached; with overflow checks it panics. All ages are read at one instant.
- Retries.RetryState.StartAttempt: requires a counter below the largest 64-bit number.
- Retries.JitterBounds: the factor drawn is a parameter in the configured range; drawing from an empty range panics in the source.
- The threshold and the multiplier are real numbers: rounding, infinities and undefined floating-point values are not modelled.
- Shard ids and counts are unbounded integers.
- Parallel sequences stand for the planner's vector of entries; the trace output is left out.
- Executors are modelled by the shards they hold. A pod new to the table holds none; a pod that left the table may keep any.
- The step that changes the table, plans and writes is one step, as the write lock makes it. A failed write panics inside the spawned worker task, which ends while calls are still accepted: the run stays before that step, or before the final write, until a restart. The pod changes that the first write would have stored are then missing from the model's in-memory table.
- The order in which unordered sets and maps are iterated is arbitrary in the methods, and no result depends on it.
- Requests, timeouts and their retries: an executor's reply and the part of a request that took effect are arbitrary choices, as are health checks, which give the set of unhealthy pods.
- The stored table is one value; the key-value store and the file behind it are left out.
- Waiting in the concurrent cache: a failed computation leaves its pending entry in place, so not every waiting task is answered.
- The cache's lookups that never compute (`get`, `try_get`), iteration, weak removers and background scheduling; an eviction or removal at any time is a step of the state machine.
- A cache call whose future is dropped while its computation runs: it leaves a pending entry that no task owns.
- Last access times in the concurrent cache; which entries an eviction drops is arbitrary there.
- Mutable arguments of recursive and helper functions are returned as new values in the dependency ordering and the line splitter, and what is printed is collected first and appended then.
- Colours, formats, log output and the other commands of the command line.
- Conversions to and from wire formats, configuration, metrics and tracing.
