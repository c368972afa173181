# Verified model of the configuration cluster

A service runs N replicas that must all serve the same version of each configuration
collection. They share a snapshot store and its apply log (`storage/postgres`), one advisory
lock that elects a leader, a cache, and a notify channel that may lose, repeat, reorder, and
that echoes to the publisher. Whoever holds the lock runs a leader cycle (`leaderSync`, or
`leaderSync2PC` when unanimity is required); the others follow through event handlers and a
periodic catch-up. `config/` is the in-memory store each replica serves from, with its views,
indexes and keyed diff.

## How it is laid out

| files | what they hold |
|---|---|
| `Versions`, `Tables`, `Registration`, `Protocol` | versions, stored rows, staging map, and each handler or stretch of a leader cycle, as functions; `Registration.CollectionReg` is the mutable registration proved against them |
| `Postgres`, `Followers`, `Leaders` | the store, the manager's handlers and the two leader cycles as imperative code over mutable objects, proved equal to those functions |
| `Cluster`, `Safety`, `Runs`, `Rounds` | the cluster as a state machine, its inductive invariant, what holds at every point of every run, and what a cycle under way may rely on |
| `Forward`, `Lag`, `Unanimity`, `Progress`, `Agreement`, `Convergence`, `Rollback`, `Staging` | the run-level theorems, one promise of the protocol per file |
| `Answers` | what one step of the cluster answers, spelled out down to the items served and the status logged |
| `Outcomes`, `Scripts` | what a whole undisturbed cycle, or an aborted round, adds up to, and how a run takes it; the runs that show a promise fail are built from these |
| `Query`, `Subscribers`, `Views`, `Index`, `Flatten`, `Diff` | `config/`: filter pipelines, hook slots and views, grouped views, first-wins flattening, keyed diff |

A step of the cluster is one access to shared state with the local work around it, because a
replica's handlers and cycles share one goroutine (manager/manager.go:444-446). A leader cycle is a
program counter between such accesses, so other replicas, crashes and the operator interleave
everywhere. Every read may fail, every write may be refused, and every write may take effect and
still report an error (`Ambiguous`). What the outside answers (source, clock, registry, validator,
JSON, hooks that panic) is an argument of the step. Messages are a set that only grows, which covers
loss, repetition and reordering.

## Where the code and its comments differ

- storage/storage.go:15-17 lists three status transitions. `ActivateSnapshot` accepts a row in any
  status and `FailSnapshot` fails one in any status; the model does what the code does.
- manager/sync.go:589-590 says a leader cannot announce a regression, and docs/rollback-runbook.md:6-7
  that every automatic path is monotonic. The leader compares only with the version it serves itself
  (manager/sync.go:198-202): `Lag.LaggingLeaderRewinds` and `Lag.EarlierOffers` give the exact case,
  `Lag.RewindIsReachable` a run. The commit handler makes no comparison
  (manager/sync.go:1194-1258): `Forward.CommitLandsOnNamed` gives the exact case,
  `Lag.StaleCommitRewinds` a run.
- storage/postgres/postgres.go:42-44 says a retried save would write the row already there. It keeps the
  first bytes while the leader serves its own new fetch: `Agreement.RetryServesItsFetch` gives the exact
  case, `Agreement.RetryDiverges` a run that ends with two replicas serving different items at Equal
  versions.

## Model

| member | source | states |
|---|---|---|
| Runs.VisibleWasActive | manager/sync.go:292-393 | In every run of either mode, every version served, cached, or named by a sync or commit event was active in storage at some earlier or equal point, so a version whose rounds all aborted is live nowhere |
| Runs.ActiveRowPersists | storage/postgres/postgres.go:58-95 | A collection has at most one active row at every point of every run, and exactly one ever after the first activation, through failed, ambiguous and retried calls, aborts and pruning |
| Runs.StoredBytesFixed | storage/postgres/postgres.go:40-56 | The bytes stored for a version never change while its row exists |
| Runs.StepKeepsBytes | storage/postgres/postgres.go:253-304 | No step rewrites a stored snapshot's bytes, and none deletes the active row |
| Runs.OneVerdictPerRound | manager/sync.go:978-1023 | No round is ever announced both committed and aborted |
| Runs.CycleRestoresStaging | manager/sync.go:330-393 | However a cycle ends, in either mode, the leader's staging map is what it was when the cycle began |
| Runs.ApplyAlwaysLands | manager/sync.go:395-410 | The leader always finds what it staged, whatever the TTL, and serves it after the apply step even when a hook panicked |
| Safety.StepKeeps | manager/sync.go:829-892 | The invariant behind these (one active row, events name versions that were active, no verdict contradicts a staged round, a failing snapshot is not active) survives every kind of step |
| Forward.ForwardOnly | manager/sync.go:157-183 | Between a replica's restarts, rollback events and (under 2PC) commit events, its version is only ever replaced by a strictly later one, or set when unset |
| Forward.CommitLandsOnNamed | manager/sync.go:1192-1258 | A commit whose value is still staged, or whose named snapshot reads and validates, always lands the replica on exactly the version the event names, earlier or later than the one served: it moves the replica onward if and only if the forward test this path omits would have passed. Any other commit changes nothing |
| Forward.ActiveOnlyAdvances | manager/sync.go:185-220 | When no operator flips the row and every cycle starts from a leader not behind the active snapshot, each change of the active version is strictly later in time, and no replica, cache entry or announcement is ever ahead of it |
| Lag.LaggingLeaderRewinds | manager/sync.go:185-220 | In both modes, forced or not, every activation was begun by a cycle that compared its version only with the one its leader served then; it keeps the active version from going back if and only if that version was the active one, or later, when the cycle began |
| Lag.EarlierOffers | manager/sync.go:185-220 | Some answer of source and clock makes a leader open a cycle for a version earlier than a given one if and only if it serves nothing, or something more than one tick before it |
| Lag.CurrentLeaderIsSafe | manager/sync.go:196-220 | No answer makes a leader that is not behind the active snapshot open a cycle for an earlier version |
| Lag.RewindIsReachable | manager/sync.go:198-202 | In either mode, a run of two replicas from the initial state in which the active version goes back in time |
| Lag.StaleCommitRewinds | manager/sync.go:1192-1258 | A 2PC run from the initial state in which a replica serving the active version handles a late commit of an earlier round and ends on that earlier version |
| Unanimity.ActivationIsUnanimous | manager/sync.go:945-1002 | When a 2PC round with a non-empty target set activates, every target its deciding check saw alive logged "prepared" between that round's log reset and the check, and each managing follower among them had handled a prepare event for that version and accepted the bytes stored then, the very bytes being activated when the row was not pruned and re-created |
| Unanimity.PreparedSinceReset | manager/sync.go:945-950 | Every "prepared" row was written after the last reset for its version |
| Unanimity.AckAccepted | manager/sync.go:1139-1190 | A managing follower about to log "prepared" handled a prepare event for that version at an earlier step of the run, in this round or an earlier one, and decoded and validated the bytes the row held there |
| Unanimity.RoundWasDecided | manager/sync.go:1094-1137 | A round about to activate with anyone to wait for passed a check that found every live target prepared |
| Unanimity.UnprunedIsStable | manager/sync.go:256-268 | Without snapshot retention no version's bytes are ever replaced |
| Progress.RoundGoesThrough | manager/sync.go:1094-1190 | The converse of unanimity: a 2PC round whose live targets have all handled its prepare event, could read the row, accepted it and written their answer since the log reset, in any order and interleaved with anything, activates next when its two queries succeed |
| Progress.AnswerStands | manager/sync.go:945-1002 | While a round runs, a logged "prepared" for its version is undone by nothing but that replica's own later report |
| Progress.TwoReplicasCommit | manager/sync.go:894-1055 | A whole round from the initial state: the leader asks, the follower prepares, and both end up serving the version that is active, the follower from what it staged |
| Answers.UnforcedOpens | manager/sync.go:185-220 | An unforced cycle over publishable items opens exactly at the version reported when nothing is served or that version is later and not the one served; at the very version served it looks after the cache; otherwise it declines |
| Answers.ForcedOpens | docs/sync-protocol.md:109-113 | A forced cycle opens at the version reported when that is later than the one served, otherwise at one minted from the clock, and declines if and only if something is served and neither is later |
| Answers.UnreadableOpensNothing | manager/sync.go:289-342 | Without a version, a listing, or items that validate and encode, no cycle opens |
| Answers.AcceptedAs | manager/registration.go:189-220 | Bytes are accepted as given items exactly when they decode, the items are the decoded ones with each one's defaults filled in, and the validator takes them |
| Answers.IgnoredEvent | manager/sync.go:530-570 | An own echo, a 2PC event without 2PC, or an event about an unmanaged collection (a prepare apart) changes nothing at all |
| Answers.SyncAnswer | manager/sync.go:572-631 | A sync event is acted on exactly when it names another version, later if something is served; then what is served and which status is logged, for every way it can go |
| Answers.PrepareAnswer | manager/sync.go:1139-1190 | A managing follower answers "prepared" if and only if the named row parses, reads and is accepted, and then holds exactly those items under the round until the TTL; otherwise it answers "prepare_failed" and keeps its registration |
| Answers.UnmanagedPrepareAnswer | manager/sync.go:1143-1148 | A follower that does not manage the collection answers "prepared" |
| Answers.CommitAnswer | manager/sync.go:1192-1258 | A commit event puts the staged value live, or else the named snapshot, and logs "committed" exactly when that went through without a panicking hook |
| Answers.AbortAnswer | manager/sync.go:1260-1276 | An abort event drops the round's value and logs nothing |
| Answers.RollbackAnswer | manager/sync.go:633-679 | A rollback event serves the active snapshot in either direction, and goes on to the cache only when no hook panicked |
| Answers.ProbeAnswer | manager/sync.go:89-125 | The first read of a catch-up pass goes on to the second exactly when the active version is another one, later if something is served |
| Answers.LoadAnswer | manager/sync.go:125-155 | The second read serves what is active by then under the forward test, and is logged as applied only when no hook panicked |
| Answers.PendingWrites | manager/sync.go:799-815 | The log and cache writes that follow a handler: refused without effect, ambiguous with all of it, and nothing else changes |
| Answers.WarmUpAnswer | manager/sync.go:681-721 | Startup from the cache serves the entry exactly when the strategy reads the cache and the entry reads, parses and is accepted |
| Answers.StartAnswer | manager/sync.go:723-758 | Startup from storage serves the active snapshot exactly when it reads, parses, is accepted and is another version; otherwise what the cache gave stands |
| Answers.LockChangesHands | storage/postgres/postgres.go:306-338 | The lock is taken only when free, and freed only by its holder, by its holder's crash, or by the operator who has it |
| Answers.Chores | manager/sync.go:237-462 | Between cycles a leader prunes, with a refused call deleting nothing, and looks after the cache |
| Agreement.EqualVersionsEqualItems | manager/sync.go:328-393 | Two replicas at Equal versions, at any two points of a run and whichever way each got there (leader, sync, commit, catch-up, rollback, cache, startup), serve identical items, those the source stands for at that version |
| Agreement.RetryServesItsFetch | storage/postgres/postgres.go:40-56 | Whenever a cycle applies its value, in either mode, the row of its version was created by some cycle's save; the leader serves what its own cycle listed, readers of the row get what the creating cycle listed, and the two agree if and only if those listings, defaults filled in, are the same |
| Agreement.RetryDiverges | storage/postgres/postgres.go:40-56 | For any two listings of one version, a run in which the leader's retry serves the second while storage activates, and a replica that starts serves, the first at the Equal version |
| Convergence.CatchUpConverges | manager/sync.go:89-155 | A lagging replica that makes one error-free catch-up pass, its two reads interleaved with anything the others do, holds the active version and its items from then on |
| Convergence.LagNeverGrows | manager/sync.go:89-183 | With the source quiet, no schedule of lost, late, repeated or reordered events, passes, log writes and sweeps ever increases the number of replicas not at the active version |
| Convergence.CalmNode | manager/sync.go:571-631 | One such step leaves a replica where it is or takes it to a version at most the active one, and never off the active one |
| Rollback.RollbackConverges | manager/sync.go:633-679 | With the operator holding the lock over an activated target and FIFO delivery, once every managing replica has handled the rollback event, in any order and interleaved with anything else, all serve the target with the target's items; and under a writing strategy, if no earlier rollback was still writing and no cache write was refused, the cache holds the target as soon as one replica is through with the event |
| Rollback.OperatorFreezes | docs/rollback-runbook.md:40-109 | Activating an acceptable row under the operator's lock reaches that situation, whatever rollbacks went before: no replica leads, and if nobody is in the middle of a rollback none to another version is under way |
| Rollback.NoneAnnounced | manager/sync.go:633-679 | Nobody is in the middle of one before the first has been announced |
| Rollback.RunbookConverges | docs/rollback-runbook.md:40-147 | The same convergence stated for a whole run, from the operator's activation on, for every rollback of the cluster's life: what replicas serve needs nothing about earlier rollbacks, the cache only that none is still writing |
| Rollback.LandedStays | manager/sync.go:89-183 | After that no catch-up pass, repeated rollback, prepare, abort or sweep changes a replica |
| Rollback.LateSyncUndoesRollback | manager/sync.go:589-593 | Why FIFO: a sync event delivered after the rollback takes the replica off the target, to the version it names, if and only if that is later |
| Rollback.LateSyncHappens | docs/rollback-runbook.md:40-147 | A run of the whole runbook from the initial state, ending when the announcement of a later version, made before the rollback, reaches a replica that had landed on the target and takes it off |
| Rollback.StartupLands | manager/sync.go:681-758 | For any cache contents, error-free startup ends at exactly the active version in either direction, keeps the cached one when nothing is active, and stays unset with neither |
| Rollback.RestartLands | manager/manager.go:280-281 | The same over a run, with other replicas acting between the two loads: the version active at the second load, with that snapshot's items unless the cache had already given it that version; with nothing active, what the cache held at the first, or nothing |
| Rounds.OpenedBy | manager/sync.go:330-393 | A cycle with its value in hand is, unchanged, the one some earlier step of its leader opened, and has been in hand since |
| Rounds.RowHeld | manager/sync.go:939-1002 | Past its save, a cycle with its value in hand has its row in storage: nothing prunes it meanwhile |
| Rounds.ActiveWhileOpening | manager/sync.go:939-1002 | From the opening of a cycle to its activation the active version does not change, whatever the others do |
| Rounds.RowSavedBy | storage/postgres/postgres.go:40-56 | Every stored snapshot was created by some cycle's save and still holds what that saved |
| Staging.StashedBy | manager/registration.go:272-288 | Every staged value in a reachable state was put there by a prepare or the replica's own cycle, carries the expiry that step gave it, and has been there, the same value, at every point since |
| Staging.SweptIsFresh | manager/manager.go:428-442 | Right after a sweep every value left with a lifetime was stashed less than that lifetime before |
| Staging.OncePerStash | manager/registration.go:338-356 | Between two commits of one round that both found a value to swap, the value was stashed again |
| Outcomes.CleanCycle | manager/sync.go:343-377 | An undisturbed eventually-consistent cycle ends with its version the one active row over the first bytes saved for it, served and unstaged here, announced once, cached, recorded as applied, and nothing else changed |
| Outcomes.CleanOpening | manager/sync.go:939-976 | An undisturbed 2PC opening leaves the snapshot stored, the version's log holding only the leader's own prepare, the registry's answer as target set and one prepare event, with nothing served or activated |
| Outcomes.CleanCommit | manager/sync.go:1000-1045 | An undisturbed decided round ends active, served, announced as commit and as sync, recorded as committed and cached |
| Outcomes.CleanAbort | manager/sync.go:827-892 | An undisturbed abort announces itself, drops the stage, and fails the snapshot if and only if it is not the active one; the active, cached and served versions stay |
| Outcomes.FailedCall | manager/sync.go:289-393 | What an error does at each of the cycle's accesses: before the others were asked the cycle ends and drops its stage, after that the round is aborted, past the decision it changes nothing; a refused write had no effect and an ambiguous one all of it |
| Outcomes.Polls | manager/sync.go:1094-1137 | One look at the targets: any live one that refused aborts the round, all live ones prepared activates it, otherwise it looks again until the wait is over |
| Outcomes.CleanRepair | manager/sync.go:412-441 | An undisturbed repair fills a missing cache entry from the active snapshot, leaves one that is there, and changes nothing else |
| Versions.MintedVersionRoundTrip | config/version.go:12-29 | A minted version survives its text, is never unset, and equality of minted versions coincides with neither being After the other |
| Versions.SpellingsOfOneInstant | config/version.go:47-56 | Parsed versions are Equal only when spelled alike, while two spellings of one instant are neither After the other |
| Tables.ActivateSwitches | storage/postgres/postgres.go:58-95 | An activation leaves exactly its own version active, the one before it inactive and every other row as it was, and changes nothing when the row is missing |
| Tables.ActiveSetKept | storage/postgres/postgres.go:162-304 | Saving, logging, resetting and pruning keep the active set; failing removes at most the failed version |
| Tables.WritesSay | storage/postgres/postgres.go:40-304 | What each write leaves in rows and log: a first save is a pending row with its bytes and time, failing marks that row alone, a reset drops exactly one version's entries, pruning exactly the old rows that are not active with their entries |
| Postgres.Store.SaveSnapshot | storage/postgres/postgres.go:45-56 | First content wins; other collections untouched; an error may hide an effect |
| Postgres.Store.ActivateSnapshot | storage/postgres/postgres.go:60-95 | The two updates are one transaction: all of the switch or none, success only when the row exists and the commit is confirmed |
| Postgres.Store.GetActiveSnapshot | storage/postgres/postgres.go:98-117 | The one active row of the collection, "not found" exactly when there is none, "broken" exactly when the read failed |
| Postgres.Store.GetActiveVersion | storage/postgres/postgres.go:121-138 | The same version GetActiveSnapshot would name |
| Postgres.Store.FailSnapshot | storage/postgres/postgres.go:163-179 | Marks the row failed whatever its status; an error when there is none |
| Postgres.Store.LogApply | storage/postgres/postgres.go:184-196 | Overwrites this instance's one row for the version, no other |
| Postgres.Store.ResetApplyLog | storage/postgres/postgres.go:214-220 | Removes every instance's row for the version, no other version's |
| Postgres.Store.AppliedInstances | storage/postgres/postgres.go:224-251 | Exactly the instances whose row holds that status |
| Postgres.Store.DeleteOldSnapshots | storage/postgres/postgres.go:255-304 | Every collection loses exactly its aged inactive rows and the log rows that refer to them; reports how many |
| Postgres.Store.AcquireLock | storage/postgres/postgres.go:306-338 | Succeeds only on a free key, and keeps the session out of the pool while it holds it, so no second holder can appear on a shared session; "not acquired" exactly when another session holds the key, an error exactly when no connection or no answer was to be had |
| Postgres.Store.Release | storage/postgres/postgres.go:330-335 | Frees the key and returns the session |
| Registration.CollectionReg.ApplyDefaults | manager/registration.go:179-187 | Overwrites every item in place with the codec's defaults of that item |
| Registration.CollectionReg.SwapFromBytes | manager/registration.go:189-220 | Serves the decoded items, each with its defaults filled in, if and only if the validator accepts that very sequence; otherwise changes nothing and says why; a hook panic is an error with the value live |
| Registration.CollectionReg.FetchAndStage | manager/registration.go:222-252 | Stages the listed items, each with its defaults filled in, and returns the encoding of that very sequence, if it validates and encodes; otherwise stages nothing |
| Registration.CollectionReg.StageFromBytes | manager/registration.go:254-270 | The same items under the same test as SwapFromBytes, staged with the TTL's expiry instead of served |
| Registration.CollectionReg.Stash | manager/registration.go:272-288 | One entry under the round, expiring after the TTL or never for TTL 0 |
| Registration.CollectionReg.DropExpiredStages | manager/registration.go:290-305 | Removes exactly the expired entries and returns exactly their round ids |
| Registration.CollectionReg.CommitStaged | manager/registration.go:307-336 | Serves the value in hand if its round is still staged, and removes the entry only if it is that value |
| Registration.CollectionReg.CommitByRoundID | manager/registration.go:338-356 | Serves and removes the round's value, or changes nothing and reports it missing |
| Registration.CollectionReg.AbortByRoundID | manager/registration.go:365-370 | Removes the round's value and nothing else |
| Registration.CommitsOnce | manager/registration.go:338-370 | A second commit, a commit after an abort, or one after the sweep that dropped the value finds nothing; the first one disturbs no other round |
| Registration.SweepKeepsTheLiving | manager/registration.go:290-305 | A value stashed with a TTL survives a sweep exactly until it lapses; one stashed without never goes |
| Registration.TakesFilledIn | manager/registration.go:189-270 | Taking stored bytes, to serve or to stage, in full: which items, which outcome, and nothing changed unless they are accepted |
| Registration.FetchesFilledIn | manager/registration.go:222-252 | What the leader stages is what it hands to storage: the listed items with their defaults |
| Followers.Manager.HandleEvent | manager/sync.go:530-570 | Handling an event is exactly the cluster's Deliver step followed by the writes that step leaves pending; own echoes, and 2PC events outside 2PC, do nothing |
| Followers.Manager.SettleIsSteps | manager/sync.go:530-570 | Those pending writes are the cluster's own CacheWrite and Flush steps |
| Followers.Manager.PassIsSteps | manager/sync.go:89-155 | A catch-up pass with nobody acting between its reads is the cluster's Probe and Load steps and the write they leave pending |
| Followers.Manager.HandleSyncEvent | manager/sync.go:572-631 | Serves the named snapshot only if it is forward and acceptable, and logs the outcome as the source does |
| Followers.Manager.HandleRollbackEvent | manager/sync.go:633-679 | Serves the active snapshot in either direction, then writes it to the cache, then logs |
| Followers.Manager.HandlePrepareEvent | manager/sync.go:1139-1190 | Stages acceptable stored bytes and logs "prepared", otherwise "prepare_failed"; acknowledges collections it does not manage |
| Followers.Manager.HandleCommitEvent | manager/sync.go:1192-1258 | Serves what was staged for the round, or reloads the named snapshot when it is gone |
| Followers.Manager.HandleAbortEvent | manager/sync.go:1260-1276 | Drops the round's value only |
| Followers.Manager.FollowerCatchUp | manager/sync.go:89-155 | Every collection gets its own pass whatever became of the others, each equal to the two-read pass of the cluster model |
| Followers.Manager.LoadFromCache | manager/sync.go:681-721 | Every collection whose cache entry reads, parses and validates serves it; the others are untouched |
| Followers.Manager.LoadFromStorage | manager/sync.go:723-758 | Every collection with a readable, acceptable active snapshot at another version serves that one |
| Followers.Manager.SweepExpiredStages | manager/manager.go:430-442 | Each collection loses exactly its expired stages, and exactly those are reported |
| Leaders.LeaderSync | manager/sync.go:289-393 | The straight-line cycle, with arbitrary interference before each shared access and any call failing or ambiguous, is a run of the cluster's cycle machine to its end; it leaves the staging map as it found it and other collections alone; it succeeds exactly when there was nothing to do (the version reported, and for a forced cycle the clock's too, is no later than the one served) or all five accesses were made, and serves the new value exactly from the third on |
| Leaders.LeaderSync2PC | manager/sync.go:894-1055 | The same for the two-phase cycle, polling loop included; a round it opens succeeds exactly when this replica comes to serve its value, and a round that fails leaves the replica as it was |
| Leaders.WaitPrepares | manager/sync.go:1057-1092 | With targets to wait for, succeeds only when every target last seen alive has logged "prepared" at that moment; ends aborting otherwise, and within one check of the deadline |
| Leaders.PollOnce | manager/sync.go:1094-1137 | One check of registry, failures and prepares, in that order |
| Leaders.FailedNext | manager/sync.go:1106-1116 | Stops the round exactly when a live target logged "prepare_failed" or the query failed |
| Leaders.PreparedNext | manager/sync.go:1118-1137 | Succeeds exactly when every live target logged "prepared" |
| Leaders.AbortRound | manager/sync.go:827-869 | Announces the abort, drops the stage, and fails the snapshot unless it may be active |
| Leaders.FailUnlessActive | manager/sync.go:871-892 | Fails the snapshot only after a successful read named another active version or none |
| Leaders.RepairCacheEntry | manager/sync.go:412-441 | With any interference, a run of the cycle machine's repair to its end that leaves the replica alone; what it does to the cache is `Outcomes.CleanRepair` |
| Leaders.StagedIsThere | manager/sync.go:395-410 | Applying what the cycle staged succeeds with the version live even if a hook panics |
| Query.ApplyFilters | config/query.go:57-69 | Computes the pipeline on a copy: whatever the options write to the slices they are handed, the published array is not among them |
| Query.Run | config/query.go:12-55 | Each option yields its own result on a fresh slice or a window of the one it owns |
| Query.FilteredCounts | config/query.go:11-23 | Where keeps every occurrence that satisfies the predicate, and no other |
| Query.FilteredConcat | config/query.go:11-23 | Where keeps the order and treats parts of a slice independently |
| Query.SortByArranges | config/query.go:25-35 | SortBy returns a permutation of what it is given, in order when the comparison orders; a caller's own option does what the caller wrote |
| Query.PipelineSplits | config/query.go:57-69 | Options run left to right: a pipeline's second half works on what the first half made |
| Query.LimitBeforeWhere | config/query.go:5-7 | Limit before Where returns a prefix of Where before Limit, and the same slice exactly when the cut-off part had nothing to add or the limit was reached |
| Query.PagesCover | config/query.go:37-55 | Offset and Limit page through a slice without loss or repetition |
| Query.SortWhereCommute | config/query.go:25-35 | As pipelines, sorting and filtering commute as collections for any permutation the library picks, and item for item when only equal items tie |
| Subscribers.OpenViewFollows | config/view.go:188-204 | In every run of swaps, registrations, removals, views opening and closing, an open view equals its pipeline over the source's current items at the source's version once that is set, unless its own functions panic on the current slice |
| Subscribers.BrokenViewKeepsLastGood | config/view.go:188-204 | A view that panics keeps, whole, what its pipeline made of the last snapshot it could digest, with that snapshot's version |
| Subscribers.OpensWarmOrComputed | config/view.go:25-94 | A new view keeps what its store had exactly while the source is unset, and otherwise holds its pipeline over the source; only that computation can make the opening fail |
| Subscribers.ClosedViewFrozen | config/view.go:106-113 | After Close a view never changes |
| Subscribers.HookStaysUntilUnregistered | config/collection.go:95-112 | A callback leaves its slot if and only if its own unregister is called, however often others' are |
| Subscribers.RemovalIsIdempotent | config/collection.go:95-112 | Unregistering or closing twice is doing it once, and touches no other slot |
| Views.Collection.Swap | config/collection.go:114-146 | Publishes a copy, then runs every slot not unregistered, once each and in slot order, telling it the slice replaced and the slice published; the error is exactly that some callback or some hooked view panicked |
| Views.Collection.FanOut | config/collection.go:125-146 | Every slot not unregistered is told, in order, once, whichever of the others panic; exactly the hooked views recompute |
| Views.Collection.OnChange | config/collection.go:95-102 | A new slot at the end, naming only this hook |
| Views.Collection.Unregister | config/collection.go:104-111 | Clears that slot only |
| Views.SafeCallHooks | config/hooks.go:20-35 | Every hook is run even after a panic, in order, and exactly those that panic are counted |
| Views.View.Recompute | config/view.go:187-243 | The new snapshot is a trimmed array of its own holding the pipeline's result, or the old one when the view's functions panic; panics of the view's own hooks are all counted and reported, and never become a panic of the recompute |
| Views.View.Unregister | config/view.go:169-185 | Clears that one of the view's own slots |
| Views.View.Close | config/view.go:106-113 | Removes the view's own hook, once |
| Views.NewView | config/view.go:68-94 | A stored snapshot stands only while the source is unset; otherwise the view is computed before it subscribes |
| Index.IndexedView.Get | config/index.go:99-109 | The answer is the in-order filter of the source by key, nil exactly when that is empty |
| Index.IndexedView.Has | config/index.go:147-151 | True exactly when some item has the key |
| Index.IndexedView.CountFor | config/index.go:142-145 | The length a scan would find |
| Index.IndexedView.Recompute | config/index.go:171-191 | Two passes over the items build every group in a buffer it fills to the last cell |
| Index.IndexedViewT.Get | config/index.go:377-389 | The in-order concatenation of the values of the items with that key |
| Index.IndexedViewT.Recompute | config/index.go:433-455 | The same two passes for extracted values, no append ever outgrowing its allocation |
| Index.Fill | config/index.go:178-186 | Given exact counts, every append fits and every group ends full and in order |
| Index.GroupsPartition | config/index.go:171-186 | Every occurrence of an item is in the group of its own key and in no other, and a key has a group exactly when an item has it |
| Index.GatheredIsScan | config/index.go:445-449 | Incremental gathering equals filtering by key and flattening |
| Index.FlatIsConcat | config/index.go:445-449 | Flattening is concatenation, in order |
| Flatten.FirstWins | config/related.go:164-178 | No kept item matches a later kept one, and every dropped item matches an earlier kept one |
| Flatten.KeptIsSubsequence | config/related.go:164-178 | What is kept is an order-preserving subsequence of the input |
| Flatten.FirstWinsDetermines | config/related.go:164-178 | Those rules leave no choice: any set of positions that obeys first-wins is the one kept |
| Flatten.OneRepresentative | config/related.go:33-39 | When the predicate is an equivalence every input item has exactly one representative in the result |
| Flatten.JoinedIsConcat | config/view.go:492-511 | What the composite reads is its views' items, end to end in the order of the views |
| Flatten.RelatedView.Recompute | config/related.go:164-184 | Without a dedup function the concatenation of all parents' items; with one, an order-preserving selection of it in which no kept item matches a later one and every dropped one matches an earlier kept one; computed parent by parent |
| Flatten.CompositeView.All | config/view.go:492-511 | The same of the views' items end to end, merged view by view |
| Flatten.CompositeView.Count | config/view.go:513-526 | The length of such a selection, or of the concatenation on the path that never builds it |
| Diff.ByEqual | config/diff/diff.go:15-44 | Added and updated in the new slice's order, removed holding each stale key once |
| Diff.LastStands | config/diff/diff.go:16-19 | Of several items with one key the last one stands |
| Diff.PatchRoundTrip | config/diff/diff.go:8-44 | Applying the buckets to the old map gives the new map: the same keys, and under each the new item, or the old one where `equal` took them for the same |
| Diff.PatchExact | config/diff/diff.go:8-13 | With plain equality the patched map is the new map |
| Diff.BucketsBalance | config/diff/diff.go:15-44 | The buckets name disjoint keys and the lengths add up |
| Diff.PatchesUnlessOverruled | config/diff/diff.go:8-44 | For a reflexive `equal` and any slices, repeated keys included, the same round trip holds if and only if no item of the new slice is overruled: rejected by `equal` while the last item of its key, which the old slice has too, is accepted |
| Diff.DuplicateKeysBreakThePatch | config/diff/diff.go:8-9 | An input with a repeated key for which it fails |

## Left out

- Several collections in one run: the cluster machine follows one. `Postgres.Store`, `Followers.Manager` and the leader cycles are over all of them, and each of their methods says that it leaves what the replicas share of the others alone.
- Outcomes.CleanCycle: states the outcome when every call succeeds and nobody interferes; what holds under failures and interference is in `Leaders` and in the run-level theorems.
- Leaders.LeaderSync: interference before each access is arbitrary except that it keeps at most one active row, which `Runs.ActiveRowPersists` proves of every run; `waitConfirmations`, which only delays a log line, is not modelled.
- Leaders.WaitPrepares: the deadline is a turn after which the wait gives up; clocks and tickers are not modelled.
- Followers.Manager.FollowerCatchUp: nobody else acts between its two reads here; in `Cluster` they do.
- Unanimity.ActivationIsUnanimous: a round whose target set is empty activates without prepares, as manager/sync.go:1060-1062 has it, and is outside the statement; instances the registry did not report alive are not covered, by the protocol's own design.
- Agreement.EqualVersionsEqualItems: assumes replicas configured alike, defaults that are idempotent, a decoder that undoes the encoder, and a source whose content is a function of its version; `Agreement.RetryServesItsFetch` shows what happens without the last.
- Rollback.RollbackConverges: assumes the target decodes and validates everywhere, no hook panics while the event is handled, and no older sync or commit event overtakes it; `Rollback.LateSyncUndoesRollback` and `Rollback.LateSyncHappens` show why.
- Query.SortWhereCommute: the library's sort is any function that returns a sorted permutation; its algorithm is not modelled. `Limit` and `Offset` take n >= 0.
- Subscribers.OpenViewFollows: one writer at a time, and hooks that do not write to the slices they share; the lock-free readers see one publish as one assignment.
- Views.View.Recompute: saving results to persistence is asynchronous and left out, loading is an arbitrary initial value; the error handler is the caller's.
- Index.IndexedView.Recompute: the index and the related view are subscribed by the same kind of slot as `Views.View`; that subscription, and an index warmed from its store, are not repeated for them.
- Postgres.Store.AcquireLock: a lock query that was granted and fails all the same is taken to have lost its session, which the connection pool then closes.
- Time rendering and JSON are functions with the round trips stated where they are used; the JSONB column's normalisation of whitespace and key order is taken as part of the decoder's job.
- Asynchronous (write-behind) cache writes.
- Loss of the database session under a leader that keeps running: the model's lock is released only by its holder or by its crash.
- A staged value is identified by its content, not by the address of its struct; rounds have unique ids, so the two coincide.
- Registry registration and heartbeats: each reading of the alive set is arbitrary.
- Start, Stop, manual mode and debouncing decide when steps happen; any schedule of steps is allowed. Replicas all run in the same mode.
- Singleton and translated variants, which repeat the collection ones; metrics, logging and its deduplication, status, schema checks, transports, and the `directus/` client.
