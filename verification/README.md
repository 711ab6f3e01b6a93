# What the replay vault and the parser's accounting keep

A model, in Dafny, of two parts of the match replay service, with proofs about all inputs and all runs.

**The vault and its re-parse run.** Many machines share one object store and coordinate only through operations on
single keys: a create that needs a free key (If-None-Match, section 13.1.2 of RFC 9110), a metadata rewrite that needs
the ETag it read (If-Match, section 13.1.1), plain puts and deletes. `Text`, `Kinds` and `Metadata` model a replay's
metadata and its stored form, `MergeAlgebra` the merge of claims and its inverse, `ObjectStore` and `Vault` the store
and the calls on it as one process runs them, `MetaRace` any number of such calls interleaved store call by store call
(a call may also fail, with or without having been carried out). `PageRefresh` and `OrphanShards` are the protocols of a
re-parse run: the single page refresh, and the sharing of the shards no machine claimed. `PurgeStudent` and `Retention`
are the two runs that delete.

**The parser's attribution and accounting.** `Matching` is the greedy matching that `CampKills` and `Assists` share;
`StackOutcomes` hands creeps and gold to stacks, `StunCombos` measures overlapping control, `StartingItems` reconciles
the two sources of purchases, `SkillBuild` pairs level rises with spent points, `Positions` assigns 1 to 5, `Clusters`
groups teamfights and smokes, `SecondRows` sums damage per second, `Timelines` keeps change-only rows, `PreHorn` moves
pregame stamps onto the game clock. `Sorting`, `Sets`, `Rounding` and `Wrappers` are helpers.

Loops that update state are methods, proved against a specification function or predicate; what the code promises is
then proved about that specification, in terms of the inputs, the runs and the results, without the function itself.
Protocols are state machines: `Step` carries out one event, `Run` a sequence of them, and the theorems speak of every
sequence. Times and scores are reals, stun times ticks.

## Where the code does less than its documentation says

Each is proved with a concrete input or run that shows it, and with the condition under which the code does keep its
promise, or for the protocols under which some interleaving breaks it: an exact one in every case.

- A bad verdict of a version that cleans to "0" is not seen at all (`MetaRace.ZeroVerdictIsLost`), of "1" or of an
  unusable version is seen without the version (`MetaRace.MarkBadIsSeen`).
- Purging a student gives the kind back only up to a tie of classes (`MergeAlgebra.PurgeTie`), and the class only if no
  remembered claim outranks the kind (`MergeAlgebra.PurgeRaisesTheClass`), which merges and purges keep.
- The comparison that skips a rewrite takes an account list without a usable id for a missing one
  (`Metadata.EqualMetaNeedsWellFormed`, `Metadata.EqualMetaExactly`). The vault never meets this: stored metadata, which
  is always on the left, has no such list.
- A GitHub answer that gets lost costs a second page refresh (`PageRefresh.LostAnswerRefreshesTwice`); in all, as many
  refreshes are possible as there are callers (`PageRefresh.RefreshesPossible`).
- A shard claim that lands after the grace period lets an item enter two pools (`OrphanShards.LateClaimSharesTwice`);
  this can happen if and only if there are two machines and an open item of a started shard
  (`OrphanShards.ItemTwicePossible`).
- Retention compares patches as text at the second look, so an obsolete object listed with a leading zero is never
  deleted (`Retention.LeadingZeroStays`, `Retention.Run`, `Retention.CanonicalHasNoLeadingZero`).
- A purchase logged before the first inventory with a later stamp takes a copy out of the starting items
  (`StartingItems.EarlyPurchaseHidesACopy`).
- When the attribute bonus is seen on two entities, a hero's and his double's, a forced bonus of a lower level lets a
  level be listed twice (`SkillBuild.ForcedBonusListsTwice`); on one entity it cannot (`SkillBuild.TwoSightingsDecide`).
  A later filter drops the repetition from the written list.
- An item whose cooldown is reset early keeps showing the old end (`Timelines.EarlyResetIsLost`), and a cooldown ending
  in the first second of the game may be taken for none (`Timelines.EndAtHornIsLost`, `Timelines.GameReadsFit`).
- The building rows miss damage to a building called like a Tormentor (`SecondRows.TormentorTower`); no building of the
  game has such a name.

## Model

| member | source | states |
|---|---|---|
| `Text.SplitJoin` | internal/vault/meta.go:100-105 | joining with a comma and splitting again gives back any list of words without the separator, however long |
| `Text.FieldsJoin` | internal/vault/meta.go:100-105 | the same for the splitter that also takes spaces, bars and semicolons and drops empty fields |
| `Text.SortedOfAscending` | internal/vault/meta.go:84-98 | sorting an ascending list of distinct ids changes nothing, so cleaned lists are stable |
| `Text.AscendingUnique` | internal/vault/meta.go:48-59 | a sorted list without duplicates is determined by its elements |
| `Kinds.ParseOwnName` | internal/vault/kind.go:30-44 | every kind parses from its own name |
| `Kinds.HighestKind` | internal/vault/kind.go:98-106 | the loop returns the first kind of the highest class, coach for an empty list |
| `Kinds.HighestUnique` | internal/vault/kind.go:98-106 | "first of the highest class" names one kind only |
| `Metadata.CollectAccounts` | internal/vault/meta.go:84-98 | the one-pass loop with a seen set gives the sorted, unique, trimmed, digit-only ids |
| `Metadata.CollectKinds` | internal/vault/meta.go:48-59 | the same for the protected kinds |
| `Metadata.CleanAccountsSpec` | internal/vault/meta.go:84-98 | the cleaned list is ascending and holds exactly the usable ids |
| `Metadata.SortedKindsSpec` | internal/vault/meta.go:48-59 | the list is ascending and holds exactly the protected kinds named |
| `Metadata.RenderS3` | internal/vault/meta.go:107-150 | the guarded assignments, in order, write the same names and values as the declarative stored form |
| `Metadata.FromS3WellFormed` | internal/vault/meta.go:152-190 | whatever is stored reads as well-formed metadata |
| `Metadata.AccountsRoundTrip` | internal/vault/meta.go:100-150 | a cleaned account list of any length survives the comma-joined text |
| `Metadata.BadRoundTrip` | internal/vault/meta.go:107-190 | how the bad flag and its version read back: a version cleaning to "0" reads as no flag, to "1" as a flag without version |
| `Metadata.NormFields` | internal/vault/meta.go:107-190 | what writing and reading back does to each field of arbitrary metadata |
| `Metadata.RoundTrip` | internal/vault/meta.go:107-190 | reading what was written gives the metadata back if and only if it is well-formed |
| `Metadata.EqualMetaDecides` | internal/vault/meta.go:236-247 | against stored (well-formed) metadata the comparison holds exactly when the stored forms are equal; a skipped rewrite would have written what is there |
| `Metadata.EqualMetaExactly` | internal/vault/meta.go:236-247 | against every right side it decides equality of the stored forms if and only if the left account list is empty or names a usable id, or every name is taken |
| `Metadata.EqualMetaNeedsWellFormed` | internal/vault/meta.go:236-247 | two concrete values with different stored forms that compare equal |
| `MergeAlgebra.RunMerge` | internal/vault/meta.go:197-234 | the loops compute the merge, and changed says whether the stored form differs |
| `MergeAlgebra.DropKind` | internal/vault/meta.go:204-209 | the loop drops exactly the winning kind from the remembered ones |
| `MergeAlgebra.MergeJoins` | internal/vault/meta.go:197-234 | claims and ids of a merge are the unions, the class the higher one |
| `MergeAlgebra.MergeWellFormed` | internal/vault/meta.go:197-234 | a merge of well-formed metadata is well-formed |
| `MergeAlgebra.MergeAssociative` | internal/vault/meta.go:197-234 | merging is associative, on every field |
| `MergeAlgebra.MergeIdempotent` | internal/vault/meta.go:197-234 | merging well-formed metadata into itself changes nothing if and only if its kind is not repeated among the remembered ones |
| `MergeAlgebra.MergeKeepsLeftmostHighest` | internal/vault/meta.go:197-201 | the kind kept is the leftmost one of the highest class |
| `MergeAlgebra.MergedKindByName` | internal/vault/meta.go:197-201 | which kind a merge keeps, for every pair of kinds, by name |
| `MergeAlgebra.PurgeUndoesStudentMerge` | cmd/vaultctl/main.go:374-397 | for every object without ids: purging the account leaves no id and every claim but a student's; the class comes back if and only if no other claim outranks the kind, the kind itself if and only if it sorts first among the best claims |
| `MergeAlgebra.PurgeRestoresMerged` | cmd/vaultctl/main.go:374-397 | class and claims of a protected object in the form merges leave come back |
| `MergeAlgebra.PurgeRaisesTheClass` | cmd/vaultctl/main.go:374-397 | a concrete object, in a form no merge leaves, that comes back with a higher class |
| `MergeAlgebra.MergeKeepsTopKind` | internal/vault/meta.go:197-234 | a merge of objects whose kind is not outranked leaves one |
| `MergeAlgebra.PurgeKeepsTopKind` | cmd/vaultctl/main.go:374-397 | so does a purge |
| `MergeAlgebra.PurgeTie` | cmd/vaultctl/main.go:374-397 | on a class tie the kind is not restored: a pro game also kept as ladder comes back as ladder |
| `ObjectStore.WritesAreFresh` | internal/vault/memory.go:47-127 | a successful write gives its key an ETag no object ever had and touches no other key; a refused one changes nothing |
| `ObjectStore.MemStore.Put` | internal/vault/memory.go:74-94 | the new store state and answer of a put, conditional on a free key or not |
| `ObjectStore.MemStore.CopyReplaceIfMatch` | internal/vault/memory.go:96-127 | the new store state and answer of a metadata rewrite, conditional on the ETag or not |
| `ObjectStore.MemStore.Delete` | internal/vault/memory.go:129-134 | the key is gone, all others stay |
| `Vault.Vault.MutateMeta` | internal/vault/vault.go:125-145 | the retry loop, with other writers between its read and its rewrite and with calls that fail or lose their answer, ends in the state and answer of the specification function |
| `Vault.Vault.UpdateMeta` | internal/vault/vault.go:149-154 | the same for the merge of a claim |
| `Vault.Vault.PutNew` | internal/vault/vault.go:189-217 | create, replace a corrupt object, or merge the claim, whatever others do between the calls and whichever call fails, as the specification step says |
| `Vault.AttemptSpec` | internal/vault/vault.go:126-142 | one pass of the loop: what readers see after each possible answer |
| `Vault.MutateLosesNothing` | internal/vault/vault.go:125-145 | a call that answers applied its function once, to what the last interfering writer left, and nobody came between its last read and its write; "kept changing" means all sixteen attempts were overtaken by another write |
| `Vault.MutateAlone` | internal/vault/vault.go:125-145 | without interference the first attempt settles the call and only its key changes |
| `Vault.PutNewAnswers` | internal/vault/vault.go:184-217 | whatever fails or others do: a call that says it stored has its bytes and metadata under the key, and a free key is taken by an answered create |
| `Vault.PutNewReportsFailures` | internal/vault/vault.go:184-217 | what each failing store call of a PutNew leaves behind: it is never said to be stored, and what was carried out until then stays |
| `Vault.PutNewKeepsClaims` | internal/vault/vault.go:184-217 | storing never loses a claim or an id, never lowers the class, takes the new bytes exactly when it says so, and keeps every text but those of replaced corrupt bytes |
| `Vault.PutNewFillsIn` | internal/vault/vault.go:189-197 | on a free key the bytes and texts are stored as given, as a coach game when no kind is given, with the time when none is |
| `MetaRace.Linearizable` | internal/vault/vault.go:125-217 | over every interleaving, with failing and unanswered calls: what readers see is the fold of the effects in order, every effect lies between the first store call and the answer of its call, and a call that answered took effect exactly once |
| `MetaRace.AnsweredCallsComeFirst` | internal/vault/vault.go:125-217 | a call answered before another began took effect first |
| `MetaRace.RunKeepsInv` | internal/vault/vault.go:125-217 | every reachable state satisfies the invariant that ties each process to the history |
| `MetaRace.OneWinner` | internal/vault/vault.go:184-217 | of racing creates at most one wins, and the first effect on a free key is a create |
| `MetaRace.ExactlyOneWinner` | internal/vault/vault.go:184-217 | on a free key, once some PutNew ended without a failure, exactly one create won, and its process was told so unless the answer was lost |
| `MetaRace.KeptChangingMeansContention` | internal/vault/vault.go:125-145 | "kept changing" is answered only if at least sixteen writes landed during the call |
| `MetaRace.EveryCallEnds` | internal/vault/vault.go:125-217 | a call is over after 34 of its store calls; unless one of its own failed, a PutNew has then stored, merged, met a corrupt object or given up, any other call has its answer, has given up or found nothing where nothing was |
| `MetaRace.ClaimsAreTheUnion` | internal/vault/vault.go:147-217 | ids and protected claims readers see are exactly those of the start and of all calls that took effect |
| `MetaRace.NothingIsForgotten` | internal/vault/vault.go:125-217 | no step takes away a claim or an id or lowers the class |
| `MetaRace.TwoStepsAreOneAttempt` | internal/vault/vault.go:126-142 | a read step and the rewrite step after it are one pass of the modelled retry loop, also when one of them fails |
| `MetaRace.ZeroVerdictIsLost` | internal/vault/vault.go:156-163 | a verdict of version "0" leaves no bad flag |
| `MetaRace.MarkBadIsSeen` | internal/vault/vault.go:156-163 | a verdict is on record for its version if and only if the version is clean and not empty, "0" or "1" |
| `MetaRace.ClearUndoesMark` | internal/vault/vault.go:165-172 | clearing undoes any verdict |
| `MetaRace.MarksTouchTheirOwn` | internal/vault/vault.go:156-180 | where a mark took effect, readers see the metadata as before but for its own fields: the corrupt flag set, flag and version gone, or only these two changed |
| `MetaRace.CorruptIsSeen` | internal/vault/vault.go:176-180 | in every run readers see the object as corrupt if and only if the start was, or a mark or a claim with the flag took effect |
| `MetaRace.CorruptStays` | internal/vault/vault.go:176-180 | once a call that marks the object corrupt has answered, readers see it corrupt from then on, whatever the others do |
| `MetaRace.OnlyCorruptIsReplaced` | internal/vault/vault.go:193-217 | a PutNew turns to replacing the object if and only if readers see it as corrupt when it looks, and then they still do |
| `MetaRace.FirstTextWins` | internal/vault/meta.go:197-234 | over every run patch, source, container, time of storing and checksum are those of the start or else of the first call that brought one |
| `MetaRace.LastVerdictStands` | internal/vault/vault.go:147-172 | over every run the bad flag and its version are those of the last call that decided, and only a claim with a bare flag can set the flag after it |
| `PageRefresh.AtMostOneRefresh` | internal/reparse/plan.go:291-316 | for every number of callers and interleaving at most one dispatch is acknowledged, and the unacknowledged ones are exactly the dispatches whose answer got lost |
| `PageRefresh.RefreshesPossible` | internal/reparse/plan.go:291-316 | n refreshes can happen in some interleaving if and only if n is 0 or there is a GitHub and there are n callers |
| `PageRefresh.LostAnswerRefreshesTwice` | internal/reparse/plan.go:311-315 | two planners: after a lost answer the second one refreshes again |
| `PageRefresh.RefreshOnlyWhenAllAccounted` | internal/reparse/worker.go:171-199 | a worker asks for the refresh only when each plan item has a done marker or was found absent |
| `PageRefresh.GoneWasAbsent` | internal/reparse/worker.go:177-188 | an item counts as gone only while the vault does not hold it |
| `PageRefresh.ExactlyOneRefresh` | internal/reparse/worker.go:171-199 | if every item gets its marker, no call fails and no run is queued, exactly one refresh happens |
| `PageRefresh.MarkerHasAnOwner` | internal/reparse/plan.go:296-315 | if no create answer is lost, no release fails and no run is queued, the marker stands only while a caller is between its create and its end, or after the one refresh |
| `PageRefresh.RefreshCanFollow` | internal/reparse/plan.go:303-314 | in such a run, after any failures at GitHub, every caller still at its create can bring the refresh about |
| `PageRefresh.EveryCallerEnds` | internal/reparse/worker.go:171-199 | a caller that has begun ends within six calls and one for each plan item, whatever fails |
| `PageRefresh.DispatchAlone` | internal/reparse/plan.go:292-316 | the result, the marker and the counts of a dispatch nobody interrupts, for all answers to its calls |
| `PageRefresh.CheckAlone` | internal/reparse/worker.go:171-192 | a check nobody interrupts ends in an error without the listing, else it goes on to the dispatch if and only if each item has a marker or was found absent; one it could not look up counts as left |
| `PageRefresh.StoredSince` | internal/reparse/worker.go:177-188 | the vault holds an item if and only if it was stored, at the start or since, and not deleted after that |
| `OrphanShards.NoItemTwice` | internal/reparse/worker.go:94-162 | if started claims land before they are tested, no plan item enters two pools, whichever shards were refused and whichever calls failed or lost their answer |
| `OrphanShards.EveryOpenItemEntersOnce` | internal/reparse/worker.go:111-233 | after error-free scans every item some worker saw open has entered exactly one pool |
| `OrphanShards.FinishedWorkerMissesNothing` | internal/reparse/worker.go:111-233 | whatever fails: of the items a finished worker saw open, those of its shard are in its pool, and any other is in a pool unless its shard is claimed, this worker's look or claim failed, or a claim of it was carried out unheard |
| `OrphanShards.ClaimsOnRecord` | internal/reparse/worker.go:124-126 | the claims on record are exactly those carried out, heard of or not |
| `OrphanShards.EveryWorkerFinishes` | internal/reparse/worker.go:204-233 | a worker has finished after one step for each item and four, and for each shard one for each item and two, whatever fails on the way |
| `OrphanShards.MarkedIsNotTaken` | internal/reparse/worker.go:107-119 | an item that has its marker before a worker lists them is never taken by this worker, whatever fails |
| `OrphanShards.DoneMeans` | internal/reparse/worker.go:269-335 | an item has a marker if and only if it had one at the start or a worker finished it after taking it |
| `OrphanShards.ItemTwicePossible` | internal/reparse/worker.go:94-162 | some interleaving puts an item into two pools if and only if there are two machines and an item of a started shard without a marker |
| `OrphanShards.LateClaimSharesTwice` | internal/reparse/worker.go:207-215 | two machines and one item: a claim that lands too late lets it enter two pools |
| `PurgeStudent.PurgeWellFormed` | cmd/vaultctl/main.go:374-397 | the metadata a purge writes is well-formed |
| `PurgeStudent.PurgeTakesOnlyTheAccount` | cmd/vaultctl/main.go:374-397 | a purge takes exactly one id; other ids and every other protected claim stay, and no other field changes |
| `PurgeStudent.One` | cmd/vaultctl/main.go:326-402 | one listed object: deleted only if, at that moment, it is a student game of this account and nobody else; otherwise detached |
| `PurgeStudent.Run` | cmd/vaultctl/main.go:325-402 | whatever others do, only student games kept for this account alone are deleted, and none in a dry run; left alone an applied run leaves no student game that lists the account and changes nothing else |
| `Retention.FindPatch` | internal/retention/retention.go:299-308 | 0 if and only if no entry is dated at or before the time, else the id of an entry that is, with every later one dated after it |
| `Retention.PatchAtIsNewest` | internal/retention/retention.go:299-308 | the same of the function the run is specified by |
| `Retention.ObsoleteMeans` | internal/retention/retention.go:310-362 | the run may delete a coach game or an unpinned pro game whose text, or else the newest patch at its start, is before the previous patch, and nothing else |
| `Retention.CollectPool` | internal/retention/retention.go:310-333 | in the pool is a listed object if and only if it is a coach game or a pro game known to be unpinned |
| `Retention.CollectCandidates` | internal/retention/retention.go:335-362 | candidates are the obsolete objects of the pool; resolved patches are written back only by an applied run |
| `Retention.Recheck` | internal/retention/retention.go:380-401 | deletes exactly the candidates whose stored kind and patch still fit at the second look |
| `Retention.Run` | internal/retention/retention.go:310-404 | whatever others do: only removable objects go that the listing dates, by text or start time, before the previous patch and that the second look finds of the same kind and patch, at most MaxPercent of the pool, nothing in a dry run; left alone it deletes such an object if and only if its patch text prints as it parses, and keeps bytes and metadata of all others but for a patch filled in |
| `Retention.CanonicalHasNoLeadingZero` | internal/retention/retention.go:394 | the patch texts that print as they parse are those without a leading zero |
| `Retention.LeadingZeroStays` | internal/retention/retention.go:394 | a concrete patch text with which a candidate stays |
| `Retention.DeleteAll` | internal/retention/retention.go:380-401 | of the candidates, left alone, exactly those go that the second look lets through |
| `Retention.RecheckedIsOld` | internal/retention/retention.go:380-401 | what passed both looks is an unpinned coach or pro game of a patch before the previous one |
| `Retention.AtoiItoa` | internal/retention/retention.go:394 | a patch number prints and parses back |
| `Retention.PurgePrefetch` | internal/retention/retention.go:193-228 | only named student games go, at most the cap, none in a dry run; below the cap every named one goes |
| `Sorting.StableSortSpec` | main.go:6341 | the stable sort orders by key, keeps the elements, and leaves equal keys as listed |
| `Matching.TakeInOrder` | main.go:6342-6349 | one pass with used marks: only listed pairs, no end twice, and every pair is taken or was settled by an earlier one sharing an end |
| `Matching.TakeBestFirst` | main.go:1512-1518 | the greedy result is a matching without a blocking pair |
| `Matching.StableIsUnique` | main.go:6341-6349 | with distinct scores there is only one matching without a blocking pair, so the listing order does not matter |
| `CampKills.FirstFrom` | main.go:6328 | the binary search returns the first death not before the window |
| `CampKills.Candidates` | main.go:6318-6340 | the pairs are exactly those inside the time window, with their scores |
| `CampKills.Join` | main.go:6318-6349 | creeps and deaths are joined injectively inside the window, and no pair would both rather be joined |
| `CampKills.CampKills` | main.go:6306-6378 | the join, and the owner, tick and gold of every creep |
| `CampKills.GoldIsSplit` | main.go:6350-6376 | the shares of one player and tick are the gold paid less an even share per unmatched death: exactly the gold when all are matched, never more than a non-negative payment |
| `CampKills.KillsWerePaid` | main.go:6350-6376 | the creeps a player killed are worth no more in all than he was paid |
| `CampKills.SameSpeciesFirst` | main.go:6329-6339 | a death of the creep's species fits better than one of another, unless the killer stood hundreds of cells away |
| `CampKills.NearerFits` | main.go:6329-6339 | species alike, the nearer killer fits better; without both places fifty cells count |
| `CampKills.SoonerFits` | main.go:6329-6339 | species and places alike, a second more between the stamps costs ten cells |
| `CampKills.OnlyOfItsSpecies` | main.go:6301-6349 | a creep is joined to the one death of its species in its window when no other creep there could be of it |
| `CampKills.KillInNumbers` | main.go:6346-6378 | a kill has its death's owner and stamp and an even share of the tick's gold rounded towards zero, the first creep the rest as well |
| `StackOutcomes.Best` | main.go:6441-6449 | the pass over the tallies, in any order, finds the player who beats all others |
| `StackOutcomes.Clear` | main.go:6411-6455 | one stack takes exactly the free creeps it admits and is decided by their tallies |
| `StackOutcomes.ClearCamp` | main.go:6400-6456 | the stacks of a camp, earliest first: each is decided by the creeps it is the earliest to admit |
| `StackOutcomes.StackOutcomes` | main.go:6386-6457 | every stack of every camp, in any order of camps, is decided by exactly the creeps it holds |
| `StackOutcomes.VerdictIsUnique` | main.go:6441-6454 | the outcome does not depend on the order of the tallies |
| `StackOutcomes.HeldOnce` | main.go:6380-6385 | no creep is counted for two stacks |
| `StackOutcomes.ClearedGoldWasPaid` | main.go:6306-6457 | the gold a player is credited with for clearing stacks is at most the neutral gold paid to him |
| `StackOutcomes.OutcomeMeans` | main.go:6441-6455 | the clearer killed no fewer creeps than units of no player and outdoes every other player: more creeps, then more gold, then the earlier first kill, then the lower slot; without one each player killed fewer than units of no player |
| `Assists.ListedPairs` | main.go:1502-1511 | the pairs are the enemy deaths listing the player within half a second of a rise |
| `Assists.Tick` | main.go:1519-1539 | a rise without a listed death gets the closest free death exactly when it is the only one of its tick |
| `Assists.Attribute` | main.go:1481-1540 | listed deaths first, without a blocking pair; then the rises in order |
| `Assists.RisesAreInjective` | main.go:1496-1540 | rises map injectively to enemy deaths within half a second |
| `Assists.OneEventPerRise` | main.go:1541-1557 | one event per rise of the counter, by time and target |
| `Assists.Relist` | main.go:1559-1577 | the new list: the log's credited names in its order, then the others |
| `Assists.ListsTheCredited` | main.go:1559-1577 | a player is in a death's list if and only if one of his rises was credited to that death |
| `Assists.Scoreboard.Rebuild` | main.go:1466-1578 | the whole rebuilding: events and assist lists of every player and death; without counters nothing changes |
| `Assists.LoneDeathIsCredited` | main.go:1481-1540 | a rise and an enemy death with nothing else within half a second belong together, listed or not |
| `Assists.NearerDeathIsCredited` | main.go:1481-1540 | of two enemy deaths around a rise, both or neither listing the player, the nearer one is credited |
| `Assists.ListedDeathIsCredited` | main.go:1481-1540 | of several enemy deaths around a rise the one that lists the player is credited |
| `Assists.TwoDeathsStayUnknown` | main.go:1481-1540 | of two enemy deaths of one tick, neither listing the player, none is credited |
| `Assists.ListInOrder` | main.go:1559-1577 | a death's new list has the log's credited names in the log's order, then the other credited players by slot |
| `StunCombos.WasteStep` | main.go:7107-7122 | the overlap the sweep adds is the part of the stun already under control |
| `StunCombos.Flush` | main.go:7072-7106 | a finished chain of two attackers or more counts for each of them with all its waste |
| `StunCombos.Sweep` | main.go:7069-7125 | one pass: the chains are the maximal runs, and counts and waste are those of the chains |
| `StunCombos.Detect` | main.go:7057-7130 | the same over all targets, whatever their numbers |
| `StunCombos.CutWhereControlEnds` | main.go:7107-7118 | chains are cut exactly where all control so far ran out more than the grace ago |
| `StunCombos.NothingWastedTwice` | main.go:7107-7125 | over a target the waste is the sum of durations minus the measure of the union, chain by chain |
| `StunCombos.TiesDoNotMatter` | main.go:7069-7125 | counts and waste are the same for every order of equal starts |
| `StunCombos.AnySortWillDo` | main.go:7057-7130 | so they are for every target, however its stuns were sorted by start |
| `StunCombos.CountMeans` | main.go:7072-7104 | a player's count is the number of chains with stuns of two players or more in which he has one, and he is charged with their waste |
| `StartingItems.Purchases.Log` | main.go:2633-2650 | the state after a logged purchase |
| `StartingItems.Purchases.Sight` | main.go:3311-3346 | the state after the first inventory: of each item the copies beyond the logged ones become purchases |
| `StartingItems.Purchases.Flush` | main.go:1372-1396 | the state after the waiting purchases are handed over |
| `StartingItems.FreshCopies` | main.go:3334-3345 | of each item exactly the copies beyond the logged ones are new |
| `StartingItems.RecordedUpToSighting` | main.go:3311-3346 | however log, mapping, sighting and horn interleave: recorded purchases up to the sighting are the larger of logged and inventory copies, corrected by the purchases delivered out of stamp order |
| `StartingItems.ArrivalOrderDoesNotMatter` | main.go:3311-3346 | the number is max(copies, logged) if and only if as many purchases came early as late, or the log has enough of them anyway |
| `StartingItems.EarlyPurchaseHidesACopy` | main.go:3324-3339 | a concrete purchase logged before the sighting with a later stamp leaves no starting item |
| `StartingItems.LaterPurchasesAreTheLogs` | main.go:2633-2650 | a purchase stamped after the sighting is recorded as the log has it, stamp by stamp |
| `StartingItems.HandOverInOrder` | main.go:1372-1396 | without a hero nothing is handed over; else nothing waits any more, and if a purchase was added all are in the order of their stamps |
| `StartingItems.DispenserIsNeverBought` | main.go:3319-3333 | over every run no ward dispenser is recorded |
| `SkillBuild.BestOf` | main.go:4777-4791 | the rise a point takes: eligible, no eligible one better, the first of equals |
| `SkillBuild.Skills.Choose` | main.go:4777-4791 | the pass over the waiting rises finds it |
| `SkillBuild.Skills.MatchSkills` | main.go:4773-4812 | points and rises filtered in place: the new state, pairs and what is given up are those of the step that EveryPointPaysOnce, NothingIsMissed and LonePointIsListed are about |
| `SkillBuild.Skills.RecordSkillUp` | main.go:4722-4739 | the state after a level rise |
| `SkillBuild.Skills.SkillSpent` | main.go:4757-4767 | the state after a spent-point reading |
| `SkillBuild.Skills.SeeFirst` | main.go:3477-3489 | the state after a hero first seen with points spent |
| `SkillBuild.EveryPointPaysOnce` | main.go:4722-4851 | over every run each point seen is in one pair, waits or was given up, and so is each rise; every pair takes the best rise that could be taken; points and rises are given up only more than three seconds on or at the end, a point with no rise in reach |
| `SkillBuild.PaidEntriesAreWritten` | main.go:4794-4800 | over every run each listed pair has its own entry in the build, with the rise's time, name and level and the hero's level then |
| `SkillBuild.NothingIsMissed` | main.go:4773-4812 | after every matching no waiting rise could be taken by a waiting point, what waits is three seconds old at most, and at the end nothing waits |
| `SkillBuild.LonePointIsListed` | main.go:4722-4812 | a point and a rise within three seconds of each other and alone, in either order: the first matching a tenth of a second after the rise makes it an entry |
| `SkillBuild.SpentIsTheHighest` | main.go:4757-4767 | the points known are the highest number read |
| `SkillBuild.ListedLevelsIncrease` | main.go:4839-4851 | over every run the listed levels of any ability but the attribute bonus strictly increase; a violation of the bonus's is explained by a forced bonus below an entry listed before it |
| `SkillBuild.TwoSightingsDecide` | main.go:4684-4851 | a run that meets the guard can list a level of the attribute bonus twice, or out of order, if and only if the bonus may be seen on two entities |
| `SkillBuild.OneSightingIncreases` | main.go:4684-4851 | over every run that meets the callers' guard, in time order and with the attribute bonus seen on one entity, its listed levels strictly increase |
| `SkillBuild.NextEntryIsSafe` | main.go:4839-4851 | every next entry keeps the list increasing if and only if no listed level is above the record |
| `SkillBuild.ForcedBonusIsSafe` | main.go:4794-4796 | a forced bonus keeps the record safe if and only if no listed level is above its own |
| `SkillBuild.ForcedBonusListsTwice` | main.go:4794-4798 | a concrete run that meets the guard, with a hero and his double, in which a level of the attribute bonus is listed twice |
| `Positions.Measure` | main.go:4517-4539 | the team maxima, wards and scores, which CoresShareMore puts in numbers |
| `Positions.FindSolo` | main.go:4550-4558 | the lone mid below the ward threshold, if there is one |
| `Positions.Divide` | main.go:4559-4586 | three cores and two supports, the farmer first; every core but the lone mid is ahead of every support |
| `Positions.CoreSlots` | main.go:4588-4616 | slots 1 to 3 without repetition: the first core of a named lane has its slot, the others what is left, lower first |
| `Positions.Five` | main.go:4618-4637 | which support is the 5 |
| `Positions.AssignFive` | main.go:4474-4649 | for every five-player side: a permutation of 1 to 5 that obeys all rules of the lanes, the farm and the wards; MoreFarmIsCore, LaneDecidesCore and LaneDecidesFive say what that means for the players |
| `Positions.AssignPositions` | main.go:4474-4651 | both sides; a side that is not five is ranked by last hits, never past 5 |
| `Positions.LoneMidIsTwo` | main.go:4550-4571 | the only mid is the 2 when the side has fewer than five wards or he less than a quarter of them |
| `Positions.AssignmentIsUnique` | main.go:4541-4637 | the farm, the lanes and the lone mid decide every position |
| `Positions.AssignedIsUnique` | main.go:4474-4649 | a side of five has exactly one assignment |
| `Positions.CoresFarmMore` | main.go:4559-4571 | every core but a lone mid scores at least as high as every support |
| `Positions.CoresShareMore` | main.go:4517-4543 | the same in plain numbers: half shares of the best last hits less two fifths of a ward a minute |
| `Positions.MoreFarmIsCore` | main.go:4532-4586 | nobody with more last hits and fewer wards than a core is a support, unless that core is the lone mid |
| `Positions.LaneDecidesCore` | main.go:4588-4602 | the core clearly ahead of every other core of his lane is the 2 mid, the 1 on the safe lane, the 3 on the off lane |
| `Positions.AheadIsLower` | main.go:4603-4616 | of two cores that no lane names the one clearly ahead has the lower position |
| `Positions.LaneDecidesFive` | main.go:4618-4637 | the 5 of two supports: alone on the safe lane, else the mate of one alone on the off lane, else the one the other is clearly ahead of |
| `Clusters.CutIsUnique` | main.go:5003-5010 | there is one way to cut a list at gaps above the limit |
| `Clusters.Teamfights` | main.go:5001-5045 | the fights are the clusters of three deaths or more, with their sides, times and winner |
| `Clusters.TeamfightsAreApart` | main.go:4998-5045 | fights have three deaths or more, the sides add up, and two fights are more than 20 s apart |
| `Clusters.SmokeGroups` | main.go:5470-5497 | the one pass over two sides gives each side the clusters of its own smokes alone |
| `Clusters.SidesAreIndependent` | main.go:5470-5497 | one side's groups do not depend on the other side's smokes |
| `Clusters.FightInNumbers` | main.go:4998-5045 | three deaths at least, each at most 20 s after the one before; the side with fewer deaths wins |
| `Clusters.ThreeDeathsAreAFight` | main.go:4998-5045 | three deaths or more that follow one another within 20 s are in one fight |
| `Clusters.SmokesInNumbers` | main.go:5469-5497 | smokes of one side within 4 s of each other are one group; after a longer pause a new one begins |
| `SecondRows.Aggregate` | wide.go:182-220 | one row per key hit, with all its damage, in strictly ascending key order |
| `SecondRows.OrderIsIrrelevant` | wide.go:182-220 | the same hits in any other order give the same rows |
| `SecondRows.SecondIsFloor` | wide.go:188-192 | the second of a stamp is its floor, also below zero |
| `SecondRows.DamageSeconds` | wide.go:182-220 | the hero damage rows |
| `SecondRows.DamageLog.Record` | main.go:2658-2664 | what one damage entry adds to the objective hits and to the tower damage |
| `SecondRows.Read` | wide.go:379-412 | a whole log: the objective rows and the tower damage |
| `SecondRows.RowsAreTowerDamage` | main.go:2770-2784 | a player's building rows sum to his tower damage if and only if he damaged no misnamed enemy building |
| `SecondRows.TormentorTower` | wide.go:366-381 | a concrete tower whose damage is in no building row |
| `SecondRows.MisnamedAreTormentors` | wide.go:366-381 | among enemy buildings exactly those called like a Tormentor are misnamed |
| `SecondRows.RowsAreTheDamage` | wide.go:379-412 | a row has exactly the damage a player dealt to its objective in its second, never nothing, and without a row there was none; rows come by time and player |
| `SecondRows.HeroRowsAreTheDamage` | wide.go:182-220 | the same of the hero damage rows, in the order of time, victim, attacker, source and bear |
| `SecondRows.NameMeans` | wide.go:366-381 | what a target is called: Roshan, Tormentor, an enemy building's name without the prefix, else nothing |
| `Timelines.Inventory.RecordSlot` | wide.go:110-129 | the rows after a read, the map staying the last row of every slot |
| `Timelines.RecordAll` | wide.go:110-129 | the rows after all reads |
| `Timelines.ReplayFits` | wide.go:110-129 | at every read the replayed item is exact, and the cooldown fits if and only if it was not reset early and does not end at the horn |
| `Timelines.GameReadsFit` | wide.go:265-298 | over the reads of a replay the cooldown fits if and only if it was not reset early and does not end in the first second unnoticed |
| `Timelines.LateReadsFit` | wide.go:110-129 | from a second past the horn on only early resets are lost |
| `Timelines.EndAtHornIsLost` | wide.go:115-118 | a concrete cooldown ending in the first second of the game, shown as ready |
| `Timelines.EarlyResetIsLost` | wide.go:119-123 | a concrete refreshed item whose row still shows the old cooldown |
| `Timelines.RowsAreNews` | wide.go:110-129 | no row repeats what the slot's row before it says |
| `Timelines.LookUp` | wide.go:110-129 | looking rows up by stamp gives what a read left, when the slot's later reads are in later tenths of a second |
| `Timelines.Scroll.Record` | main.go:1650-1663 | the last row has the charges and travel level read and the cooldown end within a second |
| `Timelines.RecordScroll` | main.go:1650-1663 | the same over any reads, and no two consecutive rows say the same |
| `Timelines.ShownInNumbers` | main.go:1650-1663 | what the last row tells of a read, in plain numbers |
| `Timelines.FitsInNumbers` | wide.go:110-129 | a fitting cooldown ends within a second and a rounding of the one read |
| `PreHorn.Clock.Rebase` | main.go:1952-2023 | every number at most -900000 is moved once, and their number is returned |
| `PreHorn.EveryStampEndsOnce` | main.go:1937-2023 | every stamp ends as raw time less the horn known then, or less the first horn, or as raw time when there is none; all other numbers as they were |
| `PreHorn.DifferencesAreKept` | main.go:1937-2023 | with one horn, order and differences of the stamps are those of the raw clock |
| `PreHorn.OnlyTheBandMoves` | main.go:1930-1942 | a pregame stamp is moved onto the game clock if and only if the raw clock read at most 100000 |

## Left out

- The start lock of a re-parse run: its release is an unconditional delete, so it does not exclude anyone.
- Shards started late by the planner's daily maintenance and a requested second dispatch: both may redo work.
- The planner's work list, machine creation and summary; failure counting and final markers of a worker: counters and
  conditional creates without a property across calls.
- The parse and delivery of one replay: a worker may finish an item of its pool at any time.
- The hash that gives a replay its shard: a parameter of `OrphanShards`.
- Replacing a corrupt object in the interleavings of `MetaRace`: the put is unconditional and keeps no promise there; it
  ends a call. `Vault.Vault.PutNew` has it, with what others do before it.
- Deletes that follow a second look: the guarantee is about the moment of the look.
- Retention's patch list, pin list, purge list, start times and report: inputs of the run.
- Letter case beyond ASCII in metadata names and values.
- `MetaRace`, `PageRefresh` and `OrphanShards` are state machines on values: one event is one call, so fields updated in
  place inside a worker are not shown as assignments.
- The distance between two map cells: a parameter of `CampKills`; the camp nearest to a stack: given with the stack.
- Species names that the replay's name table fills in late: given with the creep.
- Assists of the laning phase and the abilities and partners listed with a stun combo: counts and names for display.
- StunCombos.Detect: goes over all targets up to the highest one in order instead of over the sorted keys of a map.
- `Assists` and `Positions` number deaths and players of a side by their place in a list instead of by pairs of indices.
- Stun seconds rounded to hundredths, hero levels and item ids looked up in tables.
- `StartingItems` follows one player; the hero's name is known to be his from the mapping on.
- `SkillBuild` follows one player; the filter that drops shared abilities from the written list comes after it.
- What happens in the minute after a smoke, and groups of a single participant.
- PreHorn.Clock.Rebase: sweeps a list of numbers, not the parser's whole state by reflection; decisions taken before the
  horn from parked stamps are not revisited.
- Replay decoding, hero and item tables, lanes, pulls, high ground, camp tiers and camp blocks.
