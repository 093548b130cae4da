# Pangolin sync, recovery and publishing: a verified model

This project models the parts of Pangolin that have to be right when things go wrong, and proves what they keep:

- **Pull and resolve** (`apps/cli/src/sync.rs` over `crates/pangolin-store/src/vault.rs`). A vault pulls revision events
  from an append-only chain in chunks with a checkpoint, and resolves a forked account by publishing a merge revision on
  top of one head. Every store operation is one transaction. A call is described by the sequence of states of vault and
  chain that it passes through, so a kill at any point leaves one of them, and every theorem about "every state" is a
  theorem about every kill.
- **The chain side**: the reference chain of `mock.rs` and the log query of `base_sepolia.rs`, whose windows refine it.
- **The guardian Merkle tree** (`recovery_client.rs`): root builder, proof builder and verifier.
- **The broadcast loop and its arithmetic** (`chain_submit.rs`, `balance_check.rs`, the batch pre-flight).
- **Encodings**: the canonical revision body and hash, native-messaging frames, 32-byte hex.

Imperative code is imperative here: `Store.Vault`, `Pulls.Network`, `MockChain.MockChainAdapter`, `Frames.Reader` and
`Frames.Writer` are classes whose methods are proved against functions of the old state, and the loops of the source are
loops with invariants. The theorems are then lemmas about those functions.

| file | about |
|---|---|
| `Bytes`, `Signing`, `Merkle`, `Hex`, `Frames` | encodings and the Merkle tree |
| `Fees`, `Broadcast` | fee arithmetic, the retry loop |
| `ChainLog`, `MockChain`, `LogPull`, `TwoLevel` | the log, the reference chain, the chunked query, both chunk loops together |
| `Store`, `Pull` (module `Pulls`), `Convergence` | the store contract, `pull_all`, interrupted pulls |
| `Resolve`, `Answers` (module `ResolveAnswers`), `Runs` | `resolve_one`, when it answers what, at most one merge per head in every run |
| `Outcomes`, `Published` (module `PublishedMerge`), `Recovery` | what one call does: refusals and thaws, a published merge, a retry |
| `Retries`, `Kills` | retries over whole runs: what stays recoverable, and where a kill is for good |
| `Overrides`, `Skipped` (module `SkippedMerges`) | pulls with `--from-block` and `--until-block`, and what comes of an own merge they skip |
| `Blocked` | an event that no pull accepts |
| `Scenarios` | one concrete input for each finding |

Conventions. The digest, the signature scheme and the RPC node are function parameters, so nothing is assumed of keccak256;
the node may answer anything. Where a statement needs collision resistance, it says instead that a clash of canonical ids
(`Clash`, `ContentClash`) or a colliding pair of byte strings is at hand. `cfg.idOf` stands for the canonical hash.

A publish lands and says so, lands but reports an error, or never lands; foreign events land at any time, several to a block.

## Findings

Eight places where the code does not do what its comments or its obvious reading say. The model follows the code. In this
document `StoreFailed(NotAHead)` is the store's error, passed on, and `NotCurrentHead` is the resolve's own refusal.

1. A retry is not safe to kill. The comment at sync.rs:599-601 says that a kill leaves the stash row for the next retry, but
   step 2a (sync.rs:615-625) and every chunk of the pull (sync.rs:265-272) prune the row as soon as the merge is known,
   before the account is thawed. Every retry whose pull succeeds passes through such a state
   (`Kills.RetryIsSpentBeforeItThaws`), a retry that fails at its first chain call may end in one
   (`Scenarios.FailedRetryLosesTheRow`), and from there no later resolve of that revision ever thaws the account again
   (`Retries.SpentIsForGood`). What holds instead: as long as no pull skips the merge, a world can be recovered exactly as
   long as the row is there (`Retries.RecoverableOrSpent`).
2. A pull with `--from-block` above the checkpoint skips what lies between, this device's own unreported merge included
   (sync.rs:142-145, `Overrides.OverrideCoverage`). The stash row stays, but the merge is not found again
   (`Recovery.SkippedMergeIsNotRecovered`), and the next resolve puts it on chain a second time
   (`SkippedMerges.SkippedIsPublishedAgain`, `Scenarios.JumpedPublishesTwice`). A second merge of a head comes about in no
   other way (`SkippedMerges.PublishedAgainMeansSkipped`).
3. `clear_frozen` demands that the revision is a head at that moment (vault.rs:3521-3528). A retry whose merge is on chain
   therefore recovers exactly when nobody has built on the merge yet; otherwise it fails with `StoreFailed(NotAHead)` and the
   account stays frozen, although the comment at sync.rs:660-673 promises recovery (`Recovery.RetryRecovers`, with a concrete
   world in `Scenarios.BuiltOnIsNotRecovered`).
4. `advance_last_pulled_block` refuses a backward move (vault.rs:7728-7735), while sync.rs:942-946 takes it for a no-op. A
   pull with `--from-block` more than one chunk below the checkpoint therefore always fails
   (`Pulls.PullSucceedsIff`, `Scenarios.PullFromBelowFails`).
5. After a published merge the checkpoint moves to the merge's block (sync.rs:947). Any other event of the vault above the
   head that was pulled and up to that block, the rest of the merge's own block included, is skipped for good
   (`PublishedMerge.PublishedCoverage`, `PublishedMerge.SkippedIsLost`, and `Scenarios.RaceSkipsTheForks` for concrete ones).
6. An event with a device id that is not a canonical Ed25519 key stops every pull below it (sync.rs:234-239), and the
   contract lets anybody publish one. The comment at sync.rs:192-199 accepts the refusal; what it comes to is that the
   vault's checkpoint and its resolves are stuck until a pull is told to start at or above the event
   (`Blocked.BlockedForGood`, `Pulls.PullSucceedsIff`, `Scenarios.JunkStopsTheVault`).
7. Without a stash row, the id that a dry run plans is the one a following real run publishes only if both sign with the
   same key and seal to the same bytes, which a fresh nonce rules out in practice (`Outcomes.DryRunPlan`,
   `Scenarios.DryRunPlansAnotherId`).
8. A pull from the last u64 block re-reads that block, because the exclusive bound saturates (`LogPull.PullRefinesReference`,
   `Scenarios.LastBlockIsReadAgain`).

## Model

| member | source | states |
|---|---|---|
| Runs.AtMostOneMergePerHead | apps/cli/src/sync.rs:555-960 | In every run of resolves with any keys and pulls, default pulls and any others that do not start above the checkpoint or end above the height, killed after any effect, with unreported publishes and blocks of foreign events at any time, this device's events hold at most one merge per (account, chosen head), or a stored row's id clashes with a log event of another account or parent |
| Runs.AtMostOneUnlessSkipped | apps/cli/src/sync.rs:555-960 | The same for runs whose pulls have any overrides, as long as no resolve is called for a revision while an own merge of it is skipped (at or below the checkpoint and not ingested) |
| SkippedMerges.PublishedAgainMeansSkipped | apps/cli/src/sync.rs:642-760 | A resolve publishes over a revision that has an own merge already only if that merge is skipped, or ids clash |
| SkippedMerges.SkippedIsPublishedAgain | apps/cli/src/sync.rs:739-888 | And it does: with nothing to pull, the revision still a head and its stash row there, a publish that is not lost puts the skipped merge on chain a second time |
| Runs.GuardedRunsSpareMerges | apps/cli/src/sync.rs:135-275 | Runs whose pulls do not start above the checkpoint or end above the height skip no own event |
| Runs.RunKeepsInv | apps/cli/src/sync.rs:555-960 | The invariant behind it: anchored rows stand for log events, own events are on the log, at most one per head; every step of every run keeps it, under the condition of `Runs.AtMostOneUnlessSkipped` |
| Runs.ResolveKeepsInv | apps/cli/src/sync.rs:555-960 | Every committed state of one resolve call keeps that invariant, if no own merge of the call's revision is skipped |
| Runs.LandingKeepsInv | apps/cli/src/sync.rs:880-888 | Publishing on top of a current head, all own merges of it being known, is the first merge of that head, wherever in its block it lands |
| Runs.KnownDemotesItsParent | crates/pangolin-store/src/vault.rs:7235-7335 | A log event that the vault recognises by id or by place has a row with its account and parent, unless ids clash |
| Runs.ClashIsCollision | crates/pangolin-chain/src/signing.rs:144-165 | A clash between correctly keyed contents gives two different byte strings with equal digest |
| Recovery.RetryRecovers | apps/cli/src/sync.rs:602-737 | From a world where the stash row is present, its merge is on chain and not skipped by the checkpoint, and the vault holds it, if at all, as an anchored row under its id: one resolve with any key whose pull succeeds leaves the chain alone and returns `AlreadyOnChain` with that id, thaws the account and removes the row exactly when no stored row and no event to be pulled builds on the merge; otherwise it fails with `StoreFailed(NotAHead)` and thaws nothing |
| Recovery.SkippedMergeIsNotRecovered | apps/cli/src/sync.rs:682-712 | The other half of "not skipped": when every copy of the merge lies at or below the checkpoint and none is stored, no retry ever reports it as on chain |
| Kills.KillThenRetry | apps/cli/src/sync.rs:602-960 | End to end: kill a resolve anywhere after its publish landed, then make any run of resolves and pulls with any overrides, for any accounts, killed anywhere, with foreign activity all along, in which no pull from above the checkpoint skips the merge. If the stash row is still there, a retry with any key ends as `Recovery.RetryRecovers` says, with the very merge that the killed call published, or reports that its pull failed; if the row is gone, no later resolve of that revision publishes or thaws anything. Or ids clash |
| Kills.KilledIsRecoverable | apps/cli/src/sync.rs:847-939 | From the landing of its publish on, a resolve has its stash row until it has thawed the account onto the merge, and every state a kill leaves is one that the theorem above starts from, or ids clash |
| Kills.RetryIsSpentBeforeItThaws | apps/cli/src/sync.rs:615-653 | Every retry from a recoverable world whose pull succeeds passes through a state between its pull and its thaw in which the stash row is gone and the account as frozen as before |
| Kills.ChunkDropsTheRow | apps/cli/src/sync.rs:265-272 | The chunk that brings the merge in prunes its stash row, or ids clash |
| Retries.RecoverableOrSpent | apps/cli/src/sync.rs:135-960 | After any run of any calls in which no pull from above the checkpoint skips the merge, a landed world is recoverable if the stash row is there and spent (row gone, chosen revision with a child) if it is not, or ids clash |
| Retries.KilledRetryIsRecoverableIffStashed | apps/cli/src/sync.rs:555-960 | Every state that a retry from a recoverable world passes through, killed or failed, is recoverable again if and only if the stash row is still in it, or ids clash |
| Retries.RunKeepsTracks | apps/cli/src/sync.rs:135-960 | Any such run keeps track of a landed merge: on chain, not skipped, held anchored if at all, its stash row its own, or ids clash |
| Retries.StepKeepsTracks | apps/cli/src/sync.rs:135-960 | Every single call does, whatever its overrides, except a pull from above the checkpoint that skips the merge, or ids clash |
| Retries.SpentIsForGood | apps/cli/src/sync.rs:739-760 | Once the row is gone and the chosen revision has a child, no run of any calls, pulls with any overrides included, makes a resolve of that revision return `AlreadyOnChain` or `Published`, change the chain or thaw anything |
| Retries.SpentIsRefused | apps/cli/src/sync.rs:739-760 | Such a call ends with `AccountNotFound`, a failed pull, `ChainMovedDuringResolve` or `NotCurrentHead`, by cases |
| Recovery.ChildrenArePulled | crates/pangolin-store/src/vault.rs:6045-6099 | After a successful pull a revision has a child exactly when it had one or an event above the checkpoint is one |
| Recovery.IngestKeepsHeldAnchored | crates/pangolin-store/src/vault.rs:7235-7592 | No ingest turns a merge that is held, if at all, as an anchored row under its id into anything else |
| Scenarios.BuiltOnIsNotRecovered | crates/pangolin-store/src/vault.rs:3434-3545 | A concrete world where the stash row is present, the merge is on chain, and every fault-free retry fails with `StoreFailed(NotAHead)` |
| Scenarios.FailedRetryLosesTheRow | apps/cli/src/sync.rs:615-653 | A concrete world, killed between ingest and thaw, where a retry that fails at its first chain call has already lost the stash row, after which no run of calls recovers the account through that revision |
| Scenarios.JumpedPublishesTwice | apps/cli/src/sync.rs:142-145 | A concrete kill after landing and a pull with `--from-block` above the checkpoint: the stash row is still there, the merge is not found, and the next resolve that is not lost puts it on chain a second time |
| Recovery.QuietPullSucceeds | apps/cli/src/sync.rs:135-303 | Without adapter faults, overflowing places or ids shared between accounts, the retry's pull succeeds exactly when every event of the vault above the checkpoint carries a canonical device id |
| PublishedMerge.PublishedResult | apps/cli/src/sync.rs:880-960 | On an arbitrary graph: a published merge adds one own event on top of the chosen head, stored with its anchor; the heads become (heads minus chosen) plus the merge, their number is unchanged; only that account is thawed, onto the merge; no other account's heads or flags change; the stash row is gone |
| PublishedMerge.FinishResult | apps/cli/src/sync.rs:890-939 | Once landed, an unseen merge is finished off exactly when no row claims it as parent; else the call fails with `StoreFailed(NotAHead)` |
| PublishedMerge.PublishedCoverage | apps/cli/src/sync.rs:940-948 | After a published merge the checkpoint is the merge's block, and "everything up to the checkpoint is ingested" holds exactly when the chain holds no other event of the vault above the pulled head and up to that block, the rest of the block included, except under an id that is stored already; or ids clash |
| PublishedMerge.SkippedIsLost | apps/cli/src/sync.rs:141-275 | An event that the checkpoint has skipped is never brought in by any number of default pulls, unless its id lands again |
| Scenarios.RaceSkipsTheForks | apps/cli/src/sync.rs:940-948 | A concrete world where one fork lands between pull and publish and another behind the merge in its own block: the resolve succeeds, the checkpoint has passed both, and the vault knows neither |
| Scenarios.RaceIsAKillToRecoverFrom | apps/cli/src/sync.rs:880-888 | In that world the call passes through a state with the merge landed and still stashed, which is what the recovery theorems start from |
| Overrides.OverrideCoverage | apps/cli/src/sync.rs:135-275 | After an Ok pull with any overrides the checkpoint is at the range's end, and everything up to it is ingested exactly when the vault's events between the old checkpoint and the range's start are |
| Overrides.GapStaysUnknown | apps/cli/src/sync.rs:142-145 | Such an event, not ingested before, is not ingested by the pull, unless its id is repeated above the start |
| Overrides.UntilAboveTheHeadLoses | apps/cli/src/sync.rs:146-152 | After an Ok pull up to a block above the chain's height, an event landing later at or below it is never ingested by default pulls, unless its id is stored or lands again |
| Outcomes.EveryThawIsOntoTheMerge | apps/cli/src/sync.rs:715-937 | In every call, at every point, no account but the call's own is thawed, and that one only onto a head that is an anchored merge of the chosen revision, or clashes with one |
| Outcomes.RefusalsAreHarmless | apps/cli/src/sync.rs:576-579 | A call refused with `AccountNotFound`, `ChainMovedDuringResolve` or `NotCurrentHead` (the resolve's own `NotAHead`) has, at every point of it, left the chain alone and thawed nothing |
| Outcomes.StashDecidesTheMerge | apps/cli/src/sync.rs:511-552 | With a stash row, the supplied device key makes no difference to any state or result, and every reported id is the one recomputed from the stash |
| Outcomes.DryRunPlan | apps/cli/src/sync.rs:833-845 | A dry run commits nothing; its planned id is the one a following real run publishes exactly when a stash row is present or key and sealed bytes agree |
| Scenarios.DryRunPlansAnotherId | apps/cli/src/sync.rs:833-845 | Concrete seals for which the planned id is not the published one |
| Resolve.ResolveOne | apps/cli/src/sync.rs:555-960 | The method returns the outcome of, and passes through exactly the states of, the resolve specification |
| Resolve.ResolveAfterPull | apps/cli/src/sync.rs:657-845 | Steps 4 to 12 refine their specification state by state |
| Resolve.PublishMerge | apps/cli/src/sync.rs:847-960 | Stash unless stashed, publish with any fate, finish: state by state |
| Resolve.FinishMerge | apps/cli/src/sync.rs:890-960 | Ingest, thaw, drop the stash row, move the checkpoint: state by state, each failure where it happens |
| ResolveAnswers.ChainMovedIff | apps/cli/src/sync.rs:746-752 | A live resolve answers `ChainMovedDuringResolve` exactly when its pull succeeded, the stashed merge is not found, and the account has a head after the pull that it did not have before |
| ResolveAnswers.MovedChainIsRefused | apps/cli/src/sync.rs:746-752 | Then it reports both head sets and does nothing after its pull, whether or not the chosen revision is still a head |
| ResolveAnswers.PublishesOnlyUnmoved | apps/cli/src/sync.rs:739-760 | Whatever a live call puts on chain, the account had no new head and the chosen revision was a head before and after the pull |
| ResolveAnswers.DemotedIsRefused | apps/cli/src/sync.rs:753-760 | No new head, and the chosen revision is none: `NotCurrentHead` with the heads, nothing done after the pull |
| ResolveAnswers.UnopenableIsRefused | apps/cli/src/sync.rs:762-809 | A head without stash row that cannot be opened: refused by the store, nothing done after the pull |
| ResolveAnswers.GoesOn | apps/cli/src/sync.rs:762-960 | Otherwise a stash row is there before anything is put on chain, the one of before the pull or the call's key, fresh nonce and seal under the chosen row's schema; then the merge is lost, or lands and the call fails, or lands and is finished off |
| ResolveAnswers.FailedPull | apps/cli/src/sync.rs:643-653 | A failed pull ends a live call with `ChainFailed`, and what the pull has committed stays |
| ResolveAnswers.FoundAnswer | apps/cli/src/sync.rs:684-737 | The stashed merge is found, anchored: `AlreadyOnChain` with its id and place, or `StoreFailed(NotAHead)` exactly if it has a child; the chain is left alone |
| ResolveAnswers.DryAnswer | apps/cli/src/sync.rs:833-845 | A dry run's answer by cases, with the id of the merge it would build |
| ResolveAnswers.UnknownAccount | apps/cli/src/sync.rs:576-579 | `AccountNotFound` exactly for an account without identity, with nothing done |
| ResolveAnswers.FinishOrder | apps/cli/src/sync.rs:890-948 | The finishing steps happen in order: no stash row is dropped before the thaw, no checkpoint moved before the stash row is gone |
| Pulls.PullAll | apps/cli/src/sync.rs:135-303 | Passes through exactly the specified states and is Ok exactly when specified; the report counts the rows added, gives the frozen accounts (none on the early return) and exactly the touched accounts with several heads |
| Pulls.PullNextChunk | apps/cli/src/sync.rs:183-275 | One pass of the chunk loop is one step of the specified trace |
| Pulls.IngestChunk | apps/cli/src/sync.rs:191-247 | One chunk's events, state by state, up to the first refused one |
| Pulls.PullLoopCovers | apps/cli/src/sync.rs:183-275 | At every state of a pull from its checkpoint, mid-chunk failures included, every event of the vault up to the stored checkpoint is ingested; after an Ok pull, every one up to the head |
| Pulls.PullLoopSpares | apps/cli/src/sync.rs:183-275 | No state of a pull that starts at or below the checkpoint has skipped an event of the vault that was not skipped before |
| Pulls.PullPreserves | apps/cli/src/sync.rs:183-275 | Whatever ingesting the events above the start keeps, every state of a pull keeps |
| Pulls.ChunkOrder | apps/cli/src/sync.rs:248-272 | Within a chunk nothing is pruned before the checkpoint has moved, the checkpoint does not move before the chunk is ingested, and only touched accounts are pruned |
| Pulls.PullSucceedsIff | crates/pangolin-store/src/vault.rs:7728-7746 | Absent adapter faults, overflowing places and ids shared between accounts, a pull is Ok exactly when its first chunk does not end below the checkpoint and every event of the vault in its range carries a canonical device id |
| Blocked.BlockedForGood | apps/cli/src/sync.rs:234-239 | One event of the vault with a device id that is not canonical, above the checkpoint: whatever is called with whatever faults, as long as no pull starts at or above it, the checkpoint stays below it, this device publishes nothing and every live resolve ends with its failed pull |
| Blocked.PullStopsBelow | apps/cli/src/sync.rs:191-247 | For every fault set a pull from below such an event fails if its range holds it, and no state of it has a checkpoint at or above the event |
| Scenarios.JunkStopsTheVault | apps/cli/src/sync.rs:234-239 | A concrete such event |
| Scenarios.PullFromBelowFails | crates/pangolin-store/src/vault.rs:7728-7735 | A pull from block 0 with the checkpoint at 9,000 fails on an empty chain without any fault |
| Pulls.ChunksAreOnePull | apps/cli/src/sync.rs:177-188 | The windows of the outer loop, joined, are one pull of the range |
| Convergence.InterruptedPullsConverge | apps/cli/src/sync.rs:183-275 | Any number of failed or killed pulls against earlier heights, then one Ok pull: the graph is the start graph with the events up to the head ingested once, in order, and the checkpoint is the head |
| Convergence.SameAsOneUnfailedRun | apps/cli/src/sync.rs:183-275 | Graph and checkpoint are those of a single unfailed run; the stash may differ, since a kill between checkpoint and prune leaves rows behind and other chunk boundaries prune at other times |
| Convergence.CatchUp | crates/pangolin-store/src/vault.rs:7255-7335 | Re-ingesting an overlapping stretch of events adds exactly the missing part |
| Convergence.EarlierPull | crates/pangolin-chain/src/mock.rs:199-233 | What lands while a pull runs does not change what it fetches |
| Store.IngestIsIdempotent | crates/pangolin-store/src/vault.rs:7255-7390 | After an accepted ingest, and whatever was ingested since, the same event changes nothing |
| Store.IngestAnswers | crates/pangolin-store/src/vault.rs:7255-7592 | An ingest inserts exactly when no row has the id, no row of the account has the place and no row without a place has the same account, parent, device, schema and payload; then the account is frozen. Otherwise accounts and row count stay, and only such a local copy gets the event's place. It is refused exactly for a new id with a place that the columns cannot hold |
| Store.HeadsAreChildless | crates/pangolin-store/src/vault.rs:6045-6099 | Heads are the ids of the account's rows that no row of the account names as parent |
| Store.SmallOperationsAnswer | crates/pangolin-store/src/vault.rs:3434-3545 | When the checkpoint moves, when a thaw is refused and with which error, and what a prune drops, over the rows themselves |
| Store.FrozenAccountsAreFrozen | crates/pangolin-store/src/vault.rs:3314-3334 | The frozen list holds exactly the accounts with the flag set |
| Store.InsertMovesHeads | crates/pangolin-store/src/vault.rs:7504-7592 | A new foreign revision freezes its account only, takes its parent's place among the heads, and leaves every other account's heads and identity alone |
| Store.IngestMakesKnown | crates/pangolin-store/src/vault.rs:7235-7592 | An accepted event is known afterwards; rows keep id, content and, once set, place |
| Store.Vault.IngestChainRevision | crates/pangolin-store/src/vault.rs:7235-7592 | The in-place operation is the specified one; refused events change nothing |
| Store.Vault.ClearFrozenFlag | crates/pangolin-store/src/vault.rs:3434-3545 | Thaws and moves the head pointer for a current head only; each error leaves the vault as it was |
| Store.Vault.AdvanceLastPulledBlock | crates/pangolin-store/src/vault.rs:7728-7746 | Forward moves only; a backward move or a block beyond i64 is an error that changes nothing |
| Store.Vault.PruneOrphanPendingMerges | crates/pangolin-store/src/vault.rs:4120-4206 | Drops exactly the account's stash rows whose target is not a head; fails for an unknown account |
| ChainLog.PullSplit | crates/pangolin-chain/src/mock.rs:199-233 | `(a, b]` then `(b, c]` is `(a, c]`, in order, for each vault |
| ChainLog.PullMembers | crates/pangolin-chain/src/mock.rs:212-226 | A pull holds exactly the vault's events in the window |
| MockChain.TxHashInjective | crates/pangolin-chain/src/mock.rs:166-170 | Different sequence numbers have different synthetic transaction hashes |
| ChainLog.LogStepsKeepForm | crates/pangolin-chain/src/base_sepolia.rs:524-575 | A block with any number of events keeps the log well formed: event i has sequence i, events stand in block and log-index order, none lies above the height |
| ChainLog.SamePlaceSameEvent | crates/pangolin-chain/src/base_sepolia.rs:536-575 | Block and log index identify an event of a well-formed log |
| MockChain.MockChainAdapter.Publish | crates/pangolin-chain/src/mock.rs:135-197 | Refused exactly when offline, badly signed or out of sequence numbers, changing nothing; otherwise appends one event in a new block and returns its anchor |
| MockChain.MockChainAdapter.PullSince | crates/pangolin-chain/src/mock.rs:199-233 | Filter then sort is the reference pull |
| MockChain.SortAfterPullIsIdentity | crates/pangolin-chain/src/mock.rs:228-231 | On a chronological log the sort changes nothing |
| MockChain.AnchorsLocateEvents | crates/pangolin-chain/src/mock.rs:235-254 | Every event is found again by its own transaction hash and log index |
| MockChain.FindAnswers | crates/pangolin-chain/src/mock.rs:235-254 | A location is answered with an event there, and with nothing exactly when there is none |
| MockChain.RunsAreAcceptedContents | crates/pangolin-chain/src/mock.rs:135-197 | Every run of publishes leaves exactly the accepted contents, in order, event i in block i + 1 |
| LogPull.PullSince | crates/pangolin-chain/src/base_sepolia.rs:485-582 | The window loop equals the recursive chunked pull for every node, error for error |
| LogPull.DecodeChunk | crates/pangolin-chain/src/base_sepolia.rs:524-575 | Foreign emitters are dropped, the rest decoded in order, the first failure decides |
| LogPull.NativeIsOwn | crates/pangolin-chain/src/base_sepolia.rs:527-529 | Exactly the logs whose emitter is the contract are decoded |
| LogPull.ForeignLogsDoNotMatter | crates/pangolin-chain/src/base_sepolia.rs:521-529 | Two nodes whose answers differ only by logs of other contracts, spliced in anywhere, give the same result |
| LogPull.EventsAreTheContracts | crates/pangolin-chain/src/base_sepolia.rs:521-575 | Every event of an Ok result stands for a log of the contract itself that the node answered |
| LogPull.DecodeAnswers | crates/pangolin-chain/src/base_sepolia.rs:530-575 | A log of the contract decodes exactly when it is complete, its sequence in range and its device id canonical, and then to its own fields |
| LogPull.ChunksAreOnePull | crates/pangolin-chain/src/base_sepolia.rs:503-581 | With a node that answers truly, whatever logs it holds, the window loop is Ok exactly when every window is answered and every log of the range decodes, and then one reference pull; if all are answered and some log does not decode, it is the decode error |
| LogPull.PullRefinesReference | crates/pangolin-chain/src/base_sepolia.rs:485-582 | With a node that answers, the adapter fails exactly when a log of the range does not decode, and otherwise agrees with the reference pull exactly when the lower bound is not the last u64, or the range or the vault's events do not reach that block |
| LogPull.WindowDecodes | crates/pangolin-chain/src/base_sepolia.rs:524-575 | The logs of a window decode to the reference pull of its blocks, or to the decode error exactly when one of them is malformed |
| Scenarios.LastBlockIsReadAgain | crates/pangolin-chain/src/base_sepolia.rs:503-508 | A concrete node and an event in the last u64 block that a pull from that block returns |
| TwoLevel.TwoLevelsAreOnePull | apps/cli/src/sync.rs:177-188 | The 8,000-block loop over the 9,000-block windows is Ok exactly when every window is answered and every log of the range decodes, and then one pull of the range, each event once and in order; answered with an undecodable log, it is the decode error |
| Merkle.Soundness | crates/pangolin-chain/src/recovery_client.rs:202-329 | An accepted proof for g against the built root means g is in the set, or two different byte strings with equal digest, one hashed by the builder and one by the verifier |
| Merkle.Descend | crates/pangolin-chain/src/recovery_client.rs:245-266 | The walk down the tree that finds the leaf or the collision |
| Merkle.Completeness | crates/pangolin-chain/src/recovery_client.rs:280-329 | A proof is built exactly when the leaf is among the leaves, so for every member with any duplicates, and each built proof is accepted |
| Merkle.SiblingsReachRoot | crates/pangolin-chain/src/recovery_client.rs:285-329 | Folding the siblings of any node of any level, odd carry-ups included, gives that level's root |
| Merkle.OrderIndependence | crates/pangolin-chain/src/recovery_client.rs:245-266 | The root is the same for every permutation of the addresses |
| Merkle.SortUnique | crates/pangolin-chain/src/recovery_client.rs:248 | Sorting 32-byte words has one result |
| Merkle.SmallerComesFirst | crates/pangolin-chain/src/recovery_client.rs:211-221 | A pair is hashed smaller node first, by big-endian value |
| Merkle.SortedLeavesAscend | crates/pangolin-chain/src/recovery_client.rs:246-248 | The sorted leaves ascend by big-endian value and are the leaves |
| Merkle.ThreeLeaves | crates/pangolin-chain/src/recovery_client.rs:249-264 | Of three leaves the third is carried up to the root unhashed |
| Bytes.LexIsBigEndian | crates/pangolin-chain/src/recovery_client.rs:211-221 | The order of byte arrays is that of their big-endian values |
| Merkle.ProofLength | crates/pangolin-chain/src/recovery_client.rs:285-313 | At most k siblings for up to 2^k addresses |
| Merkle.BuildGuardianRoot | crates/pangolin-chain/src/recovery_client.rs:245-266 | The level loop computes the recursive root of the sorted leaves |
| Merkle.BuildNextLevel | crates/pangolin-chain/src/recovery_client.rs:251-263 | One level: pairs hashed, an odd last node carried up |
| Merkle.BuildMembershipProof | crates/pangolin-chain/src/recovery_client.rs:280-315 | The loop returns the siblings on the path of the first matching leaf, None without one |
| Merkle.BuildProofLevel | crates/pangolin-chain/src/recovery_client.rs:291-311 | One level of it: the next level and the tracked node's sibling, if any |
| Merkle.VerifyMembershipProof | crates/pangolin-chain/src/recovery_client.rs:323-329 | Accepts exactly when the fold of the proof over the leaf is the root |
| Fees.GateCoversBroadcast | crates/pangolin-chain/src/chain_submit.rs:456-467 | What the gate passed can be paid at any later base fee that the broadcast accepts and that is not above the observed one, for estimates up to 1,250,000; after a failed, empty or zero fee history no base fee is excluded |
| Fees.GateBoundIsTight | crates/pangolin-chain/src/chain_submit.rs:544-547 | The estimate bound is exact |
| Fees.GateAnswers | crates/pangolin-chain/src/balance_check.rs:276-301 | The gate passes exactly the balances that cover three revisions at twice the observed base fee plus the tip, at most the cap; at the cap after a failed, empty or zero fee history |
| Fees.BalanceStateAnswers | crates/pangolin-chain/src/balance_check.rs:317-336 | Sufficient exactly when the full balance covers the estimate; both amounts carried, cut off at u128 |
| Fees.PreFlightAnswers | crates/pangolin-chain/src/base_sepolia.rs:662-698 | No signer, no check; else the exact cost of the queue and the balance cut off at u128 |
| Fees.GasLimitBounds | crates/pangolin-chain/src/chain_submit.rs:544-547 | The limit is at most 1.2 times the estimate, and covers it exactly up to a tenth of the u64 range |
| Fees.BatchPreFlightIsExact | crates/pangolin-chain/src/base_sepolia.rs:678-695 | For every u64 queue length and balance the clamped comparison decides the unclamped question, and the total stays below 2^128 |
| Fees.EstimateIsExact | crates/pangolin-chain/src/balance_check.rs:286-301 | No saturation ever happens in the estimate |
| Broadcast.BroadcastWithRetries | crates/pangolin-chain/src/chain_submit.rs:423-577 | The loop, for every node, does the specified actions and returns the specified outcome |
| Broadcast.Attempt | crates/pangolin-chain/src/chain_submit.rs:433-573 | One pass through the loop body, branch for branch |
| Broadcast.RunAnswers | crates/pangolin-chain/src/chain_submit.rs:430-577 | For every node and outcome: the loop ends with it exactly when the attempts before the k-th, k at most 3, failed transiently or by a nonce collision and the k-th ends with it, read off the node's answers alone; so transient failures are retried, and an accepted send after them is the outcome |
| Broadcast.VerdictAnswers | crates/pangolin-chain/src/chain_submit.rs:433-573 | One attempt: which answers end the run and how, which lead to another attempt, and after which of those it pauses |
| Broadcast.AttemptCalls | crates/pangolin-chain/src/chain_submit.rs:433-573 | The calls an attempt makes, in order, up to the one that fails, and the transaction it sends |
| Broadcast.RunPauses | crates/pangolin-chain/src/chain_submit.rs:848-857 | The pauses are 250 ms and 1,000 ms after transiently failed attempts and none after nonce collisions |
| Broadcast.BroadcastIsBounded | crates/pangolin-chain/src/chain_submit.rs:430-577 | At most three sends, each with the nonce fetched in its own attempt and a fee within the cap; nothing after an accepted send; at most 1,250 ms of backoff; `NonceUnresolvable` only after the third attempt |
| Broadcast.SendsAreAffordable | crates/pangolin-chain/src/chain_submit.rs:681-702 | Gate and loop together: no transaction that a run sends can cost more than the balance the gate saw, under the gate's conditions |
| Broadcast.RunCounts | crates/pangolin-chain/src/chain_submit.rs:848-857 | The bounds on sends, backoff and reported attempts, from any attempt on |
| Signing.BodyInjective | crates/pangolin-chain/src/signing.rs:106-140 | The 161-byte body is injective in all six fields |
| Signing.BodyLayout | crates/pangolin-chain/src/signing.rs:106-140 | Where each field stands in the 161 bytes |
| Signing.CanonicalHashBinds | crates/pangolin-chain/src/signing.rs:144-165 | Equal canonical hashes mean equal contents, or two different hashed byte strings with equal digest |
| Signing.BuiltVerifies | crates/pangolin-chain/src/signing.rs:177-232 | A built revision verifies, given only that what a key signs verifies |
| Signing.VerifiedBinds | crates/pangolin-chain/src/signing.rs:220-232 | A verified revision has a canonical device id and a signature of its own canonical hash; under a binding scheme that signature verifies for no other content of the device, or a collision is at hand |
| Signing.ComputeCanonicalHash | crates/pangolin-chain/src/signing.rs:144-165 | The buffer code hashes domain, then body |
| Signing.EncodeCanonicalBody | crates/pangolin-chain/src/signing.rs:106-140 | The moving-offset writes produce exactly the body |
| Frames.StreamRoundTrip | apps/native-messaging-host/src/frame.rs:44-89 | Reading back any list of written frames gives the list, then a clean end |
| Frames.WrittenIsRead | apps/native-messaging-host/src/frame.rs:44-89 | A written frame is read back as its body, whatever follows |
| Frames.ReadIsWritten | apps/native-messaging-host/src/frame.rs:44-63 | A frame that was read is the front of the stream, byte for byte |
| Frames.ParseAnswers | apps/native-messaging-host/src/frame.rs:44-63 | What a read answers, byte by byte: length little-endian, above 1 MiB refused, body of that length or an error |
| Frames.RelayedIsLongest | apps/native-messaging-host/src/main.rs:83-94 | No longer prefix of the input consists of whole valid frames |
| Frames.RelayedIsPrefix | apps/native-messaging-host/src/main.rs:83-94 | What a relay emits is a prefix of what it read |
| Frames.Relay | apps/native-messaging-host/src/main.rs:83-94 | The loop emits exactly the frames read, as far as the output takes them, and ends cleanly exactly when all went out and the input ended before or inside a length prefix |
| Frames.RelayBoth | apps/native-messaging-host/src/main.rs:79-113 | However the two tasks are interleaved, the one that ends has put out all it could and decides the result, and the dropped one has put out a prefix |
| Frames.RelayFrame | apps/native-messaging-host/src/main.rs:83-94 | One pass of a relay loop leaves what the relay still has to put out, and its result, as they were |
| Frames.CleanEnd | apps/native-messaging-host/src/main.rs:83-94 | A relay ends cleanly exactly when its output takes all frames and fewer than four bytes are left over |
| Frames.ReadFrame | apps/native-messaging-host/src/frame.rs:44-63 | Reads one frame, or fails with the error of the part that is missing or too long |
| Frames.WriteFrame | apps/native-messaging-host/src/frame.rs:70-89 | Writes prefix and body, or as much as the output takes, or refuses an oversize body and writes nothing |
| Frames.RunHost | apps/native-messaging-host/src/main.rs:51-119 | By what the first frame is and how the handshake answers it: unless it is complete, accepted, answered in full and the channel opens, the desktop gets nothing, the exit code is 1 and stdout gets the reply's and the error frame's bytes as far as it takes them; else, for every interleaving, the desktop gets a prefix of the frames behind the first one and stdout the reply and a prefix of the desktop's frames, and the relay that ended has passed on all it could and decides the exit code |
| Hex.Parse32ByteHex | apps/cli/src/cli.rs:1176-1193 | Accepts exactly the strings of 64 hex digits, with the value they denote |
| Hex.BytesToHex | crates/pangolin-chain/src/base_sepolia.rs:701-711 | Writes 64 lower-case digits that denote the word |
| Hex.HexRoundTrip | apps/cli/src/cli.rs:1176-1193 | Parsing an encoded word gives it back |
| Hex.OneSpelling | crates/pangolin-chain/src/base_sepolia.rs:701-711 | A word has one spelling up to letter case, so encoding a parsed string gives it in lower case |
| Hex.DigitsInOrder | apps/cli/src/cli.rs:1176-1193 | The sixteen digits and their values, in either case when read and lower case when written |

## Hypotheses worth knowing

- `Recovery.Recoverable` asks that the checkpoint has not skipped the merge and that no row without an anchor holds the
  merge's body or id. `Kills.KilledIsRecoverable` derives both for every kill; the second could only fail if a local edit had
  sealed to the very bytes of the merge.
- `Based` asks that rows with an anchor stand for log events and that the log is in block and log-index order; `Sane` asks
  besides that the checkpoint is not above the height. A pull with `--until-block` above the head breaks the last
  (`Overrides.UntilAboveTheHeadLoses` says what that costs).
- A chain step lands a block with any number of events, and a publish lands anywhere in such a block, with any transaction
  hash. Log indices within a block strictly increase.
- `LogPull.Honest` is the meaning of "the node answered": all of the contract's own logs of the window for the vault, malformed
  ones included, in order, with logs of other contracts spliced in anywhere (`LogPull.Spliced`). Without it the loop's
  result is still `PullSinceSpec` of whatever the node says.
- `Pulls.IdsBindAccounts` includes the foreign key from revisions to account identities.

## Left out

- The `revoked` and `superseded_by` marks, the tombstone bit, `created_at` and the order of a head list: heads are a set of unrevoked, unsuperseded revisions.
- SQLite errors, session expiry and a locked vault; failures of `prune_orphan_pending_merges` and `clear_pending_merge` other than an unknown account, which the source only logs.
- Sealing and opening payloads: re-sealing yields given bytes or fails, and the plaintext in them is not modelled.
- The order in which a `HashSet` of touched accounts is pruned and swept: the model takes first-touch order.
- Reorgs, finality and the V2 sync, and the publish engine (`publish_all`, the offline queue): separate components.
- A transaction that lands after its publish call has ended; at-most-once at the level of the mempool.
- keccak256, Ed25519, AEAD: parameters. The signature check of an ingested event is the device-id shape check that the source makes.
- Receipts, revert reasons and error-message classifiers: the classification is an input.
- The near-copies of the broadcast loop (redemption, ETH transfer, recovery calls).
- Frames.RunHost: a flush that fails after all bytes were written, and reading errors other than the end of a stream, are not modelled.
- Configuration, keystore, UI, the Tauri commands and the EVM key derivation: no property that spans operations.
- Pulls.PullSucceedsIff: covers ranges with something to pull; with the head at or below the start the call returns at once.
