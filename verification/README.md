# ducklake-serverless: a verified model

ducklake-serverless keeps a versioned lake in one object-store bucket, with no server. A commit is the create-only PUT of
an immutable marker `roots/<generation>`; large payloads travel as manifests over content-addressed packs; a garbage
collector retires old payloads and unreferenced packs while writers go on writing. This project models those three layers
and proves what they promise, over every interleaving of any number of writers and collectors.

| file | what it models |
|---|---|
| `Lake.dfy` | the bucket, the writers and the collectors as one step machine; one event is one store operation |
| `LakeCommit.dfy`, `LakeLedger.dfy`, `LakePacks.dfy` | the three inductive invariants: commits and retention, the tombstone ledger, the packs |
| `LakeTheorems.dfy` | what follows for every finite run |
| `LakeBound.dfy` | `gap + cycle <= grace` is exactly what pack safety takes |
| `LakeCalm.dfy`, `LakeRace.dfy` | how far a collector may fall behind: exactly `retain` generations |
| `LakeSweep.dfy` | cold packs over a chain of ledgers: when their deletion comes, and how much one pass may delete |
| `LakeTransport.dfy` | the layers joined: build, publish, collect, reconstruct |
| `LakeActors.dfy`, `LakeBucket.dfy` | the bucket as one participant sees it, with everyone else acting between any two of its operations |
| `Commit.dfy`, `Session.dfy`, `Collector.dfy` | the commit loop, a transaction, and a whole collection pass as imperative code over that bucket: every store operation is an event of the machine |
| `Rebase.dfy`, `PackSweep.dfy` | the two pure decisions: replay or abort, and what a collection does to each pack |
| `Chunk.dfy`, `BuildManifest.dfy`, `Publish.dfy`, `PackStore.dfy`, `Windows.dfy`, `PeakWitness.dfy`, `Reconstruct.dfy`, `RangeReader.dfy` | manifests, building them, uploading packs, reading back whole or by range |
| `Root.dfy` | head discovery over that bucket, while its markers keep growing |
| `Lease.dfy` | the maintenance lease, as a step machine and as an object |
| `ObjectStore.dfy` | the store contract: conditional writes and etags (If-None-Match and If-Match as in sections 13.1.1 and 13.1.2 of RFC 9110) |

## How to read the model

- **Hash.** A digest is a wrapper around its preimage, so equal digests mean equal bytes. Programs only compute and compare
  digests; specifications may look inside.
- **Time** is a natural number on the store's clock. Listings, HEADs and clock probes read it; it moves only by a tick.
- **Ambiguous and late PUTs.** A create-only PUT is put on the wire by one event and lands by another, at any later time or
  never. A writer that gets no answer asks with a GET, as the program does.
- **Collectors** never consult the lease in the step machine: losing it changes nothing, or stops the pass (`Halt`).
- **Programs.** The imperative parts run over a bucket whose history is a run of the machine. On a `faulty` bucket any
  request of the commit programs may fail for no reason; otherwise an error names the generation, and the manifest or the
  pack of it, that is missing. A collection pass cut short by a failing request is a `Halt` of the machine. On a `quiet`
  bucket nobody else acts and no request fails; clauses that start with `b.quiet` say what a call then does, all else holds
  with everyone else acting in between.
- **The hint** is one number that anybody may overwrite or lose; `hints` records those that were used. A generation "was the
  head" if it was the last marker in some state since the call began (`Root.HeadSince`); the one exception is a head resolution
  from a usable hint 2048 generations behind or more.
- **History.** `firstPut`, `cycles` and `clean` only record what happened; no guard reads them. `landed` records which
  uploads ever landed, which is what a success response tells their writer.
- **Engine.** A statement is a deterministic function on payload bytes (`Config.exec`) plus its class.

## What the proofs found

1. **Pack safety needs an assumption nobody states.** `_resolve_orphan` treats a payload that has vanished as nothing to
   mark. If that payload's marker landed after this collector looked for it, and a rival collector swept the payload before
   this one read it, its packs go unmarked although newer generations inherit them. That takes more than `retain`
   generations landing between the two reads (`LakeCalm.SkippingTakesAWindow`), and packs are safe exactly if that many
   never do: `LakeRace.LagBoundIsExact` proves both directions, for every configuration. The lease does not exclude it: the
   rival took the lease first, stalled past its ttl before it resolved the head, and renews only after every 50th deletion
   (src/ducklake_serverless/gc.py:200-206); the collector that loses the pack took the lease over meanwhile, so its own
   renewal (src/ducklake_serverless/gc.py:626) succeeds.
2. **The time bound is exact.** Let every manifest land within `gap` of its refreshes and every collection get from its
   listing to its recheck within `cycle`. Packs of the window are safe in all such runs if and only if
   `gap + cycle <= grace` (`LakeBound.SafetyBoundIsExact`).
3. **One grace, not two, for a pack that already has a tombstone.** The comment at src/ducklake_serverless/chunk.py:329-334
   says that losing a pack takes a stall of more than twice the grace and a race between HEAD and DELETE. A pack left by
   an earlier upload can carry a tombstone before its writer makes its first move; then a stall of one grace and one unit
   in all, and no such race, is enough (`LakeBound.OneGraceNotTwo`, for every grace). For packs born recently two graces
   do hold (`Lake.NewlyBorn`, `LakeTheorems.TwoGracesBeforeDeletion`).
4. **`reconstruct` holds more than its window of 32 packs.** While a pack is fetched again, the memo it replaces is still
   referenced: up to window + 2 bodies, and more than window + 1 exactly if an entry refers back, during a full window, to a
   pack other than the one in the memo (`Windows.PeakBound`). While a window loads, the previous one is still referenced: up
   to two windows and the memo, that is 65 bodies (`Windows.LoadingBound`). `PeakWitness.BothReached` is a manifest of 98
   entries that reaches both; `Reconstruct.WriteWindows` holds exactly what these functions of the manifest say.
5. **Two errors leave a marker create undecided.** Running out of attempts (`UnknownOutcome`), and a request that fails while
   the create is still in flight, such as the GET that should settle it (`Raised` with a pending payload). Every other create
   of a run is dead when `Commit.RunCommit` returns, whatever it returns.
6. **Without failing requests a commit stops only on generations outside the retention window.** That is so of a base that
   lost its manifest, and in timely runs of one that lost a pack and of each of the `max_attempts` heads that vanished; unless
   its hint was far behind, `retain` generations landed during the call (`Commit.OnlyTheSlowAreStopped`). The one other stop is
   the end of the key format, at generation 99,999,999.
7. **Head resolution on a quiet chain depends on the lag of the hint alone.** It ends at a gap if and only if that lag takes
   no more probes than the cap, and its result is the head if and only if the head is reached within the cap, which takes
   one or two probes less (`Root.ResolveHead`, `Root.NoticingTakesTwo`). A missing or absurd hint is always good enough. While
   others commit, the result was the head at some moment of the call, unless the hint was 2048 generations behind or more.
8. **A pack that stays cold is deleted by the first committed cycle that comes more than a grace after its stamp**, not
   earlier and not later (`LakeSweep.OverdueIsCondemned`), and one pass over ten or more packs deletes at most two fifths of
   them (`LakeSweep.BreakerHolds`).
9. **The lease excludes distinct holder ids only** (`LeaseProtocol.SameHolderTakesOver`), and only while nothing unparsable
   is written over it (`LeaseProtocol.RubbishEndsExclusion`).

## Model

| member | source | states |
|---|---|---|
| LakeTheorems.RunKeepsInv | src/ducklake_serverless/commit.py:205-353 | the commit and ledger invariants hold in every state of every run, for any number of writers and collectors |
| LakeCommit.StepKeepsInv | src/ducklake_serverless/commit.py:205-353 | every event, including late landings, crashes and sweeps, keeps the commit invariant |
| LakeLedger.StepKeepsInv | src/ducklake_serverless/gc.py:534-683 | every event keeps the ledger chain, the age of its rows and each collector's books |
| LakePacks.StepKeepsInv | src/ducklake_serverless/gc.py:569-683 | every timely event keeps each needed pack present and out of every collector's reach |
| LakeCommit.LandExtendsHead | src/ducklake_serverless/root.py:73-80 | a marker create can only land as the next generation, on a payload that is there |
| LakeTheorems.MarkersDenseAndForever | src/ducklake_serverless/root.py:16-20 | markers have no gap, and a decided generation never changes or disappears |
| LakeTheorems.MarkerLandsOnPayload | src/ducklake_serverless/commit.py:231-262 | however late a marker lands, its payload object is present at that moment |
| LakeTheorems.WindowIsRetained | src/ducklake_serverless/gc.py:168-210 | no interleaving of collectors sweeps a payload of the last `retain` generations |
| LakeTheorems.ExactlyOnce | src/ducklake_serverless/commit.py:205-262 | one run of the commit loop owns at most one generation |
| LakeTheorems.AcknowledgedForever | src/ducklake_serverless/commit.py:356-374 | a returned result stays true in every later state |
| LakeTheorems.AbortedNever | src/ducklake_serverless/commit.py:213-214 | after a conflict abort none of the run's payloads is or becomes a generation |
| LakeTheorems.SerialHistory | src/ducklake_serverless/session.py:298-308 | each generation is its winner's changeset run on the previous one; nobody twice, acknowledged runs included, aborted ones not |
| LakeTheorems.OnlyBlindAppendsReplay | src/ducklake_serverless/rebase.py:26-68 | under the default policy a rebased run consists of blind appends only |
| LakeTheorems.LedgerIsOneChain | src/ducklake_serverless/gc.py:546-566 | committed ledgers form one chain, apart from corrupt replacement; no two cycles pass on one version |
| LakeTheorems.DeletesAreFenced | src/ducklake_serverless/gc.py:609-649 | every delete belongs to a fenced cycle that read the pack's row from the version before it; none follows an absent or corrupt ledger |
| LakeTheorems.TombstoneMeaning | src/ducklake_serverless/gc.py:455-484 | a row goes back to the cycle that stamped it, and every commit since listed the pack cold |
| LakeLedger.RowMeansColdSince | src/ducklake_serverless/gc.py:627-642 | the same statement about a chain of ledgers |
| LakeSweep.StampStays | src/ducklake_serverless/gc.py:635-649 | a pack found cold by every cycle since its stamp keeps that stamp until a cycle comes more than a grace later, which drops the row |
| LakeSweep.OverdueIsCondemned | src/ducklake_serverless/gc.py:468-470 | in every run: a committed cycle condemns a pack found cold ever since its stamp exactly if it comes more than a grace after it |
| LakeSweep.BreakerHolds | src/ducklake_serverless/gc.py:473-478 | in every run one pass over ten or more packs deletes at most two fifths of its listing |
| LakeTheorems.TwoGracesBeforeDeletion | src/ducklake_serverless/gc.py:67-73 | a pack never disappears before two graces have passed since it first existed |
| LakeTheorems.MarkSetInduction | src/ducklake_serverless/gc.py:223-233 | a pack of generation g that an earlier a lacks was re-PUT by the winner of some generation in (a, g] |
| LakeTheorems.PackSafety | src/ducklake_serverless/gc.py:569-683 | every pack of every generation in the window is present in every state of every timely run |
| LakeTheorems.WindowReadsBackHistory | src/ducklake_serverless/gc.py:569-683 | every generation in the window reads back as the fold of its winners' changesets |
| LakeCalm.SkippingTakesAWindow | src/ducklake_serverless/gc.py:379-392 | skipping a committed payload as a vanished orphan takes more than `retain` generations between its marker read and its payload read |
| LakeCalm.CalmRunIsSafe | src/ducklake_serverless/gc.py:569-683 | deliveries and cycles in time, and no collector that far behind: every pack of the window is there |
| LakeRace.LosesHead | src/ducklake_serverless/gc.py:379-392 | for every configuration, a run in time with one generation more than that, in which the head loses its pack |
| LakeRace.LagBoundIsExact | src/ducklake_serverless/gc.py:344-392 | packs are safe whenever at most n generations land between the two reads, if and only if n <= retain |
| LakeBound.SafetyBoundIsExact | src/ducklake_serverless/gc.py:67-83 | timely runs never lose a pack of the window if and only if gap + cycle <= grace, for every configuration |
| LakeBound.OneGraceNotTwo | src/ducklake_serverless/chunk.py:329-334 | for every grace, a run in which a writer that stalls one grace plus one unit in all, without a HEAD-DELETE race, loses its pack |
| LakeTransport.BuildPublishReconstruct | src/ducklake_serverless/chunk.py:192-463 | if the base reconstructs, the new manifest reconstructs to the payload byte for byte |
| LakeTransport.ChainReconstructs | src/ducklake_serverless/chunk.py:192-463 | the same along any chain of builds, from what was uploaded up to each |
| LakeTransport.BuildIsAPlan | src/ducklake_serverless/commit.py:298-304 | what the build produces on a fetched head satisfies the step machine's guard for publishing |
| LakeTransport.WindowReconstructs | src/ducklake_serverless/chunk.py:385-463 | every chunked generation of the window reconstructs, in every state of every timely run |
| Rebase.ReplayCondition | src/ducklake_serverless/rebase.py:26-68 | exactly which changesets replay, for every policy and attempt |
| Rebase.ReplayIsMonotone | src/ducklake_serverless/rebase.py:37-68 | adding a statement never turns an abort into a replay |
| PackSweep.DecidePackSweep | src/ducklake_serverless/gc.py:412-484 | the loops reach the plan given by one set expression per action; the five lemmas below say what that plan is |
| PackSweep.LastRowCounts | src/ducklake_serverless/gc.py:438 | a pack listed more than once has the time of its last row |
| PackSweep.WhenThePlanRefuses | src/ducklake_serverless/gc.py:433-478 | refuses for missing references exactly if one is not listed, and for mass deletion exactly if at least ten packs are listed and those that are unreferenced, old, and carry a row a grace old exceed the fraction; a plan that goes ahead stays within it |
| PackSweep.WhatThePlanDoes | src/ducklake_serverless/gc.py:458-471 | each listed pack: tombstoned, deleted, resurrected or left aging, by its age, its references and its row |
| PackSweep.WhatTheLedgerHolds | src/ducklake_serverless/gc.py:631-649 | the new ledger holds exactly the cold packs that are not deleted; those that had a row keep its time |
| PackSweep.DeletionNeedsTwoCycles | src/ducklake_serverless/gc.py:423-429 | a plan deletes only unreferenced, old packs with a row a full grace old; actions are disjoint; an empty ledger deletes nothing |
| PackSweep.NewCold | src/ducklake_serverless/gc.py:631-649 | the dictionary edits produce the ledger that `WhatTheLedgerHolds` describes |
| Collector.SweepPayloads | src/ducklake_serverless/gc.py:187-208 | every listed key is kept or deleted, by the retention floor; the head's payload is kept; the lease is renewed after every 50th deletion and only a refused renewal stops early |
| Collector.ResolveAgrees | src/ducklake_serverless/gc.py:344-364 | classifying a retained key marker first moves the collector exactly as the machine's step does |
| Collector.ResolvePayloads | src/ducklake_serverless/gc.py:329-364 | the loop marks what the machine marks; an unreadable committed manifest refuses |
| Collector.ReheadMissing | src/ducklake_serverless/gc.py:602-607 | a committed reference still missing afterwards was absent at some moment of the pass |
| Collector.LoadTombstones | src/ducklake_serverless/gc.py:534-543 | rows and reference are what the ledger held at one moment of the pass, the clock is of a later one; absent and corrupt ledgers read as no tombstones |
| Collector.CommitTombstones | src/ducklake_serverless/gc.py:546-566 | a successful commit leaves exactly the decided rows in the ledger; a lost fence deletes nothing |
| Collector.DecideAndDelete | src/ducklake_serverless/gc.py:609-654 | the lease is renewed before the ledger is written, and the ledger is written before any pack is deleted; an error names its cause: the plan, a lost fence, or a refused renewal |
| Collector.DeleteColdPacks | src/ducklake_serverless/gc.py:657-683 | every candidate gets a second look against one new reading of the clock, and is deleted exactly if it is there and still older than the grace; the lease is renewed after every 50th deletion and only a refused renewal stops early |
| Collector.SweepPacks | src/ducklake_serverless/gc.py:569-654 | an error other than a refused renewal removes no pack and names its cause in the bucket; success means every condemned pack got its second look, and reports exactly the packs removed |
| Collector.Collect | src/ducklake_serverless/gc.py:160-215 | a whole pass from head resolution to the last delete is a piece of a run: it aims at a head of the call, the window's payloads are present afterwards, every expired payload was deleted and every condemned pack looked at again; each error names its cause |
| LakeBucket.Bucket.Play | src/ducklake_serverless/objectstore.py:476-482 | one store operation is one event: the history of the bucket is a run of the machine |
| Commit.PlanPublish | src/ducklake_serverless/commit.py:294-307 | the attempt stands for the work, is chunked exactly by the threshold, and is built on the base's manifest, if it has one, at the chunk size the source chooses; without failing requests it stops only if the manifest of a chunked base is gone or no generation is left, and says so |
| Commit.PlanDedups | src/ducklake_serverless/commit.py:297-299 | what such a plan ships: the base pins the chunk size if the payload fits; chunks the base has on its grid are entries of the base, the novel packs hold exactly the others, in file order, no pack closed early; unchanged work ships nothing |
| Commit.PublishPacks | src/ducklake_serverless/commit.py:302-303 | when the payload goes out every novel pack was uploaded and refreshed and every inherited one seen; without failing requests it stops only if a pack of the base is gone, and names it |
| Commit.PutPayload | src/ducklake_serverless/commit.py:308-318 | landed, or this payload is given up for good, by a retry or by an error |
| Commit.PublishResolved | src/ducklake_serverless/commit.py:275-318 | published means landed and standing for the work; giving up happens exactly on the last attempt; an error names what the base lacks; undisturbed it publishes |
| Commit.CreateMarkerResolving | src/ducklake_serverless/commit.py:321-353 | winning and losing are facts about the markers; at most max(1, m - a) creates are sent, and running out took them all; a failing request leaves this one create undecided; undisturbed one create wins |
| Commit.Advance | src/ducklake_serverless/commit.py:220-272 | one attempt further: a result, an abort that is due, an unknown outcome, a replay onto a committed head, or an error that names its cause |
| Commit.FetchCurrentBase | src/ducklake_serverless/session.py:310-330 | a generation that was the head during the call, or as many such heads as there are attempts, each unreadable at some moment of the call; undisturbed it is the head, if that can be fetched and the hint finds it |
| Commit.ReplayOntoHead | src/ducklake_serverless/commit.py:224-228 | after a loss the work is re-derived on a head found after the loss, and targets its successor |
| Commit.RunCommit | src/ducklake_serverless/commit.py:205-217 | terminates; says what is true of every create of the run; attempts <= max(1, m), marker creates <= m(m+1)/2; commits the first target or the successor of a head found during the call; an error names its cause: a request, the manifest or a pack that the base of that attempt lacks, no generation left, or the heads that vanished; undisturbed it commits the target with one create |
| Commit.OnlyTheSlowAreStopped | src/ducklake_serverless/session.py:327-331 | without failing requests, a run of the loop stops only on generations that have left the retention window, if the run is timely, and unless its hint was far behind only if `retain` generations landed meanwhile; a missing manifest always means that |
| Commit.OutcomeStandsForever | src/ducklake_serverless/commit.py:205-217 | what an outcome said, errors included, is true in every later state of the run |
| Commit.BudgetIsTriangular | src/ducklake_serverless/commit.py:343-353 | the closed form of the marker budget |
| Commit.Reexecute | src/ducklake_serverless/session.py:305-307 | replaying statement by statement computes the changeset |
| Session.Transaction.Sql | src/ducklake_serverless/session.py:93-98 | the recording always reproduces the work copy |
| Session.Transact | src/ducklake_serverless/session.py:253-330 | a committed transaction is exactly its recorded statements applied to the previous generation, which was the head during the call; the script is skipped only if no head could be fetched; undisturbed, on a head that can be fetched and that the hint finds, it commits the next generation at the first attempt and moves the hint there |
| Chunk.SliceAtStart | src/ducklake_serverless/chunk.py:126-130 | entry i of a concatenation sits at the sum of the lengths before it |
| BuildManifest.ChooseChunkSize | src/ducklake_serverless/chunk.py:175-189 | the least doubling of the starting size that fits in MAX_ENTRIES chunks |
| BuildManifest.BasePinsSize | src/ducklake_serverless/chunk.py:178-186 | a base under which the payload fits pins the chunk size |
| Chunk.FixedOffsets | src/ducklake_serverless/chunk.py:239-240 | chunk i starts at i * size and only the tail is shorter |
| BuildManifest.IndexFromBase | src/ducklake_serverless/chunk.py:170-172 | the dedup index holds exactly the base's digests, each with the last entry of the base that has it |
| BuildManifest.FlushPack | src/ducklake_serverless/chunk.py:215-237 | every waiting entry is rewritten to its slice of the new pack and no other entry changes |
| BuildManifest.BuildManifest | src/ducklake_serverless/chunk.py:192-264 | every chunk is the base's entry or a slice of a shipped pack; the packs hold the novel chunks in file order, named by their bytes, each within the target or one chunk, none closed before the next chunk would exceed the target; bytes shipped are counted exactly |
| BuildManifest.FewPacks | src/ducklake_serverless/chunk.py:242-243 | so n packs ship at least (n - 1) / 2 times the target |
| BuildManifest.BuiltMeansPayload | src/ducklake_serverless/chunk.py:126-131 | on a good base the manifest is well formed and stands for the payload |
| BuildManifest.BuiltOnBaseOnly | src/ducklake_serverless/chunk.py:15-21 | every pack is novel or the base's, every novel pack is referenced, no placeholder survives |
| BuildManifest.OnlyFreshChunksShip | src/ducklake_serverless/chunk.py:201-204 | of two builds in a row, the second ships exactly the chunks the first payload has at none of its chunk offsets; the same payload again ships nothing |
| Publish.PutPack | src/ducklake_serverless/chunk.py:267-289 | success means the pack was present at some moment since the call began; failure means every attempt was used up and none was acknowledged; undisturbed one PUT succeeds |
| Publish.VerifyPacks | src/ducklake_serverless/chunk.py:308-374 | success means every pack was seen and every novel one re-PUT since the call began, by one acknowledged PUT each; no digest ever gets foreign bytes; errors name their cause; undisturbed only a corrupt map or an absent base pack fails |
| Reconstruct.FirstUse | src/ducklake_serverless/chunk.py:404-409 | the ordering is that of first use, and position inverts it |
| Reconstruct.Fetch | src/ducklake_serverless/chunk.py:411-416 | a fetched body is the pack's own, whatever the bucket held |
| Windows.ServedHere | src/ducklake_serverless/chunk.py:431-436 | which window an entry is written in, and when it refers back, read off the manifest |
| Windows.PeakBound | src/ducklake_serverless/chunk.py:377-382 | at most window + 2 bodies while writing, and more than window + 1 exactly when an entry refers back, during a full window, to a pack other than the memo's |
| Windows.LoadingBound | src/ducklake_serverless/chunk.py:420-423 | at most two windows and one body while a window loads, and that many exactly when a full window loads over another and a memo |
| PeakWitness.BothReached | src/ducklake_serverless/chunk.py:377-382 | a well-formed manifest that reaches both maxima |
| Reconstruct.Serve | src/ducklake_serverless/chunk.py:426-439 | the body of an entry is its pack's own; a refetch happens exactly when the manifest says so and holds the old memo meanwhile |
| Reconstruct.WriteWindow | src/ducklake_serverless/chunk.py:424-448 | entries are written once each, in order, up to the first one whose pack comes in a later window; memo, refetches and maximum held are those of the manifest |
| Reconstruct.WriteWindows | src/ducklake_serverless/chunk.py:418-448 | no entry is left after the last window; each pack is fetched once, plus once per refetch; the maxima held while writing and while loading are those of the manifest |
| Reconstruct.Reconstruct | src/ducklake_serverless/chunk.py:385-463 | the file is the payload the manifest was hashed from, or there is an error and no file; on a stable bucket success exactly when possible, and errors name their cause |
| Reconstruct.WellFormedIsHealthy | src/ducklake_serverless/chunk.py:385-463 | an unharmed bucket reconstructs every well-formed manifest |
| RangeReader.RunBytes | src/ducklake_serverless/fsspec_fs.py:168-191 | a run of entries contiguous in one pack is one stretch of the file |
| RangeReader.ChunkedReader.Open | src/ducklake_serverless/fsspec_fs.py:133-146 | opens exactly when the entries tile the manifest's total size |
| RangeReader.BisectRight | src/ducklake_serverless/fsspec_fs.py:162 | the number of leading elements not above x |
| RangeReader.ChunkedReader.Coalesce | src/ducklake_serverless/fsspec_fs.py:169-180 | the maximal contiguous run that starts before the end of the read |
| RangeReader.ChunkedReader.VerifyCoveredChunks | src/ducklake_serverless/fsspec_fs.py:199-213 | passes exactly when every fully covered chunk has its digest |
| RangeReader.ChunkedReader.ReadRange | src/ducklake_serverless/fsspec_fs.py:149-197 | the slice of the payload, asking for exactly its bytes, with one request per contiguous stretch; on any bucket, covered chunks are verified; negative offsets fail |
| RangeReader.VerifiedMeansPayload | src/ducklake_serverless/fsspec_fs.py:129-130 | a successful read agrees with the payload on every chunk it fully covers, whatever the bucket did |
| RangeReader.CatFile | src/ducklake_serverless/fsspec_fs.py:433-453 | the language's own slice for all missing and negative bounds |
| Root.ResolveMarker | src/ducklake_serverless/root.py:83-93 | one GET decides WON, LOST or ABSENT |
| Root.OutcomeIsFinal | src/ducklake_serverless/root.py:5-12 | WON and LOST are permanent, and WON at one generation excludes it at every other |
| Root.GallopDiscover | src/ducklake_serverless/root.py:126-169 | between the head at the start and the head at the end; at most 2 floor(log2(head + 1)) + 3 reads when quiet |
| Root.ProbesBound | src/ducklake_serverless/root.py:189-213 | catching up over distance d takes at most d / 1024 + 68 probes |
| Root.NoticingTakesTwo | src/ducklake_serverless/root.py:189-213 | standing on the head is noticed after one or two probes more |
| Root.ProbeForward | src/ducklake_serverless/root.py:189-213 | a committed marker; the head at the last read when it ended at a gap, and 2048 generations further on otherwise; when quiet, ends at a gap if and only if the cap suffices, and is the head if and only if the head is reached within the cap |
| Root.ResolveHead | src/ducklake_serverless/root.py:172-213 | always a committed marker that was the head during the call, unless a usable hint was 2048 generations behind or more; on a quiet chain of any length the lag of the hint alone decides, by exact conditions, whether it ends at a gap and whether it is the head; no usable hint always suffices; reads are logarithmic in the head plus lag / 1024 |
| LeaseProtocol.OnlyFreeLeasesAreTaken | src/ducklake_serverless/lease.py:61-73 | in every run, when a write of a lease object lands, however late, the lease is free for its holder |
| LeaseProtocol.StepKeepsInv | src/ducklake_serverless/lease.py:134-186 | every step, late landings included, keeps handovers legal, every etag its owner's own write, and every request on the wire harmless |
| LeaseProtocol.AtMostOneHolds | src/ducklake_serverless/lease.py:134-169 | at most one lease object holds the current etag |
| LeaseProtocol.SupersededIsPowerless | src/ducklake_serverless/lease.py:160-186 | a superseded holder can neither renew nor alter a successor by releasing, now or by a late request |
| LeaseProtocol.LiveIntervalsDisjoint | src/ducklake_serverless/lease.py:11-21 | live intervals of distinct holder ids never overlap on the store's clock, as long as the write right after a holder's last is not rubbish |
| LeaseProtocol.RubbishEndsExclusion | src/ducklake_serverless/lease.py:189-199 | after rubbish over a live lease any newcomer can take over at once |
| LeaseProtocol.SameHolderTakesOver | src/ducklake_serverless/lease.py:70-73 | with equal holder ids a live lease is taken over |
| LeaseProtocol.Lease.Acquire | src/ducklake_serverless/lease.py:134-158 | yes iff it now holds; no wrote nothing; undisturbed, succeeds exactly when the lease is free for this holder |
| LeaseProtocol.Lease.Renew | src/ducklake_serverless/lease.py:160-169 | yes iff it was still its own; on no it knows it lost it |
| LeaseProtocol.Lease.Release | src/ducklake_serverless/lease.py:171-186 | writes only over its own lease; undisturbed, everyone may then acquire |
| LeaseProtocol.NumbersStandForEtags | src/ducklake_serverless/objectstore.py:484-491 | numbering the writes of one key stands for the store's etags |
| ObjectStore.InMemoryObjectStore.PutIfAbsent | src/ducklake_serverless/objectstore.py:520-527 | succeeds exactly when the key is absent, and then with a new etag |
| ObjectStore.InMemoryObjectStore.PutIfMatch | src/ducklake_serverless/objectstore.py:529-540 | replaces exactly the write the etag names, or changes nothing and says why |
| ObjectStore.InMemoryObjectStore.GetRange | src/ducklake_serverless/objectstore.py:502-518 | a ranged read is truncated at the end of the object and never wraps round |
| ObjectStore.InMemoryObjectStore.Get | src/ducklake_serverless/objectstore.py:493-500 | the body read is the one write its etag names, for good |

## Left out

- LakeTheorems.PackSafety: asks each novel pack of a landing manifest for one of two defenses; the second, for packs born recently, is enough but not shown to be necessary.
- Collector.Collect: `dry_run` is not modelled; it stops before the first write and skips the check of the head's payload. Requests do not fail one by one; a pass cut short is a `Halt` of the machine.
- Publish.VerifyPacks: the packs are handled one after another, where the program uses a thread pool.
- Reconstruct.WriteWindows: the packs of one window are fetched one after another, where the program uses a thread pool.
- Commit.PublishPacks: the retries of one PUT are in `Publish.dfy`; here a pack's upload happens or the commit stops.
- Commit.FetchCurrentBase: a head is fetched in one instant; fetching it pack by pack is in `Reconstruct.dfy`.
- Session.Transact: a statement that fails leaves the copy alone; what the failing statement raises is not modelled.
- Stores without timestamps and the lease's holder-clock fallback.
- Listings are read in one instant. Real listings take time; the program's second look at missing packs is modelled nevertheless.
- A DELETE takes effect at any time after its HEAD, as one step.
- Hash collisions: digests are ideal.
- The maximum sizes of manifests and catalogs, key strings, JSON, marker bodies that do not parse: typed keys and records instead.
- `maintain_data`, DuckDB, SQL classification, catalog hygiene and version pins: a statement is a function and a class.
- S3 over HTTP, capability probes, the generation cache on disk, fsspec buffering and paths, `ls` and `info`, configuration, logging and backoff delays.
