# mutualbackup: a verified model

mutualbackup lets a guild of peers keep each other's encrypted backups. Objects are packed into
fixed-size sectors, sectors are coded into shards that live in different failure domains, and every
piece is committed to by Merkle roots, paged catalogs, certified guild events and signed checkpoints.
This project models the parts that decide whether data can be recovered and whether replicas agree,
and proves what holds of every input and every run.

- **Merkle suite** (`Merkle`, `MerkleSuite`): commitments, subtree and range openings, virtual zero
  shards and the streaming accumulator.
- **Packing** (`Allocator`, `Placement`, `SlotPlanner`, `Packing*`, `Packer`, `SectorBuffer`,
  `UpdateSources`, `Updater`, `Unpacking`): the slot allocator, full packs, authenticated incremental
  updates, their validation, unpacking, and recovery after any run of them.
- **Paged catalogs** (`Pages`, `CatalogTree`, `CatalogBuilder`, `CatalogReader`, `CatalogRoundTrip`).
- **Guild log** (`Guild`, `GuildSafety`, `GuildHistory`, `GuildRecovery`, `GuildRetention`, `GuildReplica`).
- **Coding attempts** (`Coding`, `Attempt`, `AttemptReplay`).
- **Sparse blob recipes** (`BlobRecipe`, `BlobStream`, `BlobAcceptance`, `BlobRoot`, `BlobCatalog`,
  `BlobReader`).
- **Git graphs** (`Reachability`, `GitGraph`, `GitRefs`, `GitTrees`, `GitValidation`).
- **Checkpoints** (`Checkpoint`, `CheckpointChains`, `CheckpointSectors`, `CheckpointLegacy`,
  `CheckpointPacking`, `CheckpointGroups`, `CheckpointValidation`, `CheckpointMeaning`).

`dafny verify dfyconfig.toml` checks the whole project.

## How the model stands to the code

- Hashes are ideal: a digest, id or event head is the value that was hashed, so equal digests mean
  equal contents. Signed records carry whether their signature verifies. Key checks (weak keys,
  contributory agreement) are functions about which nothing is assumed.
- Node, object and sector ids are natural numbers in the order of their bytes; zero is the all-zero id.
- Callbacks (the sector loader, the page sink and fetcher) are function parameters that may return
  anything. The Reed–Solomon code is any function from the data bytes of one column to a parity byte.
- Machine words are explicit where the code can reach their limit: `Base.NextWord` and `Base.Low32`
  wrap, and checked additions return errors.
- Objects that the code updates in place are classes (`StableSlotAllocator`,
  `MerkleSubtreeAccumulator`, `Builder`, `Reader`, `BlobState`, `BlobBuilder`, `BlobReader`, `Replica`); loops are
  methods proved against a specification function or predicate.

Where code and documentation differ, the model follows the code. One such place: `pack_incremental`
ends by validating its own result, which reads as a check that cannot fail. It fails exactly when the
revision number wraps or an authenticated object is not one sector long
(`PackingValidity.BuiltResultValidIff`, with `PackingValidity.ShortObjectIsRefused` as a family of
inputs). The final check of the incremental update, on the other hand, never fails in any run
(`PackingHistory.UpdateCheckPasses`).

## Model

| member | source | states |
|---|---|---|
| `Merkle.CommitInjective` | crates/mb-core/src/range.rs:73-84 | a commitment determines the committed bytes |
| `Merkle.LevelByLevelIsRecursive` | crates/mb-core/src/range.rs:428-449 | pairing level by level gives the textbook recursive tree |
| `Merkle.NodeOpensIff` | crates/mb-core/src/range.rs:341-388 | the climb reaches the root from exactly the true node with exactly its true siblings |
| `Merkle.OpensIff` | crates/mb-core/src/range.rs:188-228 | against an honest commitment exactly the true node and siblings of a run open |
| `Merkle.SubtreeAcceptedIff` | crates/mb-core/src/range.rs:188-228 | the accepted subtree proofs are exactly the honest openings |
| `Merkle.SubtreeRootIsRootOfSlice` | crates/mb-core/src/range.rs:150-185 | an opened subtree node is the root of the bytes below it |
| `Merkle.RangeCompleteness` | crates/mb-core/src/range.rs:110-147 | every range opening verifies and returns exactly the opened bytes |
| `Merkle.RangeBinding` | crates/mb-core/src/range.rs:341-388 | any range proof accepted against an honest commitment carries the committed bytes |
| `MerkleSuite.MerkleLevels` | crates/mb-core/src/range.rs:428-449 | the loop returns every level of the tree, ending in the root |
| `MerkleSuite.Commit` | crates/mb-core/src/range.rs:73-84 | the loop computes the specified commitment, errors included |
| `MerkleSuite.OpenRange` | crates/mb-core/src/range.rs:110-147 | the sibling walk returns the specified opening or error |
| `MerkleSuite.OpenSubtree` | crates/mb-core/src/range.rs:150-185 | the same for subtree openings |
| `MerkleSuite.VerifySubtree` | crates/mb-core/src/range.rs:188-228 | the climb decides subtree proofs as specified, every malformed proof included |
| `MerkleSuite.VerifyRange` | crates/mb-core/src/range.rs:341-388 | the climb decides range proofs as specified and returns their bytes |
| `MerkleSuite.ZeroSubtreeRoot` | crates/mb-core/src/range.rs:99-108 | repeated doubling gives the root of a materialized zero subtree |
| `MerkleSuite.ZeroCommitment` | crates/mb-core/src/range.rs:87-97 | the commitment of a virtual zero shard is that of the zero buffer |
| `MerkleSuite.OpenZeroRange` | crates/mb-core/src/range.rs:303-338 | opening a virtual zero shard is opening the materialized zero buffer, errors included |
| `MerkleSuite.FrontierMeaning` | crates/mb-core/src/range.rs:244-298 | slot i of the frontier is occupied exactly when bit i of the count is set, and holds the root of its block |
| `MerkleSuite.MerkleSubtreeAccumulator.Push` | crates/mb-core/src/range.rs:268-284 | one more root extends the abstract list of roots; the carry loop keeps the frontier |
| `MerkleSuite.MerkleSubtreeAccumulator.Finish` | crates/mb-core/src/range.rs:286-298 | the result is the commitment composed of all pushed roots, or the count error |
| `MerkleSuite.CommitSubtrees` | crates/mb-core/src/range.rs:230-242 | the accumulator over a list computes the composed commitment |
| `MerkleSuite.SubtreesComposeToCommitment` | crates/mb-core/src/range.rs:230-298 | composing a buffer's subtree roots, at every width, gives the buffer's own commitment |
| `Allocator.StableSlotAllocator.constructor` | crates/mb-core/src/packing.rs:687-714 | the indexes built are those of a plain scan of the slots |
| `Allocator.StableSlotAllocator.AddClassification` | crates/mb-core/src/packing.rs:738-758 | a sector enters exactly the indexes its state calls for |
| `Allocator.StableSlotAllocator.RemoveClassification` | crates/mb-core/src/packing.rs:760-780 | a sector leaves exactly the indexes it was in |
| `Allocator.StableSlotAllocator.OtherOwnerSector` | crates/mb-core/src/packing.rs:782-790 | the first sector of the smallest other lone owner |
| `Allocator.StableSlotAllocator.AppendEmptySector` | crates/mb-core/src/packing.rs:792-802 | one vacant sector more, indexes kept exact |
| `Allocator.StableSlotAllocator.Assign` | crates/mb-core/src/packing.rs:804-827 | the indexed allocator fills the slot that a naive scan of all slots would pick |
| `Allocator.AssignFillsOneSlot` | crates/mb-core/src/packing.rs:804-827 | an assignment fills one free or new slot and changes no other |
| `Allocator.AssignKeepsReserve` | crates/mb-core/src/packing.rs:782-827 | with two slots or more per sector, an assignment never fills a sector with chunks of one owner: the cross-owner reserve is kept |
| `Placement.PlaceFacts` | crates/mb-core/src/packing.rs:804-827 | placing a list keeps every occupied slot, adds each chunk once and loses none |
| `Placement.NextSlotsAreStable` | crates/mb-core/src/packing.rs:907-962 | every wanted chunk is in exactly one slot, nothing else is, and a chunk placed before keeps its flat slot |
| `Placement.NextSlotsKeepReserve` | crates/mb-core/src/packing.rs:907-962 | if every full sector of the previous catalog has two owners, so has every full sector of the next |
| `SlotPlanner.RoundRobin` | crates/mb-core/src/packing.rs:931-953 | new chunks are taken owner by owner in turns, in the specified order |
| `SlotPlanner.AllocatePending` | crates/mb-core/src/packing.rs:939-954 | the allocator, fed in that order, produces the specified slots |
| `SlotPlanner.PlanSlots` | crates/mb-core/src/packing.rs:907-962 | retain, allocate and trim give the specified slots of the next catalog |
| `Packer.InputChunks` | crates/mb-core/src/packing.rs:1457-1522 | accepted inputs give exactly the chunk map of their objects; the error cases are exactly those of the specification |
| `Packer.PackIncremental` | crates/mb-core/src/packing.rs:885-1067 | succeeds exactly when inputs and previous catalog are acceptable and the built result is valid; the result is then the specified catalog and sectors |
| `SectorBuffer.FillSector` | crates/mb-core/src/packing.rs:968-993 | writing the payloads into a zeroed buffer gives the joined slot bytes and the specified slots |
| `SectorBuffer.OverlaySector` | crates/mb-core/src/packing.rs:1274-1296 | overwriting and zeroing slots of the loaded bytes gives exactly the new payloads, zeros, and the old bytes of preserved slots |
| `PackingValidity.BuiltResultValidIff` | crates/mb-core/src/packing.rs:293-378 | a freshly built result validates exactly when the revision did not wrap and authenticated objects are one sector long |
| `PackingValidity.ShortObjectIsRefused` | crates/mb-core/src/packing.rs:466-535 | for every profile with more than one slot per sector, a committed one-slot object is accepted as input and fails the final check |
| `PackingValidity.BuiltSectorProved` | crates/mb-core/src/packing.rs:466-535 | the proved roots of a built sector's slots compose to its commitment |
| `UpdateSources.AddSource` | crates/mb-core/src/packing.rs:1089-1177 | one source, new or retained, adds exactly its chunks or fails exactly when it must |
| `Updater.PackIncrementalAuthenticated` | crates/mb-core/src/packing.rs:1072-1353 | succeeds exactly under the stated condition, with the specified catalog and exactly the rebuilt sectors, in order; every sector that must be loaded is asked for once and in order, and no other |
| `PackingEquivalence.KeptIsBuilt` | crates/mb-core/src/packing.rs:1252-1258 | a sector that the update keeps is the sector a full repack builds |
| `PackingEquivalence.ChangedIsBuilt` | crates/mb-core/src/packing.rs:1260-1307 | a sector overlaid on loaded bytes is the sector a full repack builds |
| `PackingEquivalence.UpdateIsBuild` | crates/mb-core/src/packing.rs:1072-1353 | the update's catalog is the catalog of a full pack of the same objects |
| `PackingEquivalence.IncrementalEqualsFull` | crates/mb-core/src/packing.rs:1072-1353 | update and full repack of the same sources build identical catalogs, whatever bytes the loader returned and the checks let through |
| `PackingEquivalence.RetainedStays` | crates/mb-core/src/packing.rs:1279-1288 | a retained chunk is found at its old flat slot, so the missing-object branch is unreachable |
| `PackingHistory.HistoryIsSound` | crates/mb-core/src/packing.rs:885-1353 | in every run of packs and updates every catalog is valid, describes exactly the bytes of the objects of its step (the inputs of a pack; of an update the new objects and the listed others as they were), keeps room for a second owner in every sector and keeps each surviving chunk in its slot |
| `PackingHistory.CarriedIsFull` | crates/mb-core/src/packing.rs:1089-1177 | after an update the objects are exactly the listed sources, each with the commitment listed for it |
| `PackingHistory.UpdateCheckPasses` | crates/mb-core/src/packing.rs:1332-1333 | in every run the update's final self-check never fails |
| `Unpacking.UnpackObjectFromSectors` | crates/mb-core/src/packing.rs:1375-1447 | succeeds exactly when the catalog is valid, lists the object and every sector holding it is supplied and authenticates; otherwise the first bad sector decides the error |
| `Unpacking.UnpackObject` | crates/mb-core/src/packing.rs:1357-1371 | the same for a validated result |
| `Unpacking.UnpackedIsPacked` | crates/mb-core/src/packing.rs:1375-1447 | whatever sectors are supplied, bytes that come out of an honest catalog are the object's bytes |
| `Unpacking.PackRoundTrip` | crates/mb-core/src/packing.rs:885-1447 | a packed catalog knows exactly the packed objects, and unpacking any of them gives its bytes |
| `Unpacking.HonestRoundTrip` | crates/mb-core/src/packing.rs:1375-1447 | an honest catalog lists exactly its objects, and from any sectors only their bytes can be unpacked |
| `PackingRecovery.UpdateSupplies` | crates/mb-core/src/packing.rs:1227-1308 | sectors that sufficed for an object before an update suffice afterwards together with those the update returns |
| `PackingRecovery.UpdateRoundTrip` | crates/mb-core/src/packing.rs:1072-1447 | after an update every listed source, new or retained, unpacks to its bytes from the old and the returned sectors |
| `PackingRecovery.StoreSupplies` | crates/mb-core/src/packing.rs:885-1447 | in every run, the sectors made so far are all that the latest catalog needs |
| `PackingRecovery.Recover` | crates/mb-core/src/packing.rs:885-1447 | after any run of packs and updates, each object of the latest step is recovered with exactly its bytes from the sectors made in the run, and any other object is reported missing |
| `Pages.VerifiedIsCommitted` | crates/mb-core/src/catalog.rs:350-370 | for any offered frame, verification lets through only the page committed to |
| `Pages.EncodedIsCommitted` | crates/mb-core/src/catalog.rs:289-341 | a page that encodes is accepted under its own reference with the counts of its children |
| `CatalogTree.RootCarriesStream` | crates/mb-core/src/catalog.rs:98-103 | every stream the format allows has an intact root at most three levels high, with fewer than a million pages, that carries exactly its bytes |
| `CatalogTree.RootIsInjective` | crates/mb-core/src/catalog.rs:480-506 | different streams have different roots |
| `CatalogBuilder.Builder.Append` | crates/mb-core/src/catalog.rs:461-478 | cascading appends keep fewer than a fanout of references per height and the frontier of the stream's tree |
| `CatalogBuilder.Builder.Push` | crates/mb-core/src/catalog.rs:398-432 | pushed bytes extend the stream; after a failure every call fails |
| `CatalogBuilder.Builder.Finish` | crates/mb-core/src/catalog.rs:480-506 | the root is that of the bytes alone, however they were cut, and every page below it was stored |
| `CatalogReader.StackBound` | crates/mb-core/src/catalog.rs:564-601 | the stack never exceeds a fanout per height and one |
| `CatalogReader.Tally` | crates/mb-core/src/catalog.rs:603-610 | emitted bytes are always a prefix of the committed stream, and all of it at the end |
| `CatalogReader.ServedIsNotFaulty` | crates/mb-core/src/catalog.rs:543-601 | on an intact tree a callback that serves the pages is never found faulty |
| `CatalogReader.Reader.NextInner` | crates/mb-core/src/catalog.rs:564-601 | visits pages until a leaf or the end, keeping the reading invariant against any callback |
| `CatalogReader.Reader.CheckFinished` | crates/mb-core/src/catalog.rs:603-608 | when nothing is pending, the totals are those of the root, so the check cannot fail |
| `CatalogReader.Reader.NextLeaf` | crates/mb-core/src/catalog.rs:543-610 | each leaf is the next piece of the committed stream; only the callback can make it fail |
| `CatalogReader.ReadAll` | crates/mb-core/src/catalog.rs:512-610 | reading to the end returns the whole committed stream or a callback's fault |
| `CatalogReader.BuiltReadsBack` | crates/mb-core/src/catalog.rs:376-610 | what was pushed into a builder is what its stored pages carry |
| `CatalogRoundTrip.BuildThenRead` | crates/mb-core/src/catalog.rs:376-610 | build, store, fetch and read: the same bytes come back for every chunking |
| `Guild.Required` | crates/mb-core/src/guild.rs:42-61 | every accepted quorum is more than half of the roster and at most all of it |
| `GuildReplica.ValidateMembers` | crates/mb-core/src/guild.rs:388-441 | the loop decides the roster's validity |
| `GuildReplica.ValidateGroups` | crates/mb-core/src/guild.rs:388-441 | the loop decides order and validity of retained groups |
| `GuildReplica.ValidateWriterKeys` | crates/mb-core/src/guild.rs:952-973 | one pass with a map decides that epochs are ordered and gap-free per owner |
| `GuildReplica.ValidateRecoveryKeys` | crates/mb-core/src/guild.rs:975-996 | the same for recovery keys and their envelopes |
| `GuildReplica.ValidateState` | crates/mb-core/src/guild.rs:388-441 | the loops together decide the valid states |
| `GuildReplica.VerifySignatures` | crates/mb-core/src/guild.rs:443-490 | the loop accepts exactly distinct, active, valid signers |
| `GuildReplica.VerifyEvent` | crates/mb-core/src/guild.rs:443-490 | accepts exactly the certified events of the state, and names why another is refused |
| `GuildReplica.ApplyOne` | crates/mb-core/src/guild.rs:511-699 | returns the next state, or the error of the first check that fails |
| `GuildReplica.ReplayTail` | crates/mb-core/src/guild.rs:701-715 | a tail that does not start at the state's sequence and head is refused; otherwise the replay of its events decides |
| `GuildReplica.Replica.Apply` | crates/mb-core/src/guild.rs:511-517 | a replica changes by the whole event or not at all |
| `GuildReplica.Replica.ApplyAll` | crates/mb-core/src/guild.rs:701-715 | a tail is applied whole or not at all |
| `GuildReplica.ReplicasAgree` | crates/mb-core/src/guild.rs:511-715 | without double signing, replicas from one base at one sequence number are in one state, whoever signed for each |
| `GuildSafety.QuorumsMeet` | crates/mb-core/src/guild.rs:443-490 | two certified events for one state share a signer who signed both |
| `GuildSafety.Agreement` | crates/mb-core/src/guild.rs:511-715 | without double signing, two runs from one state agree event by event |
| `GuildSafety.SequenceCounts` | crates/mb-core/src/guild.rs:519-699 | the sequence number counts the applied events |
| `GuildSafety.SameSequenceSameState` | crates/mb-core/src/guild.rs:511-715 | without double signing, the states of two runs at a common sequence number are identical |
| `GuildHistory.EpochFences` | crates/mb-core/src/guild.rs:519-699 | the membership epoch never goes back and stands still exactly while the roster does |
| `GuildHistory.VerdictIsConstant` | crates/mb-core/src/guild.rs:735-770 | while the epoch is unchanged the verdict on every plan is unchanged |
| `GuildHistory.FencedForever` | crates/mb-core/src/guild.rs:735-770 | after any membership event a plan allowed before is rejected |
| `GuildHistory.RemovedForever` | crates/mb-core/src/guild.rs:519-699 | a removed member is never active again |
| `GuildHistory.KeysAreKept` | crates/mb-core/src/guild.rs:519-699 | writer keys are never dropped or changed, at most revoked |
| `GuildHistory.EpochsAreExact` | crates/mb-core/src/guild.rs:952-973 | the epochs issued to an owner are exactly one up to the newest |
| `GuildHistory.KeyIsImmutable` | crates/mb-core/src/guild.rs:772-777 | a retained revision's key is found unchanged over every run |
| `GuildHistory.NeverCurrentAgain` | crates/mb-core/src/guild.rs:787-793 | an issued epoch that is not current never becomes current again |
| `GuildRecovery.RecoveryIsKept` | crates/mb-core/src/guild.rs:519-699 | recovery keys are never dropped or changed, at most revoked |
| `GuildRecovery.RecoveryEpochsAreExact` | crates/mb-core/src/guild.rs:975-996 | the recovery epochs of a subject are exactly one up to the newest |
| `GuildRecovery.RecoveryIsImmutable` | crates/mb-core/src/guild.rs:779-785 | an issued recovery key keeps its sealed envelope |
| `GuildRecovery.RecoveryNeverCurrentAgain` | crates/mb-core/src/guild.rs:779-785 | a recovery epoch that is not current never becomes current again |
| `GuildRetention.RetainedIsUnchanged` | crates/mb-core/src/guild.rs:640-693 | until it is forgotten a group stays, with the same descriptor |
| `GuildRetention.GroupsComeFromRun` | crates/mb-core/src/guild.rs:640-693 | every retained group has its whole life in the run or began before it: one add, no add or forget since, and at most one retire, the one on record |
| `GuildRetention.ForgetFollowsRetire` | crates/mb-core/src/guild.rs:664-693 | a forget ends a retired life of that very entry, after the retention announced then has passed |
| `GuildRetention.RetiredLife` | crates/mb-core/src/guild.rs:640-693 | the retire event of an entry is the only one in its own life, and no add or forget of the id lies in that life |
| `Coding.ValidateGroup` | crates/mb-core/src/model.rs:299-352 | one pass with a set of used domains decides the valid groups |
| `Coding.LossIsBounded` | crates/mb-core/src/model.rs:299-352 | losing failure domains costs at most one shard per domain |
| `Coding.GroupSurvives` | crates/mb-core/src/model.rs:299-352 | a valid group keeps enough shards to decode after losing as many domains as it has parity |
| `Attempt.LeafOfCodeword` | crates/mb-core/src/coding.rs:156-172 | one leaf of every shard of a codeword satisfies the sampled equation |
| `Attempt.CodewordIff` | crates/mb-core/src/coding.rs:130-172 | committed shards are a codeword exactly when every leaf of them satisfies the sampled equation |
| `Attempt.EncodedManifestOk` | crates/mb-core/src/attempt.rs:629-664 | an encoded manifest is accepted for its plan |
| `AttemptReplay.EncodeAttempt` | crates/mb-core/src/attempt.rs:908-996 | succeeds exactly for an authentic valid plan with committed inputs; the manifest and parity shards are then those of the codeword |
| `AttemptReplay.ReplayTranscript` | crates/mb-core/src/attempt.rs:1028-1147 | an unacceptable transcript gives the stated error; otherwise the finding is decided by the first opening that is not accepted, or else by the sampled equation |
| `AttemptReplay.CheckTranscript` | crates/mb-core/src/attempt.rs:1028-1101 | decides everything about a transcript except what its openings show, and tells wrong from missing evidence |
| `AttemptReplay.AcceptedIsLeaf` | crates/mb-core/src/attempt.rs:1103-1140 | an accepted opening shows the challenged leaf of its committed shard |
| `AttemptReplay.FindingIsLeaf` | crates/mb-core/src/attempt.rs:1097-1147 | for any committed shards, honest or not, the verdict on the coding is the verdict on their challenged leaf |
| `AttemptReplay.NeverMiscoded` | crates/mb-core/src/attempt.rs:1028-1147 | a manifest that came from encoding its plan is never found miscoded, whatever the holders open and whatever the challenge |
| `AttemptReplay.HonestRunVerifies` | crates/mb-core/src/attempt.rs:1028-1147 | an honest run always replays to verified |
| `AttemptReplay.RunHonestly` | crates/mb-core/src/attempt.rs:908-1147 | encode, stage, challenge, open and replay as the protocol asks ends in verified |
| `BlobStream.AcceptedIsEncoded` | crates/mb-git/src/blob_catalog.rs:197-291 | an accepted record stream is the encoding of the recipes it describes, and these are valid |
| `BlobAcceptance.EncodedIsAccepted` | crates/mb-git/src/blob_catalog.rs:197-291 | the encoding of every valid list is accepted and decodes to itself |
| `BlobAcceptance.EncodingIsInjective` | crates/mb-git/src/blob_catalog.rs:343-388 | different lists have different streams |
| `BlobAcceptance.BlobAcceptedIff` | crates/mb-git/src/blob_catalog.rs:197-291 | a blob's records are accepted exactly when it may follow and its extents are ordered, disjoint, inside and covered by their sectors |
| `BlobRoot.RootIsValid` | crates/mb-git/src/blob_catalog.rs:137-155 | the totals of every valid list pass the check of the finished root |
| `BlobCatalog.BlobState.Accept` | crates/mb-git/src/blob_catalog.rs:185-291 | the counters mirror the described recipes; a record is accepted exactly when the specification accepts it |
| `BlobCatalog.BlobState.Matches` | crates/mb-git/src/blob_catalog.rs:293-305 | a root matches exactly when its totals are those of the described blobs |
| `BlobCatalog.BlobBuilder.PushBlob` | crates/mb-git/src/blob_catalog.rs:343-388 | a recipe is taken exactly when it is valid and may follow |
| `BlobCatalog.BlobBuilder.Finish` | crates/mb-git/src/blob_catalog.rs:390-410 | the root carries the totals of exactly the pushed blobs; its bounds check cannot fail |
| `BlobReader.RunGrows` | crates/mb-git/src/blob_catalog.rs:197-291 | no record takes anything back from a counter, so every prefix counts at most what the whole does |
| `BlobReader.AnnouncedReads` | crates/mb-git/src/blob_catalog.rs:456-467 | the running comparisons with the root refuse nothing that the match at the end would accept |
| `BlobReader.BlobReader.NextRecord` | crates/mb-git/src/blob_catalog.rs:434-470 | each record is accepted, compared and, at the end, matched as specified; failure is sticky |
| `BlobReader.ReadBlobs` | crates/mb-git/src/blob_catalog.rs:414-470 | reading to the end succeeds exactly for the records of valid recipes with the announced totals |
| `BlobCatalog.CheckGeometry` | crates/mb-git/src/backup.rs:104-134 | the extent loop of the descriptor decides the same geometry |
| `GitRefs.ListKinds` | crates/mb-git/src/backup.rs:220-235 | lists exactly the distinct, intact objects with their kinds, or refuses |
| `GitRefs.FollowRef` | crates/mb-git/src/backup.rs:253-285 | ends on every input, tag cycles included, and succeeds exactly when the reference resolves to a commit through tags, the first of which goes by the name of the reference |
| `GitRefs.FollowRefs` | crates/mb-git/src/backup.rs:236-286 | accepts exactly distinct valid names that all resolve, and returns the tags and commits met |
| `GitRefs.CheckNames` | crates/mb-git/src/backup.rs:287-302 | no reference is a directory above another, and the head branch is listed or the default one |
| `GitTrees.WalkTrees` | crates/mb-git/src/backup.rs:321-364 | ends on every input and accepts exactly when every reached tree is well formed and the unfolded forest is within the object limit |
| `GitTrees.UnfoldsInAnyOrder` | crates/mb-git/src/backup.rs:321-364 | the number of tree visits does not depend on the order of the worklist |
| `GitTrees.CycleHasNoSize` | crates/mb-git/src/backup.rs:321-364 | a tree that contains itself has no finite number of visits |
| `GitTrees.AcceptedIsAcyclic` | crates/mb-git/src/backup.rs:321-364 | no tree reached in an accepted graph contains itself at any depth |
| `GitValidation.WalkCommits` | crates/mb-git/src/backup.rs:303-320 | visits exactly the ancestors of the heads, each once, also when parents form a cycle |
| `GitValidation.CountDecides` | crates/mb-git/src/backup.rs:365-369 | the count of seen objects decides whether the listing is exactly the reachable set |
| `GitValidation.ValidateGraph` | crates/mb-git/src/backup.rs:213-371 | accepts exactly the graphs whose listed objects are the reachable ones and whose declared blobs are those in the trees, and returns the symlink blobs |
| `CheckpointChains.CheckMembers` | crates/mb-core/src/model.rs:693-711 | the loop decides the member list and returns the domain of each |
| `CheckpointChains.CheckFences` | crates/mb-core/src/model.rs:721-741 | fences are accepted exactly when ordered, gap-free from one per owner, and strong; the maps hold every key and the newest epochs |
| `CheckpointChains.CheckTombstones` | crates/mb-core/src/model.rs:742-760 | tombstones are accepted exactly when ordered and well formed; the map holds one per chain |
| `CheckpointSectors.CheckSectors` | crates/mb-core/src/model.rs:825-880 | the three sector maps accept a revision exactly when it agrees with every earlier use |
| `CheckpointSectors.AcceptsUseIff` | crates/mb-core/src/model.rs:825-880 | the flat-root map adds nothing to the scoped map |
| `CheckpointPacking.CheckCatalog` | crates/mb-core/src/model.rs:907-1076 | accepted exactly when the slots pack every used sector whole and nothing else, and the proofs are good for the format |
| `CheckpointLegacy.GatherAttestations` | crates/mb-core/src/model.rs:1014-1040 | attestations are accepted exactly when each is a member's for this guild and epoch, and all on one sector say the same, each signer once |
| `CheckpointLegacy.CheckLegacy` | crates/mb-core/src/model.rs:955-1072 | accepted exactly when every proof is of a revision's commitment or carried by a binding or a quorum, and every binding and attestation is needed |
| `CheckpointLegacy.CountsDecide` | crates/mb-core/src/model.rs:1068-1072 | comparing the sizes of the used sets decides whether every statement is needed |
| `CheckpointGroups.CheckGroup` | crates/mb-core/src/model.rs:1649-1702 | a group is accepted exactly when valid and disjoint from the earlier ones; the protected set grows by exactly its sectors |
| `CheckpointGroups.CheckGroups` | crates/mb-core/src/model.rs:1078-1105 | the loop decides all groups, and coverage in format 3 |
| `CheckpointValidation.CheckRevisions` | crates/mb-core/src/model.rs:761-890 | the map of heads decides the revision chains |
| `CheckpointValidation.Validate` | crates/mb-core/src/model.rs:658-1107 | accepts exactly the valid checkpoints |
| `CheckpointMeaning.ChainsAreGapFree` | crates/mb-core/src/model.rs:809-824 | every chain starts at one or just after its tombstone and goes up without a gap, each revision naming the one before |
| `CheckpointMeaning.HistoryIsShared` | crates/mb-core/src/model.rs:809-824 | two valid checkpoints that share a revision share what both retain before it |
| `CheckpointMeaning.GroupKeepsThree` | crates/mb-core/src/model.rs:1649-1702 | a valid group keeps three shards after losing any two failure domains |
| `CheckpointMeaning.SectorSurvives` | crates/mb-core/src/model.rs:1078-1105 | in format 3 every sector of every retained revision is in exactly one group, as its owner's shard, and survives the loss of any two domains |
| `CheckpointMeaning.SectorIsPacked` | crates/mb-core/src/model.rs:907-939 | in format 7 every sector of every retained revision is packed, with exactly one sector's worth of bytes |

## Left out

- CheckpointValidation.Validate: whether a packing catalog is valid by itself is given here; `PackingValidity` models that check for formats 1 to 3.
- AttemptReplay.ReplayTranscript: a signature that does not verify counts as an invalid transcript; the code reports the signature error.
- GuildReplica.ApplyOne: failures of the signature library and of a group's own validation count as an invalid event or state; the code reports their own errors.
- GitValidation.ValidateGraph: which single names and paths are valid is given by predicates, and errors of the Git library count as refusals.
- Packed catalogs of formats 4 and 5 validating themselves: signatures and order of legacy bindings and attestations.
- Packing metrics (counts of reused, moved and padded bytes) are reporting only.
- Canonical byte encodings are not modelled, except for the sizes of catalog pages; decoding limits of the wire types are therefore left out.
- The blob catalog's record layer is a plain list of records; the paged stream below it is modelled separately as the catalog builder and reader.
- Parsing of Git objects, object hashing, and the safety rules for names and paths are given by the library: parsed objects are maps and the rules are predicates.
- Cryptography (signature schemes, encryption, key envelopes) and the Reed–Solomon matrix; decoding after losses rests on enough shards surviving, which is proved.
- Genesis, invites, endpoint records, legacy coding-add statements and recovery bundles are not modelled.
- The network, storage, scheduling and command-line crates.
