# Queue Fabric in Dafny

Queue Fabric governs queues: one serialized engine checks every mutation, journals
it, publishes it, and rebuilds its state after a crash. This project models that
engine, its journal file, its frame decoder and its byte codecs, and proves what the
repository's design promises of them.

- **The machine.** `Machine` and `Recovery` define one function per public call on one
  state (resources, queues, name index, epoch, publisher table, plans, clock watermark,
  journal); `Run` strings calls, clock readings, journal outcomes, crashes and
  recoveries into runs. `Rules` and `Work` hold the decision rules and what each
  mutation kind does; `Laws` says what the rules decide without their order of tests.
- **The object.** `Fabric` is the mutable engine, method by method, each proved to leave
  exactly the machine's state. `Tracker`, `MemoLog`, `FileJournal`, `Frame` and
  `ByteStreams` do the same for the other stateful parts.
- **Step summaries.** `Evolution`, `Steps`, `Deltas` and `GoodRuns` say once what a step
  may change; `Soundness` and `Reach` give the invariant of all reachable states, kept by
  calls and by recovery.
- **Theorems over runs.** `Twins`, `Ledger`, `Recalls` and `Refinement` (replay refines the
  live run, through any number of restarts and compactions), `NameReplay` (names alone),
  `Snapshots` (compact then recover), `Lives` (what lasts across restarts), `Quiescence`, `Freshness`, `Acks`, `Epochs`, `AtMostOnce`,
  `Generations`, `Atomic`, `Names`, `Counts`, `Retirement`.
- **Witnesses.** `Scenario` writes out a small run from an empty journal; `Losses`,
  `Revival`, `Evictions` and `Torn` go on from it to where a law fails without its
  condition.
- **Bytes.** `Crc32c`, `Stream`, `Frame`, `JournalFile`, `FileJournal`, `Codec` and
  `StateCodec`; `Disk` ties the machine's records and crashes to the bytes of the file.

Clock readings, journal outcomes (begin, commit or flush failing), boot identities and
what a crash keeps beyond the flushed records are inputs of each step. Fingerprints are
an arbitrary function of the effect they are computed from. In runs of the machine a crash
keeps every flushed record and any number of whole records behind them.
`Disk.CrashIsSurvivor` derives that from a cut at any byte of a file that holds the
journal. A recovery leaves such a file again if and only if the cut fell between records
or nothing was replayed (`Disk.CrashThenRecover`): otherwise replay appends behind the
torn bytes before it truncates, and what that life writes is out of the next one's reach
(`Torn.EpochFoundedTwice`). So runs with several crashes are runs whose crashes fall
between records, or whose torn recoveries had nothing to replay.
`Run.Step` is the dispatch to the call functions; proofs that need to see inside assert
`Run.Unfold`.

Where code and comments of the repository disagree the model follows the code:
`FrameDecoder::next` does not add to its consumed-bytes counter when a frame empties the
buffer; a class redeclaration overwrites reasons that are documented as cleared by new
evidence only (`FreshnessLost.RedeclarationRevives` says exactly when that matters); a
record appended behind a torn tail before truncation is unreachable
(`JournalFile.AppendedIsRecovered` says exactly when one is not); reasons of 97 to 128
bytes are journalled but refused by replay (`Codec.FenceRead`); replay runs against the
topology of the whole journal, so a declaration bound to a class generation that was
superseded later is dropped (`Losses.RestartLosesQueue`); nothing bounds the group of a
class, and a resource with a longer one than the format holds is lost by compaction
(`Losses.ResourceLost`, `Snapshots.NothingLostIff`).

Check everything with `dafny verify dfyconfig.toml`.

## Model

| member | source | states |
|---|---|---|
| `Refinement.ReplayRefinesRun` | src/fabric_recovery.cpp:171-182 | Take any run on an empty journal, with any restarts, journal failures and compactions, up to a checkpoint (its start, or a compaction of records that fit), and behind it any run, with any number of further restarts, in which the journal works, memos have room at each restart, compactions are of records that fit, topology is settled before the first commit behind a snapshot, resource records and reasons fit their bounds, no attempt is committed twice and no new quiescence is committed. Then a crash and recovery rebuild the same queue ids, names and next id, and per queue the same definition (except declaration time), lifecycle, fence flag, token, owner and reason, and failure reason |
| `Refinement.TameRebuilds` | src/fabric_recovery.cpp:59-182 | The same from any checkpoint of any state that satisfies the invariants, for everything durable, or, without the conditions on quiescence and fence numbering, for definitions, names and numbering: this is the form later lives use |
| `Refinement.RunFaithful` | src/fabric_recovery.cpp:171-182 | By induction over the run behind a checkpoint: wherever replay of its journal starts and whatever the clock then says, it ends in one state that mirrors the live one and remembers only attempts of the snapshot or the commits, all of them where there is room |
| `Refinement.StepFaithful` | src/fabric_apply.cpp:267-452 | Each step, whether it commits, is dynamic, is refused, compacts, changes topology or is a restart, keeps the journal faithful in this sense |
| `Refinement.RestartFaithful` | src/fabric_recovery.cpp:171-225 | A recovery journals what it replays a second time; with room in the memos the longer journal replays to the same state, so restarts need no compaction between them |
| `Refinement.RestartMirrors` | src/fabric_recovery.cpp:171-243 | A restart of a faithful journal gives back the state it is faithful to, and that state is what the journal stays faithful to |
| `Refinement.SettledStep` | src/fabric.cpp:180-531 | Through the run the journal is flushed and holds every resource with its current classes, pools and grants and the queues of the snapshot, and each step adds at most one commit to what is replayed |
| `Refinement.CompactionIsCheckpoint` | src/fabric_recovery.cpp:338-397 | Compacting any state whose records fit, whatever its journal held and quiesced queues included, leaves a journal that reads back as that state with nothing to replay |
| `Refinement.StartIsCheckpoint` | src/fabric_recovery.cpp:21-60 | So does starting on an empty journal |
| `Refinement.QuiescenceNotReplayed` | src/fabric_kinds.cpp:319-352 | Why a new quiescence is excluded when lifecycles are in view: no restart rebuilds a quiesced queue that the last snapshot does not hold quiesced |
| `Ledger.RestartReads` | src/fabric_recovery.cpp:171-243 | After a recovery the journal reads back as the old commits followed by those that replay took, with the same snapshot queues and topology, under the next epoch |
| `Ledger.StepFence` | src/fabric_kinds.cpp:354-378 | While the journal works, the last fence token drawn is the greatest any queue carries, call by call |
| `Ledger.RestartFence` | src/fabric_recovery.cpp:299-311 | Every recovery makes it so again |
| `Recalls.ReplayRecalled` | src/fabric_apply.cpp:272-311 | Replaying a declaration whose name is held, or a request whose attempt the queue's memo holds, changes nothing durable, no name, no numbering and no memo's attempts |
| `Recalls.RecallsOn` | src/queue.cpp:17-31 | While a queue's memo has room for the attempts of its snapshot and of the commits and markers replayed so far, replay forgets none of them |
| `Recalls.NoEviction` | src/queue.cpp:17-31 | A memo whose attempts all belong to a set no larger than its capacity pushes nothing out for another of that set |
| `Twins.PerformTwin` | src/fabric_kinds.cpp:73-421 | Durable work reads durable queue state, class generations and the fence counter only: on records that agree there it succeeds alike, with agreeing results and the same token |
| `Twins.PerformShape` | src/fabric_kinds.cpp:73-421 | On records that agree in definition, fencing and shape of lifecycle only, work done live is done in replay with a result of the same shape, or refused with the shapes still agreeing |
| `Twins.WorkMirrors` | src/fabric_apply.cpp:313-424 | A durable mutation taken live and replayed with its attempt not remembered leaves states that mirror each other |
| `Twins.WorkAlike` | src/fabric_apply.cpp:313-424 | Two replays of one admitted mutation from states that agree end in states that agree, whatever the clocks |
| `Twins.DeclaredMirrors` | src/fabric_apply.cpp:85-265 | A declaration taken live and in replay gets the same id and name and leaves mirroring states |
| `Twins.MarkerUnmoved` | src/fabric_plans.cpp:25-42 | Replaying a plan's commit or abort marker, taken or refused, changes nothing durable |
| `NameReplay.NamesRebuilt` | src/fabric_apply.cpp:108-142 | Names alone: behind a checkpoint, with any number of restarts and whatever the memos forgot, recovery rebuilds every name with its queue and the next id |
| `NameReplay.RunNamesFaithful` | src/fabric_recovery.cpp:171-182 | By induction over the run: wherever replay of its journal starts, it ends with the names and numbering of the live state, and every declaration in it finds its name held |
| `GoodRuns.StepWrites` | src/fabric_kinds.cpp:469-491 | What each call writes when the journal works: begin and commit for a taken durable mutation, the published record for a topology call, a marker for a plan, the whole snapshot for a compaction, nothing for a refusal; all of it flushed |
| `Snapshots.CompactThenRecover` | src/fabric_recovery.cpp:338-397 | When every record fits its format, compacting any reachable state and recovering yields exactly that state revalidated: definitions, lifecycles, fences, memos, names and next id kept, epoch advanced by one, backends dead, counts recomputed, plans and publishers empty |
| `Snapshots.CompactThenRecoverExactly` | src/fabric_recovery.cpp:59-141 | Of any reachable state at all: after compaction and recovery there are exactly the queues whose records fit, revalidated, and exactly the resources whose records fit, with dead backends, the new epoch and recomputed counts, under a correct name index |
| `Snapshots.NothingLostIff` | src/fabric_recovery.cpp:77-94 | So a resource survives if and only if its record fits, a queue likewise, and nothing is lost if and only if every record fits |
| `Snapshots.RevalidatedQueue` | src/fabric_recovery.cpp:88-116 | What revalidation does to a queue: occupancy marked stale_restart if present, stale flag set, fence flag kept, completed drains demoted and every open drain's evidence unrevalidated, all else unchanged |
| `Snapshots.SnapshotReadsBack` | src/fabric_recovery.cpp:338-376 | Reading a snapshot of any state gives back exactly its storable resources and its storable queues, for any number of them |
| `Snapshots.QueuesAreStorable` | src/serialize.cpp:374-466 | In every reachable state every queue fits the bounds its record is decoded under, if evidence and memo limits are within the format's |
| `Quiescence.QuiescenceIsEvidenced` | src/fabric_kinds.cpp:319-352 | In every run with any restarts, a live step to quiesced has a drain in progress, evidence naming a live backend incarnation at the current epoch that accepted and reported drained, stored occupancy fresh, zero, in its window and not older than the request, the acknowledgement verified if policy asks, and that evidence was submitted after the latest drain request in this process life |
| `Quiescence.QuiescedHasCause` | src/fabric_recovery.cpp:88-116 | A queue found quiesced after any run, including recovery from snapshots, was quiesced by some live step of that run |
| `Quiescence.PerformQuiesces` | src/fabric_kinds.cpp:319-352 | Work turns a queue quiesced only on full evidence: because draining implies a drain in progress, the already-complete shortcut never grants it |
| `Quiescence.EvidenceHasSource` | src/fabric_kinds.cpp:282-317 | In every run, evidence that could complete a drain was submitted since the latest drain request and restart |
| `Quiescence.RecoverNoClaims` | src/fabric_recovery.cpp:103-110 | A recovered fabric rests no drain on old evidence, and replay quiesces nothing the journal did not hold quiesced |
| `FreshnessLost.AuthorityOnlyLost` | src/occupancy.cpp:33-64 | With generation matching required and a positive skew, once an observation does not classify as fresh, no mutations, refreshes, epoch advances, invalidations, restarts or clock jumps make it fresh again without a newly taken sample, if no class redeclaration overwrites a sticky reason |
| `FreshnessLost.RedeclarationRevives` | src/fabric.cpp:417-434 | The exception, exactly: a class redeclaration makes stale evidence fresh if and only if it unbinds a queue whose evidence was set aside for a restart, epoch or backend but is otherwise in its window |
| `Revival.RevivalExample` | src/fabric.cpp:417-434 | A run from an empty journal: a queue is declared, sampled and discredited, and redeclaring its class makes the discredited sample fresh again |
| `FreshnessLost.LostLater` | src/occupancy.cpp:40-64 | Under the invariant on observation times, the passage of time alone brings nothing back |
| `FreshnessLost.EvidenceStepLost` | src/fabric_kinds.cpp:65-71 | No way in which evidence changes without a new sample brings it back |
| `FreshnessLost.RestartLoses` | src/fabric_recovery.cpp:184-195 | A recovered fabric trusts no stored observation |
| `Acks.NeverRegained` | src/backend.cpp:8-35 | In every run, through epochs, rebinding, backend death and restarts, an acknowledgement that does not verify verifies again only after a new one was taken |
| `Acks.RegainedByAcknowledging` | src/backend.cpp:8-35 | The same for every run from an empty journal, without further assumption |
| `Acks.NoRevival` | src/fabric_kinds.cpp:423-445 | No single call other than taking an acknowledgement makes a queue's acknowledgement verify |
| `Acks.AckInvStep` | src/fabric.cpp:564-580 | Backend ids stay unique and below the next id, and an acknowledgement of the current epoch names one of them |
| `Acks.RestartQuiet` | src/fabric_recovery.cpp:143-152 | After recovery no backend is alive, so nothing verifies |
| `Acks.LiveBefore` | src/fabric.cpp:611-670 | A registration that is live after a call and was numbered before it was live before it: alive never returns |
| `Epochs.EpochsIncrease` | src/fabric_recovery.cpp:155-166 | Over any run of successful recoveries, advances, compactions and crashes that keep whole records, epochs never fall, and rise between two moments exactly if an epoch was founded in between; a torn crash recovered with something to replay breaks it (Torn.EpochFoundedTwice) |
| `Epochs.AuthorityIsCurrent` | src/fabric_governance.cpp:61-65 | In every reachable state every resource's epoch and authority epoch equal the fabric's |
| `Epochs.EffectsAreCurrent` | src/fabric_apply.cpp:99-106 | Every mutation taken live, declarations and plan commits included, was asked for in the epoch in which it took effect |
| `Reach.RestartInv` | src/fabric_recovery.cpp:155-166 | A recovery from whatever a record-aligned crash leaves keeps the invariant and founds an epoch above the one before |
| `Reach.ExecInv` | src/fabric_apply.cpp:60-83 | The invariant of records, epochs, numbering and journal holds after every run |
| `Reach.LoadEpochPrefix` | src/fabric_recovery.cpp:63-76 | Reading more of a journal never lowers the epoch found |
| `AtMostOnce.SequencesIncrease` | src/provenance.cpp:21-81 | Within one life the accepted places of a publisher strictly increase, incarnation first, then sequence under one boot and a non-falling epoch |
| `AtMostOnce.EffectsConsume` | src/fabric_apply.cpp:320-355 | Every effect by declaration, mutation, reservation or plan commit consumes its own publisher, incarnation and sequence |
| `AtMostOnce.EffectsAreDistinct` | src/fabric_plans.cpp:86-110 | No two effects of one life share publisher, incarnation and sequence |
| `AtMostOnce.TableBounded` | src/provenance.cpp:21-28 | The publisher table never exceeds its bound |
| `AtMostOnce.FreshTable` | src/fabric.cpp:134-142 | A new life starts with an empty publisher table |
| `Tracking.CoveredRefused` | src/provenance.cpp:21-47 | Nothing the table covers is accepted again |
| `Tracking.ObserveCovers` | src/provenance.cpp:49-81 | Observing covers the new place, uncovers nothing, and follows whatever was covered |
| `Tracking.Tracker.ObserveOne` | src/provenance.cpp:49-81 | The tracker answers with the class's code and updates the publisher's entry exactly when it accepts |
| `Generations.GenerationIdentifies` | src/fabric_kinds.cpp:116-177 | Between any two moments of a life a queue's generation does not fall, and equal generations mean equal definitions and conversely |
| `Generations.OneChangePerGeneration` | src/fabric_apply.cpp:357-368 | Of all requests naming one expected generation at most one changes the definition |
| `Generations.DefinitionStep` | src/fabric_kinds.cpp:116-177 | A call changes a definition only by work that named its generation, and raises the generation by exactly one |
| `Lives.DefinitionsLast` | src/fabric_recovery.cpp:171-182 | Across any number of restarts: if the journal works, topology is settled before the first commit behind a snapshot, records and reasons fit, attempts are not reused and memos have room at each restart that another follows without a compaction between, then generations do not fall, and equal generations mean equal definitions (up to declaration time) and conversely, between any two moments; queues may be quiesced and fence tokens be redrawn |
| `Lives.OneChangeAcrossLives` | src/fabric_apply.cpp:357-368 | Under that condition at most one request naming an expected generation changes the definition, whatever restarts lie between |
| `Lives.NamesLast` | src/fabric_apply.cpp:108-142 | A name, once taken, stays with its queue for good across any restarts, if the journal works, topology is settled before the first commit behind a snapshot and resource records fit; nothing is asked of memos, attempts, reasons, fences or quiescence |
| `Lives.ServiceLasts` | src/lifecycle.cpp:50-83 | If moreover no queue newly becomes quiesced between a snapshot and a restart and fence numbering is exact at the snapshot, a queue that was active or draining still is, or was quiesced by a live step or failed in between, across any restarts |
| `Lives.RetirementLasts` | src/authority.cpp:70-78 | Under the condition of ServiceLasts a retired queue keeps lifecycle, definition and fence record, without drain or occupancy, across any restarts |
| `Lives.FencesLast` | src/authority.cpp:60-69 | Under the condition of ServiceLasts a fenced queue keeps definition, lifecycle, fence token, holder and reason until an unfence, across any restarts |
| `Lives.RestartKeeps` | src/fabric_recovery.cpp:59-182 | Each restart of such a run keeps what is in view: names and next id; definitions and shapes too; or everything durable of every queue |
| `Lives.TameLasts` | src/fabric_recovery.cpp:59-182 | Every run on an empty journal of steps that meet a view's condition one by one, crash after crash without a compaction, is such a run |
| `Lives.LastingWithin` | src/fabric_recovery.cpp:59-182 | The conditions are nested: what lasts with everything in view lasts for definitions, and that for names |
| `Lives.CompactFirst` | src/fabric_recovery.cpp:378-397 | A life that begins by compacting records that fit starts afresh, whatever journal it was recovered from |
| `Evictions.ReplayedFenceRedraws` | src/fabric_kinds.cpp:354-378 | Why memos need room: a replayed fence that was lowered again is raised anew, under a new token, if and only if its attempt is no longer remembered |
| `Evictions.FenceTokenRedrawn` | src/fabric_recovery.cpp:171-225 | A run from an empty journal with room for one attempt: fence, unfence, fence, then crash and recover twice; the queue is fenced throughout, and the second recovery changes its token from 2 to 3 |
| `Evictions.DefinitionLost` | src/fabric_recovery.cpp:171-225 | Definitions need the room too: with room for two attempts and a plan's marker between a fence and its unfence, recover, change the limits, crash and recover; the second replay raises the forgotten fence, skips the remembered unfence and refuses the limits, so the generation falls from 2 to 1 |
| `Losses.RestartLosesQueue` | src/fabric_recovery.cpp:171-182 | Without the condition the laws fail: declare a queue, redeclare its class, crash. With every record flushed and recovery successful, queue and name are gone and the next id is the lost queue's |
| `Losses.IdentityGivenAgain` | src/fabric_apply.cpp:196-260 | The next declaration gets the same id at the same generation with another definition |
| `Losses.SupersededDeclarationDropped` | src/fabric_apply.cpp:159-170 | Why, for any state: a replayed declaration whose class generation is no longer current changes no queue, name, id or resource |
| `Atomic.RejectionIsAtomic` | src/fabric_apply.cpp:33-43 | A refused or repeated mutation leaves every queue but its memo, the names, resources and plans unchanged; every call not refused for shutdown raises exactly one of applied, replayed and rejected by one |
| `Atomic.RememberedAttemptAnswered` | src/fabric_apply.cpp:272-311 | A remembered attempt is answered with its stored outcome if it asks for the same effect, as a conflict if not |
| `Atomic.RetryAnswered` | src/fabric_apply.cpp:272-311 | A retry of a remembered attempt gets the first outcome, whoever sends it and whatever epoch it claims |
| `Atomic.ReuseConflicts` | src/fabric_apply.cpp:272-311 | Reusing a remembered attempt for anything else is a conflict, unless the fingerprints collide; samples, evidence and acknowledgements, whose fingerprint leaves fields out, are excepted |
| `Names.IndexAgrees` | src/fabric_recovery.cpp:270-311 | In every reachable state the name index is exactly (resource, name) to id, names are unique, capacities hold, the next id is one above the greatest, and rebuilding changes neither index nor next id |
| `Names.NamesNeverRecycled` | src/fabric_apply.cpp:108-142 | Within one life a name, once taken, stays with its queue |
| `Names.ApplyIndexed` | src/fabric_apply.cpp:144-157 | Live or replayed, a mutation keeps the index, the capacities and the numbering |
| `Names.KeyTextInjective` | src/fabric.cpp:93-98 | Distinct resources and names have distinct key strings, whatever a name contains |
| `Counts.CountsAgree` | src/fabric_recovery.cpp:279-298 | In every reachable state, if whenever the journal was compacted the resource of every storable queue was storable, each queue's resource exists, each resource's counter is the number of its queues, and rebuilding changes no resource |
| `Counts.HomesLastIff` | src/fabric_recovery.cpp:77-94 | The condition is exact: compacting a reachable state and recovering leaves every queue with its resource if and only if it holds; counters are exact either way |
| `Counts.SnapshotHomed` | src/fabric_recovery.cpp:338-376 | A snapshot restores every queue with its resource exactly then |
| `Losses.ResourceLost` | src/fabric.cpp:330-446 | A class declared with a group of more than 128 bytes: compaction and recovery succeed, the resource is gone, its queue has none, and its id is the next to be given out |
| `Retirement.RetiresProperly` | src/lifecycle.cpp:50-83 | In one life a queue that was active or draining still is, or was quiesced by a live step or failed in between; so it retires no other way |
| `Retirement.RetiredForGood` | src/authority.cpp:70-78 | A retired queue's definition, lifecycle, fence, idle drain and absent occupancy never change again |
| `Retirement.FenceHolds` | src/authority.cpp:60-69 | While a queue is fenced nothing changes its definition, lifecycle, drain or acknowledgement, and only an unfence ends it |
| `Retirement.FlagIsRecord` | src/fabric_kinds.cpp:354-421 | In every reachable state the fenced flag equals the fence record and a draining queue has a drain in progress |
| `Soundness.PerformFences` | src/fabric_kinds.cpp:401-421 | Retiring keeps flag and fence record equal only because authorization refuses fenced queues |
| `Soundness.WorkedSound` | src/fabric_kinds.cpp:73-459 | Admitted work on a sound record leaves a sound record: bounds, coherence and dated evidence |
| `Evolution.ExistingEvolves` | src/fabric_apply.cpp:267-452 | A mutation of a queue is the work of a request that passed every stage, or leaves all but the memo as it was |
| `Deltas.StepDelta` | src/fabric_impl.hpp:19-49 | What any call of a running process may change in queues, resources, epoch and journal, call by call |
| `MemoLog.AgreesWithLog` | src/queue.cpp:17-31 | After any log the memo is within capacity, holds one entry per attempt, and each entry is the last the log says about its attempt |
| `MemoLog.NewEntrySurvives` | src/queue.cpp:17-31 | A newly remembered attempt is still held after any later log with fewer new attempts than the capacity |
| `MemoLog.OneMorePushesOut` | src/queue.cpp:27-30 | The bound is exact: a full memo drops its oldest entry for one more new attempt |
| `MemoLog.RememberInPlace` | src/queue.cpp:17-31 | Searching, overwriting in place, or shifting and extending the vector is Remember |
| `Frame.ChunkingIndependent` | src/frame.cpp:62-150 | For any bytes and any chunking whose pushes fit, draining after every push gives the frames and end state of decoding everything at once |
| `Frame.ReceiveChunks` | src/frame.cpp:62-150 | A whole chunked reception, pushing each chunk into a fresh decoder and draining it, returns exactly the frames and the end state of that theorem |
| `Frame.ByteAtATimeFits` | src/frame.cpp:62-78 | Chunks of at most one byte always fit |
| `Frame.RoundTrip` | src/frame.cpp:40-60 | Concatenated encoded frames come back exactly, in order, with nothing left |
| `Frame.AssembledDecodes` | src/frame.cpp:40-135 | An assembled frame in front of anything decodes to itself and its size |
| `Frame.DecodedWasAssembled` | src/frame.cpp:80-135 | Whatever decodes is the assembly of the frame returned |
| `Frame.ByteDamageRefused` | src/frame.cpp:89-120 | Changing any one byte of an encoded frame outside its length field is refused |
| `Frame.DamageRefused` | src/frame.cpp:89-120 | So is any change within four consecutive bytes of header, checksum or payload |
| `Frame.EncodeFrame` | src/frame.cpp:40-60 | The encoder writes exactly the assembled bytes, or nothing for an oversized payload |
| `Frame.FrameDecoder.Push` | src/frame.cpp:62-78 | A push extends the pending bytes, or fails the stream when they would exceed the bound |
| `Frame.FrameDecoder.NextFrame` | src/frame.cpp:80-135 | The next frame is what decoding the pending bytes says; a refusal latches |
| `Frame.FrameDecoder.DrainAll` | src/frame.cpp:80-150 | Repeated next calls emit what draining the pending bytes emits and keep the rest |
| `Frame.FrameDecoder.Compact` | src/frame.cpp:137-150 | Compaction keeps the pending bytes |
| `JournalFile.ScanExactAtCut` | src/file_journal.cpp:234-296 | For every record list and every cut the scan returns exactly the records wholly before the cut and the matching valid length |
| `JournalFile.ScanSound` | src/file_journal.cpp:234-296 | On arbitrary bytes, re-encoding the records found reproduces the bytes up to the valid prefix |
| `JournalFile.ScanFindsRecords` | src/file_journal.cpp:234-296 | Encoded records in front of anything are all found, and the scan goes on behind them |
| `JournalFile.EncodedDecodes` | src/file_journal.cpp:92-98 | An encoded record in front of anything decodes to itself |
| `JournalFile.DecodedWasEncoded` | src/file_journal.cpp:234-280 | Whatever record decodes was encoded in the bytes it took |
| `JournalFile.AppendedIsRecovered` | src/file_journal.cpp:299-328 | For any bytes and any record: appended behind them it is found, behind the records found before and with every byte used, if and only if the scan had used every byte |
| `JournalFile.ReadsAsEncoded` | src/file_journal.cpp:234-296 | A scan uses every byte if and only if the bytes are the encoding of the records it returns |
| `JournalFile.AppendBehindTornTailLost` | src/file_journal.cpp:299-328 | For example, a record of up to 255 bytes appended behind one stray torn byte is not found by the next scan |
| `FileJournal.HeaderRoundTrip` | src/file_journal.cpp:81-90 | A written header is accepted and gives back boot and epoch |
| `FileJournal.ScanFile` | src/file_journal.cpp:234-296 | The cursor loop over the file returns the records, the valid length and the reason to stop that the scan defines |
| `FileJournal.CutThenScan` | src/file_journal.cpp:234-296 | Cutting a file anywhere behind its header leaves exactly the records wholly before the cut |
| `FileJournal.TornThenScan` | src/file_journal.cpp:360-384 | Whatever lies behind the records of a file, a scan finds at least them |
| `Disk.CrashIsSurvivor` | src/file_journal.cpp:234-296 | Of a file that holds the journal, a crash that cuts it at any byte at or behind what was flushed leaves the records of some crash of the state machine, and reading them byte by byte gives what the state machine loads |
| `Disk.CrashThenRecover` | src/fabric_recovery.cpp:173-243 | After that crash and the recovery from it the file holds the journal of the recovered machine, so that the next crash is again one of the state machine, if and only if the cut fell between records or replay appended nothing |
| `Disk.RecoveredHolds` | src/fabric_recovery.cpp:210-243 | The same for any file that was cut and any records kept and appended |
| `JournalFile.TornRecovery` | src/file_journal.cpp:299-384 | For any bytes: the appends of replay, the truncation and the record of the new life end in a file that reads as all of them if and only if the tail was not torn or nothing was appended before the truncation |
| `FileJournal.FileJournal.RecoverTail` | src/fabric_recovery.cpp:210-243 | The journal's part of a recovery, call by call, leaves exactly those bytes under the new header, and they are legible exactly then |
| `Torn.EpochFoundedTwice` | src/fabric_governance.cpp:36-61 | The other case, from an empty journal: declare a queue, crash with one byte of the next record on disk, recover into epoch 2, advance to epoch 3, flushed, and crash again; the scan finds the first life's records only and epoch 3 is founded a second time |
| `Torn.BytesAreRecovered` | src/fabric_recovery.cpp:173-243 | The bytes of that example are what the recovery of the torn file leaves, with the record of the advance behind them |
| `Disk.LoadsAlike` | src/fabric_recovery.cpp:59-141 | For any list of records: encoding, decoding and loading them is loading them, with exactly the unreadable ones passed over |
| `Disk.WireRead` | src/fabric_recovery.cpp:61-138 | Every record that is written reads back as it is, or not at all, and exactly which |
| `FileJournal.FileJournal.Open` | src/file_journal.cpp:135-297 | Opening creates a header on an empty file, refuses a bad one, or loads the records and valid prefix of what is there |
| `FileJournal.FileJournal.Append` | src/file_journal.cpp:299-328 | Appending writes one record at the current end, or refuses when a bound would be exceeded; an interrupted write keeps what was there; what was appended is recoverable if and only if the valid prefix reached the end before |
| `FileJournal.FileJournal.WriteHeader` | src/file_journal.cpp:340-358 | Rewriting the header keeps every byte behind it, also in a file whose header was refused; a shorter file grows to a header |
| `FileJournal.FileJournal.TruncateToValidPrefix` | src/file_journal.cpp:360-384 | Truncation drops what lies behind the valid prefix and keeps the records |
| `FileJournal.FileJournal.Rewrite` | src/file_journal.cpp:386-451 | Compaction replaces the whole content by header and new records, or leaves the file as it was |
| `Crc32c.MakeTable` | include/qf/hash.hpp:16-29 | The nested loops build, for every byte, eight bitwise Castagnoli steps |
| `Crc32c.ExtendByTable` | include/qf/hash.hpp:37-45 | The table-driven loop equals the bitwise form, for every seed and message |
| `Crc32c.ExtendSplit` | include/qf/hash.hpp:37-45 | Extending over a split equals one pass |
| `Crc32c.BurstDetected` | include/qf/hash.hpp:37-45 | Messages of any length that differ only inside four consecutive bytes never share a checksum |
| `Codec.RoundTrip` | src/serialize.cpp:560-709 | Over all ten payloads, decoding an encoding gives the request back if names are at most 128, reasons at most 96 and evidence records at most 16, and refuses it otherwise |
| `Codec.PrefixSafe` | src/serialize.cpp:618-709 | Every proper prefix and every proper extension of an encoding is refused |
| `Codec.EncodingInjective` | src/serialize.cpp:560-616 | Distinct requests that are written have distinct encodings, reasons of 97 to 128 bytes and oversized evidence included |
| `Codec.FenceRead` | src/serialize.cpp:681-687 | A reason between 97 and 128 bytes is written but refused when read |
| `StateCodec.ResourceRoundTrip` | src/serialize.cpp:234-372 | A resource record decodes to what was encoded if and only if its texts are at most 128 bytes, its lists within the reader's bounds and the whole within 1 MiB; any other is refused |
| `StateCodec.QueueRoundTrip` | src/serialize.cpp:374-466 | A queue record decodes to what was encoded if and only if name, reasons, evidence count and memo are within the reader's bounds; any other is refused |
| `StateCodec.MisalignedRefused` | src/serialize.cpp:155-178 | Too many evidence records end the drain's read sixty bytes early without failing it; the rest is then read out of step and never ends with the record, so the record is refused after all |
| `StateCodec.EpochRoundTrip` | src/serialize.cpp:212-232 | An epoch record decodes to what was encoded |
| `StateCodec.ResourceSizeExact` | src/serialize.cpp:234-291 | The size of an encoded resource, from the layout: 139 bytes and its name, 12 a grant, 96 and two texts a class, 90 and a text a pool, 41 a backend |
| `StateCodec.GrantRead` | src/serialize.cpp:243-247 | A set of capabilities comes back from its bit mask |
| `ByteStreams.EncodeMutation` | src/serialize.cpp:560-616 | Field-by-field writing produces exactly the encoding, or nothing once the writer failed |
| `ByteStreams.DecodeMutation` | src/serialize.cpp:618-709 | Field-by-field reading accepts exactly what decoding defines |
| `ByteStreams.ByteWriter.PutRaw` | include/qf/bytes.hpp:76-86 | The first write that does not fit fails the writer for good; others append |
| `ByteStreams.ByteWriter.PutNum` | include/qf/bytes.hpp:43-74 | Numbers are appended in little-endian order, byte by byte |
| `ByteStreams.ByteWriter.PutText` | include/qf/bytes.hpp:88-95 | A text is its length and bytes; one longer than a name fails the writer |
| `ByteStreams.ByteReader.GetNum` | include/qf/bytes.hpp:120-170 | A number is read from the next bytes; past the end the read gives zero and latches the failure |
| `ByteStreams.ByteReader.GetText` | include/qf/bytes.hpp:181-192 | A text longer than allowed, or than what is left, latches the failure |
| `FabricObject.Fabric.ApplyMutation` | src/fabric_apply.cpp:60-83 | The entry point leaves the object in exactly the machine's state, with its verdict, live or replaying |
| `FabricObject.Fabric.ApplyExisting` | src/fabric_apply.cpp:267-452 | Memo, admission, work on a copy, journal and publication change exactly the fields, and as, the machine says |
| `FabricObject.Fabric.AdmitRequest` | src/fabric_apply.cpp:313-373 | Authority, provenance, generation and epoch in this order; an accepted sender stays heard even if then found stale |
| `FabricObject.Fabric.ExecuteWork` | src/fabric_apply.cpp:375-424 | The copy is published only after the journal took the commit; a refusal is remembered |
| `FabricObject.Fabric.ApplyDeclare` | src/fabric_apply.cpp:85-265 | Checks, journal, then number, name, count and publish the new queue |
| `FabricObject.Fabric.CheckDeclare` | src/fabric_apply.cpp:89-195 | Every test of a declaration in its order, with the loop that counts the resource's queues |
| `FabricObject.Fabric.ApplyKind` | src/fabric_kinds.cpp:18-459 | The branch of every kind does what the machine's rule for that kind says, and only a new fence draws a token |
| `FabricObject.IngestSample` | src/fabric_kinds.cpp:179-244 | A sample replaces the stored observation only after every check, clears the stale flag and keeps or undoes the drain's zero observation |
| `FabricObject.QuiesceNow` | src/fabric_kinds.cpp:319-352 | Quiescing assesses the drain, then the acknowledgement if policy asks |
| `FabricObject.SubmitDrain` | src/fabric_kinds.cpp:282-317 | Evidence is stored as revalidated only if count, live incarnation and epoch pass |
| `FabricObject.FindLiveBackend` | src/fabric_apply.cpp:20-31 | The loop finds the first live registration of the id |
| `FabricObject.Fabric.JournalCommit` | src/fabric_kinds.cpp:469-491 | Begin, commit and flush with each way to fail; a failed flush leaves both records appended |
| `FabricObject.Fabric.RecordRejection` | src/fabric_apply.cpp:33-43 | A rejection is counted once and remembered by the queue, if there is one |
| `FabricObject.Fabric.MonotonicNow` | src/fabric.cpp:102-108 | Time is the highest reading ever taken |
| `FabricObject.Fabric.AdvanceEpochNow` | src/fabric_governance.cpp:8-89 | The epoch record is durable before the loops move every resource and supersede every queue's evidence |
| `FabricObject.Fabric.InvalidateNow` | src/fabric_governance.cpp:91-125 | An administrator's invalidation marks present occupancy stale_backend and the queue stale |
| `FabricObject.Fabric.RefreshFreshness` | src/fabric_recovery.cpp:313-336 | The loop reclassifies every queue at the watermark |
| `FabricObject.Fabric.RebuildIndexes` | src/fabric_recovery.cpp:270-311 | The loops recompute counts, names and all next ids from the records |
| `FabricObject.LoadRecords` | src/fabric_recovery.cpp:59-141 | One pass over the records collects epoch, resources, restored queues, open attempts and the order of commits |
| `FabricObject.Fabric.ReplayAll` | src/fabric_recovery.cpp:171-182 | The loop replays commits in file order through the ordinary entry point |
| `FabricObject.Fabric.DistrustAll` | src/fabric_recovery.cpp:184-208 | The loops set every stored observation aside and mark every queue, orphaned attempts included |
| `FabricObject.Fabric.RecoverNow` | src/fabric_recovery.cpp:21-243 | Recovery, of a fresh or of a running fabric, without journal, with an exhausted epoch or in full: records are read over whatever is held, and the rest follows the machine |
| `FabricObject.FirstRecovery` | src/fabric_recovery.cpp:21-243 | On a fresh fabric that is the recovery of the state machine, in state and verdict |
| `FabricObject.Fabric.BuildSnapshot` | src/fabric_recovery.cpp:338-376 | The loops list epoch, resources and queues in id order |
| `FabricObject.Fabric.CompactNow` | src/fabric_recovery.cpp:378-397 | Compaction is refused without journal, in shutdown or with reservations, and else replaces the journal or leaves it |
| `FabricObject.Fabric.ReserveNow` | src/fabric_plans.cpp:46-157 | A reservation passes its checks, hears the sender, is journalled, then booked |
| `FabricObject.Fabric.CommitPlanNow` | src/fabric_plans.cpp:159-235 | The commit marker is durable before the acknowledgement goes through the pipeline; only success drops the reservation |
| `FabricObject.Fabric.AbortPlanNow` | src/fabric_plans.cpp:237-283 | Aborting journals a completed no-op and drops the reservation |
| `FabricObject.Fabric.RegisterBackendNow` | src/fabric.cpp:537-609 | A registration is in memory before it is journalled and stays if journalling fails |
| `FabricObject.Fabric.ShutdownNow` | src/fabric.cpp:676-696 | Shutdown closes the fabric to work and flushes |
| `Laws.AuthorizationIsExact` | src/authority.cpp:33-84 | Authorization holds exactly when all four conditions do, and the code is the first that fails |
| `Laws.FirstGrantDecides` | include/qf/authority.hpp:70-77 | The first grant naming a principal decides its capabilities |
| `Laws.FreshIsExact` | src/occupancy.cpp:40-64 | Fresh means present, not sticky, of the generation, not too far ahead and not too old, and conversely |
| `Laws.VerificationIsExact` | src/backend.cpp:8-35 | Verification holds exactly when every identity, epoch, generation and binding matches |
| `Laws.AssessmentIsExact` | src/drain.cpp:18-73 | A drain in progress may complete exactly on the full list of evidence |
| `Laws.AcceptanceIsExact` | src/provenance.cpp:21-47 | Exactly which provenance is accepted |
| `Laws.WindowFallsBack` | src/policy.cpp:17-53 | The freshness window is the definition's, else the class's, else the fabric's |
| `Laws.ValidationIsExact` | src/mutation.cpp:111-176 | Exactly which requests are structurally valid |
| `Laws.RetriesShareEffect` | src/mutation.cpp:178-234 | The effect fingerprinted ignores attempt, sender and claimed epoch |
| `Laws.EffectsTellApart` | src/mutation.cpp:178-234 | Except for samples, evidence and acknowledgements, the effect determines kind, target, generation, principal and payload |

## Left out

- Refinement.ReplayRefinesRun: behind a snapshot it asks that the journal works, that topology is settled before the first commit, that resource records and reasons fit, that attempts are not reused, that memos have room at each restart and that no queue newly becomes quiesced. The conditions are sufficient; that they cannot be dropped is shown by `Losses.RestartLosesQueue` (topology), `Refinement.QuiescenceNotReplayed` (quiescence), `Evictions.FenceTokenRedrawn` and `Evictions.DefinitionLost` (memos) and `Losses.ResourceLost` (resource records), not for every run that breaks one of them. The memo condition counts attempts, so a run may exceed it unharmed where replay refuses the forgotten requests; for a fence `Evictions.ReplayedFenceRedraws` says exactly when it does not.
- Lives.DefinitionsLast: asks for room in the memos, since without it the law fails (`Evictions.DefinitionLost`); Lives.NamesLast does not.
- Epochs.EpochsIncrease: crashes keep whole records, as in all runs of the machine; a torn cut is followed through one recovery at file level (`Disk.CrashThenRecover`), and where replay then appends behind it the law fails (`Torn.EpochFoundedTwice`).
- Generations.GenerationIdentifies: one process life, for every run of it; across restarts the law fails without conditions (`Losses.IdentityGivenAgain`) and `Lives.DefinitionsLast` says when it holds.
- Generations.OneChangePerGeneration: one process life; `Lives.OneChangeAcrossLives` is the form across restarts.
- Names.NamesNeverRecycled: one process life; `Lives.NamesLast` is the form across restarts, and `Losses.RestartLosesQueue` shows that it needs its condition.
- Retirement.RetiresProperly: one process life; `Lives.ServiceLasts` is the form across restarts.
- Retirement.RetiredForGood: one process life; `Lives.RetirementLasts` is the form across restarts.
- Retirement.FenceHolds: one process life; `Lives.FencesLast` is the form across restarts, and `Evictions.FenceTokenRedrawn` shows that it needs its condition.
- The state codecs (`StateCodec`) are functions on byte strings; the writer and reader objects with their loops are modelled for the mutation codec only (`ByteStreams`). Bytes no writer produces, such as lifecycle, freshness, phase or outcome codes outside their enumerations, are refused here where the source keeps the raw value; capability bits without a name are dropped.
- FabricObject.Fabric.RecoverNow: a second recovery of a running fabric is modelled as a call of the object; runs of the machine restart a new process instead.
- declare_resource, grant_capabilities, declare_class, declare_pool and mark_backend_dead are machine functions only, not methods of the `Fabric` object, so updating their records in place is not modelled for these five calls.
- The `Fabric` object keeps the publisher table as a field; the tracker object is proved separately in `Tracker`.
- Per-queue counters, last attempt and status, rule and message texts, events, statistics other than the three mutation counters, and the list of pending attempts shown by queries.
- Journal append errors are one code; identity counters and the coordinator incarnation do not wrap at 64 bits.
- Journal failures during recovery other than those of replayed commits: opening, the header write and the epoch record succeed.
- Failed recoveries (epoch exhausted) are modelled, but runs are only followed through recoveries that succeed.
- Threshold evaluation and the rest of `explain` beyond reading the clock and classifying freshness.
- Hash quality of fingerprints and boot id generation.
- The transport, process, coordinator, worker and command-line layers, and the wire messages of the protocol.
