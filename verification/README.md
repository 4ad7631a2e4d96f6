# Evidence-driven memory: a verified model

This project models an evidence-driven memory service and proves properties of its runs. It has five parts.

- **Authoritative store and use cases** (`Beliefs`, `MemoryTables`, `AsOf`, `Recall`, `Service`, `MemoryStore`,
  `MemoryApplications`). A record is a chain of revisions for one scope, key and context; each revision carries a belief
  folded from its evidence. Hand-kept indexes, a bitemporal read, an incremental utility table and a scope erasure work
  on the same tables. `MemoryInvariant`, `MemoryWrites`, `ExperienceInvariant`, `ScopeErasure` and `MemoryRuns` prove one
  invariant over all runs; `ChainReads`, `TopK`, `Retries`, `Bitemporal` and `Transactions` build the main results on it,
  and `WriteMeaning`, `FeedbackMeaning`, `RecallMeaning`, `EraseMeaning` and `CallMeaning` say what each use case does in
  terms of its command alone.
- **Projection queue and erasure protocol** (`Governance`, `Queue`, `Protocol`, `Projector`, `Privacy`). One transition
  system interleaves gated writers, projection workers, rebuilds and erasing callers over one governance state, one
  authority, one leased job queue and one projection. `ErasureSafety`, `GrantSafety`, `RebuildSafety` and `QueueBounds`
  prove what every run keeps, `ClaimMeaning` and `ProtocolMeaning` what the statements and steps do to rows and holders;
  `RebuildGap` is a run that shows what a run does not keep.
- **Evolution registry** (`Weights`, `Registry`, `Evolution`, `RegistryStore`). Experiments walk a stage graph under
  verified receipts; the activation log turns out to be a stack; proposals shift bounded weights. `GateMeaning` writes
  out which receipt moves an experiment along which edge.
- **Context compressor** (`Json`, `Traces`, `Compression`, `Projections`, `ProjectionMeaning`). Greedy selection under a
  character budget and exact de-duplication, against a strict constructor; a printer/parser pair shows that rendered
  objects determine their items.
- **Vocabulary** (`Common`, `Sorting`, `Sums`).

What the source does step by step on objects is modelled as classes whose methods are proved against functions on the
tables: the store with its snapshot stack, the memory application, the registry, the job source, the index, the worker,
the governance adapter and the erasing use case. The lemmas are about those functions and about runs made of them.

Choices that matter for reading the contracts:

- Times are integers and scores are reals; rounding is not modelled. Identifiers come from a counter, so they never
  repeat. A call's clock readings never go back; the store itself does not enforce this, and the bitemporal claims need
  it.
- SHA-256 digests and HMAC values stand for what they digest or sign. A context's fingerprint is the context where it is
  used as a key, and an arbitrary text where it is used to sort.
- A use case that raises is a result `Err`; in the classes the snapshot taken on entry is put back, and that is proved.
- Tokenisation, the decay of an age and the hits of the recall projection are parameters; only their ranges are assumed
  ([0, 1], finite sets).
- Text arrives stripped and non-blank, as the command constructors leave it.
- In `Protocol` a step whose guard fails changes nothing but the step count, so quantifying over all step sequences
  quantifies over all interleavings. History fields (`History`) record what has happened, only to state properties.

Three places where a claim fails, and exactly when it holds:

- The compressor can refuse a trace that the trace constructor accepts: `Projections.RepeatedRevisionIsRefused` is one
  that lists a revision twice. It refuses exactly when a selected source repeats a revision, or the budget or the trace
  header is unacceptable (`Projections.ProjectSucceedsExactly`); with room for everything, exactly when the trace repeats
  a revision (`Projections.RoomyTracesProjectExactly`). No recall stores such a trace
  (`MemoryRuns.StoredTracesProject`).
- A job that is 'succeeded' need not have its document in the projection: `RebuildGap.SuccessOutlivesReset` is a run in
  which a rebuild has reset the projection and not yet requeued the jobs. For an unfenced scope the document is there
  exactly when the last write of its revision is later than the last reset (`RebuildSafety.SucceededIsProjected`); an
  operator can rely on it whenever the last reset is that of a rebuild that has returned
  (`RebuildSafety.RebuiltIsProjected`).
- Reinforcing a belief can lower its confidence, from 1 to 0.995 (`Beliefs.CertaintyIsLowered`): it keeps or raises it
  exactly when the confidence is at most 0.995 (`Beliefs.ReinforcementRaises`).

## Model

| member | source | states |
|---|---|---|
| `ErasureSafety.NoResurrection` | `src/evolvable_memory/application/governance.py:174-217` | For every interleaving of gated writers, projection workers, rebuilds and erasing callers, with any failures and retries: once an erasure of a scope is completed, no revision, outbox event, other stored entity, job or (with a projection) document of it exists, then and after every continuation |
| `ErasureSafety.NextKeeps` | `src/evolvable_memory/adapters/postgres_governance.py:81-148` | Every step keeps the invariant behind it: requests are fenced, nobody is inside a fenced scope, and each erasing caller has deleted what its phase says |
| `ErasureSafety.BeginKeeps` | `src/evolvable_memory/adapters/postgres_governance.py:352-437` | Taking the lock exclusively, planting the fence and recording the request keeps the invariant, because every shared holder has left |
| `ErasureSafety.CheckFenceKeeps` | `src/evolvable_memory/adapters/postgres_governance.py:124-148` | A worker that passes the fence check under the shared lock is in no fenced scope |
| `ErasureSafety.CheckKeeps` | `src/evolvable_memory/application/access.py:256-267` | A writer enters the processing context only of an unfenced scope |
| `ErasureSafety.DeleteProjectionKeeps` | `src/evolvable_memory/application/service.py:152-157` | Deleting the projection first, also when it raises half-way, keeps the invariant |
| `ErasureSafety.GiveUpKeeps` | `src/evolvable_memory/application/governance.py:209-217` | Giving up leaves every fence standing and every request with its status: a pending one pending |
| `ErasureSafety.EffectKeepsCompleted` | `src/evolvable_memory/adapters/postgres_governance.py:439-518` | No step changes a completed erasure request |
| `ErasureSafety.ErasureCompletes` | `src/evolvable_memory/application/governance.py:174-208` | An erasure whose handlers succeed completes its request, new or retried under the same key, from every state the invariant allows once nobody holds the scope's lock |
| `Governance.BeginStores` | `src/evolvable_memory/adapters/in_memory_governance.py:170-214` | Beginning answers with the stored request of that scope and keeps requests found under keys of their own scope |
| `Governance.CompletingStores` | `src/evolvable_memory/adapters/in_memory_governance.py:216-238` | Completing a stored request changes that request and nothing else; a pending one takes the report |
| `Governance.FailingStores` | `src/evolvable_memory/adapters/in_memory_governance.py:240-257` | Recording a failure changes that request and nothing else: a pending one stays pending, a completed one is as it was |
| `Governance.IssuingAdmits` | `src/evolvable_memory/adapters/in_memory_governance.py:76-116` | A grant under a new key admits exactly what it covers, on top of what was admitted |
| `Governance.IssuingReplays` | `src/evolvable_memory/adapters/in_memory_governance.py:106-113` | A grant key sent again changes nothing and returns its grant if it asks for the same purposes, basis, policy and period, and is refused otherwise |
| `Governance.RevokingRemoves` | `src/evolvable_memory/adapters/in_memory_governance.py:118-139` | Revoking takes away exactly what no other grant covers; revoking again changes nothing |
| `GrantSafety.RevocationIsFinal` | `src/evolvable_memory/adapters/in_memory_governance.py:118-139` | After a revocation the grant covers no purpose at any time, in that state and after every continuation of any actors |
| `Privacy.InMemoryPrivacyGovernance.constructor` | `src/evolvable_memory/adapters/in_memory_governance.py:26-35` | No grants, fences or requests |
| `Privacy.InMemoryPrivacyGovernance.EnterProcessing` | `src/evolvable_memory/adapters/in_memory_governance.py:43-65` | Admits exactly unfenced scopes with a live grant covering the purpose at the time |
| `Privacy.InMemoryPrivacyGovernance.IssueGrant` | `src/evolvable_memory/adapters/in_memory_governance.py:76-116` | Returns the stored grant, new or replayed, or refuses a reused key without effect; what that means is Governance.IssuingAdmits and Governance.IssuingReplays |
| `Privacy.InMemoryPrivacyGovernance.RevokeGrant` | `src/evolvable_memory/adapters/in_memory_governance.py:118-139` | The returned grant is stored and covers nothing from then on; unknown or foreign grants are not found; see also Governance.RevokingRemoves and GrantSafety.RevocationIsFinal |
| `Privacy.InMemoryPrivacyGovernance.Suppress` | `src/evolvable_memory/adapters/in_memory_governance.py:141-168` | Plants a fence once, never replaces it, and returns the one that stands |
| `Privacy.InMemoryPrivacyGovernance.BeginErasure` | `src/evolvable_memory/adapters/in_memory_governance.py:170-214` | Fences the scope and stores a pending request, or answers with the earlier one |
| `Privacy.InMemoryPrivacyGovernance.CompleteErasure` | `src/evolvable_memory/adapters/in_memory_governance.py:216-238` | Completes a pending request once, with its counts and whether there was a projection |
| `Privacy.InMemoryPrivacyGovernance.FailErasure` | `src/evolvable_memory/adapters/in_memory_governance.py:240-257` | Leaves a request pending with its error; a completed one stays completed |
| `Privacy.PrivacyApplication.EraseData` | `src/evolvable_memory/application/service.py:152-157` | Projection first, then authority; on success nothing of the scope is left and the counts of both are returned; when a step raises the authority is untouched; other scopes' documents never change |
| `Privacy.PrivacyApplication.RunHandlers` | `src/evolvable_memory/application/governance.py:193-217` | Success completes the request with its report and leaves nothing of the scope; a raising deletion or completion leaves it pending and raises; so does a failure that cannot be recorded |
| `Privacy.PrivacyApplication.Erase` | `src/evolvable_memory/application/governance.py:174-217` | A completed request is answered as it is; otherwise the scope is fenced, and the answer is completion with the data gone and the report stored, or an error with the request pending |
| `RebuildSafety.RebuildIsSafe` | `src/evolvable_memory/application/projection.py:65-69` | In every run: after a rebuild whose reset was at some step has returned, a job is succeeded only if its document was upserted after that reset, then and after anything that follows |
| `RebuildSafety.SucceededIsProjected` | `src/evolvable_memory/application/projection.py:83-100` | In every run a succeeded job of an unfenced scope has exactly its committed document in the projection if and only if the last write of its revision is later than the last reset |
| `RebuildSafety.RebuiltIsProjected` | `src/evolvable_memory/application/projection.py:65-69` | After a rebuild that no later reset disturbed, every succeeded job of an unfenced scope has its committed document in the projection |
| `RebuildGap.SuccessOutlivesReset` | `src/evolvable_memory/application/projection.py:65-69` | A run that ends with a succeeded job of an unfenced scope and no document of it: the rebuild has reset the projection and not yet requeued |
| `RebuildSafety.ProjectionIsFaithful` | `src/evolvable_memory/adapters/projection_outbox.py:121-154` | Every document in the projection is exactly what was committed with its event |
| `RebuildSafety.QueueAccounts` | `src/evolvable_memory/migrations/versions/0006_milvus_projection_queue.py:44-58` | In every reachable state: leases and processed times match status, pending means no attempts, failed means attempts below the maximum, dead-lettered at least the maximum; a worker between runs has claimed = succeeded + failed; the cursor time is the latest completed since the last requeue |
| `RebuildSafety.NextKeeps` | `src/evolvable_memory/adapters/projection_outbox.py:79-244` | Every step keeps the queue invariant |
| `RebuildSafety.ClaimKeeps` | `src/evolvable_memory/adapters/projection_outbox.py:79-119` | A claim keeps the queue invariant and leaves the claiming worker the only holder of what it claimed, in whatever order the rows come |
| `RebuildSafety.SettlingKeeps` | `src/evolvable_memory/adapters/projection_outbox.py:156-226` | Settling a held job keeps the queue invariant |
| `RebuildSafety.CursorAdvances` | `src/evolvable_memory/adapters/projection_outbox.py:177-191` | Completing an event moves the cursor to the latest completed time |
| `RebuildSafety.RequeueKeeps` | `src/evolvable_memory/adapters/projection_outbox.py:228-244` | The end of a rebuild keeps the queue invariant and leaves no worker holding any job |
| `QueueBounds.ClaimsAreBounded` | `src/evolvable_memory/application/projection.py:71-133` | While no lease expires, nothing is requeued and no event is added, at most events x maximum attempts claims are possible from any reachable state |
| `QueueBounds.StepSpends` | `src/evolvable_memory/adapters/projection_outbox.py:79-119` | Every claim is paid for out of a budget that no undisturbed step refills |
| `Queue.ClaimTakesOldest` | `src/evolvable_memory/adapters/projection_outbox.py:90-107` | A claim takes different claimable, unlocked jobs, at most the limit, and leaves none older than one it takes; which rows are claimable and what older means is ClaimMeaning.ClaimsOldestDue |
| `Queue.BackoffIsBounded` | `src/evolvable_memory/application/projection.py:104-107` | The retry delay lies between base and cap and never shrinks with more attempts |
| `Projector.ProjectionJobs.Discover` | `src/evolvable_memory/adapters/projection_outbox.py:60-77` | Adds a pending job for every event without one and counts them |
| `Projector.ProjectionJobs.Claim` | `src/evolvable_memory/adapters/projection_outbox.py:79-119` | Leases the oldest claimable jobs whose rows nobody has locked and returns them, in any order, with their attempts; the worker holds each; which jobs are due is ClaimMeaning.ClaimsOldestDue |
| `Projector.ProjectionJobs.Complete` | `src/evolvable_memory/adapters/projection_outbox.py:156-191` | Owner-checked completion and cursor update, or the lease is lost |
| `Projector.ProjectionJobs.Fail` | `src/evolvable_memory/adapters/projection_outbox.py:193-226` | Owner-checked failure or dead letter, or the lease is lost |
| `Projector.ProjectionJobs.RequeueAll` | `src/evolvable_memory/adapters/projection_outbox.py:228-244` | Every job pending again, without attempts, and how many; the cursor is gone |
| `Projector.MemoryProjectionWorker.ClaimBatch` | `src/evolvable_memory/application/projection.py:72-79` | Discover and claim: the worker holds a batch of different jobs |
| `Projector.MemoryProjectionWorker.RunItem` | `src/evolvable_memory/application/projection.py:84-127` | Load, gate, upsert, complete; or fail with backoff or dead letter |
| `Projector.MemoryProjectionWorker.RunItems` | `src/evolvable_memory/application/projection.py:80-127` | The loop settles each claimed job as its own item went, touches no other row, and counts successes and dead letters exactly |
| `Projector.MemoryProjectionWorker.RunOnce` | `src/evolvable_memory/application/projection.py:71-133` | claimed = succeeded + failed, with the exact successes and dead letters; each claimed job is settled, no other row changes, every written document is in the index |
| `Projector.MemoryProjectionWorker.Rebuild` | `src/evolvable_memory/application/projection.py:65-69` | Empties the index, requeues every job, discovered ones included, and returns how many |
| `Projector.RecallIndex.DeleteScope` | `src/evolvable_memory/application/service.py:152-157` | Removes exactly the documents of the scope and counts them |
| `MemoryWrites.IngestGrows` | `src/evolvable_memory/application/service.py:531-634` | An accepted write adds exactly one observation, span, accepted candidate, revision at the head of its chain, and transition; everything else is unchanged |
| `MemoryWrites.IngestKeeps` | `src/evolvable_memory/application/service.py:159-228` | A write that is no retry is accepted exactly when its confidence is in [0, 1], its key unused and its expected record current; then the store invariant is kept |
| `MemoryWrites.KnownIdentity` | `src/evolvable_memory/adapters/in_memory.py:358-370` | A current memory is the head of its record's chain |
| `MemoryWrites.WrittenBeliefIsOk` | `src/evolvable_memory/application/service.py:582-598` | The new revision's belief is the fold of its evidence: reinforced for the same value, fresh for another |
| `MemoryInvariant.IntakeGrows` | `src/evolvable_memory/adapters/in_memory.py:322-356` | Ingestion keeps observations, keys, candidates and spans in agreement |
| `MemoryInvariant.MemoryGrows` | `src/evolvable_memory/adapters/in_memory.py:372-416` | Adding or appending keeps identities, chains, heads and revisions in agreement |
| `MemoryInvariant.LinksGrow` | `src/evolvable_memory/adapters/in_memory.py:322-416` | Accepted candidates stay resolvable and beliefs stay the folds of their evidence |
| `MemoryApplications.MemoryApplication.StoreNew` | `src/evolvable_memory/application/service.py:545-578` | First revision of a new record |
| `MemoryApplications.MemoryApplication.StoreNext` | `src/evolvable_memory/application/service.py:579-624` | Next revision, reinforced or afresh |
| `MemoryApplications.MemoryApplication.AcceptCandidate` | `src/evolvable_memory/application/service.py:531-634` | The acceptance as a function of the former tables |
| `MemoryApplications.MemoryApplication.IngestEvidence` | `src/evolvable_memory/application/service.py:176-227` | Observation, span, candidate, acceptance |
| `MemoryApplications.MemoryApplication.RememberPreference` | `src/evolvable_memory/application/service.py:159-228` | One transaction: the specified result and tables, or an error with every table as before; in terms of the command, WriteMeaning.RememberMeans |
| `MemoryApplications.MemoryApplication.CorrectPreference` | `src/evolvable_memory/application/service.py:230-318` | One transaction: the specified result and tables, or an error with every table as before; in terms of the command, WriteMeaning.CorrectMeans |
| `MemoryApplications.MemoryApplication.Score` | `src/evolvable_memory/application/service.py:343-382` | The scoring loop keeps exactly the admitted entries |
| `MemoryApplications.MemoryApplication.Recall` | `src/evolvable_memory/application/service.py:320-422` | The trace is the specified one, in words RecallMeaning.RecallInWords, and is stored; a refused recall stores nothing |
| `MemoryApplications.MemoryApplication.RecordOutcome` | `src/evolvable_memory/application/service.py:424-460` | One transaction: the specified result and tables, or an error with every table as before; in terms of the command, FeedbackMeaning.OutcomeMeans |
| `MemoryApplications.MemoryApplication.RecordUsage` | `src/evolvable_memory/application/service.py:462-496` | One transaction: the specified result and tables, or an error with every table as before; in terms of the command, FeedbackMeaning.UsageMeans |
| `MemoryStore.InMemoryMemoryStore.constructor` | `src/evolvable_memory/adapters/in_memory.py:92-117` | Empty tables, no snapshot |
| `MemoryStore.InMemoryMemoryStore.Enter` | `src/evolvable_memory/adapters/in_memory.py:65-73` | Pushes a snapshot of every table |
| `MemoryStore.InMemoryMemoryStore.Exit` | `src/evolvable_memory/adapters/in_memory.py:75-86` | Pops it, and puts every table back when the block raised |
| `MemoryStore.InMemoryMemoryStore.Restore` | `src/evolvable_memory/adapters/in_memory.py:313-315` | Every table as in the snapshot |
| `MemoryStore.InMemoryMemoryStore.SaveIngestion` | `src/evolvable_memory/adapters/in_memory.py:322-340` | Stores observation, key, span and candidate, or conflicts without effect |
| `MemoryStore.InMemoryMemoryStore.UpdateCandidate` | `src/evolvable_memory/adapters/in_memory.py:352-356` | Replaces a stored candidate, or conflicts without effect |
| `MemoryStore.InMemoryMemoryStore.AddMemory` | `src/evolvable_memory/adapters/in_memory.py:372-389` | Adds record, identity, revision, chain, head and transition, or conflicts without effect |
| `MemoryStore.InMemoryMemoryStore.AppendRevision` | `src/evolvable_memory/adapters/in_memory.py:391-416` | Appends a contiguous revision to the active head, or conflicts without effect |
| `MemoryStore.InMemoryMemoryStore.NewestEligible` | `src/evolvable_memory/adapters/in_memory.py:440-450` | One pass finds the maximum by (recorded_at, sequence, id) |
| `MemoryStore.InMemoryMemoryStore.Visible` | `src/evolvable_memory/adapters/in_memory.py:436-452` | Exactly the scope's records with an eligible revision, and what each shows |
| `MemoryStore.InMemoryMemoryStore.MemoriesAsOf` | `src/evolvable_memory/adapters/in_memory.py:427-462` | The bitemporal read in sorted order |
| `MemoryStore.InMemoryMemoryStore.UtilityForAsOf` | `src/evolvable_memory/adapters/in_memory.py:524-556` | One pass over the outcomes recorded by then; what each adds is FeedbackMeaning.LogMoves |
| `MemoryStore.InMemoryMemoryStore.SaveTrace` | `src/evolvable_memory/adapters/in_memory.py:474-476` | Stores the trace and changes nothing else |
| `MemoryStore.InMemoryMemoryStore.SaveUsage` | `src/evolvable_memory/adapters/in_memory.py:483-501` | Stores a new usage, replays an equal one, refuses a reused key |
| `MemoryStore.InMemoryMemoryStore.ApplyOutcome` | `src/evolvable_memory/adapters/in_memory.py:558-591` | Stores a new outcome and updates its estimate, replays an equal one, refuses a reused key; what it adds is FeedbackMeaning.OutcomeMeans |
| `MemoryStore.InMemoryMemoryStore.EraseScope` | `src/evolvable_memory/adapters/in_memory.py:593-672` | Every table without the scope, and the counts |
| `Transactions.StackImplementsBlocks` | `src/evolvable_memory/adapters/in_memory.py:61-86` | The snapshot stack implements "a block that raises is undone" for every nesting of blocks, raises and handlers |
| `Transactions.FailedBlockIsUndone` | `src/evolvable_memory/adapters/in_memory.py:75-86` | A raising block leaves the state and the outer snapshots as it found them |
| `MemoryRuns.DoKeeps` | `src/evolvable_memory/application/service.py:159-496` | Every use case, accepted or raising, keeps the whole store invariant |
| `MemoryRuns.BeliefsAreTheirEvidence` | `src/evolvable_memory/domain/memory.py:57-86` | In every reachable state each revision's evidence is distinct and supports candidates of its record's scope, key, context and its value; support, sources, latest time and confidence are those of that evidence |
| `MemoryRuns.UtilityIsTheLog` | `src/evolvable_memory/adapters/in_memory.py:508-591` | In every reachable state, for every scope, revision and context, the incremental estimate equals the one recomputed from the log at any time not before the recorded ones; which way an outcome moves it is FeedbackMeaning.OutcomeMeans |
| `MemoryRuns.OutcomesAreAttributable` | `src/evolvable_memory/application/service.py:424-496` | In every reachable state each outcome's trace exists in its scope and lists its revision; each usage cites only revisions of the projection of its trace that it names |
| `MemoryRuns.ReadsAreChainAnswers` | `src/evolvable_memory/adapters/in_memory.py:427-462` | In every reachable state chains run 1..n with supersedes links and the head last; the as-of read shows, for exactly the records with an eligible revision, the last eligible one, and equals the active memories when both times cover all |
| `MemoryRuns.ErasureConserves` | `src/evolvable_memory/adapters/in_memory.py:593-672` | In every reachable state: erasing leaves no identifier of the scope's entities in any table, chain, head or index and no transition of its records, reports exactly the size drops, keeps all indexes in agreement; a second erasure changes nothing and reports zeros |
| `MemoryRuns.ErasureFrames` | `src/evolvable_memory/adapters/in_memory.py:593-672` | In every reachable state erasing a scope changes no answer about another: lookups, active memories, histories with their revisions, bitemporal reads, traces, usages, estimates |
| `MemoryRuns.RecallIsExact` | `src/evolvable_memory/application/service.py:320-422` | In every reachable state a recall with sound inputs fails only for its limit, a blank query or a future known_at, and otherwise returns the true top results; written out in RecallMeaning.RecallInWords |
| `MemoryRuns.AttributionHolds` | `src/evolvable_memory/application/service.py:426-438` | An outcome admitted through its usage names a revision of the trace |
| `MemoryRuns.CitationHolds` | `src/evolvable_memory/application/service.py:464-478` | A usage admitted against a projection cites revisions of the trace |
| `MemoryRuns.StoredTracesProject` | `src/evolvable_memory/application/compression.py:29-90` | In every reachable state every stored trace projects under both algorithms and every admissible budget |
| `Retries.RememberIsStable` | `src/evolvable_memory/application/service.py:636-690` | An accepted write, sent again with another time after any calls that do not erase its scope, returns the original result and changes nothing |
| `Retries.CorrectIsStable` | `src/evolvable_memory/application/service.py:238-253` | The same for an accepted correction, whatever head it now expects |
| `Bitemporal.RecallIsReproducible` | `src/evolvable_memory/application/service.py:320-422` | A recall with both times given, repeated after any calls recorded strictly after its known_at, returns the same items |
| `Bitemporal.GrowthKeepsKnowledge` | `src/evolvable_memory/adapters/in_memory.py:427-462` | A later write changes nothing that was known before it |
| `Bitemporal.FeedbackKeepsKnowledge` | `src/evolvable_memory/adapters/in_memory.py:524-556` | A later outcome changes no earlier estimate |
| `ChainReads.ReadIsChainAnswer` | `src/evolvable_memory/adapters/in_memory.py:427-462` | One snapshot for each record with an eligible revision, in sorted order, showing the last eligible revision |
| `ChainReads.FullReadIsActive` | `src/evolvable_memory/adapters/in_memory.py:418-425` | When both times cover every revision of the scope, the read is the set of active heads |
| `AsOf.BestIsBest` | `src/evolvable_memory/adapters/in_memory.py:446-450` | The pass returns an eligible revision that no eligible one beats, or none when there is none |
| `ExperienceInvariant.OutcomeKeeps` | `src/evolvable_memory/adapters/in_memory.py:558-591` | A new outcome keeps the log, its keys and the estimates in agreement |
| `ExperienceInvariant.TraceKeeps` | `src/evolvable_memory/adapters/in_memory.py:474-476` | A new trace disturbs no usage, outcome or estimate |
| `ScopeErasure.EraseKeeps` | `src/evolvable_memory/adapters/in_memory.py:593-672` | Erasure keeps the whole store invariant |
| `ScopeErasure.SummaryIsSizeDrop` | `src/evolvable_memory/adapters/in_memory.py:593-672` | Each count is the drop of its table, traces and usages also by item |
| `ScopeErasure.SecondEraseFindsNothing` | `src/evolvable_memory/adapters/in_memory.py:593-672` | A second erasure is the identity and reports zeros |
| `ScopeErasure.ReadFramed` | `src/evolvable_memory/adapters/in_memory.py:593-672` | The bitemporal read of another scope is unchanged |
| `Beliefs.ConfidenceClosedForm` | `src/evolvable_memory/domain/memory.py:57-86` | Confidence is c1 for one item and min(0.995, 1 - product of (1 - ci)) for more |
| `Beliefs.ReinforcementRaises` | `src/evolvable_memory/domain/memory.py:57-86` | Reinforcement keeps or raises the confidence exactly when it is at most 0.995 |
| `Beliefs.CertaintyIsLowered` | `src/evolvable_memory/domain/memory.py:57-86` | A belief with confidence 1 comes out of any reinforcement with 0.995 |
| `Beliefs.OrderIsIrrelevant` | `src/evolvable_memory/domain/memory.py:57-86` | The belief depends only on which evidence there is |
| `TopK.RecallReturnsTheBest` | `src/evolvable_memory/application/service.py:384-422` | The items are the first limit of exactly the qualifying entries, one per record, by (score, recorded_at, id) descending; nothing left out outranks anything returned; the order is written out in RecallMeaning.RecallInWords |
| `TopK.ItemsAreAdmitted` | `src/evolvable_memory/application/service.py:713-729` | Each item is ranked by position, scores in [min_score, 1] and passes the relevance floor, for any weights |
| `TopK.RecallSucceedsExactly` | `src/evolvable_memory/domain/experience.py:97-109` | With sound inputs the trace constructor accepts whatever the recall computes |
| `TopK.SimilarityMeaning` | `src/evolvable_memory/domain/common.py:77-96` | Between contexts that both have facets similarity is symmetric, 1 exactly for equal facets, and 0 when they share no facet or contradict each other on three keys |
| `TopK.StrongerSignalsScoreHigher` | `src/evolvable_memory/application/service.py:732-740` | Stronger signals never score lower, whatever the weights |
| `TopK.ScoreIsAnAverage` | `src/evolvable_memory/application/service.py:732-740` | The score lies between the weakest and the strongest signal when the weights sum to one |
| `ActivationStack.LogIsAStack` | `src/evolvable_memory/adapters/in_memory.py:247-305` | In every reachable registry the promoted experiments in promotion order form a chain from the bootstrap strategy to the active one, and the active version is 1 + promotions - rollbacks |
| `ActivationStack.OnlyTopRollsBack` | `src/evolvable_memory/adapters/in_memory.py:247-284` | Only the top promoted experiment can be rolled back; the rollback pops it and restores its baseline |
| `Evolution.EveryAdvanceIsGated` | `src/evolvable_memory/application/evolution.py:130-174` | In every run each history is a legal path from proposed with non-decreasing times, at most five advances, each covered by a receipt verified at its time; the decisions are written out in GateMeaning.EveryStepIsEntitled |
| `Evolution.CallsWriteCommands` | `src/evolvable_memory/application/evolution.py:67-174` | What propose and advance leave in the registry is what the corresponding call of a run leaves, so results about runs are about them |
| `Evolution.AdvanceReplays` | `src/evolvable_memory/application/evolution.py:206-224` | Replaying an accepted advance at any later point returns the original experiment value |
| `Evolution.ProposalReplays` | `src/evolvable_memory/application/evolution.py:175-204` | Replaying an accepted proposal at any later point returns the original candidate and experiment |
| `Evolution.DraftOutcome` | `src/evolvable_memory/application/evolution.py:67-128` | There is a draft unless the diagnosis is empty or its target is at the ceiling, and its candidate is acceptable |
| `Evolution.DraftIsRegistered` | `src/evolvable_memory/adapters/in_memory.py:161-194` | With fresh identifiers the store accepts every draft made from its active strategy |
| `Evolution.IssuedReceiptVerifies` | `src/evolvable_memory/adapters/gate_receipts.py:85-100` | An issued receipt verifies exactly while its key is trusted with the same secret and the time is in its window |
| `Evolution.RunsAreStacks` | `src/evolvable_memory/application/evolution.py:226-258` | Every run of the application keeps the activation log a stack |
| `RegistryStore.StrategyRegistry.constructor` | `src/evolvable_memory/adapters/in_memory.py:111-116` | An empty registry |
| `RegistryStore.StrategyRegistry.SaveStrategy` | `src/evolvable_memory/adapters/in_memory.py:286-299` | Stores a consistent strategy once, or conflicts without effect |
| `RegistryStore.StrategyRegistry.EnsureActiveStrategy` | `src/evolvable_memory/adapters/in_memory.py:133-151` | Bootstraps the registry once, and returns the strategy active afterwards |
| `RegistryStore.StrategyRegistry.RegisterExperiment` | `src/evolvable_memory/adapters/in_memory.py:161-194` | Registers a candidate extending the active baseline, or conflicts without effect |
| `RegistryStore.StrategyRegistry.AdvanceExperiment` | `src/evolvable_memory/adapters/in_memory.py:214-245` | Moves an experiment one legal stage with its evidence, or refuses without effect |
| `RegistryStore.EvolutionApplication.Propose` | `src/evolvable_memory/application/evolution.py:67-128` | The proposal as a function of the former registry; what a draft is made of is GateMeaning.DraftIsTheParentShifted |
| `RegistryStore.EvolutionApplication.Advance` | `src/evolvable_memory/application/evolution.py:130-174` | The advance as a function of the former registry; when it succeeds is GateMeaning.AdvanceSucceedsExactly |
| `Weights.Rebalance` | `src/evolvable_memory/domain/evolution.py:306-349` | The dictionary update moves the weight the specification says |
| `Weights.Propose` | `src/evolvable_memory/domain/evolution.py:306-349` | The method computes the specified proposal |
| `Weights.DonorFloorNeverBinds` | `src/evolvable_memory/domain/evolution.py:306-349` | The donor always has the weight to give |
| `Weights.FirstLargest` | `src/evolvable_memory/domain/evolution.py:107-116` | The first of the names with the largest value |
| `Weights.BlameIsExact` | `src/evolvable_memory/domain/evolution.py:107-116` | Blame is None exactly for an empty diagnosis |
| `Weights.ProposalIsBounded` | `src/evolvable_memory/domain/evolution.py:306-349` | None exactly for an empty diagnosis or a target already at 0.60; otherwise weights stay in [0.05, 0.60], the sum is kept, and at most 0.03 moves between two components |
| `Weights.ShiftMovesWeight` | `src/evolvable_memory/domain/evolution.py:306-349` | What one component gains another loses, and no other moves |
| `Weights.EvolutionStaysInBounds` | `src/evolvable_memory/domain/evolution.py:306-349` | The bounds and the sum hold after any sequence of diagnoses |
| `Weights.RepetitionTerminates` | `src/evolvable_memory/domain/evolution.py:306-349` | The n-th repetition of one diagnosis is accepted exactly when n <= ceil((0.60 - start) / 0.03) |
| `Compression.RenderIsInjective` | `src/evolvable_memory/application/compression.py:92-113` | Two items render alike exactly when key, value and context are equal (RFC 8259, sections 4 and 7) |
| `Compression.DocumentReads` | `src/evolvable_memory/application/compression.py:146-147` | The document reads back to its sequence of objects |
| `Compression.SelectWithinBudget` | `src/evolvable_memory/application/compression.py:132-144` | The loop makes the greedy choice |
| `Compression.SelectionFits` | `src/evolvable_memory/application/compression.py:132-144` | The selection is within budget |
| `Compression.SelectionIsMaximal` | `src/evolvable_memory/application/compression.py:132-144` | No skipped candidate fits into the final document |
| `Compression.SelectionIsRankOptimal` | `src/evolvable_memory/application/compression.py:132-144` | No within-budget choice agreeing on all earlier candidates includes a skipped one |
| `Compression.ApplyAlgorithm` | `src/evolvable_memory/application/compression.py:115-130` | The dictionary loop de-duplicates as specified |
| `Compression.FirstOccurrenceOrder` | `src/evolvable_memory/application/compression.py:115-130` | De-duplication keeps first-occurrence order |
| `Compression.DeduplicationKeepsSources` | `src/evolvable_memory/application/compression.py:115-130` | De-duplication keeps the multiset of sources |
| `Compression.MergesExactlyEqualItems` | `src/evolvable_memory/application/compression.py:115-130` | Two items are merged exactly when key, value and context are equal |
| `Json.PrintReads` | `src/evolvable_memory/application/compression.py:146-147` | Reading inverts printing |
| `Projections.ProjectTrace` | `src/evolvable_memory/application/compression.py:29-90` | The method computes the specified projection |
| `Projections.ProjectSucceedsExactly` | `src/evolvable_memory/domain/projection.py:90-126` | project succeeds exactly when the budget and trace header are acceptable and no selected source repeats a revision; every other constructor check holds by construction |
| `Projections.DistinctTracesProject` | `src/evolvable_memory/application/compression.py:29-90` | Every trace with distinct revisions projects |
| `Projections.RoomyTracesProjectExactly` | `src/evolvable_memory/domain/projection.py:103-126` | With room for all of it, a trace projects exactly when it lists each revision once |
| `Projections.RepeatedRevisionIsRefused` | `src/evolvable_memory/domain/projection.py:103-126` | A trace its constructor accepts and the compressor refuses |
| `Projections.SelectionBounds` | `src/evolvable_memory/domain/projection.py:103-126` | The selection is within budget, no longer than the original, with sources from the trace |
| `Projections.ProjectionCitesTrace` | `src/evolvable_memory/domain/projection.py:151-153` | A projection cites only revisions of its trace |
| `ClaimMeaning.ClaimsOldestDue` | `src/evolvable_memory/adapters/projection_outbox.py:90-107` | A claim takes unlocked rows that are due (pending or failed and available, or leased until a time that has come), each once, by (occurred_at, id); a due row is left only by a full claim of older ones |
| `ClaimMeaning.FailedIsRetried` | `src/evolvable_memory/adapters/projection_outbox.py:193-226` | After a failure that is not final the job is in the next roomy claim exactly from its retry time on, with the attempts it had; after a final one never; only the owner can fail it |
| `ClaimMeaning.CompletedIsDone` | `src/evolvable_memory/adapters/projection_outbox.py:156-191` | A completed job is in no later claim; only the owner can complete it; the cursor moves unless it is already at a later time |
| `ClaimMeaning.LeasedIsHidden` | `src/evolvable_memory/adapters/projection_outbox.py:108-119` | A leased job has one more attempt and is in the next roomy claim exactly when the lease has run out |
| `ClaimMeaning.DiscoveredIsDue` | `src/evolvable_memory/adapters/projection_outbox.py:60-77` | A discovered job has no attempts and is in the next roomy claim exactly when its event has occurred; rows that were there stay |
| `ClaimMeaning.RequeuedIsDue` | `src/evolvable_memory/adapters/projection_outbox.py:228-244` | A requeued job, whatever had become of it, has no attempts and is in the next roomy claim exactly from the given time on |
| `ClaimMeaning.BackoffDoubles` | `src/evolvable_memory/application/projection.py:104-107` | The delay is the base at the first attempt, doubles with every further one and stops at the cap |
| `ClaimMeaning.ItemSettles` | `src/evolvable_memory/application/projection.py:84-127` | An item succeeds exactly when its revision is readable in its scope and record, unfenced, and neither write nor completion raises; otherwise it waits for its delay or is dead-lettered at the maximum |
| `ProtocolMeaning.WriterIsLetIn` | `src/evolvable_memory/adapters/postgres_governance.py:81-118` | A writer is let in exactly if its scope is not fenced and an unrevoked grant of the scope covers its purpose at the time; one that is refused releases the lock |
| `ProtocolMeaning.WriterStores` | `src/evolvable_memory/adapters/postgres.py:1408-1449` | A writer inside stores a fresh revision of its scope with its event, or another entity of it, and nothing else; one outside stores nothing |
| `ProtocolMeaning.ClaimHandsOut` | `src/evolvable_memory/adapters/projection_outbox.py:79-119` | An idle worker is handed due jobs that were not skipped, leased to it with one more attempt; a due one is left only by a full batch of older ones |
| `ProtocolMeaning.ItemSucceeds` | `src/evolvable_memory/application/projection.py:84-100` | An item the worker holds, with a readable revision of an unfenced scope, ends in the projection and as a succeeded job when nothing raises, and the worker goes on with the rest |
| `ProtocolMeaning.ItemRaises` | `src/evolvable_memory/application/projection.py:84-127` | Exactly when each step of an item raises: not readable, fenced, the upsert or the completion raising, the lease lost |
| `ProtocolMeaning.RaisedIsFailed` | `src/evolvable_memory/application/projection.py:101-127` | A raised item waits from now for its delay, or is dead-lettered at the maximum; with the lease lost the rest of the batch is dropped and the queue is as it was |
| `ProtocolMeaning.RebuildRuns` | `src/evolvable_memory/application/projection.py:65-69` | A rebuild empties the projection and leaves every event with a pending job without attempts |
| `ProtocolMeaning.FencingWaits` | `src/evolvable_memory/adapters/postgres_governance.py:352-437` | Beginning an erasure and suppressing wait exactly while a writer or worker holds the lock of the scope; then the scope is fenced, the request recorded as pending, an earlier fence kept |
| `ProtocolMeaning.EraserDeletesItsScope` | `src/evolvable_memory/application/service.py:152-157` | An erasing caller deletes exactly its scope from projection, authority and queue; everything of other scopes is as it was |
| `Governance.BeginningReplays` | `src/evolvable_memory/adapters/in_memory_governance.py:170-214` | A key begins one erasure for good: again under it, the same reason and policy get the same request, anything else a conflict, and nothing changes |
| `WriteMeaning.RememberMeans` | `src/evolvable_memory/application/service.py:159-228` | Under a new key a preference is refused exactly for a confidence outside [0, 1]; otherwise a message with the evidence text, a span quoting it, a candidate with value and confidence, and a revision with the value, in force from the time given, are stored for the key and context, fresh or reinforcing the head |
| `WriteMeaning.CorrectMeans` | `src/evolvable_memory/application/service.py:230-318` | Under a new key a correction is refused exactly for a record not in the scope or an expected revision that is not the head; otherwise the value is stored with confidence 1 as user feedback with its reason, for the key and context of the record |
| `WriteMeaning.RememberKeyAnswers` | `src/evolvable_memory/application/service.py:636-690` | A used key answers the same source, key, value, context, evidence and confidence with the first result, and refuses anything else, corrections included |
| `WriteMeaning.CorrectKeyAnswers` | `src/evolvable_memory/application/service.py:636-690` | The same for the key of a correction: the same record, source, value, evidence and reason |
| `FeedbackMeaning.OutcomeMeans` | `src/evolvable_memory/application/service.py:424-460` | A new outcome is refused exactly for a missing trace or usage, a revision not listed, or a weight outside (0, 10]; otherwise it is stored as given, adds its weight to the good or the bad side of its own estimate, and changes no other |
| `FeedbackMeaning.FeedbackHasItsSign` | `src/evolvable_memory/domain/experience.py:164-167` | In every reachable state helpful and accepted outcomes strictly raise the mean of their revision, harmful, rejected and corrected ones strictly lower it |
| `FeedbackMeaning.MeanInNumbers` | `src/evolvable_memory/domain/experience.py:218-220` | The mean is (1 + positive) / (2 + positive + negative), and 1/2 without outcomes |
| `FeedbackMeaning.LogMoves` | `src/evolvable_memory/adapters/in_memory.py:524-556` | An entry of the outcome log moves the recomputed estimate in the same way, exactly if it was recorded by then for the scope and revision under the context |
| `FeedbackMeaning.OutcomeKeyAnswers` | `src/evolvable_memory/adapters/in_memory.py:558-575` | A used key answers its outcome for the same trace, usage, revision, kind, weight and note, and refuses any other |
| `FeedbackMeaning.UsageMeans` | `src/evolvable_memory/application/service.py:462-496` | A usage is refused exactly for a missing trace, another projection digest, a citation outside it, a future time or a repeated revision; otherwise it is stored as given, or its key answers the same usage and refuses another |
| `RecallMeaning.RecallInWords` | `src/evolvable_memory/application/service.py:320-422` | The trace of a recall: header from the request, at most the limit of worthy memories in force, each item with its own fields, signals and score, by score, then recording time, then identifier, all descending; a worthy memory not listed is below the last item of a full list |
| `RecallMeaning.SignalsAreBreakdown` | `src/evolvable_memory/application/service.py:354-374` | The seven signals of a memory, each by its definition |
| `RecallMeaning.SimilarityInNumbers` | `src/evolvable_memory/domain/common.py:77-96` | Similarity in every case: 1, 0.8, 0.25, or the share of common facets less 0.35 for every key set differently, at least 0 |
| `RecallMeaning.ReadInWords` | `src/evolvable_memory/adapters/in_memory.py:427-462` | In every reachable state the read shows, by key, context text and identifier, each record of the scope with a revision in force, with the last one that is |
| `RecallMeaning.StripTakesEnds` | `src/evolvable_memory/application/service.py:323-325` | Stripping takes white space off both ends and nothing else |
| `GateMeaning.EveryStepIsEntitled` | `src/evolvable_memory/application/evolution.py:301-324` | In every run every step follows one of the nine edges under a genuine receipt: a rejecting one into rejected, a rollback one into rolled back, a passing one with hard gates passed otherwise |
| `GateMeaning.AdvanceSucceedsExactly` | `src/evolvable_memory/application/evolution.py:130-174` | In every reachable registry an advance under a new key succeeds exactly with such a receipt, on an edge, at a time not before the last change, when the strategy it replaces is active; then the experiment, its history and the active strategy are as the step says |
| `GateMeaning.PreparesExactly` | `src/evolvable_memory/application/evolution.py:140-172` | What an advance prepares, and exactly when it is refused |
| `GateMeaning.OtherRequestConflicts` | `src/evolvable_memory/application/evolution.py:175-224` | A used key refuses any other request without effect |
| `GateMeaning.BlameIsTheLargestCount` | `src/evolvable_memory/domain/evolution.py:107-116` | Each failure count blames its own component; the largest wins, the first of equals in declaration order |
| `GateMeaning.DraftIsTheParentShifted` | `src/evolvable_memory/domain/evolution.py:306-349` | A candidate takes minimum score and half-life from its parent and is one version on; experiment and transition are those of the request |
| `GateMeaning.ProposalInNumbers` | `src/evolvable_memory/domain/evolution.py:306-349` | The blamed weight gains min(0.03, 0.60 - weight) from the heaviest other one, no other moves, all stay in [0.05, 0.60] |
| `GateMeaning.EveryStrategyIsAcceptable` | `src/evolvable_memory/domain/evolution.py:20-45` | In every run every stored strategy has weights in [0.05, 0.60] that sum to 1 up to a rounding error, a minimum score in [0, 1] and a half-life in [1, 3650] days |
| `ProjectionMeaning.ProjectionInWords` | `src/evolvable_memory/application/compression.py:29-90` | A projection has the header of its trace, a budget of 64 to 100000 characters that its text keeps to, segments that each say exactly what their sources say in the trace, sorted by rank, their revisions cited and counted |
| `ProjectionMeaning.RankOrder` | `src/evolvable_memory/application/compression.py:39-40` | Items are considered in rank order, each once |
| `EraseMeaning.ErasureInWords` | `src/evolvable_memory/adapters/in_memory.py:593-672` | In every reachable state erasing takes exactly the rows of the scope out of every table, index, chain and head, leaves every other row as it was, and counts recalled and cited items one by one |
| `CallMeaning.CallsAreUseCases` | `src/evolvable_memory/application/service.py:159-496` | A call of a run does its use case under fresh identifiers with clock readings that never go back, kept when accepted and undone when it raises |
| `ProtocolMeaning.CallersLetGo` | `src/evolvable_memory/application/governance.py:209-217` | Releasing, dying and giving up leave the caller idle and what was stored in place; a recorded failure is the pending request with its error |
| `GateMeaning.BootstrapActivates` | `src/evolvable_memory/adapters/in_memory.py:133-151` | An empty registry takes exactly an acceptable root strategy with its bootstrap activation and makes it active; one with an active strategy is left as it is |
| `RecallMeaning.RecallChecksSignals` | `src/evolvable_memory/domain/experience.py:39-60` | A recall that is not refused has looked at no memory with a signal outside [0, 1] and lists only scores in [0, 1], whatever the projection and the weights gave it |
| `GateMeaning.StoreAdvancesOnly` | `src/evolvable_memory/adapters/in_memory.py:214-284` | Whatever it is asked to write, the store moves an experiment only along an edge and forward in time, with a transition under a new identifier and key, and with exactly the activation the step needs |
| `GateMeaning.StoreRegistersOnly` | `src/evolvable_memory/adapters/in_memory.py:161-194` | It registers only a new experiment of the active strategy against a candidate one version on, and saves a strategy exactly when it is consistent with what is stored |
| `GateMeaning.ActivationsAreDistinct` | `src/evolvable_memory/adapters/in_memory.py:247-284` | In every run no activation identifier is used twice |
| `ProtocolMeaning.ControlActs` | `src/evolvable_memory/adapters/in_memory_governance.py:76-139` | The clock only goes forward; a fresh grant is issued, a live one revoked at the current time, and fences stay |
| `ProtocolMeaning.RaisingErasureStays` | `src/evolvable_memory/application/governance.py:193-217` | A projection deletion that raises may have lost documents of the scope only; an authority deletion or a completion that raises leaves everything |
| `Governance.ForeignIsNotFound` | `src/evolvable_memory/adapters/in_memory_governance.py:118-257` | Grants and requests of another scope are not found, and nothing happens to them |
| `WriteMeaning.RefusalsInWords` | `src/evolvable_memory/application/service.py:230-236` | An unknown memory is not found, one that is no preference is a domain error, and a used key raises nothing but conflicts |

## Left out

- HTTP, schemas, middleware, token parsing, settings, the frontend, the command line and logging: input and output
  without deep state.
- Authorisation rules and the audit trail: the order "authorise, enter the processing context, run the command" is in
  `Protocol`'s writers, the role policy itself is not.
- The Milvus client, embeddings, connection pools and migrations: the projection is a map from revision to document with
  atomic upsert, delete by scope and reset.
- The PostgreSQL store as a second authority: it repeats the in-memory semantics.
- A session that dies while its upsert is still on the wire, so that the shared lock is released before the write lands.
- Rows of projections other than the one modelled; a worker's identity is unique to its process.
- Projector.MemoryProjectionWorker.RunOnce: runs without interference from other workers; interference is `Protocol`'s
  subject.
- Projector.MemoryProjectionWorker.Rebuild: likewise without interference, and none of its steps raises.
- Privacy.PrivacyApplication.Erase: likewise without interference; interleavings of erasing callers are `Protocol`'s.
- Privacy.InMemoryPrivacyGovernance.CompleteErasure: of the handler results it keeps whether there was a projection, which
  is all they say; outbox events and jobs, which the in-memory store does not have, are not counted.
- ErasureSafety.NoResurrection: entities other than revisions and outbox events are one table of identifiers by scope;
  their contents are the subject of `MemoryRuns.ErasureConserves`.
- Raising calls of `run_once` other than load, upsert and complete, and the reset of a rebuild that raises.
- Transaction snapshots of the registry tables: the registry has its own class and no use case changes both halves in one
  transaction.
- The `except ConflictError` branches after ingestion, which look for a concurrent observation: under the store's lock the
  key was unused a moment before, so the branch re-raises.
- Observation kinds, evidence stances, candidate states and transition kinds that no use case produces.
- Legacy beliefs without known sources keep only their count (`Beliefs.Reinforced`); no use case creates one, so the
  results about evidence do not meet them.
- Floating-point rounding in confidence, weights and scores.
- Surrogate pairs in the JSON reader's `\u` escapes: the printer does not produce them.
- Preference listing and revision history as use cases: filters over the modelled reads.
- Concurrency inside the in-memory store: every operation holds its lock.
- Development governance in separate processes, each with its own fences: the erasure results are for shared governance.
