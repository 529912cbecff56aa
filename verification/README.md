# Shared-memory gateway: verification

The gateway collects memories proposed by agents on several devices. Each device queues its writes in an encrypted
outbox and pushes them to a server. A metadata ledger records the events; a worker turns explicit ones into facts of
a second database, GBrain, and the rest into review candidates. A review service confirms, supersedes, archives,
forgets and reverts; queries see only what the ledger authorises. This project models that behaviour in Dafny and
proves properties of it over all runs.

## What is modelled

- `GBrain`, `Ledger`, `Lifecycle`: the two stores as tables and each database transaction as a function. A request
  commits to GBrain first and to the ledger last; its functions take the number of commits it gets through, so a
  crash between any two commits is a value of that argument. `Services` holds the same operations as classes whose
  methods change fields step by step and roll a refused transaction back; each request of the gateway is proved equal
  to its function, keeps the invariants of both stores, and says when it keeps the stores in step.
- `LedgerInvariants`, `AllRuns`, `RunTheorems`: what every run keeps, crashed requests included.
- `ResolveOutcomes`, `UndoOutcomes`, `WorkerOutcomes`: when each request is carried out and what it then leaves in the
  tables of both stores, written on their fields apart from the functions that compute it. `LedgerCommits`,
  `EventTrails`, `StoredTexts`, `ExternalRecords`: what follows over every run: where rows, events and external records
  lead, which texts are stored, and that a record leads to one memory.
- `StoreAgreement`, `StrandingExample`: when the two stores tell the same story, and the exact requests that break this.
- `CrashRecovery`, `RetryHeals`, `RetriesAmongOthers`, `ResurrectionExample`: what a crash leaves behind, and for each
  kind of request exactly which runs of other requests leave a retry that repairs it. `RepeatedCrashes` lets the request
  crash any number of times among them.
- `KnownFacts`, `Renaming`, `Twins`, `RetryEquals`, `CreationRetry`: crash, run, retry ends in the same stores as run,
  retry. Every transaction and guard treats renamed fact ids alike, and two executions that differ only in what the
  crash left stay so related through the run.
- `Visibility`, `Isolation`, `CrystalPlanning`, `SupersedeGraph`, `KeyedTransactions`: the query observer and whose
  memories it delivers, derived pages, the superseded-by graph, the keyed transactions of GBrain.
- `Outbox`, `SidecarCache`, `Sidecar`: the device's queue and cache and its push and pull loops, against a gateway
  that may answer anything. `PushAnswers`, `PullDelivery`: which answers end a queued event, and what a pull brings.
- `Identity`, `Enrolment`, `RefreshRotation`, `AccessRevocation`: pairing and whose device a token speaks for,
  refresh-secret rotation over a lossy channel, replay window, reuse detection, revocation epochs.
- `RerankHeap`, `Retrieval`, `SelectionLaws`: the bounded heap in an array, near-duplicate removal, budgeted greedy
  selection, and what it returns in terms of scores, similarities and tokens.
- `RateLimiting`, `BoundedLimiter`, `Redaction`, `ScannerLaws`, `TextOrder`, `Names`: the sliding-window limiter and what
  its bounded memory promises, the scanner and redaction, string order.

Assumptions: random identifiers and secrets never repeat (they are numbered); hashes and the joined idempotency keys
are injective (they are tuples); each database transaction is atomic and runs are serial interleavings of
transactions.

## What the code does not promise

Some natural statements are false of the code. For each there is the exact condition under which the code keeps it
and, where the failing inputs are not plain from the condition, a run that reaches them.

- The stores can disagree without any crash. A candidate confirmed, reverted and then used to supersede another memory
  is refused by the ledger (a source event has one lifecycle row) after GBrain has committed. The same happens when
  the idempotency key belongs to another owner's operation: the key is unique over all owners, but the lookup of an
  earlier operation filters by owner. `StoreAgreement.ServeAgreesExactly` shows that no other
  complete request does this, and `StrandingExample.StoresDisagree` is a run.
- A crashed supersession can be abandoned. Its candidate stays open in the ledger, so another request, say an archive of
  the candidate, can commit on it without touching any fact; the retry is then refused and the target stays superseded
  in GBrain and active in the ledger (`RetriesAmongOthers.SupersessionHealsExactly`, `ArchivingAbandons`,
  `ResurrectionExample.SupersessionIsAbandoned`). An operation
  of another candidate that takes the request's key has the same effect.
- A crashed revert of a supersession, retried after another revert retired its target, makes the target active in
  the ledger alone (`RetriesAmongOthers.RevertHealsExactly`, `ResurrectionExample.MemoryComesBack`).
- A confirmed edit that crashed after its GBrain commit and is retried under the same key with another text keeps the
  first text, under a row that carries the keys of the second (`ResolveOutcomes.ChosenTextExactly`,
  `RetriedEditKeepsFirstText`).
- An external record can be stored twice in GBrain. A worker pass that crashes between its GBrain commit and its ledger
  commit leaves a fact of an event that is not applied; a pass over another event of the record, say by a second worker
  while the first event waits for its retry, then stores it again. The ledger still leads to one of them only
  (`ExternalRecords.SecondFactExactly`, `CrashStoresTwice`, `OneMemoryPerRecord`).
- A refresh in the last thirty seconds of an unexpired credential fails, because the replay window would outlive it
  (`RefreshRotation.LastSecondsAreLost`).
- An answer that cannot be decoded, or a reset without an epoch, leaves pushed events in flight until the outbox is
  reopened (`Outbox.InFlightOnlyAfterBadAnswer`).
- A recorded stamp without a policy or an auth epoch no longer protects the cache (`SidecarCache.ProtectsExactly`).
- A full rate limiter forgets grants that still count, and then grants the evicted client too often
  (`RateLimiting.CallRemembersExactly`, `BoundedLimiter.CallStaysFaithfulExactly`).

## Model

| member | source | states |
|---|---|---|
| SupersedeGraph.NoCycle | src/agent_memory_gateway/gbrain_backend.py:315-364 | After any sequence of GBrain transactions from the empty store, following superseded_by any positive number of times never returns to its start. |
| SupersedeGraph.EveryChainEndsInItsSource | src/agent_memory_gateway/gbrain_backend.py:315-364 | Every chain of superseded_by pointers ends at a fact without one, in the tenant source where it started. |
| SupersedeGraph.RunKeepsRank | src/agent_memory_gateway/gbrain_backend.py:170-505 | Every run keeps a rank that strictly falls along superseded_by; only supersede adds an edge and it points at a fact without one. |
| SupersedeGraph.TombstoneIsFinal | src/agent_memory_gateway/gbrain_backend.py:445-505 | A tombstoned fact is never live again, whatever transactions follow; reactivate is the only one that could, and it refuses. |
| SupersedeGraph.RunKeepsTombstones | src/agent_memory_gateway/gbrain_backend.py:495-505 | Every tombstoned fact exists and is expired in every reachable state. |
| Services.GBrainBackend.UpsertConfirmed | src/agent_memory_gateway/gbrain_backend.py:170-251 | Insert the fact with its binding, or answer the bound fact; the whole new state is that of the transaction function. |
| Services.GBrainBackend.Supersede | src/agent_memory_gateway/gbrain_backend.py:315-364 | Link two live facts of one source once per key; replies from the operation log afterwards. |
| Services.GBrainBackend.SetExpiredState | src/agent_memory_gateway/gbrain_backend.py:606-660 | Archive or tombstone a fact once per key. |
| Services.GBrainBackend.RestoreSuperseded | src/agent_memory_gateway/gbrain_backend.py:374-443 | Undo one supersession: clear the link and expire the replacement. |
| Services.GBrainBackend.Reactivate | src/agent_memory_gateway/gbrain_backend.py:445-493 | Clear expired_at only of a fact that is expired, not superseded and not tombstoned. |
| Services.GBrainBackend.RebuildCrystal | src/agent_memory_gateway/gbrain_backend.py:507-604 | Write the page of a scope from live facts of one source; a reused key returns the page of its first use. |
| Services.Gateway.InsertTombstone | src/agent_memory_gateway/review_service.py:904-930 | Insert or refresh a tombstone, keeping the owner of an existing one. |
| Services.Gateway.RevokeTombstone | src/agent_memory_gateway/review_service.py:932-952 | Revoke the unrevoked tombstone of the owner, or report it missing. |
| Services.Gateway.MarkSuperseded | src/agent_memory_gateway/review_service.py:568-603 | Move a row to superseded exactly when it is the owner's, active and unpinned; refuse and change nothing otherwise. |
| Services.Gateway.InsertConfirmedLifecycle | src/agent_memory_gateway/review_service.py:508-566 | Insert the row of a confirmed fact, leave an existing reference alone, and refuse a new reference whose source event already has a row. |
| Services.Gateway.WriteConfirmation | src/agent_memory_gateway/review_service.py:294-367 | The ledger half of a confirmation, refused and rolled back as a whole by the first of its three statements that cannot be made. |
| Services.Gateway.Confirm | src/agent_memory_gateway/review_service.py:265-367 | GBrain first, ledger second, at any crash point, as the request function whose text and tables ResolveOutcomes.ConfirmationStores states on their fields; a refused ledger transaction leaves the GBrain commits standing. |
| Services.Gateway.ResolveReview | src/agent_memory_gateway/review_service.py:120-177 | The whole of resolve, checks in order and then the commits of its action, as the request function whose acceptance and results ResolveOutcomes states on fields; it keeps every invariant of both stores at any crash and, complete, keeps the stores in step if and only if it is not a stranding request. |
| Services.Gateway.RevertReview | src/agent_memory_gateway/review_service.py:216-263 | The whole of revert, with the restore or archive in GBrain and the compensating ledger transaction; invariants kept at any crash, agreement kept if and only if it does not strand. |
| Services.Gateway.WriteRevert | src/agent_memory_gateway/review_service.py:409-506 | The ledger half of a revert, rolled back as a whole when its key is taken or the target has no tombstone to revoke. |
| Services.Gateway.ForgetMemory | src/agent_memory_gateway/review_service.py:179-214 | Archive an active row of the owner in both stores; a settled row answers its status. Invariants kept at any crash, agreement kept when complete. |
| Services.Gateway.RebuildCrystal | src/agent_memory_gateway/crystal_service.py:175-261 | Rebuild the page from the current sources and record it as ready, keeping invariants and agreement at any crash. |
| Services.Gateway.MarkCrystalStale | src/agent_memory_gateway/crystal_service.py:133-145 | A ready crystal of the scope becomes stale. |
| Services.Gateway.RecordProposedEvent | src/agent_memory_gateway/metadata_store.py:54-167 | Insert the event or read back what its first submission led to, keeping invariants and agreement. |
| Services.Gateway.ReconcileOnce | src/agent_memory_gateway/reconcile.py:103-235 | One pass of the worker over a due event as the request function, whose outcomes WorkerOutcomes.PassSettles states on fields: dead letter, duplicate, review, retry, applied, crash; invariants and agreement are kept in all of them. |
| Services.Gateway.CreateReviewCandidate | src/agent_memory_gateway/reconcile.py:237-293 | An ordinary observation becomes a review candidate with its receipt. |
| Services.Gateway.CompleteSourceDuplicate | src/agent_memory_gateway/reconcile.py:384-427 | A known external record settles the event as its duplicate. |
| RunTheorems.EveryRunKeepsTheLedger | src/agent_memory_gateway/review_service.py:120-506 | Every run of requests, crashed anywhere, keeps all ledger and cross-store invariants: bounded revisions, tombstones matching rows, fresh crystals, receipts, origins, alternating logs, key placement. |
| AllRuns.ServeKeepsStore | src/agent_memory_gateway/review_service.py:120-506 | Each single request keeps those invariants after any number of its commits. |
| LedgerInvariants.TombstoneNeverMissing | src/agent_memory_gateway/review_service.py:932-952 | Reverting the latest operation of a candidate always finds an unrevoked tombstone of the right owner to revoke. |
| LedgerInvariants.ConfirmKeepsTombstones | src/agent_memory_gateway/review_service.py:904-930 | A confirmation keeps: a row is not active exactly when it has an unrevoked tombstone, whose revision is the row's. |
| LedgerInvariants.RevertKeepsTombstones | src/agent_memory_gateway/review_service.py:904-952 | A revert keeps the same equivalence. |
| LedgerInvariants.ConfirmKeepsCrystals | src/agent_memory_gateway/review_service.py:265-367 | A confirmation leaves no ready crystal whose sources changed. |
| LedgerInvariants.RevertKeepsCrystals | src/agent_memory_gateway/review_service.py:409-506 | A revert leaves no ready crystal whose sources changed. |
| AllRuns.AlreadyRevertedNeverFires | src/agent_memory_gateway/review_service.py:216-263 | In a reachable ledger the "already reverted" check can never be the one that refuses. |
| RunTheorems.LogAlternates | src/agent_memory_gateway/review_service.py:120-263 | A candidate's committed operations strictly alternate resolve and revert, each revert compensating its predecessor; its revision is one more than their number and it is pending exactly when that is even. |
| RunTheorems.CompensatedOnce | src/agent_memory_gateway/review_service.py:216-263 | No operation is compensated by two reverts. |
| RunTheorems.SettledAnswerIsFixed | src/agent_memory_gateway/metadata_store.py:54-167 | Over every run, a settled event answers every resubmission with the same receipt and the "terminal event without receipt" failure is unreachable. |
| RunTheorems.OneFactPerKey | src/agent_memory_gateway/reconcile.py:103-235 | No two facts are created under one key: at most one per event and at most one per confirm request, over any run and any crashes. |
| StoreAgreement.StoresAgree | src/agent_memory_gateway/review_service.py:120-506 | After every run of complete requests without a stranding one, each row is archived, superseded or active exactly as its fact is and the pointers match. |
| StoreAgreement.ServeAgreesExactly | src/agent_memory_gateway/review_service.py:265-367 | One complete request leaves agreeing stores in agreement if and only if it is not a stranding one. |
| StoreAgreement.ResolveAgrees | src/agent_memory_gateway/review_service.py:265-367 | The same for resolve, with room for references and keys left open by crashed requests; a stranding one makes the stores disagree. |
| StoreAgreement.RevertAgrees | src/agent_memory_gateway/review_service.py:409-506 | The same for revert; it strands exactly when the ledger refuses its key after GBrain moved. |
| StoreAgreement.ForgetAgrees | src/agent_memory_gateway/review_service.py:179-214 | A complete forget keeps agreement and always settles a row of its owner. |
| StoreAgreement.WorkerAgrees | src/agent_memory_gateway/reconcile.py:103-235 | A worker pass, crashed or not, keeps agreement. |
| StoreAgreement.RestoreMovesSupersededToActive | src/agent_memory_gateway/review_service.py:468-506 | A committed revert of a supersession finds its target superseded and makes it active; the unguarded update never resurrects an archived row. |
| StrandingExample.StoresDisagree | schema/migrations/20260713_4_review_lifecycle.sql:55 | Seven complete requests from the empty stores end with a memory active for the ledger and superseded for GBrain, because a source event may have only one row. |
| CrashRecovery.ResolveResumes | src/agent_memory_gateway/review_service.py:265-367 | Two attempts of one resolve that reach k and n commits leave both stores as one attempt of max(k, n). |
| CrashRecovery.RevertResumes | src/agent_memory_gateway/review_service.py:409-506 | The same for revert. |
| CrashRecovery.ForgetResumes | src/agent_memory_gateway/review_service.py:179-214 | The same for forget. |
| CrashRecovery.WorkerResumes | src/agent_memory_gateway/reconcile.py:103-235 | A worker that crashed after its GBrain commit finishes as if it had not. |
| CrashRecovery.CrashedResolveRecovers | src/agent_memory_gateway/review_service.py:265-367 | However often and wherever a resolve crashed, retried with nothing in between its completion leaves the stores of a crash-free one. |
| CrashRecovery.CrashedRevertRecovers | src/agent_memory_gateway/review_service.py:409-506 | The same for revert. |
| CrashRecovery.CrashedForgetRecovers | src/agent_memory_gateway/review_service.py:179-214 | The same for forget. |
| RetryHeals.CrashedCreationAgrees | src/agent_memory_gateway/review_service.py:276-300 | A confirmation that crashed right after creating its fact leaves the stores in step. |
| RetryHeals.CrashedRevert | src/agent_memory_gateway/review_service.py:409-440 | A revert that crashed before its ledger commit leaves the stores in step except at the facts it undid. |
| RetryHeals.CrashedSupersession | src/agent_memory_gateway/review_service.py:265-367 | A supersession that crashed before its ledger commit leaves the stores in step except at its target. |
| RetryHeals.RetriedSupersessionHeals | src/agent_memory_gateway/review_service.py:265-367 | Its retry completes and brings the target back into step. |
| RetryHeals.ForeignKeepsConsistent | src/agent_memory_gateway/review_service.py:120-506 | A complete request that touches no open reference or key keeps the stores in step outside the open ones. |
| RetriesAmongOthers.RunKeepsSoleCandidates | src/agent_memory_gateway/reconcile.py:237-293 | Over every run no two review candidates come from one event. |
| RetriesAmongOthers.SupersessionHealsExactly | src/agent_memory_gateway/review_service.py:265-367 | A supersession crashed after its second GBrain commit, then any run of complete requests on other facts, then its retry: the retry completes and heals both stores if nothing in the run committed on its candidate or took its key, and otherwise the stores stay apart at its target. |
| RetriesAmongOthers.ArchivingAbandons | src/agent_memory_gateway/review_service.py:369-407 | Such a commit is always possible: archiving the candidate under any unused key passes every guard and touches no fact. |
| RetriesAmongOthers.RevertHealsExactly | src/agent_memory_gateway/review_service.py:409-506 | A revert crashed after its GBrain commit, then any run of requests on other facts or of reverts of the operation that created its target, then its retry: it heals both stores if and only if GBrain committed no such revert in between and nothing took the key of a revert with rows left to write. |
| RetriesAmongOthers.ForgetHeals | src/agent_memory_gateway/review_service.py:179-214 | A forget crashed after its GBrain commit, then any run of requests on other facts: its retry always settles the row and heals both stores. |
| KnownFacts.NothingDangles | src/agent_memory_gateway/review_service.py:120-506 | In every state a run reaches, whatever crashed, no row, event, receipt, operation, tombstone, crystal, external binding, fact, key or page names a fact GBrain lacks. |
| Twins.ServeTwin | src/agent_memory_gateway/review_service.py:120-506 | Two stores that differ in the facts and keys a crashed request left in GBrain, and in fact ids by a renaming, still do after any complete request that leaves those facts and keys alone. |
| RetryEquals.RevertRetryEquals | src/agent_memory_gateway/review_service.py:409-506 | Crash, run, retry of a revert ends in exactly the stores of run, retry, for every run that leaves its facts and keys alone, when its guards pass at the retry. |
| RetryEquals.ForgetRetryEquals | src/agent_memory_gateway/review_service.py:179-214 | The same for a forget, without condition on its guards. |
| CreationRetry.CreationRetryEquals | src/agent_memory_gateway/review_service.py:265-367 | Crash, run, retry of a confirmation or supersession, its first attempt crashed after any of its GBrain commits and its guards passing at the retry, ends in the stores of run, retry up to the serial ids: the crashed fact precedes those of the run instead of following them. |
| CreationRetry.ServeTexts | src/agent_memory_gateway/gbrain_backend.py:170-251 | No request, crashed or not, rewrites the text, the tenant source or the creating key of a fact. |
| RepeatedCrashes.CrashesVanish | src/agent_memory_gateway/review_service.py:276-300 | Once the GBrain keys a request has got to are spent, any further crashes of it can be left out of a run: the run of attempts ends where the run of its complete requests does. |
| RepeatedCrashes.OftenCrashedSupersession | src/agent_memory_gateway/review_service.py:265-367 | A supersession crashed any number of times, other complete requests on other facts anywhere in between: its complete attempt heals both stores if nothing committed on its candidate or took its key after its second GBrain commit, and otherwise the stores stay apart. |
| RepeatedCrashes.OftenCrashedRevert | src/agent_memory_gateway/review_service.py:409-506 | The exact condition for a crashed revert, with any further crashes of it among the requests in between. |
| RepeatedCrashes.OftenCrashedForget | src/agent_memory_gateway/review_service.py:179-214 | A forget crashed any number of times, other requests in between, always settles its row and heals both stores. |
| RepeatedCrashes.OftenCrashedRevertEquals | src/agent_memory_gateway/review_service.py:409-506 | However often a revert crashed, requests on other facts in between, the stores end exactly as if it had never crashed. |
| RepeatedCrashes.OftenCrashedForgetEquals | src/agent_memory_gateway/review_service.py:179-214 | The same for a forget. |
| RepeatedCrashes.OftenCrashedCreationEquals | src/agent_memory_gateway/review_service.py:265-367 | The same for a confirmation crashed any number of times after its first GBrain commit, up to the serial ids. |
| RepeatedCrashes.OftenCrashedSupersessionEquals | src/agent_memory_gateway/review_service.py:265-367 | The same for a supersession crashed any number of times after its first and, later, after its second GBrain commit, with requests on other facts anywhere in between. |
| ResurrectionExample.MemoryComesBack | src/agent_memory_gateway/review_service.py:468-506 | Nine attempts, one of them a crashed revert retried after its target was retired, end with a memory active for the ledger and archived for GBrain. |
| ResurrectionExample.RetirementIsCovered | src/agent_memory_gateway/review_service.py:409-506 | That run is one the exact statement about crashed reverts speaks of, and the retirement is the revert that decides it. |
| ResurrectionExample.SupersessionIsAbandoned | src/agent_memory_gateway/review_service.py:265-407 | In the same stores the supersession crashed after its second GBrain commit, its candidate archived and its retry refused: the stores disagree. |
| ResurrectionExample.RetryPremisesAreMet | src/agent_memory_gateway/review_service.py:409-506 | The premises of the crash and retry statements are met on that run, and the retirement is what takes the target away. |
| ResolveOutcomes.DoneExactly | src/agent_memory_gateway/review_service.py:120-177 | Between agreeing stores a complete resolve is carried out if and only if the candidate is the requester's own, open and at the expected revision, the chosen text is not sensitive and is approved if it reads like an instruction, no active row of its scope claims the same attribute (or, for a supersession, the target is one that does and is not pinned), nobody has used the key and no row came from the candidate's event. |
| ResolveOutcomes.ConfirmationStores | src/agent_memory_gateway/review_service.py:265-367 | A confirmation that is carried out stores the edited text where the request edits and the captured one otherwise, as a fact of the requester's tenant, unless an earlier attempt under the key had already stored one; the new row takes its keys, scope and instruction flag from that text; operation, candidate, event, records, tombstone and crystal are settled as the fields say, and every other row and fact stays. |
| ResolveOutcomes.ChosenTextExactly | src/agent_memory_gateway/gbrain_backend.py:207-216 | A confirmation that is carried out stores the chosen text if and only if no earlier attempt under its key has left another text in GBrain. |
| ResolveOutcomes.RetriedEditKeepsFirstText | src/agent_memory_gateway/gbrain_backend.py:207-216 | An edit that crashed after its GBrain commit, retried under the same key with another text, keeps the first text under a row with the keys of the second. |
| ResolveOutcomes.SupersessionLinks | src/agent_memory_gateway/gbrain_backend.py:315-364 | Between agreeing stores, a supersession that is carried out found its target in force and leaves it pointing to the new fact, which is in force. |
| ResolveOutcomes.ClosingOnlyLogs | src/agent_memory_gateway/review_service.py:369-407 | An archive or reject that is carried out closes the candidate and logs it, and changes no fact, row, event or receipt. |
| ResolveOutcomes.DuplicateExactly | src/agent_memory_gateway/review_service.py:120-177 | A resolve is answered with an earlier operation if and only if that operation carries its key and its owner. |
| ResolveOutcomes.ConflictsExactly | src/agent_memory_gateway/review_service.py:605-660 | A plain confirmation that passes the other checks answers with conflicts if and only if active rows of the text's scope claim the same attribute, and lists exactly those. |
| ResolveOutcomes.RefusalKeepsLedger | src/agent_memory_gateway/review_service.py:120-177 | A resolve that is not carried out leaves the ledger as it was, wherever it stops or crashes. |
| ResolveOutcomes.RefusalsNameTheirReason | src/agent_memory_gateway/review_service.py:120-177 | Every refusal of a resolve names the first thing wrong: no candidate, somebody else's, another revision, not open, sensitive, not approved, or which fault the target has. |
| StoredTexts.EveryTextWasSent | src/agent_memory_gateway/review_service.py:662-705 | Over every run, crashes and retries included, a worker's fact holds the text of its explicit event, and a confirmation's fact the text that some resolve of the run chose for that candidate under that key; no text the scanner called sensitive, and no instruction without approval, is ever stored. |
| UndoOutcomes.RevertDoneExactly | src/agent_memory_gateway/review_service.py:216-263 | Between agreeing stores a complete revert is carried out if and only if the candidate is the requester's own at the expected revision, the operation is its latest and no revert, what it superseded is still superseded and not archived since, and nobody has used the key. |
| UndoOutcomes.RevertUndoes | src/agent_memory_gateway/review_service.py:409-506 | It then archives the created memory in both stores, makes the superseded one active again without a successor in both, with the tombstone of the one in force and that of the other revoked, logs what it compensates, reopens the candidate, and touches no other row or fact. |
| UndoOutcomes.RevertRefusalsNameTheirReason | src/agent_memory_gateway/review_service.py:216-263 | A refused revert leaves the ledger as it was and names the first thing wrong, in the same order. |
| UndoOutcomes.ForgettingArchives | src/agent_memory_gateway/review_service.py:179-214 | Between agreeing stores, forgetting archives the owner's active memory of that workspace in both, answers the status of one that is not active, and finds no memory of anybody else. |
| UndoOutcomes.ReadyCrystalIsCurrent | src/agent_memory_gateway/crystal_service.py:175-261 | Over every run a ready crystal lists exactly the active memories of its scope that are no instructions, none of them changed since it was built. |
| UndoOutcomes.RebuildListsSources | src/agent_memory_gateway/crystal_service.py:175-261 | Between agreeing stores a rebuild succeeds if and only if the scope has two to a hundred such memories; its crystal then lists exactly those, and a first use of the key makes the page of them. |
| WorkerOutcomes.PassSettles | src/agent_memory_gateway/reconcile.py:103-235 | What a complete worker pass makes of a due event in every reachable state: dead letter when it cannot be read; duplicate, leading where the record's first event leads, when another event of its record was applied; review candidate when it is instruction-like or not explicit; then dead letter, retry, or a fact with exactly its own text and an active row, as GBrain answers. |
| WorkerOutcomes.SubmissionIsKept | src/agent_memory_gateway/metadata_store.py:54-167 | A submission is accepted if and only if its text is not sensitive and its id is new to the device, and then, whatever runs or crashes afterwards, the event keeps its submitter, workspace, scope and text as sent; any other leaves both stores as they were. |
| WorkerOutcomes.ResubmissionIsCompared | src/agent_memory_gateway/metadata_store.py:54-167 | A repeated event id is answered from the first submission if and only if text, workspace and scope are the same. |
| ExternalRecords.ExactlyOneFirst | src/agent_memory_gateway/reconcile.py:147-156 | Over every run, of the applied events captured from one revision of one record, for one owner and workspace, exactly one was not settled as a duplicate. |
| ExternalRecords.OneMemoryPerRecord | src/agent_memory_gateway/reconcile.py:147-156 | Over every run, at most one lifecycle row and at most one review candidate come from the events of one record. |
| ExternalRecords.LaterIsDuplicate | src/agent_memory_gateway/reconcile.py:147-156 | A later event of a known record, read by a worker that gets to commit, is settled as a duplicate leading where the first one leads; GBrain, rows and candidates stay. |
| ExternalRecords.SecondFactExactly | src/agent_memory_gateway/reconcile.py:166-172 | A request gives a record a second worker fact in GBrain if and only if it is a worker pass over an explicit event of it while no event of the record is applied and another one already holds a fact. |
| ExternalRecords.CrashFreeRunsStoreOnce | src/agent_memory_gateway/reconcile.py:103-235 | In every run without a worker pass that crashed between its two commits, the events of one record have at most one worker fact between them. |
| ExternalRecords.CrashStoresTwice | src/agent_memory_gateway/reconcile.py:166-235 | With such a crash, a run of four attempts ends with two facts of one record. |
| EventTrails.EveryRunIsTraced | src/agent_memory_gateway/reconcile.py:215-221 | Over every run, each row is where its source event leads, an event leads only to rows of its own tenant, user and workspace, and the record of every applied event is registered with the event it was first captured by and leads where that one leads. |
| LedgerCommits.ServeCommits | src/agent_memory_gateway/review_service.py:120-506 | Every request, wherever it crashes, changes the ledger by at most one transaction, whose guards hold when it runs. |
| Isolation.DeliveredExactly | src/agent_memory_gateway/query_service.py:163-254 | Over every run a principal is delivered a memory if and only if it is an active memory of the principal's own tenant and user, no instruction, reached by an event shared with the principal by its scope (same workspace, device, agent, or device and agent), and in force in GBrain. |
| Isolation.NothingOfOthersIsDelivered | src/agent_memory_gateway/query_service.py:180-254 | Over every run, what a principal is delivered is stored in GBrain under its own tenant and came from an event of its own tenant and user. |
| Isolation.EverythingOwnIsDelivered | src/agent_memory_gateway/query_service.py:180-254 | Where the stores agree, every active memory of the owner that is in scope by its own row and no instruction is delivered. |
| KeyedTransactions.FirstUse | src/agent_memory_gateway/gbrain_backend.py:170-660 | Under an unused key each GBrain transaction goes through if and only if its condition on the facts holds, and then changes exactly those facts. |
| KeyedTransactions.RepeatIsIdle | src/agent_memory_gateway/gbrain_backend.py:606-660 | In every reachable state a transaction that went through is answered the same whenever it is repeated, whatever ran in between, and changes nothing then. |
| KeyedTransactions.KeyServesOneOperation | src/agent_memory_gateway/gbrain_backend.py:170-660 | The key of a transaction that went through is refused to any other kind or target. |
| Visibility.ResolveThenRevertIsInvisible | src/agent_memory_gateway/query_service.py:163-254 | Between agreeing stores, a committed resolve of any action followed directly by its revert leaves what each principal is delivered, after the ledger's authorisation and GBrain's own filter, exactly as it was. |
| Visibility.ResolveThenRevertKeepsAuthorised | src/agent_memory_gateway/query_service.py:180-254 | In any reachable ledger, agreeing or not, the same pair leaves what the ledger authorises each principal to retrieve as it was. |
| Visibility.AuthorizedIsDelivered | src/agent_memory_gateway/query_service.py:163-178 | Where the stores agree, GBrain drops nothing the ledger authorises; whose memories those are is Isolation.DeliveredExactly. |
| Visibility.HiddenFromEveryone | src/agent_memory_gateway/query_service.py:180-254 | A memory that is not active or is instruction-like is retrievable by nobody; by whom the others are is Isolation.DeliveredExactly. |
| CrystalPlanning.OutOfDateIsSelected | src/agent_memory_gateway/crystal_service.py:38-119 | After any run a ready crystal lists exactly its scope's current sources, and an out-of-date crystal of two or more sources meets the selection condition. |
| CrystalPlanning.SelectedExactlyWhenStale | src/agent_memory_gateway/crystal_service.py:46-79 | In a reachable ledger a scope is selected exactly when its crystal is missing or stale; the revision comparison adds nothing. |
| CrystalPlanning.AnswerExists | src/agent_memory_gateway/crystal_service.py:46-79 | Every ledger has an answer of the query: selected scopes once each with their sources, newest revision and reason, oldest first, cut off only at the limit. |
| CrystalPlanning.Planner.Plan | src/agent_memory_gateway/crystal_service.py:38-119 | Given such an answer, each line is written once by the upsert rule, the rest of the table is untouched, the result counts the rows written, and every listed scope, below the limit every scope selected, has a candidate with its current sources. |
| CrystalPlanning.PlanMissesNothing | src/agent_memory_gateway/crystal_service.py:38-119 | After any run, a plan below its limit leaves no scope of two or more sources without such a candidate unless its crystal is ready and lists exactly those sources. |
| CrystalPlanning.ReplanningIsIdle | src/agent_memory_gateway/crystal_service.py:84-119 | Planning the same groups again writes nothing. |
| CrystalPlanning.DismissalLasts | src/agent_memory_gateway/crystal_service.py:84-119 | A dismissed candidate stays dismissed exactly while its sources and revision do not move on. |
| CrystalPlanning.PickedExactly | src/agent_memory_gateway/crystal_service.py:46-79 | After any run a scope is selected if and only if it holds two different active memories that are no instructions and its crystal is missing or not ready. |
| CrystalPlanning.CandidateIsBroughtUpToDate | src/agent_memory_gateway/crystal_service.py:84-119 | A plan gives a scope's candidate the current sources, revision and reason, leaves it dismissed only if it was and neither sources nor revision moved on, and counts it exactly when it differs from before. |
| Outbox.NothingIsLost | src/agent_memory_gateway/outbox.py:330-362 | Over any run of pushes, arbitrary answers, crashes, cleanups and restarts, every event enqueued is in the outbox or has a receipt. |
| Outbox.InFlightOnlyAfterBadAnswer | src/agent_memory_gateway/sidecar_client.py:366-441 | A push leaves an event of its batch in flight if and only if the answer cannot be decoded or demands a reset without an epoch. |
| Outbox.FinishedStaysFinished | src/agent_memory_gateway/outbox.py:724-846 | An acknowledged or dead-lettered event is never sent again and its receipt never changes, unless its id is enqueued anew. |
| Outbox.EnqueueAccepts | src/agent_memory_gateway/outbox.py:302-362 | A prepared event is accepted unless its id is still queued; the counter never repeats a sequence number. |
| Outbox.PushEffect | src/agent_memory_gateway/sidecar_client.py:366-441 | A push touches no event outside its batch. |
| PushAnswers.AnswerDecides | src/agent_memory_gateway/sidecar_client.py:386-441 | After a push with a readable answer, an event of the batch is acknowledged if and only if its last result is applied, duplicate, or rejected and not marked retryable; it is a dead letter if and only if the request failed for good or its last result is none of those and rules out a retry; otherwise it waits with one attempt more, its receipt unchanged, and is listed again exactly from the backoff on. |
| PushAnswers.QueuedUntilAnswered | src/agent_memory_gateway/sidecar_client.py:366-441 | Over every run of pushes, crashes, cleanups and restarts, an event that no push of the run got a final answer for stays unsettled in the queue and its receipt stays as it was. |
| PushAnswers.SettledOnlyByAnswer | src/agent_memory_gateway/sidecar_client.py:366-441 | Over every run, an event is settled or has a receipt only if some push of the run got such an answer for it. |
| PushAnswers.RestartMakesSendable | src/agent_memory_gateway/outbox.py:282-290 | After a restart an event may be sent if and only if it is not settled: at once if it was in flight, otherwise from its due time. |
| PushAnswers.CleanupFreesTheId | src/agent_memory_gateway/outbox.py:838-846 | An id can be used for a new event only once the old one was acknowledged and cleaned up. |
| PushAnswers.SettledStays | src/agent_memory_gateway/outbox.py:812-846 | Over every run a dead letter stays in the queue with its receipt, and an acknowledged event until the user has the queue cleaned up. |
| Sidecar.DeviceOutbox.Reopen | src/agent_memory_gateway/outbox.py:282-290 | Opening the outbox returns in-flight events to the queue. |
| Sidecar.DeviceOutbox.PrepareEvent | src/agent_memory_gateway/outbox.py:302-328 | The next device sequence number. |
| Sidecar.DeviceOutbox.Enqueue | src/agent_memory_gateway/outbox.py:330-362 | Insert once per id and sequence number, or refuse. |
| Sidecar.DeviceOutbox.ListEvents | src/agent_memory_gateway/outbox.py:641-662 | Exactly the sendable, due events, in sequence order. |
| Sidecar.DeviceOutbox.MarkInFlight | src/agent_memory_gateway/outbox.py:664-677 | Only sendable events of the list go in flight. |
| Sidecar.DeviceOutbox.MarkRetryable | src/agent_memory_gateway/outbox.py:679-722 | The event waits for its backoff, counted once more. |
| Sidecar.DeviceOutbox.MarkTerminal | src/agent_memory_gateway/outbox.py:724-778 | A terminal result acknowledges the event and stores its receipt; any other is refused. |
| Sidecar.DeviceOutbox.MarkDeadLetter | src/agent_memory_gateway/outbox.py:812-836 | The event is dead-lettered with a rejection receipt. |
| Sidecar.DeviceOutbox.CleanupAcked | src/agent_memory_gateway/outbox.py:838-846 | Exactly the acknowledged events are removed. |
| Sidecar.DeviceOutbox.ClearCache | src/agent_memory_gateway/outbox.py:895-912 | The workspace's cache and recorded versions are dropped, the epoch kept. |
| Sidecar.DeviceOutbox.ApplyPullPage | src/agent_memory_gateway/outbox.py:914-1003 | A page is refused as a whole or applied as a whole, memories before tombstones. |
| Sidecar.SidecarClient.PushWorkspace | src/agent_memory_gateway/sidecar_client.py:366-441 | The queue after a push is that of the push function for any response, whose verdict on each event PushAnswers.AnswerDecides states on the answer; it raises exactly on an unreadable answer and on a reset without an epoch. |
| Sidecar.SidecarClient.PullWorkspace | src/agent_memory_gateway/sidecar_client.py:443-480 | At most one hundred rounds against any gateway, ending as the pull function says. |
| Sidecar.SidecarClient.Sync | src/agent_memory_gateway/sidecar_client.py:319-354 | A synchronisation is a run of pushes, each of at most one hundred events of one workspace under its name, and of pulls; unless it raises, every event that may be sent is sent unless a hundred earlier ones of its workspace were, every such workspace and the target are pulled, and nothing it sent stays in flight. Unlisted events are untouched. |
| Sidecar.SidecarClient.CleanupConfirmed | src/agent_memory_gateway/sidecar_client.py:356-364 | Nothing is removed without the user's confirmation. |
| SidecarCache.CacheIsAlwaysCurrent | src/agent_memory_gateway/sidecar_client.py:443-480 | Against a gateway that always names epoch, policy and auth epochs, every cached memory was delivered under the stamp now recorded, through any pulls and resets. |
| SidecarCache.ProtectsExactly | src/agent_memory_gateway/sidecar_client.py:463-476 | A recorded stamp protects the cache against every later reply if and only if it names a policy and both auth epochs. |
| SidecarCache.PageIsReflected | src/agent_memory_gateway/outbox.py:956-1003 | An accepted page is cached at its revision or newer, no cached revision goes back, nothing tombstoned stays. |
| SidecarCache.PullKeepsOthers | src/agent_memory_gateway/outbox.py:895-1003 | A pull leaves every other workspace alone. |
| PullDelivery.PullDeliversEveryPage | src/agent_memory_gateway/sidecar_client.py:443-480 | A pull from a gateway that answers each recorded state with the next of up to a hundred pages, saying of all but the last that there is more, ends complete, records the stamp, revision and cursor of the last page, and has every memory of the pages cached at its revision or newer unless the same or a later page drops it, and nothing a page dropped unless a later one brings it again. |
| PullDelivery.ChangeEmptiesCache | src/agent_memory_gateway/sidecar_client.py:459-476 | A reset, or a page under another policy or authorisation than the recorded one, empties the workspace's cache, takes nothing from the page, and the pull goes on under the page's epoch. |
| PullDelivery.ResetsAgree | src/agent_memory_gateway/sidecar_client.py:402-410 | A reset that answers a push does exactly what a reset page does in a pull, and leaves other workspaces alone. |
| PullDelivery.RefusedAsAWhole | src/agent_memory_gateway/outbox.py:914-955 | Any other page is refused as a whole if and only if it names no epoch or another one, or carries a memory that is not reference data with an id and a revision; else the pull goes on exactly while there is more. |
| Identity.IdentityService.PairDevice | src/agent_memory_gateway/identity_service.py:551-708 | One unused, unexpired code pairs one new device with its new agents. |
| Identity.IdentityService.RefreshToken | src/agent_memory_gateway/identity_service.py:710-848 | Rotation, replay inside the window, reuse detection and every refusal, in the order of the source. |
| Identity.IdentityService.RevokeDeviceAccess | src/agent_memory_gateway/identity_service.py:301-339 | The device, its agents and its credentials are revoked together. |
| Identity.IdentityService.RevokeAgentAccess | src/agent_memory_gateway/identity_service.py:485-521 | The agent is revoked and its epoch moves on. |
| Identity.RefreshTokenProvider.AccessToken | src/agent_memory_gateway/sidecar_auth.py:59-95 | The client keeps its secret unless a complete answer is received and stored. |
| RefreshRotation.PairingStartsInStep | src/agent_memory_gateway/identity_service.py:668-708 | Pairing leaves the client with the current secret. |
| RefreshRotation.RunKeepsInStep | src/agent_memory_gateway/identity_service.py:710-848 | In every reachable state of a lossy run the stored secret is the current or the previous one and the replay copy is the current one. |
| RefreshRotation.AnsweredExactly | src/agent_memory_gateway/identity_service.py:710-848 | An ask is answered if and only if everything is in force and the client is up to date with thirty seconds to expiry, or one behind inside the window under the same sealing key. |
| RefreshRotation.AnswerCarriesCurrent | src/agent_memory_gateway/identity_service.py:780-848 | Rotated or replayed, an answer carries the current secret and an accepted token. |
| RefreshRotation.SuspectedExactly | src/agent_memory_gateway/identity_service.py:738-764 | An honest client is taken for a thief exactly when it returns one rotation behind after the window. |
| RefreshRotation.WastedRotationOpensWindow | src/agent_memory_gateway/identity_service.py:780-848 | A rotation whose answer is lost puts the client one behind with the replay of exactly that rotation open for thirty seconds. |
| RefreshRotation.LostAnswersAreRecovered | src/agent_memory_gateway/sidecar_auth.py:59-95 | After such a rotation, through any interleaving of other parties' steps and further lost retries inside the window, a retry that gets through is answered if and only if it comes inside the window under the same sealing key with everything in force, and then with that rotation's secret; inside the window the client is never taken for a thief. |
| RefreshRotation.LateRetryLocksOut | src/agent_memory_gateway/identity_service.py:751-764 | After the window the client is locked out for good. |
| RefreshRotation.LastSecondsAreLost | schema/memory_gateway.sql:118-130 | An up-to-date client is refused in exactly the last thirty seconds of an unexpired credential, where the table's check forbids the rotation. |
| AccessRevocation.AcceptedExactlyUntilCut | src/agent_memory_gateway/auth.py:159-194 | A token once accepted is accepted after any run if and only if nothing in the run revoked its device or agent or was caught reusing its device's secret. |
| AccessRevocation.IssuedIsAccepted | src/agent_memory_gateway/identity_service.py:833-848 | Every token handed out is accepted at once. |
| AccessRevocation.ReuseEndsEarlierTokens | src/agent_memory_gateway/identity_service.py:751-764 | Detected reuse ends every earlier token of the device in every later run. |
| AccessRevocation.RevokedDeviceIsShutOut | src/agent_memory_gateway/identity_service.py:301-339 | A revoked device is never authenticated or refreshed again. |
| AccessRevocation.RunGrows | src/agent_memory_gateway/identity_service.py:301-521 | Over every run epochs only grow, revocation is final and identities keep their owner. |
| AccessRevocation.CodePairsOnce | src/agent_memory_gateway/identity_service.py:577-593 | A used pairing code refuses every later pairing. |
| Enrolment.PairsExactly | src/agent_memory_gateway/identity_service.py:551-708 | Pairing succeeds if and only if the code is known, unused and unexpired and device, agents and credential are new; the device then belongs to the tenant and user of the code, its credential lives ninety days, and nothing else changes. |
| Enrolment.TokensSpeakForTheCode | src/agent_memory_gateway/identity_service.py:710-848 | Over every run, a token that refresh hands out names the tenant and user of the code that paired its device, and an agent of that device. |
| Enrolment.AcceptedSpeaksForTheCode | src/agent_memory_gateway/auth.py:159-194 | Over every run, any token that is accepted names the tenant and user of the code that paired its device, an active agent of it, and the epochs both are at. |
| Enrolment.RefreshesExactly | src/agent_memory_gateway/identity_service.py:710-848 | For any secret presented, refresh answers if and only if credential, device and agent are in force and the secret is the current one with thirty seconds to the expiry, or the previous one inside its window under the same sealing key; a replay changes nothing and a rotation changes exactly the credential. |
| Enrolment.OtherSecretsAreRefused | src/agent_memory_gateway/identity_service.py:738-764 | A refused refresh changes nothing, except that the previous secret after its window revokes the credential and moves the epochs of its device and its agents on. |
| Enrolment.NeverTwoLive | src/agent_memory_gateway/identity_service.py:419-483 | Over every run in which the clock does not go back, no device has two live refresh credentials. |
| Enrolment.RevocationReaches | src/agent_memory_gateway/identity_service.py:301-339 | Revoking a device ends it, its agents and its credentials, and no other. |
| RateLimiting.SlidingWindowRateLimiter.Allow | src/agent_memory_gateway/rate_limit.py:26-46 | The limiter's new state and answer are those of the call function. |
| RateLimiting.SlidingWindowRateLimiter.DiscardExpired | src/agent_memory_gateway/rate_limit.py:48-52 | Exactly the expired keys go. |
| RateLimiting.SlidingWindowRateLimiter.DiscardEarliestExpiring | src/agent_memory_gateway/rate_limit.py:54-61 | Exactly the key with the least (expiry, key) goes. |
| RateLimiting.FreshLimiterAnswersAsLog | src/agent_memory_gateway/rate_limit.py:26-61 | With an ordered clock, fixed rules and room whenever a new key arrives, a run is answered exactly as by a limiter that keeps every grant. |
| RateLimiting.CallRemembersExactly | src/agent_memory_gateway/rate_limit.py:33-39 | A call leaves every grant that still counts remembered if and only if the key is known or fewer than max_keys keys hold unexpired grants. |
| RateLimiting.AnswersAsLog | src/agent_memory_gateway/rate_limit.py:40-46 | While nothing that counts is forgotten, each answer is that of the full log. |
| RateLimiting.LogNeverOverfull | src/agent_memory_gateway/rate_limit.py:40-46 | In the log of a limiter that keeps every grant, no half-open interval of a window's length holds more than limit grants of a key. |
| BoundedLimiter.WindowNeverOverfull | src/agent_memory_gateway/rate_limit.py:26-46 | The same of the grants the bounded limiter itself gives in a run, read from its replies, when there is room whenever a new key arrives. |
| BoundedLimiter.CallStaysFaithfulExactly | src/agent_memory_gateway/rate_limit.py:33-39 | On the answers: after a call every single client is answered as by the full log, whenever it calls, if and only if the call's key was known or fewer than max_keys keys held unexpired grants. |
| BoundedLimiter.EvictedIsOverserved | src/agent_memory_gateway/rate_limit.py:54-61 | Without room there is a client, the evicted one, whose limit calls at that very instant are all granted although the full log refuses one. |
| BoundedLimiter.FreshLimiterFaithfulExactly | src/agent_memory_gateway/rate_limit.py:26-61 | A run of the new limiter keeps every single client answered as by the full log at each of its moments if and only if there was room whenever a new key arrived. |
| RateLimiting.EvictionOverfills | src/agent_memory_gateway/rate_limit.py:54-61 | With room for one key a concrete run grants a call the full log denies. |
| BoundedLimiter.AnswersBySlidingWindow | src/agent_memory_gateway/rate_limit.py:26-46 | With room for every new key, a call is granted if and only if it names a client, a limit and a window and fewer than the limit of that client's earlier calls in the run were granted inside the window. |
| Redaction.ScanCovers | src/agent_memory_gateway/security.py:203-237 | For any match lists the findings are disjoint and ordered, each a match that passed its filter, and every such match overlaps one. |
| Redaction.Scan | src/agent_memory_gateway/security.py:203-237 | The three loops compute that list, although the last does not record what it occupies. |
| Redaction.RedactSensitiveText | src/agent_memory_gateway/security.py:263-270 | Right-to-left replacement equals the left-to-right weave of gaps and labels. |
| Redaction.SpansAreErased | src/agent_memory_gateway/security.py:263-270 | Texts that differ only inside the spans redact to the same output. |
| Redaction.LuhnValid | src/agent_memory_gateway/security.py:142-154 | The loop decides the length, the repeated digit and the checksum. |
| Redaction.LuhnCatchesWrongDigit | src/agent_memory_gateway/security.py:142-154 | A single wrong digit always breaks the checksum. |
| Redaction.LuhnCatchesSwap | src/agent_memory_gateway/security.py:142-154 | Swapping neighbours is caught exactly when they differ and are not 0 and 9. |
| Redaction.IdCatchesWrongDigit | src/agent_memory_gateway/security.py:157-163 | A single wrong digit always invalidates a resident id. |
| ScannerLaws.CardByCheckDigit | src/agent_memory_gateway/security.py:142-154 | A candidate is a card number if and only if it has 13 to 19 digits, not all alike, the last being the check digit of the others, doubling every second digit from the right. |
| ScannerLaws.IdByModEleven | src/agent_memory_gateway/security.py:157-163 | A candidate is a resident id if and only if it is seventeen digits and a digit or X that bring the running value, doubled after each digit, to one modulo eleven (MOD 11-2 of ISO 7064). |
| ScannerLaws.ValidNumbersAreFound | src/agent_memory_gateway/security.py:222-236 | A digit run that is a card number or a resident id is always touched by a finding. |
| ScannerLaws.CardsGiveWayToRules | src/agent_memory_gateway/security.py:207-229 | A card number is reported as such unless the match of a rule reported before it touches it. |
| ScannerLaws.FindingsAreJustified | src/agent_memory_gateway/security.py:203-237 | Every finding is the match of a rule its filter lets pass, a card number or a resident id, under the category and rule it names. |
| ScannerLaws.LastSpanIsReplaced | src/agent_memory_gateway/security.py:263-270 | Adding the last finding replaces its span by its category in brackets and keeps the text behind it, so by repetition a redaction replaces each span and changes nothing else. |
| RerankHeap.BoundedHeap.Push | src/agent_memory_gateway/hybrid_retrieval.py:256-257 | The heap order holds and exactly one candidate is added. |
| RerankHeap.BoundedHeap.Replace | src/agent_memory_gateway/hybrid_retrieval.py:258-259 | The heap order holds and exactly the root is exchanged. |
| RerankHeap.RootIsWorst | src/agent_memory_gateway/hybrid_retrieval.py:191-204 | No candidate of a heap ranks below its root. |
| RerankHeap.BetterIsOrder | src/agent_memory_gateway/hybrid_retrieval.py:197-210 | The comparison the heap makes is a strict weak order, total on distinct ids; that it is the falling order of scores is in Retrieval.KeepBest. |
| Retrieval.KeepBest | src/agent_memory_gateway/hybrid_retrieval.py:227-262 | One bounded pass yields k candidates, or all if fewer, by falling score and, at equal scores, rising id, and every candidate left out has a score at most that of each one kept, ties by id; with distinct ids that is exactly the ranked and truncated list. |
| Retrieval.KeptBestIsTopK | src/agent_memory_gateway/hybrid_retrieval.py:256-262 | Whatever keeps no worse candidate than it drops keeps the first k of the ranking. |
| Retrieval.SelectionIgnoresArrival | src/agent_memory_gateway/hybrid_retrieval.py:213-321 | With distinct ids neither arrival order nor batch boundaries change the selection. |
| Retrieval.DedupedCovers | src/agent_memory_gateway/hybrid_retrieval.py:263-277 | The deduplicated list is pairwise unalike and every dropped candidate duplicates a member. |
| Retrieval.GreedySelection | src/agent_memory_gateway/hybrid_retrieval.py:279-312 | At most limit members, within budget, pairwise unalike; with fewer than limit, no unchosen candidate fits the rest of the budget. |
| Retrieval.SelectionPromises | src/agent_memory_gateway/hybrid_retrieval.py:213-321 | The same for the selection as a whole. |
| Retrieval.SelectionExtends | src/agent_memory_gateway/hybrid_retrieval.py:222-312 | A larger limit only extends the result of a smaller one. |
| Retrieval.PickIsMostPreferred | src/agent_memory_gateway/hybrid_retrieval.py:284-292 | The candidate taken is preferred to by none by marginal relevance, then id. |
| Retrieval.RemoveDuplicates | src/agent_memory_gateway/hybrid_retrieval.py:263-277 | The loop computes the deduplicated list and counts the rest. |
| Retrieval.ChooseWithin | src/agent_memory_gateway/hybrid_retrieval.py:279-312 | The selection loop computes the greedy choice. |
| Retrieval.SelectHybridMemories | src/agent_memory_gateway/hybrid_retrieval.py:213-321 | The streaming procedure returns the greedy selection from the best-scored candidates the bounded pass kept, which with distinct ids is the specified one, and counts the eligible records, the near-duplicates removed, the candidates skipped for the budget and the tokens spent. |
| TextOrder.BeforeByFirstDifference | src/agent_memory_gateway/hybrid_retrieval.py:207-210 | One id is before another if and only if at their first difference it ends or has the smaller character. |
| SelectionLaws.TopKIsBest | src/agent_memory_gateway/hybrid_retrieval.py:256-262 | The ranked and truncated list is, for any candidates, the k of them by falling score and rising id, with nothing left out that scores higher. |
| SelectionLaws.BetterDuplicateSurvives | src/agent_memory_gateway/hybrid_retrieval.py:263-277 | What the removal of near duplicates drops has the same text as, or a similarity of at least 0.94 to, a member that scores no lower, ties by id. |
| SelectionLaws.ScoreIsMarginalValue | src/agent_memory_gateway/hybrid_retrieval.py:284-287 | The value compared is 0.8 times the score, less 0.2 times the greatest similarity to a chosen memory, plus 0.04 for the first of a group, and no other. |
| SelectionLaws.EveryChoiceIsBest | src/agent_memory_gateway/hybrid_retrieval.py:279-312 | Every chosen memory, at its turn, fitted the rest of the budget and had at least the marginal value of every other candidate that was still available and fitted, ties by id. |
| SelectionLaws.SelectionReturns | src/agent_memory_gateway/hybrid_retrieval.py:213-321 | The whole selection returns only records that are no instructions and not blank, no two nearly equal, at most the limit held between 1 and 50, within the budget, and fewer only when nothing else fits. |
| SelectionLaws.MostRelevantComesFirst | src/agent_memory_gateway/hybrid_retrieval.py:213-321 | Without a budget the first memory returned is the one with the highest score of all admissible records, ties by id. |
| SelectionLaws.WordCosts | src/agent_memory_gateway/hybrid_retrieval.py:57-79 | A word costs a third of its letters and digits, rounded up. |
| SelectionLaws.PartsAddUp | src/agent_memory_gateway/hybrid_retrieval.py:57-79 | A cut that goes through no word leaves the estimate unchanged; with the costs of a word and of a single mark this settles every estimate. |
| Retrieval.EstimateTokens | src/agent_memory_gateway/hybrid_retrieval.py:57-79 | The index scan computes the run-by-run estimate. |
| Retrieval.SplittingNeverSaves | src/agent_memory_gateway/hybrid_retrieval.py:57-79 | Cutting a text in two never lowers its estimate. |

## Left out

- Read-committed races between concurrent transactions, row locks and advisory locks: runs are serial. The worker may take any due event, not only the oldest one that is not locked or waiting for its retry.
- Devices, agents and credentials created by an administrator outside pairing: every device of the model is paired by a code.
- Rejecting or archiving an instruction-like candidate needs approval in the code too; the model keeps this, and says nothing about who approves.
- Workspace binding and capability checks, input length and type validation, HTTP handlers, listings and the admin console.
- History rows, audit rows and backend_bindings metadata: the recorded previous status is not reliable in the code.
- The ledger's own uniqueness of device sequence numbers; page text, titles and content hashes; fact kinds and confidence.
- Encryption, signatures, token expiry and the encoding of secrets; SQLite migration of older outbox tables; checkpoints and provider shares.
- LIKE matching of sync-state keys: the state is keyed by the workspace itself, so workspace ids are taken free of wildcards.
- Field values of the wrong type inside a decoded answer, non-numeric revisions and malformed tombstones in a page; backoff lengths, which are an arbitrary function.
- Delayed delivery of a refresh request after the client has given up on it.
- Regular expressions, Unicode normalisation, feature hashing and floating-point rounding: match lists, normalised text, an arbitrary symmetric similarity and real scores stand for them; digits are ASCII.
- Expiry of dismissed crystal candidates and the administrative listing of candidates.
- sync_service.py is not part of this model: a push is one submission per event and a pull is an arbitrary page.
- CrashRecovery.CrashedResolveRecovers: retries with nothing in between, but from any state; RepeatedCrashes has other requests between the crashes, each of them complete, and leaves requests that crashed before to the exception sets.
