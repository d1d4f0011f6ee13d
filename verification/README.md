# Verified model of the protocol backend

This project models the parts of the repository that keep state which has to stay right over long runs, and proves what
they guarantee. Postgres and Redis are maps, each SQL statement is one atomic update, and HMAC, CMAC and Unicode
upper-casing are arbitrary functions. Lost requests, lost replies and failing statements are inputs, and so are the clock
and every response from outside.

Sequential services are classes whose methods are proved equal to a specification function on their state. Concurrent
ones are step machines: an event that is not enabled changes nothing, so "any interleaving" is "any sequence of events".

| file | what it covers |
|---|---|
| `Wrappers.dfy`, `MachineInts.dfy` | optional values and results; `u32`/`i32` and their casts |
| `AssetTypes.dfy`, `Protocol.dfy`, `Lifecycle.dfy` | states, roles, actions, the guarded step, and its runs |
| `Ledger.dfy` | the four protocol tables, the protocol handlers and the transfer handler |
| `LedgerRuns.dfy`, `AuditTrail.dfy`, `Idempotency.dfy`, `Ownership.dfy` | runs of those handlers: owners, audit log, idempotency, transfer records |
| `LedgerCounterexamples.dfy` | runs from fresh tables that end where a guarantee no longer holds |
| `Requests.dfy` | what requests carry into those handlers, what they are told and what is written for them |
| `CtrCache.dfy`, `VerifyRuns.dfy`, `VerifyAnswers.dfy` | the three-level replay counter and the verify endpoint |
| `Authority.dfy` | the mother card's counter under concurrent calls |
| `HexText.dfy`, `SunMessage.dfy` | the tag message, printed by the client and parsed by the server |
| `Calibrate.dfy` | the counter calibration tool |
| `KeyCache.dfy` | key derivation and the double-checked brand key cache under concurrent calls |
| `Workorder.dfy` | workorders under concurrent calls |
| `Webhook.dfy` | the webhook delivery worker |

## Where the code and what is said about it differ

The model follows the code. Each point has a lemma with the exact condition or a concrete run.

- **Replay counter.** A comment in the cache's tests (`rust/rc-api/src/cache/ctr_cache.rs:433-437`) says the cached value
  is at least the one in Postgres. It is at most that one: L2 <= L1 <= L3 (`VerifyRuns.OrderAlways`). After a lost Redis
  write a lower counter can be accepted (`VerifyRuns.LostWriteLetsCounterFall`). From any moment on, the next
  verification catches a replay exactly when the levels still consulted, an unexpired L1 entry and Redis, agree with
  Postgres (`VerifyRuns.ReplaySafeIffSynced`). Exactly then every replay is caught in every later run that loses no
  Redis update (`VerifyRuns.RunsReplaySafeIffSynced`). `VerifyRuns.RestartResyncs` says how to get back there.
- **Unanswered verifications.** In the second response format the counter is stored before the attestation summary is
  built. If that fails the client gets an error for a counter that is spent (`VerifyRuns.UnansweredCounterIsSpent`).
- **Saved state of a dispute.** Comments (`rust/rc-core/src/state_machine.rs:7-8`, `rust/rc-core/src/protocol.rs:48`) say
  it never comes from the client, but a request may carry one and it replaces the stored one
  (`rust/rc-api/src/routes/protocol.rs:456-458`). The owner rule and the replay of the log survive such a recovery
  exactly under the conditions of `LedgerRuns.OverriddenRecovery` and `AuditTrail.OverriddenReplay`. A run that breaks
  both is `LedgerCounterexamples.SoldWithoutOwner`.
- **Transition table.** `can_transition` knows every step but recovery (`Lifecycle.CanTransitionMissesExactlyRecovery`).
- **Transfers.** The handler checks who owns the asset and no role (`LedgerRuns.TransferIgnoresRole`). It makes three
  statements without a transaction. `AuditTrail.HandedChain` and `Ownership.UnrecordedTransfer` say exactly when losing
  the later ones breaks the audit chain or the chain of owners; `LedgerCounterexamples.TransferThatBreaksBothChains` is a
  run that does. A rejected transfer does not give the asset back (`Ownership.SettlingChangesStatusOnly`).
- **Request hash.** It leaves out the buyer and the actor's id (`Idempotency.HashIdentifiesRequest`,
  `Idempotency.SecondBuyerGetsFirstAnswer`). It fails to identify a request exactly when the approval or the policy
  contains `|policy=`, or the asset id or the approval contains a text of the form
  `|action=...|trace=...|role=...|approval=` (`Idempotency.AmbiguousIffSplittable`, with the witness
  `Idempotency.BarsCollide`). For asset ids without bars the activation hash always identifies its request
  (`Idempotency.ActivateHashIdentifies`).
- **Calibration.** Taking the maximum can lower a side: a failed read counts as 0. The exact condition is
  `Calibrate.UseMaxLowersIff`, a witness is `Calibrate.UseMaxCanLower`.
- **Workorders.** The compare-and-swap protects the row, not the call made before it. A success reported by the protocol
  service reaches the row exactly if the final statement arrives and the workorder is not resolved, closed or cancelled
  by then (`WorkorderRuns.SuccessRecordedIff`); a cancelled workorder's asset can have been frozen for it
  (`WorkorderRuns.CancelledAfterFreezing`).
- **Webhooks.** Deliveries of inactive webhooks stay at the head of the queue; ten of them stop it
  (`WebhookRuns.HeadBlocksQueue`). With the default of three retries the last backoff is never used, and past the last
  backoff there is no delay (`WebhookRuns.AttemptsAreSpaced`, `WebhookRuns.ShippedBackoffs`).
- **Webhook configurations.** The `events` column is parsed as a JSON array
  (`services/go-webhook/internal/queue/db.go:112`), but the schema stores a Postgres array
  (`deploy/postgres/init/001_init.sql:59`), whose text `{...}` is never one. With that schema every configuration read
  fails, and nothing is ever sent (`WebhookRuns.NothingReadableNothingSent`).
- **Mother keys.** They depend on the first seven bytes of the card's id only (`KeyDerivation.MotherMessagesApart`), and
  they are chip keys: a mother card and a chip of one brand and epoch whose ids share those bytes have the same key
  (`KeyDerivation.SameKeyForSameMeaning`). All other keys differ unless HMAC collides (`KeyDerivation.KeysApart`).

## Model

| member | source | states |
|---|---|---|
| AssetTypes.DbStrRoundTrip | rust/rc-common/src/types.rs:33-70 | A column parses to a state exactly when it is that state's printed form: the trip through the database loses nothing and no two texts mean the same state. |
| AssetTypes.StatesPrintAsListed | deploy/postgres/init/001_init.sql:144-148 | Every state is stored as the text that stands in its place in the column's constraint. |
| AssetTypes.ActionsPrintAsListed | deploy/postgres/init/001_init.sql:266-270 | Every action is logged as the text that stands in its place in the log's constraint. |
| Lifecycle.AcceptedIffAdmissible | rust/rc-core/src/permissions.rs:3-32 | On a sound record a request is accepted exactly when the order-free rules admit it: business actions from their own states by their own role or by the platform under an approval, sales with a buyer, moderation by moderators and the platform on anything not terminal. |
| Lifecycle.WhyRefused | rust/rc-core/src/protocol.rs:22-65 | Which error refuses a request: the end of the asset's life before a freeze, a freeze before the permission, the permission before a missing buyer, and no transition last; each exactly when it applies and none before it does. |
| Lifecycle.TableOfTransitions | rust/rc-core/src/state_machine.rs:9-58 | The transition table as one order-free rule: nothing leaves an ended asset, marks end and freezes dispute any other, and business goes one state further along the chain or hands on, consumes and archives sold assets. |
| Lifecycle.AcceptedStep | rust/rc-core/src/state_machine.rs:9-41 | What any accepted step does: business never lowers the rank, freezing and recovering keep the effective state, marks end it, disputes always remember a live state. |
| Lifecycle.Provenance | rust/rc-core/src/protocol.rs:11-77 | In every run from a fresh record the accepted business actions are exactly ones that lead to the effective state, in order and each authorised, whatever freezes, recoveries and refusals are interleaved. |
| Lifecycle.SaleProvenance | rust/rc-core/src/protocol.rs:11-77 | A sold asset went through the six steps of the chain and no other business. |
| Lifecycle.NoMovingBackwards | rust/rc-core/src/state_machine.rs:9-41 | Between any two moments of a run the effective rank never falls, and a terminal record never changes again. |
| Lifecycle.EachStateLeftOnce | rust/rc-core/src/state_machine.rs:9-41 | Each state up to the sale is left by business at most once in a run. |
| Lifecycle.FrozenAdmits | rust/rc-core/src/protocol.rs:30-41 | A disputed asset admits exactly the moderators' and the platform's recoveries and marks. |
| Lifecycle.FreezeThenRecover | rust/rc-core/src/protocol.rs:47-65 | Freezing, any number of refused attempts, and a recovery give back the record as it was before. |
| Lifecycle.CanTransitionMissesExactlyRecovery | rust/rc-core/src/state_machine.rs:43-58 | The transition table agrees with every accepted step but recoveries, and with no recovery. |
| Ledger.ProtocolDb.PersistAction | rust/rc-api/src/db/mod.rs:104-230 | The row, the owner, the event and the idempotency record are all written or none is; an unacknowledged commit is written and reported as an error. |
| Ledger.ProtocolDb.Consider | rust/rc-api/src/routes/protocol.rs:438-471 | The checks in order: the idempotency record first, then the row, the brand, the guarded step, the preparation; what is to be performed names an existing row, and a sale its buyer. |
| Ledger.ProtocolDb.Handle | rust/rc-api/src/routes/protocol.rs:438-499 | One request changes the tables and answers as the specification says, under every database fault. |
| Ledger.ProtocolDb.ExecuteAssetAction | rust/rc-api/src/routes/protocol.rs:422-500 | The common handler: a sale without a buyer, or with an empty one, is refused as invalid input before anything is read, and everything else goes through the shared steps. |
| Ledger.ProtocolDb.ActivateAsset | rust/rc-api/src/routes/protocol.rs:163-255 | The first activation step: an empty product is invalid input; otherwise its own request hash, the brand boundary, and no action when preparation fails. |
| Ledger.ProtocolDb.ActivateEntangleAsset | rust/rc-api/src/routes/protocol.rs:257-340 | The second activation step, with the brand boundary and the mother card prepared before anything is written. |
| Ledger.ProtocolDb.InsertTransfer | rust/rc-api/src/db/transfers.rs:21-46 | Appends one pending transfer with both pairs of parties and returns its id. |
| Ledger.ProtocolDb.TransferAsset | rust/rc-api/src/routes/transfer.rs:65-181 | The transfer handler's three separate statements, with the state each failure leaves behind. |
| Ledger.ProtocolDb.UpdateTransferStatus | rust/rc-api/src/db/transfers.rs:74-113 | A status changes only while pending; otherwise the transfer is in conflict or unknown and nothing changes. |
| Ledger.ProtocolDb.SettleTransfer | rust/rc-api/src/routes/transfer.rs:200-242 | Confirming and rejecting, by the new owner only. |
| LedgerRuns.Performance | rust/rc-api/src/routes/protocol.rs:471-497 | What an accepted request presented to the guarded step, and that exactly its result was written. |
| LedgerRuns.Movement | rust/rc-api/src/routes/transfer.rs:77-171 | A transfer that reaches the row starts from a sold or transferred asset and its actual owner; which records follow under which failure. |
| LedgerRuns.FetchAfterWritten | rust/rc-api/src/db/mod.rs:39-66 | A written record is read back as itself, and no other asset reads differently. |
| LedgerRuns.AlwaysHealthy | rust/rc-api/src/db/mod.rs:49-65 | Whatever arrives and whatever fails, every row reads back as a record, and a disputed one remembers a live state to recover to. |
| LedgerRuns.OwnerInvariant | rust/rc-api/src/db/mod.rs:140-173 | In every run of all handlers in which no recovery carries a saved state, under any failures: no owner before the sale, an owner from the sale on, none after consumption or legacy, disputes counted as what they interrupted. |
| LedgerRuns.OverriddenRecovery | rust/rc-api/src/routes/protocol.rs:456-458 | A recovery to a client-supplied state keeps the owner rule if and only if that state lies on the same side of the sale as the interrupted one. |
| LedgerRuns.PerformedIffAdmissible | rust/rc-api/src/routes/protocol.rs:438-487 | A new request that brings no saved state to a recovery is performed if and only if the lifecycle's order-free rules admit it and, for the first two activation steps by a brand or a factory, the asset is of the actor's own brand. |
| LedgerRuns.PerformedOnStored | rust/rc-core/src/protocol.rs:47-65 | Every such request is decided on the stored record: actions other than a recovery ignore a saved state the client sends. |
| LedgerRuns.ActivationStaysWithinBrand | rust/rc-api/src/routes/protocol.rs:644-653 | A brand or factory takes the first two activation steps on assets of its own brand only, by whatever request. |
| LedgerRuns.RepeatedTransfer | rust/rc-api/src/routes/transfer.rs:72-119 | A transfer does not use its idempotency key; after one succeeds its sender is refused whatever is presented, or, if the asset went to the sender itself, is judged on a fresh tag and authority verdict. |
| LedgerRuns.TransferIgnoresRole | rust/rc-api/src/routes/transfer.rs:77-119 | Whether a transfer is allowed does not depend on the actor's role. |
| LedgerRuns.RetryAfterError | rust/rc-api/src/routes/protocol.rs:438-499 | After an error, a request repeated under its key either finds nothing changed, or, if it had been committed unheard, is answered with what was recorded then. |
| LedgerRuns.FreezeThenRecover | rust/rc-api/src/routes/protocol.rs:382-400 | In the database: after a freeze and any requests that do not touch the asset, a recovery without a saved state of its own gives back the row's state and owner. |
| Requests.PassedOnIff | rust/rc-api/src/routes/protocol.rs:430-432 | Exactly a sale without a buyer or with an empty one, an activation without a product, the three actions the common handler is not routed, and the requests about transfers go no further than their handler. |
| Requests.RefusedAtTheDoor | rust/rc-api/src/routes/protocol.rs:170-172 | Those sales and activations are told so as invalid input. |
| Requests.CallCarriesRequest | rust/rc-api/src/routes/protocol.rs:434-469 | What is passed on is the request's own asset, action, actor, headers, saved state and buyer, bound to the brand exactly for the first two activation steps. |
| Requests.SaleHasBuyer | rust/rc-api/src/routes/protocol.rs:430-432 | A performed sale names a non-empty buyer, and the row holds it and is LegallySold. |
| Requests.SalesNameBuyers | rust/rc-api/src/routes/protocol.rs:430-432 | In no run of any requests under any failures is an asset sold to an empty name. |
| Requests.PerformedRows | rust/rc-api/src/db/mod.rs:140-193 | A performed request changes its own asset's row only, saves the state exactly on a freeze, moves the owner exactly on a sale, a consumption and a legacy, and logs one event with the request's own actor and headers and the row's texts before and after. |
| Requests.PerformedIsAnswered | rust/rc-api/src/routes/protocol.rs:471-497 | The answer to a performed request names its asset, action and event, the row's states before and after and what was prepared, and is what its key holds from then on. |
| Requests.RefusalTellsTheTruth | rust/rc-api/src/routes/protocol.rs:438-471 | Every refusal of a protocol request names something that is so of the key, the row, the brand or the record. |
| Requests.TransferRefusalTellsTheTruth | rust/rc-api/src/routes/transfer.rs:77-119 | Every refusal of a transfer names something that is so: the row, its state, its owner, the tag or the authority. |
| Requests.MovementRows | rust/rc-api/src/routes/transfer.rs:121-171 | A transfer hands its own asset's row to the new owner, adds a pending record from the old owner to the new one, and logs the event, each with the request's headers and each exactly unless its own or an earlier statement goes wrong. |
| Requests.MovementIsAnswered | rust/rc-api/src/routes/transfer.rs:121-181 | A transfer is answered with the id of its new record if and only if it is allowed and nothing it waits for goes wrong. |
| Requests.SettlingIsAnswered | rust/rc-api/src/routes/transfer.rs:200-242 | What settling says: success only for the new owner of a pending transfer, with the status asked for; not found, forbidden and conflict exactly in their own cases. |
| Requests.SchemaAlways | deploy/postgres/init/001_init.sql:144-148 | In every run from fresh tables, the rows and the log hold only texts that the constraints list. |
| LedgerCounterexamples.SoldWithoutOwner | rust/rc-api/src/routes/protocol.rs:456-458 | On any fresh table, freezing an asset and recovering it to a client-supplied LegallySold gives a sold row without an owner and a log that does not replay. |
| LedgerCounterexamples.TransferThatBreaksBothChains | rust/rc-api/src/routes/transfer.rs:121-150 | On any fresh table, six steps to a sale and a transfer whose record is refused break the audit chain and the chain of owners. |
| AuditTrail.ChainAlways | rust/rc-api/src/db/mod.rs:175-193 | Each asset's events form a chain from PreMinted to the stored state, whatever saved states requests carry, as long as no transfer loses its event. |
| AuditTrail.HandedChain | rust/rc-api/src/routes/transfer.rs:152-171 | A transfer keeps that chain if and only if its event is logged or the asset was in Transferred already. |
| AuditTrail.ReplayAlways | rust/rc-core/src/state_machine.rs:9-41 | Folding an asset's logged texts through the state machine gives back the stored current and previous state. |
| AuditTrail.OverriddenReplay | rust/rc-api/src/routes/protocol.rs:456-458 | A recovery to a client-supplied state keeps the log replayable if and only if it is the stored one. |
| AuditTrail.ProvenanceAlways | rust/rc-api/src/db/mod.rs:175-193 | At every moment the business actions in an asset's log are exactly ones that lead to the effective state of its row. |
| AuditTrail.SoldRowHasItsHistory | rust/rc-core/src/protocol.rs:11-77 | A row in LegallySold has the six steps of the chain in its log, in order, and no other business. |
| AuditTrail.LogAlwaysAuthorised | rust/rc-core/src/permissions.rs:3-32 | Under any requests and failures, every logged event but a transfer names the role its action belongs to, or the platform, for business with an approval; moderation names a moderator or the platform. |
| Idempotency.CorrespondenceAlways | rust/rc-api/src/db/mod.rs:175-205 | Under any requests and failures, idempotency records and action events are in one-to-one correspondence, each snapshot naming its event. |
| Idempotency.KeyIsAnsweredFromItsRecord | rust/rc-api/src/routes/protocol.rs:440-449 | Once a key has succeeded, every later protocol request with it changes nothing and gets the kept snapshot, a conflict, or the failed lookup's error. |
| Idempotency.SuccessIsOnRecord | rust/rc-api/src/routes/protocol.rs:440-494 | A successful answer is on record under its key and hash. |
| Idempotency.HashIdentifiesRequest | rust/rc-api/src/routes/protocol.rs:526-542 | For a request none of whose fields contains a text that ends a part of the hash, and any other request, hashes are equal if and only if asset, action, trace, role, approval, policy and saved state are. |
| Idempotency.AmbiguousIffSplittable | rust/rc-api/src/routes/protocol.rs:526-542 | Some request of another identity hashes like a given one if and only if its approval or policy contains the text between those two, or its asset or approval contains a text of the form between those two. |
| Idempotency.ActivateHashIdentifies | rust/rc-api/src/routes/protocol.rs:177-182 | Activation hashes are equal if and only if asset, trace, role and product are, whatever the product contains. |
| Idempotency.ActivateHashStandsApart | rust/rc-api/src/routes/protocol.rs:177-182 | An activation never hashes like a request for another action. |
| Idempotency.BarsCollide | rust/rc-api/src/routes/protocol.rs:533-541 | Two requests with different approvals and policies that hash alike. |
| Ownership.SettlingChangesStatusOnly | rust/rc-api/src/db/transfers.rs:79-92 | Requests that neither act nor transfer change at most the status of one pending transfer, on behalf of its new owner: to confirmed if it confirms, to rejected if it rejects. |
| Ownership.SettledForGood | rust/rc-api/src/db/transfers.rs:79-111 | Over any run a transfer record keeps everything but its status, and a settled one keeps that too. |
| Ownership.OwnershipChain | rust/rc-api/src/routes/transfer.rs:77-150 | An asset is sold at most once, and its transfer records run without a gap from that buyer to its present owner. |
| Ownership.UnrecordedTransfer | rust/rc-api/src/routes/transfer.rs:139-150 | A transfer that loses its record breaks that chain if and only if it changes the owner. |
| CounterTiers.CtrCache.GetCtr | rust/rc-api/src/cache/ctr_cache.rs:46-95 | The lookup through the levels, with expiry, back-filling and every combination of failing reads and writes. |
| CounterTiers.CtrCache.UpdateCtr | rust/rc-api/src/cache/ctr_cache.rs:98-104 | L1 takes the new counter, L2 if the write gets through. |
| CounterTiers.CtrCache.BackfillL2 | rust/rc-api/src/cache/ctr_cache.rs:112-121 | Redis is written only when in use, and a failure changes nothing. |
| CounterTiers.CtrCache.UpdateAssetCtr | rust/rc-api/src/db/assets.rs:98-106 | The column is set unconditionally; it can be set without the handler hearing of it. |
| Verify.HandleFullVerify | rust/rc-api/src/routes/verify.rs:187-252 | One verification in either response format: decision, write order, response and whether the counter was taken, under every combination of failures; an answer shows the counter presented, and never a disputed, tampered, compromised or destructed asset as verified or authentic. |
| Verify.Respond | rust/rc-api/src/routes/verify.rs:220-251 | The status read off the collected flags is the one the replay decision, the attestations and the asset's state call for; the four restricted states are never shown as verified or authentic. |
| VerifyAnswers.ShownStatus | rust/rc-api/src/routes/verify.rs:118-125 | An accepted counter is answered with restricted for disputed, tampered, compromised and destructed assets and with verified, or authentic, for all others, after incomplete attestation where that is asked; the freeze flag appears exactly for disputed ones, and the counter shown is the one presented. |
| VerifyAnswers.WhyNotAnswered | rust/rc-api/src/routes/verify.rs:188-225 | Unknown tag, failed authentication and error, each exactly in its own cases; the first two leave every level as it is. |
| VerifyAnswers.WhereAnswersComeFrom | rust/rc-api/src/cache/ctr_cache.rs:46-95 | A looked-up counter comes from an L1 entry less than five minutes old, then Redis, then the row, and is kept above the level it was found at. |
| VerifyAnswers.AcceptedIff | rust/rc-api/src/routes/verify.rs:187-218 | A counter is accepted if and only if the message is authentic, the counter looked up is zero or lower, and the row update is known to have succeeded. |
| VerifyAnswers.AcceptanceReachesEveryLevel | rust/rc-api/src/routes/verify.rs:213-218 | An accepted counter is in the row, in L1, and in Redis if that write gets through; a row changes otherwise only by an update nobody heard of. |
| VerifyRuns.ReplayIsReportedConsistently | rust/rc-api/src/routes/verify.rs:210-243 | Status, flags, reported previous counter and acceptance agree on whether there was a replay, in both formats. |
| VerifyRuns.LookupNeverAhead | rust/rc-api/src/cache/ctr_cache.rs:46-95 | On ordered levels a lookup never returns more than Postgres holds and leaves its answer in L1. |
| VerifyRuns.OtherTagsUntouched | rust/rc-api/src/routes/verify.rs:187-252 | A verification changes no other tag at any level. |
| VerifyRuns.OrderAlways | rust/rc-api/src/cache/ctr_cache.rs:46-121 | In every reachable state L2 <= L1 <= L3, under expiry, eviction, restarts, and failing reads and writes. |
| VerifyRuns.RefinesDirectVerification | rust/rc-api/src/routes/verify.rs:207-218 | On agreeing levels a verification decides and writes exactly as one reading Postgres directly, even where it then fails to answer. |
| VerifyRuns.UnansweredCounterIsSpent | rust/rc-api/src/routes/verify.rs:214-225 | A counter is accepted without an answer if and only if the attestation summary fails, and the same message is then a suspected replay. |
| VerifyRuns.AcceptedCountersRise | rust/rc-api/src/routes/verify.rs:207-218 | From levels that agree where they are still consulted, over every run without lost Redis updates, the accepted counters of a tag strictly rise (0 may repeat), start above what was stored, and end at what is stored. |
| VerifyRuns.ReplaySafeIffSynced | rust/rc-api/src/cache/ctr_cache.rs:46-121 | From any moment on, the next verification refuses a replay, whatever the conditions, if and only if the unexpired L1 entry and Redis agree with Postgres. |
| VerifyRuns.RunsReplaySafeIffSynced | rust/rc-api/src/cache/ctr_cache.rs:46-121 | Every replay in every later run without lost Redis updates is refused if and only if they do. |
| VerifyRuns.ExpiredEntryIsHarmless | rust/rc-api/src/cache/ctr_cache.rs:48-55 | An L1 entry that is behind but expired lets no replay through. |
| VerifyRuns.LostWriteLetsCounterFall | rust/rc-api/src/cache/ctr_cache.rs:112-121 | A run in which a lost Redis write lets counter 7 be accepted after counter 10. |
| VerifyRuns.RestartResyncs | rust/rc-api/src/cache/ctr_cache.rs:36-121 | Agreement is restored by a restart without Redis, or by a restart after the tag was evicted from it. |
| Authority.AuthorityDevices.InsertAuthorityDevice | rust/rc-api/src/db/authority_devices.rs:20-47 | A new device is added with no counter; no other device changes. |
| Authority.AuthorityDevices.AtomicUpdateCtr | rust/rc-api/src/db/authority_devices.rs:85-104 | The counter is raised and success reported exactly when it was missing or lower. |
| Authority.AuthorityDevices.VerifyPhysicalAuthority | rust/rc-api/src/auth/authorization.rs:167-305 | One undisturbed call: it authorizes only a genuine message on the asset's own device and raises that device's counter to the presented one; otherwise it changes nothing. |
| Authority.AuthorizedIff | rust/rc-api/src/auth/authorization.rs:167-305 | An undisturbed call authorizes if and only if the asset's device is an active physical card with the presented chip, the three texts decode to 7, 3 and 8 bytes that authenticate under its brand, chip and epoch, and the counter is above the stored one, which alone changes. |
| Authority.DenialTellsTheTruth | rust/rc-api/src/auth/authorization.rs:175-297 | Every refusal names something that is so of the card or the message; an error is one of finding the card, decoding the message or deriving the key. |
| AuthorityRuns.CountersAlwaysRise | rust/rc-api/src/db/authority_devices.rs:85-104 | For any interleaving the granted counters of a device strictly rise, and the stored one is the last granted. |
| AuthorityRuns.LastGrantedIsGreatest | rust/rc-api/src/db/authority_devices.rs:85-104 | The last granted counter is the greatest. |
| AuthorityRuns.GrantsAlwaysMatchCalls | rust/rc-api/src/auth/authorization.rs:283-304 | Every update belongs to exactly one finished call, authorized with that counter or failed without having heard of it. |
| AuthorityRuns.AuthorizedWasGranted | rust/rc-api/src/auth/authorization.rs:283-304 | Every authorized call was granted the counter it presented. |
| AuthorityRuns.CounterAuthorizesOnce | rust/rc-api/src/auth/authorization.rs:167-305 | No two calls are authorized by the same counter on the same device. |
| AuthorityRuns.GrantsAreGenuine | rust/rc-api/src/auth/authorization.rs:167-305 | For any interleaving, every counter update belongs to a call whose message was genuine, with a new counter, on the device updated, as it was at a moment while the call was under way. |
| AuthorityRuns.AuthorizedIsGenuine | rust/rc-api/src/auth/authorization.rs:167-305 | Every authorized call held such a row of its asset's own device. |
| AuthorityRuns.RefusalIsJust | rust/rc-api/src/auth/authorization.rs:178-281 | Every refusal but a replay's names something that was so of the card or the message at a moment while the call was under way. |
| AuthorityRuns.StepsRefineCall | rust/rc-api/src/auth/authorization.rs:167-305 | The steps of a call that nothing interleaves with are the undisturbed call. |
| AuthorityRuns.LossesFailTheCall | rust/rc-api/src/db/authority_devices.rs:85-104 | A lost statement or reply ends the call in an error, and a lost reply does not undo the update. |
| AuthorityRuns.HeldRowWasCurrent | rust/rc-api/src/auth/authorization.rs:175-176 | The row a call works on was its asset's device row at a moment while it was under way. |
| AuthorityRuns.ReplayRefusalIsJust | rust/rc-api/src/auth/authorization.rs:229-298 | A replay is reported only if, at some moment during the call, the stored counter had reached the presented one. |
| HexText.DecodesIffPrinted | rust/rc-api/src/routes/verify.rs:104-106 | A text decodes to some bytes exactly when, letter case aside, it is their printed form. |
| SunMessage.ServerReadsWhatClientPrints | frontend/apps/c-app/src/composables/useNfcReader.ts:42-66 | For every 18-byte message the server reads back the client's slices and the little-endian counter. |
| SunMessage.CounterByteOrder | rust/rc-api/src/routes/verify.rs:110-110 | Both parsers take bytes 7, 8 and 9 of the message as the counter, the least significant first. |
| SunMessage.AcceptedIffPrinted | rust/rc-api/src/routes/verify.rs:100-112 | Parameters are accepted as some bytes if and only if, letter case aside, they are what the client prints for them. |
| SunMessage.CounterParsersAgree | rust/rc-api/src/auth/authorization.rs:146-164 | Both counter parsers accept the same texts with the same value, below 2^24 and unchanged by the cast. |
| SunMessage.CastKeepsCounterOrder | rust/rc-api/src/auth/authorization.rs:231-231 | Comparing the casts is comparing the counters. |
| SunMessage.SameCounterIffSameText | rust/rc-api/src/auth/authorization.rs:146-164 | Two texts are the same counter if and only if they differ at most in letter case. |
| Calibrate.CtrStores.FetchAllUidsWithCtr | rust/rc-api/src/cli/ctr_calibrate.rs:197-207 | Every tag once, in some order, with NULL read as 0; nothing when the query fails. |
| Calibrate.CtrStores.UpdatePgCtr | rust/rc-api/src/cli/ctr_calibrate.rs:234-243 | The column takes the cast counter if the tag is known and the write lands. |
| Calibrate.CtrStores.SetRedisCtr | rust/rc-api/src/cli/ctr_calibrate.rs:246-251 | The key takes the counter if the write lands. |
| Calibrate.CtrStores.RunCheck | rust/rc-api/src/cli/ctr_calibrate.rs:56-91 | Reports exactly the mismatched tags, once each, and counts all others as consistent. |
| Calibrate.CtrStores.RunAuto | rust/rc-api/src/cli/ctr_calibrate.rs:94-132 | The pass calibrates every tag independently of the order, and its two counts are the sizes of the corrected and skipped sets. |
| Calibrate.CtrStores.FetchPgCtr | rust/rc-api/src/cli/ctr_calibrate.rs:210-222 | A value is the stored column; no row, NULL and a failed query all give nothing. |
| Calibrate.CtrStores.RunUid | rust/rc-api/src/cli/ctr_calibrate.rs:135-190 | Each strategy's effect on one tag, with every combination of failing reads and writes. |
| Calibrate.AutoReconciles | rust/rc-api/src/cli/ctr_calibrate.rs:101-129 | For all columns and keys and any failures: tags at most 1000 apart whose lower side can be written end with both sides at the old maximum, all others are untouched, and neither side ever falls. |
| Calibrate.RepeatedPassRecovers | rust/rc-api/src/cli/ctr_calibrate.rs:94-132 | A clean pass after a faulty one ends where a clean pass alone would have; a clean pass is idempotent. |
| Calibrate.CheckAfterAutoReportsSkipped | rust/rc-api/src/cli/ctr_calibrate.rs:56-132 | After a clean pass a check reports exactly the tags that were more than 1000 apart. |
| Calibrate.CountedTags | rust/rc-api/src/cli/ctr_calibrate.rs:56-132 | A check reports a tag exactly when both sides show it with different values; a pass counts it as corrected up to a difference of 1000 and as skipped beyond. |
| Calibrate.UseMaxLeaves | rust/rc-api/src/cli/ctr_calibrate.rs:164-175 | What taking the maximum leaves on each side, whatever fails, and that no other tag changes. |
| Calibrate.StrategyLeaves | rust/rc-api/src/cli/ctr_calibrate.rs:147-190 | What copying either side and setting a value leave on each side, whatever fails; no other tag changes and no tag gets a column. |
| Calibrate.UseMaxLowersIff | rust/rc-api/src/cli/ctr_calibrate.rs:164-175 | Under any failures, a side is lowered if and only if its read fails, its write lands, and the other side is read and holds less but not nothing. |
| Calibrate.UseMaxCanLower | rust/rc-api/src/cli/ctr_calibrate.rs:165-169 | With Redis unreadable for a moment, its 50 is overwritten by the column's 10. |
| Calibrate.UseMaxAgrees | rust/rc-api/src/cli/ctr_calibrate.rs:164-179 | With this tag's reads and writes working, neither side is lowered, and they agree if and only if Postgres knows the tag or Redis has nothing above 0. |
| Calibrate.SuggestionTakesMaximum | rust/rc-api/src/cli/ctr_calibrate.rs:83-90 | Under any failures, following a check's suggestion has the same effect as taking the maximum if and only if that would not lower a side. |
| KeyDerivation.BrandMessagesApart | rust/rc-crypto/src/kdf.rs:6-19 | Two brand ids followed by the system id are the same bytes if and only if the brand ids are. |
| KeyDerivation.ChipMessagesApart | rust/rc-crypto/src/kdf.rs:23-40 | Different chips and epochs are derived from different messages. |
| KeyDerivation.MotherMessagesApart | rust/rc-kms/src/software_kms.rs:117-134 | Two mother cards are derived from the same message if and only if their epochs and the first seven bytes of their ids, zero where missing, are equal. |
| KeyDerivation.BrandKeysApart | rust/rc-crypto/src/kdf.rs:6-19 | Two brands with equal keys give two different messages with the same HMAC under the root key. |
| KeyDerivation.KeysApart | rust/rc-kms/src/software_kms.rs:95-134 | Requests with equal answers mean the same key, that is the same brand and serial, or the same brand, epoch and first seven bytes of the id, or they give two different inputs whose HMACs agree in 16 bytes. |
| KeyDerivation.SameKeyForSameMeaning | rust/rc-kms/src/software_kms.rs:117-134 | Requests that mean the same key get it, also when one asks for a chip and the other for a mother card. |
| KeyDerivation.MessageLayout | rust/rc-crypto/src/kdf.rs:6-55 | Byte by byte: brand then system under the root key; seven bytes of id then the epoch with its least significant byte first, cut to 16 bytes, for cards; the serial for honey keys. |
| KeyCache.SoftwareKms.ReadSection | rust/rc-kms/src/software_kms.rs:44-49 | A hit happens exactly for cached brands, and the key found is the direct derivation. |
| KeyCache.SoftwareKms.WriteSection | rust/rc-kms/src/software_kms.rs:52-67 | After the second look the cache holds the brand's direct derivation and nothing else changed. |
| KeyCache.SoftwareKms.WithBrandKey | rust/rc-kms/src/software_kms.rs:39-68 | The key handed on, cached or not, is the HMAC under the root key of the brand id followed by the system id, and it is what the cache holds for the brand from then on. |
| KeyCache.SoftwareKms.DeriveChip | rust/rc-kms/src/software_kms.rs:95-105 | The chip key is the uncached derivation. |
| KeyCache.SoftwareKms.DeriveHoney | rust/rc-kms/src/software_kms.rs:107-115 | The honey key is the uncached derivation. |
| KeyCache.SoftwareKms.DeriveMother | rust/rc-kms/src/software_kms.rs:117-134 | The mother key is the uncached derivation for the truncated or zero-padded id. |
| KeyCacheRuns.CacheIsTransparent | rust/rc-kms/src/software_kms.rs:39-68 | For any interleaving of the locked sections, every entry is the direct derivation, exactly the cached brands have been derived and each once, and every answer is the uncached one. |
| KeyCacheRuns.NeverGoesBack | rust/rc-kms/src/software_kms.rs:39-68 | A call keeps its request, never starts over, and keeps its answer. |
| KeyCacheRuns.TwoSectionsAnswer | rust/rc-kms/src/software_kms.rs:39-68 | A call that has run both sections has the uncached answer, whatever others do before, between and after. |
| KeyCacheRuns.OneSectionSuffices | rust/rc-kms/src/software_kms.rs:44-49 | A call whose brand is cached is answered in the section under the read lock. |
| KeyCacheRuns.EqualAnswers | rust/rc-kms/src/software_kms.rs:39-134 | For any interleaving, two answers are equal if they were asked for the same key, and only then unless there is a collision. |
| Workorders.WorkorderRepo.Create | services/go-workorder/internal/repo/workorder.go:23-33 | A new open workorder without assignee or conclusion. |
| Workorders.WorkorderRepo.UpdateStatus | services/go-workorder/internal/repo/workorder.go:151-160 | The status changes and success is reported exactly when it was the expected one. |
| Workorders.WorkorderRepo.AssignTo | services/go-workorder/internal/repo/workorder.go:163-172 | The assignee changes exactly when the workorder is open or assigned. |
| Workorders.WorkorderRepo.RecordConclusion | services/go-workorder/internal/repo/workorder.go:176-187 | Status and conclusion change exactly when the workorder is assigned or in progress; a missing result keeps the old one. |
| Workorders.WorkorderRepo.HandleAssign | services/go-workorder/internal/handler/workorder.go:196-240 | An undisturbed assignment: who is refused, and when it conflicts. |
| Workorders.WorkorderRepo.HandleAdvance | services/go-workorder/internal/handler/workorder.go:243-369 | An undisturbed advance: refusals in order, which downstream call is made, and that it then always succeeds; a dismissal or a reported success resolves the workorder, a failure leaves it in progress, with the request's conclusion and the answer's body on it. |
| Workorders.WorkorderRepo.HandleClose | services/go-workorder/internal/handler/workorder.go:372-396 | An undisturbed closing succeeds exactly on resolved workorders. |
| Workorders.WorkorderRepo.HandleCancel | services/go-workorder/internal/handler/workorder.go:399-433 | An undisturbed cancellation succeeds exactly on open and assigned workorders. |
| Workorders.AdmittedIff | services/go-workorder/internal/handler/workorder.go:196-222 | Which assignments, closings and cancellations reach a statement: valid claims of a manager, and for an assignment both fields; and what the others are told. |
| Workorders.AdvanceAdmittedIff | services/go-workorder/internal/handler/workorder.go:253-346 | Which advances go on: by the assignee or the platform, on an assigned workorder or one in progress, with a conclusion of one of the five types and an asset unless it dismisses; and what the others are told. |
| Workorders.AdvanceLeaves | services/go-workorder/internal/handler/workorder.go:294-357 | An advance's statement applies exactly to assigned rows and rows in progress; it resolves them exactly after a dismissal or a success, and keeps the conclusion, its type and the answer's body. |
| Workorders.AssignmentLeaves | services/go-workorder/internal/repo/workorder.go:163-172 | An assignment applies exactly to open and assigned rows and changes the assignee and the status only. |
| WorkorderRuns.NeverBackwards | services/go-workorder/internal/repo/workorder.go:149-187 | For any interleaving no status rank ever falls, closed and cancelled rows never change, and a resolved row keeps all but its status. |
| WorkorderRuns.EveryStepFollowsAnEdge | services/go-workorder/internal/repo/workorder.go:149-187 | Every step keeps a row or takes it along an edge: closed from resolved only, cancelled from open or assigned only. |
| WorkorderRuns.CallsAlwaysSound | services/go-workorder/internal/handler/workorder.go:253-292 | What a call in flight relies on stays true: its row's asset, its right to advance, its valid conclusion, and the success it was told of. |
| WorkorderRuns.ChangesAlwaysSound | services/go-workorder/internal/handler/workorder.go:196-433 | Every change ever made to a row was made by a call on it, along an edge, by somebody entitled to it. |
| WorkorderRuns.ResolutionIsBacked | services/go-workorder/internal/handler/workorder.go:300-365 | A resolved or closed workorder was resolved by exactly one advance; it still shows that call's conclusion, of a valid type, which dismisses or was reported done to that call by the protocol service on the workorder's asset. |
| WorkorderRuns.CancelConflictIsJust | services/go-workorder/internal/handler/workorder.go:412-429 | A cancellation conflicts only if the workorder was not cancellable when its last statement ran. |
| WorkorderRuns.UndisturbedAdvance | services/go-workorder/internal/handler/workorder.go:243-369 | The three steps of an advance that nothing interleaves with: refused, or successful with the row resolved exactly after a dismissal or a reported success. |
| WorkorderRuns.ConclusionRecordedIff | services/go-workorder/internal/handler/workorder.go:357-365 | For any interleaving, an advance's last step records its conclusion if and only if the request arrives and the workorder is not resolved, closed or cancelled by then; delivered, it conflicts in exactly those three cases. |
| WorkorderRuns.SuccessRecordedIff | services/go-workorder/internal/handler/workorder.go:300-365 | Whatever the protocol service reported to a call, its last step records it, as resolved after a success and as in progress after a failure, if and only if the step arrives and the workorder is not resolved, closed or cancelled by then. |
| WorkorderRuns.ReportsAlwaysSound | services/go-workorder/internal/handler/workorder.go:300-355 | For any interleaving each call asks the protocol service at most once, for what its request names and on its workorder's asset, and then concludes as it was answered; only a dismissal concludes without asking. |
| WorkorderRuns.UndisturbedOthers | services/go-workorder/internal/handler/workorder.go:196-433 | Assignments, closings and cancellations that nothing interleaves with: which rows they change, to what, and what they are told. |
| WorkorderRuns.LossesFailTheCall | services/go-workorder/internal/handler/workorder.go:357-361 | A lost statement or reply ends the call in a server error; a lost request changes nothing. |
| WorkorderRuns.CancelledAfterFreezing | services/go-workorder/internal/handler/workorder.go:300-365 | A run that ends with a cancelled workorder whose asset was frozen for it. |
| Webhook.FetchesReadyRows | services/go-webhook/internal/queue/db.go:59-91 | A fetch returns pending rows whose retry time has come, as they are, in order, and no more than asked for. |
| Webhook.FetchesOldest | services/go-webhook/internal/queue/db.go:59-68 | Such a row is passed over only for as many older ones as were asked for. |
| Webhook.Worker.FetchPendingDeliveries | services/go-webhook/internal/queue/db.go:59-91 | The loop collects exactly the first ready rows. |
| Webhook.Worker.CreateDelivery | services/go-webhook/internal/queue/db.go:158-166 | A new pending delivery without attempts. |
| Webhook.Worker.UpdateDeliverySuccess | services/go-webhook/internal/queue/db.go:120-133 | The row is sent, with one attempt more. |
| Webhook.Worker.UpdateDeliveryFailure | services/go-webhook/internal/queue/db.go:136-155 | The row is pending or abandoned, with one attempt more and the given retry time. |
| Webhook.Worker.HandleFailure | services/go-webhook/internal/delivery/worker.go:166-193 | Abandoned at the limit, otherwise pending until the backoff for its attempts has passed. |
| Webhook.Worker.ProcessDelivery | services/go-webhook/internal/delivery/worker.go:92-116 | Inactive webhooks are skipped; for the others one send and one row update, which may be lost. |
| Webhook.Worker.ProcessBatch | services/go-webhook/internal/delivery/worker.go:66-90 | A batch is the ten first ready deliveries handled one after the other. |
| WebhookRuns.AttemptsCountSends | services/go-webhook/internal/queue/db.go:120-155 | Whatever the responses and lost updates: attempts equal the recorded sends, pending deliveries have attempts left, abandoned ones have used exactly max(1, MaxRetries), sent ones at most that. |
| WebhookRuns.FinalStaysFinal | services/go-webhook/internal/delivery/worker.go:66-116 | A sent or abandoned delivery never changes and is never sent again; attempts never go down. |
| WebhookRuns.OneUsesUp | services/go-webhook/internal/delivery/worker.go:92-193 | Handling a ready delivery of an active webhook makes one send and strictly lowers what is left of its attempts, to nothing exactly on a response from 200 to 299 or at the limit; otherwise it is held back by the backoff for its attempts. |
| WebhookRuns.UnrecordedSend | services/go-webhook/internal/delivery/worker.go:92-164 | A send whose row update is lost leaves no trace in the table. |
| WebhookRuns.AttemptsAreSpaced | services/go-webhook/internal/delivery/worker.go:166-193 | With no update lost, a delivery is sent exactly `attempts` times, at most max(1, MaxRetries), and attempt k+1 comes no earlier than the first plus the first k backoffs. |
| WebhookRuns.ShippedBackoffs | services/go-webhook/internal/config/config.go:36-36 | Those sums for the shipped backoffs: 60, 360, 1260 seconds and no more. |
| WebhookRuns.BatchSendsIff | services/go-webhook/internal/delivery/worker.go:66-105 | A batch sends something if and only if one of the ten oldest ready deliveries belongs to a webhook whose status is Active, and otherwise changes no row. |
| WebhookRuns.BatchSendsEach | services/go-webhook/internal/delivery/worker.go:66-164 | Each of the ten oldest ready deliveries whose webhook is active goes out in the batch and counts as delivered exactly on its own response from 200 to 299. |
| WebhookRuns.HeadBlocksQueue | services/go-webhook/internal/queue/db.go:60-68 | While the ten oldest pending deliveries are ready and their webhooks stay inactive, nothing is ever sent. |
| WebhookRuns.QueueDrains | services/go-webhook/internal/delivery/worker.go:66-193 | From any reachable moment, with the webhooks of the deliveries then present active and no update lost, all of them are sent or abandoned after at most as many rounds as they have attempts. A round is any stretch of the run, at any pace, closed by a batch at least the longest backoff after it began. |
| WebhookRuns.QueueDrainsAtPace | services/go-webhook/internal/delivery/worker.go:52-64 | The same counted in batches, for any minimal distance between them: as many for each attempt as outlast the longest backoff. |
| WebhookRuns.ShippedQueueDrains | services/go-webhook/internal/delivery/worker.go:53-53 | With the shipped backoffs and the two-second ticker, 450 batches for each attempt. |
| WebhookRuns.NothingReadableNothingSent | services/go-webhook/internal/queue/db.go:94-117 | If no configuration can be read, nothing is ever sent and no row changes. |

## Left out

- HTTP routing, header and JSON parsing, logging, metrics, connection pools and migrations: replaced by typed requests and the map update each statement performs.
- HMAC-SHA256, AES-CMAC and the generation of UUIDs: arbitrary functions and fresh inputs.
- Idempotency.ActivateHashIdentifies: takes asset ids without bars, as does ActivateHashStandsApart; the asset id is a path segment that the handlers do not check. (Traces contain no bar, being UUIDs.)
- Concurrent requests to the protocol and transfer handlers: their lookups are outside the write transaction, so `LedgerRuns`, `AuditTrail`, `Idempotency` and `Ownership` are about one request after the other.
- Concurrent verifications of one asset, several server processes sharing Redis, and the calibration tool beside a live server: the counter column is written unconditionally and no process sees another's L1.
- Several webhook workers on one queue: the fetch takes no lock, so two workers can hold the same delivery.
- Reading a webhook's configuration: the model takes the configurations that can be read as given.
- Deliveries created while a batch is running: they appear as created after it.
- What activation prepares (product mapping, commitment, attestations, the virtual mother card, the entanglement): only that it succeeds with some detail for the response or fails before the action is persisted.
- The commitment id column of audit events, `updated_at` columns, and the wallet snapshot hook, which nothing calls.
- The checks a transfer makes on the child tag and on the authority proof: their verdicts are inputs; the physical proof has its own model in `Authority.dfy`.
- Verification by UID alone (`is_degraded_mode`): it answers without looking at a counter.
- The virtual mother card's credential check: one comparison without stored state.
- The attestation checks behind the second response format, whose verdicts are inputs, its error codes, and the verification event log.
- Poisoned locks in the key service, and zeroing of key material.
- `WorkorderRepo` columns that no handler changes (type, title, creator, brand, metadata), listing and pagination.
- Conclusion texts and HTTP statuses of refusals beyond telling them apart.
- The gateway, the BFF, identity management, the archived approval service, brand and batch administration, and the frontends except the tag message printer: proxying, view models and one-branch rules.
