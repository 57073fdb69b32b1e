# Verified model of the WhatsApp delivery protocol

The connector stores a delivery record per message, lets background workers send it through a
private gateway, retries failures on a schedule, and copies delivery states back from the
gateway's event log. A company may ask for a second delivery, a group copy, that must go out only
after the primary has succeeded. The gateway keeps a job per idempotency key and submits a group
message part by part, writing an in-flight marker before every provider call and a checkpoint after
it, so that a crash never leads to a second submission of a part.

This project models both sides in Dafny and proves what the two guarantee together, over every
interleaving of workers, scheduler and sync passes, late writes, lost replies, rolled-back
transactions, provider failures and gateway crashes. `dafny verify dfyconfig.toml` checks all of it.

## How it is organised

| file | content |
|---|---|
| `Messages.dfy` | requests, payload fingerprints, parts, and the gateway's validators |
| `Stores.dfy` | jobs, provider messages and events; the `GatewayStore` class over them |
| `GatewayProtocol.dfy` | a send as a machine: one step is one store statement, one provider call, one handler, or the death of the process |
| `GatewaySafety.dfy`, `GatewayGuarantees.dfy` | the invariant of that machine and the gateway's promises over every run |
| `GatewayOutcomes.dfy` | what a whole send comes to: its calls, its record, its event and its reply, for every way the provider answers |
| `GatewayProcess.dfy` | the `WhatsAppGateway` class: guards, loops and handlers, each proved to do what the machine does |
| `CompanyGroups.dfy` | settings, group rules, and the invariant of any sequence of accepted saves |
| `History.dfy` | what each operation does to a delivery record |
| `HistoryMeaning.dfy` | the same, written out record by record without those functions |
| `Outbound.dfy` | the `DeliveryHistory` class: worker, scheduler pass, sync, release, copy check, new delivery |
| `DeliverySystem.dfy` | connector and gateway as one transition system, in which what is read and what is written later are separate steps |
| `DeliveryInvariants.dfy`, `DeliveryOrder.dfy`, `DeliveryRetries.dfy`, `DeliverySync.dfy` | its invariants: requests and payloads, order in time and flags, retries, synchronisation |
| `DeliveryGuarantees.dfy`, `DeliveryExactness.dfy` | the end-to-end promises over every reachable state; when exactly the backoff holds |
| `DeliveryRuns.dfy` | whole worker runs, releases and scheduler passes as runs of that system |
| `GatewayWitness.dfy`, `DeliveryWitness.dfy` | concrete runs from the empty state for what the code does not promise |
| `Throttle.dfy`, `NonceTable.dfy` | the queue that spaces sends; the pruned table of accepted nonces |

The classes hold the fields the source updates and change them step by step. Their contracts tie the
new state to functions of the old one, on which the system's results rest, and say what those
functions come to: members named `...Exactly` state an operation's whole effect, or an if-and-only-if,
with every condition and number written out. The gateway's methods draw what the outside world does
(check results, provider answers) from a list, and die where the list ends, so one contract covers a
crash at every statement.

## Assumptions

- Every store statement is atomic and durable, and the process dying is the store's only failure.
  There is one gateway process, and both sides use the bundled transport.
- Digests and fingerprints are injective; they are modelled by what they digest. The PDF snapshot of
  a record keeps its file name.
- Workers, scheduler passes and releases read first and write later, and other transactions may
  commit in between, those of other scheduler and sync passes included. Three things are assumed of
  the framework and its database: what a worker reads of its record and its primary belongs to one
  moment; a worker's first save is refused when another worker has saved the record since, whereas
  the field writes of the scheduler, of releases and of sync are not noticed by that check; and a
  record stays locked from a worker's first save to its commit or rollback. A page of events is
  applied in one transaction, one page at a time; it finds records by their keys, which never change.
- A scheduler pass raises when an enqueue fails. What it has written by then, the restoring write
  included, may be committed by its caller or rolled back: the system takes every write as a step of
  its own, so it has the runs with these writes and those without them. What was enqueued by then
  stays enqueued either way.
- A worker's request may reach the gateway at any later time, its reply may be lost, and any job may
  run again at any time.
- Only the operations modelled here change delivery records, and a site's requests come only from its
  workers. Other tenants may send anything under any key.
- Statements between two `await`s are not interrupted by the gateway's own handlers, though the
  process may die between any two of them.
- A Cloud webhook may report on any message of its tenant. Claims about the order of events exclude
  keys that a webhook has reported on, which linked-device keys are free of as long as the two
  providers never issue the same message id.
- Clocks do not go back, and timers do not fire early.

## Where the code does less than one might read into its documentation

- `docs/GROUP_COPIES.md` says that an uncertain submission blocks automatic replay. That holds for
  group requests; an individual request under the same key passes the guards and overwrites the
  marker (`MarkerLostExactlyToIndividual` gives the exact condition, `MarkerLost` a run). No part is
  submitted twice even so, because the key is then closed to group requests (`RecordsOnlyGrow`), and
  the connector never sends such a request (`FlaggedIsFinal`).
- A terminal status is not final in the history. A page whose last event for the key is an older
  failure demotes it (`OldFailureUnmakesDelivery` is such a run), and so does a write or a failed
  attempt by somebody who read the record before it was terminal; `TerminalLostExactly` gives all the
  ways. After the page with the submission itself only the second way is left
  (`StaleEventsCannotUndo`, `StepKeptExactly`), and it is a real one: a late worker is enough
  (`StaleWorkerUnmakesDelivery`), and with overlapping passes so is a late claim
  (`LateRetryUnmakesDelivery`).
- The comment at `outbound.py:136-137` says that claiming a due retry removes it from the scheduler's
  view. The claim does not look at the record again: when a duplicate worker has failed in between,
  it clears that worker's backoff (`LateRetryBreaksBackoff`). The backoff holds as long as no claim
  and no release is written while the last failed attempt's wait is not over and another attempt is
  still allowed (`Backoff`), and that guard is exact: after a single write against it some worker can
  start too early (`BackoffExactly`). A record that is still due, or still awaits its release, meets
  the guard (`FreshWritesTimely`).
- The comment at `outbound.py:100-101` says that an exhausted delivery is kept out of the scheduler's
  passes. That is so (`RetriesWithinLimit`) unless the restoring write after a failing enqueue meets a
  record that has been exhausted or flagged since its selection: that write, and no other, makes it
  due again (`StepWithinLimitExactly`, `FailingEnqueueRevivesExhausted`). The number of attempts is
  bounded in any case (`RetryBudget`).
- The replay protection of signed requests holds exactly for timestamps that are not ahead of the
  gateway's clock (`ReplayableIffAhead`); the bundled client rounds down to the second
  (`ClientNeverAhead`).

## Model

| member | source | states |
|---|---|---|
| `Stores.GatewayStore.UpdateJob` | gateway/src/store.mjs:124-131 | insert, or on conflict rewrite status and result and add to the attempts, never the tenant; no other job changes |
| `Stores.GatewayStore.GetJob` | gateway/src/store.mjs:120-122 | the job of a key, if any |
| `Stores.GatewayStore.AddMessage` | gateway/src/store.mjs:133-136 | the message id now belongs to this key, whoever had it before |
| `Stores.GatewayStore.JobForMessage` | gateway/src/store.mjs:138-140 | the key a message id belongs to |
| `Stores.GatewayStore.AddEvent` | gateway/src/store.mjs:142-145 | appends one event under the next id |
| `Stores.GatewayStore.EventsAfter` | gateway/src/store.mjs:147-150 | exactly the tenant's events above the id in a beginning of the log, which is the whole log unless there are 200 of them, in id order |
| `GatewayProcess.WhatsAppGateway.Guard` | gateway/src/gateway.mjs:298-322 | the guards in order; a send goes on if and only if its request is well formed, its key admits it and there is a text of at most 4096 characters or a document, and then from which part |
| `GatewayProcess.WhatsAppGateway.Checkpoint` | gateway/src/gateway.mjs:327-330 | the progress written to the job with its marker |
| `GatewayProcess.WhatsAppGateway.CallProvider` | gateway/src/gateway.mjs:278-291 | the provider call of a marked part: its confirmed id, or an uncertain failure, or the death of the process |
| `GatewayProcess.WhatsAppGateway.SubmitPart` | gateway/src/gateway.mjs:277-291 | one part: marker, call, checkpoint, in that order, with a death possible before each; any unconfirmed call is uncertain |
| `GatewayProcess.WhatsAppGateway.SendGroup` | gateway/src/gateway.mjs:261-293 | the group loop from the recorded parts on, as a refinement of the machine |
| `GatewayProcess.WhatsAppGateway.SendIndividual` | gateway/src/gateway.mjs:203-247 | the individual loops, which go on after a missing id and fail at the end |
| `GatewayProcess.WhatsAppGateway.Complete` | gateway/src/gateway.mjs:335-340 | submitted record, then message ids, then event, then reply, with a death possible before each |
| `GatewayProcess.WhatsAppGateway.Fail` | gateway/src/gateway.mjs:341-348 | failed record that keeps the progress, then event, then reply with the reconciliation flag |
| `GatewayProcess.WhatsAppGateway.Send` | gateway/src/gateway.mjs:295-351 | a whole send does exactly what the machine does with the same outside world, and keeps the gateway's invariant; `AcceptsExactly` and the lemmas of `GatewayOutcomes` say what that is |
| `GatewayProcess.WhatsAppGateway.MessageUpdate` | gateway/src/gateway.mjs:135-142 | an acknowledgement is logged exactly for a known message with status 2 or more, at any await of a send in progress or between sends |
| `GatewayProcess.WhatsAppGateway.WebhookStatus` | gateway/src/gateway.mjs:374-381 | a webhook status is logged exactly for a known message of the webhook's tenant, at any await of a send in progress or between sends |
| `GatewayGuarantees.WellFormedExactly` | gateway/src/core.mjs:6-74 | the formats of tenant, key, number and documents that a request must meet, lengths and sizes included |
| `Messages.DigitRunForm` | gateway/src/core.mjs:28 | a run is 5 to 24 digits |
| `Messages.GroupIdForms` | gateway/src/core.mjs:26-30 | a group id is one run of digits, or two joined by a hyphen, before the suffix |
| `GatewayGuarantees.AcceptsExactly` | gateway/src/gateway.mjs:298-324 | a request is sent if and only if it is well formed, its key is unused or its tenant's with a job that is not submitted (for a group: of the same payload and without a marker), and it has a text of at most 4096 characters or a document; what is then recorded; any other request changes nothing but its reply |
| `GatewayGuarantees.ReconcilesExactly` | gateway/src/gateway.mjs:312-317 | the guards ask for reconciliation if and only if a well-formed group request meets its own job, with the same payload, under a marker |
| `GatewayOutcomes.GroupSendCompletes` | gateway/src/gateway.mjs:261-340 | a group send whose remaining parts are confirmed calls each of them once, in order, and ends submitted, indexed, logged and answered with the recorded ids followed by the new ones |
| `GatewayOutcomes.GroupSendUncertain` | gateway/src/gateway.mjs:277-348 | an unconfirmed call stops a group send there: failed with the ids so far, marker and reconciliation flag, logged, answered with the call to reconcile |
| `GatewayOutcomes.GroupSendDies` | gateway/src/gateway.mjs:277-291 | a process that dies during a call leaves the ids so far under the marker, no event and no reply |
| `GatewayOutcomes.UnreadySendFails` | gateway/src/gateway.mjs:229-273 | on a device that is not ready nothing is called, and the send fails without the flag |
| `GatewayOutcomes.IndividualSendCompletes` | gateway/src/gateway.mjs:203-247 | an individual send calls every part once, in order, going on after a missing id; it ends submitted if and only if no id is missing |
| `GatewayOutcomes.IndividualSendFails` | gateway/src/gateway.mjs:203-247 | an error ends an individual send there, failed and without the flag; one before the message request counts as no call |
| `GatewayOutcomes.IndividualSendDies` | gateway/src/gateway.mjs:203-247 | a process that dies during a call of an individual send leaves the record as accepted, no event and no reply |
| `GatewaySafety.StepKeepsInv` | gateway/src/gateway.mjs:261-351 | every step, crash and handler keeps the invariant that ties records, markers, calls, messages, events and replies together |
| `GatewayGuarantees.GroupPartsAtMostOnce` | gateway/src/gateway.mjs:261-351 | crash-safe at-most-once: over every run the group calls of a key are the first parts of one payload, in order, none twice |
| `GatewayGuarantees.CallsPerKeyBounded` | gateway/src/core.mjs:61-74 | over every run at most six group submissions per key |
| `GatewayGuarantees.RecordAccountsForCalls` | gateway/src/gateway.mjs:276-291 | without a marker the calls are exactly the recorded ids; with one there is at most one more; a reconciliation flag means exactly one more, unconfirmed |
| `GatewayGuarantees.UnblockedResumes` | gateway/src/gateway.mjs:323-328 | after a failure before any call the same request resumes behind the recorded ids, which are all the calls made |
| `GatewayGuarantees.RecordsOnlyGrow` | gateway/src/gateway.mjs:312-344 | recorded ids only grow by extension; a key taken over by an individual request never submits a group part again |
| `GatewayGuarantees.SubmittedIsFinal` | gateway/src/gateway.mjs:318-324 | once submitted, no later request, crash or handler changes the job or reaches a provider for its key |
| `GatewayGuarantees.SubmittedReplays` | gateway/src/gateway.mjs:298-320 | a submitted job answers with its recorded ids, one per part, exactly the well-formed requests of its tenant that, for a group, carry its payload; it refuses every other and changes nothing |
| `GatewayGuarantees.BlockedStands` | gateway/src/gateway.mjs:312-317 | no group request changes a blocked group job; the same request is told to reconcile |
| `GatewayGuarantees.StuckForGood` | gateway/src/gateway.mjs:313-317 | over any run with only group requests for its key, a stuck job and its calls never change |
| `GatewayGuarantees.MarkerLostExactlyToIndividual` | gateway/src/gateway.mjs:312-324 | a stuck key gets unstuck if and only if an individual request for it passes all guards |
| `GatewayWitness.MarkerLost` | gateway/src/gateway.mjs:312-324 | a run from the empty gateway that dies with a group part in flight, after which an individual request under the same key passes the guards and the marker is gone |
| `GatewayGuarantees.ReconcileRepliesAreStuck` | gateway/src/gateway.mjs:313-348 | a reply asking for reconciliation leaves its key stuck, for the payload and tenant of the request |
| `GatewayGuarantees.TablesAgree` | gateway/src/store.mjs:124-145 | attempts equal the sends past all guards; calls, messages and events carry their job's tenant; the log per key is failures, at most one submission, acknowledgements |
| `GatewayGuarantees.TenantsNeverChange` | gateway/src/store.mjs:124-131 | a job never disappears and keeps its tenant over every run |
| `GatewayGuarantees.SubmittedJobsDelivered` | gateway/src/gateway.mjs:228-247 | a submitted job holds one non-empty id per part in part order, each the provider's answer to that part |
| `GatewayGuarantees.DriveIsRun` | gateway/src/gateway.mjs:295-351 | a send left to itself is one of the machine's runs, so every guarantee applies to it |
| `CompanyGroups.SettingsDocument.Validate` | erpnext_whatsapp_connection/erpnext_whatsapp_connection/doctype/erpnext_whatsapp_settings/erpnext_whatsapp_settings.py:8-15 | which saves are accepted, and the clamped settings they store |
| `CompanyGroups.SettingsDocument.ValidateRules` | erpnext_whatsapp_connection/company_groups.py:43-67 | rules are accepted exactly when unique, permitted, supported and, if anything changed, well formed and joined; enabled ones get their group's name |
| `CompanyGroups.AcceptedExactly` | erpnext_whatsapp_connection/company_groups.py:43-67 | a save is accepted if and only if the provider is supported, companies are unique, every rule that differs is for a readable company, enabled rules go with the linked device and, if any rule differs, ids are well formed and enabled groups joined |
| `CompanyGroups.AcceptedStores` | erpnext_whatsapp_connection/erpnext_whatsapp_connection/doctype/erpnext_whatsapp_settings/erpnext_whatsapp_settings.py:8-15 | what an accepted save stores: the throttle within 10 and 300, 10 by default, the retries within 0 and 5, 3 by default, the joined groups' names if a rule differs, the rest of the form as it is |
| `CompanyGroups.ChangedExactly` | erpnext_whatsapp_connection/company_groups.py:44-53 | a company counts as changed if and only if one of its rules was dropped, added or altered in its state or group |
| `CompanyGroups.ChangedSaveNamesGroups` | erpnext_whatsapp_connection/company_groups.py:61-67 | a save that changes a rule stores for each enabled rule the name the gateway reports |
| `CompanyGroups.SavesKeepGood` | erpnext_whatsapp_connection/company_groups.py:43-67 | after any saves companies are unique, ids well formed, enabled rules imply the linked device and were joined at the last change |
| `CompanyGroups.SavedSettingsNeverReconcile` | erpnext_whatsapp_connection/company_groups.py:70-78 | on saved settings a lookup never asks for reconciliation; what it finds is an enabled rule of a readable company, joined at the last change |
| `CompanyGroups.LookupExactly` | erpnext_whatsapp_connection/company_groups.py:70-78 | each answer of a lookup if and only if: no enabled rule for the company; several, or no linked device; company unnamed or unreadable; malformed id; else the rule's group |
| `Outbound.DeliveryHistory.ProcessOutboundMessage` | erpnext_whatsapp_connection/outbound.py:41-108 | the records after a worker run, as `WorkedExactly` writes them out; the copies it enqueues are exactly the waiting or queued ones of a record delivered by then, and none of its copies is left waiting |
| `HistoryMeaning.WorkedExactly` | erpnext_whatsapp_connection/outbound.py:41-108 | when a worker attempts, closes or leaves a record; an attempt is counted and delivers if and only if settings, copy check, snapshot, transport and reply allow it, else fails with a retry after 30, 120 or 600 seconds, or flagged; a delivered primary's waiting and queued copies are queued; no other record changes |
| `Outbound.DeliveryHistory.SendDelivery` | erpnext_whatsapp_connection/outbound.py:73-93 | an attempt delivers if and only if the connector is enabled, a copy is granted, the snapshot is intact, the transport is registered and the gateway answers with ids; it asks for reconciliation if and only if the gateway did |
| `Outbound.DeliveryHistory.ValidateCopy` | erpnext_whatsapp_connection/company_groups.py:81-119 | a copy is granted if and only if its primary is delivered and ordinary, the compared fields agree, its owner may still send, the group is still configured and the source unchanged; the rights are the owner's, and the session user is restored on every path |
| `HistoryMeaning.CopyGrantedExactly` | erpnext_whatsapp_connection/company_groups.py:81-119 | the same condition for the decision that the system's steps take; the primary counts as not ready if and only if it is not delivered |
| `Outbound.DeliveryHistory.ReleaseWaitingCopies` | erpnext_whatsapp_connection/company_groups.py:122-128 | exactly the waiting or queued copies of the primary become queued and are enqueued |
| `Outbound.DeliveryHistory.UnreleasedCopies` | erpnext_whatsapp_connection/outbound.py:114-116 | at most 50 waiting or queued copies, each once, and all of them when there are fewer |
| `Outbound.DeliveryHistory.DueRecords` | erpnext_whatsapp_connection/outbound.py:119-125 | at most 50 due records with the counts they have now, each once, and all of them when there are fewer |
| `Outbound.DeliveryHistory.ClaimDue` | erpnext_whatsapp_connection/outbound.py:126-159 | the selected records rewritten in order up to the first failing enqueue; the jobs are exactly those below their limit before it, and the pass raises exactly when there is one |
| `Outbound.DeliveryHistory.RetryDueMessages` | erpnext_whatsapp_connection/outbound.py:111-159 | one pass: the waiting and queued copies of delivered primaries found are queued and enqueued, and with fewer than 50 unreleased copies none is left waiting; of the due records each reached one is closed if exhausted, else queued and enqueued, up to the first failing enqueue, which leaves its record due and raises; every other record is as before |
| `Outbound.RecoveredExactly` | erpnext_whatsapp_connection/outbound.py:113-118 | the recovery of primaries queues exactly the waiting or queued copies of the delivered ones and changes nothing else |
| `Outbound.NoneLeftWaiting` | erpnext_whatsapp_connection/outbound.py:112-118 | with fewer than 50 unreleased copies a pass leaves no copy waiting for a delivered primary |
| `Outbound.PassClaims` | erpnext_whatsapp_connection/outbound.py:126-159 | the claims write exactly the selected records that the pass reaches, each once, and enqueue exactly those below their limit |
| `Outbound.DeliveryHistory.SyncDeliveryStatuses` | erpnext_whatsapp_connection/outbound.py:162-184 | after a page each record has the status of the last event for its key, and is unchanged without one; the cursor is the highest id seen |
| `Outbound.DeliveryHistory.StoreDelivery` | erpnext_whatsapp_connection/api.py:248-291 | appends the primary with the draft's recipient, file and content under the site's provider, queued with the site's retries, and with a configured group its waiting copy to that group under the second key; when it raises the records are as before |
| `HistoryMeaning.StoredExactly` | erpnext_whatsapp_connection/api.py:248-291 | a delivery is accepted if and only if the connector is enabled, its references complete, its keys unused and the configured group usable; the records it then appends, field by field |
| `HistoryMeaning.LastEventCounts` | erpnext_whatsapp_connection/outbound.py:168-181 | a page gives a record the status of the last event for its key and changes nothing else of it |
| `DeliveryRuns.WorkerRunIsSteps` | erpnext_whatsapp_connection/outbound.py:41-108 | what a worker does to the records in one go is a run of the system: reading, first save, request, the gateway's own steps and its reply, commit, releases |
| `DeliveryRuns.ReleasesAreSteps` | erpnext_whatsapp_connection/company_groups.py:122-128 | releasing all copies of a primary is a run of single selections and writes |
| `DeliveryRuns.PassIsSteps` | erpnext_whatsapp_connection/outbound.py:111-159 | a scheduler pass is a run of the system's single releases, selections of due records and retries |
| `DeliveryInvariants.StoredKeepsGood` | erpnext_whatsapp_connection/api.py:248-291 | a delivery adds one or two records; a copy points to its individual primary, agrees with it on every compared field and has its own key |
| `DeliveryInvariants.StepKeepsBase` | erpnext_whatsapp_connection/transports.py:50-63 | in every step each site request, job and call at the gateway belongs to a record that a worker sent a request for, and carries that record's request; `RequestsMatchRecords` says what it holds |
| `DeliveryGuarantees.RequestsMatchRecords` | erpnext_whatsapp_connection/transports.py:11-63 | in every reachable state each call, job and request of a record carries its recipient, its text and its one document, goes to a group exactly for a copy, and asks for Baileys exactly for the linked device and for the official API exactly for an official record |
| `DeliveryGuarantees.CopyPartsAtMostOnce` | erpnext_whatsapp_connection/outbound.py:41-159 | end to end the parts of a copy reach the provider in order, none skipped, each at most once, with the copy's own payload |
| `DeliveryGuarantees.PrimaryBeforeCopy` | erpnext_whatsapp_connection/outbound.py:50-53 | before any provider call for a copy lie all calls of its primary, a confirmed one for each part, and the primary's job is submitted |
| `DeliveryGuarantees.CopyCallsStartAfterPrimary` | erpnext_whatsapp_connection/company_groups.py:86-88 | in the state before any call for a copy is made the primary's job is already submitted |
| `DeliveryGuarantees.HistoryAgrees` | erpnext_whatsapp_connection/outbound.py:81-89 | a record that is shown as submitted or acknowledged or holds message ids has a submitted job with its own payload and a confirmed id per part, and the ids it holds are those |
| `DeliveryGuarantees.RetryBudget` | erpnext_whatsapp_connection/outbound.py:37-38 | over every run, late writes included, the count is that of the recorded attempts, never exceeds the limit, and a worker past its guards has one left |
| `DeliveryGuarantees.Backoff` | erpnext_whatsapp_connection/outbound.py:64-105 | in every run in which no claim or release is written too early, after a failed k-th attempt the next recorded one starts no sooner than its delay, duplicate and late workers included; the n-th of a failing series at least 150 + 600 (n - 3) seconds after the first |
| `DeliveryExactness.TimelyRunsSecure` | erpnext_whatsapp_connection/outbound.py:64-105 | after every run without early writes from the empty system the attempts on a record are spaced however the system goes on without early writes |
| `DeliveryExactness.BackoffExactly` | erpnext_whatsapp_connection/outbound.py:126-159 | in every reachable state a step keeps the spacing secure if it is no claim or release written too early, and only then, unless the record is a copy whose primary is not terminal |
| `DeliveryRetries.LeastSpanFormula` | erpnext_whatsapp_connection/outbound.py:15 | the waits 30, 120, 600, 600, ... add up to that span |
| `DeliveryGuarantees.RetriesWithinLimit` | erpnext_whatsapp_connection/outbound.py:96-105 | in every run in which no failing enqueue revives the record, late and early writes included, a scheduled retry is below the limit and unflagged, and the scheduler never selects an exhausted record |
| `DeliveryRetries.StepWithinLimitExactly` | erpnext_whatsapp_connection/outbound.py:151-158 | a record within its limit loses that if and only if the restoring write of a failing enqueue meets it exhausted or flagged |
| `DeliveryRetries.StepKeepsPaced` | erpnext_whatsapp_connection/outbound.py:41-159 | every step but an early write keeps a record holding its next attempt back, however late its workers are |
| `DeliveryRetries.FreshWritesTimely` | erpnext_whatsapp_connection/outbound.py:119-125 | a record that is still due, or still awaits its release, is not written too early |
| `DeliveryWitness.LateRetryBreaksBackoff` | erpnext_whatsapp_connection/outbound.py:126-143 | a run from the empty system in which a late claim lets the third attempt start 120 seconds too early |
| `DeliveryWitness.FailingEnqueueRevivesExhausted` | erpnext_whatsapp_connection/outbound.py:151-159 | a run from the empty system after which the scheduler selects an exhausted record |
| `DeliveryGuarantees.FlaggedIsFinal` | erpnext_whatsapp_connection/outbound.py:48-49 | a flagged record stays flagged, no request is issued for it again, and its gateway job and group calls are frozen, late requests included |
| `DeliveryGuarantees.BlockedReplyFlags` | erpnext_whatsapp_connection/outbound.py:90-104 | when a copy's request meets its blocked job, whatever happens until the worker commits the reply, the record ends flagged, failed and without a retry |
| `DeliveryGuarantees.AnswersStay` | gateway/src/server.mjs:70-83 | a request is answered at most once; its answer never changes over any run |
| `DeliveryGuarantees.SyncExactlyOnce` | erpnext_whatsapp_connection/outbound.py:162-184 | the events applied so far are exactly the site's events up to the cursor, in id order, each once |
| `DeliveryGuarantees.CursorNeverDecreases` | erpnext_whatsapp_connection/outbound.py:182 | over every run the cursor never goes back and applied events stay applied |
| `DeliverySync.DrainIsFold` | gateway/src/store.mjs:147-150 | draining the log by pages gives the history and cursor of applying it at once |
| `DeliverySync.PageMeaning` | erpnext_whatsapp_connection/outbound.py:168-181 | a page gives each record the status of the last event for its key and changes nothing else |
| `DeliveryGuarantees.StaleEventsCannotUndo` | erpnext_whatsapp_connection/outbound.py:162-184 | unless a writer other than a page takes the record out of a terminal status, it is terminal whenever the last event applied for its key is, and without webhooks on the key for good once one submission or acknowledgement has been applied |
| `DeliverySync.StepKeptExactly` | erpnext_whatsapp_connection/outbound.py:41-159 | while the last applied event of its key is terminal, a record stays terminal if and only if the step is no failed conclusion, exhausted save, claim or release of it |
| `DeliveryGuarantees.TerminalLostExactly` | erpnext_whatsapp_connection/outbound.py:83-181 | a terminal record stops being terminal if and only if a page ends with a failure for its key, a worker that began on an older reading errs or finds its limit reached, or an older selection is written |
| `DeliveryWitness.OldFailureUnmakesDelivery` | erpnext_whatsapp_connection/outbound.py:162-184 | a run from the empty system in which a delivered record is marked failed by the older failure of its first attempt |
| `DeliveryWitness.LateRetryUnmakesDelivery` | erpnext_whatsapp_connection/outbound.py:138-143 | a run in which sync has applied the submission and a late claim still requeues the record |
| `DeliveryWitness.StaleWorkerUnmakesDelivery` | erpnext_whatsapp_connection/outbound.py:41-108 | a run in which sync has applied the submission and a worker that read the record before marks it failed |
| `DeliveryGuarantees.CopyProvenance` | erpnext_whatsapp_connection/company_groups.py:86-95 | in every reachable state the structural part of the copy check passes, so status, rights, configuration and source alone decide it |
| `DeliveryGuarantees.WorkerSavesAccepted` | erpnext_whatsapp_connection/erpnext_whatsapp_connection/doctype/erpnext_whatsapp_delivery_history/erpnext_whatsapp_delivery_history.py:7-25 | the record's validation accepts every save a worker makes in any reachable state: the identity is unchanged, a delivered record has its ids, its references are complete |
| `Throttle.SequentialQueue.Add` | gateway/src/core.mjs:111-122 | when a queued work starts and ends, whether the tail it waits for settled or was rejected; the new tail is never rejected |
| `Throttle.SequentialQueue.Handle` | gateway/src/core.mjs:112-117 | one work waits its effective delay after the last start, then starts and ends |
| `Throttle.Serve` | gateway/src/core.mjs:104-123 | works start in arrival order, never overlap, start at least their effective delay apart, whatever is rejected, and start at once when that has passed, else when their timer fires |
| `Throttle.StartsBounded` | gateway/src/core.mjs:111-116 | any window of length T holds at most T / d + 1 starts for a base delay d |
| `Throttle.ClampsCompose` | gateway/src/gateway.mjs:296 | the connector's, gateway's and queue's clamps compose to the base delay or the configured seconds within 10 and 300 |
| `Throttle.GatewayDelayExactly` | gateway/src/gateway.mjs:296 | a requested delay is kept within 10,000 and 300,000 ms, the base delay standing in for a missing one, and never below the base delay |
| `NonceTable.Authenticator.Authenticate` | gateway/src/server.mjs:47-57 | a request is accepted if and only if it is signed, its nonce well formed and not live in the table, its timestamp within 300,000 ms; expired entries go, an accepted nonce stays for 300,000 ms |
| `NonceTable.AcceptedExactly` | gateway/src/core.mjs:51-59 | over any run an attempt is accepted if and only if it is signed, its nonce and timestamp are well formed and within bounds, and the nonce was not accepted in the last 300,000 ms |
| `NonceTable.AcceptedAtMostOnce` | gateway/src/server.mjs:52-55 | a pair of timestamp and nonce not ahead of the clock is accepted at most once over any run, although entries are purged |
| `NonceTable.ReplayableIffAhead` | gateway/src/core.mjs:51-54 | an accepted pair can be accepted again if and only if its timestamp was ahead of the gateway's clock |
| `NonceTable.ClientNeverAhead` | erpnext_whatsapp_connection/gateway_client.py:49 | the client's whole-second timestamp is never ahead on a shared clock |

## Left out

- GatewayGuarantees.RecordAccountsForCalls: a store statement that raises while the process lives on is not modelled; the counts are stated for crashes.
- GatewayGuarantees.TablesAgree: the order of events is not claimed for keys a Cloud webhook reports on, because a webhook may log a failure after a submission.
- DeliveryGuarantees.StaleEventsCannotUndo: its second clause excludes keys a Cloud webhook reports on, because a webhook may report a failure after the submission; the first clause covers them.
- At-most-once for individual deliveries: the code makes no such promise (an individual retry starts again from its first part); what is proved for them is the agreement of history and gateway.
- Linked-device sockets, Cloud HTTP calls, QR and reconnect handling: a provider call is a confirmed id, a missing id, an error, or a death of the process.
- Signatures, encryption, base64, PDF rendering, templates and the ORM: outcomes of checks are inputs that may change between steps.
- Trimming and normalising of tenants, numbers and texts: requests are modelled as already normalised.
- Request timestamps with a fraction of a second: the bundled client sends whole seconds.
- The order in which the scheduler's queries return records, and with it fairness: the queries name no order, and the contracts allow any.
- DeliveryExactness.BackoffExactly: for a copy whose primary is not terminal at the write only the sufficient half is stated, because whether such a write does harm depends on whether the primary becomes terminal again before the wait is over.
- Jobs written by releases that stored no fingerprint: the gateway starts from an empty store.
- Display fields of records (result and error messages, submission and acknowledgement times, masked recipients): nothing the model covers reads them.
- Permission details of settings and copy checks: each is a verdict of the permission system.
- Browser code, acceptance fixtures, adapters, transport registration by other apps and release scripts.
