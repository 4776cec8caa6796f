# Contract governance: a verified model

This project models the state machines of a contract-governance service and
proves what they keep. Payments, variations and requisitions climb four-desk
approval chains whose state is rebuilt from stored rows on every request; an
authorized payment must reach finance through a transactional outbox; changes
are pushed to browsers through a versioned WebSocket hub; requests pass a
fixed-window limiter; a monthly workbook is imported by upserts and summarised
by contractor; contracts sit in a write-through cache with derived zone
counts. Smaller pieces are the contract lifecycle and its activity log,
approval routing by value band, and the rewriting of string-encoded JSON
scalars.

Check the whole project with `dafny verify dfyconfig.toml`.

## How the model is laid out

| file | component |
|---|---|
| `approval_chain.dfy`, `governance_chains.dfy` | the approval engine, and engine state rebuilt from stored slots |
| `workflow.dfy`, `workflow_entities.dfy` | the three chains as values, and the classes that update in place |
| `chain_protocol.dfy` | read, advance, write-back of chain columns by overlapping handlers |
| `payment_figures.dfy`, `payment_protocol.dfy`, `payment_paid.dfy`, `payment_announcements.dfy`, `payment_handlers.dfy` | money columns; handlers, transactions and publishers interleaved; which corrections falsify announcements and signatures; the handlers as methods |
| `variation_ledger.dfy`, `requisition_ledger.dfy` | contract values changed by variations; requisitions converted into contracts |
| `outbox.dfy`, `outbox_store.dfy` | the outbox as a machine with a clock and crashes; the table as an object |
| `hub.dfy`, `rate_limiter.dfy` | WebSocket hub; limiter and evictor |
| `upserts.dfy`, `contractor_directory.dfy`, `valuations.dfy`, `monthly_workbook.dfy`, `importer.dfy`, `import_workbook.dfy` | the workbook import, table at a time and row at a time |
| `execution.dfy`, `monthly_summary.dfy` | execution statuses; the executive summary |
| `contract_store.dfy` | cache, database rows and zone counts |
| `lifecycle.dfy`, `routing.dfy`, `coercion.dfy` | lifecycle and log; routing; JSON coercion |
| `text.dfy`, `int64.dfy`, `wrappers.dfy` | ASCII strings, int64 arithmetic, Option |

Protocols are machines: a `Step` datatype, a total `Apply` in which a step that
is not enabled changes nothing, and `Run` over any sequence of steps, so that
every interleaving and every crash is some run. Objects the code updates in
place are classes; each method's new state is tied to a function of the old
one, and the main results are lemmas about those functions and runs.

The approval engine is a shared package outside the repository. Its
specification here is what the comments and unit tests of the callers fix:
`Advance` refuses an actor equal, ignoring case, to the last one in the
history, unless that actor is blank or "system"; otherwise it records the desk
and the actor and moves on, and the chain is approved when no desk is left.

## What the code does not keep

The proofs ran into the following; each is a lemma with the input that shows
it, and where it concerns a stated property, with the exact condition.

- `backoffFor` multiplies in int64. Its range of two seconds to five minutes
  holds up to 33 attempts and for eight later counts by accident; at 34 the
  delay is negative and a row is claimed twice in one instant
  (`Outbox.BackoffInRangeExactly`, `Outbox.ReclaimedAtOnce`). The first 34
  claims of every row are a second apart on every run
  (`Outbox.ClaimsALeaseApart`); beyond that a row's claims stay apart exactly
  while no failed mark leaves it due within a second of its last claim
  (`Outbox.ClaimsApartExactly`). The comment "2s, 4s, 8s, 16s, ... capped" is
  true up to 33 (`Outbox.BackoffDoubles`).
- `Reject` has no status guard. It can overwrite the last signature of an
  approved row (`Workflow.RejectSegregatedExactly`), and it turns an approved
  variation to Rejected while the contract keeps the amount
  (`VariationLedger.ApprovedStandsExactly`).
- `PatchPayment` checks the stage on the row it read and writes the amounts
  unconditionally. A correction overtaken by the first approval falsifies a
  signature (`PaymentProtocol.StalePatchBreaks`); overtaken by three, it leaves
  a payment authorized at a payable no event carries
  (`PaymentAnnouncements.LateCorrectionBreaks`). The exact conditions, for one
  write and for whole runs, are `PaymentAnnouncements.PatchSentExactly`,
  `PaymentAnnouncements.AnnouncementsTrueExactly` and
  `PaymentAnnouncements.SignaturesTrueExactly`. Without any condition every
  event still carries figures an approver signed
  (`PaymentProtocol.AuthorizationReachesFinance`).
- A conversion that stops between opening the contract and linking it can be
  repeated once that contract has been renumbered: two contracts at the same
  estimate (`RequisitionLedger.RenumberedThenRepeated`). While the first keeps
  its number it cannot (`RequisitionLedger.HalfConvertedCannotRepeat`).
- Two approvers who read the same row both succeed and one signature is lost
  (`ChainProtocol.LostUpdate`); segregation survives this.
- `RecomputePayable` overflows from MaxInt64/100 + 1 on
  (`PaymentFigures.NetExactly`, `PaymentFigures.NetOverflows`).
- A failed zone-count write is not overwritten by "the next mutation"
  (internal/models/store.go:179-180) but by the next one in that zone
  (`ContractStore.StaleUntilTouched`).
- Importing a workbook twice is not the same as once when the verified sheet
  spells a contractor without a stored valuation twice, with different figures
  (`Importer.ImportTwiceExactly`, `Valuations.TwoSpellingsUnsettle`). A re-import
  also blanks a valuation's verification date (`Valuations.ImportKeepsTerms`),
  and an existing contract's dates, location, manager, department, retention
  and project and chat links, which the workbook does not have
  (`Importer.EveryRowLands`, `Importer.BLANK_OFFICE`).
- A band whose int64 width wraps is ranked before those whose width does not,
  and a bounded band of 2^62 or more behind open-ended ones
  (`Routing.WidestTakenForNarrowest`, `Routing.OpenEndedLosesExactly`;
  `Routing.BestIsNarrowest` is the exact condition).

## Model

| member | source | states |
|---|---|---|
| ApprovalChain.EveryRunSegregated | internal/models/governance_chains_test.go:19-57 | From a fresh chain, whoever asks in whatever order: history is the desks in order, no neighbouring signatures are one approver, approved exactly when no desk is left |
| GovernanceChains.StepRecords | internal/models/governance_chains.go:133-149 | The loop hands the engine every slot's step and actor, in order, and nothing else |
| GovernanceChains.GovState | internal/models/governance_chains.go:78-131 | The loop rebuilds cursor, desk and history from the stored stage and slots, blanks kept, stages outside the slots clamped |
| GovernanceChains.SigningProjectsAdvance | internal/models/governance_chains.go:151-174 | Writing the actor into the completed slot and moving the cursor is the projection of the engine's own step; same refusals |
| Workflow.ProjectionRefinesEngine | internal/models/governance_chains.go:78-161 | For every kind, raiser and sequence of requests, rebuilding state from the row accepts and refuses exactly as a running engine does and ends in its state |
| Workflow.RefusedExactly | internal/models/governance_workflow_sod_test.go:11-76 | An advance in flight is refused iff the previous slot holds the same non-exempt approver; otherwise it signs exactly one slot |
| Workflow.AdvanceKeepsSegregated | internal/models/governance_workflow.go:86-112 | Any advance, repair of short slots included, keeps neighbouring signatures by different approvers |
| Workflow.RejectSegregatedExactly | internal/models/governance_workflow.go:203-217 | Reject keeps segregation iff it does not put the second-to-last signatory of a finished row into the last slot |
| Workflow.RejectRecords | internal/models/governance_workflow.go:203-217 | Reject puts actor, date and reason into the slot reached, the last one of a finished row, keeps its step name, and touches no other slot |
| Workflow.PaymentLabels | internal/models/governance_workflow.go:23-25 | A payment in flight carries the name of the stage it waits for |
| Workflow.RejectBreaksSegregation | internal/models/governance_workflow.go:203-217 | A finished variation, rejected by carol who signed third, has her in both last slots |
| WorkflowEntities.GovPayment.constructor | internal/models/governance_workflow.go:58-78 | A payment starts at stage 0 with four blank steps and its payable computed |
| WorkflowEntities.GovPayment.RecomputePayable | internal/models/governance_workflow.go:80-82 | Payable becomes what amount and retention give; nothing else changes |
| WorkflowEntities.GovPayment.Advance | internal/models/governance_workflow.go:86-112 | Chain columns become those of the chain function or stay, per outcome; authorized exactly at the third stage, paid exactly at the fourth |
| WorkflowEntities.GovVariation.constructor | internal/models/governance_workflow.go:157-169 | A variation is born with its raiser's signature at the first desk |
| WorkflowEntities.GovVariation.Advance | internal/models/governance_workflow.go:171-198 | As for payments; approved exactly when the last desk has signed |
| WorkflowEntities.GovVariation.Reject | internal/models/governance_workflow.go:203-217 | Rejected whatever the status; actor, date and reason in the slot reached or the last, every other slot as it was |
| WorkflowEntities.GovRequisition.constructor | internal/models/governance_modules.go:58-69 | A requisition is born with its raiser's signature at the first desk |
| WorkflowEntities.GovRequisition.Advance | internal/models/governance_modules.go:71-98 | Same for requisitions |
| WorkflowEntities.GovRequisition.Reject | internal/models/governance_modules.go:102-116 | Same for requisitions |
| ChainProtocol.SegregationSurvivesInterleaving | internal/persistence/governance_workflow.go:209-227 | Under any interleaving of reads, advances, rejections, conversions, deletes and lost updates, every stored row that is not Rejected is segregated |
| ChainProtocol.LostUpdate | internal/controllers/governance_workflow_controller.go:162-231 | Two approvers of one read row both move it; only the later signature is stored |
| PaymentFigures.NetExactly | internal/models/governance_workflow.go:80-82 | A stored payable is amount·(100−retention)/100 between 0 and amount iff the product fits an int64 |
| PaymentFigures.CorrectionSets | internal/controllers/governance_workflow_controller.go:139-154 | Refused iff a figure is out of range; else each figure given is taken, the other kept |
| PaymentFigures.NetBelow | internal/models/governance_workflow.go:80-82 | In particular for amounts up to MaxInt64/100 |
| PaymentFigures.NetOverflows | internal/controllers/governance_workflow_controller.go:54-74 | One more than that, unretained, is stored with a negative payable |
| PaymentProtocol.AuthorizationReachesFinance | internal/controllers/governance_workflow_controller.go:182-231 | Under any interleaving, rollback, crash and deletion: every stored payment at stage 3 or more has an authorized event in the outbox; every such event carries figures an approver of that payment signed, payable included; a dispatched row was taken by the broker; stored payables restate amount and retention |
| PaymentPaid.PaymentReachesFinance | internal/controllers/governance_workflow_controller.go:217-222 | Under the same runs: every stored payment at its last stage has a paid event in the outbox; every paid event carries the payable of figures some approver of that payment signed, after an authorization |
| PaymentPaid.PaidAtTheStoredPayable | internal/controllers/governance_workflow_controller.go:217-222 | When no correction lands after a signature, paid events carry the stored row's own payable |
| PaymentProtocol.EventsNeverLost | internal/events/bus.go:105-124 | Outbox rows keep their place and event through every later step |
| PaymentAnnouncements.AnnouncementsTrueExactly | internal/controllers/governance_workflow_controller.go:121-231 | Throughout a run every authorized event states its payment's own figures, and every paid event its payable, iff no correction that changes them lands on an announced payment; then every payment at stage 3 or more always has an event with its own payable |
| PaymentAnnouncements.SignaturesTrueExactly | internal/controllers/governance_workflow_controller.go:121-231 | Throughout a run every approver signed the stored figures and every event states them iff each correction that changes figures lands on an unsigned row |
| PaymentAnnouncements.PatchSentExactly | internal/persistence/governance_workflow.go:69-83 | One correction's write keeps all events true iff it is refused, changes nothing, or neither an authorization nor a paid event of its payment says otherwise |
| PaymentAnnouncements.PatchCarriedExactly | internal/persistence/governance_workflow.go:69-83 | It leaves every payment at stage 3 or more with an event of its own figures iff also the stage is below 3 or those figures were announced |
| PaymentAnnouncements.LateCorrectionBreaks | internal/controllers/governance_workflow_controller.go:121-160 | A correction read at stage 0 and written after three approvals: the row is authorized at 2000, the only event says 1000 |
| PaymentProtocol.SignedIsAuthorized | internal/controllers/governance_workflow_controller.go:121-231 | When no correction lands after a signature, each approver signed the stored figures and the authorized event carries them, advances interleaved at will |
| PaymentProtocol.SignedIsAuthorizedAtomically | internal/controllers/governance_workflow_controller.go:121-160 | The same with no premise on runs whose corrections go from read to write uninterrupted |
| PaymentProtocol.PatchHonouredExactly | internal/persistence/governance_workflow.go:69-83 | A correction's write keeps faith with signatures and events iff it is refused, changes nothing, or finds the row unsigned |
| PaymentProtocol.StalePatchBreaks | internal/controllers/governance_workflow_controller.go:121-160 | A run from the start: read before the first signature and written after it, a correction leaves a signature for another amount |
| PaymentHandlers.AdvanceAlone | internal/persistence/governance_workflow.go:270-300 | Read, update, publish, commit without interference: the advanced row and its announcements appear together |
| PaymentHandlers.PaymentDesk.CreatePayment | internal/controllers/governance_workflow_controller.go:35-83 | One protocol step; one payment per milestone, defaults and clamps as in the handler |
| PaymentHandlers.PaymentDesk.PatchPayment | internal/controllers/governance_workflow_controller.go:121-160 | Read then write; 409 exactly for a signed payment, no change on any refusal |
| PaymentHandlers.PaymentDesk.AdvancePayment | internal/controllers/governance_workflow_controller.go:162-247 | Success is the four protocol steps, with the authorized event at the third stage, the paid event at the payable at the fourth, none otherwise; any refusal or failed publish or commit changes nothing, and which code comes back when |
| VariationLedger.ValueIsEditsPlusApprovals | internal/controllers/governance_workflow_controller.go:322-348 | On every run a contract's value is its edits plus each finally approved variation once; terms at every signature past the raiser's are the terms still stored |
| VariationLedger.ApprovedStandsExactly | internal/models/governance_workflow.go:171-217 | All counted variations read Approved iff the run rejected no approved one; then every value is edits plus the variations that read Approved |
| VariationLedger.ApprovedNowExactly | internal/models/governance_workflow.go:171-217 | The value equals edits plus variations now reading Approved iff those rejected after approval sum to zero |
| VariationLedger.RejectedStaysCounted | internal/controllers/governance_workflow_controller.go:486-512 | Rejecting an approved variation leaves the contract value and closes it to advance |
| VariationLedger.VariationDesk.AdvanceVariation | internal/controllers/governance_workflow_controller.go:322-365 | The handler is the ledger's advance step, contract value included |
| VariationLedger.VariationDesk.RejectVariation | internal/controllers/governance_workflow_controller.go:486-512 | The handler is the reject step, refused only without a row or a reason; the stored row records actor, date and trimmed reason and keeps all else |
| VariationLedger.VariationDesk.PatchVariation | internal/controllers/governance_workflow_controller.go:422-484 | The handler is the patch step: pending only, amount and extension frozen past the first desk |
| VariationLedger.CorrectionSets | internal/controllers/governance_workflow_controller.go:422-484 | A correction sets what it carries and only that, terms frozen past the first desk |
| RequisitionLedger.ConvertsOnceAtTheSignedEstimate | internal/controllers/governance_modules_controller.go:229-273 | A requisition converts at most once; the contract stored is opened from the requisition as it still stands, at the estimate every approver past the raiser signed, and stays so until another request writes that contract |
| RequisitionLedger.HalfConvertedCannotRepeat | internal/controllers/governance_modules_controller.go:241-260 | Dying between creating the contract and linking it, no retry opens a second contract after any run in which the first keeps its number and is not deleted |
| RequisitionLedger.ConvertRefusedExactly | internal/controllers/governance_modules_controller.go:229-260 | A convert request changes nothing iff the row is missing, not approved or linked, its number is taken, or the minted id is in use |
| RequisitionLedger.RenumberedThenRepeated | internal/controllers/governance_controller.go:237-254 | Renumbering the first contract of a half conversion lets the retry open a second at the same estimate |
| RequisitionLedger.RequisitionDesk.CreateRequisition | internal/controllers/governance_modules_controller.go:39-79 | The handler is the create step: trimmed, numbered, medium urgency by default |
| RequisitionLedger.RequisitionDesk.AdvanceRequisition | internal/controllers/governance_modules_controller.go:81-119 | The handler is the advance step |
| RequisitionLedger.RequisitionDesk.RejectRequisition | internal/controllers/governance_modules_controller.go:201-225 | The handler is the reject step; the stored row records actor, date and trimmed reason and keeps all else |
| RequisitionLedger.RequisitionDesk.PatchRequisition | internal/controllers/governance_modules_controller.go:121-199 | The handler is the patch step over every column a correction may carry, refusals writing nothing |
| RequisitionLedger.CorrectionSets | internal/controllers/governance_modules_controller.go:148-193 | A correction sets each column it carries and only those |
| RequisitionLedger.ContractCarries | internal/controllers/governance_modules_controller.go:245-252 | Which requisition column the opened contract takes over |
| RequisitionLedger.RequisitionDesk.ConvertRequisition | internal/controllers/governance_modules_controller.go:229-273 | The handler is the convert step, taken exactly when convertible |
| Outbox.BackoffInRangeExactly | internal/outbox/outbox.go:242-251 | Delay between 2 s and 5 min iff attempts ≤ 33 or one of eight later counts; never above 5 min |
| Outbox.BackoffDoubles | internal/outbox/outbox.go:241-251 | Up to 33 attempts: two to the attempts in seconds, capped |
| Outbox.EveryRunAccounted | internal/outbox/outbox.go:64-122 | Any publishers, clock and crashes: attempts counts claims, deliveries never exceed attempts, dispatched implies delivered, due within five minutes of the last touch |
| Outbox.RunGrows | internal/outbox/outbox.go:48-122 | Rows are never lost or rewritten; a dispatched row is never claimed again |
| Outbox.ClaimsALeaseApart | internal/outbox/outbox.go:64-122 | On every run the first 34 claims of every row are at least a second apart, whatever becomes of other rows |
| Outbox.ClaimHolds | internal/outbox/outbox.go:64-102 | A claimed row nobody marks is not due again for one second, whatever else happens |
| Outbox.ClaimsApartExactly | internal/outbox/outbox.go:64-251 | A row's claims are apart throughout a run, whenever it is claimed next, iff each failed mark of it finds the lease over, the row done, or sets the retry a second or more after the last claim |
| Outbox.SpacedExactly | internal/outbox/outbox.go:64-102 | The invariant behind it is exact: claims are apart and will be after any wait, iff the row is done, its lease over, or it is not due before |
| Outbox.FaithfulIsPatient | internal/outbox/outbox.go:115-251 | A mark whose attempt count gives a delay in the documented range always meets that condition |
| Outbox.ReclaimedAtOnce | internal/outbox/outbox.go:217-251 | After 34 failures the row is claimed twice in one instant |
| OutboxStore.Store.ClaimBatch | internal/outbox/outbox.go:64-102 | The batch is due rows, once each, in id order, attempts bumped and due again one second from now; a due row is left out only by a full batch (32 by default) of rows before it |
| OutboxStore.Store.MarkDispatched | internal/outbox/outbox.go:105-113 | Is the protocol's mark step |
| OutboxStore.Store.MarkFailed | internal/outbox/outbox.go:115-122 | Is the protocol's mark step with the backoff delay |
| OutboxStore.Store.DrainOnce | internal/outbox/outbox.go:217-239 | Is a run of the protocol; each claimed row ends dispatched exactly when the broker took it and said so, else due after its backoff |
| OutboxStore.Store.Poll | internal/outbox/outbox.go:179-215 | One turn drains the first 32 due rows, and the next 32 after a full batch; the interval is reset iff the claim went through and some row was due, else stretched |
| OutboxStore.PollBounded | internal/outbox/outbox.go:169-215 | After any history of polls the next comes in 2 s after work, 4 s after one fruitless or failed poll, 8 s after more |
| Hub.VersionOrdersFreshness | internal/realtime/hub.go:111-191 | Any payload of version v shows every mutation whose broadcast took a version ≤ v, under any interleaving: exactly the items last put among the first n mutations that the session may see |
| Hub.OnlyPermittedSent | internal/realtime/hub.go:186-191 | No payload of any run carries an item the client's session has no permission for |
| Hub.HighestVersionIsFinal | internal/middleware/broadcast.go:30-56 | At rest, every healthy client holds the highest version and every payload of it is the projection of the final store |
| RateLimiter.Limiter.AllowRequest | internal/middleware/ratelimit.go:68-89 | The window update and answer of the table function |
| RateLimiter.Limiter.Sweep | internal/middleware/ratelimit.go:44-66 | Exactly the entries idle beyond the bound are deleted |
| RateLimiter.EvictorInvisible | internal/middleware/ratelimit.go:44-96 | With sweeps at any time, idle spells included, and a clock that does not run back, answers are those of a limiter that never evicts |
| RateLimiter.IdleClientEvicted | internal/middleware/ratelimit.go:44-66 | Such a run: a client idle for six minutes is evicted and then answered as before |
| RateLimiter.AdmissionBound | internal/middleware/ratelimit.go:68-89 | Any interval of length T admits a key at most limit·(⌈T/60 s⌉+1) times, on the same runs |
| RateLimiter.RefusedOnlyAtTheLimit | internal/middleware/ratelimit.go:68-89 | On the same runs a request is refused only when its key was admitted its whole limit in the last minute |
| RateLimiter.FirstRequestsAdmitted | internal/middleware/ratelimit.go:68-89 | The first limit requests of a key are all admitted |
| Upserts.UpsertTwice | internal/persistence/monthly_report.go:248-268 | Replaying any log of upserts, repeated keys included, changes nothing |
| Upserts.UpsertAllResult | internal/imports/monthly_report.go:254-265 | A run of upserts holds each key's last write and keeps the insertion-time columns of stored rows |
| ContractorDirectory.SameContractorExactly | internal/imports/monthly_report.go:59-75 | Two resolved names get one contractor iff they differ in case only |
| ContractorDirectory.EnsureTwice | internal/persistence/monthly_report.go:65-75 | Resolving the same names again gives the same ids and stores nothing |
| Valuations.ImportTwiceExactly | internal/imports/monthly_report.go:147-203 | Over distinct stored names, a second import changes nothing for every listing order iff claims sharing an unstored folded name are equal |
| Valuations.ImportKeepsTerms | internal/imports/monthly_report.go:175-200 | A stored valuation keeps reference, dates, currency, division, tax, status and attachments; only rows of the period change, and those lose the verification date |
| Valuations.TwoSpellingsUnsettle | internal/imports/monthly_report.go:147-203 | Acme and ACME with different sums: two rows, then the second import rewrites the first |
| MonthlyWorkbook.ReadWorkProgramme | internal/imports/monthly_report.go:278-302 | The loop collects the planning rows below the header by key |
| MonthlyWorkbook.ProgrammeHoldsLast | internal/imports/monthly_report.go:278-307 | A key is planned iff some row plans it, and as the last such row says |
| MonthlyWorkbook.NumbersDistinct | internal/imports/monthly_report.go:96-97 | Generated contract numbers are injective in the row count and disjoint between the two sheets |
| Importer.ImportTwiceExactly | internal/imports/monthly_report.go:55-250 | Importing a workbook twice equals importing it once, on all four tables and for every listing order, iff the verified sheet does not contradict itself about an unstored name |
| Importer.DistinctNamesImportOnce | internal/imports/monthly_report.go:6-10 | So with verified names distinct ignoring case, for any workbook and store with distinct valuation names |
| Importer.SecondImport | internal/imports/monthly_report.go:55-265 | Contractors, contracts and reports are settled by the first import with no premise on the workbook |
| Importer.EveryRowLands | internal/imports/monthly_report.go:82-143 | Each kept row of either sheet is the content of its own contract and that contract's report; existing id, documents and activity survive |
| Importer.TrackerContract | internal/imports/monthly_report.go:91-114 | Which Tracker column fills which contract column |
| Importer.TrackerReport | internal/imports/monthly_report.go:121-142 | Which Tracker and work-programme columns fill the report |
| Importer.ConsultancyReads | internal/imports/monthly_report.go:209-246 | Which consultancy column fills what, and the status its progress gives |
| Importer.VerifiedReads | internal/imports/monthly_report.go:157-174 | Which verified column fills which claim column |
| MonthlyWorkbook.KeptExactly | internal/imports/monthly_report.go:82-95 | A sheet contributes exactly its rows below the headers that its loop keeps |
| Importer.OtherContractsUntouched | internal/imports/monthly_report.go:254-265 | Contracts whose number the workbook does not generate are left alone |
| ImportWorkbook.GovStore.UpsertContract | internal/imports/monthly_report.go:254-265 | Get, then update or create, is one upsert |
| ImportWorkbook.GovStore.UpsertProgressReport | internal/persistence/monthly_report.go:247-268 | One upsert by contract and period |
| ImportWorkbook.GovStore.ListValuations | internal/persistence/monthly_report.go:298-320 | Every row of the period once, in no particular order |
| ImportWorkbook.WorkbookImport.ImportVerified | internal/imports/monthly_report.go:147-203 | The loop over claims, against rows listed before it, is the ledger import |
| ImportWorkbook.WorkbookImport.ImportBook | internal/imports/monthly_report.go:55-250 | The row-at-a-time import over four tables makes exactly the table-at-a-time one, and reports the right counts |
| Execution.SpellingsDecide | internal/models/governance.go:87-104 | The text, case and padding aside, decides by the table of thirteen spellings; anything else is Not Started |
| Execution.CaseAndPaddingIgnored | internal/models/governance.go:89-90 | Texts that differ in case and padding only read alike |
| Execution.KnownReadsAsItself | internal/models/governance.go:64-104 | A stored status reads as itself, so normalizing again changes nothing |
| Execution.ForProgress | internal/imports/monthly_report.go:380-389 | Completed iff at least 100, not started iff not positive, else ongoing |
| MonthlySummary.BuildMonthlySummary | internal/models/monthly_report.go:331-400 | The one pass over maps is the declarative group-by, last report first, sorted by contractor |
| MonthlySummary.LineReads | internal/models/monthly_report.go:341-361 | A contract counts with its own money, under its contractor or Unassigned, with the status and progress of its last report if any |
| MonthlySummary.BucketsByStatus | internal/models/monthly_report.go:368-385 | Each of the five statuses has its own tally, anything else counts as not started |
| MonthlySummary.SummaryUnique | internal/models/monthly_report.go:388-399 | One summary only, whatever order the group map is ranged in |
| MonthlySummary.GroupsAddUp | internal/models/monthly_report.go:363-386 | Every overall tally is the sum over the listed groups; the five tallies make the contract count |
| MonthlySummary.AverageBetween | internal/models/monthly_report.go:389-393 | A group's average lies between the least and greatest progress of its contracts |
| MonthlySummary.SortByContractor | internal/models/monthly_report.go:396-398 | Strictly sorted, same members |
| ContractStore.CacheMirrorsDatabase | internal/models/store.go:108-203 | From any store that mirrors its rows, over creates, patches and deletes with any failing statements: cache equals rows, numbers unique; balances that started right are sum less paid iff an int64 holds it; zone counters that started right stay right, stored ones except where their last write failed |
| ContractStore.CountsExactWithoutFaults | internal/models/store.go:174-203 | When count writes succeed, rewriting the touched zones keeps every stored count exact |
| ContractStore.StaleUntilTouched | internal/models/store.go:174-181 | A step that does not touch a zone neither changes nor repairs its stored count |
| ContractStore.Store.RecalcZoneCounts | internal/models/seed.go:80-88 | Every zone's counter becomes the number of its contracts |
| ContractStore.Store.PersistZoneCounts | internal/models/store.go:181-203 | Recount, then one write per distinct non-blank touched zone |
| ContractStore.Store.InsertContract | internal/models/store.go:108-124 | A taken number is refused, a failed insert caches nothing, else row, cache and zone count move together |
| ContractStore.Store.CreateContract | internal/models/contract.go:9-53 | The create step: validation, conflict, persist before cache |
| ContractStore.Store.PatchContract | internal/models/contract.go:55-94 | The patch step: both zones recounted when it moves |
| ContractStore.PatchSets | internal/models/contract.go:55-94 | A patch sets the columns it carries and no other, progress within 0 and 100, balance following |
| ContractStore.CreateSets | internal/models/contract.go:9-53 | A new contract has what was given, else the defaults |
| ContractStore.Store.DeleteContract | internal/models/store.go:156-173 | The delete step |
| Lifecycle.GovContract.ApplyPatch | internal/controllers/governance_controller.go:205-281 | The patched row and one log line per status change, or nothing at all when refused |
| Lifecycle.LogTellsTheLifecycle | internal/models/governance.go:32-61 | Replaying the log yields the status; Active follows Under Review then Approved, Closed follows Active then Completed, Closed and Terminated are final |
| Lifecycle.MovesExactly | internal/models/governance.go:32-43 | The thirteen moves, and no others |
| Routing.ResolveApprovalRoute | internal/models/governance_modules.go:257-275 | Nil iff no active band holds the value, else the earliest of the narrowest |
| Routing.BandEdges | internal/models/governance_modules.go:257-275 | An active band holds its lower bound and not its upper; other statuses hold nothing |
| Routing.BestIsNarrowest | internal/models/governance_modules.go:257-286 | The rule found is no wider than any that applies iff the bounded bands wrap all or none and some bounded one, if any, goes before the open-ended ones by width or, at 2^62, by place |
| Routing.OpenEndedLosesExactly | internal/models/governance_modules.go:281-286 | After an open-ended rule, a bounded one is taken iff its width is below 2^62 or wraps |
| Routing.WidestTakenForNarrowest | internal/models/governance_modules.go:281-286 | A band whose width wraps beats a band of width ten |
| Routing.OrderDoesNotMatter | internal/models/governance_modules.go:257-275 | With different widths, every ordering of the list gives the same rule |
| Routing.OrderDoesNotHide | internal/models/governance_modules.go:257-275 | Whether any rule is found does not depend on the order |
| Coercion.CoerceScalarStrings | internal/controllers/base.go:35-105 | The loop over fields, nested objects and arrays included, is the recursive rewriting; recursion ends on the JSON value for recursive types too |
| Coercion.EveryNode | internal/controllers/base.go:30-105 | At every path: same keys and lengths, a string in a scalar field becomes that scalar or null, every other node untouched |
| Coercion.ScalarReads | internal/controllers/base.go:53-104 | Blank text clears, text that parses becomes a value of the field's kind, other text stays |
| Coercion.CoercedTwice | internal/controllers/base.go:30-105 | Rewriting a rewritten body changes nothing |

## Left out

- PaymentProtocol.SignedIsAuthorized: assumes that no correction lands after a signature; without it the event need not carry the row's payable, by PaymentAnnouncements.LateCorrectionBreaks, nor a signature the row's figures, by PaymentProtocol.StalePatchBreaks. The exact conditions are PaymentAnnouncements.AnnouncementsTrueExactly and PaymentAnnouncements.SignaturesTrueExactly.
- RequisitionLedger.HalfConvertedCannotRepeat: assumes that the opened contract keeps its number and is not deleted; RenumberedThenRepeated shows the renumbering case.
- Outbox.ClaimsALeaseApart: speaks of a row's first 34 claims, since the int64 product wraps at 34 and ReclaimedAtOnce puts the 35th on the 34th; ClaimsApartExactly is the exact condition beyond.
- Valuations.ImportTwiceExactly: assumes that stored names of the period are distinct ignoring case; with two such rows the importer updates whichever is listed last. Listing order is taken as arbitrary, since ties and collation of `ORDER BY contractor_name` belong to the database.
- OutboxStore.Store.ClaimBatch: rows come back in id order; the statement's RETURNING fixes no order.
- Coercion.CoerceScalarStrings: struct types have pairwise different JSON names, as the JSON package demands; values are trees, so in-place sharing of maps does not arise.
- Outbox.BackoffInRangeExactly: from 63 attempts on, Go's float-to-integer conversion is platform-defined; the amd64 value is used.
- RateLimiter.Limiter.AllowRequest: one atomic step; the code looks up and counts under two locks, so an entry evicted in between is outside the model.
- MonthlySummary.BuildMonthlySummary: sums are unbounded integers; `sort.Slice` is written out as insertion.
- VariationLedger.ValueIsEditsPlusApprovals: handlers are atomic and database statements succeed; contract values are unbounded integers. Deleting a contract, which takes its variations with it, is not a step of that ledger.
- Strings are ASCII: folding and trimming beyond ASCII are not modelled.
- Ids drawn at random are modelled as fresh numbers per table; contract ids and numbers are taken as disjoint name spaces.
- Parsing of money, progress and JSON scalars: parsed values are an opaque function of the text.
- Database faults during an import, and timestamps of imported rows.
- The milestone flipped to Paid with a payment, notifications, chat threads, audit events and permissions.
- Descriptive columns of payments, variations and contracts that no rule reads.
- A contract store with no database wired behind it.
- The contract number minted when none is given: a parameter; only the conflict check is relied on.
- Zone, engineer, user, milestone, template, clause, budget, obligation and challenge handlers: no rule beyond one branch each. `PatchZone` changes the cache before persisting and is outside the write-through invariant.
- Milestone patches and imports set contract status without the transition table; the lifecycle property is about contract patches.
- HTTP, JSON encoding, SQL text, JWT, object storage, Kafka, tracing and the Redis bridge between hubs: the broker accepts or fails, a transaction commits or rolls back, a write lands or fails.
