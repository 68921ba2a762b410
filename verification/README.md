# Port scanner pipeline: verified model

The repository is an event pipeline. An inventory watches cloud network interfaces and announces targets,
a generator turns announcements into Scanner resources, an operator runs each Scanner as one Kubernetes
Job, and a parser folds scan results into a store of exposures and findings. Messages arrive late, twice
and out of order, actors stop between any two calls, and several of them work at once. What keeps the
result right is a set of ordered, idempotent transitions, and these are what this project models and
proves.

| files | component |
|---|---|
| `Base.dfy`, `Records.dfy` | shared building blocks, row and message shapes |
| `Exposures.dfy`, `Findings.dfy`, `Store.dfy` | the exposure store's transactions as functions |
| `StoreSafety.dfy`, `StoreTheorems.dfy` | invariants over every run, and what follows from them |
| `Reasons.dfy` | why every event in the logs is there, and which operations take effect |
| `Convergence.dfy`, `LateStamps.dfy` | scans in any order, any number of times, and a reachable store in which the order matters |
| `Exports.dfy` | the handoffs queued in the store's transactions, and what a consumer learns from them |
| `Repository.dfy` | the store as an object whose methods loop over its tables and queue handoffs, proved against the functions |
| `ConfigOrder.dfy`, `Inventory.dfy`, `InventoryStore.dfy`, `InventoryHandlers.dfy` | version vectors, generation fencing, the state store, and the snapshot and signal handlers that drive it |
| `Outbox.dfy` | delivery of inventory events |
| `Operator.dfy` | the reconcile loop of the Kubernetes operator |
| `Claims.dfy`, `Dispatch.dfy` | lease claims and the dispatch of one event |
| `Ports.dfy`, `PortText.dfy` | port coverage as ranges and as text |
| `XmlAccounting.dfy`, `ScanHandler.dfy` | the counting argument behind "not listed means not open", from the documents of a scan to the store |
| `Handoff.dfy` | publishing findings to immutable objects |

## How to read it

The store is modelled twice. `Store.dfy` says what each transaction makes of the whole database, row by
row; the theorems are about sequences of these functions. `Repository.dfy` holds the tables as fields and
runs the source's loops; each of its methods is proved to leave exactly the database its function says,
to queue exactly the handoffs that `Exports.dfy` says, and to leave everything alone where the source raises.

The inventory and the claim table are modelled by the atomic writes that the table accepts. A run is any
sequence of write attempts, each planned from something that was stored at some earlier time, so every
interleaving of any number of readers and writers is such a sequence. The store objects beside them make
the same attempts, with a method `Meanwhile` standing for whatever others do between two calls. The
operator, the outbox dispatcher and the claim store use the same device: before every call others act
any number of times, then the call may fail, which ends the method. A property that holds at every such
point holds at every crash.

Calls that raise and writes by others are counted in ghost fields (`faults`, `broken`, `foreign`), so that a
contract can also say that a method gives up, or leaves something undone, for no other reason.

Where a promise does not hold on all inputs, the exact condition is proved and a failing input is given.

- Delivering the scans of a generation in any order shows the same at a port if and only if the port is
  settled (`Convergence.OrderIndependentIffSettled`). Two things unsettle it: its latest covering scan may
  have no effect (an "unknown" reading leaves the row as it was) where another one shows something else,
  and the row that earlier generations left may be stamped later than the scans, so that one of them, once
  applied, keeps the stamp and turns the next away (`Convergence.WhatBlocks` says exactly which).
  `LateStamps.LateStampBreaksOrder` is a reachable store in which a port stays open for that reason. Where
  no row is stamped later than a scan that covers it, nothing is turned away (`Convergence.TimelyRowsSettle`).
- A Config observation that was written is never written again if and only if no confirmation fills in a
  version that was unknown with one that the observation supersedes (`Inventory.ReplaysWriteNothing`,
  `ConfigOrder.ConfirmationRevivesExactly`). `Inventory.ForgottenVersionComesBack` is a run in which that
  happens: a direct read forgets the interface's version, an older observation is confirmed, the version has
  gone back, and the replay is written. While a version stays known it never decreases
  (`Inventory.KnownVersionsNeverDecrease`).
- A finding event has a handoff for a bucket if and only if the transaction that wrote the event exported to
  that bucket (`Exports.QueuedIffExported`); while the export stays on, a consumer's view is exact
  (`Exports.ExportedViewIsExact`).
- A scan document that is sound in all other respects is accepted as complete if and only if its covered
  but unlisted ports number exactly the collapsed sum (`XmlAccounting.ValidateCompleteXml`).
- Candidate ports of a policy change fall back to the full range exactly where a permission does not name
  its ports, none concerns TCP, or the canonical list exceeds a limit (`PortText.CandidateTcpPorts`).
- A signal that fails gives its claim back, except in two cases that the code allows, where the claim stays
  until it expires: giving it back raises too, or claiming took effect although the call raised
  (`InventoryHandlers.ProcessSignal`, outcome `Stuck`).

Assumptions. Hashes are injective, so the hashed parts stand for the hash. Reads are current where the
source asks for consistent reads; the operator's cached reads are taken to be current. Only the operator
writes Scanner status, creates Jobs controlled by a Scanner and removes its own two finalizers. Claim
owners are drawn at random and name one acquisition each. Whoever writes objects to the outbox bucket
records true hashes. Findings are exported with a bucket configured, or export is off; the one failing
configuration is a parameter.

## Model

| member | source | states |
|---|---|---|
| Exposures.OpenKeepsConsistent | parser/src/act_parser/database.py:771-994 | Opening, reopening or updating a port keeps the row equal to the replay of its log: legal transitions only, versions counting events, times never decreasing; an observation that is not applied changes nothing |
| Exposures.CloseKeepsConsistent | parser/src/act_parser/database.py:996-1152 | Closing keeps the row equal to the replay of its log, invents no row, and never leaves the port open when it is applied |
| Findings.ReconcileKeepsConsistent | parser/src/act_parser/database.py:1317-1619 | Ensuring or resolving a finding keeps its event chain legal (versions 1, 2, 3, each previous status the prior event's status, times never decreasing) and publishable under the contract |
| Findings.MatchesExactly | parser/src/act_parser/database.py:1276-1315 | A rule selects a service exactly if it is enabled and lists the protocol and, being a port rule, the port; matching raises exactly if an enabled rule lacks the lists it needs |
| Findings.ReconcileBringsUpToDate | parser/src/act_parser/database.py:1154-1259 | After reconciliation a finding is open exactly if the target is active, the exposure open and the rule lists the service, and then agrees with exposure and rule |
| Findings.ReconcileLeavesUpToDate | parser/src/act_parser/database.py:1317-1407 | Reconciling a finding that is up to date changes neither its row nor its log |
| StoreSafety.ReconcileEffect | parser/src/act_parser/database.py:1154-1259 | Reconciling a batch makes the findings of its services current and touches no other finding |
| StoreSafety.IngestKeeps | parser/src/act_parser/database.py:326-646 | An ingested scan keeps all store invariants and the exactness of findings |
| StoreSafety.CloseAndReconcileKeeps | parser/src/act_parser/database.py:1829-2010 | Closing displaced services restores the invariants, opens nothing, and leaves none of the closed services open |
| StoreSafety.EnterDisplaces | parser/src/act_parser/database.py:196-324 | An accepted target event displaces at most the services that the source goes on to close |
| StoreSafety.StepKeeps | parser/src/act_parser/database.py:114-646 | Every operation, also after any rule edit, keeps the invariants; with fixed rules it keeps findings exact |
| StoreSafety.EveryRunIsSafe | parser/src/act_parser/database.py:181-237 | After every run: logs replay to rows, open exposures lie on active targets at a bound address and are not ahead of their target, open findings rest on open exposures |
| StoreSafety.EveryRunIsExact | parser/src/act_parser/database.py:1154-1259 | With fixed rules, incremental maintenance equals recomputation after every run of events, scans and reconciliations from empty |
| StoreSafety.ReconcileAllIsIdentity | parser/src/act_parser/database.py:2012-2105 | A full reconciliation of an exact store changes no finding and no log |
| StoreTheorems.RemovedTargetsAreQuiet | parser/src/act_parser/database.py:1957-2010 | After every run a removed target has no open exposure and no open finding |
| StoreTheorems.OpenFindingsAreExact | parser/src/act_parser/database.py:1154-1259 | After every run with fixed rules a finding is open exactly if its target is active, its exposure open, and its rule enabled and listing the protocol and, for a port rule, the port; it then has the address, identity, severity, title and description that exposure and rule have |
| StoreTheorems.RejectsExactly | parser/src/act_parser/database.py:1154-1259 | Reconciling a service fails exactly if its target is unknown, an enabled rule lacks the lists it needs for the open service, or a finding would change hands with nowhere to publish to |
| StoreTheorems.EventsTakeEffectByRecency | parser/src/act_parser/database.py:178-276 | A new event of a target takes effect, row and flags, exactly if the target is new or the event is at least as recent by generation and observation time; otherwise it is only recorded; a known event changes nothing |
| StoreTheorems.TargetRowIsLatest | parser/src/act_parser/database.py:114-276 | After every run, in whatever order events arrived, a target row is that of the event with the greatest generation and observation time, the last to arrive among equals |
| StoreTheorems.ReconciliationFindsNothing | parser/src/act_parser/database.py:2012-2105 | After every run with fixed rules a full reconciliation changes no finding and adds no finding event |
| StoreTheorems.ReconciliationRepairs | parser/src/act_parser/database.py:2012-2105 | After any run with any rule edits one successful new reconciliation makes the findings exact |
| StoreTheorems.RunExtends | parser/src/act_parser/database.py:191-237 | Over any stretch of any run nothing recorded is lost or rewritten, logs only grow, and no target goes back in generation and observation time |
| StoreTheorems.ClearsTarget | parser/src/act_parser/database.py:1829-1888 | A removal, or a reactivation that skipped one, succeeds and leaves nothing of the target open |
| StoreTheorems.LateRemovalCommutes | parser/src/act_parser/database.py:196-324 | A removal that arrives after the next announcement of the target leads to the same target row, with nothing open, as one that arrives in time |
| Reasons.OpeningTells | parser/src/act_parser/database.py:771-994 | An open observation counts exactly if it is newer than the row by generation, time and attempt id; what it leaves in the row, and whether it is an opening, a reopening, a change of service or of address |
| Reasons.ClosingTells | parser/src/act_parser/database.py:996-1152 | Closing by a scan counts exactly if it is newer than the row, and names why |
| Reasons.EvidenceTells | parser/src/act_parser/database.py:648-717 | Evidence takes effect exactly where its attempt controls the port, its reading is not "unknown" and it is newer than the row; a closing needs coverage and a row and is told as explicitly closed, explicitly filtered or absent, as it was |
| Reasons.ScansAreChecked | parser/src/act_parser/database.py:340-418 | A scan is taken in exactly if it agrees with its target and target event, its result is no other attempt's, and it repeats its attempt or reads each port once at its own address; every refusal names its cause |
| Reasons.ScansTell | parser/src/act_parser/database.py:420-646 | A scan that is no repetition is recorded with its flags; it counts exactly if it is complete, validated and about the target as it is, and otherwise changes no exposure and no finding |
| Reasons.TargetEventsAreChecked | parser/src/act_parser/database.py:114-195 | A target event is refused exactly if its addresses do not fit its type or it would move a target or a provider identity; apart from that only publishing or reconciling what it closes can fail |
| Reasons.TargetEventsTell | parser/src/act_parser/database.py:1829-2010 | An event closes exactly the open services that it takes the ground from (removal, skipped removal, lost address), each with one event that names which, and changes no other exposure |
| Reasons.UnpublishableIsRefused | parser/src/act_parser/database.py:1829-1956 | An announcement that would close a service is refused where there is nowhere to publish to |
| Reasons.ReconcilesTell | parser/src/act_parser/database.py:2012-2105 | A full reconciliation needs somewhere to publish to, does nothing when repeated, and is recorded with the number of services that have an exposure or a finding |
| Reasons.StepFindingsTell | parser/src/act_parser/database.py:1262-1619 | An operation writes at most one event of a finding, and its source, generation, kind and reason are true of what the operation found and left |
| Reasons.EveryFindingEventIsTold | parser/src/act_parser/database.py:1262-1619 | So it is at every step of every run, rule edits included |
| Convergence.ControlIsLatest | parser/src/act_parser/database.py:727-752 | The controlling attempt of a port is the latest delivered scan, by completion time and attempt id, that covers it |
| Convergence.ControllingImposesReading | parser/src/act_parser/database.py:648-769 | A scan that controls the port makes its row reflect all scans delivered so far, over whatever row older generations left: its reading is imposed unless it is "unknown" or the row is stamped later |
| Convergence.RedeliveryIsIgnored | parser/src/act_parser/database.py:378-418 | A redelivered scan changes nothing |
| Convergence.DeliveriesReflect | parser/src/act_parser/database.py:648-717 | After any deliveries, in any order and with any repetition, every row reflects the scans delivered and the row that was there before them |
| Convergence.SettledPortsConverge | parser/src/act_parser/database.py:648-769 | In any order and with any repetition a settled port shows its verdict: address, service, identity and attempt of the latest covering scan, or what an earlier generation left where no scan has an effect |
| Convergence.UnsettledPortsDiverge | parser/src/act_parser/database.py:663-690 | At a port that is not settled two orders of the same scans show different results |
| Convergence.OrderIndependentIffSettled | parser/src/act_parser/database.py:648-769 | What a port shows is independent of order and repetition if and only if the port is settled, whatever rows older generations left |
| Convergence.WhatBlocks | parser/src/act_parser/database.py:756-769 | Which stamps of an earlier row let an older scan of the generation turn a newer one away: exactly those later than the newer scan, or as late as it with the older one earlier and of a greater attempt id |
| Convergence.TimelyRowsSettle | parser/src/act_parser/database.py:756-769 | If no earlier row is stamped later than a scan covering its port, the port is settled unless its latest scan has no effect while another shows something new |
| Convergence.FindingsConverge | parser/src/act_parser/database.py:1154-1259 | The open findings of a settled port are those its verdict and the rules call for, in any order of delivery |
| LateStamps.LateStampBreaksOrder | parser/src/act_parser/database.py:756-769 | A reachable store and two scans of its current generation such that the port stays open or closes depending on the order, though the later scan read it closed |
| Repositories.Repository.EnsureMatching | parser/src/act_parser/database.py:1201-1232 | The loop over rules ensures a finding for exactly the rules that match, and fails exactly if one is malformed or cannot be published |
| Repositories.Repository.ResolveUnmatched | parser/src/act_parser/database.py:1234-1259 | Exactly the open findings that no rule matched are resolved |
| Repositories.Repository.ReconcileFindingKeys | parser/src/act_parser/database.py:1154-1259 | The loop over services leaves the database of the batch reconciliation function |
| Repositories.Repository.ApplyExposureEvidence | parser/src/act_parser/database.py:648-717 | Observed ports first, then stored ones: the loops leave exactly the exposures, affected services and transitions of the function |
| Repositories.Repository.IngestScan | parser/src/act_parser/database.py:326-646 | The transaction answers and stores what the function says, queues the handoffs of just the finding events it writes, and restores everything where it raises |
| Repositories.Repository.ApplyTargetEvent | parser/src/act_parser/database.py:114-324 | The transaction answers and stores what the function says, queues the handoffs of just the finding events it writes, and restores everything where it raises |
| Repositories.Repository.ReconcileAll | parser/src/act_parser/database.py:2012-2105 | The transaction answers and stores what the function says, queues its events and a snapshot of every open finding, and does nothing when repeated |
| Repositories.Repository.TransactionsCommit | parser/src/act_parser/database.py:1777-1827 | What the three transactions leave behind is what the export model commits |
| Exports.EveryEventIsQueuedOnce | parser/src/act_parser/database.py:1777-1827 | While findings are exported to one bucket, every event of every finding has exactly one handoff, queued with it, which tells that event, the version and the finding as it was then, and satisfies the shared contract |
| Exports.QueuedIffExported | parser/src/act_parser/database.py:1529-1619 | However the export is switched between transactions, an event has a handoff for a bucket if and only if the transaction that wrote it exported there |
| Exports.EveryHandoffIsFaithful | parser/src/act_parser/database.py:1692-1827 | However the export is switched, every event handoff tells an event of its finding and satisfies the shared contract |
| Exports.EveryHandoffIsAttributed | parser/src/act_parser/database.py:1692-1776 | Every handoff names the provider of its finding's target |
| Exports.ExportedViewIsExact | parser/src/act_parser/database.py:1692-1827 | With fixed rules and the export on, a consumer that goes by the latest event of each finding sees open exactly the services on active targets that are open and listed by a rule, with the address, identity, severity and title that exposure and rule have |
| Exports.SnapshotsShowOpenFindings | parser/src/act_parser/database.py:2079-2152 | A completed full reconciliation queues a snapshot of every open finding as it is, with its target's generation, and of no other |
| Exports.StepAddsOne | parser/src/act_parser/database.py:1317-1619 | A transaction writes at most one event of a finding, and where it writes none at most the time of the last sighting moves |
| ConfigOrder.ConfigObservationOrder | inventory/src/portscanner_inventory/state.py:100-138 | The loop over groups computes the comparison, with its errors |
| ConfigOrder.VerdictsMean | inventory/src/portscanner_inventory/state.py:100-138 | On complete vectors "advances" means that no component is older, groups were at most dropped, and something moved; "not newer" means that nothing is news |
| ConfigOrder.AdvancesIsStrictOrder | inventory/src/portscanner_inventory/state.py:100-138 | "Advances" is irreflexive, asymmetric and transitive on complete vectors, group removal included |
| ConfigOrder.ReplayStaysAbsorbed | inventory/src/portscanner_inventory/state.py:448-466 | An observation that does not advance past a vector does not advance past what superseded it |
| ConfigOrder.ConfirmationKeepsAbsorbed | inventory/src/portscanner_inventory/state.py:531-573 | Confirming a vector in which all components of an observation were known does not bring the observation back |
| ConfigOrder.ConfirmationRevivesExactly | inventory/src/portscanner_inventory/state.py:547-561 | An observation that did not advance past a vector advances past its confirmation if and only if it is complete, one of its components was unknown, and it supersedes the confirmed vector |
| ConfigOrder.ConfirmationOfUnknownMayRevive | inventory/src/portscanner_inventory/state.py:547-561 | Vectors that meet the condition: filling in an unknown version lets an observation advance that could not be compared before |
| Inventory.PlanReconcileSound | inventory/src/portscanner_inventory/state.py:441-529 | A plan from any stored state carries a valid signature and vector, never decreases the observation time or a known version, and announces an event of the right kind; only an incomplete Config vector raises |
| Inventory.PlansTakeOver | inventory/src/portscanner_inventory/state.py:441-529 | A plan stores what was observed, apart from a lifecycle the observer did not know and versions a direct read does not deliver; it does nothing only where the observation is heeded already; the event names a new target, a policy change or a target change as the difference calls for |
| Inventory.RemovalsEnd | inventory/src/portscanner_inventory/state.py:575-619 | A removal is planned exactly for an active target observed before, and keeps what is known of it |
| Inventory.StepKeeps | inventory/src/portscanner_inventory/state.py:351-439 | A commit, however old the reading behind it, keeps generation fencing, never decreases generation, observation time or a version known before and after, and changes status or signature only with the generation |
| Inventory.EveryRunIsFenced | inventory/src/portscanner_inventory/state.py:441-679 | Under every interleaving each generation up to the current one has exactly one state-changing event that continues the one before, and coverage events belong to generations that were active |
| Inventory.RunsNeverGoBack | inventory/src/portscanner_inventory/state.py:351-439 | Over any stretch of any run generation and observation time never decrease and events are never withdrawn |
| Inventory.CommitAbsorbs | inventory/src/portscanner_inventory/state.py:455-529 | What a Config observation has written absorbs it |
| Inventory.AbsorbedStaysExactly | inventory/src/portscanner_inventory/state.py:441-573 | An absorbed Config observation stays absorbed through every commit attempt except exactly those that revive it |
| Inventory.AbsorbedStays | inventory/src/portscanner_inventory/state.py:441-573 | No reconcile, removal or coverage event ends absorption, and no confirmation where the observation's own components are known |
| Inventory.AbsorbedMeansNothingWritten | inventory/src/portscanner_inventory/state.py:455-466 | Offering a Config observation writes nothing if and only if the stored state has absorbed it |
| Inventory.ReplaysWriteNothing | inventory/src/portscanner_inventory/state.py:455-573 | Over every run, an absorbed Config observation is never written again at any point if and only if no confirmation revives it |
| Inventory.KnownVersionsNeverDecrease | inventory/src/portscanner_inventory/state.py:441-573 | Over any stretch of any run in which a component stays known its version never decreases |
| Inventory.ForgottenVersionComesBack | inventory/src/portscanner_inventory/state.py:470-573 | A run from the empty table in which a version goes back and an observation that had been written is written again |
| InventoryStore.StateStore.Reconcile | inventory/src/portscanner_inventory/state.py:441-529 | Each of four attempts fails only if others wrote to the target; otherwise the stored state has taken account of the observation, and what was written shows it; an added or changed target has its event in the outbox, new exactly if the target was not active |
| InventoryStore.StateStore.ConfirmConfigVersions | inventory/src/portscanner_inventory/state.py:531-573 | On success the versions stored lose, lower and invent nothing and leave the observation no news; it raises exactly if the observation lacks a version it should have, and is overtaken only if others wrote; nothing is emitted |
| InventoryStore.StateStore.Remove | inventory/src/portscanner_inventory/state.py:575-619 | A removal ends exactly the generation the caller expected; it is not made only if the stored state was observed later or is another, or others wrote to the target meanwhile |
| InventoryStore.StateStore.EnqueueCoverage | inventory/src/portscanner_inventory/state.py:621-679 | A coverage event carries the expected generation, which was active when it was committed; otherwise the event was there already, the state is another, or others wrote meanwhile |
| InventoryHandlers.RemoveIfGone | inventory/src/portscanner_inventory/handlers/snapshot.py:122-125 | A target is removed right after the verdict that it is inactive or moved at that generation, and only then; such a verdict is passed over only if the stored state was observed later, is another, or others wrote meanwhile |
| InventoryHandlers.Resolve | inventory/src/portscanner_inventory/handlers/snapshot.py:87-112 | Unless others interfere, an observation that could not be ordered leads to the removal of a target that is gone, to confirmed versions of an active one, and to an update and confirmation of one that has changed |
| InventoryHandlers.ListCurrent | inventory/src/portscanner_inventory/state.py:296-318 | The list has every target of the scope that is active all the time, each once, as stored |
| InventoryHandlers.ApplyAll | inventory/src/portscanner_inventory/handlers/snapshot.py:73-113 | Every selected observation was taken account of or led to a look at the live target, unless others wrote to it |
| InventoryHandlers.ReconcileSnapshot | inventory/src/portscanner_inventory/handlers/snapshot.py:33-134 | Every removal is backed by a direct verdict, and in a complete unfocused run that does not raise every active target that was not observed was looked at, and removed or updated as the verdict calls for, unless others wrote to it; an incomplete or single-address snapshot, or a managed canary, removes no target outside its selection; the counts are the events emitted; it raises only where a call failed or the input is out of order |
| InventoryHandlers.ProcessSignal | inventory/src/portscanner_inventory/handlers/signals.py:53-147 | A processed signal has brought every resolved target up to date and looked at, and acted upon, every target it used to concern; every removal is backed by a direct verdict and is never of a resolved target; it fails only where it is not admissible, a call raised or others kept interfering, and then the claim is given back or, in two named cases, stuck until it expires; a duplicate or ignored signal does nothing |
| InventoryHandlers.Reexamine | inventory/src/portscanner_inventory/handlers/signals.py:112-137 | A target that the signal no longer resolves to is removed only on a direct verdict, and no more is counted than was emitted |
| Outbox.StepKeeps | inventory/src/portscanner_inventory/handlers/outbox.py:54-116 | An act that pays what it owes (true hashes, no mark before the delivery) keeps every delivered row with its object and both pointers, and never changes an object |
| Outbox.LegalRunsKeep | inventory/src/portscanner_inventory/handlers/outbox.py:54-312 | Over every history in which all acts pay what they owe, by any number of dispatchers, delivered rows have their object and both pointers |
| Outbox.Dispatcher.EnsureObject | inventory/src/portscanner_inventory/handlers/outbox.py:257-290 | Afterwards the object holds the canonical event, written or verified, and has an immutable identity |
| Outbox.Dispatcher.DispatchRecord | inventory/src/portscanner_inventory/handlers/outbox.py:209-312 | A record reported as sent has its object, its pointers on the projection and the routed queue, and its row marked; wherever the call breaks off, its own acts are an initial part of object, projection, pointer, mark, and all of them pay what they owe, so that dispatchers justify each other; it fails only where a call failed or no attempt can succeed; records of other kinds change nothing |
| Outbox.Dispatcher.Replay | inventory/src/portscanner_inventory/handlers/outbox.py:339-376 | A replay that does not fail, over any rows whatever, has delivered every row still pending and counted just these; it fails only where a call failed or a row is malformed or hopeless |
| Operator.EnvKeepsInv | operator/internal/controller/job_builder.go:520-534 | Nothing that users, the Job controller or the clock do breaks the invariant |
| Operator.Reconciler.RequestJobDeletion | operator/internal/controller/scanner_controller.go:369-385 | The Scanner's own Job, if any, is being deleted, and nothing else has changed that others could not change |
| Operator.Reconciler.ReleaseJobFinalizer | operator/internal/controller/scanner_controller.go:394-409 | The Scanner's own Job, if any, is no longer protected; this happens only under a terminal or deleted Scanner |
| Operator.Reconciler.ReconcileTerminal | operator/internal/controller/scanner_controller.go:411-441 | A terminal Scanner keeps its status, its Job is released, and the Job of a stopped scan is being deleted; the Scanner is deleted when its retention is over |
| Operator.Reconciler.Retire | operator/internal/controller/scanner_controller.go:428-440 | The operator asks for the deletion of a terminal Scanner when its retention is over, and not before |
| Operator.Reconciler.ReconcileDeletion | operator/internal/controller/scanner_controller.go:443-467 | The Scanner goes only when it owns no Job; until then its Job is unprotected and being deleted |
| Operator.Reconciler.ReconcileJob | operator/internal/controller/scanner_controller.go:176-222 | A pass over an existing Job shows a collision, success before failure at the time the Job reports, the cutoff, a deletion, or the phase, exactly as the Job calls for |
| Operator.Reconciler.CreateJob | operator/internal/controller/scanner_controller.go:164-174 | The first creation is the only one; its run-time budget is the greatest number of whole seconds, at least one, that ends by the absolute cutoff |
| Operator.ActiveDeadline | operator/internal/controller/job_builder.go:207-227 | The whole seconds until the cutoff, or nothing exactly if less than one remains |
| Operator.Reconciler.StartJob | operator/internal/controller/scanner_controller.go:106-174 | Without a Job, a scan past its cutoff expires, and one that is invalid or has less than a second left is refused |
| Operator.Reconciler.Reconcile | operator/internal/controller/scanner_controller.go:48-222 | Every pass, wherever it breaks off, keeps the invariant and takes nothing back, and it breaks off only where a call failed or another Job had the name; one that comes through leaves the Scanner with its verdict or its Job |
| Operator.Life | operator/internal/controller/scanner_controller.go:48-475 | Over any life of a Scanner at most one Job is created, in time and with the longest budget that fits; the Scanner disappears only after its Job, and only if others delete it or its retention is over; a terminal status is final and complete, and "job missing" is never reported |
| Claims.StepKeeps | generator/src/portscanner_generator/idempotency.py:160-350 | Every successful conditional write continues a legal log |
| Claims.EveryRunIsLegal | generator/src/portscanner_generator/idempotency.py:123-350 | For every interleaving terminal states are absorbing and written once by the latest acquirer, a claimed item changes hands only after its lease ran out by the taker's clock, and the attempt count is the number of acquisitions |
| Claims.ClaimStore.Acquire | generator/src/portscanner_generator/idempotency.py:123-248 | Winning means having written the acquisition and being the last to; duplicate and busy are reported only of terminal and validly leased items; other failures only when others acted |
| Claims.ClaimStore.Complete | generator/src/portscanner_generator/idempotency.py:250-309 | Writes only as the owner; otherwise succeeds exactly if the same terminal state is there |
| Claims.ClaimStore.MarkRetryable | generator/src/portscanner_generator/idempotency.py:311-350 | Releases exactly the owner's own claim |
| Dispatch.OnlyProofDecides | generator/src/portscanner_generator/revalidation.py:46-91 | Dispatch, cancel and stale each require a credible answer that proves them, everything doubtful is retried, and a current generation is taken over only from a credible answer |
| Dispatch.ScannerClient.CancelMatching | generator/src/portscanner_generator/cancellation.py:46-81 | Deletes exactly the target's Scanners below the bound that are not spared, counts them, and deletes nothing if one has no valid generation |
| Dispatch.Handler.CancelTerminal | generator/src/portscanner_generator/handler.py:231-270 | Besides the event's own Scanner it deletes those of the target through the event's generation where that is proven gone, otherwise those below it or below the current generation that a stale answer named: all of them if it succeeds, and never another |
| Dispatch.Handler.Create | generator/src/portscanner_generator/handler.py:586-612 | Creates with the justification in place, records "dispatched" only after create returned, and changes nothing else in the cluster |
| Dispatch.Handler.DispatchScanner | generator/src/portscanner_generator/handler.py:464-612 | From the cancellation to the outcome: dispatched leaves the event's Scanner, anything else what the last check spares, with the true count |
| Dispatch.Handler.ProcessRecord | generator/src/portscanner_generator/handler.py:273-612 | Whatever the dependencies answer: create at most once, with claim, scope, two dispatch verdicts and a clock reading before both deadlines; only the event's own Scanner is new, and only such are deleted as the last check dooms; each terminal state is recorded for the reason it names, with the true count of cancellations; a record is retried only for a doubtful check, a failed call, an unreadable Scanner or a claim held elsewhere, and the claim given back |
| Ports.CanonicalIsUnique | scanner/nmap/src/portscanner_scanner/coverage.py:49-56 | A set of ports has only one sorted list of ranges with gaps between them |
| Ports.CountIsCardinality | scanner/nmap/src/portscanner_scanner/coverage.py:111-113 | The sizes of such a list add up to the number of ports |
| Ports.Normalize | scanner/nmap/src/portscanner_scanner/coverage.py:85-93 | Sorting and merging yields the canonical list of exactly the declared ports |
| Ports.Paint | operator/internal/controller/job_builder.go:234-248 | The bitmap shows exactly the selected ports, or the selection is out of bounds |
| Ports.Runs | operator/internal/controller/job_builder.go:264-275 | Run extraction yields the canonical list of exactly the painted ports |
| PortText.RenderedTermParses | scanner/nmap/src/portscanner_scanner/coverage.py:16-40 | A rendered range parses back to itself |
| PortText.SplitOfJoin | scanner/nmap/src/portscanner_scanner/coverage.py:59-62 | Splitting a joined list gives the terms back |
| PortText.ParseCoverage | scanner/nmap/src/portscanner_scanner/coverage.py:58-98 | Yields the canonical list of the declared ports, and fails exactly on a malformed term, too many terms or too many ranges |
| PortText.ValidatePortRanges | contracts/src/portscanner_contracts/models.py:500-515 | Accepts exactly the canonical lists |
| PortText.ValidateCanonicalPorts | contracts/src/portscanner_contracts/models.py:1084-1112 | Accepts exactly the renderings of canonical lists, and decodes them |
| PortText.PortSelection | generator/src/portscanner_generator/scanner_resource.py:92-107 | Single ports and ranges together select exactly the directive's ports |
| PortText.ExplicitPortCoverage | operator/internal/controller/job_builder.go:229-284 | Renders the canonical list of the selection, or the full range where the profile says so, and fails exactly on bad bounds, an empty targeted selection or too many runs |
| PortText.RoundTrip | operator/internal/controller/job_builder.go:229-284 | For every valid directive the range list comes back unchanged through split, bitmap, text, parser and contract validator |
| PortText.CandidateTcpPorts | inventory/src/portscanner_inventory/aws/signals.py:118-157 | The canonical list of exactly the ports that the permissions open, or the full range exactly where a permission does not name its ports, none concerns TCP, or the list exceeds a limit |
| XmlAccounting.CoverageRanges | parser/src/act_parser/xml_parser.py:43-71 | The merged ranges cover exactly the declared ports, and the count is their number over all protocols |
| XmlAccounting.ValidateCompleteXml | parser/src/act_parser/xml_parser.py:101-161 | Accepts exactly the sound documents whose listed ports are covered, distinct and stated, whose collapsed ports are not open, and whose covered but unlisted ports number exactly the collapsed sum |
| XmlAccounting.ParsePorts | parser/src/act_parser/xml_parser.py:259-335 | One observation for each listed port and no other, with the port, state, service and identity its node names; refused exactly if a node is malformed or two of them contradict each other about one port |
| XmlAccounting.MergeEnrichment | parser/src/act_parser/xml_parser.py:338-362 | Each port takes the last enrichment item about it, or stays as discovered; the listed ports, their states and addresses stay, and only open ports change; it is refused exactly on a conflict or a missing open port |
| XmlAccounting.AbsenceIsBounded | parser/src/act_parser/database.py:687-717 | An ingest closes no more ports by absence than the collapsed counts add up to, and none when there are none |
| ScanHandler.LoadObservations | parser/src/act_parser/handler.py:186-276 | A complete scan is taken exactly if its raw document accounts for the coverage and shows just the declared ports open, and its enrichment, needed where there are any, accounts for these and agrees; each observation has the raw state and, where enriched, the enrichment's details |
| ScanHandler.ProcessScanResult | parser/src/act_parser/handler.py:279-335 | From the documents to the store: an acceptable scan is ingested and any other changes nothing; whatever the store held, it closes no more unlisted ports than its raw document collapsed, and none if it collapsed none |
| Handoff.HandoffPublisher.PublishRow | parser/src/act_parser/handoff.py:32-78 | A row is published exactly when its object records its payload's hash; a failure is recorded with the row and means a failed call, a checksum mismatch or another object under the key; a mismatch writes no object |
| Handoff.HandoffPublisher.PublishPending | parser/src/act_parser/handoff.py:26-79 | A page publishes the first pending rows and lowers the pending count by as many |
| Handoff.HandoffPublisher.PublishAll | parser/src/act_parser/handoff.py:81-95 | Terminates for every page size; on normal return no matching handoff is pending and each has an object with its payload hash; it gives up only where a call failed or a pending row cannot be published |

## Left out

- The order of events across different services or fingerprints: each exposure and finding carries its own log.
- Exports.EveryEventIsQueuedOnce: the contract's rules for texts (lengths, character sets), under which an edited rule may make a document unpublishable, are not modelled; a handoff's own hash and object key are in `Handoff.dfy`.
- Repositories.Repository.IngestScan: the handoff keys that an operation answers with, among them those still pending of a repeated scan, are not returned.
- SQL text, table constraints, locking and connection handling: a transaction is atomic and an exception changes nothing.
- Hashing, JSON canonicalisation, timestamp parsing and identifier patterns: hashes are injective, identifiers are opaque ordered values.
- XML text parsing and address parsing: a document is its list of port nodes and collapsed counts, with one flag for the run and host checks; fetching and hashing the objects of a scan.
- ScanHandler.LoadObservations: results that are not complete, for which a malformed document stands for no observations; such scans never count.
- Unicode white space around coverage terms: stripping removes the ASCII white space characters, the four separator characters included.
- Convergence.OrderIndependentIffSettled: the scans are all those of the target's current generation; evidence of older generations is whatever rows it left. The rules are well formed and a bucket is configured, since the source rejects and retries scans otherwise.
- InventoryHandlers.ReconcileSnapshot: the number of pages and of validator calls in the summary.
- InventoryHandlers.ProcessSignal: parsing the control-plane event and resolving it are inputs; resolved targets are direct reads.
- Dispatch.ScannerClient.CancelMatching: nobody else creates or deletes Scanners during the call.
- Dispatch.Handler.ProcessRecord: reading the event from its notification and log output are inputs or omitted; a dispatcher that stalls past its lease may still act, so its properties are per run and fencing is stated on the claim table.
- Claims.EveryRunIsLegal: an item that a table expiry deletes and a lease missing from a claimed item are not modelled.
- Operator.Life: stale cache reads, and a Job of the same Scanner created by anyone but the operator, are excluded; observed generations, messages and conditions other than the ready and accepted ones are not kept.
- Outbox.Dispatcher.DispatchRecord: runs without delivery tracking configured, and rows deleted after their retention, are not modelled.
- Time to live of table items and objects, and clock differences between components.
- Job and Scanner construction apart from ports and deadlines, Nmap command lines, process control, settings, credentials, migrations and image tools: record building and input or output.
- The resolver, pagination and the normalisation of raw provider records.
