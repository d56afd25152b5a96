# Coordination control, leases and task delivery: a verified model

The repository lets several agents work side by side on one Git repository. Parents register the workspaces they
write in, share them, agree on how to reconcile them, and let their tasks act; a single service keeps one durable
record of it all. This project models the parts of that service where a mistake would lose or duplicate authority,
and proves what they promise.

**The coordination ledger.** The stored record holds works, cases, notes, submission announcements and bindings, and
three append-only ledgers (receipts, operator recoveries, submission events). `ControlTypes` is its data model.
`Ledger` and `Submissions` hold every mutating entry point as a function from the current record to a refusal, a
recorded answer or one publication. They are proved against two descriptions that judge records and not
operations: `Invariant`, the decoder's cross-record clauses, and `Transition`, the allowed-step relation that a
publication is checked against before it is written. `Shapes` says once what each entry point publishes. `Preservation`, `History`, `Retention`, `Licences`, `Steps` and
the `*Soundness` modules build up to `Runs`: every reachable record satisfies the first and every step the second.
`Retained`, `Fencing`, `Replay`, `Released`, `Capacity`, `Draining`, `Stranding`, `Applications`, `Proposals`, `Consent` and
`CaseRuns` say what follows over whole runs, `Effects` what one operation means for the parties, and `ObservedCases` which
clauses two of the operations do not keep. `ConcreteRuns` and `WorkerScene` build the runs of `ObservedRun`, `AdmissionRun`
and `StrandedRun`. `Lifecycle`, `LifecycleSteps`, `Preflight` and `BindingRuns` do the same for submissions.

**Peer-proposal lineage.** Counter-proposals form a graph. `AnswerGraph` proves the worklist search against
reachability, `Lineage` the recursive currency rule against the agreement it is there to guarantee, and `PeerRecords`
connects both to retained notes.

**Reservations across awaits.** `Service` holds each critical section of the service object, `ControlService` the object
itself with its sets and maps updated in place, and `World`, `Reservations`, `Exclusion`, `ServiceRuns` and `Suspension`
every interleaving of the sections.

**The repository lease** (`Lease`), **task admission and the worker pump** (`Scheduler`, `SchedulerRuns`, `Coordinator`),
**directed peer delivery** (`PeerDelivery`, `PeerDispatch`), **crash-resumable retirement** (`Retirement`) and **durable
input answers** (`InputProtocol`, `InputRuns`, `InputBroker`) are modelled as steps of processes, calls and crashes in any
order.

Objects whose methods update their fields are classes (`CoordinationControl`, `Coordinator`, `InputBroker`); each method is
proved equal to a function of its old value, and the theorems are about those functions. Loops of the source are loops
here. A publication is built on a clone of the current record that nothing else can see, so it is a value.

Assumptions. Two different requests never share a canonical hash, so a receipt holds the request itself. Random identities
are new, and a task identity is never that of a case or a note; `Steps.Admissible` says so where it is used. The size of
the serialized record is a parameter of each publication. The clock, the results of Git and the answers of authority callbacks are
parameters, or one more way to be refused. Process identities and file identities are not reused.

## Where the code and its own checks part

Some promises hold only under a condition. The code is modelled as it is; each has its exact condition and a run of
accepted operations, from an empty start, that meets the bad side.

- Delivery observation consults only the receipts, and application admission only the applications of one case, before
  they publish under a key (`Replay.ObservationKeysExact`, `Replay.AdmissionKeysExact`; `ObservedRun.ObservationKeyCollides`,
  `AdmissionRun.PendingKeyRepeats`). Decoding the result then fails, so the operation is refused late instead of answered.
- Reselecting the inputs of an observed case, and adopting a work that a case discloses, are not checked against the
  delivery and visibility clauses (`ObservedCases.ObservedKeptExactly`; `ObservedRun.ReselectionCanHarm`,
  `ObservedRun.AdoptionCanHarm`).
- A worker's open agreement can be withdrawn only while it is current and its run works in the case
  (`Stranding.SlotFreedExactly`). Closing or changing the case, a later version of a source, or the end of the task
  leaves it open, and its reserved slot held, for ever (`Stranding.StrandedForever`; `StrandedRun.AgreementStrands`).
- Activating a linked task queues it before a read that may fail; the pump is then not called (`SchedulerRuns.QuiescenceExact`;
  `SchedulerRuns.LostEntryWaits`).
- A crash inside the Git removal of a worktree can leave it half done; every rerun is then refused (`Retirement.RerunConverges`;
  `Retirement.BrokenRemovalBlocks`).
- A slot reservation may repeat an operation key with another digest and another source (`PeerDelivery.DigestExact`;
  `PeerDelivery.DigestCanConflict`); the store refuses it late.

## Model

| member | source | states |
|---|---|---|
| `Runs.Reachable` | src/contracts/coordination-control.ts:398-498 | Every state of every run from the empty control record satisfies the decoder's cross-record clauses: unique identities, one writer per workspace, one active case per target, grants and watches stamped with the current revision, watched regions within the inventory, no areas on a task that declared none, owner no reader, lead among the members, exact enrolments, exact history, keys once, lifecycle of submissions; the observed-case clauses and list bounds are named under "Left out" |
| `Runs.StepKeeps` | src/coordination/control.ts:413-532 | One accepted operation of any kind keeps the representation invariant, and the pair (before, after) it publishes is accepted by the allowed-step relation |
| `Runs.EveryStepAllowed` | src/contracts/coordination-control.ts:549-673 | Refinement over whole runs: every change of state is a step the independent allowed-step relation accepts |
| `Runs.AttemptSound` | src/coordination/control.ts:60-222 | Whatever entry point accepts an operation, its publication fits the records it changes, carries the receipt that licenses the change, and uses a key no ledger holds |
| `CommandSoundness.CommandSound` | src/coordination/control.ts:1857-1975 | All fifteen ordinary commands: an accepted command changes one record as its own receipt says, at the next revision, in a storage version that can hold it |
| `OperationSoundness.ExtendSound` | src/coordination/control.ts:248-308 | An accepted extension of an observed case adds exactly one managed input with its delivery debt, under a receipt for that extension |
| `OperationSoundness.ObserveSound` | src/coordination/control.ts:310-346 | An accepted delivery observation moves one pending recipient to observed and nothing else, under a receipt for it |
| `OperationSoundness.WorkerSound` | src/coordination/control.ts:539-700 | An accepted worker proposal, acknowledgment or withdrawal is a sound note change under a reserved worker key |
| `OperationSoundness.ApplicationSound` | src/coordination/control.ts:957-1013 | The pending and outcome records of a task application are sound note additions |
| `OperationSoundness.RecoverSound` | src/coordination/control.ts:1976-2017 | An accepted operator recovery makes the touched record exactly what the recovery command names |
| `SubmissionSoundness.SubmitSound` | src/coordination/control.ts:60-222 | Announce, withdraw, bind, settle, release and terminal each append one event and keep the lifecycle clauses, and the submission half of the allowed-step relation accepts them |
| `Steps.OrdinaryKeeps` | src/contracts/coordination-control.ts:549-673 | A sound ordinary publication keeps records, references, enrolments, versions, history and keys, and is an allowed step |
| `Steps.RecoveryKeeps` | src/contracts/coordination-control.ts:722-755 | The same for a recovery publication, against the recovery half of the relation |
| `Licences.OrdinaryAllowed` | src/contracts/coordination-control.ts:549-673 | A change that fits, with a licensed touched record, is allowed as a whole: every untouched record is provably unchanged |
| `Licences.RecoveringAllowed` | src/contracts/coordination-control.ts:722-755 | The recovery relation holds of a publication whose one touched record is the one the command names |
| `Licences.SubmittingAllowed` | src/contracts/coordination-control.ts:675-720 | The submission relation holds of a publication that leaves works, cases, notes and receipts alone |
| `History.HistoryKept` | src/contracts/coordination-control.ts:463-464 | Appending one entry at the next revision keeps the three ledgers holding exactly the revisions from one to the current one |
| `History.EveryRevisionOnce` | src/contracts/coordination-control.ts:463-464 | Each revision is acknowledged by exactly one entry of the three ledgers, none lies beyond the current one, and their lengths add up to it |
| `History.KeysKept` | src/contracts/coordination-control.ts:417 | A publication keeps one entry per owner and key if and only if no ledger already holds its key |
| `Retention.EnrollmentKept` | src/contracts/coordination-control.ts:420-433 | Every managed work keeps exactly one enrolment receipt, whose request still describes it |
| `Runs.OneEntryPerKey` | src/contracts/coordination-control.ts:417 | Over every run an owner's key has at most one entry across all three ledgers, and each revision exactly one |
| `Retained.AllowedIsLater` | src/contracts/coordination-control.ts:549-673 | Between records with unique identities the allowed-step relation, whoever computed the step, implies that ledgers only grow, a work keeps all it was registered with, the same revision is the same record but for delivery lists, note text, audience and parties stand, acknowledgments grow by suffix, withdrawal is final, a binding keeps its link and never leaves released or ended, and nothing closed reopens |
| `Retained.LaterTransitive` | src/contracts/coordination-control.ts:549-673 | The retained-history order composes, so it is a statement about runs |
| `Retained.NothingIsLost` | src/contracts/coordination-control.ts:549-673 | Any state of a run retains everything of any earlier one: every record, binding and ledger entry in place, no reopened work, case or binding |
| `Runs.AnnouncementsFollowHistory` | src/contracts/coordination-control.ts:472-482 | In every reachable state an announcement's revision is its count of announce, withdraw, bind, settle and release events, and it is bound or linked exactly while its one live binding holds it |
| `Runs.BindingsFollowHistory` | src/contracts/coordination-control.ts:483-491 | Each binding's state is the one its ordered history spells under one owner, and an owner's request key has at most one binding that was not released |
| `LifecycleSteps.AnnounceKeeps` | src/coordination/control.ts:60-82 | A new announcement starts its own history and disturbs no other |
| `LifecycleSteps.WithdrawKeeps` | src/coordination/control.ts:92-111 | Withdrawing an unresolved announcement counts once and leaves every binding as it was |
| `LifecycleSteps.BindKeeps` | src/coordination/control.ts:121-162 | Binding a task keeps every lifecycle clause, whether it was announced or not: the announcement it is for is held by exactly the new binding, and every other one as before |
| `LifecycleSteps.MoveKeeps` | src/coordination/control.ts:172-222 | Settling, releasing and terminal evidence move one binding one step along its history, and the announcement it is for with it, and keep every lifecycle clause |
| `Fencing.GenerationNamesOneLead` | src/coordination/control.ts:1938-1970 | Over a whole run a target's generation belongs to one case under one lead, across claim, transfer, release, a new claim and operator adoption |
| `Fencing.ActiveIsGreatest` | src/coordination/control.ts:1938-1970 | In every reachable state an active case is its target's only active one and has its greatest generation |
| `Fencing.OtherGenerationRefused` | src/coordination/control.ts:1844-1853 | A command, extension, observation, outcome or recovery naming a case under any generation but its current one changes nothing |
| `Fencing.FencedForever` | src/coordination/control.ts:1844-1853 | Once a case has moved past a generation, no operation carrying the old one ever changes the ledger again |
| `Shapes.UsedKeyPublishesNothing` | src/coordination/control.ts:442-453 | No operation that looks its key up in every ledger publishes under a key some ledger already holds; delivery observation and application admission do not, and have their own exact rows |
| `Replay.RepeatReturnsReceipt` | src/coordination/control.ts:449-453 | Repeating an accepted request returns its own recorded receipt in every later state and changes nothing, unless a guard that runs before the key lookup refuses it; which guards is stated exactly |
| `Released.ReleasedIsSettled` | src/coordination/control.ts:420-434 | After an accepted release the case never again holds an application that is neither applied nor rejected |
| `Released.CommandAlwaysAnswered` | src/coordination/control.ts:413-453 | So no guard ever stops the repetition of an accepted command, releases included: it is answered by its own receipt for ever |
| `Replay.OtherContentRefusedForEver` | src/coordination/control.ts:449-453 | Other content under a recorded key is refused in every later state of the run |
| `Replay.RepeatReturnsRecovery` | src/coordination/control.ts:1183-1187 | A repeated recovery returns its recovery receipt in every later state |
| `Replay.RepeatReturnsSubmission` | src/coordination/control.ts:1563-1572 | A repeated submission returns the announcement or binding it created, as it now stands |
| `Replay.ObservationKeysExact` | src/coordination/control.ts:322-326 | Delivery observation looks its key up in the receipts alone: keys stay unique if and only if neither other ledger holds it |
| `ObservedRun.ObservationKeyCollides` | src/coordination/control.ts:322-326 | A run of accepted operations from the empty record after which the lead observes a delivery under the key of its own announcement: it is a candidate, and its key then names two entries |
| `Replay.AdmissionKeysExact` | src/coordination/control.ts:956-977 | Application admission looks its key up among one case's applications: keys stay unique if and only if no receipt holds it |
| `AdmissionRun.PendingKeyRepeats` | src/coordination/control.ts:956-977 | A run of accepted operations from the empty record after which one task run applies its operation key in a second case: it is admitted, and its pending key is acknowledged twice |
| `ObservedCases.ObservedKeptExactly` | src/contracts/coordination-control.ts:447-457 | An accepted operation keeps the delivery and visibility clauses of observed cases if and only if it is harmless, a guard a caller can check; only a reselection and a work adoption can fail it |
| `ObservedCases.ReselectionExact` | src/coordination/control.ts:1950-1957 | A reselection keeps the clauses if and only if the new inputs contain everything pending, observed or disclosed |
| `ObservedRun.ReselectionCanHarm` | src/coordination/control.ts:1950-1957 | A run whose next operation, a reselection that drops a pending input, is accepted and takes a record whose observed-case clauses hold to one that owes a delivery outside its inputs |
| `ObservedRun.AdoptionCanHarm` | src/coordination/control.ts:1984-1991 | A run whose next operation, an adoption by the member a work was disclosed to, is accepted and takes a record whose clauses hold to one whose new owner is an added reader of its own work |
| `Capacity.PublishGain` | src/contracts/coordination-control.ts:540-546 | The reserve moves by exactly the weight a publication moves and the ledgers by one entry |
| `Capacity.ReleaseNeverStarves` | src/coordination/control.ts:2022-2031 | If the capacity check holds, it holds after any accepted close, complete revocation, release, external settlement, agreement or announcement withdrawal, terminal evidence or unannounced release, including the recoveries that do the same, and exactly one slot is spent |
| `Capacity.DrainFits` | src/coordination/control.ts:2022-2031 | A series of accepted release operations never meets the limit, and the reserve is its exact termination measure |
| `Capacity.DispositionNeedsRoom` | src/coordination/control.ts:193-222 | Settling, and releasing an announced binding, leave the reserve as it is: they fit if and only if one more entry fits beside it |
| `Draining.SomeReleaseIsOpen` | src/coordination/control.ts:2022-2031 | Whatever the reserve holds beyond bound announcements and worker agreements that are exactly not withdrawable, some release operation is accepted now, by an owner, a lead, the posting worker or the operator |
| `Stranding.SlotFreedExactly` | src/coordination/control.ts:643-660 | In every record that satisfies the invariant, some accepted operation withdraws a worker's open agreement if and only if the proposal is current, names the case's present tasks, and the posting run is still a bound worker of the case |
| `Stranding.StrandedForever` | src/coordination/control.ts:1741-1752 | Once its case has closed, its case or source revision is passed, or its poster's binding has ended, an open worker agreement stays open in every later state of the run, and no operation there frees its slot |
| `StrandedRun.AgreementStrands` | src/coordination/control.ts:1741-1745 | A run of accepted operations from the empty record that ends so in a case still active, with its task still bound: the lead chose the inputs again |
| `AnswerGraph.SearchIsReachability` | src/coordination/control.ts:1700-1706 | The worklist search terminates and finds an accepted vertex if and only if one is reachable along answers |
| `AnswerGraph.SearchFindsPath` | src/coordination/control.ts:1700-1706 | Whenever the search says yes, some pending digest leads to an accepted vertex by an actual path |
| `AnswerGraph.SearchMissesNothing` | src/coordination/control.ts:1700-1706 | Whenever the search says no, no pending or expanded digest leads to an accepted vertex |
| `AnswerGraph.Expand` | src/coordination/control.ts:1700-1706 | The inner loop: fresh answers are remembered and pushed in order, and an accepted one stops it |
| `AnswerGraph.SearchLoop` | src/coordination/control.ts:1700-1706 | The two nested loops together decide reachability of an accepted vertex |
| `Lineage.PeerProposalSuperseded` | src/coordination/control.ts:1691-1706 | Superseded means exactly that an acknowledged, unwithdrawn descendant is reachable by predecessor digest in the same evidence without touching the ignored note |
| `Lineage.LineageAgreement` | src/coordination/control.ts:1741-1757 | Of all proposals descending from one root in one evidence context, along one branch or several and whatever was withdrawn in between, at most one fully acknowledged proposal is current |
| `Lineage.CurrentChain` | src/coordination/control.ts:1741-1757 | A current descendant forces every link above it to stand: the oldest is current once its own edge is ignored, and no link is withdrawn or repeated |
| `Lineage.ChainRevision` | src/coordination/control.ts:1707-1713 | Along a current chain the proposal revisions count the links |
| `Lineage.LineageGuardIsIdle` | src/coordination/control.ts:1679-1687 | The guard against revisiting a note never decides the worker-lineage walk, because revisions fall along it |
| `Lineage.RootsAreIndependent` | src/coordination/control.ts:1741-1757 | Agreement does not extend across roots: two independent roots of one context can both be acknowledged and current |
| `Proposals.LineagesDoNotBranch` | src/coordination/control.ts:1766-1817 | In every reachable state a digest names one proposal of its context and no proposal has two unwithdrawn answers |
| `Proposals.DigestFindsProposal` | src/coordination/control.ts:1714-1720 | So looking a proposal up by its digest always finds exactly it |
| `PeerRecords.EntriesUnique` | src/coordination/control.ts:1658-1664 | Unique note identities carry over to every evidence context, so lineage agreement applies to retained notes |
| `PeerRecords.ApplicationsAgree` | src/coordination/control.ts:1758-1765 | Two current applications resting on one lineage rest on the same proposal |
| `Applications.OneLiveApplication` | src/coordination/control.ts:861-1022 | In every reachable state a case has at most one application that was not recorded as rejected |
| `Applications.SecondApplicationRefused` | src/coordination/control.ts:906-916 | A second application of a case under any other key is refused until the first is recorded as rejected |
| `Applications.AdmissionMeans` | src/coordination/control.ts:871-887 | A task applies only its own run's proposal, current and acknowledged by every party it names, and the pending record names that proposal in that evidence |
| `Applications.OutcomeFollowsAdmission` | src/coordination/control.ts:984-1015 | In every reachable state the entry of an outcome has the entry of its own admission before it, under the same owner, task, run and operation |
| `Preflight.GatedBindSawEverything` | src/coordination/control.ts:1578-1604 | A gated submission is bound only if every work it overlaps, as far as its owner may read, is as its preflight showed it: nothing appeared, changed or went away between |
| `Preflight.WorkIsShown` | src/coordination/control.ts:1586-1590 | A work is shown to a submission exactly when it is active, readable to the caller and shares an area |
| `Preflight.SharedExactly` | src/coordination/control.ts:2019-2021 | The shared areas are exactly those that meet one of the others |
| `Preflight.BoundToItsAnnouncement` | src/coordination/control.ts:121-163 | A binding to an announcement is for exactly the announced assignment at its current revision, and no second task can be bound to it |
| `Preflight.AnnouncementSays` | src/coordination/control.ts:60-82 | An announcement says what was submitted, is read by its owner and listed readers only, and its identity is never reused |
| `BindingRuns.BoundAsDecided` | src/coordination/control.ts:121-163 | Every binding of a reachable state was made by its owner's accepted submission, and its link still carries the decision that submission took on the record of its time |
| `BindingRuns.DisposedByItsOwner` | src/coordination/control.ts:172-222 | A binding of a reachable state that is settled, released or ended was made so by an accepted call of its owner that named its request and the very link it was bound with, and its terminal evidence is what that call gave |
| `Effects.RegisteringMeans` | src/coordination/control.ts:1859-1874 | A registration takes a free workspace, records what was submitted with no grant, and holds the workspace against the next registration |
| `Effects.ClaimingMeans` | src/coordination/control.ts:1938-1946 | A claim outranks every earlier generation of its target and excludes the next claim |
| `Effects.TransferringMeans` | src/coordination/control.ts:1958-1962 | After a transfer the old lead is refused under any version it names |
| `Effects.ReleasingMeans` | src/coordination/control.ts:1970-1972 | A released case takes no further command from anybody under any version |
| `Effects.ExtensionDiscloses` | src/coordination/control.ts:273-300 | Right after an extension every member can read every selected work, the added one included, and the whole delivery debt starts again |
| `Effects.LoansEndWithAnyChange` | src/coordination/control.ts:1615-1622 | What an observed case lends ends with any later version of the work: it is then read by its owner and readers alone |
| `Effects.AudienceIsFixed` | src/coordination/control.ts:1635-1643 | Who was outside a note's named audience when it was posted cannot read it in any later state of the run |
| `Effects.PostedAudience` | src/coordination/control.ts:1906-1919 | A note on a work names exactly the parents that can read the work |
| `CaseRuns.EffectHolds` | src/coordination/control.ts:1948-1973 | Over a run: from the moment an external effect is possible the case stands as it is, but for its delivery lists, until its lead or the operator settles the effect |
| `CaseRuns.EffectHasInputs` | src/coordination/control.ts:1963-1966 | In every reachable state a possible effect is over recorded inputs and a target observation |
| `CaseRuns.MembersWereShown` | src/coordination/control.ts:1950-1957 | Whoever is a member of a case in a reachable state could read each of its inputs when it came to hold it, at the selection, extension or adoption that gave it the one or the other |
| `Consent.ConsentIsGiven` | src/coordination/control.ts:1920-1937 | Every acknowledgment in a reachable state was given by an accepted call of the very party it names: a parent for itself and never on a task's note, a task by its own worker |
| `Consent.WithdrawalIsTheAuthors` | src/coordination/control.ts:1920-1937 | Every withdrawal in a reachable state was made by the note's author, never on a task's note, or by the run whose task posted it |
| `Consent.WithdrawnIsFinal` | src/coordination/control.ts:1920-1937 | A withdrawn note is exactly the same in every later state of the run: nobody acknowledges it any more |
| `ControlService.CoordinationControl.Publish` | src/coordination/control.ts:1086-1089 | A candidate is written exactly when it passes the capacity check and decodes; otherwise the record stands |
| `ControlService.CoordinationControl.PrepareSourceCommand` | src/coordination/control.ts:348-379 | The read before a source inspection answers a known key, refuses what the caller may not select, and otherwise captures each selected task's version |
| `ControlService.CoordinationControl.VersionsCurrent` | src/coordination/control.ts:459-463 | The loop accepts exactly when every captured task is unretired at its captured version |
| `ControlService.CoordinationControl.CaptureVersions` | src/coordination/control.ts:371-377 | The loop captures, in order, every selected managed task with its version now |
| `ControlService.CoordinationControl.Execute` | src/coordination/control.ts:413-532 | One ordinary section: reservations, keys, captured versions, retirements and busy cases are checked before one publication |
| `ControlService.CoordinationControl.Extend` | src/coordination/control.ts:248-308 | One extension section, refused while the case or any of its tasks is reserved, in transition or retiring |
| `ControlService.CoordinationControl.RecoverAuthorized` | src/coordination/control.ts:1170-1209 | One recovery section, refused on a reserved case or a work it selects |
| `ControlService.CoordinationControl.WorkerPeerOperation` | src/coordination/control.ts:539-700 | One worker mutation, against the revision and epoch its authority was checked at |
| `ControlService.CoordinationControl.AdmitApplication` | src/coordination/control.ts:942-977 | Admission publishes its pending record at most once and reserves the case |
| `ControlService.CoordinationControl.PublishApplicationOutcome` | src/coordination/control.ts:984-1015 | The outcome is published against the captured case version |
| `ControlService.CoordinationControl.BeginCasePublication` | src/coordination/control.ts:835-857 | A disclosure of source detail rechecks the captured revision and epoch and reserves the case |
| `ControlService.CoordinationControl.AffectedCases` | src/coordination/control.ts:1027-1029 | One pass finds exactly the active cases that select the task |
| `ControlService.CoordinationControl.BeginTransition` | src/coordination/control.ts:1025-1043 | A transition reserves exactly its cases and advances the epoch, or is refused |
| `ControlService.CoordinationControl.ReserveRetirement` | src/coordination/control.ts:1323-1343 | A task is reserved for retirement only while no active case selects it, and an enrolled one gets a new version |
| `World.CallPublishes` | src/coordination/control.ts:1086-1089 | No section changes the stored record except by publishing what its ledger operation accepts |
| `World.CallKeeps` | src/coordination/control.ts:1086-1089 | Every section keeps the ledger invariant and everything retained, and moves the stored record only by one publication of its ledger operation |
| `Reservations.ReservedKept` | src/coordination/control.ts:835-1022 | Every section, in any order, keeps reserved cases out of transitions and every admitted application and disclosure standing |
| `Reservations.StandingKept` | src/coordination/control.ts:430-441 | An operation that respects the reservations leaves the reserved case's revision, generation and inputs and the revisions of the works it selects |
| `Reservations.AdmittedStands` | src/coordination/control.ts:942-977 | Right after admission the captured version is the stored one |
| `ServiceRuns.EveryWorld` | src/coordination/control.ts:835-1065 | The ledger invariant, the reservations and the retirement exclusion hold after every section of every interleaving |
| `ServiceRuns.ReservationHolds` | src/coordination/control.ts:835-1022 | While a case is reserved, by an application or by a disclosure of source detail, it is held by exactly one of them, is in no transition and has the version, inputs and selected revisions that were captured with it |
| `ServiceRuns.OutcomeNeverStale` | src/coordination/control.ts:993-997 | The case-version test before an outcome is published never fails for an application that holds its case |
| `Exclusion.ExclusiveKept` | src/coordination/control.ts:1323-1350 | Every section keeps retiring tasks unselected |
| `ServiceRuns.NeverRetiredAndSelected` | src/coordination/control.ts:1323-1350 | In no interleaving is a task both being retired and selected by an active case |
| `ServiceRuns.VersionWitnesses` | src/coordination/control.ts:459-463 | From a moment an enrolled task is not retiring: while its version stands, it has not been retiring since |
| `ServiceRuns.OverlapIsRefused` | src/coordination/bound-control.ts:165-200 | A selection or reported effect whose source inspection overlapped any part of a retirement of a selected task is refused when it commits |
| `Suspension.SuspendedWorkerRefused` | src/coordination/control.ts:1024-1065 | A worker operation whose authority was checked before some task's transition or cancellation is refused after it, at whatever revision |
| `Suspension.SuspendedApplicationRefused` | src/coordination/control.ts:927-948 | An application captured before a transition or cancellation is never admitted after it |
| `Suspension.OnlyTheOutcome` | src/coordination/control.ts:1096-1110 | While a case is reserved by an application or one of its tasks is changing hands, its peer record grows only by the outcome of the application that holds it |
| `Lease.MutualExclusion` | src/core/lease.ts:67-142 | Over all interleavings of acquire, crash, release and reclaim at most one live process holds the lease, and the path names its file |
| `Lease.ReclaimsOnlyTheDead` | src/core/lease.ts:159-281 | A reclaim unlinks the file it validated, whose recorded owner is dead, and never a live attempt's lock |
| `Lease.LockAlwaysOwned` | src/core/lease.ts:67-142 | Whatever crashes when, a visible lock has a complete owner record |
| `Lease.HolderKeepsItsLock` | src/core/lease.ts:98-127 | A live holder's heartbeat and release always find their own file |
| `Lease.DeadLockIsFreed` | src/core/lease.ts:192-314 | From any state with a dead owner's lock one live process running a reclaim to its end frees the path and touches no attempt |
| `Lease.FreePathIsTaken` | src/core/lease.ts:67-97 | On a free path an undisturbed attempt ends holding the lease, and no other attempt moves |
| `Lease.CrashedLeaseIsTaken` | src/core/lease.ts:67-314 | In every reachable state whose lock belongs to a dead process, a live one that finds the guard free can reclaim the path and take the lease, leaving every other attempt as it was |
| `Lease.StepKeeps` | src/core/lease.ts:67-314 | One file or process step keeps the lease invariant |
| `SchedulerRuns.AdmissionIsBounded` | src/core/coordinator.ts:418-537 | Reservations with unfinished tasks, counted once each, never exceed workers plus queue, unless the service already started beyond that |
| `SchedulerRuns.SlotsAreBounded` | src/core/coordinator.ts:638-662 | Running slots are exactly the running entries and never exceed the workers |
| `SchedulerRuns.LeavesOnce` | src/core/coordinator.ts:638-662 | Each accepted entry is queued once, leaves the queue at most once and never returns |
| `SchedulerRuns.QuiescenceExact` | src/core/coordinator.ts:539-551 | At quiescence no cancelled entry waits, and a runnable entry waits beside a free slot if and only if some earlier activation of the run queued its entry, failed to read it back, and no pump pass has followed |
| `SchedulerRuns.LostEntryWaits` | src/core/coordinator.ts:539-551 | A run from an empty service in which it happens: the entry is queued, the read fails, nothing pumps |
| `SchedulerRuns.RequestHasOneTask` | src/core/coordinator.ts:418-496 | Once a request has its task, submitting or reserving it again finds that task and creates none for ever; another intent, owner or recovered identity is refused |
| `SchedulerRuns.StepKeeps` | src/core/coordinator.ts:418-662 | Every step keeps keys, entries, queue and pump consistent |
| `SchedulerRuns.PassSplits` | src/core/coordinator.ts:640-648 | A pump pass splits the queue into what settles, what starts and what stays, with every entry once |
| `Coordinator.Coordinator.CountUnfinished` | src/core/coordinator.ts:430-433 | The loop over retained tasks counts reservations plus unfinished tasks not covered by one |
| `Coordinator.Coordinator.Submit` | src/core/coordinator.ts:418-451 | Plain admission |
| `Coordinator.Coordinator.Reserve` | src/core/coordinator.ts:461-496 | Coordinated reservation, also under an identity recovered from metadata |
| `Coordinator.Coordinator.CommitReserved` | src/core/coordinator.ts:498-537 | The reserved task becomes durable under its reserved identity and stays off the queue |
| `Coordinator.Coordinator.ActivateLinked` | src/core/coordinator.ts:539-577 | Settling the link gives up the reservation and queues the task once; the pump call depends on the confirming read |
| `Coordinator.Coordinator.TakeUp` | src/core/coordinator.ts:565-577 | A covered task's reservation is deleted and the task queued only if it can still run |
| `Coordinator.Coordinator.ReleaseUnadmitted` | src/core/coordinator.ts:578-585 | Only the exact token of a task that never became durable is released |
| `Coordinator.Coordinator.SplitQueue` | src/core/coordinator.ts:641-642 | The filter loop separates cancelled from waiting entries, each in order |
| `Coordinator.Coordinator.FillSlots` | src/core/coordinator.ts:644-646 | The slot loop starts exactly the head of the queue that fits |
| `Coordinator.Coordinator.PumpPass` | src/core/coordinator.ts:640-647 | The whole pass under the mutex |
| `Coordinator.Coordinator.PumpEnd` | src/core/coordinator.ts:648-650 | The pump starts over exactly when cancelled or startable entries wait |
| `Coordinator.Coordinator.Kick` | src/core/coordinator.ts:638-639 | A call starts a pump only when none is running |
| `Coordinator.Coordinator.Finish` | src/core/coordinator.ts:656-658 | A finished entry gives back its slot if it had one |
| `PeerDelivery.SlotsAlwaysOk` | src/contracts/tasks.ts:151-175 | In every order of reservations, deliveries, releases and dispatches through the store, retained deliveries plus reserved slots stay within 64, so does the list of slots, slots are unique, an operation has one digest, and every consumed slot matches a delivery for the same case, source and recipient versions |
| `PeerDelivery.ReserveSlots` | src/core/coordinator.ts:188-210 | The draft-growing loop is all or nothing: the first refusal drops the draft |
| `PeerDelivery.ReservationCovers` | src/core/coordinator.ts:166-211 | An accepted reservation covers every source of its bundle and keeps the capacity |
| `PeerDelivery.EnqueueKeeps` | src/core/coordinator.ts:213-298 | Queueing keeps the slot clauses, and consuming a slot conserves deliveries plus reserved slots |
| `PeerDelivery.ReservedNeverFull` | src/core/coordinator.ts:213-298 | A delivery with a matching reserved slot is never refused for capacity |
| `PeerDelivery.ReleaseKeeps` | src/core/task-control.ts:148-193 | A release keeps the clauses and unbinds nothing that was consumed |
| `PeerDelivery.DigestExact` | src/contracts/tasks.ts:169-175 | The draft of a whole reservation has one digest per operation if and only if the bundle asks for nothing or the operation's slots already carry its digest |
| `PeerDelivery.DigestCanConflict` | src/core/coordinator.ts:166-211 | A run in which an operation repeated with another digest and another source gets its slot in the draft, is refused late by the store, and leaves the record as it was |
| `PeerDispatch.DispatchedOnce` | src/core/coordinator.ts:299-350 | Under interleaved revision-checked retries each delivery enters dispatch at most once |
| `PeerDispatch.DispatchInOrder` | src/core/coordinator.ts:299-350 | Dispatches follow the order of the queue |
| `PeerDispatch.DispatchTakesHead` | src/core/coordinator.ts:305-325 | A dispatch takes the head of the queue, from a call whose check read exactly the control it commits to |
| `PeerDispatch.DispatchWasChecked` | src/core/coordinator.ts:305-325 | A dispatch commits on the very control its validity was checked against, with a settled turn and no obligations |
| `PeerDispatch.NeverBack` | src/core/coordinator.ts:299-412 | No delivery is lost, returns to the queue or leaves a final state |
| `PeerDispatch.ObservedWasDelivered` | src/core/coordinator.ts:366-412 | An observed delivery was delivered at an earlier step, for the same native turn and session |
| `Retirement.TipRetained` | src/core/disposition.ts:80-112 | At every point of every run, whatever failed or crashed, the task tip is reachable from the task branch or the protection ref |
| `Retirement.RunOrdered` | src/core/disposition.ts:80-106 | Nothing is removed before the durable intent, the branch only after the worktree, and done only after retired |
| `Retirement.RerunConverges` | src/core/disposition.ts:15-113 | From any crash point, one inside the Git removal of the worktree included, rerunning the operation undisturbed ends retired and done if and only if nobody else moved the branch, took the archive name or dropped the accepted commit, and the worktree is registered and whole or neither registered nor there |
| `Retirement.BrokenRemovalBlocks` | src/core/disposition.ts:46-54 | For every archiving task, a run of it in which the removal dies with the registration kept and the files gone: nobody moved anything, and the rerun is refused |
| `Retirement.ArchiveStep` | src/core/disposition.ts:85-90 | The archive step completes if and only if the archive name is free or already names the tip |
| `InputRuns.ResolvedOnce` | src/core/input-broker.ts:51-79 | Each native request is resolved at most once, and with the answer that is durable for it |
| `InputRuns.IntentIsDurableFirst` | src/core/input-broker.ts:67-77 | A native request is resolved only by a step whose state already holds its answer as durable intent |
| `InputRuns.RetryDispatchesNothing` | src/core/input-broker.ts:55-57 | Over a run: after an accepted answer every later call under its key leaves the broker unchanged; the same contents in the current generation return that receipt, anything else is refused |
| `InputRuns.ClaimNeverPasses` | src/core/input-broker.ts:34-44 | Over a run: between two different claims on an input there is a state in which nobody holds it |
| `InputRuns.ClaimsAreCurrent` | src/core/input-broker.ts:34-44 | A claim stands only on a pending input in the current control generation |
| `InputRuns.OnlyForward` | src/core/input-broker.ts:13-93 | Over a run with recovery and the operator's assertion on open and closed tasks, correlation and task ends: an input's state only moves forward, settled and withdrawn are final, and nothing becomes pending again |
| `InputRuns.AnswersAreNotDropped` | src/core/recovery.ts:125-204 | A durable answer, on its way or of unknown delivery, is withdrawn only once the worker's stop is reconciled: by the recovery after it, whatever the task's phase, or by the operator's own assertion |
| `InputBroker.InputBroker.Find` | src/core/input-broker.ts:37 | The search finds the first input with the identity |
| `InputBroker.InputBroker.ClaimInput` | src/core/input-broker.ts:34-44 | The claim is edited in place or refused |
| `InputBroker.InputBroker.Answer` | src/core/input-broker.ts:51-68 | Intent, key and receipt are written together and only then owed to the waiter |
| `InputBroker.InputBroker.Deliver` | src/core/input-broker.ts:70-78 | The owed answer resolves its waiter or its delivery is recorded as unknown |
| `InputBroker.InputBroker.Withdraw` | src/core/input-broker.ts:80-88 | The loop withdraws exactly the pending inputs of the native request in the current turn and rejects their waiters |
| `InputBroker.InputBroker.SettleTurn` | src/core/input-broker.ts:89-93 | The loop settles exactly the turn's answered inputs |

## Left out

- Runs.Reachable: the delivery and visibility clauses of observed cases are not part of its invariant, because two operations do not keep them; `ObservedCases.ObservedKeptExactly` says exactly when they hold.
- Runs.Reachable: Git object formats, list bounds (64 parties, 64 selected inputs, the number of announcements and records) and the dialect overrides of watched regions are left to the decoder and are not modelled, except the party bound that recovery checks itself and the watched regions.
- Replay.RepeatReturnsReceipt: a worker that no longer takes part in the case is refused before its key is looked up, as in the code, so its repetition is answered only while it does; the two steps of a task application are covered by `Replay.AdmissionKeysExact` and `Applications.SecondApplicationRefused`.
- SchedulerRuns.LeavesOnce: `left`, the order in which entries left the queue, is kept for the statement and is not a field of the coordinator.
- SchedulerRuns.AdmissionIsBounded: tasks retained from an earlier service may already exceed the bound, so it is stated as "never beyond the bound, or beyond where the service started".
- Coordinator.Coordinator.PumpPass: the pump's failure path, which freezes admission, is the `Freeze` step of the run and not a branch of the pass.
- PeerDispatch.DispatchedOnce: the bound on retries of one call is not modelled; any number of them is allowed.
- Lease.MutualExclusion: legacy directory locks with their sidecar owner file, ownership and permission checks on lock files, heartbeat timing and reuse of process ids are not modelled.
- Lease.DeadLockIsFreed: shows that one undisturbed reclaim frees the path, not that some process eventually runs one.
- Retirement.RerunConverges: a worktree that others make dirty or lock, one repaired by hand after a broken removal, unfinished Git operations, branches in use elsewhere, private resources and the retained disposition are refusals before the durable intent and are not modelled.
- InputRuns.ResolvedOnce: the recorded turn, digest and offered choices of an input enter as one check made when it is answered; the bound on pending requests is not modelled.
- InputRuns.OnlyForward: the guards of native correlation on session, coverage and obligations, and those of recovery on results and resources, enter as one check each; recovery is also allowed on a terminal task, which it leaves alone in the code.
- Stranding.StrandedForever: lists the causes that last; a proposal that an acknowledged counter-proposal supersedes is not among them, because that counter-proposal may be withdrawn again.
- Suspension.SuspendedWorkerRefused: the bounded retry of an acknowledgment after an unrelated revision is a second call with a new check, not a separate branch.
- The lease object's `state`, `assertOwned` and callbacks, and the `#sourceOperations`, `#pending` and `#closing` bookkeeping of the bound control, add no property beyond refusing calls after close.
- An application request also repeats the versions and digest of the proposal it names; a mismatch is one more refusal.
- Worker inspection, waits and their refresh, capture evidence and consent callbacks: external authority; the sections they guard are modelled, the callbacks are not.
- Field-level decoding, JSON layout, byte counts of text, storage upgrades beyond what the allowed-step relation checks, dialect overrides: one-branch facts.
- `apply` and `applyRecovery` edit a private clone; the model builds the changed record as a value, so it does not capture the clone's aliasing.
- Where several refusals apply to one call the model may name another error than the code; every accepted call and its effect agree.
- Git subprocess calls, worktrees, native worker execution, artifacts, publication fences between tasks, shutdown and loss of authority: external effects.
- Overlap reports, receipts on request and other read-only views: they would only add easy members.
