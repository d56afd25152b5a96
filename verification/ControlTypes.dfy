/** The records of the coordination control ledger: works, cases, notes, announcements,
    submission bindings and the three append-only ledgers that acknowledge every change.

    A request hash is modelled by the request it hashes (`Request`): the hash is taken to
    be injective, and only equality of hashes is ever used.  Identities are opaque strings.
    A serialized byte length is carried beside the value it measures. */
module ControlTypes {
  type Id = string
  type ParentId = string
  type Oid = string
  type Digest = string

  datatype Option<+T> = None | Some(value: T)

  const MAX_PARTIES: nat := 64
  const MAX_REGIONS: nat := 256
  const CONTROL_MAX_BYTES: nat := 2097152
  const CONTROL_RELEASE_BYTES: nat := 4096
  const MANAGED_SCHEMA: nat := 3
  const SUBMISSION_SCHEMA: nat := 4
  const GRANT_SCHEMA: nat := 5
  const WATCH_SCHEMA: nat := 6
  const OBSERVED_SCHEMA: nat := 7

  // ---------- works ----------

  datatype RegionKind = FileRegion | SubtreeRegion
  datatype Region = Region(kind: RegionKind, path: string)
  datatype ObjectFormat = Sha1 | Sha256
  datatype Scope = ReportScope | DetailScope
  datatype Lifecycle = Active | Closed

  datatype Managed = Managed(taskId: Id, controlGeneration: nat, intentTruncated: bool, areasDeclared: bool)
  datatype Recipient = Recipient(parent: ParentId, scope: Scope)
  datatype Grant = Grant(recipient: Recipient, workRevision: nat)
  datatype Watcher = Watcher(parent: ParentId, regions: seq<Region>)
  datatype Watch = Watch(watcher: Watcher, workRevision: nat)

  datatype Work = Work(
    id: Id, owner: ParentId, workspaceId: string, revision: nat, state: Lifecycle,
    inputOid: Oid, objectFormat: ObjectFormat, intent: string, areas: seq<Region>,
    readers: seq<ParentId>, managed: Option<Managed>,
    grants: Option<seq<Grant>>, watches: Option<seq<Watch>>)

  // ---------- cases ----------

  datatype Effect = NotStarted | Possible
  datatype Origin = PendingOrigin | SelectedOrigin
  datatype Selection = Selection(workId: Id, commit: Oid)
  datatype Observed = Observed(workId: Id, digest: Digest)
  datatype Delta = Delta(workId: Id, workRevision: nat, controlGeneration: nat, areas: seq<Region>, added: seq<ParentId>)

  datatype Case = Case(
    id: Id, target: string, lead: ParentId, members: seq<ParentId>, revision: nat, generation: nat,
    state: Lifecycle, effect: Effect, targetOid: Option<Oid>, inputs: seq<Selection>,
    origin: Option<Origin>, pending: Option<seq<Id>>, observed: Option<seq<Observed>>,
    visibility: Option<seq<Delta>>)

  // ---------- notes and the peer-resolution records they may carry ----------

  datatype SubjectKind = WorkSubject | CaseSubject
  datatype Subject = Subject(kind: SubjectKind, id: Id)
  datatype NoteKind = Intent | Question | Statement | AgreementProposal | ResolutionUpdate

  /** A named party is either an authenticated parent or the principal of one managed task. */
  datatype Party = ParentParty(parent: ParentId)
                 | TaskParty(taskId: Id, owner: ParentId, controlGeneration: nat, workspaceId: string)

  datatype Source = Source(workId: Id, workRevision: nat, inputOid: Oid, selectedCommit: Oid)
  /** The fields two peer records must share to speak about the same evidence. */
  datatype Evidence = Evidence(
    caseId: Id, caseRevision: nat, caseGeneration: nat, evidenceId: Digest, evidenceRevision: nat,
    sources: seq<Source>, scope: seq<Region>)
  datatype ApplicationStatus = StatusPending | StatusApplied | StatusUnknown | StatusRejected
  /** `predecessor` is present exactly on a counter-proposal. */
  datatype PeerRecord =
    | Proposal(evidence: Evidence, proposalRevision: nat, participants: seq<ParentId>,
               digest: Digest, predecessor: Option<Digest>, readable: bool)
    | Application(evidence: Evidence, proposalDigest: Digest, applicationDigest: Digest, status: ApplicationStatus)
    | Verification(evidence: Evidence, applicationDigest: Digest, passed: bool)

  /** What decoding a note's text yields: ordinary text, an unreadable marked payload, or a record. */
  datatype NoteText = PlainText(text: string) | UnreadableRecord(text: string) | PeerText(record: PeerRecord)

  datatype Note = Note(
    id: Id, subject: Subject, author: ParentId, kind: NoteKind, text: NoteText, bytes: nat,
    workRefs: seq<Id>, parties: seq<Party>, acknowledged: seq<Party>, withdrawn: bool,
    readers: Option<seq<ParentId>>)

  // ---------- keys, commands and requests ----------

  datatype KeyPart = MainPart | PendingPart | OutcomePart
  /** An operation key; worker keys carry the reserved prefix and name their task and run. */
  datatype Key = PublicKey(text: string) | WorkerKey(taskId: Id, runId: Id, operation: string, part: KeyPart)

  datatype Command =
    | RegisterTaskWork(key: Key, workspaceId: string, inputOid: Oid, objectFormat: ObjectFormat,
                       intent: string, areas: seq<Region>, managed: Managed)
    | RegisterWork(key: Key, workspaceId: string, inputOid: Oid, objectFormat: ObjectFormat,
                   intent: string, areas: seq<Region>, readers: seq<ParentId>)
    | ShareWork(key: Key, workId: Id, expectedRevision: nat, readers: seq<ParentId>)
    | GrantSource(key: Key, workId: Id, expectedRevision: nat, recipients: seq<Recipient>)
    | WatchSource(key: Key, workId: Id, expectedRevision: nat, watchers: seq<Watcher>)
    | CloseWork(key: Key, workId: Id, expectedRevision: nat)
    | PostNote(key: Key, subject: Subject, noteKind: NoteKind, text: NoteText, bytes: nat, parties: seq<ParentId>)
    | AckNote(key: Key, noteId: Id)
    | WithdrawNote(key: Key, noteId: Id)
    | ClaimTarget(key: Key, target: string, members: seq<ParentId>)
    | SelectInputs(key: Key, caseId: Id, expectedRevision: nat, generation: nat, targetOid: Oid, inputs: seq<Selection>)
    | ReleaseCase(key: Key, caseId: Id, expectedRevision: nat, generation: nat)
    | BeginExternal(key: Key, caseId: Id, expectedRevision: nat, generation: nat)
    | SettleExternal(key: Key, caseId: Id, expectedRevision: nat, generation: nat)
    | TransferCase(key: Key, caseId: Id, expectedRevision: nat, generation: nat, newLead: ParentId)

  datatype RecoveryAction =
    | AdoptWork(newOwner: ParentId)
    | RecoverCloseWork
    | AdoptCase(newLead: ParentId, caseGeneration: nat)
    | RecoverReleaseCase(caseGeneration: nat)
    | RecoverSettleCase(caseGeneration: nat)
  datatype Recovery = Recovery(
    key: Key, epoch: Id, expectedOwner: ParentId, expectedRevision: nat, statement: string,
    itemId: Id, action: RecoveryAction)

  datatype AnnouncementRef = AnnouncementRef(id: Id, revision: nat)
  datatype OverlapKind = WorkOverlap | AnnouncementOverlap | BindingOverlap
  datatype Overlap = Overlap(kind: OverlapKind, id: Id, revision: nat, areas: seq<Region>)
  /** The decision identity hashes exactly these fields. */
  datatype Decision = Decision(
    owner: ParentId, sourceView: string, inputOid: Oid, intentHash: Digest, areas: seq<Region>,
    announcement: Option<AnnouncementRef>, overlaps: set<Overlap>)
  datatype Link = Link(
    taskId: Id, requestKey: string, owner: ParentId, intentHash: Digest, decision: Decision,
    announcement: Option<AnnouncementRef>)
  datatype TerminalOutcome = Completed | Blocked | Failed | Cancelled | Interrupted
  datatype Terminal = Terminal(revision: nat, controlGeneration: nat, outcome: TerminalOutcome)

  datatype SubmissionInput =
    | AnnounceInput(id: Id, payloadDigest: Digest, sourceView: string, assignmentHash: Digest,
                    areas: seq<Region>, readers: seq<ParentId>)
    | WithdrawInput(id: Id, expectedRevision: nat)
    | BindInput(taskId: Id, requestKey: string, sourceView: string, inputOid: Oid, intentHash: Digest,
                areas: seq<Region>, announcement: Option<AnnouncementRef>, expectedDecision: Option<Decision>,
                announcedPayload: Option<Digest>, announcedAssignment: Option<Digest>)
    | SettleInput(taskId: Id, requestKey: string, link: Link)
    | ReleaseInput(taskId: Id, requestKey: string, link: Link)
    | TerminalInput(taskId: Id, requestKey: string, link: Link, terminal: Terminal)

  datatype Extension = Extension(caseId: Id, expectedRevision: nat, generation: nat, newWorkId: Id, targetOid: Oid)
  datatype Observation = Observation(caseId: Id, caseRevision: nat, generation: nat, recipientWorkId: Id, digest: Digest)

  /** The mutations a task-bound worker may publish into its case. */
  datatype WorkerOperation =
    | WorkerPropose(proposal: PeerRecord)
    | WorkerAcknowledge(noteId: Id)
    | WorkerWithdraw(noteId: Id)
    | WorkerApply(noteId: Id, record: PeerRecord)
  datatype WorkerActor = WorkerActor(
    owner: ParentId, taskId: Id, runId: Id, controlGeneration: nat, workspaceId: string,
    sourceView: string, caseId: Id)

  /** The content an acknowledgment's request hash covers, with its owner. */
  datatype Request =
    | CommandRequest(owner: ParentId, command: Command)
    | ExtensionRequest(owner: ParentId, key: Key, extension: Extension)
    | ObservationRequest(owner: ParentId, key: Key, observation: Observation)
    | WorkerRequest(actor: WorkerActor, key: Key, operation: WorkerOperation)
    | SubmissionRequest(owner: ParentId, key: Key, input: SubmissionInput)
    | RecoveryRequest(operator: ParentId, recovery: Recovery)

  datatype Action =
    | ActRegisterTaskWork | ActRegisterWork | ActShareWork | ActGrantSource | ActWatchSource | ActCloseWork
    | ActPostNote | ActAckNote | ActWithdrawNote | ActClaimTarget | ActSelectInputs | ActReleaseCase
    | ActBeginExternal | ActSettleExternal | ActTransferCase | ActExtendCase | ActObserveDelivery

  datatype Receipt = Receipt(owner: ParentId, key: Key, request: Request, revision: nat,
                             action: Action, entity: Subject, itemId: Id)
  datatype RecoveryReceipt = RecoveryReceipt(operator: ParentId, request: Request, revision: nat, recovery: Recovery)

  // ---------- submissions ----------

  datatype AnnouncementState = Unresolved | AnnouncementBound | Linked | Withdrawn
  datatype Announcement = Announcement(
    id: Id, owner: ParentId, revision: nat, state: AnnouncementState, payloadDigest: Digest,
    sourceView: string, assignmentHash: Digest, areas: seq<Region>, readers: seq<ParentId>,
    taskId: Option<Id>)
  datatype BindingState = Bound | Settled | Released | Ended
  datatype Binding = Binding(
    taskId: Id, requestKey: string, owner: ParentId, link: Link, sourceView: string, inputOid: Oid,
    areas: seq<Region>, announcement: Option<AnnouncementRef>, state: BindingState, terminal: Option<Terminal>)
  datatype EventKind = Announced | AnnouncementWithdrawn | BindEvent | SettleEvent | ReleaseEvent | TerminalEvent
  datatype Event = Event(kind: EventKind, owner: ParentId, key: Key, itemId: Id, request: Request, revision: nat)

  // ---------- the whole ledger ----------

  datatype Limits = Limits(works: nat, cases: nat, notes: nat, receipts: nat, noteBytes: nat)

  /** Fields a schema does not yet store are empty here, which is what the source's accessors return. */
  datatype Control = Control(
    schema: nat, repository: string, epoch: Id, revision: nat, limits: Limits,
    works: seq<Work>, cases: seq<Case>, notes: seq<Note>, receipts: seq<Receipt>,
    recoveries: seq<RecoveryReceipt>, announcements: seq<Announcement>, bindings: seq<Binding>,
    events: seq<Event>)

  datatype Error =
    | Invalid | NotFound | Forbidden | KeyConflict | StaleRevision | StaleGeneration | StaleEpoch | Capacity
    | WorkspaceInUse | TargetInUse | TaskRegistered | WorkClosed | CaseClosed | EffectUnresolved | NoEffect
    | InputsRequired | NoteWithdrawn | AlreadyAcknowledged | NotAcknowledged | ObservedUnavailable
    | ObservedDuplicate | ScopeUnsupported | DeliveryStale | AnnouncementExists | AnnouncementHeld
    | BindingConflict | BindingSettled | Changed | PeerInvalid | OperationStale | OperationForbidden
    | RetirementActive | ResourceChanged | ResultSelected | RecoveryRequired | CoordinationClosed

  datatype Result<+T> = Ok(value: T) | Err(error: Error)
  {
    predicate IsFailure() { Err? }
    function PropagateFailure<U>(): (r: Result<U>)
      requires Err?
    {
      Err(error)
    }
    function Extract(): T
      requires Ok?
    {
      value
    }
  }

  function Need(condition: bool, error: Error): Result<()> {
    if condition then Ok(()) else Err(error)
  }

  function EmptyControl(repository: string, epoch: Id, limits: Limits): Control {
    Control(1, repository, epoch, 0, limits, [], [], [], [], [], [], [], [])
  }
}
