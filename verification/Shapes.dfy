/** What each entry point publishes when it publishes: the body that made it, the kind of its change, and the entry that
    acknowledges it. */
module Shapes {
  import opened ControlTypes
  import opened Records
  import opened Publications
  import opened PeerRecords
  import opened Ledger
  import opened Steps
  import opened Invariant
  import opened History
  import Submissions

  /** The body that made the publication, past the guards that run before it. */
  predicate Opened(s: Control, op: Op, p: Publication) {
    match op
    case CommandOp(owner, command, elected, newId) =>
      Decodable(command) && !command.key.WorkerKey? && !(command.ReleaseCase? && CasePendingUnsettled(s, command.caseId)) &&
      CommandBody(s, owner, command, elected, newId) == Ok(p)
    case ExtendOp(owner, key, x) => ExtendBody(s, owner, key, x) == Ok(p)
    case ObserveOp(owner, key, o, _, _) => ObserveBody(s, owner, key, o) == Ok(p)
    case WorkerOp(actor, k, operation, bytes, newId) => WorkerBody(s, actor, MainKey(actor, k), operation, bytes, newId) == Ok(p)
    case AdmitOp(actor, k, noteId, digest, bytes, newId) => AdmitApplication(s, actor, k, noteId, digest, bytes, newId) == Admits(p)
    case OutcomeOp(actor, k, noteId, proposal, revision, generation, digest, status, bytes, newId) =>
      PublishOutcome(s, actor, k, noteId, proposal, revision, generation, digest, status, bytes, newId) == Candidate(p)
    case SubmitOp(owner, key, input) => Submissions.Submit(s, owner, key, input) == Ok(p) && !key.WorkerKey?
    case RecoverOp(operator, r) => RecoverStep(s, operator, r) == Candidate(p)
  }

  // ---------- the kind of change, and the entry ----------

  /** A note nobody has answered yet. */
  predicate NewNote(n: Note, newId: Id) {
    n.id == newId && n.acknowledged == [] && !n.withdrawn
  }

  predicate CommandChange(command: Command, newId: Id, ch: Change, itemId: Id) {
    match ch
    case AddWork(_) => command.RegisterTaskWork? || command.RegisterWork?
    case SetWork(_, _) => IsWorkChange(command)
    case AddNote(n) => command.PostNote? && NewNote(n, newId) && itemId == newId
    case SetNote(_, _) => command.AckNote? || command.WithdrawNote?
    case AddCase(c) => command.ClaimTarget? && c.effect == NotStarted && c.inputs == []
    case SetCase(_, _) => IsCaseChange(command)
  }

  predicate CommandShape(owner: ParentId, command: Command, newId: Id, p: Publication) {
    match p
    case Ordinary(ch, _, r) =>
      r.owner == owner && r.key == command.key && r.request == CommandRequest(owner, command) && r.action == ActionOf(command) &&
      CommandChange(command, newId, ch, r.itemId)
    case _ => false
  }

  predicate CaseShape(owner: ParentId, key: Key, request: Request, action: Action, p: Publication) {
    match p
    case Ordinary(SetCase(_, _), _, r) =>
      r.owner == owner && r.key == key && r.request == request && r.action == action && r.entity == Subject(CaseSubject, r.itemId)
    case _ => false
  }

  predicate WorkerShape(actor: WorkerActor, k: string, operation: WorkerOperation, newId: Id, p: Publication) {
    match p
    case Ordinary(AddNote(n), _, r) =>
      r.owner == actor.owner && r.key == MainKey(actor, k) && r.request == WorkerRequest(actor, r.key, operation) &&
      operation.WorkerPropose? && r.action == ActPostNote && NewNote(n, newId) && r.itemId == newId
    case Ordinary(SetNote(_, _), _, r) =>
      r.owner == actor.owner && r.key == MainKey(actor, k) && r.request == WorkerRequest(actor, r.key, operation) &&
      ((operation.WorkerAcknowledge? && r.action == ActAckNote) || (operation.WorkerWithdraw? && r.action == ActWithdrawNote))
    case _ => false
  }

  predicate ApplicationShape(actor: WorkerActor, key: Key, noteId: Id, newId: Id, p: Publication) {
    match p
    case Ordinary(AddNote(n), _, r) =>
      r.owner == actor.owner && r.key == key && r.action == ActPostNote && NewNote(n, newId) && r.itemId == newId &&
      n.subject == Subject(CaseSubject, actor.caseId) && n.kind == ResolutionUpdate && n.text.PeerText? && n.text.record.Application? &&
      r.request == WorkerRequest(actor, key, WorkerApply(noteId, n.text.record))
    case _ => false
  }

  /** The note that is added carries the record. */
  predicate PostsRecord(p: Publication, record: PeerRecord) {
    match p
    case Ordinary(AddNote(n), _, _) => n.text == PeerText(record)
    case _ => false
  }

  predicate SubmissionShape(owner: ParentId, key: Key, input: SubmissionInput, p: Publication) {
    match p
    case Submitting(_, _, _, e) => e.owner == owner && e.key == key && e.request == SubmissionRequest(owner, key, input)
    case _ => false
  }

  predicate RecoveryShape(operator: ParentId, recovery: Recovery, p: Publication) {
    match p
    case Recovering(SetWork(_, _), _, r) => r.operator == operator && r.recovery == recovery && r.request == RecoveryRequest(operator, recovery)
    case Recovering(SetCase(_, _), _, r) => r.operator == operator && r.recovery == recovery && r.request == RecoveryRequest(operator, recovery)
    case _ => false
  }

  /** Each entry point makes changes of its own kinds and acknowledges them under the key and request of the call. */
  predicate Shape(op: Op, p: Publication) {
    match op
    case CommandOp(owner, command, _, newId) => CommandShape(owner, command, newId, p)
    case ExtendOp(owner, key, x) => CaseShape(owner, key, ExtensionRequest(owner, key, x), ActExtendCase, p)
    case ObserveOp(owner, key, o, _, _) => CaseShape(owner, key, ObservationRequest(owner, key, o), ActObserveDelivery, p)
    case WorkerOp(actor, k, operation, _, newId) => WorkerShape(actor, k, operation, newId, p)
    case AdmitOp(actor, k, noteId, _, _, newId) => ApplicationShape(actor, PendingKey(actor, k), noteId, newId, p)
    case OutcomeOp(actor, k, noteId, proposal, _, _, digest, status, _, newId) =>
      ApplicationShape(actor, OutcomeKey(actor, k), noteId, newId, p) && proposal.Proposal? &&
      PostsRecord(p, ApplicationRecord(proposal, digest, status))
    case SubmitOp(owner, key, input) => SubmissionShape(owner, key, input, p)
    case RecoverOp(operator, r) => RecoveryShape(operator, r, p)
  }

  lemma CommandShapes(s: Control, owner: ParentId, command: Command, elected: bool, newId: Id, p: Publication)
    requires CommandBody(s, owner, command, elected, newId) == Ok(p)
    ensures CommandShape(owner, command, newId, p)
  {
    hide CommandAdmitted, Register, ChangedWork, AnsweredNote, ChangedCase, OwnWork, OwnCase, CommandSchema, SubjectVisible, NoteAudience,
         ActionOf, TargetHeld, GreatestGeneration, Without, AsParties, InputIds;
  }

  lemma ExtendShapes(s: Control, owner: ParentId, key: Key, x: Extension, p: Publication)
    requires ExtendBody(s, owner, key, x) == Ok(p)
    ensures CaseShape(owner, key, ExtensionRequest(owner, key, x), ActExtendCase, p)
  {
    hide HasApplicationNote, VisibleWork, Selects, CompatibleSource, ExtendedCase, OwnCase, AddMember;
  }

  lemma ObserveShapes(s: Control, owner: ParentId, key: Key, o: Observation, p: Publication)
    requires ObserveBody(s, owner, key, o) == Ok(p)
    ensures CaseShape(owner, key, ObservationRequest(owner, key, o), ActObserveDelivery, p)
  {
    hide CaseIndex, Without;
  }

  lemma WorkerShapes(s: Control, actor: WorkerActor, k: string, operation: WorkerOperation, bytes: nat, newId: Id, p: Publication)
    requires WorkerBody(s, actor, MainKey(actor, k), operation, bytes, newId) == Ok(p)
    ensures WorkerShape(actor, k, operation, newId, p)
  {
    hide WorkerCase, WorkerParties, PeerPostAllowed, PeerAckAllowed, WorkerNote, PostedByRun, InputIds, CaseAudience;
  }

  lemma AdmitShapes(s: Control, actor: WorkerActor, k: string, noteId: Id, digest: Digest, bytes: nat, newId: Id, p: Publication)
    requires AdmitApplication(s, actor, k, noteId, digest, bytes, newId) == Admits(p)
    ensures ApplicationShape(actor, PendingKey(actor, k), noteId, newId, p)
  {
    hide WorkerCase, UnresolvedApplication, AdmittedHere, ApplicableProposal, InputIds, CaseAudience, NoteIndex;
  }

  lemma OutcomeShapes(s: Control, actor: WorkerActor, k: string, noteId: Id, proposal: PeerRecord, rev: nat, gen: nat,
                      digest: Digest, status: ApplicationStatus, bytes: nat, newId: Id, p: Publication)
    requires PublishOutcome(s, actor, k, noteId, proposal, rev, gen, digest, status, bytes, newId) == Candidate(p)
    ensures ApplicationShape(actor, OutcomeKey(actor, k), noteId, newId, p)
    ensures Shape(OutcomeOp(actor, k, noteId, proposal, rev, gen, digest, status, bytes, newId), p)
  {
    hide ReceiptFor, ReceiptKeyUsed, InputIds, CaseAudience;
  }

  lemma SubmissionShapes(s: Control, owner: ParentId, key: Key, input: SubmissionInput, p: Publication)
    requires Submissions.Submit(s, owner, key, input) == Ok(p)
    ensures SubmissionShape(owner, key, input, p)
  {
    hide Submissions.SubmissionDecision, Submissions.NamedBinding;
  }

  lemma RecoveryShapes(s: Control, operator: ParentId, r: Recovery, p: Publication)
    requires RecoverStep(s, operator, r) == Candidate(p)
    ensures RecoveryShape(operator, r, p)
  {
    hide RecoveredWork, RecoveredCase, Blank, RecoveryFor, ReceiptKeyUsed, EventKeyUsed, WorkIndex, CaseIndex;
  }

  /** Whatever is published was made by its body, and has the shape of its call. */
  lemma Shapes(s: Control, op: Op, p: Publication)
    requires Attempt(s, op) == Candidate(p)
    ensures Opened(s, op, p) && Shape(op, p)
  {
    hide CommandBody, ExtendBody, ObserveBody, WorkerBody, WorkerCase, AdmitApplication, PublishOutcome, Submissions.Submit, RecoverStep,
         CasePendingUnsettled, Decodable, ReceiptFor, EventFor, ReceiptKeyUsed, RecoveryKeyUsed, EventKeyUsed,
         CommandShape, CaseShape, WorkerShape, ApplicationShape, SubmissionShape, RecoveryShape;
    match op
    case CommandOp(owner, command, elected, newId) => CommandShapes(s, owner, command, elected, newId, p);
    case ExtendOp(owner, key, x) => ExtendShapes(s, owner, key, x, p);
    case ObserveOp(owner, key, o, _, _) => ObserveShapes(s, owner, key, o, p);
    case WorkerOp(actor, k, operation, bytes, newId) => WorkerShapes(s, actor, k, operation, bytes, newId, p);
    case AdmitOp(actor, k, noteId, digest, bytes, newId) => AdmitShapes(s, actor, k, noteId, digest, bytes, newId, p);
    case OutcomeOp(actor, k, noteId, proposal, rev, gen, digest, status, bytes, newId) =>
      OutcomeShapes(s, actor, k, noteId, proposal, rev, gen, digest, status, bytes, newId, p);
    case SubmitOp(owner, key, input) => SubmissionShapes(s, owner, key, input, p);
    case RecoverOp(operator, r) => RecoveryShapes(s, operator, r, p);
  }

  // ---------- the key ----------

  /** The owned key an operation acknowledges under. */
  function KeyOf(op: Op): OwnedKey {
    match op
    case CommandOp(owner, command, _, _) => OwnedKey(owner, command.key)
    case ExtendOp(owner, key, _) => OwnedKey(owner, key)
    case ObserveOp(owner, key, _, _, _) => OwnedKey(owner, key)
    case WorkerOp(actor, k, _, _, _) => OwnedKey(actor.owner, MainKey(actor, k))
    case AdmitOp(actor, k, _, _, _, _) => OwnedKey(actor.owner, PendingKey(actor, k))
    case OutcomeOp(actor, k, _, _, _, _, _, _, _, _) => OwnedKey(actor.owner, OutcomeKey(actor, k))
    case SubmitOp(owner, key, _) => OwnedKey(owner, key)
    case RecoverOp(operator, r) => OwnedKey(operator, r.key)
  }

  lemma ShapedKey(op: Op, p: Publication)
    requires Shape(op, p)
    ensures EntryKey(p) == KeyOf(op)
  {
    hide ActionOf, CommandChange, NewNote, PostsRecord, ApplicationRecord;
  }

  /** No operation publishes under a key some ledger already holds. */
  lemma UsedKeyPublishesNothing(s: Control, op: Op)
    requires NoWorkerKeys(s) && NewKey(s, op) && KeyUsed(s, KeyOf(op))
    ensures Step(s, op) == s
  {
    hide CommandBody, ExtendBody, ObserveBody, WorkerBody, WorkerCase, AdmittedHere, UnresolvedApplication, ApplicableProposal,
         Submissions.Submit, ApplyRecovery, CasePendingUnsettled, Decodable;
  }
}
