/** Every mutating entry point of the ledger as one step relation, and what a sound publication is. */
module Steps {
  import opened ControlTypes
  import opened Records
  import opened Publications
  import opened Invariant
  import opened Preservation
  import opened History
  import opened Retention
  import opened Licences
  import opened Ledger
  import T = Transition

  datatype Op =
    | CommandOp(owner: ParentId, command: Command, elected: bool, newId: Id)
    | ExtendOp(owner: ParentId, key: Key, extension: Extension)
    | ObserveOp(owner: ParentId, key: Key, observation: Observation, guardEpoch: Id, guardRevision: nat)
    | WorkerOp(actor: WorkerActor, operationKey: string, operation: WorkerOperation, bytes: nat, newId: Id)
    | AdmitOp(actor: WorkerActor, operationKey: string, noteId: Id, digest: Digest, bytes: nat, newId: Id)
    | OutcomeOp(actor: WorkerActor, operationKey: string, noteId: Id, proposal: PeerRecord, caseRevision: nat,
                caseGeneration: nat, digest: Digest, status: ApplicationStatus, bytes: nat, newId: Id)
    | SubmitOp(owner: ParentId, key: Key, input: SubmissionInput)
    | RecoverOp(operator: ParentId, recovery: Recovery)

  function AdmissionOutcome(a: Admission): Outcome {
    match a
    case NotAdmitted(e) => Refused(e)
    case AlreadyAdmitted => Refused(AlreadyAcknowledged)
    case Admits(p) => Candidate(p)
  }

  /** What an entry point does to the current state: refuses, returns the recorded answer, or publishes. */
  function Attempt(s: Control, op: Op): Outcome {
    match op
    case CommandOp(owner, command, elected, newId) => ExecuteCommand(s, owner, command, elected, newId)
    case ExtendOp(owner, key, x) => ExtendCase(s, owner, key, x)
    case ObserveOp(owner, key, o, epoch, revision) => ObserveDelivery(s, owner, key, o, epoch, revision)
    case WorkerOp(actor, k, operation, bytes, newId) => WorkerStep(s, actor, k, operation, bytes, newId)
    case AdmitOp(actor, k, noteId, digest, bytes, newId) => AdmissionOutcome(AdmitApplication(s, actor, k, noteId, digest, bytes, newId))
    case OutcomeOp(actor, k, noteId, p, rev, gen, digest, status, bytes, newId) =>
      PublishOutcome(s, actor, k, noteId, p, rev, gen, digest, status, bytes, newId)
    case SubmitOp(owner, key, input) => SubmitStep(s, owner, key, input)
    case RecoverOp(operator, r) => RecoverStep(s, operator, r)
  }

  /** The identity the environment supplies: a random one, or the task a managed work is named after. */
  function NewIdentity(op: Op): Option<Id> {
    match op
    case CommandOp(_, command, _, newId) => if command.RegisterTaskWork? then Some(command.managed.taskId) else Some(newId)
    case WorkerOp(_, _, _, _, newId) => Some(newId)
    case AdmitOp(_, _, _, _, _, newId) => Some(newId)
    case OutcomeOp(_, _, _, _, _, _, _, _, _, newId) => Some(newId)
    case _ => None
  }

  predicate Accepts(s: Control, op: Op) { Attempt(s, op).Candidate? }

  /** Random identities are new; a task identity is never that of a case or a note. */
  predicate FreshIdentity(s: Control, op: Op) {
    match op
    case CommandOp(_, command, _, newId) =>
      if command.RegisterTaskWork? then !HasCase(s.cases, command.managed.taskId) && !HasNote(s.notes, command.managed.taskId)
      else FreshId(s, newId)
    case _ => NewIdentity(op).Some? ==> FreshId(s, NewIdentity(op).value)
  }

  /** The two entry points that do not look their key up in every ledger must be given a new one. */
  predicate NewKey(s: Control, op: Op) {
    match op
    case ObserveOp(owner, key, _, _, _) => !RecoveryKeyUsed(s.recoveries, owner, key) && !EventKeyUsed(s.events, owner, key)
    case AdmitOp(actor, k, _, _, _, _) => !ReceiptKeyUsed(s.receipts, actor.owner, PendingKey(actor, k))
    case _ => true
  }

  predicate Admissible(s: Control, op: Op) {
    FreshIdentity(s, op) && NewKey(s, op)
  }

  /** One call: it publishes its candidate when there is one and otherwise leaves the state alone. */
  function Step(s: Control, op: Op): Control {
    match Attempt(s, op)
    case Candidate(p) => Publish(s, p)
    case _ => s
  }

  // ---------- what makes an ordinary publication or a recovery sound ----------

  predicate OrdinarySound(s: Control, ch: Change, schema: nat, r: Receipt) {
    r.revision == s.revision + 1 && Fits(s, ch) && EntryRefers(s, ch, r) && EnrollmentFits(ch, r) &&
    VersionFits(s, ch, schema, r.action) && Licensed(s, ch, schema, r) && NoteLicensed(s, ch)
  }

  predicate RecoverySound(s: Control, ch: Change, schema: nat, r: RecoveryReceipt) {
    r.revision == s.revision + 1 && Fits(s, ch) && ChangeFitsSchema(ch, schema) && RecoveryFits(s, ch, r) &&
    RecoveryLicensed(s, ch, r.recovery) && schema == RecoverySchema(s.schema) && !r.recovery.key.WorkerKey?
  }

  /** A sound ordinary publication under this key. */
  predicate SoundUnder(s: Control, p: Publication, owner: ParentId, key: Key) {
    match p
    case Ordinary(ch, schema, r) => r.owner == owner && r.key == key && OrdinarySound(s, ch, schema, r)
    case _ => false
  }

  /** A sound publication of this recovery. */
  predicate SoundRecovery(s: Control, p: Publication, operator: ParentId, recovery: Recovery) {
    match p
    case Recovering(ch, schema, r) => r.operator == operator && r.recovery == recovery && RecoverySound(s, ch, schema, r)
    case _ => false
  }

  /** The part of the invariant that does not concern submissions. */
  ghost predicate LedgerOk(s: Control) {
    RecordsOk(s) && FieldsFit(s) && LedgersFit(s) && Enrolled(s.works, s.receipts) && LedgersRefer(s) &&
    HistoryExact(s) && KeysOnce(s) && NoWorkerKeys(s)
  }

  lemma OrdinaryKeeps(s: Control, ch: Change, schema: nat, r: Receipt)
    requires LedgerOk(s) && OrdinarySound(s, ch, schema, r) && !KeyUsed(s, OwnedKey(r.owner, r.key))
    ensures LedgerOk(Publish(s, Ordinary(ch, schema, r)))
    ensures T.Allowed(s, Publish(s, Ordinary(ch, schema, r)))
  {
    hide Fits, EntryRefers, EnrollmentFits, Licensed, NoteLicensed, FieldsFit, LedgersFit, Enrolled, LedgersRefer,
         WorksOk, CasesOk, NotesOk, CasesKnown, NotesKnown, IdsDisjoint, HistoryExact, KeysOnce, KeyUsed, T.Allowed, ChangeFitsSchema;
    var p := Ordinary(ch, schema, r);
    RecordsKept(s, ch);
    FieldsStillFit(s, ch, schema);
    OrdinaryLedgersFit(s, ch, schema, r);
    EnrollmentKept(s, ch, r);
    OrdinaryRefers(s, ch, schema, r);
    HistoryKept(s, p);
    KeysKept(s, p);
    OrdinaryAllowed(s, ch, schema, r);
    SameRecords(Put(s, ch).(revision := s.revision + 1), Publish(s, p));
    SameFields(Put(s, ch).(schema := schema), Publish(s, p));
  }

  lemma SameRecords(s: Control, t: Control)
    requires RecordsOk(s) && t.works == s.works && t.cases == s.cases && t.notes == s.notes && t.revision == s.revision
    ensures RecordsOk(t)
  {
  }

  lemma SameFields(s: Control, t: Control)
    requires FieldsFit(s) && t.works == s.works && t.cases == s.cases && t.notes == s.notes && t.schema == s.schema
    ensures FieldsFit(t)
  {
  }

  lemma RecoveryKeeps(s: Control, ch: Change, schema: nat, r: RecoveryReceipt)
    requires LedgerOk(s) && RecoverySound(s, ch, schema, r) && !KeyUsed(s, OwnedKey(r.operator, r.recovery.key))
    ensures LedgerOk(Publish(s, Recovering(ch, schema, r)))
    ensures T.Allowed(s, Publish(s, Recovering(ch, schema, r)))
  {
    hide Fits, RecoveryFits, RecoveryLicensed, FieldsFit, Enrolled, LedgersRefer,
         WorksOk, CasesOk, NotesOk, CasesKnown, NotesKnown, IdsDisjoint, HistoryExact, KeysOnce, KeyUsed, T.Allowed, ChangeFitsSchema;
    var p := Recovering(ch, schema, r);
    RecordsKept(s, ch);
    FieldsStillFit(s, ch, schema);
    RecoveringLedgersFit(s, ch, schema, r);
    RecoveryAdds(s, ch, r);
    EnrollmentUntouched(s, ch);
    RecoveringRefers(s, ch, schema, r);
    HistoryKept(s, p);
    KeysKept(s, p);
    RecoveringAllowed(s, ch, schema, r);
    SameRecords(Put(s, ch).(revision := s.revision + 1), Publish(s, p));
    SameFields(Put(s, ch).(schema := schema), Publish(s, p));
  }

  lemma RecoveryAdds(s: Control, ch: Change, r: RecoveryReceipt)
    requires RecoveryLicensed(s, ch, r.recovery)
    ensures !ch.AddWork?
  {
  }
}
