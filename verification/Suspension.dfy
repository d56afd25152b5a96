/** What a task transition, a cancellation or an application in progress holds back: workers checked before a
    transition are refused after it, and nobody but the application itself adds to its case's peer record. */
module Suspension {
  import opened ControlTypes
  import opened Records
  import opened Publications
  import opened Ledger
  import opened Service
  import opened Shapes
  import opened Steps
  import opened World
  import opened Reservations
  import opened ServiceRuns
  import Capacity
  import ObservedCases
  import PeerRecords
  import Submissions

  // ---------- the transition epoch ----------

  /** The call starts or ends a task transition, or reports a cancelled task. */
  predicate Suspends(w: World, call: Section) {
    match call
    case CancelledCall(_) => true
    case EndTransitionCall(_, _) => true
    case BeginTransitionCall(task) => BeginTransition(w.service, task).1.Affects?
    case _ => false
  }

  /** The epoch never falls, and a suspension advances it. */
  lemma EpochStep(w: World, call: Section)
    ensures After(w, call).service.epoch >= w.service.epoch
    ensures Suspends(w, call) ==> After(w, call).service.epoch > w.service.epoch
  {
    hide ExecuteCommand, ExtendCase, ObserveDelivery, WorkerStep, AdmitApplication, PublishOutcome, SubmitStep, RecoverStep, Publish,
         Capacity.CapacityOk, ObservedCases.ObservedOk, CommandReserved, VersionsCurrent, SelectsTask, PeerCaseBusy, SourceInputs, ExtensionBusy,
         RecoveryReserved, WorkerCase, WorkerBusy, Selectable, MayPublish, FrameProposal, FrameCase, Affected, EnrolledTask;
  }

  function EpochIn(t: Session): nat { Reached(t).service.epoch }

  lemma {:induction false} EpochGrows(t: Session, u: Session)
    requires Resumes(t, u)
    ensures EpochIn(t) <= EpochIn(u)
  {
    hide After, Suspends;
    if t != u {
      EpochGrows(t, u.before);
      EpochStep(Reached(u.before), u.call);
    }
  }

  /** The section leaves the service alone and denies the request. */
  predicate Denies(v: Service, r: (Service, Reply)) { r.0 == v && r.1.Denied? }

  lemma OldWorkerDenied(v: Service, actor: WorkerActor, key: string, operation: WorkerOperation, noteBytes: nat, newId: Id, revision: nat, epoch: nat, bytes: nat)
    requires v.epoch != epoch
    ensures Denies(v, Worker(v, actor, key, operation, noteBytes, newId, revision, epoch, bytes))
  {
    hide WorkerCase, WorkerBusy, WorkerStep, Settle;
  }

  /** A worker operation whose authority was checked before any task's transition or cancellation is refused after it. */
  lemma SuspendedWorkerRefused(t: Session, before: Session, call: Section, u: Session, actor: WorkerActor, key: string,
                               operation: WorkerOperation, noteBytes: nat, newId: Id, bytes: nat)
    requires Resumes(t, before) && Resumes(Entered(before, call), u) && Suspends(Reached(before), call)
    ensures Denies(Reached(u).service, Worker(Reached(u).service, actor, key, operation, noteBytes, newId,
                                              Reached(t).service.state.revision, Reached(t).service.epoch, bytes))
  {
    hide After, Resumes, Suspends, Worker, Denies;
    EpochGrows(t, before);
    EpochStep(Reached(before), call);
    EpochGrows(Entered(before, call), u);
    OldWorkerDenied(Reached(u).service, actor, key, operation, noteBytes, newId, Reached(t).service.state.revision, Reached(t).service.epoch, bytes);
  }

  lemma OldFrameDenied(v: Service, f: Frame, digest: Digest, noteBytes: nat, newId: Id, bytes: nat)
    requires v.epoch != f.epoch
    ensures Denies(v, Admit(v, f, digest, noteBytes, newId, bytes))
  {
    hide Selectable, AdmitApplication, Settle;
  }

  lemma CapturedEpoch(v: Service, actor: WorkerActor, operation: string, noteId: Id, f: Frame)
    requires Capture(v, actor, operation, noteId) == Some(f)
    ensures f.epoch == v.epoch
  {
    hide Selectable;
  }

  /** So is the admission of an application captured before it: its effect never starts. */
  lemma SuspendedApplicationRefused(t: Session, before: Session, call: Section, u: Session, actor: WorkerActor, operation: string,
                                    noteId: Id, f: Frame, digest: Digest, noteBytes: nat, newId: Id, bytes: nat)
    requires Resumes(t, before) && Resumes(Entered(before, call), u) && Suspends(Reached(before), call)
    requires Capture(Reached(t).service, actor, operation, noteId) == Some(f)
    ensures Denies(Reached(u).service, Admit(Reached(u).service, f, digest, noteBytes, newId, bytes))
  {
    hide After, Resumes, Suspends, Capture, Admit, Denies;
    EpochGrows(t, before);
    EpochStep(Reached(before), call);
    EpochGrows(Entered(before, call), u);
    CapturedEpoch(Reached(t).service, actor, operation, noteId, f);
    OldFrameDenied(Reached(u).service, f, digest, noteBytes, newId, bytes);
  }

  // ---------- the peer record of a busy case ----------

  /** A peer record retained in the case and about it. */
  predicate PeerRecordOf(n: Note, caseId: Id) {
    n.subject == Subject(CaseSubject, caseId) && n.text.PeerText? && n.text.record.evidence.caseId == caseId
  }

  predicate PeerChange(ch: Change, caseId: Id) {
    match ch
    case AddNote(n) => PeerRecordOf(n, caseId)
    case SetNote(_, n) => PeerRecordOf(n, caseId)
    case _ => false
  }

  /** The publication adds or answers a peer record of the case. */
  predicate PeerTouch(p: Publication, caseId: Id) {
    match p
    case Ordinary(ch, _, _) => PeerChange(ch, caseId)
    case Recovering(ch, _, _) => PeerChange(ch, caseId)
    case Submitting(_, _, _, _) => false
  }

  lemma CommandPeerCase(s: Control, owner: ParentId, command: Command, elected: bool, newId: Id, p: Publication, caseId: Id)
    requires CommandBody(s, owner, command, elected, newId) == Ok(p) && PeerTouch(p, caseId)
    ensures PeerCaseOf(s, command) == Some(caseId)
  {
    hide PeerRecords.PeerPostAllowed, PeerRecords.PeerAckAllowed, PeerRecords.WorkerPosted, NoteReadable, CommandSchema, Register, OwnWork, OwnCase,
         ChangedWork, ChangedCase, TargetHeld, ClaimedCase, SubjectVisible, NoteAudience, ActionOf;
  }

  lemma WorkerPeerCase(s: Control, actor: WorkerActor, key: Key, operation: WorkerOperation, bytes: nat, newId: Id, p: Publication, caseId: Id)
    requires WorkerBody(s, actor, key, operation, bytes, newId) == Ok(p) && PeerTouch(p, caseId)
    ensures actor.caseId == caseId
  {
    hide PeerRecords.PeerPostAllowed, PeerRecords.PeerAckAllowed, PeerRecords.ProposalCurrent, PostedByRun, IsActorWork,
         PeerRecords.WorkerParties, ActorBound, SelectedAuthority, CanReadCase, Selects, SameSet;
  }

  lemma ApplicationPeerCase(actor: WorkerActor, key: Key, noteId: Id, newId: Id, p: Publication, caseId: Id)
    requires ApplicationShape(actor, key, noteId, newId, p) && PeerTouch(p, caseId)
    ensures actor.caseId == caseId
  {
    hide NewNote;
  }

  /** The call that makes an operation touch the peer record of a case: a parent's command about it, a worker of it, its application. */
  predicate MayTouchPeer(s: Control, op: Op, caseId: Id) {
    match op
    case CommandOp(_, command, _, _) => PeerCaseOf(s, command) == Some(caseId)
    case WorkerOp(actor, _, _, _, _) => actor.caseId == caseId
    case AdmitOp(actor, _, _, _, _, _) => actor.caseId == caseId
    case OutcomeOp(actor, _, _, _, _, _, _, _, _, _) => actor.caseId == caseId
    case _ => false
  }

  lemma OthersTouchNoPeer(op: Op, p: Publication, caseId: Id)
    requires Shape(op, p) && (op.ExtendOp? || op.ObserveOp? || op.SubmitOp? || op.RecoverOp?)
    ensures !PeerTouch(p, caseId)
  {
    hide PeerRecordOf, PostsRecord, ApplicationRecord;
  }

  /** The case is reserved, or a task of it is changing hands. */
  predicate BusyCase(v: Service, caseId: Id) {
    HasCase(v.state.cases, caseId) && CaseBusy(v, v.state.cases[CaseIndex(v.state.cases, caseId)])
  }

  lemma BusyRefusesWorker(v: Service, actor: WorkerActor)
    requires MayPublish(v, actor)
    ensures !BusyCase(v, actor.caseId)
  {
    hide CaseBusy, ActorBound, SelectedAuthority, CanReadCase, IsActorWork, Selects;
  }

  lemma BusyRefusesFrame(v: Service, actor: WorkerActor, noteId: Id)
    requires Selectable(v, actor, noteId)
    ensures !BusyCase(v, actor.caseId)
  {
    hide CaseBusy, ApplicableProposal, ActorBound, SelectedAuthority, CanReadCase, IsActorWork, Selects;
  }

  lemma BusyRefusesCommand(v: Service, command: Command, caseId: Id)
    requires !PeerCaseBusy(v, command) && PeerCaseOf(v.state, command) == Some(caseId)
    ensures !BusyCase(v, caseId)
  {
    hide CaseBusy, PeerCaseOf;
  }

  /** The call records the outcome of the application that holds the case. */
  predicate RecordsHeldOutcome(w: World, call: Section, caseId: Id) {
    match call
    case FinishCall(id, _, _, _, _, _) => id == caseId && HeldAt(w, caseId).Some? && caseId in w.service.applications
    case _ => false
  }

  lemma HeldActor(w: World, id: Id, f: Frame)
    requires Reserved(w) && HeldAt(w, id) == Some(f)
    ensures f.actor.caseId == id && id in w.service.applications
  {
    hide Standing, CaseStands, Earlier;
    assert id in w.held.Keys;
  }

  lemma GuardedWaits(w: World, call: Section, op: Op, caseId: Id)
    requires Reserved(w) && BusyCase(w.service, caseId) && Guarded(w, call) && OpOf(w, call) == Some(op)
    requires MayTouchPeer(w.service.state, op, caseId)
    ensures RecordsHeldOutcome(w, call, caseId)
  {
    hide Reserved, BusyCase, CommandReserved, SelectsTask, PeerCaseBusy, ExtensionBusy, RecoveryReserved, MayPublish, Selectable, SourceInputs,
         PeerCaseOf, FrameProposal, FrameCase;
    match call
    case ExecuteCall(_, command, _, _, _, _) => BusyRefusesCommand(w.service, command, caseId);
    case WorkerCall(actor, _, _, _, _, _, _, _) => BusyRefusesWorker(w.service, actor);
    case AdmitCall(ticket, _, _, _, _) =>
      match FrameAt(w, ticket) { case Some(f) => BusyRefusesFrame(w.service, f.actor, f.noteId); case None => }
    case FinishCall(id, _, _, _, _, _) =>
      match HeldAt(w, id) { case Some(f) => HeldActor(w, id, f); case None => }
    case _ =>
  }

  /** While a case is reserved, or a task of it is changing hands, its peer record only grows by the outcome of the
      application that holds it. */
  lemma OnlyTheOutcome(w: World, call: Section, op: Op, p: Publication, caseId: Id)
    requires Reserved(w) && BusyCase(w.service, caseId) && After(w, call).service.state != w.service.state
    requires OpOf(w, call) == Some(op) && Attempt(w.service.state, op) == Candidate(p) && PeerTouch(p, caseId)
    ensures RecordsHeldOutcome(w, call, caseId)
  {
    hide Reserved, BusyCase, After, OpOf, Attempt, PeerTouch, Guarded, RecordsHeldOutcome, CommandBody, ExtendBody, ObserveBody, WorkerBody,
         AdmitApplication, PublishOutcome, Submissions.Submit, RecoverStep, CasePendingUnsettled, Decodable, CommandShape, WorkerShape,
         ApplicationShape, PostsRecord, ApplicationRecord, PeerCaseOf;
    var s := w.service.state;
    ChangedIsGuarded(w, call);
    Shapes.Shapes(s, op, p);
    match op {
      case CommandOp(owner, command, elected, newId) => CommandPeerCase(s, owner, command, elected, newId, p, caseId);
      case WorkerOp(actor, k, operation, bytes, newId) => WorkerPeerCase(s, actor, MainKey(actor, k), operation, bytes, newId, p, caseId);
      case AdmitOp(actor, k, noteId, _, _, newId) => ApplicationPeerCase(actor, PendingKey(actor, k), noteId, newId, p, caseId);
      case OutcomeOp(actor, k, noteId, _, _, _, _, _, _, newId) => ApplicationPeerCase(actor, OutcomeKey(actor, k), noteId, newId, p, caseId);
      case _ => OthersTouchNoPeer(op, p, caseId);
    }
    GuardedWaits(w, call, op, caseId);
  }
}
