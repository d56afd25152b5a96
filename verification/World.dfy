/** All interleavings of the service's critical sections: every run of calls, with the applications that
    are between their sections kept beside the service state. */
module World {
  import opened ControlTypes
  import opened Records
  import opened Publications
  import opened Invariant
  import opened Ledger
  import opened Service
  import opened Shapes
  import opened Steps
  import opened Runs
  import CaseRuns
  import Retained
  import Retention
  import Licences
  import Submissions
  import Capacity
  import ObservedCases

  datatype Section =
    | ExecuteCall(owner: ParentId, command: Command, versions: seq<(Id, nat)>, elected: bool, newId: Id, bytes: nat)
    | ExtendCall(owner: ParentId, key: Key, extension: Extension, bytes: nat)
    | ObserveCall(owner: ParentId, key: Key, observation: Observation, guardEpoch: Id, guardRevision: nat, bytes: nat)
    | RecoverCall(operator: ParentId, recovery: Recovery, bytes: nat)
    | SubmitCall(owner: ParentId, key: Key, input: SubmissionInput, bytes: nat)
    | WorkerCall(actor: WorkerActor, operationKey: string, operation: WorkerOperation, noteBytes: nat, newId: Id,
                 revision: nat, epoch: nat, bytes: nat)
    | CaptureCall(ticket: nat, actor: WorkerActor, operationKey: string, noteId: Id)
    | AdmitCall(ticket: nat, digest: Digest, noteBytes: nat, newId: Id, bytes: nat)
    | FinishCall(caseId: Id, digest: Digest, status: ApplicationStatus, noteBytes: nat, newId: Id, bytes: nat)
    | LookCall(ticket: nat, actor: WorkerActor)
    | PublicationCall(ticket: nat)
    | EndCall(caseId: Id)
    | BeginTransitionCall(task: Id)
    | EndTransitionCall(task: Id, affected: set<Id>)
    | CancelledCall(task: Id)
    | ReserveCall(task: Id)
    | ReleaseCall(task: Id)

  /** `pending` are applications captured but not admitted, `held` those whose case is reserved; `looking` and `shown` are
      the same for disclosures of source detail. */
  datatype World = World(service: Service, pending: map<nat, Frame>, held: map<Id, Frame>, looking: map<nat, Look>, shown: map<Id, Look>)

  /** What a section leaves of the service. */
  function Served(w: World, r: (Service, Reply)): World { w.(service := r.0) }

  function CaptureIn(w: World, ticket: nat, actor: WorkerActor, k: string, noteId: Id): World {
    match Capture(w.service, actor, k, noteId)
    case Some(f) => w.(pending := w.pending[ticket := f])
    case None => w
  }

  /** The frame waits no longer; admitted, it holds its case. */
  function Admitted(w: World, ticket: nat, f: Frame, r: (Service, Reply)): World {
    if r.1.Done? then w.(service := r.0, pending := w.pending - {ticket}, held := w.held[f.actor.caseId := f])
    else w.(service := r.0, pending := w.pending - {ticket})
  }

  function FrameAt(w: World, ticket: nat): Option<Frame> { if ticket in w.pending then Some(w.pending[ticket]) else None }
  function HeldAt(w: World, caseId: Id): Option<Frame> { if caseId in w.held then Some(w.held[caseId]) else None }
  function LookOf(w: World, ticket: nat): Option<Look> { if ticket in w.looking then Some(w.looking[ticket]) else None }

  function AdmitIn(w: World, ticket: nat, digest: Digest, noteBytes: nat, newId: Id, bytes: nat): World {
    match FrameAt(w, ticket)
    case Some(f) => Admitted(w, ticket, f, Admit(w.service, f, digest, noteBytes, newId, bytes))
    case None => w
  }

  function FinishIn(w: World, caseId: Id, digest: Digest, status: ApplicationStatus, noteBytes: nat, newId: Id, bytes: nat): World {
    match HeldAt(w, caseId)
    case Some(f) => Served(w, FinishApplication(w.service, f, digest, status, noteBytes, newId, bytes))
    case None => w
  }

  function LookIn(w: World, ticket: nat, actor: WorkerActor): World {
    match LookAt(w.service, actor)
    case Some(l) => w.(looking := w.looking[ticket := l])
    case None => w
  }

  /** The look waits no longer; begun, its disclosure holds its case. */
  function Shown(w: World, ticket: nat, l: Look, r: (Service, Reply)): World {
    if r.1.Done? then w.(service := r.0, looking := w.looking - {ticket}, shown := w.shown[l.actor.caseId := l])
    else w.(looking := w.looking - {ticket})
  }

  function ShowIn(w: World, ticket: nat): World {
    match LookOf(w, ticket)
    case Some(l) => Shown(w, ticket, l, BeginPublication(w.service, l))
    case None => w
  }

  function EndIn(w: World, caseId: Id): World {
    w.(service := EndApplication(w.service, caseId), held := w.held - {caseId}, shown := w.shown - {caseId})
  }

  function After(w: World, call: Section): World {
    match call
    case ExecuteCall(owner, command, versions, elected, newId, bytes) => Served(w, Execute(w.service, owner, command, versions, elected, newId, bytes))
    case ExtendCall(owner, key, x, bytes) => Served(w, Extend(w.service, owner, key, x, bytes))
    case ObserveCall(owner, key, o, epoch, revision, bytes) => Served(w, Observe(w.service, owner, key, o, epoch, revision, bytes))
    case RecoverCall(operator, r, bytes) => Served(w, Recover(w.service, operator, r, bytes))
    case SubmitCall(owner, key, input, bytes) => Served(w, Submit(w.service, owner, key, input, bytes))
    case WorkerCall(actor, k, operation, noteBytes, newId, revision, epoch, bytes) =>
      Served(w, Worker(w.service, actor, k, operation, noteBytes, newId, revision, epoch, bytes))
    case CaptureCall(ticket, actor, k, noteId) => CaptureIn(w, ticket, actor, k, noteId)
    case AdmitCall(ticket, digest, noteBytes, newId, bytes) => AdmitIn(w, ticket, digest, noteBytes, newId, bytes)
    case FinishCall(caseId, digest, status, noteBytes, newId, bytes) => FinishIn(w, caseId, digest, status, noteBytes, newId, bytes)
    case LookCall(ticket, actor) => LookIn(w, ticket, actor)
    case PublicationCall(ticket) => ShowIn(w, ticket)
    case EndCall(caseId) => EndIn(w, caseId)
    case BeginTransitionCall(task) => Served(w, BeginTransition(w.service, task))
    case EndTransitionCall(task, affected) => w.(service := EndTransition(w.service, task, affected))
    case CancelledCall(_) => w.(service := InvalidateCancelled(w.service))
    case ReserveCall(task) => Served(w, ReserveRetirement(w.service, task))
    case ReleaseCall(task) => w.(service := ReleaseRetirement(w.service, task))
  }

  function AdmitOpOf(f: Frame, digest: Digest, noteBytes: nat, newId: Id): Op {
    AdmitOp(f.actor, f.operation, f.noteId, digest, noteBytes, newId)
  }

  function OutcomeOpOf(f: Frame, digest: Digest, status: ApplicationStatus, noteBytes: nat, newId: Id): Option<Op> {
    match (FrameProposal(f), FrameCase(f))
    case (Some(proposal), Some(c)) =>
      Some(OutcomeOp(f.actor, f.operation, f.noteId, proposal, c.revision, c.generation, digest, status, noteBytes, newId))
    case _ => None
  }

  /** The ledger operation a call may publish. */
  function OpOf(w: World, call: Section): Option<Op> {
    match call
    case ExecuteCall(owner, command, _, elected, newId, _) => Some(CommandOp(owner, command, elected, newId))
    case ExtendCall(owner, key, x, _) => Some(ExtendOp(owner, key, x))
    case ObserveCall(owner, key, o, epoch, revision, _) => Some(ObserveOp(owner, key, o, epoch, revision))
    case RecoverCall(operator, r, _) => Some(RecoverOp(operator, r))
    case SubmitCall(owner, key, input, _) => Some(SubmitOp(owner, key, input))
    case WorkerCall(actor, k, operation, noteBytes, newId, _, _, _) => Some(WorkerOp(actor, k, operation, noteBytes, newId))
    case AdmitCall(ticket, digest, noteBytes, newId, _) =>
      (match FrameAt(w, ticket) case Some(f) => Some(AdmitOpOf(f, digest, noteBytes, newId)) case None => None)
    case FinishCall(caseId, digest, status, noteBytes, newId, _) =>
      (match HeldAt(w, caseId) case Some(f) => OutcomeOpOf(f, digest, status, noteBytes, newId) case None => None)
    case _ => None
  }

  // ---------- a section publishes its operation or leaves the ledger alone ----------

  /** The call left the stored record alone, or published what its ledger operation accepted. */
  predicate PublishesOp(w: World, call: Section, t: Control) {
    t == w.service.state ||
    match OpOf(w, call)
    case Some(op) => Accepts(w.service.state, op) && t == Step(w.service.state, op)
    case None => false
  }

  /** A call changes the stored record only by publishing what its ledger operation accepts. */
  lemma CallPublishes(w: World, call: Section)
    ensures PublishesOp(w, call, After(w, call).service.state)
  {
    hide ExecuteCommand, ExtendCase, ObserveDelivery, WorkerStep, AdmitApplication, PublishOutcome, SubmitStep, RecoverStep, Publish,
         Capacity.CapacityOk, ObservedCases.ObservedOk, CommandReserved, VersionsCurrent, SelectsTask, PeerCaseBusy, SourceInputs, ExtensionBusy,
         RecoveryReserved, WorkerCase, WorkerBusy, Selectable, MayPublish, FrameProposal, FrameCase, Affected, EnrolledTask;
  }

  /** The calls that run one ledger operation and nothing else. */
  predicate LedgerCall(call: Section) {
    call.ExecuteCall? || call.ExtendCall? || call.ObserveCall? || call.RecoverCall? || call.SubmitCall? || call.WorkerCall? || call.FinishCall?
  }

  /** Such a call moves nothing but the stored record. */
  lemma LedgerCallSettles(w: World, call: Section)
    requires LedgerCall(call)
    ensures After(w, call) == w.(service := w.service.(state := After(w, call).service.state))
  {
    hide ExecuteCommand, ExtendCase, ObserveDelivery, WorkerStep, AdmitApplication, PublishOutcome, SubmitStep, RecoverStep, Publish,
         Capacity.CapacityOk, ObservedCases.ObservedOk, CommandReserved, VersionsCurrent, SelectsTask, PeerCaseBusy, SourceInputs, ExtensionBusy,
         RecoveryReserved, WorkerCase, WorkerBusy, FrameProposal, FrameCase, AdmitIn, CaptureIn, LookIn, ShowIn, EndIn, BeginTransition,
         EndTransition, InvalidateCancelled, ReserveRetirement, ReleaseRetirement;
  }

  predicate AdmissibleCall(w: World, call: Section) {
    match OpOf(w, call)
    case Some(op) => Admissible(w.service.state, op)
    case None => true
  }

  /** The call changed the stored record by publishing this. */
  ghost predicate CallPublished(w: World, call: Section, op: Op, p: Publication) {
    OpOf(w, call) == Some(op) && Retained.Published(w.service.state, op, p) && After(w, call).service.state == Publish(w.service.state, p)
  }

  /** Every section keeps the ledger invariant and everything retained, and changes the stored record only by a publication. */
  lemma CallKeeps(w: World, call: Section)
    requires Inv(w.service.state) && AdmissibleCall(w, call)
    ensures Inv(After(w, call).service.state) && Retained.Later(w.service.state, After(w, call).service.state)
    ensures After(w, call).service.state == w.service.state || exists op, p :: CallPublished(w, call, op, p)
  {
    hide Inv, After, OpOf, Attempt, Publish, Admissible, Retained.Later, Sound, Opened, Shape;
    var s := w.service.state;
    CallPublishes(w, call);
    Retained.InvUnique(s);
    Retained.LaterReflexive(s);
    match OpOf(w, call)
    case Some(op) =>
      match Attempt(s, op) {
        case Candidate(p) =>
          Retained.StepPublishes(s, op, p);
          if After(w, call).service.state != s { assert CallPublished(w, call, op, p); }
        case _ =>
      }
    case None =>
  }

  // ---------- the guards a publishing call passed ----------

  /** What the section checked before it published. */
  predicate Guarded(w: World, call: Section) {
    match call
    case ExecuteCall(_, command, _, _, _, _) =>
      !CommandReserved(w.service, command) && !SelectsTask(w.service.state.works, SourceInputs(w.service.state, command), w.service.retirements) &&
      !PeerCaseBusy(w.service, command)
    case ExtendCall(_, _, x, _) => !ExtensionBusy(w.service, x)
    case RecoverCall(_, r, _) => !RecoveryReserved(w.service, r)
    case WorkerCall(actor, _, _, _, _, _, _, _) => MayPublish(w.service, actor)
    case AdmitCall(ticket, _, _, _, _) => (match FrameAt(w, ticket) case Some(f) => Selectable(w.service, f.actor, f.noteId) case None => false)
    case ObserveCall(_, _, _, _, _, _) => true
    case SubmitCall(_, _, _, _) => true
    case FinishCall(caseId, _, _, _, _, _) => HeldAt(w, caseId).Some?
    case _ => false
  }

  /** Whatever changes the stored record passed its guard. */
  lemma ChangedIsGuarded(w: World, call: Section)
    requires After(w, call).service.state != w.service.state
    ensures Guarded(w, call)
  {
    hide ExecuteCommand, ExtendCase, ObserveDelivery, WorkerStep, AdmitApplication, PublishOutcome, SubmitStep, RecoverStep, Publish,
         Capacity.CapacityOk, ObservedCases.ObservedOk, CommandReserved, VersionsCurrent, SelectsTask, PeerCaseBusy, SourceInputs, ExtensionBusy,
         RecoveryReserved, WorkerCase, WorkerBusy, Selectable, FrameProposal, FrameCase, Affected, EnrolledTask;
  }

  // ---------- what a call can touch ----------

  /** The records an ordinary operation may change: a work by its identity, a case by its identity. */
  predicate MayChangeWork(op: Op, id: Id) {
    match op
    case CommandOp(_, command, _, _) => IsWorkChange(command) && command.workId == id
    case RecoverOp(_, r) => TouchesWork(r.action) && r.itemId == id
    case _ => false
  }

  predicate MayChangeCase(op: Op, id: Id) {
    match op
    case CommandOp(_, command, _, _) => IsCaseChange(command) && command.caseId == id
    case ExtendOp(_, _, x) => x.caseId == id
    case RecoverOp(_, r) => !TouchesWork(r.action) && r.itemId == id
    case _ => false
  }

  /** The version, the inputs and the state of a case. */
  predicate SameVersion(was: Case, c: Case) {
    c.id == was.id && c.revision == was.revision && c.generation == was.generation && c.inputs == was.inputs && c.state == was.state
  }

  /** A publication changes only the work or case its operation names, apart from delivery bookkeeping. */
  predicate Touches(s: Control, op: Op, p: Publication) {
    match p
    case Ordinary(ch, _, _) => TouchesChange(s, op, ch)
    case Recovering(ch, _, _) => TouchesChange(s, op, ch)
    case Submitting(_, _, _, _) => true
  }

  predicate TouchesChange(s: Control, op: Op, ch: Change) {
    match ch
    case SetWork(i, w) => i < |s.works| && s.works[i].id == w.id && MayChangeWork(op, w.id)
    case SetCase(i, c) => i < |s.cases| && s.cases[i].id == c.id && (MayChangeCase(op, c.id) || SameVersion(s.cases[i], c))
    case _ => true
  }

  lemma CommandSetsWork(s: Control, owner: ParentId, command: Command, elected: bool, newId: Id, i: nat, w: Work, schema: nat, r: Receipt)
    requires CommandBody(s, owner, command, elected, newId) == Ok(Ordinary(SetWork(i, w), schema, r))
    ensures TouchesChange(s, CommandOp(owner, command, elected, newId), SetWork(i, w))
  {
    hide CommandAdmitted, Register, PostedNote, AnsweredNote, ClaimedCase, ChangedCase, OwnCase, CommandSchema, CanReadSelectedWork, ActionOf;
  }

  lemma RecoverySetsWork(s: Control, operator: ParentId, recovery: Recovery, i: nat, w: Work, schema: nat, r: RecoveryReceipt)
    requires RecoverStep(s, operator, recovery) == Candidate(Recovering(SetWork(i, w), schema, r))
    ensures TouchesChange(s, RecoverOp(operator, recovery), SetWork(i, w))
  {
    hide RecoveredCase, Blank, RecoveryFor, ReceiptKeyUsed, EventKeyUsed;
  }

  lemma MovedTouches(s: Control, op: Op, i: nat, c: Case)
    requires CaseRuns.MovedAt(s, op, i, c)
    ensures TouchesChange(s, op, SetCase(i, c))
  {
    hide ChangedCase, RecoveredCase;
  }

  lemma OpenedTouches(s: Control, op: Op, p: Publication)
    requires Opened(s, op, p) && Shape(op, p)
    ensures Touches(s, op, p)
  {
    hide CommandBody, ExtendBody, ObserveBody, WorkerBody, AdmitApplication, PublishOutcome, Submissions.Submit, RecoverStep, CasePendingUnsettled,
         Decodable, CommandChange, PostsRecord, ApplicationRecord, ActionOf, TouchesChange, CaseRuns.MovedAt;
    match p
    case Ordinary(SetWork(i, w), schema, r) => CommandSetsWork(s, op.owner, op.command, op.elected, op.newId, i, w, schema, r);
    case Ordinary(SetCase(i, c), _, _) =>
      CaseRuns.CaseMoves(s, op, p, i, c);
      MovedTouches(s, op, i, c);
    case Recovering(SetWork(i, w), schema, r) => RecoverySetsWork(s, op.operator, op.recovery, i, w, schema, r);
    case Recovering(SetCase(i, c), _, _) =>
      CaseRuns.CaseMoves(s, op, p, i, c);
      MovedTouches(s, op, i, c);
    case Ordinary(ch, _, _) => TouchesNothing(s, op, ch);
    case _ =>
  }

  lemma TouchesNothing(s: Control, op: Op, ch: Change)
    requires !ch.SetWork? && !ch.SetCase?
    ensures TouchesChange(s, op, ch)
  {
  }

  // ---------- a case that nothing may change keeps its version ----------

  predicate WorkRevisionKept(s: Control, t: Control, id: Id) {
    HasWork(s.works, id) ==> HasWork(t.works, id) && t.works[WorkIndex(t.works, id)].revision == s.works[WorkIndex(s.works, id)].revision
  }

  predicate CaseVersionKept(s: Control, t: Control, id: Id) {
    HasCase(s.cases, id) ==> HasCase(t.cases, id) && SameVersion(s.cases[CaseIndex(s.cases, id)], t.cases[CaseIndex(t.cases, id)])
  }

  lemma UntouchedWork(s: Control, op: Op, p: Publication, id: Id)
    requires UniqueWorks(s.works) && UniqueWorks(Publish(s, p).works) && Touches(s, op, p) && !MayChangeWork(op, id)
    ensures WorkRevisionKept(s, Publish(s, p), id)
  {
    hide MayChangeWork, MayChangeCase, SameVersion;
    var t := Publish(s, p);
    if HasWork(s.works, id) {
      var i := WorkIndex(s.works, id);
      assert t.works[i].id == id;
      Retention.WorkFound(t.works, i);
    }
  }

  lemma UntouchedCase(s: Control, op: Op, p: Publication, id: Id)
    requires UniqueCases(s.cases) && UniqueCases(Publish(s, p).cases) && Touches(s, op, p) && !MayChangeCase(op, id)
    ensures CaseVersionKept(s, Publish(s, p), id)
  {
    hide MayChangeWork, MayChangeCase;
    var t := Publish(s, p);
    if HasCase(s.cases, id) {
      var i := CaseIndex(s.cases, id);
      assert t.cases[i].id == id;
      Licences.CaseFound(t.cases, i);
    }
  }
}
