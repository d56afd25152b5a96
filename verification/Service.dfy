/** The in-memory reservations of the coordination service.  Each function is one critical section: what
    is captured is read in one, rechecked in a later one, and other sections run in between. */
module Service {
  import opened ControlTypes
  import opened Records
  import opened Publications
  import opened Ledger
  import opened Capacity
  import opened ObservedCases

  /** `applications` are cases reserved for a task's effect or its disclosure of source detail; `transitionCases` and `transitionTasks` belong to task
      transitions, counted by `epoch`; a retiring task is in `retirements`, and `versions` counts its retirements. */
  datatype Service = Service(
    state: Control, applications: set<Id>, transitionCases: set<Id>, transitionTasks: set<Id>, epoch: nat,
    retirements: set<Id>, versions: map<Id, nat>)

  datatype Reply =
    | Denied(error: Error)
    | Answered(answer: Answer)
    | Published(publication: Publication)
    | Inspect(versions: seq<(Id, nat)>)
    | Affects(cases: set<Id>)
    | Done

  function Version(versions: map<Id, nat>, task: Id): nat {
    if task in versions then versions[task] else 0
  }

  /** The store accepts a candidate that fits and whose delivery clauses decode. */
  function Settle(v: Service, o: Outcome, bytes: nat): (Service, Reply) {
    match o
    case Refused(e) => (v, Denied(e))
    case Recorded(a) => (v, Answered(a))
    case Candidate(p) =>
      var next := Publish(v.state, p);
      if !CapacityOk(next, bytes) then (v, Denied(Error.Capacity))
      else if !ObservedOk(next.works, next.cases) then (v, Denied(Invalid))
      else (v.(state := next), Published(p))
  }

  // ---------- what a section checks ----------

  function TaskOf(ws: seq<Work>, workId: Id): Option<Id> {
    if HasWork(ws, workId) && ws[WorkIndex(ws, workId)].managed.Some? then Some(ws[WorkIndex(ws, workId)].managed.value.taskId) else None
  }

  predicate SelectsTask(ws: seq<Work>, inputs: seq<Selection>, tasks: set<Id>) {
    exists k :: 0 <= k < |inputs| && TaskOf(ws, inputs[k].workId).Some? && TaskOf(ws, inputs[k].workId).value in tasks
  }

  /** The case is reserved by a task's effect or one of its tasks is changing hands. */
  predicate CaseBusy(v: Service, item: Case) {
    item.id in v.applications || item.id in v.transitionCases || SelectsTask(v.state.works, item.inputs, v.transitionTasks)
  }

  predicate WorkerBusy(v: Service, actor: WorkerActor, item: Case) {
    actor.taskId in v.transitionTasks || CaseBusy(v, item)
  }

  /** Some reserved case selects the work. */
  predicate WorkReserved(v: Service, workId: Id) {
    exists i :: 0 <= i < |v.state.cases| && v.state.cases[i].id in v.applications && Selects(v.state.cases[i], workId)
  }

  predicate CommandReserved(v: Service, command: Command) {
    (IsCaseChange(command) && HasCase(v.state.cases, command.caseId) && command.caseId in v.applications) ||
    (IsWorkChange(command) && WorkReserved(v, command.workId))
  }

  predicate VersionsCurrent(v: Service, captured: seq<(Id, nat)>) {
    forall k :: 0 <= k < |captured| ==> captured[k].0 !in v.retirements && Version(v.versions, captured[k].0) == captured[k].1
  }

  function SourceInputs(s: Control, command: Command): seq<Selection> {
    if command.SelectInputs? then command.inputs
    else if command.BeginExternal? && HasCase(s.cases, command.caseId) then s.cases[CaseIndex(s.cases, command.caseId)].inputs
    else []
  }

  /** The case of the peer record a note command is about. */
  function PeerCaseOf(s: Control, command: Command): Option<Id> {
    match command
    case PostNote(_, _, _, text, _, _) => if text.PeerText? then Some(text.record.evidence.caseId) else None
    case AckNote(_, noteId) => NotePeerCase(s, noteId)
    case WithdrawNote(_, noteId) => NotePeerCase(s, noteId)
    case _ => None
  }

  function NotePeerCase(s: Control, noteId: Id): Option<Id> {
    if HasNote(s.notes, noteId) && s.notes[NoteIndex(s.notes, noteId)].text.PeerText?
    then Some(s.notes[NoteIndex(s.notes, noteId)].text.record.evidence.caseId) else None
  }

  predicate PeerCaseBusy(v: Service, command: Command) {
    var id := PeerCaseOf(v.state, command);
    id.Some? && HasCase(v.state.cases, id.value) && CaseBusy(v, v.state.cases[CaseIndex(v.state.cases, id.value)])
  }

  // ---------- ordinary sections ----------

  function Execute(v: Service, owner: ParentId, command: Command, captured: seq<(Id, nat)>, elected: bool, newId: Id, bytes: nat): (Service, Reply) {
    if CommandReserved(v, command) then (v, Denied(OperationStale))
    else
      var o := ExecuteCommand(v.state, owner, command, elected, newId);
      if !o.Candidate? then Settle(v, o, bytes)
      else if !VersionsCurrent(v, captured) then (v, Denied(ResourceChanged))
      else if SelectsTask(v.state.works, SourceInputs(v.state, command), v.retirements) then (v, Denied(RetirementActive))
      else if command.RegisterTaskWork? && command.managed.taskId in v.retirements then (v, Denied(RetirementActive))
      else if PeerCaseBusy(v, command) then (v, Denied(OperationStale))
      else Settle(v, o, bytes)
  }

  function WorkTasks(ws: seq<Work>, inputs: seq<Selection>): seq<Id> {
    if inputs == [] then []
    else
      var task := TaskOf(ws, inputs[0].workId);
      (if task.Some? then [task.value] else []) + WorkTasks(ws, inputs[1..])
  }

  function CapturedVersions(v: Service, tasks: seq<Id>): (r: seq<(Id, nat)>)
    ensures |r| == |tasks|
    ensures forall k :: 0 <= k < |r| ==> r[k] == (tasks[k], Version(v.versions, tasks[k]))
  {
    seq(|tasks|, k requires 0 <= k < |tasks| => (tasks[k], Version(v.versions, tasks[k])))
  }

  /** The permission-checked read before the source inspection of a claim, a selection or an external effect. */
  function Prepare(v: Service, owner: ParentId, command: Command): Reply
    requires command.ClaimTarget? || command.SelectInputs? || command.BeginExternal?
  {
    var s := v.state;
    match OrdinaryKey(s, owner, command.key, CommandRequest(owner, command))
    case ConflictingKey => Denied(KeyConflict)
    case RecordedKey(r) => Answered(ReceiptAnswer(r))
    case FreshKey =>
      if command.ClaimTarget? then Inspect([])
      else
        match OwnCase(s, owner, command.caseId, command.expectedRevision, command.generation)
        case Err(e) => Denied(e)
        case Ok(i) =>
          var inputs := if command.SelectInputs? then command.inputs else s.cases[i].inputs;
          if s.cases[i].effect != NotStarted then Denied(EffectUnresolved)
          else if !InputsVisible(s, [owner], inputs) || !InputsVisible(s, s.cases[i].members, inputs) then Denied(NotFound)
          else if SelectsTask(s.works, inputs, v.retirements) then Denied(RetirementActive)
          else Inspect(CapturedVersions(v, WorkTasks(s.works, inputs)))
  }

  predicate ExtensionBusy(v: Service, x: Extension) {
    var s := v.state;
    HasCase(s.cases, x.caseId) &&
    var item := s.cases[CaseIndex(s.cases, x.caseId)];
    var inputs := item.inputs + [Selection(x.newWorkId, x.targetOid)];
    item.id in v.applications || item.id in v.transitionCases ||
    SelectsTask(s.works, inputs, v.transitionTasks) || SelectsTask(s.works, inputs, v.retirements)
  }

  function Extend(v: Service, owner: ParentId, key: Key, x: Extension, bytes: nat): (Service, Reply) {
    var o := ExtendCase(v.state, owner, key, x);
    if o.Candidate? && ExtensionBusy(v, x) then (v, Denied(OperationStale)) else Settle(v, o, bytes)
  }

  function Observe(v: Service, owner: ParentId, key: Key, o: Observation, guardEpoch: Id, guardRevision: nat, bytes: nat): (Service, Reply) {
    Settle(v, ObserveDelivery(v.state, owner, key, o, guardEpoch, guardRevision), bytes)
  }

  predicate RecoveryReserved(v: Service, r: Recovery) {
    if TouchesWork(r.action) then WorkReserved(v, r.itemId) else r.itemId in v.applications
  }

  function Recover(v: Service, operator: ParentId, r: Recovery, bytes: nat): (Service, Reply) {
    if RecoveryReserved(v, r) then (v, Denied(OperationStale)) else Settle(v, RecoverStep(v.state, operator, r), bytes)
  }

  function Submit(v: Service, owner: ParentId, key: Key, input: SubmissionInput, bytes: nat): (Service, Reply) {
    Settle(v, SubmitStep(v.state, owner, key, input), bytes)
  }

  /** A worker mutation, against the revision and epoch its authority was checked at. */
  function Worker(v: Service, actor: WorkerActor, k: string, operation: WorkerOperation, noteBytes: nat, newId: Id,
                  revision: nat, epoch: nat, bytes: nat): (Service, Reply)
  {
    match WorkerCase(v.state, actor)
    case Err(e) => (v, Denied(e))
    case Ok(c) =>
      if WorkerBusy(v, actor, v.state.cases[c]) then (v, Denied(OperationStale))
      else if v.state.revision != revision || v.epoch != epoch then (v, Denied(OperationStale))
      else Settle(v, WorkerStep(v.state, actor, k, operation, noteBytes, newId), bytes)
  }

  // ---------- applications ----------

  /** What a task application captures before its effect is authorized: the whole state it was read in. */
  datatype Frame = Frame(actor: WorkerActor, operation: string, noteId: Id, captured: Control, epoch: nat)

  predicate Selectable(v: Service, actor: WorkerActor, noteId: Id) {
    WorkerCase(v.state, actor).Ok? &&
    var item := v.state.cases[WorkerCase(v.state, actor).value];
    !WorkerBusy(v, actor, item) && HasNote(v.state.notes, noteId) &&
    ApplicableProposal(v.state, actor, item, NoteIndex(v.state.notes, noteId))
  }

  function Capture(v: Service, actor: WorkerActor, operation: string, noteId: Id): Option<Frame> {
    if Selectable(v, actor, noteId) then Some(Frame(actor, operation, noteId, v.state, v.epoch)) else None
  }

  /** Admission: the captured revision and epoch still stand, and the case is then reserved. */
  function Admit(v: Service, f: Frame, digest: Digest, noteBytes: nat, newId: Id, bytes: nat): (Service, Reply) {
    if !Selectable(v, f.actor, f.noteId) then (v, Denied(OperationForbidden))
    else if v.state.revision != f.captured.revision || v.epoch != f.epoch then (v, Denied(OperationStale))
    else
      match AdmitApplication(v.state, f.actor, f.operation, f.noteId, digest, noteBytes, newId)
      case NotAdmitted(e) => (v, Denied(e))
      case AlreadyAdmitted => (v.(applications := v.applications + {f.actor.caseId}), Done)
      case Admits(p) =>
        var (w, reply) := Settle(v, Candidate(p), bytes);
        if reply.Published? then (w.(applications := w.applications + {f.actor.caseId}), Done) else (v, reply)
  }

  function FrameProposal(f: Frame): Option<PeerRecord> {
    var s := f.captured;
    if HasNote(s.notes, f.noteId) && s.notes[NoteIndex(s.notes, f.noteId)].text.PeerText? &&
       s.notes[NoteIndex(s.notes, f.noteId)].text.record.Proposal?
    then Some(s.notes[NoteIndex(s.notes, f.noteId)].text.record) else None
  }

  function FrameCase(f: Frame): Option<Case> {
    if HasCase(f.captured.cases, f.actor.caseId) then Some(f.captured.cases[CaseIndex(f.captured.cases, f.actor.caseId)]) else None
  }

  /** What a case publication, the disclosure of source detail, captures before its worker is authorized. */
  datatype Look = Look(actor: WorkerActor, captured: Control, epoch: nat)

  predicate MayPublish(v: Service, actor: WorkerActor) {
    WorkerCase(v.state, actor).Ok? && !WorkerBusy(v, actor, v.state.cases[WorkerCase(v.state, actor).value])
  }

  function LookAt(v: Service, actor: WorkerActor): Option<Look> {
    if MayPublish(v, actor) then Some(Look(actor, v.state, v.epoch)) else None
  }

  /** The captured revision and epoch still stand, and the case is then reserved for the publication. */
  function BeginPublication(v: Service, l: Look): (Service, Reply) {
    if !MayPublish(v, l.actor) then (v, Denied(OperationForbidden))
    else if v.state.revision != l.captured.revision || v.epoch != l.epoch then (v, Denied(OperationStale))
    else (v.(applications := v.applications + {l.actor.caseId}), Done)
  }

  /** Publication of the effect's outcome against the captured case version. */
  function FinishApplication(v: Service, f: Frame, digest: Digest, status: ApplicationStatus, noteBytes: nat, newId: Id, bytes: nat): (Service, Reply) {
    match (FrameProposal(f), FrameCase(f))
    case (Some(proposal), Some(c)) =>
      Settle(v, PublishOutcome(v.state, f.actor, f.operation, f.noteId, proposal, c.revision, c.generation, digest, status, noteBytes, newId), bytes)
    case _ => (v, Denied(Invalid))
  }

  function EndApplication(v: Service, caseId: Id): Service {
    v.(applications := v.applications - {caseId})
  }

  // ---------- task transitions ----------

  /** The active cases that select the task. */
  function Affected(s: Control, task: Id): set<Id> {
    set i | 0 <= i < |s.cases| && s.cases[i].state == Active && SelectsTask(s.works, s.cases[i].inputs, {task}) :: s.cases[i].id
  }

  function BeginTransition(v: Service, task: Id): (Service, Reply) {
    var affected := Affected(v.state, task);
    if task in v.transitionTasks || affected * (v.transitionCases + v.applications) != {} then (v, Denied(OperationStale))
    else (v.(transitionTasks := v.transitionTasks + {task}, transitionCases := v.transitionCases + affected, epoch := v.epoch + 1), Affects(affected))
  }

  function EndTransition(v: Service, task: Id, affected: set<Id>): Service {
    v.(transitionTasks := v.transitionTasks - {task}, transitionCases := v.transitionCases - affected, epoch := v.epoch + 1)
  }

  /** A task already stopped for good: whatever was checked before no longer stands. */
  function InvalidateCancelled(v: Service): Service { v.(epoch := v.epoch + 1) }

  // ---------- retirement ----------

  predicate EnrolledTask(ws: seq<Work>, task: Id) {
    exists i :: 0 <= i < |ws| && ws[i].managed.Some? && ws[i].managed.value.taskId == task
  }

  function ReserveRetirement(v: Service, task: Id): (Service, Reply) {
    if Affected(v.state, task) != {} then (v, Denied(ResultSelected))
    else if task in v.retirements then (v, Denied(RetirementActive))
    else
      var versions := if EnrolledTask(v.state.works, task) then v.versions[task := Version(v.versions, task) + 1] else v.versions;
      (v.(versions := versions, retirements := v.retirements + {task}), Done)
  }

  function ReleaseRetirement(v: Service, task: Id): Service {
    var versions := if task in v.versions then v.versions[task := v.versions[task] + 1] else v.versions;
    v.(retirements := v.retirements - {task}, versions := versions)
  }
}
