/** Whole runs of the service: application reservation, retirement exclusion and refused overlaps. */
module ServiceRuns {
  import opened ControlTypes
  import opened Records
  import opened Publications
  import opened Ledger
  import opened Service
  import opened Steps
  import opened Runs
  import opened World
  import opened Reservations
  import opened Exclusion
  import Capacity
  import ObservedCases
  import Retained

  /** Critical sections entered one after the other, in any order, on a service that starts empty. */
  datatype Session = Opening(repository: string, epoch: Id, limits: Limits) | Entered(before: Session, call: Section)

  function Reached(t: Session): World {
    match t
    case Opening(repository, epoch, limits) =>
      World(Service(EmptyControl(repository, epoch, limits), {}, {}, {}, 0, {}, map[]), map[], map[], map[], map[])
    case Entered(before, call) => After(Reached(before), call)
  }

  predicate Played(t: Session) {
    match t
    case Opening(_, _, _) => true
    case Entered(before, call) => Played(before) && AdmissibleCall(Reached(before), call)
  }

  /** The second session goes on from the first. */
  predicate Resumes(t: Session, u: Session) {
    t == u || match u case Opening(_, _, _) => false case Entered(before, _) => Resumes(t, before)
  }

  /** The ledger invariant, the reservations and the exclusion. */
  ghost predicate WorldOk(w: World) {
    Inv(w.service.state) && Reserved(w) && Exclusive(w.service)
  }

  lemma NothingReserved(w: World)
    requires w.pending == map[] && w.held == map[] && w.looking == map[] && w.shown == map[]
    requires w.service.applications == {} && w.service.transitionCases == {} && w.service.state.cases == []
    ensures Reserved(w) && Exclusive(w.service)
  {
    hide Standing, CaseStands, Earlier;
  }

  /** They hold after every section of every session. */
  lemma {:induction false} EveryWorld(t: Session)
    requires Played(t)
    ensures WorldOk(Reached(t))
  {
    hide After, AdmissibleCall, Inv, Reserved, Exclusive, CallPublished, Retained.Later;
    match t
    case Opening(repository, epoch, limits) =>
      EmptyHolds(repository, epoch, limits);
      NothingReserved(Reached(t));
    case Entered(before, call) =>
      EveryWorld(before);
      CallKeeps(Reached(before), call);
      ReservedKept(Reached(before), call);
      ExclusiveKept(Reached(before), call);
  }

  function Sections(t: Session): nat {
    match t
    case Opening(_, _, _) => 0
    case Entered(before, _) => Sections(before) + 1
  }

  lemma {:induction false} ResumesLonger(t: Session, u: Session)
    requires Resumes(t, u)
    ensures t == u || Sections(t) < Sections(u)
  {
    if t != u { ResumesLonger(t, u.before); }
  }

  // ---------- application reservation ----------

  function ShownAt(w: World, caseId: Id): Option<Look> { if caseId in w.shown then Some(w.shown[caseId]) else None }

  /** The case is held by exactly one application or disclosure, which finds it as it was captured. */
  predicate HeldAsCaptured(w: World, id: Id) {
    (id in w.held <==> id !in w.shown) && id !in w.service.transitionCases &&
    (match HeldAt(w, id) case Some(f) => f.actor.caseId == id && Standing(f, w.service.state) case None => true) &&
    (match ShownAt(w, id) case Some(l) => l.actor.caseId == id && CaseStands(l.captured, id, w.service.state) case None => true)
  }

  lemma ReservedIsHeld(w: World, id: Id)
    requires Reserved(w) && id in w.service.applications
    ensures HeldAsCaptured(w, id)
  {
    hide Standing, CaseStands, Earlier;
    assert id in w.held.Keys + w.shown.Keys && id !in w.held.Keys * w.shown.Keys;
    assert id !in w.service.applications * w.service.transitionCases;
  }

  /** While a case is reserved, by an application or by a disclosure of source detail, it is in no task transition, and its
      revision, generation, inputs and the revisions of its selected works are those that were captured with it. */
  lemma ReservationHolds(t: Session, id: Id)
    requires Played(t) && id in Reached(t).service.applications
    ensures HeldAsCaptured(Reached(t), id)
  {
    hide Played, Reached, Inv, Reserved, Exclusive, HeldAsCaptured;
    EveryWorld(t);
    ReservedIsHeld(Reached(t), id);
  }

  /** The outcome is not refused as stale. */
  predicate NotStale(s: Control, o: Option<Op>) {
    match o
    case Some(op) => Attempt(s, op) != Refused(OperationStale)
    case None => false
  }

  lemma StandingIsFresh(s: Control, f: Frame, digest: Digest, status: ApplicationStatus, noteBytes: nat, newId: Id)
    requires Standing(f, s)
    ensures NotStale(s, OutcomeOpOf(f, digest, status, noteBytes, newId))
  {
    hide ExecuteCommand, ExtendCase, ObserveDelivery, WorkerStep, AdmitApplication, SubmitStep, RecoverStep, InputRevisionsKept, ApplicationPosted,
         ApplicationRecord;
  }

  lemma HeldStands(w: World, id: Id, f: Frame)
    requires Reserved(w) && HeldAt(w, id) == Some(f)
    ensures Standing(f, w.service.state)
  {
    hide Standing, CaseStands, Earlier;
  }

  /** The case-version test before an outcome is published never fails for an application that holds its case. */
  lemma OutcomeNeverStale(t: Session, id: Id, f: Frame, digest: Digest, status: ApplicationStatus, noteBytes: nat, newId: Id)
    requires Played(t) && HeldAt(Reached(t), id) == Some(f)
    ensures NotStale(Reached(t).service.state, OutcomeOpOf(f, digest, status, noteBytes, newId))
  {
    hide Played, Reached, Inv, Reserved, Exclusive, HeldAt, Standing, NotStale, OutcomeOpOf;
    EveryWorld(t);
    HeldStands(Reached(t), id, f);
    StandingIsFresh(Reached(t).service.state, f, digest, status, noteBytes, newId);
  }

  // ---------- retirement exclusion ----------

  lemma RetiringIsUnselected(v: Service, task: Id)
    requires Exclusive(v) && task in v.retirements
    ensures Affected(v.state, task) == {}
  {
    hide SelectsTask;
    forall c | c in v.state.cases && c.state == Active ensures !SelectsTask(v.state.works, c.inputs, {task}) {
      FewerTasks(v.state.works, c.inputs, {task}, v.retirements);
    }
  }

  /** In no interleaving is a task both being retired and selected by an active case. */
  lemma NeverRetiredAndSelected(t: Session, task: Id)
    requires Played(t) && task in Reached(t).service.retirements
    ensures Affected(Reached(t).service.state, task) == {}
  {
    hide Played, Reached, Inv, Reserved, Exclusive, Affected;
    EveryWorld(t);
    RetiringIsUnselected(Reached(t).service, task);
  }

  lemma EnrolledStays(s: Control, t: Control, task: Id)
    requires EnrolledTask(s.works, task) && Retained.Later(s, t)
    ensures EnrolledTask(t.works, task)
  {
    var i :| 0 <= i < |s.works| && s.works[i].managed.Some? && s.works[i].managed.value.taskId == task;
    assert Retained.WorkLasts(s.works[i], t);
    var k := WorkIndex(t.works, s.works[i].id);
    assert t.works[k].managed == s.works[i].managed;
  }

  /** The version has not fallen, and has risen if a retirement of the task started in between. */
  predicate VersionMoves(v: Service, u: Service, task: Id) {
    Version(u.versions, task) >= Version(v.versions, task) &&
    (task !in v.retirements && task in u.retirements ==> Version(u.versions, task) > Version(v.versions, task))
  }

  lemma RetirementVersions(v: Service, task: Id, retired: Id)
    requires EnrolledTask(v.state.works, task)
    ensures VersionMoves(v, ReserveRetirement(v, retired).0, task) && VersionMoves(v, ReleaseRetirement(v, retired), task)
  {
    hide EnrolledTask, Affected;
  }

  /** One section: a version never falls, and it rises when an enrolled task's retirement starts. */
  lemma VersionStep(w: World, call: Section, task: Id)
    requires EnrolledTask(w.service.state.works, task)
    ensures VersionMoves(w.service, After(w, call).service, task)
  {
    hide EnrolledTask, AdmitIn, FinishIn, CaptureIn, LookIn, ShowIn, EndIn, BeginTransition, EndTransition, InvalidateCancelled,
         ReserveRetirement, ReleaseRetirement, Execute, Extend, Observe, Recover, Submit, Worker, Version;
    match call
    case ReserveCall(retired) => RetirementVersions(w.service, task, retired);
    case ReleaseCall(retired) => RetirementVersions(w.service, task, retired);
    case _ => QuietRetirements(w, call);
  }

  /** Whether the task is enrolled, and whether it is being retired. */
  predicate EnrolledIn(t: Session, task: Id) { EnrolledTask(Reached(t).service.state.works, task) }
  predicate RetiringIn(t: Session, task: Id) { task in Reached(t).service.retirements }
  function VersionIn(t: Session, task: Id): nat { Version(Reached(t).service.versions, task) }

  /** As long as the version of a task that was enrolled and not retiring stands, it has not been retiring since. */
  lemma {:induction false} VersionWitnesses(t: Session, m: Session, u: Session, task: Id)
    requires Played(u) && Resumes(t, m) && Resumes(m, u) && EnrolledIn(t, task) && !RetiringIn(t, task)
    ensures EnrolledIn(u, task)
    ensures VersionIn(u, task) >= VersionIn(t, task) && (VersionIn(u, task) == VersionIn(t, task) ==> !RetiringIn(m, task))
  {
    hide After, AdmissibleCall, Inv, Reserved, Exclusive, EnrolledTask, Version, Retained.Later, CallPublished;
    if t != u {
      var w := Reached(u.before);
      VersionWitnesses(t, if m == u then u.before else m, u.before, task);
      EveryWorld(u.before);
      CallKeeps(w, u.call);
      EnrolledStays(w.service.state, Reached(u).service.state, task);
      VersionStep(w, u.call, task);
    } else {
      ResumesLonger(t, m);
      ResumesLonger(m, u);
    }
  }

  lemma {:induction false} CapturedTasks(works: seq<Work>, inputs: seq<Selection>, task: Id, tasks: set<Id>)
    requires task in WorkTasks(works, inputs)
    ensures EnrolledTask(works, task)
    ensures !SelectsTask(works, inputs, tasks) ==> task !in tasks
  {
    var first := TaskOf(works, inputs[0].workId);
    if first == Some(task) {
      assert works[WorkIndex(works, inputs[0].workId)].managed.value.taskId == task;
    } else {
      CapturedTasks(works, inputs[1..], task, tasks);
      assert forall k :: 0 <= k < |inputs[1..]| ==> inputs[1..][k] == inputs[k + 1];
    }
  }

  /** The read of a selection or a reported effect let the caller inspect its sources, and captured these versions. */
  predicate Inspected(v: Service, owner: ParentId, command: Command, captured: seq<(Id, nat)>) {
    (command.SelectInputs? || command.BeginExternal?) && Prepare(v, owner, command) == Inspect(captured)
  }

  lemma PreparedVersions(v: Service, owner: ParentId, command: Command, captured: seq<(Id, nat)>, task: Id, version: nat)
    requires Inspected(v, owner, command, captured) && (task, version) in captured
    ensures EnrolledTask(v.state.works, task) && task !in v.retirements && version == Version(v.versions, task)
  {
    hide OrdinaryKey, OwnCase, InputsVisible, SelectsTask, EnrolledTask, VisibleWork;
    var s := v.state;
    var i := OwnCase(s, owner, command.caseId, command.expectedRevision, command.generation).value;
    var inputs := if command.SelectInputs? then command.inputs else s.cases[i].inputs;
    assert captured == CapturedVersions(v, WorkTasks(s.works, inputs));
    CapturedTasks(s.works, inputs, task, v.retirements);
  }

  /** The command publishes nothing. */
  predicate NotPublished(v: Service, r: (Service, Reply)) { r.0 == v && !r.1.Published? }

  lemma StaleVersionsRefused(v: Service, owner: ParentId, command: Command, captured: seq<(Id, nat)>, elected: bool, newId: Id, bytes: nat)
    requires !VersionsCurrent(v, captured)
    ensures NotPublished(v, Execute(v, owner, command, captured, elected, newId, bytes))
  {
    hide ExecuteCommand, CommandReserved, VersionsCurrent, Publish, SelectsTask, PeerCaseBusy, SourceInputs, Capacity.CapacityOk,
         ObservedCases.ObservedOk;
  }

  lemma MovedIsStale(v: Service, captured: seq<(Id, nat)>, task: Id, version: nat)
    requires (task, version) in captured && Version(v.versions, task) != version
    ensures !VersionsCurrent(v, captured)
  {
    hide Version;
  }

  /** A selection, or a reported effect, whose source inspection overlapped any part of a retirement of a task
      it selects is refused when it commits. */
  lemma OverlapIsRefused(t: Session, m: Session, u: Session, owner: ParentId, command: Command, captured: seq<(Id, nat)>, task: Id, version: nat,
                         elected: bool, newId: Id, bytes: nat)
    requires Played(u) && Resumes(t, m) && Resumes(m, u) && Inspected(Reached(t).service, owner, command, captured)
    requires (task, version) in captured && RetiringIn(m, task)
    ensures NotPublished(Reached(u).service, Execute(Reached(u).service, owner, command, captured, elected, newId, bytes))
  {
    hide Reached, Played, Resumes, EnrolledTask, Inspected, Version, Execute, VersionsCurrent, NotPublished;
    PreparedVersions(Reached(t).service, owner, command, captured, task, version);
    VersionWitnesses(t, m, u, task);
    MovedIsStale(Reached(u).service, captured, task, version);
    StaleVersionsRefused(Reached(u).service, owner, command, captured, elected, newId, bytes);
  }
}
