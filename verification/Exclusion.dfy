/** Retirement exclusion: in no interleaving is a task being retired while an active case selects it. */
module Exclusion {
  import opened ControlTypes
  import opened Records
  import opened Publications
  import opened Invariant
  import opened Preservation
  import opened Shapes
  import opened Ledger
  import opened Service
  import opened Steps
  import opened Runs
  import opened World
  import Capacity
  import CaseRuns
  import ObservedCases
  import Reservations
  import Retained
  import Retention

  predicate NoneSelected(ws: seq<Work>, cs: seq<Case>, tasks: set<Id>) {
    forall c :: c in cs && c.state == Active ==> !SelectsTask(ws, c.inputs, tasks)
  }

  /** No active case selects a task that is being retired. */
  predicate Exclusive(v: Service) {
    NoneSelected(v.state.works, v.state.cases, v.retirements)
  }

  lemma SelectsById(ws: seq<Work>, a: seq<Selection>, b: seq<Selection>, tasks: set<Id>)
    requires InputIds(a) == InputIds(b)
    ensures SelectsTask(ws, a, tasks) <==> SelectsTask(ws, b, tasks)
  {
    assert |a| == |b|;
    assert forall k :: 0 <= k < |a| ==> InputIds(a)[k] == InputIds(b)[k];
  }

  /** Works keep their tasks, so known inputs keep theirs. */
  lemma TaskKept(s: Control, ch: Change, id: Id)
    requires UniqueWorks(s.works) && UniqueWorks(WorksAfter(s.works, ch)) && Fits(s, ch) && HasWork(s.works, id)
    ensures TaskOf(WorksAfter(s.works, ch), id) == TaskOf(s.works, id)
  {
    var i := WorkIndex(s.works, id);
    Retention.FactsKept(s, ch, i);
    Retention.ManagedKept(s.works[i], WorksAfter(s.works, ch)[i]);
    Retention.WorkFound(WorksAfter(s.works, ch), i);
  }

  lemma SelectionKept(s: Control, ch: Change, inputs: seq<Selection>, tasks: set<Id>)
    requires UniqueWorks(s.works) && UniqueWorks(WorksAfter(s.works, ch)) && Fits(s, ch)
    requires forall k :: 0 <= k < |inputs| ==> HasWork(s.works, inputs[k].workId)
    ensures SelectsTask(WorksAfter(s.works, ch), inputs, tasks) <==> SelectsTask(s.works, inputs, tasks)
  {
    hide Fits, HasWork, UniqueWorks, TaskOf;
    forall k | 0 <= k < |inputs| ensures TaskOf(WorksAfter(s.works, ch), inputs[k].workId) == TaskOf(s.works, inputs[k].workId) {
      TaskKept(s, ch, inputs[k].workId);
    }
  }

  /** The inputs an operation selects anew. */
  function NewInputs(s: Control, op: Op): seq<Id> {
    match op
    case CommandOp(_, command, _, _) => if command.SelectInputs? then InputIds(command.inputs) else []
    case ExtendOp(_, _, x) =>
      if HasCase(s.cases, x.caseId) then InputIds(s.cases[CaseIndex(s.cases, x.caseId)].inputs + [Selection(x.newWorkId, x.targetOid)]) else []
    case _ => []
  }

  /** A case's inputs stay, are those the operation selects anew, or, on a claim, are none. */
  predicate ChangesInputs(s: Control, op: Op, ch: Change) {
    match ch
    case AddCase(c) => c.inputs == []
    case SetCase(i, c) => i < |s.cases| && (c.inputs == s.cases[i].inputs || InputIds(c.inputs) == NewInputs(s, op))
    case _ => true
  }

  lemma ChangedInputs(s: Control, item: Case, owner: ParentId, command: Command, elected: bool, c: Case)
    requires IsCaseChange(command) && ChangedCase(s, item, owner, command, elected) == Ok(c)
    ensures c.inputs == item.inputs || (command.SelectInputs? && c.inputs == command.inputs)
  {
    hide InputsVisible, CanReadCase;
  }

  lemma MovedInputs(s: Control, op: Op, i: nat, c: Case)
    requires UniqueCases(s.cases) && CaseRuns.MovedAt(s, op, i, c)
    ensures ChangesInputs(s, op, SetCase(i, c))
  {
    hide ChangedCase, VisibleWork;
    match op
    case CommandOp(owner, command, elected, _) => ChangedInputs(s, s.cases[i], owner, command, elected, c);
    case ExtendOp(_, _, x) => assert CaseIndex(s.cases, x.caseId) == i;
    case _ =>
  }

  /** Of whatever an operation publishes, the case it changes gets its old inputs or the ones selected anew. */
  lemma OpenedInputs(s: Control, op: Op, p: Publication, ch: Change)
    requires UniqueCases(s.cases) && Opened(s, op, p) && Shape(op, p) && ChangeOf(p) == Some(ch)
    ensures ChangesInputs(s, op, ch)
  {
    hide Opened, UniqueCases, CaseRuns.MovedAt, NewInputs, PostsRecord, ApplicationRecord, ActionOf, NewNote;
    match ch
    case SetCase(i, c) =>
      CaseRuns.CaseMoves(s, op, p, i, c);
      MovedInputs(s, op, i, c);
    case _ =>
  }

  /** Inputs selected anew name no retiring task. */
  ghost predicate NewInputsFree(v: Service, op: Op) {
    forall inputs: seq<Selection> :: InputIds(inputs) == NewInputs(v.state, op) ==> !SelectsTask(v.state.works, inputs, v.retirements)
  }

  lemma NoInputs(ws: seq<Work>, inputs: seq<Selection>, tasks: set<Id>)
    requires inputs == []
    ensures !SelectsTask(ws, inputs, tasks)
  {
  }

  /** A fitting change between states whose records are known. */
  predicate Fitting(s: Control, ch: Change) {
    Fits(s, ch) && UniqueWorks(s.works) && UniqueWorks(WorksAfter(s.works, ch)) && CasesKnown(s.works, s.cases)
  }

  lemma SameInputsFree(s: Control, ch: Change, was: Case, inputs: seq<Selection>, tasks: set<Id>)
    requires Fitting(s, ch) && was in s.cases && inputs == was.inputs && !SelectsTask(s.works, inputs, tasks)
    ensures !SelectsTask(WorksAfter(s.works, ch), inputs, tasks)
  {
    hide HasWork, UniqueWorks, SelectsTask, WorkOk, CaseOk, FitsWork, FitsCase, FitsNote;
    assert InputsKnown(s.works, was);
    SelectionKept(s, ch, inputs, tasks);
  }

  lemma ChosenInputsFree(v: Service, op: Op, i: nat, c: Case)
    requires Fitting(v.state, SetCase(i, c)) && NewInputsFree(v, op) && InputIds(c.inputs) == NewInputs(v.state, op)
    ensures !SelectsTask(v.state.works, c.inputs, v.retirements)
  {
    hide Fitting, SelectsTask, NewInputs;
  }

  /** A fitting change keeps retiring tasks unselected. */
  lemma ChangeExclusive(v: Service, op: Op, ch: Change)
    requires Fitting(v.state, ch) && Exclusive(v) && ChangesInputs(v.state, op, ch) && NewInputsFree(v, op)
    ensures NoneSelected(WorksAfter(v.state.works, ch), CasesAfter(v.state.cases, ch), v.retirements)
  {
    hide SelectsTask, NewInputs, Fitting, NewInputsFree;
    var ws, cs := WorksAfter(v.state.works, ch), CasesAfter(v.state.cases, ch);
    forall d | d in cs && d.state == Active ensures !SelectsTask(ws, d.inputs, v.retirements) {
      if d in v.state.cases {
        SameInputsFree(v.state, ch, d, d.inputs, v.retirements);
      } else {
        match ch
        case AddCase(_) => NoInputs(ws, d.inputs, v.retirements);
        case SetCase(i, c) => ChangedExclusive(v, op, i, c);
      }
    }
  }

  lemma ChangedExclusive(v: Service, op: Op, i: nat, c: Case)
    requires Fitting(v.state, SetCase(i, c)) && Exclusive(v) && ChangesInputs(v.state, op, SetCase(i, c)) && NewInputsFree(v, op) && c.state == Active
    ensures !SelectsTask(v.state.works, c.inputs, v.retirements)
  {
    hide SelectsTask, NewInputs, NewInputsFree, Fitting;
    StaysActive(v.state, i, c);
    if c.inputs != v.state.cases[i].inputs { ChosenInputsFree(v, op, i, c); }
  }

  /** A closed case is never changed back to an active one. */
  lemma StaysActive(s: Control, i: nat, c: Case)
    requires Fitting(s, SetCase(i, c)) && i < |s.cases| && c.state == Active
    ensures s.cases[i].state == Active
  {
    hide WorkOk, CaseOk, UniqueWorks, CasesKnown, FitsWork, FitsNote;
  }

  lemma NothingNew(v: Service, op: Op)
    requires NewInputs(v.state, op) == []
    ensures NewInputsFree(v, op)
  {
    hide NewInputs;
    forall inputs: seq<Selection> | InputIds(inputs) == [] ensures !SelectsTask(v.state.works, inputs, v.retirements) {
      NoInputs(v.state.works, inputs, v.retirements);
    }
  }

  lemma CheckedNew(v: Service, op: Op, checked: seq<Selection>)
    requires NewInputs(v.state, op) == InputIds(checked) && !SelectsTask(v.state.works, checked, v.retirements)
    ensures NewInputsFree(v, op)
  {
    hide NewInputs, SelectsTask;
    forall inputs: seq<Selection> | InputIds(inputs) == InputIds(checked) ensures !SelectsTask(v.state.works, inputs, v.retirements) {
      SelectsById(v.state.works, inputs, checked, v.retirements);
    }
  }

  lemma ExtensionChecked(v: Service, owner: ParentId, key: Key, x: Extension)
    requires !ExtensionBusy(v, x)
    ensures NewInputsFree(v, ExtendOp(owner, key, x))
  {
    hide SelectsTask, NewInputsFree;
    var s := v.state;
    if HasCase(s.cases, x.caseId) {
      CheckedNew(v, ExtendOp(owner, key, x), s.cases[CaseIndex(s.cases, x.caseId)].inputs + [Selection(x.newWorkId, x.targetOid)]);
    } else { NothingNew(v, ExtendOp(owner, key, x)); }
  }

  /** A call that passed its guard selects no retiring task anew. */
  lemma GuardedChecked(w: World, call: Section, op: Op)
    requires Guarded(w, call) && OpOf(w, call) == Some(op)
    ensures NewInputsFree(w.service, op)
  {
    hide CommandReserved, SelectsTask, PeerCaseBusy, ExtensionBusy, RecoveryReserved, MayPublish, Selectable, NewInputsFree, FrameProposal, FrameCase;
    match call
    case ExecuteCall(owner, command, _, _, _, _) =>
      if command.SelectInputs? { CheckedNew(w.service, op, command.inputs); } else { NothingNew(w.service, op); }
    case ExtendCall(owner, key, x, _) => ExtensionChecked(w.service, owner, key, x);
    case _ => NothingNew(w.service, op);
  }

  lemma FewerTasks(ws: seq<Work>, inputs: seq<Selection>, tasks: set<Id>, more: set<Id>)
    requires tasks <= more && !SelectsTask(ws, inputs, more)
    ensures !SelectsTask(ws, inputs, tasks)
  {
  }

  lemma OneMoreTask(ws: seq<Work>, inputs: seq<Selection>, tasks: set<Id>, task: Id)
    requires !SelectsTask(ws, inputs, tasks) && !SelectsTask(ws, inputs, {task})
    ensures !SelectsTask(ws, inputs, tasks + {task})
  {
    forall k | 0 <= k < |inputs| && TaskOf(ws, inputs[k].workId).Some?
      ensures TaskOf(ws, inputs[k].workId).value !in tasks + {task}
    {
      assert TaskOf(ws, inputs[k].workId).value !in {task};
    }
  }

  lemma ReserveExclusive(v: Service, task: Id)
    requires Exclusive(v)
    ensures Exclusive(ReserveRetirement(v, task).0)
  {
    hide SelectsTask, EnrolledTask;
    var next := ReserveRetirement(v, task).0;
    if next != v {
      forall c | c in v.state.cases && c.state == Active ensures !SelectsTask(v.state.works, c.inputs, next.retirements) {
        assert c.id !in Affected(v.state, task);
        OneMoreTask(v.state.works, c.inputs, v.retirements, task);
      }
    }
  }

  lemma ReleaseExclusive(v: Service, task: Id)
    requires Exclusive(v)
    ensures Exclusive(ReleaseRetirement(v, task))
  {
    hide SelectsTask;
    forall c | c in v.state.cases && c.state == Active ensures !SelectsTask(v.state.works, c.inputs, ReleaseRetirement(v, task).retirements) {
      FewerTasks(v.state.works, c.inputs, ReleaseRetirement(v, task).retirements, v.retirements);
    }
  }

  predicate SameRetirements(v: Service, u: Service) {
    u.retirements == v.retirements && u.versions == v.versions
  }

  predicate IsRetirement(call: Section) { call.ReserveCall? || call.ReleaseCall? }

  /** Only a retirement moves the retirements and the versions. */
  lemma QuietRetirements(w: World, call: Section)
    requires !IsRetirement(call)
    ensures SameRetirements(w.service, After(w, call).service)
  {
    hide ExecuteCommand, ExtendCase, ObserveDelivery, WorkerStep, AdmitApplication, PublishOutcome, SubmitStep, RecoverStep, Publish,
         Capacity.CapacityOk, ObservedCases.ObservedOk, CommandReserved, VersionsCurrent, SelectsTask, PeerCaseBusy, SourceInputs, ExtensionBusy,
         RecoveryReserved, WorkerCase, WorkerBusy, Selectable, MayPublish, FrameProposal, FrameCase, Affected, EnrolledTask;
  }

  lemma PublishedRecords(s: Control, p: Publication)
    ensures match ChangeOf(p)
      case Some(ch) => Publish(s, p).works == WorksAfter(s.works, ch) && Publish(s, p).cases == CasesAfter(s.cases, ch)
      case None => Publish(s, p).works == s.works && Publish(s, p).cases == s.cases
  {
  }

  /** Every call keeps retiring tasks unselected. */
  lemma ExclusiveKept(w: World, call: Section)
    requires Inv(w.service.state) && AdmissibleCall(w, call) && Exclusive(w.service)
    ensures Exclusive(After(w, call).service)
  {
    hide Inv, AdmissibleCall, NoneSelected, NewInputsFree, Publish, WorksAfter, CasesAfter, OpOf, Guarded, Retained.Later, Sound, Opened, Shape,
         Fits, ChangesInputs, CasesKnown, UniqueWorks, UniqueCases, AdmitIn, FinishIn, CaptureIn, LookIn, ShowIn, EndIn, BeginTransition,
         EndTransition, InvalidateCancelled, ReserveRetirement, ReleaseRetirement, Execute, Extend, Observe, Recover, Submit, Worker;
    match call
    case ReserveCall(task) => ReserveExclusive(w.service, task);
    case ReleaseCall(task) => ReleaseExclusive(w.service, task);
    case _ =>
      QuietRetirements(w, call);
      CallKeeps(w, call);
      var v, t := w.service, After(w, call).service.state;
      if t != v.state {
        ChangedIsGuarded(w, call);
        var op, p :| CallPublished(w, call, op, p);
        GuardedChecked(w, call, op);
        ObservedCases.SoundFits(v.state, p);
        Reservations.InvKnown(v.state);
        Retained.InvUnique(v.state);
        Retained.InvUnique(t);
        PublishedRecords(v.state, p);
        match ChangeOf(p) {
          case Some(ch) =>
            OpenedInputs(v.state, op, p, ch);
            ChangeExclusive(v, op, ch);
          case None =>
        }
      }
  }
}
