/** The service object itself: it owns the stored record and the in-memory reservations, and every method
    below is one section run under its mutex. */
module ControlService {
  import opened ControlTypes
  import opened Ledger
  import opened Capacity
  import opened ObservedCases
  import S = Service

  class CoordinationControl {
    var state: Control
    var applicationCases: set<Id>
    var transitionCases: set<Id>
    var transitionTasks: set<Id>
    var transitionEpoch: nat
    var retirements: set<Id>
    var resourceVersions: map<Id, nat>

    /** The sections' common value. */
    function View(): S.Service
      reads this
    {
      S.Service(state, applicationCases, transitionCases, transitionTasks, transitionEpoch, retirements, resourceVersions)
    }

    constructor (initial: Control)
      ensures View() == S.Service(initial, {}, {}, {}, 0, {}, map[])
    {
      state := initial;
      applicationCases, transitionCases, transitionTasks := {}, {}, {};
      transitionEpoch := 0;
      retirements, resourceVersions := {}, map[];
    }

    /** Checks capacity, then writes the candidate. */
    method Publish(o: Outcome, bytes: nat) returns (reply: S.Reply)
      modifies this`state
      ensures (View(), reply) == S.Settle(old(View()), o, bytes)
    {
      match o {
        case Refused(e) => reply := S.Denied(e);
        case Recorded(a) => reply := S.Answered(a);
        case Candidate(p) =>
          var next := Publications.Publish(state, p);
          if !CapacityOk(next, bytes) {
            reply := S.Denied(Error.Capacity);
          } else if !ObservedOk(next.works, next.cases) {
            reply := S.Denied(Invalid);
          } else {
            state := next;
            reply := S.Published(p);
          }
      }
    }

    /** Every captured task must still be unretired at its captured version. */
    method VersionsCurrent(captured: seq<(Id, nat)>) returns (current: bool)
      ensures current == S.VersionsCurrent(View(), captured)
    {
      var k := 0;
      while k < |captured|
        invariant 0 <= k <= |captured|
        invariant forall j :: 0 <= j < k ==>
                    captured[j].0 !in retirements && S.Version(resourceVersions, captured[j].0) == captured[j].1
      {
        var version := if captured[k].0 in resourceVersions then resourceVersions[captured[k].0] else 0;
        if captured[k].0 in retirements || version != captured[k].1 { return false; }
        k := k + 1;
      }
      return true;
    }

    method Execute(owner: ParentId, command: Command, captured: seq<(Id, nat)>, elected: bool, newId: Id, bytes: nat) returns (reply: S.Reply)
      modifies this`state
      ensures (View(), reply) == S.Execute(old(View()), owner, command, captured, elected, newId, bytes)
    {
      hide ExecuteCommand, S.CommandReserved, S.SelectsTask, S.PeerCaseBusy, S.VersionsCurrent, CapacityOk, ObservedOk, Publications.Publish;
      if S.CommandReserved(View(), command) {
        return S.Denied(OperationStale);
      }
      var o := ExecuteCommand(state, owner, command, elected, newId);
      if o.Candidate? {
        var current := VersionsCurrent(captured);
        if !current { return S.Denied(ResourceChanged); }
        if S.SelectsTask(state.works, S.SourceInputs(state, command), retirements) { return S.Denied(RetirementActive); }
        if command.RegisterTaskWork? && command.managed.taskId in retirements { return S.Denied(RetirementActive); }
        if S.PeerCaseBusy(View(), command) { return S.Denied(OperationStale); }
      }
      reply := Publish(o, bytes);
    }

    /** Tasks of the managed works among the inputs, each with its version now. */
    method CaptureVersions(inputs: seq<Selection>) returns (captured: seq<(Id, nat)>)
      ensures captured == S.CapturedVersions(View(), S.WorkTasks(state.works, inputs))
    {
      captured := [];
      var k := |inputs|;
      assert inputs[k..] == [];
      while k > 0
        invariant 0 <= k <= |inputs|
        invariant captured == S.CapturedVersions(View(), S.WorkTasks(state.works, inputs[k..]))
      {
        k := k - 1;
        var task := S.TaskOf(state.works, inputs[k].workId);
        assert inputs[k..][1..] == inputs[k + 1..] && inputs[k..][0] == inputs[k];
        if task.Some? { captured := [(task.value, S.Version(resourceVersions, task.value))] + captured; }
      }
      assert inputs[0..] == inputs;
    }

    /** The read a claim, a selection or a reported effect makes before its sources are inspected. */
    method PrepareSourceCommand(owner: ParentId, command: Command) returns (reply: S.Reply)
      requires command.ClaimTarget? || command.SelectInputs? || command.BeginExternal?
      ensures reply == S.Prepare(View(), owner, command)
    {
      hide InputsVisible, S.SelectsTask, S.WorkTasks;
      var known := OrdinaryKey(state, owner, command.key, CommandRequest(owner, command));
      if known.ConflictingKey? { return S.Denied(KeyConflict); }
      if known.RecordedKey? { return S.Answered(ReceiptAnswer(known.receipt)); }
      if command.ClaimTarget? { return S.Inspect([]); }
      var own := OwnCase(state, owner, command.caseId, command.expectedRevision, command.generation);
      if own.Err? { return S.Denied(own.error); }
      var item := state.cases[own.value];
      var inputs := if command.SelectInputs? then command.inputs else item.inputs;
      if item.effect != NotStarted { return S.Denied(EffectUnresolved); }
      if !InputsVisible(state, [owner], inputs) || !InputsVisible(state, item.members, inputs) { return S.Denied(NotFound); }
      if S.SelectsTask(state.works, inputs, retirements) { return S.Denied(RetirementActive); }
      var captured := CaptureVersions(inputs);
      reply := S.Inspect(captured);
    }

    method ObserveCaseDelivery(owner: ParentId, key: Key, o: Observation, guardEpoch: Id, guardRevision: nat, bytes: nat) returns (reply: S.Reply)
      modifies this`state
      ensures (View(), reply) == S.Observe(old(View()), owner, key, o, guardEpoch, guardRevision, bytes)
    {
      hide ObserveDelivery, CapacityOk, ObservedOk, Publications.Publish;
      reply := Publish(ObserveDelivery(state, owner, key, o, guardEpoch, guardRevision), bytes);
    }

    method Submit(owner: ParentId, key: Key, input: SubmissionInput, bytes: nat) returns (reply: S.Reply)
      modifies this`state
      ensures (View(), reply) == S.Submit(old(View()), owner, key, input, bytes)
    {
      hide SubmitStep, CapacityOk, ObservedOk, Publications.Publish;
      reply := Publish(SubmitStep(state, owner, key, input), bytes);
    }

    method Extend(owner: ParentId, key: Key, x: Extension, bytes: nat) returns (reply: S.Reply)
      modifies this`state
      ensures (View(), reply) == S.Extend(old(View()), owner, key, x, bytes)
    {
      hide ExtendCase, S.ExtensionBusy, CapacityOk, ObservedOk, Publications.Publish;
      var o := ExtendCase(state, owner, key, x);
      if o.Candidate? && S.ExtensionBusy(View(), x) { return S.Denied(OperationStale); }
      reply := Publish(o, bytes);
    }

    method RecoverAuthorized(operator: ParentId, r: Recovery, bytes: nat) returns (reply: S.Reply)
      modifies this`state
      ensures (View(), reply) == S.Recover(old(View()), operator, r, bytes)
    {
      hide RecoverStep, S.RecoveryReserved, CapacityOk, ObservedOk, Publications.Publish;
      if S.RecoveryReserved(View(), r) { return S.Denied(OperationStale); }
      reply := Publish(RecoverStep(state, operator, r), bytes);
    }

    method WorkerPeerOperation(actor: WorkerActor, k: string, operation: WorkerOperation, noteBytes: nat, newId: Id,
                               revision: nat, epoch: nat, bytes: nat) returns (reply: S.Reply)
      modifies this`state
      ensures (View(), reply) == S.Worker(old(View()), actor, k, operation, noteBytes, newId, revision, epoch, bytes)
    {
      hide WorkerStep, WorkerCase, S.WorkerBusy, CapacityOk, ObservedOk, Publications.Publish;
      var c := WorkerCase(state, actor);
      if c.Err? { return S.Denied(c.error); }
      if S.WorkerBusy(View(), actor, state.cases[c.value]) { return S.Denied(OperationStale); }
      if state.revision != revision || transitionEpoch != epoch { return S.Denied(OperationStale); }
      reply := Publish(WorkerStep(state, actor, k, operation, noteBytes, newId), bytes);
    }

    /** Admission rechecks what was captured, publishes the pending record once and reserves the case. */
    method AdmitApplication(f: S.Frame, digest: Digest, noteBytes: nat, newId: Id, bytes: nat) returns (reply: S.Reply)
      modifies this`state, this`applicationCases
      ensures (View(), reply) == S.Admit(old(View()), f, digest, noteBytes, newId, bytes)
    {
      hide Ledger.AdmitApplication, S.Selectable, CapacityOk, ObservedOk, Publications.Publish;
      if !S.Selectable(View(), f.actor, f.noteId) { return S.Denied(OperationForbidden); }
      if state.revision != f.captured.revision || transitionEpoch != f.epoch { return S.Denied(OperationStale); }
      match Ledger.AdmitApplication(state, f.actor, f.operation, f.noteId, digest, noteBytes, newId) {
        case NotAdmitted(e) => return S.Denied(e);
        case AlreadyAdmitted =>
        case Admits(p) =>
          reply := Publish(Candidate(p), bytes);
          if !reply.Published? { return; }
      }
      applicationCases := applicationCases + {f.actor.caseId};
      reply := S.Done;
    }

    method PublishApplicationOutcome(f: S.Frame, digest: Digest, status: ApplicationStatus, noteBytes: nat, newId: Id, bytes: nat)
      returns (reply: S.Reply)
      requires S.FrameProposal(f).Some? && S.FrameCase(f).Some?
      modifies this`state
      ensures (View(), reply) == S.FinishApplication(old(View()), f, digest, status, noteBytes, newId, bytes)
    {
      hide PublishOutcome, CapacityOk, ObservedOk, Publications.Publish;
      var item := S.FrameCase(f).value;
      reply := Publish(PublishOutcome(state, f.actor, f.operation, f.noteId, S.FrameProposal(f).value, item.revision, item.generation,
                                      digest, status, noteBytes, newId), bytes);
    }

    /** A disclosure of source detail rechecks what was captured and reserves the case while it is published. */
    method BeginCasePublication(l: S.Look) returns (reply: S.Reply)
      modifies this`applicationCases
      ensures (View(), reply) == S.BeginPublication(old(View()), l)
    {
      hide S.MayPublish;
      if !S.MayPublish(View(), l.actor) { return S.Denied(OperationForbidden); }
      if state.revision != l.captured.revision || transitionEpoch != l.epoch { return S.Denied(OperationStale); }
      applicationCases := applicationCases + {l.actor.caseId};
      reply := S.Done;
    }

    method EndApplication(caseId: Id)
      modifies this`applicationCases
      ensures View() == S.EndApplication(old(View()), caseId)
    {
      applicationCases := applicationCases - {caseId};
    }

    /** The active cases that select the task, found by one pass over the cases. */
    method AffectedCases(task: Id) returns (affected: set<Id>)
      ensures affected == S.Affected(state, task)
    {
      hide S.SelectsTask;
      affected := {};
      var i := 0;
      while i < |state.cases|
        invariant 0 <= i <= |state.cases|
        invariant affected == set j | 0 <= j < i && state.cases[j].state == Active &&
                                      S.SelectsTask(state.works, state.cases[j].inputs, {task}) :: state.cases[j].id
      {
        if state.cases[i].state == Active && S.SelectsTask(state.works, state.cases[i].inputs, {task}) {
          affected := affected + {state.cases[i].id};
        }
        i := i + 1;
      }
    }

    method BeginTransition(task: Id) returns (reply: S.Reply)
      modifies this`transitionCases, this`transitionTasks, this`transitionEpoch
      ensures (View(), reply) == S.BeginTransition(old(View()), task)
    {
      hide S.SelectsTask;
      var affected := AffectedCases(task);
      if task in transitionTasks || affected * (transitionCases + applicationCases) != {} { return S.Denied(OperationStale); }
      transitionTasks := transitionTasks + {task};
      transitionCases := transitionCases + affected;
      transitionEpoch := transitionEpoch + 1;
      reply := S.Affects(affected);
    }

    method EndTransition(task: Id, affected: set<Id>)
      modifies this`transitionCases, this`transitionTasks, this`transitionEpoch
      ensures View() == S.EndTransition(old(View()), task, affected)
    {
      transitionTasks := transitionTasks - {task};
      transitionCases := transitionCases - affected;
      transitionEpoch := transitionEpoch + 1;
    }

    method InvalidateCancelledTask()
      modifies this`transitionEpoch
      ensures View() == S.InvalidateCancelled(old(View()))
    {
      transitionEpoch := transitionEpoch + 1;
    }

    /** Reserves a task no active case selects; an enrolled one gets a new version. */
    method ReserveRetirement(task: Id) returns (reply: S.Reply)
      modifies this`retirements, this`resourceVersions
      ensures (View(), reply) == S.ReserveRetirement(old(View()), task)
    {
      hide S.SelectsTask, S.EnrolledTask;
      var affected := AffectedCases(task);
      if affected != {} { return S.Denied(ResultSelected); }
      if task in retirements { return S.Denied(RetirementActive); }
      if S.EnrolledTask(state.works, task) {
        resourceVersions := resourceVersions[task := S.Version(resourceVersions, task) + 1];
      }
      retirements := retirements + {task};
      reply := S.Done;
    }

    method ReleaseRetirement(task: Id)
      modifies this`retirements, this`resourceVersions
      ensures View() == S.ReleaseRetirement(old(View()), task)
    {
      retirements := retirements - {task};
      if task in resourceVersions { resourceVersions := resourceVersions[task := resourceVersions[task] + 1]; }
    }
  }
}
