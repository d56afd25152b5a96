/** Releasing a case: the guard that runs before the key lookup never stops the release's own repetition. */
module Released {
  import opened ControlTypes
  import opened Records
  import opened Publications
  import opened Ledger
  import opened Steps
  import opened History
  import opened Shapes
  import opened Runs
  import opened Retained
  import opened Applications
  import Replay

  /** A recorded outcome keeps its status. */
  lemma OutcomeLasts(s: Control, t: Control, r: Receipt, statuses: set<ApplicationStatus>)
    requires r.key.WorkerKey? && OutcomeIs(s, r, statuses) && Later(s, t)
    ensures OutcomeIs(t, r, statuses)
  {
    hide WorkLasts, CaseLasts;
    var key := r.key.(part := OutcomePart);
    var outcome := ReceiptFor(s.receipts, r.owner, key);
    Replay.AnswerLasts(s.receipts, t.receipts, r.owner, key);
    assert NoteLasts(s.notes[NoteIndex(s.notes, outcome.value.itemId)], t);
  }

  lemma OldStaysSettled(s: Control, t: Control, r: Receipt, caseId: Id)
    requires Referring(s) && Referring(t) && Later(s, t) && r in s.receipts && !PendingUnsettled(s, caseId, r)
    ensures !PendingUnsettled(t, caseId, r)
  {
    hide Referring, Later, OutcomeIs, NoteInCase;
    if PendingUnsettled(t, caseId, r) {
      SameItem(s, t, r, caseId);
      OutcomeLasts(s, t, r, {StatusApplied, StatusRejected});
    }
  }

  predicate AdmitsInto(op: Op, caseId: Id) {
    match op
    case AdmitOp(actor, _, _, _, _, _) => actor.caseId == caseId
    case _ => false
  }

  lemma AdmittingAdmits(s: Control, op: Op, r: Receipt, caseId: Id)
    requires Admitting(s, op, r, caseId)
    ensures AdmitsInto(op, caseId)
  {
    hide UnresolvedApplication, ReceiptKeyUsed;
  }

  lemma UnsettledIsAdmitted(t: Control, r: Receipt, caseId: Id)
    requires PendingUnsettled(t, caseId, r)
    ensures AdmittedInto(t, r, caseId)
  {
  }

  predicate ClosedCase(s: Control, caseId: Id) {
    HasCase(s.cases, caseId) && s.cases[CaseIndex(s.cases, caseId)].state == Closed
  }

  lemma ClosedLasts(s: Control, t: Control, caseId: Id)
    requires ClosedCase(s, caseId) && Later(s, t)
    ensures ClosedCase(t, caseId)
  {
    hide WorkLasts, NoteLasts, BindingsLast;
    assert CaseLasts(s.cases[CaseIndex(s.cases, caseId)], t);
  }

  lemma ClosedAdmitsNone(s: Control, op: Op, p: Publication, caseId: Id)
    requires ClosedCase(s, caseId) && Opened(s, op, p)
    ensures !AdmitsInto(op, caseId)
  {
    hide ApplicableProposal, UnresolvedApplication, AdmittedHere, CommandBody, ExtendBody, ObserveBody, WorkerBody, PublishOutcome, RecoverStep,
         CasePendingUnsettled, Decodable, CanReadCase, ActorBound, SelectedAuthority, IsActorWork, ApplicationPosted;
  }

  lemma ReleasedBody(s: Control, owner: ParentId, command: Command, elected: bool, newId: Id, p: Publication, caseId: Id)
    requires CommandBody(s, owner, command, elected, newId) == Ok(p) && Releases(CommandOp(owner, command, elected, newId), caseId)
    ensures ClosedCase(Publish(s, p), caseId)
  {
    hide CommandAdmitted, Register, ChangedWork, PostedNote, AnsweredNote, OwnWork, ClaimedCase, CommandSchema, ActionOf, CanReadCase, InputsVisible;
    var i := CaseIndex(s.cases, command.caseId);
    var t := Publish(s, p);
    assert i < |s.cases| && t.cases[i].id == command.caseId && t.cases[i].state == Closed;
    assert forall k :: 0 <= k < |s.cases| ==> t.cases[k].id == s.cases[k].id;
    assert CaseIndex(t.cases, command.caseId) == i;
  }

  /** The operation is a release of the case. */
  predicate Releases(op: Op, caseId: Id) {
    match op
    case CommandOp(_, command, _, _) => command.ReleaseCase? && command.caseId == caseId
    case _ => false
  }

  /** The case is closed and holds no application that is neither applied nor rejected. */
  predicate ClosedAndSettled(s: Control, caseId: Id) {
    ClosedCase(s, caseId) && !CasePendingUnsettled(s, caseId)
  }

  /** After an accepted release the case never again holds an application that is neither applied nor rejected. */
  lemma {:induction false} ReleasedIsSettled(before: Trace, op: Op, u: Trace, caseId: Id)
    requires Run(u) && Continues(Then(before, op), u) && Accepts(Now(before), op) && Releases(op, caseId)
    ensures ClosedAndSettled(Now(u), caseId)
  {
    hide Inv, Admissible, Attempt, Later, SoundChange, Shape, KeyUsed, EntryKey, Referring, ClosedCase, PendingUnsettled, Admitting, AdmittedInto,
         AdmitsInto, Decodable,
         CommandBody, ExtendBody, ObserveBody, WorkerBody, AdmitApplication, PublishOutcome, RecoverStep;
    var s := Now(u.before);
    Reachable(u.before);
    match Attempt(s, u.op)
    case Candidate(p) =>
      StepPublishes(s, u.op, p);
      InvRefers(s);
      InvRefers(Publish(s, p));
      if u == Then(before, op) {
        ReleasedBody(s, op.owner, op.command, op.elected, op.newId, p, caseId);
      } else {
        ReleasedIsSettled(before, op, u.before, caseId);
        ClosedLasts(s, Publish(s, p), caseId);
        ClosedAdmitsNone(s, u.op, p, caseId);
      }
      ReleaseAdmitsNone(u.op, caseId);
      // Only an admission into the case can leave it with an unsettled application.
      var t := Publish(s, p);
      forall i | 0 <= i < |t.receipts| ensures !PendingUnsettled(t, caseId, t.receipts[i]) {
        if i < |s.receipts| {
          assert t.receipts[i] == s.receipts[i];
          OldStaysSettled(s, t, s.receipts[i], caseId);
        } else if PendingUnsettled(t, caseId, t.receipts[i]) {
          UnsettledIsAdmitted(t, t.receipts[i], caseId);
          NewAdmission(s, u.op, p, t.receipts[i], caseId);
          AdmittingAdmits(s, u.op, t.receipts[i], caseId);
        }
      }
    case _ => ReleasedIsSettled(before, op, u.before, caseId);
  }

  lemma ReleaseAdmitsNone(op: Op, caseId: Id)
    ensures Releases(op, caseId) ==> !AdmitsInto(op, caseId)
  {
  }

  /** So every accepted command, releases included, is answered by its own receipt for ever. */
  lemma CommandAlwaysAnswered(before: Trace, op: Op, u: Trace, p: Publication)
    requires Run(u) && Continues(Then(before, op), u) && op.CommandOp? && Attempt(Now(before), op) == Candidate(p)
    ensures Replay.ReturnsEntry(Attempt(Now(u), op), p)
  {
    hide Run, Now, Continues, Attempt, CasePendingUnsettled, ClosedCase, Replay.ReturnsEntry;
    Replay.RepeatReturnsReceipt(before, op, u, p);
    match op
    case CommandOp(_, command, _, _) => if command.ReleaseCase? { ReleasedIsSettled(before, op, u, command.caseId); }
  }
}
