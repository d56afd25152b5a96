/** Task applications over whole runs: a case has at most one that is not recorded as rejected. */
module Applications {
  import opened ControlTypes
  import opened Records
  import opened Publications
  import opened Invariant
  import opened Ledger
  import opened Steps
  import opened History
  import opened Runs
  import opened Retained
  import opened Shapes
  import PeerRecords
  import Replay
  import SubmissionSoundness
  import Submissions

  /** The receipt admitted an application into the case. */
  predicate AdmittedInto(s: Control, r: Receipt, caseId: Id) {
    r.key.WorkerKey? && r.key.part == PendingPart && NoteInCase(s.notes, r.itemId, caseId)
  }

  predicate RejectedApplication(s: Control, r: Receipt) {
    r.key.WorkerKey? && OutcomeIs(s, r, {StatusRejected})
  }

  /** Of any two applications admitted into one case the earlier was recorded as rejected. */
  ghost predicate OneLive(s: Control) {
    forall i, j, caseId :: 0 <= i < j < |s.receipts| && AdmittedInto(s, s.receipts[i], caseId) && AdmittedInto(s, s.receipts[j], caseId) ==>
      RejectedApplication(s, s.receipts[i])
  }

  /** A recorded rejection is never lost. */
  lemma RejectionLasts(s: Control, t: Control, r: Receipt)
    requires RejectedApplication(s, r) && Later(s, t)
    ensures RejectedApplication(t, r)
  {
    hide WorkLasts, CaseLasts;
    var key := r.key.(part := OutcomePart);
    var outcome := ReceiptFor(s.receipts, r.owner, key);
    Replay.AnswerLasts(s.receipts, t.receipts, r.owner, key);
    assert NoteLasts(s.notes[NoteIndex(s.notes, outcome.value.itemId)], t);
  }

  /** The ledgers name records that exist, and no two records share an identity. */
  predicate Referring(s: Control) {
    LedgersRefer(s) && IdsDisjoint(s.works, s.cases, s.notes) && UniqueNotes(s.notes)
  }

  lemma InvRefers(s: Control)
    requires Inv(s)
    ensures Referring(s)
  {
    hide WorksOk, CasesOk, CasesKnown, NotesKnown, FieldsFit, LedgersFit, Enrolled, LedgersRefer, HistoryExact, KeysOnce, NoWorkerKeys,
         IdsDisjoint, UniqueNotes, SubmissionSoundness.LifecycleOf;
  }

  /** A record never changes its kind, so an item that was no note does not become one. */
  lemma SameItem(s: Control, t: Control, r: Receipt, caseId: Id)
    requires Referring(s) && Referring(t) && Later(s, t) && r in s.receipts && AdmittedInto(t, r, caseId)
    ensures AdmittedInto(s, r, caseId)
  {
    hide HasWork, HasCase, UniqueNotes, SubjectKnown, RecoveryRefers, BindingsLast;
    assert ReceiptRefers(s, r);
    DisjointItem(t, r.itemId);
    if HasNote(s.notes, r.itemId) {
      assert NoteLasts(s.notes[NoteIndex(s.notes, r.itemId)], t);
    } else if HasWork(s.works, r.itemId) {
      WorkItem(s, t, r.itemId);
    } else {
      CaseItem(s, t, r.itemId);
    }
  }

  lemma WorkItem(s: Control, t: Control, id: Id)
    requires HasWork(s.works, id) && Later(s, t)
    ensures HasWork(t.works, id)
  {
    assert WorkLasts(s.works[WorkIndex(s.works, id)], t);
  }

  lemma CaseItem(s: Control, t: Control, id: Id)
    requires HasCase(s.cases, id) && Later(s, t)
    ensures HasCase(t.cases, id)
  {
    assert CaseLasts(s.cases[CaseIndex(s.cases, id)], t);
  }

  lemma DisjointItem(t: Control, id: Id)
    requires IdsDisjoint(t.works, t.cases, t.notes) && HasNote(t.notes, id)
    ensures !HasWork(t.works, id) && !HasCase(t.cases, id)
  {
  }

  // ---------- only admission admits ----------

  /** The entry is the one this admission makes: its key is new, and every other application of the case was recorded as rejected. */
  predicate Admitting(s: Control, op: Op, r: Receipt, caseId: Id) {
    match op
    case AdmitOp(actor, k, _, _, _, _) =>
      actor.caseId == caseId && r.owner == actor.owner && r.key == PendingKey(actor, k) &&
      !UnresolvedApplication(s, caseId, r.owner, r.key) && !ReceiptKeyUsed(s.receipts, r.owner, r.key)
    case _ => false
  }

  lemma AdmissionSettles(s: Control, actor: WorkerActor, k: string, noteId: Id, digest: Digest, bytes: nat, newId: Id, p: Publication)
    requires AdmitApplication(s, actor, k, noteId, digest, bytes, newId) == Admits(p)
    ensures !UnresolvedApplication(s, actor.caseId, actor.owner, PendingKey(actor, k))
  {
    hide UnresolvedApplication, AdmittedHere, ApplicableProposal, ActorBound, SelectedAuthority, CanReadCase, IsActorWork, ApplicationPosted;
  }

  /** The entry acknowledges something about a case. */
  lemma CaseEntry(t: Control, r: Receipt, caseId: Id)
    requires Referring(t) && r in t.receipts && r.entity == Subject(CaseSubject, r.itemId)
    ensures !AdmittedInto(t, r, caseId)
  {
    hide KnownId, RecoveryRefers, HasCase, HasNote, HasWork, IdsDisjoint, UniqueNotes;
    assert ReceiptRefers(t, r);
    if HasNote(t.notes, r.itemId) { DisjointItem(t, r.itemId); }
  }

  lemma NoteEntry(ns: seq<Note>, n: Note, caseId: Id)
    requires UniqueNotes(ns) && n in ns && NoteInCase(ns, n.id, caseId)
    ensures n.subject == Subject(CaseSubject, caseId)
  {
  }

  /** A publication whose entry admits an application into the case is an admission. */
  lemma NewAdmission(s: Control, op: Op, p: Publication, r: Receipt, caseId: Id)
    requires Opened(s, op, p) && Shape(op, p) && !KeyUsed(s, EntryKey(p)) && Referring(Publish(s, p))
    requires r in NewReceipts(p) && AdmittedInto(Publish(s, p), r, caseId)
    ensures Admitting(s, op, r, caseId)
  {
    hide UnresolvedApplication, ReceiptKeyUsed, RecoveryKeyUsed, EventKeyUsed, CommandBody, ExtendBody, Decodable,
         ObserveBody, WorkerBody, PublishOutcome, Submissions.Submit, RecoverStep, CasePendingUnsettled, AdmitApplication, ActionOf,
         CommandChange, ApplicationRecord, PostsRecord, NoteInCase, LedgersRefer, IdsDisjoint, UniqueNotes;
    match op
    case AdmitOp(actor, k, noteId, digest, bytes, newId) =>
      AdmissionSettles(s, actor, k, noteId, digest, bytes, newId, p);
      NoteEntry(Publish(s, p).notes, NewNotes(p)[0], caseId);
    case ExtendOp(_, _, _) => CaseEntry(Publish(s, p), r, caseId);
    case ObserveOp(_, _, _, _, _) => CaseEntry(Publish(s, p), r, caseId);
    case _ =>
  }

  lemma EarlierRejected(s: Control, op: Op, r: Receipt, earlier: Receipt, caseId: Id)
    requires Admitting(s, op, r, caseId) && earlier in s.receipts && AdmittedInto(s, earlier, caseId)
    ensures RejectedApplication(s, earlier)
  {
    hide NoteInCase, OutcomeIs;
  }

  /** In every reachable state a case has at most one application that was not recorded as rejected. */
  lemma {:induction false} OneLiveApplication(t: Trace)
    requires Run(t)
    ensures OneLive(Now(t))
  {
    hide Inv, Admissible, Attempt, SoundChange, Opened, Shape, AdmittedInto, RejectedApplication, Later, Admitting, Referring, KeyUsed;
    match t
    case Start(_, _, _) => NoneLive(Now(t));
    case Then(before, op) =>
      OneLiveApplication(before);
      Reachable(before);
      match Attempt(Now(before), op) {
        case Candidate(p) =>
          var s, u := Now(before), Now(t);
          StepPublishes(s, op, p);
          InvRefers(s);
          InvRefers(u);
          forall i, j, caseId | 0 <= i < j < |u.receipts| && AdmittedInto(u, u.receipts[i], caseId) && AdmittedInto(u, u.receipts[j], caseId)
            ensures RejectedApplication(u, u.receipts[i])
          {
            assert u.receipts[i] == s.receipts[i];
            SameItem(s, u, s.receipts[i], caseId);
            if j < |s.receipts| {
              SameItem(s, u, s.receipts[j], caseId);
            } else {
              NewAdmission(s, op, p, u.receipts[j], caseId);
              EarlierRejected(s, op, u.receipts[j], s.receipts[i], caseId);
            }
            RejectionLasts(s, u, s.receipts[i]);
          }
        case _ =>
      }
  }

  lemma NoneLive(s: Control)
    requires s.receipts == []
    ensures OneLive(s)
  {
  }

  /** A second application of a case, under any other key, is refused until the first is recorded as rejected. */
  lemma SecondApplicationRefused(s: Control, r: Receipt, actor: WorkerActor, operation: string, noteId: Id, digest: Digest, bytes: nat, newId: Id)
    requires r in s.receipts && AdmittedInto(s, r, actor.caseId) && !RejectedApplication(s, r)
    requires !(r.owner == actor.owner && r.key == PendingKey(actor, operation))
    ensures AdmitApplication(s, actor, operation, noteId, digest, bytes, newId).NotAdmitted?
  {
    hide ApplicableProposal, AdmittedHere, CanReadCase, SelectedAuthority, ActorBound, IsActorWork;
    if WorkerCase(s, actor).Ok? { assert UnresolvedApplication(s, actor.caseId, actor.owner, PendingKey(actor, operation)); }
  }

  // ---------- what an application rests on ----------

  /** The run's own proposal in the case, current and acknowledged by every party it names. */
  predicate AgreedProposal(s: Control, actor: WorkerActor, noteId: Id, i: nat) {
    i < |s.notes| && i == NoteIndex(s.notes, noteId) && s.notes[i].text.PeerText? && s.notes[i].text.record.Proposal? &&
    s.notes[i].subject == Subject(CaseSubject, actor.caseId) && PeerRecords.ProposalCurrent(s, i) && PostedByRun(s.receipts, actor, noteId) &&
    forall k :: 0 <= k < |s.notes[i].parties| ==> s.notes[i].parties[k] in s.notes[i].acknowledged
  }

  /** The note records that the proposal is about to be applied: its digest, in its evidence. */
  predicate Pends(n: Note, proposal: Note, digest: Digest) {
    proposal.text.PeerText? && proposal.text.record.Proposal? && n.subject == proposal.subject &&
    n.text == PeerText(Application(proposal.text.record.evidence, proposal.text.record.digest, digest, StatusPending))
  }

  /** The publication records the pending application of such a proposal under the operation's pending key. */
  predicate AppliesAgreed(s: Control, actor: WorkerActor, k: string, noteId: Id, digest: Digest, p: Publication) {
    match p
    case Ordinary(AddNote(n), _, r) =>
      r.owner == actor.owner && r.key == PendingKey(actor, k) &&
      exists i :: 0 <= i < |s.notes| && AgreedProposal(s, actor, noteId, i) && Pends(n, s.notes[i], digest)
    case _ => false
  }

  /** A task applies only its own run's proposal, current and acknowledged by every party it names, and its pending
      record names that proposal in that evidence. */
  lemma AdmissionMeans(s: Control, actor: WorkerActor, k: string, noteId: Id, digest: Digest, bytes: nat, newId: Id, p: Publication)
    requires AdmitApplication(s, actor, k, noteId, digest, bytes, newId) == Admits(p)
    ensures AppliesAgreed(s, actor, k, noteId, digest, p)
  {
    hide PeerRecords.ProposalCurrent, PeerRecords.WorkerParties, PostedByRun, UnresolvedApplication, AdmittedHere, ActorBound, SelectedAuthority,
         CanReadCase, PeerRecords.EvidenceStanding, PeerRecords.WorkerPosted;
    assert AgreedProposal(s, actor, noteId, NoteIndex(s.notes, noteId));
  }

  /** The case stands at the version and generation. */
  predicate CaseAt(s: Control, caseId: Id, revision: nat, generation: nat) {
    HasCase(s.cases, caseId) && s.cases[CaseIndex(s.cases, caseId)].revision == revision && s.cases[CaseIndex(s.cases, caseId)].generation == generation
  }

  /** An outcome is recorded only after its own admission, and at the case version captured with it. */
  lemma OutcomeMeans(s: Control, actor: WorkerActor, k: string, noteId: Id, proposal: PeerRecord, revision: nat, generation: nat,
                     digest: Digest, status: ApplicationStatus, bytes: nat, newId: Id, p: Publication)
    requires PublishOutcome(s, actor, k, noteId, proposal, revision, generation, digest, status, bytes, newId) == Candidate(p)
    ensures ReceiptKeyUsed(s.receipts, actor.owner, PendingKey(actor, k)) && CaseAt(s, actor.caseId, revision, generation)
  {
    hide ApplicationPosted, ApplicationRecord;
  }

  // ---------- an outcome has its admission before it ----------

  /** The entry records the outcome of an application. */
  predicate IsOutcome(r: Receipt) {
    r.action == ActPostNote && r.key.WorkerKey? && r.key.part == OutcomePart
  }

  /** The earlier entry admitted the application that the outcome is of. */
  predicate AdmittedBy(earlier: Receipt, r: Receipt) {
    r.key.WorkerKey? && earlier.owner == r.owner && earlier.key == r.key.(part := PendingPart)
  }

  predicate Admitted(rs: seq<Receipt>, r: Receipt) {
    exists earlier :: earlier in rs && AdmittedBy(earlier, r)
  }

  predicate OutcomesFollow(rs: seq<Receipt>) {
    forall i :: 0 <= i < |rs| && IsOutcome(rs[i]) ==> Admitted(rs[..i], rs[i])
  }

  /** Only the publication of an outcome records one, and it found its admission. */
  lemma OutcomeStep(s: Control, op: Op, p: Publication, r: Receipt)
    requires Opened(s, op, p) && Shape(op, p) && r in NewReceipts(p) && IsOutcome(r)
    ensures Admitted(s.receipts, r)
  {
    hide CommandBody, ExtendBody, ObserveBody, WorkerBody, AdmitApplication, PublishOutcome, Submissions.Submit, RecoverStep, CasePendingUnsettled,
         CommandChange, ApplicationRecord, PostsRecord, Decodable;
    match op
    case OutcomeOp(actor, k, noteId, proposal, revision, generation, digest, status, bytes, newId) =>
      OutcomeMeans(s, actor, k, noteId, proposal, revision, generation, digest, status, bytes, newId, p);
      var j :| 0 <= j < |s.receipts| && s.receipts[j].owner == actor.owner && s.receipts[j].key == PendingKey(actor, k);
      assert AdmittedBy(s.receipts[j], r);
    case _ =>
  }

  /** In every reachable state an outcome has its admission before it, under the same owner, task, run and operation. */
  lemma {:induction false} OutcomeFollowsAdmission(t: Trace)
    requires Run(t)
    ensures OutcomesFollow(Now(t).receipts)
  {
    hide Inv, Admissible, Attempt, Later, Sound, Opened, Shape, IsOutcome, Admitted;
    match t
    case Start(_, _, _) => NoneFollow();
    case Then(before, op) =>
      OutcomeFollowsAdmission(before);
      Reachable(before);
      match Attempt(Now(before), op) {
        case Candidate(p) =>
          var s, u := Now(before), Now(t);
          StepPublishes(s, op, p);
          forall i | 0 <= i < |u.receipts| && IsOutcome(u.receipts[i]) ensures Admitted(u.receipts[..i], u.receipts[i]) {
            if i < |s.receipts| {
              assert u.receipts[i] == s.receipts[i] && u.receipts[..i] == s.receipts[..i];
            } else {
              OutcomeStep(s, op, p, u.receipts[i]);
              assert u.receipts[..i] == s.receipts;
            }
          }
        case _ =>
      }
  }

  lemma NoneFollow()
    ensures OutcomesFollow([])
  {
  }
}
