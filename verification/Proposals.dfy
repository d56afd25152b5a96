/** Peer proposals over whole runs: in one evidence context a digest names one proposal, and an unwithdrawn
    proposal is answered by at most one unwithdrawn counter-proposal, so unwithdrawn lineages do not branch. */
module Proposals {
  import opened ControlTypes
  import opened Records
  import opened Publications
  import opened PeerRecords
  import opened Ledger
  import opened Steps
  import opened Runs
  import opened Retained
  import opened Shapes
  import opened Preservation
  import opened Licences
  import Submissions
  import SubmissionSoundness
  import History
  import L = Lineage

  /** Two proposals of one case speaking about the same evidence. */
  predicate SameContext(a: Note, b: Note) {
    IsProposalNote(a, a.subject.id) && IsProposalNote(b, a.subject.id) && a.text.record.evidence == b.text.record.evidence
  }

  predicate Answers(a: Note, b: Note) {
    SameContext(a, b) && !a.withdrawn && !b.withdrawn && a.text.record.predecessor.Some? &&
    a.text.record.predecessor == b.text.record.predecessor
  }

  predicate ProposalsOk(ns: seq<Note>) {
    (forall i, j :: 0 <= i < j < |ns| && SameContext(ns[i], ns[j]) ==> ns[i].text.record.digest != ns[j].text.record.digest) &&
    (forall i, j :: 0 <= i < j < |ns| ==> !Answers(ns[i], ns[j]))
  }

  // ---------- one more note, one changed note ----------

  /** The note repeats no digest of its context and answers nothing already answered. */
  predicate NewProposal(ns: seq<Note>, n: Note) {
    IsProposalNote(n, n.subject.id) ==>
      !DigestRetained(ns, n.subject.id, n.text.record.evidence, n.text.record.digest) &&
      (n.text.record.predecessor.Some? ==>
         !PredecessorAnswered(ns, n.subject.id, n.text.record.evidence, n.text.record.predecessor.value))
  }

  lemma AddedKeeps(ns: seq<Note>, n: Note)
    requires ProposalsOk(ns) && NewProposal(ns, n)
    ensures ProposalsOk(ns + [n])
  {
    var t := ns + [n];
    forall i | 0 <= i < |ns| && SameContext(t[i], n) ensures t[i].text.record.digest != n.text.record.digest && !Answers(t[i], n) {
      assert t[i].subject == n.subject;
      assert IsProposalNote(ns[i], n.subject.id);
    }
  }

  lemma ChangedKeeps(ns: seq<Note>, i: nat, n: Note)
    requires ProposalsOk(ns) && Reanswers(ns, i, n)
    ensures ProposalsOk(ns[i := n])
  {
    var t := ns[i := n];
    forall j, k | 0 <= j < k < |t| && SameContext(t[j], t[k])
      ensures t[j].text.record.digest != t[k].text.record.digest && !Answers(t[j], t[k])
    {
      assert SameContext(ns[j], ns[k]);
    }
  }

  // ---------- every operation ----------

  lemma AllowedIsNew(s: Control, parent: ParentId, n: Note, r: PeerRecord, parties: seq<ParentId>, worker: bool)
    requires n.text == PeerText(r) && r.Proposal? && PeerPostAllowed(s, parent, n.subject, n.kind, parties, r, worker).Ok?
    ensures NewProposal(s.notes, n)
  {
    hide CanReadCase, SourcesVisible, ProposalCurrent, L.WorkerLineage, PostPredecessor, DigestRetained, PredecessorAnswered;
  }

  predicate Carried(n: Note) { n.text.PeerText? && n.text.record.Proposal? }

  predicate AddsNew(s: Control, p: Publication) {
    forall n :: n in NewNotes(p) ==> NewProposal(s.notes, n)
  }

  lemma CommandAddsNew(s: Control, owner: ParentId, command: Command, elected: bool, newId: Id, p: Publication)
    requires CommandBody(s, owner, command, elected, newId) == Ok(p)
    ensures AddsNew(s, p)
  {
    hide Register, ChangedWork, AnsweredNote, ClaimedCase, ChangedCase, OwnWork, OwnCase, CommandSchema, PeerPostAllowed, SubjectVisible,
         NewProposal, NoteAudience, ActionOf, InputIds, AsParties;
    match p
    case Ordinary(AddNote(n), _, _) => if Carried(n) { AllowedIsNew(s, owner, n, n.text.record, command.parties, false); } else { NoProposal(s, n); }
    case _ =>
  }

  lemma NoProposal(s: Control, n: Note)
    requires !Carried(n)
    ensures NewProposal(s.notes, n)
  {
  }

  lemma WorkerAddsNew(s: Control, actor: WorkerActor, key: Key, operation: WorkerOperation, bytes: nat, newId: Id, p: Publication)
    requires WorkerBody(s, actor, key, operation, bytes, newId) == Ok(p)
    ensures AddsNew(s, p)
  {
    hide WorkerCase, WorkerParties, PeerPostAllowed, PeerAckAllowed, WorkerNote, PostedByRun, NewProposal, InputIds, CaseAudience;
    match p
    case Ordinary(AddNote(n), _, _) =>
      AllowedIsNew(s, actor.owner, n, n.text.record, s.cases[WorkerCase(s, actor).value].members, true);
    case _ =>
  }

  /** No other operation adds a proposal. */
  lemma AddsNone(s: Control, op: Op, p: Publication)
    requires Shape(op, p) && !op.CommandOp? && !op.WorkerOp?
    ensures AddsNew(s, p)
  {
    hide PostsRecord, ApplicationRecord;
    forall n | n in NewNotes(p) ensures NewProposal(s.notes, n) { NoProposal(s, n); }
  }

  /** A changed note is the same note, acknowledged or withdrawn. */
  predicate Reanswers(ns: seq<Note>, i: nat, n: Note) {
    i < |ns| && n.(acknowledged := ns[i].acknowledged, withdrawn := ns[i].withdrawn) == ns[i] && (ns[i].withdrawn ==> n.withdrawn)
  }

  /** What a publication does to the notes. */
  predicate NotesMove(ns: seq<Note>, p: Publication, later: seq<Note>) {
    match p
    case Ordinary(SetNote(i, n), _, _) => Reanswers(ns, i, n) && later == ns[i := n]
    case Recovering(_, _, _) => later == ns
    case _ => later == ns + NewNotes(p)
  }

  lemma SoundMove(s: Control, op: Op, p: Publication)
    requires Sound(s, p) && Shape(op, p)
    ensures NotesMove(s.notes, p, Publish(s, p).notes)
  {
    hide History.KeyUsed, SubmissionSoundness.SubmissionSound, FitsWork, FitsCase, RecoveryLicensed, Licensed,
         CommandChange, NewNote, PostsRecord, ApplicationRecord, ActionOf;
    match p
    case Ordinary(AddNote(n), _, _) => assert s.notes + [n] == s.notes + NewNotes(p);
    case _ => assert s.notes + [] == s.notes;
  }

  lemma NotesStepKeeps(s: Control, p: Publication, later: seq<Note>)
    requires ProposalsOk(s.notes) && AddsNew(s, p) && NotesMove(s.notes, p, later)
    ensures ProposalsOk(later)
  {
    hide ProposalsOk, NewProposal;
    match p
    case Ordinary(AddNote(n), _, _) => AddedKeeps(s.notes, n);
    case Ordinary(SetNote(i, n), _, _) => ChangedKeeps(s.notes, i, n);
    case _ => assert s.notes + [] == s.notes;
  }

  /** In every reachable state a digest names one proposal of its context, and no proposal has two unwithdrawn answers. */
  lemma {:induction false} LineagesDoNotBranch(t: Trace)
    requires Run(t)
    ensures ProposalsOk(Now(t).notes)
  {
    hide Inv, Admissible, Attempt, Publish, Later, Sound, ProposalsOk, AddsNew, NotesMove, CommandBody, ExtendBody, ObserveBody, WorkerBody,
         AdmitApplication, PublishOutcome, Submissions.Submit, RecoverStep, CasePendingUnsettled, Decodable, CommandShape, WorkerShape,
         PostsRecord, ApplicationRecord;
    match t
    case Start(_, _, _) => NoNotes(Now(t).notes);
    case Then(before, op) =>
      LineagesDoNotBranch(before);
      Reachable(before);
      match Attempt(Now(before), op) {
        case Candidate(p) =>
          var s := Now(before);
          StepPublishes(s, op, p);
          match op {
            case CommandOp(owner, command, elected, newId) => CommandAddsNew(s, owner, command, elected, newId, p);
            case WorkerOp(actor, k, operation, bytes, newId) => WorkerAddsNew(s, actor, MainKey(actor, k), operation, bytes, newId, p);
            case _ => AddsNone(s, op, p);
          }
          SoundMove(s, op, p);
          NotesStepKeeps(s, p, Now(t).notes);
        case _ =>
      }
  }

  lemma NoNotes(ns: seq<Note>)
    requires ns == []
    ensures ProposalsOk(ns)
  {
  }

  predicate ProposalAt(s: Control, item: Case, i: nat) {
    i < |s.notes| && IsProposalNote(s.notes[i], item.id)
  }

  /** Looking the proposal's digest up in its own evidence finds it and no other. */
  predicate FoundByDigest(s: Control, item: Case, i: nat) {
    i < |s.notes| && Carried(s.notes[i]) &&
    L.UniqueMatch(EntriesOf(s, item, s.notes[i].text.record.evidence), s.notes[i].text.record.digest) == Some(i)
  }

  /** So a proposal's digest always finds exactly that proposal. */
  lemma DigestFindsProposal(s: Control, item: Case, i: nat)
    requires ProposalsOk(s.notes) && ProposalAt(s, item, i)
    ensures FoundByDigest(s, item, i)
  {
    var ev := s.notes[i].text.record.evidence;
    var es := EntriesOf(s, item, ev);
    hide WorkerParties, EvidenceStanding, WorkerPosted;
    forall j | 0 <= j < |es| && L.Carries(es[j], s.notes[i].text.record.digest) ensures j == i {
      assert SameContext(s.notes[i], s.notes[j]) && SameContext(s.notes[j], s.notes[i]);
    }
    assert L.Carries(es[i], s.notes[i].text.record.digest);
  }
}
