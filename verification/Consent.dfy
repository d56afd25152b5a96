/** Who moved a note: over a whole run every acknowledgment was given by the party it names and every withdrawal by the
    author or the posting run, and a withdrawn note never moves again. */
module Consent {
  import opened ControlTypes
  import opened Records
  import opened Publications
  import opened Ledger
  import opened PeerRecords
  import opened Steps
  import opened Runs
  import opened Retained
  import opened Shapes
  import Submissions

  /** The call by which the party acknowledges the note; a parent cannot make it for a note that a task posted. */
  predicate Answers(s: Control, op: Op, noteId: Id, party: Party) {
    match op
    case CommandOp(owner, command, _, _) =>
      command.AckNote? && command.noteId == noteId && party == ParentParty(owner) && !WorkerPosted(s.receipts, noteId)
    case WorkerOp(actor, _, operation, _, _) =>
      operation.WorkerAcknowledge? && operation.noteId == noteId && party == ActorPrincipal(actor)
    case _ => false
  }

  /** The call by which the author, or the run that posted it, takes the note back. */
  predicate Recalls(s: Control, op: Op, n: Note) {
    match op
    case CommandOp(owner, command, _, _) =>
      command.WithdrawNote? && command.noteId == n.id && owner == n.author && !WorkerPosted(s.receipts, n.id)
    case WorkerOp(actor, _, operation, _, _) =>
      operation.WorkerWithdraw? && operation.noteId == n.id && PostedByRun(s.receipts, actor, n.id)
    case _ => false
  }

  predicate Acknowledged(s: Control, op: Op, was: Note, n: Note) {
    exists party :: party in was.parties && n == was.(acknowledged := was.acknowledged + [party]) && Answers(s, op, was.id, party)
  }

  /** The call moved the note: it was open, and was taken back or acknowledged by one whose call this is. */
  predicate NoteMoved(s: Control, op: Op, was: Note, n: Note) {
    !was.withdrawn && ((n == was.(withdrawn := true) && Recalls(s, op, was)) || Acknowledged(s, op, was, n))
  }

  predicate MovedAt(s: Control, op: Op, i: nat, n: Note) {
    i < |s.notes| && NoteMoved(s, op, s.notes[i], n)
  }

  // ---------- one step ----------

  lemma CommandMoves(s: Control, owner: ParentId, command: Command, elected: bool, newId: Id, i: nat, n: Note, schema: nat, r: Receipt)
    requires CommandBody(s, owner, command, elected, newId) == Ok(Ordinary(SetNote(i, n), schema, r))
    ensures MovedAt(s, CommandOp(owner, command, elected, newId), i, n)
  {
    hide Register, ChangedWork, PostedNote, ClaimedCase, ChangedCase, OwnWork, OwnCase, CommandSchema, WorkerPosted, PeerPostAllowed, PeerAckAllowed,
         NoteReadable, ActionOf;
  }

  lemma WorkerMoves(s: Control, actor: WorkerActor, k: string, operation: WorkerOperation, bytes: nat, newId: Id, i: nat, n: Note, schema: nat, r: Receipt)
    requires WorkerBody(s, actor, MainKey(actor, k), operation, bytes, newId) == Ok(Ordinary(SetNote(i, n), schema, r))
    ensures MovedAt(s, WorkerOp(actor, k, operation, bytes, newId), i, n)
  {
    hide WorkerCase, WorkerParties, PeerPostAllowed, PeerAckAllowed, PostedByRun, ProposalCurrent, SameSet, IsProposalNote, CaseNote;
  }

  predicate Unanswered(n: Note) { n.acknowledged == [] && !n.withdrawn }

  lemma AddedUnanswered(op: Op, p: Publication)
    requires Shape(op, p)
    ensures forall n :: n in NewNotes(p) ==> Unanswered(n)
  {
    hide ActionOf, IsWorkChange, IsCaseChange, PostsRecord, ApplicationRecord;
  }

  /** The note was one of the earlier ones, and the call moved it. */
  predicate MovedTo(s: Control, op: Op, n: Note) {
    exists was :: was in s.notes && NoteMoved(s, op, was, n)
  }

  /** Every note after the call stood before it, is new and unanswered, or was moved by it; a withdrawn one stands. */
  lemma NotesMoved(s: Control, op: Op, p: Publication, n: Note)
    requires Opened(s, op, p) && Shape(op, p)
    ensures n in Publish(s, p).notes ==> n in s.notes || Unanswered(n) || MovedTo(s, op, n)
    ensures n in s.notes && n.withdrawn ==> n in Publish(s, p).notes
  {
    hide CommandBody, ExtendBody, ObserveBody, WorkerBody, AdmitApplication, PublishOutcome, Submissions.Submit, RecoverStep, CasePendingUnsettled,
         Decodable, CommandChange, ActionOf, PostsRecord, ApplicationRecord, Unanswered, Acknowledged, Recalls;
    AddedUnanswered(op, p);
    match p
    case Ordinary(SetNote(i, m), schema, r) =>
      match op {
        case CommandOp(owner, command, elected, newId) => CommandMoves(s, owner, command, elected, newId, i, m, schema, r);
        case WorkerOp(actor, k, operation, bytes, newId) => WorkerMoves(s, actor, k, operation, bytes, newId, i, m, schema, r);
        case _ =>
      }
      assert MovedAt(s, op, i, m) && MovedTo(s, op, m);
      if n in s.notes && n.withdrawn {
        var k :| 0 <= k < |s.notes| && s.notes[k] == n;
        assert Publish(s, p).notes[k] == n;
      }
    case Ordinary(AddNote(m), _, _) => assert NewNotes(p)[0] == m;
    case _ =>
  }

  // ---------- whole runs ----------

  /** An accepted call of the run acknowledged the note for the party. */
  predicate Given(t: Trace, noteId: Id, party: Party) {
    exists c :: c in Moments(t) && Accepts(c.state, c.op) && Answers(c.state, c.op, noteId, party)
  }

  /** Every acknowledgment in a reachable state was given by the party itself, on the note it is recorded on. */
  lemma {:induction false} ConsentIsGiven(t: Trace, n: Note, party: Party)
    requires Run(t) && n in Now(t).notes && party in n.acknowledged
    ensures Given(t, n.id, party)
  {
    hide Inv, Admissible, Attempt, Publish, Later, Sound, Opened, Shape, Answers, Recalls, Moments;
    match t
    case Start(_, _, _) =>
    case Then(before, op) =>
      LastMoment(before, op);
      if n in Now(before).notes {
        ConsentIsGiven(before, n, party);
      } else {
        var s, p := Now(before), Attempt(Now(before), op).publication;
        Reachable(before);
        StepPublishes(s, op, p);
        NotesMoved(s, op, p, n);
        var was :| was in s.notes && NoteMoved(s, op, was, n);
        if party in was.acknowledged { ConsentIsGiven(before, was, party); }
        else { assert Answers(s, op, n.id, party); }
      }
  }

  /** An accepted call of the run took the note back. */
  predicate Recalled(t: Trace, n: Note) {
    exists c :: c in Moments(t) && Accepts(c.state, c.op) && Recalls(c.state, c.op, n)
  }

  lemma SameRecall(s: Control, op: Op, was: Note, n: Note)
    requires NoteMoved(s, op, was, n) && n.withdrawn
    ensures Recalls(s, op, n)
  {
    hide PostedByRun, WorkerPosted, Answers;
  }

  /** Every withdrawal in a reachable state was made by the note's author, or by the run whose task posted it. */
  lemma {:induction false} WithdrawalIsTheAuthors(t: Trace, n: Note)
    requires Run(t) && n in Now(t).notes && n.withdrawn
    ensures Recalled(t, n)
  {
    hide Inv, Admissible, Attempt, Publish, Later, Sound, Opened, Shape, Answers, Recalls, Moments;
    match t
    case Start(_, _, _) =>
    case Then(before, op) =>
      LastMoment(before, op);
      if n in Now(before).notes {
        WithdrawalIsTheAuthors(before, n);
      } else {
        var s, p := Now(before), Attempt(Now(before), op).publication;
        Reachable(before);
        StepPublishes(s, op, p);
        NotesMoved(s, op, p, n);
        var was :| was in s.notes && NoteMoved(s, op, was, n);
        SameRecall(s, op, was, n);
      }
  }

  /** A withdrawn note is exactly the same in every later state: nobody acknowledges it any more. */
  lemma {:induction false} WithdrawnIsFinal(t: Trace, u: Trace, n: Note)
    requires Run(u) && Continues(t, u) && n in Now(t).notes && n.withdrawn
    ensures n in Now(u).notes
  {
    hide Inv, Admissible, Attempt, Publish, Later, Sound, Opened, Shape, Unanswered, MovedTo;
    if t != u {
      WithdrawnIsFinal(t, u.before, n);
      Reachable(u.before);
      match Attempt(Now(u.before), u.op)
      case Candidate(p) =>
        StepPublishes(Now(u.before), u.op, p);
        NotesMoved(Now(u.before), u.op, p, n);
      case _ =>
    }
  }
}
