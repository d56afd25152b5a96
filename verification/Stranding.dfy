/** A worker's agreement holds a slot of the reserve until its own run withdraws it: exactly when that can still be done,
    and when it never can again. */
module Stranding {
  import opened ControlTypes
  import opened Records
  import opened Publications
  import opened Invariant
  import opened Steps
  import opened Shapes
  import opened Runs
  import opened Capacity
  import opened Ledger
  import opened PeerRecords
  import opened Preservation
  import Retained
  import opened History
  import SubmissionSoundness
  import Licences
  import Submissions

  /** An open agreement that a task posted. */
  predicate WorkerOwed(rs: seq<Receipt>, n: Note) {
    NoteSlots(n) > 0 && WorkerPosted(rs, n.id)
  }

  lemma NoteAt(ns: seq<Note>, i: nat)
    requires UniqueNotes(ns) && i < |ns|
    ensures NoteIndex(ns, ns[i].id) == i
  {
  }

  // ---------- the guard ----------

  /** The run that posted, as a worker of the note's case: its generation and workspace are those of its work, its source
      view that of its binding. */
  function Poster(s: Control, owner: ParentId, task: Id, run: Id, caseId: Id): WorkerActor {
    var managed := HasWork(s.works, task) && s.works[WorkIndex(s.works, task)].managed.Some?;
    WorkerActor(owner, task, run,
                if managed then s.works[WorkIndex(s.works, task)].managed.value.controlGeneration else 0,
                if HasWork(s.works, task) then s.works[WorkIndex(s.works, task)].workspaceId else "",
                if HasBinding(s.bindings, task) then s.bindings[BindingIndex(s.bindings, task)].sourceView else "", caseId)
  }

  /** The receipt posted the note, and its run is still a current worker of the note's case. */
  predicate Posts(s: Control, n: Note, r: Receipt) {
    IsWorkerPost(r, n.id) &&
    match r.key
    case WorkerKey(task, run, _, _) => WorkerCase(s, Poster(s, r.owner, task, run, n.subject.id)).Ok?
    case PublicKey(_) => false
  }

  /** The note is addressed to exactly the case's present tasks. */
  predicate ToPresentTasks(s: Control, n: Note) {
    HasCase(s.cases, n.subject.id) &&
    match WorkerParties(s.works, s.cases[CaseIndex(s.cases, n.subject.id)])
    case Some(parties) => SameSet(n.parties, parties)
    case None => false
  }

  /** The proposal is current, is addressed to the case's present tasks, and the run that posted it still works there. */
  predicate Withdrawable(s: Control, n: Note) {
    !n.withdrawn && n.subject.kind == CaseSubject && IsProposalNote(n, n.subject.id) && CurrentNote(s, n.id) && ToPresentTasks(s, n) &&
    exists r :: r in s.receipts && Posts(s, n, r)
  }

  predicate CurrentNote(s: Control, noteId: Id) {
    HasNote(s.notes, noteId) && ProposalCurrent(s, NoteIndex(s.notes, noteId))
  }

  /** The publication withdraws the note. */
  predicate Withdraws(s: Control, p: Publication, n: Note) {
    match p
    case Ordinary(SetNote(i, m), _, _) => i < |s.notes| && s.notes[i] == n && m.withdrawn && !n.withdrawn
    case Recovering(SetNote(i, m), _, _) => i < |s.notes| && s.notes[i] == n && m.withdrawn && !n.withdrawn
    case _ => false
  }

  /** The operation is accepted and withdraws the note. */
  predicate FreesNote(s: Control, op: Op, n: Note) {
    match Attempt(s, op)
    case Candidate(p) => Withdraws(s, p, n)
    case _ => false
  }

  // ---------- what holds, withdraws ----------

  /** An operation key that no entry uses: longer than every one on record. */
  function FreshText(rs: seq<Receipt>): (t: string)
    ensures |t| > 0 && forall i :: 0 <= i < |rs| && rs[i].key.WorkerKey? ==> |rs[i].key.operation| < |t|
  {
    if rs == [] then "k"
    else
      var rest := FreshText(rs[..|rs| - 1]);
      var key := rs[|rs| - 1].key;
      assert forall i :: 0 <= i < |rs| - 1 ==> rs[..|rs| - 1][i] == rs[i];
      if key.WorkerKey? then rest + key.operation else rest
  }

  lemma FreshTextIsNew(rs: seq<Receipt>, actor: WorkerActor)
    ensures !ReceiptKeyUsed(rs, actor.owner, MainKey(actor, FreshText(rs)))
  {
  }

  /** The worker may name the note in its case. */
  predicate MayName(s: Control, actor: WorkerActor, n: Note) {
    match WorkerCase(s, actor)
    case Ok(c) =>
      (match WorkerParties(s.works, s.cases[c])
       case Some(parties) => WorkerNote(s, s.cases[c], n.id, parties) == Ok(NoteIndex(s.notes, n.id))
       case None => false)
    case Err(_) => false
  }

  /** What the guard and the worker's own case say of the note is what naming it needs. */
  lemma NamedExactly(s: Control, actor: WorkerActor, n: Note)
    requires UniqueNotes(s.notes) && n in s.notes && WorkerCase(s, actor).Ok?
    ensures MayName(s, actor, n) <==>
            n.subject == Subject(CaseSubject, actor.caseId) && IsProposalNote(n, n.subject.id) && CurrentNote(s, n.id) && ToPresentTasks(s, n)
  {
    var i :| 0 <= i < |s.notes| && s.notes[i] == n;
    NoteAt(s.notes, i);
    hide ProposalCurrent, WorkerParties, SameSet, UniqueNotes, WorkerCase;
  }

  lemma NoteFound(ns: seq<Note>, n: Note)
    requires UniqueNotes(ns) && n in ns
    ensures NoteIndex(ns, n.id) < |ns| && ns[NoteIndex(ns, n.id)] == n
  {
  }

  predicate IsWithdrawal(op: Op) {
    match op
    case WorkerOp(_, _, operation, _, _) => operation.WorkerWithdraw?
    case _ => false
  }

  lemma PosterWithdraws(s: Control, n: Note) returns (op: Op)
    requires UniqueNotes(s.notes) && n in s.notes && Withdrawable(s, n)
    ensures IsWithdrawal(op) && FreesNote(s, op, n)
  {
    hide ProposalCurrent, ToPresentTasks, CurrentNote, WorkerCase, WorkerNote, WorkerParties, ReceiptKeyUsed, UniqueNotes, FreshText, Poster,
         NoteIndex, IsProposalNote, PeerPostAllowed, PeerAckAllowed, CaseNote, ActorPrincipal, ExecuteCommand, ExtendCase, ObserveDelivery,
         AdmitApplication, PublishOutcome, SubmitStep, RecoverStep;
    var r :| r in s.receipts && Posts(s, n, r);
    match r.key
    case WorkerKey(task, run, _, _) =>
      var actor := Poster(s, r.owner, task, run, n.subject.id);
      var k := FreshText(s.receipts);
      FreshTextIsNew(s.receipts, actor);
      PosterOf(s, r.owner, task, run, n.subject.id);
      NamedExactly(s, actor, n);
      assert PostedByRun(s.receipts, actor, n.id);
      NoteFound(s.notes, n);
      op := WorkerOp(actor, k, WorkerWithdraw(n.id), 0, "");
  }

  lemma PosterOf(s: Control, owner: ParentId, task: Id, run: Id, caseId: Id)
    ensures Poster(s, owner, task, run, caseId).caseId == caseId && Poster(s, owner, task, run, caseId).owner == owner
    ensures Poster(s, owner, task, run, caseId).taskId == task && Poster(s, owner, task, run, caseId).runId == run
  {
  }

  // ---------- what withdraws, was held to it ----------

  predicate NamedAfterTasks(ws: seq<Work>) {
    forall k :: 0 <= k < |ws| ==> AttributionOk(ws[k])
  }

  /** A current worker is the poster of every receipt of its run. */
  lemma ActorIsPoster(s: Control, actor: WorkerActor)
    requires UniqueWorks(s.works) && NamedAfterTasks(s.works) && WorkerCase(s, actor).Ok?
    ensures Poster(s, actor.owner, actor.taskId, actor.runId, actor.caseId) == actor
  {
    hide CanReadCase, SelectedAuthority, UniqueWorks, Selects;
    var k :| 0 <= k < |s.works| && IsActorWork(s.works[k], actor);
    assert AttributionOk(s.works[k]);
    WorkAt(s.works, k);
  }

  lemma WorkAt(ws: seq<Work>, k: nat)
    requires UniqueWorks(ws) && k < |ws|
    ensures WorkIndex(ws, ws[k].id) == k
  {
  }

  lemma RunPosts(s: Control, actor: WorkerActor, n: Note)
    requires UniqueWorks(s.works) && NamedAfterTasks(s.works) && WorkerCase(s, actor).Ok? && n.subject.id == actor.caseId
    requires PostedByRun(s.receipts, actor, n.id)
    ensures exists r :: r in s.receipts && Posts(s, n, r)
  {
    hide WorkerCase, UniqueWorks, NamedAfterTasks, Poster;
    var k :| 0 <= k < |s.receipts| && s.receipts[k].owner == actor.owner && s.receipts[k].action == ActPostNote &&
      s.receipts[k].itemId == n.id && s.receipts[k].key.WorkerKey? && s.receipts[k].key.taskId == actor.taskId &&
      s.receipts[k].key.runId == actor.runId;
    ActorIsPoster(s, actor);
    assert Posts(s, n, s.receipts[k]);
  }

  lemma CommandHeld(s: Control, owner: ParentId, command: Command, elected: bool, newId: Id, p: Publication, n: Note)
    requires WorkerPosted(s.receipts, n.id) && CommandBody(s, owner, command, elected, newId) == Ok(p)
    ensures !Withdraws(s, p, n)
  {
    hide PeerPostAllowed, Register, ChangedWork, PostedNote, ClaimedCase, ChangedCase, OwnWork, OwnCase, CommandSchema,
         WorkerPosted, NoteReadable, PeerAckAllowed, ActionOf;
  }

  /** Whatever operation withdraws a worker's agreement, the guard held. */
  lemma OnlyItsRun(s: Control, op: Op, p: Publication, n: Note)
    requires UniqueWorks(s.works) && UniqueNotes(s.notes) && NamedAfterTasks(s.works) && WorkerPosted(s.receipts, n.id)
    requires Opened(s, op, p) && Shape(op, p) && Withdraws(s, p, n)
    ensures Withdrawable(s, n)
  {
    hide UniqueWorks, UniqueNotes, NamedAfterTasks, WorkerPosted, NewNote, PostsRecord, ApplicationRecord, ExtendBody, ObserveBody, AdmitApplication,
         PublishOutcome, Submissions.Submit, RecoverStep, CasePendingUnsettled, Decodable, WorkerCase, WorkerParties, PostedByRun, PeerPostAllowed,
         PeerAckAllowed, ProposalCurrent, SameSet, IsProposalNote, CaseNote, CurrentNote, ToPresentTasks, Posts, Register, ChangedWork, PostedNote,
         ClaimedCase, ChangedCase, OwnWork, OwnCase, CommandSchema, NoteReadable, ActionOf, CommandBody;
    if op.CommandOp? { CommandHeld(s, op.owner, op.command, op.elected, op.newId, p, n); }
    if op.WorkerOp? {
      NoteAt(s.notes, p.change.index);
      NamedExactly(s, op.actor, n);
      RunPosts(s, op.actor, n);
    }
  }

  lemma Unique(s: Control)
    requires Inv(s)
    ensures UniqueWorks(s.works) && UniqueCases(s.cases) && UniqueNotes(s.notes) && NamedAfterTasks(s.works)
  {
    hide FieldsFit, LedgersFit, LedgersRefer, Enrolled, HistoryExact, KeysOnce, NoWorkerKeys, SubmissionSoundness.LifecycleOf, CasesKnown, NotesKnown,
         IdsDisjoint, CaseOk, NoteOk, OneWriter, Fenced, GrantsOk, WatchesOk, InventoryOk, UniqueWorks, UniqueCases, UniqueNotes;
  }

  /** Some accepted operation frees the slot of a worker's open agreement if and only if the guard holds. */
  lemma SlotFreedExactly(s: Control, n: Note)
    requires Inv(s) && n in s.notes && WorkerOwed(s.receipts, n)
    ensures Withdrawable(s, n) <==> exists op :: FreesNote(s, op, n)
  {
    hide Inv, UniqueWorks, UniqueCases, UniqueNotes, NamedAfterTasks, Withdrawable, WorkerPosted, Withdraws, Shape, Opened, Attempt;
    Unique(s);
    if Withdrawable(s, n) { var op := PosterWithdraws(s, n); }
    if op :| FreesNote(s, op, n) {
      var p := Attempt(s, op).publication;
      Shapes.Shapes(s, op, p);
      OnlyItsRun(s, op, p, n);
    }
  }

  // ---------- what can never be withdrawn again ----------

  /** The case has closed, or has moved beyond the version the evidence names. */
  predicate CasePassed(s: Control, ev: Evidence) {
    HasCase(s.cases, ev.caseId) &&
    var c := s.cases[CaseIndex(s.cases, ev.caseId)];
    c.state == Closed || c.revision > ev.caseRevision || c.generation > ev.caseGeneration
  }

  predicate SourcePassed(s: Control, source: Source) {
    HasWork(s.works, source.workId) && s.works[WorkIndex(s.works, source.workId)].revision > source.workRevision
  }

  predicate EvidencePassed(s: Control, text: NoteText) {
    match text
    case PeerText(Proposal(ev, _, _, _, _, _)) => CasePassed(s, ev) || exists source :: source in ev.sources && SourcePassed(s, source)
    case _ => false
  }

  predicate TaskEnded(bs: seq<Binding>, taskId: Id) {
    HasBinding(bs, taskId) && (bs[BindingIndex(bs, taskId)].state == Released || bs[BindingIndex(bs, taskId)].state == Ended)
  }

  predicate RunEnded(bs: seq<Binding>, key: Key) {
    match key
    case WorkerKey(task, _, _, _) => TaskEnded(bs, task)
    case PublicKey(_) => false
  }

  /** The binding of whatever task posted the note is released or ended. */
  predicate PosterEnded(rs: seq<Receipt>, bs: seq<Binding>, noteId: Id) {
    forall r :: r in rs && IsWorkerPost(r, noteId) ==> RunEnded(bs, r.key)
  }

  /** The guard fails for good. */
  predicate Passed(s: Control, n: Note) {
    EvidencePassed(s, n.text) || PosterEnded(s.receipts, s.bindings, n.id)
  }

  lemma CurrentStands(s: Control, noteId: Id, n: Note)
    requires CurrentNote(s, noteId) && n == s.notes[NoteIndex(s.notes, noteId)]
    ensures !EvidencePassed(s, n.text)
  {
    hide WorkerParties, WorkerPosted, SameSet, L.WorkerCurrent, L.Superseded, L.Predecessor;
    var ev := n.text.record.evidence;
    var item := s.cases[CaseIndex(s.cases, ev.caseId)];
    assert EntriesOf(s, item, ev)[NoteIndex(s.notes, noteId)].standing;
    assert EvidenceStanding(s.works, item, ev);
    hide EntriesOf, EntryOf, L.Current;
    forall source | source in ev.sources ensures !SourcePassed(s, source) { assert SourceCurrent(s.works, item, source); }
  }

  lemma PassedRefuses(s: Control, n: Note)
    requires UniqueNotes(s.notes) && n in s.notes && Withdrawable(s, n)
    ensures !Passed(s, n)
  {
    hide ProposalCurrent, EvidencePassed, CanReadCase, SelectedAuthority, IsActorWork, Selects, ToPresentTasks, UniqueNotes, IsWorkerPost;
    var i :| 0 <= i < |s.notes| && s.notes[i] == n;
    NoteAt(s.notes, i);
    CurrentStands(s, n.id, n);
    var r :| r in s.receipts && Posts(s, n, r);
    assert !RunEnded(s.bindings, r.key);
  }

  lemma EvidenceStaysPassed(s: Control, t: Control, text: NoteText)
    requires Retained.Later(s, t) && EvidencePassed(s, text)
    ensures EvidencePassed(t, text)
  {
    hide Retained.NoteLasts, Retained.BindingsLast;
    match text
    case PeerText(Proposal(ev, _, _, _, _, _)) =>
      if CasePassed(s, ev) {
        assert Retained.CaseLasts(s.cases[CaseIndex(s.cases, ev.caseId)], t);
      } else {
        var source :| source in ev.sources && SourcePassed(s, source);
        assert Retained.WorkLasts(s.works[WorkIndex(s.works, source.workId)], t);
      }
  }

  lemma TaskStaysEnded(bs: seq<Binding>, later: seq<Binding>, taskId: Id)
    requires Retained.BindingsLast(bs, later) && TaskEnded(bs, taskId)
    ensures TaskEnded(later, taskId)
  {
    var i := BindingIndex(bs, taskId);
    forall j | 0 <= j <= i ensures later[j].taskId == bs[j].taskId { assert Retained.LaterBinding(bs[j], later[j]); }
    assert later[i] == bs[i] && BindingIndex(later, taskId) == i;
  }

  lemma PosterStaysEnded(rs: seq<Receipt>, bs: seq<Binding>, later: seq<Receipt>, after: seq<Binding>, noteId: Id)
    requires Retained.BindingsLast(bs, after) && PosterEnded(rs, bs, noteId)
    requires forall r :: r in later && IsWorkerPost(r, noteId) ==> r in rs
    ensures PosterEnded(later, after, noteId)
  {
    hide Retained.BindingsLast, TaskEnded, IsWorkerPost;
    forall r | r in later && IsWorkerPost(r, noteId) ensures RunEnded(after, r.key) {
      match r.key
      case WorkerKey(task, _, _, _) => TaskStaysEnded(bs, after, task);
    }
  }

  // ---------- over a run ----------

  /** An open worker agreement whose guard fails for good. */
  predicate StrandedNote(s: Control, n: Note) {
    n in s.notes && WorkerOwed(s.receipts, n) && Passed(s, n)
  }

  /** A receipt that posts a note, posts the one the call made. */
  lemma PostsOwn(op: Op, p: Publication, r: Receipt, noteId: Id)
    requires Shape(op, p) && r in NewReceipts(p) && IsWorkerPost(r, noteId)
    ensures NewIdentity(op) == Some(noteId)
  {
    hide PostsRecord, ApplicationRecord, NewNote;
  }

  lemma IdentityIsFresh(s: Control, op: Op, n: Note)
    requires FreshIdentity(s, op) && n in s.notes
    ensures NewIdentity(op) != Some(n.id)
  {
    hide HasWork, HasCase;
  }

  /** So no receipt of the call posts a note that was there before. */
  lemma PostsNew(s: Control, op: Op, p: Publication, n: Note)
    requires Admissible(s, op) && Shape(op, p) && n in s.notes
    ensures forall r :: r in NewReceipts(p) ==> !IsWorkerPost(r, n.id)
  {
    hide Shape, NewKey, IsWorkerPost, NewIdentity, FreshIdentity;
    forall r | r in NewReceipts(p) && IsWorkerPost(r, n.id) ensures false {
      PostsOwn(op, p, r, n.id);
      IdentityIsFresh(s, op, n);
    }
  }

  lemma PostedLasts(rs: seq<Receipt>, later: seq<Receipt>, noteId: Id)
    requires rs <= later && WorkerPosted(rs, noteId)
    ensures WorkerPosted(later, noteId)
  {
    var i :| 0 <= i < |rs| && IsWorkerPost(rs[i], noteId);
    assert later[i] == rs[i];
  }

  /** A changed note keeps its identity. */
  predicate KeepsIdentity(s: Control, p: Publication) {
    match p
    case Ordinary(SetNote(i, n), _, _) => i < |s.notes| && n.id == s.notes[i].id
    case Recovering(SetNote(i, n), _, _) => i < |s.notes| && n.id == s.notes[i].id
    case _ => true
  }

  lemma ChangeKeepsId(s: Control, p: Publication)
    requires Sound(s, p)
    ensures KeepsIdentity(s, p)
  {
    hide KeyUsed, SubmissionSoundness.SubmissionSound, FitsWork, FitsCase, Licences.RecoveryLicensed, Licences.Licensed;
  }

  lemma NewIsOpen(op: Op, p: Publication)
    requires Shape(op, p)
    ensures forall n :: n in NewNotes(p) ==> !n.withdrawn
  {
    hide ActionOf, IsWorkChange, IsCaseChange, PostsRecord, ApplicationRecord;
  }

  /** A publication that does not withdraw the note leaves it open. */
  lemma StaysOpen(s: Control, op: Op, p: Publication, n: Note, m: Note)
    requires UniqueNotes(s.notes) && n in s.notes && !n.withdrawn && !Withdraws(s, p, n) && KeepsIdentity(s, p) && Shape(op, p)
    requires m in Publish(s, p).notes && m.id == n.id
    ensures !m.withdrawn
  {
    hide Shape;
    NewIsOpen(op, p);
    match p
    case Ordinary(AddNote(added), _, _) => assert NewNotes(p)[0] == added;
    case Recovering(AddNote(added), _, _) => assert NewNotes(p)[0] == added;
    case _ =>
  }

  lemma PassedLasts(s: Control, p: Publication, n: Note, m: Note)
    requires Retained.Later(s, Publish(s, p)) && Passed(s, n) && m.id == n.id && m.text == n.text
    requires forall r :: r in NewReceipts(p) ==> !IsWorkerPost(r, n.id)
    ensures Passed(Publish(s, p), m)
  {
    var t := Publish(s, p);
    if EvidencePassed(s, n.text) {
      EvidenceStaysPassed(s, t, n.text);
    } else {
      hide EvidencePassed, PosterEnded, IsWorkerPost, Retained.BindingsLast, Retained.WorkLasts, Retained.CaseLasts, Retained.NoteLasts;
      PosterStaysEnded(s.receipts, s.bindings, t.receipts, t.bindings, n.id);
    }
  }

  /** The open worker agreement with the identity is stranded. */
  predicate StrandedIn(s: Control, noteId: Id) {
    exists n :: n in s.notes && n.id == noteId && StrandedNote(s, n)
  }

  lemma NoteLater(s: Control, t: Control, n: Note) returns (m: Note)
    requires Retained.Later(s, t) && n in s.notes
    ensures m in t.notes && m.id == n.id && m.text == n.text && m.kind == n.kind && s.receipts <= t.receipts
  {
    hide Retained.CaseLasts, Retained.WorkLasts, Retained.BindingsLast;
    assert Retained.NoteLasts(n, t);
    m := t.notes[NoteIndex(t.notes, n.id)];
  }

  /** No operation would free the slot of the note with the identity. */
  ghost predicate NeverFreed(s: Control, noteId: Id) {
    forall op, n :: n in s.notes && n.id == noteId ==> !FreesNote(s, op, n)
  }

  lemma OneNote(ns: seq<Note>, n: Note, m: Note)
    requires UniqueNotes(ns) && n in ns && m in ns && n.id == m.id
    ensures n == m
  {
  }

  /** Once its case has closed, its evidence is passed or its task has ended, an open worker agreement is open in every later
      state, and no operation there would free its slot. */
  lemma {:induction false} StrandedForever(t: Trace, u: Trace, noteId: Id)
    requires Run(u) && Continues(t, u) && StrandedIn(Now(t), noteId)
    ensures StrandedIn(Now(u), noteId) && NeverFreed(Now(u), noteId)
  {
    hide Inv, Admissible, Attempt, Publish, Opened, Shape, Sound, Passed, WorkerPosted, UniqueNotes, UniqueWorks, UniqueCases, NamedAfterTasks,
         Withdraws, Withdrawable, Retained.Later, IsWorkerPost, KeepsIdentity;
    Reachable(u);
    Unique(Now(u));
    if t != u {
      StrandedForever(t, u.before, noteId);
      Reachable(u.before);
      var s, op := Now(u.before), u.op;
      match Attempt(s, op) {
        case Candidate(p) =>
          Retained.StepPublishes(s, op, p);
          Unique(s);
          var n :| n in s.notes && n.id == noteId && StrandedNote(s, n);
          assert !FreesNote(s, op, n);
          var m := NoteLater(s, Now(u), n);
          ChangeKeepsId(s, p);
          StaysOpen(s, op, p, n, m);
          PostsNew(s, op, p, n);
          PostedLasts(s.receipts, Now(u).receipts, noteId);
          PassedLasts(s, p, n, m);
          assert StrandedNote(Now(u), m);
        case _ =>
      }
    }
    var s := Now(u);
    var n :| n in s.notes && n.id == noteId && StrandedNote(s, n);
    assert StrandedNote(s, n);
    forall op, m | m in s.notes && m.id == noteId ensures !FreesNote(s, op, m) {
      OneNote(s.notes, n, m);
      if FreesNote(s, op, m) {
        var p := Attempt(s, op).publication;
        Shapes.Shapes(s, op, p);
        OnlyItsRun(s, op, p, n);
        PassedRefuses(s, n);
      }
    }
  }
}
