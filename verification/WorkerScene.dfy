/** One managed task of one parent, selected alone by a case: what its worker may do there, on any record of this shape. */
module WorkerScene {
  import opened ControlTypes
  import opened Records
  import opened Publications
  import opened Ledger
  import opened PeerRecords
  import AnswerGraph
  import L = Lineage

  const PRINCIPAL: Party := TaskParty("task", "p", 1, "workspace")
  const BYTES: nat := 1

  function Task(): Work {
    Work("task", "p", "workspace", 1, Active, "oid", Sha1, "intent", [], [], Some(Managed("task", 1, false, true)), None, None)
  }

  function ActorIn(caseId: Id): WorkerActor { WorkerActor("p", "task", "run", 1, "workspace", "view", caseId) }

  function SelectedCase(id: Id, target: string): Case {
    Case(id, target, "p", ["p"], 2, 1, Active, NotStarted, Some("oid"), [Selection("task", "oid")], None, None, None, None)
  }

  function EvidenceOf(caseId: Id): Evidence { Evidence(caseId, 2, 1, "evidence", 1, [Source("task", 1, "oid", "oid")], []) }

  function ProposalIn(caseId: Id): PeerRecord { Proposal(EvidenceOf(caseId), 1, ["p"], "digest", None, true) }

  function ProposalNote(caseId: Id, noteId: Id, agreed: bool): Note {
    Note(noteId, Subject(CaseSubject, caseId), "p", AgreementProposal, PeerText(ProposalIn(caseId)), BYTES, ["task"],
         [PRINCIPAL], if agreed then [PRINCIPAL] else [], false, None)
  }

  function ApplicationIn(caseId: Id): PeerRecord { Application(EvidenceOf(caseId), "digest", "application", StatusPending) }

  function ApplicationNote(caseId: Id, noteId: Id): Note {
    Note(noteId, Subject(CaseSubject, caseId), "p", ResolutionUpdate, PeerText(ApplicationIn(caseId)), BYTES, ["task"], [], [], false, None)
  }

  predicate TaskBound(bs: seq<Binding>) {
    |bs| == 1 && bs[0].taskId == "task" && bs[0].owner == "p" && bs[0].sourceView == "view" && bs[0].state == Bound
  }

  predicate CaseIs(cs: seq<Case>, i: nat, c: Case) { i < |cs| && cs[i] == c && CaseIndex(cs, c.id) == i }
  predicate NoteIs(ns: seq<Note>, j: nat, n: Note) { j < |ns| && ns[j] == n && NoteIndex(ns, n.id) == j }

  /** The one task is bound, and the case at `i` selects it. */
  predicate Scene(s: Control, i: nat, id: Id, target: string) {
    s.works == [Task()] && TaskBound(s.bindings) && CaseIs(s.cases, i, SelectedCase(id, target))
  }

  // ---------- the worker's standing ----------

  lemma TaskIsFirst()
    ensures WorkIndex([Task()], "task") == 0
  {
    assert [Task()][0].id == "task";
  }

  lemma Parties(id: Id, target: string)
    ensures WorkerParties([Task()], SelectedCase(id, target)) == Some([PRINCIPAL])
  {
    TaskIsFirst();
    var item := SelectedCase(id, target);
    assert item.inputs[0].workId == "task" && item.members[0] == "p";
    assert OwnsInput([Task()], item, "p");
    assert WorkerParties([Task()], item).value == [PRINCIPAL];
  }

  lemma TaskVisible(s: Control)
    requires s.works == [Task()]
    ensures VisibleWork(s, "p", "task")
  {
    TaskIsFirst();
    assert CanReadWork("p", Task());
  }

  lemma CaseReadable(s: Control, id: Id, target: string)
    requires s.works == [Task()]
    ensures CanReadCase(s, "p", SelectedCase(id, target)) && SelectedAuthority(s, "p", SelectedCase(id, target))
  {
    hide VisibleWork;
    TaskIsFirst();
    TaskVisible(s);
    var item := SelectedCase(id, target);
    assert item.inputs[0].workId == "task" && item.members[0] == "p";
  }

  lemma Participates(s: Control, id: Id, target: string)
    requires s.works == [Task()] && TaskBound(s.bindings)
    ensures ActorBound(s.bindings, ActorIn(id))
    ensures exists k :: 0 <= k < |s.works| && IsActorWork(s.works[k], ActorIn(id)) && s.works[k].state == Active && Selects(SelectedCase(id, target), s.works[k].id)
  {
    var item := SelectedCase(id, target);
    assert item.inputs[0].workId == "task" && IsActorWork(s.works[0], ActorIn(id)) && Selects(item, "task");
    assert BindingIndex(s.bindings, "task") == 0;
  }

  lemma Stands(s: Control, i: nat, id: Id, target: string)
    requires Scene(s, i, id, target)
    ensures WorkerCase(s, ActorIn(id)) == Ok(i)
  {
    hide CanReadCase, SelectedAuthority, ActorBound, Selects, IsActorWork, CaseIndex, TaskBound;
    CaseReadable(s, id, target);
    Participates(s, id, target);
    assert SelectedCase(id, target).members[0] == "p";
  }

  lemma SourceIsCurrent(id: Id, target: string)
    ensures forall source :: source in EvidenceOf(id).sources ==> SourceCurrent([Task()], SelectedCase(id, target), source)
    ensures EvidenceStanding([Task()], SelectedCase(id, target), EvidenceOf(id))
  {
    TaskIsFirst();
    assert SelectedCase(id, target).inputs[0] == Selection("task", "oid");
  }

  lemma SameOne<X>(x: X)
    ensures SameSet([x], [x]) && x in [x]
  {
    assert [x][0] == x;
  }

  // ---------- proposing ----------

  predicate NoNotesIn(ns: seq<Note>, id: Id) {
    forall n :: n in ns ==> n.subject != Subject(CaseSubject, id)
  }

  lemma SourcesSeen(s: Control, id: Id, target: string)
    requires s.works == [Task()]
    ensures SourcesVisible(s, "p", SelectedCase(id, target), EvidenceOf(id).sources)
  {
    hide VisibleWork, SourceCurrent;
    TaskVisible(s);
    SourceIsCurrent(id, target);
  }

  lemma MayPost(s: Control, i: nat, id: Id, target: string)
    requires Scene(s, i, id, target) && NoNotesIn(s.notes, id)
    ensures PeerPostAllowed(s, "p", Subject(CaseSubject, id), AgreementProposal, ["p"], ProposalIn(id), true).Ok?
  {
    hide SourcesVisible, SameSet, CanReadCase, VisibleWork, ProposalCurrent, PostPredecessor, PredecessorAnswered, ProposalSupports,
         AppliedApplication, TaskBound;
    CaseReadable(s, id, target);
    SourcesSeen(s, id, target);
    SameOne("p");
  }

  /** The publication of the task's proposal. */
  function Proposed(s: Control, id: Id, key: Key, noteId: Id): Publication {
    Acknowledge(s, AddNote(ProposalNote(id, noteId, false)), s.schema, "p", key, WorkerRequest(ActorIn(id), key, WorkerPropose(ProposalIn(id))),
                ActPostNote, Subject(CaseSubject, id), noteId)
  }

  lemma OneInput(id: Id, target: string)
    ensures InputIds(SelectedCase(id, target).inputs) == ["task"]
  {
  }

  lemma Proposes(s: Control, i: nat, id: Id, target: string, key: Key, noteId: Id)
    requires Scene(s, i, id, target) && NoNotesIn(s.notes, id)
    ensures WorkerBody(s, ActorIn(id), key, WorkerPropose(ProposalIn(id)), BYTES, noteId) == Ok(Proposed(s, id, key, noteId))
  {
    hide WorkerCase, WorkerParties, PeerPostAllowed, PeerAckAllowed, WorkerNote, PostedByRun, CaseIndex, TaskBound, InputIds, EvidenceOf;
    Stands(s, i, id, target);
    Parties(id, target);
    MayPost(s, i, id, target);
    OneInput(id, target);
  }

  // ---------- answering and applying ----------

  /** No proposal of the list answers another. */
  predicate NoAnswers(ns: seq<Note>) {
    forall n :: n in ns && n.text.PeerText? && n.text.record.Proposal? ==> n.text.record.predecessor.None?
  }

  /** The note at `j` is the case's proposal, posted by the task, and no proposal answers another. */
  predicate Retained(s: Control, id: Id, j: nat, noteId: Id, agreed: bool) {
    NoteIs(s.notes, j, ProposalNote(id, noteId, agreed)) && NoAnswers(s.notes) && PostedByRun(s.receipts, ActorIn(id), noteId)
  }

  lemma EntryIs(s: Control, id: Id, target: string, noteId: Id, agreed: bool)
    requires s.works == [Task()] && PostedByRun(s.receipts, ActorIn(id), noteId)
    ensures EntryOf(s, SelectedCase(id, target), EvidenceOf(id), ProposalNote(id, noteId, agreed)) ==
            L.Entry(noteId, true, false, "digest", None, 1, true, true, agreed, true)
  {
    hide WorkerParties, EvidenceStanding, EvidenceOf, SameSet;
    Parties(id, target);
    SourceIsCurrent(id, target);
    SameOne(PRINCIPAL);
  }

  /** No entry answers another. */
  predicate Answerless(es: L.Entries) {
    forall k :: 0 <= k < |es| ==> es[k].predecessor.None?
  }

  lemma Unanswered(es: L.Entries, digest: Digest)
    requires Answerless(es)
    ensures !L.Superseded(es, digest, None)
  {
    hide L.Acknowledged;
    var g := L.View(es, None);
    assert forall k :: 0 <= k < |g| ==> g[k].predecessor.None?;
    AnswerGraph.SearchIsReachability(g, digest);
    forall p: seq<nat> ensures !AnswerGraph.AcceptedPath(g, digest, p) {
      assert |p| > 0 && p[0] < |g| ==> !AnswerGraph.Answers(g, digest, p[0]);
    }
  }

  lemma NoPredecessors(s: Control, item: Case, ev: Evidence)
    requires NoAnswers(s.notes)
    ensures Answerless(EntriesOf(s, item, ev))
  {
    hide EvidenceStanding, WorkerParties, WorkerPosted, SameSet;
  }

  /** The note at the place is a current proposal. */
  predicate CurrentAt(s: Control, j: nat) { j < |s.notes| && ProposalCurrent(s, j) }

  lemma NowCurrent(s: Control, i: nat, id: Id, target: string, j: nat, noteId: Id, agreed: bool)
    requires Scene(s, i, id, target) && Retained(s, id, j, noteId, agreed)
    ensures CurrentAt(s, j) && !L.Superseded(EntriesOf(s, SelectedCase(id, target), EvidenceOf(id)), "digest", None)
    ensures agreed ==> L.Acknowledged(EntriesOf(s, SelectedCase(id, target), EvidenceOf(id)), j)
  {
    hide L.Superseded, EntryOf, NoAnswers, PostedByRun, CaseIndex, NoteIndex, TaskBound;
    EntryIs(s, id, target, noteId, agreed);
    var es := EntriesOf(s, SelectedCase(id, target), EvidenceOf(id));
    NoPredecessors(s, SelectedCase(id, target), EvidenceOf(id));
    Unanswered(es, "digest");
    assert L.WorkerCurrent(es, j);
    assert L.Current(es, j, None);
  }

  /** The worker may acknowledge the note at the place. */
  predicate AckAllowed(s: Control, j: nat) { j < |s.notes| && s.notes[j].text.PeerText? && PeerAckAllowed(s, j, true).Ok? }

  lemma MayAcknowledge(s: Control, i: nat, id: Id, target: string, j: nat, noteId: Id)
    requires Scene(s, i, id, target) && Retained(s, id, j, noteId, false)
    ensures AckAllowed(s, j) && WorkerNote(s, SelectedCase(id, target), noteId, [PRINCIPAL]) == Ok(j)
  {
    hide L.Superseded, EntriesOf, WorkerParties, SameSet, SourceCurrent, ProposalCurrent, NoAnswers, PostedByRun, CaseIndex, NoteIndex, TaskBound;
    NowCurrent(s, i, id, target, j, noteId, false);
    Parties(id, target);
    SourceIsCurrent(id, target);
    SameOne(PRINCIPAL);
  }

  /** The publication of the task's consent. */
  function Consented(s: Control, id: Id, key: Key, j: nat, noteId: Id): Publication {
    Acknowledge(s, SetNote(j, ProposalNote(id, noteId, true)), s.schema, "p", key, WorkerRequest(ActorIn(id), key, WorkerAcknowledge(noteId)),
                ActAckNote, Subject(CaseSubject, id), noteId)
  }

  lemma Acknowledges(s: Control, i: nat, id: Id, target: string, j: nat, noteId: Id, key: Key, newId: Id)
    requires Scene(s, i, id, target) && Retained(s, id, j, noteId, false)
    ensures WorkerBody(s, ActorIn(id), key, WorkerAcknowledge(noteId), BYTES, newId) == Ok(Consented(s, id, key, j, noteId))
  {
    hide WorkerCase, WorkerParties, PeerAckAllowed, PeerPostAllowed, WorkerNote, NoAnswers, PostedByRun, CaseIndex, NoteIndex, TaskBound, EvidenceOf;
    Stands(s, i, id, target);
    Parties(id, target);
    MayAcknowledge(s, i, id, target, j, noteId);
    assert [PRINCIPAL][0] == PRINCIPAL && [] + [PRINCIPAL] == [PRINCIPAL];
  }

  /** The note at the place is one the worker may apply. */
  predicate ApplicableAt(s: Control, id: Id, item: Case, j: nat) { j < |s.notes| && ApplicableProposal(s, ActorIn(id), item, j) }

  lemma Applicable(s: Control, i: nat, id: Id, target: string, j: nat, noteId: Id)
    requires Scene(s, i, id, target) && Retained(s, id, j, noteId, true)
    ensures ApplicableAt(s, id, SelectedCase(id, target), j)
  {
    hide ProposalCurrent, L.Acknowledged, EntriesOf, WorkerParties, PostedByRun, SameSet, NoAnswers, CaseIndex, NoteIndex, TaskBound, L.Superseded;
    NowCurrent(s, i, id, target, j, noteId, true);
    Parties(id, target);
    SameOne(PRINCIPAL);
  }

  /** No application was admitted into the case. */
  predicate NoneAdmitted(s: Control, id: Id) {
    forall r :: r in s.receipts && r.key.WorkerKey? && r.key.part == PendingPart ==> !NoteInCase(s.notes, r.itemId, id)
  }

  /** The publication of the task's pending application. */
  function Pending(s: Control, id: Id, operation: string, noteId: Id, newId: Id): Publication {
    var key := PendingKey(ActorIn(id), operation);
    Acknowledge(s, AddNote(ApplicationNote(id, newId)), s.schema, "p", key, WorkerRequest(ActorIn(id), key, WorkerApply(noteId, ApplicationIn(id))),
                ActPostNote, Subject(CaseSubject, id), newId)
  }

  /** The task applies its agreed proposal in a case that holds no application yet, whatever other cases hold. */
  lemma AdmitsPending(s: Control, i: nat, id: Id, target: string, j: nat, noteId: Id, operation: string, newId: Id)
    requires Scene(s, i, id, target) && Retained(s, id, j, noteId, true) && NoneAdmitted(s, id)
    ensures AdmitApplication(s, ActorIn(id), operation, noteId, "application", BYTES, newId) == Admits(Pending(s, id, operation, noteId, newId))
  {
    hide WorkerCase, ApplicableProposal, NoteInCase, OutcomeIs, InputIds, NoAnswers, PostedByRun, CaseIndex, NoteIndex, TaskBound, EvidenceOf;
    Stands(s, i, id, target);
    Applicable(s, i, id, target, j, noteId);
    OneInput(id, target);
  }
}
