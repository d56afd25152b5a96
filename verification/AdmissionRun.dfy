/** A run of eleven operations in which one task agrees with itself in two cases and has applied in the first: applying
    in the second under the same operation key is admitted, and the key is then acknowledged twice. */
module AdmissionRun {
  import opened ControlTypes
  import opened Records
  import opened Publications
  import opened Invariant
  import opened Preservation
  import opened Ledger
  import opened Steps
  import opened Runs
  import opened ConcreteRuns
  import opened WorkerScene
  import Replay
  import Submissions

  // ---------- the commands ----------

  function Enrolment(): Command {
    RegisterTaskWork(PublicKey("enrol"), "workspace", "oid", Sha1, "intent", [], Managed("task", 1, false, true))
  }

  function Claim(key: string, target: string): Command { ClaimTarget(PublicKey(key), target, []) }
  function Choose(key: string, id: Id, revision: nat): Command { SelectInputs(PublicKey(key), id, revision, 1, "oid", [Selection("task", "oid")]) }
  function Submitted(): SubmissionInput { BindInput("task", "request", "view", "oid", "intent", [], None, None, None, None) }

  const MAIN: string := "refs/heads/main"
  const RELEASE: string := "refs/heads/release"

  function NewCase(id: Id, target: string): Case {
    Case(id, target, "p", ["p"], 1, 1, Active, NotStarted, None, [], None, None, None, None)
  }

  /** The case with the task chosen. */
  function Chosen(c: Case): Case {
    c.(inputs := [Selection("task", "oid")], targetOid := Some("oid"), revision := c.revision + 1)
  }

  // ---------- what is on record ----------

  /** The keys in use, the cases and the notes. */
  datatype Sketch = Sketch(used: set<Key>, cases: seq<Case>, notes: seq<Note>)

  /** The record has the one bound task and what is sketched; the task used its keys, posted every agreement, and applied as note
      "m1" if at all. */
  predicate Drawn(s: Control, k: Sketch) {
    s.works == [Task()] && TaskBound(s.bindings) && s.cases == k.cases && s.notes == k.notes && KeysIn(s, k.used) &&
    (forall key :: key in k.used && key.WorkerKey? ==> ReceiptKeyUsed(s.receipts, "p", key)) &&
    (forall n :: n in s.notes && n.kind == AgreementProposal ==> PostedByRun(s.receipts, ActorIn(""), n.id)) &&
    forall r :: r in s.receipts && r.key.WorkerKey? && r.key.part == PendingPart ==> r.itemId == "m1"
  }

  predicate PostsIt(r: Receipt, noteId: Id) {
    r.owner == "p" && r.action == ActPostNote && r.itemId == noteId && r.key.WorkerKey? && r.key.taskId == "task" && r.key.runId == "run"
  }

  /** A change of a case or a note that the sketch can follow. */
  predicate Follows(k: Sketch, ch: Change, r: Receipt) {
    r.owner == "p" && (r.key.WorkerKey? && r.key.part == PendingPart ==> r.itemId == "m1") &&
    match ch
    case AddNote(n) => n.kind == AgreementProposal ==> PostsIt(r, n.id)
    case SetNote(j, n) => j < |k.notes| && n.id == k.notes[j].id && n.kind == k.notes[j].kind
    case _ => !ch.AddWork? && !ch.SetWork?
  }

  function After(k: Sketch, ch: Change, r: Receipt): Sketch {
    Sketch(k.used + {r.key}, CasesAfter(k.cases, ch), NotesAfter(k.notes, ch))
  }

  lemma Redrawn(s: Control, k: Sketch, ch: Change, schema: nat, r: Receipt)
    requires Drawn(s, k) && Follows(k, ch, r)
    ensures Drawn(Publish(s, Ordinary(ch, schema, r)), After(k, ch, r))
  {
    hide TaskBound, Task, PostedByRun;
    var t := Publish(s, Ordinary(ch, schema, r));
    assert t.receipts[|s.receipts|] == r;
    forall key | key in k.used && key.WorkerKey? ensures ReceiptKeyUsed(t.receipts, "p", key) { StillUsed(s.receipts, r, key); }
    forall n | n in t.notes && n.kind == AgreementProposal ensures PostedByRun(t.receipts, ActorIn(""), n.id) {
      if PostsIt(r, n.id) { NowPosted(s.receipts, r, n.id); } else { StillPosted(s.receipts, r, n.id); }
    }
  }

  lemma StillUsed(rs: seq<Receipt>, r: Receipt, key: Key)
    requires ReceiptKeyUsed(rs, "p", key)
    ensures ReceiptKeyUsed(rs + [r], "p", key)
  {
    var i :| 0 <= i < |rs| && rs[i].owner == "p" && rs[i].key == key;
    assert (rs + [r])[i] == rs[i];
  }

  lemma NowPosted(rs: seq<Receipt>, r: Receipt, noteId: Id)
    requires PostsIt(r, noteId)
    ensures PostedByRun(rs + [r], ActorIn(""), noteId)
  {
    assert (rs + [r])[|rs|] == r;
  }

  lemma StillPosted(rs: seq<Receipt>, r: Receipt, noteId: Id)
    requires PostedByRun(rs, ActorIn(""), noteId)
    ensures PostedByRun(rs + [r], ActorIn(""), noteId)
  {
    var i :| 0 <= i < |rs| && rs[i].owner == "p" && rs[i].action == ActPostNote && rs[i].itemId == noteId &&
      rs[i].key.WorkerKey? && rs[i].key.taskId == "task" && rs[i].key.runId == "run";
    assert (rs + [r])[i] == rs[i];
  }

  lemma DrawnKeys(s: Control, k: Sketch)
    requires Drawn(s, k)
    ensures KeysIn(s, k.used)
  {
    hide KeysIn, TaskBound, PostedByRun, ReceiptKeyUsed;
  }

  predicate Unknown(k: Sketch, id: Id) {
    id != "task" && (forall c :: c in k.cases ==> c.id != id) && forall n :: n in k.notes ==> n.id != id
  }

  lemma UnknownIsFresh(s: Control, k: Sketch, id: Id)
    requires Drawn(s, k) && Unknown(k, id)
    ensures FreshId(s, id)
  {
    hide TaskBound, KeysIn, PostedByRun;
    TaskIsFirst();
    assert [Task()][0].id == "task";
  }

  // ---------- the parent's part ----------

  function Enrolling(): Applied { Applied(AddWork(Task()), Subject(WorkSubject, "task"), "task") }

  /** The record has the one task and nothing else. */
  predicate OnlyTask(s: Control) {
    s.works == [Task()] && s.cases == [] && s.notes == [] && s.announcements == [] && s.bindings == [] && KeysIn(s, {PublicKey("enrol")})
  }

  lemma Enrols(s: Control)
    requires s == EmptyControl("repository", "epoch", LIMITS)
    ensures Applies(s, "p", Enrolment(), false, "", Enrolling()) && KeysIn(s, {})
    ensures OnlyTask(Publish(s, CommandPublication(s, "p", Enrolment(), false, Enrolling())))
  {
    hide ChangedWork, PostedNote, AnsweredNote, ClaimedCase, ChangedCase, OwnWork, OwnCase, CommandSchema, ActionOf;
    assert [] + [Task()] == [Task()];
  }

  lemma Binds(s: Control) returns (p: Publication)
    requires OnlyTask(s) && Unkeyed(s, "p", PublicKey("bind"))
    ensures SubmitStep(s, "p", PublicKey("bind"), Submitted()) == Candidate(p) && Drawn(Publish(s, p), Sketch(EnrolledAndBound(), [], []))
  {
    hide Submissions.VisibleOverlaps, ReceiptKeyUsed, RecoveryKeyUsed, EventKeyUsed, Submissions.Announce, Submissions.Dispose, Submissions.Terminate,
         Submissions.WithdrawAnnouncement, Submissions.SubmissionSchema, PostedByRun, KeysIn, Task;
    p := Submissions.Bind(s, "p", PublicKey("bind"), Submitted()).value;
    KeysAfter(s, {PublicKey("enrol")}, p);
    assert {PublicKey("enrol")} + {PublicKey("bind")} == EnrolledAndBound();
  }

  lemma ClaimApplies(s: Control, k: Sketch, key: string, target: string, id: Id)
    requires Drawn(s, k) && Unknown(k, id) && forall c :: c in k.cases ==> c.target != target
    ensures Applies(s, "p", Claim(key, target), false, id, Applied(AddCase(NewCase(id, target)), Subject(CaseSubject, id), id))
  {
    UnknownIsFresh(s, k, id);
    hide FreshId, Register, ChangedWork, PostedNote, AnsweredNote, ChangedCase, OwnWork, OwnCase, TaskBound, KeysIn, Unknown;
    assert Without<ParentId>([], "p") == [];
    assert ["p"] + [] == ["p"];
  }

  /** The parent alone leads the case, which has no effect under way. */
  predicate Open(c: Case) {
    c.lead == "p" && c.members == ["p"] && c.generation == 1 && c.state == Active && c.effect == NotStarted && c.origin.None?
  }

  lemma ChoiceApplies(s: Control, k: Sketch, key: string, i: nat, c: Case)
    requires Drawn(s, k) && CaseIs(k.cases, i, c) && Unknown(k, "unused") && Open(c)
    ensures Applies(s, "p", Choose(key, c.id, c.revision), false, "unused",
                    Applied(SetCase(i, Chosen(c)), Subject(CaseSubject, c.id), c.id))
  {
    UnknownIsFresh(s, k, "unused");
    hide FreshId, Register, ChangedWork, PostedNote, AnsweredNote, OwnWork, TaskBound, KeysIn, Unknown, VisibleWork, ClaimedCase, CanReadCase;
    TaskVisible(s);
    assert ["p"][0] == "p";
    assert InputIds([Selection("task", "oid")]) == ["task"];
  }

  /** A command of the parent about a case goes through under a new key. */
  lemma CommandGoes(t: Trace, k: Sketch, command: Command, newId: Id, ch: Change, id: Id)
    requires Run(t) && Drawn(Now(t), k) && command.key !in k.used && (ch.AddCase? || ch.SetCase?)
    requires Applies(Now(t), "p", command, false, newId, Applied(ch, Subject(CaseSubject, id), id))
    ensures Run(Then(t, CommandOp("p", command, false, newId)))
    ensures Drawn(Now(Then(t, CommandOp("p", command, false, newId))), Sketch(k.used + {command.key}, CasesAfter(k.cases, ch), k.notes))
  {
    hide Run, Now, Accepts, Publishes, Publish, Put, Drawn, Unkeyed, Decodable, Apply, FreshIdentity, CommandSchema, ActionOf, KeysIn;
    var s, a := Now(t), Applied(ch, Subject(CaseSubject, id), id);
    DrawnKeys(s, k);
    NotInUse(s, k.used, "p", command.key);
    CommandPublishes(s, "p", command, false, newId, a);
    var p := CommandPublication(s, "p", command, false, a);
    OneMore(t, CommandOp("p", command, false, newId), p);
    Redrawn(s, k, ch, p.schema, p.receipt);
  }

  // ---------- the worker's part ----------

  lemma SceneOf(s: Control, k: Sketch, i: nat, id: Id, target: string)
    requires Drawn(s, k) && CaseIs(k.cases, i, SelectedCase(id, target))
    ensures Scene(s, i, id, target)
  {
    hide TaskBound, KeysIn, Task, SelectedCase, CaseIs;
  }

  /** The note is the task's own proposal, and no proposal answers another. */
  predicate Proposal(ns: seq<Note>, id: Id, j: nat, noteId: Id, agreed: bool) {
    NoteIs(ns, j, ProposalNote(id, noteId, agreed)) && NoAnswers(ns)
  }

  lemma RetainedIn(s: Control, k: Sketch, id: Id, j: nat, noteId: Id, agreed: bool)
    requires Drawn(s, k) && Proposal(k.notes, id, j, noteId, agreed)
    ensures WorkerScene.Retained(s, id, j, noteId, agreed)
  {
    hide TaskBound, KeysIn, Task, NoAnswers, NoteIndex;
    assert ProposalNote(id, noteId, agreed) in s.notes;
  }

  /** The task may propose in a case that has no note. */
  lemma ProposesIn(s: Control, k: Sketch, i: nat, id: Id, target: string, text: string, noteId: Id)
    requires Drawn(s, k) && CaseIs(k.cases, i, SelectedCase(id, target)) && NoNotesIn(k.notes, id) && Unknown(k, noteId)
    ensures Performs(s, ActorIn(id), text, WorkerPropose(ProposalIn(id)), BYTES, noteId, Proposed(s, id, MainKey(ActorIn(id), text), noteId))
  {
    hide Unknown, WorkerBody, WorkerCase, FreshId, NoNotesIn, CaseIs, TaskBound, KeysIn, Scene, Task, SelectedCase, EvidenceOf, PostedByRun, Proposed;
    SceneOf(s, k, i, id, target);
    UnknownIsFresh(s, k, noteId);
    Stands(s, i, id, target);
    Proposes(s, i, id, target, MainKey(ActorIn(id), text), noteId);
  }

  /** The task may acknowledge its own proposal. */
  lemma AcknowledgesIn(s: Control, k: Sketch, i: nat, id: Id, target: string, text: string, j: nat, noteId: Id)
    requires Drawn(s, k) && CaseIs(k.cases, i, SelectedCase(id, target)) && Proposal(k.notes, id, j, noteId, false) && Unknown(k, "unused")
    ensures Performs(s, ActorIn(id), text, WorkerAcknowledge(noteId), BYTES, "unused", Consented(s, id, MainKey(ActorIn(id), text), j, noteId))
  {
    hide Unknown, WorkerBody, WorkerCase, FreshId, CaseIs, TaskBound, KeysIn, Scene, Task, SelectedCase, EvidenceOf, PostedByRun, Consented, Drawn,
         Proposal, WorkerScene.Retained;
    SceneOf(s, k, i, id, target);
    RetainedIn(s, k, id, j, noteId, false);
    UnknownIsFresh(s, k, "unused");
    Stands(s, i, id, target);
    WorkerScene.Acknowledges(s, i, id, target, j, noteId, MainKey(ActorIn(id), text), "unused");
  }

  /** The sketch after a proposal of the task. */
  lemma ProposalFollows(s: Control, k: Sketch, id: Id, text: string, noteId: Id)
    ensures var p := Proposed(s, id, MainKey(ActorIn(id), text), noteId);
      p.Ordinary? && Follows(k, p.change, p.receipt) &&
      After(k, p.change, p.receipt) == Sketch(k.used + {MainKey(ActorIn(id), text)}, k.cases, k.notes + [ProposalNote(id, noteId, false)])
  {
  }

  /** And after its consent. */
  lemma ConsentFollows(s: Control, k: Sketch, id: Id, text: string, j: nat, noteId: Id)
    requires Proposal(k.notes, id, j, noteId, false)
    ensures var p := Consented(s, id, MainKey(ActorIn(id), text), j, noteId);
      p.Ordinary? && Follows(k, p.change, p.receipt) &&
      After(k, p.change, p.receipt) == Sketch(k.used + {MainKey(ActorIn(id), text)}, k.cases, Replace(k.notes, j, ProposalNote(id, noteId, true)))
  {
  }

  /** A note operation of the task goes through under a new key. */
  lemma WorkerGoes(t: Trace, k: Sketch, id: Id, text: string, operation: WorkerOperation, newId: Id, p: Publication)
    requires Run(t) && Drawn(Now(t), k) && MainKey(ActorIn(id), text) !in k.used && p.Ordinary? && Follows(k, p.change, p.receipt)
    requires Performs(Now(t), ActorIn(id), text, operation, BYTES, newId, p)
    ensures Run(Then(t, WorkerOp(ActorIn(id), text, operation, BYTES, newId)))
    ensures Drawn(Now(Then(t, WorkerOp(ActorIn(id), text, operation, BYTES, newId))), After(k, p.change, p.receipt))
  {
    hide Run, Now, Accepts, Publishes, Publish, Put, Drawn, Follows, Performs, KeysIn, After, ReceiptKeyUsed, RecoveryKeyUsed, EventKeyUsed;
    DrawnKeys(Now(t), k);
    NotInUse(Now(t), k.used, "p", MainKey(ActorIn(id), text));
    WorkerPublishes(Now(t), ActorIn(id), text, operation, BYTES, newId, p);
    OneMore(t, WorkerOp(ActorIn(id), text, operation, BYTES, newId), p);
    Redrawn(Now(t), k, p.change, p.schema, p.receipt);
  }

  lemma NoneIn(s: Control, k: Sketch, id: Id)
    requires Drawn(s, k) && !NoteInCase(k.notes, "m1", id)
    ensures NoneAdmitted(s, id)
  {
    hide TaskBound, KeysIn, Task, NoteInCase, PostedByRun;
  }

  /** The task's application of its agreed proposal is admitted, whatever the keys in use. */
  lemma Admitted(s: Control, k: Sketch, i: nat, id: Id, target: string, j: nat, noteId: Id, newId: Id)
    requires Drawn(s, k) && CaseIs(k.cases, i, SelectedCase(id, target)) && Proposal(k.notes, id, j, noteId, true) && !NoteInCase(k.notes, "m1", id)
    requires Unknown(k, newId)
    ensures AdmitApplication(s, ActorIn(id), "apply", noteId, "application", BYTES, newId) == Admits(Pending(s, id, "apply", noteId, newId))
    ensures FreshId(s, newId)
  {
    hide Drawn, CaseIs, Proposal, NoteInCase, Unknown, Scene, WorkerScene.Retained, NoneAdmitted, AdmitApplication, Pending, FreshId;
    SceneOf(s, k, i, id, target);
    RetainedIn(s, k, id, j, noteId, true);
    NoneIn(s, k, id);
    UnknownIsFresh(s, k, newId);
    AdmitsPending(s, i, id, target, j, noteId, "apply", newId);
  }

  /** Its first admission goes through; the note is the sketch's one application. */
  lemma AdmitGoes(t: Trace, k: Sketch, id: Id, noteId: Id)
    requires Run(t) && Drawn(Now(t), k) && PendingKey(ActorIn(id), "apply") !in k.used && FreshId(Now(t), "m1")
    requires AdmitApplication(Now(t), ActorIn(id), "apply", noteId, "application", BYTES, "m1") == Admits(Pending(Now(t), id, "apply", noteId, "m1"))
    ensures Run(Then(t, AdmitOp(ActorIn(id), "apply", noteId, "application", BYTES, "m1")))
    ensures Drawn(Now(Then(t, AdmitOp(ActorIn(id), "apply", noteId, "application", BYTES, "m1"))),
                  Sketch(k.used + {PendingKey(ActorIn(id), "apply")}, k.cases, k.notes + [ApplicationNote(id, "m1")]))
  {
    hide Run, Now, Drawn, KeysIn, FreshId, AdmitApplication, EvidenceOf, Attempt, Publish, ReceiptKeyUsed, RecoveryKeyUsed, EventKeyUsed, Accepts;
    var s, p := Now(t), Pending(Now(t), id, "apply", noteId, "m1");
    DrawnKeys(s, k);
    NotInUse(s, k.used, "p", PendingKey(ActorIn(id), "apply"));
    AdmitAccepted(s, ActorIn(id), "apply", noteId, "application", BYTES, "m1", p);
    OneMore(t, AdmitOp(ActorIn(id), "apply", noteId, "application", BYTES, "m1"), p);
    Redrawn(s, k, p.change, p.schema, p.receipt);
  }

  // ---------- the run ----------

  function EnrolledAndBound(): set<Key> { {PublicKey("enrol"), PublicKey("bind")} }
  function ParentKeys(): set<Key> { EnrolledAndBound() + {PublicKey("c1")} + {PublicKey("c2")} + {PublicKey("s1")} + {PublicKey("s2")} }
  function Both(): seq<Case> { [SelectedCase("first", MAIN), SelectedCase("second", RELEASE)] }
  function ProposedKeys(): set<Key> { ParentKeys() + {MainKey(ActorIn("first"), "propose1")} }
  function AgreedKeys(): set<Key> { ProposedKeys() + {MainKey(ActorIn("first"), "ack1")} }
  function AppliedKeys(): set<Key> { AgreedKeys() + {PendingKey(ActorIn("first"), "apply")} }
  function AgainKeys(): set<Key> { AppliedKeys() + {MainKey(ActorIn("second"), "propose2")} + {MainKey(ActorIn("second"), "ack2")} }
  function FirstNotes(): seq<Note> { [ProposalNote("first", "n1", true), ApplicationNote("first", "m1")] }

  lemma ParentsNewKeys()
    ensures PublicKey("c1") !in EnrolledAndBound() && PublicKey("c2") !in EnrolledAndBound() + {PublicKey("c1")}
    ensures PublicKey("s1") !in Claimed().used && PublicKey("s2") !in Claimed().used + {PublicKey("s1")}
    ensures Claimed().used + {PublicKey("s1")} + {PublicKey("s2")} == ParentKeys() && MainKey(ActorIn("first"), "propose1") !in ParentKeys()
    ensures PublicKey("s3") !in ProposedKeys()
  {
  }

  lemma NewKeys()
    ensures MainKey(ActorIn("first"), "ack1") !in ProposedKeys() && PendingKey(ActorIn("first"), "apply") !in AgreedKeys()
    ensures MainKey(ActorIn("second"), "propose2") !in AppliedKeys()
    ensures MainKey(ActorIn("second"), "ack2") !in AppliedKeys() + {MainKey(ActorIn("second"), "propose2")}
  {
  }

  lemma TwoTargets()
    ensures MAIN != RELEASE
  {
    assert |MAIN| != |RELEASE|;
  }

  lemma CasesAt()
    ensures CaseIs([NewCase("first", MAIN), NewCase("second", RELEASE)], 0, NewCase("first", MAIN))
    ensures CaseIs([SelectedCase("first", MAIN), NewCase("second", RELEASE)], 1, NewCase("second", RELEASE))
    ensures CaseIs(Both(), 0, SelectedCase("first", MAIN)) && CaseIs(Both(), 1, SelectedCase("second", RELEASE))
  {
    var a, b, c := [NewCase("first", MAIN), NewCase("second", RELEASE)], [SelectedCase("first", MAIN), NewCase("second", RELEASE)], Both();
    assert a[0].id == "first" && b[0].id == "first" && b[1].id == "second" && c[0].id == "first" && c[1].id == "second";
  }

  lemma ChosenIs(id: Id, target: string)
    ensures Chosen(NewCase(id, target)) == SelectedCase(id, target) && Open(NewCase(id, target))
  {
  }

  function Claimed(): Sketch {
    Sketch(EnrolledAndBound() + {PublicKey("c1")} + {PublicKey("c2")}, [NewCase("first", MAIN), NewCase("second", RELEASE)], [])
  }

  lemma NewCaseIs(id: Id, target: string)
    ensures NewCase(id, target).id == id && NewCase(id, target).target == target && NewCase(id, target).revision == 1
  {
  }

  lemma SelectedCaseIs(id: Id, target: string)
    ensures SelectedCase(id, target).id == id && SelectedCase(id, target).revision == 2
  {
  }

  function MoreNotes(agreed: bool): seq<Note> { FirstNotes() + [ProposalNote("second", "n2", agreed)] }

  lemma ProposalsAt(agreed: bool)
    ensures Proposal([ProposalNote("first", "n1", agreed)], "first", 0, "n1", agreed) && Proposal(MoreNotes(agreed), "second", 2, "n2", agreed)
  {
    var ns, more := [ProposalNote("first", "n1", agreed)], MoreNotes(agreed);
    assert ns[0].id == "n1" && more[0].id == "n1" && more[1].id == "m1" && more[2].id == "n2";
  }

  lemma AppliedElsewhere(agreed: bool)
    ensures !NoteInCase([ProposalNote("first", "n1", agreed)], "m1", "first") && !NoteInCase(MoreNotes(agreed), "m1", "second")
  {
    var ns, more := [ProposalNote("first", "n1", agreed)], MoreNotes(agreed);
    assert ns[0].id == "n1" && more[0].id == "n1" && more[1].id == "m1" && NoteIndex(more, "m1") == 1;
  }

  lemma UnknownBefore()
    ensures Unknown(Sketch(EnrolledAndBound(), [], []), "first")
    ensures Unknown(Sketch(EnrolledAndBound() + {PublicKey("c1")}, [NewCase("first", MAIN)], []), "second") && Unknown(Claimed(), "unused")
    ensures Unknown(Sketch(Claimed().used + {PublicKey("s1")}, [SelectedCase("first", MAIN), NewCase("second", RELEASE)], []), "unused")
  {
  }

  lemma UnknownThere(used: set<Key>, agreed: bool)
    ensures Unknown(Sketch(used, Both(), []), "n1") && Unknown(Sketch(used, Both(), [ProposalNote("first", "n1", agreed)]), "unused")
    ensures Unknown(Sketch(used, Both(), [ProposalNote("first", "n1", agreed)]), "m1")
    ensures Unknown(Sketch(used, Both(), FirstNotes()), "n2") && Unknown(Sketch(used, Both(), MoreNotes(agreed)), "unused")
    ensures Unknown(Sketch(used, Both(), MoreNotes(agreed)), "m2")
  {
  }

  lemma SecondIsEmpty()
    ensures NoNotesIn(FirstNotes(), "second") && NoNotesIn([], "first")
  {
  }

  lemma SecondAnswered()
    ensures Replace(MoreNotes(false), 2, ProposalNote("second", "n2", true)) == MoreNotes(true)
  {
    hide ProposalNote, ApplicationNote;
  }

  lemma AppliedKeyUsed(s: Control)
    requires Drawn(s, Sketch(AgainKeys(), Both(), MoreNotes(true)))
    ensures ReceiptKeyUsed(s.receipts, "p", PendingKey(ActorIn("second"), "apply"))
  {
    hide ReceiptKeyUsed, KeysIn, TaskBound, PostedByRun;
  }

  /** The task is enrolled and bound. */
  lemma Begins() returns (t: Trace)
    ensures Run(t) && Drawn(Now(t), Sketch(EnrolledAndBound(), [], []))
  {
    hide Run, Now, Publishes, SubmitStep, Drawn, KeysIn, Unkeyed, Applies, Publish, Submitted, Enrolling, Accepts;
    t := Starts();
    Enrols(Now(t));
    NotInUse(Now(t), {}, "p", PublicKey("enrol"));
    CommandPublishes(Now(t), "p", Enrolment(), false, "", Enrolling());
    OneMore(t, CommandOp("p", Enrolment(), false, ""), CommandPublication(Now(t), "p", Enrolment(), false, Enrolling()));
    t := Then(t, CommandOp("p", Enrolment(), false, ""));
    NotInUse(Now(t), {PublicKey("enrol")}, "p", PublicKey("bind"));
    var p := Binds(Now(t));
    SubmitPublishes(Now(t), "p", PublicKey("bind"), Submitted(), p);
    OneMore(t, SubmitOp("p", PublicKey("bind"), Submitted()), p);
    t := Then(t, SubmitOp("p", PublicKey("bind"), Submitted()));
  }

  /** The parent claims two targets and chooses the task in both, and the task proposes in the first case. */
  lemma FirstProposed() returns (t: Trace)
    ensures Run(t) && Drawn(Now(t), Sketch(ProposedKeys(), Both(), [ProposalNote("first", "n1", false)]))
  {
    hide Run, Now, Drawn, NewCase, Open, Chosen, SelectedCase, CaseIs, Unknown, ProposalNote, ActionOf, Applies, Performs,
         Proposed, Follows, After, EnrolledAndBound, ParentKeys, ActorIn, ProposalIn;
    t := Begins();
    TwoTargets();
    ParentsNewKeys();
    NewCaseIs("first", MAIN);
    NewCaseIs("second", RELEASE);
    UnknownBefore();
    var k := Sketch(EnrolledAndBound(), [], []);
    ClaimApplies(Now(t), k, "c1", MAIN, "first");
    CommandGoes(t, k, Claim("c1", MAIN), "first", AddCase(NewCase("first", MAIN)), "first");
    t := Then(t, CommandOp("p", Claim("c1", MAIN), false, "first"));
    assert [] + [NewCase("first", MAIN)] == [NewCase("first", MAIN)];
    k := Sketch(EnrolledAndBound() + {PublicKey("c1")}, [NewCase("first", MAIN)], []);
    ClaimApplies(Now(t), k, "c2", RELEASE, "second");
    CommandGoes(t, k, Claim("c2", RELEASE), "second", AddCase(NewCase("second", RELEASE)), "second");
    t := Then(t, CommandOp("p", Claim("c2", RELEASE), false, "second"));
    assert [NewCase("first", MAIN)] + [NewCase("second", RELEASE)] == Claimed().cases;

    CasesAt();
    ChosenIs("first", MAIN);
    ChosenIs("second", RELEASE);
    SelectedCaseIs("first", MAIN);
    ChoiceApplies(Now(t), Claimed(), "s1", 0, NewCase("first", MAIN));
    CommandGoes(t, Claimed(), Choose("s1", "first", 1), "unused", SetCase(0, SelectedCase("first", MAIN)), "first");
    t := Then(t, CommandOp("p", Choose("s1", "first", 1), false, "unused"));
    var one := [SelectedCase("first", MAIN), NewCase("second", RELEASE)];
    assert Replace(Claimed().cases, 0, SelectedCase("first", MAIN)) == one;
    k := Sketch(Claimed().used + {PublicKey("s1")}, one, []);
    ChoiceApplies(Now(t), k, "s2", 1, NewCase("second", RELEASE));
    CommandGoes(t, k, Choose("s2", "second", 1), "unused", SetCase(1, SelectedCase("second", RELEASE)), "second");
    t := Then(t, CommandOp("p", Choose("s2", "second", 1), false, "unused"));
    assert Replace(one, 1, SelectedCase("second", RELEASE)) == Both();

    UnknownThere(ParentKeys(), false);
    k := Sketch(ParentKeys(), Both(), []);
    ProposalFollows(Now(t), k, "first", "propose1", "n1");
    ProposesIn(Now(t), k, 0, "first", MAIN, "propose1", "n1");
    WorkerGoes(t, k, "first", "propose1", WorkerPropose(ProposalIn("first")), "n1", Proposed(Now(t), "first", MainKey(ActorIn("first"), "propose1"), "n1"));
    t := Then(t, WorkerOp(ActorIn("first"), "propose1", WorkerPropose(ProposalIn("first")), BYTES, "n1"));
    assert [] + [ProposalNote("first", "n1", false)] == [ProposalNote("first", "n1", false)];
  }

  /** The task acknowledges its proposal and applies it, and then proposes and agrees in the second case. */
  lemma BothAgreed() returns (t: Trace)
    ensures Run(t) && Drawn(Now(t), Sketch(AgainKeys(), Both(), MoreNotes(true)))
  {
    hide Run, Now, Drawn, CaseIs, Unknown, ProposalNote, ApplicationNote, Both, Proposal, NoteInCase, NoNotesIn, Performs, Publishes,
         AdmitApplication, KeysIn, FreshIdentity, FirstNotes, Publish, EvidenceOf, Proposed, Consented, Follows, Pending, After, ProposedKeys,
         ProposalIn;
    t := FirstProposed();
    CasesAt();
    NewKeys();
    UnknownThere(ProposedKeys(), false);
    ProposalsAt(false);
    var k := Sketch(ProposedKeys(), Both(), [ProposalNote("first", "n1", false)]);
    ConsentFollows(Now(t), k, "first", "ack1", 0, "n1");
    AcknowledgesIn(Now(t), k, 0, "first", MAIN, "ack1", 0, "n1");
    WorkerGoes(t, k, "first", "ack1", WorkerAcknowledge("n1"), "unused", Consented(Now(t), "first", MainKey(ActorIn("first"), "ack1"), 0, "n1"));
    t := Then(t, WorkerOp(ActorIn("first"), "ack1", WorkerAcknowledge("n1"), BYTES, "unused"));
    assert Replace([ProposalNote("first", "n1", false)], 0, ProposalNote("first", "n1", true)) == [ProposalNote("first", "n1", true)];

    UnknownThere(AgreedKeys(), true);
    ProposalsAt(true);
    AppliedElsewhere(true);
    k := Sketch(AgreedKeys(), Both(), [ProposalNote("first", "n1", true)]);
    Admitted(Now(t), k, 0, "first", MAIN, 0, "n1", "m1");
    AdmitGoes(t, k, "first", "n1");
    t := Then(t, AdmitOp(ActorIn("first"), "apply", "n1", "application", BYTES, "m1"));
    FirstNotesAre();

    UnknownThere(AppliedKeys(), false);
    SecondIsEmpty();
    k := Sketch(AppliedKeys(), Both(), FirstNotes());
    ProposalFollows(Now(t), k, "second", "propose2", "n2");
    ProposesIn(Now(t), k, 1, "second", RELEASE, "propose2", "n2");
    WorkerGoes(t, k, "second", "propose2", WorkerPropose(ProposalIn("second")), "n2", Proposed(Now(t), "second", MainKey(ActorIn("second"), "propose2"), "n2"));
    t := Then(t, WorkerOp(ActorIn("second"), "propose2", WorkerPropose(ProposalIn("second")), BYTES, "n2"));
    k := Sketch(AppliedKeys() + {MainKey(ActorIn("second"), "propose2")}, Both(), MoreNotes(false));
    UnknownThere(k.used, false);
    ConsentFollows(Now(t), k, "second", "ack2", 2, "n2");
    AcknowledgesIn(Now(t), k, 1, "second", RELEASE, "ack2", 2, "n2");
    WorkerGoes(t, k, "second", "ack2", WorkerAcknowledge("n2"), "unused", Consented(Now(t), "second", MainKey(ActorIn("second"), "ack2"), 2, "n2"));
    t := Then(t, WorkerOp(ActorIn("second"), "ack2", WorkerAcknowledge("n2"), BYTES, "unused"));
    SecondAnswered();
  }

  lemma FirstNotesAre()
    ensures [ProposalNote("first", "n1", true)] + [ApplicationNote("first", "m1")] == FirstNotes()
  {
    hide ProposalNote, ApplicationNote;
  }

  /** After this run the second application is admitted, and its owner's key is then acknowledged twice. */
  lemma PendingKeyRepeats() returns (t: Trace, op: Op)
    ensures Collides(t, op) && op.AdmitOp?
  {
    hide Run, Now, Drawn, CaseIs, Unknown, Both, Proposal, ReceiptKeyUsed, NoteInCase, FreshId, AdmitApplication, Pending, KeysOnce, Publish, Inv,
         NoWorkerKeys, Attempt;
    t := BothAgreed();
    op := AdmitOp(ActorIn("second"), "apply", "n2", "application", BYTES, "m2");
    CasesAt();
    UnknownThere(AgainKeys(), true);
    ProposalsAt(true);
    AppliedElsewhere(true);
    Admitted(Now(t), Sketch(AgainKeys(), Both(), MoreNotes(true)), 1, "second", RELEASE, 2, "n2", "m2");
    var p := Pending(Now(t), "second", "apply", "n2", "m2");
    AdmitAccepted(Now(t), ActorIn("second"), "apply", "n2", "application", BYTES, "m2", p);
    AppliedKeyUsed(Now(t));
    Reachable(t);
    Replay.InvKeys(Now(t));
    Replay.AdmissionKeysExact(Now(t), ActorIn("second"), "apply", "n2", "application", BYTES, "m2", p);
  }
}
