/** A run of eight operations after which a worker's agreement holds its slot for good: its case is still active and
    its task still bound, but the lead has chosen the inputs again. */
module StrandedRun {
  import opened ControlTypes
  import opened Records
  import opened Publications
  import opened Ledger
  import opened PeerRecords
  import opened Steps
  import opened Runs
  import opened ConcreteRuns
  import opened WorkerScene
  import opened AdmissionRun
  import opened Stranding

  /** The agreement of the case is stranded although the case is active and the task that posted it is bound. */
  predicate StrandedWhileActive(s: Control, noteId: Id, caseId: Id, taskId: Id) {
    StrandedIn(s, noteId) && HasCase(s.cases, caseId) && s.cases[CaseIndex(s.cases, caseId)].state == Active &&
    HasBinding(s.bindings, taskId) && !TaskEnded(s.bindings, taskId)
  }

  function Reselected(): seq<Case> { [Chosen(SelectedCase("first", MAIN)), SelectedCase("second", RELEASE)] }

  lemma SelectedIsOpen()
    ensures Open(SelectedCase("first", MAIN)) && Replace(Both(), 0, Chosen(SelectedCase("first", MAIN))) == Reselected()
  {
  }

  lemma FirstCaseAt()
    ensures |Reselected()| == 2 && CaseIndex(Reselected(), "first") == 0 && Reselected()[0].state == Active && Reselected()[0].revision == 3
  {
    assert Reselected()[0].id == "first";
  }

  /** The chosen case has moved beyond the version the proposal's evidence names. */
  lemma EvidenceIsPassed(s: Control, used: set<Key>)
    requires Drawn(s, Sketch(used, Reselected(), [ProposalNote("first", "n1", false)]))
    ensures EvidencePassed(s, PeerText(ProposalIn("first")))
  {
    hide TaskBound, KeysIn, PostedByRun, Reselected;
    FirstCaseAt();
    assert CasePassed(s, EvidenceOf("first"));
  }

  lemma PostedByTask(s: Control, used: set<Key>)
    requires Drawn(s, Sketch(used, Reselected(), [ProposalNote("first", "n1", false)]))
    ensures WorkerPosted(s.receipts, "n1") && ProposalNote("first", "n1", false) in s.notes
  {
    hide TaskBound, KeysIn, Reselected;
    assert s.notes[0] == ProposalNote("first", "n1", false);
    assert PostedByRun(s.receipts, ActorIn(""), "n1");
    var i :| 0 <= i < |s.receipts| && s.receipts[i].action == ActPostNote && s.receipts[i].itemId == "n1" && s.receipts[i].key.WorkerKey?;
    assert IsWorkerPost(s.receipts[i], "n1");
  }

  lemma StaysBound(bs: seq<Binding>)
    requires TaskBound(bs)
    ensures HasBinding(bs, "task") && !TaskEnded(bs, "task")
  {
    assert BindingIndex(bs, "task") == 0;
  }

  lemma PassedNow(s: Control, used: set<Key>)
    requires Drawn(s, Sketch(used, Reselected(), [ProposalNote("first", "n1", false)]))
    ensures StrandedWhileActive(s, "n1", "first", "task")
  {
    hide TaskBound, KeysIn, PostedByRun, Reselected, WorkerPosted, EvidencePassed, TaskEnded, PosterEnded;
    FirstCaseAt();
    EvidenceIsPassed(s, used);
    PostedByTask(s, used);
    StaysBound(s.bindings);
    assert StrandedNote(s, ProposalNote("first", "n1", false));
  }

  /** After the task's proposal the parent chooses the task in the first case again. */
  lemma AgreementStrands() returns (t: Trace)
    ensures Run(t) && StrandedWhileActive(Now(t), "n1", "first", "task")
  {
    hide Run, Now, Drawn, CaseIs, Unknown, ProposalNote, Both, Open, Chosen, StrandedWhileActive, Reselected, SelectedCase, Applies,
         ActionOf, ProposedKeys;
    t := FirstProposed();
    CasesAt();
    UnknownThere(ProposedKeys(), false);
    SelectedIsOpen();
    ParentsNewKeys();
    SelectedCaseIs("first", MAIN);
    var k := Sketch(ProposedKeys(), Both(), [ProposalNote("first", "n1", false)]);
    ChoiceApplies(Now(t), k, "s3", 0, SelectedCase("first", MAIN));
    CommandGoes(t, k, Choose("s3", "first", 2), "unused", SetCase(0, Chosen(SelectedCase("first", MAIN))), "first");
    t := Then(t, CommandOp("p", Choose("s3", "first", 2), false, "unused"));
    PassedNow(Now(t), ProposedKeys() + {PublicKey("s3")});
  }
}
