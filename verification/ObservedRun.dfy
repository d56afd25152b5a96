/** A run of six operations that ends in an observed case with its deliveries outstanding, and what can go wrong from
    there: an observation under a used key, a reselection and a work adoption. */
module ObservedRun {
  import opened ControlTypes
  import opened Records
  import opened Publications
  import opened Invariant
  import opened Preservation
  import opened Ledger
  import opened Steps
  import opened Runs
  import opened ConcreteRuns
  import opened ObservedCases
  import Replay
  import Submissions

  // ---------- the records ----------

  const TARGET: string := "refs/heads/main"

  function Managing(task: Id): Managed { Managed(task, 1, false, true) }

  function Enrolment(key: string, task: Id): Command {
    RegisterTaskWork(PublicKey(key), task, "oid", Sha1, "intent", [], Managing(task))
  }

  function TaskWork(task: Id, owner: ParentId): Work {
    Work(task, owner, task, 1, Active, "oid", Sha1, "intent", [], [], Some(Managing(task)), None, None)
  }

  function Works(): seq<Work> { [TaskWork("t1", "a"), TaskWork("t2", "b")] }

  function Claim(): Command { ClaimTarget(PublicKey("claim"), TARGET, []) }
  function First(): seq<Selection> { [Selection("t1", "oid")] }
  function Selecting(): Command { SelectInputs(PublicKey("select"), "case", 1, 1, "oid", First()) }
  function Extending(): Extension { Extension("case", 2, 1, "t2", "oid") }
  function Announcing(): SubmissionInput { AnnounceInput("ann", "payload", "view", "assignment", [], []) }

  function Claimed(): Case {
    Case("case", TARGET, "a", ["a"], 1, 1, Active, NotStarted, None, [], Some(PendingOrigin), None, None, None)
  }

  function Chosen(): Case {
    Claimed().(inputs := First(), targetOid := Some("oid"), revision := 2, origin := Some(SelectedOrigin))
  }

  function Extended(): Case {
    Chosen().(members := ["a", "b"], inputs := [Selection("t1", "oid"), Selection("t2", "oid")], revision := 3,
              pending := Some(["t1", "t2"]), observed := Some([]),
              visibility := Some([Delta("t1", 1, 1, [], ["b"]), Delta("t2", 1, 1, [], ["a"])]))
  }

  /** The record has these works and cases, no note, and these keys in use; an announcement of the lead used one of them. */
  predicate Stage(s: Control, used: set<Key>, works: seq<Work>, cases: seq<Case>) {
    s.works == works && s.cases == cases && s.notes == [] && KeysIn(s, used) && EventKeyUsed(s.events, "a", PublicKey("k"))
  }

  // ---------- the six steps ----------

  /** The record after a call that changes no note. */
  lemma Restaged(s: Control, used: set<Key>, works: seq<Work>, cases: seq<Case>, ch: Change, schema: nat, r: Receipt)
    requires Stage(s, used, works, cases) && !ch.AddNote? && !ch.SetNote?
    ensures Stage(Publish(s, Ordinary(ch, schema, r)), used + {r.key}, WorksAfter(works, ch), CasesAfter(cases, ch))
  {
    hide KeysIn, EventKeyUsed;
    KeysAfter(s, used, Ordinary(ch, schema, r));
  }

  lemma CommandGoes(t: Trace, used: set<Key>, works: seq<Work>, cases: seq<Case>, owner: ParentId, command: Command, elected: bool, newId: Id, a: Applied)
    requires Run(t) && Stage(Now(t), used, works, cases) && command.key !in used && Applies(Now(t), owner, command, elected, newId, a)
    requires !a.change.AddNote? && !a.change.SetNote?
    ensures Run(Then(t, CommandOp(owner, command, elected, newId)))
    ensures Stage(Now(Then(t, CommandOp(owner, command, elected, newId))), used + {command.key}, WorksAfter(works, a.change), CasesAfter(cases, a.change))
  {
    hide Run, Now, Accepts, Publish, Publishes, KeysIn, Applies, Unkeyed, CommandSchema, ActionOf, EventKeyUsed;
    var s, p := Now(t), CommandPublication(Now(t), owner, command, elected, a);
    NotInUse(s, used, owner, command.key);
    CommandPublishes(s, owner, command, elected, newId, a);
    OneMore(t, CommandOp(owner, command, elected, newId), p);
    Restaged(s, used, works, cases, a.change, p.schema, p.receipt);
  }

  function Enrolled(task: Id, owner: ParentId): Applied { Applied(AddWork(TaskWork(task, owner)), Subject(WorkSubject, task), task) }
  function Claiming(): Applied { Applied(AddCase(Claimed()), Subject(CaseSubject, "case"), "case") }

  lemma EnrolApplies(s: Control, key: string, task: Id, owner: ParentId)
    requires s.cases == [] && s.notes == [] && forall w :: w in s.works ==> w.id != task && w.workspaceId != task
    ensures Applies(s, owner, Enrolment(key, task), false, "", Enrolled(task, owner))
  {
    hide ChangedWork, PostedNote, AnsweredNote, ClaimedCase, ChangedCase, OwnWork, OwnCase;
  }

  lemma ClaimApplies(s: Control)
    requires s.works == Works() && s.cases == [] && s.notes == []
    ensures Applies(s, "a", Claim(), true, "case", Claiming())
  {
    hide Register, ChangedWork, PostedNote, AnsweredNote, ChangedCase, OwnWork, OwnCase;
    assert s.works[0].id == "t1" && s.works[1].id == "t2";
    assert Without<ParentId>([], "a") == [] && ["a"] + [] == ["a"];
  }

  lemma WorksAt()
    ensures WorkIndex(Works(), "t1") == 0 && WorkIndex(Works(), "t2") == 1
  {
    assert Works()[0].id == "t1" && Works()[1].id == "t2";
  }

  lemma CaseAt(c: Case)
    requires c.id == "case"
    ensures CaseIndex([c], "case") == 0
  {
    assert [c][0].id == "case";
  }

  lemma UnusedIsFresh(s: Control, c: Case)
    requires s.works == Works() && s.cases == [c] && s.notes == [] && c.id == "case"
    ensures FreshId(s, "unused")
  {
    assert s.works[0].id == "t1" && s.works[1].id == "t2" && s.cases[0].id == "case";
  }

  lemma OwnerReads(s: Control)
    requires s.works == Works()
    ensures VisibleWork(s, "a", "t1")
  {
    WorksAt();
    assert CanReadWork("a", s.works[0]);
  }

  function Choice(): Applied { Applied(SetCase(0, Chosen()), Subject(CaseSubject, "case"), "case") }

  lemma SelectionApplies(s: Control)
    requires s.works == Works() && s.cases == [Claimed()] && s.notes == []
    ensures Applies(s, "a", Selecting(), true, "unused", Choice())
  {
    hide Register, ChangedWork, PostedNote, AnsweredNote, ClaimedCase, OwnWork, VisibleWork, FreshId, CanReadCase;
    CaseAt(Claimed());
    UnusedIsFresh(s, Claimed());
    OwnerReads(s);
    assert Claimed().members[0] == "a" && InputIds(First()) == ["t1"];
  }

  lemma Strangers()
    ensures NonReaders(["a", "b"], TaskWork("t1", "a")) == ["b"] && NonReaders(["a", "b"], TaskWork("t2", "b")) == ["a"]
  {
    assert ["a", "b"][1..] == ["b"] && ["b"][1..] == [];
    assert NonReaders(["b"], TaskWork("t1", "a")) == ["b"] && NonReaders(["b"], TaskWork("t2", "b")) == [];
  }

  /** The extension of the chosen case by the second work. */
  predicate ExtendsTo(ws: seq<Work>, item: Case, added: Work, c: Case) {
    HasWork(ws, added.id) && ws[WorkIndex(ws, added.id)].managed.Some? &&
    (forall k :: 0 <= k < |item.inputs| ==> HasWork(ws, item.inputs[k].workId) && ws[WorkIndex(ws, item.inputs[k].workId)].managed.Some?) &&
    ExtendedCase(ws, item, added) == c
  }

  lemma ExtendedIs()
    ensures ExtendsTo(Works(), Chosen(), TaskWork("t2", "b"), Extended())
  {
    WorksAt();
    var c := ExtendedCase(Works(), Chosen(), TaskWork("t2", "b"));
    assert c.members == ["a", "b"];
    assert c.inputs == [Selection("t1", "oid"), Selection("t2", "oid")];
    assert InputIds(c.inputs) == ["t1", "t2"];
    Strangers();
    assert c.visibility.value == [Delta("t1", 1, 1, [], ["b"]), Delta("t2", 1, 1, [], ["a"])];
  }

  function ExtensionPublication(s: Control): Publication {
    Acknowledge(s, SetCase(0, Extended()), s.schema, "a", PublicKey("extend"), ExtensionRequest("a", PublicKey("extend"), Extending()),
                ActExtendCase, Subject(CaseSubject, "case"), "case")
  }

  lemma ExtensionApplies(s: Control)
    requires s.works == Works() && s.cases == [Chosen()] && s.notes == []
    ensures ExtendBody(s, "a", PublicKey("extend"), Extending()) == Ok(ExtensionPublication(s))
  {
    hide VisibleWork, ExtendedCase, Extended;
    WorksAt();
    CaseAt(Chosen());
    OwnerReads(s);
    ExtendedIs();
    assert Chosen().members[0] == "a" && !Selects(Chosen(), "t2");
    assert AddMember(["a"], "b") == ["a", "b"];
  }

  lemma AnnouncementApplies(s: Control) returns (p: Publication)
    requires s == EmptyControl("repository", "epoch", LIMITS)
    ensures SubmitStep(s, "a", PublicKey("k"), Announcing()) == Candidate(p) && Stage(Publish(s, p), {PublicKey("k")}, [], [])
  {
    hide Submissions.Bind, Submissions.Dispose, Submissions.Terminate, Submissions.WithdrawAnnouncement, Submissions.SubmissionSchema;
    p := Submissions.Announce(s, "a", PublicKey("k"), Announcing()).value;
    assert Publish(s, p).events[|s.events|].key == PublicKey("k");
  }

  function EnrolKeys(): set<Key> { {PublicKey("k")} + {PublicKey("r1")} + {PublicKey("r2")} }
  function AllKeys(): set<Key> { EnrolKeys() + {PublicKey("claim")} + {PublicKey("select")} + {PublicKey("extend")} }

  lemma NewKeys()
    ensures PublicKey("r1") !in {PublicKey("k")} && PublicKey("r2") !in {PublicKey("k")} + {PublicKey("r1")} && PublicKey("claim") !in EnrolKeys()
    ensures PublicKey("select") !in EnrolKeys() + {PublicKey("claim")}
    ensures PublicKey("extend") !in EnrolKeys() + {PublicKey("claim")} + {PublicKey("select")}
    ensures {PublicKey("k")} + {PublicKey("r1")} + {PublicKey("r2")} == EnrolKeys()
  {
  }

  lemma FirstNamed()
    ensures TaskWork("t1", "a").id == "t1" && TaskWork("t1", "a").workspaceId == "t1"
  {
  }

  lemma StageIs(s: Control, used: set<Key>, works: seq<Work>, cases: seq<Case>)
    requires Stage(s, used, works, cases)
    ensures s.works == works && s.cases == cases && s.notes == []
  {
    hide KeysIn, EventKeyUsed;
  }

  /** The run of six operations: an announcement, two enrolments, a claim, a selection and an extension. */
  lemma Outstanding() returns (t: Trace)
    ensures Run(t) && Stage(Now(t), AllKeys(), Works(), [Extended()])
  {
    hide Run, Now, Stage, TaskWork, Applies, Claimed, Chosen, Extended, Publishes, Publish, Unkeyed, ExtendBody, SubmitStep, KeysIn, Accepts,
         Announcing, EnrolKeys;
    NewKeys();
    t := Starts();
    var announced := AnnouncementApplies(Now(t));
    SubmitPublishes(Now(t), "a", PublicKey("k"), Announcing(), announced);
    OneMore(t, SubmitOp("a", PublicKey("k"), Announcing()), announced);
    t := Then(t, SubmitOp("a", PublicKey("k"), Announcing()));

    FirstNamed();
    var used, one := {PublicKey("k")}, [TaskWork("t1", "a")];
    StageIs(Now(t), used, [], []);
    EnrolApplies(Now(t), "r1", "t1", "a");
    CommandGoes(t, used, [], [], "a", Enrolment("r1", "t1"), false, "", Enrolled("t1", "a"));
    t := Then(t, CommandOp("a", Enrolment("r1", "t1"), false, ""));
    assert [] + one == one;
    used := used + {PublicKey("r1")};
    StageIs(Now(t), used, one, []);
    EnrolApplies(Now(t), "r2", "t2", "b");
    CommandGoes(t, used, one, [], "b", Enrolment("r2", "t2"), false, "", Enrolled("t2", "b"));
    t := Then(t, CommandOp("b", Enrolment("r2", "t2"), false, ""));
    assert one + [TaskWork("t2", "b")] == Works();

    used := EnrolKeys();
    StageIs(Now(t), used, Works(), []);
    ClaimApplies(Now(t));
    CommandGoes(t, used, Works(), [], "a", Claim(), true, "case", Claiming());
    t := Then(t, CommandOp("a", Claim(), true, "case"));
    assert [] + [Claimed()] == [Claimed()];
    used := used + {PublicKey("claim")};
    StageIs(Now(t), used, Works(), [Claimed()]);
    SelectionApplies(Now(t));
    CommandGoes(t, used, Works(), [Claimed()], "a", Selecting(), true, "unused", Choice());
    t := Then(t, CommandOp("a", Selecting(), true, "unused"));
    assert Replace([Claimed()], 0, Chosen()) == [Chosen()];

    used := used + {PublicKey("select")};
    var s, p := Now(t), ExtensionPublication(Now(t));
    StageIs(s, used, Works(), [Chosen()]);
    ExtensionApplies(s);
    StageKeys(s, used, Works(), [Chosen()], PublicKey("extend"));
    ExtendPublishes(s, "a", PublicKey("extend"), Extending(), p);
    OneMore(t, ExtendOp("a", PublicKey("extend"), Extending()), p);
    Restaged(s, used, Works(), [Chosen()], p.change, p.schema, p.receipt);
    assert Replace([Chosen()], 0, Extended()) == [Extended()];
    t := Then(t, ExtendOp("a", PublicKey("extend"), Extending()));
  }

  lemma StageKeys(s: Control, used: set<Key>, works: seq<Work>, cases: seq<Case>, key: Key)
    requires Stage(s, used, works, cases) && key !in used
    ensures Unkeyed(s, "a", key) && EventKeyUsed(s.events, "a", PublicKey("k"))
  {
    hide KeysIn, Unkeyed, EventKeyUsed;
    NotInUse(s, used, "a", key);
  }

  // ---------- where it can go wrong ----------

  lemma ExtendedOk()
    ensures DeliveryOk(Extended()) && DeltasOk(Works(), Extended())
  {
    WorksAt();
    var c := Extended();
    assert c.inputs[0].workId == "t1" && c.inputs[1].workId == "t2";
    assert Selected(c.inputs, "t1") && Selected(c.inputs, "t2");
    assert DeltaOk(Works(), c.members, c.visibility.value[0]) && DeltaOk(Works(), c.members, c.visibility.value[1]);
  }

  lemma ObservedNow(s: Control)
    requires s.works == Works() && s.cases == [Extended()]
    ensures ObservedOk(s.works, s.cases)
  {
    hide DeliveryOk, DeltasOk, Extended, Works;
    ExtendedOk();
  }

  function Seeing(): Observation { Observation("case", 3, 1, "t1", "digest") }

  lemma Observes(s: Control) returns (p: Publication)
    requires s.cases == [Extended()] && !ReceiptKeyUsed(s.receipts, "a", PublicKey("k"))
    ensures ObserveDelivery(s, "a", PublicKey("k"), Seeing(), s.epoch, s.revision) == Candidate(p)
  {
    hide ReceiptKeyUsed, Without;
    CaseAt(Extended());
    assert Extended().pending.value[0] == "t1";
    p := ObserveDelivery(s, "a", PublicKey("k"), Seeing(), s.epoch, s.revision).publication;
  }

  lemma ObserveAccepted(s: Control, owner: ParentId, key: Key, o: Observation, p: Publication)
    requires ObserveDelivery(s, owner, key, o, s.epoch, s.revision) == Candidate(p)
    ensures Attempt(s, ObserveOp(owner, key, o, s.epoch, s.revision)) == Candidate(p) && FreshIdentity(s, ObserveOp(owner, key, o, s.epoch, s.revision))
  {
    hide ObserveDelivery, ExecuteCommand, ExtendCase, WorkerStep, AdmitApplication, PublishOutcome, SubmitStep, RecoverStep;
  }

  lemma EventKeyIsNoReceipt(s: Control, owner: ParentId, key: Key)
    requires KeysOnce(s) && EventKeyUsed(s.events, owner, key)
    ensures !ReceiptKeyUsed(s.receipts, owner, key)
  {
    hide KeysOnce, Replay.InReceipts;
    Replay.EventHolder(s, OwnedKey(owner, key));
    InReceiptsIs(s, owner, key);
  }

  lemma InReceiptsIs(s: Control, owner: ParentId, key: Key)
    ensures Replay.InReceipts(s, OwnedKey(owner, key)) <==> ReceiptKeyUsed(s.receipts, owner, key)
  {
  }

  /** Delivery observation does not find its key among the submissions: after this run the lead observes a delivery under
      the key of its own announcement, and the key then names two entries. */
  lemma ObservationKeyCollides() returns (t: Trace, op: Op)
    ensures Collides(t, op) && op.ObserveOp?
  {
    hide Run, Now, Stage, KeysOnce, ObserveDelivery, EventKeyUsed, ReceiptKeyUsed, RecoveryKeyUsed, Publish, Inv, NoWorkerKeys, Attempt,
         FreshIdentity, Unkeyed, Extended, Works;
    t := Outstanding();
    var s := Now(t);
    Reachable(t);
    Replay.InvKeys(s);
    StageIs(s, AllKeys(), Works(), [Extended()]);
    StageKeys(s, AllKeys(), Works(), [Extended()], PublicKey("other"));
    EventKeyIsNoReceipt(s, "a", PublicKey("k"));
    var p := Observes(s);
    Replay.ObservationKeysExact(s, "a", PublicKey("k"), Seeing(), s.epoch, s.revision, p);
    ObserveAccepted(s, "a", PublicKey("k"), Seeing(), p);
    op := ObserveOp("a", PublicKey("k"), Seeing(), s.epoch, s.revision);
  }

  /** The run goes on with an accepted operation that is not harmless, from a record whose clauses hold to one whose
      clauses fail. */
  predicate Harms(t: Trace, op: Op) {
    Run(Then(t, op)) && Accepts(Now(t), op) && ObservedOk(Now(t).works, Now(t).cases) && !Harmless(Now(t), op) &&
    !ObservedOk(Now(Then(t, op)).works, Now(Then(t, op)).cases)
  }

  predicate IsReselection(op: Op) {
    match op case CommandOp(_, command, _, _) => command.SelectInputs? case _ => false
  }

  predicate IsAdoption(op: Op) {
    match op case RecoverOp(_, r) => r.action.AdoptWork? case _ => false
  }

  function Again(): Command { SelectInputs(PublicKey("again"), "case", 3, 1, "oid", First()) }
  function Reselected(): Case { Extended().(inputs := First(), revision := 4) }
  function Reapplied(): Applied { Applied(SetCase(0, Reselected()), Subject(CaseSubject, "case"), "case") }

  lemma BothRead(s: Control)
    requires s.works == Works() && s.cases == [Extended()]
    ensures InputsVisible(s, ["a", "b"], First())
  {
    hide CanReadSelectedWork;
    WorksAt();
    BReads(s);
    OwnerReads(s);
  }

  lemma BReads(s: Control)
    requires s.works == Works() && s.cases == [Extended()]
    ensures CanReadSelectedWork(s.cases, "b", TaskWork("t1", "a"))
  {
    var c := Extended();
    assert DeltaAdmits(c.visibility.value[0], TaskWork("t1", "a"), "b") by { assert c.visibility.value[0].added[0] == "b"; }
    assert Selects(c, "t1") by { assert c.inputs[0].workId == "t1"; }
    assert c.members[1] == "b" && s.cases[0] == c;
  }

  lemma ReselectionApplies(s: Control)
    requires s.works == Works() && s.cases == [Extended()] && s.notes == []
    ensures Applies(s, "a", Again(), false, "unused", Reapplied())
  {
    hide Register, ChangedWork, PostedNote, AnsweredNote, ClaimedCase, OwnWork, InputsVisible, FreshId, CanReadCase;
    CaseAt(Extended());
    UnusedIsFresh(s, Extended());
    BothRead(s);
    assert Extended().members[0] == "a" && InputIds(First()) == ["t1"];
  }

  lemma ReselectionHarms(s: Control)
    requires s.cases == [Extended()]
    ensures !Harmless(s, CommandOp("a", Again(), false, "unused"))
  {
    CaseAt(Extended());
    assert Extended().pending.value[1] == "t2" && !Selected(First(), "t2");
  }

  /** The run goes on with a reselection that drops a pending input: it is accepted, and the case then owes a delivery
      outside its inputs. */
  lemma ReselectionCanHarm() returns (t: Trace, op: Op)
    ensures Harms(t, op) && IsReselection(op)
  {
    hide Run, Now, Stage, Applies, Unkeyed, EventKeyUsed, Extended, Works, ObservedOk, Harmless, Admissible, Attempt, Publish, Reapplied, Inv,
         Accepts;
    t := Outstanding();
    var s := Now(t);
    StageIs(s, AllKeys(), Works(), [Extended()]);
    StageKeys(s, AllKeys(), Works(), [Extended()], PublicKey("again"));
    ReselectionApplies(s);
    CommandPublishes(s, "a", Again(), false, "unused", Reapplied());
    ObservedNow(s);
    ReselectionHarms(s);
    op := CommandOp("a", Again(), false, "unused");
    var p := CommandPublication(s, "a", Again(), false, Reapplied());
    OneMore(t, op, p);
    Reachable(t);
    ObservedKeptExactly(s, op, p);
  }

  function Adopting(epoch: Id): Recovery { Recovery(PublicKey("adopt"), epoch, "a", 1, "handed over", "t1", AdoptWork("b")) }
  function Adopted(): Work { TaskWork("t1", "a").(owner := "b", revision := 2) }
  function Adoption(): Change { SetWork(0, Adopted()) }

  lemma AdoptionApplies(s: Control)
    requires s.works == Works()
    ensures ApplyRecovery(s, Adopting(s.epoch)) == Ok(Adoption()) && !Blank("handed over")
  {
    hide RecoveredCase;
    WorksAt();
    assert "handed over"[0] == 'h';
    assert Without<ParentId>([], "b") == [];
  }

  lemma AdoptionHarms(s: Control)
    requires s.works == Works() && s.cases == [Extended()]
    ensures !Harmless(s, RecoverOp("a", Adopting(s.epoch)))
  {
    WorksAt();
    var d := Extended().visibility.value[0];
    assert s.cases[0] == Extended() && d.added[0] == "b" && d.workId == "t1";
    assert !NotAddedReader(s.cases, "t1", "b");
    hide NotAddedReader, Extended;
  }

  /** The run goes on with an operator's adoption by the member the work was disclosed to: it is accepted, and the new
      owner is then an added reader of its own work. */
  lemma AdoptionCanHarm() returns (t: Trace, op: Op)
    ensures Harms(t, op) && IsAdoption(op)
  {
    hide Run, Now, Stage, Unkeyed, EventKeyUsed, Extended, Works, ObservedOk, Harmless, Admissible, Attempt, Publish, ApplyRecovery, Blank,
         Adoption, Inv, Accepts;
    t := Outstanding();
    var s := Now(t);
    StageIs(s, AllKeys(), Works(), [Extended()]);
    StageKeys(s, AllKeys(), Works(), [Extended()], PublicKey("adopt"));
    AdoptionApplies(s);
    RecoverPublishes(s, "a", Adopting(s.epoch), Adoption());
    ObservedNow(s);
    AdoptionHarms(s);
    op := RecoverOp("a", Adopting(s.epoch));
    var p := RecoveryPublication(s, "a", Adopting(s.epoch), Adoption());
    OneMore(t, op, p);
    Reachable(t);
    ObservedKeptExactly(s, op, p);
  }
}
