/** The delivery and visibility clauses of an observed case.  The operations keep them, except for a
    reselection and a work adoption whose effect on them is not checked where it is made; for those two
    this says exactly when they are kept. */
module ObservedCases {
  import opened ControlTypes
  import opened Records
  import opened Publications
  import opened Invariant
  import opened Preservation
  import opened Retention
  import opened Shapes
  import opened Steps
  import opened Runs
  import Ledger
  import OperationSoundness
  import Submissions
  import SubmissionSoundness
  import History
  import Licences
  import T = Transition

  predicate Within(ids: seq<Id>, inputs: seq<Selection>) {
    forall k :: 0 <= k < |ids| ==> Selected(inputs, ids[k])
  }

  predicate Selected(inputs: seq<Selection>, id: Id) {
    exists i :: 0 <= i < |inputs| && inputs[i].workId == id
  }

  predicate ObservedWithin(seen: seq<Observed>, pending: seq<Id>, inputs: seq<Selection>) {
    forall k :: 0 <= k < |seen| ==> Selected(inputs, seen[k].workId) && seen[k].workId !in pending
  }

  /** A visibility delta speaks of a selected managed work at no later version, and never of its owner. */
  predicate DeltaOk(ws: seq<Work>, members: seq<ParentId>, d: Delta) {
    HasWork(ws, d.workId) &&
    var w := ws[WorkIndex(ws, d.workId)];
    w.managed.Some? && d.workRevision <= w.revision && d.controlGeneration <= w.managed.value.controlGeneration &&
    w.owner !in d.added && forall k :: 0 <= k < |d.added| ==> d.added[k] in members
  }

  predicate DeltasOk(ws: seq<Work>, c: Case) {
    forall k :: 0 <= k < |T.ListOf(c.visibility)| ==>
      Selected(c.inputs, c.visibility.value[k].workId) && DeltaOk(ws, c.members, c.visibility.value[k])
  }

  predicate DeliveryOk(c: Case) {
    (c.origin == Some(SelectedOrigin) ==> c.inputs != []) &&
    (c.pending.Some? || c.observed.Some? ==> c.origin == Some(SelectedOrigin)) &&
    Within(T.ListOf(c.pending), c.inputs) && ObservedWithin(T.ListOf(c.observed), T.ListOf(c.pending), c.inputs)
  }

  predicate ObservedOk(ws: seq<Work>, cs: seq<Case>) {
    forall i :: 0 <= i < |cs| ==> DeliveryOk(cs[i]) && DeltasOk(ws, cs[i])
  }

  // ---------- the two conditions a caller can check ----------

  /** The new inputs still contain everything already pending, observed or disclosed. */
  predicate Reselects(item: Case, inputs: seq<Selection>) {
    (item.origin.Some? ==> inputs != []) && Within(T.ListOf(item.pending), inputs) &&
    ObservedWithin(T.ListOf(item.observed), T.ListOf(item.pending), inputs) &&
    forall k :: 0 <= k < |T.ListOf(item.visibility)| ==> Selected(inputs, item.visibility.value[k].workId)
  }

  /** No case discloses this work to the parent as an added reader. */
  predicate NotAddedReader(cs: seq<Case>, workId: Id, parent: ParentId) {
    forall i, k :: 0 <= i < |cs| && 0 <= k < |T.ListOf(cs[i].visibility)| && cs[i].visibility.value[k].workId == workId ==>
      parent !in cs[i].visibility.value[k].added
  }

  predicate Harmless(s: Control, op: Op) {
    match op
    case CommandOp(_, command, _, _) =>
      command.SelectInputs? && HasCase(s.cases, command.caseId) ==> Reselects(s.cases[CaseIndex(s.cases, command.caseId)], command.inputs)
    case RecoverOp(_, r) =>
      r.action.AdoptWork? && HasWork(s.works, r.itemId) ==> NotAddedReader(s.cases, s.works[WorkIndex(s.works, r.itemId)].id, r.action.newOwner)
    case _ => true
  }

  // ---------- what each kind of change does to the clauses ----------

  lemma DeltaKept(ws: seq<Work>, next: seq<Work>, members: seq<ParentId>, d: Delta)
    requires DeltaOk(ws, members, d) && HasWork(next, d.workId)
    requires var was, w := ws[WorkIndex(ws, d.workId)], next[WorkIndex(next, d.workId)];
             w.managed == was.managed && was.revision <= w.revision && (w.owner == was.owner || w.owner !in d.added)
    ensures DeltaOk(next, members, d)
  {
  }

  lemma WorkIndexAfterSet(ws: seq<Work>, i: nat, w: Work, id: Id)
    requires i < |ws| && ws[i].id == w.id
    ensures WorkIndex(ws[i := w], id) == WorkIndex(ws, id)
  {
    assert forall j :: 0 <= j < |ws| ==> ws[i := w][j].id == ws[j].id;
  }

  lemma WorkIndexAfterAdd(ws: seq<Work>, w: Work, id: Id)
    requires HasWork(ws, id)
    ensures WorkIndex(ws + [w], id) == WorkIndex(ws, id)
  {
    assert forall j :: 0 <= j < |ws| ==> (ws + [w])[j] == ws[j];
  }

  lemma AddedWorkKeeps(ws: seq<Work>, cs: seq<Case>, w: Work)
    requires ObservedOk(ws, cs)
    ensures ObservedOk(ws + [w], cs)
  {
    hide DeltaOk, DeliveryOk;
    forall i, k | 0 <= i < |cs| && 0 <= k < |T.ListOf(cs[i].visibility)| ensures DeltaOk(ws + [w], cs[i].members, cs[i].visibility.value[k]) {
      assert DeltasOk(ws, cs[i]);
      DeltaAfterAdd(ws, w, cs[i].members, cs[i].visibility.value[k]);
    }
    assert forall i :: 0 <= i < |cs| ==> DeltasOk(ws, cs[i]);
  }

  lemma DeltaAfterAdd(ws: seq<Work>, w: Work, members: seq<ParentId>, d: Delta)
    requires DeltaOk(ws, members, d)
    ensures DeltaOk(ws + [w], members, d)
  {
    WorkIndexAfterAdd(ws, w, d.workId);
    DeltaKept(ws, ws + [w], members, d);
  }

  /** A changed work keeps the clauses exactly when its owner is no added reader of it. */
  lemma ChangedWorkExact(ws: seq<Work>, cs: seq<Case>, i: nat, w: Work, next: seq<Work>)
    requires ObservedOk(ws, cs) && UniqueWorks(ws) && i < |ws| && SameEnrollment(ws[i], w) && ws[i].revision <= w.revision
    requires next == ws[i := w]
    ensures ObservedOk(next, cs) <==> NotAddedReader(cs, w.id, w.owner)
  {
    hide DeliveryOk;
    if NotAddedReader(cs, w.id, w.owner) {
      forall c, k | 0 <= c < |cs| && 0 <= k < |T.ListOf(cs[c].visibility)| ensures DeltaOk(next, cs[c].members, cs[c].visibility.value[k]) {
        assert DeltasOk(ws, cs[c]);
        WorkIndexAfterSet(ws, i, w, cs[c].visibility.value[k].workId);
        DeltaKept(ws, next, cs[c].members, cs[c].visibility.value[k]);
      }
      assert forall c :: 0 <= c < |cs| ==> DeltasOk(ws, cs[c]);
    } else {
      var c, k :| 0 <= c < |cs| && 0 <= k < |T.ListOf(cs[c].visibility)| && cs[c].visibility.value[k].workId == w.id && w.owner in cs[c].visibility.value[k].added;
      WorkIndexAfterSet(ws, i, w, w.id);
      WorkFound(ws, i);
      assert !DeltaOk(next, cs[c].members, cs[c].visibility.value[k]);
      assert !DeltasOk(next, cs[c]);
    }
  }

  lemma SameOwnerKeeps(ws: seq<Work>, cs: seq<Case>, i: nat, w: Work)
    requires ObservedOk(ws, cs) && UniqueWorks(ws) && i < |ws| && ws[i].id == w.id && ws[i].owner == w.owner
    ensures NotAddedReader(cs, w.id, w.owner)
  {
    forall c, k | 0 <= c < |cs| && 0 <= k < |T.ListOf(cs[c].visibility)| && cs[c].visibility.value[k].workId == w.id
      ensures w.owner !in cs[c].visibility.value[k].added
    {
      assert DeltasOk(ws, cs[c]);
      WorkFound(ws, i);
    }
  }

  lemma ChangedCaseExact(ws: seq<Work>, cs: seq<Case>, i: nat, c: Case)
    requires ObservedOk(ws, cs) && i < |cs|
    ensures ObservedOk(ws, cs[i := c]) <==> DeliveryOk(c) && DeltasOk(ws, c)
  {
    hide DeliveryOk, DeltasOk;
    assert cs[i := c][i] == c;
  }

  // ---------- the case changes ----------

  /** Fields other than the delivery lists decide nothing here. */
  lemma SameDelivery(ws: seq<Work>, item: Case, c: Case)
    requires DeliveryOk(item) && DeltasOk(ws, item)
    requires c.inputs == item.inputs && c.origin == item.origin && c.pending == item.pending && c.observed == item.observed
    requires c.visibility == item.visibility && forall p :: p in item.members ==> p in c.members
    ensures DeliveryOk(c) && DeltasOk(ws, c)
  {
    hide DeltaOk;
    forall k | 0 <= k < |T.ListOf(c.visibility)| ensures DeltaOk(ws, c.members, c.visibility.value[k]) {
      assert DeltaOk(ws, item.members, c.visibility.value[k]);
      MoreMembers(ws, item.members, c.members, c.visibility.value[k]);
    }
  }

  lemma MoreMembers(ws: seq<Work>, members: seq<ParentId>, more: seq<ParentId>, d: Delta)
    requires DeltaOk(ws, members, d) && forall p :: p in members ==> p in more
    ensures DeltaOk(ws, more, d)
  {
  }

  /** A reselection keeps the clauses exactly when the new inputs contain what is pending, observed or disclosed. */
  lemma ReselectionExact(s: Control, item: Case, owner: ParentId, command: Command, elected: bool, c: Case)
    requires command.SelectInputs? && Ledger.ChangedCase(s, item, owner, command, elected) == Ok(c)
    requires DeliveryOk(item) && DeltasOk(s.works, item)
    ensures DeliveryOk(c) && DeltasOk(s.works, c) <==> Reselects(item, command.inputs)
  {
    hide Ledger.InputsVisible, DeltaOk, Selected, Within, ObservedWithin;
    assert c.members == item.members && c.visibility == item.visibility && c.inputs == command.inputs;
    forall k | 0 <= k < |T.ListOf(item.visibility)|
      ensures DeltaOk(s.works, c.members, item.visibility.value[k])
    {
      assert Selected(item.inputs, item.visibility.value[k].workId) && DeltaOk(s.works, item.members, item.visibility.value[k]);
    }
    assert DeltasOk(s.works, c) <==> forall k :: 0 <= k < |T.ListOf(item.visibility)| ==> Selected(command.inputs, item.visibility.value[k].workId);
    assert c.pending == item.pending && c.observed == item.observed;
    assert item.origin.Some? ==> item.origin.value.PendingOrigin? || item.origin.value.SelectedOrigin?;
    assert c.origin == Some(SelectedOrigin) <==> item.origin.Some?;
    assert c.pending.Some? || c.observed.Some? ==> c.origin == Some(SelectedOrigin);
    assert DeliveryOk(c) <==> (item.origin.Some? ==> command.inputs != []) && Within(T.ListOf(item.pending), command.inputs) &&
                              ObservedWithin(T.ListOf(item.observed), T.ListOf(item.pending), command.inputs);
  }

  lemma ObservationKeeps(ws: seq<Work>, item: Case, o: Observation, c: Case)
    requires DeliveryOk(item) && DeltasOk(ws, item) && item.origin == Some(SelectedOrigin) && item.pending.Some?
    requires o.recipientWorkId in item.pending.value
    requires c == item.(pending := Some(Without(item.pending.value, o.recipientWorkId)),
                        observed := Some(T.ListOf(item.observed) + [Observed(o.recipientWorkId, o.digest)]))
    ensures DeliveryOk(c) && DeltasOk(ws, c)
  {
    hide DeltaOk, Selected;
    var rest := c.pending.value;
    forall k | 0 <= k < |rest| ensures Selected(c.inputs, rest[k]) { assert rest[k] in rest; }
  }

  lemma DeltaForOk(ws: seq<Work>, workId: Id, members: seq<ParentId>)
    requires HasWork(ws, workId) && ws[WorkIndex(ws, workId)].managed.Some?
    ensures DeltaOk(ws, members, Ledger.DeltaFor(ws, workId, members)) && Ledger.DeltaFor(ws, workId, members).workId == workId
  {
    var d := Ledger.DeltaFor(ws, workId, members);
    assert forall k :: 0 <= k < |d.added| ==> d.added[k] in d.added;
  }

  lemma ExtensionKeeps(ws: seq<Work>, item: Case, added: Work, c: Case)
    requires HasWork(ws, added.id) && ws[WorkIndex(ws, added.id)].managed.Some? && item.origin == Some(SelectedOrigin)
    requires forall k :: 0 <= k < |item.inputs| ==> HasWork(ws, item.inputs[k].workId) && ws[WorkIndex(ws, item.inputs[k].workId)].managed.Some?
    requires c == Ledger.ExtendedCase(ws, item, added)
    ensures DeliveryOk(c) && DeltasOk(ws, c)
  {
    hide DeltaOk;
    forall k | 0 <= k < |c.inputs| ensures Selected(c.inputs, c.visibility.value[k].workId) && DeltaOk(ws, c.members, c.visibility.value[k]) {
      DeltaForOk(ws, c.inputs[k].workId, c.members);
    }
  }

  lemma ClaimKeeps(s: Control, owner: ParentId, command: Command, elected: bool, newId: Id)
    requires command.ClaimTarget? && ObservedOk(s.works, s.cases)
    ensures ObservedOk(s.works, s.cases + [Ledger.ClaimedCase(s, owner, command, elected, newId)])
  {
  }

  // ---------- every operation ----------

  lemma ObservedAt(ws: seq<Work>, cs: seq<Case>, i: nat)
    requires ObservedOk(ws, cs) && i < |cs|
    ensures DeliveryOk(cs[i]) && DeltasOk(ws, cs[i])
  {
  }

  /** The clauses hold of the works and cases as the change leaves them. */
  predicate KeptBy(s: Control, ch: Change) {
    ObservedOk(WorksAfter(s.works, ch), CasesAfter(s.cases, ch))
  }

  lemma OwnerKept(s: Control, owner: ParentId, command: Command, i: nat, w: Work)
    requires Ledger.IsWorkChange(command) && i < |s.works| && Ledger.ChangedWork(s.works[i], owner, command) == Ok(w)
    ensures w.owner == s.works[i].owner && s.works[i].revision <= w.revision
  {
  }

  lemma CommandExact(s: Control, owner: ParentId, command: Command, elected: bool, newId: Id, ch: Change, schema: nat, r: Receipt)
    requires ObservedOk(s.works, s.cases) && UniqueWorks(s.works) && Fits(s, ch)
    requires Ledger.CommandBody(s, owner, command, elected, newId) == Ok(Ordinary(ch, schema, r)) && CommandChange(command, newId, ch, r.itemId)
    ensures KeptBy(s, ch) <==> Harmless(s, CommandOp(owner, command, elected, newId))
  {
    hide ObservedOk, DeliveryOk, DeltasOk, Reselects, UniqueWorks, NotAddedReader, WorkOk, FitsCase, FitsNote, NewNote, CanReadCase,
         Ledger.CommandAdmitted, Ledger.Register, Ledger.ChangedWork, Ledger.PostedNote, Ledger.AnsweredNote, Ledger.ClaimedCase,
         Ledger.InputsVisible, Ledger.OwnWork, Ledger.OwnCase, Ledger.CommandSchema, Ledger.ActionOf;
    match ch
    case AddWork(w) => AddedWorkKeeps(s.works, s.cases, w);
    case SetWork(i, w) =>
      OwnerKept(s, owner, command, i, w);
      ChangedWorkExact(s.works, s.cases, i, w, s.works[i := w]);
      SameOwnerKeeps(s.works, s.cases, i, w);
    case AddCase(c) => ClaimKeeps(s, owner, command, elected, newId);
    case SetCase(i, c) =>
      ObservedAt(s.works, s.cases, i);
      ChangedCaseExact(s.works, s.cases, i, c);
      if command.SelectInputs? { ReselectionExact(s, s.cases[i], owner, command, elected, c); }
      else { SameDelivery(s.works, s.cases[i], c); }
    case _ =>
  }

  lemma RecoveryExact(s: Control, operator: ParentId, r: Recovery, ch: Change, schema: nat, receipt: RecoveryReceipt)
    requires ObservedOk(s.works, s.cases) && UniqueWorks(s.works) && Fits(s, ch) && (ch.SetWork? || ch.SetCase?)
    requires Ledger.RecoverStep(s, operator, r) == Ledger.Candidate(Recovering(ch, schema, receipt))
    ensures KeptBy(s, ch) <==> Harmless(s, RecoverOp(operator, r))
  {
    hide ObservedOk, DeliveryOk, DeltasOk, UniqueWorks, NotAddedReader, WorkOk, FitsNote, VisibleWork, Ledger.Blank, RecoveryFor, ReceiptKeyUsed,
         EventKeyUsed;
    if ch.SetWork? {
      ChangedWorkExact(s.works, s.cases, ch.index, ch.work, s.works[ch.index := ch.work]);
      if !r.action.AdoptWork? { SameOwnerKeeps(s.works, s.cases, ch.index, ch.work); }
    } else {
      ObservedAt(s.works, s.cases, ch.index);
      SameDelivery(s.works, s.cases[ch.index], ch.item);
      ChangedCaseExact(s.works, s.cases, ch.index, ch.item);
    }
  }

  /** The publication's change, if it has one, fits. */
  predicate ChangeFits(s: Control, p: Publication) {
    match p
    case Ordinary(ch, _, _) => Fits(s, ch)
    case Recovering(ch, _, _) => Fits(s, ch)
    case Submitting(_, _, _, _) => true
  }

  lemma SoundFits(s: Control, p: Publication)
    requires Sound(s, p)
    ensures ChangeFits(s, p)
  {
    hide History.KeyUsed, Fits, Licences.Licensed, History.EntryRefers, EnrollmentFits, VersionFits, ChangeFitsSchema, History.RecoveryFits,
         Licences.RecoveryLicensed, Licences.NoteLicensed, SubmissionSoundness.SubmissionSound;
  }

  /** The clauses hold right after the publication. */
  predicate KeptAfter(s: Control, p: Publication) {
    ObservedOk(Publish(s, p).works, Publish(s, p).cases)
  }

  lemma OpenedExact(s: Control, op: Op, p: Publication)
    requires ObservedOk(s.works, s.cases) && UniqueWorks(s.works) && ChangeFits(s, p) && Opened(s, op, p) && Shape(op, p)
    ensures KeptAfter(s, p) <==> Harmless(s, op)
  {
    hide ObservedOk, DeliveryOk, DeltasOk, UniqueWorks, Fits, Ledger.CommandBody, Ledger.WorkerBody, Ledger.AdmitApplication, Ledger.PublishOutcome,
         Submissions.Submit, Ledger.RecoverStep, Ledger.CasePendingUnsettled, Ledger.Decodable, Harmless, CommandChange, PostsRecord,
         Ledger.ApplicationRecord, Ledger.ActionOf, Ledger.HasApplicationNote, VisibleWork, Selects, Ledger.ExtendedCase, Ledger.CompatibleSource;
    match op
    case CommandOp(owner, command, elected, newId) =>
      CommandExact(s, owner, command, elected, newId, p.change, p.schema, p.receipt);
    case RecoverOp(operator, r) => RecoveryExact(s, operator, r, p.change, p.schema, p.recovery);
    case ExtendOp(_, _, x) =>
      var i, added := p.change.index, s.works[WorkIndex(s.works, x.newWorkId)];
      OperationSoundness.CompatibleManaged(s.works, s.cases[i], added);
      ExtensionKeeps(s.works, s.cases[i], added, p.change.item);
      ChangedCaseExact(s.works, s.cases, i, p.change.item);
      OthersHarmless(s, op);
    case ObserveOp(_, _, o, _, _) =>
      var i := p.change.index;
      ObservedAt(s.works, s.cases, i);
      ObservationKeeps(s.works, s.cases[i], o, p.change.item);
      ChangedCaseExact(s.works, s.cases, i, p.change.item);
      OthersHarmless(s, op);
    case _ => OthersHarmless(s, op);
  }

  /** An accepted operation keeps the delivery and visibility clauses exactly when it is harmless: only a
      reselection and a work adoption can be anything else. */
  lemma ObservedKeptExactly(s: Control, op: Op, p: Publication)
    requires Inv(s) && Admissible(s, op) && ObservedOk(s.works, s.cases) && Attempt(s, op) == Ledger.Candidate(p)
    ensures ObservedOk(Publish(s, p).works, Publish(s, p).cases) <==> Harmless(s, op)
  {
    hide WorkOk, OneWriter, UniqueWorks, CasesOk, NotesOk, CasesKnown, NotesKnown, IdsDisjoint, FieldsFit, LedgersFit, Enrolled, LedgersRefer,
         HistoryExact, KeysOnce, NoWorkerKeys, SubmissionSoundness.LifecycleOf, Admissible, ObservedOk, Sound, Attempt, Opened, Shape, Harmless,
         ChangeFits, Publish;
    AttemptSound(s, op, p);
    SoundFits(s, p);
    Shapes.Shapes(s, op, p);
    OpenedExact(s, op, p);
  }

  lemma OthersHarmless(s: Control, op: Op)
    requires !op.CommandOp? && !op.RecoverOp?
    ensures Harmless(s, op)
  {
  }
}
