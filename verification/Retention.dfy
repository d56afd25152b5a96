/** Enrollment and storage versions across one publication: every managed work keeps its one immutable
    enrollment entry, and every retained field is one the stored version can hold. */
module Retention {
  import opened ControlTypes
  import opened Records
  import opened Publications
  import opened Invariant
  import opened Preservation
  import opened History

  // ---------- enrollment ----------

  /** An entry enrolls exactly when its change adds managed work, and then it says what was enrolled. */
  predicate EnrollmentFits(ch: Change, r: Receipt) {
    (r.action == ActRegisterTaskWork <==> ch.AddWork? && ch.work.managed.Some?) &&
    (r.action == ActRegisterTaskWork ==> Enrolls(r, ch.work))
  }

  lemma SameEnrollmentEnrolls(r: Receipt, was: Work, w: Work)
    requires SameEnrollment(was, w)
    ensures Enrolls(r, was) <==> Enrolls(r, w)
  {
  }

  /** A work keeps its facts under any fitting change, so it keeps its enrollment. */
  lemma FactsKept(s: Control, ch: Change, i: nat)
    requires Fits(s, ch) && i < |s.works|
    ensures i < |WorksAfter(s.works, ch)| && SameEnrollment(s.works[i], WorksAfter(s.works, ch)[i])
  {
  }

  lemma WorkFound(ws: seq<Work>, i: nat)
    requires UniqueWorks(ws) && i < |ws|
    ensures WorkIndex(ws, ws[i].id) == i
  {
  }

  lemma UniqueAfter(s: Control, ch: Change)
    requires WorksOk(s.works, s.revision) && Fits(s, ch)
    ensures UniqueWorks(WorksAfter(s.works, ch))
  {
    WorksKept(s, ch);
  }

  lemma StillEnrolled(s: Control, ch: Change, r: Receipt, i: nat)
    requires Enrolled(s.works, s.receipts) && Fits(s, ch) && EnrollmentFits(ch, r)
    requires i < |WorksAfter(s.works, ch)| && WorksAfter(s.works, ch)[i].managed.Some?
    ensures exists k :: 0 <= k < |s.receipts| + 1 && Enrolls((s.receipts + [r])[k], WorksAfter(s.works, ch)[i])
  {
    hide HasWork, Enrolls, Fits, SameEnrollment;
    var rs := s.receipts + [r];
    if i < |s.works| {
      FactsKept(s, ch, i);
      assert s.works[i].managed.Some? by { ManagedKept(s.works[i], WorksAfter(s.works, ch)[i]); }
      var k :| 0 <= k < |s.receipts| && Enrolls(s.receipts[k], s.works[i]);
      SameEnrollmentEnrolls(rs[k], s.works[i], WorksAfter(s.works, ch)[i]);
    } else {
      assert Enrolls(rs[|s.receipts|], WorksAfter(s.works, ch)[i]);
    }
  }

  lemma ManagedKept(was: Work, w: Work)
    requires SameEnrollment(was, w)
    ensures was.id == w.id && was.managed == w.managed
  {
  }

  lemma EntryEnrolls(s: Control, ch: Change, r: Receipt, k: nat)
    requires Enrolled(s.works, s.receipts) && Fits(s, ch) && EnrollmentFits(ch, r) && EntryRefers(s, ch, r)
    requires WorksOk(s.works, s.revision)
    requires k <= |s.receipts| && (s.receipts + [r])[k].action == ActRegisterTaskWork
    ensures HasWork(WorksAfter(s.works, ch), (s.receipts + [r])[k].itemId)
    ensures Enrolls((s.receipts + [r])[k], WorksAfter(s.works, ch)[WorkIndex(WorksAfter(s.works, ch), (s.receipts + [r])[k].itemId)])
  {
    hide Enrolls, Fits, SameEnrollment, WorksOk;
    UniqueAfter(s, ch);
    var ws := WorksAfter(s.works, ch);
    if k < |s.receipts| {
      var i := WorkIndex(s.works, s.receipts[k].itemId);
      FactsKept(s, ch, i);
      ManagedKept(s.works[i], ws[i]);
      WorkFound(ws, i);
      SameEnrollmentEnrolls(s.receipts[k], s.works[i], ws[i]);
    } else {
      WorkFound(ws, |s.works|);
    }
  }

  /** Every managed work keeps exactly one enrollment, unchanged. */
  lemma EnrollmentKept(s: Control, ch: Change, r: Receipt)
    requires Enrolled(s.works, s.receipts) && Fits(s, ch) && EnrollmentFits(ch, r) && EntryRefers(s, ch, r)
    requires WorksOk(s.works, s.revision)
    ensures Enrolled(WorksAfter(s.works, ch), s.receipts + [r])
  {
    hide Enrolls, Fits, SameEnrollment, WorksOk;
    var ws, rs := WorksAfter(s.works, ch), s.receipts + [r];
    forall i | 0 <= i < |ws| && ws[i].managed.Some? ensures exists k :: 0 <= k < |rs| && Enrolls(rs[k], ws[i]) {
      StillEnrolled(s, ch, r, i);
    }
    forall k | 0 <= k < |rs| && rs[k].action == ActRegisterTaskWork
      ensures HasWork(ws, rs[k].itemId) && Enrolls(rs[k], ws[WorkIndex(ws, rs[k].itemId)])
    {
      EntryEnrolls(s, ch, r, k);
    }
    forall j | 0 <= j < |s.receipts| && s.receipts[j].action == ActRegisterTaskWork && r.action == ActRegisterTaskWork
      ensures s.receipts[j].itemId != r.itemId
    {
      FreshNotHeld(s, ch.work.id, s.receipts[j].itemId) by { FreshWork(s, ch); }
    }
  }

  lemma FreshWork(s: Control, ch: Change)
    requires Fits(s, ch) && ch.AddWork?
    ensures FreshId(s, ch.work.id)
  {
  }

  lemma FreshNotHeld(s: Control, id: Id, held: Id)
    requires FreshId(s, id) && HasWork(s.works, held)
    ensures id != held
  {
  }

  /** Without a new receipt, a fitting change keeps every enrollment. */
  lemma EnrollmentUntouched(s: Control, ch: Change)
    requires Enrolled(s.works, s.receipts) && Fits(s, ch) && !ch.AddWork? && WorksOk(s.works, s.revision)
    ensures Enrolled(WorksAfter(s.works, ch), s.receipts)
  {
    hide Enrolls, Fits, SameEnrollment, WorksOk;
    UniqueAfter(s, ch);
    var ws := WorksAfter(s.works, ch);
    forall i | 0 <= i < |ws| && ws[i].managed.Some? ensures exists k :: 0 <= k < |s.receipts| && Enrolls(s.receipts[k], ws[i]) {
      FactsKept(s, ch, i);
      ManagedKept(s.works[i], ws[i]);
      var k :| 0 <= k < |s.receipts| && Enrolls(s.receipts[k], s.works[i]);
      SameEnrollmentEnrolls(s.receipts[k], s.works[i], ws[i]);
    }
    forall k | 0 <= k < |s.receipts| && s.receipts[k].action == ActRegisterTaskWork
      ensures HasWork(ws, s.receipts[k].itemId) && Enrolls(s.receipts[k], ws[WorkIndex(ws, s.receipts[k].itemId)])
    {
      var i := WorkIndex(s.works, s.receipts[k].itemId);
      FactsKept(s, ch, i);
      ManagedKept(s.works[i], ws[i]);
      WorkFound(ws, i);
      SameEnrollmentEnrolls(s.receipts[k], s.works[i], ws[i]);
    }
  }

  // ---------- storage versions ----------

  predicate ChangeFitsSchema(ch: Change, schema: nat) {
    match ch
    case AddWork(w) => WorkFitsSchema(w, schema)
    case SetWork(_, w) => WorkFitsSchema(w, schema)
    case AddCase(c) => CaseFitsSchema(c, schema)
    case SetCase(_, c) => CaseFitsSchema(c, schema)
    case AddNote(n) => NoteFitsSchema(n, schema)
    case SetNote(_, n) => NoteFitsSchema(n, schema)
  }

  lemma FieldsStillFit(s: Control, ch: Change, schema: nat)
    requires FieldsFit(s) && ChangeFitsSchema(ch, schema) && s.schema <= schema
    ensures FieldsFit(Put(s, ch).(schema := schema))
  {
  }

  /** An ordinary publication keeps the version or moves to the one its action needs. */
  predicate VersionFits(s: Control, ch: Change, schema: nat, action: Action) {
    s.schema <= schema <= OBSERVED_SCHEMA && ChangeFitsSchema(ch, schema) &&
    (schema != s.schema ==> schema >= MANAGED_SCHEMA && schema != SUBMISSION_SCHEMA) &&
    (schema == MANAGED_SCHEMA && s.schema < schema ==> ch.AddWork? && ch.work.managed.Some?) &&
    (action == ActExtendCase || action == ActObserveDelivery ==> schema == OBSERVED_SCHEMA)
  }

  lemma ManagedStays(s: Control, ch: Change, i: nat)
    requires Fits(s, ch) && i < |s.works| && s.works[i].managed.Some?
    ensures HasManaged(WorksAfter(s.works, ch))
  {
    FactsKept(s, ch, i);
    assert WorksAfter(s.works, ch)[i].managed.Some?;
  }

  lemma OrdinaryLedgersFit(s: Control, ch: Change, schema: nat, r: Receipt)
    requires LedgersFit(s) && Fits(s, ch) && VersionFits(s, ch, schema, r.action)
    ensures LedgersFit(Publish(s, Ordinary(ch, schema, r)))
  {
    hide Fits, ChangeFitsSchema;
    if schema == MANAGED_SCHEMA {
      if s.schema == MANAGED_SCHEMA {
        var i :| 0 <= i < |s.works| && s.works[i].managed.Some?;
        ManagedStays(s, ch, i);
      } else {
        assert WorksAfter(s.works, ch)[|s.works|].managed.Some?;
      }
    }
  }

  lemma RecoveringLedgersFit(s: Control, ch: Change, schema: nat, r: RecoveryReceipt)
    requires LedgersFit(s) && Fits(s, ch) && schema == (if s.schema >= MANAGED_SCHEMA then s.schema else 2)
    ensures LedgersFit(Publish(s, Recovering(ch, schema, r)))
  {
    hide Fits;
    if schema == MANAGED_SCHEMA {
      var i :| 0 <= i < |s.works| && s.works[i].managed.Some?;
      ManagedStays(s, ch, i);
    }
  }
}
