/** From one fitting change to the allowed-step relation: when the one touched record changes as the
    relation allows, the whole publication is allowed. */
module Licences {
  import opened ControlTypes
  import opened Records
  import opened Publications
  import opened Invariant
  import opened Preservation
  import opened History
  import Ledger
  import Retention
  import T = Transition

  predicate SourceAction(a: Action) { a == ActGrantSource || a == ActWatchSource }
  predicate CaseAction(a: Action) { a == ActExtendCase || a == ActObserveDelivery }

  // ---------- records a publication does not touch ----------

  lemma UntouchedWork(w: Work, r: Option<Receipt>)
    requires r.Some? && SourceAction(r.value.action) ==> r.value.itemId != w.id
    ensures T.WorkAllowed(w, w, r)
  {
  }

  lemma UntouchedCase(before: Control, next: Control, c: Case, r: Option<Receipt>)
    requires r.Some? && CaseAction(r.value.action) ==> r.value.itemId != c.id
    ensures T.CaseAllowed(before, next, c, c, r)
  {
  }

  lemma CaseFound(cs: seq<Case>, i: nat)
    requires UniqueCases(cs) && i < |cs|
    ensures HasCase(cs, cs[i].id) && CaseIndex(cs, cs[i].id) == i
  {
  }

  lemma NoteFound(ns: seq<Note>, i: nat)
    requires UniqueNotes(ns) && i < |ns|
    ensures HasNote(ns, ns[i].id) && NoteIndex(ns, ns[i].id) == i
  {
  }

  // ---------- ordinary publications ----------

  /** The touched record changes as the relation says, and the version moves only as its action allows. */
  predicate Licensed(s: Control, ch: Change, schema: nat, r: Receipt) {
    (SourceAction(r.action) ==> ch.SetWork? && r.itemId == ch.work.id &&
                                schema >= (if r.action == ActWatchSource then WATCH_SCHEMA else GRANT_SCHEMA)) &&
    (CaseAction(r.action) ==> ch.SetCase? && r.itemId == ch.item.id) &&
    (ch.SetWork? && ch.index < |s.works| ==> T.WorkAllowed(s.works[ch.index], ch.work, Some(r))) &&
    (ch.SetCase? && ch.index < |s.cases| ==> T.CaseAllowed(s, Publish(s, Ordinary(ch, schema, r)), s.cases[ch.index], ch.item, Some(r))) &&
    (r.action == ActRegisterTaskWork ==>
       ch.AddWork? && schema >= MANAGED_SCHEMA && ch.work.managed.Some? && ch.work.owner == r.owner && ch.work.revision == 1 &&
       ch.work.state == Active && ch.work.readers == [] && r.itemId == ch.work.id) &&
    (schema == s.schema || (schema == MANAGED_SCHEMA && r.action == ActRegisterTaskWork) ||
     (schema == GRANT_SCHEMA && r.action == ActGrantSource) || (schema == WATCH_SCHEMA && r.action == ActWatchSource) ||
     (schema == OBSERVED_SCHEMA && (r.action == ActClaimTarget || r.action == ActPostNote)))
  }

  /** After a fitting change every earlier work and case is found where it was, and only the touched one is another. */
  lemma RecordsFound(s: Control, ch: Change)
    requires WorksOk(s.works, s.revision) && CasesOk(s.cases, s.revision) && Fits(s, ch)
    ensures (ch.SetWork? ==> ch.index < |s.works|) && (ch.SetCase? ==> ch.index < |s.cases|)
    ensures var ws, cs := WorksAfter(s.works, ch), CasesAfter(s.cases, ch);
      (forall i :: 0 <= i < |s.works| ==> i < |ws| && HasWork(ws, s.works[i].id) && WorkIndex(ws, s.works[i].id) == i) &&
      (forall i :: 0 <= i < |s.works| && !(ch.SetWork? && ch.index == i) ==> ws[i] == s.works[i] && (ch.SetWork? ==> s.works[i].id != ch.work.id)) &&
      (forall i :: 0 <= i < |s.cases| ==> i < |cs| && HasCase(cs, s.cases[i].id) && CaseIndex(cs, s.cases[i].id) == i) &&
      (forall i :: 0 <= i < |s.cases| && !(ch.SetCase? && ch.index == i) ==> cs[i] == s.cases[i] && (ch.SetCase? ==> s.cases[i].id != ch.item.id))
  {
    hide WorkOk, CaseOk, Fenced, OneWriter, FitsNote;
    var ws, cs := WorksAfter(s.works, ch), CasesAfter(s.cases, ch);
    Retention.UniqueAfter(s, ch);
    CasesKept(s, ch);
    FitsKeepsIds(s, ch);
    forall i | 0 <= i < |s.works| ensures i < |ws| && HasWork(ws, s.works[i].id) && WorkIndex(ws, s.works[i].id) == i {
      Retention.WorkFound(ws, i) by { assert ws[i].id == s.works[i].id; }
    }
    forall i | 0 <= i < |s.cases| ensures i < |cs| && HasCase(cs, s.cases[i].id) && CaseIndex(cs, s.cases[i].id) == i {
      CaseFound(cs, i) by { assert cs[i].id == s.cases[i].id; }
    }
  }

  lemma NoteStep(s: Control, ch: Change, next: Control, i: nat)
    requires NotesOk(s.notes) && Fits(s, ch) && next.notes == NotesAfter(s.notes, ch) && i < |s.notes|
    requires ch.SetNote? ==> ch.index < |s.notes| && T.NoteAllowed(s.notes[ch.index], ch.note)
    ensures T.NoteKept(next, s.notes[i])
  {
    hide NoteOk;
    NotesKept(s, ch);
    FitsKeepsIds(s, ch);
    NoteFound(next.notes, i) by { assert next.notes[i].id == s.notes[i].id; }
  }

  predicate NoteLicensed(s: Control, ch: Change) {
    ch.SetNote? ==> ch.index < |s.notes| && T.NoteAllowed(s.notes[ch.index], ch.note)
  }

  /** A fitting, licensed ordinary publication is an allowed step. */
  lemma OrdinaryAllowed(s: Control, ch: Change, schema: nat, r: Receipt)
    requires WorksOk(s.works, s.revision) && CasesOk(s.cases, s.revision) && NotesOk(s.notes)
    requires Fits(s, ch) && Licensed(s, ch, schema, r) && NoteLicensed(s, ch) && s.schema <= schema
    ensures T.Allowed(s, Publish(s, Ordinary(ch, schema, r)))
  {
    hide T.WorkAllowed, T.CaseAllowed, T.NoteAllowed, T.NoteKept, WorksOk, CasesOk, NotesOk, Fits;
    var next := Publish(s, Ordinary(ch, schema, r));
    RecordsFound(s, ch);
    forall i | 0 <= i < |s.works| ensures T.WorkKept(s, next, s.works[i], Some(r), None) {
      if !(ch.SetWork? && ch.index == i) { UntouchedWork(s.works[i], Some(r)); }
    }
    forall i | 0 <= i < |s.cases| ensures T.CaseKept(s, next, s.cases[i], Some(r), None) {
      if !(ch.SetCase? && ch.index == i) { UntouchedCase(s, next, s.cases[i], Some(r)); }
    }
    forall i | 0 <= i < |s.notes| ensures T.NoteKept(next, s.notes[i]) { NoteStep(s, ch, next, i); }
    if SourceAction(r.action) { PresentWork(s.works, ch.index); }
    assert T.OrdinaryStep(s, next);
  }

  // ---------- recoveries ----------

  /** The touched record becomes exactly what the recovery names. */
  predicate RecoveryLicensed(s: Control, ch: Change, r: Recovery) {
    r.epoch == s.epoch &&
    match ch
    case SetWork(i, w) => i < |s.works| && s.works[i].id == r.itemId && T.WorkRecoverable(s.works[i], r) && w == T.RecoveredAs(s.works[i], r)
    case SetCase(i, c) => i < |s.cases| && s.cases[i].id == r.itemId && T.CaseRecoverable(s.cases[i], r) && c == T.RecoveredCaseAs(s.cases[i], r)
    case _ => false
  }

  lemma RecoverableTouches(w: Work, r: Recovery)
    requires T.WorkRecoverable(w, r)
    ensures Ledger.TouchesWork(r.action)
  {
  }

  lemma RecoverableCaseTouches(c: Case, r: Recovery)
    requires T.CaseRecoverable(c, r)
    ensures !Ledger.TouchesWork(r.action)
  {
  }

  lemma RecoveryAllowed(s: Control, ch: Change, next: Control, r: Recovery)
    requires WorksOk(s.works, s.revision) && CasesOk(s.cases, s.revision) && Fits(s, ch) && RecoveryLicensed(s, ch, r)
    requires next.works == WorksAfter(s.works, ch) && next.cases == CasesAfter(s.cases, ch)
    requires next.notes == s.notes && next.receipts == s.receipts
    ensures T.RecoveryAllowed(s, next, r)
  {
    hide WorkOk, CaseOk, T.RecoveredAs, T.RecoveredCaseAs, T.WorkRecoverable, T.CaseRecoverable, Fenced, OneWriter;
    if ch.SetWork? {
      Retention.WorkFound(s.works, ch.index);
      RecoverableTouches(s.works[ch.index], r);
    } else {
      CaseFound(s.cases, ch.index);
      RecoverableCaseTouches(s.cases[ch.index], r);
    }
  }

  /** A fitting, licensed recovery is an allowed step. */
  lemma RecoveringAllowed(s: Control, ch: Change, schema: nat, r: RecoveryReceipt)
    requires WorksOk(s.works, s.revision) && CasesOk(s.cases, s.revision) && NotesOk(s.notes)
    requires Fits(s, ch) && RecoveryLicensed(s, ch, r.recovery) && r.revision == s.revision + 1
    requires s.schema <= schema && 2 <= schema
    ensures T.Allowed(s, Publish(s, Recovering(ch, schema, r)))
  {
    hide T.WorkAllowed, T.CaseAllowed, T.NoteKept, T.RecoveryAllowed, T.RecoveredAs, T.RecoveredCaseAs, WorksOk, CasesOk, NotesOk, Fits;
    var next := Publish(s, Recovering(ch, schema, r));
    assert ch.SetWork? || ch.SetCase?;
    RecoveryAllowed(s, ch, next, r.recovery);
    RecordsFound(s, ch);
    forall i | 0 <= i < |s.works| ensures T.WorkKept(s, next, s.works[i], None, Some(r.recovery)) {
      if !(ch.SetWork? && ch.index == i) { UntouchedWork(s.works[i], None); }
    }
    forall i | 0 <= i < |s.cases| ensures T.CaseKept(s, next, s.cases[i], None, Some(r.recovery)) {
      if !(ch.SetCase? && ch.index == i) { UntouchedCase(s, next, s.cases[i], None); }
    }
    forall i | 0 <= i < |s.notes| ensures T.NoteKept(next, s.notes[i]) { NoteStep(s, ch, next, i); }
    assert T.RecoveryStep(s, next);
  }

  // ---------- submissions ----------

  lemma SubmittingAllowed(s: Control, p: Publication)
    requires UniqueWorks(s.works) && UniqueCases(s.cases) && UniqueNotes(s.notes)
    requires p.Submitting? && p.event.revision == s.revision + 1 && s.schema <= p.schema && SUBMISSION_SCHEMA <= p.schema
    requires T.SubmissionAllowed(s, Publish(s, p), p.event)
    ensures T.Allowed(s, Publish(s, p))
  {
    hide T.SubmissionAllowed, T.WorkAllowed, T.CaseAllowed;
    var next := Publish(s, p);
    forall i | 0 <= i < |s.works| ensures T.WorkKept(s, next, s.works[i], None, None) {
      Retention.WorkFound(s.works, i);
      UntouchedWork(s.works[i], None);
    }
    forall i | 0 <= i < |s.cases| ensures T.CaseKept(s, next, s.cases[i], None, None) {
      CaseFound(s.cases, i);
      UntouchedCase(s, next, s.cases[i], None);
    }
    forall i | 0 <= i < |s.notes| ensures T.NoteKept(next, s.notes[i]) { NoteFound(s.notes, i); }
    assert T.SubmissionStep(s, next);
  }
}
