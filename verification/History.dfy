/** The three ledgers read as one history: every publication adds exactly one entry, its revision is
    the next one, and its key is new. */
module History {
  import opened ControlTypes
  import opened Records
  import opened Publications
  import opened Invariant
  import opened Preservation
  import Ledger

  function EntryRevision(p: Publication): nat {
    match p
    case Ordinary(_, _, r) => r.revision
    case Recovering(_, _, r) => r.revision
    case Submitting(_, _, _, e) => e.revision
  }

  function EntryKey(p: Publication): OwnedKey {
    match p
    case Ordinary(_, _, r) => OwnedKey(r.owner, r.key)
    case Recovering(_, _, r) => OwnedKey(r.operator, r.recovery.key)
    case Submitting(_, _, _, e) => OwnedKey(e.owner, e.key)
  }

  /** Some ledger already holds an entry under this owner's key. */
  predicate KeyUsed(s: Control, k: OwnedKey) {
    ReceiptKeyUsed(s.receipts, k.owner, k.key) || RecoveryKeyUsed(s.recoveries, k.owner, k.key) || EventKeyUsed(s.events, k.owner, k.key)
  }

  // ---------- revisions ----------

  lemma RevisionsGrow(s: Control, p: Publication)
    ensures Revisions(Publish(s, p)) == Revisions(s) + multiset{EntryRevision(p)}
  {
    var t := Publish(s, p);
    match p
    case Ordinary(_, _, r) => assert ReceiptRevisions(t.receipts) == ReceiptRevisions(s.receipts) + [r.revision];
    case Recovering(_, _, r) => assert RecoveryRevisions(t.recoveries) == RecoveryRevisions(s.recoveries) + [r.revision];
    case Submitting(_, _, _, e) => assert EventRevisions(t.events) == EventRevisions(s.events) + [e.revision];
  }

  /** The ledgers keep holding exactly the revisions from 1 to the current one. */
  lemma HistoryKept(s: Control, p: Publication)
    requires HistoryExact(s) && EntryRevision(p) == s.revision + 1
    ensures HistoryExact(Publish(s, p))
  {
    RevisionsGrow(s, p);
    assert UpTo(s.revision + 1) == UpTo(s.revision) + [s.revision + 1];
  }

  lemma CountedOnce(n: nat, x: nat)
    ensures multiset(UpTo(n))[x] == (if 1 <= x <= n then 1 else 0)
  {
    if n > 0 {
      CountedOnce(n - 1, x);
      assert UpTo(n) == UpTo(n - 1) + [n];
    }
  }

  /** Each revision is acknowledged exactly once, and none beyond the current one. */
  lemma EveryRevisionOnce(s: Control, x: nat)
    requires HistoryExact(s)
    ensures Revisions(s)[x] == (if 1 <= x <= s.revision then 1 else 0)
    ensures |s.receipts| + |s.recoveries| + |s.events| == s.revision
  {
    CountedOnce(s.revision, x);
    assert |Revisions(s)| == |s.receipts| + |s.recoveries| + |s.events|;
  }

  // ---------- keys ----------

  lemma KeyCounted(s: Control, k: OwnedKey)
    ensures Keys(s)[k] > 0 <==> KeyUsed(s, k)
  {
    var a, b, c := ReceiptKeys(s.receipts), RecoveryKeys(s.recoveries), EventKeys(s.events);
    assert k in a <==> ReceiptKeyUsed(s.receipts, k.owner, k.key);
    assert k in b <==> RecoveryKeyUsed(s.recoveries, k.owner, k.key);
    assert k in c <==> EventKeyUsed(s.events, k.owner, k.key);
  }

  lemma KeysGrow(s: Control, p: Publication)
    ensures Keys(Publish(s, p)) == Keys(s) + multiset{EntryKey(p)}
  {
    var t := Publish(s, p);
    match p
    case Ordinary(_, _, _) => assert ReceiptKeys(t.receipts) == ReceiptKeys(s.receipts) + [EntryKey(p)];
    case Recovering(_, _, _) => assert RecoveryKeys(t.recoveries) == RecoveryKeys(s.recoveries) + [EntryKey(p)];
    case Submitting(_, _, _, _) => assert EventKeys(t.events) == EventKeys(s.events) + [EntryKey(p)];
  }

  /** A publication keeps keys unique exactly when no ledger already holds its key. */
  lemma KeysKept(s: Control, p: Publication)
    requires KeysOnce(s)
    ensures KeysOnce(Publish(s, p)) <==> !KeyUsed(s, EntryKey(p))
  {
    KeysGrow(s, p);
    KeyCounted(s, EntryKey(p));
    if KeyUsed(s, EntryKey(p)) {
      assert Keys(Publish(s, p))[EntryKey(p)] > 1;
    }
  }

  // ---------- what entries refer to ----------

  lemma RefersStill(s: Control, ch: Change, r: Receipt)
    requires Fits(s, ch) && KnownId(s.works, s.cases, s.notes, r.itemId) && SubjectKnown(s.works, s.cases, r.entity)
    ensures KnownId(WorksAfter(s.works, ch), CasesAfter(s.cases, ch), NotesAfter(s.notes, ch), r.itemId)
    ensures SubjectKnown(WorksAfter(s.works, ch), CasesAfter(s.cases, ch), r.entity)
  {
    FitsKeepsIds(s, ch);
    SubjectStillKnown(s, ch, r.entity);
    if HasWork(s.works, r.itemId) { WorkKnownAfter(s.works, ch, r.itemId); }
    else if HasCase(s.cases, r.itemId) { CaseKnownAfter(s.cases, ch, r.itemId); }
    else { NoteKnownAfter(s.notes, ch, r.itemId); }
  }

  lemma ReceiptsReferStill(s: Control, ch: Change)
    requires Fits(s, ch) && LedgersRefer(s)
    ensures forall i :: 0 <= i < |s.receipts| ==>
              KnownId(WorksAfter(s.works, ch), CasesAfter(s.cases, ch), NotesAfter(s.notes, ch), s.receipts[i].itemId) &&
              SubjectKnown(WorksAfter(s.works, ch), CasesAfter(s.cases, ch), s.receipts[i].entity)
  {
    hide HasWork, HasCase, HasNote, SubjectKnown, KnownId, Fits;
    forall i | 0 <= i < |s.receipts|
      ensures KnownId(WorksAfter(s.works, ch), CasesAfter(s.cases, ch), NotesAfter(s.notes, ch), s.receipts[i].itemId)
      ensures SubjectKnown(WorksAfter(s.works, ch), CasesAfter(s.cases, ch), s.receipts[i].entity)
    {
      assert ReceiptRefers(s, s.receipts[i]);
      RefersStill(s, ch, s.receipts[i]);
    }
  }

  lemma RecoveriesReferStill(s: Control, ch: Change, t: Control)
    requires Fits(s, ch) && LedgersRefer(s)
    requires t.works == WorksAfter(s.works, ch) && t.cases == CasesAfter(s.cases, ch) && t.epoch == s.epoch
    ensures forall i :: 0 <= i < |s.recoveries| ==> RecoveryRefers(t, s.recoveries[i])
  {
    FitsKeepsIds(s, ch);
    forall i | 0 <= i < |s.recoveries| ensures RecoveryRefers(t, s.recoveries[i]) {
      var r := s.recoveries[i];
      assert RecoveryRefers(s, r);
      if Ledger.TouchesWork(r.recovery.action) { WorkKnownAfter(s.works, ch, r.recovery.itemId); }
      else { CaseKnownAfter(s.cases, ch, r.recovery.itemId); }
    }
  }

  /** The entity an ordinary entry names is the one its change touched. */
  predicate EntryRefers(s: Control, ch: Change, r: Receipt) {
    match ch
    case AddWork(w) => r.itemId == w.id && r.entity == Subject(WorkSubject, w.id)
    case SetWork(_, w) => r.itemId == w.id && r.entity == Subject(WorkSubject, w.id)
    case AddCase(c) => r.itemId == c.id && r.entity == Subject(CaseSubject, c.id)
    case SetCase(_, c) => r.itemId == c.id && r.entity == Subject(CaseSubject, c.id)
    case AddNote(n) => r.itemId == n.id && r.entity == n.subject
    case SetNote(_, n) => r.itemId == n.id && r.entity == n.subject
  }

  lemma PresentWork(ws: seq<Work>, i: nat)
    requires i < |ws|
    ensures HasWork(ws, ws[i].id)
  {
  }

  lemma PresentCase(cs: seq<Case>, i: nat)
    requires i < |cs|
    ensures HasCase(cs, cs[i].id)
  {
  }

  lemma PresentNote(ns: seq<Note>, i: nat)
    requires i < |ns|
    ensures HasNote(ns, ns[i].id)
  {
  }

  lemma NewEntryRefers(s: Control, ch: Change, r: Receipt)
    requires Fits(s, ch) && EntryRefers(s, ch, r) && NotesKnown(s.works, s.cases, s.notes)
    ensures KnownId(WorksAfter(s.works, ch), CasesAfter(s.cases, ch), NotesAfter(s.notes, ch), r.itemId)
    ensures SubjectKnown(WorksAfter(s.works, ch), CasesAfter(s.cases, ch), r.entity)
  {
    hide HasWork, HasCase, HasNote;
    FitsKeepsIds(s, ch);
    match ch
    case AddWork(w) => PresentWork(WorksAfter(s.works, ch), |s.works|);
    case SetWork(i, w) => PresentWork(WorksAfter(s.works, ch), i);
    case AddCase(c) => PresentCase(CasesAfter(s.cases, ch), |s.cases|);
    case SetCase(i, c) => PresentCase(CasesAfter(s.cases, ch), i);
    case AddNote(n) => PresentNote(NotesAfter(s.notes, ch), |s.notes|);
    case SetNote(i, n) =>
      PresentNote(NotesAfter(s.notes, ch), i);
      assert NoteRefers(s.works, s.cases, s.notes[i]);
  }

  /** Ledger entries keep naming retained records across an ordinary publication. */
  lemma OrdinaryRefers(s: Control, ch: Change, schema: nat, r: Receipt)
    requires LedgersRefer(s) && Fits(s, ch) && EntryRefers(s, ch, r) && NotesKnown(s.works, s.cases, s.notes)
    ensures LedgersRefer(Publish(s, Ordinary(ch, schema, r)))
  {
    hide HasWork, HasCase, HasNote, SubjectKnown, KnownId, Fits, RecoveryRefers;
    var t := Publish(s, Ordinary(ch, schema, r));
    ReceiptsReferStill(s, ch);
    RecoveriesReferStill(s, ch, t);
    NewEntryRefers(s, ch, r);
  }

  predicate RecoveryFits(s: Control, ch: Change, r: RecoveryReceipt) {
    r.recovery.epoch == s.epoch && r.recovery.expectedRevision <= s.revision && r.revision == s.revision + 1 &&
    (if Ledger.TouchesWork(r.recovery.action) then ch.SetWork? && HasWork(s.works, r.recovery.itemId)
     else ch.SetCase? && HasCase(s.cases, r.recovery.itemId) && Ledger.ActionGeneration(r.recovery.action) <= s.revision)
  }

  lemma RecoveringRefers(s: Control, ch: Change, schema: nat, r: RecoveryReceipt)
    requires LedgersRefer(s) && Fits(s, ch) && RecoveryFits(s, ch, r)
    ensures LedgersRefer(Publish(s, Recovering(ch, schema, r)))
  {
    var t := Publish(s, Recovering(ch, schema, r));
    hide HasWork, HasCase, HasNote, SubjectKnown, KnownId, Fits;
    ReceiptsReferStill(s, ch);
    RecoveriesReferStill(s, ch, t);
    FitsKeepsIds(s, ch);
    if Ledger.TouchesWork(r.recovery.action) { WorkKnownAfter(s.works, ch, r.recovery.itemId); }
    else { CaseKnownAfter(s.cases, ch, r.recovery.itemId); }
  }
}
