/** Extensions, delivery observations, worker operations, applications and recoveries publish sound changes. */
module OperationSoundness {
  import opened ControlTypes
  import opened Records
  import opened Publications
  import opened Invariant
  import opened Preservation
  import opened History
  import opened Retention
  import opened Licences
  import opened Ledger
  import opened Steps
  import PeerRecords
  import T = Transition

  /** Acknowledging a change that keeps the version adds nothing to check but the change itself. */
  lemma PlainSound(s: Control, ch: Change, r: Receipt)
    requires LedgersFit(s) && r.revision == s.revision + 1 && Fits(s, ch) && EntryRefers(s, ch, r) && NoteLicensed(s, ch)
    requires ChangeFitsSchema(ch, s.schema) && !ch.AddWork? && r.action != ActRegisterTaskWork && !SourceAction(r.action)
    requires CaseAction(r.action) ==> ch.SetCase? && r.itemId == ch.item.id && s.schema == OBSERVED_SCHEMA
    requires ch.SetCase? && ch.index < |s.cases| ==> T.CaseAllowed(s, Publish(s, Ordinary(ch, s.schema, r)), s.cases[ch.index], ch.item, Some(r))
    requires !ch.SetWork?
    ensures OrdinarySound(s, ch, s.schema, r)
  {
    hide Fits, NoteLicensed, ChangeFitsSchema, T.CaseAllowed;
  }

  // ---------- extension ----------

  lemma LastAppended<X>(xs: seq<X>, x: X)
    ensures xs + [x] != [] && T.Last(xs + [x]) == x
  {
  }

  lemma ManagedAll(ws: seq<Work>, item: Case, added: Work, c: Case)
    requires UniqueWorks(ws) && added in ws && added.managed.Some?
    requires forall k :: 0 <= k < |item.inputs| ==> CompatibleSource(added, ws, item.inputs[k].workId)
    requires c.inputs == item.inputs + [Selection(added.id, added.inputOid)]
    ensures HasWork(ws, added.id) && ws[WorkIndex(ws, added.id)] == added
    ensures forall k :: 0 <= k < |c.inputs| ==>
              HasWork(ws, c.inputs[k].workId) && ws[WorkIndex(ws, c.inputs[k].workId)].managed.Some?
  {
    var i :| 0 <= i < |ws| && ws[i] == added;
    WorkFound(ws, i);
  }

  lemma ExtendedShape(ws: seq<Work>, item: Case, added: Work)
    requires HasWork(ws, added.id) && ws[WorkIndex(ws, added.id)].managed.Some?
    requires forall k :: 0 <= k < |item.inputs| ==> HasWork(ws, item.inputs[k].workId) && ws[WorkIndex(ws, item.inputs[k].workId)].managed.Some?
    requires CaseOk(item, 0 + item.revision + item.generation) && item.targetOid.Some? && item.effect == NotStarted && item.origin == Some(SelectedOrigin)
    ensures InputsKnown(ws, ExtendedCase(ws, item, added))
    ensures Distinct(ExtendedCase(ws, item, added).members) && item.lead in ExtendedCase(ws, item, added).members
  {
    hide DeltaFor;
  }

  lemma ExtensionOk(s: Control, i: nat, added: Work, c: Case)
    requires CasesOk(s.cases, s.revision) && i < |s.cases| && s.cases[i].state == Active
    requires s.cases[i].targetOid.Some? && s.cases[i].effect == NotStarted && s.cases[i].origin == Some(SelectedOrigin)
    requires HasWork(s.works, added.id) && s.works[WorkIndex(s.works, added.id)].managed.Some?
    requires forall k :: 0 <= k < |s.cases[i].inputs| ==>
               HasWork(s.works, s.cases[i].inputs[k].workId) && s.works[WorkIndex(s.works, s.cases[i].inputs[k].workId)].managed.Some?
    requires c == ExtendedCase(s.works, s.cases[i], added)
    ensures Fits(s, SetCase(i, c))
  {
    var item := s.cases[i];
    assert CaseOk(item, s.revision);
    ExtendedShape(s.works, item, added);
    hide Fenced, DeltaFor, CasesOk, InputsKnown;
  }

  lemma ExtensionLicensed(s: Control, next: Control, i: nat, added: Work, c: Case, owner: ParentId, key: Key, x: Extension, r: Receipt)
    requires i < |s.cases| && next.works == s.works && next.notes == s.notes
    requires var item := s.cases[i];
             item.state == Active && item.effect == NotStarted && item.origin == Some(SelectedOrigin) && item.lead == owner &&
             item.id == x.caseId && item.revision == x.expectedRevision && item.generation == x.generation &&
             item.targetOid == Some(x.targetOid) && added.id == x.newWorkId && !Selects(item, x.newWorkId)
    requires HasWork(s.works, added.id) && s.works[WorkIndex(s.works, added.id)] == added && added.managed.Some?
    requires forall k :: 0 <= k < |s.cases[i].inputs| ==>
               HasWork(s.works, s.cases[i].inputs[k].workId) && s.works[WorkIndex(s.works, s.cases[i].inputs[k].workId)].managed.Some?
    requires c == ExtendedCase(s.works, s.cases[i], added)
    requires r.owner == owner && r.key == key && r.request == ExtensionRequest(owner, key, x) && r.action == ActExtendCase && r.itemId == c.id
    ensures T.CaseAllowed(s, next, s.cases[i], c, Some(r))
  {
    var item := s.cases[i];
    LastAppended(item.inputs, Selection(added.id, added.inputOid));
    assert T.CaseAdvances(item, c, true, false);
    hide DeltaFor, Selects;
    assert T.Last(c.inputs) == Selection(added.id, added.inputOid);
    var members := AddMember(item.members, added.owner);
    assert forall k :: 0 <= k < |c.inputs| ==> HasWork(next.works, c.inputs[k].workId) && next.works[WorkIndex(next.works, c.inputs[k].workId)].managed.Some?;
    assert c.visibility.value == seq(|c.inputs|, k requires 0 <= k < |c.inputs| => DeltaFor(next.works, c.inputs[k].workId, members));
    assert T.ExtensionAllowed(s, next, item, c, r);
  }

  lemma ExtendSound(s: Control, owner: ParentId, key: Key, x: Extension, p: Publication)
    requires RecordsOk(s) && LedgersFit(s) && FieldsFit(s) && ExtendBody(s, owner, key, x) == Ok(p)
    ensures SoundUnder(s, p, owner, key)
  {
    hide HasApplicationNote, VisibleWork, Selects, CaseOk, Fenced, UniqueWorks, OneWriter, WorkOk, NotesOk, CasesKnown, NotesKnown, IdsDisjoint,
         Fits, OrdinarySound, ExtendedCase, LedgersFit, CompatibleSource, T.CaseAllowed, CaseFitsSchema, WorkFitsSchema, NoteFitsSchema;
    var i := p.change.index;
    var item := s.cases[i];
    var added := s.works[WorkIndex(s.works, x.newWorkId)];
    ManagedAll(s.works, item, added, item.(inputs := item.inputs + [Selection(added.id, added.inputOid)]));
    assert forall k :: 0 <= k < |item.inputs| ==> HasWork(s.works, item.inputs[k].workId) && s.works[WorkIndex(s.works, item.inputs[k].workId)].managed.Some? by {
      CompatibleManaged(s.works, item, added);
    }
    var c := ExtendedCase(s.works, item, added);
    assert p.change == SetCase(i, c);
    ExtensionOk(s, i, added, c);
    ExtendedIdentity(s.works, item, added);
    ObservedVersion(s, i);
    ExtensionLicensed(s, Publish(s, p), i, added, c, owner, key, x, p.receipt);
    assert CaseFitsSchema(c, s.schema) by { FullSchemaFits(c); }
    PlainSound(s, p.change, p.receipt);
  }

  lemma CompatibleManaged(ws: seq<Work>, item: Case, added: Work)
    requires forall k :: 0 <= k < |item.inputs| ==> CompatibleSource(added, ws, item.inputs[k].workId)
    ensures forall k :: 0 <= k < |item.inputs| ==> HasWork(ws, item.inputs[k].workId) && ws[WorkIndex(ws, item.inputs[k].workId)].managed.Some?
  {
  }

  lemma ExtendedIdentity(ws: seq<Work>, item: Case, added: Work)
    requires HasWork(ws, added.id) && ws[WorkIndex(ws, added.id)].managed.Some?
    requires forall k :: 0 <= k < |item.inputs| ==> HasWork(ws, item.inputs[k].workId) && ws[WorkIndex(ws, item.inputs[k].workId)].managed.Some?
    ensures ExtendedCase(ws, item, added).id == item.id
  {
  }

  /** A case with an observed origin only exists in the newest storage version. */
  lemma ObservedVersion(s: Control, i: nat)
    requires LedgersFit(s) && FieldsFit(s) && i < |s.cases| && s.cases[i].origin.Some?
    ensures s.schema == OBSERVED_SCHEMA
  {
    assert CaseFitsSchema(s.cases[i], s.schema);
  }

  lemma FullSchemaFits(c: Case)
    ensures CaseFitsSchema(c, OBSERVED_SCHEMA)
  {
  }

  // ---------- delivery observation ----------

  lemma ObserveSound(s: Control, owner: ParentId, key: Key, o: Observation, p: Publication)
    requires RecordsOk(s) && LedgersFit(s) && FieldsFit(s) && ObserveBody(s, owner, key, o) == Ok(p)
    ensures SoundUnder(s, p, owner, key)
  {
    hide UniqueWorks, OneWriter, WorkOk, NotesOk, NotesKnown, IdsDisjoint, OrdinarySound, T.CaseAllowed, LedgersFit,
         WorkFitsSchema, NoteFitsSchema, CaseFitsSchema, HasWork, Fits, CaseOk, Fenced;
    var i := p.change.index;
    ObservedVersion(s, i);
    ObservedFits(s, i, p.change.item);
    ObservedAllowed(s, Publish(s, p), s.cases[i], p.change.item, owner, key, o, p.receipt);
    FullSchemaFits(p.change.item);
    PlainSound(s, p.change, p.receipt);
  }

  lemma ObservedFits(s: Control, i: nat, c: Case)
    requires CasesOk(s.cases, s.revision) && CasesKnown(s.works, s.cases) && i < |s.cases| && s.cases[i].state == Active
    requires c == s.cases[i].(pending := c.pending, observed := c.observed)
    ensures Fits(s, SetCase(i, c))
  {
    assert CaseOk(s.cases[i], s.revision) && InputsKnown(s.works, s.cases[i]);
  }

  lemma ObservedAllowed(s: Control, next: Control, item: Case, c: Case, owner: ParentId, key: Key, o: Observation, r: Receipt)
    requires next.works == s.works && next.notes == s.notes && item.state == Active && item.lead == owner && item.id == o.caseId
    requires item.revision == o.caseRevision && item.generation == o.generation && item.origin == Some(SelectedOrigin)
    requires item.pending.Some? && o.recipientWorkId in item.pending.value
    requires c == item.(pending := Some(Without(item.pending.value, o.recipientWorkId)),
                        observed := Some(T.ListOf(item.observed) + [Observed(o.recipientWorkId, o.digest)]))
    requires r.owner == owner && r.key == key && r.request == ObservationRequest(owner, key, o) && r.action == ActObserveDelivery && r.itemId == item.id
    ensures T.CaseAllowed(s, next, item, c, Some(r))
  {
    LastAppended(T.ListOf(item.observed), Observed(o.recipientWorkId, o.digest));
  }

  // ---------- workers and applications ----------

  lemma CaseNoteFits(s: Control, c: nat, author: ParentId, kind: NoteKind, record: PeerRecord, bytes: nat, parties: seq<Party>, newId: Id)
    requires CasesKnown(s.works, s.cases) && FieldsFit(s) && c < |s.cases| && FreshId(s, newId)
    requires kind == AgreementProposal <==> parties != []
    ensures var n := CaseNote(s.cases[c], author, kind, record, bytes, parties, newId);
            Fits(s, AddNote(n)) && NoteFitsSchema(n, s.schema)
  {
    hide HasWork, HasNote, KnownId;
    assert InputsKnown(s.works, s.cases[c]) && CaseFitsSchema(s.cases[c], s.schema);
    PresentCase(s.cases, c);
  }

  lemma PostedCaseNoteSound(s: Control, c: nat, n: Note, r: Receipt)
    requires LedgersFit(s) && Fits(s, AddNote(n)) && NoteFitsSchema(n, s.schema)
    requires r.revision == s.revision + 1 && r.action == ActPostNote && r.itemId == n.id && r.entity == n.subject
    ensures OrdinarySound(s, AddNote(n), s.schema, r)
  {
    hide Fits, NoteFitsSchema;
    PlainSound(s, AddNote(n), r);
  }

  lemma ChangedNoteSound(s: Control, i: nat, n: Note, r: Receipt)
    requires LedgersFit(s) && FieldsFit(s) && NotesOk(s.notes) && i < |s.notes|
    requires n.(acknowledged := s.notes[i].acknowledged, withdrawn := s.notes[i].withdrawn) == s.notes[i]
    requires s.notes[i].withdrawn ==> n.withdrawn
    requires n.acknowledged == s.notes[i].acknowledged ||
             exists p :: p in n.parties && p !in s.notes[i].acknowledged && n.acknowledged == s.notes[i].acknowledged + [p]
    requires r.revision == s.revision + 1 && (r.action == ActAckNote || r.action == ActWithdrawNote) && r.itemId == n.id && r.entity == n.subject
    ensures OrdinarySound(s, SetNote(i, n), s.schema, r)
  {
    assert NoteOk(s.notes[i]) && NoteFitsSchema(s.notes[i], s.schema);
    assert NoteOk(n);
    hide NoteOk, NotesOk, FieldsFit;
    PlainSound(s, SetNote(i, n), r);
  }

  lemma WorkerSound(s: Control, actor: WorkerActor, key: Key, operation: WorkerOperation, bytes: nat, newId: Id, p: Publication)
    requires RecordsOk(s) && LedgersFit(s) && FieldsFit(s) && FreshId(s, newId)
    requires WorkerBody(s, actor, key, operation, bytes, newId) == Ok(p)
    ensures SoundUnder(s, p, actor.owner, key)
  {
    hide WorkerCase, PeerRecords.WorkerParties, PeerRecords.PeerPostAllowed, PeerRecords.PeerAckAllowed, WorkerNote, PostedByRun,
         FreshId, LedgersFit, FieldsFit, OrdinarySound, NotesOk, WorksOk, CasesOk, CasesKnown, NotesKnown, IdsDisjoint, Fits, NoteFitsSchema;
    var c := WorkerCase(s, actor).value;
    if operation.WorkerPropose? {
      var parties := PeerRecords.WorkerParties(s.works, s.cases[c]).value;
      CaseNoteFits(s, c, actor.owner, AgreementProposal, operation.proposal, bytes, parties, newId);
      PostedCaseNoteSound(s, c, p.change.note, p.receipt);
    } else {
      var i := p.change.index;
      if operation.WorkerAcknowledge? {
        assert ActorPrincipal(actor) in p.change.note.parties;
      }
      ChangedNoteSound(s, i, p.change.note, p.receipt);
    }
  }

  lemma ApplicationSound(s: Control, actor: WorkerActor, c: nat, key: Key, noteId: Id, record: PeerRecord, bytes: nat, newId: Id)
    requires RecordsOk(s) && LedgersFit(s) && FieldsFit(s) && FreshId(s, newId) && c < |s.cases|
    ensures SoundUnder(s, ApplicationPosted(s, actor, s.cases[c], key, noteId, record, bytes, newId), actor.owner, key)
  {
    hide FreshId, LedgersFit, FieldsFit, OrdinarySound, NotesOk, WorksOk, CasesOk, CasesKnown, NotesKnown, IdsDisjoint, Fits, NoteFitsSchema;
    CaseNoteFits(s, c, actor.owner, ResolutionUpdate, record, bytes, [], newId);
    var p := ApplicationPosted(s, actor, s.cases[c], key, noteId, record, bytes, newId);
    PostedCaseNoteSound(s, c, p.change.note, p.receipt);
  }

  // ---------- recovery ----------

  lemma RecoveredWorkOk(w: Work, r: Recovery, revision: nat, schema: nat, next: Work)
    requires TouchesWork(r.action) && RecoveredWork(w, r) == Ok(next) && WorkOk(w, revision) && WorkFitsSchema(w, schema)
    ensures WorkOk(next, revision + 1) && SameEnrollment(w, next) && WorkFitsSchema(next, RecoverySchema(schema))
    ensures T.WorkRecoverable(w, r) && next == T.RecoveredAs(w, r) && w.revision == r.expectedRevision && w.revision <= revision
    ensures next.revision == w.revision + 1 && (w.state == Closed ==> next.state == Closed)
  {
  }

  lemma RecoveredCaseOk(s: Control, item: Case, r: Recovery, next: Case)
    requires !TouchesWork(r.action) && RecoveredCase(s, item, r) == Ok(next) && CaseOk(item, s.revision) && InputsKnown(s.works, item)
    requires CaseFitsSchema(item, s.schema)
    ensures CaseOk(next, s.revision + 1) && InputsKnown(s.works, next) && CaseFitsSchema(next, RecoverySchema(s.schema))
    ensures next.id == item.id && next.target == item.target && item.generation <= next.generation <= item.generation + 1
    ensures item.state == Active && item.revision == r.expectedRevision <= s.revision && item.generation == ActionGeneration(r.action) <= s.revision
    ensures T.CaseRecoverable(item, r) && next == T.RecoveredCaseAs(item, r)
  {
    hide VisibleWork;
  }

  lemma RecoverSound(s: Control, operator: ParentId, r: Recovery, p: Publication)
    requires RecordsOk(s) && LedgersFit(s) && FieldsFit(s) && RecoverStep(s, operator, r) == Candidate(p)
    ensures SoundRecovery(s, p, operator, r)
  {
    hide NotesOk, NotesKnown, IdsDisjoint, UniqueWorks, UniqueCases, OneWriter, Fenced, FitsNote, WorkOk, CaseOk, InputsKnown, RecoveredWork,
         RecoveredCase, T.WorkRecoverable, T.RecoveredAs, T.CaseRecoverable, T.RecoveredCaseAs, WorkFitsSchema, CaseFitsSchema, NoteFitsSchema;
    var i := p.change.index;
    if TouchesWork(r.action) {
      assert WorkOk(s.works[i], s.revision) && WorkFitsSchema(s.works[i], s.schema);
      RecoveredWorkOk(s.works[i], r, s.revision, s.schema, p.change.work);
    } else {
      assert CaseOk(s.cases[i], s.revision) && InputsKnown(s.works, s.cases[i]) && CaseFitsSchema(s.cases[i], s.schema);
      RecoveredCaseOk(s, s.cases[i], r, p.change.item);
    }
  }
}
