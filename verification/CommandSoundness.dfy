/** Every ordinary command that is accepted publishes a sound change. */
module CommandSoundness {
  import opened ControlTypes
  import opened Records
  import opened Publications
  import opened Invariant
  import opened Preservation
  import opened Ledger
  import opened Steps
  import T = Transition

  function CommandReceipt(s: Control, owner: ParentId, command: Command, entity: Subject, itemId: Id): Receipt {
    Receipt(owner, command.key, CommandRequest(owner, command), s.revision + 1, ActionOf(command), entity, itemId)
  }

  // ---------- works ----------

  predicate Registers(s: Control, owner: ParentId, command: Command, newId: Id, w: Work) {
    (command.RegisterTaskWork? || command.RegisterWork?) && Register(s, owner, command, newId) == Ok(w)
  }

  lemma RegisterSound(s: Control, owner: ParentId, command: Command, elected: bool, newId: Id, w: Work)
    requires Registers(s, owner, command, newId, w)
    requires RecordsOk(s) && LedgersFit(s) && Decodable(command)
    requires FreshIdentity(s, CommandOp(owner, command, elected, newId))
    ensures OrdinarySound(s, AddWork(w), CommandSchema(s, command, elected),
                          CommandReceipt(s, owner, command, Subject(WorkSubject, w.id), w.id))
  {
    hide WorksOk, CasesOk, NotesOk, CasesKnown, NotesKnown, IdsDisjoint, WorkspaceHeld, HasWork, HasCase, HasNote;
    assert FreshId(s, w.id);
    assert WorkOk(w, s.revision + 1);
  }

  lemma GrantHeld(w: Work, next: nat, parent: ParentId)
    requires HasCurrentGrant(w, parent)
    ensures GrantedAt(RestampGrants(w.grants.value, next), parent, next)
  {
    var k :| 0 <= k < |w.grants.value| && w.grants.value[k].recipient.parent == parent && w.grants.value[k].workRevision == w.revision;
    assert RestampGrants(w.grants.value, next)[k].recipient.parent == parent;
  }

  lemma {:induction false} StampedRegions(watchers: seq<Watcher>, next: nat)
    ensures RegionsWatched(StampWatches(watchers, next)) == WatchedRegions(watchers)
  {
    if watchers != [] {
      StampedRegions(watchers[1..], next);
      assert StampWatches(watchers, next)[1..] == StampWatches(watchers[1..], next);
    }
  }

  lemma StampedRecipients(recipients: seq<Recipient>, next: nat)
    ensures T.RecipientsOf(StampGrants(recipients, next)) == recipients
  {
  }

  lemma StampedWatchers(watchers: seq<Watcher>, next: nat)
    ensures T.WatchersOf(StampWatches(watchers, next)) == watchers
  {
  }

  /** A changed work keeps its facts and advances one revision, with its grants and watches restamped, and the change is
      the one the allowed-step relation reads off the receipt. */
  lemma ChangedWorkKeeps(w: Work, owner: ParentId, command: Command, revision: nat, schema: nat, next: Work, r: Receipt)
    requires IsWorkChange(command) && ChangedWork(w, owner, command) == Ok(next) && w.owner == owner && w.id == command.workId
    requires w.revision == command.expectedRevision && WorkOk(w, revision) && WorkFitsSchema(w, schema)
    requires r.owner == owner && r.key == command.key && r.request == CommandRequest(owner, command) && r.action == ActionOf(command) && r.itemId == next.id
    ensures WorkOk(next, revision + 1) && SameEnrollment(w, next) && next.id == w.id && next.managed == w.managed && T.WorkAllowed(w, next, Some(r))
    ensures next.revision == w.revision + 1 && (w.state == Closed ==> next.state == Closed)
    ensures WorkFitsSchema(next, if command.WatchSource? && schema < WATCH_SCHEMA then WATCH_SCHEMA
                                 else if command.GrantSource? && schema < GRANT_SCHEMA then GRANT_SCHEMA else schema)
  {
    if command.GrantSource? { StampedRecipients(command.recipients, w.revision + 1); }
    if command.WatchSource? {
      StampedWatchers(command.watchers, w.revision + 1);
      StampedRegions(command.watchers, w.revision + 1);
      forall k | 0 <= k < |command.watchers| && command.watchers[k].parent != owner
        ensures HasCurrentGrant(next, command.watchers[k].parent)
      {
        assert HasCurrentGrant(w, command.watchers[k].parent);
        GrantHeld(w, w.revision + 1, command.watchers[k].parent);
      }
    }
  }

  predicate ChangesWork(s: Control, owner: ParentId, command: Command, i: nat, w: Work) {
    IsWorkChange(command) && OwnWork(s, owner, command.workId, command.expectedRevision) == Ok(i) &&
    ChangedWork(s.works[i], owner, command) == Ok(w)
  }

  lemma WorkChangeSound(s: Control, owner: ParentId, command: Command, elected: bool, i: nat, w: Work)
    requires ChangesWork(s, owner, command, i, w)
    requires WorksOk(s.works, s.revision) && LedgersFit(s) && FieldsFit(s)
    ensures OrdinarySound(s, SetWork(i, w), CommandSchema(s, command, elected),
                          CommandReceipt(s, owner, command, Subject(WorkSubject, w.id), w.id))
  {
    hide WorksOk, WorkOk, FieldsFit, ChangedWork, OwnWork, T.WorkAllowed, WorkFitsSchema;
    var r := CommandReceipt(s, owner, command, Subject(WorkSubject, w.id), w.id);
    OwnedWork(s, owner, command, i);
    WorkFactsAt(s, i);
    ChangedWorkKeeps(s.works[i], owner, command, s.revision, s.schema, w, r);
  }

  lemma OwnedWork(s: Control, owner: ParentId, command: Command, i: nat)
    requires IsWorkChange(command) && OwnWork(s, owner, command.workId, command.expectedRevision) == Ok(i)
    ensures i < |s.works| && s.works[i].owner == owner && s.works[i].id == command.workId && s.works[i].revision == command.expectedRevision
  {
  }

  lemma WorkFactsAt(s: Control, i: nat)
    requires WorksOk(s.works, s.revision) && FieldsFit(s) && i < |s.works|
    ensures WorkOk(s.works[i], s.revision) && WorkFitsSchema(s.works[i], s.schema)
  {
    hide WorkOk, WorkFitsSchema;
  }

  // ---------- notes ----------

  predicate Posts(s: Control, owner: ParentId, command: Command, newId: Id, subject: Subject, n: Note) {
    command.PostNote? && command.subject == subject && PostedNote(s, owner, command, newId) == Ok(n)
  }

  lemma PostSound(s: Control, owner: ParentId, command: Command, elected: bool, newId: Id, subject: Subject, n: Note)
    requires Posts(s, owner, command, newId, subject, n)
    requires RecordsOk(s) && LedgersFit(s) && FieldsFit(s) && Decodable(command) && FreshId(s, newId)
    ensures OrdinarySound(s, AddNote(n), CommandSchema(s, command, elected), CommandReceipt(s, owner, command, subject, newId))
  {
    hide WorksOk, CasesOk, NotesOk, NotesKnown, IdsDisjoint, HasNote, KnownId, CanReadSelectedWork, CanReadCase, FreshId;
    PostedRefers(s, owner, command, newId, n);
    assert NoteOk(n);
    assert NoteFitsSchema(n, CommandSchema(s, command, elected));
  }

  lemma PostedRefers(s: Control, owner: ParentId, command: Command, newId: Id, n: Note)
    requires CasesKnown(s.works, s.cases) && FieldsFit(s) && command.PostNote? && PostedNote(s, owner, command, newId) == Ok(n)
    ensures NoteRefers(s.works, s.cases, n) && (command.subject.kind == CaseSubject ==> NoteFitsSchema(n, s.schema))
  {
    hide CanReadSelectedWork, CanReadCase;
    if command.subject.kind == CaseSubject {
      var item := s.cases[CaseIndex(s.cases, command.subject.id)];
      assert InputsKnown(s.works, item) && CaseFitsSchema(item, s.schema);
    }
  }

  predicate Answers(s: Control, owner: ParentId, command: Command, i: nat, n: Note) {
    (command.AckNote? || command.WithdrawNote?) && i < |s.notes| && AnsweredNote(s, owner, i, command.WithdrawNote?) == Ok(n)
  }

  /** Answering changes at most one acknowledgment or the withdrawal mark. */
  lemma AnswerSound(s: Control, owner: ParentId, command: Command, elected: bool, i: nat, n: Note)
    requires Answers(s, owner, command, i, n)
    requires NotesOk(s.notes) && LedgersFit(s) && FieldsFit(s)
    ensures OrdinarySound(s, SetNote(i, n), CommandSchema(s, command, elected), CommandReceipt(s, owner, command, n.subject, n.id))
  {
    hide NoteReadable, PeerRecords.PeerAckAllowed, WorksOk, CasesOk;
    assert NoteFitsSchema(s.notes[i], s.schema) && NoteOk(s.notes[i]);
  }

  // ---------- cases ----------

  predicate Claims(s: Control, owner: ParentId, command: Command, elected: bool, newId: Id, c: Case) {
    command.ClaimTarget? && !TargetHeld(s.cases, command.target) && c == ClaimedCase(s, owner, command, elected, newId)
  }

  lemma ClaimSound(s: Control, owner: ParentId, command: Command, elected: bool, newId: Id, c: Case)
    requires Claims(s, owner, command, elected, newId, c)
    requires RecordsOk(s) && LedgersFit(s) && Decodable(command) && FreshId(s, newId)
    ensures OrdinarySound(s, AddCase(c), CommandSchema(s, command, elected),
                          CommandReceipt(s, owner, command, Subject(CaseSubject, newId), newId))
  {
    hide WorksOk, NotesOk, CasesKnown, NotesKnown, IdsDisjoint, KnownId;
    ClaimedOk(s, owner, command, elected, newId);
    assert FitsCase(s, AddCase(c));
  }

  lemma ClaimedOk(s: Control, owner: ParentId, command: Command, elected: bool, newId: Id)
    requires CasesOk(s.cases, s.revision) && command.ClaimTarget? && Decodable(command)
    ensures CaseOk(ClaimedCase(s, owner, command, elected, newId), s.revision + 1)
  {
    WithoutDistinct(command.members, owner);
    var others := Without(command.members, owner);
    assert forall k :: 0 <= k < |others| ==> others[k] in others;
  }

  /** The lead's change keeps the case well formed, known and allowed, and never lowers its generation. */
  lemma ChangedCaseKeeps(s: Control, next: Control, item: Case, owner: ParentId, command: Command, elected: bool, c: Case, r: Receipt)
    requires IsCaseChange(command) && ChangedCase(s, item, owner, command, elected) == Ok(c) && item.state == Active && item.lead == owner
    requires CaseOk(item, s.revision) && InputsKnown(s.works, item) && CaseFitsSchema(item, s.schema) && r.action == ActionOf(command)
    ensures CaseOk(c, s.revision + 1) && InputsKnown(s.works, c) && CaseFitsSchema(c, s.schema) && T.CaseAllowed(s, next, item, c, Some(r))
    ensures c.id == item.id && c.target == item.target && c.revision == item.revision + 1 && item.generation <= c.generation <= item.generation + 1
  {
    hide CanReadCase, CanReadSelectedWork;
    if command.SelectInputs? {
      var m :| 0 <= m < |item.members| && item.members[m] == item.lead;
      forall k | 0 <= k < |c.inputs| ensures HasWork(s.works, c.inputs[k].workId) {
        assert VisibleWork(s, item.members[m], c.inputs[k].workId);
      }
    }
  }

  predicate ChangesCase(s: Control, owner: ParentId, command: Command, elected: bool, i: nat, c: Case) {
    IsCaseChange(command) && OwnCase(s, owner, command.caseId, command.expectedRevision, command.generation) == Ok(i) &&
    ChangedCase(s, s.cases[i], owner, command, elected) == Ok(c)
  }

  lemma CaseChangeSound(s: Control, owner: ParentId, command: Command, elected: bool, i: nat, c: Case)
    requires ChangesCase(s, owner, command, elected, i, c)
    requires CasesOk(s.cases, s.revision) && CasesKnown(s.works, s.cases) && LedgersFit(s) && FieldsFit(s)
    ensures OrdinarySound(s, SetCase(i, c), CommandSchema(s, command, elected),
                          CommandReceipt(s, owner, command, Subject(CaseSubject, c.id), c.id))
  {
    hide CasesOk, FieldsFit, ChangedCase, CasesKnown, InputsKnown, T.CaseAllowed, CaseFitsSchema;
    var r := CommandReceipt(s, owner, command, Subject(CaseSubject, c.id), c.id);
    CaseFactsAt(s, i);
    ChangedCaseKeeps(s, Publish(s, Ordinary(SetCase(i, c), CommandSchema(s, command, elected), r)), s.cases[i], owner, command, elected, c, r);
  }

  lemma CaseFactsAt(s: Control, i: nat)
    requires CasesOk(s.cases, s.revision) && CasesKnown(s.works, s.cases) && FieldsFit(s) && i < |s.cases|
    ensures CaseOk(s.cases[i], s.revision) && InputsKnown(s.works, s.cases[i]) && CaseFitsSchema(s.cases[i], s.schema)
  {
    hide CaseOk, InputsKnown, CaseFitsSchema;
  }

  // ---------- any command ----------

  /** The receipt names the command it answers. */
  predicate SaysCommand(p: Publication, owner: ParentId, command: Command) {
    match p
    case Ordinary(_, _, r) => r.action == ActionOf(command) && r.request == CommandRequest(owner, command)
    case _ => false
  }

  /** An accepted command publishes a sound change under a key no ledger holds. */
  lemma CommandSound(s: Control, owner: ParentId, command: Command, elected: bool, newId: Id, p: Publication)
    requires RecordsOk(s) && LedgersFit(s) && FieldsFit(s)
    requires FreshIdentity(s, CommandOp(owner, command, elected, newId)) && Decodable(command)
    requires CommandBody(s, owner, command, elected, newId) == Ok(p)
    ensures SoundUnder(s, p, owner, command.key) && SaysCommand(p, owner, command)
  {
    hide RecordsOk, WorksOk, CasesOk, NotesOk, CasesKnown, LedgersFit, FieldsFit, OrdinarySound, FreshIdentity, FreshId, Decodable,
         CommandAdmitted, CommandSchema, ActionOf, CanReadSelectedWork, CanReadCase, NoteReadable, Register, OwnWork, ChangedWork, PostedNote,
         AnsweredNote, TargetHeld, ClaimedCase, OwnCase, ChangedCase;
    CommandParts(s);
    var x := Apply(s, owner, command, elected, newId).value;
    if command.RegisterTaskWork? || command.RegisterWork? {
      RegisterSound(s, owner, command, elected, newId, x.change.work);
    } else if IsWorkChange(command) {
      WorkChangeSound(s, owner, command, elected, x.change.index, x.change.work);
    } else if command.PostNote? {
      FreshCommand(s, owner, command, elected, newId);
      PostSound(s, owner, command, elected, newId, command.subject, x.change.note);
    } else if command.AckNote? || command.WithdrawNote? {
      AnswerSound(s, owner, command, elected, x.change.index, x.change.note);
    } else if command.ClaimTarget? {
      FreshCommand(s, owner, command, elected, newId);
      ClaimSound(s, owner, command, elected, newId, x.change.item);
    } else {
      CaseChangeSound(s, owner, command, elected, x.change.index, x.change.item);
    }
  }

  lemma CommandParts(s: Control)
    requires RecordsOk(s)
    ensures WorksOk(s.works, s.revision) && CasesOk(s.cases, s.revision) && NotesOk(s.notes) && CasesKnown(s.works, s.cases)
  {
  }

  lemma FreshCommand(s: Control, owner: ParentId, command: Command, elected: bool, newId: Id)
    requires FreshIdentity(s, CommandOp(owner, command, elected, newId)) && !command.RegisterTaskWork?
    ensures FreshId(s, newId)
  {
  }
}
