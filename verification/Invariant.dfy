/** The representation invariant a stored control record must satisfy to be decoded again.
    Every clause here is one the operations maintain by themselves. */
module Invariant {
  import opened ControlTypes
  import opened Records
  import Ledger

  // ---------- works ----------

  /** Grants are stamped with the current revision of an active work and never name its owner. */
  predicate GrantsOk(w: Work) {
    w.grants.Some? ==>
      forall k :: 0 <= k < |w.grants.value| ==>
        w.grants.value[k].recipient.parent != w.owner && w.grants.value[k].workRevision == w.revision && w.state == Active
  }

  /** Watches are stamped with the current revision and watched only by the owner or a current grantee. */
  predicate WatchesOk(w: Work) {
    w.watches.Some? ==>
      forall k :: 0 <= k < |w.watches.value| ==>
        w.watches.value[k].workRevision == w.revision && w.state == Active &&
        (w.watches.value[k].watcher.parent == w.owner || Ledger.HasCurrentGrant(w, w.watches.value[k].watcher.parent))
  }

  function RegionsWatched(watches: seq<Watch>): nat {
    if watches == [] then 0 else |watches[0].watcher.regions| + RegionsWatched(watches[1..])
  }

  /** The watches of one work stay within the region inventory. */
  predicate InventoryOk(w: Work) {
    w.watches.Some? ==> RegionsWatched(w.watches.value) <= MAX_REGIONS
  }

  /** A managed work is named after its task, and has areas only if its task declared them. */
  predicate AttributionOk(w: Work) {
    w.managed.Some? ==> w.id == w.managed.value.taskId && (w.managed.value.areasDeclared || w.areas == [])
  }

  predicate WorkOk(w: Work, revision: nat) {
    1 <= w.revision <= revision && w.owner !in w.readers && GrantsOk(w) && WatchesOk(w) && InventoryOk(w) && AttributionOk(w)
  }

  predicate UniqueWorks(ws: seq<Work>) {
    forall i, j :: 0 <= i < j < |ws| ==> ws[i].id != ws[j].id
  }

  /** One active work per physical workspace. */
  predicate OneWriter(ws: seq<Work>) {
    forall i, j :: 0 <= i < j < |ws| && ws[i].state == Active && ws[j].state == Active ==> ws[i].workspaceId != ws[j].workspaceId
  }

  predicate WorksOk(ws: seq<Work>, revision: nat) {
    UniqueWorks(ws) && OneWriter(ws) && forall i :: 0 <= i < |ws| ==> WorkOk(ws[i], revision)
  }

  // ---------- cases ----------

  predicate CaseOk(c: Case, revision: nat) {
    1 <= c.revision <= revision && 1 <= c.generation <= revision && c.lead in c.members && Distinct(c.members) &&
    (c.state == Closed ==> c.effect == NotStarted) && (c.inputs != [] ==> c.targetOid.Some?) &&
    (c.origin == Some(PendingOrigin) ==> c.inputs == [] && c.targetOid.None?)
  }

  predicate UniqueCases(cs: seq<Case>) {
    forall i, j :: 0 <= i < j < |cs| ==> cs[i].id != cs[j].id
  }

  /** One active case per target, and it has the target's greatest generation; no generation repeats. */
  predicate Fenced(cs: seq<Case>) {
    forall i, j :: 0 <= i < |cs| && 0 <= j < |cs| && i != j && cs[i].target == cs[j].target ==>
      cs[i].generation != cs[j].generation && (cs[i].state == Active ==> cs[j].generation < cs[i].generation)
  }

  predicate CasesOk(cs: seq<Case>, revision: nat) {
    UniqueCases(cs) && Fenced(cs) && forall i :: 0 <= i < |cs| ==> CaseOk(cs[i], revision)
  }

  predicate InputsKnown(ws: seq<Work>, c: Case) {
    forall k :: 0 <= k < |c.inputs| ==> HasWork(ws, c.inputs[k].workId)
  }

  predicate CasesKnown(ws: seq<Work>, cs: seq<Case>) {
    forall i :: 0 <= i < |cs| ==> InputsKnown(ws, cs[i])
  }

  // ---------- notes ----------

  predicate NoteOk(n: Note) {
    (n.kind == AgreementProposal <==> n.parties != []) && Distinct(n.acknowledged) &&
    forall k :: 0 <= k < |n.acknowledged| ==> n.acknowledged[k] in n.parties
  }

  predicate SubjectKnown(ws: seq<Work>, cs: seq<Case>, subject: Subject) {
    match subject.kind
    case WorkSubject => HasWork(ws, subject.id)
    case CaseSubject => HasCase(cs, subject.id)
  }

  predicate NoteRefers(ws: seq<Work>, cs: seq<Case>, n: Note) {
    SubjectKnown(ws, cs, n.subject) && (n.subject.kind == WorkSubject ==> n.workRefs == [n.subject.id]) &&
    forall k :: 0 <= k < |n.workRefs| ==> HasWork(ws, n.workRefs[k])
  }

  predicate UniqueNotes(ns: seq<Note>) {
    forall i, j :: 0 <= i < j < |ns| ==> ns[i].id != ns[j].id
  }

  predicate NotesOk(ns: seq<Note>) {
    UniqueNotes(ns) && forall i :: 0 <= i < |ns| ==> NoteOk(ns[i])
  }

  predicate NotesKnown(ws: seq<Work>, cs: seq<Case>, ns: seq<Note>) {
    forall i :: 0 <= i < |ns| ==> NoteRefers(ws, cs, ns[i])
  }

  /** No identity is shared between a work, a case and a note. */
  predicate IdsDisjoint(ws: seq<Work>, cs: seq<Case>, ns: seq<Note>) {
    (forall i, j :: 0 <= i < |ws| && 0 <= j < |cs| ==> ws[i].id != cs[j].id) &&
    (forall i, j :: 0 <= i < |ws| && 0 <= j < |ns| ==> ws[i].id != ns[j].id) &&
    (forall i, j :: 0 <= i < |cs| && 0 <= j < |ns| ==> cs[i].id != ns[j].id)
  }

  predicate KnownId(ws: seq<Work>, cs: seq<Case>, ns: seq<Note>, id: Id) {
    HasWork(ws, id) || HasCase(cs, id) || HasNote(ns, id)
  }

  // ---------- the three ledgers ----------

  function ReceiptRevisions(rs: seq<Receipt>): (r: seq<nat>)
    ensures |r| == |rs|
    ensures forall i :: 0 <= i < |r| ==> r[i] == rs[i].revision
  {
    seq(|rs|, i requires 0 <= i < |rs| => rs[i].revision)
  }

  function RecoveryRevisions(rs: seq<RecoveryReceipt>): (r: seq<nat>)
    ensures |r| == |rs|
    ensures forall i :: 0 <= i < |r| ==> r[i] == rs[i].revision
  {
    seq(|rs|, i requires 0 <= i < |rs| => rs[i].revision)
  }

  function EventRevisions(es: seq<Event>): (r: seq<nat>)
    ensures |r| == |es|
    ensures forall i :: 0 <= i < |r| ==> r[i] == es[i].revision
  {
    seq(|es|, i requires 0 <= i < |es| => es[i].revision)
  }

  function Revisions(s: Control): multiset<nat> {
    multiset(ReceiptRevisions(s.receipts)) + multiset(RecoveryRevisions(s.recoveries)) + multiset(EventRevisions(s.events))
  }

  function UpTo(n: nat): (r: seq<nat>)
    ensures |r| == n
    ensures forall i :: 0 <= i < n ==> r[i] == i + 1
  {
    seq(n, i => i + 1)
  }

  /** The three ledgers hold exactly the revisions 1 to the current one, each once. */
  predicate HistoryExact(s: Control) {
    Revisions(s) == multiset(UpTo(s.revision))
  }

  datatype OwnedKey = OwnedKey(owner: ParentId, key: Key)

  function ReceiptKeys(rs: seq<Receipt>): (r: seq<OwnedKey>)
    ensures |r| == |rs|
    ensures forall i :: 0 <= i < |r| ==> r[i] == OwnedKey(rs[i].owner, rs[i].key)
  {
    seq(|rs|, i requires 0 <= i < |rs| => OwnedKey(rs[i].owner, rs[i].key))
  }

  function RecoveryKeys(rs: seq<RecoveryReceipt>): (r: seq<OwnedKey>)
    ensures |r| == |rs|
    ensures forall i :: 0 <= i < |r| ==> r[i] == OwnedKey(rs[i].operator, rs[i].recovery.key)
  {
    seq(|rs|, i requires 0 <= i < |rs| => OwnedKey(rs[i].operator, rs[i].recovery.key))
  }

  function EventKeys(es: seq<Event>): (r: seq<OwnedKey>)
    ensures |r| == |es|
    ensures forall i :: 0 <= i < |r| ==> r[i] == OwnedKey(es[i].owner, es[i].key)
  {
    seq(|es|, i requires 0 <= i < |es| => OwnedKey(es[i].owner, es[i].key))
  }

  function Keys(s: Control): multiset<OwnedKey> {
    multiset(ReceiptKeys(s.receipts)) + multiset(RecoveryKeys(s.recoveries)) + multiset(EventKeys(s.events))
  }

  /** Each owner's key acknowledges at most one request across the three ledgers. */
  ghost predicate KeysOnce(s: Control) {
    forall k: OwnedKey :: Keys(s)[k] <= 1
  }

  /** A receipt is about records that still exist. */
  predicate ReceiptRefers(s: Control, r: Receipt) {
    KnownId(s.works, s.cases, s.notes, r.itemId) && SubjectKnown(s.works, s.cases, r.entity)
  }

  predicate RecoveryRefers(s: Control, r: RecoveryReceipt) {
    r.recovery.epoch == s.epoch && r.recovery.expectedRevision < r.revision &&
    (if Ledger.TouchesWork(r.recovery.action) then HasWork(s.works, r.recovery.itemId) else HasCase(s.cases, r.recovery.itemId)) &&
    (!Ledger.TouchesWork(r.recovery.action) ==> Ledger.ActionGeneration(r.recovery.action) < r.revision)
  }

  predicate LedgersRefer(s: Control) {
    (forall i :: 0 <= i < |s.receipts| ==> ReceiptRefers(s, s.receipts[i])) &&
    (forall i :: 0 <= i < |s.recoveries| ==> RecoveryRefers(s, s.recoveries[i]))
  }

  // ---------- managed enrollment ----------

  /** The immutable request that enrolled this managed work. */
  predicate Enrolls(r: Receipt, w: Work) {
    w.managed.Some? && r.action == ActRegisterTaskWork && r.itemId == w.id && r.entity == Subject(WorkSubject, w.id) &&
    r.request == CommandRequest(r.owner, RegisterTaskWork(r.key, w.workspaceId, w.inputOid, w.objectFormat, w.intent, w.areas, w.managed.value))
  }

  predicate Enrolled(ws: seq<Work>, rs: seq<Receipt>) {
    (forall i :: 0 <= i < |ws| && ws[i].managed.Some? ==> exists k :: 0 <= k < |rs| && Enrolls(rs[k], ws[i])) &&
    (forall k :: 0 <= k < |rs| && rs[k].action == ActRegisterTaskWork ==>
       HasWork(ws, rs[k].itemId) && Enrolls(rs[k], ws[WorkIndex(ws, rs[k].itemId)])) &&
    (forall j, k :: 0 <= j < k < |rs| && rs[j].action == ActRegisterTaskWork && rs[k].action == ActRegisterTaskWork ==>
       rs[j].itemId != rs[k].itemId)
  }

  /** The part of the invariant about works, cases and notes. */
  predicate RecordsOk(s: Control) {
    WorksOk(s.works, s.revision) && CasesOk(s.cases, s.revision) && NotesOk(s.notes) &&
    CasesKnown(s.works, s.cases) && NotesKnown(s.works, s.cases, s.notes) && IdsDisjoint(s.works, s.cases, s.notes)
  }

  // ---------- storage versions ----------

  predicate WorkFitsSchema(w: Work, schema: nat) {
    (schema < MANAGED_SCHEMA ==> w.managed.None?) && (schema < GRANT_SCHEMA ==> w.grants.None?) &&
    (schema < WATCH_SCHEMA ==> w.watches.None?)
  }

  predicate CaseFitsSchema(c: Case, schema: nat) {
    schema < OBSERVED_SCHEMA ==> c.origin.None? && c.pending.None? && c.observed.None? && c.visibility.None?
  }

  predicate NoteFitsSchema(n: Note, schema: nat) {
    schema < OBSERVED_SCHEMA ==> n.readers.None?
  }

  /** Every retained field is one the stored version can hold. */
  predicate FieldsFit(s: Control) {
    (forall i :: 0 <= i < |s.works| ==> WorkFitsSchema(s.works[i], s.schema)) &&
    (forall i :: 0 <= i < |s.cases| ==> CaseFitsSchema(s.cases[i], s.schema)) &&
    (forall i :: 0 <= i < |s.notes| ==> NoteFitsSchema(s.notes[i], s.schema))
  }

  predicate HasManaged(ws: seq<Work>) {
    exists i :: 0 <= i < |ws| && ws[i].managed.Some?
  }

  predicate LedgersFit(s: Control) {
    1 <= s.schema <= OBSERVED_SCHEMA &&
    (s.schema == 1 ==> s.recoveries == []) && (s.schema == 2 ==> s.recoveries != []) &&
    (s.schema == MANAGED_SCHEMA ==> HasManaged(s.works)) &&
    (s.schema < SUBMISSION_SCHEMA ==> s.announcements == [] && s.bindings == [] && s.events == []) &&
    (s.schema < OBSERVED_SCHEMA ==>
       forall i :: 0 <= i < |s.receipts| ==> s.receipts[i].action != ActExtendCase && s.receipts[i].action != ActObserveDelivery)
  }

  /** Keys with the worker prefix only ever acknowledge receipts. */
  predicate NoWorkerKeys(s: Control) {
    (forall i :: 0 <= i < |s.recoveries| ==> !s.recoveries[i].recovery.key.WorkerKey?) &&
    (forall i :: 0 <= i < |s.events| ==> !s.events[i].key.WorkerKey?)
  }
}
